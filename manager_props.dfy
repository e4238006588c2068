/**
 * What the manager's operations promise, proved about the functions of
 * `ManagerSpec` (and so, through the methods' contracts, about `Managers.Manager`):
 * the login policies, the two logouts, and the store invariant they all keep.
 */
module ManagerProps {
  import opened Errors
  import opened Signs
  import opened Records
  import opened Stores
  import opened Configs
  import opened Sentinels
  import opened ManagerSpec
  import Keys

  /** Every stored session record sits under its own id and its sign values are unique. */
  predicate WellFormed(data: Data)
  {
    forall k :: k in data && data[k].value.Object? ==>
      data[k].value.record.id == k && UniqueValues(data[k].value.record.signs)
  }

  /** The signs of an identity's session, or none when it has no readable session. */
  function IdentitySigns(data: Data, cfg: Config, loginType: string, loginId: string): seq<TokenSign>
  {
    match ReadObject(data, SessionKeyOf(cfg, loginType, loginId))
    case Ok(rec) => rec.signs
    case Err(_) => []
  }

  // ------------------------------------------------------------------ keys

  /** The three kinds of key one manager writes are pairwise apart, and each determines its id. */
  lemma KeysApart(cfg: Config, loginType: string, a: string, b: string)
    ensures SessionKeyOf(cfg, loginType, a) != TokenKeyOf(cfg, loginType, b)
    ensures SessionKeyOf(cfg, loginType, a) != TokenSessionKeyOf(cfg, loginType, b)
    ensures TokenKeyOf(cfg, loginType, a) != TokenSessionKeyOf(cfg, loginType, b)
    ensures TokenKeyOf(cfg, loginType, a) == TokenKeyOf(cfg, loginType, b) ==> a == b
    ensures TokenSessionKeyOf(cfg, loginType, a) == TokenSessionKeyOf(cfg, loginType, b) ==> a == b
    ensures SessionKeyOf(cfg, loginType, a) == SessionKeyOf(cfg, loginType, b) ==> a == b
  {
    var tn := cfg.tokenName;
    Keys.KindsNeverCollide(tn, loginType, Keys.Session, a, Keys.Token, b);
    Keys.KindsNeverCollide(tn, loginType, Keys.Session, a, Keys.TokenSession, b);
    Keys.KindsNeverCollide(tn, loginType, Keys.Token, a, Keys.TokenSession, b);
    if TokenKeyOf(cfg, loginType, a) == TokenKeyOf(cfg, loginType, b) {
      Keys.KeyInjective(tn, loginType, Keys.Token, a, b);
    }
    if TokenSessionKeyOf(cfg, loginType, a) == TokenSessionKeyOf(cfg, loginType, b) {
      Keys.KeyInjective(tn, loginType, Keys.TokenSession, a, b);
    }
    if SessionKeyOf(cfg, loginType, a) == SessionKeyOf(cfg, loginType, b) {
      Keys.KeyInjective(tn, loginType, Keys.Session, a, b);
    }
  }

  /** No token key of a sign list is the identity-session's key. */
  lemma TokenKeysMissSession(cfg: Config, loginType: string, loginId: string, list: seq<TokenSign>)
    ensures forall s :: s in list ==> TokenKeyOf(cfg, loginType, s.value) != SessionKeyOf(cfg, loginType, loginId)
  {
    forall s | s in list
      ensures TokenKeyOf(cfg, loginType, s.value) != SessionKeyOf(cfg, loginType, loginId)
    {
      KeysApart(cfg, loginType, loginId, s.value);
    }
  }

  // ----------------------------------------------------------- the invariant

  /** A write or delete keeps the invariant when what it writes is a record under its own id. */
  lemma WriteKeepsWellFormed(data: Data, key: string, v: Value, exp: int)
    requires WellFormed(data)
    requires v.Object? ==> v.record.id == key && UniqueValues(v.record.signs)
    ensures WellFormed(SetValue(data, key, v, exp))
    ensures WellFormed(UpdateValue(data, key, v))
    ensures WellFormed(data - {key})
  {
  }

  /** The loop of `replaced` keeps the invariant. */
  lemma {:induction false} ReplaceSignsKeepsWellFormed(data: Data, cfg: Config, loginType: string, rec: SessionRecord, list: seq<TokenSign>)
    requires WellFormed(data) && UniqueValues(rec.signs)
    ensures WellFormed(ReplaceSigns(data, cfg, loginType, rec, list))
    decreases |list|
  {
    if list != [] {
      var rec' := rec.(signs := RemoveSign(rec.signs, list[0].value));
      RemoveSignKeepsUnique(rec.signs, list[0].value);
      var saved := UpdateValue(data, rec'.id, Object(rec'));
      WriteKeepsWellFormed(data, rec'.id, Object(rec'), 0);
      var key := TokenKeyOf(cfg, loginType, list[0].value);
      WriteKeepsWellFormed(saved, key, Text(BeReplacedValue), 0);
      ReplaceSignsKeepsWellFormed(UpdateValue(saved, key, Text(BeReplacedValue)), cfg, loginType, rec', list[1..]);
    }
  }

  /** The deletions of `LogoutByLoginId` only remove entries. */
  lemma {:induction false} DropTokensShrinks(data: Data, cfg: Config, loginType: string, list: seq<TokenSign>)
    ensures forall k :: k in DropTokens(data, cfg, loginType, list) ==> k in data && DropTokens(data, cfg, loginType, list)[k] == data[k]
    decreases |list|
  {
    if list != [] {
      var v := list[0].value;
      DropTokensShrinks(data - {TokenKeyOf(cfg, loginType, v)} - {TokenSessionKeyOf(cfg, loginType, v)}, cfg, loginType, list[1..]);
    }
  }

  // ------------------------------------------------------- replaced, step by step

  /** The loop of `replaced` touches only the session's own key and the listed tokens' keys. */
  lemma {:induction false} ReplaceSignsFrame(data: Data, cfg: Config, loginType: string, rec: SessionRecord, list: seq<TokenSign>, k: string)
    requires k != rec.id
    requires forall s :: s in list ==> TokenKeyOf(cfg, loginType, s.value) != k
    ensures k in ReplaceSigns(data, cfg, loginType, rec, list) <==> k in data
    ensures k in data ==> ReplaceSigns(data, cfg, loginType, rec, list)[k] == data[k]
    decreases |list|
  {
    if list != [] {
      var rec' := rec.(signs := RemoveSign(rec.signs, list[0].value));
      var saved := UpdateValue(data, rec'.id, Object(rec'));
      var marked := UpdateValue(saved, TokenKeyOf(cfg, loginType, list[0].value), Text(BeReplacedValue));
      assert forall s :: s in list[1..] ==> s in list;
      ReplaceSignsFrame(marked, cfg, loginType, rec', list[1..], k);
    }
  }

  /** After the loop of `replaced`, the session holds its signs minus the listed ones. */
  lemma {:induction false} ReplaceSignsRecord(data: Data, cfg: Config, loginType: string, rec: SessionRecord, list: seq<TokenSign>)
    requires ReadObject(data, rec.id) == Ok(rec)
    requires forall s :: s in list ==> TokenKeyOf(cfg, loginType, s.value) != rec.id
    ensures ReadObject(ReplaceSigns(data, cfg, loginType, rec, list), rec.id) == Ok(rec.(signs := RemoveSigns(rec.signs, list)))
    decreases |list|
  {
    if list != [] {
      var rec' := rec.(signs := RemoveSign(rec.signs, list[0].value));
      var saved := UpdateValue(data, rec'.id, Object(rec'));
      var marked := UpdateValue(saved, TokenKeyOf(cfg, loginType, list[0].value), Text(BeReplacedValue));
      assert ReadObject(marked, rec'.id) == Ok(rec');
      assert forall s :: s in list[1..] ==> s in list;
      ReplaceSignsRecord(marked, cfg, loginType, rec', list[1..]);
    }
  }

  /** A token key already marked replaced stays marked through the loop of `replaced`. */
  lemma {:induction false} ReplaceSignsKeepsMark(data: Data, cfg: Config, loginType: string, rec: SessionRecord, list: seq<TokenSign>, k: string)
    requires k != rec.id
    requires ReadText(data, k) == Ok(BeReplacedValue) && k in data
    ensures var r := ReplaceSigns(data, cfg, loginType, rec, list); k in r && ReadText(r, k) == Ok(BeReplacedValue)
    decreases |list|
  {
    if list != [] {
      var rec' := rec.(signs := RemoveSign(rec.signs, list[0].value));
      var saved := UpdateValue(data, rec'.id, Object(rec'));
      var marked := UpdateValue(saved, TokenKeyOf(cfg, loginType, list[0].value), Text(BeReplacedValue));
      ReplaceSignsKeepsMark(marked, cfg, loginType, rec', list[1..], k);
    }
  }

  /** Every listed token ends up mapped to "-4". */
  lemma {:induction false} ReplaceSignsMarks(data: Data, cfg: Config, loginType: string, rec: SessionRecord, list: seq<TokenSign>, s: TokenSign)
    requires s in list
    requires forall x :: x in list ==> TokenKeyOf(cfg, loginType, x.value) != rec.id
    ensures ReadText(ReplaceSigns(data, cfg, loginType, rec, list), TokenKeyOf(cfg, loginType, s.value)) == Ok(BeReplacedValue)
    decreases |list|
  {
    var rec' := rec.(signs := RemoveSign(rec.signs, list[0].value));
    var saved := UpdateValue(data, rec'.id, Object(rec'));
    var marked := UpdateValue(saved, TokenKeyOf(cfg, loginType, list[0].value), Text(BeReplacedValue));
    if list[0].value == s.value {
      ReplaceSignsKeepsMark(marked, cfg, loginType, rec', list[1..], TokenKeyOf(cfg, loginType, s.value));
    } else {
      assert s in list[1..];
      assert forall x :: x in list[1..] ==> x in list;
      ReplaceSignsMarks(marked, cfg, loginType, rec', list[1..], s);
    }
  }

  // ------------------------------------------------- logoutByLoginId, step by step

  /** The deletions of `LogoutByLoginId` remove each listed token's mapping and token-session. */
  lemma {:induction false} DropTokensRemoves(data: Data, cfg: Config, loginType: string, list: seq<TokenSign>, s: TokenSign)
    requires s in list
    ensures TokenKeyOf(cfg, loginType, s.value) !in DropTokens(data, cfg, loginType, list)
    ensures TokenSessionKeyOf(cfg, loginType, s.value) !in DropTokens(data, cfg, loginType, list)
    decreases |list|
  {
    var v := list[0].value;
    var next := data - {TokenKeyOf(cfg, loginType, v)} - {TokenSessionKeyOf(cfg, loginType, v)};
    if v == s.value {
      DropTokensShrinks(next, cfg, loginType, list[1..]);
    } else {
      assert s in list[1..];
      DropTokensRemoves(next, cfg, loginType, list[1..], s);
    }
  }

  /** The deletions of `LogoutByLoginId` leave every other key alone. */
  lemma {:induction false} DropTokensFrame(data: Data, cfg: Config, loginType: string, list: seq<TokenSign>, k: string)
    requires forall s :: s in list ==> TokenKeyOf(cfg, loginType, s.value) != k && TokenSessionKeyOf(cfg, loginType, s.value) != k
    ensures k in DropTokens(data, cfg, loginType, list) <==> k in data
    ensures k in data ==> DropTokens(data, cfg, loginType, list)[k] == data[k]
    decreases |list|
  {
    if list != [] {
      var v := list[0].value;
      assert forall s :: s in list[1..] ==> s in list;
      DropTokensFrame(data - {TokenKeyOf(cfg, loginType, v)} - {TokenSessionKeyOf(cfg, loginType, v)}, cfg, loginType, list[1..], k);
    }
  }

  // ------------------------------------------------------------------ replaced

  /**
   * `replaced` on an existing identity-session: the signs of the device are gone
   * from the session, each of their tokens now maps to "-4", and the invariant holds.
   */
  lemma ReplacedEffect(data: Data, cfg: Config, loginType: string, loginId: string, device: string)
    requires WellFormed(data)
    requires ReadObject(data, SessionKeyOf(cfg, loginType, loginId)).Ok?
    ensures var rec := ReadObject(data, SessionKeyOf(cfg, loginType, loginId)).value;
      var e := Replaced(data, cfg, loginType, loginId, device);
      && e.outcome == Pass
      && WellFormed(e.data)
      && ReadObject(e.data, SessionKeyOf(cfg, loginType, loginId)) == Ok(rec.(signs := SignsOffDevice(rec.signs, device)))
      && forall s :: s in rec.signs && OnDevice(s, device) ==>
           ReadText(e.data, TokenKeyOf(cfg, loginType, s.value)) == Ok(BeReplacedValue)
  {
    var key := SessionKeyOf(cfg, loginType, loginId);
    var rec := ReadObject(data, key).value;
    var list := SignsByDevice(rec.signs, device);
    TokenKeysMissSession(cfg, loginType, loginId, list);
    ReplaceSignsKeepsWellFormed(data, cfg, loginType, rec, list);
    ReplaceSignsRecord(data, cfg, loginType, rec, list);
    RemoveSignsByDevice(rec.signs, device);
    forall s | s in rec.signs && OnDevice(s, device)
      ensures ReadText(ReplaceSigns(data, cfg, loginType, rec, list), TokenKeyOf(cfg, loginType, s.value)) == Ok(BeReplacedValue)
    {
      ReplaceSignsMarks(data, cfg, loginType, rec, list, s);
    }
  }

  /** `replaced` keeps the invariant, whatever the store holds. */
  lemma ReplacedKeepsWellFormed(data: Data, cfg: Config, loginType: string, loginId: string, device: string)
    requires WellFormed(data)
    ensures WellFormed(Replaced(data, cfg, loginType, loginId, device).data)
  {
    if ReadObject(data, SessionKeyOf(cfg, loginType, loginId)).Ok? {
      ReplacedEffect(data, cfg, loginType, loginId, device);
    }
  }

  // --------------------------------------------------------------------- login

  /** Choosing a token keeps the invariant. */
  lemma GenTokenKeepsWellFormed(data: Data, cfg: Config, loginType: string, loginId: string, model: LoginModel, generated: string)
    requires WellFormed(data)
    ensures WellFormed(GenToken(data, cfg, loginType, loginId, model, generated).data)
  {
    if !cfg.isConcurrent {
      ReplacedKeepsWellFormed(data, cfg, loginType, loginId, model.device);
    }
  }

  /** The session `Login` saves holds the new sign under its own key. */
  lemma LoginKeepsWellFormed(data: Data, cfg: Config, loginType: string, loginId: string, model: LoginModel, generated: string)
    requires WellFormed(data)
    ensures WellFormed(Login(data, cfg, loginType, loginId, model, generated).data)
  {
    var g := GenToken(data, cfg, loginType, loginId, model, generated);
    GenTokenKeepsWellFormed(data, cfg, loginType, loginId, model, generated);
    if g.result.Ok? {
      var key := SessionKeyOf(cfg, loginType, loginId);
      var s := LoadOrCreate(g.data, cfg, loginType, key, true, Account(loginId));
      if s.result.Ok? {
        var rec0 := s.result.value;
        var sign := TokenSign(g.result.value, model.DeviceOrDefault(), "");
        var rec := rec0.(signs := AddSign(rec0.signs, sign));
        WriteKeepsWellFormed(g.data, key, Object(rec0), cfg.timeout);
        assert WellFormed(s.data);
        assert rec0.id == key && UniqueValues(rec0.signs);
        AddSignKeepsUnique(rec0.signs, sign);
        WriteKeepsWellFormed(s.data, rec.id, Object(rec), 0);
        WriteKeepsWellFormed(UpdateValue(s.data, rec.id, Object(rec)), TokenKeyOf(cfg, loginType, g.result.value), Text(loginId), cfg.timeout);
      }
    }
  }

  /**
   * A successful login maps its token to the login id (for `cfg.timeout`) and
   * records the sign `{token, device-or-default, ""}` in the identity-session;
   * `GetLoginId` then gives the login id back unless that id is a sentinel.
   */
  lemma LoginRecordsToken(data: Data, cfg: Config, loginType: string, loginId: string, model: LoginModel, generated: string)
    requires WellFormed(data)
    requires Login(data, cfg, loginType, loginId, model, generated).result.Ok?
    ensures var s := Login(data, cfg, loginType, loginId, model, generated);
      var t := s.result.value;
      && ReadText(s.data, TokenKeyOf(cfg, loginType, t)) == Ok(loginId)
      && (cfg.timeout > 0 ==> s.data[TokenKeyOf(cfg, loginType, t)].ttl == Expires(cfg.timeout))
      && TokenSign(t, model.DeviceOrDefault(), "") in IdentitySigns(s.data, cfg, loginType, loginId)
      && GetLoginId(s.data, cfg, loginType, t) == (if IsValidLoginId(loginId).None? then Ok(loginId) else Err(IsValidLoginId(loginId).value))
  {
    var key := SessionKeyOf(cfg, loginType, loginId);
    var g := GenToken(data, cfg, loginType, loginId, model, generated);
    GenTokenKeepsWellFormed(data, cfg, loginType, loginId, model, generated);
    var t := g.result.value;
    var s := LoadOrCreate(g.data, cfg, loginType, key, true, Account(loginId));
    var rec0 := s.result.value;
    assert rec0.id == key;
    var sign := TokenSign(t, model.DeviceOrDefault(), "");
    var rec := rec0.(signs := AddSign(rec0.signs, sign));
    AddSignKeepsUnique(rec0.signs, sign);
    KeysApart(cfg, loginType, loginId, t);
    var saved := UpdateValue(s.data, key, Object(rec));
    assert ReadObject(SetValue(saved, TokenKeyOf(cfg, loginType, t), Text(loginId), cfg.timeout), key) == Ok(rec);
  }

  /**
   * Under the replace policy (`IsConcurrent == false`) a login always succeeds on a
   * store whose identity-session is absent or readable, issues the caller's token or
   * the generated one, and leaves the session with the signs of the OTHER devices
   * plus the new sign. The raw device is used for the replacement, so the empty
   * device replaces the signs of every device.
   */
  lemma LoginUnderReplace(data: Data, cfg: Config, loginType: string, loginId: string, model: LoginModel, generated: string)
    requires cfg.Policy() == ReplacePrevious
    requires WellFormed(data)
    requires ReadObject(data, SessionKeyOf(cfg, loginType, loginId)) != Err(Malformed)
    ensures var s := Login(data, cfg, loginType, loginId, model, generated);
      && s.result == Ok(if model.token != "" then model.token else generated)
      && IdentitySigns(s.data, cfg, loginType, loginId)
         == AddSign(SignsOffDevice(IdentitySigns(data, cfg, loginType, loginId), model.device),
                    TokenSign(s.result.value, model.DeviceOrDefault(), ""))
  {
    var key := SessionKeyOf(cfg, loginType, loginId);
    var g := GenToken(data, cfg, loginType, loginId, model, generated);
    var t := if model.token != "" then model.token else generated;
    var sign := TokenSign(t, model.DeviceOrDefault(), "");
    KeysApart(cfg, loginType, loginId, t);
    match ReadObject(data, key)
    case Ok(rec) =>
      ReplacedEffect(data, cfg, loginType, loginId, model.device);
      assert g == Step(Ok(t), Replaced(data, cfg, loginType, loginId, model.device).data);
      var rec1 := rec.(signs := SignsOffDevice(rec.signs, model.device));
      assert LoadOrCreate(g.data, cfg, loginType, key, true, Account(loginId)) == Step(Ok(rec1), g.data);
      var rec2 := rec1.(signs := AddSign(rec1.signs, sign));
      assert rec2.id == key;
      var saved := UpdateValue(g.data, key, Object(rec2));
      assert ReadObject(SetValue(saved, TokenKeyOf(cfg, loginType, t), Text(loginId), cfg.timeout), key) == Ok(rec2);
    case Err(_) =>
      assert g == Step(Ok(t), data);
      var rec0 := LoadOrCreate(data, cfg, loginType, key, true, Account(loginId)).result.value;
      var rec2 := rec0.(signs := AddSign([], sign));
      var saved := UpdateValue(LoadOrCreate(data, cfg, loginType, key, true, Account(loginId)).data, key, Object(rec2));
      assert ReadObject(SetValue(saved, TokenKeyOf(cfg, loginType, t), Text(loginId), cfg.timeout), key) == Ok(rec2);
  }

  /**
   * The replace policy in action: after a login, any earlier token of the identity
   * on the login's device (every device, for the empty device) that is not the new
   * token reads back as replaced.
   */
  lemma LoginReplacesPrevious(data: Data, cfg: Config, loginType: string, loginId: string, model: LoginModel, generated: string, prev: TokenSign)
    requires cfg.Policy() == ReplacePrevious
    requires WellFormed(data)
    requires prev in IdentitySigns(data, cfg, loginType, loginId) && OnDevice(prev, model.device)
    requires prev.value != (if model.token != "" then model.token else generated)
    ensures var s := Login(data, cfg, loginType, loginId, model, generated);
      s.result.Ok? && GetLoginId(s.data, cfg, loginType, prev.value) == Err(BeReplaced)
  {
    var t := if model.token != "" then model.token else generated;
    var e := Replaced(data, cfg, loginType, loginId, model.device);
    var rec2 := ReplacedLogin(data, cfg, loginType, loginId, model, generated);
    ReplacedEffect(data, cfg, loginType, loginId, model.device);
    assert ReadText(e.data, TokenKeyOf(cfg, loginType, prev.value)) == Ok(BeReplacedValue);
    MarkSurvivesLogin(e.data, cfg, loginType, loginId, t, prev.value, rec2, cfg.timeout);
  }

  /** A token marked "-4" stays marked through a login's two writes for another token. */
  lemma MarkSurvivesLogin(data: Data, cfg: Config, loginType: string, loginId: string, t: string, prev: string, rec: SessionRecord, timeout: int)
    requires ReadText(data, TokenKeyOf(cfg, loginType, prev)) == Ok(BeReplacedValue)
    requires prev != t
    ensures var saved := UpdateValue(data, SessionKeyOf(cfg, loginType, loginId), Object(rec));
      GetLoginId(SetValue(saved, TokenKeyOf(cfg, loginType, t), Text(loginId), timeout), cfg, loginType, prev) == Err(BeReplaced)
  {
    var pk := TokenKeyOf(cfg, loginType, prev);
    KeysApart(cfg, loginType, loginId, prev);
    KeysApart(cfg, loginType, t, prev);
    var saved := UpdateValue(data, SessionKeyOf(cfg, loginType, loginId), Object(rec));
    assert ReadText(SetValue(saved, TokenKeyOf(cfg, loginType, t), Text(loginId), timeout), pk) == Ok(BeReplacedValue);
  }

  /** The store a replace-policy login leaves, over a readable identity-session: replaced, then the two writes. */
  lemma ReplacedLogin(data: Data, cfg: Config, loginType: string, loginId: string, model: LoginModel, generated: string)
    returns (rec2: SessionRecord)
    requires cfg.Policy() == ReplacePrevious
    requires WellFormed(data)
    requires ReadObject(data, SessionKeyOf(cfg, loginType, loginId)).Ok?
    ensures var key := SessionKeyOf(cfg, loginType, loginId);
      var t := if model.token != "" then model.token else generated;
      var e := Replaced(data, cfg, loginType, loginId, model.device);
      Login(data, cfg, loginType, loginId, model, generated)
        == Step(Ok(t), SetValue(UpdateValue(e.data, key, Object(rec2)), TokenKeyOf(cfg, loginType, t), Text(loginId), cfg.timeout))
  {
    var key := SessionKeyOf(cfg, loginType, loginId);
    var rec := ReadObject(data, key).value;
    var t := if model.token != "" then model.token else generated;
    ReplacedEffect(data, cfg, loginType, loginId, model.device);
    var e := Replaced(data, cfg, loginType, loginId, model.device);
    var rec1 := rec.(signs := SignsOffDevice(rec.signs, model.device));
    assert LoadOrCreate(e.data, cfg, loginType, key, true, Account(loginId)) == Step(Ok(rec1), e.data);
    rec2 := rec1.(signs := AddSign(rec1.signs, TokenSign(t, model.DeviceOrDefault(), "")));
  }

  /** Rewriting an entry with what it already holds changes nothing. */
  lemma RewriteSame(data: Data, key: string, v: Value, exp: int)
    requires key in data && data[key] == Entry(v, TtlAfterSet(data, key, exp))
    ensures SetValue(data, key, v, exp) == data
  {
    assert SetValue(data, key, v, exp).Keys == data.Keys;
  }

  /**
   * Under the share policy (`IsConcurrent && IsShare`) and without a caller token,
   * logging in again on the same device issues the same token and leaves the store
   * exactly as the first login left it. (The first sign of the device must not
   * carry the empty token, and the generated token must not be empty: otherwise
   * the empty value reads as "nothing to share".)
   */
  lemma ShareReusesToken(data: Data, cfg: Config, loginType: string, loginId: string, model: LoginModel, g1: string, g2: string)
    requires cfg.Policy() == ShareExisting && model.token == ""
    requires WellFormed(data)
    requires ReadObject(data, SessionKeyOf(cfg, loginType, loginId)) != Err(Malformed)
    requires "" !in ValuesByDevice(IdentitySigns(data, cfg, loginType, loginId), model.DeviceOrDefault())
    requires g1 != ""
    ensures var first := Login(data, cfg, loginType, loginId, model, g1);
      first.result.Ok? && Login(first.data, cfg, loginType, loginId, model, g2) == first
  {
    var key := SessionKeyOf(cfg, loginType, loginId);
    var d := model.DeviceOrDefault();
    var signs0 := IdentitySigns(data, cfg, loginType, loginId);
    var shared := if ValuesByDevice(signs0, d) == [] then "" else ValuesByDevice(signs0, d)[0];
    assert TokenValue(data, cfg, loginType, loginId, d) == Ok(shared);
    var t := if shared != "" then shared else g1;
    assert GenToken(data, cfg, loginType, loginId, model, g1) == Step(Ok(t), data);
    var s := LoadOrCreate(data, cfg, loginType, key, true, Account(loginId));
    var rec0 := s.result.value;
    assert rec0.signs == signs0 && rec0.id == key;
    var sign := TokenSign(t, d, "");
    var recA := rec0.(signs := AddSign(signs0, sign));
    AddSignFirstOnDevice(signs0, sign);
    KeysApart(cfg, loginType, loginId, t);
    var tk := TokenKeyOf(cfg, loginType, t);
    var saved := UpdateValue(s.data, key, Object(recA));
    var d1 := SetValue(saved, tk, Text(loginId), cfg.timeout);
    assert Login(data, cfg, loginType, loginId, model, g1) == Step(Ok(t), d1);
    // the second login
    assert ReadObject(d1, key) == Ok(recA);
    assert TokenValue(d1, cfg, loginType, loginId, d) == Ok(t);
    assert GenToken(d1, cfg, loginType, loginId, model, g2) == Step(Ok(t), d1);
    assert LoadOrCreate(d1, cfg, loginType, key, true, Account(loginId)) == Step(Ok(recA), d1);
    AddSignIdempotent(signs0, sign);
    assert recA.(signs := AddSign(recA.signs, sign)) == recA;
    assert d1[key] == Entry(Object(recA), TtlAfterSet(d1, key, TtlReading(d1, key)));
    RewriteSame(d1, key, Object(recA), TtlReading(d1, key));
    assert UpdateValue(d1, key, Object(recA)) == d1;
    RewriteSame(d1, tk, Text(loginId), cfg.timeout);
  }

  /**
   * Under the always-fresh policy (`IsConcurrent && !IsShare`) and without a caller
   * token, two logins with different generated tokens both stay valid: both signs
   * are recorded and both tokens map to the login id.
   */
  lemma FreshTokensCoexist(data: Data, cfg: Config, loginType: string, loginId: string, model: LoginModel, g1: string, g2: string)
    requires cfg.Policy() == AlwaysFresh && model.token == ""
    requires WellFormed(data)
    requires ReadObject(data, SessionKeyOf(cfg, loginType, loginId)) != Err(Malformed)
    requires g1 != g2
    ensures var first := Login(data, cfg, loginType, loginId, model, g1);
      var second := Login(first.data, cfg, loginType, loginId, model, g2);
      && first.result == Ok(g1) && second.result == Ok(g2)
      && TokenSign(g1, model.DeviceOrDefault(), "") in IdentitySigns(second.data, cfg, loginType, loginId)
      && TokenSign(g2, model.DeviceOrDefault(), "") in IdentitySigns(second.data, cfg, loginType, loginId)
      && ReadText(second.data, TokenKeyOf(cfg, loginType, g1)) == Ok(loginId)
      && ReadText(second.data, TokenKeyOf(cfg, loginType, g2)) == Ok(loginId)
  {
    var key := SessionKeyOf(cfg, loginType, loginId);
    var first := Login(data, cfg, loginType, loginId, model, g1);
    assert GenToken(data, cfg, loginType, loginId, model, g1) == Step(Ok(g1), data);
    assert first.result == Ok(g1);
    LoginRecordsToken(data, cfg, loginType, loginId, model, g1);
    LoginKeepsWellFormed(data, cfg, loginType, loginId, model, g1);
    var d1 := first.data;
    var recA := ReadObject(d1, key).value;
    assert GenToken(d1, cfg, loginType, loginId, model, g2) == Step(Ok(g2), d1);
    assert LoadOrCreate(d1, cfg, loginType, key, true, Account(loginId)) == Step(Ok(recA), d1);
    var sign1 := TokenSign(g1, model.DeviceOrDefault(), "");
    var sign2 := TokenSign(g2, model.DeviceOrDefault(), "");
    LoginRecordsToken(d1, cfg, loginType, loginId, model, g2);
    var recB := recA.(signs := AddSign(recA.signs, sign2));
    KeysApart(cfg, loginType, loginId, g2);
    KeysApart(cfg, loginType, loginId, g1);
    KeysApart(cfg, loginType, g1, g2);
    var saved := UpdateValue(d1, key, Object(recB));
    var d2 := SetValue(saved, TokenKeyOf(cfg, loginType, g2), Text(loginId), cfg.timeout);
    assert ReadObject(d2, key) == Ok(recB);
    AddSignKeepsOthers(recA.signs, sign2, sign1);
    assert d2[TokenKeyOf(cfg, loginType, g1)] == d1[TokenKeyOf(cfg, loginType, g1)];
  }

  // ------------------------------------------------------------ logoutByToken

  /**
   * After `LogoutByToken` the token has no token-session and `GetLoginId` rejects
   * it, whatever the store held; the invariant holds afterwards.
   */
  lemma LogoutByTokenForgets(data: Data, cfg: Config, loginType: string, token: string)
    requires WellFormed(data)
    ensures var e := LogoutByToken(data, cfg, loginType, token);
      && WellFormed(e.data)
      && TokenSessionKeyOf(cfg, loginType, token) !in e.data
      && GetLoginId(e.data, cfg, loginType, token).Err?
      && (ReadText(data, TokenKeyOf(cfg, loginType, token)).Ok? ==> GetLoginId(e.data, cfg, loginType, token) == Err(NoToken))
  {
    var tsk := TokenSessionKeyOf(cfg, loginType, token);
    var tk := TokenKeyOf(cfg, loginType, token);
    var d1 := data - {tsk};
    var loginId := StoredLoginId(d1, cfg, loginType, token);
    var d2 := if loginId != "" then d1 - {tk} else d1;
    WriteKeepsWellFormed(data, tsk, Text(""), 0);
    WriteKeepsWellFormed(d1, tk, Text(""), 0);
    KeysApart(cfg, loginType, token, token);
    if IsValidLoginId(loginId).None? {
      var key := SessionKeyOf(cfg, loginType, loginId);
      KeysApart(cfg, loginType, loginId, token);
      var s := LoadOrCreate(d2, cfg, loginType, key, false, Account(loginId));
      if s.result.Ok? {
        var rec := s.result.value.(signs := RemoveSign(s.result.value.signs, token));
        assert rec.id == key;
        RemoveSignKeepsUnique(s.result.value.signs, token);
        WriteKeepsWellFormed(d2, key, Object(rec), 0);
        assert tk !in SaveOrDelete(d2, rec) && tsk !in SaveOrDelete(d2, rec);
      }
    }
  }

  /** `LogoutByToken` is idempotent: a second call finds nothing to do and succeeds. */
  lemma LogoutByTokenIdempotent(data: Data, cfg: Config, loginType: string, token: string)
    requires WellFormed(data)
    ensures var e := LogoutByToken(data, cfg, loginType, token);
      LogoutByToken(e.data, cfg, loginType, token) == Effect(Pass, e.data)
  {
    var tsk := TokenSessionKeyOf(cfg, loginType, token);
    var tk := TokenKeyOf(cfg, loginType, token);
    var e := LogoutByToken(data, cfg, loginType, token);
    LogoutByTokenForgets(data, cfg, loginType, token);
    assert e.data - {tsk} == e.data;
    var loginId := StoredLoginId(data - {tsk}, cfg, loginType, token);
    KeysApart(cfg, loginType, token, token);
    if loginId != "" {
      if IsValidLoginId(loginId).None? {
        KeysApart(cfg, loginType, loginId, token);
      }
      assert tk !in e.data;
    } else {
      assert e.data == data - {tsk};
    }
  }

  /**
   * When the token maps to nothing, to "" or to a sentinel, `LogoutByToken` succeeds
   * without touching any identity-session.
   */
  lemma LogoutByTokenSkipsInvalid(data: Data, cfg: Config, loginType: string, token: string, anyId: string)
    requires IsValidLoginId(StoredLoginId(data, cfg, loginType, token)).Some?
    ensures var e := LogoutByToken(data, cfg, loginType, token);
      && e.outcome == Pass
      && TokenSessionKeyOf(cfg, loginType, token) !in e.data
      && IdentitySigns(e.data, cfg, loginType, anyId) == IdentitySigns(data, cfg, loginType, anyId)
  {
    var tsk := TokenSessionKeyOf(cfg, loginType, token);
    KeysApart(cfg, loginType, token, token);
    assert StoredLoginId(data - {tsk}, cfg, loginType, token) == StoredLoginId(data, cfg, loginType, token);
    KeysApart(cfg, loginType, anyId, token);
  }

  /**
   * `LogoutByToken` of a token that maps to a real login id with a session removes
   * that token's sign; the session is deleted when no sign is left.
   */
  lemma LogoutByTokenDropsSign(data: Data, cfg: Config, loginType: string, token: string)
    requires WellFormed(data)
    requires IsValidLoginId(StoredLoginId(data, cfg, loginType, token)).None?
    requires ReadObject(data, SessionKeyOf(cfg, loginType, StoredLoginId(data, cfg, loginType, token))).Ok?
    ensures var loginId := StoredLoginId(data, cfg, loginType, token);
      var e := LogoutByToken(data, cfg, loginType, token);
      && e.outcome == Pass
      && IdentitySigns(e.data, cfg, loginType, loginId) == RemoveSign(IdentitySigns(data, cfg, loginType, loginId), token)
      && token !in Values(IdentitySigns(e.data, cfg, loginType, loginId))
      && (IdentitySigns(e.data, cfg, loginType, loginId) == [] ==> SessionKeyOf(cfg, loginType, loginId) !in e.data)
  {
    var tsk := TokenSessionKeyOf(cfg, loginType, token);
    var tk := TokenKeyOf(cfg, loginType, token);
    var loginId := StoredLoginId(data, cfg, loginType, token);
    var key := SessionKeyOf(cfg, loginType, loginId);
    KeysApart(cfg, loginType, token, token);
    KeysApart(cfg, loginType, loginId, token);
    assert StoredLoginId(data - {tsk}, cfg, loginType, token) == loginId;
    var d2 := data - {tsk} - {tk};
    var rec0 := ReadObject(data, key).value;
    assert ReadObject(d2, key) == Ok(rec0);
    var rec := rec0.(signs := RemoveSign(rec0.signs, token));
    assert rec.id == key;
    RemoveSignKeepsUnique(rec0.signs, token);
    assert LogoutByToken(data, cfg, loginType, token) == Effect(Pass, SaveOrDelete(d2, rec));
  }

  // ---------------------------------------------------------- logoutByLoginId

  /**
   * `LogoutByLoginId` on an existing identity-session: the session keeps exactly the
   * signs of the other devices (and is deleted when none is left), and every token
   * of the device loses its mapping and its token-session, so `GetLoginId` reports
   * it as unknown.
   */
  lemma LogoutByLoginIdEffect(data: Data, cfg: Config, loginType: string, loginId: string, device: string)
    requires WellFormed(data)
    requires ReadObject(data, SessionKeyOf(cfg, loginType, loginId)).Ok?
    ensures var rec := ReadObject(data, SessionKeyOf(cfg, loginType, loginId)).value;
      var e := LogoutByLoginId(data, cfg, loginType, loginId, device);
      && e.outcome == Pass
      && WellFormed(e.data)
      && IdentitySigns(e.data, cfg, loginType, loginId) == SignsOffDevice(rec.signs, device)
      && (SignsOffDevice(rec.signs, device) == [] ==> SessionKeyOf(cfg, loginType, loginId) !in e.data)
      && forall s :: s in rec.signs && OnDevice(s, device) ==>
           && TokenKeyOf(cfg, loginType, s.value) !in e.data
           && TokenSessionKeyOf(cfg, loginType, s.value) !in e.data
           && GetLoginId(e.data, cfg, loginType, s.value) == Err(NoToken)
  {
    var key := SessionKeyOf(cfg, loginType, loginId);
    var rec0 := ReadObject(data, key).value;
    var list := SignsByDevice(rec0.signs, device);
    var rec := rec0.(signs := RemoveSigns(rec0.signs, list));
    RemoveSignsByDevice(rec0.signs, device);
    RemoveSignsKeepsUnique(rec0.signs, list);
    assert rec.id == key;
    var dropped := DropTokens(data, cfg, loginType, list);
    forall s | s in list
      ensures TokenKeyOf(cfg, loginType, s.value) != key && TokenSessionKeyOf(cfg, loginType, s.value) != key
    {
      KeysApart(cfg, loginType, loginId, s.value);
    }
    DropTokensFrame(data, cfg, loginType, list, key);
    DropTokensShrinks(data, cfg, loginType, list);
    assert WellFormed(dropped);
    WriteKeepsWellFormed(dropped, key, Object(rec), 0);
    forall s | s in rec0.signs && OnDevice(s, device)
      ensures TokenKeyOf(cfg, loginType, s.value) !in SaveOrDelete(dropped, rec)
      ensures TokenSessionKeyOf(cfg, loginType, s.value) !in SaveOrDelete(dropped, rec)
    {
      DropTokensRemoves(data, cfg, loginType, list, s);
      KeysApart(cfg, loginType, loginId, s.value);
    }
  }

  /** `LogoutByLoginId` does not swallow a missing identity-session: the lookup error is returned. */
  lemma LogoutByLoginIdMissing(data: Data, cfg: Config, loginType: string, loginId: string, device: string)
    requires ReadObject(data, SessionKeyOf(cfg, loginType, loginId)).Err?
    ensures LogoutByLoginId(data, cfg, loginType, loginId, device)
         == Effect(Fail(ReadObject(data, SessionKeyOf(cfg, loginType, loginId)).error), data)
    ensures SessionKeyOf(cfg, loginType, loginId) !in data ==>
      LogoutByLoginId(data, cfg, loginType, loginId, device).outcome == Fail(ObjectNotExist)
  {
  }

  // ---------------------------------------------------------------- getSession

  /**
   * `GetSession` hands out a token-session only for a token `GetLoginId` accepts:
   * otherwise it returns that error and writes nothing. For an accepted token
   * without a token-session, creating one gives a fresh token-session of the
   * token under its own key.
   */
  lemma GetSessionNeedsValidToken(data: Data, cfg: Config, loginType: string, token: string, isCreate: bool)
    ensures GetLoginId(data, cfg, loginType, token).Err? ==>
      GetSession(data, cfg, loginType, token, isCreate) == Step(Err(GetLoginId(data, cfg, loginType, token).error), data)
    ensures (GetLoginId(data, cfg, loginType, token).Ok? && isCreate &&
             ReadObject(data, TokenSessionKeyOf(cfg, loginType, token)) == Err(ObjectNotExist)) ==>
        var s := GetSession(data, cfg, loginType, token, isCreate);
        && s.result.Ok?
        && s.result.value.kind == SessionTypeToken && s.result.value.token == token
        && s.result.value.id == TokenSessionKeyOf(cfg, loginType, token) && s.result.value.signs == []
        && ReadObject(s.data, TokenSessionKeyOf(cfg, loginType, token)) == s.result
        && GetLoginId(s.data, cfg, loginType, token) == GetLoginId(data, cfg, loginType, token)
  {
    KeysApart(cfg, loginType, token, token);
  }

  /** Getting or creating a token-session keeps the invariant. */
  lemma GetSessionKeepsWellFormed(data: Data, cfg: Config, loginType: string, token: string, isCreate: bool)
    requires WellFormed(data)
    ensures WellFormed(GetSession(data, cfg, loginType, token, isCreate).data)
  {
    var tsk := TokenSessionKeyOf(cfg, loginType, token);
    if GetLoginId(data, cfg, loginType, token).Ok? && isCreate && ReadObject(data, tsk) == Err(ObjectNotExist) {
      var rec := LoadOrCreate(data, cfg, loginType, tsk, true, TokenOwner(token)).result.value;
      WriteKeepsWellFormed(data, tsk, Object(rec), cfg.timeout);
    }
  }

  // ------------------------------------------------------------ a login session

  /**
   * The demo server's `/login` then `/private` flow: log in, get (creating) the
   * token's session, set a data key on it and save it; getting the token-session
   * again returns the saved record, so the key reads back.
   */
  lemma {:induction false} LoginSessionRoundTrip(data: Data, cfg: Config, loginType: string, loginId: string, model: LoginModel, generated: string, k: string, v: string)
    requires WellFormed(data)
    requires IsValidLoginId(loginId).None?
    requires var s := Login(data, cfg, loginType, loginId, model, generated);
      s.result.Ok? && ReadObject(s.data, TokenSessionKeyOf(cfg, loginType, s.result.value)) != Err(Malformed)
    ensures var s := Login(data, cfg, loginType, loginId, model, generated);
      var t := s.result.value;
      var g := GetSession(s.data, cfg, loginType, t, true);
      && g.result.Ok?
      && var rec := g.result.value.(data := g.result.value.data[k := v]);
         var g2 := GetSession(UpdateValue(g.data, rec.id, Object(rec)), cfg, loginType, t, true);
         && g2.result == Ok(rec)
         && k in g2.result.value.data && g2.result.value.data[k] == v
  {
    var s := Login(data, cfg, loginType, loginId, model, generated);
    var t := s.result.value;
    var tsk := TokenSessionKeyOf(cfg, loginType, t);
    var tk := TokenKeyOf(cfg, loginType, t);
    LoginKeepsWellFormed(data, cfg, loginType, loginId, model, generated);
    LoginRecordsToken(data, cfg, loginType, loginId, model, generated);
    assert GetLoginId(s.data, cfg, loginType, t) == Ok(loginId);
    KeysApart(cfg, loginType, t, t);
    var g := GetSession(s.data, cfg, loginType, t, true);
    assert g == LoadOrCreate(s.data, cfg, loginType, tsk, true, TokenOwner(t));
    assert g.result.Ok? && g.result.value.id == tsk;
    assert tk in g.data && g.data[tk] == s.data[tk];
    var rec := g.result.value.(data := g.result.value.data[k := v]);
    var saved := UpdateValue(g.data, rec.id, Object(rec));
    assert saved[tk] == s.data[tk];
    assert GetLoginId(saved, cfg, loginType, t) == Ok(loginId);
    assert ReadObject(saved, tsk) == Ok(rec);
  }

  // ------------------------------------------- every accepted token is recorded

  /**
   * Every token `GetLoginId` accepts is among the sign values of the identity it
   * maps to. The converse does not hold: a caller-supplied token still recorded
   * for one identity can be mapped to another by a later login.
   */
  ghost predicate TokensRecorded(data: Data, cfg: Config, loginType: string)
  {
    forall t :: GetLoginId(data, cfg, loginType, t).Ok? ==>
      t in Values(IdentitySigns(data, cfg, loginType, GetLoginId(data, cfg, loginType, t).value))
  }

  /** One token after `replaced` on a readable identity-session. */
  lemma ReplacedRecordsToken(data: Data, cfg: Config, loginType: string, loginId: string, device: string, t: string)
    requires WellFormed(data) && TokensRecorded(data, cfg, loginType)
    requires ReadObject(data, SessionKeyOf(cfg, loginType, loginId)).Ok?
    requires GetLoginId(Replaced(data, cfg, loginType, loginId, device).data, cfg, loginType, t).Ok?
    ensures var d := Replaced(data, cfg, loginType, loginId, device).data;
      t in Values(IdentitySigns(d, cfg, loginType, GetLoginId(d, cfg, loginType, t).value))
  {
    var key := SessionKeyOf(cfg, loginType, loginId);
    var rec := ReadObject(data, key).value;
    var list := SignsByDevice(rec.signs, device);
    var d := Replaced(data, cfg, loginType, loginId, device).data;
    assert d == ReplaceSigns(data, cfg, loginType, rec, list);
    ReplacedEffect(data, cfg, loginType, loginId, device);
    var tk := TokenKeyOf(cfg, loginType, t);
    var j := GetLoginId(d, cfg, loginType, t).value;
    assert ReadText(d, tk) != Ok(BeReplacedValue);
    forall s | s in list
      ensures s.value != t && TokenKeyOf(cfg, loginType, s.value) != tk
    {
      assert ReadText(d, TokenKeyOf(cfg, loginType, s.value)) == Ok(BeReplacedValue);
      KeysApart(cfg, loginType, s.value, t);
    }
    KeysApart(cfg, loginType, loginId, t);
    ReplaceSignsFrame(data, cfg, loginType, rec, list, tk);
    assert GetLoginId(data, cfg, loginType, t) == Ok(j);
    if j == loginId {
      var x := SignWithValue(rec.signs, t);
      assert !OnDevice(x, device);
      ValueOf(SignsOffDevice(rec.signs, device), x);
    } else {
      var jk := SessionKeyOf(cfg, loginType, j);
      KeysApart(cfg, loginType, j, loginId);
      forall s | s in list
        ensures TokenKeyOf(cfg, loginType, s.value) != jk
      {
        KeysApart(cfg, loginType, j, s.value);
      }
      ReplaceSignsFrame(data, cfg, loginType, rec, list, jk);
      assert IdentitySigns(d, cfg, loginType, j) == IdentitySigns(data, cfg, loginType, j);
    }
  }

  /** `replaced` keeps every accepted token recorded. */
  lemma ReplacedKeepsRecorded(data: Data, cfg: Config, loginType: string, loginId: string, device: string)
    requires WellFormed(data) && TokensRecorded(data, cfg, loginType)
    ensures TokensRecorded(Replaced(data, cfg, loginType, loginId, device).data, cfg, loginType)
  {
    var d := Replaced(data, cfg, loginType, loginId, device).data;
    if ReadObject(data, SessionKeyOf(cfg, loginType, loginId)).Ok? {
      forall t | GetLoginId(d, cfg, loginType, t).Ok?
        ensures t in Values(IdentitySigns(d, cfg, loginType, GetLoginId(d, cfg, loginType, t).value))
      {
        ReplacedRecordsToken(data, cfg, loginType, loginId, device, t);
      }
    } else {
      assert d == data;
    }
  }

  /** Getting (or creating) an identity-session leaves every identity's signs as they were. */
  lemma LoadOrCreateKeepsRecorded(data: Data, cfg: Config, loginType: string, loginId: string)
    requires TokensRecorded(data, cfg, loginType)
    ensures TokensRecorded(LoadOrCreate(data, cfg, loginType, SessionKeyOf(cfg, loginType, loginId), true, Account(loginId)).data, cfg, loginType)
  {
    var key := SessionKeyOf(cfg, loginType, loginId);
    var d := LoadOrCreate(data, cfg, loginType, key, true, Account(loginId)).data;
    if d != data {
      forall t | GetLoginId(d, cfg, loginType, t).Ok?
        ensures t in Values(IdentitySigns(d, cfg, loginType, GetLoginId(d, cfg, loginType, t).value))
      {
        KeysApart(cfg, loginType, loginId, t);
        assert GetLoginId(d, cfg, loginType, t) == GetLoginId(data, cfg, loginType, t);
        var j := GetLoginId(d, cfg, loginType, t).value;
        KeysApart(cfg, loginType, j, loginId);
        assert IdentitySigns(d, cfg, loginType, j) == IdentitySigns(data, cfg, loginType, j);
      }
    }
  }

  /** One token after `Login`'s two writes: the session with the new sign, then the mapping. */
  lemma AddTokenRecordsToken(data: Data, cfg: Config, loginType: string, loginId: string, rec0: SessionRecord, sign: TokenSign, timeout: int, t: string)
    requires TokensRecorded(data, cfg, loginType)
    requires ReadObject(data, SessionKeyOf(cfg, loginType, loginId)) == Ok(rec0)
    requires rec0.id == SessionKeyOf(cfg, loginType, loginId)
    requires var rec := rec0.(signs := AddSign(rec0.signs, sign));
      var d := SetValue(UpdateValue(data, rec.id, Object(rec)), TokenKeyOf(cfg, loginType, sign.value), Text(loginId), timeout);
      GetLoginId(d, cfg, loginType, t).Ok?
    ensures var rec := rec0.(signs := AddSign(rec0.signs, sign));
      var d := SetValue(UpdateValue(data, rec.id, Object(rec)), TokenKeyOf(cfg, loginType, sign.value), Text(loginId), timeout);
      t in Values(IdentitySigns(d, cfg, loginType, GetLoginId(d, cfg, loginType, t).value))
  {
    var key := rec0.id;
    var rec := rec0.(signs := AddSign(rec0.signs, sign));
    var d := SetValue(UpdateValue(data, key, Object(rec)), TokenKeyOf(cfg, loginType, sign.value), Text(loginId), timeout);
    KeysApart(cfg, loginType, loginId, sign.value);
    assert ReadObject(d, key) == Ok(rec);
    var j := GetLoginId(d, cfg, loginType, t).value;
    if t == sign.value {
      assert j == loginId;
      ValueOf(rec.signs, sign);
    } else {
      KeysApart(cfg, loginType, t, sign.value);
      KeysApart(cfg, loginType, loginId, t);
      assert GetLoginId(data, cfg, loginType, t) == Ok(j);
      if j == loginId {
        var x := SignWithValue(rec0.signs, t);
        AddSignKeepsOthers(rec0.signs, sign, x);
        ValueOf(rec.signs, x);
      } else {
        KeysApart(cfg, loginType, j, loginId);
        KeysApart(cfg, loginType, j, sign.value);
        assert IdentitySigns(d, cfg, loginType, j) == IdentitySigns(data, cfg, loginType, j);
      }
    }
  }

  /** `Login` keeps every accepted token recorded, its own new token included. */
  lemma LoginKeepsRecorded(data: Data, cfg: Config, loginType: string, loginId: string, model: LoginModel, generated: string)
    requires WellFormed(data) && TokensRecorded(data, cfg, loginType)
    ensures TokensRecorded(Login(data, cfg, loginType, loginId, model, generated).data, cfg, loginType)
  {
    var key := SessionKeyOf(cfg, loginType, loginId);
    var g := GenToken(data, cfg, loginType, loginId, model, generated);
    GenTokenKeepsWellFormed(data, cfg, loginType, loginId, model, generated);
    if !cfg.isConcurrent {
      ReplacedKeepsRecorded(data, cfg, loginType, loginId, model.device);
    }
    assert TokensRecorded(g.data, cfg, loginType);
    if g.result.Ok? {
      var s := LoadOrCreate(g.data, cfg, loginType, key, true, Account(loginId));
      LoadOrCreateKeepsRecorded(g.data, cfg, loginType, loginId);
      if s.result.Ok? {
        var rec0 := s.result.value;
        var sign := TokenSign(g.result.value, model.DeviceOrDefault(), "");
        var rec := rec0.(signs := AddSign(rec0.signs, sign));
        assert ReadObject(s.data, key) == Ok(rec0) && rec0.id == key;
        var d := SetValue(UpdateValue(s.data, rec.id, Object(rec)), TokenKeyOf(cfg, loginType, sign.value), Text(loginId), cfg.timeout);
        forall t | GetLoginId(d, cfg, loginType, t).Ok?
          ensures t in Values(IdentitySigns(d, cfg, loginType, GetLoginId(d, cfg, loginType, t).value))
        {
          AddTokenRecordsToken(s.data, cfg, loginType, loginId, rec0, sign, cfg.timeout, t);
        }
      }
    }
  }

  /** Deleting a token's mapping or its token-session keeps every other token recorded. */
  lemma DropMappingKeepsRecorded(data: Data, cfg: Config, loginType: string, token: string, k: string)
    requires TokensRecorded(data, cfg, loginType)
    requires k == TokenKeyOf(cfg, loginType, token) || k == TokenSessionKeyOf(cfg, loginType, token)
    ensures TokensRecorded(data - {k}, cfg, loginType)
  {
    var d := data - {k};
    forall t | GetLoginId(d, cfg, loginType, t).Ok?
      ensures t in Values(IdentitySigns(d, cfg, loginType, GetLoginId(d, cfg, loginType, t).value))
    {
      KeysApart(cfg, loginType, t, token);
      assert GetLoginId(d, cfg, loginType, t) == GetLoginId(data, cfg, loginType, t);
      var j := GetLoginId(d, cfg, loginType, t).value;
      KeysApart(cfg, loginType, j, token);
      assert IdentitySigns(d, cfg, loginType, j) == IdentitySigns(data, cfg, loginType, j);
    }
  }

  /** Saving or deleting a session leaves every other key as it was. */
  lemma SaveOrDeleteFrame(data: Data, rec: SessionRecord, k: string)
    requires k != rec.id
    ensures k in SaveOrDelete(data, rec) <==> k in data
    ensures k in data ==> SaveOrDelete(data, rec)[k] == data[k]
  {
  }

  /** One token after the end of `LogoutByToken`: the sign dropped, the session saved or deleted. */
  lemma RemoveTokenRecordsToken(data: Data, cfg: Config, loginType: string, loginId: string, rec: SessionRecord, token: string, t: string)
    requires TokensRecorded(data, cfg, loginType)
    requires TokenKeyOf(cfg, loginType, token) !in data
    requires ReadObject(data, SessionKeyOf(cfg, loginType, loginId)) == Ok(rec)
    requires rec.id == SessionKeyOf(cfg, loginType, loginId)
    requires GetLoginId(SaveOrDelete(data, rec.(signs := RemoveSign(rec.signs, token))), cfg, loginType, t).Ok?
    ensures var d := SaveOrDelete(data, rec.(signs := RemoveSign(rec.signs, token)));
      t in Values(IdentitySigns(d, cfg, loginType, GetLoginId(d, cfg, loginType, t).value))
  {
    var rec' := rec.(signs := RemoveSign(rec.signs, token));
    var d := SaveOrDelete(data, rec');
    var tk := TokenKeyOf(cfg, loginType, t);
    KeysApart(cfg, loginType, loginId, t);
    SaveOrDeleteFrame(data, rec', tk);
    var j := GetLoginId(d, cfg, loginType, t).value;
    assert GetLoginId(data, cfg, loginType, t) == Ok(j);
    if j == loginId {
      var x := SignWithValue(rec.signs, t);
      RemoveSignKeepsOthers(rec.signs, token, x);
      assert ReadObject(d, rec.id) == Ok(rec');
      ValueOf(rec'.signs, x);
    } else {
      var jk := SessionKeyOf(cfg, loginType, j);
      KeysApart(cfg, loginType, j, loginId);
      SaveOrDeleteFrame(data, rec', jk);
      assert IdentitySigns(d, cfg, loginType, j) == IdentitySigns(data, cfg, loginType, j);
    }
  }

  /** `LogoutByToken` keeps every accepted token recorded. */
  lemma LogoutByTokenKeepsRecorded(data: Data, cfg: Config, loginType: string, token: string)
    requires WellFormed(data) && TokensRecorded(data, cfg, loginType)
    ensures TokensRecorded(LogoutByToken(data, cfg, loginType, token).data, cfg, loginType)
  {
    var tsk := TokenSessionKeyOf(cfg, loginType, token);
    var tk := TokenKeyOf(cfg, loginType, token);
    var d1 := data - {tsk};
    DropMappingKeepsRecorded(data, cfg, loginType, token, tsk);
    DropMappingKeepsRecorded(d1, cfg, loginType, token, tk);
    var loginId := StoredLoginId(d1, cfg, loginType, token);
    var d2 := if loginId != "" then d1 - {tk} else d1;
    if IsValidLoginId(loginId).None? {
      var key := SessionKeyOf(cfg, loginType, loginId);
      var s := LoadOrCreate(d2, cfg, loginType, key, false, Account(loginId));
      if s.result.Ok? {
        var rec := s.result.value;
        WriteKeepsWellFormed(data, tsk, Text(""), 0);
        WriteKeepsWellFormed(d1, tk, Text(""), 0);
        assert rec.id == key;
        var d := SaveOrDelete(d2, rec.(signs := RemoveSign(rec.signs, token)));
        forall t | GetLoginId(d, cfg, loginType, t).Ok?
          ensures t in Values(IdentitySigns(d, cfg, loginType, GetLoginId(d, cfg, loginType, t).value))
        {
          RemoveTokenRecordsToken(d2, cfg, loginType, loginId, rec, token, t);
        }
      }
    }
  }

  /** One token after `LogoutByLoginId` on a readable identity-session. */
  lemma LogoutByLoginIdRecordsToken(data: Data, cfg: Config, loginType: string, loginId: string, device: string, t: string)
    requires WellFormed(data) && TokensRecorded(data, cfg, loginType)
    requires ReadObject(data, SessionKeyOf(cfg, loginType, loginId)).Ok?
    requires GetLoginId(LogoutByLoginId(data, cfg, loginType, loginId, device).data, cfg, loginType, t).Ok?
    ensures var d := LogoutByLoginId(data, cfg, loginType, loginId, device).data;
      t in Values(IdentitySigns(d, cfg, loginType, GetLoginId(d, cfg, loginType, t).value))
  {
    var key := SessionKeyOf(cfg, loginType, loginId);
    var rec0 := ReadObject(data, key).value;
    var list := SignsByDevice(rec0.signs, device);
    var rec := rec0.(signs := RemoveSigns(rec0.signs, list));
    var dropped := DropTokens(data, cfg, loginType, list);
    var d := LogoutByLoginId(data, cfg, loginType, loginId, device).data;
    assert d == SaveOrDelete(dropped, rec);
    assert rec.id == key;
    LogoutByLoginIdEffect(data, cfg, loginType, loginId, device);
    var tk := TokenKeyOf(cfg, loginType, t);
    forall s | s in list
      ensures TokenKeyOf(cfg, loginType, s.value) != tk && TokenSessionKeyOf(cfg, loginType, s.value) != tk
    {
      assert TokenKeyOf(cfg, loginType, s.value) !in d;
      KeysApart(cfg, loginType, t, s.value);
    }
    KeysApart(cfg, loginType, loginId, t);
    DropTokensFrame(data, cfg, loginType, list, tk);
    SaveOrDeleteFrame(dropped, rec, tk);
    var j := GetLoginId(d, cfg, loginType, t).value;
    assert GetLoginId(data, cfg, loginType, t) == Ok(j);
    if j == loginId {
      var x := SignWithValue(rec0.signs, t);
      assert !OnDevice(x, device);
      ValueOf(SignsOffDevice(rec0.signs, device), x);
    } else {
      var jk := SessionKeyOf(cfg, loginType, j);
      KeysApart(cfg, loginType, j, loginId);
      forall s | s in list
        ensures TokenKeyOf(cfg, loginType, s.value) != jk && TokenSessionKeyOf(cfg, loginType, s.value) != jk
      {
        KeysApart(cfg, loginType, j, s.value);
      }
      DropTokensFrame(data, cfg, loginType, list, jk);
      SaveOrDeleteFrame(dropped, rec, jk);
      assert IdentitySigns(d, cfg, loginType, j) == IdentitySigns(data, cfg, loginType, j);
    }
  }

  /** `LogoutByLoginId` keeps every accepted token recorded. */
  lemma LogoutByLoginIdKeepsRecorded(data: Data, cfg: Config, loginType: string, loginId: string, device: string)
    requires WellFormed(data) && TokensRecorded(data, cfg, loginType)
    ensures TokensRecorded(LogoutByLoginId(data, cfg, loginType, loginId, device).data, cfg, loginType)
  {
    var d := LogoutByLoginId(data, cfg, loginType, loginId, device).data;
    if ReadObject(data, SessionKeyOf(cfg, loginType, loginId)).Ok? {
      forall t | GetLoginId(d, cfg, loginType, t).Ok?
        ensures t in Values(IdentitySigns(d, cfg, loginType, GetLoginId(d, cfg, loginType, t).value))
      {
        LogoutByLoginIdRecordsToken(data, cfg, loginType, loginId, device, t);
      }
    }
  }

  /** `GetSession` writes only a token-session, so every accepted token stays recorded. */
  lemma GetSessionKeepsRecorded(data: Data, cfg: Config, loginType: string, token: string, isCreate: bool)
    requires TokensRecorded(data, cfg, loginType)
    ensures TokensRecorded(GetSession(data, cfg, loginType, token, isCreate).data, cfg, loginType)
  {
    var d := GetSession(data, cfg, loginType, token, isCreate).data;
    var tsk := TokenSessionKeyOf(cfg, loginType, token);
    if d != data {
      assert d == data[tsk := d[tsk]];
      forall t | GetLoginId(d, cfg, loginType, t).Ok?
        ensures t in Values(IdentitySigns(d, cfg, loginType, GetLoginId(d, cfg, loginType, t).value))
      {
        KeysApart(cfg, loginType, t, token);
        assert GetLoginId(d, cfg, loginType, t) == GetLoginId(data, cfg, loginType, t);
        var j := GetLoginId(d, cfg, loginType, t).value;
        KeysApart(cfg, loginType, j, token);
        assert IdentitySigns(d, cfg, loginType, j) == IdentitySigns(data, cfg, loginType, j);
      }
    }
  }
}
