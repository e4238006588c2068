/**
 * What each operation of the manager (satoken/common.go, satoken/manager.go)
 * does to the store, as functions of the store's contents before the call.
 * The methods of `Managers.Manager` are proved to follow these functions step
 * for step; `ManagerProps` proves the policy properties about them.
 */
module ManagerSpec {
  import opened Errors
  import opened Signs
  import opened Records
  import opened Stores
  import opened Configs
  import opened Sentinels
  import Keys
  import Strings

  /** Whose session a get-or-create fills in: the callback of `getSessionBySessionId`. */
  datatype Owner = Account(loginId: string) | TokenOwner(token: string)

  /** What a Go `(T, error)` call returns, and the store after it. */
  datatype Step<T> = Step(result: Result<T>, data: Data)

  /** What a Go call returning only `error` returns, and the store after it. */
  datatype Effect = Effect(outcome: Outcome, data: Data)

  function SessionKeyOf(cfg: Config, loginType: string, loginId: string): string
  {
    Keys.SessionKey(cfg.tokenName, loginType, loginId)
  }

  function TokenKeyOf(cfg: Config, loginType: string, token: string): string
  {
    Keys.TokenValueKey(cfg.tokenName, loginType, token)
  }

  function TokenSessionKeyOf(cfg: Config, loginType: string, token: string): string
  {
    Keys.TokenSessionKey(cfg.tokenName, loginType, token)
  }

  /** The callbacks of `getSessionByLoginId` and `getTokenSessionByToken`. */
  function Fill(rec: SessionRecord, owner: Owner, loginType: string): (r: SessionRecord)
    ensures r.id == rec.id && r.data == rec.data && r.signs == rec.signs && r.loginType == loginType
    ensures owner.Account? ==> r.kind == SessionTypeAccount && r.loginId == owner.loginId && r.token == rec.token
    ensures owner.TokenOwner? ==> r.kind == SessionTypeToken && r.token == owner.token && r.loginId == rec.loginId
  {
    match owner
    case Account(id) => rec.(kind := SessionTypeAccount, loginType := loginType, loginId := id)
    case TokenOwner(t) => rec.(kind := SessionTypeToken, loginType := loginType, token := t)
  }

  /** `createTokenValue`: the generated UUID text without its dashes. */
  function CreateTokenValue(uuid: string): (t: string)
    ensures '-' !in t
    ensures |t| == |uuid| - Strings.Count(uuid, '-')
    ensures '-' !in uuid ==> t == uuid
  {
    Strings.Delete(uuid, '-')
  }

  /** Two dash-free groups joined by a dash come out concatenated, in order. */
  lemma CreateTokenValueJoins(a: string, b: string)
    requires '-' !in a && '-' !in b
    ensures CreateTokenValue(a + "-" + b) == a + b
  {
    Strings.DeleteAppend(a + "-", b, '-');
    Strings.DeleteAppend(a, "-", '-');
  }

  /** `getSessionBySessionId`: only the create branch writes. */
  function LoadOrCreate(data: Data, cfg: Config, loginType: string, sessionId: string, isCreate: bool, owner: Owner): (s: Step<SessionRecord>)
    ensures sessionId == "" ==> s == Step(Err(EmptySessionId), data)
    ensures sessionId != "" && ReadObject(data, sessionId).Ok? ==> s == Step(ReadObject(data, sessionId), data)
    ensures sessionId != "" && ReadObject(data, sessionId).Err? && !(isCreate && ReadObject(data, sessionId) == Err(ObjectNotExist))
      ==> s == Step(ReadObject(data, sessionId), data)
    ensures sessionId != "" && isCreate && ReadObject(data, sessionId) == Err(ObjectNotExist) ==>
      && s.result.Ok? && ReadObject(s.data, sessionId) == s.result
      && s.result.value.id == sessionId && s.result.value.signs == [] && s.result.value.data == map[]
      && s.result.value == Fill(NewRecord(sessionId), owner, loginType)
      && s.result.value.loginType == loginType
      && (owner.Account? ==> s.result.value.kind == SessionTypeAccount && s.result.value.loginId == owner.loginId)
      && (owner.TokenOwner? ==> s.result.value.kind == SessionTypeToken && s.result.value.token == owner.token)
      && s.data.Keys == data.Keys + {sessionId}
      && s.data == data[sessionId := s.data[sessionId]]
      && s.data[sessionId].ttl == TtlAfterSet(data, sessionId, cfg.timeout)
      && (cfg.timeout > 0 ==> s.data[sessionId].ttl == Expires(cfg.timeout))
  {
    if sessionId == "" then Step(Err(EmptySessionId), data)
    else match ReadObject(data, sessionId)
      case Ok(rec) => Step(Ok(rec), data)
      case Err(e) =>
        if e == ObjectNotExist && isCreate then
          var rec := Fill(NewRecord(sessionId), owner, loginType);
          Step(Ok(rec), SetValue(data, sessionId, Object(rec), cfg.timeout))
        else Step(Err(e), data)
  }

  /** The loop of `replaced`, one sign at a time: drop the sign, save, mark the token replaced. */
  function ReplaceSigns(data: Data, cfg: Config, loginType: string, rec: SessionRecord, list: seq<TokenSign>): (r: Data)
    ensures data.Keys <= r.Keys
    decreases |list|
  {
    if list == [] then data
    else
      var rec' := rec.(signs := RemoveSign(rec.signs, list[0].value));
      var saved := UpdateValue(data, rec'.id, Object(rec'));
      var marked := UpdateValue(saved, TokenKeyOf(cfg, loginType, list[0].value), Text(BeReplacedValue));
      ReplaceSigns(marked, cfg, loginType, rec', list[1..])
  }

  /** `replaced`: a missing identity-session means there is nothing to replace. */
  function Replaced(data: Data, cfg: Config, loginType: string, loginId: string, device: string): (e: Effect)
    ensures ReadObject(data, SessionKeyOf(cfg, loginType, loginId)) == Err(ObjectNotExist) ==> e == Effect(Pass, data)
    ensures e.outcome == Pass || e.outcome == Fail(Malformed)
    ensures data.Keys <= e.data.Keys
  {
    var s := LoadOrCreate(data, cfg, loginType, SessionKeyOf(cfg, loginType, loginId), false, Account(loginId));
    match s.result
    case Err(e) => Effect(if e == ObjectNotExist then Pass else Fail(e), s.data)
    case Ok(rec) => Effect(Pass, ReplaceSigns(s.data, cfg, loginType, rec, SignsByDevice(rec.signs, device)))
  }

  /** `getTokenValueListByLoginId`. */
  function TokenValues(data: Data, cfg: Config, loginType: string, loginId: string, device: string): (r: Result<seq<string>>)
    ensures ReadObject(data, SessionKeyOf(cfg, loginType, loginId)) == Err(ObjectNotExist) ==> r == Ok([])
    ensures r.Err? ==> r.error == Malformed
    ensures ReadObject(data, SessionKeyOf(cfg, loginType, loginId)).Ok? ==>
      r == Ok(ValuesByDevice(ReadObject(data, SessionKeyOf(cfg, loginType, loginId)).value.signs, device))
  {
    match LoadOrCreate(data, cfg, loginType, SessionKeyOf(cfg, loginType, loginId), false, Account(loginId)).result
    case Err(e) => if e == ObjectNotExist then Ok([]) else Err(e)
    case Ok(rec) => Ok(ValuesByDevice(rec.signs, device))
  }

  /** `getTokenValueByLoginId`: the first value, or "" when there is none. */
  function TokenValue(data: Data, cfg: Config, loginType: string, loginId: string, device: string): (r: Result<string>)
    ensures r.Err? <==> TokenValues(data, cfg, loginType, loginId, device).Err?
    ensures r.Ok? && TokenValues(data, cfg, loginType, loginId, device).value == [] ==> r.value == ""
    ensures r.Ok? && TokenValues(data, cfg, loginType, loginId, device).value != [] ==>
      r.value == TokenValues(data, cfg, loginType, loginId, device).value[0]
  {
    match TokenValues(data, cfg, loginType, loginId, device)
    case Err(e) => Err(e)
    case Ok(values) => Ok(if |values| == 0 then "" else values[0])
  }

  /**
   * The order in which `genTokenValue` picks a token: the caller's, else a shared
   * one (concurrent and sharing, when one exists), else the generated one.
   */
  function ChooseToken(cfg: Config, model: LoginModel, shared: string, generated: string): (t: string)
    ensures model.token != "" ==> t == model.token
    ensures model.token == "" && cfg.Policy() == ShareExisting && shared != "" ==> t == shared
    ensures model.token == "" && (cfg.Policy() != ShareExisting || shared == "") ==> t == generated
  {
    if model.token != "" then model.token
    else if cfg.isConcurrent && cfg.isShare && shared != "" then shared
    else generated
  }

  /** `genTokenValue`: replace first (non-concurrent), then choose; the share lookup runs only when needed. */
  function GenToken(data: Data, cfg: Config, loginType: string, loginId: string, model: LoginModel, generated: string): (s: Step<string>)
    ensures cfg.isConcurrent ==> s.data == data
    ensures !cfg.isConcurrent ==> s.data == Replaced(data, cfg, loginType, loginId, model.device).data
    ensures s.result.Ok? && model.token != "" ==> s.result.value == model.token
    ensures s.result.Ok? && model.token == "" && cfg.Policy() != ShareExisting ==> s.result.value == generated
    ensures s.result.Err? ==> s.result.error == Malformed
  {
    var replaced := if !cfg.isConcurrent then Replaced(data, cfg, loginType, loginId, model.device) else Effect(Pass, data);
    match replaced.outcome
    case Fail(e) => Step(Err(e), replaced.data)
    case Pass =>
      var lookup :=
        if model.token == "" && cfg.isConcurrent && cfg.isShare
        then TokenValue(replaced.data, cfg, loginType, loginId, model.DeviceOrDefault())
        else Ok("");
      match lookup
      case Err(e) => Step(Err(e), replaced.data)
      case Ok(shared) => Step(Ok(ChooseToken(cfg, model, shared, generated)), replaced.data)
  }

  /** `createLoginSession` (and so `Login`, whose `setTokenValue` does nothing). */
  function Login(data: Data, cfg: Config, loginType: string, loginId: string, model: LoginModel, generated: string): (s: Step<string>)
    ensures s.result.Ok? ==>
      (TokenKeyOf(cfg, loginType, s.result.value) in s.data
       && s.data[TokenKeyOf(cfg, loginType, s.result.value)].value == Text(loginId))
    ensures s.result.Ok? && cfg.timeout > 0 ==> s.data[TokenKeyOf(cfg, loginType, s.result.value)].ttl == Expires(cfg.timeout)
    ensures s.result.Err? ==> s.result.error == Malformed
  {
    var g := GenToken(data, cfg, loginType, loginId, model, generated);
    match g.result
    case Err(e) => g
    case Ok(token) =>
      var s := LoadOrCreate(g.data, cfg, loginType, SessionKeyOf(cfg, loginType, loginId), true, Account(loginId));
      match s.result
      case Err(e) => Step(Err(e), s.data)
      case Ok(rec0) =>
        var rec := rec0.(signs := AddSign(rec0.signs, TokenSign(token, model.DeviceOrDefault(), "")));
        var saved := UpdateValue(s.data, rec.id, Object(rec));
        Step(Ok(token), SetValue(saved, TokenKeyOf(cfg, loginType, token), Text(loginId), cfg.timeout))
  }

  /** `GetLoginId`: one read of the token mapping, then the sentinel check. */
  function GetLoginId(data: Data, cfg: Config, loginType: string, token: string): (r: Result<string>)
    ensures TokenKeyOf(cfg, loginType, token) !in data ==> r == Err(NoToken)
    ensures r.Ok? <==> ReadText(data, TokenKeyOf(cfg, loginType, token)).Ok? && IsValidLoginId(ReadText(data, TokenKeyOf(cfg, loginType, token)).value).None?
    ensures r.Ok? ==> data[TokenKeyOf(cfg, loginType, token)].value == Text(r.value) && r.value != "" && !IsSentinel(r.value)
    ensures r.Err? ==> IsBizError(r.error) || r.error == Malformed
  {
    match ReadText(data, TokenKeyOf(cfg, loginType, token))
    case Err(e) => Err(if e == TokenNotExist then NoToken else e)
    case Ok(s) =>
      match IsValidLoginId(s)
      case Some(e) => Err(e)
      case None => Ok(s)
  }

  /** `getLoginIdNotHandle`: a failed read counts as "". */
  function StoredLoginId(data: Data, cfg: Config, loginType: string, token: string): (r: string)
    ensures TokenKeyOf(cfg, loginType, token) !in data ==> r == ""
    ensures ReadText(data, TokenKeyOf(cfg, loginType, token)).Err? ==> r == ""
    ensures GetLoginId(data, cfg, loginType, token).Ok? ==> r == GetLoginId(data, cfg, loginType, token).value
  {
    match ReadText(data, TokenKeyOf(cfg, loginType, token))
    case Ok(s) => s
    case Err(_) => ""
  }

  /** The end of both logouts: delete the identity-session once it has no sign, else save it. */
  function SaveOrDelete(data: Data, rec: SessionRecord): (r: Data)
    ensures |rec.signs| == 0 ==> rec.id !in r
    ensures |rec.signs| != 0 ==> ReadObject(r, rec.id) == Ok(rec)
    ensures r - {rec.id} == data - {rec.id}
  {
    if |rec.signs| == 0 then data - {rec.id} else UpdateValue(data, rec.id, Object(rec))
  }

  /** `LogoutByToken`. */
  function LogoutByToken(data: Data, cfg: Config, loginType: string, token: string): (e: Effect)
    ensures e.outcome == Pass || e.outcome == Fail(Malformed)
    ensures e.outcome.Fail? ==> e.data == data - {TokenSessionKeyOf(cfg, loginType, token)} - {TokenKeyOf(cfg, loginType, token)}
  {
    var d1 := data - {TokenSessionKeyOf(cfg, loginType, token)};
    var loginId := StoredLoginId(d1, cfg, loginType, token);
    var d2 := if loginId != "" then d1 - {TokenKeyOf(cfg, loginType, token)} else d1;
    if IsValidLoginId(loginId).Some? then Effect(Pass, d2)
    else
      var s := LoadOrCreate(d2, cfg, loginType, SessionKeyOf(cfg, loginType, loginId), false, Account(loginId));
      match s.result
      case Err(e) => Effect(if e == ObjectNotExist then Pass else Fail(e), s.data)
      case Ok(rec) => Effect(Pass, SaveOrDelete(s.data, rec.(signs := RemoveSign(rec.signs, token))))
  }

  /** The loop of `LogoutByLoginId` on the store: each sign's mapping, then its token-session. */
  function DropTokens(data: Data, cfg: Config, loginType: string, list: seq<TokenSign>): (r: Data)
    ensures r.Keys <= data.Keys
    decreases |list|
  {
    if list == [] then data
    else
      var v := list[0].value;
      DropTokens(data - {TokenKeyOf(cfg, loginType, v)} - {TokenSessionKeyOf(cfg, loginType, v)}, cfg, loginType, list[1..])
  }

  /** `LogoutByLoginId`: a missing identity-session is returned as an error. */
  function LogoutByLoginId(data: Data, cfg: Config, loginType: string, loginId: string, device: string): (e: Effect)
    ensures ReadObject(data, SessionKeyOf(cfg, loginType, loginId)).Err? ==>
      e == Effect(Fail(ReadObject(data, SessionKeyOf(cfg, loginType, loginId)).error), data)
    ensures ReadObject(data, SessionKeyOf(cfg, loginType, loginId)).Ok? ==> e.outcome == Pass
  {
    var s := LoadOrCreate(data, cfg, loginType, SessionKeyOf(cfg, loginType, loginId), false, Account(loginId));
    match s.result
    case Err(e) => Effect(Fail(e), s.data)
    case Ok(rec0) =>
      var list := SignsByDevice(rec0.signs, device);
      var rec := rec0.(signs := RemoveSigns(rec0.signs, list));
      Effect(Pass, SaveOrDelete(DropTokens(s.data, cfg, loginType, list), rec))
  }

  /** `GetSession`: only a token `GetLoginId` accepts gets its token-session. */
  function GetSession(data: Data, cfg: Config, loginType: string, token: string, isCreate: bool): (s: Step<SessionRecord>)
    ensures GetLoginId(data, cfg, loginType, token).Err? ==> s == Step(Err(GetLoginId(data, cfg, loginType, token).error), data)
    ensures s.result.Ok? ==> GetLoginId(data, cfg, loginType, token).Ok?
    ensures !isCreate ==> s.data == data
  {
    match GetLoginId(data, cfg, loginType, token)
    case Err(e) => Step(Err(e), data)
    case Ok(_) => LoadOrCreate(data, cfg, loginType, TokenSessionKeyOf(cfg, loginType, token), isCreate, TokenOwner(token))
  }
}
