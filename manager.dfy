/**
 * The Manager (satoken/manager.go, satoken/common.go): a login type, a
 * configuration and a token store. Every method is proved to leave the store
 * exactly as the matching function of `ManagerSpec` says, and to return what
 * that function returns.
 */
module Managers {
  import opened Errors
  import opened Signs
  import opened Records
  import opened Stores
  import opened Configs
  import opened Sentinels
  import opened Sessions
  import opened ManagerSpec

  /** A returned Session matches a specified result: same error, or a session holding that record. */
  predicate Mirrors(r: Result<Session>, spec: Result<SessionRecord>)
    reads if r.Ok? then {r.value} else {}
  {
    match r
    case Ok(sess) => spec.Ok? && sess.Record() == spec.value
    case Err(e) => spec == Err(e)
  }

  class Manager {
    var cfg: Config
    var store: Store
    const loginType: string

    /** `NewManager` with its store already mapped. */
    constructor (loginType: string, store: Store)
      ensures this.loginType == loginType && this.store == store
      ensures cfg == NewDefaultConfig()
    {
      this.loginType := loginType;
      this.store := store;
      cfg := NewDefaultConfig();
    }

    /** `NewDefaultManager`: login type "login". */
    constructor Default(store: Store)
      ensures loginType == "login" && this.store == store
      ensures cfg == NewDefaultConfig()
    {
      loginType := "login";
      this.store := store;
      cfg := NewDefaultConfig();
    }

    method SetCfg(cfg: Config)
      modifies this
      ensures this.cfg == cfg && store == old(store)
    {
      this.cfg := cfg;
    }

    method MapTokenStorage(store: Store)
      modifies this
      ensures this.store == store && cfg == old(cfg)
    {
      this.store := store;
    }

    /** `getSession`: decode the stored record into a new Session. */
    method LoadSession(sessionId: string) returns (r: Result<Session>)
      ensures Mirrors(r, ReadObject(store.data, sessionId))
      ensures r.Ok? ==> fresh(r.value) && r.value.store == store
    {
      var obj := store.GetObj(sessionId);
      if obj.Err? {
        return Err(obj.error);
      }
      var sess := new Session.Load(obj.value, store);
      return Ok(sess);
    }

    method DeleteSession(sessionId: string)
      modifies store
      ensures store.data == old(store.data) - {sessionId}
    {
      store.DeleteObj(sessionId);
    }

    /** `getSessionBySessionId`: the owner plays the part of the callback. */
    method GetSessionBySessionId(sessionId: string, isCreate: bool, owner: Owner) returns (r: Result<Session>)
      modifies store
      ensures var s := LoadOrCreate(old(store.data), cfg, loginType, sessionId, isCreate, owner);
        Mirrors(r, s.result) && store.data == s.data
      ensures r.Ok? ==> fresh(r.value) && r.value.store == store
    {
      if sessionId == "" {
        return Err(EmptySessionId);
      }
      r := LoadSession(sessionId);
      if r.Err? {
        if r.error == ObjectNotExist && isCreate {
          var sess := new Session(sessionId, store);
          match owner {
            case Account(id) =>
              sess.kind, sess.loginType, sess.loginId := SessionTypeAccount, loginType, id;
            case TokenOwner(t) =>
              sess.kind, sess.loginType, sess.token := SessionTypeToken, loginType, t;
          }
          store.SetObj(sessionId, sess.Record(), cfg.timeout);
          return Ok(sess);
        }
      }
    }

    method GetSessionByLoginId(loginId: string, isCreate: bool) returns (r: Result<Session>)
      modifies store
      ensures var s := LoadOrCreate(old(store.data), cfg, loginType, SessionKeyOf(cfg, loginType, loginId), isCreate, Account(loginId));
        Mirrors(r, s.result) && store.data == s.data
      ensures r.Ok? ==> fresh(r.value) && r.value.store == store
    {
      r := GetSessionBySessionId(SessionKeyOf(cfg, loginType, loginId), isCreate, Account(loginId));
    }

    method GetTokenSessionByToken(token: string, isCreate: bool) returns (r: Result<Session>)
      modifies store
      ensures var s := LoadOrCreate(old(store.data), cfg, loginType, TokenSessionKeyOf(cfg, loginType, token), isCreate, TokenOwner(token));
        Mirrors(r, s.result) && store.data == s.data
      ensures r.Ok? ==> fresh(r.value) && r.value.store == store
    {
      r := GetSessionBySessionId(TokenSessionKeyOf(cfg, loginType, token), isCreate, TokenOwner(token));
    }

    /** `replaced`: every sign of the device loses its token, which now maps to "-4". */
    method Replaced(loginId: string, device: string) returns (err: Outcome)
      modifies store
      ensures var e := ManagerSpec.Replaced(old(store.data), cfg, loginType, loginId, device);
        err == e.outcome && store.data == e.data
    {
      var r := GetSessionByLoginId(loginId, false);
      if r.Err? {
        return if r.error == ObjectNotExist then Pass else Fail(r.error);
      }
      var list := r.value.GetTokenSignListByDevice(device);
      ReplaceEach(r.value, list);
      return Pass;
    }

    /** The loop of `replaced`: drop each sign, save the session, mark the token replaced. */
    method ReplaceEach(sess: Session, list: seq<TokenSign>)
      requires sess.store == store
      modifies sess, store
      ensures store.data == ReplaceSigns(old(store.data), cfg, loginType, old(sess.Record()), list)
    {
      ghost var d0, rec0 := store.data, sess.Record();
      var i := 0;
      while i < |list|
        invariant 0 <= i <= |list|
        invariant sess.id == rec0.id
        invariant ReplaceSigns(store.data, cfg, loginType, sess.Record(), list[i..])
               == ReplaceSigns(d0, cfg, loginType, rec0, list)
      {
        assert list[i..][0] == list[i] && list[i..][1..] == list[i + 1..];
        sess.RemoveTokenSign(list[i].value);
        sess.Save();
        store.Update(TokenKeyOf(cfg, loginType, list[i].value), BeReplacedValue);
        i := i + 1;
      }
    }

    /** `getTokenValueListByLoginId`: no identity-session means no tokens. */
    method GetTokenValueListByLoginId(loginId: string, device: string) returns (r: Result<seq<string>>)
      modifies store
      ensures r == TokenValues(old(store.data), cfg, loginType, loginId, device)
      ensures store.data == old(store.data)
    {
      var s := GetSessionByLoginId(loginId, false);
      if s.Err? {
        return if s.error == ObjectNotExist then Ok([]) else Err(s.error);
      }
      var values, _ := s.value.GetTokenValueListByDevice(device);
      return Ok(values);
    }

    method GetTokenValueByLoginId(loginId: string, device: string) returns (r: Result<string>)
      modifies store
      ensures r == TokenValue(old(store.data), cfg, loginType, loginId, device)
      ensures store.data == old(store.data)
    {
      var values := GetTokenValueListByLoginId(loginId, device);
      if values.Err? {
        return Err(values.error);
      }
      if |values.value| == 0 {
        return Ok("");
      }
      return Ok(values.value[0]);
    }

    /** `genTokenValue`, with the UUID the generator would draw passed in. */
    method GenTokenValue(loginId: string, model: LoginModel, uuid: string) returns (r: Result<string>)
      modifies store
      ensures var s := GenToken(old(store.data), cfg, loginType, loginId, model, CreateTokenValue(uuid));
        r == s.result && store.data == s.data
    {
      if !cfg.isConcurrent {
        var err := Replaced(loginId, model.device);
        if err.Fail? {
          return Err(err.error);
        }
      }
      if model.token != "" {
        return Ok(model.token);
      }
      if cfg.isConcurrent {
        if cfg.isShare {
          var shared := GetTokenValueByLoginId(loginId, model.DeviceOrDefault());
          if shared.Err? {
            return Err(shared.error);
          }
          if shared.value != "" {
            return Ok(shared.value);
          }
        }
      }
      return Ok(CreateTokenValue(uuid));
    }

    method CreateLoginSession(loginId: string, model: LoginModel, uuid: string) returns (r: Result<string>)
      modifies store
      ensures var s := ManagerSpec.Login(old(store.data), cfg, loginType, loginId, model, CreateTokenValue(uuid));
        r == s.result && store.data == s.data
    {
      var token := GenTokenValue(loginId, model, uuid);
      if token.Err? {
        return token;
      }
      var s := GetSessionByLoginId(loginId, true);
      if s.Err? {
        return Err(s.error);
      }
      var sess := s.value;
      sess.AddTokenSign(TokenSign(token.value, model.DeviceOrDefault(), ""));
      sess.Save();
      store.Set(TokenKeyOf(cfg, loginType, token.value), loginId, cfg.timeout);
      return token;
    }

    /** `Login`: the token of `createLoginSession`. */
    method Login(loginId: string, model: LoginModel, uuid: string) returns (r: Result<string>)
      modifies store
      ensures var s := ManagerSpec.Login(old(store.data), cfg, loginType, loginId, model, CreateTokenValue(uuid));
        r == s.result && store.data == s.data
    {
      r := CreateLoginSession(loginId, model, uuid);
    }

    /** `GetLoginId`: one read, no write. */
    method GetLoginId(token: string) returns (r: Result<string>)
      ensures r == ManagerSpec.GetLoginId(store.data, cfg, loginType, token)
    {
      var loginId := store.Get(TokenKeyOf(cfg, loginType, token));
      if loginId.Err? {
        return Err(if loginId.error == TokenNotExist then NoToken else loginId.error);
      }
      var invalid := IsValidLoginId(loginId.value);
      if invalid.Some? {
        return Err(invalid.value);
      }
      return loginId;
    }

    method GetLoginIdNotHandle(token: string) returns (loginId: string)
      ensures loginId == StoredLoginId(store.data, cfg, loginType, token)
    {
      var r := store.Get(TokenKeyOf(cfg, loginType, token));
      loginId := if r.Err? then "" else r.value;
    }

    method DeleteTokenToIdMapping(token: string)
      modifies store
      ensures store.data == old(store.data) - {TokenKeyOf(cfg, loginType, token)}
    {
      store.Delete(TokenKeyOf(cfg, loginType, token));
    }

    method DeleteTokenSession(token: string)
      modifies store
      ensures store.data == old(store.data) - {TokenSessionKeyOf(cfg, loginType, token)}
    {
      store.Delete(TokenSessionKeyOf(cfg, loginType, token));
    }

    /** `LogoutByLoginId`: drop the device's signs with their mapping and token-session. */
    method LogoutByLoginId(loginId: string, device: string) returns (err: Outcome)
      modifies store
      ensures var e := ManagerSpec.LogoutByLoginId(old(store.data), cfg, loginType, loginId, device);
        err == e.outcome && store.data == e.data
    {
      var r := GetSessionByLoginId(loginId, false);
      if r.Err? {
        return Fail(r.error);
      }
      var sess := r.value;
      var list := sess.GetTokenSignListByDevice(device);
      LogoutEach(sess, list);
      if |sess.signs| == 0 {
        DeleteSession(sess.id);
      } else {
        sess.Save();
      }
      return Pass;
    }

    /** The loop of `LogoutByLoginId`: drop each sign, delete its mapping and its token-session. */
    method LogoutEach(sess: Session, list: seq<TokenSign>)
      modifies sess, store
      ensures sess.Record() == old(sess.Record()).(signs := RemoveSigns(old(sess.signs), list))
      ensures store.data == DropTokens(old(store.data), cfg, loginType, list)
    {
      ghost var d0, signs0 := store.data, sess.signs;
      var i := 0;
      while i < |list|
        invariant 0 <= i <= |list|
        invariant sess.Record() == old(sess.Record()).(signs := sess.signs)
        invariant RemoveSigns(sess.signs, list[i..]) == RemoveSigns(signs0, list)
        invariant DropTokens(store.data, cfg, loginType, list[i..]) == DropTokens(d0, cfg, loginType, list)
      {
        assert list[i..][0] == list[i] && list[i..][1..] == list[i + 1..];
        sess.RemoveTokenSign(list[i].value);
        DeleteTokenToIdMapping(list[i].value);
        DeleteTokenSession(list[i].value);
        i := i + 1;
      }
    }

    /** `LogoutByToken`: forget the token, then its sign in the identity-session. */
    method LogoutByToken(token: string) returns (err: Outcome)
      modifies store
      ensures var e := ManagerSpec.LogoutByToken(old(store.data), cfg, loginType, token);
        err == e.outcome && store.data == e.data
    {
      DeleteTokenSession(token);
      var loginId := GetLoginIdNotHandle(token);
      if loginId != "" {
        DeleteTokenToIdMapping(token);
      }
      if IsValidLoginId(loginId).Some? {
        return Pass;
      }
      var r := GetSessionByLoginId(loginId, false);
      if r.Err? {
        return if r.error == ObjectNotExist then Pass else Fail(r.error);
      }
      var sess := r.value;
      sess.RemoveTokenSign(token);
      if |sess.signs| == 0 {
        DeleteSession(sess.id);
      } else {
        sess.Save();
      }
      return Pass;
    }

    /** `GetSession`: the token-session of a token `GetLoginId` accepts. */
    method GetSession(token: string, isCreate: bool) returns (r: Result<Session>)
      modifies store
      ensures var s := ManagerSpec.GetSession(old(store.data), cfg, loginType, token, isCreate);
        Mirrors(r, s.result) && store.data == s.data
      ensures r.Ok? ==> fresh(r.value) && r.value.store == store
    {
      var loginId := GetLoginId(token);
      if loginId.Err? {
        return Err(loginId.error);
      }
      r := GetTokenSessionByToken(token, isCreate);
    }
  }
}
