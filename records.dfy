/**
 * The value side of satoken/session.go: the login options a caller passes in,
 * and the record a Session is persisted as.
 */
module Records {
  import opened Signs

  const SessionTypeAccount: string := "Account-Session"
  const SessionTypeToken: string := "Token-Session"
  const SessionTypeCustom: string := "Custom-Session"

  const DefaultDevice: string := "default-device"

  /** `LoginModel`: an optional device, per-login timeouts and an optional fixed token. */
  datatype LoginModel = LoginModel(device: string, timeout: int, activeTimeout: int, token: string)
  {
    /** `getDeviceOrDefault`: never empty. */
    function DeviceOrDefault(): (d: string)
      ensures d != ""
      ensures device == "" ==> d == DefaultDevice
      ensures device != "" ==> d == device
    {
      if device == "" then DefaultDevice else device
    }
  }

  /**
   * The stored form of a Session: every serialised field but `createTime`.
   * `loginId` is "" where the JSON omits it; `data` values are strings.
   */
  datatype SessionRecord = SessionRecord(
    id: string,
    kind: string,
    loginType: string,
    loginId: string,
    token: string,
    data: map<string, string>,
    signs: seq<TokenSign>)

  /** What `newSession` builds before the manager's callback fills in the owner. */
  function NewRecord(sessionId: string): (r: SessionRecord)
    ensures r.id == sessionId && r.data == map[] && r.signs == []
  {
    SessionRecord(sessionId, "", "", "", "", map[], [])
  }
}
