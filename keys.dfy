/**
 * Store keys (satoken/common.go:26-48): every record the manager writes lives
 * under `<TokenName>:<loginType>:<kind>:<id>`.
 */
module Keys {

  datatype Kind = Session | Token | TokenSession | LastActive | Disable | Safe

  function KindName(k: Kind): string
  {
    match k
    case Session => "session"
    case Token => "token"
    case TokenSession => "token-session"
    case LastActive => "last-active"
    case Disable => "disable"
    case Safe => "safe"
  }

  /** The part of every key that one manager shares: `<TokenName>:<loginType>:`. */
  function Prefix(tokenName: string, loginType: string): string
  {
    tokenName + ":" + loginType + ":"
  }

  /** The kind's name and its separator. */
  function Tag(k: Kind): string
  {
    KindName(k) + ":"
  }

  /** The template every `splicingKey*` helper fills in. */
  function Key(tokenName: string, loginType: string, kind: Kind, id: string): string
  {
    Prefix(tokenName, loginType) + Tag(kind) + id
  }

  /** `splicingKeySession`: the identity-session of a login id. */
  function SessionKey(tokenName: string, loginType: string, loginId: string): (k: string)
    ensures k == tokenName + ":" + loginType + ":session:" + loginId
  {
    Key(tokenName, loginType, Session, loginId)
  }

  /** `splicingKeyTokenValue`: the token-to-identity mapping. */
  function TokenValueKey(tokenName: string, loginType: string, token: string): (k: string)
    ensures k == tokenName + ":" + loginType + ":token:" + token
  {
    Key(tokenName, loginType, Token, token)
  }

  /** `splicingKeyTokenSession`: the private session of one token. */
  function TokenSessionKey(tokenName: string, loginType: string, token: string): (k: string)
    ensures k == tokenName + ":" + loginType + ":token-session:" + token
  {
    Key(tokenName, loginType, TokenSession, token)
  }

  /** `splicingKeyLastActiveTime`. */
  function LastActiveKey(tokenName: string, loginType: string, token: string): (k: string)
    ensures k == tokenName + ":" + loginType + ":last-active:" + token
  {
    Key(tokenName, loginType, LastActive, token)
  }

  /** `splicingKeyDisable`: the service comes before the login id. */
  function DisableKey(tokenName: string, loginType: string, loginId: string, service: string): (k: string)
    ensures k == tokenName + ":" + loginType + ":disable:" + service + ":" + loginId
  {
    Key(tokenName, loginType, Disable, service + ":" + loginId)
  }

  /** `splicingKeySafe`: the service comes before the token. */
  function SafeKey(tokenName: string, loginType: string, token: string, service: string): (k: string)
    ensures k == tokenName + ":" + loginType + ":safe:" + service + ":" + token
  {
    Key(tokenName, loginType, Safe, service + ":" + token)
  }

  /** Two different tags disagree at a position both of them have. */
  lemma TagsDiverge(k1: Kind, k2: Kind) returns (j: nat)
    requires k1 != k2
    ensures j < |Tag(k1)| && j < |Tag(k2)| && Tag(k1)[j] != Tag(k2)[j]
  {
    var a, b := Tag(k1), Tag(k2);
    j := if a[0] != b[0] then 0 else if a[1] != b[1] then 1 else 5;
  }

  /** For one manager, keys of different kinds never coincide, whatever the ids. */
  lemma KindsNeverCollide(tokenName: string, loginType: string, k1: Kind, id1: string, k2: Kind, id2: string)
    requires k1 != k2
    ensures Key(tokenName, loginType, k1, id1) != Key(tokenName, loginType, k2, id2)
  {
    var p := Prefix(tokenName, loginType);
    var j := TagsDiverge(k1, k2);
    assert Key(tokenName, loginType, k1, id1)[|p| + j] == Tag(k1)[j];
    assert Key(tokenName, loginType, k2, id2)[|p| + j] == Tag(k2)[j];
  }

  /** Within one kind, the key determines the id. */
  lemma KeyInjective(tokenName: string, loginType: string, kind: Kind, id1: string, id2: string)
    requires Key(tokenName, loginType, kind, id1) == Key(tokenName, loginType, kind, id2)
    ensures id1 == id2
  {
    var n := |Prefix(tokenName, loginType) + Tag(kind)|;
    assert id1 == Key(tokenName, loginType, kind, id1)[n..];
    assert id2 == Key(tokenName, loginType, kind, id2)[n..];
  }
}
