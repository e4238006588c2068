/**
 * The validity sentinels (satoken/common.go:12-20): reserved strings stored in
 * place of a login id in the token mapping, and `isValidLoginId`
 * (satoken/common.go:223-241), which turns a stored value back into an error.
 */
module Sentinels {
  import opened Errors

  const NotToken: string := "-1"
  const InvalidTokenValue: string := "-2"
  const TokenTimeoutValue: string := "-3"
  const BeReplacedValue: string := "-4"
  const KickOutValue: string := "-5"
  const TokenFreezeValue: string := "-6"
  const NoPrefixValue: string := "-7"

  predicate IsSentinel(s: string)
  {
    s == NotToken || s == InvalidTokenValue || s == TokenTimeoutValue || s == BeReplacedValue ||
    s == KickOutValue || s == TokenFreezeValue || s == NoPrefixValue
  }

  /** `isValidLoginId`: None stands for a nil error, i.e. a real login id. */
  function IsValidLoginId(loginId: string): (r: Option<Error>)
    ensures r.None? <==> loginId != "" && !IsSentinel(loginId)
    ensures r.Some? ==> IsBizError(r.value)
    ensures loginId == "" || loginId == NotToken ==> r == Some(NoToken)
  {
    if loginId == NotToken || loginId == "" then Some(NoToken)
    else if loginId == InvalidTokenValue then Some(InvalidToken)
    else if loginId == TokenTimeoutValue then Some(TokenTimeout)
    else if loginId == BeReplacedValue then Some(BeReplaced)
    else if loginId == KickOutValue then Some(KickOut)
    else if loginId == TokenFreezeValue then Some(TokenFreeze)
    else if loginId == NoPrefixValue then Some(NoPrefix)
    else None
  }

  /** The sentinel that records why a token stopped being valid. */
  function SentinelOf(e: Error): (s: string)
    requires IsBizError(e)
    ensures IsSentinel(s)
  {
    match e
    case NoToken => NotToken
    case InvalidToken => InvalidTokenValue
    case TokenTimeout => TokenTimeoutValue
    case BeReplaced => BeReplacedValue
    case KickOut => KickOutValue
    case TokenFreeze => TokenFreezeValue
    case NoPrefix => NoPrefixValue
  }

  /** Storing the sentinel of an error and reading it back yields that error. */
  lemma SentinelRoundTrip(e: Error)
    requires IsBizError(e)
    ensures IsValidLoginId(SentinelOf(e)) == Some(e)
  {
  }

  /** Conversely, each error other than NoToken comes from exactly one stored value. */
  lemma SentinelDeterminedByError(s: string, e: Error)
    requires IsValidLoginId(s) == Some(e)
    ensures s == SentinelOf(e) || (s == "" && e == NoToken)
  {
  }
}
