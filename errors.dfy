/**
 * Errors of the token/session core (satoken/manager.go:9-20), the store
 * contract's own failures, and the Option/Result wrappers every other module
 * uses in place of Go's (value, error) pairs and nil pointers.
 */
module Errors {

  datatype Option<T> = None | Some(value: T)

  /** A Go `(T, error)` pair: exactly one of the two is meaningful. */
  datatype Result<T> = Ok(value: T) | Err(error: Error)

  /** A Go `error` return on its own: nil or an error. */
  datatype Outcome = Pass | Fail(error: Error)

  datatype Error =
    | ObjectNotExist   // the store holds no object (or an empty value) under the key
    | TokenNotExist    // declared by the manager; no store of this model raises it
    | EmptySessionId   // a session was asked for under the empty key
    | Malformed        // the stored value does not have the shape the reader asked for
    | NoToken          // business errors: one per validity sentinel
    | InvalidToken
    | TokenTimeout
    | BeReplaced
    | KickOut
    | TokenFreeze
    | NoPrefix

  /** The errors built with `bizerr.New`, which carry a numeric code. */
  predicate IsBizError(e: Error)
  {
    e.NoToken? || e.InvalidToken? || e.TokenTimeout? || e.BeReplaced? ||
    e.KickOut? || e.TokenFreeze? || e.NoPrefix?
  }

  /** The numeric code of a business error; the other errors have none. */
  function BizCode(e: Error): (code: Option<int>)
    ensures code.Some? <==> IsBizError(e)
    ensures code.Some? ==> 10000 <= code.value <= 10006
  {
    match e
    case NoToken => Some(10000)
    case InvalidToken => Some(10001)
    case TokenTimeout => Some(10002)
    case BeReplaced => Some(10003)
    case KickOut => Some(10004)
    case TokenFreeze => Some(10005)
    case NoPrefix => Some(10006)
    case _ => None
  }

  /** The message (an i18n key for business errors) each error is created with. */
  function Message(e: Error): (m: string)
    ensures IsBizError(e) ==> "satoken.token." <= m
  {
    match e
    case ObjectNotExist => "object not exist"
    case TokenNotExist => "token not exist"
    case EmptySessionId => "session id is empty"
    case Malformed => "malformed stored value"
    case NoToken => "satoken.token.notExist"
    case InvalidToken => "satoken.token.invalid"
    case TokenTimeout => "satoken.token.timeout"
    case BeReplaced => "satoken.token.beReplaced"
    case KickOut => "satoken.token.beKickOut"
    case TokenFreeze => "satoken.token.freeze"
    case NoPrefix => "satoken.token.noPrefix"
  }

  /** Codes identify business errors: two different ones never share a code. */
  lemma BizCodesDistinct(e1: Error, e2: Error)
    requires IsBizError(e1) && IsBizError(e2) && e1 != e2
    ensures BizCode(e1) != BizCode(e2)
  {
  }
}
