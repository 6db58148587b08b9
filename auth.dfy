/**
 * How the login and signup screens interpret the reply of their authentication
 * request (src/pages/LoginPage.jsx and src/pages/SignupPage.jsx run the same
 * code with a different default message).
 */
module Auth {
  import opened Common

  /** The JSON object the authentication endpoints answer with: `{token}` on
      success, `{error}` with a non-2xx status. */
  datatype AuthBody = AuthBody(error: Option<string>, token: Option<string>)

  /** The JSON request body `{email, password}`. */
  datatype Credentials = Credentials(email: string, password: string)

  /** The message of the exception that reaches the `catch` block, or None when
      the request completes: a rejected fetch, an unreadable body, or the
      `Error(data.error || fallback)` thrown for a non-2xx status. */
  function AuthException(reply: Reply<AuthBody>, fallback: string): (r: Option<string>)
    ensures r.None? <==> OkBody(reply).Some?
    ensures reply.Replied? && !IsOk(reply.status) && reply.body.Parsed? ==>
              r == Some(OrElse(reply.body.value.error, fallback))
    ensures reply.Thrown? ==> r == Some(reply.message)
    ensures reply.Replied? && reply.body.Unparsable? ==> r == Some(reply.body.message)
  {
    match reply
    case Thrown(m) => Some(m)
    case Replied(status, body) =>
      match body
      case Unparsable(m) => Some(m)
      case Parsed(b) => if IsOk(status) then None else Some(OrElse(b.error, fallback))
  }

  /** The error the screen shows after a settled attempt: `err.message ||
      fallback` for a failed one, '' (left as cleared) for a successful one. */
  function AuthError(reply: Reply<AuthBody>, fallback: string): (e: string)
    ensures fallback != "" ==> (e == "" <==> AuthException(reply, fallback).None?)
    ensures AuthException(reply, fallback).Some? ==> e == OrElse(AuthException(reply, fallback), fallback)
    ensures AuthException(reply, fallback).Some? && AuthException(reply, fallback).value != "" ==>
              e == AuthException(reply, fallback).value
    ensures reply.Thrown? ==> e == OrElse(Some(reply.message), fallback)
    ensures reply.Replied? && reply.body.Unparsable? ==> e == OrElse(Some(reply.body.message), fallback)
    ensures reply.Replied? && !IsOk(reply.status) && reply.body.Parsed? ==>
              e == OrElse(reply.body.value.error, fallback)
  {
    match AuthException(reply, fallback)
    case None => ""
    case Some(m) => OrElse(Some(m), fallback)
  }

  /** What `onLogin` receives: `data.token` of a successful reply (an absent token
      is handed on as the empty string, which the application treats alike), or
      None when `onLogin` is not called. */
  function HandedToken(reply: Reply<AuthBody>): (t: Option<string>)
    ensures t.Some? <==> OkBody(reply).Some?
    ensures t.Some? && OkBody(reply).value.token.Some? ==> t.value == OkBody(reply).value.token.value
    ensures t.Some? && OkBody(reply).value.token.None? ==> t.value == ""
  {
    match OkBody(reply)
    case None => None
    case Some(b) => Some(if b.token.Some? then b.token.value else "")
  }

  /** A settled attempt either hands a token to the application or shows an
      error, never both, provided the default message is not empty. */
  lemma TokenXorError(reply: Reply<AuthBody>, fallback: string)
    requires fallback != ""
    ensures HandedToken(reply).Some? <==> AuthError(reply, fallback) == ""
  {
  }
}
