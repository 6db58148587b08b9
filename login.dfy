/** The login screen's controller (src/pages/LoginPage.jsx). */
module Login {
  import opened Common
  import opened Auth

  const MissingCredentialsMessage := "Please enter email and password"
  const LoginFailedMessage := "Login failed"

  /** The validation failure that stops a login attempt before any request:
      an empty email or an empty password. */
  function LoginProblem(email: string, password: string): (r: Option<string>)
    ensures r.None? <==> email != "" && password != ""
    ensures r.Some? ==> r.value == MissingCredentialsMessage
  {
    if email == "" || password == "" then Some(MissingCredentialsMessage) else None
  }

  class LoginController {
    var email: string
    var password: string
    var error: string
    var loading: bool

    constructor ()
      ensures email == "" && password == "" && error == "" && !loading
    {
      email, password, error, loading := "", "", "", false;
    }

    /** `handleLogin` up to its `await fetch`: returns the request it sends, or
        None when validation stops it; a rejected attempt sets only the error. */
    method BeginLogin() returns (request: Option<Credentials>)
      modifies this`error, this`loading
      ensures LoginProblem(email, password).Some? ==>
                request.None? && error == LoginProblem(email, password).value && loading == old(loading)
      ensures LoginProblem(email, password).None? ==>
                request == Some(Credentials(email, password)) && loading && error == ""
    {
      if email == "" || password == "" {
        error := MissingCredentialsMessage;
        return None;
      }
      loading := true;
      error := "";
      request := Some(Credentials(email, password));
    }

    /** `handleLogin` after its `await fetch`, through `catch` and `finally`:
        returns the token handed to `onLogin`, if it is called. */
    method SettleLogin(reply: Reply<AuthBody>) returns (handed: Option<string>)
      modifies this`error, this`loading
      ensures !loading
      ensures handed == HandedToken(reply)
      ensures error == if handed.None? then AuthError(reply, LoginFailedMessage) else old(error)
    {
      handed := None;
      match reply {
        case Thrown(m) =>
          error := OrElse(Some(m), LoginFailedMessage);
        case Replied(status, body) =>
          match body {
            case Unparsable(m) =>
              error := OrElse(Some(m), LoginFailedMessage);
            case Parsed(data) =>
              if !IsOk(status) {
                var thrown := OrElse(data.error, LoginFailedMessage);
                error := OrElse(Some(thrown), LoginFailedMessage);
              } else {
                handed := Some(if data.token.Some? then data.token.value else "");
              }
          }
      }
      loading := false;
    }

    /** `handleLogin` run to completion: no request unless validation passes;
        otherwise loading ends false and the attempt either hands a token to
        the application or shows an error. */
    method HandleLogin(reply: Reply<AuthBody>) returns (request: Option<Credentials>, handed: Option<string>)
      modifies this`error, this`loading
      ensures LoginProblem(email, password).Some? ==>
                request.None? && handed.None? && error == LoginProblem(email, password).value && loading == old(loading)
      ensures LoginProblem(email, password).None? ==>
                request == Some(Credentials(email, password)) && !loading &&
                handed == HandedToken(reply) && error == AuthError(reply, LoginFailedMessage) &&
                (handed.Some? <==> error == "")
    {
      handed := None;
      request := BeginLogin();
      if request.Some? {
        handed := SettleLogin(reply);
        TokenXorError(reply, LoginFailedMessage);
      }
    }
  }
}
