/** The signup screen's controller (src/pages/SignupPage.jsx). */
module Signup {
  import opened Common
  import opened Auth

  const MissingFieldsMessage := "Please fill in all fields"
  const MismatchMessage := "Passwords do not match"
  const TooShortMessage := "Password must be at least 6 characters long"
  const SignupFailedMessage := "Signup failed"
  const MinPasswordLength := 6

  /** The first validation failure of a signup form, checked in order: a
      missing field, then a confirmation that differs, then a short password. */
  function SignupProblem(email: string, password: string, confirmation: string): (r: Option<string>)
    ensures r.None? <==>
              email != "" && password != "" && confirmation != "" &&
              password == confirmation && |password| >= MinPasswordLength
    ensures email == "" || password == "" || confirmation == "" ==> r == Some(MissingFieldsMessage)
    ensures email != "" && password != "" && confirmation != "" && password != confirmation ==>
              r == Some(MismatchMessage)
    ensures (email != "" && password != "" && confirmation != "" && password == confirmation &&
             |password| < MinPasswordLength) ==> r == Some(TooShortMessage)
    ensures r == Some(TooShortMessage) ==> password == confirmation && 0 < |password| < MinPasswordLength
  {
    if email == "" || password == "" || confirmation == "" then Some(MissingFieldsMessage)
    else if password != confirmation then Some(MismatchMessage)
    else if |password| < MinPasswordLength then Some(TooShortMessage)
    else None
  }

  class SignupController {
    var email: string
    var password: string
    var confirmPassword: string
    var error: string
    var loading: bool

    constructor ()
      ensures email == "" && password == "" && confirmPassword == "" && error == "" && !loading
    {
      email, password, confirmPassword, error, loading := "", "", "", "", false;
    }

    /** `handleSignup` up to its `await fetch`: returns the request it sends, or
        None when validation stops it; a rejected attempt sets only the error. */
    method BeginSignup() returns (request: Option<Credentials>)
      modifies this`error, this`loading
      ensures SignupProblem(email, password, confirmPassword).Some? ==>
                request.None? && error == SignupProblem(email, password, confirmPassword).value &&
                loading == old(loading)
      ensures SignupProblem(email, password, confirmPassword).None? ==>
                request == Some(Credentials(email, password)) && loading && error == ""
    {
      if email == "" || password == "" || confirmPassword == "" {
        error := MissingFieldsMessage;
        return None;
      }
      if password != confirmPassword {
        error := MismatchMessage;
        return None;
      }
      if |password| < MinPasswordLength {
        error := TooShortMessage;
        return None;
      }
      loading := true;
      error := "";
      request := Some(Credentials(email, password));
    }

    /** `handleSignup` after its `await fetch`, through `catch` and `finally`:
        returns the token handed to `onLogin`, if it is called. */
    method SettleSignup(reply: Reply<AuthBody>) returns (handed: Option<string>)
      modifies this`error, this`loading
      ensures !loading
      ensures handed == HandedToken(reply)
      ensures error == if handed.None? then AuthError(reply, SignupFailedMessage) else old(error)
    {
      handed := None;
      match reply {
        case Thrown(m) =>
          error := OrElse(Some(m), SignupFailedMessage);
        case Replied(status, body) =>
          match body {
            case Unparsable(m) =>
              error := OrElse(Some(m), SignupFailedMessage);
            case Parsed(data) =>
              if !IsOk(status) {
                var thrown := OrElse(data.error, SignupFailedMessage);
                error := OrElse(Some(thrown), SignupFailedMessage);
              } else {
                handed := Some(if data.token.Some? then data.token.value else "");
              }
          }
      }
      loading := false;
    }

    /** `handleSignup` run to completion: no request unless validation passes;
        otherwise loading ends false and the attempt either hands a token to
        the application or shows an error. */
    method HandleSignup(reply: Reply<AuthBody>) returns (request: Option<Credentials>, handed: Option<string>)
      modifies this`error, this`loading
      ensures SignupProblem(email, password, confirmPassword).Some? ==>
                request.None? && handed.None? && error == SignupProblem(email, password, confirmPassword).value && loading == old(loading)
      ensures SignupProblem(email, password, confirmPassword).None? ==>
                request == Some(Credentials(email, password)) && !loading &&
                handed == HandedToken(reply) && error == AuthError(reply, SignupFailedMessage) &&
                (handed.Some? <==> error == "")
    {
      handed := None;
      request := BeginSignup();
      if request.Some? {
        handed := SettleSignup(reply);
        TokenXorError(reply, SignupFailedMessage);
      }
    }
  }
}
