/** The sign-up page: it clears any old session when it mounts and again before it posts
    the registration, and it never signs the new user in. */
module SignUp {
  import opened JsValues
  import opened ClientSession
  import opened AxiosInstance
  import opened SignIn

  /** `err.response && err.response.data && err.response.data.message`. */
  function ReportedMessage(e: HttpError): (r: Option<string>)
    ensures r.Some? <==> e.response.Some? && e.response.value.data.Some? && Truthy(e.response.value.data.value.message)
    ensures r.Some? ==> r == e.response.value.data.value.message
  {
    if e.response.Some? && e.response.value.data.Some? && Truthy(e.response.value.data.value.message)
    then e.response.value.data.value.message
    else None
  }

  const DefaultSignUpError: string := "Signup failed. Please try again."

  /** The text shown for a failed registration: the server's `error`, else its `message`,
      else the default. */
  function SignUpErrorText(e: HttpError): (text: string)
    ensures ReportedError(e).Some? ==> text == ReportedError(e).value
    ensures ReportedError(e).None? && ReportedMessage(e).Some? ==> text == ReportedMessage(e).value
    ensures ReportedError(e).None? && ReportedMessage(e).None? ==> text == DefaultSignUpError
  {
    if ReportedError(e).Some? then ReportedError(e).value
    else if ReportedMessage(e).Some? then ReportedMessage(e).value
    else DefaultSignUpError
  }

  /** A reply carrying both an `error` and a `message` shows the `error`. */
  lemma ErrorTakesPrecedence(status: int, error: string, msg: string)
    requires error != "" && msg != ""
    ensures SignUpErrorText(HttpError(Some(ErrorResponse(status, Some(ErrorData(Some(error), Some(msg))))))) == error
  {
  }

  class SignUpForm {
    var name: string
    var email: string
    var password: string

    constructor ()
      ensures name == "" && email == "" && password == ""
    {
      name, email, password := "", "", "";
    }

    /** The effect that runs when the page mounts. */
    method Mount(b: Browser)
      modifies b
      ensures b.token == None && !b.isAuth && b.location == old(b.location)
    {
      b.token := None;
      b.isAuth := false;
    }

    /** `register`, given the reply of `POST /signup`. The token and `isAuth` are cleared
        before the request and never set afterwards, even when a jwt comes back. With a
        jwt the fields are cleared and the page goes home; without one it goes to the
        sign-in page (after a delay, taken here as part of the same step). */
    method Register(b: Browser, reply: Reply<AuthData>) returns (toast: Toast)
      modifies this, b
      ensures b.token == None && !b.isAuth
      ensures reply.Ok? && Truthy(reply.data.jwt) ==>
                name == "" && email == "" && password == "" && b.location == "/" &&
                toast == Success("Signup successful! Please sign in.")
      ensures reply.Ok? && !Truthy(reply.data.jwt) ==>
                b.location == "/signin" && toast == Success("Signup successful. Please sign in.")
      ensures reply.Err? ==> b.location == old(b.location) && toast == Error(SignUpErrorText(reply.error))
      ensures !(reply.Ok? && Truthy(reply.data.jwt)) ==>
                name == old(name) && email == old(email) && password == old(password)
    {
      b.token := None;
      b.isAuth := false;
      match reply
      case Ok(data) =>
        if Truthy(data.jwt) {
          toast := Success("Signup successful! Please sign in.");
          name, email, password := "", "", "";
          b.location := "/";
        } else {
          toast := Success("Signup successful. Please sign in.");
          b.location := "/signin";
        }
      case Err(e) =>
        toast := Error(SignUpErrorText(e));
    }
  }
}
