/** The sign-in page: `login` posts the credentials and, on a reply that carries a jwt,
    stores it and signs the user in. */
module SignIn {
  import opened JsValues
  import opened ClientSession
  import opened AxiosInstance

  /** The part of the sign-in and sign-up replies the pages read. */
  datatype AuthData = AuthData(jwt: Option<string>)

  /** `err.response && err.response.data && err.response.data.error`: the server's own
      error text, when the failure carries a non-empty one. */
  function ReportedError(e: HttpError): (r: Option<string>)
    ensures r.Some? <==> e.response.Some? && e.response.value.data.Some? && Truthy(e.response.value.data.value.error)
    ensures r.Some? ==> r == e.response.value.data.value.error && r.value != ""
  {
    if e.response.Some? && e.response.value.data.Some? && Truthy(e.response.value.data.value.error)
    then e.response.value.data.value.error
    else None
  }

  const DefaultLoginError: string := "Invalid email or password"

  /** The text shown for a failed request: the server's error, else the default. */
  function LoginErrorText(e: HttpError): (text: string)
    ensures ReportedError(e).Some? ==> text == ReportedError(e).value
    ensures ReportedError(e).None? ==> text == DefaultLoginError
    ensures text != ""
  {
    match ReportedError(e)
    case Some(t) => t
    case None => DefaultLoginError
  }

  class SignInForm {
    var email: string
    var password: string

    constructor ()
      ensures email == "" && password == ""
    {
      email, password := "", "";
    }

    /** `login`, given the reply of `POST /signin`. Only a reply with a jwt writes the
        token; every other path leaves storage, `isAuth`, the location and the fields as
        they were. */
    method Login(b: Browser, reply: Reply<AuthData>) returns (toast: Toast)
      modifies this, b
      ensures reply.Ok? && Truthy(reply.data.jwt) ==>
                b.token == reply.data.jwt && b.isAuth && b.location == "/music" &&
                email == "" && password == "" && toast == Success("Login successful")
      ensures reply.Ok? && !Truthy(reply.data.jwt) ==>
                toast == Error("Login failed: No token received")
      ensures reply.Err? ==> toast == Error(LoginErrorText(reply.error))
      ensures !(reply.Ok? && Truthy(reply.data.jwt)) ==>
                b.token == old(b.token) && b.isAuth == old(b.isAuth) && b.location == old(b.location) &&
                email == old(email) && password == old(password)
    {
      match reply
      case Ok(data) =>
        if Truthy(data.jwt) {
          b.token := data.jwt;
          b.isAuth := true;
          toast := Success("Login successful");
          email := "";
          password := "";
          b.location := "/music";
        } else {
          toast := Error("Login failed: No token received");
        }
      case Err(e) =>
        toast := Error(LoginErrorText(e));
    }
  }
}
