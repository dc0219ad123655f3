/** The shared request client: the shapes of its replies and failures, and its two
    interceptors, which attach the stored token to every request and sign the user out on
    a 401 reply. */
module AxiosInstance {
  import opened JsValues
  import opened ClientSession
  import App

  /** The JSON body of an error reply, as far as the pages read it. */
  datatype ErrorData = ErrorData(error: Option<string>, message: Option<string>)

  datatype ErrorResponse = ErrorResponse(status: int, data: Option<ErrorData>)

  /** A rejected request; `response` is absent when no reply arrived at all. */
  datatype HttpError = HttpError(response: Option<ErrorResponse>)

  /** The outcome of a request, chosen by the network and the server. */
  datatype Reply<T> = Ok(data: T) | Err(error: HttpError)

  const AuthorizationHeader: string := "Authorization"
  const BearerPrefix: string := "Bearer "

  class RequestConfig {
    var headers: map<string, string>

    constructor (headers: map<string, string>)
      ensures this.headers == headers
    {
      this.headers := headers;
    }
  }

  /** The headers after the request interceptor: an `Authorization: Bearer <token>` header
      exactly when a token is stored, and every other header as it was. */
  function WithAuthorization(headers: map<string, string>, token: Option<string>): (r: map<string, string>)
    ensures Truthy(token) ==> AuthorizationHeader in r && r[AuthorizationHeader] == BearerPrefix + token.value
    ensures !Truthy(token) ==> r == headers
    ensures forall k :: k != AuthorizationHeader ==> (k in r <==> k in headers)
    ensures forall k :: k != AuthorizationHeader && k in r ==> r[k] == headers[k]
  {
    if Truthy(token) then headers[AuthorizationHeader := BearerPrefix + token.value] else headers
  }

  /** The token can be read back from the header the interceptor attached. */
  lemma BearerTokenRoundTrip(headers: map<string, string>, token: string)
    requires token != ""
    ensures var h := WithAuthorization(headers, Some(token))[AuthorizationHeader];
            h[..|BearerPrefix|] == BearerPrefix && h[|BearerPrefix|..] == token
  {
  }

  /** The request interceptor: sets the header on the request's own config and returns
      that config. */
  method AttachToken(b: Browser, config: RequestConfig) returns (result: RequestConfig)
    modifies config
    ensures result == config
    ensures config.headers == WithAuthorization(old(config.headers), b.token)
  {
    var token := b.token;
    if Truthy(token) {
      config.headers := config.headers[AuthorizationHeader := BearerPrefix + token.value];
    }
    result := config;
  }

  /** The response interceptor for a successful reply passes it on as it is. */
  method PassResponse<T>(response: T) returns (result: T)
    ensures result == response
  {
    result := response;
  }

  /** `error.response && error.response.status === 401`: a failure without a response,
      such as a network error, is never treated as an expired session. */
  function IsUnauthorized(e: HttpError): (r: bool)
    ensures e.response.None? ==> !r
    ensures e.response.Some? ==> (r <==> e.response.value.status == 401)
  {
    e.response.Some? && e.response.value.status == 401
  }

  /** The response interceptor for a failure: a 401 reply removes the token and assigns
      `/signin` to `window.location.href`, which reloads the application, so `isAuth` is
      computed afresh from the now empty storage; any other failure leaves everything as
      it was. Either way the caller receives the same failure. */
  method RejectResponse(b: Browser, e: HttpError) returns (rejected: HttpError)
    modifies b
    ensures rejected == e
    ensures IsUnauthorized(e) ==> b.token == None && b.location == "/signin" && !b.isAuth
    ensures !IsUnauthorized(e) ==>
              b.token == old(b.token) && b.location == old(b.location) && b.isAuth == old(b.isAuth)
  {
    if e.response.Some? && e.response.value.status == 401 {
      b.token := None;
      b.location := "/signin";
      b.isAuth := App.InitialIsAuth(b.token);
    }
    rejected := e;
  }
}
