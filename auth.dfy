/** The authenticated request layer: where the bearer token is looked up,
    how an outgoing request's headers are decorated, how a response is
    classified (data, error message, 401 with a redirect to the login page,
    non-JSON success), and the loading/error state of the hook around it. */
module Auth {
  import opened JsRuntime
  import opened BrowserStorage
  import opened Fetch

  const LoginRoute := "/login"
  const BearerPrefix := "Bearer "
  const NotJsonMessage := "La réponse n'est pas au format JSON"

  /** `getAuthToken`: the session store's token if it is non-empty,
      otherwise whatever the durable store holds (possibly nothing). */
  function GetAuthToken(st: Storage): (token: Option<string>)
    ensures Truthy(token) <==> Truthy(GetItem(st.session, TokenKey)) || Truthy(GetItem(st.local, TokenKey))
    ensures Truthy(GetItem(st.session, TokenKey)) ==> token == GetItem(st.session, TokenKey)
    ensures !Truthy(GetItem(st.session, TokenKey)) ==> token == GetItem(st.local, TokenKey)
  {
    Or(GetItem(st.session, TokenKey), GetItem(st.local, TokenKey))
  }

  /** The methods for which a JSON Content-Type is supplied; compared as
      written, so "post" or a missing method does not qualify. */
  predicate IsBodyMethod(httpMethod: Option<string>) {
    httpMethod == Some("POST") || httpMethod == Some("PUT") || httpMethod == Some("PATCH")
  }

  /** The headers `authFetch` sends, given the caller's method and headers
      and the token found in storage. */
  function AuthHeaders(httpMethod: Option<string>, token: Option<string>, h: HeaderMap): (r: HeaderMap)
    ensures ContentTypeHeader in r <==> ContentTypeHeader in h || IsBodyMethod(httpMethod)
    ensures ContentTypeHeader in h ==> r[ContentTypeHeader] == h[ContentTypeHeader]
    ensures ContentTypeHeader !in h && IsBodyMethod(httpMethod) ==> r[ContentTypeHeader] == JsonMediaType
    ensures Truthy(token) ==> AuthorizationHeader in r && r[AuthorizationHeader] == BearerPrefix + token.value
    ensures !Truthy(token) ==> (AuthorizationHeader in r <==> AuthorizationHeader in h)
    ensures !Truthy(token) && AuthorizationHeader in h ==> r[AuthorizationHeader] == h[AuthorizationHeader]
    ensures forall k :: k != ContentTypeHeader && k != AuthorizationHeader ==>
              (k in r <==> k in h) && (k in h ==> r[k] == h[k])
  {
    var withType := if ContentTypeHeader !in h && IsBodyMethod(httpMethod) then h[ContentTypeHeader := JsonMediaType] else h;
    if Truthy(token) then withType[AuthorizationHeader := BearerPrefix + token.value] else withType
  }

  /** `authFetch`: copies the caller's headers into a Headers object, sets
      Content-Type and Authorization on it, and sends the caller's options
      with those headers. */
  method AuthFetch(st: Storage, options: RequestInit) returns (sent: RequestInit)
    ensures sent == options.(headers := AuthHeaders(options.httpMethod, GetAuthToken(st), options.headers))
  {
    var token := GetAuthToken(st);
    var headers := new Headers(options.headers);
    if !headers.Has(ContentTypeHeader)
       && (options.httpMethod == Some("POST") || options.httpMethod == Some("PUT") || options.httpMethod == Some("PATCH"))
    {
      headers.Set(ContentTypeHeader, JsonMediaType);
    }
    if Truthy(token) {
      headers.Set(AuthorizationHeader, BearerPrefix + token.value);
    }
    sent := options.(headers := headers.entries);
  }

  /** The default error message of `authFetchJson`. */
  function HttpErrorFallback(status: nat): string {
    "HTTP error! status: " + DecimalString(status)
  }

  /** A declared content type that `authFetchJson` accepts as JSON. */
  predicate IsJsonContentType(contentType: Option<string>) {
    Truthy(contentType) && Includes(contentType.value, JsonMediaType)
  }

  /** What `authFetchJson` does with a reply: the parsed data or the
      message it fails with, and where it sends the browser. */
  datatype JsonOutcome = JsonOutcome(result: Result<JsonBody, string>, redirect: Option<string>)

  /** The classification of a response, given the message a non-ok response
      ends with. */
  function Classify(response: Response, nonOkMessage: string): JsonOutcome {
    var redirect := if response.status == 401 then Some(LoginRoute) else None;
    if !IsOk(response.status) then
      JsonOutcome(Failure(nonOkMessage), redirect)
    else if IsJsonContentType(response.contentType) then
      match response.body
      case Json(v) => JsonOutcome(Success(v), redirect)
      case Unparsable(_, syntaxError) => JsonOutcome(Failure(syntaxError), redirect)
    else
      JsonOutcome(Failure(NotJsonMessage), redirect)
  }

  /** `authFetchJson` as the code runs it: a rejected `fetch` escapes with its
      own message; a non-ok response fails with its JSON `message` or the
      status fallback, and a non-ok body that is not JSON fails with the
      TypeError of the second read. */
  function AuthFetchJsonResult(reply: FetchReply): (out: JsonOutcome)
    ensures reply.NetworkFailure? ==> out == JsonOutcome(Failure(reply.message), None)
    ensures out.redirect.Some? <==> reply.Answered? && reply.response.status == 401
    ensures out.redirect.Some? ==> out.redirect.value == LoginRoute
    ensures reply.Answered? && !IsOk(reply.response.status) && reply.response.body.Json? ==>
              out.result == Failure(ErrorMessage(reply.response.body, HttpErrorFallback(reply.response.status)))
    ensures reply.Answered? && !IsOk(reply.response.status) && reply.response.body.Unparsable? ==>
              out.result == Failure(reply.response.bodyUsedError)
    ensures reply.Answered? && IsOk(reply.response.status) && !IsJsonContentType(reply.response.contentType) ==>
              out.result == Failure(NotJsonMessage)
    ensures out.result.Success? <==>
              && reply.Answered? && IsOk(reply.response.status)
              && IsJsonContentType(reply.response.contentType) && reply.response.body.Json?
    ensures out.result.Success? ==> reply.response.body == Json(out.result.value)
    ensures reply.Answered? && IsOk(reply.response.status) && IsJsonContentType(reply.response.contentType)
            && reply.response.body.Unparsable? ==>
              out.result == Failure(reply.response.body.syntaxError)
  {
    match reply
    case NetworkFailure(m) => JsonOutcome(Failure(m), None)
    case Answered(response) =>
      Classify(response, ErrorMessageAsWritten(response.body, HttpErrorFallback(response.status), response.bodyUsedError))
  }

  /** `authFetchJson` as its comments intend it: a non-ok body that is not
      JSON fails with its own text, or with the status fallback when that
      text is empty. */
  function IntendedFetchJsonResult(reply: FetchReply): (out: JsonOutcome)
    ensures reply.NetworkFailure? ==> out == JsonOutcome(Failure(reply.message), None)
    ensures reply.Answered? && !IsOk(reply.response.status) ==>
              out.result == Failure(ErrorMessage(reply.response.body, HttpErrorFallback(reply.response.status)))
    ensures reply.Answered? && !IsOk(reply.response.status) ==> out.result.error != ""
    ensures reply.Answered? && !IsOk(reply.response.status) && Truthy(ServerText(reply.response.body)) ==>
              out.result.error == ServerText(reply.response.body).value
  {
    match reply
    case NetworkFailure(m) => JsonOutcome(Failure(m), None)
    case Answered(response) =>
      Classify(response, ErrorMessage(response.body, HttpErrorFallback(response.status)))
  }

  /** The code and its intent part only on a non-ok response whose body is
      not JSON: there the code reports the second read's TypeError where the
      intent reports the body's text. Everything else, the redirect included,
      is the same. */
  lemma AsWrittenDiffersOnlyOnTextErrors(reply: FetchReply)
    ensures AuthFetchJsonResult(reply).redirect == IntendedFetchJsonResult(reply).redirect
    ensures !(reply.Answered? && !IsOk(reply.response.status) && reply.response.body.Unparsable?) ==>
              AuthFetchJsonResult(reply) == IntendedFetchJsonResult(reply)
    ensures reply.Answered? && !IsOk(reply.response.status) && reply.response.body.Unparsable?
            && reply.response.body.text != "" && reply.response.body.text != reply.response.bodyUsedError ==>
              AuthFetchJsonResult(reply) != IntendedFetchJsonResult(reply)
  {
  }

  /** A 401 response never yields data and always leads back to the login page. */
  lemma UnauthorizedRedirects(response: Response)
    requires response.status == 401
    ensures AuthFetchJsonResult(Answered(response)).result.Failure?
    ensures AuthFetchJsonResult(Answered(response)).redirect == Some(LoginRoute)
  {
  }

  /** A non-ok response fails with a non-empty message whenever its body is
      JSON or the browser's TypeError message is non-empty. */
  lemma FailureMessageNonEmpty(response: Response)
    requires !IsOk(response.status)
    ensures response.body.Json? || response.bodyUsedError != "" ==>
              AuthFetchJsonResult(Answered(response)).result.error != ""
  {
  }

  /** `authFetchJson`: sends the decorated request; a rejected `fetch`
      escapes; otherwise the response's body is read once for the error
      chain of a non-ok status, or for the data of a JSON response. */
  method AuthFetchJson(st: Storage, options: RequestInit, reply: FetchReply)
    returns (sent: RequestInit, out: JsonOutcome)
    ensures sent == options.(headers := AuthHeaders(options.httpMethod, GetAuthToken(st), options.headers))
    ensures out == AuthFetchJsonResult(reply)
  {
    sent := AuthFetch(st, options);
    if reply.NetworkFailure? {
      out := JsonOutcome(Failure(reply.message), None);
      return;
    }
    var response := reply.response;
    var stream := new BodyStream(response.body, response.bodyUsedError);
    if !IsOk(response.status) {
      var redirect: Option<string> := None;
      if response.status == 401 {
        redirect := Some(LoginRoute);
      }
      var thrown := ReadErrorMessageAsWritten(stream, HttpErrorFallback(response.status));
      out := JsonOutcome(Failure(thrown), redirect);
      return;
    }
    var contentType := response.contentType;
    if Truthy(contentType) && Includes(contentType.value, JsonMediaType) {
      var data := stream.ReadJson();
      out := JsonOutcome(data, None);
    } else {
      out := JsonOutcome(Failure(NotJsonMessage), None);
    }
  }

  /** `useAuthFetch`: the `loading` and `error` state around `execute`. */
  class AuthFetchHook {
    var loading: bool
    var error: Option<string>
    /** The state rendered while the request is in flight. */
    ghost var pending: (bool, Option<string>)

    constructor ()
      ensures !loading && error == None
    {
      loading := false;
      error := None;
    }

    method Execute(st: Storage, options: RequestInit, reply: FetchReply)
      returns (sent: RequestInit, data: Result<JsonBody, string>, redirect: Option<string>)
      modifies this
      ensures pending == (true, None)
      ensures sent == options.(headers := AuthHeaders(options.httpMethod, GetAuthToken(st), options.headers))
      ensures data == AuthFetchJsonResult(reply).result
      ensures redirect == AuthFetchJsonResult(reply).redirect
      ensures reply.NetworkFailure? ==> error == Some(reply.message) && redirect == None
      ensures !loading
      ensures error == if data.Failure? then Some(data.error) else None
    {
      loading := true;
      error := None;
      pending := (loading, error);
      var out;
      sent, out := AuthFetchJson(st, options, reply);
      data, redirect := out.result, out.redirect;
      if data.Failure? {
        error := Some(data.error);
      }
      loading := false;
    }
  }
}
