/** The login page: the form, its validation, the login request and the
    choice of the displayed error, the writing of the token to both stores,
    and the header rule of the fetch wrapper installed after a login. */
module Login {
  import opened JsRuntime
  import opened BrowserStorage
  import opened Fetch
  import Auth

  const EmptyFieldsError := "Veuillez remplir tous les champs"
  const ServerUnreachableError := "Impossible de se connecter au serveur"
  const DefaultLoginError := "Une erreur est survenue lors de la connexion"
  const PollsRoute := "/Polls"
  const EmailField := "email"
  const PasswordField := "password"

  // ----- The header rule of configureFetchDefaults -----

  /** `options.method || 'GET'`. */
  function MethodOrGet(httpMethod: Option<string>): string {
    OrElse(httpMethod, "GET")
  }

  /** The headers the wrapped fetch sends: Authorization first, then the JSON
      Content-Type for the body methods. */
  function DefaultsHeaders(token: string, httpMethod: Option<string>, h: HeaderMap): (r: HeaderMap)
    ensures token != "" ==> AuthorizationHeader in r && r[AuthorizationHeader] == Auth.BearerPrefix + token
    ensures token == "" ==> (AuthorizationHeader in r <==> AuthorizationHeader in h)
    ensures ContentTypeHeader in h ==> ContentTypeHeader in r && r[ContentTypeHeader] == h[ContentTypeHeader]
    ensures ContentTypeHeader !in h ==> (ContentTypeHeader in r <==> Auth.IsBodyMethod(httpMethod))
  {
    var withAuth := if token != "" then h[AuthorizationHeader := Auth.BearerPrefix + token] else h;
    var m := MethodOrGet(httpMethod);
    if ContentTypeHeader !in withAuth && (m == "POST" || m == "PUT" || m == "PATCH")
    then withAuth[ContentTypeHeader := JsonMediaType]
    else withAuth
  }

  /** The wrapper's rule is the rule of `authFetch` with the wrapper's token:
      defaulting the method to GET adds nothing, and setting Authorization
      before or after Content-Type gives the same headers. */
  lemma DefaultsRuleMatchesAuthFetch(token: string, httpMethod: Option<string>, h: HeaderMap)
    ensures DefaultsHeaders(token, httpMethod, h) == Auth.AuthHeaders(httpMethod, Some(token), h)
  {
    var m := MethodOrGet(httpMethod);
    assert (m == "POST" || m == "PUT" || m == "PATCH") <==> Auth.IsBodyMethod(httpMethod);
    var d := DefaultsHeaders(token, httpMethod, h);
    var a := Auth.AuthHeaders(httpMethod, Some(token), h);
    assert d.Keys == a.Keys;
    forall k | k in d
      ensures d[k] == a[k]
    {
      if k == AuthorizationHeader || k == ContentTypeHeader {
      } else {
        assert d[k] == h[k];
      }
    }
  }

  /** The installed fetch wrapper: clone the options, copy the headers into a
      Headers object, set Authorization, then Content-Type, and send. */
  method PatchedFetchRequest(token: string, init: Option<RequestInit>) returns (sent: RequestInit)
    ensures init.Some? ==>
              sent == init.value.(headers := DefaultsHeaders(token, init.value.httpMethod, init.value.headers))
    ensures init.None? ==> sent == RequestInit(None, DefaultsHeaders(token, None, map[]), None, map[])
  {
    var options := if init.Some? then init.value else RequestInit(None, map[], None, map[]);
    var headers := new Headers(options.headers);
    if token != "" {
      headers.Set(AuthorizationHeader, Auth.BearerPrefix + token);
    }
    var m := OrElse(options.httpMethod, "GET");
    if !headers.Has(ContentTypeHeader) && (m == "POST" || m == "PUT" || m == "PATCH") {
      headers.Set(ContentTypeHeader, JsonMediaType);
    }
    sent := options.(headers := headers.entries);
  }

  // ----- Token storage -----

  /** `setAuthToken`: the same token under "authToken" in both stores. */
  function SetAuthToken(st: Storage, token: string): (r: Storage)
    ensures GetItem(r.local, TokenKey) == Some(token) && GetItem(r.session, TokenKey) == Some(token)
    ensures forall k :: k != TokenKey ==> GetItem(r.local, k) == GetItem(st.local, k)
    ensures forall k :: k != TokenKey ==> GetItem(r.session, k) == GetItem(st.session, k)
  {
    Storage(st.local[TokenKey := token], st.session[TokenKey := token])
  }

  /** After a token is stored, every lookup the application performs finds
      exactly that token, even an empty one. */
  lemma StoredTokenIsFound(st: Storage, token: string)
    ensures Auth.GetAuthToken(SetAuthToken(st, token)) == Some(token)
    ensures LocalFirstToken(SetAuthToken(st, token)) == Some(token)
  {
  }

  // ----- Messages -----

  /** The fallback message of a failed login response. */
  function StatusFallback(status: nat): string {
    "Erreur " + DecimalString(status)
  }

  /** The error displayed for a failure whose message is `message`. */
  function DisplayedError(message: string): (shown: string)
    ensures shown != ""
    ensures Includes(message, "Failed to fetch") || Includes(message, "NetworkError") ==>
              shown == ServerUnreachableError
    ensures !Includes(message, "Failed to fetch") && !Includes(message, "NetworkError") && message != "" ==>
              shown == message
    ensures message == "" ==> shown == DefaultLoginError
  {
    if Includes(message, "Failed to fetch") || Includes(message, "NetworkError") then ServerUnreachableError
    else if message != "" then message
    else DefaultLoginError
  }

  /** A message that mentions a network failure anywhere, as the browsers'
      own "Failed to fetch" and "NetworkError when attempting to fetch
      resource." do, is never shown verbatim. */
  lemma NetworkFailureShownAsUnreachable(message: string, i: int)
    requires OccursAt(message, "Failed to fetch", i) || OccursAt(message, "NetworkError", i)
    ensures DisplayedError(message) == ServerUnreachableError
  {
  }

  // ----- The page state and the submit handler -----

  datatype LoginState = LoginState(
    formData: map<string, string>,
    isLoading: bool,
    error: string,
    storage: Storage,
    navigatedTo: Option<string>,
    fetchToken: Option<string>,
    requests: seq<map<string, string>>)

  const InitialState := LoginState(map[EmailField := "", PasswordField := ""], false, "", Storage(map[], map[]), None, None, [])

  /** `handleChange`: one field of the form is replaced and the error cleared. */
  function ChangeField(s: LoginState, name: string, value: string): (t: LoginState)
    ensures GetItem(t.formData, name) == Some(value)
    ensures forall k :: k != name ==> GetItem(t.formData, k) == GetItem(s.formData, k)
    ensures t.error == ""
    ensures t == s.(formData := t.formData, error := "")
  {
    s.(formData := s.formData[name := value], error := "")
  }

  predicate FieldsFilled(form: map<string, string>) {
    Truthy(GetItem(form, EmailField)) && Truthy(GetItem(form, PasswordField))
  }

  /** A reply that logs the user in: an ok response whose JSON body has
      `success` and a non-empty token. */
  predicate LogsIn(reply: FetchReply) {
    && reply.Answered?
    && IsOk(reply.response.status)
    && reply.response.body.Json?
    && reply.response.body.value.success
    && Truthy(reply.response.body.value.token)
  }

  /** The message a failed login ends with, before it is turned into the
      displayed error; None for a reply that is not a failure. As the code
      runs it, a non-ok body that is not JSON ends in the TypeError of the
      second read, not in the body's text. */
  function FailureMessage(reply: FetchReply): (m: Option<string>)
    ensures m.None? <==> reply.Answered? && IsOk(reply.response.status) && reply.response.body.Json?
    ensures reply.NetworkFailure? ==> m == Some(reply.message)
    ensures reply.Answered? && !IsOk(reply.response.status) && reply.response.body.Json? ==>
              m == Some(ErrorMessage(reply.response.body, StatusFallback(reply.response.status)))
    ensures reply.Answered? && !IsOk(reply.response.status) && reply.response.body.Unparsable? ==>
              m == Some(reply.response.bodyUsedError)
    ensures reply.Answered? && IsOk(reply.response.status) && reply.response.body.Unparsable? ==>
              m == Some(reply.response.body.syntaxError)
  {
    match reply
    case NetworkFailure(m) => Some(m)
    case Answered(resp) =>
      if !IsOk(resp.status) then Some(ErrorMessageAsWritten(resp.body, StatusFallback(resp.status), resp.bodyUsedError))
      else if resp.body.Unparsable? then Some(resp.body.syntaxError)
      else None
  }

  /** The failure message as the code's comments intend it: a non-ok
      response is explained by its JSON `message` or its text, and by
      "Erreur <status>" when the server says nothing. */
  function IntendedFailureMessage(reply: FetchReply): (m: Option<string>)
    ensures m.None? <==> reply.Answered? && IsOk(reply.response.status) && reply.response.body.Json?
    ensures reply.Answered? && !IsOk(reply.response.status) ==> m.Some? && m.value != ""
    ensures reply.Answered? && !IsOk(reply.response.status) && Truthy(ServerText(reply.response.body)) ==>
              m == Some(ServerText(reply.response.body).value)
  {
    match reply
    case NetworkFailure(m) => Some(m)
    case Answered(resp) =>
      if !IsOk(resp.status) then Some(ErrorMessage(resp.body, StatusFallback(resp.status)))
      else if resp.body.Unparsable? then Some(resp.body.syntaxError)
      else None
  }

  /** The code and its intent part only on a non-ok response whose body is
      not JSON; a 502 page of non-empty text is then replaced by the
      browser's TypeError. */
  lemma FailureMessageDiffersOnlyOnTextErrors(reply: FetchReply)
    ensures !(reply.Answered? && !IsOk(reply.response.status) && reply.response.body.Unparsable?) ==>
              FailureMessage(reply) == IntendedFailureMessage(reply)
    ensures reply.Answered? && !IsOk(reply.response.status) && reply.response.body.Unparsable?
            && reply.response.body.text != "" && reply.response.body.text != reply.response.bodyUsedError ==>
              FailureMessage(reply) != IntendedFailureMessage(reply)
  {
  }

  /** The effect of a successful login on the browser: the token in both
      stores and under "token", the serialised user, the fetch wrapper's
      token, and the navigation to the polls page. */
  function Authenticate(s: LoginState, token: string, user: Option<string>): (t: LoginState)
    ensures Auth.GetAuthToken(t.storage) == Some(token) && LocalFirstToken(t.storage) == Some(token)
    ensures GetItem(t.storage.local, "token") == Some(token)
    ensures GetItem(t.storage.local, "user") == Some(user.GetOr("undefined"))
    ensures forall k :: k != TokenKey && k != "token" && k != "user" ==>
              GetItem(t.storage.local, k) == GetItem(s.storage.local, k)
    ensures forall k :: k != TokenKey ==> GetItem(t.storage.session, k) == GetItem(s.storage.session, k)
    ensures t.fetchToken == Some(token) && t.navigatedTo == Some(PollsRoute)
    ensures t == s.(storage := t.storage, fetchToken := t.fetchToken, navigatedTo := t.navigatedTo)
  {
    var st := SetAuthToken(s.storage, token);
    s.(storage := Storage(st.local["token" := token]["user" := user.GetOr("undefined")], st.session),
       fetchToken := Some(token),
       navigatedTo := Some(PollsRoute))
  }

  /** `handleSubmit`: an empty field is reported and nothing is sent; with
      both fields filled exactly one request carrying the form goes out,
      loading is over when the handler returns, and an error is shown
      exactly when the reply is a failure. The form itself is never changed. */
  function Submit(s: LoginState, reply: FetchReply): (t: LoginState)
    ensures !FieldsFilled(s.formData) ==> t == s.(error := EmptyFieldsError)
    ensures FieldsFilled(s.formData) ==> t.requests == s.requests + [s.formData] && !t.isLoading
    ensures FieldsFilled(s.formData) ==> (t.error != "" <==> FailureMessage(reply).Some?)
    ensures t.formData == s.formData
  {
    var cleared := s.(error := "");
    if !FieldsFilled(s.formData) then cleared.(error := EmptyFieldsError)
    else Settle(cleared.(isLoading := true, requests := s.requests + [s.formData]), reply)
  }

  /** What follows the sending of the request: the login's effect or the
      displayed error, then the end of loading. */
  function Settle(s: LoginState, reply: FetchReply): LoginState {
    var after :=
      if LogsIn(reply) then
        Authenticate(s, reply.response.body.value.token.value, reply.response.body.value.user)
      else
        match FailureMessage(reply)
        case Some(m) => s.(error := DisplayedError(m))
        case None => s;
    after.(isLoading := false)
  }

  /** The `try` block's reading of the reply: the message thrown, or the
      parsed body of an ok response, read once through the body stream. */
  method ReadLoginReply(reply: FetchReply) returns (thrown: Option<string>, data: Option<JsonBody>)
    ensures thrown == FailureMessage(reply)
    ensures data.Some? <==> thrown.None?
    ensures data.Some? ==> reply.Answered? && reply.response.body == Json(data.value)
  {
    data := None;
    match reply {
      case NetworkFailure(m) =>
        thrown := Some(m);
      case Answered(response) =>
        var stream := new BodyStream(response.body, response.bodyUsedError);
        if !IsOk(response.status) {
          var m := ReadErrorMessageAsWritten(stream, StatusFallback(response.status));
          thrown := Some(m);
        } else {
          var parsed := stream.ReadJson();
          match parsed {
            case Failure(syntaxError) =>
              thrown := Some(syntaxError);
            case Success(body) =>
              thrown := None;
              data := Some(body);
          }
        }
    }
  }

  /** Tokens are stored, the wrapper installed and the browser sent to the
      polls page exactly when the reply logs the user in. */
  lemma OnlySuccessAuthenticates(s: LoginState, reply: FetchReply)
    requires FieldsFilled(s.formData)
    ensures LogsIn(reply) ==> Submit(s, reply).navigatedTo == Some(PollsRoute)
    ensures LogsIn(reply) ==>
              Auth.GetAuthToken(Submit(s, reply).storage) == reply.response.body.value.token
    ensures LogsIn(reply) ==> Submit(s, reply).fetchToken == reply.response.body.value.token
    ensures LogsIn(reply) ==> Submit(s, reply).error == ""
    ensures !LogsIn(reply) ==>
              Submit(s, reply).storage == s.storage && Submit(s, reply).navigatedTo == s.navigatedTo
              && Submit(s, reply).fetchToken == s.fetchToken
  {
  }

  /** An ok reply that does not log the user in shows no error at all. */
  lemma OkWithoutSuccessIsSilent(s: LoginState, reply: FetchReply)
    requires FieldsFilled(s.formData)
    requires reply.Answered? && IsOk(reply.response.status) && reply.response.body.Json? && !LogsIn(reply)
    ensures Submit(s, reply).error == ""
  {
  }

  /** Every failure is reported with a non-empty message; a failed response
      with the server's non-empty message that does not look like a network
      error is shown as the server wrote it. */
  lemma FailureShowsError(s: LoginState, reply: FetchReply)
    requires FieldsFilled(s.formData) && FailureMessage(reply).Some?
    ensures Submit(s, reply).error == DisplayedError(FailureMessage(reply).value)
    ensures Submit(s, reply).error != ""
  {
  }

  class LoginPage {
    var formData: map<string, string>
    var isLoading: bool
    var error: string
    var storage: Storage
    var navigatedTo: Option<string>
    var fetchToken: Option<string>
    var requests: seq<map<string, string>>
    /** `isLoading` as rendered while the login request is in flight. */
    ghost var loadingWhilePending: bool

    function State(): LoginState
      reads this
    {
      LoginState(formData, isLoading, error, storage, navigatedTo, fetchToken, requests)
    }

    constructor ()
      ensures State() == InitialState
    {
      formData := map[EmailField := "", PasswordField := ""];
      isLoading, error := false, "";
      storage := Storage(map[], map[]);
      navigatedTo, fetchToken := None, None;
      requests := [];
    }

    method HandleChange(name: string, value: string)
      modifies this
      ensures State() == ChangeField(old(State()), name, value)
    {
      formData := formData[name := value];
      error := "";
    }

    method HandleSubmit(reply: FetchReply)
      modifies this
      ensures State() == Submit(old(State()), reply)
      ensures FieldsFilled(old(formData)) ==> loadingWhilePending
    {
      error := "";
      if !Truthy(GetItem(formData, EmailField)) || !Truthy(GetItem(formData, PasswordField)) {
        error := EmptyFieldsError;
        return;
      }
      isLoading := true;
      requests := requests + [formData];
      loadingWhilePending := isLoading;
      AwaitReply(reply);
    }

    /** The rest of the `try` block, the `catch` and the `finally`. */
    method AwaitReply(reply: FetchReply)
      modifies this
      ensures State() == Settle(old(State()), reply)
      ensures loadingWhilePending == old(loadingWhilePending)
    {
      var thrown, data := ReadLoginReply(reply);
      if data.Some? && data.value.success && Truthy(data.value.token) {
        StoreLogin(data.value.token.value, data.value.user);
      }
      if thrown.Some? {
        error := DisplayedError(thrown.value);
      }
      isLoading := false;
    }

    /** `setAuthToken`, `configureFetchDefaults`, the two `localStorage`
        writes and the navigation. */
    method StoreLogin(token: string, user: Option<string>)
      modifies this
      ensures State() == Authenticate(old(State()), token, user)
      ensures loadingWhilePending == old(loadingWhilePending)
    {
      storage := SetAuthToken(storage, token);
      fetchToken := Some(token);
      storage := storage.(local := storage.local["token" := token]);
      storage := storage.(local := storage.local["user" := user.GetOr("undefined")]);
      navigatedTo := Some(PollsRoute);
    }
  }
}
