/** The parts of the Fetch API the application touches: a `Headers` object
    that is filled step by step, the request options, and the server's
    response reduced to what the code reads from it (status, status text,
    `content-type`, and a body that either parses as JSON or does not). */
module Fetch {
  import opened JsRuntime

  /** Header names are kept lower-case, the way a Headers object stores them. */
  type HeaderMap = map<string, string>

  const ContentTypeHeader := "content-type"
  const AuthorizationHeader := "authorization"
  const JsonMediaType := "application/json"

  /** A `Headers` object: a mutable map from header names to values. */
  class Headers {
    var entries: HeaderMap

    constructor (init: HeaderMap)
      ensures entries == init
    {
      entries := init;
    }

    function Has(name: string): (b: bool)
      reads this
      ensures b <==> name in entries
    {
      name in entries
    }

    method Set(name: string, value: string)
      modifies this
      ensures entries == old(entries)[name := value]
    {
      entries := entries[name := value];
    }
  }

  /** `RequestInit`: the method, the headers, the body, and every other option. */
  datatype RequestInit = RequestInit(
    httpMethod: Option<string>,
    headers: HeaderMap,
    body: Option<string>,
    otherOptions: map<string, string>)

  /** `response.ok`. */
  predicate IsOk(status: nat) {
    200 <= status <= 299
  }

  /** A JSON body, reduced to the members the application reads:
      `success`, `message`, `data.token` and the serialised `data.user`. */
  datatype JsonBody = JsonBody(
    success: bool,
    message: Option<string>,
    token: Option<string>,
    user: Option<string>)

  /** A body that `response.json()` parses, or one it rejects with a
      SyntaxError (whose message is `syntaxError`). */
  datatype Body = Json(value: JsonBody) | Unparsable(text: string, syntaxError: string)

  /** A response. `bodyUsedError` is the message of the TypeError with which
      the browser rejects a second read of the body; its wording differs from
      one browser to another. */
  datatype Response = Response(
    status: nat,
    statusText: string,
    contentType: Option<string>,
    body: Body,
    bodyUsedError: string)

  /** What a `fetch` call settles to: a rejection by `fetch` itself (network
      failure, blocked request) with its message, or a response. */
  datatype FetchReply = NetworkFailure(message: string) | Answered(response: Response)

  /** The text a failed response offers as its explanation: the JSON
      `message`, or the raw text of a body that is not JSON. */
  function ServerText(body: Body): Option<string> {
    match body
    case Json(v) => v.message
    case Unparsable(text, _) => Some(text)
  }

  /** The error message chosen for a non-ok response: the server's text if
      it is non-empty, otherwise the caller's fallback. */
  function ErrorMessage(body: Body, fallback: string): (m: string)
    ensures fallback != "" ==> m != ""
    ensures Truthy(ServerText(body)) ==> m == ServerText(body).value
    ensures !Truthy(ServerText(body)) ==> m == fallback
  {
    match body
    case Json(v) => OrElse(v.message, fallback)
    case Unparsable(text, _) => if text != "" then text else fallback
  }

  /** The same chain as the code runs it: `response.json()` first and, when
      that fails, `response.text()`. The first read consumes the body, so the
      second read rejects with a TypeError whose message is `bodyUsedError`. */
  function ErrorMessageAsWritten(body: Body, fallback: string, bodyUsedError: string): (m: string)
    ensures body.Json? ==> m == ErrorMessage(body, fallback)
    ensures body.Unparsable? ==> m == bodyUsedError
  {
    match body
    case Json(v) => OrElse(v.message, fallback)
    case Unparsable(_, _) => bodyUsedError
  }

  /** A response body stream: it can be read once. */
  class BodyStream {
    const body: Body
    const bodyUsedError: string
    var used: bool

    constructor (body: Body, bodyUsedError: string)
      ensures this.body == body && this.bodyUsedError == bodyUsedError && !used
    {
      this.body := body;
      this.bodyUsedError := bodyUsedError;
      used := false;
    }

    /** `response.json()`. */
    method ReadJson() returns (r: Result<JsonBody, string>)
      modifies this
      ensures used
      ensures r == if old(used) then Failure(bodyUsedError)
                   else match body
                        case Json(v) => Success(v)
                        case Unparsable(_, e) => Failure(e)
    {
      if used {
        r := Failure(bodyUsedError);
      } else {
        used := true;
        match body
        case Json(v) => r := Success(v);
        case Unparsable(_, e) => r := Failure(e);
      }
    }

    /** `response.text()`. The raw text of a JSON body is not part of the
        model, so an unread JSON body is not asked for its text. */
    method ReadText() returns (r: Result<string, string>)
      requires used || body.Unparsable?
      modifies this
      ensures used
      ensures r == if old(used) then Failure(bodyUsedError) else Success(body.text)
    {
      if used {
        r := Failure(bodyUsedError);
      } else {
        used := true;
        r := Success(body.text);
      }
    }
  }

  /** The error branch of a failed response, step by step: start from the
      fallback, replace it with the JSON message, or on a parse failure with
      the text; a rejected `text()` escapes with its own message. */
  method ReadErrorMessageAsWritten(stream: BodyStream, fallback: string) returns (thrown: string)
    requires !stream.used
    modifies stream
    ensures thrown == ErrorMessageAsWritten(stream.body, fallback, stream.bodyUsedError)
  {
    var errorMessage := fallback;
    var parsed := stream.ReadJson();
    if parsed.Success? {
      errorMessage := OrElse(parsed.value.message, errorMessage);
      thrown := errorMessage;
    } else {
      var text := stream.ReadText();
      match text
      case Success(t) =>
        errorMessage := if t != "" then t else errorMessage;
        thrown := errorMessage;
      case Failure(e) =>
        thrown := e;
    }
  }

  /** The text fallback the code intends is never reached: a 500 response
      whose body is the plain text "Internal Server Error" reports the
      TypeError of the second read instead of that text. */
  lemma TextFallbackUnreachable(text: string, syntaxError: string, fallback: string, bodyUsedError: string)
    requires text != "" && text != bodyUsedError
    ensures ErrorMessage(Unparsable(text, syntaxError), fallback) == text
    ensures ErrorMessageAsWritten(Unparsable(text, syntaxError), fallback, bodyUsedError) != text
  {
  }
}
