/** The create-poll dialog: its name field, the submit button's enabled
    condition, and the submit handler with its validation, its token guard,
    its request and its chain of error messages. */
module CreatePollModal {
  import opened JsRuntime
  import opened BrowserStorage
  import opened Fetch
  import Auth

  const EmptyNameAlert := "Veuillez entrer un nom pour l'événement"
  const NotConnectedError := "Vous devez être connecté pour créer un sondage"
  const CreationFailedFallback := "Échec de la création du sondage"
  const GenericFailureAlert := "Erreur lors de la création du sondage"

  /** The submit button is enabled when the trimmed name is non-empty and no
      submit is in progress, that is, exactly when the name holds a character
      that is not white space and no submit is in progress. */
  function SubmitEnabled(eventName: string, isSubmitting: bool): (enabled: bool)
    ensures enabled <==> !isSubmitting && exists i :: 0 <= i < |eventName| && !IsWhiteSpace(eventName[i])
  {
    TrimBlank(eventName);
    Trim(eventName) != "" && !isSubmitting
  }

  /** The request the handler sends: the trimmed name under `EventName`, and
      the Authorization header built from the token found. */
  datatype CreateRequest = CreateRequest(eventNameField: string, authorization: string)

  /** The JSON `message` of a body; `.catch(() => ({}))` turns an unparsable
      body into an object without one. */
  function JsonMessage(body: Body): Option<string> {
    match body
    case Json(v) => v.message
    case Unparsable(_, _) => None
  }

  function StatusFallback(response: Response): string {
    "Erreur " + DecimalString(response.status) + ": " + response.statusText
  }

  /** The message of the error the handler's `try` block throws, or None
      when the creation succeeds. */
  function SubmitError(token: Option<string>, reply: FetchReply): (e: Option<string>)
    ensures e.None? <==>
              && Truthy(token) && reply.Answered? && IsOk(reply.response.status)
              && reply.response.body.Json? && reply.response.body.value.success
    ensures !Truthy(token) ==> e == Some(NotConnectedError)
    ensures Truthy(token) && reply.Answered? && !IsOk(reply.response.status) ==>
              e == Some(OrElse(JsonMessage(reply.response.body), StatusFallback(reply.response)))
    ensures Truthy(token) && reply.Answered? && IsOk(reply.response.status) && reply.response.body.Json?
            && !reply.response.body.value.success ==>
              e == Some(OrElse(reply.response.body.value.message, CreationFailedFallback))
    ensures Truthy(token) && reply.NetworkFailure? ==> e == Some(reply.message)
    ensures Truthy(token) && reply.Answered? && IsOk(reply.response.status) && reply.response.body.Unparsable? ==>
              e == Some(reply.response.body.syntaxError)
  {
    if !Truthy(token) then Some(NotConnectedError)
    else match reply
      case NetworkFailure(m) => Some(m)
      case Answered(response) =>
        if !IsOk(response.status) then Some(OrElse(JsonMessage(response.body), StatusFallback(response)))
        else match response.body
          case Unparsable(_, syntaxError) => Some(syntaxError)
          case Json(data) =>
            if !data.success then Some(OrElse(data.message, CreationFailedFallback)) else None
  }

  /** A failed response always explains itself with a non-empty message,
      even when its body is not JSON or its status text is empty. */
  lemma FailedResponseMessageNonEmpty(token: Option<string>, response: Response)
    requires Truthy(token) && !IsOk(response.status)
    ensures SubmitError(token, Answered(response)).Some?
    ensures SubmitError(token, Answered(response)).value != ""
    ensures response.body.Unparsable? ==>
              SubmitError(token, Answered(response)).value == StatusFallback(response)
  {
  }

  /** The success alert, built from the name as typed (not trimmed). */
  function SuccessAlert(eventName: string): string {
    "Sondage \"" + eventName + "\" créé avec succès !"
  }

  datatype ModalState = ModalState(
    eventName: string,
    isSubmitting: bool,
    alerts: seq<string>,
    requests: seq<CreateRequest>,
    closeCount: nat)

  const InitialState := ModalState("", false, [], [], 0)

  /** The `catch` and `finally` blocks: on success the name is cleared, the
      dialog closed and the success alert shown; on failure the thrown
      message is alerted. Either way the dialog stops submitting. */
  function Settle(s: ModalState, thrown: Option<string>): ModalState {
    match thrown
    case None =>
      s.(eventName := "", isSubmitting := false, alerts := s.alerts + [SuccessAlert(s.eventName)],
         closeCount := s.closeCount + 1)
    case Some(m) =>
      s.(isSubmitting := false, alerts := s.alerts + [if m != "" then m else GenericFailureAlert])
  }

  /** The `fetch` call, made only when a token was found: the trimmed name
      and the bearer token go out. */
  function SendCreate(s: ModalState, token: Option<string>): ModalState {
    if Truthy(token)
    then s.(requests := s.requests + [CreateRequest(Trim(s.eventName), Auth.BearerPrefix + token.value)])
    else s
  }

  /** `handleSubmit`, with the storage it reads the token from and the reply
      the server would give. Every submit shows exactly one alert, sends at
      most one request, and leaves the dialog no longer submitting; the name
      is either kept or cleared. */
  function Submit(s: ModalState, st: Storage, reply: FetchReply): (t: ModalState)
    ensures |t.alerts| == |s.alerts| + 1
    ensures t.requests == s.requests || |t.requests| == |s.requests| + 1
    ensures t.isSubmitting ==> s.isSubmitting
    ensures t.eventName == s.eventName || t.eventName == ""
    ensures t.closeCount == s.closeCount || t.closeCount == s.closeCount + 1
  {
    if Trim(s.eventName) == "" then s.(alerts := s.alerts + [EmptyNameAlert])
    else Settle(SendCreate(s.(isSubmitting := true), LocalFirstToken(st)), SubmitError(LocalFirstToken(st), reply))
  }

  /** A blank name is rejected with an alert: no request, no change to the
      name or to the submitting flag. */
  lemma BlankNameRejected(s: ModalState, st: Storage, reply: FetchReply)
    requires forall i :: 0 <= i < |s.eventName| ==> IsWhiteSpace(s.eventName[i])
    ensures Submit(s, st, reply) == s.(alerts := s.alerts + [EmptyNameAlert])
  {
    TrimBlank(s.eventName);
  }

  /** Without a token nothing is sent and the user is told to log in. */
  lemma MissingTokenSendsNothing(s: ModalState, st: Storage, reply: FetchReply)
    requires Trim(s.eventName) != "" && !Truthy(LocalFirstToken(st))
    ensures Submit(s, st, reply).requests == s.requests
    ensures Submit(s, st, reply).alerts == s.alerts + [NotConnectedError]
    ensures Submit(s, st, reply).eventName == s.eventName
  {
  }

  /** With a token, exactly one request goes out, carrying the trimmed name
      and the bearer token; afterwards the dialog is no longer submitting and
      exactly one alert has been shown. */
  lemma FilledNameSendsTrimmedName(s: ModalState, st: Storage, reply: FetchReply)
    requires Trim(s.eventName) != "" && Truthy(LocalFirstToken(st))
    ensures Submit(s, st, reply).requests ==
              s.requests + [CreateRequest(Trim(s.eventName), Auth.BearerPrefix + LocalFirstToken(st).value)]
    ensures !Submit(s, st, reply).isSubmitting
    ensures |Submit(s, st, reply).alerts| == |s.alerts| + 1
  {
  }

  /** A success clears the name and closes the dialog; a failure keeps the
      name, leaves the dialog open, and alerts the thrown message, or the
      generic failure alert when that message is empty. */
  lemma OutcomeEffects(s: ModalState, st: Storage, reply: FetchReply)
    requires Trim(s.eventName) != ""
    ensures SubmitError(LocalFirstToken(st), reply).None? ==>
              Submit(s, st, reply).eventName == "" && Submit(s, st, reply).closeCount == s.closeCount + 1
              && Submit(s, st, reply).alerts == s.alerts + [SuccessAlert(s.eventName)]
    ensures SubmitError(LocalFirstToken(st), reply).Some? ==>
              Submit(s, st, reply).eventName == s.eventName && Submit(s, st, reply).closeCount == s.closeCount
              && Submit(s, st, reply).alerts ==
                   s.alerts + [var m := SubmitError(LocalFirstToken(st), reply).value;
                               if m != "" then m else GenericFailureAlert]
              && Submit(s, st, reply).alerts[|s.alerts|] != ""
  {
  }

  /** The `try` block: the token guard, then the checks on the reply, each
      throwing its own message. */
  method TryCreate(token: Option<string>, reply: FetchReply) returns (thrown: Option<string>)
    ensures thrown == SubmitError(token, reply)
  {
    thrown := None;
    if !Truthy(token) {
      thrown := Some(NotConnectedError);
      return;
    }
    match reply {
      case NetworkFailure(m) =>
        thrown := Some(m);
      case Answered(response) =>
        if !IsOk(response.status) {
          var errorData := JsonMessage(response.body);
          thrown := Some(OrElse(errorData, StatusFallback(response)));
        } else {
          match response.body {
            case Unparsable(_, syntaxError) =>
              thrown := Some(syntaxError);
            case Json(data) =>
              if !data.success {
                thrown := Some(OrElse(data.message, CreationFailedFallback));
              }
          }
        }
    }
  }

  class CreatePollDialog {
    var eventName: string
    var isSubmitting: bool
    var alerts: seq<string>
    var requests: seq<CreateRequest>
    var closeCount: nat
    /** `isSubmitting` as rendered while the request is in flight. */
    ghost var submittingWhilePending: bool

    function State(): ModalState
      reads this
    {
      ModalState(eventName, isSubmitting, alerts, requests, closeCount)
    }

    constructor ()
      ensures State() == InitialState
    {
      eventName, isSubmitting := "", false;
      alerts, requests, closeCount := [], [], 0;
    }

    /** The input's `onChange`. */
    method HandleChange(value: string)
      modifies this
      ensures State() == old(State()).(eventName := value)
    {
      eventName := value;
    }

    method HandleSubmit(st: Storage, reply: FetchReply)
      modifies this
      ensures State() == Submit(old(State()), st, reply)
      ensures Trim(old(eventName)) != "" ==> submittingWhilePending
    {
      if Trim(eventName) == "" {
        alerts := alerts + [EmptyNameAlert];
      } else {
        Create(st, reply);
      }
    }

    /** What the handler does once the name has passed validation: mark the
        dialog as submitting, run the `try` block, then settle. */
    method Create(st: Storage, reply: FetchReply)
      modifies this
      ensures State() ==
                Settle(SendCreate(old(State()).(isSubmitting := true), LocalFirstToken(st)), SubmitError(LocalFirstToken(st), reply))
      ensures submittingWhilePending
    {
      isSubmitting := true;
      submittingWhilePending := isSubmitting;
      var token := LocalFirstToken(st);
      Send(token);
      var thrown := TryCreate(token, reply);
      Finish(thrown);
    }

    /** The `fetch` call of the `try` block. */
    method Send(token: Option<string>)
      modifies this
      ensures State() == SendCreate(old(State()), token)
      ensures submittingWhilePending == old(submittingWhilePending)
    {
      if Truthy(token) {
        requests := requests + [CreateRequest(Trim(eventName), Auth.BearerPrefix + token.value)];
      }
    }

    /** The `catch` and `finally` blocks. */
    method Finish(thrown: Option<string>)
      modifies this
      ensures State() == Settle(old(State()), thrown)
      ensures submittingWhilePending == old(submittingWhilePending)
    {
      if thrown.None? {
        alerts := alerts + [SuccessAlert(eventName)];
        eventName := "";
        closeCount := closeCount + 1;
      } else {
        var m := thrown.value;
        alerts := alerts + [if m != "" then m else GenericFailureAlert];
      }
      isSubmitting := false;
    }
  }
}
