# hermanAdmin in Dafny

hermanAdmin is the administration front end of a polling service. An
administrator logs in, lists the events (polls), creates and deletes them,
looks at the votes of one event or of all events, deletes votes, and reads
statistics computed from the votes. This project models the logic behind
those screens:

- the authenticated request layer of `src/utils/Auth.ts`:
  - where the bearer token is looked up;
  - how request headers are decorated;
  - how a response becomes data, an error message or a redirect to `/login`;
  - the `loading`/`error` state of the `useAuthFetch` hook;
- the login page (`src/pages/Login.tsx`):
  - form validation;
  - the login request and the error it displays;
  - storing the token in both Web Storage areas;
  - the header rule of the fetch wrapper installed after a login;
- the polls page (`src/pages/PollPage.tsx`):
  - event and vote loading;
  - selecting an event;
  - creating and deleting events, and deleting votes;
  - the statistics effect (average, total, positive/neutral/negative counts);
- the create-poll dialog (`src/components/polls/CreatePollModal.tsx`): the
  submit button's enabled condition and the submit handler;
- the votes table (`src/components/polls/VotesList.tsx`): the rating colour
  badge, the empty state and the rows.

The modules are:

- `JsRuntime` (`js_runtime.dfy`): the JavaScript behaviour the code relies on:
  - truthiness of a possibly missing string, and `||`;
  - `${…}` of `null`;
  - decimal rendering of a status code;
  - `includes`;
  - `trim` over the ECMAScript white space and line terminator characters.
- `BrowserStorage` (`browser_storage.dfy`): `localStorage` and `sessionStorage`
  as two maps.
- `Fetch` (`fetch.dfy`):
  - a `Headers` class that requests fill step by step;
  - request options;
  - a response reduced to status, status text, content type and a body that
    parses as JSON or does not, together with the message of the TypeError
    the browser raises when the body is read a second time;
  - what a `fetch` call settles to: a rejection with its message, or a
    response;
  - a body stream that can be read only once.
- `Auth` (`auth.dfy`).
- `Login` (`login.dfy`).
- `Polls` (`polls.dfy`).
- `CreatePollModal` (`create_poll_modal.dfy`).
- `VotesList` (`votes_list.dfy`).

Each stateful component follows the same pattern:

- A pure transition function over a state datatype says what a handler does
  (`Polls.DeleteEvent`, `Login.Submit`, `CreatePollModal.Submit`).
- The lemmas about the component state properties of those functions.
- A class with the component's state variables as fields has one method per
  handler. Each method performs the handler's steps in order and ensures
  that its new state is the transition function applied to the old state.

Server answers, the user's answer to `window.confirm` and the contents of
the two stores are parameters. Each request a handler sends is recorded in
the state:

- the polls page records each request's endpoint with its `Authorization`
  value;
- the login page records the form it sends;
- the create-poll dialog records the trimmed name with its `Authorization`
  value.

That makes statements like "one create request, then exactly one reload"
expressible.

## Model

| member | source | states |
|---|---|---|
| JsRuntime.Or | src/utils/Auth.ts:4 | `a \|\| b` on possibly missing strings: the first operand when it is truthy, the second operand otherwise (so `"" \|\| null` is null); the result is truthy iff either operand is |
| JsRuntime.DecimalString | src/utils/Auth.ts:49 | a status code is rendered as a non-empty string of decimal digits without a leading zero |
| JsRuntime.DecimalRoundTrip | src/utils/Auth.ts:49 | reading the rendered digits back gives the status code again |
| JsRuntime.DecimalInjective | src/utils/Auth.ts:49 | different status codes render differently, so the fallback message identifies the status |
| JsRuntime.Includes | src/utils/Auth.ts:64 | `includes` is true iff the pattern occurs at some position of the string |
| JsRuntime.Trim | src/components/polls/CreatePollModal.tsx:20 | `trim` yields a slice `s[a..b]` of its input such that every character outside the slice is white space; it never lengthens a string, and a non-empty result neither starts nor ends with white space |
| JsRuntime.TrimBlank | src/components/polls/CreatePollModal.tsx:20 | the trimmed name is empty iff every character of the name is white space |
| JsRuntime.TrimIdempotent | src/components/polls/CreatePollModal.tsx:42 | trimming the trimmed name changes nothing |
| BrowserStorage.GetItem | src/utils/Auth.ts:4 | `getItem` yields the stored value exactly when the key is present, and null otherwise |
| BrowserStorage.LocalFirstToken | src/pages/PollPage.tsx:56 | the page's inline lookup asks `localStorage` first: its value when non-empty, otherwise whatever `sessionStorage` holds (possibly nothing); a token is found iff either store holds a non-empty one |
| Auth.GetAuthToken | src/utils/Auth.ts:3-5 | the session store's token wins when it is non-empty; otherwise the durable store's value (possibly none) is returned; a token is found iff either store holds a non-empty one |
| Auth.AuthHeaders | src/utils/Auth.ts:12-23 | Content-Type is present iff the caller gave one or the method is exactly POST, PUT or PATCH; a caller's Content-Type is kept, and otherwise it is set to `application/json`; Authorization is `Bearer <token>` iff a token was found, otherwise the caller's own Authorization is kept; every other header is unchanged |
| Auth.AuthFetch | src/utils/Auth.ts:8-32 | the request sent is the caller's options with only the headers replaced by the decorated ones |
| Auth.AuthFetchJsonResult | src/utils/Auth.ts:39-70 | as the code runs it: a rejected `fetch` fails with its own message and no redirect; only a 401 redirects to `/login`; a non-ok JSON response fails with its `message` or `HTTP error! status: <code>`; a non-ok response whose body is not JSON fails with the TypeError of the second body read; an ok response yields data iff its content type includes `application/json` and its body parses, and otherwise fails with the parse error or the "not JSON" message |
| Auth.IntendedFetchJsonResult | src/utils/Auth.ts:49-59 | the intended classification: a non-ok response fails with the server's non-empty text (JSON `message` or plain text), otherwise with the status fallback, and that message is never empty |
| Auth.AsWrittenDiffersOnlyOnTextErrors | src/utils/Auth.ts:50-57 | the code and its intent agree on every reply, redirect included, except a non-ok response whose body is not JSON; there they differ whenever the body's text is non-empty and not the TypeError's own message |
| Auth.UnauthorizedRedirects | src/utils/Auth.ts:42-47 | a 401 never yields data and always leads to `/login` |
| Auth.FailureMessageNonEmpty | src/utils/Auth.ts:49-59 | a non-ok response fails with a non-empty message whenever its body is JSON or the browser's TypeError message is non-empty |
| Auth.AuthFetchJson | src/utils/Auth.ts:35-70 | the step-by-step version, reading the body once through a single-use stream, sends the decorated request and reaches the outcome `AuthFetchJsonResult` describes, for a rejected `fetch` as well as for every response |
| Auth.AuthFetchHook.Execute | src/utils/Auth.ts:77-93 | while the request is in flight, loading is true and the error is cleared; afterwards loading is false, and the error holds the failure message exactly when the request failed; a rejected `fetch` leaves its own message as the error and does not redirect |
| Fetch.ErrorMessage | src/utils/Auth.ts:49-57 | the corrected error chain: the server's text when it is non-empty, otherwise the fallback; never empty when the fallback is not |
| Fetch.ErrorMessageAsWritten | src/utils/Auth.ts:50-57 | the chain as written: a JSON body gives the same message as the corrected chain; a body that is not JSON gives the error of the second body read |
| Fetch.ReadErrorMessageAsWritten | src/utils/Auth.ts:49-57 | reading `json()` and then `text()` from a single-use body stream yields `ErrorMessageAsWritten` |
| Fetch.TextFallbackUnreachable | src/pages/Login.tsx:99-107 | for a plain-text error body the intended message is that text, but the code as written never reports it |
| Login.DefaultsRuleMatchesAuthFetch | src/pages/Login.tsx:26-49 | the wrapper installed after login decorates headers exactly as `authFetch` does with that token: defaulting the method to GET and setting Authorization before Content-Type make no difference |
| Login.DefaultsHeaders | src/pages/Login.tsx:31-43 | a non-empty token sets Authorization to `Bearer <token>`, an empty one leaves the caller's; a caller's Content-Type is kept, and a missing one is added exactly for POST, PUT and PATCH |
| Login.PatchedFetchRequest | src/pages/Login.tsx:26-49 | the wrapped fetch sends the cloned options (or empty options) with only the headers replaced |
| Login.SetAuthToken | src/pages/Login.tsx:53-56 | the token is stored under `authToken` in both stores and no other key changes |
| Login.StoredTokenIsFound | src/pages/Login.tsx:53-56 | after storing, both `getAuthToken` and the page's local-first lookup find exactly that token |
| Login.DisplayedError | src/pages/Login.tsx:130-134 | a message mentioning `Failed to fetch` or `NetworkError` is shown as the "cannot reach the server" message; any other non-empty message is shown as is; an empty one becomes the generic message; the result is never empty |
| Login.NetworkFailureShownAsUnreachable | src/pages/Login.tsx:131-132 | a message containing either network failure marker anywhere is never shown verbatim |
| Login.ChangeField | src/pages/Login.tsx:67-73 | only the named field changes and the error is cleared |
| Login.FailureMessage | src/pages/Login.tsx:97-111 | as the code runs it: a rejected `fetch` gives its message; a non-ok JSON response gives its `message` or `Erreur <status>`; a non-ok response whose body is not JSON gives the TypeError of the second body read; an ok body that does not parse gives its SyntaxError; there is no failure iff the response is ok and parses |
| Login.IntendedFailureMessage | src/pages/Login.tsx:97-107 | the intended message of a non-ok response: the server's non-empty text (JSON `message` or plain text), otherwise `Erreur <status>`, never empty |
| Login.FailureMessageDiffersOnlyOnTextErrors | src/pages/Login.tsx:100-107 | the code and its intent agree except on a non-ok response whose body is not JSON, where they differ whenever the body's text is non-empty and not the TypeError's own message |
| Login.Authenticate | src/pages/Login.tsx:114-125 | after a login both `getAuthToken` and the local-first lookup find the token, `token` and the serialised `user` are stored, the fetch wrapper holds the token and the browser is at `/Polls`; every other key of either store and every other field of the page state is unchanged |
| Login.Submit | src/pages/Login.tsx:75-138 | an empty email or password is reported and nothing else changes; with both filled, exactly one request carrying the form is sent, loading is over afterwards, and an error is shown iff the reply is a failure; the form is never changed |
| Login.OnlySuccessAuthenticates | src/pages/Login.tsx:114-126 | the token is stored, the wrapper installed and `/Polls` reached iff the reply is ok with `success` and a non-empty token; otherwise storage, wrapper and location are unchanged |
| Login.OkWithoutSuccessIsSilent | src/pages/Login.tsx:111-126 | an ok JSON reply that does not log in leaves no error on screen |
| Login.FailureShowsError | src/pages/Login.tsx:97-109 | every failure shows the displayed form of its message, which is never empty |
| Login.LoginPage.HandleChange | src/pages/Login.tsx:67-73 | the handler's new state is `ChangeField` of the old |
| Login.ReadLoginReply | src/pages/Login.tsx:96-111 | reading the reply once through a single-use body stream throws exactly `FailureMessage`, and yields the parsed body exactly when nothing is thrown |
| Login.LoginPage.HandleSubmit | src/pages/Login.tsx:75-138 | the handler reaches the state `Submit` gives for the old state, and loading shows while the request is in flight |
| Login.LoginPage.AwaitReply | src/pages/Login.tsx:96-137 | once the request is sent, the reply is read, a login is applied or the displayed error set, and loading ends, as `Submit` prescribes |
| Login.LoginPage.StoreLogin | src/pages/Login.tsx:119-125 | the page's state after the writes and the navigation is `Authenticate` of the old state |
| Polls.CountBand | src/pages/PollPage.tsx:240-242 | a band's count is at most the number of votes, equals it iff every rating is in the band, and is zero iff none is |
| Polls.CountBandAppend | src/pages/PollPage.tsx:240-242 | the count of a concatenation is the sum of the counts of its parts; with the one-vote case this makes each count the number of votes whose rating is in the band |
| Polls.WholeRatingInOneBand | src/pages/PollPage.tsx:240-242 | a whole-number rating is in exactly one of positive (≥ 7), neutral (4 to 6) and negative (≤ 3) |
| Polls.FractionalRatingsFallOutside | src/pages/PollPage.tsx:240-242 | ratings 3.5 and 6.5 are in no band |
| Polls.BandsPartitionVotes | src/pages/PollPage.tsx:239-242 | for whole-number ratings the three counts add up to the number of votes |
| Polls.SumWithinBounds | src/pages/PollPage.tsx:236 | the sum of ratings within [lo, hi] lies within [lo·n, hi·n] |
| Polls.Average | src/pages/PollPage.tsx:236 | the average multiplied by the count gives back the sum |
| Polls.ComputeStats | src/pages/PollPage.tsx:236-243 | total is the number of votes, the average times that number is the sum of ratings, and the positive, neutral and negative counts are the band counts of the votes (ratings ≥ 7, 4 to 6, ≤ 3), each at most the total |
| Polls.QuotientWithinBounds | src/pages/PollPage.tsx:236 | a sum within [lo·n, hi·n] divided by n lies within [lo, hi] |
| Polls.AverageWithinRatingRange | src/pages/PollPage.tsx:236 | the average of ratings within [lo, hi] lies within [lo, hi] |
| Polls.RecomputeStats | src/pages/PollPage.tsx:234-245 | an empty vote list leaves the statistics exactly as they were; a non-empty one replaces them by its statistics, whose band counts add up to the total when ratings are whole numbers |
| Polls.NoTokenStillSendsBearer | src/pages/PollPage.tsx:56-61 | with no token stored, the page sends `Bearer null`, while `authFetch` sends no Authorization header |
| Polls.PageAuthorization | src/pages/PollPage.tsx:56-61 | the page always sends a `Bearer ` value: `Bearer <token>` when the local-first lookup finds a non-empty token, `Bearer null` when it finds nothing, and `Bearer ` when it finds an empty string |
| Polls.TokenPriorityDiffers | src/pages/PollPage.tsx:56 | whenever the two stores hold different non-empty tokens, the page sends the durable store's token and `authFetch` the session store's, so the two Authorization values differ |
| Polls.FindEvent | src/pages/PollPage.tsx:219 | the search yields the first index whose event has the id, or none iff no event has it |
| Polls.LoadEvents | src/pages/PollPage.tsx:53-73 | one events request goes out; only a successful answer replaces the events; loading is over afterwards; nothing else changes |
| Polls.LoadAllVotes | src/pages/PollPage.tsx:76-93 | one all-votes request goes out; a successful answer replaces all votes and, when non-empty, sets the statistics to those of its votes; any other answer changes nothing; loading flags, selection and scoped votes are never touched |
| Polls.LoadEventVotes | src/pages/PollPage.tsx:96-120 | one request for that event's votes goes out, the scoped loading flag is off afterwards, and only the votes and statistics may change |
| Polls.SelectEvent | src/pages/PollPage.tsx:218-223 | the selection either stays or becomes one of the loaded events; events, all votes and the page's loading flag are untouched, and at most one request goes out |
| Polls.CreatePoll | src/pages/PollPage.tsx:123-148 | the create request goes out first; the call resolves iff the answer has `success`; selection, votes, all votes and statistics are untouched |
| Polls.DeleteEvent | src/pages/PollPage.tsx:151-183 | a declined confirmation sends nothing; a confirmed one sends the delete request first; an alert is shown iff the deletion was confirmed and did not succeed; the selection stays or is cleared, and the scoped loading flag is untouched |
| Polls.DeleteVote | src/pages/PollPage.tsx:186-215 | a declined confirmation sends nothing; a confirmed one sends the delete request first; an alert is shown iff the deletion was confirmed and did not succeed; the selection, the events and the page's loading flag are untouched |
| Polls.SelectAbsentEventIsNoOp | src/pages/PollPage.tsx:218-220 | selecting an id that no loaded event has changes nothing and sends nothing |
| Polls.SelectPresentEvent | src/pages/PollPage.tsx:218-223 | selecting a loaded id selects the first event with it and requests that event's votes |
| Polls.ScopedLoadEffect | src/pages/PollPage.tsx:96-120 | a successful scoped load replaces the votes wholesale and the statistics only when the answer carries some; any other answer leaves both unchanged |
| Polls.EmptyVoteListKeepsStats | src/pages/PollPage.tsx:76-93 | loading an empty vote list leaves the statistics unchanged |
| Polls.CreatePollEffect | src/pages/PollPage.tsx:123-148 | success sends one create request, then exactly one events reload, and resolves; an unsuccessful answer rejects with the server's message (empty when absent), and a rejected request or unparsable answer rejects with that error; neither failure changes anything but the recorded create request |
| Polls.DeleteSelectedEventByName | src/pages/PollPage.tsx:169-175 | deleting by the selected event's name clears the selection and its votes, then reloads the events and then all votes |
| Polls.DeleteSelectedEventById | src/pages/PollPage.tsx:170 | deleting by the selected event's id, as the events list does, keeps the selection and its votes whenever the id differs from the name |
| Polls.DeleteEventReloads | src/pages/PollPage.tsx:160-175 | every successful deletion sends the delete request, then reloads the events and then all votes; the selection and its votes are cleared exactly when the selected event's name is the argument, and kept otherwise |
| Polls.DeleteEventFailureKeepsData | src/pages/PollPage.tsx:151-183 | a declined confirmation changes nothing; a failed deletion changes no local data |
| Polls.DeleteVoteReloads | src/pages/PollPage.tsx:203-207 | after a deletion the selected event's votes reload only when an event is selected, then all votes reload |
| Polls.DeleteVoteFailureKeepsData | src/pages/PollPage.tsx:186-215 | a declined confirmation sends and shows nothing; a failed vote deletion changes no local data |
| Polls.DeleteVoteStatsFollowAllVotes | src/pages/PollPage.tsx:203-207 | after a deletion and a non-empty reload of all votes, the statistics are those of that list, whatever the scoped load supplied |
| Polls.PollPage.FetchEvents | src/pages/PollPage.tsx:53-73 | the handler's new state is `LoadEvents` of the old |
| Polls.PollPage.FetchAllVotes | src/pages/PollPage.tsx:76-93 | the handler's new state is `LoadAllVotes` of the old, statistics effect included |
| Polls.PollPage.StatsEffect | src/pages/PollPage.tsx:234-245 | only the statistics change, to `RecomputeStats` of the loaded votes |
| Polls.PollPage.FetchEventVotes | src/pages/PollPage.tsx:96-120 | the handler's new state is `LoadEventVotes` of the old |
| Polls.PollPage.HandleSelectEvent | src/pages/PollPage.tsx:218-223 | the handler's new state is `SelectEvent` of the old |
| Polls.PollPage.HandleCreatePoll | src/pages/PollPage.tsx:123-148 | the handler's new state and outcome are `CreatePoll` of the old state |
| Polls.PollPage.HandleDeleteEvent | src/pages/PollPage.tsx:151-183 | the handler's new state and alert are `DeleteEvent` of the old state |
| Polls.PollPage.HandleDeleteVote | src/pages/PollPage.tsx:186-215 | the handler's new state and alert are `DeleteVote` of the old state |
| CreatePollModal.SubmitEnabled | src/components/polls/CreatePollModal.tsx:125 | the submit button is enabled iff no submit is in progress and the name has a character that is not white space |
| CreatePollModal.SubmitError | src/components/polls/CreatePollModal.tsx:27-55 | the creation succeeds iff a token is found and the reply is ok, parses as JSON and has `success`. Otherwise: no token gives "Vous devez être connecté…"; a rejected `fetch` gives its own message; a non-ok reply gives its JSON message or `Erreur <status>: <statusText>`; an ok body that does not parse gives its SyntaxError; `success` false gives its message or "Échec de la création du sondage" |
| CreatePollModal.FailedResponseMessageNonEmpty | src/components/polls/CreatePollModal.tsx:46-49 | a non-ok reply always fails with a non-empty message, and an unparsable one with the status fallback |
| CreatePollModal.BlankNameRejected | src/components/polls/CreatePollModal.tsx:20-23 | a blank name is alerted and nothing else happens: no token lookup, no request, the name and the submitting flag unchanged |
| CreatePollModal.MissingTokenSendsNothing | src/components/polls/CreatePollModal.tsx:29-33 | without a token nothing is sent, the user is told to log in and the name is kept |
| CreatePollModal.FilledNameSendsTrimmedName | src/components/polls/CreatePollModal.tsx:25-43 | with a token, exactly one request goes out with the trimmed name and the bearer token; afterwards the dialog is not submitting and exactly one alert was shown |
| CreatePollModal.OutcomeEffects | src/components/polls/CreatePollModal.tsx:57-74 | success clears the name, closes the dialog and alerts the success message with the name as typed; failure keeps the name, leaves the dialog open and alerts exactly the thrown message, or "Erreur lors de la création du sondage" when that message is empty |
| CreatePollModal.Submit | src/components/polls/CreatePollModal.tsx:16-75 | every submit shows exactly one alert and sends at most one request; the dialog is never left submitting by a submit that started idle; the name is kept or cleared, and the dialog closes at most once |
| CreatePollModal.TryCreate | src/components/polls/CreatePollModal.tsx:27-55 | the `try` block, step by step, throws exactly the error `SubmitError` describes |
| CreatePollModal.CreatePollDialog.HandleChange | src/components/polls/CreatePollModal.tsx:103 | only the name changes |
| CreatePollModal.CreatePollDialog.HandleSubmit | src/components/polls/CreatePollModal.tsx:16-75 | the handler's new state is `Submit` of the old, and the dialog shows as submitting while a valid name is being sent |
| VotesList.RatingColorOf | src/components/polls/VotesList.tsx:34-39 | green iff rating ≥ 8, blue iff 6 ≤ rating < 8, yellow iff 4 ≤ rating < 6, red iff rating < 4 |
| VotesList.RatingColorMonotone | src/components/polls/VotesList.tsx:34-39 | a higher rating never gets a worse colour |
| VotesList.ColorClassInjective | src/components/polls/VotesList.tsx:35-38 | the four colours have four different class strings |
| VotesList.ColorsDifferFromStatBands | src/components/polls/VotesList.tsx:36 | 6 and 7 share the blue badge although the statistics count them as neutral and positive; 7 and 8 are both positive but get different badges |
| VotesList.ColorsRefineBandsOnWholeRatings | src/components/polls/VotesList.tsx:34-39 | on whole-number ratings, red lies within negative, yellow within neutral and green within positive; blue spans neutral and positive |
| VotesList.Render | src/components/polls/VotesList.tsx:41-126 | an empty list renders the empty state, with the event's name when one is given; otherwise one row per vote in order, headed by the event name and vote count when a name is given |
| VotesList.RowsFollowVotes | src/components/polls/VotesList.tsx:96-125 | each row's badge is its rating's colour, its missing or empty feedback reads "Aucun commentaire", and its delete button targets that vote's id |

## Left out

- HTTP transport, the URLs and `encodeURIComponent`: each component records what it sends (as described above), and the server's answer is a parameter.
- A non-ok response with no body at all (a null body, as a 304 has): `text()` would then succeed with the empty string and the status fallback would be used; the model has no null body, so such a response is modelled as an unparsable body and ends in the second-read error.
- JSON parsing and serialisation: a body is either parsed JSON, reduced to the fields the code reads, or unparsable with its SyntaxError message. The raw text of a JSON body is not modelled. A `message` that is not a string is not modelled either, and neither is a JSON body that is not an object.
- The serialised `user` is a parameter; `JSON.stringify(undefined)` stored by `setItem` appears as "undefined".
- Header name case folding, and the combining of repeated headers in a caller's `init`: header maps are keyed by lower-case names.
- Replacing `window.fetch` globally in `configureFetchDefaults`, and the stacking of wrappers after repeated logins: the model records the wrapper's token and proves the wrapper's header rule. Once a login has installed the wrapper, its `headers.set` overwrites the Authorization value that the polls page, the create-poll dialog and `authFetch` build. So Polls.NoTokenStillSendsBearer, Polls.TokenPriorityDiffers and the recorded Authorization values describe the headers the code builds; they are what reaches the server only when no wrapper is installed, for example after a page reload.
- Concurrency: the `Promise.all` initial load, overlapping handler invocations, and React's batching of state updates. Each handler runs to completion with its answers given.
- `averageRating.toFixed(1)`, and statistics supplied by the server in a string format: the average is kept as an exact real.
- Date formatting with `toLocaleDateString`, rendering markup, the `PollStats`, `PollHeader`, `EventsList` and `SideBar` components, and the `console` calls.
- The dialog's `onSubmit` prop: it is never called, so the page's `handleCreatePoll` is not reached from the dialog.
- The `isOpen` check: the dialog renders nothing when closed; the close callback is counted, not rendered.
- The wording of the TypeError a second body read raises: it differs between browsers, so it is a field of each response rather than a constant.
- Login.DisplayedError: `error.message` of a thrown non-Error value is not modelled; every failure carries a string message.
- Polls.ComputeStats: states `average × count = sum` rather than the rounded text the page shows.

## Findings

| source | as written | input that shows it | evidently intended | confidence | as-written member | corrected member |
|---|---|---|---|---|---|---|
| src/utils/Auth.ts:50-57, src/pages/Login.tsx:100-107 | after `response.json()` fails, the code calls `response.text()` on the same response; the first read consumed the body, so `text()` rejects with a TypeError ("body already used") and the error thrown is that TypeError, not the message | a 500 response whose body is the plain text `Internal Server Error` | the error message is the response's text, or the status fallback when the text is empty | not executed | Fetch.ErrorMessageAsWritten, Fetch.ReadErrorMessageAsWritten, Fetch.TextFallbackUnreachable, Auth.AuthFetchJsonResult, Login.FailureMessage | Fetch.ErrorMessage, Auth.IntendedFetchJsonResult, Login.IntendedFailureMessage |

The models of `authFetchJson`, `useAuthFetch` and the login handler follow the code as written. The corrected members stand beside them, with the intended message proved non-empty and equal to the server's text whenever that text is non-empty, and a lemma on each side naming exactly the replies on which the two differ.
