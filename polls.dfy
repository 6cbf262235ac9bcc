/** The poll administration page: its events, the selected event, the votes
    of that event, all votes, and the statistics derived from all votes.
    Every handler's effect on this state is fixed by the server's answer,
    which is a parameter here; each request the page sends is recorded in
    `calls` together with the Authorization header it carries. */
module Polls {
  import opened JsRuntime
  import opened BrowserStorage
  import Auth
  import Fetch

  datatype Event = Event(id: string, name: string, voteCount: int, lastVote: Option<string>)

  /** A vote names its event either by a populated object or by a bare id. */
  datatype EventRef = EventDetail(id: string, eventName: string) | EventId(id: string)

  /** Ratings are JavaScript numbers, so they are reals here. */
  datatype Vote = Vote(
    id: string,
    event: EventRef,
    voterName: string,
    phone: string,
    rating: real,
    feedback: Option<string>,
    submittedAt: string)

  /** The page's statistics. The average is kept exact; its rendering with
      one decimal place is not part of the model. */
  datatype Stats = Stats(
    averageRating: real,
    totalVotes: nat,
    positiveCount: nat,
    neutralCount: nat,
    negativeCount: nat)

  const InitialStats := Stats(0.0, 0, 0, 0, 0)

  // ----- Statistics over all votes -----

  datatype Band = Positive | Neutral | Negative

  /** The filters of the statistics effect. */
  predicate InBand(rating: real, band: Band) {
    match band
    case Positive => rating >= 7.0
    case Neutral => rating >= 4.0 && rating <= 6.0
    case Negative => rating <= 3.0
  }

  /** `allVotes.filter(v => <band>).length`. */
  function CountBand(votes: seq<Vote>, band: Band): (n: nat)
    ensures n <= |votes|
    ensures n == |votes| <==> forall i :: 0 <= i < |votes| ==> InBand(votes[i].rating, band)
    ensures n == 0 <==> forall i :: 0 <= i < |votes| ==> !InBand(votes[i].rating, band)
  {
    if votes == [] then 0
    else
      var init := votes[..|votes| - 1];
      var n := CountBand(init, band) + if InBand(votes[|votes| - 1].rating, band) then 1 else 0;
      assert forall i :: 0 <= i < |init| ==> init[i] == votes[i];
      n
  }

  /** Counting a concatenation counts each part; with the one-vote case of
      CountBand's contract this fixes every count: each vote adds one exactly
      when its rating is in the band. */
  lemma {:induction false} CountBandAppend(a: seq<Vote>, b: seq<Vote>, band: Band)
    ensures CountBand(a + b, band) == CountBand(a, band) + CountBand(b, band)
    decreases |b|
  {
    if b == [] {
      assert a + b == a;
    } else {
      var front := b[..|b| - 1];
      var last := if InBand(b[|b| - 1].rating, band) then 1 else 0;
      assert (a + b)[..|a + b| - 1] == a + front;
      assert (a + b)[|a + b| - 1] == b[|b| - 1];
      assert CountBand(a + b, band) == CountBand(a + front, band) + last;
      CountBandAppend(a, front, band);
      assert CountBand(b, band) == CountBand(front, band) + last;
    }
  }

  /** `allVotes.reduce((sum, vote) => sum + vote.rating, 0)`. */
  function SumRatings(votes: seq<Vote>): real {
    if votes == [] then 0.0 else SumRatings(votes[..|votes| - 1]) + votes[|votes| - 1].rating
  }

  predicate IsWholeNumber(r: real) {
    r.Floor as real == r
  }

  /** A whole-number rating lies in exactly one band. */
  lemma WholeRatingInOneBand(r: real)
    requires IsWholeNumber(r)
    ensures InBand(r, Positive) || InBand(r, Neutral) || InBand(r, Negative)
    ensures !(InBand(r, Positive) && InBand(r, Neutral))
    ensures !(InBand(r, Positive) && InBand(r, Negative))
    ensures !(InBand(r, Neutral) && InBand(r, Negative))
  {
    var k := r.Floor;
    assert k as real == r;
    if 3 < k < 4 {
      assert false;
    } else if 6 < k < 7 {
      assert false;
    }
  }

  /** The bands leave gaps between whole numbers: 3.5 and 6.5 are in none. */
  lemma FractionalRatingsFallOutside()
    ensures !InBand(3.5, Positive) && !InBand(3.5, Neutral) && !InBand(3.5, Negative)
    ensures !InBand(6.5, Positive) && !InBand(6.5, Neutral) && !InBand(6.5, Negative)
  {
  }

  /** For whole-number ratings the three counts add up to the number of votes. */
  lemma {:induction false} BandsPartitionVotes(votes: seq<Vote>)
    requires forall i :: 0 <= i < |votes| ==> IsWholeNumber(votes[i].rating)
    ensures CountBand(votes, Positive) + CountBand(votes, Neutral) + CountBand(votes, Negative) == |votes|
  {
    if votes != [] {
      var init := votes[..|votes| - 1];
      assert forall i :: 0 <= i < |init| ==> init[i] == votes[i];
      BandsPartitionVotes(init);
      WholeRatingInOneBand(votes[|votes| - 1].rating);
    }
  }

  /** Ratings within [lo, hi] sum to a value within [lo * n, hi * n]. */
  lemma {:induction false} SumWithinBounds(votes: seq<Vote>, lo: real, hi: real)
    requires forall i :: 0 <= i < |votes| ==> lo <= votes[i].rating <= hi
    ensures lo * (|votes| as real) <= SumRatings(votes) <= hi * (|votes| as real)
  {
    if votes != [] {
      var init := votes[..|votes| - 1];
      assert forall i :: 0 <= i < |init| ==> init[i] == votes[i];
      SumWithinBounds(init, lo, hi);
      assert lo * (|votes| as real) == lo * (|init| as real) + lo;
      assert hi * (|votes| as real) == hi * (|init| as real) + hi;
    }
  }

  /** The mean of `count` values whose sum is `sum`: multiplied back by the
      count it gives the sum. */
  function Average(sum: real, count: nat): (avg: real)
    requires count > 0
    ensures avg * (count as real) == sum
  {
    sum / (count as real)
  }

  /** The statistics of a non-empty vote list. */
  function ComputeStats(allVotes: seq<Vote>): (s: Stats)
    requires |allVotes| > 0
    ensures s.totalVotes == |allVotes|
    ensures s.averageRating * (|allVotes| as real) == SumRatings(allVotes)
    ensures s.positiveCount <= s.totalVotes && s.neutralCount <= s.totalVotes && s.negativeCount <= s.totalVotes
    ensures s.positiveCount == CountBand(allVotes, Positive)
    ensures s.neutralCount == CountBand(allVotes, Neutral)
    ensures s.negativeCount == CountBand(allVotes, Negative)
  {
    Stats(
      Average(SumRatings(allVotes), |allVotes|),
      |allVotes|,
      CountBand(allVotes, Positive),
      CountBand(allVotes, Neutral),
      CountBand(allVotes, Negative))
  }

  lemma QuotientWithinBounds(sum: real, n: real, lo: real, hi: real)
    requires n > 0.0 && lo * n <= sum <= hi * n
    ensures lo <= sum / n <= hi
  {
    var q := sum / n;
    assert q * n == sum;
  }

  /** The average of ratings that all lie within [lo, hi] lies within [lo, hi]. */
  lemma AverageWithinRatingRange(allVotes: seq<Vote>, lo: real, hi: real)
    requires |allVotes| > 0
    requires forall i :: 0 <= i < |allVotes| ==> lo <= allVotes[i].rating <= hi
    ensures lo <= ComputeStats(allVotes).averageRating <= hi
  {
    SumWithinBounds(allVotes, lo, hi);
    QuotientWithinBounds(SumRatings(allVotes), |allVotes| as real, lo, hi);
  }

  /** The statistics effect: recomputed from a non-empty list, left exactly
      as they were for an empty one. */
  function RecomputeStats(allVotes: seq<Vote>, previous: Stats): (s: Stats)
    ensures allVotes == [] ==> s == previous
    ensures allVotes != [] ==> s == ComputeStats(allVotes)
    ensures allVotes != [] && (forall i :: 0 <= i < |allVotes| ==> IsWholeNumber(allVotes[i].rating)) ==>
              s.positiveCount + s.neutralCount + s.negativeCount == s.totalVotes
  {
    if |allVotes| > 0 then
      assert (forall i :: 0 <= i < |allVotes| ==> IsWholeNumber(allVotes[i].rating)) ==>
             CountBand(allVotes, Positive) + CountBand(allVotes, Neutral) + CountBand(allVotes, Negative) == |allVotes|
      by {
        if forall i :: 0 <= i < |allVotes| ==> IsWholeNumber(allVotes[i].rating) {
          BandsPartitionVotes(allVotes);
        }
      }
      ComputeStats(allVotes)
    else
      previous
  }

  // ----- Requests -----

  datatype Endpoint =
    | ListEvents
    | ListAllVotes
    | ListEventVotes(eventId: string)
    | CreateEvent(eventName: string)
    | DeleteEventNamed(eventName: string)
    | DeleteVoteById(voteId: string)

  datatype ApiCall = ApiCall(endpoint: Endpoint, authorization: string)

  /** The header value the page writes inline: `Bearer ${token}` with the
      durable store asked first, and "null" interpolated when there is no token. */
  function PageAuthorization(st: Storage): (a: string)
    ensures StartsWith(a, Auth.BearerPrefix)
    ensures Truthy(LocalFirstToken(st)) ==> a == Auth.BearerPrefix + LocalFirstToken(st).value
    ensures LocalFirstToken(st).None? ==> a == "Bearer null"
    ensures LocalFirstToken(st) == Some("") ==> a == Auth.BearerPrefix
  {
    Auth.BearerPrefix + Interpolate(LocalFirstToken(st))
  }

  /** With no token stored anywhere, the page still sends "Bearer null",
      while the shared request layer sends no Authorization header at all. */
  lemma NoTokenStillSendsBearer(st: Storage, httpMethod: Option<string>)
    requires TokenKey !in st.local && TokenKey !in st.session
    ensures PageAuthorization(st) == "Bearer null"
    ensures Fetch.AuthorizationHeader !in Auth.AuthHeaders(httpMethod, Auth.GetAuthToken(st), map[])
  {
  }

  /** When the two stores hold different tokens, the page sends the durable
      store's token and the shared request layer the session store's. */
  lemma TokenPriorityDiffers(st: Storage)
    requires Truthy(GetItem(st.local, TokenKey)) && Truthy(GetItem(st.session, TokenKey))
    requires GetItem(st.local, TokenKey) != GetItem(st.session, TokenKey)
    ensures PageAuthorization(st) == Auth.BearerPrefix + GetItem(st.local, TokenKey).value
    ensures Auth.GetAuthToken(st) == GetItem(st.session, TokenKey)
    ensures Auth.AuthHeaders(None, Auth.GetAuthToken(st), map[])[Fetch.AuthorizationHeader] != PageAuthorization(st)
  {
  }

  /** The server's answer to one request: a parsed `{success, data, stats?,
      message?}` body, or a rejection (network failure or unparsable body). */
  datatype Reply<T> = Answer(success: bool, data: T, stats: Option<Stats>, message: Option<string>) | Rejected(error: string)

  predicate Succeeded<T>(reply: Reply<T>) {
    reply.Answer? && reply.success
  }

  // ----- The page state and its transitions -----

  datatype PageState = PageState(
    events: seq<Event>,
    selectedEvent: Option<Event>,
    votes: seq<Vote>,
    allVotes: seq<Vote>,
    stats: Stats,
    isLoading: bool,
    isLoadingVotes: bool,
    calls: seq<ApiCall>)

  const InitialState := PageState([], None, [], [], InitialStats, true, false, [])

  /** `events.find(e => e._id === eventId)`, as an index. */
  function FindEvent(events: seq<Event>, eventId: string): (r: Option<nat>)
    ensures r.Some? ==> r.value < |events| && events[r.value].id == eventId
    ensures r.Some? ==> forall j :: 0 <= j < r.value ==> events[j].id != eventId
    ensures r.None? <==> forall j :: 0 <= j < |events| ==> events[j].id != eventId
  {
    if events == [] then None
    else if events[0].id == eventId then Some(0)
    else
      match FindEvent(events[1..], eventId)
      case None => None
      case Some(i) => Some(i + 1)
  }

  /** `fetchEvents`: one list request; the events are replaced only by a
      successful answer; loading ends; nothing else changes. */
  function LoadEvents(s: PageState, st: Storage, reply: Reply<seq<Event>>): (t: PageState)
    ensures t.calls == s.calls + [ApiCall(ListEvents, PageAuthorization(st))]
    ensures !t.isLoading
    ensures Succeeded(reply) ==> t.events == reply.data
    ensures !Succeeded(reply) ==> t.events == s.events
    ensures t.(events := s.events, isLoading := s.isLoading, calls := s.calls) == s
  {
    var t := s.(isLoading := false, calls := s.calls + [ApiCall(ListEvents, PageAuthorization(st))]);
    if Succeeded(reply) then t.(events := reply.data) else t
  }

  /** `fetchAllVotes` followed by the statistics effect it triggers: a
      successful non-empty answer sets the statistics to those of its votes;
      neither loading flag, the selection nor the scoped votes change. */
  function LoadAllVotes(s: PageState, st: Storage, reply: Reply<seq<Vote>>): (t: PageState)
    ensures t.calls == s.calls + [ApiCall(ListAllVotes, PageAuthorization(st))]
    ensures Succeeded(reply) ==> t.allVotes == reply.data
    ensures Succeeded(reply) && reply.data != [] ==> t.stats == ComputeStats(reply.data)
    ensures !Succeeded(reply) ==> t.allVotes == s.allVotes && t.stats == s.stats
    ensures t.(allVotes := s.allVotes, stats := s.stats, calls := s.calls) == s
  {
    var t := s.(calls := s.calls + [ApiCall(ListAllVotes, PageAuthorization(st))]);
    if Succeeded(reply) then t.(allVotes := reply.data, stats := RecomputeStats(reply.data, s.stats)) else t
  }

  /** `fetchEventVotes(eventId)`: one scoped request, the scoped loading
      flag off afterwards, and only the votes and statistics may change. */
  function LoadEventVotes(s: PageState, st: Storage, eventId: string, reply: Reply<seq<Vote>>): (t: PageState)
    ensures t.calls == s.calls + [ApiCall(ListEventVotes(eventId), PageAuthorization(st))]
    ensures !t.isLoadingVotes
    ensures t.(votes := s.votes, stats := s.stats, isLoadingVotes := s.isLoadingVotes, calls := s.calls) == s
  {
    var t := s.(isLoadingVotes := false, calls := s.calls + [ApiCall(ListEventVotes(eventId), PageAuthorization(st))]);
    if Succeeded(reply) then
      t.(votes := reply.data, stats := if reply.stats.Some? then reply.stats.value else s.stats)
    else t
  }

  /** `handleSelectEvent(eventId)`: the selection, if it changes, becomes one
      of the loaded events; the events, all votes and the page's loading
      flag are untouched, and at most one request goes out. */
  function SelectEvent(s: PageState, st: Storage, eventId: string, reply: Reply<seq<Vote>>): (t: PageState)
    ensures t.events == s.events && t.allVotes == s.allVotes && t.isLoading == s.isLoading
    ensures t.selectedEvent == s.selectedEvent || (t.selectedEvent.Some? && t.selectedEvent.value in s.events)
    ensures t.calls == s.calls || |t.calls| == |s.calls| + 1
  {
    match FindEvent(s.events, eventId)
    case None => s
    case Some(i) => LoadEventVotes(s.(selectedEvent := Some(s.events[i])), st, s.events[i].id, reply)
  }

  /** What `handleCreatePoll` resolves or rejects with. */
  datatype CreateOutcome = Created | CreateFailed(message: string)

  /** `handleCreatePoll(eventName)`; a missing server message becomes the
      empty message of `new Error(undefined)`. */
  function CreatePoll(s: PageState, st: Storage, eventName: string, reply: Reply<()>, eventsReply: Reply<seq<Event>>)
    : (r: (PageState, CreateOutcome))
    ensures r.1 == Created <==> Succeeded(reply)
    ensures s.calls + [ApiCall(CreateEvent(eventName), PageAuthorization(st))] <= r.0.calls
    ensures r.0.selectedEvent == s.selectedEvent && r.0.votes == s.votes
    ensures r.0.allVotes == s.allVotes && r.0.stats == s.stats
  {
    var t := s.(calls := s.calls + [ApiCall(CreateEvent(eventName), PageAuthorization(st))]);
    match reply
    case Rejected(e) => (t, CreateFailed(e))
    case Answer(success, _, _, message) =>
      if success then (LoadEvents(t, st, eventsReply), Created) else (t, CreateFailed(message.GetOr("")))
  }

  /** The text `alert(data.message)` shows: "undefined" when there is no message. */
  function AlertText(message: Option<string>): string {
    message.GetOr("undefined")
  }

  const DeleteFailedAlert := "Erreur lors de la suppression"

  /** `handleDeleteEvent(eventName)`: the new state and the alert shown, if any. */
  function DeleteEvent(
    s: PageState, st: Storage, eventName: string, confirmed: bool,
    reply: Reply<()>, eventsReply: Reply<seq<Event>>, votesReply: Reply<seq<Vote>>)
    : (r: (PageState, Option<string>))
    ensures r.1.Some? <==> confirmed && !Succeeded(reply)
    ensures confirmed ==> s.calls + [ApiCall(DeleteEventNamed(eventName), PageAuthorization(st))] <= r.0.calls
    ensures !confirmed ==> r.0.calls == s.calls
    ensures r.0.selectedEvent == s.selectedEvent || r.0.selectedEvent == None
    ensures r.0.isLoadingVotes == s.isLoadingVotes
  {
    if !confirmed then (s, None)
    else
      var t := s.(calls := s.calls + [ApiCall(DeleteEventNamed(eventName), PageAuthorization(st))]);
      match reply
      case Rejected(_) => (t, Some(DeleteFailedAlert))
      case Answer(success, _, _, message) =>
        if success then
          var cleared :=
            if t.selectedEvent.Some? && t.selectedEvent.value.name == eventName
            then t.(selectedEvent := None, votes := [])
            else t;
          (LoadAllVotes(LoadEvents(cleared, st, eventsReply), st, votesReply), None)
        else (t, Some(AlertText(message)))
  }

  /** `handleDeleteVote(voteId)`: the new state and the alert shown, if any. */
  function DeleteVote(
    s: PageState, st: Storage, voteId: string, confirmed: bool,
    reply: Reply<()>, scopedReply: Reply<seq<Vote>>, votesReply: Reply<seq<Vote>>)
    : (r: (PageState, Option<string>))
    ensures r.1.Some? <==> confirmed && !Succeeded(reply)
    ensures confirmed ==> s.calls + [ApiCall(DeleteVoteById(voteId), PageAuthorization(st))] <= r.0.calls
    ensures !confirmed ==> r.0.calls == s.calls
    ensures r.0.selectedEvent == s.selectedEvent && r.0.events == s.events && r.0.isLoading == s.isLoading
  {
    if !confirmed then (s, None)
    else
      var t := s.(calls := s.calls + [ApiCall(DeleteVoteById(voteId), PageAuthorization(st))]);
      match reply
      case Rejected(_) => (t, Some(DeleteFailedAlert))
      case Answer(success, _, _, message) =>
        if success then
          var reloaded :=
            if t.selectedEvent.Some? then LoadEventVotes(t, st, t.selectedEvent.value.id, scopedReply) else t;
          (LoadAllVotes(reloaded, st, votesReply), None)
        else (t, Some(AlertText(message)))
  }

  // ----- Properties of the transitions -----

  /** Selecting an id that no loaded event has changes nothing and sends nothing. */
  lemma SelectAbsentEventIsNoOp(s: PageState, st: Storage, eventId: string, reply: Reply<seq<Vote>>)
    requires forall j :: 0 <= j < |s.events| ==> s.events[j].id != eventId
    ensures SelectEvent(s, st, eventId, reply) == s
  {
  }

  /** Selecting a loaded id selects the first event with that id and loads its votes. */
  lemma SelectPresentEvent(s: PageState, st: Storage, j: nat, reply: Reply<seq<Vote>>)
    requires j < |s.events|
    requires forall k :: 0 <= k < j ==> s.events[k].id != s.events[j].id
    ensures SelectEvent(s, st, s.events[j].id, reply).selectedEvent == Some(s.events[j])
    ensures SelectEvent(s, st, s.events[j].id, reply).calls
            == s.calls + [ApiCall(ListEventVotes(s.events[j].id), PageAuthorization(st))]
  {
    var r := FindEvent(s.events, s.events[j].id);
    assert r == Some(j);
  }

  /** A successful scoped load replaces the votes wholesale and the statistics
      only when the answer carries some; any other answer leaves both alone. */
  lemma ScopedLoadEffect(s: PageState, st: Storage, eventId: string, reply: Reply<seq<Vote>>)
    ensures Succeeded(reply) ==> LoadEventVotes(s, st, eventId, reply).votes == reply.data
    ensures Succeeded(reply) && reply.stats.Some? ==> LoadEventVotes(s, st, eventId, reply).stats == reply.stats.value
    ensures reply.Answer? && reply.stats.None? ==> LoadEventVotes(s, st, eventId, reply).stats == s.stats
    ensures !Succeeded(reply) ==> LoadEventVotes(s, st, eventId, reply).votes == s.votes
    ensures !Succeeded(reply) ==> LoadEventVotes(s, st, eventId, reply).stats == s.stats
  {
  }

  /** Loading an empty vote list leaves the statistics exactly as they were. */
  lemma EmptyVoteListKeepsStats(s: PageState, st: Storage, reply: Reply<seq<Vote>>)
    requires Succeeded(reply) && reply.data == []
    ensures LoadAllVotes(s, st, reply).stats == s.stats
    ensures LoadAllVotes(s, st, reply).allVotes == []
  {
  }

  /** Create: one create request, then exactly one events reload on success;
      the server's message (or the empty message) on failure. */
  lemma CreatePollEffect(s: PageState, st: Storage, eventName: string, reply: Reply<()>, eventsReply: Reply<seq<Event>>)
    ensures Succeeded(reply) ==> CreatePoll(s, st, eventName, reply, eventsReply).1 == Created
    ensures Succeeded(reply) ==>
              CreatePoll(s, st, eventName, reply, eventsReply).0.calls ==
              s.calls + [ApiCall(CreateEvent(eventName), PageAuthorization(st)), ApiCall(ListEvents, PageAuthorization(st))]
    ensures reply.Answer? && !reply.success ==>
              CreatePoll(s, st, eventName, reply, eventsReply) ==
              (s.(calls := s.calls + [ApiCall(CreateEvent(eventName), PageAuthorization(st))]),
               CreateFailed(reply.message.GetOr("")))
    ensures reply.Rejected? ==>
              CreatePoll(s, st, eventName, reply, eventsReply) ==
              (s.(calls := s.calls + [ApiCall(CreateEvent(eventName), PageAuthorization(st))]),
               CreateFailed(reply.error))
  {
  }

  /** Deleting the selected event by its name clears the selection and its
      votes, then reloads the events and then all votes. */
  lemma DeleteSelectedEventByName(
    s: PageState, st: Storage, reply: Reply<()>, eventsReply: Reply<seq<Event>>, votesReply: Reply<seq<Vote>>)
    requires s.selectedEvent.Some? && Succeeded(reply)
    ensures DeleteEvent(s, st, s.selectedEvent.value.name, true, reply, eventsReply, votesReply).0.selectedEvent == None
    ensures DeleteEvent(s, st, s.selectedEvent.value.name, true, reply, eventsReply, votesReply).0.votes == []
    ensures DeleteEvent(s, st, s.selectedEvent.value.name, true, reply, eventsReply, votesReply).0.calls ==
              s.calls + [ApiCall(DeleteEventNamed(s.selectedEvent.value.name), PageAuthorization(st)),
                         ApiCall(ListEvents, PageAuthorization(st)),
                         ApiCall(ListAllVotes, PageAuthorization(st))]
  {
  }

  /** The events list passes an event's id; unless that id happens to equal
      the selected event's name, the selection and its votes survive. */
  lemma DeleteSelectedEventById(
    s: PageState, st: Storage, reply: Reply<()>, eventsReply: Reply<seq<Event>>, votesReply: Reply<seq<Vote>>)
    requires s.selectedEvent.Some? && s.selectedEvent.value.id != s.selectedEvent.value.name
    ensures DeleteEvent(s, st, s.selectedEvent.value.id, true, reply, eventsReply, votesReply).0.selectedEvent
            == s.selectedEvent
    ensures DeleteEvent(s, st, s.selectedEvent.value.id, true, reply, eventsReply, votesReply).0.votes == s.votes
  {
  }

  /** A failed or declined deletion changes no local data. */
  lemma DeleteEventFailureKeepsData(
    s: PageState, st: Storage, eventName: string, confirmed: bool,
    reply: Reply<()>, eventsReply: Reply<seq<Event>>, votesReply: Reply<seq<Vote>>)
    requires !confirmed || !Succeeded(reply)
    ensures DeleteEvent(s, st, eventName, confirmed, reply, eventsReply, votesReply).0
            == s.(calls := DeleteEvent(s, st, eventName, confirmed, reply, eventsReply, votesReply).0.calls)
    ensures !confirmed ==> DeleteEvent(s, st, eventName, confirmed, reply, eventsReply, votesReply) == (s, None)
  {
  }

  /** A successful deletion sends the delete request, then reloads the
      events and then all votes; the selection and its votes survive unless
      the selected event's name is the argument. */
  lemma DeleteEventReloads(
    s: PageState, st: Storage, eventName: string,
    reply: Reply<()>, eventsReply: Reply<seq<Event>>, votesReply: Reply<seq<Vote>>)
    requires Succeeded(reply)
    ensures DeleteEvent(s, st, eventName, true, reply, eventsReply, votesReply).0.calls ==
              s.calls + [ApiCall(DeleteEventNamed(eventName), PageAuthorization(st)),
                         ApiCall(ListEvents, PageAuthorization(st)),
                         ApiCall(ListAllVotes, PageAuthorization(st))]
    ensures s.selectedEvent.Some? && s.selectedEvent.value.name == eventName ==>
              DeleteEvent(s, st, eventName, true, reply, eventsReply, votesReply).0.selectedEvent == None
              && DeleteEvent(s, st, eventName, true, reply, eventsReply, votesReply).0.votes == []
    ensures !(s.selectedEvent.Some? && s.selectedEvent.value.name == eventName) ==>
              DeleteEvent(s, st, eventName, true, reply, eventsReply, votesReply).0.selectedEvent == s.selectedEvent
              && DeleteEvent(s, st, eventName, true, reply, eventsReply, votesReply).0.votes == s.votes
  {
  }

  /** A failed or declined vote deletion changes no local data; a declined
      one sends nothing and shows nothing. */
  lemma DeleteVoteFailureKeepsData(
    s: PageState, st: Storage, voteId: string, confirmed: bool,
    reply: Reply<()>, scopedReply: Reply<seq<Vote>>, votesReply: Reply<seq<Vote>>)
    requires !confirmed || !Succeeded(reply)
    ensures DeleteVote(s, st, voteId, confirmed, reply, scopedReply, votesReply).0
            == s.(calls := DeleteVote(s, st, voteId, confirmed, reply, scopedReply, votesReply).0.calls)
    ensures !confirmed ==> DeleteVote(s, st, voteId, confirmed, reply, scopedReply, votesReply) == (s, None)
  {
  }

  /** Deleting a vote reloads the selected event's votes only when an event
      is selected, and all votes in every case. */
  lemma DeleteVoteReloads(
    s: PageState, st: Storage, voteId: string,
    reply: Reply<()>, scopedReply: Reply<seq<Vote>>, votesReply: Reply<seq<Vote>>)
    requires Succeeded(reply)
    ensures DeleteVote(s, st, voteId, true, reply, scopedReply, votesReply).0.calls ==
              s.calls + [ApiCall(DeleteVoteById(voteId), PageAuthorization(st))]
              + (if s.selectedEvent.Some?
                 then [ApiCall(ListEventVotes(s.selectedEvent.value.id), PageAuthorization(st))] else [])
              + [ApiCall(ListAllVotes, PageAuthorization(st))]
    ensures s.selectedEvent.None? ==> DeleteVote(s, st, voteId, true, reply, scopedReply, votesReply).0.votes == s.votes
  {
  }

  /** After a vote is deleted and all votes reload with a non-empty list, the
      statistics are those of that list, whatever the scoped load supplied. */
  lemma DeleteVoteStatsFollowAllVotes(
    s: PageState, st: Storage, voteId: string,
    reply: Reply<()>, scopedReply: Reply<seq<Vote>>, votesReply: Reply<seq<Vote>>)
    requires Succeeded(reply) && Succeeded(votesReply) && votesReply.data != []
    ensures DeleteVote(s, st, voteId, true, reply, scopedReply, votesReply).0.stats == ComputeStats(votesReply.data)
  {
  }

  // ----- The page component, handler by handler -----

  class PollPage {
    var events: seq<Event>
    var selectedEvent: Option<Event>
    var votes: seq<Vote>
    var allVotes: seq<Vote>
    var stats: Stats
    var isLoading: bool
    var isLoadingVotes: bool
    var calls: seq<ApiCall>

    function State(): PageState
      reads this
    {
      PageState(events, selectedEvent, votes, allVotes, stats, isLoading, isLoadingVotes, calls)
    }

    constructor ()
      ensures State() == InitialState
    {
      events, selectedEvent, votes, allVotes := [], None, [], [];
      stats := InitialStats;
      isLoading, isLoadingVotes := true, false;
      calls := [];
    }

    method Send(st: Storage, endpoint: Endpoint)
      modifies this
      ensures State() == old(State()).(calls := old(calls) + [ApiCall(endpoint, PageAuthorization(st))])
    {
      var token := LocalFirstToken(st);
      calls := calls + [ApiCall(endpoint, Auth.BearerPrefix + Interpolate(token))];
    }

    method FetchEvents(st: Storage, reply: Reply<seq<Event>>)
      modifies this
      ensures State() == LoadEvents(old(State()), st, reply)
    {
      isLoading := true;
      Send(st, ListEvents);
      if reply.Answer? && reply.success {
        events := reply.data;
      }
      isLoading := false;
    }

    /** The statistics effect, run after `allVotes` has changed. */
    method StatsEffect()
      modifies this
      ensures State() == old(State()).(stats := RecomputeStats(allVotes, old(stats)))
    {
      if |allVotes| > 0 {
        stats := ComputeStats(allVotes);
      }
    }

    method FetchAllVotes(st: Storage, reply: Reply<seq<Vote>>)
      modifies this
      ensures State() == LoadAllVotes(old(State()), st, reply)
    {
      Send(st, ListAllVotes);
      if reply.Answer? && reply.success {
        allVotes := reply.data;
        StatsEffect();
      }
    }

    method FetchEventVotes(st: Storage, eventId: string, reply: Reply<seq<Vote>>)
      modifies this
      ensures State() == LoadEventVotes(old(State()), st, eventId, reply)
    {
      isLoadingVotes := true;
      Send(st, ListEventVotes(eventId));
      if reply.Answer? && reply.success {
        votes := reply.data;
        if reply.stats.Some? {
          stats := reply.stats.value;
        }
      }
      isLoadingVotes := false;
    }

    method HandleSelectEvent(st: Storage, eventId: string, reply: Reply<seq<Vote>>)
      modifies this
      ensures State() == SelectEvent(old(State()), st, eventId, reply)
    {
      var found := FindEvent(events, eventId);
      if found.None? {
        return;
      }
      var event := events[found.value];
      selectedEvent := Some(event);
      FetchEventVotes(st, event.id, reply);
    }

    method HandleCreatePoll(st: Storage, eventName: string, reply: Reply<()>, eventsReply: Reply<seq<Event>>)
      returns (outcome: CreateOutcome)
      modifies this
      ensures (State(), outcome) == CreatePoll(old(State()), st, eventName, reply, eventsReply)
    {
      Send(st, CreateEvent(eventName));
      match reply {
        case Rejected(e) =>
          outcome := CreateFailed(e);
        case Answer(success, _, _, message) =>
          if success {
            FetchEvents(st, eventsReply);
            outcome := Created;
          } else {
            outcome := CreateFailed(message.GetOr(""));
          }
      }
    }

    method HandleDeleteEvent(
      st: Storage, eventName: string, confirmed: bool,
      reply: Reply<()>, eventsReply: Reply<seq<Event>>, votesReply: Reply<seq<Vote>>)
      returns (alert: Option<string>)
      modifies this
      ensures (State(), alert) == DeleteEvent(old(State()), st, eventName, confirmed, reply, eventsReply, votesReply)
    {
      alert := None;
      if !confirmed {
        return;
      }
      Send(st, DeleteEventNamed(eventName));
      match reply {
        case Rejected(_) =>
          alert := Some(DeleteFailedAlert);
        case Answer(success, _, _, message) =>
          if success {
            if selectedEvent.Some? && selectedEvent.value.name == eventName {
              selectedEvent := None;
              votes := [];
            }
            FetchEvents(st, eventsReply);
            FetchAllVotes(st, votesReply);
          } else {
            alert := Some(AlertText(message));
          }
      }
    }

    method HandleDeleteVote(
      st: Storage, voteId: string, confirmed: bool,
      reply: Reply<()>, scopedReply: Reply<seq<Vote>>, votesReply: Reply<seq<Vote>>)
      returns (alert: Option<string>)
      modifies this
      ensures (State(), alert) == DeleteVote(old(State()), st, voteId, confirmed, reply, scopedReply, votesReply)
    {
      alert := None;
      if !confirmed {
        return;
      }
      Send(st, DeleteVoteById(voteId));
      match reply {
        case Rejected(_) =>
          alert := Some(DeleteFailedAlert);
        case Answer(success, _, _, message) =>
          if success {
            if selectedEvent.Some? {
              FetchEventVotes(st, selectedEvent.value.id, scopedReply);
            }
            FetchAllVotes(st, votesReply);
          } else {
            alert := Some(AlertText(message));
          }
      }
    }
  }
}
