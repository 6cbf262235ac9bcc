/** The votes table: the colour badge given to each rating, the empty state
    shown when there is no vote, and the rows of the table otherwise. */
module VotesList {
  import opened JsRuntime
  import Polls

  /** The four badge colours, from worst to best. */
  datatype RatingColor = Red | Yellow | Blue | Green

  /** `getRatingColor`: thresholds at 8, 6 and 4, compared from the highest down. */
  function RatingColorOf(rating: real): (c: RatingColor)
    ensures c == Green <==> rating >= 8.0
    ensures c == Blue <==> 6.0 <= rating < 8.0
    ensures c == Yellow <==> 4.0 <= rating < 6.0
    ensures c == Red <==> rating < 4.0
  {
    if rating >= 8.0 then Green
    else if rating >= 6.0 then Blue
    else if rating >= 4.0 then Yellow
    else Red
  }

  /** The Tailwind classes of each badge. */
  function ColorClass(c: RatingColor): string {
    match c
    case Green => "bg-green-100 text-green-800"
    case Blue => "bg-blue-100 text-blue-800"
    case Yellow => "bg-yellow-100 text-yellow-800"
    case Red => "bg-red-100 text-red-800"
  }

  /** The position of a colour in the order red < yellow < blue < green. */
  function Rank(c: RatingColor): nat {
    match c
    case Red => 0
    case Yellow => 1
    case Blue => 2
    case Green => 3
  }

  /** Distinct colours have distinct classes, so the badge tells them apart. */
  lemma ColorClassInjective(c: RatingColor, d: RatingColor)
    requires ColorClass(c) == ColorClass(d)
    ensures c == d
  {
  }

  /** A higher rating never receives a worse colour. */
  lemma RatingColorMonotone(a: real, b: real)
    requires a <= b
    ensures Rank(RatingColorOf(a)) <= Rank(RatingColorOf(b))
  {
  }

  /** The badge colours and the statistics bands are two different schemes:
      6 and 7 share the blue badge but are counted as neutral and positive,
      while 7 and 8 are both positive but get blue and green badges. */
  lemma ColorsDifferFromStatBands()
    ensures RatingColorOf(6.0) == RatingColorOf(7.0) == Blue
    ensures Polls.InBand(6.0, Polls.Neutral) && Polls.InBand(7.0, Polls.Positive)
    ensures RatingColorOf(7.0) != RatingColorOf(8.0)
    ensures Polls.InBand(8.0, Polls.Positive)
  {
  }

  /** On whole-number ratings each colour except blue lies inside a single
      statistics band; blue straddles neutral and positive. */
  lemma ColorsRefineBandsOnWholeRatings(r: real)
    requires Polls.IsWholeNumber(r)
    ensures RatingColorOf(r) == Red ==> Polls.InBand(r, Polls.Negative)
    ensures RatingColorOf(r) == Yellow ==> Polls.InBand(r, Polls.Neutral)
    ensures RatingColorOf(r) == Green ==> Polls.InBand(r, Polls.Positive)
    ensures RatingColorOf(r) == Blue ==> Polls.InBand(r, Polls.Neutral) || Polls.InBand(r, Polls.Positive)
  {
    var k := r.Floor;
    assert k as real == r;
    if 3 < k < 4 {
      assert false;
    }
  }

  /** One row of the table: voter, phone, badge, feedback, and the vote id
      the row's delete button passes to `onDeleteVote`. */
  datatype Row = Row(voterName: string, phone: string, badgeClass: string, feedback: string, deleteTarget: string)

  /** What the component renders: the empty state with its message, or the
      table with its optional heading and its rows. */
  datatype View = EmptyState(message: string) | Table(heading: Option<string>, rows: seq<Row>)

  const NoCommentText := "Aucun commentaire"
  const NoVoteAtAllText := "Aucun vote enregistré"

  function RowOf(vote: Polls.Vote): Row {
    Row(vote.voterName, vote.phone, ColorClass(RatingColorOf(vote.rating)), OrElse(vote.feedback, NoCommentText), vote.id)
  }

  /** The component's output for `votes` and the optional `eventName`. */
  function Render(votes: seq<Polls.Vote>, eventName: Option<string>): (v: View)
    ensures v.EmptyState? <==> |votes| == 0
    ensures v.EmptyState? && Truthy(eventName) ==> v.message == "Aucun vote pour \"" + eventName.value + "\""
    ensures v.EmptyState? && !Truthy(eventName) ==> v.message == NoVoteAtAllText
    ensures v.Table? ==> |v.rows| == |votes|
    ensures v.Table? ==> (v.heading.Some? <==> Truthy(eventName))
    ensures v.Table? && Truthy(eventName) ==>
              v.heading == Some("Votes pour \"" + eventName.value + "\" (" + DecimalString(|votes|) + ")")
    ensures v.Table? ==> forall i :: 0 <= i < |votes| ==> v.rows[i] == RowOf(votes[i])
  {
    if |votes| == 0 then
      EmptyState(if Truthy(eventName) then "Aucun vote pour \"" + eventName.value + "\"" else NoVoteAtAllText)
    else
      var heading := if Truthy(eventName)
                     then Some("Votes pour \"" + eventName.value + "\" (" + DecimalString(|votes|) + ")")
                     else None;
      Table(heading, seq(|votes|, i requires 0 <= i < |votes| => RowOf(votes[i])))
  }

  /** Every row's badge is the colour of that vote's rating, a missing or
      empty feedback reads "Aucun commentaire", and the delete button of a
      row targets exactly that vote. */
  lemma RowsFollowVotes(votes: seq<Polls.Vote>, eventName: Option<string>, i: int)
    requires 0 <= i < |votes|
    ensures Render(votes, eventName).Table?
    ensures Render(votes, eventName).rows[i].badgeClass == ColorClass(RatingColorOf(votes[i].rating))
    ensures Render(votes, eventName).rows[i].deleteTarget == votes[i].id
    ensures !Truthy(votes[i].feedback) ==> Render(votes, eventName).rows[i].feedback == NoCommentText
    ensures Truthy(votes[i].feedback) ==> Render(votes, eventName).rows[i].feedback == votes[i].feedback.value
  {
  }
}
