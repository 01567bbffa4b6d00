/** The star-rating form shown under the chat (`FeedbackSection`): a rating,
    the star under the pointer and a comment. */
module Feedback {
  import opened Optional

  /** A star of the row 1..5. */
  type Star = n: int | 1 <= n <= 5 witness 1

  datatype FeedbackState = FeedbackState(rating: int, hoveredRating: int, comment: string)

  const Initial := FeedbackState(0, 0, "")

  /** What the parent's `onSubmit` receives. */
  datatype Submission = Submission(rating: int, comment: string)

  /** Rating and hovered star are each 0 (none) or a star of the row. */
  predicate Valid(f: FeedbackState) {
    0 <= f.rating <= 5 && 0 <= f.hoveredRating <= 5
  }

  /** Clicking star `s` makes it the rating. */
  function Click(f: FeedbackState, s: Star): (r: FeedbackState)
    ensures r.rating == s
    ensures r.hoveredRating == f.hoveredRating && r.comment == f.comment
    ensures Valid(f) ==> Valid(r)
  {
    f.(rating := s)
  }

  /** The pointer entering star `s` previews it. */
  function Enter(f: FeedbackState, s: Star): (r: FeedbackState)
    ensures r.hoveredRating == s
    ensures r.rating == f.rating && r.comment == f.comment
    ensures Valid(f) ==> Valid(r)
  {
    f.(hoveredRating := s)
  }

  /** The pointer leaving a star ends the preview. */
  function Leave(f: FeedbackState): (r: FeedbackState)
    ensures r.hoveredRating == 0
    ensures r.rating == f.rating && r.comment == f.comment
    ensures Valid(f) ==> Valid(r)
  {
    f.(hoveredRating := 0)
  }

  /** Typing in the comment box replaces the comment. */
  function EditComment(f: FeedbackState, text: string): (r: FeedbackState)
    ensures r.comment == text
    ensures r.rating == f.rating && r.hoveredRating == f.hoveredRating
  {
    f.(comment := text)
  }

  /** The submit button is disabled while no star has been chosen. */
  predicate SubmitDisabled(f: FeedbackState) {
    f.rating == 0
  }

  /** Pressing submit: a disabled button does nothing; otherwise the rating
      and comment go to `onSubmit` and the form is reset, keeping the star
      under the pointer. */
  function PressSubmit(f: FeedbackState): (r: (Option<Submission>, FeedbackState))
    ensures r.0.None? <==> SubmitDisabled(f)
    ensures r.0.None? ==> r.1 == f
    ensures r.0.Some? ==>
              && r.0.value == Submission(f.rating, f.comment)
              && r.1 == FeedbackState(0, f.hoveredRating, "")
    ensures Valid(f) && r.0.Some? ==> 1 <= r.0.value.rating <= 5
    ensures Valid(f) ==> Valid(r.1)
  {
    if f.rating == 0 then (None, f)
    else (Some(Submission(f.rating, f.comment)), f.(rating := 0, comment := ""))
  }

  /** The rating the stars currently display: the hovered star if any,
      otherwise the chosen rating. */
  function Shown(f: FeedbackState): int {
    if f.hoveredRating != 0 then f.hoveredRating else f.rating
  }

  /** Whether star `s` is drawn filled. */
  predicate Highlighted(f: FeedbackState, s: Star) {
    s <= Shown(f)
  }

  /** The filled stars are exactly the first `Shown` ones: while hovering,
      the stars up to the hovered one; otherwise those up to the rating. */
  lemma HighlightedPrefix(f: FeedbackState, s: Star)
    ensures f.hoveredRating != 0 ==> (Highlighted(f, s) <==> s <= f.hoveredRating)
    ensures f.hoveredRating == 0 ==> (Highlighted(f, s) <==> s <= f.rating)
    ensures Highlighted(f, s) && s > 1 ==> Highlighted(f, (s - 1) as Star)
  {
  }

  /** Number of filled stars. */
  function FilledCount(f: FeedbackState, upTo: nat): (n: nat)
    requires upTo <= 5
    ensures n <= upTo
    decreases upTo
  {
    if upTo == 0 then 0
    else FilledCount(f, upTo - 1) + (if Highlighted(f, upTo as Star) then 1 else 0)
  }

  /** In a valid form, the row shows exactly `Shown(f)` filled stars. */
  lemma {:induction false} FilledCountIsShown(f: FeedbackState, upTo: nat)
    requires Valid(f) && upTo <= 5
    ensures FilledCount(f, upTo) == if Shown(f) <= upTo then Shown(f) else upTo
    decreases upTo
  {
    if upTo > 0 {
      FilledCountIsShown(f, upTo - 1);
    }
  }

  /** Everything the form reacts to. */
  datatype FeedbackEvent =
    | StarClicked(star: Star)
    | StarEntered(star: Star)
    | StarLeft
    | CommentTyped(text: string)
    | SubmitPressed

  function Apply(f: FeedbackState, e: FeedbackEvent): (r: (Option<Submission>, FeedbackState))
    ensures Valid(f) ==> Valid(r.1)
    ensures Valid(f) && r.0.Some? ==> 1 <= r.0.value.rating <= 5
  {
    match e
    case StarClicked(s) => (None, Click(f, s))
    case StarEntered(s) => (None, Enter(f, s))
    case StarLeft => (None, Leave(f))
    case CommentTyped(text) => (None, EditComment(f, text))
    case SubmitPressed => PressSubmit(f)
  }

  /** Run a sequence of events, collecting what reaches `onSubmit`. */
  function Session(f: FeedbackState, events: seq<FeedbackEvent>): (FeedbackState, seq<Submission>)
    decreases |events|
  {
    if events == [] then (f, [])
    else
      var step := Apply(f, events[0]);
      var rest := Session(step.1, events[1..]);
      (rest.0, (if step.0.Some? then [step.0.value] else []) + rest.1)
  }

  /** From the initial form, the rating stays in 0..5 through any session,
      and every submission that reaches `onSubmit` carries a rating in 1..5. */
  lemma {:induction false} SessionKeepsRatingInRange(f: FeedbackState, events: seq<FeedbackEvent>)
    requires Valid(f)
    ensures Valid(Session(f, events).0)
    ensures forall i :: 0 <= i < |Session(f, events).1| ==> 1 <= Session(f, events).1[i].rating <= 5
    decreases |events|
  {
    if events != [] {
      SessionKeepsRatingInRange(Apply(f, events[0]).1, events[1..]);
    }
  }

  lemma InitialValid()
    ensures Valid(Initial) && SubmitDisabled(Initial)
  {
  }
}
