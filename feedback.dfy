/** The admin list of feedback, inquiries and complaints: a table with a
    type badge and a review-status badge, a detail dialog, and a "Mark as
    Reviewed" button that records the review and closes the dialog. */
module Feedback {
  import opened Js
  import opened Ui

  /** A `feedback` row, with the columns the screen reads. `isReviewed` is
      nullable in the table. */
  datatype FeedbackRow = FeedbackRow(
    id: string,
    feedbackType: string,
    fullName: string,
    email: string,
    phone: Option<string>,
    address: Option<string>,
    message: string,
    isReviewed: Option<bool>)

  /** `item.is_reviewed` as a condition. */
  predicate IsReviewed(item: FeedbackRow) {
    item.isReviewed == Some(true)
  }

  datatype BadgeVariant = Destructive | Secondary | DefaultBadge | Outline

  /** A badge: its style and its text. */
  datatype Badge = Badge(variant: BadgeVariant, text: string)

  /** `getTypeBadge`: the three known types have fixed labels; any other
      type is shown as it is, outlined. */
  function TypeBadge(feedbackType: string): (b: Badge)
    ensures feedbackType == "complaint" <==> b == Badge(Destructive, "Complaint")
    ensures feedbackType == "feedback" <==> b == Badge(Secondary, "Feedback")
    ensures feedbackType == "inquiry" <==> b == Badge(DefaultBadge, "Inquiry")
    ensures b.variant == Outline <==> feedbackType !in {"complaint", "feedback", "inquiry"}
    ensures b.variant == Outline ==> b.text == feedbackType
  {
    if feedbackType == "complaint" then Badge(Destructive, "Complaint")
    else if feedbackType == "feedback" then Badge(Secondary, "Feedback")
    else if feedbackType == "inquiry" then Badge(DefaultBadge, "Inquiry")
    else Badge(Outline, feedbackType)
  }

  /** The status column. */
  function StatusBadge(item: FeedbackRow): (b: Badge)
    ensures b.text == "Reviewed" <==> IsReviewed(item)
    ensures b.text == "Pending" <==> !IsReviewed(item)
  {
    if IsReviewed(item) then Badge(Outline, "Reviewed") else Badge(Secondary, "Pending")
  }

  /** `value || "Not provided"` for the phone and address of the dialog. */
  function OrNotProvided(value: Option<string>): (t: string)
    ensures t != ""
    ensures value.Some? && value.value != "" ==> t == value.value
  {
    if value.Some? && value.value != "" then value.value else "Not provided"
  }

  /** "Mark as Reviewed" is in the dialog only while an item is open and
      not yet reviewed. */
  function ReviewOffered(selected: Option<FeedbackRow>): (offered: bool)
    ensures offered <==> selected.Some? && !IsReviewed(selected.value)
  {
    selected.Some? && !IsReviewed(selected.value)
  }

  /** The write `markAsReviewed` sends. */
  datatype ReviewWrite = ReviewWrite(id: string, reviewedBy: Option<string>, reviewedAt: int)

  /** The table once a review has landed. */
  function Reviewed(table: seq<FeedbackRow>, w: ReviewWrite): (r: seq<FeedbackRow>)
    ensures |r| == |table|
    ensures forall i :: 0 <= i < |table| && table[i].id == w.id ==> r[i] == table[i].(isReviewed := Some(true))
    ensures forall i :: 0 <= i < |table| && table[i].id != w.id ==> r[i] == table[i]
  {
    seq(|table|, i requires 0 <= i < |table| => if table[i].id == w.id then table[i].(isReviewed := Some(true)) else table[i])
  }

  /** A review is final: the reviewed item no longer offers the button,
      and marking it again changes nothing. */
  lemma ReviewIsFinal(table: seq<FeedbackRow>, w: ReviewWrite, w': ReviewWrite)
    requires w'.id == w.id
    ensures forall x :: x in Reviewed(table, w) && x.id == w.id ==> IsReviewed(x) && !ReviewOffered(Some(x))
    ensures Reviewed(Reviewed(table, w), w') == Reviewed(table, w)
  {
  }

  class FeedbackAdmin {
    var feedback: seq<FeedbackRow>
    var loading: bool
    var selected: Option<FeedbackRow>
    var writes: seq<ReviewWrite>
    var toasts: seq<Toast>
    /** How many times the list was fetched again after a review. */
    var refetches: nat

    constructor ()
      ensures feedback == [] && loading && selected == None && writes == [] && toasts == [] && refetches == 0
    {
      feedback, loading, selected, writes, toasts, refetches := [], true, None, [], [], 0;
    }

    /** `fetchFeedback` with the query's answer. */
    method FetchFeedback(result: Attempt<Option<seq<FeedbackRow>>>)
      modifies this
      ensures result.Fail? ==>
        feedback == old(feedback) && toasts == old(toasts) + [Toast("Error", "Failed to fetch feedback", true)]
      ensures result.Ok? ==> feedback == result.value.GetOr([]) && toasts == old(toasts)
      ensures !loading && selected == old(selected) && writes == old(writes) && refetches == old(refetches)
    {
      if result.Fail? {
        toasts := toasts + [Toast("Error", "Failed to fetch feedback", true)];
      } else {
        feedback := result.value.GetOr([]);
      }
      loading := false;
    }

    /** The View button and the dialog's Close button. */
    method Select(item: Option<FeedbackRow>)
      modifies this
      ensures selected == item
      ensures feedback == old(feedback) && loading == old(loading) && writes == old(writes)
      ensures toasts == old(toasts) && refetches == old(refetches)
    {
      selected := item;
    }

    /** `markAsReviewed(id)` by `reviewer` at time `now`: on success the
        list is fetched again and the dialog closes; on failure it stays. */
    method MarkAsReviewed(id: string, reviewer: Option<string>, now: int, result: WriteOutcome)
      modifies this
      ensures writes == old(writes) + [ReviewWrite(id, reviewer, now)]
      ensures result.WriteFailed? ==>
        selected == old(selected) && refetches == old(refetches)
        && toasts == old(toasts) + [Toast("Error", "Failed to update", true)]
      ensures result.Written? ==>
        selected == None && refetches == old(refetches) + 1
        && toasts == old(toasts) + [Toast("Marked as Reviewed", "", false)]
      ensures feedback == old(feedback) && loading == old(loading)
    {
      writes := writes + [ReviewWrite(id, reviewer, now)];
      if result.WriteFailed? {
        toasts := toasts + [Toast("Error", "Failed to update", true)];
      } else {
        toasts := toasts + [Toast("Marked as Reviewed", "", false)];
        refetches := refetches + 1;
        selected := None;
      }
    }
  }
}
