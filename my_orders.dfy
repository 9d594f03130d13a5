/** The customer's order page: the status label, the status colour, and the
    six-step timeline whose passed steps are those up to the order's
    status. The page receives statuses as strings. */
module MyOrdersView {
  import opened OrderModel

  /** The statuses the page has labels and colours for. */
  const KnownStatuses: seq<string> :=
    ["pending", "verified", "processing", "assigned", "picked_up", "delivered", "rejected"]

  /** The steps of the timeline, in order; `rejected` is not one of them. */
  const TimelineSteps: seq<string> :=
    ["pending", "verified", "processing", "assigned", "picked_up", "delivered"]

  /** `Array.prototype.indexOf`: the first index holding `x`, or -1. */
  function IndexOf(xs: seq<string>, x: string): (r: int)
    ensures -1 <= r < |xs|
    ensures r == -1 <==> x !in xs
    ensures r >= 0 ==> xs[r] == x && forall j :: 0 <= j < r ==> xs[j] != x
  {
    if xs == [] then -1
    else if xs[0] == x then 0
    else
      var i := IndexOf(xs[1..], x);
      if i == -1 then -1 else i + 1
  }

  /** Step `index` of the timeline is drawn as passed: the order's status is
      that step or a later one. */
  predicate IsPassed(status: string, index: int) {
    IndexOf(TimelineSteps, status) >= index
  }

  /** The passed flags of the six steps. They always form a prefix: some
      number `n` of leading steps is passed and the rest are not. */
  function Timeline(status: string): (r: seq<bool>)
    ensures |r| == |TimelineSteps|
    ensures forall i :: 0 <= i < |r| ==> (r[i] <==> i <= IndexOf(TimelineSteps, status))
    ensures forall i, j :: 0 <= i <= j < |r| && r[j] ==> r[i]
  {
    seq(|TimelineSteps|, i requires 0 <= i < |TimelineSteps| => IsPassed(status, i))
  }

  /** Each status of the timeline marks exactly its own step and the steps
      before it. */
  lemma StepMarksPrefix(k: int)
    requires 0 <= k < |TimelineSteps|
    ensures forall i :: 0 <= i < |TimelineSteps| ==> (Timeline(TimelineSteps[k])[i] <==> i <= k)
  {
    assert IndexOf(TimelineSteps, TimelineSteps[k]) == k;
  }

  /** `delivered` marks all six steps. */
  lemma DeliveredMarksAll()
    ensures Timeline("delivered") == [true, true, true, true, true, true]
  {
    StepMarksPrefix(5);
  }

  /** `pending` marks only the first step. */
  lemma PendingMarksFirst()
    ensures Timeline("pending") == [true, false, false, false, false, false]
  {
    StepMarksPrefix(0);
  }

  /** `rejected`, and any string that is not a step, marks nothing. */
  lemma OffTimelineMarksNothing(status: string)
    requires status !in TimelineSteps
    ensures Timeline(status) == [false, false, false, false, false, false]
  {
  }

  /** The label shown for a status. Every known status gets a label of its
      own, different from the raw string; exactly the unknown ones are shown
      verbatim. */
  function StatusText(status: string): (r: string)
    ensures r == status <==> status !in KnownStatuses
  {
    if status == "pending" then "Pending Verification"
    else if status == "verified" then "Verified"
    else if status == "processing" then "Processing"
    else if status == "assigned" then "Assigned to Delivery"
    else if status == "picked_up" then "Out for Delivery"
    else if status == "delivered" then "Delivered"
    else if status == "rejected" then "Rejected"
    else status
  }

  const Gray: string := "bg-gray-100 text-gray-800"

  /** The badge colour for a status: exactly the unknown statuses are gray. */
  function StatusColor(status: string): (r: string)
    ensures r == Gray <==> status !in KnownStatuses
  {
    if status == "pending" then "bg-yellow-100 text-yellow-800"
    else if status == "verified" then "bg-blue-100 text-blue-800"
    else if status == "processing" then "bg-purple-100 text-purple-800"
    else if status == "assigned" then "bg-indigo-100 text-indigo-800"
    else if status == "picked_up" then "bg-orange-100 text-orange-800"
    else if status == "delivered" then "bg-green-100 text-green-800"
    else if status == "rejected" then "bg-red-100 text-red-800"
    else Gray
  }

  /** Each of the seven enumerated order statuses has a label and a colour
      of its own. */
  lemma EnumStatusesLabelled(s: OrderStatus)
    ensures StatusName(s) in KnownStatuses
    ensures StatusText(StatusName(s)) != StatusName(s) && StatusColor(StatusName(s)) != Gray
  {
  }

  /** Different enumerated statuses get different labels and different
      colours. */
  lemma EnumStatusesDistinguished(s1: OrderStatus, s2: OrderStatus)
    requires s1 != s2
    ensures StatusText(StatusName(s1)) != StatusText(StatusName(s2))
    ensures StatusColor(StatusName(s1)) != StatusColor(StatusName(s2))
  {
  }

  /** A status string outside the enumeration, which the status route stores
      without validation, is shown verbatim, in gray, with no timeline step
      passed. */
  lemma UnknownStatusShownRaw(status: string)
    requires status !in KnownStatuses
    ensures StatusText(status) == status && StatusColor(status) == Gray
    ensures Timeline(status) == [false, false, false, false, false, false]
  {
    OffTimelineMarksNothing(status);
  }
}
