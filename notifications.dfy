/** The text message sent to a customer when an order's status changes.
    Sending itself (the SMS provider) is outside the model; a message is a
    value handed to the caller. */
module Notifications {
  import opened Wrappers
  import Text

  /** A text message to send. */
  datatype Sms = Sms(to: string, body: string)

  const Greeting: string := "Your order "

  /** The texts that follow the order id for the statuses that have a
      message of their own. */
  const VerifiedText: string := " has been verified and is being processed."
  const ProcessingText: string := " is being prepared."
  const AssignedText: string := " has been assigned to a delivery agent."
  const PickedUpText: string := " has been picked up and is on the way!"
  const DeliveredText: string := " has been delivered. Thank you!"
  const RejectedText: string := " could not be processed." + " Please contact support."

  /** The statuses with a message of their own. */
  const TemplatedStatuses: seq<string> := ["verified", "processing", "assigned", "picked_up", "delivered", "rejected"]

  /** What follows the order id in the message for `status`; `None` for the
      statuses with no message of their own, `pending` among them. */
  function Template(status: string): (t: Option<string>)
    ensures t.Some? <==> status in TemplatedStatuses
  {
    if status == "verified" then Some(VerifiedText)
    else if status == "processing" then Some(ProcessingText)
    else if status == "assigned" then Some(AssignedText)
    else if status == "picked_up" then Some(PickedUpText)
    else if status == "delivered" then Some(DeliveredText)
    else if status == "rejected" then Some(RejectedText)
    else None
  }

  /** What follows the order id: the status's own message, or the generic
      `status: <status>` one. */
  function Tail(status: string): string {
    if Template(status).Some? then Template(status).value else " status: " + status
  }

  /** The message sent when an order's status changes. */
  function StatusMessage(orderId: string, status: string): (msg: string)
    ensures |msg| > |Greeting| + |orderId|
    ensures msg[..|Greeting|] == Greeting
    ensures msg[|Greeting|..|Greeting| + |orderId|] == orderId
    ensures Text.Contains(msg, orderId)
  {
    Text.ContainsMiddle(Greeting, orderId, Tail(status));
    Greeting + orderId + Tail(status)
  }

  /** A status without a message of its own, whatever string it is, is
      reported verbatim. */
  lemma UntemplatedFallsBack(orderId: string, status: string)
    requires status !in TemplatedStatuses
    ensures StatusMessage(orderId, status) == "Your order " + orderId + " status: " + status
  {
  }

  /** `pending` is such a status. */
  lemma PendingFallsBack(orderId: string)
    ensures StatusMessage(orderId, "pending") == "Your order " + orderId + " status: pending"
  {
    UntemplatedFallsBack(orderId, "pending");
  }

  /** No status's own message starts like the generic one. */
  lemma TemplateNotGeneric(status: string)
    requires Template(status).Some?
    ensures |Tail(status)| > 1 && Tail(status)[1] != 's'
  {
    assert VerifiedText[1] == 'h';
    assert AssignedText[1] == 'h';
    assert PickedUpText[1] == 'h';
    assert DeliveredText[1] == 'h';
    assert ProcessingText[1] == 'i';
    assert RejectedText[1] == 'c';
  }

  /** Different statuses have different tails: the six messages differ in
      length, and none starts like the generic one. */
  lemma TailInjective(s1: string, s2: string)
    requires Tail(s1) == Tail(s2)
    ensures s1 == s2
  {
    if Template(s1).None? && Template(s2).None? {
      assert s1 == Tail(s1)[9..] && s2 == Tail(s2)[9..];
    } else if Template(s1).None? {
      assert Tail(s1)[1] == 's';
      TemplateNotGeneric(s2);
    } else if Template(s2).None? {
      assert Tail(s2)[1] == 's';
      TemplateNotGeneric(s1);
    }
  }

  /** A message names exactly one status: different statuses of the same
      order give different messages. */
  lemma StatusMessageInjective(orderId: string, s1: string, s2: string)
    requires StatusMessage(orderId, s1) == StatusMessage(orderId, s2)
    ensures s1 == s2
  {
    var n := |Greeting| + |orderId|;
    assert Tail(s1) == StatusMessage(orderId, s1)[n..];
    assert Tail(s2) == StatusMessage(orderId, s2)[n..];
    TailInjective(s1, s2);
  }
}
