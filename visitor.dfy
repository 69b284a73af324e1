/**
 * Rules behind an inbound visitor message: the conversation preview, the
 * reopening of the conversation, and the per-customer joined/left flag
 * whose left-to-joined edge announces the customer as connected.
 */
module VisitorMessages {
  import opened Wrappers
  import opened WidgetTypes

  /** The number of characters of a message kept as its conversation's preview. */
  const PreviewLength: nat := 100

  /** The status a customer has when the cache holds nothing for it. */
  const DefaultStatus := "left"

  /** The first at most 100 characters of the (stripped) message. */
  function Preview(s: string): (r: string)
    ensures |r| <= PreviewLength
    ensures r <= s
    ensures |s| <= PreviewLength ==> r == s
    ensures |s| > PreviewLength ==> |r| == PreviewLength
  {
    if |s| <= PreviewLength then s else s[..PreviewLength]
  }

  lemma PreviewIdempotent(s: string)
    ensures Preview(Preview(s)) == Preview(s)
  {
  }

  /** A conversation after a customer message: open, unread by every agent, previewing `content`. */
  function Reopen(c: Conversation, content: string): Conversation
  {
    c.(status := Open, readUserIds := [], content := content)
  }

  /** The conversation created for a message that names none. */
  function StartConversation(integrationId: Id, customerId: Id, content: string): Conversation
  {
    Conversation(integrationId, customerId, content, New, [], None)
  }

  /** Whatever its prior status and readers, a reopened conversation is open and unread. */
  lemma ReopenForgetsPriorState(c: Conversation, content: string, status: ConversationStatus, readers: seq<Id>)
    ensures var r := Reopen(c, content);
      && r.status == Open && r.readUserIds == [] && r.content == content
      && r.integrationId == c.integrationId && r.customerId == c.customerId
      && r.assignedUserId == c.assignedUserId
      && Reopen(c.(status := status, readUserIds := readers), content) == r
  {
  }

  /** The cached session status of a customer, "left" when nothing is cached. */
  function LastStatus(statuses: map<Id, string>, customerId: Id): string
  {
    if customerId in statuses then statuses[customerId] else DefaultStatus
  }

  /** The flag afterwards, and whether the "connected" notification fires. */
  datatype Arrival = Arrival(statuses: map<Id, string>, connected: bool)

  /** A customer message arrives: only a "left" customer is flipped to "joined" and announced. */
  function Arrive(statuses: map<Id, string>, customerId: Id): (r: Arrival)
    ensures r.connected <==> LastStatus(statuses, customerId) == "left"
    ensures LastStatus(r.statuses, customerId) != "left"
    ensures r.connected ==> LastStatus(r.statuses, customerId) == "joined"
    ensures !r.connected ==> r.statuses == statuses
    ensures forall d :: d != customerId ==> LastStatus(r.statuses, d) == LastStatus(statuses, d)
  {
    if LastStatus(statuses, customerId) == "left" then Arrival(statuses[customerId := "joined"], true)
    else Arrival(statuses, false)
  }

  /** A later message while the customer is still joined announces nothing. */
  lemma SecondArrivalIsSilent(statuses: map<Id, string>, customerId: Id)
    ensures var first := Arrive(statuses, customerId);
      !Arrive(first.statuses, customerId).connected &&
      Arrive(first.statuses, customerId).statuses == first.statuses
  {
  }

  /** One message-inserted notification per message the status change returned, in order. */
  function Republished(ids: seq<Id>): (r: seq<Event>)
    ensures |r| == |ids|
    ensures forall i :: 0 <= i < |ids| ==> r[i] == MessageInserted(ids[i])
  {
    if ids == [] then [] else Republished(ids[..|ids| - 1]) + [MessageInserted(ids[|ids| - 1])]
  }

  /** Everything an inserted message publishes, in publication order. */
  function InsertEvents(messageId: Id, conversationArg: Option<Id>, customerId: Id,
                        connected: bool, statusChangeMessages: seq<Id>): seq<Event>
  {
    [ClientMessageInserted(messageId), MessageInserted(messageId), ClientTypingStatusChanged(conversationArg, "")]
    + (if connected then Republished(statusChangeMessages) + [CustomerConnectionChanged(customerId, "connected")] else [])
  }

  /** The connection notification is published exactly when the customer had left. */
  lemma ConnectionEventOnlyOnEdge(statuses: map<Id, string>, messageId: Id, conversationArg: Option<Id>,
                                  customerId: Id, statusChangeMessages: seq<Id>)
    ensures var a := Arrive(statuses, customerId);
      var es := InsertEvents(messageId, conversationArg, customerId, a.connected, statusChangeMessages);
      (CustomerConnectionChanged(customerId, "connected") in es) <==> LastStatus(statuses, customerId) == "left"
  {
  }
}
