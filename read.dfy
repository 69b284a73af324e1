/** Marking a conversation's agent messages as read by the customer. */
module ReadReceipts {
  import opened WidgetTypes

  /** The update's filter: an agent message of the conversation not yet read by the customer. */
  predicate AwaitingCustomerRead(m: Message, conversationId: Id)
  {
    m.conversationId == conversationId && m.userId.Some? && !m.isCustomerRead
  }

  /** The filtered update over the message collection. */
  function MarkCustomerRead(msgs: map<Id, Message>, conversationId: Id): (r: map<Id, Message>)
    ensures r.Keys == msgs.Keys
    ensures forall k :: k in msgs && msgs[k].conversationId == conversationId && msgs[k].userId.Some? ==> r[k].isCustomerRead
    ensures forall k :: k in msgs && !AwaitingCustomerRead(msgs[k], conversationId) ==> r[k] == msgs[k]
    ensures forall k :: k in msgs ==> r[k].(isCustomerRead := msgs[k].isCustomerRead) == msgs[k]
  {
    map k | k in msgs :: if AwaitingCustomerRead(msgs[k], conversationId) then msgs[k].(isCustomerRead := true) else msgs[k]
  }

  /** Marking twice is marking once. */
  lemma MarkCustomerReadIdempotent(msgs: map<Id, Message>, conversationId: Id)
    ensures MarkCustomerRead(MarkCustomerRead(msgs, conversationId), conversationId) == MarkCustomerRead(msgs, conversationId)
  {
  }

  /** Afterwards no message of the conversation written by an agent is unread by the customer. */
  lemma MarkCustomerReadLeavesNoneAwaiting(msgs: map<Id, Message>, conversationId: Id)
    ensures var r := MarkCustomerRead(msgs, conversationId);
      forall k :: k in r ==> !AwaitingCustomerRead(r[k], conversationId)
  {
  }
}
