/** The template filter that finds the assistant's reply for a conversation. */
module ConversationFilters {
  import opened Wrappers
  import opened Turns

  /**
   * The newest assistant row of the conversation, whoever owns it, or None when the
   * conversation has no assistant row. It only reads the table.
   */
  function AssistantForConversation(store: seq<Turn>, conversationId: string): (r: Option<Turn>)
    ensures r.None? <==> forall t :: t in store ==> !(t.conversationId == conversationId && t.role == ASSISTANT_ROLE)
    ensures r.Some? ==> r.value in store && r.value.role == ASSISTANT_ROLE && r.value.conversationId == conversationId
    ensures r.Some? ==> forall t :: t in store && t.conversationId == conversationId && t.role == ASSISTANT_ROLE ==>
      t.timestamp <= r.value.timestamp
  {
    var replies := Filter(store, AssistantIn(conversationId));
    var r := Newest(replies);
    assert forall t :: t in replies <==> t in store && t.conversationId == conversationId && t.role == ASSISTANT_ROLE;
    r
  }
}
