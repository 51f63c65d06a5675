/**
 * Request sequences from two endpoint tests, proved from the Backend contracts and the
 * statistics and deletion lemmas of module Api.
 */
module ApiScenarios {
  import opened Turns
  import opened Api
  import opened HttpStatus

  /**
   * Two statistics requests in a row from a user with nothing cached: the first is
   * computed and not cached, the second is served from the cache, and both report
   * the same total, the number of the caller's rows.
   */
  method StatsTwice(b: Backend, caller: Caller) returns (first: Response, second: Response)
    requires caller.Authenticated? && caller.id !in b.cache
    modifies b
    ensures first.status == HTTP_200_OK && first.body.Stats? && !first.body.data.cached
    ensures second.status == HTTP_200_OK && second.body.Stats? && second.body.data.cached
    ensures first.body.data.totalConversations == second.body.data.totalConversations
    ensures first.body.data.totalConversations == |Filter(b.store, OwnedBy(caller.username))|
    ensures second.body.data == first.body.data.(cached := true)
  {
    first := b.ConversationStats(caller);
    ComputeStatsMeaning(b.store, caller.username);
    second := b.ConversationStats(caller);
  }

  /**
   * Statistics, then a successful delete of one of the caller's conversations, then
   * statistics again: the second request is a cache miss again and reports a strictly
   * smaller total.
   */
  method DeleteInvalidatesStats(b: Backend, caller: Caller, conversationId: string)
    returns (before: Response, deleted: Response, after: Response)
    requires caller.Authenticated? && caller.id !in b.cache
    requires Filter(b.store, InConversationOf(conversationId, caller.username)) != []
    modifies b
    ensures before.status == HTTP_200_OK && before.body.Stats? && !before.body.data.cached
    ensures deleted.status == HTTP_200_OK && deleted.body.Deleted?
    ensures deleted.body.conversationId == conversationId
    ensures after.status == HTTP_200_OK && after.body.Stats? && !after.body.data.cached
    ensures after.body.data.totalConversations < before.body.data.totalConversations
  {
    ghost var rows := b.store;
    before := b.ConversationStats(caller);
    ComputeStatsMeaning(rows, caller.username);
    deleted := b.DeleteConversation(caller, conversationId);
    DeleteShrinksTotal(rows, conversationId, caller.username);
    after := b.ConversationStats(caller);
    ComputeStatsMeaning(b.store, caller.username);
  }
}
