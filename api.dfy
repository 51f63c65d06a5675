/**
 * The REST endpoints over the conversation table and the per-user statistics cache:
 * health check, conversation statistics and conversation deletion. Each endpoint
 * returns an HTTP status with a JSON payload; the table is a sequence of rows and the
 * cache a map from user id to the statistics record stored for that user.
 */
module Api {
  import opened Wrappers
  import opened Turns
  import Decimal
  import opened HttpStatus

  /** How many rows the statistics list, and how much of each row's content. */
  const RECENT_LIMIT: nat := 5
  const PREVIEW_LENGTH: nat := 100
  const ELLIPSIS := "..."

  /** The requesting user: anonymous, or authenticated with a numeric id and a username. */
  datatype Caller = Anonymous | Authenticated(id: nat, username: string)

  /** One entry of the recent-activity list. */
  datatype RecentEntry = RecentEntry(
    id: nat,
    role: string,
    content: string,
    timestamp: int,
    modelName: Option<string>)

  /** The statistics payload, which is also what the cache stores. */
  datatype StatsData = StatsData(
    user: string,
    totalConversations: nat,
    recentConversations: seq<RecentEntry>,
    cached: bool)

  datatype Body =
    | Healthy(timestamp: int, totalConversations: nat, latestConversationDate: Option<int>)
    | Unhealthy(error: string, timestamp: int)
    | Stats(data: StatsData)
    | Deleted(message: string, conversationId: string)
    | Failed(error: string)

  datatype Response = Response(status: nat, body: Body)

  const AUTHENTICATION_REQUIRED := Response(HTTP_401_UNAUTHORIZED, Failed("Authentication required"))
  const CONVERSATION_NOT_FOUND :=
    Response(HTTP_404_NOT_FOUND, Failed("Conversation not found or access denied"))

  function Min(a: nat, b: nat): nat {
    if a <= b then a else b
  }

  /**
   * Content shown in the recent list: unchanged up to 100 characters, otherwise its
   * first 100 characters followed by an ellipsis.
   */
  function Preview(content: string): (r: string)
    ensures |r| <= PREVIEW_LENGTH + |ELLIPSIS|
    ensures |content| <= PREVIEW_LENGTH ==> r == content
    ensures |content| > PREVIEW_LENGTH ==>
      |r| == PREVIEW_LENGTH + |ELLIPSIS| && r[..PREVIEW_LENGTH] == content[..PREVIEW_LENGTH] && r[PREVIEW_LENGTH..] == ELLIPSIS
  {
    if |content| > PREVIEW_LENGTH then content[..PREVIEW_LENGTH] + ELLIPSIS else content
  }

  /** The caller's rows, newest first, cut to the first five. */
  function RecentTurns(store: seq<Turn>, username: string): seq<Turn> {
    var sorted := SortNewestFirst(Filter(store, OwnedBy(username)));
    sorted[..Min(RECENT_LIMIT, |sorted|)]
  }

  /** A prefix of a newest-first sequence is newest first and no row after it is newer. */
  lemma PrefixOfNewestFirst(s: seq<Turn>, k: nat)
    requires NewestFirst(s) && k <= |s|
    ensures NewestFirst(s[..k])
    ensures multiset(s[..k]) <= multiset(s)
    ensures forall i, u: Turn :: 0 <= i < k && u in multiset(s) - multiset(s[..k]) ==>
      u.timestamp <= s[i].timestamp
  {
    assert s == s[..k] + s[k..];
    assert multiset(s) == multiset(s[..k]) + multiset(s[k..]);
    forall i, u: Turn | 0 <= i < k && u in multiset(s) - multiset(s[..k])
      ensures u.timestamp <= s[i].timestamp
    {
      assert u in multiset(s[k..]);
      var j :| 0 <= j < |s[k..]| && s[k..][j] == u;
      assert s[k + j] == u;
    }
  }

  lemma RecentTurnsAreOwned(store: seq<Turn>, username: string)
    ensures forall t :: t in RecentTurns(store, username) ==> t in store && t.username == username
  {
    var owned := Filter(store, OwnedBy(username));
    var sorted := SortNewestFirst(owned);
    var k := Min(RECENT_LIMIT, |sorted|);
    assert RecentTurns(store, username) == sorted[..k];
    PrefixOfNewestFirst(sorted, k);
    forall t | t in sorted[..k] ensures t in store && t.username == username {
      assert t in multiset(sorted[..k]);
      assert t in multiset(owned);
    }
  }

  lemma RecentTurnsArePrefix(store: seq<Turn>, username: string)
    ensures NewestFirst(RecentTurns(store, username))
    ensures multiset(RecentTurns(store, username)) <= multiset(Filter(store, OwnedBy(username)))
    ensures forall i, u: Turn ::
      0 <= i < |RecentTurns(store, username)| &&
      u in multiset(Filter(store, OwnedBy(username))) - multiset(RecentTurns(store, username)) ==>
        u.timestamp <= RecentTurns(store, username)[i].timestamp
  {
    var owned := Filter(store, OwnedBy(username));
    var sorted := SortNewestFirst(owned);
    var k := Min(RECENT_LIMIT, |sorted|);
    assert RecentTurns(store, username) == sorted[..k];
    PrefixOfNewestFirst(sorted, k);
  }

  /**
   * The recent list holds min(5, total) of the caller's rows, newest first, and no row
   * of the caller's left out of it is newer than any row in it.
   */
  lemma RecentTurnsAreNewest(store: seq<Turn>, username: string)
    ensures |RecentTurns(store, username)| == Min(RECENT_LIMIT, |Filter(store, OwnedBy(username))|)
    ensures NewestFirst(RecentTurns(store, username))
    ensures multiset(RecentTurns(store, username)) <= multiset(Filter(store, OwnedBy(username)))
    ensures forall t :: t in RecentTurns(store, username) ==> t in store && t.username == username
    ensures forall i, u: Turn ::
      0 <= i < |RecentTurns(store, username)| &&
      u in multiset(Filter(store, OwnedBy(username))) - multiset(RecentTurns(store, username)) ==>
        u.timestamp <= RecentTurns(store, username)[i].timestamp
  {
    RecentTurnsAreOwned(store, username);
    RecentTurnsArePrefix(store, username);
  }

  /**
   * One row as the recent list shows it: the row's own fields, with content of more
   * than 100 characters cut to its first 100 and an ellipsis.
   */
  function Entry(t: Turn): (e: RecentEntry)
    ensures e.id == t.id && e.role == t.role && e.timestamp == t.timestamp && e.modelName == t.modelName
    ensures |e.content| <= PREVIEW_LENGTH + |ELLIPSIS|
    ensures |t.content| <= PREVIEW_LENGTH ==> e.content == t.content
    ensures |t.content| > PREVIEW_LENGTH ==> e.content == t.content[..PREVIEW_LENGTH] + ELLIPSIS
  {
    RecentEntry(t.id, t.role, Preview(t.content), t.timestamp, t.modelName)
  }

  /** The payload entries for rows, one per row, in the same order. */
  function Entries(rows: seq<Turn>): (r: seq<RecentEntry>)
    ensures |r| == |rows|
    ensures forall i :: 0 <= i < |rows| ==> r[i] == Entry(rows[i])
  {
    seq(|rows|, i requires 0 <= i < |rows| => Entry(rows[i]))
  }

  /** The statistics computed from the table on a cache miss. */
  function ComputeStats(store: seq<Turn>, username: string): StatsData {
    StatsData(
      username,
      |Filter(store, OwnedBy(username))|,
      Entries(RecentTurns(store, username)),
      false)
  }

  lemma StatsEntriesComeFromOwnRows(store: seq<Turn>, username: string)
    ensures forall e :: e in ComputeStats(store, username).recentConversations ==>
      exists t :: t in store && t.username == username && Entry(t) == e
  {
    var recent := RecentTurns(store, username);
    var entries := Entries(recent);
    RecentTurnsAreOwned(store, username);
    forall e | e in entries
      ensures exists t :: t in store && t.username == username && Entry(t) == e
    {
      var i :| 0 <= i < |entries| && entries[i] == e;
      assert recent[i] in recent;
    }
  }

  lemma StatsEntriesAreNewestFirst(store: seq<Turn>, username: string)
    ensures var entries := ComputeStats(store, username).recentConversations;
      forall i, j :: 0 <= i < j < |entries| ==> entries[i].timestamp >= entries[j].timestamp
  {
    RecentTurnsArePrefix(store, username);
  }

  /**
   * A freshly computed record counts exactly the caller's rows, lists min(5, total)
   * entries newest first, each one a row of the caller's with its content cut to at
   * most 103 characters, and is marked as not cached.
   */
  lemma ComputeStatsMeaning(store: seq<Turn>, username: string)
    ensures ComputeStats(store, username).user == username
    ensures ComputeStats(store, username).totalConversations == |Filter(store, OwnedBy(username))|
    ensures |ComputeStats(store, username).recentConversations| ==
      Min(RECENT_LIMIT, ComputeStats(store, username).totalConversations)
    ensures !ComputeStats(store, username).cached
    ensures var entries := ComputeStats(store, username).recentConversations;
      forall i, j :: 0 <= i < j < |entries| ==> entries[i].timestamp >= entries[j].timestamp
    ensures forall e :: e in ComputeStats(store, username).recentConversations ==>
      |e.content| <= PREVIEW_LENGTH + |ELLIPSIS|
    ensures forall e :: e in ComputeStats(store, username).recentConversations ==>
      exists t :: t in store && t.username == username && Entry(t) == e
  {
    RecentTurnsAreNewest(store, username);
    StatsEntriesComeFromOwnRows(store, username);
    StatsEntriesAreNewestFirst(store, username);
  }

  /** The DELETE success message, with the count in decimal. */
  function DeletedMessage(count: nat): (m: string)
    ensures |m| >= 43
    ensures m[..21] == "Successfully deleted " && m[|m| - 21..] == " conversation entries"
    ensures forall i :: 21 <= i < |m| - 21 ==> Decimal.IsDigit(m[i])
    ensures Decimal.DigitsValue(m[21..|m| - 21]) == count
    ensures |m| == 43 || m[21] != '0'
  {
    var digits := Decimal.NatToString(count);
    var m := "Successfully deleted " + digits + " conversation entries";
    assert m[21..|m| - 21] == digits;
    Decimal.NatToStringRoundTrip(count);
    m
  }

  /**
   * Deleting the caller's rows of a conversation that has at least one of them leaves
   * the caller strictly fewer rows, and never more.
   */
  lemma DeleteShrinksTotal(store: seq<Turn>, conversationId: string, username: string)
    ensures var after := Filter(store, Not(InConversationOf(conversationId, username)));
      |Filter(after, OwnedBy(username))| <= |Filter(store, OwnedBy(username))|
    ensures var after := Filter(store, Not(InConversationOf(conversationId, username)));
      Filter(store, InConversationOf(conversationId, username)) != [] ==>
        |Filter(after, OwnedBy(username))| < |Filter(store, OwnedBy(username))|
  {
    var target := InConversationOf(conversationId, username);
    var matching := Filter(store, target);
    if matching != [] {
      var t := matching[0];
      assert t in store && OwnedBy(username)(t) && !Not(target)(t);
    }
    FilterOfFilter(store, Not(target), OwnedBy(username));
  }

  /** The application state: the conversation table and the statistics cache. */
  class Backend {
    var store: seq<Turn>
    var cache: map<nat, StatsData>

    constructor (rows: seq<Turn>)
      ensures store == rows && cache == map[]
    {
      store := rows;
      cache := map[];
    }

    /**
     * GET /api/health/. Reads the table only: the number of rows and the timestamp of
     * the first row under the default ordering, or 500 with the error text when the
     * database query fails.
     */
    method HealthCheck(now: int, databaseError: Option<string>) returns (r: Response)
      ensures databaseError.Some? ==>
        r == Response(HTTP_500_INTERNAL_SERVER_ERROR, Unhealthy(databaseError.value, now))
      ensures databaseError.None? ==> r.status == HTTP_200_OK && r.body.Healthy? && r.body.timestamp == now
      ensures databaseError.None? ==> r.body.totalConversations == |store|
      ensures databaseError.None? ==> (r.body.latestConversationDate.None? <==> store == [])
      ensures databaseError.None? && store != [] ==>
        (exists t :: t in store && r.body.latestConversationDate == Some(t.timestamp)) &&
        forall t :: t in store ==> t.timestamp <= r.body.latestConversationDate.value
    {
      if databaseError.Some? {
        return Response(HTTP_500_INTERNAL_SERVER_ERROR, Unhealthy(databaseError.value, now));
      }
      var total := |store|;
      var latest := Newest(store);
      var date := if latest.Some? then Some(latest.value.timestamp) else None;
      r := Response(HTTP_200_OK, Healthy(now, total, date));
    }

    /**
     * GET /api/conversations/stats/. Anonymous callers get 401. A cached record is
     * returned marked as cached, without touching the table or the cache; otherwise the
     * record is computed from the table, stored under the caller's id and returned.
     */
    method ConversationStats(caller: Caller) returns (r: Response)
      modifies this`cache
      ensures store == old(store)
      ensures caller.Anonymous? ==> r == AUTHENTICATION_REQUIRED && cache == old(cache)
      ensures caller.Authenticated? && caller.id in old(cache) ==>
        r == Response(HTTP_200_OK, Stats(old(cache)[caller.id].(cached := true))) &&
        cache == old(cache)
      ensures caller.Authenticated? && caller.id !in old(cache) ==>
        var data := ComputeStats(store, caller.username);
        r == Response(HTTP_200_OK, Stats(data)) && cache == old(cache)[caller.id := data]
    {
      if caller.Anonymous? {
        return AUTHENTICATION_REQUIRED;
      }
      if caller.id in cache {
        var hit := cache[caller.id];
        return Response(HTTP_200_OK, Stats(hit.(cached := true)));
      }
      var data := ComputeStats(store, caller.username);
      cache := cache[caller.id := data];
      r := Response(HTTP_200_OK, Stats(data));
    }

    /**
     * DELETE /api/conversations/{id}/. Anonymous callers get 401 and a conversation
     * with none of the caller's rows gets 404, both with nothing changed. Otherwise
     * exactly the caller's rows of that conversation are removed, the reported count is
     * how many, and only the caller's statistics entry leaves the cache.
     */
    method DeleteConversation(caller: Caller, conversationId: string) returns (r: Response)
      modifies this
      ensures caller.Anonymous? ==>
        r == AUTHENTICATION_REQUIRED && store == old(store) && cache == old(cache)
      ensures (caller.Authenticated? &&
               Filter(old(store), InConversationOf(conversationId, caller.username)) == []) ==>
        r == CONVERSATION_NOT_FOUND && store == old(store) && cache == old(cache)
      ensures (caller.Authenticated? &&
               Filter(old(store), InConversationOf(conversationId, caller.username)) != []) ==>
        var removed := Filter(old(store), InConversationOf(conversationId, caller.username));
        && store == Filter(old(store), Not(InConversationOf(conversationId, caller.username)))
        && |removed| == |old(store)| - |store|
        && multiset(store) + multiset(removed) == multiset(old(store))
        && r == Response(HTTP_200_OK, Deleted(DeletedMessage(|removed|), conversationId))
        && cache == old(cache) - {caller.id}
    {
      if caller.Anonymous? {
        return AUTHENTICATION_REQUIRED;
      }
      var target := InConversationOf(conversationId, caller.username);
      var conversations := Filter(store, target);
      if conversations == [] {
        return CONVERSATION_NOT_FOUND;
      }
      var count := |conversations|;
      FilterPartition(store, target);
      store := Filter(store, Not(target));
      cache := cache - {caller.id};
      r := Response(HTTP_200_OK, Deleted(DeletedMessage(count), conversationId));
    }

    /** The cache entry's timeout elapsing: the caller's record leaves the cache. */
    method ExpireStats(userId: nat)
      modifies this`cache
      ensures store == old(store) && cache == old(cache) - {userId}
    {
      cache := cache - {userId};
    }
  }
}
