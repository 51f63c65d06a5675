/**
 * The conversation table: one row per turn, kept in insertion (primary-key) order.
 * Queries over the table are filters, and the table's default ordering, newest first
 * by timestamp, is a stable sort of a filtered sequence.
 */
module Turns {
  import opened Wrappers

  const ASSISTANT_ROLE := "assistant"

  /** One stored row. Timestamps are abstract integers; the float elapsed time is a real. */
  datatype Turn = Turn(
    id: nat,
    role: string,
    content: string,
    modelName: Option<string>,
    tokenUsage: Option<int>,
    elapsedTime: Option<real>,
    timestamp: int,
    username: string,
    conversationId: string)

  /** A query condition over rows. */
  type Condition = Turn -> bool

  function Not(p: Condition): Condition {
    (t: Turn) => !p(t)
  }

  /** The rows owned by one user. */
  function OwnedBy(username: string): Condition {
    (t: Turn) => t.username == username
  }

  /** The rows of one conversation owned by one user. */
  function InConversationOf(conversationId: string, username: string): Condition {
    (t: Turn) => t.conversationId == conversationId && t.username == username
  }

  /** The assistant rows of one conversation, whoever owns them. */
  function AssistantIn(conversationId: string): Condition {
    (t: Turn) => t.conversationId == conversationId && t.role == ASSISTANT_ROLE
  }

  /** The rows that satisfy p, in table order. */
  function Filter(s: seq<Turn>, p: Condition): (r: seq<Turn>)
    ensures |r| <= |s|
    ensures forall t :: t in r <==> t in s && p(t)
    ensures multiset(r) <= multiset(s)
  {
    if s == [] then []
    else
      assert s == [s[0]] + s[1..];
      (if p(s[0]) then [s[0]] else []) + Filter(s[1..], p)
  }

  /** Every row satisfies p or its negation: the two filters split the table. */
  lemma {:induction false} FilterPartition(s: seq<Turn>, p: Condition)
    ensures multiset(Filter(s, p)) + multiset(Filter(s, Not(p))) == multiset(s)
    ensures |Filter(s, p)| + |Filter(s, Not(p))| == |s|
  {
    if s != [] {
      assert s == [s[0]] + s[1..];
      FilterPartition(s[1..], p);
    }
  }

  /** Filtering twice is filtering by both conditions; a second filter never adds rows. */
  lemma {:induction false} FilterOfFilter(s: seq<Turn>, p: Condition, q: Condition)
    ensures |Filter(Filter(s, p), q)| <= |Filter(s, q)|
    ensures (exists t :: t in s && q(t) && !p(t)) ==> |Filter(Filter(s, p), q)| < |Filter(s, q)|
  {
    if s != [] {
      var x, rest := s[0], s[1..];
      FilterOfFilter(rest, p, q);
      var kept := Filter(rest, p);
      if p(x) {
        assert Filter(s, p) == [x] + kept;
        assert ([x] + kept)[1..] == kept;
        assert |Filter(Filter(s, p), q)| == |Filter([x] + kept, q)|;
      } else {
        assert Filter(s, p) == kept;
      }
      if exists t :: t in s && q(t) && !p(t) {
        var t :| t in s && q(t) && !p(t);
        if t != x {
          assert t in rest;
        }
      }
    }
  }

  /** Newest first by timestamp: the table's default ordering. */
  ghost predicate NewestFirst(s: seq<Turn>) {
    forall i, j :: 0 <= i < j < |s| ==> s[i].timestamp >= s[j].timestamp
  }

  /** Every row of a rearrangement of the tail plus an older row is no newer than the head. */
  lemma HeadBoundsRest(x: Turn, s: seq<Turn>, rest: seq<Turn>)
    requires NewestFirst(s) && s != [] && x.timestamp < s[0].timestamp
    requires multiset(rest) == multiset(s[1..]) + multiset{x}
    ensures forall k :: 0 <= k < |rest| ==> s[0].timestamp >= rest[k].timestamp
  {
    forall k | 0 <= k < |rest|
      ensures s[0].timestamp >= rest[k].timestamp
    {
      assert rest[k] in multiset(rest);
      if rest[k] != x {
        assert rest[k] in multiset(s[1..]);
        var j :| 0 <= j < |s[1..]| && s[1..][j] == rest[k];
        assert s[j + 1] == rest[k];
      }
    }
  }

  /** A row no older than any row of a newest-first sequence can go in front of it. */
  lemma PrependNewest(h: Turn, rest: seq<Turn>)
    requires NewestFirst(rest)
    requires forall k :: 0 <= k < |rest| ==> h.timestamp >= rest[k].timestamp
    ensures NewestFirst([h] + rest)
  {
    var r := [h] + rest;
    forall i, j | 0 <= i < j < |r| ensures r[i].timestamp >= r[j].timestamp {
      assert r[j] == rest[j - 1];
      if i > 0 {
        assert r[i] == rest[i - 1];
      }
    }
  }

  /** Places x before the first row no newer than it. */
  function Insert(x: Turn, s: seq<Turn>): (r: seq<Turn>)
    requires NewestFirst(s)
    ensures NewestFirst(r)
    ensures multiset(r) == multiset(s) + multiset{x}
    ensures |r| == |s| + 1
  {
    if s == [] || x.timestamp >= s[0].timestamp then
      PrependNewest(x, s);
      [x] + s
    else
      var rest := Insert(x, s[1..]);
      assert s == [s[0]] + s[1..];
      HeadBoundsRest(x, s, rest);
      PrependNewest(s[0], rest);
      [s[0]] + rest
  }

  /** The rows of s ordered newest first; rows with equal timestamps keep table order. */
  function SortNewestFirst(s: seq<Turn>): (r: seq<Turn>)
    ensures NewestFirst(r)
    ensures multiset(r) == multiset(s)
    ensures |r| == |s|
  {
    if s == [] then []
    else
      assert s == [s[0]] + s[1..];
      Insert(s[0], SortNewestFirst(s[1..]))
  }

  /** The head of a newest-first sequence is at least as new as every row in it. */
  lemma HeadIsNewest(s: seq<Turn>)
    requires NewestFirst(s) && s != []
    ensures forall t :: t in s ==> t.timestamp <= s[0].timestamp
  {
  }

  /**
   * The first row under the default ordering (Django's `.first()`), or None for an
   * empty table.
   */
  function Newest(s: seq<Turn>): (r: Option<Turn>)
    ensures r.None? <==> s == []
    ensures r.Some? ==> r.value in s
    ensures r.Some? ==> forall t :: t in s ==> t.timestamp <= r.value.timestamp
  {
    if s == [] then None
    else
      var sorted := SortNewestFirst(s);
      HeadIsNewest(sorted);
      assert sorted[0] in multiset(s);
      assert forall t :: t in s ==> t in multiset(sorted);
      Some(sorted[0])
  }
}
