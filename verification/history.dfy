/**
 * The history query of the chat server: the stored messages exchanged by a
 * pair of users, in either direction, ordered by `createdAt` ascending and
 * limited to 50 rows.
 */
module History {
  import opened Schema

  /** The page size of a history query. */
  const HistoryLimit: nat := 50

  /** The message was sent by one of the two users to the other. */
  predicate InConversation(m: ChatMessage, a: string, b: string)
  {
    (m.senderId == a && m.receiverId == b) || (m.senderId == b && m.receiverId == a)
  }

  /** The rows the query's `where` clause selects, in table order. */
  function Conversation(log: seq<ChatMessage>, a: string, b: string): (r: seq<ChatMessage>)
    ensures forall m :: multiset(r)[m] == if InConversation(m, a, b) then multiset(log)[m] else 0
  {
    if log == [] then []
    else
      var init, last := log[..|log| - 1], log[|log| - 1];
      assert log == init + [last];
      Conversation(init, a, b) + if InConversation(last, a, b) then [last] else []
  }

  predicate SortedByTime(s: seq<ChatMessage>)
  {
    forall i, j :: 0 <= i < j < |s| ==> s[i].createdAt <= s[j].createdAt
  }

  /** A time-sorted sequence stays sorted with an element in front that is not later than its head. */
  lemma SortedCons(h: ChatMessage, t: seq<ChatMessage>)
    requires SortedByTime(t)
    requires t == [] || h.createdAt <= t[0].createdAt
    ensures SortedByTime([h] + t)
  {
    var r := [h] + t;
    forall i, j | 0 <= i < j < |r|
      ensures r[i].createdAt <= r[j].createdAt
    {
      if i == 0 {
        assert r[j] == t[j - 1];
      } else {
        assert r[i] == t[i - 1] && r[j] == t[j - 1];
      }
    }
  }

  /** Places `x` after every element that is not later than it. */
  function InsertByTime(x: ChatMessage, s: seq<ChatMessage>): (r: seq<ChatMessage>)
    requires SortedByTime(s)
    ensures SortedByTime(r)
    ensures multiset(r) == multiset(s) + multiset{x}
    ensures |r| == |s| + 1 && r[0] == if s != [] && s[0].createdAt <= x.createdAt then s[0] else x
  {
    if s == [] then [x]
    else if x.createdAt < s[0].createdAt then
      SortedCons(x, s);
      [x] + s
    else
      assert s == [s[0]] + s[1..];
      assert SortedByTime(s[1..]);
      var rest := InsertByTime(x, s[1..]);
      SortedCons(s[0], rest);
      [s[0]] + rest
  }

  /**
   * `orderBy(createdAt)`: the selected rows sorted by their creation time.
   * The database leaves the order of equal times open; this sort keeps them
   * in selection order, which is one of the orders it may return.
   */
  function SortByTime(s: seq<ChatMessage>): (r: seq<ChatMessage>)
    ensures SortedByTime(r)
    ensures multiset(r) == multiset(s)
  {
    if s == [] then []
    else
      assert s == s[..|s| - 1] + [s[|s| - 1]];
      InsertByTime(s[|s| - 1], SortByTime(s[..|s| - 1]))
  }

  /** `limit(n)`: the first `n` rows. */
  function Take(s: seq<ChatMessage>, n: nat): (r: seq<ChatMessage>)
    ensures |r| == if |s| <= n then |s| else n
    ensures r == s[..|r|]
  {
    if |s| <= n then s else s[..n]
  }

  /** The rows `get_message_history` emits for the pair `(a, b)`. */
  function MessageHistory(log: seq<ChatMessage>, a: string, b: string): (r: seq<ChatMessage>)
    ensures |r| <= HistoryLimit
    ensures SortedByTime(r)
    ensures forall m :: m in r ==> m in log && InConversation(m, a, b)
  {
    var sorted := SortByTime(Conversation(log, a, b));
    var r := Take(sorted, HistoryLimit);
    assert forall m :: m in r ==> m in multiset(sorted);
    r
  }

  /** The history holds min(n, 50) of the pair's n messages, each at most as often as stored. */
  lemma HistorySize(log: seq<ChatMessage>, a: string, b: string)
    ensures var n := |Conversation(log, a, b)|;
            |MessageHistory(log, a, b)| == if n <= HistoryLimit then n else HistoryLimit
    ensures multiset(MessageHistory(log, a, b)) <= multiset(Conversation(log, a, b))
  {
    var sorted := SortByTime(Conversation(log, a, b));
    var h := MessageHistory(log, a, b);
    assert |sorted| == |Conversation(log, a, b)| by {
      assert |multiset(sorted)| == |sorted|;
    }
    assert sorted == h + sorted[|h|..];
    assert multiset(sorted) == multiset(h) + multiset(sorted[|h|..]);
  }

  /**
   * The history is the EARLIEST window of the conversation: a message of the
   * pair left out of it is no earlier than any message in it.
   */
  lemma HistoryIsEarliest(log: seq<ChatMessage>, a: string, b: string, m: ChatMessage, i: nat)
    requires i < |MessageHistory(log, a, b)|
    requires multiset(MessageHistory(log, a, b))[m] < multiset(Conversation(log, a, b))[m]
    ensures MessageHistory(log, a, b)[i].createdAt <= m.createdAt
  {
    var sorted := SortByTime(Conversation(log, a, b));
    var h := MessageHistory(log, a, b);
    assert h == sorted[..|h|];
    TakenNoLaterThanRest(sorted, |h|, m, i);
  }

  /** In a time-sorted sequence, an element of a prefix is no later than an element left out of it. */
  lemma TakenNoLaterThanRest(sorted: seq<ChatMessage>, n: nat, m: ChatMessage, i: nat)
    requires SortedByTime(sorted)
    requires i < n <= |sorted|
    requires multiset(sorted[..n])[m] < multiset(sorted)[m]
    ensures sorted[i].createdAt <= m.createdAt
  {
    var rest := sorted[n..];
    assert sorted == sorted[..n] + rest;
    assert multiset(sorted) == multiset(sorted[..n]) + multiset(rest);
    assert m in multiset(rest);
    var k :| 0 <= k < |rest| && rest[k] == m;
    assert sorted[n + k] == m;
  }

  /** In a time-sorted sequence, a proper prefix misses a unique strictly latest element. */
  lemma PrefixMissesLatest(sorted: seq<ChatMessage>, n: nat, m: ChatMessage)
    requires SortedByTime(sorted)
    requires n < |sorted|
    requires multiset(sorted)[m] == 1
    requires forall y :: y in sorted && y != m ==> y.createdAt < m.createdAt
    ensures m !in sorted[..n]
  {
    var last := sorted[|sorted| - 1];
    var p :| 0 <= p < |sorted| && sorted[p] == m;
    assert m.createdAt <= last.createdAt by {
      if p < |sorted| - 1 {
        assert sorted[p].createdAt <= sorted[|sorted| - 1].createdAt;
      }
    }
    assert last in sorted;
    assert last == m;
    var h, rest := sorted[..n], sorted[n..];
    assert rest[|rest| - 1] == m;
    assert multiset(rest)[m] >= 1;
    assert sorted == h + rest;
    assert multiset(sorted) == multiset(h) + multiset(rest);
    assert multiset(h)[m] == 0;
  }

  /**
   * When the pair has exchanged more than 50 messages, the strictly newest
   * one is not in the history: the query returns the oldest page.
   */
  lemma HistoryOmitsNewest(log: seq<ChatMessage>, a: string, b: string, m: ChatMessage)
    requires |Conversation(log, a, b)| > HistoryLimit
    requires multiset(Conversation(log, a, b))[m] == 1
    requires forall y :: y in Conversation(log, a, b) && y != m ==> y.createdAt < m.createdAt
    ensures m !in MessageHistory(log, a, b)
  {
    var conv := Conversation(log, a, b);
    var sorted := SortByTime(conv);
    assert |sorted| == |conv| by {
      assert |multiset(sorted)| == |sorted|;
    }
    forall y | y in sorted && y != m
      ensures y.createdAt < m.createdAt
    {
      assert multiset(sorted)[y] > 0;
      assert y in conv;
    }
    PrefixMissesLatest(sorted, HistoryLimit, m);
    assert sorted[..HistoryLimit] == MessageHistory(log, a, b);
  }

  lemma {:induction false} ConversationSymmetric(log: seq<ChatMessage>, a: string, b: string)
    ensures Conversation(log, a, b) == Conversation(log, b, a)
  {
    if log != [] {
      ConversationSymmetric(log[..|log| - 1], a, b);
    }
  }

  /** Either participant asking gets the same history. */
  lemma HistorySymmetric(log: seq<ChatMessage>, a: string, b: string)
    ensures MessageHistory(log, a, b) == MessageHistory(log, b, a)
  {
    ConversationSymmetric(log, a, b);
  }

  /** A message appended to the log between other users leaves the pair's history unchanged. */
  lemma HistoryIgnoresOtherPairs(log: seq<ChatMessage>, a: string, b: string, m: ChatMessage)
    requires !InConversation(m, a, b)
    ensures MessageHistory(log + [m], a, b) == MessageHistory(log, a, b)
  {
    assert (log + [m])[..|log + [m]| - 1] == log;
    assert Conversation(log + [m], a, b) == Conversation(log, a, b);
  }
}
