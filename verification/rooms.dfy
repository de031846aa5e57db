/**
 * The chat-room name shared by two users: the pair of ids sorted with
 * JavaScript's default string order and joined with an underscore
 * (`[senderId, receiverId].sort().join('_')`).
 */
module Rooms {

  /** The delimiter of `join('_')`. */
  const Delimiter: char := '_'

  /**
   * JavaScript's default `sort()` order on strings: lexicographic on
   * characters, a proper prefix before any longer string.
   */
  predicate LexLess(x: string, y: string)
    decreases |x|
  {
    if y == [] then false
    else if x == [] then true
    else if x[0] != y[0] then x[0] < y[0]
    else LexLess(x[1..], y[1..])
  }

  lemma {:induction false} LexAsymmetric(x: string, y: string)
    ensures LexLess(x, y) ==> !LexLess(y, x)
    decreases |x|
  {
    if x != [] && y != [] && x[0] == y[0] {
      LexAsymmetric(x[1..], y[1..]);
    }
  }

  lemma {:induction false} LexTotal(x: string, y: string)
    ensures x != y ==> LexLess(x, y) || LexLess(y, x)
    decreases |x|
  {
    if x != [] && y != [] && x[0] == y[0] {
      LexTotal(x[1..], y[1..]);
      if x[1..] == y[1..] {
        assert x == [x[0]] + x[1..] && y == [y[0]] + y[1..];
      }
    }
  }

  /** `[a, b].sort()`: the two ids reordered only when `b` sorts strictly before `a`. */
  function SortPair(a: string, b: string): (r: (string, string))
    ensures multiset{r.0, r.1} == multiset{a, b}
    ensures !LexLess(r.1, r.0)
  {
    if LexLess(b, a) then LexAsymmetric(b, a); (b, a) else (a, b)
  }

  /** The room both participants of a conversation join. */
  function RoomId(a: string, b: string): (r: string)
    ensures |r| == |a| + |b| + 1
  {
    var p := SortPair(a, b);
    p.0 + [Delimiter] + p.1
  }

  /** The room does not depend on which participant is the sender. */
  lemma RoomIdSymmetric(a: string, b: string)
    ensures RoomId(a, b) == RoomId(b, a)
  {
    LexTotal(a, b);
    LexAsymmetric(a, b);
  }

  /** The room name is the smaller id, the delimiter, then the larger id. */
  lemma RoomIdSmallerFirst(a: string, b: string)
    ensures exists lo, hi :: multiset{lo, hi} == multiset{a, b} && !LexLess(hi, lo)
                             && RoomId(a, b) == lo + [Delimiter] + hi
  {
    var p := SortPair(a, b);
    assert RoomId(a, b) == p.0 + [Delimiter] + p.1;
  }

  /** Splitting at the first delimiter recovers both halves of a joined name. */
  lemma {:induction false} JoinInjective(x: string, y: string, u: string, v: string)
    requires Delimiter !in x && Delimiter !in u
    requires x + [Delimiter] + y == u + [Delimiter] + v
    ensures x == u && y == v
  {
    var s := x + [Delimiter] + y;
    assert s[|x|] == Delimiter && s[|u|] == Delimiter;
    assert forall k :: 0 <= k < |x| ==> s[k] == x[k] != Delimiter;
    assert forall k :: 0 <= k < |u| ==> s[k] == u[k] != Delimiter;
    assert |x| == |u|;
    assert x == s[..|x|] == u;
    assert y == s[|x| + 1..] == v;
  }

  /** With delimiter-free ids, two pairs share a room exactly when they are the same unordered pair. */
  lemma RoomIdInjective(a: string, b: string, c: string, d: string)
    requires Delimiter !in a && Delimiter !in b && Delimiter !in c && Delimiter !in d
    ensures RoomId(a, b) == RoomId(c, d) <==> (a == c && b == d) || (a == d && b == c)
  {
    if RoomId(a, b) == RoomId(c, d) {
      var p, q := SortPair(a, b), SortPair(c, d);
      assert multiset{p.0, p.1} == multiset{a, b};
      assert multiset{q.0, q.1} == multiset{c, d};
      assert p.0 == a || p.0 == b;
      assert q.0 == c || q.0 == d;
      JoinInjective(p.0, p.1, q.0, q.1);
    }
    if a == d && b == c {
      RoomIdSymmetric(a, b);
    }
  }

  /** Ids that contain the delimiter can put two different conversations in one room. */
  lemma RoomIdCollision()
    ensures RoomId("a_b", "c") == RoomId("a", "b_c") == "a_b_c"
  {
    assert !LexLess("c", "a_b");
    assert !LexLess("b_c", "a");
  }
}
