/**
 * The "typing..." indicator: a counter advanced every 500 ms that picks one
 * of four dot patterns, from four dots down to one.
 */
module Typing {
  const Patterns: seq<string> := ["....", "...", "..", "."]

  /** The interval callback's update: the next pattern, wrapping after the last. */
  function Next(p: nat): (r: nat)
    ensures r < |Patterns|
    ensures p < |Patterns| - 1 ==> r == p + 1
    ensures p == |Patterns| - 1 ==> r == 0
  {
    (p + 1) % |Patterns|
  }

  /** The counter after `n` ticks from `p`. */
  function Ticks(p: nat, n: nat): nat
  {
    if n == 0 then p else Next(Ticks(p, n - 1))
  }

  /** After `n` ticks from a valid counter the pattern is `(p + n) mod 4`. */
  lemma {:induction false} TicksAdvance(p: nat, n: nat)
    requires p < |Patterns|
    ensures Ticks(p, n) == (p + n) % |Patterns|
  {
    if n > 0 {
      TicksAdvance(p, n - 1);
    }
  }

  /** Four ticks bring the counter back where it was, so the patterns cycle. */
  lemma FourTicksCycle(p: nat, k: nat)
    requires p < |Patterns|
    ensures Ticks(p, 4 * k) == p
  {
    TicksAdvance(p, 4 * k);
  }

  /** The text shown for pattern `p`: "typing" and then `4 - p` dots. */
  function Caption(p: nat): (r: string)
    requires p < |Patterns|
    ensures |r| == 6 + (4 - p) && r[..6] == "typing"
    ensures forall i :: 6 <= i < |r| ==> r[i] == '.'
  {
    "typing" + Patterns[p]
  }

  class TypingIndicator {
    var dotPattern: nat

    ghost predicate Valid()
      reads this
    {
      dotPattern < |Patterns|
    }

    constructor ()
      ensures Valid() && dotPattern == 0
    {
      dotPattern := 0;
    }

    /** One interval callback. */
    method Tick()
      requires Valid()
      modifies this
      ensures Valid() && dotPattern == Next(old(dotPattern))
    {
      dotPattern := (dotPattern + 1) % |Patterns|;
    }

    /** The paragraph's text. */
    function Text(): (r: string)
      requires Valid()
      reads this
      ensures |r| == 6 + (4 - dotPattern) && r[..6] == "typing"
      ensures forall i :: 6 <= i < |r| ==> r[i] == '.'
    {
      Caption(dotPattern)
    }
  }
}
