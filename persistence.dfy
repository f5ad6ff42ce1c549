/**
 * The persistence tracker (module1.persistence): a hysteresis filter kept
 * across requests.
 *
 * backend/module1/persistence.py is not part of this model: the tracker is
 * defined here as assumed policy. It
 * counts consecutive non-`None` candidates and calls a deviation persistent
 * once that count reaches two; a `None` candidate resets the count.
 */
module Persistence {
  import opened DeviationLogic

  /** The number of candidates that turn a deviation persistent. */
  const PersistAfter: nat := 2

  /** The count after one more candidate. */
  function NextCount(count: nat, candidate: Signal): nat {
    if candidate == None then 0 else count + 1
  }

  /** The length of the run of non-`None` candidates at the end of `h`. */
  function TrailingRun(h: seq<Signal>): (n: nat)
    ensures n <= |h|
    ensures forall i :: |h| - n <= i < |h| ==> h[i] != None
    ensures n < |h| ==> h[|h| - n - 1] == None
  {
    if |h| == 0 then 0
    else if h[|h| - 1] == None then 0
    else TrailingRun(h[..|h| - 1]) + 1
  }

  /** The count is a fold of `NextCount` over the history of candidates. */
  lemma TrailingRunStep(h: seq<Signal>, c: Signal)
    ensures TrailingRun(h + [c]) == NextCount(TrailingRun(h), c)
  {
    assert (h + [c])[..|h|] == h;
  }

  class DeviationTracker {
    /** `consecutive_count` */
    var consecutiveCount: nat
    /** Every candidate passed to `Update`, oldest first. */
    ghost var candidates: seq<Signal>

    ghost predicate Valid()
      reads this
    {
      consecutiveCount == TrailingRun(candidates)
    }

    /** A fresh tracker, as created once when the module is loaded. */
    constructor ()
      ensures Valid() && candidates == [] && consecutiveCount == 0
    {
      consecutiveCount := 0;
      candidates := [];
    }

    /**
     * `update(candidate)`: a `None` candidate resets the count and is never
     * persistent; any other raises it, and is persistent from the second in
     * a row on.
     */
    method Update(candidate: Signal) returns (persistent: bool)
      requires Valid()
      modifies this
      ensures Valid()
      ensures candidates == old(candidates) + [candidate]
      ensures consecutiveCount == NextCount(old(consecutiveCount), candidate)
      ensures persistent <==> consecutiveCount >= PersistAfter
    {
      TrailingRunStep(candidates, candidate);
      if candidate == None {
        consecutiveCount := 0;
      } else {
        consecutiveCount := consecutiveCount + 1;
      }
      candidates := candidates + [candidate];
      persistent := consecutiveCount >= PersistAfter;
    }
  }

  /** What `Update` answers after the candidates `h` have been seen. */
  function PersistentAfter(h: seq<Signal>): bool {
    TrailingRun(h) >= PersistAfter
  }

  /**
   * A candidate is persistent exactly when it and the one before it are
   * both deviations: one isolated deviation is never reported as persistent.
   */
  lemma PersistentIffTwoInARow(h: seq<Signal>, c: Signal)
    ensures PersistentAfter(h + [c]) <==> c != None && |h| > 0 && h[|h| - 1] != None
  {
    TrailingRunStep(h, c);
    if |h| > 0 {
      assert h == h[..|h| - 1] + [h[|h| - 1]];
      TrailingRunStep(h[..|h| - 1], h[|h| - 1]);
    }
  }

  /** A `None` candidate is never persistent and clears the history's effect. */
  lemma {:induction false} NoneResets(h: seq<Signal>, rest: seq<Signal>)
    ensures TrailingRun(h + [None] + rest) == TrailingRun([None] + rest)
  {
    if rest != [] {
      var init, last := rest[..|rest| - 1], rest[|rest| - 1];
      assert rest == init + [last];
      assert h + [None] + rest == (h + [None] + init) + [last];
      assert [None] + rest == ([None] + init) + [last];
      NoneResets(h, init);
      TrailingRunStep(h + [None] + init, last);
      TrailingRunStep([None] + init, last);
    } else {
      TrailingRunStep(h, None);
      TrailingRunStep([], None);
    }
  }

  /** Mild, mild, none: not persistent, then persistent, then reset. */
  method DocumentedSequence() returns (first: bool, second: bool, third: bool)
    ensures !first && second && !third
  {
    var t := new DeviationTracker();
    first := t.Update(Mild);
    second := t.Update(Mild);
    third := t.Update(None);
  }
}
