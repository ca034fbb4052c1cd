/**
 * The cursor `_Connection.retryNextHost` moves over the candidate nodes
 * (txmongo/__init__.py, lines 206-225): one step forward per retry, back to
 * the first node with a delayed retry when it runs off the end.
 */
module Failover {

  /** Where a retry goes, and whether it waits for the back-off delay. */
  datatype Step = Step(index: nat, delayed: bool)

  /** One retry over `count` candidates, from cursor `index`. */
  function Advance(index: int, count: nat): (s: Step)
    requires index >= -1 && count >= 1
    ensures s.index < count
    ensures s.delayed <==> index + 1 >= count
  {
    if index + 1 >= count then Step(0, true) else Step(index + 1, false)
  }

  /** The cursor after `k` retries over a list of fixed length, from its initial -1. */
  function Cursor(k: nat, count: nat): (i: int)
    requires count >= 1
    ensures -1 <= i < count
  {
    if k == 0 then -1 else Advance(Cursor(k - 1, count), count).index
  }

  /** Whether the `k`-th retry (counting from 1) is the delayed one. */
  function DelayedAt(k: nat, count: nat): bool
    requires k >= 1 && count >= 1
  {
    Advance(Cursor(k - 1, count), count).delayed
  }

  /**
   * The first `count` retries visit the candidates 0, 1, ..., count - 1 in
   * order, none of them delayed. In particular the first retry targets
   * candidate 0, the node the pool connected to first.
   */
  lemma {:induction false} FirstSweepInOrder(k: nat, count: nat)
    requires 1 <= k <= count
    ensures Cursor(k, count) == k - 1
    ensures !DelayedAt(k, count)
  {
    if k > 1 {
      FirstSweepInOrder(k - 1, count);
    }
  }

  /**
   * After the first sweep the retries repeat with period `count`: the retry
   * that runs off the end goes back to candidate 0 and is the only delayed one.
   */
  lemma {:induction false} RetriesRepeat(k: nat, count: nat)
    requires k >= 1 && count >= 1
    ensures Cursor(k + count, count) == Cursor(k, count)
    ensures DelayedAt(k + count, count) <==> k == 1 || DelayedAt(k, count)
  {
    if k == 1 {
      FirstSweepInOrder(count, count);
    } else {
      RetriesRepeat(k - 1, count);
      if k <= count {
        FirstSweepInOrder(k, count);
      }
    }
  }
}
