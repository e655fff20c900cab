/** The pool of loop threads a server hands connections to: `start` creates
    the configured number of loop threads, and `getNextLoop` deals the loops
    out round-robin, falling back to the base loop when there are none.
    Loops are named by identities; the loops the started threads report
    are a parameter of `start`. */
module Pools {

  type LoopId = nat

  /** How many of the first `n` round-robin picks over `k` loops land on
      loop `idx`. */
  function PicksOf(n: nat, k: nat, idx: nat): nat
    requires k > 0
  {
    if n == 0 then 0 else PicksOf(n - 1, k, idx) + (if (n - 1) % k == idx then 1 else 0)
  }

  /** Round-robin is balanced: after `n` picks every loop has had `n / k`
      of them, and the first `n mod k` loops one more. */
  lemma {:induction false} PicksBalanced(n: nat, k: nat, idx: nat)
    requires k > 0 && idx < k
    ensures PicksOf(n, k, idx) == n / k + (if idx < n % k then 1 else 0)
  {
    if n > 0 {
      PicksBalanced(n - 1, k, idx);
      NextResidue(n - 1, k);
    }
  }

  /** One step of the cursor: `p + 1` against `p`, modulo `k`. */
  lemma NextResidue(p: nat, k: nat)
    requires k > 0
    ensures (p + 1) % k == (if p % k + 1 >= k then 0 else p % k + 1)
    ensures (p + 1) / k == (if p % k + 1 >= k then p / k + 1 else p / k)
  {
    var q, r := p / k, p % k;
    if r + 1 >= k {
      assert p + 1 == (q + 1) * k;
      DivModUnique(p + 1, k, q + 1, 0);
    } else {
      DivModUnique(p + 1, k, q, r + 1);
    }
  }

  /** Euclidean division has one quotient and remainder. */
  lemma DivModUnique(a: nat, k: nat, q: int, r: int)
    requires k > 0 && 0 <= r < k && a == q * k + r
    ensures a / k == q && a % k == r
  {
    var q', r' := a / k, a % k;
    assert a == q' * k + r';
    if q > q' {
      MulAtLeast(q - q', k);
    } else if q < q' {
      MulAtLeast(q' - q, k);
    }
  }

  lemma {:induction false} MulAtLeast(d: int, k: nat)
    requires d >= 1
    ensures d * k >= k
  {
    if d > 1 {
      MulAtLeast(d - 1, k);
      assert d * k == (d - 1) * k + k;
    }
  }

  class WorkerThreadPool {
    const baseLoop: LoopId
    var started: bool
    var numThreads: int
    var next: int
    /** How many threads `start` has created. */
    var threads: nat
    var loops: seq<LoopId>
    /** How many times the init callback has run on the base loop. */
    var baseInitCalls: nat
    /** Round-robin picks made since the loops exist. */
    ghost var picks: nat

    /** There is one loop per created thread; the cursor is a valid index
        that has advanced once per pick. */
    ghost predicate Valid()
      reads this
    {
      threads == |loops|
      && (!started ==> loops == [])
      && (loops == [] ==> next == 0 && picks == 0)
      && (loops != [] ==> 0 <= next < |loops| && next == picks % |loops|)
    }

    constructor (baseLoop: LoopId)
      ensures Valid() && this.baseLoop == baseLoop
      ensures !started && numThreads == 0 && next == 0 && loops == [] && baseInitCalls == 0
    {
      this.baseLoop := baseLoop;
      started := false;
      numThreads := 0;
      next := 0;
      threads := 0;
      loops := [];
      baseInitCalls := 0;
      picks := 0;
    }

    method SetThreadNum(n: int)
      requires Valid()
      modifies this
      ensures Valid() && numThreads == n
      ensures started == old(started) && loops == old(loops) && next == old(next) && baseInitCalls == old(baseInitCalls)
    {
      numThreads := n;
    }

    /** `start(cb)`: once only. Creates one loop thread per configured thread
        (none for a count of zero or less); with no threads at all, an init
        callback runs once on the base loop. */
    method Start(hasInitCb: bool, threadLoops: seq<LoopId>)
      requires Valid() && !started
      requires |threadLoops| == (if numThreads > 0 then numThreads else 0)
      modifies this
      ensures Valid() && started
      ensures loops == threadLoops && threads == |threadLoops| && next == 0
      ensures baseInitCalls == old(baseInitCalls) + (if numThreads == 0 && hasInitCb then 1 else 0)
      ensures numThreads == old(numThreads)
    {
      started := true;
      var i := 0;
      while i < numThreads
        invariant 0 <= i <= |threadLoops|
        invariant loops == threadLoops[..i] && threads == i
        invariant started && numThreads == old(numThreads)
        invariant next == 0 && picks == 0 && baseInitCalls == old(baseInitCalls)
      {
        threads := threads + 1;
        loops := loops + [threadLoops[i]];
        assert threadLoops[..i + 1] == threadLoops[..i] + [threadLoops[i]];
        i := i + 1;
      }
      assert loops == threadLoops;
      if numThreads == 0 && hasInitCb {
        baseInitCalls := baseInitCalls + 1;
      }
    }

    /** `getNextLoop()`: the base loop while there are no loop threads;
        otherwise the loops in turn, the cursor wrapping at the end, so the
        `i`-th pick is loop `i mod k`. */
    method GetNextLoop() returns (loop: LoopId)
      requires Valid()
      modifies this
      ensures Valid()
      ensures old(loops) == [] ==> loop == baseLoop && next == 0 && picks == old(picks)
      ensures old(loops) != [] ==> loop == old(loops)[old(picks) % |old(loops)|] && picks == old(picks) + 1
      ensures loops == old(loops) && started == old(started) && numThreads == old(numThreads)
      ensures baseInitCalls == old(baseInitCalls) && threads == old(threads)
    {
      loop := baseLoop;
      if loops != [] {
        loop := loops[next];
        next := next + 1;
        if next >= |loops| {
          next := 0;
        }
        picks := picks + 1;
        NextResidue(old(picks), |loops|);
      }
    }
  }
}
