/** Assigning connections to io loops: EventLoopThreadPool.cc. */
module ThreadPools {
  import LoopThreads

  /** The index `getNextLoop` uses, and the one it leaves behind, for `n` io loops. */
  function Advance(n: nat, next: nat): nat { if next + 1 >= n then 0 else next + 1 }

  /** The indices of `k` consecutive calls. */
  function Choices(n: nat, next: nat, k: nat): (r: seq<nat>)
    ensures |r| == k
    decreases k
  {
    if k == 0 then [] else [next] + Choices(n, Advance(n, next), k - 1)
  }

  function Times(choices: seq<nat>, i: nat): nat
    decreases |choices|
  {
    if choices == [] then 0 else (if choices[0] == i then 1 else 0) + Times(choices[1..], i)
  }

  /** How many calls pass before loop `i` comes up. */
  function Distance(n: nat, next: nat, i: nat): nat
    requires next < n && i < n
  {
    if next <= i then i - next else n - next + i
  }

  lemma {:induction false} TimesCounted(n: nat, next: nat, k: nat, i: nat)
    requires next < n && i < n
    ensures var t := Times(Choices(n, next, k), i);
      if k <= Distance(n, next, i) then t == 0
      else (t - 1) * n <= k - Distance(n, next, i) - 1 < t * n && t > 0
    decreases k
  {
    if k > 0 {
      var next' := Advance(n, next);
      assert Choices(n, next, k)[1..] == Choices(n, next', k - 1);
      TimesCounted(n, next', k - 1, i);
      if next == i {
        assert Distance(n, next', i) == n - 1;
        var t := Times(Choices(n, next', k - 1), i);
        assert Times(Choices(n, next, k), i) == t + 1;
        if k - 1 > n - 1 {
          assert (t + 1) * n == t * n + n && (t - 1) * n == t * n - n;
        } else {
          assert t == 0 && 0 * n == 0 && 1 * n == n;
        }
      } else {
        assert Distance(n, next, i) == Distance(n, next', i) + 1;
      }
    }
  }

  lemma TimesMonotone(a: int, b: int, n: nat)
    requires a <= b
    ensures a * n <= b * n
  {}

  lemma Quotient(n: nat, k: nat, t: nat, d: nat)
    requires d < n && if k <= d then t == 0 else t > 0 && (t - 1) * n <= k - d - 1 < t * n
    ensures k / n <= t <= k / n + 1 && (k % n == 0 ==> t == k / n)
  {
    var q, r := k / n, k % n;
    assert k == q * n + r && 0 <= r < n;
    assert (q + 1) * n == q * n + n && (q - 1) * n == q * n - n;
    if k <= d {
      if q > 0 { TimesMonotone(1, q, n); assert false; }
    } else {
      if t > q + 1 { TimesMonotone(q + 1, t - 1, n); assert false; }
      if t < q { TimesMonotone(t, q - 1, n); assert false; }
    }
  }

  /** Over any window of `k` calls every io loop gets k/n connections, rounded down or up. */
  lemma RoundRobinIsBalanced(n: nat, next: nat, k: nat, i: nat)
    requires next < n && i < n
    ensures var t := Times(Choices(n, next, k), i);
      k / n <= t <= k / n + 1 && (k % n == 0 ==> t == k / n)
    ensures forall j :: 0 <= j < k ==> Choices(n, next, k)[j] < n
  {
    TimesCounted(n, next, k, i);
    ChoicesInRange(n, next, k);
    Quotient(n, k, Times(Choices(n, next, k), i), Distance(n, next, i));
  }

  /** The j-th of them: one loop after the other, round and round (`next + j` modulo `n`). */
  lemma {:induction false} ChoicesAre(n: nat, next: nat, k: nat, j: nat) returns (rounds: nat)
    requires next < n && j < k
    ensures var i := Choices(n, next, k)[j]; i < n && i + rounds * n == next + j
    decreases k
  {
    rounds := 0;
    if j > 0 {
      assert Choices(n, next, k)[j] == Choices(n, Advance(n, next), k - 1)[j - 1];
      var more := ChoicesAre(n, Advance(n, next), k - 1, j - 1);
      rounds := if next + 1 >= n then more + 1 else more;
      assert (more + 1) * n == more * n + n;
    }
  }

  lemma {:induction false} ChoicesInRange(n: nat, next: nat, k: nat)
    requires next < n
    ensures forall j :: 0 <= j < k ==> Choices(n, next, k)[j] < n
    decreases k
  {
    if k > 0 { ChoicesInRange(n, Advance(n, next), k - 1); }
  }

  // ---------------------------------------------------------------- the pool

  /** The pointer `loop_` of a thread, null until the thread publishes its loop. */
  datatype Pointer<L> = Null | To(loop: L)

  /** A new thread: the loop it builds, and how its handshake with startLoop goes. */
  datatype Launch<L> = Launch(loop: L, handshake: seq<LoopThreads.Step>) {
    predicate Returned() {
      LoopThreads.Allowed(LoopThreads.INITIAL, handshake)
      && LoopThreads.Run(LoopThreads.INITIAL, handshake).starter.Returned?
    }
  }

  /** startLoop hands out whatever `loop_` holds when its wait ends: the thread's loop, never null. */
  method StartLoop<L>(launch: Launch<L>) returns (p: Pointer<L>)
    requires launch.Returned()
    ensures p == To(launch.loop)
  {
    LoopThreads.StartIsNotMissed(launch.handshake);
    var end := LoopThreads.Run(LoopThreads.INITIAL, launch.handshake);
    p := if end.starter.published then To(launch.loop) else Null;
  }

  class EventLoopThreadPool<L> {
    const baseLoop: L
    var started: bool
    var numThreads: nat
    var next: nat
    var loops: seq<L>

    ghost predicate Valid()
      reads this
    {
      if loops == [] then next == 0 else next < |loops|
    }

    constructor (baseLoop: L)
      ensures Valid() && this.baseLoop == baseLoop && !started && loops == [] && numThreads == 0
    {
      this.baseLoop, started, numThreads, next, loops := baseLoop, false, 0, 0, [];
    }

    /** `launches[i]` is the i-th thread. `prepared` are the loops on which the thread-init
      * callback has run when start returns: each thread's own, or the base loop without threads. */
    method Start(launches: seq<Launch<L>>, hasCallback: bool) returns (prepared: seq<L>)
      requires Valid() && loops == [] && |launches| == numThreads
      requires forall i :: 0 <= i < |launches| ==> launches[i].Returned()
      modifies this`started, this`loops
      ensures Valid() && started && |loops| == numThreads
      ensures forall i :: 0 <= i < numThreads ==> loops[i] == launches[i].loop
      ensures prepared == if !hasCallback then [] else if numThreads == 0 then [baseLoop] else loops
    {
      started, prepared := true, [];
      for i := 0 to numThreads
        invariant started && |loops| == i && forall k :: 0 <= k < i ==> loops[k] == launches[k].loop
        invariant prepared == if hasCallback then loops else []
      {
        var loop := StartLoop(launches[i]);
        loops := loops + [loop.loop];
        if hasCallback { prepared := prepared + [loop.loop]; }
      }
      if numThreads == 0 && hasCallback { prepared := [baseLoop]; }
    }

    method GetNextLoop() returns (loop: L)
      requires Valid()
      modifies this`next
      ensures Valid()
      ensures loops == [] ==> loop == baseLoop && next == old(next)
      ensures loops != [] ==> loop == loops[old(next)] && next == Advance(|loops|, old(next))
    {
      loop := baseLoop;
      if loops != [] {
        loop := loops[next];
        next := next + 1;
        if next >= |loops| { next := 0; }
      }
    }

    /** A window of calls hands out exactly the loops `Choices` lists. */
    method GetNextLoops(k: nat) returns (chosen: seq<L>)
      requires Valid() && loops != []
      modifies this`next
      ensures Valid() && |chosen| == k
      ensures forall j :: 0 <= j < k ==> Choices(|loops|, old(next), k)[j] < |loops|
      ensures forall j :: 0 <= j < k ==> chosen[j] == loops[Choices(|loops|, old(next), k)[j]]
      decreases k
    {
      chosen := [];
      ghost var all := Choices(|loops|, next, k);
      ChoicesInRange(|loops|, next, k);
      for i := 0 to k
        invariant Valid() && |chosen| == i
        invariant Choices(|loops|, next, k - i) == all[i..]
        invariant forall j :: 0 <= j < i ==> chosen[j] == loops[all[j]]
      {
        var loop := GetNextLoop();
        chosen := chosen + [loop];
      }
    }

    method GetAllLoops() returns (all: seq<L>)
      ensures all == if loops == [] then [baseLoop] else loops
    {
      all := if loops == [] then [baseLoop] else loops;
    }
  }
}
