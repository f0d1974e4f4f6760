/** The wakeup and functor-queue protocol of EventLoop.cc as a transition system. One loop
  * thread and any number of other threads interleave; each event below is one step no
  * other thread can split: a locked section, one access to an atomic flag, one system call.
  */
module EventLoops {
  type Thread = nat

  /** Where the loop thread is. `Idle` is before `loop()`, `Clearing` between the test of
    * `quit_` and epoll_wait, `Claiming` between raising `callingPengingFunctors_` and the
    * swap, `Releasing` after lowering it, while the local vector still holds the functors. */
  datatype Pc = Idle | Checking | Clearing | Polling | Dispatching | Claiming | Running | Releasing | Stopped

  datatype Loop<F> = Loop(
    pc: Pc,
    quit: bool,            // quit_
    calling: bool,         // callingPengingFunctors_
    pending: seq<F>,       // pendingFunctors_
    batch: seq<F>,         // the local vector of doPengingFunctors
    next: nat,             // how many of them have been called
    counter: nat,          // the eventfd
    wakers: set<Thread>,   // other threads that have pushed (or set quit_) and are about to write
    owes: bool,            // the loop thread itself has pushed and is about to write
    sawWake: bool,         // the wakeup channel is in activeChannels_ and not handled yet
    failed: bool,          // handleRead read nothing: LOG_ERROR
    queued: seq<F>,        // history: every functor ever pushed
    executed: seq<F>,      // history: every functor ever called
    polls: nat)            // history: how often epoll_wait was entered

  function NewLoop<F>(): Loop<F> {
    Loop(Idle, false, false, [], [], 0, 0, {}, false, false, false, [], [], 0)
  }

  datatype Event<F> =
    | Enqueue(t: Thread, f: F)      // queueInLoop from another thread: the locked push
    | Quit(t: Thread)               // quit from another thread: the flag
    | Wake(t: Thread)               // ... and their write to the eventfd
    | Start | Check | StartPoll
    | PollReturn(wake: bool)        // whether the wakeup channel is among the active ones
    | ReadWake                      // EventLoop::handleRead
    | EndDispatch | Swap | RunNext
    | OwnEnqueue(f: F)              // queueInLoop on the loop thread: the locked push
    | OwnWake                       // ... and its write, when callingPengingFunctors_ was set
    | OwnQuit
    | EndRun | Release

  /** Where the loop thread runs code of others: outside `loop()`, in handlers and functors, and
    * while it destroys the functors, whose captured objects may do anything in their destructors. */
  predicate MayAct<F>(s: Loop<F>) { s.pc in {Idle, Stopped, Dispatching, Running, Releasing} && !s.owes }

  predicate Enabled<F>(s: Loop<F>, e: Event<F>) {
    match e
    case Enqueue(t, f) => t !in s.wakers
    case Quit(t) => t !in s.wakers
    case Wake(t) => t in s.wakers
    case Start => s.pc in {Idle, Stopped} && !s.owes
    case Check => s.pc == Checking
    case StartPoll => s.pc == Clearing
    case PollReturn(wake) => s.pc == Polling && (wake ==> s.counter > 0)
    case ReadWake => s.pc == Dispatching && s.sawWake
    case EndDispatch => s.pc == Dispatching && !s.sawWake && !s.owes
    case Swap => s.pc == Claiming
    case RunNext => s.pc == Running && !s.owes && s.next < |s.batch|
    case OwnEnqueue(f) => MayAct(s)
    case OwnWake => s.owes
    case OwnQuit => MayAct(s)
    case EndRun => s.pc == Running && !s.owes && s.next == |s.batch|
    case Release => s.pc == Releasing
  }

  function Apply<F>(s: Loop<F>, e: Event<F>): Loop<F> {
    match e
    case Enqueue(t, f) => s.(pending := s.pending + [f], queued := s.queued + [f], wakers := s.wakers + {t})
    case Quit(t) => s.(quit := true, wakers := s.wakers + {t})
    case Wake(t) => s.(counter := s.counter + 1, wakers := s.wakers - {t})
    case Start => s.(pc := Checking, quit := false)
    case Check => s.(pc := if s.quit then Stopped else Clearing)
    case StartPoll => s.(pc := Polling, polls := s.polls + 1)
    case PollReturn(wake) => s.(pc := Dispatching, sawWake := wake)
    case ReadWake => s.(counter := 0, sawWake := false, failed := s.failed || s.counter == 0)
    case EndDispatch => s.(pc := Claiming, calling := true)
    case Swap => s.(pc := Running, batch := s.pending, pending := [], next := 0)
    case RunNext =>
      if s.next < |s.batch| then s.(executed := s.executed + [s.batch[s.next]], next := s.next + 1) else s
    case OwnEnqueue(f) => s.(pending := s.pending + [f], queued := s.queued + [f], owes := s.calling)
    case OwnWake => s.(counter := s.counter + 1, owes := false)
    case OwnQuit => s.(quit := true)
    case EndRun => s.(pc := Releasing, calling := false)
    case Release => s.(pc := Checking, batch := [], next := 0)
  }

  predicate Allowed<F>(s: Loop<F>, es: seq<Event<F>>)
    decreases |es|
  {
    es == [] || (Enabled(s, es[0]) && Allowed(Apply(s, es[0]), es[1..]))
  }

  function Run<F>(s: Loop<F>, es: seq<Event<F>>): Loop<F>
    decreases |es|
  {
    if es == [] then s else Run(Apply(s, es[0]), es[1..])
  }

  lemma {:induction false} RunConcat<F>(s: Loop<F>, es: seq<Event<F>>, fs: seq<Event<F>>)
    ensures Run(s, es + fs) == Run(Run(s, es), fs)
    ensures Allowed(s, es + fs) <==> Allowed(s, es) && Allowed(Run(s, es), fs)
    decreases |es|
  {
    if es == [] {
      assert es + fs == fs;
    } else {
      assert (es + fs)[1..] == es[1..] + fs && (es + fs)[0] == es[0];
      RunConcat(Apply(s, es[0]), es[1..], fs);
    }
  }

  // ---------------------------------------------------------------- what always holds

  /** Called ++ claimed but not yet called ++ pending: every functor exactly once, in order. */
  function Outstanding<F>(s: Loop<F>): seq<F>
    requires s.next <= |s.batch|
  {
    s.batch[s.next..] + s.pending
  }

  ghost predicate Orderly<F>(s: Loop<F>) {
    && s.next <= |s.batch|
    && s.queued == s.executed + Outstanding(s)
    && (s.pc !in {Running, Releasing} ==> s.batch == [])
    && (s.pc == Releasing ==> s.next == |s.batch|)
    && (s.calling <==> s.pc in {Claiming, Running})
    && (s.owes ==> s.pc == Running)
    && (s.sawWake ==> s.pc == Dispatching && s.counter > 0)
    && !s.failed
  }

  /** Nothing pending, or a write to the eventfd has happened or is certain to happen. */
  predicate Armed<F>(s: Loop<F>) {
    s.pending == [] || s.counter > 0 || s.wakers != {} || s.owes
  }

  /** Between the swap and the next read of the eventfd the loop is armed; in between, it is
    * about to claim everything anyway. */
  ghost predicate Attentive<F>(s: Loop<F>) { s.pc !in {Dispatching, Claiming} ==> Armed(s) }

  ghost predicate QuitHeard<F>(s: Loop<F>) {
    s.quit && s.pc in {Clearing, Polling} ==> s.counter > 0 || s.wakers != {}
  }

  ghost predicate LoopInv<F>(s: Loop<F>) { Orderly(s) && Attentive(s) && QuitHeard(s) }

  /** The loop thread enqueues only in handlers and functors. */
  predicate Timely<F>(s: Loop<F>, e: Event<F>) { e.OwnEnqueue? ==> s.pc in {Dispatching, Running} }

  predicate TimelyRun<F>(s: Loop<F>, es: seq<Event<F>>)
    decreases |es|
  {
    es == [] || (Enabled(s, es[0]) && Timely(s, es[0]) && TimelyRun(Apply(s, es[0]), es[1..]))
  }

  lemma ApplyOrderly<F>(s: Loop<F>, e: Event<F>)
    requires Orderly(s) && Enabled(s, e)
    ensures Orderly(Apply(s, e))
  {}

  lemma ApplyKeepsInv<F>(s: Loop<F>, e: Event<F>)
    requires LoopInv(s) && Enabled(s, e) && Timely(s, e)
    ensures LoopInv(Apply(s, e))
  {
    ApplyOrderly(s, e);
  }

  lemma {:induction false} RunKeepsInv<F>(s: Loop<F>, es: seq<Event<F>>)
    requires LoopInv(s) && TimelyRun(s, es)
    ensures LoopInv(Run(s, es))
    decreases |es|
  {
    if es != [] {
      ApplyKeepsInv(s, es[0]);
      RunKeepsInv(Apply(s, es[0]), es[1..]);
    }
  }

  // ---------------------------------------------------------------- theorems

  /** No wakeup is lost: whatever the interleaving, a loop waiting in epoll_wait while functors
    * are pending has a readable eventfd, or some thread is about to make it readable. */
  lemma NoLostWakeup<F>(es: seq<Event<F>>)
    requires TimelyRun(NewLoop(), es)
    ensures var s := Run(NewLoop(), es);
      s.pc == Polling && s.pending != [] ==> s.counter > 0 || s.wakers != {}
  {
    RunKeepsInv(NewLoop<F>(), es);
  }

  /** After `es`, the loop sleeps on a pending functor and nobody is going to wake it. */
  ghost predicate Strands<F>(s: Loop<F>, es: seq<Event<F>>) {
    TimelyRun(s, es) && Run(s, es).pc == Polling && !Armed(Run(s, es))
  }

  /** The next step on the way to epoll_wait. */
  function Sleepward<F>(s: Loop<F>): Event<F> {
    match s.pc
    case Clearing => StartPoll
    case Checking => Check
    case Releasing => Release
    case Running => if s.next < |s.batch| then RunNext else EndRun
    case _ => Start
  }

  function StepsToSleep<F>(s: Loop<F>): nat {
    match s.pc
    case Polling => 0
    case Clearing => 1
    case Checking => if s.quit then 4 else 2
    case Releasing => 5
    case Running => 6 + if s.next < |s.batch| then |s.batch| - s.next else 0
    case _ => 3
  }

  lemma {:induction false} StrandingRun<F(!new)>(s: Loop<F>) returns (es: seq<Event<F>>)
    requires Orderly(s) && QuitHeard(s) && !Attentive(s)
    ensures Strands(s, es)
    decreases StepsToSleep(s)
  {
    es := [];
    if s.pc != Polling {
      var x := Sleepward(s);
      ApplyOrderly(s, x);
      ApplyHearsQuit(s, x);
      var rest := StrandingRun(Apply(s, x));
      es := [x] + rest;
      assert es[1..] == rest;
    }
  }

  /** From any state: the loop can come to sleep on a pending functor with nobody to wake it,
    * though nothing is queued out of turn any more, exactly when it is not attentive. */
  lemma StrandsIff<F(!new)>(s: Loop<F>)
    requires Orderly(s) && QuitHeard(s)
    ensures !Attentive(s) <==> exists es :: Strands(s, es)
  {
    forall es | Attentive(s) ensures !Strands(s, es) {
      if TimelyRun(s, es) { RunKeepsInv(s, es); }
    }
    if !Attentive(s) { var es := StrandingRun(s); }
  }

  /** Enqueueing on the loop thread before `loop()` does not write to the eventfd. The loop can
    * then sleep on a pending functor exactly when nobody else has woken it by then. */
  lemma EarlyEnqueueStrands<F(!new)>(s: Loop<F>)
    requires s.pc in {Idle, Stopped} && Orderly(s)
    ensures !Armed(s) <==> exists es :: Strands(s, es)
  {
    StrandsIff(s);
  }

  /** Nor does it once `callingPengingFunctors_` is lowered, while the called functors are destroyed. */
  lemma LateEnqueueStrands<F(!new)>(s: Loop<F>)
    requires s.pc == Releasing && Orderly(s) && QuitHeard(s)
    ensures !Armed(s) <==> exists es :: Strands(s, es)
  {
    StrandsIff(s);
  }

  /** Which enqueues of the loop thread can be lost: those made outside handlers and functors
    * while nobody else has written or is about to write to the eventfd. All others are safe. */
  lemma OwnEnqueueStrandsIff<F(!new)>(s: Loop<F>, f: F)
    requires LoopInv(s) && Enabled(s, OwnEnqueue(f))
    ensures (exists es :: Strands(Apply(s, OwnEnqueue(f)), es))
       <==> s.pc in {Idle, Stopped, Releasing} && s.counter == 0 && s.wakers == {}
  {
    ApplyOrderly(s, OwnEnqueue(f));
    ApplyHearsQuit(s, OwnEnqueue(f));
    StrandsIff(Apply(s, OwnEnqueue(f)));
  }

  /** That can happen to a new loop: one functor queued by its own thread before `loop()` ... */
  lemma EarlyEnqueueHappens<F(!new)>(f: F) returns (es: seq<Event<F>>)
    ensures Enabled(NewLoop(), OwnEnqueue(f)) && Strands(Apply(NewLoop(), OwnEnqueue(f)), es)
  {
    es := StrandingRun(Apply(NewLoop(), OwnEnqueue(f)));
  }

  /** ... or one queued while the functors of its first, even empty, phase are destroyed. */
  lemma LateEnqueueHappens<F(!new)>(f: F) returns (phase: seq<Event<F>>, es: seq<Event<F>>)
    ensures phase == [Start, Check, StartPoll, PollReturn(false), EndDispatch, Swap, EndRun]
    ensures TimelyRun(NewLoop(), phase) && Enabled(Run(NewLoop(), phase), OwnEnqueue(f))
    ensures Strands(Apply(Run(NewLoop(), phase), OwnEnqueue(f)), es)
  {
    phase := EmptyPhase();
    RunKeepsInv(NewLoop(), phase);
    hide Run, TimelyRun, LoopInv;
    OwnEnqueueStrandsIff(Run(NewLoop(), phase), f);
    es :| Strands(Apply(Run(NewLoop(), phase), OwnEnqueue(f)), es);
  }

  lemma EmptyPhase<F>() returns (phase: seq<Event<F>>)
    ensures phase == [Start, Check, StartPoll, PollReturn(false), EndDispatch, Swap, EndRun]
    ensures TimelyRun(NewLoop(), phase)
    ensures Run(NewLoop(), phase) == NewLoop().(pc := Releasing, polls := 1)
  {
    var waiting, working := [Start, Check, StartPoll, PollReturn(false)], [EndDispatch, Swap, EndRun];
    phase := waiting + working;
    RunTimely(NewLoop(), waiting, working);
  }

  lemma {:induction false} RunTimely<F>(s: Loop<F>, es: seq<Event<F>>, fs: seq<Event<F>>)
    ensures Run(s, es + fs) == Run(Run(s, es), fs)
    ensures TimelyRun(s, es + fs) <==> TimelyRun(s, es) && TimelyRun(Run(s, es), fs)
    decreases |es|
  {
    if es == [] {
      assert es + fs == fs;
    } else {
      assert (es + fs)[1..] == es[1..] + fs && (es + fs)[0] == es[0];
      RunTimely(Apply(s, es[0]), es[1..], fs);
    }
  }

  lemma {:induction false} RunOrderly<F>(s: Loop<F>, es: seq<Event<F>>)
    requires Orderly(s) && Allowed(s, es)
    ensures Orderly(Run(s, es))
    decreases |es|
  {
    if es != [] {
      ApplyOrderly(s, es[0]);
      RunOrderly(Apply(s, es[0]), es[1..]);
    }
  }

  /** Every functor is called exactly once and in the order of the pushes, for every
    * interleaving, early enqueues included; and the eventfd is never read in vain. */
  lemma FunctorsRunOnceInOrder<F>(es: seq<Event<F>>)
    requires Allowed(NewLoop(), es)
    ensures var s := Run(NewLoop(), es);
      && s.next <= |s.batch|
      && s.queued == s.executed + (s.batch[s.next..] + s.pending)
      && s.executed <= s.queued
      && !s.failed
  {
    RunOrderly(NewLoop<F>(), es);
  }

  /** In a functor phase that began with `start` already executed, `batch` is called front to back. */
  ghost predicate InPhase<F>(s: Loop<F>, start: seq<F>, batch: seq<F>) {
    && s.pc in {Running, Releasing} && s.batch == batch && s.next <= |batch|
    && s.executed == start + batch[..s.next]
    && (s.pc == Releasing ==> s.next == |batch|)
  }

  lemma PhaseStep<F>(s: Loop<F>, e: Event<F>, start: seq<F>, batch: seq<F>)
    requires InPhase(s, start, batch) && Enabled(s, e) && e != Release
    ensures InPhase(Apply(s, e), start, batch)
  {}

  lemma {:induction false} PhaseRun<F>(s: Loop<F>, es: seq<Event<F>>, start: seq<F>, batch: seq<F>)
    requires InPhase(s, start, batch) && Allowed(s, es) && Release !in es
    ensures InPhase(Run(s, es), start, batch)
    decreases |es|
  {
    if es != [] {
      PhaseStep(s, es[0], start, batch);
      PhaseRun(Apply(s, es[0]), es[1..], start, batch);
    }
  }

  /** A functor phase calls exactly the functors that were pending at its swap, no more and no
    * fewer, however many more are pushed meanwhile; those stay pending for the next phase. */
  lemma BatchIsExactlyTheClaim<F>(s: Loop<F>, es: seq<Event<F>>)
    requires Orderly(s) && s.pc == Claiming
    requires Allowed(Apply(s, Swap), es) && Release !in es
    ensures var r := Run(Apply(s, Swap), es);
      && s.executed <= r.executed <= s.executed + s.pending
      && (r.pc == Releasing ==> r.executed == s.executed + s.pending && r.queued == s.queued + r.pending)
  {
    var s1 := Apply(s, Swap);
    ApplyOrderly(s, Swap);
    assert InPhase(s1, s.executed, s.pending);
    PhaseRun(s1, es, s.executed, s.pending);
    RunOrderly(s1, es);
    ClaimArithmetic(s, Run(s1, es));
  }

  lemma ClaimArithmetic<F>(s: Loop<F>, r: Loop<F>)
    requires Orderly(s) && s.pc == Claiming && Orderly(r) && InPhase(r, s.executed, s.pending)
    ensures s.executed <= r.executed <= s.executed + s.pending
    ensures r.pc == Releasing ==> r.executed == s.executed + s.pending && r.queued == s.queued + r.pending
  {}

  /** The polls entered so far, and the one the loop can no longer avoid. */
  function PollsDue<F>(s: Loop<F>): nat { s.polls + if s.pc == Clearing then 1 else 0 }

  lemma QuitStep<F>(s: Loop<F>, e: Event<F>)
    requires s.quit && Enabled(s, e) && e != Start
    ensures Apply(s, e).quit && PollsDue(Apply(s, e)) <= PollsDue(s)
  {}

  lemma {:induction false} QuitStopsPolling<F>(s: Loop<F>, es: seq<Event<F>>)
    requires s.quit && Allowed(s, es) && Start !in es
    ensures Run(s, es).quit && PollsDue(Run(s, es)) <= PollsDue(s)
    decreases |es|
  {
    if es != [] {
      QuitStep(s, es[0]);
      QuitStopsPolling(Apply(s, es[0]), es[1..]);
    }
  }

  /** After quit, at most one more epoll_wait is entered, and that one only if the loop had
    * already passed the test of the flag; none at all when the loop thread itself calls quit. */
  lemma QuitIsPrompt<F>(s: Loop<F>, e: Event<F>, es: seq<Event<F>>)
    requires Enabled(s, e) && (e.Quit? || e.OwnQuit?)
    requires Allowed(Apply(s, e), es) && Start !in es
    ensures var r := Run(Apply(s, e), es);
      && r.polls <= s.polls + 1
      && (s.pc != Clearing || e.OwnQuit? ==> r.polls <= s.polls)
  {
    QuitStopsPolling(Apply(s, e), es);
  }

  /** ... and that epoll_wait cannot block for good: a quit always leaves a readable eventfd or
    * a thread about to write to it. */
  lemma QuitIsHeard<F>(es: seq<Event<F>>)
    requires Allowed(NewLoop(), es)
    ensures var s := Run(NewLoop(), es);
      s.quit && s.pc == Polling ==> s.counter > 0 || s.wakers != {}
  {
    RunHearsQuit(NewLoop<F>(), es);
  }

  lemma ApplyHearsQuit<F>(s: Loop<F>, e: Event<F>)
    requires Orderly(s) && QuitHeard(s) && Enabled(s, e)
    ensures QuitHeard(Apply(s, e))
  {}

  lemma {:induction false} RunHearsQuit<F>(s: Loop<F>, es: seq<Event<F>>)
    requires Orderly(s) && QuitHeard(s) && Allowed(s, es)
    ensures QuitHeard(Run(s, es))
    decreases |es|
  {
    if es != [] {
      ApplyOrderly(s, es[0]);
      ApplyHearsQuit(s, es[0]);
      RunHearsQuit(Apply(s, es[0]), es[1..]);
    }
  }

  // ---------------------------------------------------------------- the object, one thread at a time

  /** What a functor phase does in terms of protocol events, when functor `f` queues `spawn(f)`. */
  function Pushes<F>(fs: seq<F>): seq<Event<F>>
    decreases |fs|
  {
    if fs == [] then [] else Pushes(fs[..|fs| - 1]) + [OwnEnqueue(fs[|fs| - 1]), OwnWake]
  }

  function Calls<F>(fs: seq<F>, spawn: F -> seq<F>): seq<Event<F>>
    decreases |fs|
  {
    if fs == [] then [] else Calls(fs[..|fs| - 1], spawn) + ([RunNext] + Pushes(spawn(fs[|fs| - 1])))
  }

  function Spawned<F>(fs: seq<F>, spawn: F -> seq<F>): seq<F>
    decreases |fs|
  {
    if fs == [] then [] else Spawned(fs[..|fs| - 1], spawn) + spawn(fs[|fs| - 1])
  }

  /** What the destructors of the called functors queue: no write follows. */
  function Lates<F>(fs: seq<F>): seq<Event<F>>
    decreases |fs|
  {
    if fs == [] then [] else Lates(fs[..|fs| - 1]) + [OwnEnqueue(fs[|fs| - 1])]
  }

  function Phase<F>(fs: seq<F>, spawn: F -> seq<F>, late: seq<F>): seq<Event<F>> {
    [EndDispatch, Swap] + Calls(fs, spawn) + ([EndRun] + Lates(late) + [Release])
  }

  lemma RunOne<F>(s: Loop<F>, e: Event<F>)
    ensures Run(s, [e]) == Apply(s, e)
    ensures Allowed(s, [e]) <==> Enabled(s, e)
  {}

  lemma RunTwo<F>(s: Loop<F>, e: Event<F>, f: Event<F>)
    ensures Run(s, [e, f]) == Apply(Apply(s, e), f)
    ensures Allowed(s, [e, f]) <==> Enabled(s, e) && Enabled(Apply(s, e), f)
  {
    assert [e, f] == [e] + [f];
    RunConcat(s, [e], [f]);
    RunOne(s, e);
    RunOne(Apply(s, e), f);
  }

  /** The state a whole functor phase leaves, in closed form. */
  function Pushed<F>(s: Loop<F>, fs: seq<F>): Loop<F> {
    s.(pending := s.pending + fs, queued := s.queued + fs, counter := s.counter + |fs|)
  }

  function Dropped<F>(s: Loop<F>, fs: seq<F>): Loop<F> {
    s.(pending := s.pending + fs, queued := s.queued + fs)
  }

  function AfterPhase<F>(s: Loop<F>, spawn: F -> seq<F>, late: seq<F>): Loop<F> {
    var more := Spawned(s.pending, spawn);
    s.(pc := Checking, calling := false, pending := more + late, batch := [], next := 0,
       executed := s.executed + s.pending, queued := s.queued + more + late, counter := s.counter + |more|)
  }

  lemma {:induction false} LatesRun<F>(s: Loop<F>, fs: seq<F>)
    requires s.pc == Releasing && !s.calling && !s.owes
    ensures Run(s, Lates(fs)) == Dropped(s, fs) && Allowed(s, Lates(fs))
    decreases |fs|
  {
    if fs == [] {
      assert Dropped(s, fs) == s;
    } else {
      var init, f := fs[..|fs| - 1], fs[|fs| - 1];
      LatesRun(s, init);
      RunConcat(s, Lates(init), [OwnEnqueue(f)]);
      RunOne(Dropped(s, init), OwnEnqueue(f));
      assert fs == init + [f];
      assert s.pending + fs == s.pending + init + [f] && s.queued + fs == s.queued + init + [f];
    }
  }

  lemma {:induction false} PushesRun<F>(s: Loop<F>, fs: seq<F>)
    requires s.pc == Running && s.calling && !s.owes
    ensures Run(s, Pushes(fs)) == Pushed(s, fs) && Allowed(s, Pushes(fs))
    decreases |fs|
  {
    if fs == [] {
      assert Pushed(s, fs) == s;
    } else {
      var init, f := fs[..|fs| - 1], fs[|fs| - 1];
      PushesRun(s, init);
      RunConcat(s, Pushes(init), [OwnEnqueue(f), OwnWake]);
      RunTwo(Pushed(s, init), OwnEnqueue(f), OwnWake);
      assert fs == init + [f];
      assert s.pending + fs == s.pending + init + [f] && s.queued + fs == s.queued + init + [f];
    }
  }

  lemma CallRun<F>(s: Loop<F>, fs: seq<F>)
    requires s.pc == Running && s.calling && !s.owes && s.next < |s.batch|
    ensures Run(s, [RunNext] + Pushes(fs)) == Pushed(Apply(s, RunNext), fs) && Allowed(s, [RunNext] + Pushes(fs))
  {
    RunConcat(s, [RunNext], Pushes(fs));
    RunOne(s, RunNext);
    PushesRun(Apply(s, RunNext), fs);
  }

  /** After `n` calls of the phase. */
  function Called<F>(s: Loop<F>, n: nat, spawn: F -> seq<F>): Loop<F>
    requires n <= |s.batch|
  {
    Pushed(s.(next := n, executed := s.executed + s.batch[..n]), Spawned(s.batch[..n], spawn))
  }

  lemma CalledNone<F>(s: Loop<F>, spawn: F -> seq<F>)
    requires s.next == 0
    ensures Called(s, 0, spawn) == s
  {}

  lemma CalledNext<F>(s: Loop<F>, n: nat, spawn: F -> seq<F>)
    requires s.pc == Running && n < |s.batch|
    ensures Pushed(Apply(Called(s, n, spawn), RunNext), spawn(s.batch[n])) == Called(s, n + 1, spawn)
  {
    var before, f := s.batch[..n], s.batch[n];
    assert s.batch[..n + 1][..n] == before && s.batch[..n + 1] == before + [f];
    assert s.executed + before + [f] == s.executed + s.batch[..n + 1];
    assert s.pending + Spawned(before, spawn) + spawn(f) == s.pending + Spawned(s.batch[..n + 1], spawn);
    assert s.queued + Spawned(before, spawn) + spawn(f) == s.queued + Spawned(s.batch[..n + 1], spawn);
  }

  lemma {:induction false} CallsRun<F>(s: Loop<F>, n: nat, spawn: F -> seq<F>)
    requires s.pc == Running && s.calling && !s.owes && s.next == 0 && n <= |s.batch|
    ensures Run(s, Calls(s.batch[..n], spawn)) == Called(s, n, spawn) && Allowed(s, Calls(s.batch[..n], spawn))
    decreases n
  {
    if n == 0 {
      CalledNone(s, spawn);
    } else {
      CallsRun(s, n - 1, spawn);
      assert s.batch[..n][..n - 1] == s.batch[..n - 1];
      var call := [RunNext] + Pushes(spawn(s.batch[n - 1]));
      RunConcat(s, Calls(s.batch[..n - 1], spawn), call);
      CallRun(Called(s, n - 1, spawn), spawn(s.batch[n - 1]));
      CalledNext(s, n - 1, spawn);
    }
  }

  lemma PhaseEnds<F>(s: Loop<F>, spawn: F -> seq<F>, late: seq<F>)
    ensures var claimed := Apply(Apply(s, EndDispatch), Swap);
      && claimed.batch == s.pending
      && Apply(Dropped(Apply(Called(claimed, |s.pending|, spawn), EndRun), late), Release) == AfterPhase(s, spawn, late)
  {
    assert s.pending[..|s.pending|] == s.pending;
    assert [] + Spawned(s.pending, spawn) == Spawned(s.pending, spawn);
  }

  lemma EndsRun<F>(s: Loop<F>, late: seq<F>)
    requires s.pc == Running && !s.owes && s.next == |s.batch|
    ensures var end := [EndRun] + Lates(late) + [Release];
      Run(s, end) == Apply(Dropped(Apply(s, EndRun), late), Release) && Allowed(s, end)
  {
    RunOne(s, EndRun);
    RunConcat(s, [EndRun], Lates(late));
    LatesRun(Apply(s, EndRun), late);
    RunConcat(s, [EndRun] + Lates(late), [Release]);
    RunOne(Dropped(Apply(s, EndRun), late), Release);
  }

  lemma PhaseCalls<F>(s: Loop<F>, spawn: F -> seq<F>)
    requires s.pc == Dispatching && !s.owes && !s.sawWake
    ensures var claimed := Apply(Apply(s, EndDispatch), Swap);
      && Run(s, [EndDispatch, Swap] + Calls(s.pending, spawn)) == Called(claimed, |s.pending|, spawn)
      && Allowed(s, [EndDispatch, Swap] + Calls(s.pending, spawn))
  {
    var claimed := Apply(Apply(s, EndDispatch), Swap);
    RunTwo(s, EndDispatch, Swap);
    RunConcat(s, [EndDispatch, Swap], Calls(s.pending, spawn));
    assert s.pending[..|s.pending|] == s.pending == claimed.batch;
    CallsRun(claimed, |s.pending|, spawn);
  }

  /** The closed form is what the protocol's own steps do. */
  lemma PhaseMeans<F>(s: Loop<F>, spawn: F -> seq<F>, late: seq<F>)
    requires s.pc == Dispatching && !s.owes && !s.sawWake
    ensures Run(s, Phase(s.pending, spawn, late)) == AfterPhase(s, spawn, late)
    ensures Allowed(s, Phase(s.pending, spawn, late))
  {
    var calls, end := [EndDispatch, Swap] + Calls(s.pending, spawn), [EndRun] + Lates(late) + [Release];
    PhaseCalls(s, spawn);
    RunConcat(s, calls, end);
    EndsRun(Run(s, calls), late);
    PhaseEnds(s, spawn, late);
    assert Phase(s.pending, spawn, late) == calls + end;
  }

  lemma EnqueueIs<F>(s: Loop<F>, t: Thread, f: F)
    requires t !in s.wakers
    ensures Apply(Apply(s, Enqueue(t, f)), Wake(t))
         == s.(pending := s.pending + [f], queued := s.queued + [f], counter := s.counter + 1)
  {
    assert s.wakers + {t} - {t} == s.wakers;
  }

  lemma OwnEnqueueIs<F>(s: Loop<F>, f: F)
    ensures !s.calling ==>
      Apply(s, OwnEnqueue(f)) == s.(pending := s.pending + [f], queued := s.queued + [f], owes := false)
    ensures Apply(Apply(s, OwnEnqueue(f)), OwnWake)
         == s.(pending := s.pending + [f], queued := s.queued + [f], counter := s.counter + 1, owes := false)
  {}

  lemma ClaimIs<F>(s: Loop<F>)
    ensures Apply(Apply(s, EndDispatch), Swap)
         == s.(pc := Running, calling := true, batch := s.pending, pending := [], next := 0)
  {}

  lemma DroppedNext<F>(s: Loop<F>, fs: seq<F>, k: nat)
    requires k < |fs|
    ensures Dropped(Dropped(s, fs[..k]), [fs[k]]) == Dropped(s, fs[..k + 1])
  {
    assert fs[..k + 1] == fs[..k] + [fs[k]];
    assert s.pending + fs[..k] + [fs[k]] == s.pending + fs[..k + 1];
    assert s.queued + fs[..k] + [fs[k]] == s.queued + fs[..k + 1];
  }

  class EventLoop<F(==)> {
    var pc: Pc
    var quit: bool
    var callingPendingFunctors: bool
    var pendingFunctors: seq<F>
    var functors: seq<F>
    var next: nat
    var eventfd: nat
    var wakers: set<Thread>
    var owes: bool
    var sawWake: bool
    var failed: bool
    ghost var queued: seq<F>
    ghost var executed: seq<F>
    ghost var polls: nat

    ghost function View(): Loop<F>
      reads this
    {
      Loop(pc, quit, callingPendingFunctors, pendingFunctors, functors, next, eventfd, wakers, owes, sawWake, failed,
           queued, executed, polls)
    }

    constructor ()
      ensures View() == NewLoop()
    {
      pc, quit, callingPendingFunctors, pendingFunctors, functors, next := Idle, false, false, [], [], 0;
      eventfd, wakers, owes, sawWake, failed, queued, executed, polls := 0, {}, false, false, false, [], [], 0;
    }

    method Wakeup()
      modifies this`eventfd
      ensures eventfd == old(eventfd) + 1
    { eventfd := eventfd + 1; }

    /** `caller` is None on the loop thread. */
    method QueueInLoop(f: F, onLoopThread: bool, caller: Thread)
      requires if onLoopThread then MayAct(View()) else caller !in wakers
      modifies this
      ensures View() == Run(old(View()),
        if !onLoopThread then [Enqueue(caller, f), Wake(caller)]
        else if old(callingPendingFunctors) then [OwnEnqueue(f), OwnWake] else [OwnEnqueue(f)])
    {
      RunOne(View(), OwnEnqueue(f));
      RunTwo(View(), OwnEnqueue(f), OwnWake);
      RunTwo(View(), Enqueue(caller, f), Wake(caller));
      if onLoopThread { OwnEnqueueIs(View(), f); } else { EnqueueIs(View(), caller, f); }
      hide Apply;
      pendingFunctors := pendingFunctors + [f];
      queued := queued + [f];
      if !onLoopThread || callingPendingFunctors { Wakeup(); }
    }

    /** ... from inside a functor phase. */
    method QueueFromFunctor(f: F)
      requires pc == Running && callingPendingFunctors && !owes
      modifies this
      ensures View() == Pushed(old(View()), [f])
    {
      RunTwo(View(), OwnEnqueue(f), OwnWake);
      QueueInLoop(f, true, 0);
    }

    method QuitLoop(onLoopThread: bool, caller: Thread)
      requires if onLoopThread then MayAct(View()) else caller !in wakers
      modifies this
      ensures View() == Run(old(View()), if onLoopThread then [OwnQuit] else [Event.Quit(caller), Wake(caller)])
    {
      RunOne(View(), OwnQuit);
      RunTwo(View(), Event.Quit(caller), Wake(caller));
      quit := true;
      if !onLoopThread { Wakeup(); }
      assert !onLoopThread ==> old(wakers) + {caller} - {caller} == wakers;
    }

    method HandleRead()
      requires Enabled(View(), ReadWake)
      modifies this
      ensures View() == Apply(old(View()), ReadWake)
    {
      if eventfd == 0 { failed := true; }
      eventfd, sawWake := 0, false;
    }

    /** One call `functor()`, which queues `spawned` from inside the phase. */
    method Call(spawned: seq<F>)
      requires pc == Running && callingPendingFunctors && !owes && next < |functors|
      modifies this
      ensures View() == Pushed(Apply(old(View()), RunNext), spawned)
    {
      executed, next := executed + [functors[next]], next + 1;
      ghost var w := View();
      for k := 0 to |spawned|
        invariant View() == Pushed(w, spawned[..k])
      {
        QueueFromFunctor(spawned[k]);
        assert spawned[..k + 1] == spawned[..k] + [spawned[k]];
        assert w.pending + spawned[..k] + [spawned[k]] == w.pending + spawned[..k + 1];
        assert w.queued + spawned[..k] + [spawned[k]] == w.queued + spawned[..k + 1];
      }
      assert spawned[..|spawned|] == spawned;
    }

    /** doPengingFunctors, when no other thread runs in between: each functor is called once, in
      * order, and what the functors queue is left for the next phase with the eventfd readable.
      * What their destruction queues, `late`, is left behind it without another write. */
    method DoPendingFunctors(spawn: F -> seq<F>, late: seq<F>)
      requires Enabled(View(), EndDispatch)
      modifies this
      ensures View() == AfterPhase(old(View()), spawn, late)
           == Run(old(View()), Phase(old(pendingFunctors), spawn, late))
    {
      PhaseMeans(View(), spawn, late);
      PhaseEnds(View(), spawn, late);
      hide Apply, Called, Dropped;
      ClaimAll();
      CallAll(spawn);
      EndPhase(late);
    }

    method CallAll(spawn: F -> seq<F>)
      requires pc == Running && callingPendingFunctors && !owes && next == 0
      modifies this
      ensures View() == Called(old(View()), |old(functors)|, spawn) && Enabled(View(), EndRun)
    {
      ghost var v := View();
      CalledNone(v, spawn);
      while next < |functors|
        invariant functors == v.batch && next <= |v.batch| && pc == Running && callingPendingFunctors && !owes
        invariant View() == Called(v, next, spawn)
      {
        CalledNext(v, next, spawn);
        Call(spawn(functors[next]));
      }
    }

    /** Raise the flag, then swap the pending functors out under the lock. */
    method ClaimAll()
      requires Enabled(View(), EndDispatch)
      modifies this
      ensures View() == Apply(Apply(old(View()), EndDispatch), Swap)
      ensures pc == Running && callingPendingFunctors && !owes && next == 0 && functors == old(pendingFunctors)
    {
      ClaimIs(View());
      hide Apply;
      pc, callingPendingFunctors := Claiming, true;
      pc, functors, pendingFunctors, next := Running, pendingFunctors, [], 0;
    }

    /** Lower the flag, then destroy the local vector, which queues `late`. */
    method EndPhase(late: seq<F>)
      requires Enabled(View(), EndRun)
      modifies this
      ensures View() == Apply(Dropped(Apply(old(View()), EndRun), late), Release)
    {
      hide Apply, Dropped;
      LowerFlag();
      QueueLate(late);
      ReleaseAll();
    }

    method QueueLate(late: seq<F>)
      requires pc == Releasing && !callingPendingFunctors && !owes
      modifies this
      ensures View() == Dropped(old(View()), late) && pc == Releasing
    {
      ghost var w := View();
      for k := 0 to |late|
        invariant View() == Dropped(w, late[..k])
      {
        QueueFromDestructor(late[k]);
        DroppedNext(w, late, k);
      }
      assert late[..|late|] == late;
    }

    method LowerFlag()
      requires Enabled(View(), EndRun)
      modifies this
      ensures View() == Apply(old(View()), EndRun)
      ensures pc == Releasing && !callingPendingFunctors && !owes
    {
      pc, callingPendingFunctors := Releasing, false;
    }

    method ReleaseAll()
      requires pc == Releasing
      modifies this
      ensures View() == Apply(old(View()), Release)
    {
      pc, functors, next := Checking, [], 0;
    }

    /** A functor's captured object queues `f` while it is destroyed. */
    method QueueFromDestructor(f: F)
      requires pc == Releasing && !callingPendingFunctors && !owes
      modifies this
      ensures View() == Dropped(old(View()), [f])
    {
      RunOne(View(), OwnEnqueue(f));
      QueueInLoop(f, true, 0);
    }
  }
}
