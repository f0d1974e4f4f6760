/** The steps that queue a functor, write an eventfd for it, or take it off a batch. */
module ServerQueues {
  import opened Connections
  import opened Servers
  import opened ServerInvariant
  import opened ServerSteps
  import opened ServerTasks
  import opened ServerMoves
  import opened ServerLifecycle
  import EL = EventLoops

  // ---------------------------------------------------------------- pushing a functor

  predicate Pushes(e: EL.Event<Functor>, f: Functor) { (e.Enqueue? || e.OwnEnqueue?) && e.f == f }

  /** One queue grows by one functor at its end. */
  lemma PushLoops(s: Server, t: Server, j: nat, e: EL.Event<Functor>, f: Functor)
    requires LoopsOk(s) && j < |s.loops| && Pushes(e, f) && EL.Enabled(s.loops[j], e) && EL.Timely(s.loops[j], e)
    requires t.loops == s.loops[j := EL.Apply(s.loops[j], e)]
    ensures LoopsOk(t) && SamePcs(s, t)
    ensures s.loops[j].next <= |s.loops[j].batch| && t.loops[j].next <= |t.loops[j].batch|
    ensures EL.Outstanding(t.loops[j]) == EL.Outstanding(s.loops[j]) + [f]
  {}

  lemma PushDue(s: Server, t: Server, j: nat, f: Functor)
    requires LoopsOk(s) && LoopsOk(t) && j < |s.loops| == |t.loops|
    requires forall k :: 0 <= k < |s.loops| && k != j ==> t.loops[k] == s.loops[k]
    requires s.loops[j].next <= |s.loops[j].batch| && t.loops[j].next <= |t.loops[j].batch|
    requires EL.Outstanding(t.loops[j]) == EL.Outstanding(s.loops[j]) + [f]
    ensures DueOnlyAbout(s, t, f.c)
    ensures forall k, g :: 0 <= k < |s.loops| ==> (Due(t.loops[k], g) <==> Due(s.loops[k], g) || (k == j && g == f))
  {}

  lemma PushDueOk(s: Server, t: Server, j: nat, f: Functor)
    requires DueOk(s) && t.conns == s.conns && t.homes == s.homes && |t.loops| == |s.loops| && j < |s.loops|
    requires forall k, g :: 0 <= k < |s.loops| ==> (Due(t.loops[k], g) <==> Due(s.loops[k], g) || (k == j && g == f))
    requires FunctorOk(s, f) && Target(s, f) == j
    ensures DueOk(t)
  {
    forall k, g | 0 <= k < |t.loops| && Due(t.loops[k], g) ensures FunctorOk(t, g) && Target(t, g) == k {
      if Due(s.loops[k], g) { assert FunctorOk(s, g) && Target(s, g) == k; }
    }
  }

  lemma PushHolds(s: Server, t: Server, j: nat, e: EL.Event<Functor>, f: Functor)
    requires j < |s.loops| && Pushes(e, f) && Held(s, f.c) && t.loops == s.loops[j := EL.Apply(s.loops[j], e)]
    ensures forall k, c: Id :: 0 <= k < |t.loops| && LoopMentions(t.loops[k], c) ==> Held(s, c)
  {}

  /** A step that changes one loop's queues and one worker's tasks leaves the rest alone. */
  lemma LoopFrames(s: Server, t: Server, i: nat, added: seq<Task>, kept: seq<Task>)
    requires Inv(s) && Replaced(s, t, i, added, kept) && SameConns(s, t) && SameMap(s, t) && t.user == s.user
    requires SamePcs(s, t)
    requires forall x, d: Id :: x in added && TaskMentions(x, d) ==> Held(s, d)
    requires forall k, c: Id :: 0 <= k < |t.loops| && LoopMentions(t.loops[k], c) ==> Held(s, c)
    ensures ConnsOk(t) && TablesOk(t) && FdsOk(t) && Bounded(t) && NamesOk(t) && ActiveOk(t) && KeepsTasks(s, t)
  {
    hide LoopsOk, DueOk, TodosOk, WakersOk, ActiveOk, DoomOk, NamesOk, ConnsOk, TablesOk, FdsOk, Bounded, EstablishOnce,
      Held, LoopMentions, TaskMentions, SamePcs, KeepsTasks, NoNewHolds;
    ReplacedHolds(s, t, i, added, kept);
    ConnsFramed(s, t);
    NamesFramed(s, t);
    assert Onward(s, t);
    OnwardKeepsTasks(s, t);
    ActiveFramed(s, t);
  }

  /** A functor that was about to be queued is now queued: the commitments are the same. */
  lemma QueuedCommitments(s: Server, t: Server, i: nat, j: nat, f: Functor, added: seq<Task>)
    requires WellFormed(s) && WellFormed(t) && EstablishOnce(s) && DoomOk(s) && f.c < |s.conns|
    requires t.conns == s.conns && t.homes == s.homes && t.erased == s.erased
    requires i < |s.workers| && s.workers[i].todo != [] && s.workers[i].todo[0] == Queue(f)
    requires Replaced(s, t, i, added, s.workers[i].todo[1..]) && forall x :: x in added ==> x.WriteWake?
    requires Target(s, f) == j && (f.Callback? || Source(s, f) == i)
    requires forall k :: 0 <= k < |s.loops| && k != j ==> t.loops[k] == s.loops[k]
    requires forall k, g :: 0 <= k < |s.loops| ==> (Due(t.loops[k], g) <==> Due(s.loops[k], g) || (k == j && g == f))
    requires s.loops[j].next <= |s.loops[j].batch| && t.loops[j].next <= |t.loops[j].batch|
    requires EL.Outstanding(t.loops[j]) == EL.Outstanding(s.loops[j]) + [f]
    ensures Establishing(t, f.c) == Establishing(s, f.c)
    ensures t.conns[f.c].state == Disconnected ==> Doomed(t, f.c)
  {
    QueuedEstablish(s, t, i, j, f, added);
    QueuedDoom(s, t, i, j, f, added);
  }

  lemma QueuedEstablish(s: Server, t: Server, i: nat, j: nat, f: Functor, added: seq<Task>)
    requires WellFormed(s) && WellFormed(t) && f.c < |s.conns| && t.conns == s.conns && t.homes == s.homes
    requires i < |s.workers| && s.workers[i].todo != [] && s.workers[i].todo[0] == Queue(f)
    requires Replaced(s, t, i, added, s.workers[i].todo[1..]) && forall x :: x in added ==> x.WriteWake?
    requires Target(s, f) == j && (f.Callback? || Source(s, f) == i)
    requires forall k :: 0 <= k < |s.loops| && k != j ==> t.loops[k] == s.loops[k]
    requires s.loops[j].next <= |s.loops[j].batch| && t.loops[j].next <= |t.loops[j].batch|
    requires EL.Outstanding(t.loops[j]) == EL.Outstanding(s.loops[j]) + [f]
    ensures Establishing(t, f.c) == Establishing(s, f.c)
  {
    hide EL.Outstanding, Due;
    var q, c := EstablishConn(f.c), f.c;
    TailCount(s.workers[i].todo, added, Queue(q));
    TailCount(s.workers[i].todo, added, Call(q));
    NotAmong(added, Queue(q));
    NotAmong(added, Call(q));
    assert multiset(EL.Outstanding(t.loops[j]))[q] == multiset(EL.Outstanding(s.loops[j]))[q] + if f == q then 1 else 0;
  }

  lemma QueuedDoom(s: Server, t: Server, i: nat, j: nat, f: Functor, added: seq<Task>)
    requires WellFormed(s) && WellFormed(t) && DoomOk(s) && f.c < |s.conns|
    requires t.conns == s.conns && t.homes == s.homes && t.erased == s.erased
    requires i < |s.workers| && s.workers[i].todo != [] && s.workers[i].todo[0] == Queue(f)
    requires Replaced(s, t, i, added, s.workers[i].todo[1..])
    requires Target(s, f) == j && (f.Callback? || Source(s, f) == i)
    requires forall k, g :: 0 <= k < |s.loops| ==> (Due(t.loops[k], g) <==> Due(s.loops[k], g) || (k == j && g == f))
    ensures t.conns[f.c].state == Disconnected ==> Doomed(t, f.c)
  {}

  /** Worker `i` has pushed `f` on loop `j`; `added` is what that leaves to do. */
  ghost predicate QueuedOn(s: Server, t: Server, i: nat, j: nat, e: EL.Event<Functor>, f: Functor, added: seq<Task>) {
    && Heads(s, i, Queue(f)) && FunctorOk(s, f) && Target(s, f) == j && (f.Callback? || Source(s, f) == i)
    && j < |s.loops| && Pushes(e, f) && EL.Enabled(s.loops[j], e) && EL.Timely(s.loops[j], e)
    && (forall x :: x in added ==> x.WriteWake?)
    && t == WithTodo(WithLoop(s, j, e), i, added + s.workers[i].todo[1..])
  }

  lemma QueuedFrames(s: Server, t: Server, i: nat, j: nat, e: EL.Event<Functor>, f: Functor, added: seq<Task>)
    requires Inv(s) && QueuedOn(s, t, i, j, e, f, added)
    ensures WellFormed(t) && Replaced(s, t, i, added, s.workers[i].todo[1..]) && LoopsOk(t) && DueOk(t)
    ensures ConnsOk(t) && TablesOk(t) && FdsOk(t) && Bounded(t) && NamesOk(t) && ActiveOk(t)
    ensures SamePcs(s, t) && KeepsTasks(s, t) && DueOnlyAbout(s, t, f.c) && OthersUnchanged(s, t, f.c)
  {
    hide LoopsOk, DueOk, TodosOk, WakersOk, ActiveOk, DoomOk, NamesOk, ConnsOk, TablesOk, FdsOk, Bounded, EstablishOnce,
      Held, SamePcs, KeepsTasks, DueOnlyAbout, LoopMentions, EL.Apply, Due, Establishing, FunctorOk;
    HeadHeld(s, i, f.c);
    PushLoops(s, t, j, e, f);
    PushDue(s, t, j, f);
    PushDueOk(s, t, j, f);
    PushHolds(s, t, j, e, f);
    LoopFrames(s, t, i, added, s.workers[i].todo[1..]);
  }

  lemma QueuedCounts(s: Server, t: Server, i: nat, j: nat, e: EL.Event<Functor>, f: Functor, added: seq<Task>)
    requires Inv(s) && WellFormed(t) && QueuedOn(s, t, i, j, e, f, added) && LoopsOk(t)
    ensures Establishing(t, f.c) == if t.conns[f.c].state == Connecting then 1 else 0
    ensures t.conns[f.c].state == Disconnected ==> Doomed(t, f.c)
  {
    hide LoopsOk, DueOk, TodosOk, WakersOk, ActiveOk, DoomOk, NamesOk, ConnsOk, TablesOk, FdsOk, Bounded, EstablishOnce,
      DueOnlyAbout, EL.Apply, EL.Outstanding, Due, Establishing, Doomed;
    assert Replaced(s, t, i, added, s.workers[i].todo[1..]);
    PushLoops(s, t, j, e, f);
    PushDue(s, t, j, f);
    QueuedCommitments(s, t, i, j, f, added);
    EstablishingNow(s, f.c);
  }

  /** What is known of a worker about to queue `f`. */
  lemma AboutToQueue(s: Server, i: nat, k: Kernel, f: Functor)
    requires Inv(s) && Enabled(s, Work(i, k)) && Heads(s, i, Queue(f))
    ensures FunctorOk(s, f) && (f.Callback? || Source(s, f) == i) && Target(s, f) < |s.loops|
    ensures s.loops[i].pc in {EL.Dispatching, EL.Running} && !s.loops[i].owes
    ensures Target(s, f) != i ==> i !in s.loops[Target(s, f)].wakers
  {
    TodoAt(s, i);
  }

  lemma QueueOwnStep(s: Server, i: nat, k: Kernel, f: Functor)
    requires Inv(s) && Enabled(s, Work(i, k)) && Heads(s, i, Queue(f)) && f.c < |s.homes| && Target(s, f) == i
    ensures Inv(Move(s, Work(i, k)))
  {
    hide Inv, Doomed, SamePcs, SameWakers, KeepsTasks, DueOnlyAbout, OthersUnchanged, Establishing, EL.Apply, FunctorOk,
      LoopsOk, DueOk, ActiveOk, NamesOk, ConnsOk, TablesOk, FdsOk, Bounded;
    InvIsWellFormed(s);
    var added: seq<Task>, kept, e := [], s.workers[i].todo[1..], EL.OwnEnqueue(f);
    assert added + kept == kept;
    var t := Move(s, Work(i, k));
    AboutToQueue(s, i, k, f);
    assert QueuedOn(s, t, i, i, e, f, added);
    QueuedFrames(s, t, i, i, e, f, added);
    QueuedCounts(s, t, i, i, e, f, added);
    OwnPushWakers(s, t, i, f);
    AboutStep(s, t, i, added, kept, f.c);
  }

  lemma OwnPushWakers(s: Server, t: Server, i: nat, f: Functor)
    requires i < |s.loops| && t.loops == s.loops[i := EL.Apply(s.loops[i], EL.OwnEnqueue(f))]
    ensures SameWakers(s, t)
  {}

  lemma EstablishingNow(s: Server, c: Id)
    requires WellFormed(s) && EstablishOnce(s) && c < |s.conns|
    ensures Establishing(s, c) == if s.conns[c].state == Connecting then 1 else 0
  {}

  lemma QueueOtherWakers(s: Server, t: Server, i: nat, j: nat, f: Functor)
    requires WakersOk(s) && i < |s.workers| && j < |s.loops| && s.workers[i].todo != [] && NoWake(s.workers[i].todo[0])
    requires t.loops == s.loops[j := EL.Apply(s.loops[j], EL.Enqueue(i, f))]
    requires Replaced(s, t, i, [WriteWake(j)], s.workers[i].todo[1..])
    ensures WakersOk(t)
  {}

  lemma TailNoWake(s: Server, i: nat)
    requires i < |s.workers| == |s.loops| && TodoOk(s, i) && s.workers[i].todo != []
    ensures forall x :: x in s.workers[i].todo[1..] ==> !x.WriteWake?
  {}

  lemma QueueOtherStep(s: Server, i: nat, k: Kernel, f: Functor)
    requires Inv(s) && Enabled(s, Work(i, k)) && Heads(s, i, Queue(f)) && f.c < |s.homes| && Target(s, f) != i
    ensures Inv(Move(s, Work(i, k)))
  {
    hide Inv, Doomed, SamePcs, SameWakers, KeepsTasks, DueOnlyAbout, OthersUnchanged, Establishing, EL.Apply, FunctorOk,
      LoopsOk, DueOk, ActiveOk, NamesOk, ConnsOk, TablesOk, FdsOk, Bounded;
    InvIsWellFormed(s);
    var j := Target(s, f);
    var added, e := [WriteWake(j)], EL.Enqueue(i, f);
    var t := Move(s, Work(i, k));
    AboutToQueue(s, i, k, f);
    assert QueuedOn(s, t, i, j, e, f, added);
    QueuedFrames(s, t, i, j, e, f, added);
    QueuedCounts(s, t, i, j, e, f, added);
    QueuedOther(s, t, i, j, f, added);
  }

  lemma QueuedOther(s: Server, t: Server, i: nat, j: nat, f: Functor, added: seq<Task>)
    requires Inv(s) && QueuedOn(s, t, i, j, EL.Enqueue(i, f), f, added) && added == [WriteWake(j)] && i != j
    requires WellFormed(t) && Replaced(s, t, i, added, s.workers[i].todo[1..]) && LoopsOk(t) && DueOk(t)
    requires ConnsOk(t) && TablesOk(t) && FdsOk(t) && Bounded(t) && NamesOk(t) && ActiveOk(t)
    requires SamePcs(s, t) && KeepsTasks(s, t) && DueOnlyAbout(s, t, f.c) && OthersUnchanged(s, t, f.c)
    requires Establishing(t, f.c) == if t.conns[f.c].state == Connecting then 1 else 0
    requires t.conns[f.c].state == Disconnected ==> Doomed(t, f.c)
    ensures Inv(t)
  {
    hide LoopsOk, DueOk, TodosOk, WakersOk, ActiveOk, DoomOk, NamesOk, ConnsOk, TablesOk, FdsOk, Bounded, EstablishOnce,
      Doomed, SamePcs, KeepsTasks, DueOnlyAbout, OthersUnchanged, Establishing, EL.Apply, TodoOk, OnlyAbout, FunctorOk;
    var kept := s.workers[i].todo[1..];
    TodoAt(s, i);
    QueueOtherWakers(s, t, i, j, f);
    ReplacedOnlyAbout(s, t, i, added, kept, f.c);
    EstablishElsewhere(s, t, i, f.c);
    DoomElsewhere(s, t, i, f.c);
    TailNoWake(s, i);
    assert (added + kept)[1..] == kept;
    ReplacedTodos(s, t, i, added, kept);
    Assemble(t);
  }

  // ---------------------------------------------------------------- the eventfd write

  lemma WakeWakers(s: Server, t: Server, i: nat, j: nat)
    requires WakersOk(s) && TodosOk(s) && i < |s.workers| && j < |s.loops| && s.workers[i].todo != []
    requires s.workers[i].todo[0] == WriteWake(j)
    requires t.loops == s.loops[j := EL.Apply(s.loops[j], EL.Wake(i))]
    requires Replaced(s, t, i, [], s.workers[i].todo[1..])
    ensures WakersOk(t)
  {
    assert TodoOk(s, i);
    forall k, l | 0 <= k < |t.workers| && 0 <= l < |t.loops|
      ensures k in t.loops[l].wakers <==> AboutToWake(t.workers[k], l)
    {
      assert k in s.loops[l].wakers <==> AboutToWake(s.workers[k], l);
      if k == i && t.workers[i].todo != [] { assert t.workers[i].todo[0] in s.workers[i].todo[1..]; }
    }
  }

  lemma WakeStep(s: Server, i: nat, k: Kernel)
    requires Inv(s) && Enabled(s, Work(i, k)) && s.workers[i].todo[0].WriteWake?
    ensures Inv(Move(s, Work(i, k)))
  {
    hide LoopsOk, DueOk, TodosOk, WakersOk, ActiveOk, DoomOk, NamesOk, ConnsOk, TablesOk, FdsOk, Bounded, EstablishOnce,
      NoNewHolds, Held, LoopMentions, EL.LoopInv, TodoOk, SameDue, KeepsTasks;
    var j := s.workers[i].todo[0].j;
    var added: seq<Task>, kept := [], s.workers[i].todo[1..];
    assert added + kept == kept;
    var e: EL.Event<Functor> := EL.Wake(i);
    var u := WithLoop(s, j, e);
    var t := WithTodo(u, i, added + kept);
    TodoAt(s, i);
    assert Replaced(s, t, i, added, kept);
    SilentDue(s, j, e);
    SameDueLoops(s, u, t);
    SilentMentions(s, t, j, e);
    assert SamePcs(s, t);
    LoopFrames(s, t, i, added, kept);
    assert SamePhase(s, t);
    PlainTokens(s, t, i, added, kept);
    TailNoWake(s, i);
    ReplacedTodos(s, t, i, added, kept);
    WakeWakers(s, t, i, j);
    PhaseOnward(s, t);
    DuePhaseFramed(s, t);
    Assemble(t);
  }

  lemma SameDueLoops(s: Server, u: Server, t: Server)
    requires SameDue(s, u) && LoopsOk(u) && t.loops == u.loops
    ensures SameDue(s, t) && LoopsOk(t)
  {}

  lemma SilentMentions(s: Server, t: Server, j: nat, e: EL.Event<Functor>)
    requires j < |s.loops| && Silent(e) && t.loops == s.loops[j := EL.Apply(s.loops[j], e)]
    ensures forall k, c: Id :: 0 <= k < |t.loops| && LoopMentions(t.loops[k], c) ==> Held(s, c)
  {}

  // ---------------------------------------------------------------- an outside thread queues a callback

  lemma OutsidePushCommitments(s: Server, t: Server, j: nat, f: Functor)
    requires WellFormed(s) && WellFormed(t) && EstablishOnce(s) && DoomOk(s) && f.Callback? && j < |s.loops|
    requires t.conns == s.conns && t.homes == s.homes && t.erased == s.erased && t.workers == s.workers
    requires DueOnlyAbout(s, t, f.c) && f.c < |s.conns|
    requires forall k :: 0 <= k < |s.loops| && k != j ==> t.loops[k] == s.loops[k]
    requires forall k, g :: 0 <= k < |s.loops| ==> (Due(t.loops[k], g) <==> Due(s.loops[k], g) || (k == j && g == f))
    requires s.loops[j].next <= |s.loops[j].batch| && t.loops[j].next <= |t.loops[j].batch|
    requires EL.Outstanding(t.loops[j]) == EL.Outstanding(s.loops[j]) + [f]
    ensures EstablishOnce(t) && DoomOk(t)
  {
    var c := f.c;
    assert OnlyAbout(s, t, 0, c);
    var q := EstablishConn(c);
    assert multiset(EL.Outstanding(t.loops[j]))[q] == multiset(EL.Outstanding(s.loops[j]))[q];
    assert Establishing(t, c) == Establishing(s, c);
    assert t.conns[c].state == Disconnected ==> Doomed(s, c) && Doomed(t, c);
    EstablishElsewhere(s, t, 0, c);
    DoomElsewhere(s, t, 0, c);
  }

  lemma OutsidePushStep(s: Server, th: EL.Thread, j: nat, e: EL.Event<Functor>)
    requires Inv(s) && Enabled(s, External(th, j, e)) && e.Enqueue?
    ensures Inv(Move(s, External(th, j, e)))
  {
    hide LoopsOk, DueOk, TodosOk, WakersOk, ActiveOk, DoomOk, NamesOk, ConnsOk, TablesOk, FdsOk, Bounded, EstablishOnce,
      NoNewHolds, Held, LoopMentions, EL.LoopInv, TodoOk, DueOnlyAbout;
    var t := WithLoop(s, j, e);
    UserHeld(s, e.f.c);
    PushLoops(s, t, j, e, e.f);
    PushDue(s, t, j, e.f);
    PushDueOk(s, t, j, e.f);
    PushHolds(s, t, j, e, e.f);
    HeldHere(s);
    UserAllHeld(s);
    HoldsFrom(s, t);
    ConnsFramed(s, t);
    NamesFramed(s, t);
    OutsidePushCommitments(s, t, j, e.f);
    OutsideTodos(s, th, j, e);
    Assemble(t);
  }

  lemma UserHeld(s: Server, c: Id)
    requires c in s.user
    ensures Held(s, c)
  {}

  lemma UserAllHeld(s: Server)
    ensures forall c :: c in s.user ==> Held(s, c)
  {}

  // ---------------------------------------------------------------- taking the next functor of a batch

  lemma TakeDue(s: Server, t: Server, i: nat, f: Functor)
    requires LoopsOk(s) && i < |s.loops| && EL.Enabled(s.loops[i], EL.RunNext) && f == s.loops[i].batch[s.loops[i].next]
    requires t.loops == s.loops[i := EL.Apply(s.loops[i], EL.RunNext)]
    ensures LoopsOk(t) && SamePcs(s, t) && SameWakers(s, t)
    ensures s.loops[i].next <= |s.loops[i].batch| && t.loops[i].next <= |t.loops[i].batch|
    ensures EL.Outstanding(s.loops[i]) == [f] + EL.Outstanding(t.loops[i])
  {}

  lemma TakenDue(s: Server, t: Server, i: nat, f: Functor)
    requires LoopsOk(s) && LoopsOk(t) && i < |s.loops| == |t.loops|
    requires forall k :: 0 <= k < |s.loops| && k != i ==> t.loops[k] == s.loops[k]
    requires s.loops[i].next <= |s.loops[i].batch| && t.loops[i].next <= |t.loops[i].batch|
    requires EL.Outstanding(s.loops[i]) == [f] + EL.Outstanding(t.loops[i])
    ensures DueOnlyAbout(s, t, f.c) && Due(s.loops[i], f)
    ensures forall k, g :: 0 <= k < |s.loops| ==> (Due(s.loops[k], g) <==> Due(t.loops[k], g) || (k == i && g == f))
  {}

  lemma TakenDueOk(s: Server, t: Server, i: nat, f: Functor)
    requires DueOk(s) && t.conns == s.conns && t.homes == s.homes && |t.loops| == |s.loops| && i < |s.loops|
    requires forall k, g :: 0 <= k < |s.loops| ==> (Due(s.loops[k], g) <==> Due(t.loops[k], g) || (k == i && g == f))
    ensures DueOk(t) && FunctorOk(s, f) && Target(s, f) == i
  {
    assert Due(s.loops[i], f);
    assert FunctorOk(s, f) && Target(s, f) == i;
    forall k, g | 0 <= k < |t.loops| && Due(t.loops[k], g) ensures FunctorOk(t, g) && Target(t, g) == k {
      assert Due(s.loops[k], g);
      assert FunctorOk(s, g) && Target(s, g) == k;
    }
  }

  lemma TakenCommitments(s: Server, t: Server, i: nat, f: Functor)
    requires WellFormed(s) && WellFormed(t) && DoomOk(s) && f.c < |s.conns|
    requires t.conns == s.conns && t.homes == s.homes && t.erased == s.erased
    requires i < |s.workers| && s.workers[i].todo == [] && Replaced(s, t, i, [Call(f)], []) && Target(s, f) == i
    requires forall k :: 0 <= k < |s.loops| && k != i ==> t.loops[k] == s.loops[k]
    requires forall k, g :: 0 <= k < |s.loops| ==> (Due(s.loops[k], g) <==> Due(t.loops[k], g) || (k == i && g == f))
    requires s.loops[i].next <= |s.loops[i].batch| && t.loops[i].next <= |t.loops[i].batch|
    requires EL.Outstanding(s.loops[i]) == [f] + EL.Outstanding(t.loops[i])
    ensures Establishing(t, f.c) == Establishing(s, f.c)
    ensures t.conns[f.c].state == Disconnected ==> Doomed(t, f.c)
  {
    var c, q := f.c, EstablishConn(f.c);
    assert t.workers[i].todo == [Call(f)];
    assert multiset(EL.Outstanding(s.loops[i])) == multiset([f]) + multiset(EL.Outstanding(t.loops[i]));
    assert multiset([f])[q] == if f == q then 1 else 0;
    assert multiset([Call(f)])[Call(q)] == if f == q then 1 else 0;
    assert multiset([Call(f)])[Queue(q)] == 0;
    if t.conns[c].state == Disconnected { assert Doomed(s, c); }
  }

  /** Worker `i` has taken `f` off its batch and is about to call it. */
  ghost predicate TakenBy(s: Server, t: Server, i: nat, f: Functor) {
    && i < |s.loops| && |s.workers| == |s.loops| && EL.Enabled(s.loops[i], EL.RunNext)
    && f == s.loops[i].batch[s.loops[i].next] && s.workers[i].todo == []
    && t == WithTodo(WithLoop(s, i, EL.RunNext), i, [Call(f)])
  }

  lemma NextFrames(s: Server, t: Server, i: nat, f: Functor)
    requires Inv(s) && TakenBy(s, t, i, f)
    ensures WellFormed(t) && Replaced(s, t, i, [Call(f)], []) && LoopsOk(t) && DueOk(t) && FunctorOk(s, f)
    ensures Target(s, f) == i
    ensures ConnsOk(t) && TablesOk(t) && FdsOk(t) && Bounded(t) && NamesOk(t) && ActiveOk(t)
    ensures SamePcs(s, t) && SameWakers(s, t) && KeepsTasks(s, t) && DueOnlyAbout(s, t, f.c)
    ensures OthersUnchanged(s, t, f.c)
  {
    hide LoopsOk, DueOk, TodosOk, WakersOk, ActiveOk, DoomOk, NamesOk, ConnsOk, TablesOk, FdsOk, Bounded, EstablishOnce,
      Held, SamePcs, SameWakers, KeepsTasks, DueOnlyAbout, LoopMentions, EL.Apply, Due, Establishing, FunctorOk;
    assert [Call(f)] + [] == [Call(f)];
    TakeDue(s, t, i, f);
    TakenDue(s, t, i, f);
    TakenDueOk(s, t, i, f);
    DueIsHeld(s, i, f);
    TakeMentions(s, t, i);
    LoopFrames(s, t, i, [Call(f)], []);
  }

  lemma NextCounts(s: Server, t: Server, i: nat, f: Functor)
    requires Inv(s) && WellFormed(t) && TakenBy(s, t, i, f) && f.c < |s.homes| && Target(s, f) == i && LoopsOk(t)
    requires f.c < |t.conns|
    ensures Establishing(t, f.c) == if t.conns[f.c].state == Connecting then 1 else 0
    ensures t.conns[f.c].state == Disconnected ==> Doomed(t, f.c)
  {
    hide LoopsOk, DueOk, TodosOk, WakersOk, ActiveOk, DoomOk, NamesOk, ConnsOk, TablesOk, FdsOk, Bounded, EstablishOnce,
      DueOnlyAbout, EL.Apply, EL.Outstanding, Due, Establishing, Doomed;
    assert [Call(f)] + [] == [Call(f)];
    TakeDue(s, t, i, f);
    TakenDue(s, t, i, f);
    TakenCommitments(s, t, i, f);
    EstablishingNow(s, f.c);
  }

  lemma NextStep(s: Server, i: nat)
    requires Inv(s) && Enabled(s, Next(i))
    ensures Inv(Move(s, Next(i)))
  {
    hide Inv, Doomed, SamePcs, SameWakers, KeepsTasks, DueOnlyAbout, OthersUnchanged, Establishing, EL.Apply,
      LoopsOk, DueOk, ActiveOk, NamesOk, ConnsOk, TablesOk, FdsOk, Bounded;
    InvIsWellFormed(s);
    var f := s.loops[i].batch[s.loops[i].next];
    var t := Move(s, Next(i));
    NextFrames(s, t, i, f);
    NextCounts(s, t, i, f);
    PcOf(s, t, i);
    AboutStep(s, t, i, [Call(f)], [], f.c);
  }

  lemma PcOf(s: Server, t: Server, i: nat)
    requires SamePcs(s, t) && i < |s.loops|
    ensures t.loops[i].pc == s.loops[i].pc
  {}

  lemma DueIsHeld(s: Server, i: nat, f: Functor)
    requires i < |s.loops| && Due(s.loops[i], f)
    ensures Held(s, f.c)
  {}

  lemma TakeMentions(s: Server, t: Server, i: nat)
    requires i < |s.loops| && t.loops == s.loops[i := EL.Apply(s.loops[i], EL.RunNext)]
    ensures forall k, c: Id :: 0 <= k < |t.loops| && LoopMentions(t.loops[k], c) ==> Held(s, c)
  {}
}
