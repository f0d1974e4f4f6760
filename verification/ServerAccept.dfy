/** Accepting a connection keeps the invariant, and so, with the other modules, does every step. */
module ServerAccept {
  import opened Buffers
  import opened Connections
  import opened Servers
  import opened ServerInvariant
  import opened ServerSteps
  import opened ServerTasks
  import opened ServerMoves
  import opened ServerLifecycle
  import opened ServerQueues
  import EL = EventLoops

  /** The server after newConnection: connection `c` is the next identity. */
  ghost predicate Accepted(s: Server, t: Server, fd: int) {
    WellFormed(s) && Enabled(s, Accept(fd)) && t == NewConnection(s, fd)
  }

  lemma NewWellFormed(s: Server, t: Server, fd: int)
    requires Accepted(s, t, fd)
    ensures WellFormed(t)
  {}

  lemma NewNames(s: Server, t: Server, fd: int)
    requires Accepted(s, t, fd) && NamesOk(s)
    ensures NamesOk(t) && t.names.Values <= s.names.Values + {|s.conns|}
  {
    hide NameOf;
    var c := |s.conns|;
    var n := NameOf(s.cfg, c);
    if n in s.names { NewWellFormed(s, t, fd); NamesInjective(t, s.names[n], c); }
    forall d | 0 <= d < |t.conns|
      ensures d !in t.erased <==> NameOf(t.cfg, d) in t.names && t.names[NameOf(t.cfg, d)] == d
    {
      if d != c && NameOf(t.cfg, d) == n { NewWellFormed(s, t, fd); NamesInjective(t, d, c); }
    }
  }

  lemma NewTasks(s: Server, t: Server, fd: int)
    requires Accepted(s, t, fd) && TodosOk(s) && WakersOk(s) && ActiveOk(s)
    ensures TodosOk(t) && WakersOk(t) && ActiveOk(t)
  {
    var c := |s.conns|;
    var added, kept: seq<Task> := t.workers[0].todo, [];
    assert added + kept == added;
    assert Replaced(s, t, 0, added, kept);
    SameLoops(s, t);
    NewTaskOk(s, t, fd);
    NewActive(s, t, fd);
    hide TaskOk, TodoOk, NewConnection, WakersOk, TodosOk, ActiveOk, SamePcs, SameWakers, KeepsTasks;
    ReplacedTodos(s, t, 0, added, kept);
    ReplacedWakers(s, t, 0, added, kept);
  }

  lemma NewTaskOk(s: Server, t: Server, fd: int)
    requires Accepted(s, t, fd)
    ensures |t.workers| == |s.workers| == |s.loops| == |t.loops| && KeepsTasks(s, t)
    ensures forall x :: x in t.workers[0].todo ==> TaskOk(t, 0, x) && NoWake(x)
  {}

  lemma NewActive(s: Server, t: Server, fd: int)
    requires Accepted(s, t, fd) && ActiveOk(s)
    ensures ActiveOk(t)
  {}

  lemma NewDue(s: Server, t: Server, fd: int)
    requires Accepted(s, t, fd) && DueOk(s)
    ensures DueOk(t)
  {
    forall j, f | 0 <= j < |t.loops| && Due(t.loops[j], f) ensures FunctorOk(t, f) && Target(t, f) == j {
      assert Due(s.loops[j], f);
      assert FunctorOk(s, f) && Target(s, f) == j;
    }
  }

  lemma DueBounded(s: Server, j: nat, f: Functor)
    requires DueOk(s) && j < |s.loops| && Due(s.loops[j], f)
    ensures f.c < |s.conns|
  {
    assert FunctorOk(s, f);
  }

  /** Nobody has heard of the new connection before. */
  lemma NewUnheard(s: Server, j: nat, c: Id)
    requires DueOk(s) && TodosOk(s) && LoopsOk(s) && j < |s.loops| && |s.conns| <= c
    ensures s.loops[j].next <= |s.loops[j].batch|
    ensures multiset(EL.Outstanding(s.loops[j]))[EstablishConn(c)] == 0
    ensures multiset(s.workers[j].todo)[Call(EstablishConn(c))] == 0
    ensures multiset(s.workers[j].todo)[Queue(EstablishConn(c))] == 0
  {
    assert EL.LoopInv(s.loops[j]);
    var f := EstablishConn(c);
    if f in EL.Outstanding(s.loops[j]) { DueBounded(s, j, f); }
    assert TodoOk(s, j);
    assert Call(EstablishConn(c)) in s.workers[j].todo ==> TaskOk(s, j, Call(EstablishConn(c)));
    assert Queue(EstablishConn(c)) in s.workers[j].todo ==> TaskOk(s, j, Queue(EstablishConn(c)));
  }

  lemma NewEstablish(s: Server, t: Server, fd: int)
    requires Accepted(s, t, fd) && WellFormed(t) && EstablishOnce(s) && DueOk(s) && TodosOk(s) && LoopsOk(s)
    ensures EstablishOnce(t)
  {
    var c := |s.conns|;
    var h := t.homes[c];
    forall d | 0 <= d < |t.conns| ensures Establishing(t, d) == if t.conns[d].state == Connecting then 1 else 0 {
      if d == c {
        NewUnheard(s, h, c);
        if h == 0 {
          assert t.workers[0].todo == [Call(EstablishConn(c)), Finish(c)];
          assert multiset(t.workers[0].todo) == multiset{Call(EstablishConn(c)), Finish(c)};
        } else {
          assert t.workers[0].todo == [Queue(EstablishConn(c)), Finish(c)];
          assert multiset(t.workers[0].todo) == multiset{Queue(EstablishConn(c)), Finish(c)};
        }
      } else {
        NotAmong(t.workers[0].todo, Queue(EstablishConn(d)));
        NotAmong(t.workers[0].todo, Call(EstablishConn(d)));
        NotAmong(s.workers[0].todo, Queue(EstablishConn(d)));
        NotAmong(s.workers[0].todo, Call(EstablishConn(d)));
        assert Establishing(t, d) == Establishing(s, d);
      }
    }
  }

  lemma NewDoom(s: Server, t: Server, fd: int)
    requires Accepted(s, t, fd) && WellFormed(t) && DoomOk(s)
    ensures DoomOk(t)
  {}

  lemma NewHolds(s: Server, t: Server, fd: int)
    requires Accepted(s, t, fd) && t.names.Values <= s.names.Values + {|s.conns|}
    ensures forall d: Id :: Held(t, d) ==> Held(s, d) || d == |s.conns|
  {}

  lemma FreshDescriptor(s: Server, t: Server, fd: int, i: nat)
    requires Inv(s) && Accepted(s, t, fd) && i < |s.tables|
    ensures fd !in s.tables[i].channels && fd !in s.tables[i].kernel && !s.tables[i].failed
  {
    assert TableOk(s, i);
    if fd in s.tables[i].channels { RegisteredIsHeld(s, s.tables[i].channels[fd]); }
  }

  lemma NewConnsOk(s: Server, t: Server, fd: int)
    requires ConnsOk(s) && Accepted(s, t, fd) && WellFormed(t)
    requires forall d: Id :: Held(t, d) ==> Held(s, d) || d == |s.conns|
    requires fd !in t.tables[t.homes[|s.conns|]].channels && fd !in t.tables[t.homes[|s.conns|]].kernel
    ensures ConnsOk(t)
  {}

  lemma NewTablesOk(s: Server, t: Server, fd: int)
    requires TablesOk(s) && Accepted(s, t, fd) && WellFormed(t)
    ensures TablesOk(t)
  {
    forall i | 0 <= i < |t.tables| ensures TableOk(t, i) { assert TableOk(s, i); }
  }

  lemma NewFds(s: Server, t: Server, fd: int)
    requires FdsOk(s) && Bounded(s) && Accepted(s, t, fd) && WellFormed(t)
    requires forall d: Id :: Held(t, d) ==> Held(s, d) || d == |s.conns|
    ensures FdsOk(t) && Bounded(t)
  {}

  lemma AcceptStep(s: Server, fd: int)
    requires Inv(s) && Enabled(s, Accept(fd))
    ensures Inv(Move(s, Accept(fd)))
  {
    hide LoopsOk, DueOk, TodosOk, WakersOk, ActiveOk, DoomOk, NamesOk, ConnsOk, TablesOk, FdsOk, Bounded, EstablishOnce,
      Held, NameOf;
    var t := NewConnection(s, fd);
    assert Accepted(s, t, fd);
    NewWellFormed(s, t, fd);
    NewNames(s, t, fd);
    NewTasks(s, t, fd);
    NewDue(s, t, fd);
    NewEstablish(s, t, fd);
    NewDoom(s, t, fd);
    NewHolds(s, t, fd);
    FreshDescriptor(s, t, fd, t.homes[|s.conns|]);
    NewConnsOk(s, t, fd);
    NewTablesOk(s, t, fd);
    NewFds(s, t, fd);
    SameLoops(s, t);
    Assemble(t);
  }

  // ---------------------------------------------------------------- every step

  lemma HaltStep(s: Server, i: nat, k: Kernel)
    requires Inv(s) && Enabled(s, Work(i, k)) && s.workers[i].todo[0].OnError?
    ensures Move(s, Work(i, k)).halted
  {}

  lemma WorkKeepsInv(s: Server, i: nat, k: Kernel)
    requires Inv(s) && Enabled(s, Work(i, k))
    ensures var t := Move(s, Work(i, k)); t.halted || Inv(t)
  {
    hide LoopsOk, DueOk, TodosOk, WakersOk, ActiveOk, DoomOk, NamesOk, ConnsOk, TablesOk, FdsOk, Bounded,
      EstablishOnce, Move;
    match s.workers[i].todo[0]
    case OnClose(c) => OnCloseStep(s, i, k);
    case OnError(c) => HaltStep(s, i, k);
    case OnRead(c) => if k.read == Got([]) { OnCloseStep(s, i, k); } else { DataReadStep(s, i, k); }
    case OnWrite(c) => OnWriteStep(s, i, k);
    case UserCode(c) =>
    case CloseCallback(c) => CloseCallbackStep(s, i, k);
    case Call(f) => {
      match f
      case EstablishConn(c) => EstablishStep(s, i, k, c);
      case RemoveConn(c) => RemoveStep(s, i, k, c);
      case DestroyConn(c) => DestroyStep(s, i, k, c);
      case Callback(c) => SmallWorkStep(s, i, k);
    }
    case Queue(f) => if Target(s, f) == i { QueueOwnStep(s, i, k, f); } else { QueueOtherStep(s, i, k, f); }
    case WriteWake(j) => WakeStep(s, i, k);
    case Finish(c) => SmallWorkStep(s, i, k);
  }

  lemma KeepStep(s: Server, i: nat, c: Id)
    requires Inv(s) && Enabled(s, User(i, Keep(c)))
    ensures Inv(Move(s, User(i, Keep(c))))
  {
    hide LoopsOk, DueOk, TodosOk, WakersOk, ActiveOk, DoomOk, NamesOk, ConnsOk, TablesOk, FdsOk, Bounded,
      EstablishOnce, ServerHeld;
    HeadHeld(s, i, s.workers[i].todo[0].c);
    UserSetStep(s, s.user + {c});
  }

  lemma ForgetStep(s: Server, c: Id)
    requires Inv(s) && Enabled(s, Forget(c))
    ensures Inv(Move(s, Forget(c)))
  {
    UserSetStep(s, s.user - {c});
  }

  /** The induction step: whatever any thread does next, the invariant survives it, unless
    * what it does ends the process. */
  lemma MoveKeepsInv(s: Server, a: Act)
    requires Inv(s) && Enabled(s, a)
    ensures Move(s, a).halted || Inv(Move(s, a))
  {
    hide LoopsOk, DueOk, TodosOk, WakersOk, ActiveOk, DoomOk, NamesOk, ConnsOk, TablesOk, FdsOk, Bounded,
      EstablishOnce, Move;
    match a
    case Local(i, e) => LocalStep(s, i, e);
    case Poll(i, wake, ready) => PollStep(s, i, wake, ready);
    case Dispatch(i) => DispatchStep(s, i);
    case Accept(fd) => AcceptStep(s, fd);
    case Next(i) => NextStep(s, i);
    case Work(i, k) => WorkKeepsInv(s, i, k);
    case User(i, u) => {
      match u
      case On(c, x) => UserDoesStep(s, i, u);
      case QueueTask(c) => UserOtherStep(s, i, u);
      case Keep(c) => KeepStep(s, i, c);
      case Return => UserOtherStep(s, i, u);
    }
    case External(t, j, e) => if e.Enqueue? { OutsidePushStep(s, t, j, e); } else { OutsideStep(s, t, j, e); }
    case Forget(c) => ForgetStep(s, c);
  }
}
