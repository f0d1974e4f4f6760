/** The steps that dispatch, close, establish, remove and destroy connections. */
module ServerLifecycle {
  import opened Buffers
  import opened Polling
  import opened Connections
  import opened Servers
  import opened ServerInvariant
  import opened ServerSteps
  import opened ServerTasks
  import opened ServerMoves
  import Naming
  import EL = EventLoops

  // ---------------------------------------------------------------- the user's pointers

  lemma UserSetStep(s: Server, user: set<Id>)
    requires Inv(s) && forall c :: c in user ==> Held(s, c)
    ensures Inv(s.(user := user))
  {
    var t := s.(user := user);
    UserSetParts(s, t);
    UserSetCore(s, t);
    InvParts(t);
  }

  lemma UserSetParts(s: Server, t: Server)
    requires TodosOk(s) && WakersOk(s) && ActiveOk(s) && t == s.(user := t.user)
    ensures TodosOk(t) && WakersOk(t) && ActiveOk(t)
  {
    forall i | 0 <= i < |t.workers| ensures TodoOk(t, i) { assert TodoOk(s, i); }
  }

  lemma UserSetCore(s: Server, t: Server)
    requires Inv(s) && t == s.(user := t.user) && forall c :: c in t.user ==> Held(s, c)
    ensures Core(t)
  {
    hide LoopsOk, DueOk, TodosOk, WakersOk, ActiveOk, DoomOk, NamesOk, ConnsOk, TablesOk, FdsOk, Bounded, EstablishOnce;
    HeldHere(s);
    HoldsFrom(s, t);
    SameLoops(s, t);
    SilentCore(s, t);
  }

  // ---------------------------------------------------------------- dispatch

  lemma DropActive(s: Server, i: nat)
    requires Inv(s) && i < |s.workers| && s.workers[i].active != []
    ensures Inv(s.(workers := s.workers[i := Worker(s.workers[i].active[1..], s.workers[i].todo)]))
  {
    hide LoopsOk, DueOk, DoomOk, NamesOk, ConnsOk, TablesOk, FdsOk, Bounded, EstablishOnce;
    var t := s.(workers := s.workers[i := Worker(s.workers[i].active[1..], s.workers[i].todo)]);
    assert SameTodos(s, t);
    HeldHere(s);
    HoldsFrom(s, t);
    SameLoops(s, t);
    SilentCore(s, t);
    DropActiveParts(s, t, i);
    InvParts(t);
  }

  lemma DropActiveParts(s: Server, t: Server, i: nat)
    requires TodosOk(s) && WakersOk(s) && ActiveOk(s) && i < |s.workers| && s.workers[i].active != []
    requires t == s.(workers := s.workers[i := Worker(s.workers[i].active[1..], s.workers[i].todo)])
    ensures TodosOk(t) && WakersOk(t) && ActiveOk(t)
  {
    forall k | 0 <= k < |t.workers| ensures TodoOk(t, k) { assert TodoOk(s, k); }
    forall k, j | 0 <= k < |t.workers| && 0 <= j < |t.loops|
      ensures k in t.loops[j].wakers <==> AboutToWake(t.workers[k], j)
    {
      assert AboutToWake(t.workers[k], j) <==> AboutToWake(s.workers[k], j);
    }
  }

  lemma TasksForOk(s: Server, i: nat, c: Id, m: Mask)
    requires i < |s.loops| && Present(s, i, c) && s.loops[i].pc == EL.Dispatching
    ensures forall x :: x in TasksFor(c, m) ==> Plain(x) && NoWake(x) && TaskOk(s, i, x)
    ensures forall x, d: Id :: x in TasksFor(c, m) && TaskMentions(x, d) ==> d == c
  {}

  lemma DispatchStep(s: Server, i: nat)
    requires Inv(s) && Enabled(s, Dispatch(i))
    ensures Inv(Move(s, Dispatch(i)))
  {
    hide LoopsOk, DueOk, TodosOk, WakersOk, ActiveOk, DoomOk, NamesOk, ConnsOk, TablesOk, FdsOk, Bounded, EstablishOnce,
      TasksFor, TaskOk, Plain, TaskMentions, Held, NoNewHolds;
    var x := s.workers[i].active[0];
    var u := s.(workers := s.workers[i := Worker(s.workers[i].active[1..], s.workers[i].todo)]);
    var added, kept := TasksFor(x.0, x.1), u.workers[i].todo;
    ActiveHeld(s, i, x);
    DropActive(s, i);
    assert added + kept == added;
    var t := WithTodo(u, i, added + kept);
    TasksForOk(u, i, x.0, x.1);
    assert Replaced(u, t, i, added, kept);
    StillHeld(s, u, x.0);
    HeldHere(u);
    ReplacedHolds(u, t, i, added, kept);
    ConnsFramed(u, t);
    PlainStep(u, t, i, added, kept);
    assert Move(s, Dispatch(i)) == t;
  }

  lemma ActiveHeld(s: Server, i: nat, x: (Id, Mask))
    requires Inv(s) && i < |s.workers| && x in s.workers[i].active
    ensures Present(s, i, x.0) && Held(s, x.0) && s.loops[i].pc == EL.Dispatching
  {
    RegisteredIsHeld(s, x.0);
  }

  lemma StillHeld(s: Server, u: Server, c: Id)
    requires SameTodos(s, u) && u.loops == s.loops && u.names == s.names && u.user == s.user && Held(s, c)
    ensures Held(u, c)
  {}

  // ---------------------------------------------------------------- special steps about one connection

  /** Everything but the commitments about `c` itself, for a step that replaces tasks about `c`. */
  lemma AboutStep(s: Server, t: Server, i: nat, added: seq<Task>, kept: seq<Task>, c: Id)
    requires Inv(s) && WellFormed(t) && Replaced(s, t, i, added, kept) && s.loops[i].pc in {EL.Dispatching, EL.Running}
    requires s.workers[i].todo != [] ==> NoWake(s.workers[i].todo[0])
    requires kept != s.workers[i].todo ==> TaskMentions(s.workers[i].todo[0], c)
    requires forall x :: x in added ==> TaskMentions(x, c) && NoWake(x) && TaskOk(t, i, x)
    requires SamePcs(s, t) && SameWakers(s, t) && KeepsTasks(s, t) && DueOnlyAbout(s, t, c) && OthersUnchanged(s, t, c)
    requires LoopsOk(t) && DueOk(t) && ActiveOk(t) && NamesOk(t) && ConnsOk(t) && TablesOk(t) && FdsOk(t)
    requires Bounded(t) && !t.fault
    requires c < |s.conns|
    requires Establishing(t, c) == if t.conns[c].state == Connecting then 1 else 0
    requires t.conns[c].state == Disconnected ==> Doomed(t, c)
    ensures Inv(t)
  {
    hide LoopsOk, DueOk, TodosOk, WakersOk, ActiveOk, DoomOk, NamesOk, ConnsOk, TablesOk, FdsOk, Bounded, EstablishOnce,
      SamePcs, SameWakers, TaskOk, TodoOk, KeepsTasks, DueOnlyAbout, OthersUnchanged, Doomed, Establishing,
      WellFormed, OnlyAbout,
      TaskMentions;
    TodoAt(s, i);
    ReplacedOnlyAbout(s, t, i, added, kept, c);
    EstablishElsewhere(s, t, i, c);
    DoomElsewhere(s, t, i, c);
    TailsNoWake(s, t, i, added, kept);
    ReplacedTodos(s, t, i, added, kept);
    ReplacedWakers(s, t, i, added, kept);
    Assemble(t);
  }

  /** What a handler of `c` leaves alone. */
  lemma HandledFrames(s: Server, t: Server, i: nat, added: seq<Task>, kept: seq<Task>, c: Id)
    requires |s.workers| == |s.loops| && LoopsOk(s) && DueOk(s) && ActiveOk(s) && NamesOk(s)
    requires Replaced(s, t, i, added, kept) && Onward(s, t) && SameMap(s, t) && t.loops == s.loops
    ensures SamePcs(s, t) && SameWakers(s, t) && KeepsTasks(s, t) && SameDue(s, t) && DueOnlyAbout(s, t, c)
    ensures LoopsOk(t) && DueOk(t) && ActiveOk(t) && NamesOk(t)
  {
    hide Onward, LoopsOk, DueOk, ActiveOk, NamesOk, KeepsTasks;
    SameLoops(s, t);
    OnwardKeepsTasks(s, t);
    SameDueOnlyAbout(s, t, c);
    ActiveFramed(s, t);
    DuePhaseFramed(s, t);
    NamesPhaseFramed(s, t);
  }

  // ---------------------------------------------------------------- closing

  /** handleClose has run for `c`; the connection callback and closeCallback_ come next. */
  lemma ClosedStep(s: Server, i: nat, c: Id)
    requires Inv(s) && i < |s.workers| && s.workers[i].todo != [] && Plain(s.workers[i].todo[0])
    requires NoWake(s.workers[i].todo[0])
    requires s.workers[i].todo[0].OnClose? || s.workers[i].todo[0].OnRead?
    requires TaskMentions(s.workers[i].todo[0], c) && Present(s, i, c)
    ensures var w := Close(WorldOf(s, i, c), c);
      w.halted || Inv(WithConn(s, i, c, w, [UserCode(c), CloseCallback(c)] + s.workers[i].todo[1..]))
  {
    hide LoopsOk, DueOk, TodosOk, WakersOk, ActiveOk, DoomOk, NamesOk, ConnsOk, TablesOk, FdsOk, Bounded, EstablishOnce,
      Good, Progress, Close, NoNewHolds, Held, Doomed, SamePcs, SameWakers, KeepsTasks, DueOnlyAbout, SameDue,
      Establishing, Plain;
    var w := Close(WorldOf(s, i, c), c);
    var added, kept := [UserCode(c), CloseCallback(c)], s.workers[i].todo[1..];
    HeadHeld(s, i, c);
    WorldIsGood(s, i, c);
    PresentIsNotNew(s, c);
    CloseProgress(WorldOf(s, i, c), c);
    if !w.halted {
      var t := WithConn(s, i, c, w, added + kept);
      CloseEffect(WorldOf(s, i, c), c);
      assert Replaced(s, t, i, added, kept);
      HeldHere(s);
      ReplacedHolds(s, t, i, added, kept);
      HandlerConns(s, i, c, w, added + kept);
      assert Onward(s, t);
      HandledFrames(s, t, i, added, kept, c);
      EstablishingKept(s, t, i, c, added);
      CloseDoomed(t, i, c);
      TodoAt(s, i);
      AboutStep(s, t, i, added, kept, c);
    }
  }

  lemma CloseEffect<C>(w: World<C>, c: C)
    requires Good(w, c) && !w.halted && w.conn.state != Connecting && w.conn.chan.index != New
    ensures var r := Close(w, c);
      !r.halted && r.conn.state == Disconnected && r.conn.chan.index != New
  {}

  /** Replacing a task that is not about establishing `c` by others of that kind. */
  lemma EstablishingKept(s: Server, t: Server, i: nat, c: Id, added: seq<Task>)
    requires WellFormed(s) && WellFormed(t) && EstablishOnce(s) && c < |s.conns| && t.homes == s.homes
    requires |t.conns| == |s.conns|
    requires i < |s.workers|
    requires Replaced(s, t, i, added, if s.workers[i].todo == [] then [] else s.workers[i].todo[1..]) && SameDue(s, t)
    requires Queue(EstablishConn(c)) !in added && Call(EstablishConn(c)) !in added
    requires s.workers[i].todo != [] ==> s.workers[i].todo[0] != Queue(EstablishConn(c))
    requires s.workers[i].todo != [] ==> s.workers[i].todo[0] != Call(EstablishConn(c))
    ensures Establishing(t, c) == Establishing(s, c) == if s.conns[c].state == Connecting then 1 else 0
  {
    NotAmong(added, Queue(EstablishConn(c)));
    NotAmong(added, Call(EstablishConn(c)));
    if s.workers[i].todo != [] {
      TailCount(s.workers[i].todo, added, Queue(EstablishConn(c)));
      TailCount(s.workers[i].todo, added, Call(EstablishConn(c)));
    }
  }

  lemma CloseDoomed(t: Server, i: nat, c: Id)
    requires WellFormed(t) && c < |t.conns| && t.homes[c] == i && CloseCallback(c) in t.workers[i].todo
    ensures Doomed(t, c)
  {}

  lemma OnCloseStep(s: Server, i: nat, k: Kernel)
    requires Inv(s) && Enabled(s, Work(i, k))
    requires s.workers[i].todo[0].OnClose? || (s.workers[i].todo[0].OnRead? && k.read == Got([]))
    ensures var t := Move(s, Work(i, k)); t.halted || Inv(t)
  {
    hide LoopsOk, DueOk, TodosOk, WakersOk, ActiveOk, DoomOk, NamesOk, ConnsOk, TablesOk, FdsOk, Bounded,
      EstablishOnce, Close;
    TodoAt(s, i);
    ClosedStep(s, i, s.workers[i].todo[0].c);
  }

  // ---------------------------------------------------------------- tasks that only turn into other tasks

  lemma RetaskAbout(s: Server, i: nat, added: seq<Task>, c: Id)
    requires Inv(s) && i < |s.workers| && s.workers[i].todo != [] && c < |s.conns|
    requires NoWake(s.workers[i].todo[0]) && TaskMentions(s.workers[i].todo[0], c)
    requires forall x :: x in added ==> TaskMentions(x, c) && NoWake(x) && TaskOk(s, i, x)
    requires forall x, d: Id :: x in added && TaskMentions(x, d) ==> d == c
    requires Queue(EstablishConn(c)) !in added && Call(EstablishConn(c)) !in added
    requires s.workers[i].todo[0] != Queue(EstablishConn(c)) && s.workers[i].todo[0] != Call(EstablishConn(c))
    requires var t := WithTodo(s, i, added + s.workers[i].todo[1..]); t.conns[c].state == Disconnected ==> Doomed(t, c)
    ensures Inv(WithTodo(s, i, added + s.workers[i].todo[1..]))
  {
    hide LoopsOk, DueOk, TodosOk, WakersOk, ActiveOk, DoomOk, NamesOk, ConnsOk, TablesOk, FdsOk, Bounded, EstablishOnce,
      NoNewHolds, Held, TaskMentions, TaskOk, Doomed, SamePcs, SameWakers, KeepsTasks, DueOnlyAbout, SameDue,
      Establishing;
    var kept := s.workers[i].todo[1..];
    var t := WithTodo(s, i, added + kept);
    HeadHeld(s, i, c);
    TodoAt(s, i);
    assert Replaced(s, t, i, added, kept);
    HeldHere(s);
    ReplacedHolds(s, t, i, added, kept);
    ConnsFramed(s, t);
    SameLoops(s, t);
    assert Onward(s, t);
    OnwardKeepsTasks(s, t);
    SameTaskOk(s, t, i, added);
    SameDueOnlyAbout(s, t, c);
    ActiveFramed(s, t);
    DuePhaseFramed(s, t);
    NamesPhaseFramed(s, t);
    EstablishingKept(s, t, i, c, added);
    AboutStep(s, t, i, added, kept, c);
  }

  lemma CloseCallbackStep(s: Server, i: nat, k: Kernel)
    requires Inv(s) && Enabled(s, Work(i, k)) && s.workers[i].todo[0].CloseCallback?
    ensures Inv(Move(s, Work(i, k)))
  {
    hide LoopsOk, DueOk, TodosOk, WakersOk, ActiveOk, DoomOk, NamesOk, ConnsOk, TablesOk, FdsOk, Bounded, EstablishOnce;
    TodoAt(s, i);
    var c := s.workers[i].todo[0].c;
    var next := if i == 0 then Call(RemoveConn(c)) else Queue(RemoveConn(c));
    var t := WithTodo(s, i, [next] + s.workers[i].todo[1..]);
    assert next in t.workers[i].todo;
    assert RemovalDue(t, c);
    RetaskAbout(s, i, [next], c);
  }

  // ---------------------------------------------------------------- connectEstablished

  lemma CalledEstablish(s: Server, i: nat, c: Id)
    requires WellFormed(s) && EstablishOnce(s) && c < |s.conns| && s.homes[c] == i
    requires Call(EstablishConn(c)) in s.workers[i].todo
    ensures s.conns[c].state == Connecting
    ensures multiset(s.workers[i].todo)[Call(EstablishConn(c))] == Establishing(s, c) == 1
  {}

  lemma EstablishEffect<C>(w: World<C>, c: C)
    requires Good(w, c) && !w.halted && w.conn.state == Connecting
    ensures var r := Establish(w, c); !r.halted && r.conn.state == Connected && r.conn.chan.index == Added
  {}

  lemma EstablishedOnceMore(s: Server, t: Server, i: nat, c: Id, kept: seq<Task>)
    requires WellFormed(s) && WellFormed(t) && EstablishOnce(s) && c < |s.conns| && s.homes[c] == i
    requires t.homes == s.homes && |t.conns| == |s.conns|
    requires s.workers[i].todo != [] && s.workers[i].todo[0] == Call(EstablishConn(c)) && kept == s.workers[i].todo[1..]
    requires Replaced(s, t, i, [UserCode(c)], kept) && SameDue(s, t)
    ensures Establishing(t, c) == 0
  {
    CalledEstablish(s, i, c);
    TailCount(s.workers[i].todo, [UserCode(c)], Queue(EstablishConn(c)));
    TailCount(s.workers[i].todo, [UserCode(c)], Call(EstablishConn(c)));
  }

  lemma EstablishStep(s: Server, i: nat, k: Kernel, c: Id)
    requires Inv(s) && Enabled(s, Work(i, k)) && Heads(s, i, Call(EstablishConn(c)))
    ensures var t := Move(s, Work(i, k)); t.halted || Inv(t)
  {
    hide LoopsOk, DueOk, TodosOk, WakersOk, ActiveOk, DoomOk, NamesOk, ConnsOk, TablesOk, FdsOk, Bounded, EstablishOnce,
      Good, Progress, Establish, NoNewHolds, Held, Establishing;
    var w := Establish(WorldOf(s, i, c), c);
    var added, kept := [UserCode(c)], s.workers[i].todo[1..];
    var t := WithConn(s, i, c, w, added + kept);
    hide SamePcs, SameWakers, KeepsTasks, DueOnlyAbout, SameDue, Doomed, EL.Outstanding, OnlyAbout;
    TodoAt(s, i);
    HeadHeld(s, i, c);
    CalledEstablish(s, i, c);
    WorldIsGood(s, i, c);
    EstablishProgress(WorldOf(s, i, c), c);
    EstablishEffect(WorldOf(s, i, c), c);
    assert Replaced(s, t, i, added, kept);
    HeldHere(s);
    ReplacedHolds(s, t, i, added, kept);
    HandlerConns(s, i, c, w, added + kept);
    assert Onward(s, t);
    HandledFrames(s, t, i, added, kept, c);
    EstablishedOnceMore(s, t, i, c, kept);
    AboutStep(s, t, i, added, kept, c);
  }

  // ---------------------------------------------------------------- removeConnectionInLoop

  lemma NamesInjective(s: Server, d: Id, e: Id)
    requires WellFormed(s) && d < |s.conns| && e < |s.conns| && NameOf(s.cfg, d) == NameOf(s.cfg, e)
    ensures d == e
  {
    Naming.NamesAreUnique(s.cfg.name, s.cfg.ipPort, d + 1, e + 1);
  }

  /** Erasing a connection that is no longer in the map erases nobody else's entry. */
  lemma ErasedTwice(s: Server, c: Id)
    requires WellFormed(s) && NamesOk(s) && c in s.erased
    ensures NameOf(s.cfg, c) !in s.names
  {
    var n := NameOf(s.cfg, c);
    if n in s.names { NamesInjective(s, s.names[n], c); }
  }

  lemma EraseOne(s: Server, t: Server, c: Id)
    requires WellFormed(s) && NamesOk(s) && c < |s.conns| && s.conns[c].state == Disconnected && c !in s.erased
    requires t == s.(names := s.names - {NameOf(s.cfg, c)}, erased := s.erased + {c}, workers := t.workers)
    ensures NamesOk(t)
  {}

  lemma NamesSame(s: Server, t: Server)
    requires NamesOk(s) && t.names == s.names && t.erased == s.erased && t.conns == s.conns && t.cfg == s.cfg
    ensures NamesOk(t)
  {}

  lemma FewerValues(names: map<string, Id>, n: string)
    ensures (names - {n}).Values <= names.Values
  {}

  lemma EraseNames(s: Server, t: Server, c: Id)
    requires WellFormed(s) && NamesOk(s) && c < |s.conns| && s.conns[c].state == Disconnected
    requires t == s.(names := s.names - {NameOf(s.cfg, c)}, erased := s.erased + {c}, workers := t.workers)
    ensures NamesOk(t) && t.names.Values <= s.names.Values
  {
    hide NameOf, WellFormed, NamesOk;
    FewerValues(s.names, NameOf(s.cfg, c));
    if c in s.erased {
      ErasedTwice(s, c);
      assert t.names == s.names && t.erased == s.erased;
      NamesSame(s, t);
    } else {
      EraseOne(s, t, c);
    }
  }

  lemma RemoveDoomed(s: Server, t: Server, c: Id)
    requires WellFormed(s) && WellFormed(t) && c < |t.conns| && c in t.erased
    requires Queue(DestroyConn(c)) in t.workers[0].todo
    ensures Doomed(t, c)
  {}

  lemma RemoveStep(s: Server, i: nat, k: Kernel, c: Id)
    requires Inv(s) && Enabled(s, Work(i, k)) && Heads(s, i, Call(RemoveConn(c)))
    ensures Inv(Move(s, Work(i, k)))
  {
    hide LoopsOk, DueOk, TodosOk, WakersOk, ActiveOk, DoomOk, NamesOk, ConnsOk, TablesOk, FdsOk, Bounded, EstablishOnce,
      NoNewHolds, Held, Doomed, SamePcs, SameWakers, KeepsTasks, DueOnlyAbout, SameDue, Establishing;
    var added, kept := [Queue(DestroyConn(c))], s.workers[i].todo[1..];
    var t := Move(s, Work(i, k));
    TodoAt(s, i);
    HeadHeld(s, i, c);
    EraseNames(s, t, c);
    assert Replaced(s, t, i, added, kept);
    HeldHere(s);
    ReplacedHolds(s, t, i, added, kept);
    ConnsFramed(s, t);
    SameLoops(s, t);
    assert Onward(s, t);
    OnwardKeepsTasks(s, t);
    SameDueOnlyAbout(s, t, c);
    ActiveFramed(s, t);
    DuePhaseFramed(s, t);
    EstablishingKept(s, t, i, c, added);
    RemoveDoomed(s, t, c);
    AboutStep(s, t, i, added, kept, c);
  }

  // ---------------------------------------------------------------- connectDestroyed

  lemma DestroyEffect<C>(w: World<C>, c: C)
    requires Good(w, c) && !w.halted && w.conn.state == Disconnected
    ensures var r := Destroy(w, c, []); !r.halted && r.conn.state == Disconnected && r.conn.chan.index == New
  {}

  lemma DestroyFrames(s: Server, t: Server, i: nat, c: Id, todo: seq<Task>, w: World<Id>)
    requires WellFormed(s) && TodosOk(s) && ActiveOk(s) && DueOk(s) && NamesOk(s)
    requires i < |s.loops| && c < |s.conns| && s.homes[c] == i && s.loops[i].pc == EL.Running
    requires t == WithConn(s, i, c, w, todo) && s.conns[c].state == Disconnected && w.conn.state == Disconnected
    ensures KeepsTasks(s, t) && ActiveOk(t) && DueOk(t) && NamesOk(t)
  {
    DestroyTasks(s, t, i, c, todo, w);
    DestroyFunctors(s, t, i, c, todo, w);
    DestroyNames(s, t, i, c, todo, w);
  }

  lemma DestroyNames(s: Server, t: Server, i: nat, c: Id, todo: seq<Task>, w: World<Id>)
    requires NamesOk(s) && i < |s.tables| && i < |s.workers| && c < |s.conns|
    requires t == WithConn(s, i, c, w, todo) && w.conn.state == Disconnected
    ensures NamesOk(t)
  {
    hide NameOf;
  }

  lemma DestroyTasks(s: Server, t: Server, i: nat, c: Id, todo: seq<Task>, w: World<Id>)
    requires WellFormed(s) && TodosOk(s) && ActiveOk(s)
    requires i < |s.loops| && c < |s.conns| && s.homes[c] == i && s.loops[i].pc == EL.Running
    requires t == WithConn(s, i, c, w, todo) && s.conns[c].state == Disconnected && w.conn.state == Disconnected
    ensures KeepsTasks(s, t) && ActiveOk(t)
  {
    hide TodosOk;
  }

  lemma DestroyFunctors(s: Server, t: Server, i: nat, c: Id, todo: seq<Task>, w: World<Id>)
    requires WellFormed(s) && DueOk(s) && i < |s.loops| && c < |s.conns|
    requires t == WithConn(s, i, c, w, todo) && s.conns[c].state == Disconnected && w.conn.state == Disconnected
    ensures DueOk(t)
  {
    hide EL.Outstanding, Due;
    forall j, f | 0 <= j < |t.loops| && Due(t.loops[j], f) ensures FunctorOk(t, f) && Target(t, f) == j {
      assert Due(s.loops[j], f);
      assert FunctorOk(s, f) && Target(s, f) == j;
    }
  }

  /** Removed in connectDestroyed; if the map still has it, so has the functor that erases it. */
  lemma DestroyDoomed(s: Server, t: Server, i: nat, c: Id, kept: seq<Task>)
    requires WellFormed(s) && WellFormed(t) && DoomOk(s) && c < |s.conns| && s.conns[c].state == Disconnected
    requires t.homes == s.homes && |t.conns| == |s.conns| && t.loops == s.loops && t.erased == s.erased
    requires Replaced(s, t, i, [], kept) && s.workers[i].todo != [] && s.workers[i].todo[0] == Call(DestroyConn(c))
    requires kept == s.workers[i].todo[1..] && t.conns[c].chan.index == New
    ensures Doomed(t, c)
  {}

  /** A connection's channel is on no poller. */
  predicate Unregistered(s: Server, c: Id) { c < |s.conns| && s.conns[c].chan.index == New }

  lemma DestroyStep(s: Server, i: nat, k: Kernel, c: Id)
    requires Inv(s) && Enabled(s, Work(i, k)) && Heads(s, i, Call(DestroyConn(c)))
    ensures var t := Move(s, Work(i, k)); !t.halted && Inv(t) && Unregistered(t, c)
  {
    hide LoopsOk, DueOk, TodosOk, WakersOk, ActiveOk, NamesOk, ConnsOk, TablesOk, FdsOk, Bounded, EstablishOnce,
      DoomOk, Doomed, Good, Progress, Destroy, NoNewHolds, Held, SamePcs, SameWakers, KeepsTasks, DueOnlyAbout,
      SameDue, Establishing;
    var w := Destroy(WorldOf(s, i, c), c, []);
    var added: seq<Task>, kept := [], s.workers[i].todo[1..];
    assert added + kept == kept;
    var t := WithConn(s, i, c, w, added + kept);
    TodoAt(s, i);
    HeadHeld(s, i, c);
    WorldIsGood(s, i, c);
    DestroyProgress(WorldOf(s, i, c), c, []);
    DestroyEffect(WorldOf(s, i, c), c);
    assert Replaced(s, t, i, added, kept);
    HeldHere(s);
    ReplacedHolds(s, t, i, added, kept);
    HandlerConns(s, i, c, w, added + kept);
    SameLoops(s, t);
    SameDueOnlyAbout(s, t, c);
    DestroyFrames(s, t, i, c, added + kept, w);
    EstablishingKept(s, t, i, c, added);
    DestroyDoomed(s, t, i, c, kept);
    AboutStep(s, t, i, added, kept, c);
  }
}
