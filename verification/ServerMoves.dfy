/** The steps that commit nobody to anything: reads, writes, user code and finished tasks. */
module ServerMoves {
  import opened Buffers
  import opened Polling
  import opened Connections
  import opened Servers
  import opened ServerInvariant
  import opened ServerSteps
  import opened ServerTasks
  import EL = EventLoops

  // ---------------------------------------------------------------- plain tasks

  predicate NoWake(x: Task) { !x.WriteWake? }

  /** A task that commits nobody to anything, replaced by others of that kind; it may have run
    * a handler of a connection that is not just starting or ending. */
  lemma PlainStep(s: Server, t: Server, i: nat, added: seq<Task>, kept: seq<Task>)
    requires Inv(s) && WellFormed(t) && Replaced(s, t, i, added, kept) && s.loops[i].pc in {EL.Dispatching, EL.Running}
    requires t.loops == s.loops && SamePhase(s, t) && SameMap(s, t) && t.fault == s.fault
    requires ConnsOk(t) && TablesOk(t) && FdsOk(t) && Bounded(t)
    requires s.workers[i].todo != [] ==> NoWake(s.workers[i].todo[0]) && Plain(s.workers[i].todo[0])
    requires forall x :: x in added ==> Plain(x) && NoWake(x) && TaskOk(s, i, x)
    ensures Inv(t)
  {
    hide LoopsOk, DueOk, TodosOk, WakersOk, ActiveOk, DoomOk, NamesOk, ConnsOk, TablesOk, FdsOk, Bounded, EstablishOnce,
      SameDue, SamePcs, SameWakers, SamePhase, Onward, KeepsTasks, TaskOk, TodoOk, Plain, WellFormed;
    TodoAt(s, i);
    SameLoops(s, t);
    PhaseOnward(s, t);
    PlainTokens(s, t, i, added, kept);
    OnwardKeepsTasks(s, t);
    SameTaskOk(s, t, i, added);
    TailsNoWake(s, t, i, added, kept);
    ReplacedTodos(s, t, i, added, kept);
    ReplacedWakers(s, t, i, added, kept);
    ActiveFramed(s, t);
    DuePhaseFramed(s, t);
    NamesPhaseFramed(s, t);
    Assemble(t);
  }

  lemma TodoAt(s: Server, i: nat)
    requires TodosOk(s) && i < |s.workers|
    ensures |s.workers| == |s.loops| && TodoOk(s, i)
    ensures s.workers[i].todo != [] ==>
      s.loops[i].pc in {EL.Dispatching, EL.Running} && TaskOk(s, i, s.workers[i].todo[0])
  {}

  lemma SameLoops(s: Server, t: Server)
    requires t.loops == s.loops
    ensures SameDue(s, t) && SamePcs(s, t) && SameWakers(s, t) && (LoopsOk(s) ==> LoopsOk(t))
  {}

  lemma PhaseOnward(s: Server, t: Server)
    requires SamePhase(s, t)
    ensures Onward(s, t)
  {}

  lemma SameTaskOk(s: Server, t: Server, i: nat, added: seq<Task>)
    requires i < |s.loops| && Onward(s, t) && SamePcs(s, t)
    requires forall x :: x in added ==> TaskOk(s, i, x)
    ensures forall x :: x in added ==> TaskOk(t, i, x)
  {}

  lemma TailsNoWake(s: Server, t: Server, i: nat, added: seq<Task>, kept: seq<Task>)
    requires i < |s.workers| == |s.loops| && TodoOk(s, i) && Replaced(s, t, i, added, kept)
    requires s.workers[i].todo != [] ==> NoWake(s.workers[i].todo[0])
    requires forall x :: x in added ==> NoWake(x)
    ensures forall x :: x in added + kept ==> NoWake(x)
    ensures forall x :: x in (added + kept)[if added + kept == [] then 0 else 1..] ==> !x.WriteWake?
    ensures added + kept != [] ==> !(added + kept)[0].WriteWake?
  {
    var todo := s.workers[i].todo;
    if todo != [] { assert todo == [todo[0]] + todo[1..]; }
    assert forall x :: x in kept ==> NoWake(x);
    var all := added + kept;
    assert all != [] ==> all[0] in all && NoWake(all[0]);
    forall x | x in all[if all == [] then 0 else 1..] ensures !x.WriteWake? {
      assert x in all && NoWake(x);
    }
  }

  lemma Assemble(t: Server)
    requires WellFormed(t) && LoopsOk(t) && DueOk(t) && TodosOk(t) && WakersOk(t) && ActiveOk(t)
    requires EstablishOnce(t) && DoomOk(t) && NamesOk(t) && ConnsOk(t) && TablesOk(t) && FdsOk(t) && Bounded(t)
    requires !t.fault
    ensures Inv(t)
  {
    hide LoopsOk, DueOk, TodosOk, WakersOk, ActiveOk, DoomOk, NamesOk, ConnsOk, TablesOk, FdsOk, Bounded, EstablishOnce;
  }

  // ---------------------------------------------------------------- plain steps, one by one

  lemma HeadHeld(s: Server, i: nat, c: Id)
    requires i < |s.workers| && s.workers[i].todo != [] && TaskMentions(s.workers[i].todo[0], c)
    ensures Held(s, c)
  {}

  /** The tasks change, nothing else does. */
  lemma RetaskStep(s: Server, i: nat, added: seq<Task>, kept: seq<Task>)
    requires Inv(s) && i < |s.workers| && s.workers[i].todo != []
    requires kept == s.workers[i].todo || kept == s.workers[i].todo[1..]
    requires NoWake(s.workers[i].todo[0]) && Plain(s.workers[i].todo[0])
    requires forall x :: x in added ==> Plain(x) && NoWake(x) && TaskOk(s, i, x)
    requires forall x, d: Id :: x in added && TaskMentions(x, d) ==> Held(s, d)
    ensures Inv(WithTodo(s, i, added + kept))
  {
    hide LoopsOk, DueOk, TodosOk, WakersOk, ActiveOk, DoomOk, NamesOk, ConnsOk, TablesOk, FdsOk, Bounded,
      EstablishOnce, Plain,
      TaskOk, TaskMentions, Held, NoNewHolds;
    var t := WithTodo(s, i, added + kept);
    assert Replaced(s, t, i, added, kept);
    HeldHere(s);
    ReplacedHolds(s, t, i, added, kept);
    ConnsFramed(s, t);
    TodoAt(s, i);
    PlainStep(s, t, i, added, kept);
  }

  /** A handler has run on connection `c`, which is neither just starting nor just ending. */
  lemma HandledStep(s: Server, i: nat, c: Id, w: World<Id>, added: seq<Task>, kept: seq<Task>)
    requires Inv(s) && i < |s.workers| && s.workers[i].todo != [] && c < |s.conns| && s.homes[c] == i && Held(s, c)
    requires kept == s.workers[i].todo || kept == s.workers[i].todo[1..]
    requires NoWake(s.workers[i].todo[0]) && Plain(s.workers[i].todo[0])
    requires forall x :: x in added ==> Plain(x) && NoWake(x) && TaskOk(s, i, x)
    requires forall x, d: Id :: x in added && TaskMentions(x, d) ==> d == c
    requires Progress(WorldOf(s, i, c), w, c) && !w.halted
    requires w.conn.state == Connecting <==> s.conns[c].state == Connecting
    requires w.conn.state == Disconnected <==> s.conns[c].state == Disconnected
    requires w.conn.chan.index == New <==> s.conns[c].chan.index == New
    ensures Inv(WithConn(s, i, c, w, added + kept))
  {
    hide LoopsOk, DueOk, TodosOk, WakersOk, ActiveOk, DoomOk, NamesOk, ConnsOk, TablesOk, FdsOk, Bounded,
      EstablishOnce, Plain,
      TaskOk, TaskMentions, Held, NoNewHolds, Progress;
    var t := WithConn(s, i, c, w, added + kept);
    assert Replaced(s, t, i, added, kept);
    HeldHere(s);
    ReplacedHolds(s, t, i, added, kept);
    HandlerConns(s, i, c, w, added + kept);
    assert SamePhase(s, t);
    TodoAt(s, i);
    PlainStep(s, t, i, added, kept);
  }

  /** What `send`, `shutdown` and `retrieve` cannot do: start, end or unregister a connection. */
  lemma DoPhase<C>(w: World<C>, c: C, a: Action)
    requires Good(w, c) && !w.halted && !Do(w, c, a).halted
    ensures var r := Do(w, c, a);
      && (r.conn.state == Connecting <==> w.conn.state == Connecting)
      && (r.conn.state == Disconnected <==> w.conn.state == Disconnected)
      && (r.conn.chan.index == New <==> w.conn.chan.index == New)
  {
    DoProgress(w, c, a);
  }

  lemma WritePhase<C>(w: World<C>, c: C, k: WriteResult)
    requires Good(w, c) && !w.halted && w.conn.chan.index != New && !Write(w, c, k).halted
    ensures var r := Write(w, c, k);
      && w.conn.state in {Connected, Disconnecting} && r.conn.state == w.conn.state
      && r.conn.chan.index == w.conn.chan.index == Added
  {
    assert {In, Pri, Out} - WRITE_EVENT == {In, Pri};
  }

  lemma OnWriteStep(s: Server, i: nat, k: Kernel)
    requires Inv(s) && Enabled(s, Work(i, k)) && s.workers[i].todo[0].OnWrite?
    ensures var t := Move(s, Work(i, k)); t.halted || Inv(t)
  {
    hide LoopsOk, DueOk, TodosOk, WakersOk, ActiveOk, DoomOk, NamesOk, ConnsOk, TablesOk, FdsOk, Bounded,
      EstablishOnce, Good, Progress, Write;
    var todo := s.workers[i].todo;
    var c := todo[0].c;
    var w := Write(WorldOf(s, i, c), c, k.write);
    TodoAt(s, i);
    HeadHeld(s, i, c);
    WorldIsGood(s, i, c);
    if !w.halted {
      WriteProgress(WorldOf(s, i, c), c, k.write);
      WritePhase(WorldOf(s, i, c), c, k.write);
      HandledStep(s, i, c, w, Notices(s.conns[c], w.conn, c), todo[1..]);
    }
  }

  lemma DataReadStep(s: Server, i: nat, k: Kernel)
    requires Inv(s) && Enabled(s, Work(i, k)) && s.workers[i].todo[0].OnRead? && k.read != Got([])
    ensures var t := Move(s, Work(i, k)); t.halted || Inv(t)
  {
    hide LoopsOk, DueOk, TodosOk, WakersOk, ActiveOk, DoomOk, NamesOk, ConnsOk, TablesOk, FdsOk, Bounded,
      EstablishOnce, Good, Progress;
    var todo := s.workers[i].todo;
    var c := todo[0].c;
    var w := Read(WorldOf(s, i, c), c, k.read);
    TodoAt(s, i);
    HeadHeld(s, i, c);
    WorldIsGood(s, i, c);
    if !w.halted {
      PresentIsNotNew(s, c);
      ReadProgress(WorldOf(s, i, c), c, k.read);
      HandledStep(s, i, c, w, [UserCode(c)], todo[1..]);
    }
  }

  lemma PresentIsNotNew(s: Server, c: Id)
    requires ConnsOk(s) && c < |s.conns| && s.conns[c].chan.index != New
    ensures s.conns[c].state != Connecting
  {}

  lemma UserDoesStep(s: Server, i: nat, u: UserAct)
    requires Inv(s) && Enabled(s, User(i, u)) && u.On?
    ensures var t := Move(s, User(i, u)); t.halted || Inv(t)
  {
    hide LoopsOk, DueOk, TodosOk, WakersOk, ActiveOk, DoomOk, NamesOk, ConnsOk, TablesOk, FdsOk, Bounded,
      EstablishOnce, Good, Progress, Do;
    var todo := s.workers[i].todo;
    var c := u.c;
    var w := Do(WorldOf(s, i, c), c, u.a);
    TodoAt(s, i);
    HeadHeld(s, i, todo[0].c);
    assert Held(s, c);
    WorldIsGood(s, i, c);
    if !w.halted {
      DoProgress(WorldOf(s, i, c), c, u.a);
      DoPhase(WorldOf(s, i, c), c, u.a);
      HandledStep(s, i, c, w, Notices(s.conns[c], w.conn, c), todo);
    }
  }

  lemma UserOtherStep(s: Server, i: nat, u: UserAct)
    requires Inv(s) && Enabled(s, User(i, u)) && !u.On? && !u.Keep?
    ensures Inv(Move(s, User(i, u)))
  {
    hide LoopsOk, DueOk, TodosOk, WakersOk, ActiveOk, DoomOk, NamesOk, ConnsOk, TablesOk, FdsOk, Bounded, EstablishOnce;
    var todo := s.workers[i].todo;
    TodoAt(s, i);
    HeadHeld(s, i, todo[0].c);
    if u.Return? {
      assert [] + todo[1..] == todo[1..];
      RetaskStep(s, i, [], todo[1..]);
    } else {
      RetaskStep(s, i, [Queue(Callback(u.c))], todo);
    }
  }

  lemma SmallWorkStep(s: Server, i: nat, k: Kernel)
    requires Inv(s) && Enabled(s, Work(i, k))
    requires s.workers[i].todo[0].Finish? || (s.workers[i].todo[0].Call? && s.workers[i].todo[0].f.Callback?)
    ensures Inv(Move(s, Work(i, k)))
  {
    hide LoopsOk, DueOk, TodosOk, WakersOk, ActiveOk, DoomOk, NamesOk, ConnsOk, TablesOk, FdsOk, Bounded, EstablishOnce;
    var todo := s.workers[i].todo;
    TodoAt(s, i);
    if todo[0].Finish? {
      assert [] + todo[1..] == todo[1..];
      RetaskStep(s, i, [], todo[1..]);
    } else {
      HeadHeld(s, i, todo[0].f.c);
      RetaskStep(s, i, [UserCode(todo[0].f.c)], todo[1..]);
    }
  }
}
