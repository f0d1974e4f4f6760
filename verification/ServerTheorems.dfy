/** What the server guarantees in every run: any threads, any interleaving, any kernel answers
  * and any user callbacks, up to the moment LOG_ERROR or LOG_FATAL ends the process. */
module ServerTheorems {
  import opened Buffers
  import opened Polling
  import opened Connections
  import opened Servers
  import opened ServerInvariant
  import opened ServerSteps
  import opened ServerTasks
  import opened ServerMoves
  import opened ServerLifecycle
  import opened ServerQueues
  import opened ServerAccept
  import ThreadPools
  import EL = EventLoops

  ghost predicate IsRun(s: Server, acts: seq<Act>)
    decreases |acts|
  {
    acts == [] || (WellFormed(s) && Enabled(s, acts[0]) && IsRun(Move(s, acts[0]), acts[1..]))
  }

  ghost function After(s: Server, acts: seq<Act>): Server
    requires IsRun(s, acts)
    decreases |acts|
  {
    if acts == [] then s else After(Move(s, acts[0]), acts[1..])
  }

  lemma {:induction false} RunKeepsInv(s: Server, acts: seq<Act>)
    requires Inv(s) && IsRun(s, acts)
    ensures After(s, acts).halted || Inv(After(s, acts))
    decreases |acts|
  {
    hide Inv, Move, Enabled;
    if acts != [] {
      var t := Move(s, acts[0]);
      InvIsWellFormed(s);
      MoveKeepsInv(s, acts[0]);
      if t.halted { HaltedStops(t, acts[1..]); } else { RunKeepsInv(t, acts[1..]); }
    }
  }

  lemma HaltedStops(s: Server, acts: seq<Act>)
    requires s.halted && IsRun(s, acts)
    ensures acts == [] && After(s, acts) == s
  {}

  /** A state some run of a server with `n` io loops reaches, the process still alive. */
  ghost predicate Reached(cfg: Config, n: nat, acts: seq<Act>, s: Server) {
    |cfg.ipPort| <= 23 && IsRun(NewServer(cfg, n), acts) && s == After(NewServer(cfg, n), acts) && !s.halted
  }

  lemma ReachedInv(cfg: Config, n: nat, acts: seq<Act>, s: Server)
    requires Reached(cfg, n, acts, s)
    ensures Inv(s)
  {
    NewServerInv(cfg, n);
    RunKeepsInv(NewServer(cfg, n), acts);
  }

  // ---------------------------------------------------------------- lifetime

  /** A connection that any poller or the kernel still knows is strongly held by the map, by a
    * queued or running functor, or by the handler at work on it, so it cannot be destroyed;
    * and what the kernel would report for it is its own channel and mask. */
  lemma ConnectionsOutliveTheirRegistration(cfg: Config, n: nat, acts: seq<Act>, s: Server, i: nat, fd: int)
    requires Reached(cfg, n, acts, s) && i < |s.tables| && (fd in s.tables[i].channels || fd in s.tables[i].kernel)
    ensures fd in s.tables[i].channels
    ensures var c := s.tables[i].channels[fd];
      && c < |s.conns| == |s.homes| && s.homes[c] == i && s.conns[c].chan.fd == fd && ServerHeld(s, c)
      && (fd in s.tables[i].kernel ==> s.tables[i].kernel[fd] == Interest(s.conns[c].chan.events, c))
  {
    ReachedInv(cfg, n, acts, s);
    assert TableOk(s, i);
    var c := s.tables[i].channels[fd];
    RegisteredIsHeld(s, c);
    assert Held(s, c);
    assert Registered(s.tables[i], c, s.conns[c].chan);
  }

  /** No step ever follows a pointer to a destroyed connection, and no epoll_ctl is refused. */
  lemma NoDanglingNoRefusal(cfg: Config, n: nat, acts: seq<Act>, s: Server)
    requires Reached(cfg, n, acts, s)
    ensures !s.fault && forall i :: 0 <= i < |s.tables| ==> !s.tables[i].failed
  {
    ReachedInv(cfg, n, acts, s);
    forall i | 0 <= i < |s.tables| ensures !s.tables[i].failed { assert TableOk(s, i); }
  }

  // ---------------------------------------------------------------- dispatch

  lemma OtherActsKeepConns(s: Server, a: Act, c: Id)
    requires WellFormed(s) && Enabled(s, a) && !a.Work? && !a.User? && c < |s.conns|
    ensures Unregistered(Move(s, a), c) <==> Unregistered(s, c)
  {}

  lemma UnregisteredBy(s: Server, a: Act, c: Id)
    requires Inv(s) && Enabled(s, a) && c < |s.conns| == |s.homes| && !Unregistered(s, c)
    requires Unregistered(Move(s, a), c) && !Move(s, a).halted
    ensures a.Work? && s.homes[c] == a.i < |s.workers| == |s.loops| && s.loops[a.i].pc == EL.Running
    ensures s.workers[a.i].todo != [] && s.workers[a.i].todo[0] == Call(DestroyConn(c))
  {
    hide LoopsOk, DueOk, TodosOk, WakersOk, ActiveOk, DoomOk, NamesOk, ConnsOk, TablesOk, FdsOk, Bounded,
      EstablishOnce, Held, Move;
    if a.Work? {
      WorkKeepsRegistered(s, a.i, a.k, c);
    } else if a.User? {
      UserKeepsRegistered(s, a.i, a.u, c);
    } else {
      OtherActsKeepConns(s, a, c);
    }
  }

  /** The only step that takes a connection's channel off its poller is its connectDestroyed,
    * called in the functor phase of its own loop. */
  lemma OnlyDestroyUnregisters(cfg: Config, n: nat, before: seq<Act>, s: Server, a: Act, c: Id)
    requires Reached(cfg, n, before, s) && WellFormed(s) && Enabled(s, a) && c < |s.conns| && !Unregistered(s, c)
    requires Unregistered(Move(s, a), c) && !Move(s, a).halted
    ensures a.Work? && s.homes[c] == a.i < |s.workers| == |s.loops| && s.loops[a.i].pc == EL.Running
    ensures s.workers[a.i].todo != [] && s.workers[a.i].todo[0] == Call(DestroyConn(c))
  {
    hide Inv, Move, Enabled;
    ReachedInv(cfg, n, before, s);
    UnregisteredBy(s, a, c);
  }

  lemma UserWorld(s: Server, i: nat, u: UserAct)
    requires Inv(s) && Enabled(s, User(i, u)) && u.On?
    ensures u.c < |s.conns| && Good(WorldOf(s, i, u.c), u.c)
  {
    hide LoopsOk, DueOk, TodosOk, WakersOk, ActiveOk, DoomOk, NamesOk, ConnsOk, TablesOk, FdsOk, Bounded,
      EstablishOnce, ServerHeld, Do, Good;
    HeadHeld(s, i, s.workers[i].todo[0].c);
    WorldIsGood(s, i, u.c);
  }

  lemma UserConn(s: Server, i: nat, u: UserAct, c: Id)
    requires WellFormed(s) && Enabled(s, User(i, u)) && c < |s.conns|
    ensures var t := Move(s, User(i, u));
      && |t.conns| == |s.conns|
      && (u.On? && u.c == c ==> var w := Do(WorldOf(s, i, c), c, u.a); t.conns[c] == w.conn && (w.halted ==> t.halted))
      && (!u.On? || u.c != c ==> t.conns[c] == s.conns[c])
  {}

  lemma UserKeepsRegistered(s: Server, i: nat, u: UserAct, c: Id)
    requires Inv(s) && Enabled(s, User(i, u)) && c < |s.conns| && !Unregistered(s, c) && !Move(s, User(i, u)).halted
    ensures !Unregistered(Move(s, User(i, u)), c)
  {
    hide LoopsOk, DueOk, TodosOk, WakersOk, ActiveOk, DoomOk, NamesOk, ConnsOk, TablesOk, FdsOk, Bounded,
      EstablishOnce, Held, Do, Good, Move;
    UserConn(s, i, u, c);
    if u.On? && u.c == c {
      UserWorld(s, i, u);
      DoPhase(WorldOf(s, i, c), c, u.a);
    }
  }

  /** The connection a task works on, and what its handler does to it. */
  lemma WorkWorld(s: Server, i: nat, k: Kernel)
    requires Inv(s) && Enabled(s, Work(i, k))
    ensures var head := s.workers[i].todo[0];
      && TaskOk(s, i, head)
      && (head.OnClose? || head.OnRead? || head.OnWrite? ==>
            Good(WorldOf(s, i, head.c), head.c) && s.conns[head.c].state != Connecting)
      && (head.Call? && !head.f.RemoveConn? ==> Good(WorldOf(s, i, head.f.c), head.f.c))
      && (head.Call? && head.f.EstablishConn? ==> s.conns[head.f.c].state == Connecting)
  {
    hide LoopsOk, DueOk, TodosOk, WakersOk, ActiveOk, DoomOk, NamesOk, ConnsOk, TablesOk, FdsOk, Bounded,
      EstablishOnce, Held, Good, Establishing;
    TodoAt(s, i);
    var head := s.workers[i].todo[0];
    if head.OnClose? || head.OnRead? || head.OnWrite? {
      HeadHeld(s, i, head.c);
      PresentIsNotNew(s, head.c);
      WorldIsGood(s, i, head.c);
    } else if head.Call? && !head.f.RemoveConn? {
      HeadHeld(s, i, head.f.c);
      WorldIsGood(s, i, head.f.c);
      if head.f.EstablishConn? { CalledEstablish(s, i, head.f.c); }
    }
  }

  /** What the head task of worker `i` makes of connection `c`. */
  function Handled(s: Server, i: nat, k: Kernel, head: Task, c: Id): World<Id>
    requires i < |s.tables| && c < |s.conns|
  {
    var w := WorldOf(s, i, c);
    if head == OnClose(c) then Close(w, c)
    else if head == OnRead(c) then Read(w, c, k.read)
    else if head == OnWrite(c) then Write(w, c, k.write)
    else if head == Call(EstablishConn(c)) then Establish(w, c)
    else if head == Call(DestroyConn(c)) then Destroy(w, c, [])
    else w
  }

  lemma WorkConn(s: Server, i: nat, k: Kernel, c: Id)
    requires WellFormed(s) && Enabled(s, Work(i, k)) && c < |s.conns|
    ensures var t := Move(s, Work(i, k)); var w := Handled(s, i, k, s.workers[i].todo[0], c);
      |t.conns| == |s.conns| && t.conns[c] == w.conn && (w.halted ==> t.halted)
  {
    hide Write, Close, Read, Establish, Destroy, EL.Apply, NameOf, Held, Notices, Target;
    match s.workers[i].todo[0] {
      case OnClose(d) => case OnRead(d) => case OnWrite(d) => case Call(f) => case _ =>
    }
  }

  lemma HandledKeepsRegistered(s: Server, i: nat, k: Kernel, c: Id)
    requires Inv(s) && Enabled(s, Work(i, k)) && c < |s.conns| && !Unregistered(s, c)
    ensures var w := Handled(s, i, k, s.workers[i].todo[0], c);
      w.halted || w.conn.chan.index != New || s.workers[i].todo[0] == Call(DestroyConn(c))
  {
    hide LoopsOk, DueOk, TodosOk, WakersOk, ActiveOk, DoomOk, NamesOk, ConnsOk, TablesOk, FdsOk, Bounded,
      EstablishOnce, Held,
      Write, Close, Good, Establish, Destroy;
    WorkWorld(s, i, k);
    var head, w := s.workers[i].todo[0], WorldOf(s, i, c);
    if head == OnClose(c) || head == OnRead(c) {
      CloseEffect(w, c);
    } else if head == OnWrite(c) && !Write(w, c, k.write).halted {
      WritePhase(w, c, k.write);
    } else if head == Call(EstablishConn(c)) {
      EstablishEffect(w, c);
    }
  }

  lemma WorkKeepsRegistered(s: Server, i: nat, k: Kernel, c: Id)
    requires Inv(s) && Enabled(s, Work(i, k)) && c < |s.conns| == |s.homes| && !Unregistered(s, c)
    requires Unregistered(Move(s, Work(i, k)), c) && !Move(s, Work(i, k)).halted
    ensures s.homes[c] == i < |s.workers| == |s.loops| && s.loops[i].pc == EL.Running
    ensures s.workers[i].todo != [] && s.workers[i].todo[0] == Call(DestroyConn(c))
  {
    hide LoopsOk, DueOk, TodosOk, WakersOk, ActiveOk, DoomOk, NamesOk, ConnsOk, TablesOk, FdsOk, Bounded,
      EstablishOnce, Held,
      Move, Handled;
    WorkWorld(s, i, k);
    WorkConn(s, i, k, c);
    HandledKeepsRegistered(s, i, k, c);
  }

  /** Dispatch safety: while a loop goes through its active channels, none of the connections
    * still listed is unregistered or destroyed, whatever the callbacks and the other threads do,
    * also when base loop and io loop are the same. */
  lemma DispatchIsSafe(cfg: Config, n: nat, before: seq<Act>, s: Server, i: nat, acts: seq<Act>, x: (Id, Mask))
    requires Reached(cfg, n, before, s) && i < |s.loops| == |s.workers| && x in s.workers[i].active
    requires IsRun(s, acts) && Dispatching(s, i, acts) && !After(s, acts).halted
    ensures var t := After(s, acts); Present(t, i, x.0) && Held(t, x.0)
  {
    ReachedInv(cfg, n, before, s);
    hide LoopsOk, DueOk, TodosOk, WakersOk, ActiveOk, DoomOk, NamesOk, ConnsOk, TablesOk, FdsOk, Bounded,
      EstablishOnce, Held, Move;
    ActiveHeld(s, i, x);
    StaysRegistered(s, i, acts, x.0);
    RunKeepsInv(s, acts);
    RegisteredIsHeld(After(s, acts), x.0);
    ServerHeldIsHeld(After(s, acts), x.0);
  }

  lemma ServerHeldIsHeld(s: Server, c: Id)
    requires ServerHeld(s, c)
    ensures Held(s, c)
  {}

  /** Loop `i` is dispatching in every state before the last one. */
  ghost predicate Dispatching(s: Server, i: nat, acts: seq<Act>)
    requires IsRun(s, acts)
    decreases |acts|
  {
    acts == [] || (i < |s.loops| && s.loops[i].pc == EL.Dispatching && Dispatching(Move(s, acts[0]), i, acts[1..]))
  }

  ghost predicate Grows(s: Server, t: Server) {
    && |t.loops| == |s.loops| && |s.conns| <= |t.conns| && s.homes <= t.homes
    && |t.homes| - |s.homes| == |t.conns| - |s.conns|
  }

  lemma WorkShape(s: Server, i: nat, k: Kernel)
    requires WellFormed(s) && Enabled(s, Work(i, k))
    ensures Grows(s, Move(s, Work(i, k)))
  {}

  lemma UserShape(s: Server, i: nat, u: UserAct)
    requires WellFormed(s) && Enabled(s, User(i, u))
    ensures Grows(s, Move(s, User(i, u)))
  {}

  lemma MoveShape(s: Server, a: Act)
    requires WellFormed(s) && Enabled(s, a)
    ensures Grows(s, Move(s, a))
  {
    hide EL.Apply, Held, NameOf, TasksFor, WorkStep, UserStep, Targets;
    if a.Work? { WorkShape(s, a.i, a.k); } else if a.User? { UserShape(s, a.i, a.u); }
  }

  lemma {:induction false} StaysRegistered(s: Server, i: nat, acts: seq<Act>, c: Id)
    requires Inv(s) && Present(s, i, c) && IsRun(s, acts) && Dispatching(s, i, acts) && !After(s, acts).halted
    ensures Present(After(s, acts), i, c)
    decreases |acts|
  {
    hide LoopsOk, DueOk, TodosOk, WakersOk, ActiveOk, DoomOk, NamesOk, ConnsOk, TablesOk, FdsOk, Bounded,
      EstablishOnce, Move, Enabled;
    if acts != [] {
      var t := Move(s, acts[0]);
      MoveKeepsInv(s, acts[0]);
      MoveShape(s, acts[0]);
      if t.halted {
        HaltedStops(t, acts[1..]);
      } else {
        if Unregistered(t, c) { UnregisteredBy(s, acts[0], c); }
        StaysRegistered(t, i, acts[1..], c);
      }
    }
  }

  // ---------------------------------------------------------------- the end of a connection

  /** Once every functor its closing gave rise to has run, however often it was closed, a
    * connection is in no map and no table, and its descriptor is free of any registration. */
  lemma ClosingConverges(cfg: Config, n: nat, acts: seq<Act>, s: Server, c: Id)
    requires Reached(cfg, n, acts, s) && c < |s.conns| && s.conns[c].state == Disconnected
    requires WellFormed(s) && !RemovalDue(s, c) && !DestroyDue(s, c)
    ensures c in s.erased && c !in s.names.Values && s.conns[c].chan.index == New
    ensures forall i, fd :: 0 <= i < |s.tables| && fd in s.tables[i].channels ==> s.tables[i].channels[fd] != c
    ensures forall i, fd :: 0 <= i < |s.tables| && fd in s.tables[i].kernel ==> s.tables[i].kernel[fd].target != c
    ensures Held(s, c) ==> var t := s.tables[s.homes[c]];
      s.conns[c].chan.fd !in t.channels && s.conns[c].chan.fd !in t.kernel
  {
    ReachedInv(cfg, n, acts, s);
    assert Doomed(s, c);
    MapHolds(s, c);
    forall i, fd | 0 <= i < |s.tables| && fd in s.tables[i].channels ensures s.tables[i].channels[fd] != c {
      assert TableOk(s, i);
    }
    forall i, fd | 0 <= i < |s.tables| && fd in s.tables[i].kernel ensures s.tables[i].kernel[fd].target != c {
      ConnectionsOutliveTheirRegistration(cfg, n, acts, s, i, fd);
    }
  }

  /** A closed connection that is still in the map, or still registered, has its removal or its
    * destruction under way; and connectEstablished is outstanding exactly while it is connecting. */
  lemma NothingIsForgotten(cfg: Config, n: nat, acts: seq<Act>, s: Server, c: Id)
    requires Reached(cfg, n, acts, s) && c < |s.conns|
    ensures WellFormed(s)
    ensures s.conns[c].state == Disconnected && c in s.names.Values ==> RemovalDue(s, c)
    ensures s.conns[c].state == Disconnected && s.conns[c].chan.index != New ==> RemovalDue(s, c) || DestroyDue(s, c)
    ensures Establishing(s, c) == if s.conns[c].state == Connecting then 1 else 0
    ensures s.conns[c].state != Disconnected ==> c in s.names.Values
  {
    ReachedInv(cfg, n, acts, s);
    MapHolds(s, c);
    if s.conns[c].state == Disconnected { assert Doomed(s, c); }
  }

  /** The map holds exactly the accepted connections that were not erased, each under its own name. */
  lemma MapIsConserved(cfg: Config, n: nat, acts: seq<Act>, s: Server)
    requires Reached(cfg, n, acts, s)
    ensures |s.names| == |s.conns| - |s.erased|
    ensures forall c :: 0 <= c < |s.conns| ==>
      (c !in s.erased <==> NameOf(s.cfg, c) in s.names && s.names[NameOf(s.cfg, c)] == c)
    ensures forall name :: name in s.names ==> s.names[name] < |s.conns| && name == NameOf(s.cfg, s.names[name])
  {
    ReachedInv(cfg, n, acts, s);
  }

  // ---------------------------------------------------------------- destroyed means gone

  lemma WorkHolds(s: Server, i: nat, k: Kernel, c: Id)
    requires Inv(s) && Enabled(s, Work(i, k)) && Held(Move(s, Work(i, k)), c)
    ensures Held(s, c)
  {
    hide LoopsOk, DueOk, TodosOk, WakersOk, ActiveOk, DoomOk, NamesOk, ConnsOk, TablesOk, FdsOk, Bounded, EstablishOnce,
      ServerHeld, Write, Close, Establish, Destroy, Read, EL.Apply;
    var t := Move(s, Work(i, k));
    var todo := s.workers[i].todo;
    var head := todo[0];
    if !head.OnError? {
      HeldHere(s);
      assert forall d: Id :: TaskMentions(head, d) ==> Held(s, d);
      FewerValues(s.names, if head.Call? && head.f.RemoveConn? then NameOf(s.cfg, head.f.c) else "");
      WorkLoops(s, i, k);
      var added := Added(s, i, k);
      WorkReplaces(s, i, k);
      WorkNames(s, i, k);
      AddedMention(s, i, k);
      ReplacedHolds(s, t, i, added, todo[1..]);
    } else {
      SameRefs(s, t, c);
    }
  }

  lemma SameRefs(s: Server, t: Server, c: Id)
    requires t == s.(halted := true) && Held(t, c)
    ensures Held(s, c)
  {}

  ghost function Added(s: Server, i: nat, k: Kernel): seq<Task>
    requires WellFormed(s) && Enabled(s, Work(i, k))
  {
    match s.workers[i].todo[0]
    case OnClose(c) => [UserCode(c), CloseCallback(c)]
    case OnRead(c) => if k.read == Got([]) then [UserCode(c), CloseCallback(c)] else [UserCode(c)]
    case OnWrite(c) => Notices(s.conns[c], Write(WorldOf(s, i, c), c, k.write).conn, c)
    case CloseCallback(c) => [if i == 0 then Call(RemoveConn(c)) else Queue(RemoveConn(c))]
    case Call(f) =>
      if f.RemoveConn? then [Queue(DestroyConn(f.c))] else if f.DestroyConn? then [] else [UserCode(f.c)]
    case Queue(f) => if Target(s, f) == i then [] else [WriteWake(Target(s, f))]
    case _ => []
  }

  lemma WorkNames(s: Server, i: nat, k: Kernel)
    requires WellFormed(s) && Enabled(s, Work(i, k))
    ensures var t := Move(s, Work(i, k)); t.names == s.names || exists m :: t.names == s.names - {m}
  {
    hide Write, Close, Establish, Destroy, Read, EL.Apply, NameOf;
  }

  lemma WorkReplaces(s: Server, i: nat, k: Kernel)
    requires WellFormed(s) && Enabled(s, Work(i, k)) && !s.workers[i].todo[0].OnError?
    ensures var t := Move(s, Work(i, k));
      Replaced(s, t, i, Added(s, i, k), s.workers[i].todo[1..]) && t.user == s.user
  {
    hide Write, Close, Establish, Destroy, Read, EL.Apply, NameOf;
    assert [] + s.workers[i].todo[1..] == s.workers[i].todo[1..];
  }

  lemma AddedMention(s: Server, i: nat, k: Kernel)
    requires WellFormed(s) && Enabled(s, Work(i, k))
    ensures forall x, d: Id :: x in Added(s, i, k) && TaskMentions(x, d) ==> TaskMentions(s.workers[i].todo[0], d)
  {}

  lemma WorkLoops(s: Server, i: nat, k: Kernel)
    requires WellFormed(s) && Enabled(s, Work(i, k))
    ensures var t := Move(s, Work(i, k));
      forall j, c: Id :: 0 <= j < |t.loops| && LoopMentions(t.loops[j], c) ==> Held(s, c)
  {
    hide Write, Close, Establish, Destroy, Read, LoopMentions, ServerHeld;
    var t := Move(s, Work(i, k));
    HeldHere(s);
    if s.workers[i].todo[0].Queue? {
      var f := s.workers[i].todo[0].f;
      HeadHeld(s, i, f.c);
      var j := Target(s, f);
      PushHolds(s, t, j, if j == i then EL.OwnEnqueue(f) else EL.Enqueue(i, f), f);
    } else if s.workers[i].todo[0].WriteWake? {
      SilentMentions(s, t, s.workers[i].todo[0].j, EL.Wake(i));
    }
  }

  /** A connection whose last reference is gone never gets another one: destroyed means gone. */
  lemma NoResurrection(s: Server, a: Act, c: Id)
    requires Inv(s) && Enabled(s, a) && c < |s.conns| && Held(Move(s, a), c)
    ensures Held(s, c)
  {
    hide LoopsOk, DueOk, TodosOk, WakersOk, ActiveOk, DoomOk, NamesOk, ConnsOk, TablesOk, FdsOk, Bounded, EstablishOnce;
    match a
    case Local(i, e) => SilentLoopHolds(s, i, e);
    case Poll(i, wake, ready) => PollHolds(s, i, wake, ready, c);
    case Dispatch(i) => DispatchHolds(s, i, c);
    case Accept(fd) => AcceptHolds(s, fd, c);
    case Next(i) => NextHolds(s, i, c);
    case Work(i, k) => WorkHolds(s, i, k, c);
    case User(i, u) => UserHolds(s, i, u, c);
    case External(t, j, e) => ExternalHolds(s, t, j, e, c);
    case Forget(d) =>
  }

  lemma PollHolds(s: Server, i: nat, wake: bool, ready: seq<(int, Mask)>, c: Id)
    requires WellFormed(s) && Enabled(s, Poll(i, wake, ready)) && Held(Move(s, Poll(i, wake, ready)), c)
    ensures Held(s, c)
  {}

  lemma DispatchHolds(s: Server, i: nat, c: Id)
    requires Inv(s) && Enabled(s, Dispatch(i)) && Held(Move(s, Dispatch(i)), c)
    ensures Held(s, c)
  {
    hide LoopsOk, DueOk, TodosOk, WakersOk, ActiveOk, DoomOk, NamesOk, ConnsOk, TablesOk, FdsOk, Bounded, EstablishOnce,
      ServerHeld, TasksFor, TaskMentions, Present;
    var t := Move(s, Dispatch(i));
    var x := s.workers[i].active[0];
    ActiveHeld(s, i, x);
    TasksForOk(s, i, x.0, x.1);
    HeldHere(s);
    forall k, d: Id | 0 <= k < |t.workers| && TodoMentions(t.workers[k].todo, d) ensures Held(s, d) {
      if k == i {
        var l :| 0 <= l < |t.workers[i].todo| && TaskMentions(t.workers[i].todo[l], d);
        assert t.workers[i].todo[l] in TasksFor(x.0, x.1);
      } else {
        assert TodoMentions(s.workers[k].todo, d);
      }
    }
    HoldsFrom(s, t);
  }

  lemma AcceptHolds(s: Server, fd: int, c: Id)
    requires Inv(s) && Enabled(s, Accept(fd)) && Held(Move(s, Accept(fd)), c) && c < |s.conns|
    ensures Held(s, c)
  {
    hide LoopsOk, DueOk, TodosOk, WakersOk, ActiveOk, DoomOk, ConnsOk, TablesOk, FdsOk, Bounded, EstablishOnce,
      ServerHeld, NameOf;
    var t := NewConnection(s, fd);
    assert Accepted(s, t, fd);
    NewNames(s, t, fd);
    NewHolds(s, t, fd);
  }

  lemma NextHolds(s: Server, i: nat, c: Id)
    requires Inv(s) && Enabled(s, Next(i)) && Held(Move(s, Next(i)), c)
    ensures Held(s, c)
  {
    hide LoopsOk, DueOk, TodosOk, WakersOk, ActiveOk, DoomOk, NamesOk, ConnsOk, TablesOk, FdsOk, Bounded,
      EstablishOnce, ServerHeld;
    var t := Move(s, Next(i));
    var f := s.loops[i].batch[s.loops[i].next];
    assert [Call(f)] + [] == [Call(f)];
    assert Replaced(s, t, i, [Call(f)], []);
    TakeMentions(s, t, i);
    BatchHeld(s, i);
    ReplacedHolds(s, t, i, [Call(f)], []);
  }

  lemma BatchHeld(s: Server, i: nat)
    requires i < |s.loops| && s.loops[i].next < |s.loops[i].batch|
    ensures Held(s, s.loops[i].batch[s.loops[i].next].c)
  {}

  lemma UserHolds(s: Server, i: nat, u: UserAct, c: Id)
    requires Inv(s) && Enabled(s, User(i, u)) && Held(Move(s, User(i, u)), c)
    ensures Held(s, c)
  {
    hide LoopsOk, DueOk, TodosOk, WakersOk, ActiveOk, DoomOk, NamesOk, ConnsOk, TablesOk, FdsOk, Bounded,
      EstablishOnce, ServerHeld, Do;
    var t := Move(s, User(i, u));
    var todo := s.workers[i].todo;
    HeadHeld(s, i, todo[0].c);
    HeldHere(s);
    match u
    case On(d, a) =>
      var added := Notices(s.conns[d], Do(WorldOf(s, i, d), d, a).conn, d);
      assert Replaced(s, t, i, added, todo);
      ReplacedHolds(s, t, i, added, todo);
    case QueueTask(d) =>
      assert Replaced(s, t, i, [Queue(Callback(d))], todo);
      ReplacedHolds(s, t, i, [Queue(Callback(d))], todo);
    case Keep(d) => HoldsFrom(s, t);
    case Return =>
      assert [] + todo[1..] == todo[1..];
      assert Replaced(s, t, i, [], todo[1..]);
      ReplacedHolds(s, t, i, [], todo[1..]);
  }

  lemma ExternalHolds(s: Server, th: EL.Thread, j: nat, e: EL.Event<Functor>, c: Id)
    requires WellFormed(s) && Enabled(s, External(th, j, e)) && Held(Move(s, External(th, j, e)), c)
    ensures Held(s, c)
  {}

  lemma {:induction false} StaysGone(s: Server, acts: seq<Act>, c: Id)
    requires Inv(s) && IsRun(s, acts) && c < |s.conns| && !Held(s, c) && !After(s, acts).halted
    ensures !Held(After(s, acts), c)
    decreases |acts|
  {
    hide LoopsOk, DueOk, TodosOk, WakersOk, ActiveOk, DoomOk, NamesOk, ConnsOk, TablesOk, FdsOk, Bounded,
      EstablishOnce, Move, Enabled, Held;
    if acts != [] {
      var t := Move(s, acts[0]);
      MoveKeepsInv(s, acts[0]);
      MoveShape(s, acts[0]);
      if t.halted {
        HaltedStops(t, acts[1..]);
      } else {
        if Held(t, c) { NoResurrection(s, acts[0], c); }
        StaysGone(t, acts[1..], c);
      }
    }
  }

  /** An object that was destroyed is never referred to again, in any continuation of any run. */
  lemma DestroyedMeansGone(cfg: Config, n: nat, before: seq<Act>, s: Server, acts: seq<Act>, c: Id)
    requires Reached(cfg, n, before, s) && IsRun(s, acts) && c < |s.conns| && !Held(s, c) && !After(s, acts).halted
    ensures !Held(After(s, acts), c)
  {
    hide Inv;
    ReachedInv(cfg, n, before, s);
    StaysGone(s, acts, c);
  }

  // ---------------------------------------------------------------- every loop, every connection

  /** The loop protocol holds for every loop of the running server: no lost wakeup, no unheard
    * quit, every functor once and in order. */
  lemma EveryLoopIsAttentive(cfg: Config, n: nat, acts: seq<Act>, s: Server, j: nat)
    requires Reached(cfg, n, acts, s) && j < |s.loops|
    ensures var l := s.loops[j];
      && (l.pc == EL.Polling && l.pending != [] ==> l.counter > 0 || l.wakers != {})
      && (l.pc == EL.Polling && l.quit ==> l.counter > 0 || l.wakers != {})
      && l.next <= |l.batch| && l.queued == l.executed + (l.batch[l.next..] + l.pending)
      && !l.failed
  {
    ReachedInv(cfg, n, acts, s);
    assert EL.LoopInv(s.loops[j]);
  }

  /** Every connection of the running server conserves its streams and honours its half-close. */
  lemma EveryConnectionIsSound(cfg: Config, n: nat, acts: seq<Act>, s: Server, c: Id)
    requires Reached(cfg, n, acts, s) && c < |s.conns|
    ensures var conn := s.conns[c];
      && conn.accepted == conn.sent + conn.output && conn.received == conn.consumed + conn.input
      && conn.halfCloses <= 1 && (conn.halfCloses == 1 ==> conn.output == [] && conn.sent == conn.accepted)
      && (conn.state in {Connected, Disconnecting} ==> (conn.chan.IsWriting() <==> conn.output != []))
  {
    ReachedInv(cfg, n, acts, s);
    assert Sound(s.conns[c]);
  }

  /** A loop thread inside a handler or functor always has a next step: nothing in the model
    * can block it. */
  lemma WorkersNeverBlock(cfg: Config, n: nat, acts: seq<Act>, s: Server, i: nat, k: Kernel)
    requires Reached(cfg, n, acts, s) && i < |s.loops| == |s.workers| && s.workers[i].todo != []
    ensures WellFormed(s)
    ensures Enabled(s, Local(i, EL.OwnWake)) || Enabled(s, Work(i, k)) || Enabled(s, User(i, Return))
  {
    ReachedInv(cfg, n, acts, s);
    hide LoopsOk, TodosOk, WakersOk, Enabled;
    BusyWorkerMoves(s, i, k);
  }

  lemma BusyWorkerMoves(s: Server, i: nat, k: Kernel)
    requires WellFormed(s) && TodosOk(s) && WakersOk(s) && LoopsOk(s) && !s.halted
    requires i < |s.workers| && s.workers[i].todo != []
    ensures Enabled(s, Local(i, EL.OwnWake)) || Enabled(s, Work(i, k)) || Enabled(s, User(i, Return))
  {
    TodoAt(s, i);
    if s.workers[i].todo[0].Queue? {
      var j := Target(s, s.workers[i].todo[0].f);
      assert i in s.loops[j].wakers <==> AboutToWake(s.workers[i], j);
    } else if s.workers[i].todo[0].WriteWake? {
      assert AboutToWake(s.workers[i], s.workers[i].todo[0].j);
    }
  }

  // ---------------------------------------------------------------- what one step can touch

  predicate IsHandler(head: Task) {
    head.OnClose? || head.OnRead? || head.OnWrite? || (head.Call? && (head.f.EstablishConn? || head.f.DestroyConn?))
  }

  function HandledConn(head: Task): Id
    requires IsHandler(head)
  {
    if head.Call? then head.f.c else head.c
  }

  lemma WorkTables(s: Server, i: nat, k: Kernel)
    requires WellFormed(s) && Enabled(s, Work(i, k))
    ensures var t := Move(s, Work(i, k)); var head := s.workers[i].todo[0];
      t.tables == if IsHandler(head) then s.tables[i := Handled(s, i, k, head, HandledConn(head)).tables] else s.tables
  {}

  /** Every handler the server ever runs behaves well for its own connection and descriptor. */
  lemma HandledProgress(s: Server, i: nat, k: Kernel)
    requires Inv(s) && Enabled(s, Work(i, k)) && IsHandler(s.workers[i].todo[0])
    ensures var head := s.workers[i].todo[0]; var c := HandledConn(head);
      && Good(WorldOf(s, i, c), c)
      && Progress(WorldOf(s, i, c), Handled(s, i, k, head, c), c)
      && !Handled(s, i, k, head, c).tables.failed
  {
    hide LoopsOk, DueOk, TodosOk, WakersOk, ActiveOk, DoomOk, NamesOk, ConnsOk, TablesOk, FdsOk, Bounded,
      EstablishOnce, Held, Good, Progress,
      Write, Close, Read, Establish, Destroy;
    WorkWorld(s, i, k);
    var head := s.workers[i].todo[0];
    var c := HandledConn(head);
    var w := WorldOf(s, i, c);
    match head
    case OnClose(_) => CloseProgress(w, c); CloseTables(w, c);
    case OnRead(_) => ReadProgress(w, c, k.read); ReadTables(w, c, k.read);
    case OnWrite(_) => WriteProgress(w, c, k.write); WriteTables(w, c, k.write);
    case Call(f) =>
      if f.EstablishConn? { EstablishProgress(w, c); EstablishTables(w, c); }
      else { DestroyProgress(w, c, []); DestroyTables(w, c); }
  }

  lemma CloseTables<C>(w: World<C>, c: C)
    requires Good(w, c) && !w.halted && w.conn.state != Connecting && w.conn.chan.index != New
    ensures !Close(w, c).tables.failed
  {}

  lemma ReadTables<C>(w: World<C>, c: C, k: ReadResult)
    requires Good(w, c) && !w.halted && w.conn.state != Connecting && w.conn.chan.index != New
    ensures !Read(w, c, k).tables.failed
  {}

  lemma WriteTables<C>(w: World<C>, c: C, k: WriteResult)
    requires Good(w, c) && !w.halted
    ensures !Write(w, c, k).tables.failed
  {}

  lemma EstablishTables<C>(w: World<C>, c: C)
    requires Good(w, c) && !w.halted && w.conn.state == Connecting
    ensures !Establish(w, c).tables.failed
  {}

  lemma DestroyTables<C>(w: World<C>, c: C)
    requires Good(w, c) && !w.halted && w.conn.state == Disconnected
    ensures !Destroy(w, c, []).tables.failed
  {}

  lemma DoTables<C>(w: World<C>, c: C, a: Action)
    requires Good(w, c) && !w.halted
    ensures !Do(w, c, a).tables.failed
  {}

  lemma UserTables(s: Server, i: nat, u: UserAct)
    requires WellFormed(s) && Enabled(s, User(i, u))
    ensures Move(s, User(i, u)).tables
         == if u.On? then s.tables[i := Do(WorldOf(s, i, u.c), u.c, u.a).tables] else s.tables
  {}

  lemma OtherTables(s: Server, a: Act)
    requires WellFormed(s) && Enabled(s, a) && !a.Work? && !a.User?
    ensures Move(s, a).tables == s.tables
  {}

  lemma TablesNeverFailed(s: Server, i: nat)
    requires TablesOk(s) && i < |s.tables|
    ensures !s.tables[i].failed
  {
    assert TableOk(s, i);
  }

  /** No step ever issues an epoll_ctl that the kernel refuses: every ADD is of an absent
    * descriptor and every MOD and DEL of a present one, also in the step that ends the process
    * for another reason. */
  lemma NoControlIsRefused(cfg: Config, n: nat, before: seq<Act>, s: Server, a: Act, j: nat)
    requires Reached(cfg, n, before, s) && WellFormed(s) && Enabled(s, a) && j < |Move(s, a).tables|
    ensures !Move(s, a).tables[j].failed
  {
    hide LoopsOk, DueOk, TodosOk, WakersOk, ActiveOk, DoomOk, NamesOk, ConnsOk, TablesOk, FdsOk, Bounded,
      EstablishOnce, Held, Good,
      Progress, Handled, Do;
    ReachedInv(cfg, n, before, s);
    if a.Work? {
      WorkTables(s, a.i, a.k);
      if IsHandler(s.workers[a.i].todo[0]) { HandledProgress(s, a.i, a.k); }
    } else if a.User? {
      UserTables(s, a.i, a.u);
      if a.u.On? {
        UserWorld(s, a.i, a.u);
        DoTables(WorldOf(s, a.i, a.u.c), a.u.c, a.u.a);
      }
    } else {
      OtherTables(s, a);
    }
    if j < |s.tables| { TablesNeverFailed(s, j); }
  }

  /** A handler changes the registration of its own descriptor only, on its own loop only. */
  lemma HandlersTouchOneDescriptor(cfg: Config, n: nat, before: seq<Act>, s: Server, i: nat, k: Kernel)
    requires Reached(cfg, n, before, s) && WellFormed(s) && Enabled(s, Work(i, k)) && !Move(s, Work(i, k)).halted
    ensures var t := Move(s, Work(i, k)); var head := s.workers[i].todo[0];
      && |t.tables| == |s.tables|
      && (forall j :: 0 <= j < |s.tables| && j != i ==> t.tables[j] == s.tables[j])
      && (!IsHandler(head) ==> t.tables == s.tables)
      && (IsHandler(head) ==>
            && HandledConn(head) < |s.conns|
            && SameElsewhere(s.tables[i], t.tables[i], s.conns[HandledConn(head)].chan.fd))
  {
    hide LoopsOk, DueOk, TodosOk, WakersOk, ActiveOk, DoomOk, NamesOk, ConnsOk, TablesOk, FdsOk, Bounded,
      EstablishOnce, Held, Good,
      Handled, Move, SameElsewhere;
    ReachedInv(cfg, n, before, s);
    WorkTables(s, i, k);
    var head := s.workers[i].todo[0];
    if IsHandler(head) {
      HandledProgress(s, i, k);
      WorkConn(s, i, k, HandledConn(head));
    }
  }

  /** A new connection never takes the map entry of another one. */
  lemma AcceptedNameIsFresh(cfg: Config, n: nat, before: seq<Act>, s: Server, fd: int)
    requires Reached(cfg, n, before, s) && WellFormed(s) && Enabled(s, Accept(fd))
    ensures NameOf(s.cfg, |s.conns|) !in s.names
  {
    hide NameOf;
    ReachedInv(cfg, n, before, s);
    var t := NewConnection(s, fd);
    NewWellFormed(s, t, fd);
    var name := NameOf(s.cfg, |s.conns|);
    if name in s.names { NamesInjective(t, s.names[name], |s.conns|); }
  }

  /** Each handler queues at most one notification. */
  lemma OneNoticePerHandler<C>(w: World<C>, c: C, a: Action, k: WriteResult)
    ensures |Do(w, c, a).conn.queued| <= |w.conn.queued| + 1
    ensures |Write(w, c, k).conn.queued| <= |w.conn.queued| + 1
  {}

  // ---------------------------------------------------------------- load balance

  function NextAfter(n: nat, next: nat, k: nat): nat
    decreases k
  {
    if k == 0 then next else NextAfter(n, ThreadPools.Advance(n, next), k - 1)
  }

  lemma {:induction false} ChoicesGrow(n: nat, next: nat, k: nat)
    ensures ThreadPools.Choices(n, next, k + 1) == ThreadPools.Choices(n, next, k) + [NextAfter(n, next, k)]
    ensures NextAfter(n, next, k + 1) == ThreadPools.Advance(n, NextAfter(n, next, k))
    decreases k
  {
    if k > 0 { ChoicesGrow(n, ThreadPools.Advance(n, next), k - 1); }
  }

  ghost predicate RoundRobin(s: Server) {
    |s.loops| > 1 ==>
      && s.next == NextAfter(|s.loops| - 1, 0, |s.homes|)
      && forall k :: 0 <= k < |s.homes| ==> s.homes[k] == ThreadPools.Choices(|s.loops| - 1, 0, |s.homes|)[k] + 1
  }

  lemma WorkSameHomes(s: Server, i: nat, k: Kernel)
    requires WellFormed(s) && Enabled(s, Work(i, k))
    ensures Move(s, Work(i, k)).homes == s.homes && Move(s, Work(i, k)).next == s.next
  {}

  lemma MoveKeepsRoundRobin(s: Server, a: Act)
    requires WellFormed(s) && Enabled(s, a) && RoundRobin(s)
    ensures RoundRobin(Move(s, a))
  {
    hide EL.Apply, Held, NameOf, TasksFor, WorkStep, Do, Targets, Notices;
    var t := Move(s, a);
    MoveShape(s, a);
    if a.Accept? {
      ChoicesGrow(|s.loops| - 1, 0, |s.homes|);
    } else {
      if a.Work? { WorkSameHomes(s, a.i, a.k); }
      assert t.homes == s.homes && t.next == s.next;
    }
  }

  lemma {:induction false} RunKeepsRoundRobin(s: Server, acts: seq<Act>)
    requires IsRun(s, acts) && RoundRobin(s)
    ensures RoundRobin(After(s, acts))
    decreases |acts|
  {
    if acts != [] {
      MoveKeepsRoundRobin(s, acts[0]);
      RunKeepsRoundRobin(Move(s, acts[0]), acts[1..]);
    }
  }

  /** However connections come and go, the ones accepted so far are spread evenly over the io
    * loops: each loop got its share, rounded down or up. */
  lemma ConnectionsAreBalanced(cfg: Config, n: nat, acts: seq<Act>, s: Server, i: nat)
    requires Reached(cfg, n, acts, s) && n > 0 && i < n
    ensures |s.loops| == n + 1 && |s.homes| == |s.conns|
    ensures var share := multiset(s.homes)[i + 1];
      |s.conns| / n <= share <= |s.conns| / n + 1 && (|s.conns| % n == 0 ==> share == |s.conns| / n)
  {
    var s0 := NewServer(cfg, n);
    ReachedInv(cfg, n, acts, s);
    RunShape(s0, acts);
    RunKeepsRoundRobin(s0, acts);
    ThreadPools.RoundRobinIsBalanced(n, 0, |s.homes|, i);
    TimesIsCount(s.homes, ThreadPools.Choices(n, 0, |s.homes|), i);
  }

  lemma {:induction false} RunShape(s: Server, acts: seq<Act>)
    requires IsRun(s, acts)
    ensures |After(s, acts).loops| == |s.loops|
    decreases |acts|
  {
    hide Move, Enabled;
    if acts != [] {
      MoveShape(s, acts[0]);
      RunShape(Move(s, acts[0]), acts[1..]);
    }
  }

  lemma {:induction false} TimesIsCount(homes: seq<nat>, choices: seq<nat>, i: nat)
    requires |homes| == |choices| && forall k :: 0 <= k < |homes| ==> homes[k] == choices[k] + 1
    ensures ThreadPools.Times(choices, i) == multiset(homes)[i + 1]
    decreases |homes|
  {
    if homes != [] {
      TimesIsCount(homes[1..], choices[1..], i);
      assert homes == [homes[0]] + homes[1..];
    }
  }
}
