/** The inductive invariant of the server: what holds between any two steps of any threads. */
module ServerInvariant {
  import opened Polling
  import opened Connections
  import opened Servers
  import EL = EventLoops

  // ---------------------------------------------------------------- the pieces

  ghost predicate LoopsOk(s: Server) {
    forall j :: 0 <= j < |s.loops| ==> EL.LoopInv(s.loops[j])
  }

  /** The functor is queued on this loop, or claimed by it, and has not been called. */
  ghost predicate Due(l: EL.Loop<Functor>, f: Functor) { l.next <= |l.batch| && f in EL.Outstanding(l) }

  /** A functor that removes or destroys a connection only exists once the connection is closed. */
  predicate FunctorOk(s: Server, f: Functor) {
    && f.c < |s.conns| == |s.homes|
    && (f.RemoveConn? || f.DestroyConn? ==> s.conns[f.c].state == Disconnected)
  }

  ghost predicate DueOk(s: Server) {
    forall j, f :: 0 <= j < |s.loops| && Due(s.loops[j], f) ==> FunctorOk(s, f) && Target(s, f) == j
  }

  /** The thread that queues a functor; any thread may queue a callback. */
  function Source(s: Server, f: Functor): nat
    requires f.c < |s.homes|
  {
    if f.EstablishConn? || f.DestroyConn? then 0 else s.homes[f.c]
  }

  predicate Present(s: Server, i: nat, c: Id) {
    c < |s.conns| == |s.homes| && s.homes[c] == i && s.conns[c].chan.index != New
  }

  ghost predicate TaskOk(s: Server, i: nat, t: Task)
    requires i < |s.loops|
  {
    match t
    case UserCode(c) => c < |s.conns| == |s.homes| && s.homes[c] == i
    case CloseCallback(c) => c < |s.conns| == |s.homes| && s.homes[c] == i && s.conns[c].state == Disconnected
    case Call(f) => FunctorOk(s, f) && Target(s, f) == i && (f.DestroyConn? ==> s.loops[i].pc == EL.Running)
    case Queue(f) => FunctorOk(s, f) && (f.Callback? || Source(s, f) == i)
    case WriteWake(j) => j < |s.loops| && j != i
    case Finish(c) => c < |s.conns|
    case _ => Present(s, i, t.c) && s.loops[i].pc == EL.Dispatching
  }

  ghost predicate TodoOk(s: Server, i: nat)
    requires i < |s.loops| && i < |s.workers|
  {
    var todo := s.workers[i].todo;
    && (forall t :: t in todo ==> TaskOk(s, i, t))
    && (todo != [] ==> s.loops[i].pc in {EL.Dispatching, EL.Running} && forall t :: t in todo[1..] ==> !t.WriteWake?)
  }

  ghost predicate TodosOk(s: Server) {
    |s.workers| == |s.loops| && forall i :: 0 <= i < |s.workers| ==> TodoOk(s, i)
  }

  /** A loop thread is among the wakers of loop `j` exactly when its next step is that write. */
  predicate AboutToWake(w: Worker, j: nat) { w.todo != [] && w.todo[0] == WriteWake(j) }

  ghost predicate WakersOk(s: Server) {
    |s.workers| == |s.loops| &&
    forall i, j :: 0 <= i < |s.workers| && 0 <= j < |s.loops| ==>
      (i in s.loops[j].wakers <==> AboutToWake(s.workers[i], j))
  }

  /** The connections still to be dispatched are registered with this loop. */
  ghost predicate ActiveOk(s: Server) {
    |s.workers| == |s.loops| &&
    forall i :: 0 <= i < |s.workers| ==>
      && (s.loops[i].pc != EL.Dispatching ==> s.workers[i].active == [])
      && (forall x :: x in s.workers[i].active ==> Present(s, i, x.0))
  }

  /** How many times connectEstablished is still to be called for `c`. */
  ghost function Establishing(s: Server, c: Id): nat
    requires WellFormed(s) && c < |s.conns|
  {
    var h := s.homes[c];
    (if s.loops[h].next <= |s.loops[h].batch| then multiset(EL.Outstanding(s.loops[h]))[EstablishConn(c)] else 0)
    + multiset(s.workers[0].todo)[Queue(EstablishConn(c))]
    + multiset(s.workers[h].todo)[Call(EstablishConn(c))]
  }

  ghost predicate EstablishOnce(s: Server)
    requires WellFormed(s)
  {
    forall c :: 0 <= c < |s.conns| ==> Establishing(s, c) == if s.conns[c].state == Connecting then 1 else 0
  }

  /** Someone is committed to removing `c` from the map ... */
  ghost predicate RemovalDue(s: Server, c: Id)
    requires WellFormed(s) && c < |s.conns|
  {
    var h := s.homes[c];
    || CloseCallback(c) in s.workers[h].todo
    || Queue(RemoveConn(c)) in s.workers[h].todo
    || Due(s.loops[0], RemoveConn(c))
    || Call(RemoveConn(c)) in s.workers[0].todo
  }

  /** ... or to taking its channel off the poller. */
  ghost predicate DestroyDue(s: Server, c: Id)
    requires WellFormed(s) && c < |s.conns|
  {
    var h := s.homes[c];
    || Queue(DestroyConn(c)) in s.workers[0].todo
    || Due(s.loops[h], DestroyConn(c))
    || Call(DestroyConn(c)) in s.workers[h].todo
  }

  ghost predicate Doomed(s: Server, c: Id)
    requires WellFormed(s) && c < |s.conns|
  {
    && (c !in s.erased ==> RemovalDue(s, c))
    && (s.conns[c].chan.index != New ==> RemovalDue(s, c) || DestroyDue(s, c))
  }

  ghost predicate DoomOk(s: Server)
    requires WellFormed(s)
  {
    forall c :: 0 <= c < |s.conns| && s.conns[c].state == Disconnected ==> Doomed(s, c)
  }

  /** The map holds exactly the connections that were accepted and not erased. */
  ghost predicate NamesOk(s: Server) {
    && (forall n :: n in s.names ==> s.names[n] < |s.conns| && n == NameOf(s.cfg, s.names[n]))
    && (forall c :: 0 <= c < |s.conns| ==>
          (c !in s.erased <==> NameOf(s.cfg, c) in s.names && s.names[NameOf(s.cfg, c)] == c))
    && (forall c :: c in s.erased ==> c < |s.conns| && s.conns[c].state == Disconnected)
    && |s.names| + |s.erased| == |s.conns|
  }

  ghost predicate ConnsOk(s: Server) {
    |s.homes| == |s.conns| && |s.tables| == |s.loops| &&
    forall c :: 0 <= c < |s.conns| ==>
      && Sound(s.conns[c]) && s.homes[c] < |s.tables|
      && (Held(s, c) ==> Registered(s.tables[s.homes[c]], c, s.conns[c].chan))
  }

  ghost predicate TableOk(s: Server, i: nat)
    requires i < |s.tables|
  {
    && !s.tables[i].failed
    && s.tables[i].kernel.Keys <= s.tables[i].channels.Keys
    && (forall fd :: fd in s.tables[i].channels ==>
          Present(s, i, s.tables[i].channels[fd]) && s.conns[s.tables[i].channels[fd]].chan.fd == fd)
  }

  ghost predicate TablesOk(s: Server) { forall i :: 0 <= i < |s.tables| ==> TableOk(s, i) }

  ghost predicate FdsOk(s: Server) {
    forall c, d :: 0 <= c < |s.conns| && 0 <= d < |s.conns| && c != d && Held(s, c) && Held(s, d) ==>
      s.conns[c].chan.fd != s.conns[d].chan.fd
  }

  ghost predicate Bounded(s: Server) { forall c: Id :: Held(s, c) ==> c < |s.conns| }

  ghost predicate Inv(s: Server) {
    && WellFormed(s) && LoopsOk(s) && DueOk(s) && TodosOk(s) && WakersOk(s) && ActiveOk(s)
    && EstablishOnce(s) && DoomOk(s) && NamesOk(s)
    && ConnsOk(s) && TablesOk(s) && FdsOk(s) && Bounded(s)
    && !s.fault
  }

  lemma InvIsWellFormed(s: Server)
    requires Inv(s)
    ensures WellFormed(s) && !s.fault
  {}

  lemma NewServerLoops(cfg: Config, n: nat)
    ensures var s := NewServer(cfg, n); LoopsOk(s) && DueOk(s) && TodosOk(s) && WakersOk(s) && ActiveOk(s)
  {}

  lemma NewServerHolds(cfg: Config, n: nat)
    ensures var s := NewServer(cfg, n); ConnsOk(s) && TablesOk(s) && FdsOk(s) && Bounded(s)
  {}

  lemma NewServerInv(cfg: Config, n: nat)
    requires |cfg.ipPort| <= 23
    ensures Inv(NewServer(cfg, n))
  {
    hide LoopsOk, DueOk, TodosOk, WakersOk, ActiveOk, ConnsOk, TablesOk, FdsOk, Bounded;
    NewServerLoops(cfg, n);
    NewServerHolds(cfg, n);
  }

  // ---------------------------------------------------------------- who holds whom

  lemma MapHolds(s: Server, c: Id)
    requires NamesOk(s) && c < |s.conns|
    ensures c in s.names.Values <==> c !in s.erased
  {}

  lemma TodoHolds(s: Server, i: nat, t: Task, c: Id)
    requires i < |s.workers| && t in s.workers[i].todo && TaskMentions(t, c)
    ensures ServerHeld(s, c)
  {}

  lemma DueHolds(s: Server, j: nat, f: Functor)
    requires j < |s.loops| && Due(s.loops[j], f)
    ensures ServerHeld(s, f.c)
  {}

  /** A connection that is registered with a poller is held by the map, by a queued or running
    * functor, or by the handler that is closing it: it cannot be destroyed while epoll still
    * has a pointer to it. */
  lemma RegisteredIsHeld(s: Server, c: Id)
    requires Inv(s) && c < |s.conns| && s.conns[c].chan.index != New
    ensures ServerHeld(s, c)
  {
    MapHolds(s, c);
    if c in s.erased {
      assert Doomed(s, c);
      var h := s.homes[c];
      if CloseCallback(c) in s.workers[h].todo { TodoHolds(s, h, CloseCallback(c), c); }
      else if Queue(RemoveConn(c)) in s.workers[h].todo { TodoHolds(s, h, Queue(RemoveConn(c)), c); }
      else if Due(s.loops[0], RemoveConn(c)) { DueHolds(s, 0, RemoveConn(c)); }
      else if Call(RemoveConn(c)) in s.workers[0].todo { TodoHolds(s, 0, Call(RemoveConn(c)), c); }
      else if Queue(DestroyConn(c)) in s.workers[0].todo { TodoHolds(s, 0, Queue(DestroyConn(c)), c); }
      else if Due(s.loops[h], DestroyConn(c)) { DueHolds(s, h, DestroyConn(c)); }
      else { TodoHolds(s, h, Call(DestroyConn(c)), c); }
    }
  }
}
