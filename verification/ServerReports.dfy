/** What passes through the server: what epoll reports reaches a handler, what a handler has to
  * tell the user becomes a functor, and what a new connection is given is the server's. */
module ServerReports {
  import opened Buffers
  import opened Polling
  import opened Connections
  import opened Servers
  import opened ServerInvariant
  import opened ServerTasks
  import opened ServerMoves
  import opened ServerLifecycle
  import opened ServerAccept
  import opened ServerTheorems
  import opened ServerDispatch
  import EL = EventLoops

  // ---------------------------------------------------------------- from epoll to the handlers

  /** What `epoll_wait` returns is, entry by entry, the list of this loop's connections to dispatch. */
  lemma ReportsAreConnections(cfg: Config, n: nat, before: seq<Act>, s: Server, i: nat, wake: bool,
                              ready: seq<(int, Mask)>)
    requires Reached(cfg, n, before, s) && WellFormed(s) && Enabled(s, Poll(i, wake, ready))
    ensures var t := Move(s, Poll(i, wake, ready));
      && i < |t.workers| && |t.workers[i].active| == |ready| && |t.conns| == |t.homes|
      && forall k :: 0 <= k < |ready| ==>
        && t.workers[i].active[k].0 < |t.conns|
        && t.homes[t.workers[i].active[k].0] == i
        && t.conns[t.workers[i].active[k].0].chan.fd == ready[k].0
        && t.workers[i].active[k].1 == ready[k].1
  {
    ReachedInv(cfg, n, before, s);
    hide LoopsOk, DueOk, TodosOk, WakersOk, ActiveOk, DoomOk, NamesOk, FdsOk, Bounded, EstablishOnce;
    assert TableOk(s, i);
    forall k | 0 <= k < |ready| ensures
      var c := s.tables[i].kernel[ready[k].0].target;
      c < |s.conns| && s.homes[c] == i && s.conns[c].chan.fd == ready[k].0
    {
      KernelIsOurs(cfg, n, before, s, i, ready[k].0);
    }
  }

  lemma KernelIsOurs(cfg: Config, n: nat, before: seq<Act>, s: Server, i: nat, fd: int)
    requires Reached(cfg, n, before, s) && i < |s.tables| && fd in s.tables[i].kernel
    ensures var c := s.tables[i].kernel[fd].target;
      c < |s.conns| == |s.homes| && s.homes[c] == i && s.conns[c].chan.fd == fd
  {
    ConnectionsOutliveTheirRegistration(cfg, n, before, s, i, fd);
  }

  function Dispatches(i: nat, acts: seq<Act>): nat
    decreases |acts|
  {
    if acts == [] then 0 else (if acts[0] == Dispatch(i) then 1 else 0) + Dispatches(i, acts[1..])
  }

  /** Only a dispatch takes from the list, and it takes the first entry. */
  lemma ActiveIsQueue(s: Server, a: Act, i: nat)
    requires WellFormed(s) && Enabled(s, a) && i < |s.loops| && s.loops[i].pc == EL.Dispatching
    ensures var t := Move(s, a);
      && i < |t.workers| && (a == Dispatch(i) ==> s.workers[i].active != [])
      && t.workers[i].active == if a == Dispatch(i) then s.workers[i].active[1..] else s.workers[i].active
  {
    if a.Work? { WorkKeepsActive(s, a.i, a.k, i); }
    else if a.User? { UserKeepsActive(s, a.i, a.u, i); }
    else { QuietKeepsActive(s, a, i); }
  }

  lemma WorkKeepsActive(s: Server, j: nat, k: Kernel, i: nat)
    requires WellFormed(s) && Enabled(s, Work(j, k)) && i < |s.loops|
    ensures var t := Move(s, Work(j, k)); i < |t.workers| && t.workers[i].active == s.workers[i].active
  {
    hide Move;
    if s.workers[j].todo[0].OnError? { ErrorStops(s, j, k); } else { WorkReplaces(s, j, k); }
  }

  lemma UserKeepsActive(s: Server, j: nat, u: UserAct, i: nat)
    requires WellFormed(s) && Enabled(s, User(j, u)) && i < |s.loops|
    ensures var t := Move(s, User(j, u)); i < |t.workers| && t.workers[i].active == s.workers[i].active
  {
    hide Do, Notices;
  }

  lemma QuietKeepsActive(s: Server, a: Act, i: nat)
    requires WellFormed(s) && Enabled(s, a) && i < |s.loops| && s.loops[i].pc == EL.Dispatching && !a.Work? && !a.User?
    ensures var t := Move(s, a);
      && i < |t.workers| && (a == Dispatch(i) ==> s.workers[i].active != [])
      && t.workers[i].active == if a == Dispatch(i) then s.workers[i].active[1..] else s.workers[i].active
  {
    hide EL.Apply, NameOf, TasksFor, Held, Targets;
  }

  lemma {:induction false} ListedInOrder(s: Server, i: nat, acts: seq<Act>)
    requires IsRun(s, acts) && i < |s.workers| && Dispatching(s, i, acts)
    ensures var t := After(s, acts);
      && i < |t.workers| && Dispatches(i, acts) <= |s.workers[i].active|
      && t.workers[i].active == s.workers[i].active[Dispatches(i, acts)..]
    decreases |acts|
  {
    hide Move, Enabled;
    if acts != [] {
      ActiveIsQueue(s, acts[0], i);
      ListedInOrder(Move(s, acts[0]), i, acts[1..]);
    }
  }

  /** Every report is dispatched, once and in the order of `epoll_wait`, before the loop goes on to
    * its functors: `acts` are the steps of all threads since, ending with dispatch over. */
  lemma EveryReportIsDispatched(s: Server, i: nat, acts: seq<Act>)
    requires IsRun(s, acts) && i < |s.workers| && Dispatching(s, i, acts)
    requires var t := After(s, acts); WellFormed(t) && Enabled(t, Local(i, EL.EndDispatch))
    ensures Dispatches(i, acts) == |s.workers[i].active|
  {
    ListedInOrder(s, i, acts);
  }

  // ---------------------------------------------------------------- from the handlers to the user

  function InTodos(ws: seq<Worker>, x: Task): nat
    decreases |ws|
  {
    if ws == [] then 0 else multiset(ws[0].todo)[x] + InTodos(ws[1..], x)
  }

  lemma {:induction false} TodosUpdate(ws: seq<Worker>, i: nat, w: Worker, x: Task)
    requires i < |ws|
    ensures InTodos(ws[i := w], x) + multiset(ws[i].todo)[x] == InTodos(ws, x) + multiset(w.todo)[x]
    decreases |ws|
  {
    if i == 0 {
      assert ws[i := w][1..] == ws[1..];
    } else {
      assert ws[i := w][1..] == ws[1..][i - 1 := w];
      TodosUpdate(ws[1..], i - 1, w, x);
    }
  }

  /** Callbacks for `c` that are on their way to its loop, or have been pushed there. */
  ghost function Callbacks(s: Server, c: Id): nat
    requires WellFormed(s) && c < |s.conns|
  {
    InTodos(s.workers, Queue(Callback(c))) + multiset(s.loops[s.homes[c]].queued)[Callback(c)]
  }

  /** The user itself queues one. */
  predicate Asked(a: Act, c: Id) {
    (a.User? && a.u == QueueTask(c)) || (a.External? && a.e.Enqueue? && a.e.f == Callback(c))
  }

  /** What a step of work queues on the connection's loop. */
  lemma WorkPushes(s: Server, i: nat, k: Kernel, c: Id, head: Task)
    requires WellFormed(s) && Enabled(s, Work(i, k)) && Heads(s, i, head) && c < |s.conns|
    ensures var t, h := Move(s, Work(i, k)), s.homes[c];
      && h < |t.loops|
      && multiset(t.loops[h].queued)[Callback(c)]
         == multiset(s.loops[h].queued)[Callback(c)] + if head == Queue(Callback(c)) then 1 else 0
  {
    WorkMovesLoops(s, i, k);
    hide Move;
    var h := s.homes[c];
    if head.Queue? {
      assert multiset(s.loops[h].queued + [head.f])[Callback(c)]
          == multiset(s.loops[h].queued)[Callback(c)] + if head.f == Callback(c) then 1 else 0;
    }
  }

  /** What it adds to the thread's own list. */
  lemma WorkNotes(s: Server, i: nat, k: Kernel, c: Id, head: Task)
    requires WellFormed(s) && Enabled(s, Work(i, k)) && Heads(s, i, head) && c < |s.conns| && !head.OnError?
    ensures var t := Move(s, Work(i, k));
      |t.conns| == |s.conns| &&
      multiset(ServerTheorems.Added(s, i, k))[Queue(Callback(c))] + |s.conns[c].queued| == |t.conns[c].queued|
  {
    hide Move;
    WorkConn(s, i, k, c);
    NotesOf(s, i, k, c, head);
  }

  lemma WriteNotes(w: World<Id>, c: Id, k: WriteResult)
    ensures |Write(w, c, k).conn.queued| == |w.conn.queued| + |Notices(w.conn, Write(w, c, k).conn, c)|
  {
    hide Perform;
  }

  lemma NoticesAbout(a: Conn, b: Conn, c: Id, d: Id)
    ensures multiset(Notices(a, b, c))[Queue(Callback(d))] == if c == d then |Notices(a, b, c)| else 0
  {}

  lemma SilentHandler(s: Server, i: nat, k: Kernel, head: Task, c: Id)
    requires i < |s.tables| && c < |s.conns| && !head.OnWrite?
    ensures Handled(s, i, k, head, c).conn.queued == s.conns[c].queued
  {
    hide Perform;
  }

  lemma NotesOf(s: Server, i: nat, k: Kernel, c: Id, head: Task)
    requires WellFormed(s) && Enabled(s, Work(i, k)) && Heads(s, i, head) && c < |s.conns|
    ensures multiset(ServerTheorems.Added(s, i, k))[Queue(Callback(c))] + |s.conns[c].queued|
         == |Handled(s, i, k, head, c).conn.queued|
  {
    hide Write, Notices;
    if head.OnWrite? {
      var w := WorldOf(s, i, head.c);
      WriteNotes(w, head.c, k.write);
      NoticesAbout(w.conn, Write(w, head.c, k.write).conn, head.c, c);
    } else {
      hide Handled;
      SilentHandler(s, i, k, head, c);
    }
  }

  /** The account that every step keeps. */
  ghost predicate Balanced(s: Server, t: Server, c: Id, more: nat) {
    && WellFormed(s) && WellFormed(t) && c < |s.conns| && c < |t.conns|
    && Callbacks(t, c) + |s.conns[c].queued| == Callbacks(s, c) + |t.conns[c].queued| + more
  }

  lemma WorkBalances(s: Server, i: nat, k: Kernel, c: Id)
    requires WellFormed(s) && Enabled(s, Work(i, k)) && c < |s.conns|
    requires WellFormed(Move(s, Work(i, k))) && !Move(s, Work(i, k)).halted
    ensures Balanced(s, Move(s, Work(i, k)), c, 0)
  {
    var head, todo, x := s.workers[i].todo[0], s.workers[i].todo, Queue(Callback(c));
    hide Move;
    var t := Move(s, Work(i, k));
    if head.OnError? { ErrorStops(s, i, k); }
    WorkSameHomes(s, i, k);
    WorkReplaces(s, i, k);
    WorkPushes(s, i, k, c, head);
    WorkNotes(s, i, k, c, head);
    hide Enabled, ServerTheorems.Added;
    TailCount(todo, ServerTheorems.Added(s, i, k), x);
    TodosUpdate(s.workers, i, t.workers[i], x);
    assert t.workers == s.workers[i := t.workers[i]];
  }

  lemma DoNotes(w: World<Id>, c: Id, a: Action)
    ensures |Do(w, c, a).conn.queued| == |w.conn.queued| + |Notices(w.conn, Do(w, c, a).conn, c)|
    ensures var notes := Notices(w.conn, Do(w, c, a).conn, c);
      forall d: Id :: multiset(notes)[Queue(Callback(d))] == if d == c then |notes| else 0
  {
    hide Perform;
  }

  lemma UserLists(s: Server, i: nat, u: UserAct)
    requires WellFormed(s) && Enabled(s, User(i, u))
    ensures var t := Move(s, User(i, u)); var todo := s.workers[i].todo;
      && |t.workers| == |s.workers| && t.workers == s.workers[i := t.workers[i]]
      && t.homes == s.homes && t.loops == s.loops
      && t.workers[i].todo ==
           match u
           case On(d, a) => Notices(s.conns[d], Do(WorldOf(s, i, d), d, a).conn, d) + todo
           case QueueTask(d) => [Queue(Callback(d))] + todo
           case Keep(_) => todo
           case Return => todo[1..]
  {
    hide Do, Notices;
  }

  lemma UserNotes(s: Server, i: nat, u: UserAct, c: Id)
    requires WellFormed(s) && Enabled(s, User(i, u)) && c < |s.conns|
    ensures var t := Move(s, User(i, u)); var x := Queue(Callback(c));
      && i < |t.workers| && |t.conns| == |s.conns| && t.homes == s.homes && t.loops == s.loops
      && t.workers == s.workers[i := t.workers[i]]
      && multiset(t.workers[i].todo)[x] + |s.conns[c].queued|
         == multiset(s.workers[i].todo)[x] + |t.conns[c].queued| + if u == QueueTask(c) then 1 else 0
  {
    hide Do, Notices, Move;
    UserLists(s, i, u);
    UserConn(s, i, u, c);
    var todo, x := s.workers[i].todo, Queue(Callback(c));
    match u {
      case On(d, a) =>
        DoNotes(WorldOf(s, i, d), d, a);
        CountConcat(Notices(s.conns[d], Do(WorldOf(s, i, d), d, a).conn, d), todo, x);
      case QueueTask(d) => CountConcat([Queue(Callback(d))], todo, x);
      case Keep(d) =>
      case Return =>
        UserCodeFirst(s, i);
        assert todo == [todo[0]] + todo[1..];
        CountConcat([todo[0]], todo[1..], x);
    }
  }

  lemma CountConcat(a: seq<Task>, b: seq<Task>, x: Task)
    ensures multiset(a + b)[x] == multiset(a)[x] + multiset(b)[x]
  {}

  lemma UserCodeFirst(s: Server, i: nat)
    requires WellFormed(s) && Enabled(s, User(i, Return))
    ensures s.workers[i].todo != [] && s.workers[i].todo[0].UserCode?
  {}

  lemma UserBalances(s: Server, i: nat, u: UserAct, c: Id)
    requires WellFormed(s) && Enabled(s, User(i, u)) && c < |s.conns| && WellFormed(Move(s, User(i, u)))
    ensures Balanced(s, Move(s, User(i, u)), c, if u == QueueTask(c) then 1 else 0)
  {
    hide Move;
    UserNotes(s, i, u, c);
    TodosUpdate(s.workers, i, Move(s, User(i, u)).workers[i], Queue(Callback(c)));
  }

  lemma DispatchNotes(x: (Id, Mask), c: Id)
    ensures multiset(TasksFor(x.0, x.1))[Queue(Callback(c))] == 0
  {
    NotAmong(TasksFor(x.0, x.1), Queue(Callback(c)));
  }

  /** The steps that neither work nor call the user: one worker's list at most is renewed. */
  lemma QuietNotes(s: Server, a: Act, c: Id) returns (i: nat)
    requires WellFormed(s) && Enabled(s, a) && c < |s.conns| && !a.Work? && !a.User?
    ensures var t := Move(s, a); var x := Queue(Callback(c));
      && i < |s.workers| == |t.workers| && c < |t.conns| && c < |t.homes| && s.homes[c] == t.homes[c]
      && t.conns[c] == s.conns[c]
      && t.workers == s.workers[i := t.workers[i]]
      && multiset(t.workers[i].todo)[x] == multiset(s.workers[i].todo)[x]
  {
    hide EL.Apply, NameOf, Held, TasksFor, Targets;
    i := if a.Poll? || a.Dispatch? || a.Next? then a.i else 0;
    match a {
      case Dispatch(j) => DispatchNotes(s.workers[j].active[0], c);
      case Accept(fd) => NotAmong(Move(s, a).workers[0].todo, Queue(Callback(c)));
      case Next(j) => NotAmong(Move(s, a).workers[j].todo, Queue(Callback(c)));
      case _ =>
    }
  }

  lemma EventQueues(l: EL.Loop<Functor>, e: EL.Event<Functor>, f: Functor)
    ensures multiset(EL.Apply(l, e).queued)[f]
         == multiset(l.queued)[f] + if (e.Enqueue? || e.OwnEnqueue?) && e.f == f then 1 else 0
  {
    if e.Enqueue? || e.OwnEnqueue? {
      assert multiset(l.queued + [e.f])[f] == multiset(l.queued)[f] + if e.f == f then 1 else 0;
    }
  }

  lemma QuietPushes(s: Server, a: Act, c: Id)
    requires WellFormed(s) && Enabled(s, a) && c < |s.conns| && !a.Work? && !a.User?
    ensures var t, h := Move(s, a), s.homes[c];
      && h < |t.loops|
      && multiset(t.loops[h].queued)[Callback(c)]
         == multiset(s.loops[h].queued)[Callback(c)] + if Asked(a, c) then 1 else 0
  {
    hide NameOf, Held, TasksFor, Targets, EL.Apply;
    var l, f := s.loops[s.homes[c]], Callback(c);
    match a {
      case Local(i, e) => EventQueues(l, e, f);
      case Poll(i, wake, ready) => EventQueues(l, EL.PollReturn(wake), f);
      case Next(i) => EventQueues(l, EL.RunNext, f);
      case External(t, j, e) => EventQueues(l, e, f);
      case _ =>
    }
  }

  lemma QuietBalances(s: Server, a: Act, c: Id)
    requires WellFormed(s) && Enabled(s, a) && c < |s.conns| && !a.Work? && !a.User? && WellFormed(Move(s, a))
    ensures Balanced(s, Move(s, a), c, if Asked(a, c) then 1 else 0)
  {
    hide Move, Enabled;
    var i := QuietNotes(s, a, c);
    QuietPushes(s, a, c);
    TodosUpdate(s.workers, i, Move(s, a).workers[i], Queue(Callback(c)));
  }

  lemma StepBalances(s: Server, a: Act, c: Id)
    requires Inv(s) && Enabled(s, a) && c < |s.conns| && !Move(s, a).halted
    ensures Balanced(s, Move(s, a), c, if Asked(a, c) then 1 else 0)
  {
    hide Inv, Move, Enabled, WellFormed;
    InvIsWellFormed(s);
    MoveKeepsInv(s, a);
    InvIsWellFormed(Move(s, a));
    if a.Work? { WorkBalances(s, a.i, a.k, c); }
    else if a.User? { UserBalances(s, a.i, a.u, c); }
    else { QuietBalances(s, a, c); }
  }

  function TimesAsked(acts: seq<Act>, c: Id): nat
    decreases |acts|
  {
    if acts == [] then 0 else (if Asked(acts[0], c) then 1 else 0) + TimesAsked(acts[1..], c)
  }

  /** Between any two moments of a run, the functors for the user queued for a connection on its
    * own loop, or on their way there, are exactly its notifications and what the user queued. */
  lemma {:induction false} EveryNoticeIsQueued(s: Server, acts: seq<Act>, c: Id)
    requires Inv(s) && IsRun(s, acts) && c < |s.conns| && !After(s, acts).halted
    ensures Balanced(s, After(s, acts), c, TimesAsked(acts, c))
    decreases |acts|
  {
    hide Inv, Move, Enabled, Callbacks;
    InvIsWellFormed(s);
    if acts != [] {
      var t := Move(s, acts[0]);
      MoveKeepsInv(s, acts[0]);
      if t.halted {
        HaltedStops(t, acts[1..]);
      } else {
        StepBalances(s, acts[0], c);
        EveryNoticeIsQueued(t, acts[1..], c);
      }
    }
  }

  /** In every run of the server. */
  lemma NoticesReachTheLoop(cfg: Config, n: nat, before: seq<Act>, s: Server, acts: seq<Act>, c: Id)
    requires Reached(cfg, n, before, s) && IsRun(s, acts) && c < |s.conns| && !After(s, acts).halted
    ensures Balanced(s, After(s, acts), c, TimesAsked(acts, c))
  {
    hide Inv;
    ReachedInv(cfg, n, before, s);
    EveryNoticeIsQueued(s, acts, c);
  }

  // ---------------------------------------------------------------- the user's own pointers

  /** The copies of connection pointers the user has made and not dropped. */
  function Copies(user: set<Id>, acts: seq<Act>): set<Id>
    decreases |acts|
  {
    if acts == [] then user
    else
      match acts[0]
      case User(_, Keep(c)) => Copies(user + {c}, acts[1..])
      case Forget(c) => Copies(user - {c}, acts[1..])
      case _ => Copies(user, acts[1..])
  }

  lemma MoveCopies(s: Server, a: Act)
    requires WellFormed(s) && Enabled(s, a)
    ensures Move(s, a).user == Copies(s.user, [a])
  {
    hide Write, Close, Read, Establish, Destroy, Do, EL.Apply, NameOf, Notices, TasksFor, Targets, Held;
    assert [a][1..] == [];
  }

  /** They are what the user made of them, whatever else runs. */
  lemma {:induction false} CopiesAreTheUsers(s: Server, acts: seq<Act>)
    requires IsRun(s, acts)
    ensures After(s, acts).user == Copies(s.user, acts)
    decreases |acts|
  {
    hide Move, Enabled;
    if acts != [] {
      MoveCopies(s, acts[0]);
      assert [acts[0]][1..] == [];
      CopiesAreTheUsers(Move(s, acts[0]), acts[1..]);
    }
  }

  // ---------------------------------------------------------------- what each functor does

  /** A functor that is called does what it is for; user code follows where there is any. */
  lemma FunctorsDoTheirWork(cfg: Config, n: nat, before: seq<Act>, s: Server, i: nat, k: Kernel, f: Functor)
    requires Reached(cfg, n, before, s) && WellFormed(s) && Enabled(s, Work(i, k)) && Heads(s, i, Call(f))
    requires !Move(s, Work(i, k)).halted
    ensures var t := Move(s, Work(i, k)); var rest := s.workers[i].todo[1..];
      && i < |t.workers| && i < |t.tables| && f.c < |t.conns|
      && match f
         case Callback(c) => t.workers[i].todo == [UserCode(c)] + rest
         case EstablishConn(c) =>
           && t.workers[i].todo == [UserCode(c)] + rest && t.conns[c].state == Connected
           && t.conns[c].chan.fd in t.tables[i].kernel
           && t.tables[i].kernel[t.conns[c].chan.fd] == Interest({In, Pri}, c)
         case RemoveConn(c) =>
           && t.workers[i].todo == [Queue(DestroyConn(c))] + rest
           && c in t.erased && NameOf(t.cfg, c) !in t.names
         case DestroyConn(c) => t.workers[i].todo == rest && Unregistered(t, c)
  {
    ReachedInv(cfg, n, before, s);
    WorkWorld(s, i, k);
    hide Inv;
    WorkReplaces(s, i, k);
    WorkConn(s, i, k, f.c);
    WorkTables(s, i, k);
    ShapeKept(s, i, k);
    match f {
      case Callback(c) =>
      case EstablishConn(c) => EstablishAsks(WorldOf(s, i, c), c);
      case RemoveConn(c) => RemoveErases(s, i, k, c);
      case DestroyConn(c) =>
        MayDestroy(cfg, n, before, s, i, k, c);
    }
  }

  lemma RemoveErases(s: Server, i: nat, k: Kernel, c: Id)
    requires WellFormed(s) && Enabled(s, Work(i, k)) && Heads(s, i, Call(RemoveConn(c)))
    ensures var t := Move(s, Work(i, k)); c in t.erased && NameOf(t.cfg, c) !in t.names
  {
    hide NameOf;
  }

  lemma MayDestroy(cfg: Config, n: nat, before: seq<Act>, s: Server, i: nat, k: Kernel, c: Id)
    requires Reached(cfg, n, before, s) && WellFormed(s) && Enabled(s, Work(i, k)) && Heads(s, i, Call(DestroyConn(c)))
    ensures Unregistered(Move(s, Work(i, k)), c)
  {
    ReachedInv(cfg, n, before, s);
    hide Inv, Move;
    DestroyStep(s, i, k, c);
  }

  /** A new connection starts by asking for ordinary and urgent input. */
  lemma EstablishAsks(w: World<Id>, c: Id)
    requires Good(w, c) && !w.halted && w.conn.state == Connecting
    ensures var r := Establish(w, c);
      && !r.halted && r.conn.state == Connected && r.conn.chan.fd in r.tables.kernel
      && r.tables.kernel[r.conn.chan.fd] == Interest({In, Pri}, c)
  {
    EstablishProgress(w, c);
    EstablishEffect(w, c);
    assert w.conn.output == [];
  }

  // ---------------------------------------------------------------- what a new connection is given

  predicate Configured(conn: Conn, cfg: Config) {
    conn.mark == cfg.mark && conn.hasHighWater == cfg.hasHighWater && conn.hasWriteComplete == cfg.hasWriteComplete
  }

  /** A new connection is unregistered and silent, on the accepted descriptor, with the server's mark
    * and callbacks, in the map under its own name; the others stay as they are. */
  lemma AcceptedIsNew(cfg: Config, n: nat, before: seq<Act>, s: Server, fd: int)
    requires Reached(cfg, n, before, s) && WellFormed(s) && Enabled(s, Accept(fd))
    ensures var t, c := Move(s, Accept(fd)), |s.conns|;
      && |t.conns| == c + 1 && t.conns[..c] == s.conns
      && t.conns[c].chan == Chan(fd, {}, New) && t.conns[c].state == Connecting && Configured(t.conns[c], t.cfg)
      && t.conns[c].output == t.conns[c].input == [] && t.conns[c].queued == []
      && NameOf(t.cfg, c) !in s.names && t.names == s.names[NameOf(t.cfg, c) := c]
  {
    AcceptedNameIsFresh(cfg, n, before, s, fd);
    hide NameOf;
  }

  ghost predicate AllConfigured(s: Server, cfg: Config) {
    s.cfg == cfg && forall c :: 0 <= c < |s.conns| ==> Configured(s.conns[c], cfg)
  }

  lemma DoConfigures(w: World<Id>, c: Id, a: Action, cfg: Config)
    requires Configured(w.conn, cfg)
    ensures Configured(Do(w, c, a).conn, cfg)
  {}

  lemma HandledConfigures(s: Server, i: nat, k: Kernel, head: Task, c: Id, cfg: Config)
    requires i < |s.tables| && c < |s.conns| && Configured(s.conns[c], cfg)
    ensures Configured(Handled(s, i, k, head, c).conn, cfg)
  {
    hide Perform;
  }

  lemma WorkConfigures(s: Server, i: nat, k: Kernel, cfg: Config)
    requires WellFormed(s) && Enabled(s, Work(i, k)) && AllConfigured(s, cfg)
    ensures AllConfigured(Move(s, Work(i, k)), cfg)
  {
    SameConfig(s, Work(i, k));
    SameCount(s, i, k);
    hide Move, Handled, Configured;
    forall c | 0 <= c < |s.conns| ensures Configured(Move(s, Work(i, k)).conns[c], cfg) {
      WorkConn(s, i, k, c);
      HandledConfigures(s, i, k, s.workers[i].todo[0], c, cfg);
    }
  }

  lemma SameCount(s: Server, i: nat, k: Kernel)
    requires WellFormed(s) && Enabled(s, Work(i, k))
    ensures |Move(s, Work(i, k)).conns| == |s.conns|
  {
    hide Write, Close, Read, Establish, Destroy, EL.Apply, NameOf, Notices;
  }

  lemma SameConfig(s: Server, a: Act)
    requires WellFormed(s) && Enabled(s, a)
    ensures Move(s, a).cfg == s.cfg
  {
    hide Write, Close, Read, Establish, Destroy, Do, EL.Apply, NameOf, Notices, TasksFor, Targets, Held;
  }

  lemma UserConfigures(s: Server, i: nat, u: UserAct, cfg: Config)
    requires WellFormed(s) && Enabled(s, User(i, u)) && AllConfigured(s, cfg)
    ensures AllConfigured(Move(s, User(i, u)), cfg)
  {
    hide Do, Configured, Notices, Held;
    if u.On? { DoConfigures(WorldOf(s, i, u.c), u.c, u.a, cfg); }
  }

  lemma MoveConfigures(s: Server, a: Act, cfg: Config)
    requires WellFormed(s) && Enabled(s, a) && AllConfigured(s, cfg)
    ensures AllConfigured(Move(s, a), cfg)
  {
    hide EL.Apply, NameOf, Held, TasksFor, Targets, WorkStep, UserStep;
    if a.Work? { WorkConfigures(s, a.i, a.k, cfg); }
    else if a.User? { UserConfigures(s, a.i, a.u, cfg); }
  }

  lemma {:induction false} RunConfigures(s: Server, acts: seq<Act>, cfg: Config)
    requires IsRun(s, acts) && AllConfigured(s, cfg)
    ensures AllConfigured(After(s, acts), cfg)
    decreases |acts|
  {
    hide Move, Enabled, AllConfigured;
    if acts != [] {
      MoveConfigures(s, acts[0], cfg);
      RunConfigures(Move(s, acts[0]), acts[1..], cfg);
    }
  }

  /** Every connection of a running server keeps the settings the server was given. */
  lemma SettingsAreTheServers(cfg: Config, n: nat, acts: seq<Act>, s: Server, c: Id)
    requires Reached(cfg, n, acts, s) && c < |s.conns|
    ensures s.cfg == cfg && Configured(s.conns[c], cfg)
  {
    RunConfigures(NewServer(cfg, n), acts, cfg);
  }
}
