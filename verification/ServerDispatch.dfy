/** What the server does for an event is what the connection does: the steps between a Dispatch
  * and the end of its task list, whatever other threads do in between, amount to one call of
  * `HandleEvent`; and every such call is some run of steps. */
module ServerDispatch {
  import opened Buffers
  import opened Polling
  import opened Connections
  import opened ConnectionTheorems
  import opened Servers
  import opened ServerInvariant
  import opened ServerTasks
  import opened ServerMoves
  import opened ServerLifecycle
  import opened ServerAccept
  import opened ServerTheorems
  import EL = EventLoops

  // ---------------------------------------------------------------- how far an event has come

  /** What is still to come of an event: the rest of a user callback, and which callbacks of
    * handleEventWithGuard. */
  datatype Stage = Stage(user: bool, close: bool, error: bool, read: bool, write: bool)

  const OVER := Stage(false, false, false, false, false)

  function StageOf(revents: Mask): Stage {
    Stage(false, Hup in revents && In in revents, Err in revents, In in revents || Pri in revents, Out in revents)
  }

  function Listed(c: Id, st: Stage): seq<Task> {
    (if st.user then [UserCode(c)] else []) + (if st.close then [OnClose(c)] else [])
    + (if st.error then [OnError(c)] else []) + (if st.read then [OnRead(c)] else [])
    + (if st.write then [OnWrite(c)] else [])
  }

  predicate Handles(x: Task) { x.UserCode? || x.OnClose? || x.OnError? || x.OnRead? || x.OnWrite? }

  /** Tasks that leave the connection's own state alone. */
  predicate Clerical(x: Task) {
    x.CloseCallback? || x.Queue? || x.WriteWake? || x.Finish? || (x.Call? && x.f.RemoveConn?)
  }

  function Handlers(todo: seq<Task>): seq<Task>
    decreases |todo|
  {
    if todo == [] then [] else (if Handles(todo[0]) then [todo[0]] else []) + Handlers(todo[1..])
  }

  lemma {:induction false} HandlersConcat(a: seq<Task>, b: seq<Task>)
    ensures Handlers(a + b) == Handlers(a) + Handlers(b)
    decreases |a|
  {
    if a == [] {
      assert a + b == b;
    } else {
      assert (a + b)[1..] == a[1..] + b;
      HandlersConcat(a[1..], b);
      var h := if Handles(a[0]) then [a[0]] else [];
      assert h + (Handlers(a[1..]) + Handlers(b)) == (h + Handlers(a[1..])) + Handlers(b);
    }
  }

  lemma OneTask(x: Task)
    ensures Handlers([x]) == if Handles(x) then [x] else []
  {
    assert [x][1..] == [];
  }

  lemma NoTask()
    ensures Handlers([]) == []
  {}

  lemma HandlersHead(todo: seq<Task>)
    requires todo != []
    ensures Handlers(todo) == (if Handles(todo[0]) then [todo[0]] else []) + Handlers(todo[1..])
  {}

  /** Loop `i` is somewhere inside an event of connection `c`. */
  ghost predicate Serving(s: Server, i: nat, c: Id, st: Stage) {
    && i < |s.workers| == |s.loops| == |s.tables| && c < |s.conns| == |s.homes| && s.homes[c] == i
    && s.loops[i].pc == EL.Dispatching && s.conns[c].state != Connecting
    && Handlers(s.workers[i].todo) == Listed(c, st)
    && forall x :: x in s.workers[i].todo ==> Handles(x) || Clerical(x)
  }

  /** The connection with its poller and the process. */
  function Mine(s: Server, i: nat, c: Id): World<Id>
    requires i < |s.tables| && c < |s.conns|
  {
    World(s.conns[c], s.tables[i], s.halted)
  }

  /** What the rest of the event makes of it, when the user still does `now` in the callback under
    * way, and the rest of the answers are those of `e`. */
  function Completes(w: World<Id>, c: Id, st: Stage, now: seq<Action>, e: Event): World<Id>
    requires e.Ready?
  {
    var w1 := if st.user then DoAll(w, c, now) else w;
    var w2 := if st.close then DoAll(Close(w1, c), c, e.closeActs) else w1;
    var w3 := if st.error then Halt(w2) else w2;
    var w4 := if st.read then DoAll(Read(w3, c, e.read), c, e.readActs) else w3;
    if st.write then Write(w4, c, e.write) else w4
  }

  lemma FreshEvent(w: World<Id>, c: Id, e: Event)
    requires e.Ready?
    ensures Completes(w, c, StageOf(e.revents), [], e) == HandleEvent(w, c, e)
  {}

  lemma Five(a: seq<Task>, b: seq<Task>, r: seq<Task>, w: seq<Task>, f: seq<Task>)
    ensures Handlers(a + b + r + w + f) == Handlers(a) + Handlers(b) + Handlers(r) + Handlers(w) + Handlers(f)
  {
    hide Handlers;
    HandlersConcat(a + b + r + w, f);
    HandlersConcat(a + b + r, w);
    HandlersConcat(a + b, r);
    HandlersConcat(a, b);
  }

  /** The list that dispatch makes is the list of callbacks handleEventWithGuard runs. */
  lemma TasksAreCallbacks(c: Id, revents: Mask)
    ensures Handlers(TasksFor(c, revents)) == Listed(c, StageOf(revents))
  {
    var a := if Hup in revents && In in revents then [OnClose(c)] else [];
    var b := if Err in revents then [OnError(c)] else [];
    var r := if In in revents || Pri in revents then [OnRead(c)] else [];
    var w := if Out in revents then [OnWrite(c)] else [];
    hide Handlers;
    Five(a, b, r, w, [Finish(c)]);
    NoTask();
    OneTask(OnClose(c));
    OneTask(OnError(c));
    OneTask(OnRead(c));
    OneTask(OnWrite(c));
    OneTask(Finish(c));
  }

  lemma TasksAreKnown(c: Id, revents: Mask)
    ensures forall x :: x in TasksFor(c, revents) ==> Handles(x) || Clerical(x)
  {}

  lemma {:induction false} HaltedDoesNothing(w: World<Id>, c: Id, acts: seq<Action>)
    requires w.halted
    ensures DoAll(w, c, acts) == w
    decreases |acts|
  {
    if acts != [] { HaltedDoesNothing(Do(w, c, acts[0]), c, acts[1..]); }
  }

  lemma HaltedCompletes(w: World<Id>, c: Id, st: Stage, now: seq<Action>, e: Event)
    requires e.Ready? && w.halted
    ensures Completes(w, c, st, now, e) == w
  {
    HaltedDoesNothing(w, c, now);
    HaltedDoesNothing(w, c, e.closeActs);
    HaltedDoesNothing(w, c, e.readActs);
  }

  // ---------------------------------------------------------------- steps of other threads

  predicate OwnStep(i: nat, a: Act) { (a.Work? || a.User?) && a.i == i }

  /** Nothing of connection `c` or of loop `i` as far as it serves it has changed. */
  ghost predicate SameHere(s: Server, t: Server, i: nat, c: Id) {
    && i < |s.workers| && i < |s.loops| && i < |s.tables| && c < |s.conns| && c < |s.homes|
    && i < |t.workers| && i < |t.loops| && i < |t.tables| && c < |t.conns| && c < |t.homes|
    && |t.workers| == |t.loops| == |t.tables| && |t.conns| == |t.homes|
    && t.workers[i].todo == s.workers[i].todo && t.loops[i].pc == s.loops[i].pc
    && t.conns[c] == s.conns[c] && t.tables[i] == s.tables[i] && t.homes[c] == s.homes[c]
  }

  lemma BusyLoop(s: Server, i: nat, c: Id, st: Stage)
    requires Serving(s, i, c, st) && st != OVER
    ensures s.workers[i].todo != []
  {}

  lemma QuietLeavesIt(s: Server, a: Act, i: nat, c: Id)
    requires WellFormed(s) && Enabled(s, a) && i < |s.loops| && c < |s.conns| && s.homes[c] == i
    requires s.loops[i].pc == EL.Dispatching && s.workers[i].todo != []
    requires !a.Work? && !a.User?
    ensures SameHere(s, Move(s, a), i, c)
  {
    hide Held, NameOf, TasksFor, Targets;
  }

  lemma WorkMovesLoops(s: Server, i: nat, k: Kernel)
    requires WellFormed(s) && Enabled(s, Work(i, k))
    ensures Move(s, Work(i, k)).loops ==
      match s.workers[i].todo[0]
      case Queue(f) =>
        var j := Target(s, f);
        s.loops[j := EL.Apply(s.loops[j], if j == i then EL.OwnEnqueue(f) else EL.Enqueue(i, f))]
      case WriteWake(j) => s.loops[j := EL.Apply(s.loops[j], EL.Wake(i))]
      case _ => s.loops
  {
    hide Write, Close, Read, Establish, Destroy, EL.Apply, NameOf, Notices;
  }

  lemma WorkKeepsPcs(s: Server, i: nat, k: Kernel)
    requires WellFormed(s) && Enabled(s, Work(i, k))
    ensures SamePcs(s, Move(s, Work(i, k)))
  {
    hide Move;
    WorkMovesLoops(s, i, k);
  }

  lemma ErrorStops(s: Server, i: nat, k: Kernel)
    requires WellFormed(s) && Enabled(s, Work(i, k)) && s.workers[i].todo[0].OnError?
    ensures Move(s, Work(i, k)) == s.(halted := true)
  {}

  lemma ShapeKept(s: Server, i: nat, k: Kernel)
    requires WellFormed(s) && Enabled(s, Work(i, k))
    ensures var t := Move(s, Work(i, k));
      && |t.workers| == |s.workers| && |t.loops| == |s.loops| && |t.tables| == |s.tables| && t.homes == s.homes
      && (forall j :: 0 <= j < |s.workers| && j != i ==> t.workers[j] == s.workers[j])
      && (forall j :: 0 <= j < |s.loops| ==> t.loops[j].pc == s.loops[j].pc)
  {
    hide Move;
    WorkTables(s, i, k);
    WorkSameHomes(s, i, k);
    WorkKeepsPcs(s, i, k);
    if s.workers[i].todo[0].OnError? { ErrorStops(s, i, k); } else { WorkReplaces(s, i, k); }
  }

  /** A handler at work on another loop is not one of this connection. */
  lemma ForeignHead(s: Server, j: nat, k: Kernel, i: nat, c: Id)
    requires Inv(s) && Enabled(s, Work(j, k)) && c < |s.conns| && s.homes[c] == i && i != j
    ensures var head := s.workers[j].todo[0];
      head != OnClose(c) && head != OnRead(c) && head != OnWrite(c)
      && head != Call(EstablishConn(c)) && head != Call(DestroyConn(c))
  {
    hide LoopsOk, DueOk, WakersOk, ActiveOk, DoomOk, NamesOk, ConnsOk, TablesOk, FdsOk, Bounded, EstablishOnce;
    TodoAt(s, j);
  }

  lemma WorkLeavesIt(s: Server, j: nat, k: Kernel, i: nat, c: Id)
    requires Inv(s) && Enabled(s, Work(j, k)) && i < |s.loops| && c < |s.conns| && s.homes[c] == i && i != j
    ensures SameHere(s, Move(s, Work(j, k)), i, c)
  {
    ForeignHead(s, j, k, i, c);
    InvIsWellFormed(s);
    hide Inv, Move, Close, Read, Write, Establish, Destroy;
    ShapeKept(s, j, k);
    WorkConn(s, j, k, c);
    WorkTables(s, j, k);
  }

  lemma UserLeavesIt(s: Server, j: nat, u: UserAct, i: nat, c: Id)
    requires WellFormed(s) && Enabled(s, User(j, u)) && i < |s.loops| && c < |s.conns| && s.homes[c] == i && i != j
    ensures SameHere(s, Move(s, User(j, u)), i, c)
  {
    hide Do, Notices, Held;
  }

  /** A step of another thread, or a step of this loop's protocol, does not move the connection. */
  lemma OthersLeaveIt(s: Server, a: Act, i: nat, c: Id, st: Stage)
    requires Inv(s) && Enabled(s, a) && Serving(s, i, c, st) && st != OVER && !OwnStep(i, a)
    ensures SameHere(s, Move(s, a), i, c) && Serving(Move(s, a), i, c, st)
  {
    InvIsWellFormed(s);
    BusyLoop(s, i, c, st);
    hide Inv, Move, Enabled;
    if a.Work? { WorkLeavesIt(s, a.i, a.k, i, c); }
    else if a.User? { UserLeavesIt(s, a.i, a.u, i, c); }
    else { QuietLeavesIt(s, a, i, c); }
  }

  // ---------------------------------------------------------------- steps of the loop's own thread

  lemma WorkHalts(s: Server, i: nat, k: Kernel)
    requires WellFormed(s) && Enabled(s, Work(i, k))
    ensures var t := Move(s, Work(i, k)); var head := s.workers[i].todo[0];
      t.halted <==> head.OnError? || (IsHandler(head) && Handled(s, i, k, head, HandledConn(head)).halted)
  {
    hide Write, Close, Read, Establish, Destroy, EL.Apply, NameOf, Notices;
  }

  /** What the head of the list makes of the stage. */
  function NextStage(st: Stage, head: Task): Stage {
    match head
    case OnClose(_) => st.(user := true, close := false)
    case OnRead(_) => st.(user := true, read := false)
    case OnWrite(_) => st.(write := false)
    case _ => st
  }

  function NextActs(head: Task, now: seq<Action>, e: Event): seq<Action>
    requires e.Ready?
  {
    match head
    case OnClose(_) => e.closeActs
    case OnRead(_) => e.readActs
    case _ => now
  }

  lemma HeadFlags(c: Id, st: Stage, x: Task, rest: seq<Task>)
    requires [x] + rest == Listed(c, st)
    ensures x.UserCode? ==> st.user && x.c == c
    ensures x.OnClose? ==> !st.user && st.close && x.c == c
    ensures x.OnError? ==> !st.user && !st.close && st.error && x.c == c
    ensures x.OnRead? ==> !st.user && !st.close && !st.error && st.read && x.c == c
    ensures x.OnWrite? ==> !st.user && !st.close && !st.error && !st.read && st.write && x.c == c
  {
    assert ([x] + rest)[0] == x;
  }

  /** The first handler of the list tells how far the event is. */
  lemma HeadStage(c: Id, st: Stage, x: Task, rest: seq<Task>)
    requires [x] + rest == Listed(c, st)
    ensures x.UserCode? ==> st.user && x.c == c && rest == Listed(c, st.(user := false))
    ensures x.OnClose? ==> !st.user && st.close && x.c == c && [UserCode(c)] + rest == Listed(c, NextStage(st, x))
    ensures x.OnError? ==> !st.user && !st.close && st.error && x.c == c
    ensures x.OnRead? ==> !st.user && !st.close && !st.error && st.read && x.c == c
    ensures x.OnRead? ==> [UserCode(c)] + rest == Listed(c, NextStage(st, x))
    ensures x.OnWrite? ==> !st.user && !st.close && !st.error && !st.read && st.write && x.c == c
    ensures x.OnWrite? ==> rest == Listed(c, NextStage(st, x))
  {
    HeadFlags(c, st, x, rest);
    assert ([x] + rest)[1..] == rest;
    if x.UserCode? {
      assert Listed(c, st) == [x] + Listed(c, st.(user := false));
    } else if x.OnClose? {
      assert Listed(c, NextStage(st, x)) == [UserCode(c)] + Listed(c, st)[1..];
    } else if x.OnRead? {
      assert Listed(c, NextStage(st, x)) == [UserCode(c)] + Listed(c, st)[1..];
    }
  }

  lemma HandlerList(todo: seq<Task>, c: Id, st: Stage)
    requires todo != [] && Handlers(todo) == Listed(c, st) && Handles(todo[0])
    ensures [todo[0]] + Handlers(todo[1..]) == Listed(c, st)
  {}

  /** The list after a step of work. */
  lemma WorkedList(s: Server, i: nat, c: Id, st: Stage, k: Kernel, head: Task)
    requires Inv(s) && Enabled(s, Work(i, k)) && Serving(s, i, c, st) && Heads(s, i, head) && !head.OnError?
    ensures var t := Move(s, Work(i, k));
      && i < |t.workers|
      && Handlers(t.workers[i].todo) == Listed(c, NextStage(st, head))
      && forall x :: x in t.workers[i].todo ==> Handles(x) || Clerical(x)
  {
    hide Inv, Move, Enabled, Listed, NextStage, Handlers, ServerTheorems.Added;
    InvIsWellFormed(s);
    var todo := s.workers[i].todo;
    var rest, added := todo[1..], ServerTheorems.Added(s, i, k);
    WorkReplaces(s, i, k);
    assert Handles(head) || Clerical(head);
    HandlersConcat(added, rest);
    HandlersHead(todo);
    AddedHandlers(s, i, k, head);
    WorkIsNotUserCode(s, i, k);
    if Handles(head) { HeadStage(c, st, head, Handlers(rest)); }
    StageOfClerical(st, head);
  }

  lemma StageOfClerical(st: Stage, head: Task)
    ensures !Handles(head) ==> NextStage(st, head) == st
  {}

  lemma AddedHandlers(s: Server, i: nat, k: Kernel, head: Task)
    requires WellFormed(s) && Enabled(s, Work(i, k)) && Heads(s, i, head) && (Handles(head) || Clerical(head))
    ensures var added := ServerTheorems.Added(s, i, k);
      && Handlers(added) == (if head.OnClose? || head.OnRead? then [UserCode(head.c)] else [])
      && forall x :: x in added ==> Handles(x) || Clerical(x)
  {
    hide Write, Handlers;
    var added := ServerTheorems.Added(s, i, k);
    if added == [] {
      assert added == [];
      NoTask();
    } else if |added| == 1 {
      assert added == [added[0]];
      OneTask(added[0]);
    } else {
      assert added == [UserCode(head.c)] + [CloseCallback(head.c)];
      OneTask(UserCode(head.c));
      OneTask(CloseCallback(head.c));
      HandlersConcat([UserCode(head.c)], [CloseCallback(head.c)]);
    }
  }

  /** What the head of the list does to the connection. */
  function NextWorld(w: World<Id>, c: Id, head: Task, e: Event): World<Id>
    requires e.Ready?
  {
    match head
    case OnClose(_) => Close(w, c)
    case OnError(_) => Halt(w)
    case OnRead(_) => Read(w, c, e.read)
    case OnWrite(_) => Write(w, c, e.write)
    case _ => w
  }

  lemma OneStage(w: World<Id>, c: Id, st: Stage, head: Task, rest: seq<Task>, now: seq<Action>, e: Event)
    requires e.Ready? && !head.UserCode? && (Handles(head) ==> [head] + rest == Listed(c, st))
    ensures Completes(NextWorld(w, c, head, e), c, NextStage(st, head), NextActs(head, now, e), e)
         == Completes(w, c, st, now, e)
  {
    hide Close, Read, Write, DoAll, Listed;
    if Handles(head) { HeadStage(c, st, head, rest); }
  }

  /** The server's own account of a handler is this one. */
  lemma HandledIsNext(s: Server, i: nat, k: Kernel, head: Task, c: Id, e: Event)
    requires i < |s.tables| && c < |s.conns| && e.Ready? && (Handles(head) || Clerical(head))
    requires Handles(head) ==> head.c == c
    requires (head.OnRead? ==> e.read == k.read) && (head.OnWrite? ==> e.write == k.write)
    ensures !head.OnError? ==> Handled(s, i, k, head, c) == NextWorld(WorldOf(s, i, c), c, head, e)
    ensures IsHandler(head) ==> HandledConn(head) == c
    ensures !IsHandler(head) && !head.OnError? ==> NextWorld(WorldOf(s, i, c), c, head, e) == WorldOf(s, i, c)
  {
    hide Close, Read, Write, Establish, Destroy;
  }

  lemma OwnWorld(s: Server, i: nat, c: Id, st: Stage, k: Kernel, head: Task, e: Event)
    requires Inv(s) && Enabled(s, Work(i, k)) && Serving(s, i, c, st) && e.Ready? && Heads(s, i, head)
    requires (head.OnRead? ==> e.read == k.read) && (head.OnWrite? ==> e.write == k.write)
    ensures var t := Move(s, Work(i, k));
      i < |t.tables| && c < |t.conns| && Mine(t, i, c) == NextWorld(Mine(s, i, c), c, head, e)
  {
    hide Inv, Move, Listed, Handlers, Handled, IsHandler, HandledConn, NextWorld;
    InvIsWellFormed(s);
    assert Handles(head) || Clerical(head);
    if Handles(head) { HeadIsMine(s, i, c, st); }
    hide Handles, Clerical;
    WorkHalts(s, i, k);
    WorkConn(s, i, k, c);
    WorkTables(s, i, k);
    HandledIsNext(s, i, k, head, c, e);
    assert WorldOf(s, i, c) == Mine(s, i, c);
    if head.OnError? {
      ErrorHalts(Mine(s, i, c), c, head, e);
      ErrorStops(s, i, k);
    }
  }

  lemma ErrorHalts(w: World<Id>, c: Id, head: Task, e: Event)
    requires e.Ready? && head.OnError?
    ensures NextWorld(w, c, head, e) == Halt(w)
  {}

  lemma HeadIsMine(s: Server, i: nat, c: Id, st: Stage)
    requires Serving(s, i, c, st) && s.workers[i].todo != [] && Handles(s.workers[i].todo[0])
    ensures s.workers[i].todo[0].c == c
  {
    HandlerList(s.workers[i].todo, c, st);
    HeadStage(c, st, s.workers[i].todo[0], Handlers(s.workers[i].todo[1..]));
  }

  lemma NextIsUp(w: World<Id>, c: Id, head: Task, e: Event)
    requires e.Ready? && w.conn.state != Connecting
    ensures NextWorld(w, c, head, e).conn.state != Connecting
  {
    hide Perform;
  }

  lemma OwnServing(s: Server, i: nat, c: Id, st: Stage, k: Kernel, head: Task)
    requires Inv(s) && Enabled(s, Work(i, k)) && Serving(s, i, c, st) && Heads(s, i, head)
    requires !Move(s, Work(i, k)).halted
    ensures Serving(Move(s, Work(i, k)), i, c, NextStage(st, head))
  {
    hide Inv, Move, NextWorld, NextStage, Listed, Handlers, Handled, Handles, Clerical;
    InvIsWellFormed(s);
    var e := Ready({}, [], k.read, [], k.write);
    OwnWorld(s, i, c, st, k, head, e);
    NextIsUp(Mine(s, i, c), c, head, e);
    if head.OnError? { ErrorStops(s, i, k); }
    WorkedList(s, i, c, st, k, head);
    ShapeKept(s, i, k);
    WorkConn(s, i, k, c);
  }

  /** A step of work takes the event one stage further, and leaves its outcome the same. */
  lemma OwnWork(s: Server, i: nat, c: Id, st: Stage, k: Kernel, head: Task, now: seq<Action>, e: Event)
    requires Inv(s) && Enabled(s, Work(i, k)) && Serving(s, i, c, st) && e.Ready? && Heads(s, i, head)
    requires (head.OnRead? ==> e.read == k.read) && (head.OnWrite? ==> e.write == k.write)
    ensures var t := Move(s, Work(i, k));
      && i < |t.tables| && c < |t.conns|
      && Completes(Mine(t, i, c), c, NextStage(st, head), NextActs(head, now, e), e)
         == Completes(Mine(s, i, c), c, st, now, e)
      && (t.halted || Serving(t, i, c, NextStage(st, head)))
  {
    hide Inv, Move, NextWorld, Completes, Handles, NextStage, NextActs;
    InvIsWellFormed(s);
    OwnWorld(s, i, c, st, k, head, e);
    WorkIsNotUserCode(s, i, k);
    var todo := s.workers[i].todo;
    hide Enabled;
    if Handles(head) { HandlerList(todo, c, st); }
    OneStage(Mine(s, i, c), c, st, head, Handlers(todo[1..]), now, e);
    if !Move(s, Work(i, k)).halted { OwnServing(s, i, c, st, k, head); }
  }

  lemma WorkIsNotUserCode(s: Server, i: nat, k: Kernel)
    requires WellFormed(s) && Enabled(s, Work(i, k))
    ensures s.workers[i].todo != [] && !s.workers[i].todo[0].UserCode?
  {}

  /** The callback of an event is one of its own connection. */
  lemma UserIsOurs(s: Server, i: nat, c: Id, st: Stage, u: UserAct)
    requires WellFormed(s) && Enabled(s, User(i, u)) && Serving(s, i, c, st)
    ensures st.user && s.workers[i].todo != [] && s.workers[i].todo[0] == UserCode(c)
    ensures Handlers(s.workers[i].todo[1..]) == Listed(c, st.(user := false))
  {
    HandlerList(s.workers[i].todo, c, st);
    HeadStage(c, st, s.workers[i].todo[0], Handlers(s.workers[i].todo[1..]));
  }

  lemma UserTodo(s: Server, i: nat, u: UserAct)
    requires WellFormed(s) && Enabled(s, User(i, u))
    ensures var t := Move(s, User(i, u)); var todo := s.workers[i].todo;
      && |t.workers| == |s.workers| && t.loops == s.loops && |t.tables| == |s.tables| && t.homes == s.homes
      && (u.Return? ==> t.workers[i].todo == todo[1..])
      && (!u.Return? ==> exists added: seq<Task> ::
            t.workers[i].todo == added + todo && |added| <= 1 && forall x :: x in added ==> x.Queue?)
      && (t.halted <==> u.On? && Do(WorldOf(s, i, u.c), u.c, u.a).halted)
  {
    hide Do;
    var t, todo := Move(s, User(i, u)), s.workers[i].todo;
    match u {
      case On(d, a) => assert t.workers[i].todo == Notices(s.conns[d], Do(WorldOf(s, i, d), d, a).conn, d) + todo;
      case QueueTask(d) => assert t.workers[i].todo == [Queue(Callback(d))] + todo;
      case Keep(d) => assert t.workers[i].todo == [] + todo;
      case Return =>
    }
  }

  lemma {:induction false} QueueIsClerical(added: seq<Task>, todo: seq<Task>)
    requires forall x :: x in added ==> x.Queue?
    ensures Handlers(added + todo) == Handlers(todo)
    decreases |added|
  {
    if added == [] {
      assert added + todo == todo;
    } else {
      assert (added + todo)[1..] == added[1..] + todo;
      assert added[0] in added && !Handles((added + todo)[0]);
      QueueIsClerical(added[1..], todo);
    }
  }

  lemma UserList(s: Server, i: nat, c: Id, st: Stage, u: UserAct)
    requires WellFormed(s) && Enabled(s, User(i, u)) && Serving(s, i, c, st)
    ensures var t := Move(s, User(i, u));
      && i < |t.workers|
      && Handlers(t.workers[i].todo) == Listed(c, if u.Return? then st.(user := false) else st)
      && forall x :: x in t.workers[i].todo ==> Handles(x) || Clerical(x)
  {
    var t, todo := Move(s, User(i, u)), s.workers[i].todo;
    UserIsOurs(s, i, c, st, u);
    UserTodo(s, i, u);
    hide Move, Enabled, Listed;
    if !u.Return? {
      var added: seq<Task> :| t.workers[i].todo == added + todo && forall x :: x in added ==> x.Queue?;
      QueueIsClerical(added, todo);
    }
  }

  /** A step of the user's: on this connection, on another one, or at the end of the callback. */
  lemma UserStages(s: Server, i: nat, c: Id, st: Stage, u: UserAct)
    requires Inv(s) && Enabled(s, User(i, u)) && Serving(s, i, c, st)
    ensures var t := Move(s, User(i, u));
      && i < |t.tables| && c < |t.conns|
      && t.conns[c] == (if u.On? && u.c == c then Do(Mine(s, i, c), c, u.a) else Mine(s, i, c)).conn
      && (!u.On? || u.c == c ==> Mine(t, i, c) == if u.On? then Do(Mine(s, i, c), c, u.a) else Mine(s, i, c))
      && (t.halted || Serving(t, i, c, if u.Return? then st.(user := false) else st))
  {
    InvIsWellFormed(s);
    UserList(s, i, c, st, u);
    UserTodo(s, i, u);
    UserConn(s, i, u, c);
    UserTables(s, i, u);
    assert WorldOf(s, i, c) == Mine(s, i, c);
    if u.On? && u.c == c { DoIsUp(Mine(s, i, c), c, u.a); }
    hide Inv, Move, Do, Handlers, Listed, Handles, Clerical;
  }

  lemma DoIsUp(w: World<Id>, c: Id, a: Action)
    requires w.conn.state != Connecting
    ensures Do(w, c, a).conn.state != Connecting
  {
    hide Perform;
  }

  // ---------------------------------------------------------------- other connections of the same loop

  /** The same for the connection and the process; `tables` says whether also for the poller. */
  predicate Alike(a: World<Id>, b: World<Id>, tables: bool) {
    a.conn == b.conn && a.halted == b.halted && (tables ==> a.tables == b.tables)
  }

  lemma TouchAlike(a: World<Id>, b: World<Id>, c: Id, op: ChannelOp)
    requires a.conn == b.conn && !a.halted && !b.halted && !a.tables.failed && !b.tables.failed
    requires Registered(a.tables, c, a.conn.chan) && Registered(b.tables, c, b.conn.chan)
    ensures Alike(Touch(a, c, op), Touch(b, c, op), false)
  {
    TouchGood(a, c, op);
    TouchGood(b, c, op);
  }

  lemma DoAlike(a: World<Id>, b: World<Id>, c: Id, x: Action)
    requires Good(a, c) && Good(b, c) && Alike(a, b, false)
    ensures Good(Do(a, c, x), c) && Good(Do(b, c, x), c) && Alike(Do(a, c, x), Do(b, c, x), false)
  {
    hide Perform, Registered, HighWaters;
    DoProgress(a, c, x);
    DoProgress(b, c, x);
    if x.Send? && !a.halted && a.conn.state == Connected && !a.conn.chan.IsWriting() {
      var n := Taken(x.write, |x.data|);
      var w := Backlog(a.conn, x.data, n);
      if a.conn.output == [] { TouchAlike(a.(conn := w), b.(conn := w), c, EnableWriting); }
    }
  }

  lemma {:induction false} DoAllAlike(a: World<Id>, b: World<Id>, c: Id, acts: seq<Action>)
    requires Good(a, c) && Good(b, c) && Alike(a, b, false)
    ensures var r, q := DoAll(a, c, acts), DoAll(b, c, acts); Good(r, c) && Good(q, c) && Alike(r, q, false)
    decreases |acts|
  {
    if acts != [] {
      DoAlike(a, b, c, acts[0]);
      DoAllAlike(Do(a, c, acts[0]), Do(b, c, acts[0]), c, acts[1..]);
    }
  }

  /** Past its establishment, or past everything. */
  ghost predicate Past(w: World<Id>, c: Id) { Good(w, c) && (w.halted || w.conn.state != Connecting) }

  lemma CloseAlike(a: World<Id>, b: World<Id>, c: Id)
    requires Past(a, c) && Past(b, c) && Alike(a, b, false)
    ensures Past(Close(a, c), c) && Past(Close(b, c), c) && Alike(Close(a, c), Close(b, c), false)
  {
    hide Perform, HighWaters;
    CloseProgress(a, c);
    CloseProgress(b, c);
    if !a.halted {
      var w := a.conn.(state := Disconnected, closes := a.conn.closes + 1);
      TouchAlike(a.(conn := w), b.(conn := w), c, DisableAll);
    }
  }

  lemma ReadAlike(a: World<Id>, b: World<Id>, c: Id, k: ReadResult)
    requires Past(a, c) && Past(b, c) && Alike(a, b, false)
    ensures Past(Read(a, c, k), c) && Past(Read(b, c, k), c) && Alike(Read(a, c, k), Read(b, c, k), false)
  {
    hide Perform, HighWaters, Close;
    CloseAlike(a, b, c);
    ReadProgress(a, c, k);
    ReadProgress(b, c, k);
  }

  lemma WriteAlike(a: World<Id>, b: World<Id>, c: Id, k: WriteResult)
    requires Past(a, c) && Past(b, c) && Alike(a, b, false)
    ensures Alike(Write(a, c, k), Write(b, c, k), false)
  {
    hide Perform, HighWaters;
    var n := Taken(k, |a.conn.output|);
    if !a.halted && a.conn.chan.IsWriting() && n > 0 && n == |a.conn.output| {
      var w := Drain(a.conn, n);
      TouchAlike(a.(conn := w), b.(conn := w), c, DisableWriting);
    }
  }

  lemma CallbackAlike(a: World<Id>, b: World<Id>, c: Id, acts: seq<Action>)
    requires Past(a, c) && Past(b, c) && Alike(a, b, false)
    ensures var r, q := DoAll(a, c, acts), DoAll(b, c, acts); Past(r, c) && Past(q, c) && Alike(r, q, false)
  {
    DoAllAlike(a, b, c, acts);
    DoAllProgress(a, c, acts);
    DoAllProgress(b, c, acts);
    hide Good;
  }

  /** What other connections do to the poller does not show in this one. */
  lemma CompletesAlike(a: World<Id>, b: World<Id>, c: Id, st: Stage, now: seq<Action>, e: Event)
    requires e.Ready? && Past(a, c) && Past(b, c) && Alike(a, b, false)
    ensures Alike(Completes(a, c, st, now, e), Completes(b, c, st, now, e), false)
  {
    hide DoAll, Close, Read, Write;
    var a1, b1 := if st.user then DoAll(a, c, now) else a, if st.user then DoAll(b, c, now) else b;
    CallbackAlike(a, b, c, now);
    CloseAlike(a1, b1, c);
    CallbackAlike(Close(a1, c), Close(b1, c), c, e.closeActs);
    var a2 := if st.close then DoAll(Close(a1, c), c, e.closeActs) else a1;
    var b2 := if st.close then DoAll(Close(b1, c), c, e.closeActs) else b1;
    var a3, b3 := if st.error then Halt(a2) else a2, if st.error then Halt(b2) else b2;
    ReadAlike(a3, b3, c, e.read);
    CallbackAlike(Read(a3, c, e.read), Read(b3, c, e.read), c, e.readActs);
    var a4 := if st.read then DoAll(Read(a3, c, e.read), c, e.readActs) else a3;
    var b4 := if st.read then DoAll(Read(b3, c, e.read), c, e.readActs) else b3;
    WriteAlike(a4, b4, c, e.write);
  }

  // ---------------------------------------------------------------- whole events

  /** Something this loop does for this connection. */
  predicate DoneFor(i: nat, c: Id, a: Act) { OwnStep(i, a) && (a.User? && a.u.On? ==> a.u.c == c) }

  /** No callback of loop `i` works on another connection. */
  predicate OnlyFor(i: nat, c: Id, acts: seq<Act>) { forall a :: a in acts && OwnStep(i, a) ==> DoneFor(i, c, a) }

  function NextOf(s: Server, i: nat, a: Act, st: Stage): Stage {
    if a.Work? && a.i == i && i < |s.workers| && s.workers[i].todo != [] then NextStage(st, s.workers[i].todo[0])
    else if a == User(i, Return) then st.(user := false)
    else st
  }

  lemma StepServing(s: Server, a: Act, i: nat, c: Id, st: Stage)
    requires Inv(s) && Enabled(s, a) && Serving(s, i, c, st) && st != OVER
    ensures var t := Move(s, a);
      i < |t.tables| && c < |t.conns| && (t.halted || Serving(t, i, c, NextOf(s, i, a, st)))
  {
    hide Inv, Move, Enabled, Listed, Handlers, Handles, Clerical, SameHere, NextStage;
    InvIsWellFormed(s);
    if !OwnStep(i, a) { OthersLeaveIt(s, a, i, c, st); }
    else if a.User? { UserStages(s, i, c, st, a.u); }
    else { WorkServing(s, i, a.k, c, st); }
  }

  lemma WorkServing(s: Server, i: nat, k: Kernel, c: Id, st: Stage)
    requires Inv(s) && Enabled(s, Work(i, k)) && Serving(s, i, c, st)
    ensures var t := Move(s, Work(i, k));
      i < |t.tables| && c < |t.conns| && (t.halted || Serving(t, i, c, NextOf(s, i, Work(i, k), st)))
  {
    InvIsWellFormed(s);
    WorkIsNotUserCode(s, i, k);
    hide Inv, Move, Enabled, Serving, Completes, NextStage, NextActs;
    OwnWork(s, i, c, st, k, s.workers[i].todo[0], [], Ready({}, [], k.read, [], k.write));
  }

  /** Answers that have been given do not matter any more. */
  lemma Irrelevant(w: World<Id>, c: Id, st: Stage, now: seq<Action>, e: Event, f: Event)
    requires e.Ready? && f.Ready? && (st.close ==> e.closeActs == f.closeActs)
    requires st.read ==> e.read == f.read && e.readActs == f.readActs
    requires st.write ==> e.write == f.write
    ensures Completes(w, c, st, now, e) == Completes(w, c, st, now, f)
  {}

  lemma FirstIsHandled(s: Server, i: nat, c: Id, st: Stage)
    requires Serving(s, i, c, st) && s.workers[i].todo != []
    ensures var head := s.workers[i].todo[0];
      && (head.OnClose? ==> !NextStage(st, head).close)
      && (head.OnRead? ==> !st.close && !NextStage(st, head).read)
      && (head.OnWrite? ==> !st.close && !st.read && !NextStage(st, head).write)
  {
    var head := s.workers[i].todo[0];
    if Handles(head) {
      HandlerList(s.workers[i].todo, c, st);
      HeadStage(c, st, head, Handlers(s.workers[i].todo[1..]));
    }
  }

  lemma WorkBack(s: Server, i: nat, k: Kernel, c: Id, st: Stage, now': seq<Action>, e': Event)
      returns (now: seq<Action>, e: Event)
    requires Inv(s) && Enabled(s, Work(i, k)) && Serving(s, i, c, st) && st != OVER && e'.Ready?
    ensures var t := Move(s, Work(i, k));
      && e.Ready? && e.revents == e'.revents && i < |t.tables| && c < |t.conns|
      && Completes(Mine(s, i, c), c, st, now, e)
         == Completes(Mine(t, i, c), c, NextOf(s, i, Work(i, k), st), now', e')
  {
    InvIsWellFormed(s);
    WorkIsNotUserCode(s, i, k);
    FirstIsHandled(s, i, c, st);
    var head := s.workers[i].todo[0];
    now := now';
    e := match head
      case OnClose(_) => e'.(closeActs := now')
      case OnRead(_) => e'.(read := k.read, readActs := now')
      case OnWrite(_) => e'.(write := k.write)
      case _ => e';
    hide Inv, Move, Enabled, Serving, Completes;
    OwnWork(s, i, c, st, k, head, now, e);
    Irrelevant(Mine(Move(s, Work(i, k)), i, c), c, NextStage(st, head), now', e, e');
  }

  lemma DoFirst(w: World<Id>, c: Id, a: Action, acts: seq<Action>)
    ensures DoAll(w, c, [a] + acts) == DoAll(Do(w, c, a), c, acts)
  {
    assert ([a] + acts)[1..] == acts;
  }

  lemma UserBack(s: Server, i: nat, u: UserAct, c: Id, st: Stage, now': seq<Action>, e: Event)
      returns (now: seq<Action>)
    requires Inv(s) && Enabled(s, User(i, u)) && Serving(s, i, c, st) && st != OVER && e.Ready?
    requires !u.On? || u.c == c
    ensures now == if u.On? then [u.a] + now' else if u.Return? then [] else now'
    ensures var t := Move(s, User(i, u));
      && i < |t.tables| && c < |t.conns|
      && Completes(Mine(s, i, c), c, st, now, e)
         == Completes(Mine(t, i, c), c, NextOf(s, i, User(i, u), st), now', e)
  {
    InvIsWellFormed(s);
    UserIsOurs(s, i, c, st, u);
    UserStages(s, i, c, st, u);
    now := if u.On? then [u.a] + now' else if u.Return? then [] else now';
    hide Inv, Move, Enabled, Serving;
    if u.On? { DoFirst(Mine(s, i, c), c, u.a, now'); }
  }

  lemma MineIsPast(s: Server, i: nat, c: Id, st: Stage)
    requires Inv(s) && Serving(s, i, c, st) && !s.halted && Held(s, c)
    ensures Past(Mine(s, i, c), c)
  {
    hide Inv, Good;
    WorldIsGood(s, i, c);
    assert Mine(s, i, c) == WorldOf(s, i, c);
  }

  /** A callback that works on another connection. */
  lemma ForeignBack(s: Server, i: nat, u: UserAct, c: Id, st: Stage, now: seq<Action>, e: Event)
    requires Inv(s) && Enabled(s, User(i, u)) && Serving(s, i, c, st) && st != OVER && e.Ready? && u.On? && u.c != c
    requires !Move(s, User(i, u)).halted
    ensures var t := Move(s, User(i, u));
      && i < |t.tables| && c < |t.conns|
      && Alike(Completes(Mine(s, i, c), c, st, now, e), Completes(Mine(t, i, c), c, st, now, e), false)
  {
    hide Inv, Move, Listed, Handlers, Handles, Clerical, Held, Past, Completes;
    InvIsWellFormed(s);
    var t := Move(s, User(i, u));
    UserIsOurs(s, i, c, st, u);
    UserStages(s, i, c, st, u);
    UserTodo(s, i, u);
    MoveKeepsInv(s, User(i, u));
    HeadHeld(s, i, c);
    MineIsPast(s, i, c, st);
    StillOurs(s, i, u, c);
    MineIsPast(t, i, c, st);
    CompletesAlike(Mine(s, i, c), Mine(t, i, c), c, st, now, e);
  }

  /** The callback still mentions its connection. */
  lemma StillOurs(s: Server, i: nat, u: UserAct, c: Id)
    requires WellFormed(s) && Enabled(s, User(i, u)) && u.On? && UserCode(c) in s.workers[i].todo
    ensures var t := Move(s, User(i, u)); i < |t.workers| && Held(t, c)
  {
    var t := Move(s, User(i, u));
    UserTodo(s, i, u);
    hide Move, Enabled;
    var added: seq<Task> :| t.workers[i].todo == added + s.workers[i].todo && forall x :: x in added ==> x.Queue?;
    assert UserCode(c) in t.workers[i].todo;
    TodoHolds(t, i, UserCode(c), c);
  }

  lemma EnabledAlive(s: Server, a: Act)
    requires WellFormed(s) && Enabled(s, a)
    ensures !s.halted
  {}

  /** One step, seen from the end of the event: whatever answers complete the event after it, there
    * are answers that complete it from before it, with the same outcome. */
  lemma StepBack(s: Server, a: Act, i: nat, c: Id, st: Stage, now': seq<Action>, e': Event)
      returns (now: seq<Action>, e: Event)
    requires Inv(s) && Enabled(s, a) && Serving(s, i, c, st) && st != OVER && e'.Ready?
    requires Move(s, a).halted ==> DoneFor(i, c, a)
    ensures e.Ready? && e.revents == e'.revents
    ensures var t := Move(s, a);
      && i < |t.tables| && c < |t.conns|
      && Alike(Completes(Mine(s, i, c), c, st, now, e),
               Completes(Mine(t, i, c), c, NextOf(s, i, a, st), now', e'), OnlyFor(i, c, [a]))
  {
    hide Inv, Move, Enabled, Listed, Handlers, Handles, Clerical, Completes, NextStage;
    InvIsWellFormed(s);
    StepServing(s, a, i, c, st);
    now, e := now', e';
    assert a in [a];
    EnabledAlive(s, a);
    if !OwnStep(i, a) {
      OthersLeaveIt(s, a, i, c, st);
      assert Mine(s, i, c) == Mine(Move(s, a), i, c);
    } else if a.Work? {
      now, e := WorkBack(s, i, a.k, c, st, now', e');
    } else if a.u.On? && a.u.c != c {
      ForeignBack(s, i, a.u, c, st, now', e');
    } else {
      now := UserBack(s, i, a.u, c, st, now', e');
    }
  }

  /** The event is over, or this loop has ended the process on behalf of this connection. */
  ghost predicate InTurn(s: Server, i: nat, c: Id, acts: seq<Act>)
    requires IsRun(s, acts)
    decreases |acts|
  {
    if acts == [] then s.halted || (i < |s.workers| && Handlers(s.workers[i].todo) == [])
    else
      && i < |s.workers| && Handlers(s.workers[i].todo) != []
      && (Move(s, acts[0]).halted ==> DoneFor(i, c, acts[0]))
      && InTurn(Move(s, acts[0]), i, c, acts[1..])
  }

  lemma OverIsOver(w: World<Id>, c: Id, now: seq<Action>, e: Event)
    requires e.Ready?
    ensures Completes(w, c, OVER, now, e) == w
  {}

  lemma {:induction false} RunBack(s: Server, i: nat, c: Id, st: Stage, acts: seq<Act>, revents: Mask)
      returns (now: seq<Action>, e: Event)
    requires IsRun(s, acts) && InTurn(s, i, c, acts)
    requires if s.halted then i < |s.tables| && c < |s.conns| else Inv(s) && Serving(s, i, c, st)
    ensures e.Ready? && e.revents == revents
    ensures var t := After(s, acts);
      && i < |s.tables| && c < |s.conns| && i < |t.tables| && c < |t.conns|
      && Alike(Completes(Mine(s, i, c), c, st, now, e), Mine(t, i, c), OnlyFor(i, c, acts))
    decreases |acts|
  {
    hide Inv, Move, Enabled, Handlers, Handles, Clerical, Completes, NextOf;
    now, e := [], Ready(revents, [], Got([]), [], WouldBlock);
    if s.halted {
      HaltedStops(s, acts);
      HaltedCompletes(Mine(s, i, c), c, st, now, e);
    } else if acts == [] {
      ListedNone(c, st);
      OverIsOver(Mine(s, i, c), c, now, e);
    } else {
      InvIsWellFormed(s);
      var a := acts[0];
      ListedNone(c, st);
      StepServing(s, a, i, c, st);
      MoveKeepsInv(s, a);
      var now', e' := RunBack(Move(s, a), i, c, NextOf(s, i, a, st), acts[1..], revents);
      now, e := StepBack(s, a, i, c, st, now', e');
      assert OnlyFor(i, c, acts) ==> OnlyFor(i, c, [a]) && OnlyFor(i, c, acts[1..]);
    }
  }

  lemma ListedNone(c: Id, st: Stage)
    ensures Listed(c, st) == [] <==> st == OVER
  {}

  lemma DispatchServes(s: Server, i: nat)
    requires Inv(s) && Enabled(s, Dispatch(i))
    ensures s.workers[i].active != []
    ensures var t := Move(s, Dispatch(i)); var x := s.workers[i].active[0];
      && Serving(t, i, x.0, StageOf(x.1)) && i < |s.tables| && x.0 < |s.conns| && Mine(t, i, x.0) == Mine(s, i, x.0)
  {
    var x := s.workers[i].active[0];
    ActiveHeld(s, i, x);
    PresentIsNotNew(s, x.0);
    TasksAreCallbacks(x.0, x.1);
    TasksAreKnown(x.0, x.1);
    hide TasksFor, Listed, Handlers, Held;
  }

  /** Every event the server dispatches is handled as the connection's `HandleEvent` handles it:
    * from the dispatch to the end of the list, whatever other threads do and wherever the user's
    * callbacks reach, the connection, and the fate of the process, are those of one event with the
    * reported flags. If the callbacks keep to this connection, so is the poller. */
  lemma ServedAsEvent(cfg: Config, n: nat, before: seq<Act>, s: Server, i: nat, acts: seq<Act>) returns (e: Event)
    requires Reached(cfg, n, before, s) && WellFormed(s) && Enabled(s, Dispatch(i)) && s.workers[i].active != []
    requires IsRun(Move(s, Dispatch(i)), acts)
    requires InTurn(Move(s, Dispatch(i)), i, s.workers[i].active[0].0, acts)
    ensures e.Ready? && e.revents == s.workers[i].active[0].1
    ensures var c, t := s.workers[i].active[0].0, After(Move(s, Dispatch(i)), acts);
      && i < |s.tables| && c < |s.conns| && i < |t.tables| && c < |t.conns|
      && Alike(HandleEvent(Mine(s, i, c), c, e), Mine(t, i, c), OnlyFor(i, c, acts))
  {
    ReachedInv(cfg, n, before, s);
    hide Inv, Move, Enabled, Reached, Serving, InTurn, Completes, HandleEvent, OnlyFor;
    DispatchServes(s, i);
    MoveKeepsInv(s, Dispatch(i));
    DispatchGoesOn(s, i);
    var x := s.workers[i].active[0];
    var now;
    now, e := RunBack(Move(s, Dispatch(i)), i, x.0, StageOf(x.1), acts, x.1);
    NothingNow(Mine(s, i, x.0), x.0, StageOf(x.1), now, e);
    FreshEvent(Mine(s, i, x.0), x.0, e);
  }

  lemma DispatchGoesOn(s: Server, i: nat)
    requires WellFormed(s) && Enabled(s, Dispatch(i))
    ensures !Move(s, Dispatch(i)).halted
  {}

  lemma NothingNow(w: World<Id>, c: Id, st: Stage, now: seq<Action>, e: Event)
    requires e.Ready? && !st.user
    ensures Completes(w, c, st, now, e) == Completes(w, c, st, [], e)
  {}

  // ---------------------------------------------------------------- every event has its run

  function Weight(x: Task): nat {
    match x
    case OnClose(_) => 10
    case OnRead(_) => 10
    case OnWrite(_) => 5
    case CloseCallback(_) => 4
    case Call(_) => 3
    case Queue(_) => 2
    case _ => 1
  }

  function Load(todo: seq<Task>): nat
    decreases |todo|
  {
    if todo == [] then 0 else Weight(todo[0]) + Load(todo[1..])
  }

  lemma {:induction false} LoadConcat(a: seq<Task>, b: seq<Task>)
    ensures Load(a + b) == Load(a) + Load(b)
    decreases |a|
  {
    if a == [] {
      assert a + b == b;
    } else {
      assert (a + b)[1..] == a[1..] + b;
      LoadConcat(a[1..], b);
    }
  }

  /** What the user is still going to do. */
  function Plans(st: Stage, now: seq<Action>, e: Event): nat
    requires e.Ready?
  {
    (if st.user then |now| else 0) + (if st.close then |e.closeActs| else 0) + (if st.read then |e.readActs| else 0)
  }

  lemma WorkLightens(s: Server, i: nat, k: Kernel, c: Id, st: Stage, head: Task, now: seq<Action>, e: Event)
    requires Inv(s) && Enabled(s, Work(i, k)) && Serving(s, i, c, st) && e.Ready? && (!st.user ==> now == [])
    requires Heads(s, i, head) && !head.OnError?
    ensures var t := Move(s, Work(i, k));
      && i < |t.workers|
      && Load(t.workers[i].todo) + 4 * Plans(NextStage(st, head), NextActs(head, now, e), e)
         < Load(s.workers[i].todo) + 4 * Plans(st, now, e)
  {
    hide Inv, Move, Listed, Handlers, ServerTheorems.Added;
    InvIsWellFormed(s);
    var rest, added := s.workers[i].todo[1..], ServerTheorems.Added(s, i, k);
    WorkReplaces(s, i, k);
    FirstIsHandled(s, i, c, st);
    WorkIsNotUserCode(s, i, k);
    assert Handles(head) || Clerical(head);
    if Handles(head) {
      HandlerList(s.workers[i].todo, c, st);
      HeadStage(c, st, head, Handlers(rest));
    }
    AddedLoad(s, i, k, head);
    LoadConcat(added, rest);
  }

  lemma AddedLoad(s: Server, i: nat, k: Kernel, head: Task)
    requires WellFormed(s) && Enabled(s, Work(i, k)) && Heads(s, i, head) && (Handles(head) || Clerical(head))
    ensures Load(ServerTheorems.Added(s, i, k)) < Weight(head)
  {
    hide Write;
    if head.OnClose? || (head.OnRead? && k.read == Got([])) {
      LoadConcat([UserCode(head.c)], [CloseCallback(head.c)]);
      assert [UserCode(head.c)] + [CloseCallback(head.c)] == [UserCode(head.c), CloseCallback(head.c)];
    }
  }

  lemma UserLightens(s: Server, i: nat, u: UserAct, c: Id, st: Stage)
    requires WellFormed(s) && Enabled(s, User(i, u)) && Serving(s, i, c, st)
    ensures var t := Move(s, User(i, u));
      && i < |t.workers|
      && Load(t.workers[i].todo) < Load(s.workers[i].todo) + if u.Return? then 0 else 4
  {
    var t, todo := Move(s, User(i, u)), s.workers[i].todo;
    UserIsOurs(s, i, c, st, u);
    UserTodo(s, i, u);
    hide Move, Enabled, Listed, Handlers, Load;
    LoadConcat([todo[0]], todo[1..]);
    assert [todo[0]] + todo[1..] == todo;
    SmallLoad(todo[0]);
    if !u.Return? {
      var added: seq<Task> :|
        t.workers[i].todo == added + todo && |added| <= 1 && forall x :: x in added ==> x.Queue?;
      QueuedLoad(added, todo);
    }
  }

  lemma QueuedLoad(added: seq<Task>, todo: seq<Task>)
    requires |added| <= 1 && forall x :: x in added ==> x.Queue?
    ensures Load(added + todo) <= Load(todo) + 2
  {
    hide Load;
    LoadConcat(added, todo);
    if added == [] {
      assert added + todo == todo;
    } else {
      assert added == [added[0]];
      SmallLoad(added[0]);
    }
  }

  lemma SmallLoad(x: Task)
    ensures Load([x]) == Weight(x) > 0
  {
    assert [x][1..] == [];
  }

  /** What loop `i` does next for the event. */
  function NextAct(s: Server, i: nat, c: Id, now: seq<Action>, e: Event): Act
    requires e.Ready? && i < |s.workers| && s.workers[i].todo != []
  {
    if !s.workers[i].todo[0].UserCode? then Work(i, Kernel(e.read, e.write))
    else if now == [] then User(i, Return)
    else User(i, On(c, now[0]))
  }

  lemma CalmLoop(s: Server, i: nat, c: Id, st: Stage)
    requires Inv(s) && Serving(s, i, c, st)
    ensures !s.loops[i].owes
  {
    hide DueOk, TodosOk, WakersOk, ActiveOk, DoomOk, NamesOk, ConnsOk, TablesOk, FdsOk, Bounded, EstablishOnce, Listed;
    assert EL.LoopInv(s.loops[i]);
  }

  /** A callback may always do something for its own connection, or return. */
  lemma UserMayAct(s: Server, i: nat, c: Id, st: Stage, u: UserAct)
    requires WellFormed(s) && !s.halted && Serving(s, i, c, st) && !s.loops[i].owes
    requires s.workers[i].todo != [] && s.workers[i].todo[0].UserCode? && (u.Return? || (u.On? && u.c == c))
    ensures Enabled(s, User(i, u))
  {
    HandlerList(s.workers[i].todo, c, st);
    HeadStage(c, st, s.workers[i].todo[0], Handlers(s.workers[i].todo[1..]));
  }

  lemma WorkMayGoOn(s: Server, i: nat, k: Kernel)
    requires Inv(s) && !s.halted && i < |s.workers| && s.workers[i].todo != [] && i < |s.loops| && !s.loops[i].owes
    requires !s.workers[i].todo[0].UserCode?
    ensures Enabled(s, Work(i, k))
  {
    hide LoopsOk, DueOk, TodosOk, WakersOk, ActiveOk, DoomOk, NamesOk, ConnsOk, TablesOk, FdsOk, Bounded, EstablishOnce,
      WorkEnabled;
    BusyWorkerMoves(s, i, k);
  }

  lemma NextActEnabled(s: Server, i: nat, c: Id, st: Stage, now: seq<Action>, e: Event)
    requires Inv(s) && !s.halted && Serving(s, i, c, st) && st != OVER && e.Ready?
    ensures s.workers[i].todo != [] && Enabled(s, NextAct(s, i, c, now, e))
  {
    hide Inv, Enabled, Listed, Handlers;
    InvIsWellFormed(s);
    BusyLoop(s, i, c, st);
    CalmLoop(s, i, c, st);
    if s.workers[i].todo[0].UserCode? { UserMayAct(s, i, c, st, NextAct(s, i, c, now, e).u); }
    else { WorkMayGoOn(s, i, Kernel(e.read, e.write)); }
  }

  /** That step, with the stage, the user's plans and the outcome it leaves. */
  lemma NextActServes(s: Server, i: nat, c: Id, st: Stage, now: seq<Action>, e: Event) returns (now': seq<Action>)
    requires Inv(s) && !s.halted && Serving(s, i, c, st) && st != OVER && e.Ready? && (!st.user ==> now == [])
    requires s.workers[i].todo != [] && Enabled(s, NextAct(s, i, c, now, e))
    ensures var a := NextAct(s, i, c, now, e); var t, st' := Move(s, a), NextOf(s, i, a, st);
      && i < |t.tables| && c < |t.conns| && i < |t.workers| && DoneFor(i, c, a)
      && (t.halted || (Serving(t, i, c, st') && (!st'.user ==> now' == [])))
      && Completes(Mine(t, i, c), c, st', now', e) == Completes(Mine(s, i, c), c, st, now, e)
      && (!t.halted ==>
            Load(t.workers[i].todo) + 4 * Plans(st', now', e) < Load(s.workers[i].todo) + 4 * Plans(st, now, e))
  {
    hide Inv, Move, Enabled, Listed, Handlers, Handles, Clerical, Completes;
    InvIsWellFormed(s);
    var a := NextAct(s, i, c, now, e);
    StepServing(s, a, i, c, st);
    if a.Work? {
      var head := s.workers[i].todo[0];
      now' := NextActs(head, now, e);
      OwnWork(s, i, c, st, a.k, head, now, e);
      FirstIsHandled(s, i, c, st);
      if head.OnError? { ErrorStops(s, i, a.k); } else { WorkLightens(s, i, a.k, c, st, head, now, e); }
    } else {
      UserIsOurs(s, i, c, st, a.u);
      now' := if now == [] then [] else now[1..];
      var was := UserBack(s, i, a.u, c, st, now', e);
      assert was == now;
      UserLightens(s, i, a.u, c, st);
    }
  }

  lemma {:induction false} ServeOn(s: Server, i: nat, c: Id, st: Stage, now: seq<Action>, e: Event)
      returns (acts: seq<Act>)
    requires Inv(s) && !s.halted && Serving(s, i, c, st) && e.Ready? && (!st.user ==> now == [])
    ensures IsRun(s, acts) && InTurn(s, i, c, acts) && OnlyFor(i, c, acts) && forall a :: a in acts ==> OwnStep(i, a)
    ensures var t := After(s, acts);
      i < |t.tables| && c < |t.conns| && Mine(t, i, c) == Completes(Mine(s, i, c), c, st, now, e)
    decreases Load(s.workers[i].todo) + 4 * Plans(st, now, e)
  {
    hide Inv, Move, Enabled, Listed, Handlers, Handles, Clerical, Completes, NextOf, NextAct, Plans, Load;
    ListedNone(c, st);
    acts := [];
    if st == OVER {
      OverIsOver(Mine(s, i, c), c, now, e);
    } else {
      InvIsWellFormed(s);
      NextActEnabled(s, i, c, st, now, e);
      var a := NextAct(s, i, c, now, e);
      var now' := NextActServes(s, i, c, st, now, e);
      var t, st' := Move(s, a), NextOf(s, i, a, st);
      MoveKeepsInv(s, a);
      var rest := [];
      if t.halted { HaltedCompletes(Mine(t, i, c), c, st', now', e); }
      else { rest := ServeOn(t, i, c, st', now', e); }
      acts := [a] + rest;
      assert acts[0] == a && acts[1..] == rest;
    }
  }

  /** ... and every event has its run: whatever the kernel answers and the user does, the loop can
    * take the connection through exactly `HandleEvent`, callback by callback, by steps of its own. */
  lemma EveryEventIsServed(cfg: Config, n: nat, before: seq<Act>, s: Server, i: nat, e: Event) returns (acts: seq<Act>)
    requires Reached(cfg, n, before, s) && WellFormed(s) && Enabled(s, Dispatch(i)) && s.workers[i].active != []
    requires e.Ready? && e.revents == s.workers[i].active[0].1
    ensures IsRun(Move(s, Dispatch(i)), acts) && InTurn(Move(s, Dispatch(i)), i, s.workers[i].active[0].0, acts)
    ensures var c, t := s.workers[i].active[0].0, After(Move(s, Dispatch(i)), acts);
      && i < |s.tables| && c < |s.conns| && i < |t.tables| && c < |t.conns|
      && Mine(t, i, c) == HandleEvent(Mine(s, i, c), c, e)
  {
    ReachedInv(cfg, n, before, s);
    hide Inv, Move, Enabled, Reached, Serving, InTurn, Completes, HandleEvent, OnlyFor;
    DispatchServes(s, i);
    MoveKeepsInv(s, Dispatch(i));
    DispatchGoesOn(s, i);
    var x := s.workers[i].active[0];
    acts := ServeOn(Move(s, Dispatch(i)), i, x.0, StageOf(x.1), [], e);
    FreshEvent(Mine(s, i, x.0), x.0, e);
  }
}
