/** The whole server as a transition system: the base loop (index 0), the io loops, and any
  * number of outside threads, interleaved step by step. TcpServer.cc, the cross-loop part
  * of TcpConnection.cc, Channel::handleEvent, EventLoop::loop and runInLoop.
  *
  * Every loop is a `Loop` of module EventLoops and moves by that module's events; every
  * connection is a `Conn` of module Connections and moves by that module's handlers; every
  * poller is a `Tables` of module Polling. What a loop thread still has to do inside the
  * handler or functor it is running is its `todo` list.
  */
module Servers {
  import opened Buffers
  import opened Polling
  import opened Connections
  import Naming
  import ThreadPools
  import EL = EventLoops

  /** The k-th accepted connection is the TcpConnection object with identity k. */
  type Id = nat

  /** The functors that travel between loops; each holds a strong reference to its connection. */
  datatype Functor =
    | EstablishConn(c: Id)   // TcpConnection::connectEstablished
    | RemoveConn(c: Id)      // TcpServer::removeConnectionInLoop
    | DestroyConn(c: Id)     // TcpConnection::connectDestroyed
    | Callback(c: Id)        // a write-complete, high-water or user functor

  /** What remains of the code a loop thread is executing, one step at a time. */
  datatype Task =
    | OnClose(c: Id) | OnError(c: Id) | OnRead(c: Id) | OnWrite(c: Id)   // Channel::handleEventWithGuard
    | UserCode(c: Id)          // inside a user callback for c
    | CloseCallback(c: Id)     // closeCallback_, that is TcpServer::removeConnection
    | Call(f: Functor)         // calling a functor, from the batch or directly by runInLoop
    | Queue(f: Functor)        // queueInLoop on the loop the functor is meant for
    | WriteWake(j: nat)        // pushed on loop j; the eventfd write is next
    | Finish(c: Id)            // the guard, or the local TcpConnectionPtr, goes out of scope

  datatype Worker = Worker(active: seq<(Id, Mask)>, todo: seq<Task>)

  datatype Config = Config(name: string, ipPort: string, mark: nat, hasHighWater: bool, hasWriteComplete: bool)

  datatype Server = Server(
    cfg: Config,
    loops: seq<EL.Loop<Functor>>,
    workers: seq<Worker>,
    tables: seq<Tables<Id>>,
    conns: seq<Conn>,
    homes: seq<nat>,             // getLoop() of each connection
    next: nat,                   // the thread pool's next_
    names: map<string, Id>,      // connections_
    user: set<Id>,               // TcpConnectionPtr copies the user keeps
    erased: set<Id>,             // history: connections removed from the map
    fault: bool,                 // a pointer to a destroyed connection was followed
    halted: bool)                // LOG_ERROR or LOG_FATAL ended the process

  function NewTables(): Tables<Id> { Tables(map[], map[], false) }

  /** A server with `n` io loops, before any loop runs. */
  function NewServer(cfg: Config, n: nat): Server {
    Server(cfg, seq(n + 1, _ => EL.NewLoop()), seq(n + 1, _ => Worker([], [])), seq(n + 1, _ => NewTables()),
           [], [], 0, map[], {}, {}, false, false)
  }

  function NameOf(cfg: Config, c: Id): string { Naming.ConnName(cfg.name, cfg.ipPort, c + 1) }

  // ---------------------------------------------------------------- strong references

  predicate FunctorsMention(q: seq<Functor>, c: Id) { exists k :: 0 <= k < |q| && q[k].c == c }

  /** The vector of pending functors and the local vector of the running batch keep their
    * functors, and so the connections, until they are destroyed. */
  predicate LoopMentions(l: EL.Loop<Functor>, c: Id) { FunctorsMention(l.batch, c) || FunctorsMention(l.pending, c) }

  predicate TaskMentions(t: Task, c: Id) {
    match t
    case Call(f) => f.c == c
    case Queue(f) => f.c == c
    case WriteWake(_) => false
    case _ => t.c == c
  }

  predicate TodoMentions(todo: seq<Task>, c: Id) { exists k :: 0 <= k < |todo| && TaskMentions(todo[k], c) }

  /** Held by the server's map, a queued or running functor, or a handler's guard or argument. */
  ghost predicate ServerHeld(s: Server, c: Id) {
    || c in s.names.Values
    || (exists j :: 0 <= j < |s.loops| && LoopMentions(s.loops[j], c))
    || (exists i :: 0 <= i < |s.workers| && TodoMentions(s.workers[i].todo, c))
  }

  /** The reference count is positive: the object exists and its descriptor is open. */
  ghost predicate Held(s: Server, c: Id) { ServerHeld(s, c) || c in s.user }

  // ---------------------------------------------------------------- steps

  datatype Kernel = Kernel(read: ReadResult, write: WriteResult)

  datatype UserAct =
    | On(c: Id, a: Action)     // send, shutdown or retrieve
    | QueueTask(c: Id)         // queueInLoop of a functor that holds c
    | Keep(c: Id)              // copy the TcpConnectionPtr
    | Return

  datatype Act =
    | Local(i: nat, e: EL.Event<Functor>)                    // loop thread i, no functor involved
    | Poll(i: nat, wake: bool, ready: seq<(int, Mask)>)      // epoll_wait returns
    | Dispatch(i: nat)                                       // the next active channel
    | Accept(fd: int)                                        // Acceptor::handleRead, newConnection
    | Next(i: nat)                                           // the next functor of the batch
    | Work(i: nat, k: Kernel)                                // the next task
    | User(i: nat, u: UserAct)                               // the user callback does something
    | External(t: EL.Thread, j: nat, e: EL.Event<Functor>)   // a thread that runs no loop
    | Forget(c: Id)                                          // the user drops its copy

  function Target(s: Server, f: Functor): nat
    requires f.c < |s.homes|
  {
    if f.RemoveConn? then 0 else s.homes[f.c]
  }

  function TasksFor(c: Id, revents: Mask): seq<Task> {
    (if Hup in revents && In in revents then [OnClose(c)] else [])
    + (if Err in revents then [OnError(c)] else [])
    + (if In in revents || Pri in revents then [OnRead(c)] else [])
    + (if Out in revents then [OnWrite(c)] else [])
    + [Finish(c)]
  }

  function NextHome(s: Server): nat { if |s.loops| <= 1 then 0 else 1 + s.next }

  function WithLoop(s: Server, j: nat, e: EL.Event<Functor>): Server
    requires j < |s.loops|
  {
    s.(loops := s.loops[j := EL.Apply(s.loops[j], e)])
  }

  function WithTodo(s: Server, i: nat, todo: seq<Task>): Server
    requires i < |s.workers|
  {
    s.(workers := s.workers[i := s.workers[i].(todo := todo)])
  }

  function WorldOf(s: Server, i: nat, c: Id): World<Id>
    requires i < |s.tables| && c < |s.conns|
  {
    World(s.conns[c], s.tables[i], false)
  }

  /** A handler of connection `c` has run on loop `i`; `todo` is what is left to do. */
  function WithConn(s: Server, i: nat, c: Id, w: World<Id>, todo: seq<Task>): Server
    requires i < |s.tables| && i < |s.workers| && c < |s.conns|
  {
    WithTodo(s, i, todo).(
      conns := s.conns[c := w.conn], tables := s.tables[i := w.tables], halted := s.halted || w.halted)
  }

  /** Tasks for the notification a handler queued, if any. */
  function Notices(before: Conn, after: Conn, c: Id): seq<Task> {
    if after.queued == before.queued then [] else [Queue(Callback(c))]
  }

  ghost predicate WellFormed(s: Server) {
    && |s.loops| > 0 && |s.workers| == |s.loops| && |s.tables| == |s.loops| && |s.homes| == |s.conns|
    && (forall c :: 0 <= c < |s.homes| ==> s.homes[c] < |s.loops| && (s.homes[c] == 0 <==> |s.loops| == 1))
    && (if |s.loops| == 1 then s.next == 0 else s.next < |s.loops| - 1)
    && |s.cfg.ipPort| <= 23 && |s.conns| <= Naming.INT_MAX
  }

  predicate QuietEvent(e: EL.Event<Functor>) {
    e.Start? || e.Check? || e.StartPoll? || e.ReadWake? || e.EndDispatch? || e.Swap? || e.OwnWake? || e.OwnQuit?
    || e.EndRun? || e.Release?
  }

  /** What a user callback for `c` has a pointer to. */
  predicate Pointed(s: Server, c: Id, d: Id) { (d == c || d in s.user) && d < |s.homes| }

  /** What it may do on thread `i`: work on connections of its own loop, queue functors for any loop. */
  predicate MayDo(s: Server, i: nat, c: Id, u: UserAct) {
    match u
    case Return => true
    case On(d, _) => Pointed(s, c, d) && s.homes[d] == i
    case QueueTask(d) => Pointed(s, c, d)
    case Keep(d) => Pointed(s, c, d)
  }

  ghost predicate WorkEnabled(s: Server, i: nat)
    requires WellFormed(s) && i < |s.loops|
  {
    && s.workers[i].todo != [] && !s.loops[i].owes
    && match s.workers[i].todo[0]
       case UserCode(_) => false
       case Queue(f) => f.c < |s.conns| && (Target(s, f) != i ==> i !in s.loops[Target(s, f)].wakers)
       case WriteWake(j) => j < |s.loops| && i in s.loops[j].wakers
       case Call(f) => f.c < |s.conns|
       case t => t.c < |s.conns|
  }

  ghost predicate Enabled(s: Server, a: Act)
    requires WellFormed(s)
  {
    !s.halted &&
    match a
    case Local(i, e) =>
      && i < |s.loops| && QuietEvent(e) && EL.Enabled(s.loops[i], e)
      && (e.EndDispatch? || e.EndRun? || e.ReadWake? ==> s.workers[i].todo == [])
      && (e.EndDispatch? ==> s.workers[i].active == [])
    case Poll(i, wake, ready) =>
      && i < |s.loops| && EL.Enabled(s.loops[i], EL.PollReturn(wake))
      && (forall k :: 0 <= k < |ready| ==> ready[k].0 in s.tables[i].kernel)
      && (forall k, l :: 0 <= k < l < |ready| ==> ready[k].0 != ready[l].0)
    case Dispatch(i) =>
      i < |s.loops| && s.loops[i].pc == EL.Dispatching && s.workers[i].todo == [] && s.workers[i].active != []
    case Accept(fd) =>
      && s.loops[0].pc == EL.Dispatching && s.workers[0].todo == [] && |s.conns| < Naming.INT_MAX
      && forall c :: 0 <= c < |s.conns| && Held(s, c) ==> s.conns[c].chan.fd != fd
    case Next(i) => i < |s.loops| && EL.Enabled(s.loops[i], EL.RunNext) && s.workers[i].todo == []
    case Work(i, k) => i < |s.loops| && WorkEnabled(s, i)
    case User(i, u) =>
      && i < |s.loops| && !s.loops[i].owes && s.workers[i].todo != [] && s.workers[i].todo[0].UserCode?
      && MayDo(s, i, s.workers[i].todo[0].c, u)
    case External(t, j, e) =>
      && |s.loops| <= t && j < |s.loops| && EL.Enabled(s.loops[j], e)
      && (match e
          case Enqueue(t', f) => t' == t && f.Callback? && f.c in s.user && f.c < |s.homes| && s.homes[f.c] == j
          case Quit(t') => t' == t
          case Wake(t') => t' == t
          case _ => false)
    case Forget(c) => c in s.user
  }

  ghost function Targets(t: Tables<Id>, ready: seq<(int, Mask)>): (r: seq<(Id, Mask)>)
    requires forall k :: 0 <= k < |ready| ==> ready[k].0 in t.kernel
    ensures |r| == |ready|
    ensures forall k :: 0 <= k < |r| ==> r[k] == (t.kernel[ready[k].0].target, ready[k].1)
  {
    seq(|ready|, k requires 0 <= k < |ready| => (t.kernel[ready[k].0].target, ready[k].1))
  }

  /** newConnection up to the hand-over to the io loop. */
  function NewConnection(s: Server, fd: int): Server
    requires |s.workers| > 0
  {
    var c, home := |s.conns|, NextHome(s);
    var handOver := if home == 0 then Call(EstablishConn(c)) else Queue(EstablishConn(c));
    WithTodo(s, 0, [handOver, Finish(c)]).(
      conns := s.conns + [NewConn(fd, s.cfg.mark, s.cfg.hasHighWater, s.cfg.hasWriteComplete)],
      homes := s.homes + [home],
      next := if |s.loops| <= 1 then s.next else ThreadPools.Advance(|s.loops| - 1, s.next),
      names := s.names[NameOf(s.cfg, c) := c])
  }

  ghost function WorkStep(s: Server, i: nat, k: Kernel): Server
    requires WellFormed(s) && i < |s.loops| && WorkEnabled(s, i)
  {
    var todo := s.workers[i].todo;
    var rest := todo[1..];
    match todo[0]
    case OnClose(c) => WithConn(s, i, c, Close(WorldOf(s, i, c), c), [UserCode(c), CloseCallback(c)] + rest)
    case OnError(c) => s.(halted := true)
    case OnRead(c) =>
      WithConn(s, i, c, Read(WorldOf(s, i, c), c, k.read),
               (if k.read == Got([]) then [UserCode(c), CloseCallback(c)] else [UserCode(c)]) + rest)
    case OnWrite(c) =>
      var w := Write(WorldOf(s, i, c), c, k.write);
      WithConn(s, i, c, w, Notices(s.conns[c], w.conn, c) + rest)
    case CloseCallback(c) =>
      WithTodo(s, i, [if i == 0 then Call(RemoveConn(c)) else Queue(RemoveConn(c))] + rest)
    case Call(f) => (
      match f
      case EstablishConn(c) => WithConn(s, i, c, Establish(WorldOf(s, i, c), c), [UserCode(c)] + rest)
      case RemoveConn(c) =>
        WithTodo(s, i, [Queue(DestroyConn(c))] + rest).(
          names := s.names - {NameOf(s.cfg, c)}, erased := s.erased + {c})
      case DestroyConn(c) => WithConn(s, i, c, Destroy(WorldOf(s, i, c), c, []), rest)
      case Callback(c) => WithTodo(s, i, [UserCode(c)] + rest))
    case Queue(f) =>
      var j := Target(s, f);
      if j == i then WithTodo(WithLoop(s, i, EL.OwnEnqueue(f)), i, rest)
      else WithTodo(WithLoop(s, j, EL.Enqueue(i, f)), i, [WriteWake(j)] + rest)
    case WriteWake(j) => WithTodo(WithLoop(s, j, EL.Wake(i)), i, rest)
    case Finish(c) => WithTodo(s, i, rest)
    case UserCode(c) => s
  }

  ghost function UserStep(s: Server, i: nat, u: UserAct): Server
    requires WellFormed(s) && Enabled(s, User(i, u))
  {
    var todo := s.workers[i].todo;
    match u
    case On(c, a) =>
      var w := Do(WorldOf(s, i, c), c, a);
      WithConn(s, i, c, w, Notices(s.conns[c], w.conn, c) + todo)
    case QueueTask(c) => WithTodo(s, i, [Queue(Callback(c))] + todo)
    case Keep(c) => s.(user := s.user + {c})
    case Return => WithTodo(s, i, todo[1..])
  }

  ghost function Move(s: Server, a: Act): Server
    requires WellFormed(s) && Enabled(s, a)
  {
    match a
    case Local(i, e) => WithLoop(s, i, e)
    case Poll(i, wake, ready) =>
      var t := WithLoop(s, i, EL.PollReturn(wake));
      t.(workers := t.workers[i := Worker(Targets(s.tables[i], ready), t.workers[i].todo)])
    case Dispatch(i) =>
      var x := s.workers[i].active[0];
      s.(workers := s.workers[i := Worker(s.workers[i].active[1..], TasksFor(x.0, x.1))],
         fault := s.fault || !Held(s, x.0))
    case Accept(fd) => NewConnection(s, fd)
    case Next(i) => WithTodo(WithLoop(s, i, EL.RunNext), i, [Call(s.loops[i].batch[s.loops[i].next])])
    case Work(i, k) => WorkStep(s, i, k)
    case User(i, u) => UserStep(s, i, u)
    case External(t, j, e) => WithLoop(s, j, e)
    case Forget(c) => s.(user := s.user - {c})
  }
}
