/** One connection of TcpConnection.cc as a value: its state, its channel, the contents of
  * its two buffers, and the history of every byte stream it takes part in. Handlers are
  * functions on a `World`: the connection, the poller tables of its loop, and whether
  * LOG_ERROR has ended the process. Kernel results and user callbacks are arguments; a
  * callback is any finite sequence of the calls it may make on its own loop.
  */
module Connections {
  import opened Buffers
  import opened Polling

  datatype State = Disconnected | Connecting | Connected | Disconnecting

  /** What a connection queues on its own loop for the user. */
  datatype Notice = WriteComplete | HighWater(size: nat)

  datatype Conn = Conn(
    state: State,
    chan: Chan,
    input: seq<byte>,            // inputBuffer_
    output: seq<byte>,           // outputBuffer_
    mark: nat,                   // highWaterMark_
    hasHighWater: bool,          // highWaterMarkCallback_ is set
    hasWriteComplete: bool,      // writeCompleteCallback_ is set
    accepted: seq<byte>,         // history: bytes `send` took from the user
    sent: seq<byte>,             // history: bytes `write` put into the kernel
    received: seq<byte>,         // history: bytes `readv` took from the kernel
    consumed: seq<byte>,         // history: bytes the user retrieved
    queued: seq<Notice>,         // history: notifications queued on the loop
    drops: nat,                  // history: times handleWrite brought the backlog below the mark
    halfCloses: nat,             // history: calls of shutdownWrite
    closes: nat)                 // history: calls of handleClose

  datatype World<C> = World(conn: Conn, tables: Tables<C>, halted: bool)

  datatype Action = Send(data: seq<byte>, write: WriteResult) | Shutdown | Retrieve(n: nat)

  function NewConn(fd: int, mark: nat, hasHighWater: bool, hasWriteComplete: bool): Conn {
    Conn(Connecting, Chan(fd, {}, New), [], [], mark, hasHighWater, hasWriteComplete, [], [], [], [], [], 0, 0, 0)
  }

  // ---------------------------------------------------------------- handlers

  function Halt<C>(w: World<C>): World<C> { w.(halted := true) }

  function Touch<C>(w: World<C>, c: C, op: ChannelOp): World<C> {
    var r := Perform(w.tables, c, w.conn.chan, op);
    World(w.conn.(chan := r.chan), r.tables, w.halted || r.tables.failed)
  }

  /** The kernel takes any prefix of what it is offered. */
  function Taken(k: WriteResult, len: nat): nat {
    if k.Wrote? then (if k.count < len then k.count else len) else 0
  }

  function Crosses(conn: Conn, remaining: nat): bool {
    conn.hasHighWater && |conn.output| < conn.mark <= |conn.output| + remaining
  }

  /** A message of which the kernel took the first `n` bytes at once ... */
  function Accept(conn: Conn, data: seq<byte>, n: nat): Conn
    requires n <= |data|
  {
    conn.(accepted := conn.accepted + data, sent := conn.sent + data[..n])
  }

  /** ... and whose rest joins the backlog. */
  function Backlog(conn: Conn, data: seq<byte>, n: nat): Conn
    requires n <= |data|
  {
    var remaining := |data| - n;
    Accept(conn, data, n).(
      queued := if Crosses(conn, remaining) then conn.queued + [HighWater(|conn.output| + remaining)] else conn.queued,
      output := conn.output + data[n..])
  }

  function Notify(conn: Conn): Conn {
    if conn.hasWriteComplete then conn.(queued := conn.queued + [WriteComplete]) else conn
  }

  function SendInLoop<C>(w: World<C>, c: C, data: seq<byte>, k: WriteResult): World<C> {
    var conn := w.conn;
    if w.halted then w
    else if conn.state == Disconnected then Halt(w)
    else
      var direct := !conn.chan.IsWriting() && conn.output == [];
      if direct && k.WriteFailed? then Halt(w)
      else
        var n := if direct then Taken(k, |data|) else 0;
        if n == |data| then
          var done := Accept(conn, data, n);
          w.(conn := if direct && k.Wrote? then Notify(done) else done)
        else
          var backlog := w.(conn := Backlog(conn, data, n));
          if conn.chan.IsWriting() then backlog else Touch(backlog, c, EnableWriting)
  }

  function SendNow<C>(w: World<C>, c: C, data: seq<byte>, k: WriteResult): World<C> {
    if w.conn.state == Connected then SendInLoop(w, c, data, k) else w
  }

  function ShutdownInLoop<C>(w: World<C>): World<C> {
    if w.halted || w.conn.chan.IsWriting() then w
    else w.(conn := w.conn.(halfCloses := w.conn.halfCloses + 1))
  }

  function ShutdownNow<C>(w: World<C>): World<C> {
    if w.halted || w.conn.state != Connected then w
    else ShutdownInLoop(w.(conn := w.conn.(state := Disconnecting)))
  }

  function RetrieveNow<C>(w: World<C>, n: nat): World<C> {
    if w.halted then w
    else
      var m := if n < |w.conn.input| then n else |w.conn.input|;
      w.(conn := w.conn.(input := w.conn.input[m..], consumed := w.conn.consumed + w.conn.input[..m]))
  }

  function Do<C>(w: World<C>, c: C, a: Action): World<C> {
    match a
    case Send(data, k) => SendNow(w, c, data, k)
    case Shutdown => ShutdownNow(w)
    case Retrieve(n) => RetrieveNow(w, n)
  }

  function DoAll<C>(w: World<C>, c: C, acts: seq<Action>): World<C>
    decreases |acts|
  {
    if acts == [] then w else DoAll(Do(w, c, acts[0]), c, acts[1..])
  }

  /** handleClose up to the callbacks. */
  function Close<C>(w: World<C>, c: C): World<C> {
    if w.halted then w
    else Touch(w.(conn := w.conn.(state := Disconnected, closes := w.conn.closes + 1)), c, DisableAll)
  }

  function ReadInput<C>(w: World<C>, data: seq<byte>): World<C> {
    if w.halted then w
    else w.(conn := w.conn.(input := w.conn.input + data, received := w.conn.received + data))
  }

  /** handleRead up to the callback: a message, the end of the stream, or an error. */
  function Read<C>(w: World<C>, c: C, k: ReadResult): World<C> {
    if w.halted then w
    else if k.ReadFailed? then Halt(w)
    else if k.data == [] then Close(w, c)
    else ReadInput(w, k.data)
  }

  /** The kernel took the first `n` bytes of the backlog. */
  function Drain(conn: Conn, n: nat): Conn
    requires n <= |conn.output|
  {
    conn.(sent := conn.sent + conn.output[..n], output := conn.output[n..],
          drops := conn.drops + if |conn.output| - n < conn.mark <= |conn.output| then 1 else 0)
  }

  function Write<C>(w: World<C>, c: C, k: WriteResult): World<C> {
    if w.halted then w
    else if !w.conn.chan.IsWriting() || Taken(k, |w.conn.output|) == 0 then Halt(w)
    else
      var left := w.(conn := Drain(w.conn, Taken(k, |w.conn.output|)));
      if left.conn.output != [] then left else Drained(left, c)
  }

  /** The backlog is gone: no more write interest, and the half-close that was waiting for this. */
  function Drained<C>(w: World<C>, c: C): World<C> {
    var quiet := Touch(w, c, DisableWriting);
    var told := quiet.(conn := Notify(quiet.conn));
    if told.conn.state == Disconnecting then ShutdownInLoop(told) else told
  }

  function Establish<C>(w: World<C>, c: C): World<C> {
    if w.halted then w else Touch(w.(conn := w.conn.(state := Connected)), c, EnableReading)
  }

  // ---------------------------------------------------------------- whole events of the loop

  /** What a poll reports for a channel, with everything the kernel and the user answer on the way. */
  datatype Event =
    | Established(acts: seq<Action>)
    | Ready(revents: Mask, closeActs: seq<Action>, read: ReadResult, readActs: seq<Action>, write: WriteResult)
    | Task(acts: seq<Action>)
    | Destroyed(acts: seq<Action>)

  function OnClose<C>(w: World<C>, c: C, e: Event): World<C>
    requires e.Ready?
  {
    if Hup in e.revents && In in e.revents then DoAll(Close(w, c), c, e.closeActs) else w
  }

  function OnRead<C>(w: World<C>, c: C, e: Event): World<C>
    requires e.Ready?
  {
    if In in e.revents || Pri in e.revents then DoAll(Read(w, c, e.read), c, e.readActs) else w
  }

  function HandleEvent<C>(w: World<C>, c: C, e: Event): World<C>
    requires e.Ready?
  {
    var closed := OnClose(w, c, e);
    var checked := if Err in e.revents then Halt(closed) else closed;
    var read := OnRead(checked, c, e);
    if Out in e.revents then Write(read, c, e.write) else read
  }

  function Destroy<C>(w: World<C>, c: C, acts: seq<Action>): World<C> {
    if w.halted then w
    else
      var off := if w.conn.state != Connected then w
                 else DoAll(Touch(w.(conn := w.conn.(state := Disconnected)), c, DisableAll), c, acts);
      if off.halted then off else Touch(off, c, Remove)
  }

  /** When the loop delivers each event: establishing comes first, and once; readiness needs a
    * registration; destruction can come at any time. */
  predicate Possible(conn: Conn, e: Event) {
    match e
    case Established(_) => conn.state == Connecting
    case Ready(_, _, _, _, _) => conn.chan.index != New
    case Task(_) => true
    case Destroyed(_) => true
  }

  function Step<C>(w: World<C>, c: C, e: Event): World<C> {
    match e
    case Established(acts) => DoAll(Establish(w, c), c, acts)
    case Ready(_, _, _, _, _) => HandleEvent(w, c, e)
    case Task(acts) => DoAll(w, c, acts)
    case Destroyed(acts) => Destroy(w, c, acts)
  }

  predicate PossibleRun<C>(w: World<C>, c: C, es: seq<Event>)
    decreases |es|
  {
    es == [] || (Possible(w.conn, es[0]) && PossibleRun(Step(w, c, es[0]), c, es[1..]))
  }

  function Steps<C>(w: World<C>, c: C, es: seq<Event>): World<C>
    decreases |es|
  {
    if es == [] then w else Steps(Step(w, c, es[0]), c, es[1..])
  }

  // ---------------------------------------------------------------- what always holds

  function HighWaters(q: seq<Notice>): nat {
    if q == [] then 0 else HighWaters(q[..|q| - 1]) + if q[|q| - 1].HighWater? then 1 else 0
  }

  ghost predicate StreamsConserved(conn: Conn) {
    && conn.accepted == conn.sent + conn.output
    && conn.received == conn.consumed + conn.input
  }

  /** What a connection that is up asks the kernel for. */
  function Wanted(output: seq<byte>): Mask { if output == [] then {In, Pri} else {In, Pri, Out} }

  ghost predicate InterestMatches(conn: Conn) {
    match conn.state
    case Connecting => conn.chan.index == New && conn.chan.events == {} && conn.accepted == [] && conn.halfCloses == 0
    case Connected => conn.chan.index == Added && conn.chan.events == Wanted(conn.output)
    case Disconnecting =>   // kNew: connectDestroyed removes such a channel without closing
      (conn.chan.index == Added || conn.chan.index == New) && conn.chan.events == Wanted(conn.output)
    case Disconnected => conn.chan.events == {}
  }

  ghost predicate HalfCloseOrdered(conn: Conn) {
    && conn.halfCloses <= 1
    && (conn.halfCloses == 1 ==> conn.output == [] && conn.sent == conn.accepted)
    && (conn.state == Connected ==> conn.halfCloses == 0)
    && (conn.state == Disconnecting ==> (conn.halfCloses == 1 <==> conn.output == []))
  }

  ghost predicate WaterAccounted(conn: Conn) {
    HighWaters(conn.queued) ==
      if conn.hasHighWater && conn.mark > 0 then conn.drops + (if conn.mark <= |conn.output| then 1 else 0) else 0
  }

  ghost predicate Sound(conn: Conn) {
    StreamsConserved(conn) && InterestMatches(conn) && HalfCloseOrdered(conn) && WaterAccounted(conn)
  }

  /** Until the process ends: the connection is sound, and its poller agrees with it. */
  ghost predicate Good<C>(w: World<C>, c: C) {
    w.halted || (!w.tables.failed && Registered(w.tables, c, w.conn.chan) && Sound(w.conn))
  }

  function Rank(s: State): nat {
    match s case Connecting => 0 case Connected => 1 case Disconnecting => 2 case Disconnected => 3
  }

  /** How one connection may change over time. */
  ghost predicate Evolves(a: Conn, b: Conn) {
    && Rank(a.state) <= Rank(b.state)
    && a.chan.fd == b.chan.fd && a.mark == b.mark && a.hasHighWater == b.hasHighWater
    && a.hasWriteComplete == b.hasWriteComplete
    && a.accepted <= b.accepted && a.sent <= b.sent && a.received <= b.received && a.consumed <= b.consumed
    && a.queued <= b.queued
    && a.halfCloses <= b.halfCloses && a.closes <= b.closes && a.drops <= b.drops
    && (a.halfCloses > 0 ==> b.sent == a.sent)
    && (Rank(a.state) >= 2 ==> b.accepted == a.accepted)
    && (a.state == Disconnected ==> b.sent == a.sent && b.halfCloses == a.halfCloses && b.queued == a.queued)
  }

  ghost predicate Progress<C>(w: World<C>, w': World<C>, c: C) {
    && Good(w', c)
    && (!w'.halted ==> !w.halted && Evolves(w.conn, w'.conn) && SameElsewhere(w.tables, w'.tables, w.conn.chan.fd))
  }

  lemma ProgressTrans<C>(a: World<C>, b: World<C>, d: World<C>, c: C)
    requires Progress(a, b, c) && Progress(b, d, c)
    ensures Progress(a, d, c)
  {}

  lemma TouchGood<C>(w: World<C>, c: C, op: ChannelOp)
    requires !w.halted && !w.tables.failed && Registered(w.tables, c, w.conn.chan)
    ensures var w' := Touch(w, c, op);
      && !w'.halted && !w'.tables.failed && Registered(w'.tables, c, w'.conn.chan)
      && SameElsewhere(w.tables, w'.tables, w.conn.chan.fd)
      && w'.conn == w.conn.(chan := Chan(w.conn.chan.fd, NewMask(w.conn.chan.events, op), NextIndex(w.conn.chan, op)))
  {
    PerformKeepsRegistered(w.tables, c, w.conn.chan, op);
  }

  lemma NotifySound(conn: Conn)
    requires Sound(conn)
    ensures Sound(Notify(conn)) && (conn.state != Disconnected ==> Evolves(conn, Notify(conn)))
  {}

  lemma AcceptSound(conn: Conn, data: seq<byte>)
    requires Sound(conn) && conn.state == Connected && (conn.output == [] || data == [])
    ensures Sound(Accept(conn, data, |data|)) && Evolves(conn, Accept(conn, data, |data|))
  {}

  lemma BacklogSound(conn: Conn, data: seq<byte>, n: nat, ch: Chan)
    requires Sound(conn) && conn.state == Connected && n < |data| && (n > 0 ==> conn.output == [])
    requires ch == Chan(conn.chan.fd, {In, Pri, Out}, Added)
    ensures var b := Backlog(conn, data, n).(chan := ch); Sound(b) && Evolves(conn, b)
  {}

  lemma SendProgress<C>(w: World<C>, c: C, data: seq<byte>, k: WriteResult)
    requires Good(w, c) && (w.halted || w.conn.state == Connected)
    ensures Progress(w, SendInLoop(w, c, data, k), c)
  {
    if !w.halted {
      var conn := w.conn;
      var direct := !conn.chan.IsWriting() && conn.output == [];
      var n := if direct then Taken(k, |data|) else 0;
      if !(direct && k.WriteFailed?) {
        if n == |data| {
          AcceptSound(conn, data);
          NotifySound(Accept(conn, data, n));
        } else {
          var backlog := w.(conn := Backlog(conn, data, n));
          if !conn.chan.IsWriting() { TouchGood(backlog, c, EnableWriting); }
          BacklogSound(conn, data, n, SendInLoop(w, c, data, k).conn.chan);
        }
      }
    }
  }

  lemma ShutdownProgress<C>(w: World<C>, c: C)
    requires Good(w, c)
    ensures Progress(w, ShutdownNow(w), c)
  {}

  lemma RetrieveProgress<C>(w: World<C>, c: C, n: nat)
    requires Good(w, c)
    ensures Progress(w, RetrieveNow(w, n), c)
  {}

  lemma DoProgress<C>(w: World<C>, c: C, a: Action)
    requires Good(w, c)
    ensures Progress(w, Do(w, c, a), c)
  {
    match a
    case Send(data, k) => if w.conn.state == Connected { SendProgress(w, c, data, k); }
    case Shutdown => ShutdownProgress(w, c);
    case Retrieve(n) => RetrieveProgress(w, c, n);
  }

  lemma {:induction false} DoAllProgress<C>(w: World<C>, c: C, acts: seq<Action>)
    requires Good(w, c)
    ensures Progress(w, DoAll(w, c, acts), c)
    decreases |acts|
  {
    if acts != [] {
      var w1 := Do(w, c, acts[0]);
      DoProgress(w, c, acts[0]);
      DoAllProgress(w1, c, acts[1..]);
      ProgressTrans(w, w1, DoAll(w, c, acts), c);
    }
  }

  lemma CloseProgress<C>(w: World<C>, c: C)
    requires Good(w, c) && (w.halted || w.conn.state != Connecting)
    ensures Progress(w, Close(w, c), c)
  {}

  lemma ReadProgress<C>(w: World<C>, c: C, k: ReadResult)
    requires Good(w, c) && (w.halted || w.conn.state != Connecting)
    ensures Progress(w, Read(w, c, k), c)
  {
    if !w.halted && k.Got? {
      if k.data == [] { CloseProgress(w, c); }
      else { assert w.conn.received + k.data == w.conn.consumed + (w.conn.input + k.data); }
    }
  }

  lemma DrainStreams(conn: Conn, n: nat)
    requires StreamsConserved(conn) && WaterAccounted(conn) && n <= |conn.output|
    ensures StreamsConserved(Drain(conn, n)) && WaterAccounted(Drain(conn, n))
  {}

  /** What the handler that empties the backlog leaves behind. */
  lemma DrainedSound(conn: Conn, ch: Chan)
    requires Sound(conn) && conn.output != [] && conn.state != Disconnected
    requires ch == Chan(conn.chan.fd, {In, Pri}, Added)
    ensures var d := Notify(Drain(conn, |conn.output|).(chan := ch));
      var e := if d.state == Disconnecting then d.(halfCloses := d.halfCloses + 1) else d;
      Sound(e) && Evolves(conn, e)
  {}

  lemma WriteProgress<C>(w: World<C>, c: C, k: WriteResult)
    requires Good(w, c)
    ensures Progress(w, Write(w, c, k), c)
  {
    hide Perform, Registered, HighWaters;
    var n := Taken(k, |w.conn.output|);
    if !w.halted && w.conn.chan.IsWriting() && n > 0 {
      var left := w.(conn := Drain(w.conn, n));
      if n == |w.conn.output| {
        TouchGood(left, c, DisableWriting);
        assert {In, Pri, Out} - WRITE_EVENT == {In, Pri};
        DrainedSound(w.conn, Touch(left, c, DisableWriting).conn.chan);
      } else {
        DrainStreams(w.conn, n);
      }
    }
  }

  lemma EstablishProgress<C>(w: World<C>, c: C)
    requires Good(w, c) && (w.halted || w.conn.state == Connecting)
    ensures Progress(w, Establish(w, c), c)
  {}

  lemma OnCloseProgress<C>(w: World<C>, c: C, e: Event)
    requires e.Ready? && Good(w, c) && (w.halted || w.conn.state != Connecting)
    ensures Progress(w, OnClose(w, c, e), c)
  {
    if Hup in e.revents && In in e.revents {
      CloseProgress(w, c);
      DoAllProgress(Close(w, c), c, e.closeActs);
      ProgressTrans(w, Close(w, c), OnClose(w, c, e), c);
    }
  }

  lemma OnReadProgress<C>(w: World<C>, c: C, e: Event)
    requires e.Ready? && Good(w, c) && (w.halted || w.conn.state != Connecting)
    ensures Progress(w, OnRead(w, c, e), c)
  {
    if In in e.revents || Pri in e.revents {
      ReadProgress(w, c, e.read);
      DoAllProgress(Read(w, c, e.read), c, e.readActs);
      ProgressTrans(w, Read(w, c, e.read), OnRead(w, c, e), c);
    }
  }

  lemma HandleEventProgress<C>(w: World<C>, c: C, e: Event)
    requires e.Ready? && Good(w, c) && (w.halted || w.conn.state != Connecting)
    ensures Progress(w, HandleEvent(w, c, e), c)
  {
    var w1 := OnClose(w, c, e);
    OnCloseProgress(w, c, e);
    var w2 := if Err in e.revents then Halt(w1) else w1;
    assert Progress(w, w2, c);
    var w3 := OnRead(w2, c, e);
    OnReadProgress(w2, c, e);
    ProgressTrans(w, w2, w3, c);
    if Out in e.revents {
      WriteProgress(w3, c, e.write);
      ProgressTrans(w, w3, Write(w3, c, e.write), c);
    }
  }

  lemma DestroyProgress<C>(w: World<C>, c: C, acts: seq<Action>)
    requires Good(w, c)
    ensures Progress(w, Destroy(w, c, acts), c)
    ensures !Destroy(w, c, acts).halted ==> Destroy(w, c, acts).conn.chan.index == New
  {
    hide Perform, Registered, HighWaters;
    if !w.halted {
      var off := w;
      if w.conn.state == Connected {
        var quiet := Touch(w.(conn := w.conn.(state := Disconnected)), c, DisableAll);
        TouchGood(w.(conn := w.conn.(state := Disconnected)), c, DisableAll);
        off := DoAll(quiet, c, acts);
        DoAllProgress(quiet, c, acts);
        ProgressTrans(w, quiet, off, c);
      }
      if !off.halted {
        TouchGood(off, c, Remove);
        ProgressTrans(w, off, Touch(off, c, Remove), c);
      }
    }
  }

  lemma StepProgress<C>(w: World<C>, c: C, e: Event)
    requires Good(w, c) && Possible(w.conn, e)
    ensures Progress(w, Step(w, c, e), c)
  {
    match e
    case Established(acts) =>
      EstablishProgress(w, c);
      DoAllProgress(Establish(w, c), c, acts);
      ProgressTrans(w, Establish(w, c), Step(w, c, e), c);
    case Ready(_, _, _, _, _) => HandleEventProgress(w, c, e);
    case Task(acts) => DoAllProgress(w, c, acts);
    case Destroyed(acts) => DestroyProgress(w, c, acts);
  }

  /** Every run keeps every invariant and only ever moves the connection forward. */
  lemma {:induction false} StepsProgress<C>(w: World<C>, c: C, es: seq<Event>)
    requires Good(w, c) && PossibleRun(w, c, es)
    ensures Progress(w, Steps(w, c, es), c)
    decreases |es|
  {
    if es != [] {
      var w1 := Step(w, c, es[0]);
      StepProgress(w, c, es[0]);
      StepsProgress(w1, c, es[1..]);
      ProgressTrans(w, w1, Steps(w, c, es), c);
    }
  }
}
