/** What a connection guarantees over whole runs: any number of events, with any kernel
  * answers and any user callbacks, as long as the process is alive. */
module ConnectionTheorems {
  import opened Buffers
  import opened Polling
  import opened Connections

  /** A connection as the server creates it, on a descriptor its poller does not know. */
  ghost predicate Newborn<C>(w: World<C>, c: C) {
    && w.conn == NewConn(w.conn.chan.fd, w.conn.mark, w.conn.hasHighWater, w.conn.hasWriteComplete)
    && !w.halted && !w.tables.failed
    && w.conn.chan.fd !in w.tables.channels && w.conn.chan.fd !in w.tables.kernel
  }

  /** Bytes are neither lost, duplicated nor reordered on their way out or in; what the kernel
    * got is a prefix of what the user sent, also after the connection has closed. */
  lemma StreamsAreConserved<C>(w: World<C>, c: C, es: seq<Event>)
    requires Newborn(w, c) && PossibleRun(w, c, es)
    ensures var r := Steps(w, c, es); !r.halted ==>
      && r.conn.accepted == r.conn.sent + r.conn.output
      && r.conn.received == r.conn.consumed + r.conn.input
      && r.conn.sent <= r.conn.accepted && r.conn.consumed <= r.conn.received
  {
    StepsProgress(w, c, es);
  }

  /** Write interest equals backlog while the connection is up, and the poller and the
    * kernel agree with the channel all along without touching any other descriptor. */
  lemma InterestIsBacklog<C>(w: World<C>, c: C, es: seq<Event>)
    requires Newborn(w, c) && PossibleRun(w, c, es)
    ensures var r := Steps(w, c, es); !r.halted ==>
      && (r.conn.state in {Connected, Disconnecting} ==> (r.conn.chan.IsWriting() <==> r.conn.output != []))
      && (r.conn.state in {Connected, Disconnecting} && r.conn.chan.index != New ==>
            && r.conn.chan.fd in r.tables.kernel
            && r.tables.kernel[r.conn.chan.fd]
               == Interest(if r.conn.output == [] then {In, Pri} else {In, Pri, Out}, c))
      && (r.conn.state == Connected ==> r.conn.chan.index != New)
      && (r.conn.state in {Connecting, Disconnected} ==> !r.conn.chan.IsWriting())
      && SameElsewhere(w.tables, r.tables, w.conn.chan.fd)
  {
    StepsProgress(w, c, es);
  }

  /** A connection that has been established stays on its poller until connectDestroyed. */
  predicate OnPoller(conn: Conn) { conn.state != Connecting ==> conn.chan.index != New }

  lemma {:induction false} CallbacksKeepOnPoller<C>(w: World<C>, c: C, acts: seq<Action>)
    requires OnPoller(w.conn)
    ensures OnPoller(DoAll(w, c, acts).conn)
    decreases |acts|
  {
    if acts != [] { CallbacksKeepOnPoller(Do(w, c, acts[0]), c, acts[1..]); }
  }

  lemma StepKeepsOnPoller<C>(w: World<C>, c: C, e: Event)
    requires Possible(w.conn, e) && !e.Destroyed? && OnPoller(w.conn)
    ensures OnPoller(Step(w, c, e).conn)
  {
    match e
    case Established(acts) => CallbacksKeepOnPoller(Establish(w, c), c, acts);
    case Task(acts) => CallbacksKeepOnPoller(w, c, acts);
    case Ready(_, _, _, _, _) => EventKeepsOnPoller(w, c, e);
  }

  lemma EventKeepsOnPoller<C>(w: World<C>, c: C, e: Event)
    requires e.Ready? && w.conn.chan.index != New
    ensures OnPoller(HandleEvent(w, c, e).conn)
  {
    hide Write;
    CallbacksKeepOnPoller(Close(w, c), c, e.closeActs);
    var w1 := OnClose(w, c, e);
    var w2 := if Err in e.revents then Halt(w1) else w1;
    CallbacksKeepOnPoller(Read(w2, c, e.read), c, e.readActs);
    WriteKeepsOnPoller(OnRead(w2, c, e), c, e.write);
  }

  lemma WriteKeepsOnPoller<C>(w: World<C>, c: C, k: WriteResult)
    requires OnPoller(w.conn)
    ensures OnPoller(Write(w, c, k).conn)
  {}

  /** So the kernel knows the connection in every state between its establishment and its destruction. */
  lemma {:induction false} UndestroyedIsOnPoller<C>(w: World<C>, c: C, es: seq<Event>)
    requires OnPoller(w.conn) && PossibleRun(w, c, es) && forall e :: e in es ==> !e.Destroyed?
    ensures OnPoller(Steps(w, c, es).conn)
    decreases |es|
  {
    if es != [] {
      StepKeepsOnPoller(w, c, es[0]);
      UndestroyedIsOnPoller(Step(w, c, es[0]), c, es[1..]);
    }
  }

  /** The state only moves forward, and nothing already recorded is ever taken back. */
  lemma StateMovesForward<C>(w: World<C>, c: C, before: seq<Event>, after: seq<Event>)
    requires Newborn(w, c) && PossibleRun(w, c, before) && PossibleRun(Steps(w, c, before), c, after)
    ensures var a := Steps(w, c, before); var b := Steps(a, c, after); !b.halted ==>
      && !a.halted
      && Rank(a.conn.state) <= Rank(b.conn.state)
      && a.conn.sent <= b.conn.sent && a.conn.received <= b.conn.received
      && (a.conn.state == Disconnected ==> b.conn.sent == a.conn.sent && b.conn.accepted == a.conn.accepted)
  {
    StepsProgress(w, c, before);
    StepsProgress(Steps(w, c, before), c, after);
  }

  /** The write side is closed at most once, never before every accepted byte is in the
    * kernel, and no byte is accepted or written from then on. */
  lemma HalfCloseAfterDrain<C>(w: World<C>, c: C, before: seq<Event>, after: seq<Event>)
    requires Newborn(w, c) && PossibleRun(w, c, before) && PossibleRun(Steps(w, c, before), c, after)
    ensures var a := Steps(w, c, before); var b := Steps(a, c, after); !b.halted ==>
      && b.conn.halfCloses <= 1
      && (a.conn.halfCloses == 1 ==>
            && a.conn.output == [] && a.conn.sent == a.conn.accepted
            && b.conn.halfCloses == 1 && b.conn.sent == a.conn.sent && b.conn.accepted == a.conn.accepted)
  {
    StepsProgress(w, c, before);
    StepsProgress(Steps(w, c, before), c, after);
  }

  /** A shutdown closes the write side at once when nothing is waiting, and otherwise leaves
    * it to the very handler that empties the backlog. */
  lemma ShutdownIsHonoured<C>(w: World<C>, c: C, k: WriteResult)
    requires Good(w, c) && !w.halted
    ensures w.conn.state == Connected ==> var r := ShutdownNow(w);
      r.conn.state == Disconnecting && r.conn.halfCloses == if w.conn.output == [] then 1 else 0
    ensures w.conn.state == Disconnecting && w.conn.output != [] ==> var r := Write(w, c, k);
      !r.halted ==> r.conn.halfCloses == if Taken(k, |w.conn.output|) == |w.conn.output| then 1 else 0
  {}

  /** What was queued since. */
  function News(before: Conn, after: Conn): seq<Notice> {
    if |before.queued| <= |after.queued| then after.queued[|before.queued|..] else []
  }

  /** The user is told that writing is complete by exactly those operations after which every
    * accepted byte is in the kernel: a handleWrite that empties the backlog ... */
  lemma WriteTellsCompletion<C>(w: World<C>, c: C, k: WriteResult)
    requires Good(w, c) && !w.halted
    ensures var r := Write(w, c, k); !r.halted ==>
      News(w.conn, r.conn) == if w.conn.hasWriteComplete && r.conn.sent == r.conn.accepted then [WriteComplete] else []
  {
    hide Perform, Registered, HighWaters, Evolves;
    WriteProgress(w, c, k);
  }

  /** ... or a send whose direct write got through. */
  lemma SendTellsCompletion<C>(w: World<C>, c: C, data: seq<byte>, k: WriteResult)
    requires Good(w, c) && !w.halted && w.conn.state == Connected
    ensures var r := SendNow(w, c, data, k); !r.halted ==>
      (WriteComplete in News(w.conn, r.conn) <==>
        w.conn.hasWriteComplete && r.conn.sent == r.conn.accepted && k.Wrote?)
  {
    hide Perform, Registered, HighWaters, Evolves;
    SendProgress(w, c, data, k);
  }

  /** High-water notifications, counted between any two moments of a run: one for every fall
    * below the mark in between, corrected by where the backlog stands at either end. Two
    * notifications are therefore always separated by a fall. */
  lemma HighWaterAccounting<C>(w: World<C>, c: C, before: seq<Event>, after: seq<Event>)
    requires Newborn(w, c) && PossibleRun(w, c, before) && PossibleRun(Steps(w, c, before), c, after)
    ensures var a := Steps(w, c, before); var b := Steps(a, c, after); !b.halted ==>
      var above := (conn: Conn) => if conn.mark <= |conn.output| then 1 else 0;
      && (w.conn.hasHighWater && w.conn.mark > 0 ==>
            && HighWaters(b.conn.queued) == b.conn.drops + above(b.conn)
            && HighWaters(b.conn.queued) - HighWaters(a.conn.queued)
               == b.conn.drops - a.conn.drops + above(b.conn) - above(a.conn))
      && (!w.conn.hasHighWater || w.conn.mark == 0 ==> HighWaters(b.conn.queued) == 0)
  {
    StepsProgress(w, c, before);
    StepsProgress(Steps(w, c, before), c, after);
  }

  // ---------------------------------------------------------------- how often a close is reported

  lemma {:induction false} CallbacksDoNotClose<C>(w: World<C>, c: C, acts: seq<Action>)
    ensures var r := DoAll(w, c, acts);
      && r.conn.closes == w.conn.closes
      && (w.halted ==> r.halted)
      && (w.conn.state == Disconnected ==> r.conn.state == Disconnected && r.conn.chan == w.conn.chan)
    decreases |acts|
  {
    if acts != [] { CallbacksDoNotClose(Do(w, c, acts[0]), c, acts[1..]); }
  }

  predicate EndsByHangUp(e: Event) requires e.Ready? { Hup in e.revents && In in e.revents }
  predicate EndsByRead(e: Event) requires e.Ready? { (In in e.revents || Pri in e.revents) && e.read == Got([]) }

  /** One event can report the close of a connection twice: once for the hang-up and once for
    * the end of the stream that is read right after it. */
  lemma ClosesPerEvent<C>(w: World<C>, c: C, e: Event)
    requires e.Ready? && !HandleEvent(w, c, e).halted
    ensures HandleEvent(w, c, e).conn.closes
         == w.conn.closes + (if EndsByHangUp(e) then 1 else 0) + (if EndsByRead(e) then 1 else 0)
    ensures HandleEvent(w, c, e).conn.closes == w.conn.closes + 1 <==> EndsByHangUp(e) != EndsByRead(e)
  {
    CallbacksDoNotClose(Close(w, c), c, e.closeActs);
    var w1 := OnClose(w, c, e);
    var w2 := if Err in e.revents then Halt(w1) else w1;
    CallbacksDoNotClose(Read(w2, c, e.read), c, e.readActs);
    assert !OnRead(w2, c, e).halted && !w2.halted;
    assert HandleEvent(w, c, e).conn.closes == OnRead(w2, c, e).conn.closes;
  }

  lemma DoubleCloseHappens()
    ensures var w: World<nat> := World(NewConn(5, 1, false, false), Tables(map[], map[], false), false);
      var es := [Established([]), Ready({In, Hup}, [], Got([]), [], WouldBlock)];
      Newborn(w, 0) && PossibleRun(w, 0, es) && !Steps(w, 0, es).halted && Steps(w, 0, es).conn.closes == 2
  {}

  // ---------------------------------------------------------------- which events end the process

  /** What a user callback does to a connection that is up: it meets a write that fails, or it
    * ends with write interest on or off. */
  datatype Fate = Dies | Goes(writing: bool)

  function Fares(connected: bool, writing: bool, acts: seq<Action>): Fate
    decreases |acts|
  {
    if acts == [] then Goes(writing)
    else
      match acts[0]
      case Send(data, k) =>
        if !connected || writing then Fares(connected, writing, acts[1..])
        else if k.WriteFailed? then Dies
        else Fares(connected, Taken(k, |data|) < |data|, acts[1..])
      case Shutdown => Fares(false, writing, acts[1..])
      case Retrieve(_) => Fares(connected, writing, acts[1..])
  }

  lemma SendFares<C>(w: World<C>, c: C, data: seq<byte>, k: WriteResult)
    requires Good(w, c) && !w.halted && w.conn.state == Connected
    ensures var r := SendNow(w, c, data, k);
      && (r.halted <==> !w.conn.chan.IsWriting() && k.WriteFailed?)
      && (!r.halted ==> r.conn.state == Connected)
      && (!r.halted ==> (r.conn.chan.IsWriting() <==> w.conn.chan.IsWriting() || Taken(k, |data|) < |data|))
  {
    var n := if w.conn.chan.IsWriting() then 0 else Taken(k, |data|);
    if n < |data| && !w.conn.chan.IsWriting() {
      TouchGood(w.(conn := Backlog(w.conn, data, n)), c, EnableWriting);
    }
  }

  /** The callback ends the process exactly when `Fares` says so, and never by itself closes. */
  lemma {:induction false} CallbackFares<C>(w: World<C>, c: C, acts: seq<Action>)
    requires Good(w, c) && !w.halted
    ensures var r := DoAll(w, c, acts); var f := Fares(w.conn.state == Connected, w.conn.chan.IsWriting(), acts);
      && (r.halted <==> f.Dies?)
      && (!r.halted ==> r.conn.chan.IsWriting() == f.writing)
    decreases |acts|
  {
    if acts != [] {
      var w1 := Do(w, c, acts[0]);
      DoProgress(w, c, acts[0]);
      if acts[0].Send? && w.conn.state == Connected { SendFares(w, c, acts[0].data, acts[0].write); }
      if w1.halted { CallbacksDoNotClose(w1, c, acts[1..]); } else { CallbackFares(w1, c, acts[1..]); }
    }
  }

  predicate Reads(e: Event) requires e.Ready? { In in e.revents || Pri in e.revents }

  /** The event finds the connection closed, or closes it before it comes to writing. */
  predicate ClosedByWrite(conn: Conn, e: Event)
    requires e.Ready?
  {
    conn.state == Disconnected || EndsByHangUp(e) || EndsByRead(e)
  }

  function MessageFares(conn: Conn, e: Event): Fate
    requires e.Ready?
  {
    if Reads(e) && e.read.Got? && !ClosedByWrite(conn, e)
    then Fares(conn.state == Connected, conn.chan.IsWriting(), e.readActs)
    else Goes(conn.chan.IsWriting())
  }

  predicate Fatal(conn: Conn, e: Event)
    requires e.Ready?
  {
    || Err in e.revents
    || (Reads(e) && e.read.ReadFailed?)
    || MessageFares(conn, e).Dies?
    || (Out in e.revents &&
          (ClosedByWrite(conn, e) || !MessageFares(conn, e).writing || !e.write.Wrote? || e.write.count == 0))
  }

  lemma CloseShuts<C>(w: World<C>, c: C)
    requires Good(w, c) && !w.halted && w.conn.state != Connecting
    ensures var r := Close(w, c); !r.halted && r.conn.state == Disconnected && !r.conn.chan.IsWriting() && Good(r, c)
  {
    CloseProgress(w, c);
    TouchGood(w.(conn := w.conn.(state := Disconnected, closes := w.conn.closes + 1)), c, DisableAll);
  }

  /** Nothing the user does for a closed connection can fail. */
  lemma ClosedFares(writing: bool, acts: seq<Action>)
    ensures Fares(false, writing, acts) == Goes(writing)
    decreases |acts|
  {}

  lemma OnCloseFares<C>(w: World<C>, c: C, e: Event)
    requires e.Ready? && Good(w, c) && !w.halted && w.conn.state != Connecting
    ensures var r := OnClose(w, c, e);
      && !r.halted && Good(r, c)
      && (EndsByHangUp(e) ==> r.conn.state == Disconnected) && (!EndsByHangUp(e) ==> r == w)
  {
    OnCloseProgress(w, c, e);
    if EndsByHangUp(e) {
      CloseShuts(w, c);
      CallbackFares(Close(w, c), c, e.closeActs);
      ClosedFares(false, e.closeActs);
      CallbacksDoNotClose(Close(w, c), c, e.closeActs);
    }
  }

  lemma OnReadFares<C>(w: World<C>, c: C, e: Event)
    requires e.Ready? && Good(w, c) && !w.halted && w.conn.state != Connecting
    ensures var r := OnRead(w, c, e);
      var closed := w.conn.state == Disconnected || EndsByRead(e);
      var writing := w.conn.chan.IsWriting();
      var fate := if Reads(e) && !closed then Fares(w.conn.state == Connected, writing, e.readActs) else Goes(writing);
      && Good(r, c)
      && (r.halted <==> (Reads(e) && e.read.ReadFailed?) || fate.Dies?)
      && (!r.halted && closed ==> !r.conn.chan.IsWriting())
      && (!r.halted && !closed ==> r.conn.chan.IsWriting() == fate.writing)
  {
    OnReadProgress(w, c, e);
    if Reads(e) {
      var r := Read(w, c, e.read);
      ReadProgress(w, c, e.read);
      if EndsByRead(e) { CloseShuts(w, c); }
      if r.halted { CallbacksDoNotClose(r, c, e.readActs); }
      else {
        CallbackFares(r, c, e.readActs);
        if r.conn.state == Disconnected { ClosedFares(r.conn.chan.IsWriting(), e.readActs); }
      }
    }
  }

  /** Exactly which events end the process, from what is known when they are dispatched. */
  lemma FatalEvents<C>(w: World<C>, c: C, e: Event)
    requires e.Ready? && Good(w, c) && !w.halted && w.conn.state != Connecting
    ensures HandleEvent(w, c, e).halted <==> Fatal(w.conn, e)
  {
    OnCloseFares(w, c, e);
    var w1 := OnClose(w, c, e);
    if Err in e.revents {
      CallbacksDoNotClose(Read(Halt(w1), c, e.read), c, e.readActs);
    } else {
      OnReadFares(w1, c, e);
      WriteHalts(OnRead(w1, c, e), c, e.write);
    }
  }

  lemma WriteHalts<C>(w: World<C>, c: C, k: WriteResult)
    requires Good(w, c)
    ensures Write(w, c, k).halted <==> w.halted || !w.conn.chan.IsWriting() || !k.Wrote? || k.count == 0
  {
    WriteProgress(w, c, k);
    if !w.halted && w.conn.chan.IsWriting() && Taken(k, |w.conn.output|) == |w.conn.output| {
      TouchGood(w.(conn := Drain(w.conn, |w.conn.output|)), c, DisableWriting);
    }
  }

  /** A closed connection that is still asked to write ends the process: handleWrite finds no
    * write interest and LOG_ERROR exits. So a hang-up reported together with readiness to
    * write is fatal whatever the user does. */
  lemma WritingAfterCloseIsFatal<C>(w: World<C>, c: C, e: Event)
    requires e.Ready? && Good(w, c) && (w.halted || w.conn.state != Connecting)
    requires Out in e.revents && (EndsByHangUp(e) || EndsByRead(e) || w.conn.state == Disconnected)
    ensures HandleEvent(w, c, e).halted
  {
    if w.halted { HandleEventProgress(w, c, e); } else { FatalEvents(w, c, e); }
  }

  /** While nothing else goes wrong, that is the only way: the kernel reports what the channel
    * asks for, the read succeeds, the write makes progress, no send of the callback is refused. */
  lemma WriteReadyIsFatalIff<C>(w: World<C>, c: C, e: Event)
    requires e.Ready? && Good(w, c) && !w.halted && w.conn.state in {Connected, Disconnecting}
    requires Err !in e.revents && e.read.Got? && e.write.Wrote? && e.write.count > 0
    requires Out in e.revents ==> w.conn.chan.IsWriting()
    requires forall a :: a in e.readActs && a.Send? ==> !a.write.WriteFailed?
    ensures HandleEvent(w, c, e).halted <==> Out in e.revents && (EndsByHangUp(e) || EndsByRead(e))
  {
    FatalEvents(w, c, e);
    WillingKernel(w.conn.state == Connected, w.conn.chan.IsWriting(), e.readActs);
  }

  lemma {:induction false} WillingKernel(connected: bool, writing: bool, acts: seq<Action>)
    requires forall a :: a in acts && a.Send? ==> !a.write.WriteFailed?
    ensures var f := Fares(connected, writing, acts); f.Goes? && (writing ==> f.writing)
    decreases |acts|
  {
    if acts != [] {
      match acts[0]
      case Send(data, k) =>
        WillingKernel(connected, if !connected || writing then writing else Taken(k, |data|) < |data|, acts[1..]);
      case Shutdown => WillingKernel(false, writing, acts[1..]);
      case Retrieve(_) => WillingKernel(connected, writing, acts[1..]);
    }
  }

  /** Such a run: one byte waits to be sent when the peer hangs up and the socket becomes writable. */
  lemma FatalCloseHappens()
    ensures var w: World<nat> := World(NewConn(5, 1, false, false), Tables(map[], map[], false), false);
      var up, e := [Established([Send([0], WouldBlock)])], Ready({In, Hup, Out}, [], Got([]), [], Wrote(1));
      var s := Steps(w, 0, up);
      && Newborn(w, 0) && PossibleRun(w, 0, up) && !s.halted && s.conn.chan.IsWriting()
      && Possible(s.conn, e) && Step(s, 0, e).halted
  {
    var w: World<nat> := World(NewConn(5, 1, false, false), Tables(map[], map[], false), false);
    var up, e := [Established([Send([0], WouldBlock)])], Ready({In, Hup, Out}, [], Got([]), [], Wrote(1));
    assert Good(w, 0);
    WaitingConnection();
    hide HandleEvent, MessageFares, Steps, PossibleRun, Good, Newborn;
    StepsProgress(w, 0, up);
    FatalEvents(Steps(w, 0, up), 0, e);
  }

  lemma WaitingConnection()
    ensures var w: World<nat> := World(NewConn(5, 1, false, false), Tables(map[], map[], false), false);
      var up := [Established([Send([0], WouldBlock)])];
      var s := Steps(w, 0, up);
      && Newborn(w, 0) && PossibleRun(w, 0, up)
      && !s.halted && s.conn.state == Connected && s.conn.chan.index == Added && s.conn.chan.IsWriting()
  {}

  /** However often the connection was closed and however its registration flipped, one
    * connectDestroyed leaves no trace of its descriptor, and further ones change nothing. */
  lemma DestroyConverges<C>(w: World<C>, c: C, acts: seq<Action>)
    requires Good(w, c) && !w.halted && w.conn.state == Disconnected
    ensures var r := Destroy(w, c, acts);
      && !r.halted && !r.tables.failed && r.conn.chan.index == New
      && r.conn.chan.fd !in r.tables.channels && r.conn.chan.fd !in r.tables.kernel
      && SameElsewhere(w.tables, r.tables, w.conn.chan.fd)
      && Destroy(r, c, acts) == r
  {}

  /** Whatever a connection's handlers do, the whole poller of its loop stays in agreement. */
  lemma HandlersKeepPollerAgreement<C>(p: Poller<C>, w: World<C>, c: C, e: Event)
    requires Agrees(p) && c in p.chans && p.tables == w.tables && p.chans[c] == w.conn.chan
    requires Good(w, c) && !w.halted && Possible(w.conn, e)
    ensures var r := Step(w, c, e); !r.halted ==> Agrees(Poller(r.tables, p.chans[c := r.conn.chan]))
  {
    StepProgress(w, c, e);
    var r := Step(w, c, e);
    var q := Poller(r.tables, p.chans[c := r.conn.chan]);
    if !r.halted {
      forall d | d in q.chans ensures Registered(q.tables, d, q.chans[d]) {
        if d != c { assert Registered(p.tables, d, p.chans[d]); }
      }
      forall fd | fd in q.tables.channels
        ensures q.tables.channels[fd] in q.chans && q.chans[q.tables.channels[fd]].fd == fd
      {
        assert fd != w.conn.chan.fd ==> fd in p.tables.channels;
      }
      forall fd | fd in q.tables.kernel ensures fd in q.tables.channels {
        if fd != w.conn.chan.fd { assert fd in p.tables.kernel; }
      }
    }
  }
}
