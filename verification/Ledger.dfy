/** What a connection is for, without its buffers, channel and poller: two byte streams, the
  * user's calls, the kernel's answers, and what the user is told. The backlog, the unread
  * input and the interest in the socket all follow from the four histories. Every run of the
  * connection of module Connections is proved to be a run of this ledger.
  */
module Ledgers {
  import opened Buffers
  import opened Polling
  import opened Connections
  import opened ConnectionTheorems

  datatype Ledger = Ledger(
    phase: State,
    accepted: seq<byte>,      // given to `send` while the connection was up for writing
    sent: seq<byte>,          // what the kernel said it took
    received: seq<byte>,      // what the kernel delivered
    consumed: seq<byte>,      // what the user took out
    told: seq<Notice>,        // notifications, in order
    halfClosed: bool,         // shutdownWrite was called
    closes: nat,              // how often a close was reported
    onPoller: bool,           // between connectEstablished and connectDestroyed
    dead: bool)               // the process has ended
  {
    function Waiting(): seq<byte> { if |sent| <= |accepted| then accepted[|sent|..] else [] }

    function Unread(): seq<byte> { if |consumed| <= |received| then received[|consumed|..] else [] }
  }

  function Open(): Ledger { Ledger(Connecting, [], [], [], [], [], false, 0, false, false) }

  /** What a send offered to the kernel gets through: it is offered only when nothing is waiting. */
  function Direct(l: Ledger, data: seq<byte>, k: WriteResult): nat {
    if l.Waiting() == [] && k.Wrote? then Min(k.count, |data|) else 0
  }

  /** Reaching the mark from below is announced with the size reached. */
  function Reached(conn: Conn, before: nat, after: nat): seq<Notice> {
    if conn.hasHighWater && before < conn.mark <= after then [HighWater(after)] else []
  }

  function Completed(conn: Conn): seq<Notice> { if conn.hasWriteComplete then [WriteComplete] else [] }

  function SendEntry(conn: Conn, l: Ledger, data: seq<byte>, k: WriteResult): Ledger {
    if l.phase != Connected then l
    else if l.Waiting() == [] && k.WriteFailed? then l.(dead := true)
    else
      var m := Direct(l, data, k);
      var left := |l.Waiting()| + |data| - m;
      l.(accepted := l.accepted + data, sent := l.sent + data[..m],
         told := l.told + (if l.Waiting() == [] && k.Wrote? && m == |data| then Completed(conn)
                           else Reached(conn, |l.Waiting()|, left)))
  }

  function ActEntry(conn: Conn, l: Ledger, a: Action): Ledger {
    if l.dead then l
    else
      match a
      case Send(data, k) => SendEntry(conn, l, data, k)
      case Shutdown => if l.phase != Connected then l else l.(phase := Disconnecting, halfClosed := l.Waiting() == [])
      case Retrieve(n) => l.(consumed := l.consumed + l.Unread()[..Min(n, |l.Unread()|)])
  }

  function CallbackEntry(conn: Conn, l: Ledger, acts: seq<Action>): Ledger
    decreases |acts|
  {
    if acts == [] then l else CallbackEntry(conn, ActEntry(conn, l, acts[0]), acts[1..])
  }

  function CloseEntry(l: Ledger): Ledger {
    if l.dead then l else l.(phase := Disconnected, closes := l.closes + 1)
  }

  function ReadEntry(l: Ledger, k: ReadResult): Ledger {
    if l.dead then l
    else if k.ReadFailed? then l.(dead := true)
    else if k.data == [] then CloseEntry(l)
    else l.(received := l.received + k.data)
  }

  function WriteEntry(conn: Conn, l: Ledger, k: WriteResult): Ledger {
    if l.dead then l
    else if l.phase == Connecting || l.phase == Disconnected || l.Waiting() == [] || !k.Wrote? || k.count == 0
    then l.(dead := true)
    else if k.count < |l.Waiting()| then l.(sent := l.sent + l.Waiting()[..k.count])
    else l.(sent := l.accepted, told := l.told + Completed(conn),
            halfClosed := l.halfClosed || l.phase == Disconnecting)
  }

  /** A hang-up: the close is reported, and the user's connection callback runs. */
  function HangUpEntry(conn: Conn, l: Ledger, revents: Mask, acts: seq<Action>): Ledger {
    if Hup in revents && In in revents then CallbackEntry(conn, CloseEntry(l), acts) else l
  }

  /** Input, or its end: the message callback or the connection callback runs. */
  function InputEntry(conn: Conn, l: Ledger, revents: Mask, k: ReadResult, acts: seq<Action>): Ledger {
    if In in revents || Pri in revents then CallbackEntry(conn, ReadEntry(l, k), acts) else l
  }

  /** One event, in the order of handleEventWithGuard. */
  function Entry(conn: Conn, l: Ledger, e: Event): Ledger {
    match e
    case Established(acts) =>
      CallbackEntry(conn, if l.dead then l else l.(phase := Connected, onPoller := true), acts)
    case Task(acts) => CallbackEntry(conn, l, acts)
    case Destroyed(acts) =>
      if l.dead then l
      else
        var off := if l.phase != Connected then l else CallbackEntry(conn, l.(phase := Disconnected), acts);
        off.(onPoller := false)
    case Ready(revents, closeActs, read, readActs, write) =>
      var l1 := HangUpEntry(conn, l, revents, closeActs);
      var l2 := if Err in revents then l1.(dead := true) else l1;
      var l3 := InputEntry(conn, l2, revents, read, readActs);
      if Out in revents then WriteEntry(conn, l3, write) else l3
  }

  function Entries(conn: Conn, l: Ledger, es: seq<Event>): Ledger
    decreases |es|
  {
    if es == [] then l else Entries(conn, Entry(conn, l, es[0]), es[1..])
  }

  // ---------------------------------------------------------------- refinement

  /** The settings of a connection, which never change. */
  predicate SameSettings(a: Conn, b: Conn) {
    a.mark == b.mark && a.hasHighWater == b.hasHighWater && a.hasWriteComplete == b.hasWriteComplete
  }

  /** Everything a live connection holds can be read off its ledger. */
  ghost predicate Kept(conn: Conn, l: Ledger) {
    && conn.state == l.phase
    && conn.accepted == l.accepted && conn.sent == l.sent && conn.received == l.received && conn.consumed == l.consumed
    && conn.output == l.Waiting() && conn.input == l.Unread()
    && conn.queued == l.told && conn.halfCloses == (if l.halfClosed then 1 else 0) && conn.closes == l.closes
    && (conn.chan.index != New <==> l.onPoller)
    && conn.chan.events == (if l.phase == Connecting || l.phase == Disconnected then {} else Wanted(l.Waiting()))
  }

  ghost predicate Matches<C>(w: World<C>, l: Ledger) { w.halted == l.dead && (!w.halted ==> Kept(w.conn, l)) }

  lemma TailOf(whole: seq<byte>, head: seq<byte>, tail: seq<byte>)
    requires whole == head + tail
    ensures |head| <= |whole| && whole[|head|..] == tail
  {}

  /** The connection's buffers are what its invariant says is left of the histories. */
  lemma KeptBuffers(conn: Conn, l: Ledger)
    requires Sound(conn) && conn.accepted == l.accepted && conn.sent == l.sent
    requires conn.received == l.received && conn.consumed == l.consumed
    ensures conn.output == l.Waiting() && conn.input == l.Unread()
  {
    TailOf(conn.accepted, conn.sent, conn.output);
    TailOf(conn.received, conn.consumed, conn.input);
  }

  lemma SendMatches<C>(w: World<C>, c: C, l: Ledger, data: seq<byte>, k: WriteResult)
    requires Good(w, c) && Matches(w, l) && !w.halted
    ensures Matches(SendNow(w, c, data, k), SendEntry(w.conn, l, data, k))
  {
    var conn, r, l' := w.conn, SendNow(w, c, data, k), SendEntry(w.conn, l, data, k);
    if conn.state == Connected && !(conn.output == [] && k.WriteFailed?) {
      SendProgress(w, c, data, k);
      SendTakesBytes(w, c, data, k);
      KeptBuffers(r.conn, l');
    }
  }

  /** A send takes the whole message: what the kernel accepts at once is a prefix, offered only
    * when nothing is waiting, and the rest goes to the end of the backlog. */
  lemma SendTakesBytes<C>(w: World<C>, c: C, data: seq<byte>, k: WriteResult)
    requires Good(w, c) && !w.halted
    ensures var r := SendNow(w, c, data, k);
      var m := if w.conn.output == [] && k.Wrote? then Min(k.count, |data|) else 0;
      && (w.conn.state == Connected && !r.halted ==>
            && r.conn.accepted == w.conn.accepted + data
            && r.conn.sent == w.conn.sent + data[..m]
            && r.conn.output == w.conn.output + data[m..]
            && r.conn.chan.index == Added && r.conn.chan.events == Wanted(w.conn.output + data[m..])
            && r.conn.queued == w.conn.queued +
                 (if w.conn.output == [] && k.Wrote? && m == |data| then Completed(w.conn)
                  else Reached(w.conn, |w.conn.output|, |w.conn.output| + |data| - m))
            && r.conn == w.conn.(accepted := r.conn.accepted, sent := r.conn.sent, output := r.conn.output,
                                 chan := r.conn.chan, queued := r.conn.queued))
      && (w.conn.state != Connected ==> r == w)
      && (w.conn.state == Connected ==> (r.halted <==> w.conn.output == [] && k.WriteFailed?))
  {
    hide Perform, Registered, HighWaters;
    var conn := w.conn;
    if conn.state == Connected && !(conn.output == [] && k.WriteFailed?) {
      var n := if conn.output == [] then Taken(k, |data|) else 0;
      if n < |data| {
        TouchGood(w.(conn := Backlog(conn, data, n)), c, EnableWriting);
        assert {In, Pri} + WRITE_EVENT == {In, Pri, Out};
      } else {
        assert data[n..] == [] && conn.output + data[n..] == conn.output;
      }
    }
  }

  /** handleWrite sends what the kernel took, no more and no less, and keeps the rest for later. */
  lemma WriteSendsBytes<C>(w: World<C>, c: C, k: WriteResult)
    requires Good(w, c) && !w.halted && w.conn.chan.index != New
    ensures var r := Write(w, c, k); !r.halted ==>
      var m := Min(k.count, |w.conn.output|);
      && w.conn.output != [] && k.Wrote? && k.count > 0
      && r.conn.sent == w.conn.sent + w.conn.output[..m]
      && r.conn.output == w.conn.output[m..]
      && (r.conn.chan.IsWriting() <==> m < |w.conn.output|)
      && r.conn.chan == Chan(w.conn.chan.fd, Wanted(w.conn.output[m..]), Added)
      && r.conn.queued == w.conn.queued + (if m == |w.conn.output| then Completed(w.conn) else [])
      && r.conn.halfCloses == (if m == |w.conn.output| && w.conn.state == Disconnecting then 1 else w.conn.halfCloses)
      && r.conn == w.conn.(sent := r.conn.sent, output := r.conn.output, chan := r.conn.chan,
                           queued := r.conn.queued, halfCloses := r.conn.halfCloses, drops := r.conn.drops)
  {
    hide Perform, Registered, HighWaters;
    var n := Taken(k, |w.conn.output|);
    assert {In, Pri, Out} - WRITE_EVENT == {In, Pri};
    if n > 0 && w.conn.chan.IsWriting() && n == |w.conn.output| {
      TouchGood(w.(conn := Drain(w.conn, n)), c, DisableWriting);
    }
  }

  lemma WriteMatches<C>(w: World<C>, c: C, l: Ledger, k: WriteResult)
    requires Good(w, c) && Matches(w, l) && (w.halted || l.onPoller)
    ensures Matches(Write(w, c, k), WriteEntry(w.conn, l, k))
  {
    if !w.halted {
      WriteHalts(w, c, k);
      var r, l' := Write(w, c, k), WriteEntry(w.conn, l, k);
      if !r.halted {
        WriteProgress(w, c, k);
        WriteSendsBytes(w, c, k);
        TailOf(w.conn.accepted, w.conn.sent, w.conn.output);
        KeptBuffers(r.conn, l');
      }
    }
  }

  lemma ActMatches<C>(w: World<C>, c: C, l: Ledger, a: Action)
    requires Good(w, c) && Matches(w, l)
    ensures Matches(Do(w, c, a), ActEntry(w.conn, l, a)) && SameSettings(Do(w, c, a).conn, w.conn)
  {
    hide Perform, Registered, HighWaters;
    DoProgress(w, c, a);
    if !w.halted {
      match a
      case Send(data, k) => SendMatches(w, c, l, data, k);
      case Shutdown =>
      case Retrieve(n) => KeptBuffers(Do(w, c, a).conn, ActEntry(w.conn, l, a));
    }
  }

  lemma EntriesOfSame(a: Conn, b: Conn, l: Ledger, x: Action)
    requires SameSettings(a, b)
    ensures ActEntry(a, l, x) == ActEntry(b, l, x)
  {}

  lemma {:induction false} CallbackOfSame(a: Conn, b: Conn, l: Ledger, acts: seq<Action>)
    requires SameSettings(a, b)
    ensures CallbackEntry(a, l, acts) == CallbackEntry(b, l, acts)
    decreases |acts|
  {
    if acts != [] {
      EntriesOfSame(a, b, l, acts[0]);
      CallbackOfSame(a, b, ActEntry(a, l, acts[0]), acts[1..]);
    }
  }

  lemma {:induction false} CallbackMatches<C>(w: World<C>, c: C, l: Ledger, acts: seq<Action>)
    requires Good(w, c) && Matches(w, l)
    ensures Matches(DoAll(w, c, acts), CallbackEntry(w.conn, l, acts))
    ensures SameSettings(DoAll(w, c, acts).conn, w.conn)
    decreases |acts|
  {
    if acts != [] {
      var w1, l1 := Do(w, c, acts[0]), ActEntry(w.conn, l, acts[0]);
      DoProgress(w, c, acts[0]);
      ActMatches(w, c, l, acts[0]);
      CallbackMatches(w1, c, l1, acts[1..]);
      CallbackOfSame(w.conn, w1.conn, l1, acts[1..]);
    }
  }

  lemma {:induction false} CallbackKeepsPhase(conn: Conn, l: Ledger, acts: seq<Action>)
    ensures CallbackEntry(conn, l, acts).onPoller == l.onPoller
    decreases |acts|
  {
    if acts != [] { CallbackKeepsPhase(conn, ActEntry(conn, l, acts[0]), acts[1..]); }
  }

  lemma CloseMatches<C>(w: World<C>, c: C, l: Ledger)
    requires Good(w, c) && Matches(w, l) && (w.halted || l.onPoller)
    ensures Matches(Close(w, c), CloseEntry(l)) && SameSettings(Close(w, c).conn, w.conn)
  {
    if !w.halted {
      TouchGood(w.(conn := w.conn.(state := Disconnected, closes := w.conn.closes + 1)), c, DisableAll);
    }
  }

  lemma ReadMatches<C>(w: World<C>, c: C, l: Ledger, k: ReadResult)
    requires Good(w, c) && Matches(w, l) && (w.halted || (l.onPoller && l.phase != Connecting))
    ensures Matches(Read(w, c, k), ReadEntry(l, k)) && SameSettings(Read(w, c, k).conn, w.conn)
  {
    CloseMatches(w, c, l);
    if !w.halted && k.Got? && k.data != [] {
      ReadProgress(w, c, k);
      KeptBuffers(Read(w, c, k).conn, ReadEntry(l, k));
    }
  }

  lemma OnCloseMatches<C>(w: World<C>, c: C, l: Ledger, e: Event)
    requires Good(w, c) && Matches(w, l) && e.Ready? && (w.halted || l.onPoller)
    ensures var r, l' := OnClose(w, c, e), HangUpEntry(w.conn, l, e.revents, e.closeActs);
      && Good(r, c) && Matches(r, l') && SameSettings(r.conn, w.conn)
      && l'.onPoller == l.onPoller && (w.halted ==> r.halted)
  {
    OnCloseProgress(w, c, e);
    if Hup in e.revents && In in e.revents {
      var w1, l1 := Close(w, c), CloseEntry(l);
      CloseProgress(w, c);
      CloseMatches(w, c, l);
      CallbackMatches(w1, c, l1, e.closeActs);
      CallbackOfSame(w.conn, w1.conn, l1, e.closeActs);
      CallbackKeepsPhase(w.conn, l1, e.closeActs);
    }
  }

  lemma OnReadMatches<C>(w: World<C>, c: C, l: Ledger, e: Event)
    requires Good(w, c) && Matches(w, l) && e.Ready? && (w.halted || l.onPoller)
    ensures var r, l' := OnRead(w, c, e), InputEntry(w.conn, l, e.revents, e.read, e.readActs);
      && Good(r, c) && Matches(r, l') && SameSettings(r.conn, w.conn)
      && l'.onPoller == l.onPoller && (w.halted ==> r.halted)
  {
    OnReadProgress(w, c, e);
    if In in e.revents || Pri in e.revents {
      var w1, l1 := Read(w, c, e.read), ReadEntry(l, e.read);
      ReadProgress(w, c, e.read);
      ReadMatches(w, c, l, e.read);
      CallbackMatches(w1, c, l1, e.readActs);
      CallbackOfSame(w.conn, w1.conn, l1, e.readActs);
      CallbackKeepsPhase(w.conn, l1, e.readActs);
    }
  }

  lemma WriteOfSame(a: Conn, b: Conn, l: Ledger, k: WriteResult)
    requires SameSettings(a, b)
    ensures WriteEntry(a, l, k) == WriteEntry(b, l, k)
  {}

  lemma InputOfSame(a: Conn, b: Conn, l: Ledger, revents: Mask, k: ReadResult, acts: seq<Action>)
    requires SameSettings(a, b)
    ensures InputEntry(a, l, revents, k, acts) == InputEntry(b, l, revents, k, acts)
  {
    CallbackOfSame(a, b, ReadEntry(l, k), acts);
  }

  lemma ReadyMatches<C>(w: World<C>, c: C, l: Ledger, e: Event)
    requires Good(w, c) && Matches(w, l) && e.Ready? && (w.halted || l.onPoller)
    ensures Matches(HandleEvent(w, c, e), Entry(w.conn, l, e))
    ensures SameSettings(HandleEvent(w, c, e).conn, w.conn)
  {
    hide Write, WriteEntry, Kept, OnClose, OnRead, HangUpEntry, InputEntry;
    var w1, l1 := OnClose(w, c, e), HangUpEntry(w.conn, l, e.revents, e.closeActs);
    OnCloseMatches(w, c, l, e);
    var w2, l2 := if Err in e.revents then Halt(w1) else w1, if Err in e.revents then l1.(dead := true) else l1;
    OnReadMatches(w2, c, l2, e);
    InputOfSame(w.conn, w2.conn, l2, e.revents, e.read, e.readActs);
    var w3, l3 := OnRead(w2, c, e), InputEntry(w.conn, l2, e.revents, e.read, e.readActs);
    if Out in e.revents {
      WriteMatches(w3, c, l3, e.write);
      WriteOfSame(w.conn, w3.conn, l3, e.write);
      WriteSettings(w3, c, e.write);
    }
  }

  lemma WriteSettings<C>(w: World<C>, c: C, k: WriteResult)
    ensures SameSettings(Write(w, c, k).conn, w.conn)
  {}

  lemma EstablishMatches<C>(w: World<C>, c: C, l: Ledger, acts: seq<Action>)
    requires Good(w, c) && Matches(w, l) && (w.halted || l.phase == Connecting)
    ensures var r := Step(w, c, Established(acts));
      Matches(r, Entry(w.conn, l, Established(acts))) && SameSettings(r.conn, w.conn)
  {
    var w1, l1 := Establish(w, c), if l.dead then l else l.(phase := Connected, onPoller := true);
    EstablishProgress(w, c);
    if !w.halted {
      TouchGood(w.(conn := w.conn.(state := Connected)), c, EnableReading);
      assert {} + READ_EVENT == {In, Pri};
    }
    CallbackMatches(w1, c, l1, acts);
    CallbackOfSame(w.conn, w1.conn, l1, acts);
  }

  lemma DestroyMatches<C>(w: World<C>, c: C, l: Ledger, acts: seq<Action>)
    requires Good(w, c) && Matches(w, l)
    ensures var r := Destroy(w, c, acts);
      Matches(r, Entry(w.conn, l, Destroyed(acts))) && SameSettings(r.conn, w.conn)
  {
    hide Perform, Registered, HighWaters, SameElsewhere, ActEntry;
    if !w.halted {
      var off, l1 := w, l;
      if w.conn.state == Connected {
        var quiet := Touch(w.(conn := w.conn.(state := Disconnected)), c, DisableAll);
        TouchGood(w.(conn := w.conn.(state := Disconnected)), c, DisableAll);
        l1 := l.(phase := Disconnected);
        off := DoAll(quiet, c, acts);
        DoAllProgress(quiet, c, acts);
        CallbackMatches(quiet, c, l1, acts);
        CallbackOfSame(w.conn, quiet.conn, l1, acts);
        l1 := CallbackEntry(w.conn, l1, acts);
      }
      if !off.halted { TouchGood(off, c, Remove); }
    }
  }

  lemma StepMatches<C>(w: World<C>, c: C, l: Ledger, e: Event)
    requires Good(w, c) && Matches(w, l) && (w.halted || Possible(w.conn, e))
    ensures Matches(Step(w, c, e), Entry(w.conn, l, e)) && SameSettings(Step(w, c, e).conn, w.conn)
  {
    match e
    case Established(acts) => EstablishMatches(w, c, l, acts);
    case Ready(_, _, _, _, _) => ReadyMatches(w, c, l, e);
    case Task(acts) => CallbackMatches(w, c, l, acts);
    case Destroyed(acts) => DestroyMatches(w, c, l, acts);
  }

  /** Refinement: whatever happens to a connection, its state, its streams, its buffers, what it
    * told the user, what it asks of the kernel and whether the process is still alive are those of
    * the ledger, written from the events alone. */
  lemma {:induction false} RunMatches<C>(w: World<C>, c: C, l: Ledger, es: seq<Event>)
    requires Good(w, c) && Matches(w, l) && PossibleRun(w, c, es)
    ensures Matches(Steps(w, c, es), Entries(w.conn, l, es))
    decreases |es|
  {
    if es != [] {
      var w1, l1 := Step(w, c, es[0]), Entry(w.conn, l, es[0]);
      StepProgress(w, c, es[0]);
      StepMatches(w, c, l, es[0]);
      RunMatches(w1, c, l1, es[1..]);
      EntriesOfSameRun(w.conn, w1.conn, l1, es[1..]);
    }
  }

  lemma RunsKeepTheLedger<C>(w: World<C>, c: C, es: seq<Event>)
    requires Newborn(w, c) && PossibleRun(w, c, es)
    ensures Matches(Steps(w, c, es), Entries(w.conn, Open(), es))
  {
    RunMatches(w, c, Open(), es);
  }

  lemma EntryOfSame(a: Conn, b: Conn, l: Ledger, e: Event)
    requires SameSettings(a, b)
    ensures Entry(a, l, e) == Entry(b, l, e)
  {
    match e
    case Established(acts) =>
      CallbackOfSame(a, b, if l.dead then l else l.(phase := Connected, onPoller := true), acts);
    case Task(acts) => CallbackOfSame(a, b, l, acts);
    case Destroyed(acts) => CallbackOfSame(a, b, l.(phase := Disconnected), acts);
    case Ready(revents, closeActs, read, readActs, write) =>
      CallbackOfSame(a, b, CloseEntry(l), closeActs);
      var l1 := HangUpEntry(a, l, revents, closeActs);
      var l2 := if Err in revents then l1.(dead := true) else l1;
      InputOfSame(a, b, l2, revents, read, readActs);
      WriteOfSame(a, b, InputEntry(a, l2, revents, read, readActs), write);
  }

  lemma {:induction false} EntriesOfSameRun(a: Conn, b: Conn, l: Ledger, es: seq<Event>)
    requires SameSettings(a, b)
    ensures Entries(a, l, es) == Entries(b, l, es)
    decreases |es|
  {
    if es != [] {
      EntryOfSame(a, b, l, es[0]);
      EntriesOfSameRun(a, b, Entry(a, l, es[0]), es[1..]);
    }
  }

  // ---------------------------------------------------------------- what the user sent

  /** The data of the sends a callback makes while the connection is up for writing. */
  function Offered(connected: bool, acts: seq<Action>): seq<byte>
    decreases |acts|
  {
    if acts == [] then []
    else
      (if connected && acts[0].Send? then acts[0].data else []) + Offered(connected && !acts[0].Shutdown?, acts[1..])
  }

  function OfferedIn(phase: State, e: Event): seq<byte> {
    match e
    case Established(acts) => Offered(true, acts)
    case Task(acts) => Offered(phase == Connected, acts)
    case Destroyed(_) => []
    case Ready(_, _, _, readActs, _) =>
      if Reads(e) && !EndsByHangUp(e) && !EndsByRead(e) then Offered(phase == Connected, readActs) else []
  }

  function AfterCallback(phase: State, acts: seq<Action>): State {
    if phase == Connected && Shutdown in acts then Disconnecting else phase
  }

  function PhaseAfter(phase: State, e: Event): State {
    match e
    case Established(acts) => AfterCallback(Connected, acts)
    case Task(acts) => AfterCallback(phase, acts)
    case Destroyed(_) => if phase == Connected then Disconnected else phase
    case Ready(_, _, _, readActs, _) =>
      if EndsByHangUp(e) || EndsByRead(e) then Disconnected
      else if Reads(e) then AfterCallback(phase, readActs) else phase
  }

  /** ... and those of a whole run: shutting down, closing and destroying end it. */
  function OfferedBy(phase: State, es: seq<Event>): seq<byte>
    decreases |es|
  {
    if es == [] then [] else OfferedIn(phase, es[0]) + OfferedBy(PhaseAfter(phase, es[0]), es[1..])
  }

  lemma ActAccepts(conn: Conn, l: Ledger, a: Action)
    ensures var r := ActEntry(conn, l, a); !r.dead ==>
      && !l.dead
      && r.accepted == l.accepted + (if l.phase == Connected && a.Send? then a.data else [])
      && r.phase == if l.phase == Connected && a.Shutdown? then Disconnecting else l.phase
  {}

  lemma {:induction false} CallbackAccepts(conn: Conn, l: Ledger, acts: seq<Action>)
    ensures var r := CallbackEntry(conn, l, acts); !r.dead ==>
      && !l.dead
      && r.accepted == l.accepted + Offered(l.phase == Connected, acts)
      && r.phase == AfterCallback(l.phase, acts)
    decreases |acts|
  {
    hide ActEntry;
    if acts != [] {
      var a, l1 := acts[0], ActEntry(conn, l, acts[0]);
      ActAccepts(conn, l, a);
      CallbackAccepts(conn, l1, acts[1..]);
      Reassociate(l.accepted, if l.phase == Connected && a.Send? then a.data else [],
                  Offered(l1.phase == Connected, acts[1..]));
      assert Shutdown in acts <==> a == Shutdown || Shutdown in acts[1..];
    }
  }

  lemma ClosedOffersNothing(acts: seq<Action>)
    ensures Offered(false, acts) == []
    decreases |acts|
  {}

  lemma EntryAccepts(conn: Conn, l: Ledger, e: Event)
    ensures var r := Entry(conn, l, e); !r.dead ==>
      !l.dead && r.accepted == l.accepted + OfferedIn(l.phase, e) && r.phase == PhaseAfter(l.phase, e)
  {
    hide CallbackEntry, HangUpEntry, InputEntry;
    match e
    case Established(acts) =>
      CallbackAccepts(conn, if l.dead then l else l.(phase := Connected, onPoller := true), acts);
    case Task(acts) => CallbackAccepts(conn, l, acts);
    case Destroyed(acts) =>
      CallbackAccepts(conn, l.(phase := Disconnected), acts);
      ClosedOffersNothing(acts);
    case Ready(revents, closeActs, read, readActs, write) =>
      HangUpAccepts(conn, l, e);
      var l1 := HangUpEntry(conn, l, revents, closeActs);
      var l2 := if Err in revents then l1.(dead := true) else l1;
      InputAccepts(conn, l2, e);
      ClosedOffersNothing(readActs);
  }

  lemma HangUpAccepts(conn: Conn, l: Ledger, e: Event)
    requires e.Ready?
    ensures var r := HangUpEntry(conn, l, e.revents, e.closeActs); !r.dead ==>
      !l.dead && r.accepted == l.accepted && r.phase == if EndsByHangUp(e) then Disconnected else l.phase
  {
    CallbackAccepts(conn, CloseEntry(l), e.closeActs);
    ClosedOffersNothing(e.closeActs);
  }

  lemma InputAccepts(conn: Conn, l: Ledger, e: Event)
    requires e.Ready?
    ensures var r := InputEntry(conn, l, e.revents, e.read, e.readActs); !r.dead ==>
      && !l.dead
      && r.accepted
         == l.accepted + (if Reads(e) && !EndsByRead(e) then Offered(l.phase == Connected, e.readActs) else [])
      && r.phase == (if EndsByRead(e) then Disconnected
                     else if Reads(e) then AfterCallback(l.phase, e.readActs) else l.phase)
  {
    CallbackAccepts(conn, ReadEntry(l, e.read), e.readActs);
    ClosedOffersNothing(e.readActs);
  }

  lemma {:induction false} EntriesAccept(conn: Conn, l: Ledger, es: seq<Event>)
    ensures var r := Entries(conn, l, es); !r.dead ==> !l.dead && r.accepted == l.accepted + OfferedBy(l.phase, es)
    decreases |es|
  {
    hide Entry, OfferedIn, PhaseAfter;
    if es != [] {
      var l1 := Entry(conn, l, es[0]);
      EntryAccepts(conn, l, es[0]);
      EntriesAccept(conn, l1, es[1..]);
      Reassociate(l.accepted, OfferedIn(l.phase, es[0]), OfferedBy(l1.phase, es[1..]));
    }
  }

  /** No message is dropped: at every moment the bytes sent, followed by those still waiting, are the
    * data of all sends made while the connection was up for writing, in order. */
  lemma EverySendIsAccepted<C>(w: World<C>, c: C, es: seq<Event>)
    requires Newborn(w, c) && PossibleRun(w, c, es)
    ensures var r := Steps(w, c, es); !r.halted ==>
      r.conn.sent + r.conn.output == r.conn.accepted == OfferedBy(Connecting, es)
  {
    RunsKeepTheLedger(w, c, es);
    StepsProgress(w, c, es);
    EntriesAccept(w.conn, Open(), es);
  }
}
