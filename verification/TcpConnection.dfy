/** The object of TcpConnection.cc: two real buffers and a real channel, updated in place.
  * Every method is proved to do to `View()` exactly what the function of the same name in
  * module Connections says, so the theorems about those functions are about this class.
  */
module TcpConnections {
  import opened Buffers
  import opened Polling
  import opened PollerObjects
  import opened Connections

  /** The system call `write(fd, data, len)`: -1, or how much of the data the kernel took. */
  method WriteCall(k: WriteResult, len: nat) returns (n: int)
    ensures n == if k.Wrote? then Taken(k, len) else -1
  {
    n := if k.Wrote? then Taken(k, len) else -1;
  }

  /** What is read later does not matter to the close callback. */
  lemma CloseComesFirst<C>(w: World<C>, c: C, e: Event, read: ReadResult)
    requires e.Ready?
    ensures OnClose(w, c, e.(read := read)) == OnClose(w, c, e)
  {}

  class TcpConnection {
    const poller: EPollPoller
    const channel: Channel
    const inputBuffer: Buffer
    const outputBuffer: Buffer
    const highWaterMark: nat
    const hasHighWater: bool
    const hasWriteComplete: bool
    var state: State
    var halted: bool
    var queued: seq<Notice>     // handed to the loop's queueInLoop
    ghost var accepted: seq<byte>
    ghost var sent: seq<byte>
    ghost var received: seq<byte>
    ghost var consumed: seq<byte>
    ghost var drops: nat
    ghost var halfCloses: nat
    ghost var closes: nat

    ghost function Repr(): set<object>
      reads this, inputBuffer, outputBuffer
    {
      {this, channel, inputBuffer, inputBuffer.buffer, outputBuffer, outputBuffer.buffer}
    }

    /** Growing a buffer may replace its array, by a new one. */
    twostate predicate BuffersKept()
      reads this, inputBuffer, outputBuffer
    {
      && (inputBuffer.buffer == old(inputBuffer.buffer) || fresh(inputBuffer.buffer))
      && (outputBuffer.buffer == old(outputBuffer.buffer) || fresh(outputBuffer.buffer))
    }

    twostate predicate Kept()
      reads this, inputBuffer, outputBuffer, channel, poller, poller.known
    {
      BuffersKept() && poller.KeptBy(channel) && channel.tied == old(channel.tied)
    }

    ghost predicate Valid()
      reads this, channel, poller, inputBuffer, inputBuffer.buffer, outputBuffer, outputBuffer.buffer
    {
      && inputBuffer.Valid() && outputBuffer.Valid()
      && inputBuffer != outputBuffer && inputBuffer.buffer != outputBuffer.buffer
      && channel.poller == poller
      && (poller.failed ==> halted)
    }

    ghost function View(): World<Channel>
      requires Valid()
      reads this, channel, poller, inputBuffer, inputBuffer.buffer, outputBuffer, outputBuffer.buffer
    {
      World(Conn(state, channel.Value(), inputBuffer.Value().content, outputBuffer.Value().content,
                 highWaterMark, hasHighWater, hasWriteComplete,
                 accepted, sent, received, consumed, queued, drops, halfCloses, closes),
            poller.Value(), halted)
    }

    constructor (poller: EPollPoller, fd: int, highWaterMark: nat, hasHighWater: bool, hasWriteComplete: bool)
      modifies poller`known
      ensures this.poller == poller && fresh(Repr())
      ensures Valid()
      ensures View() == World(NewConn(fd, highWaterMark, hasHighWater, hasWriteComplete), poller.Value(), poller.failed)
      ensures old(poller.Valid()) && (forall d :: d in old(poller.known) ==> d.fd != fd) ==>
        poller.Valid() && poller.known == old(poller.known) + {channel}
    {
      hide EPollPoller.Valid;
      channel := new Channel(poller, fd);
      inputBuffer := new Buffer(INITIAL_SIZE);
      outputBuffer := new Buffer(INITIAL_SIZE);
      this.poller := poller;
      this.highWaterMark, this.hasHighWater, this.hasWriteComplete := highWaterMark, hasHighWater, hasWriteComplete;
      state, halted, queued := Connecting, poller.failed, [];
      accepted, sent, received, consumed, drops, halfCloses, closes := [], [], [], [], 0, 0, 0;
    }

    /** The destructor: an unregistered channel leaves its loop, and its descriptor can be used again. */
    ghost method Retire()
      requires channel.index == New && poller.Valid()
      modifies poller`known
      ensures poller.Valid() && poller.known == old(poller.known) - {channel}
    {
      poller.Part(channel);
    }

    method QueueWriteComplete()
      requires Valid()
      modifies this`queued
      ensures Valid() && View() == old(View()).(conn := Notify(old(View()).conn))
    {
      if hasWriteComplete { queued := queued + [WriteComplete]; }
    }

    /** One operation on the connection's channel; a refused epoll_ctl ends the process. */
    method ChangeInterest(op: ChannelOp)
      requires Valid()
      modifies channel, poller`channels, poller`kernel, poller`failed, this`halted
      ensures Valid() && Kept() && View() == Touch(old(View()), channel, op)
    {
      hide Polling.Perform, EPollPoller.Valid;
      channel.Do(op);
      halted := halted || poller.failed;
    }

    /** The direct attempt: how much of `data` went out, and whether the process goes on. */
    method TryWrite(data: seq<byte>, k: WriteResult) returns (nwrote: nat)
      requires Valid() && !halted
      modifies this`halted, this`queued
      ensures nwrote == Taken(k, |data|) && halted == k.WriteFailed?
      ensures queued
           == old(queued) + if k.Wrote? && nwrote == |data| && hasWriteComplete then [WriteComplete] else []
    {
      var n := WriteCall(k, |data|);
      if n >= 0 {
        if n == |data| && hasWriteComplete { queued := queued + [WriteComplete]; }
        return n;
      }
      if !k.WouldBlock? { halted := true; }
      return 0;
    }

    /** The unsent rest of `data` joins the backlog; reaching the mark is announced. */
    method QueueRest(data: seq<byte>, nwrote: nat)
      requires Valid() && nwrote < |data|
      modifies this`queued, this`accepted, this`sent, outputBuffer, outputBuffer.buffer
      ensures Valid() && BuffersKept()
      ensures View() == old(View()).(conn := Backlog(old(View()).conn, data, nwrote))
    {
      hide Buffers.Layout.Append;
      var oldlen, remaining := outputBuffer.ReadableBytes(), |data| - nwrote;
      if oldlen + remaining >= highWaterMark && oldlen < highWaterMark && hasHighWater {
        queued := queued + [HighWater(oldlen + remaining)];
      }
      outputBuffer.Append(data[nwrote..]);
      assert outputBuffer.Value().content == old(outputBuffer.Value().content) + data[nwrote..];
      accepted, sent := accepted + data, sent + data[..nwrote];
    }

    method KeepRest(data: seq<byte>, nwrote: nat)
      requires Valid() && !halted && nwrote < |data|
      modifies Repr(), poller`channels, poller`kernel, poller`failed
      ensures Valid() && Kept()
      ensures var w := old(View()).(conn := Backlog(old(View()).conn, data, nwrote));
        View() == if old(View()).conn.chan.IsWriting() then w else Touch(w, channel, ChannelOp.EnableWriting)
    {
      hide Buffer.Value, EPollPoller.Valid;
      QueueRest(data, nwrote);
      if !channel.Value().IsWriting() { ChangeInterest(ChannelOp.EnableWriting); }
    }

    /** All of `data` went out; this is only history. */
    ghost method Account(data: seq<byte>, nwrote: nat)
      requires Valid() && nwrote <= |data|
      modifies this`accepted, this`sent
      ensures Valid() && View() == old(View()).(conn := Accept(old(View()).conn, data, nwrote))
    {
      accepted, sent := accepted + data, sent + data[..nwrote];
    }

    method SendInLoop(data: seq<byte>, k: WriteResult)
      requires Valid()
      modifies Repr(), poller`channels, poller`kernel, poller`failed
      ensures Valid() && Kept()
      ensures View() == Connections.SendInLoop(old(View()), channel, data, k)
    {
      hide Buffer.Value, EPollPoller.Valid, Connections.Touch, Connections.Backlog;
      if halted { return; }
      if state == Disconnected { halted := true; return; }
      var nwrote := 0;
      ghost var w, direct := View(), !channel.Value().IsWriting() && outputBuffer.ReadableBytes() == 0;
      if !channel.Value().IsWriting() && outputBuffer.ReadableBytes() == 0 {
        nwrote := TryWrite(data, k);
        if halted { return; }
      }
      if nwrote < |data| {
        assert View() == w;
        KeepRest(data, nwrote);
      } else {
        Account(data, nwrote);
        ghost var done := Accept(w.conn, data, nwrote);
        assert View().conn == if direct && k.Wrote? then Notify(done) else done;
      }
    }

    method Send(data: seq<byte>, k: WriteResult)
      requires Valid()
      modifies Repr(), poller`channels, poller`kernel, poller`failed
      ensures Valid() && Kept()
      ensures View() == SendNow(old(View()), channel, data, k)
    {
      if state == Connected { SendInLoop(data, k); }
    }

    method ShutdownInLoop()
      requires Valid()
      modifies this
      ensures Valid() && View() == Connections.ShutdownInLoop(old(View()))
    {
      if halted { return; }
      if !channel.Value().IsWriting() { halfCloses := halfCloses + 1; }
    }

    method Shutdown()
      requires Valid()
      modifies this
      ensures Valid() && View() == ShutdownNow(old(View()))
    {
      if halted { return; }
      if state == Connected {
        state := Disconnecting;
        ShutdownInLoop();
      }
    }

    /** The user's message callback takes bytes out of the input buffer. */
    method Retrieve(n: nat) returns (bytes: seq<byte>)
      requires Valid()
      modifies this`consumed, inputBuffer`readerIndex, inputBuffer`writerIndex
      ensures Valid() && View() == RetrieveNow(old(View()), n)
      ensures old(consumed) + bytes == consumed
    {
      hide Layout.Retrieve, Buffer.Value, EPollPoller.Valid;
      if halted { return []; }
      var m := if n < inputBuffer.ReadableBytes() then n else inputBuffer.ReadableBytes();
      ghost var w := View();
      bytes := inputBuffer.RetrieveAsString(m);
      assert View() == w.(conn := w.conn.(input := w.conn.input[m..]));
      consumed := consumed + bytes;
    }

    /** A user callback running on the loop thread. */
    method Callback(acts: seq<Action>)
      requires Valid()
      modifies Repr(), poller`channels, poller`kernel, poller`failed
      ensures Valid() && Kept()
      ensures View() == DoAll(old(View()), channel, acts)
    {
      hide Buffer.Value, EPollPoller.Valid, SendNow, ShutdownNow, RetrieveNow;
      var i := 0;
      while i < |acts|
        invariant i <= |acts|
        invariant Valid() && Kept()
        invariant DoAll(View(), channel, acts[i..]) == DoAll(old(View()), channel, acts)
      {
        assert acts[i..][0] == acts[i] && acts[i..][1..] == acts[i + 1..];
        match acts[i] {
          case Send(data, k) => Send(data, k);
          case Shutdown => Shutdown();
          case Retrieve(n) => var _ := Retrieve(n);
        }
        i := i + 1;
      }
    }

    /** handleClose up to the callbacks. */
    method BeginClose()
      requires Valid()
      modifies this, channel, poller`channels, poller`kernel, poller`failed
      ensures Valid() && Kept() && View() == Close(old(View()), channel)
    {
      hide Buffer.Value, EPollPoller.Valid, Connections.Touch;
      if halted { return; }
      state := Disconnected;
      closes := closes + 1;
      ChangeInterest(ChannelOp.DisableAll);
    }

    method HandleClose(acts: seq<Action>)
      requires Valid()
      modifies Repr(), poller`channels, poller`kernel, poller`failed
      ensures Valid() && Kept()
      ensures View() == DoAll(Close(old(View()), channel), channel, acts)
    {
      hide Buffer.Value, EPollPoller.Valid;
      BeginClose();
      Callback(acts);
    }

    /** handleRead up to the callbacks. */
    method Receive(delivered: ReadResult)
      requires Valid()
      requires delivered.Got? ==> |delivered.data| <= inputBuffer.Value().ReadCapacity()
      modifies this, channel, poller`channels, poller`kernel, poller`failed, inputBuffer, inputBuffer.buffer
      ensures Valid() && Kept() && View() == Read(old(View()), channel, delivered)
    {
      hide EPollPoller.Valid, Connections.Close, Layout.ReadFd;
      if halted { return; }
      var n := inputBuffer.ReadFd(delivered);
      if n > 0 {
        received := received + delivered.data;
      } else if n == 0 {
        assert inputBuffer.Value().content == old(inputBuffer.Value().content);
        BeginClose();
      } else {
        halted := true;
      }
    }

    /** `waiting` is what the socket holds; `delivered` is the part one `readv` brings in. */
    method HandleRead(waiting: ReadResult, acts: seq<Action>) returns (delivered: ReadResult)
      requires Valid()
      modifies Repr(), poller`channels, poller`kernel, poller`failed
      ensures Valid() && Kept()
      ensures waiting.ReadFailed? ==> delivered == waiting
      ensures waiting.Got? ==>
        delivered.Got? && delivered.data <= waiting.data && (delivered.data == [] ==> waiting.data == [])
      ensures var tail := old(inputBuffer.WritableBytes());
        var most := if tail < 65536 then tail + 65536 else tail;
        waiting.Got? ==> delivered.data == waiting.data[..Min(|waiting.data|, most)]
      ensures View() == DoAll(Read(old(View()), channel, delivered), channel, acts)
    {
      hide Buffer.Value, EPollPoller.Valid;
      var room := inputBuffer.WritableBytes() + if inputBuffer.WritableBytes() < EXTRA_SIZE then EXTRA_SIZE else 0;
      delivered := if waiting.Got? && |waiting.data| > room then Got(waiting.data[..room]) else waiting;
      Receive(delivered);
      Callback(acts);
    }

    /** The kernel took the first `n` bytes of the backlog. */
    method TakeOut(n: nat)
      requires Valid() && 0 < n <= outputBuffer.ReadableBytes()
      modifies this`sent, this`drops, outputBuffer`readerIndex, outputBuffer`writerIndex
      ensures Valid() && View() == old(View()).(conn := Drain(old(View()).conn, n))
    {
      var was := outputBuffer.ReadableBytes();
      sent := sent + outputBuffer.Value().content[..n];
      if was - n < highWaterMark <= was { drops := drops + 1; }
      outputBuffer.Retrieve(n);
    }

    /** The backlog is gone. */
    method FinishWriting()
      requires Valid()
      modifies this, channel, poller`channels, poller`kernel, poller`failed
      ensures Valid() && Kept() && View() == Drained(old(View()), channel)
    {
      hide Buffer.Value, EPollPoller.Valid, Connections.Touch;
      ChangeInterest(ChannelOp.DisableWriting);
      QueueWriteComplete();
      if state == Disconnecting { ShutdownInLoop(); }
    }

    method HandleWrite(k: WriteResult)
      requires Valid()
      modifies Repr(), poller`channels, poller`kernel, poller`failed
      ensures Valid() && Kept()
      ensures View() == Write(old(View()), channel, k)
    {
      hide Buffer.Value, EPollPoller.Valid, Connections.Drained, Connections.Drain;
      if halted { return; }
      if channel.Value().IsWriting() {
        var n := WriteCall(k, outputBuffer.ReadableBytes());
        if n > 0 {
          TakeOut(n);
          if outputBuffer.ReadableBytes() == 0 { FinishWriting(); }
        } else {
          halted := true;
        }
      } else {
        halted := true;
      }
    }

    /** handleError ends in LOG_ERROR whatever SO_ERROR says. */
    method HandleError()
      requires Valid()
      modifies this`halted
      ensures Valid() && View() == Halt(old(View()))
    {
      halted := true;
    }

    method ConnectEstablished(acts: seq<Action>)
      requires Valid()
      modifies Repr(), poller`channels, poller`kernel, poller`failed
      ensures Valid() && BuffersKept() && poller.KeptBy(channel)
      ensures View() == DoAll(Establish(old(View()), channel), channel, acts)
      ensures !old(halted) ==> channel.tied
    {
      hide Buffer.Value, EPollPoller.Valid, Connections.Touch, Connections.DoAll;
      if !halted {
        state := Connected;
        channel.Tie();
        ChangeInterest(ChannelOp.EnableReading);
      }
      assert View() == Establish(old(View()), channel);
      Callback(acts);
    }

    method ConnectDestroyed(acts: seq<Action>)
      requires Valid()
      modifies Repr(), poller`channels, poller`kernel, poller`failed
      ensures Valid() && Kept()
      ensures View() == Destroy(old(View()), channel, acts)
    {
      hide Buffer.Value, EPollPoller.Valid, Connections.Touch, Connections.DoAll;
      if halted { return; }
      if state == Connected {
        state := Disconnected;
        ChangeInterest(ChannelOp.DisableAll);
        Callback(acts);
        if halted { return; }
      }
      ChangeInterest(ChannelOp.Remove);
    }

    /** Channel::handleEventWithGuard: close, error, read and write callbacks, in this order. */
    method HandleEvent(e: Event) returns (delivered: ReadResult)
      requires Valid() && e.Ready?
      modifies Repr(), poller`channels, poller`kernel, poller`failed
      ensures Valid() && Kept()
      ensures e.read.ReadFailed? ==> delivered == e.read
      ensures e.read.Got? ==>
        delivered.Got? && delivered.data <= e.read.data && (delivered.data == [] ==> e.read.data == [])
      ensures View() == Connections.HandleEvent(old(View()), channel, e.(read := delivered))
    {
      hide Buffer.Value, EPollPoller.Valid, Connections.OnClose, Connections.OnRead, Connections.Write;
      CloseCallback(e);
      ErrorCallback(e);
      delivered := ReadCallback(e);
      WriteCallback(e);
      CloseComesFirst(old(View()), channel, e, delivered);
    }

    method ErrorCallback(e: Event)
      requires Valid() && e.Ready?
      modifies this`halted
      ensures Valid() && View() == if Err in e.revents then Halt(old(View())) else old(View())
    {
      if Err in e.revents { HandleError(); }
    }

    method WriteCallback(e: Event)
      requires Valid() && e.Ready?
      modifies Repr(), poller`channels, poller`kernel, poller`failed
      ensures Valid() && Kept()
      ensures View() == if Out in e.revents then Write(old(View()), channel, e.write) else old(View())
    {
      hide EPollPoller.Valid, Connections.Write;
      if Out in e.revents { HandleWrite(e.write); }
    }

    method CloseCallback(e: Event)
      requires Valid() && e.Ready?
      modifies Repr(), poller`channels, poller`kernel, poller`failed
      ensures Valid() && Kept()
      ensures View() == OnClose(old(View()), channel, e)
    {
      if Hup in e.revents && In in e.revents { HandleClose(e.closeActs); }
    }

    method ReadCallback(e: Event) returns (delivered: ReadResult)
      requires Valid() && e.Ready?
      modifies Repr(), poller`channels, poller`kernel, poller`failed
      ensures Valid() && Kept()
      ensures e.read.ReadFailed? ==> delivered == e.read
      ensures e.read.Got? ==>
        delivered.Got? && delivered.data <= e.read.data && (delivered.data == [] ==> e.read.data == [])
      ensures View() == OnRead(old(View()), channel, e.(read := delivered))
    {
      delivered := e.read;
      if In in e.revents || Pri in e.revents { delivered := HandleRead(e.read, e.readActs); }
    }
  }
}
