/** Channel registration: Channel.h, Poller.cc and EPollPoller.cc against the kernel's
  * epoll interest table, as values. `C` is the identity of a channel (what the kernel
  * carries in `epoll_event.data.ptr`).
  */
module Polling {
  datatype Flag = In | Pri | Out | Err | Hup
  type Mask = set<Flag>

  const READ_EVENT: Mask := {In, Pri}
  const WRITE_EVENT: Mask := {Out}

  /** `index_`: kNew, kAdded, kDeleted. */
  datatype Index = New | Added | Deleted

  datatype Chan = Chan(fd: int, events: Mask, index: Index) {
    predicate IsNoneEvent() { events == {} }

    predicate IsWriting(): (r: bool)
      ensures r <==> Out in events
    {
      assert Out in events <==> Out in events * WRITE_EVENT;
      events * WRITE_EVENT != {}
    }

    predicate IsReading(): (r: bool)
      ensures r <==> In in events || Pri in events
    {
      assert In in events <==> In in events * READ_EVENT;
      assert Pri in events <==> Pri in events * READ_EVENT;
      events * READ_EVENT != {}
    }
  }

  datatype Interest<C> = Interest(mask: Mask, target: C)

  /** A poller's `channels_` and the kernel's table. `failed` records that an `epoll_ctl`
    * was refused, after which LOG_ERROR or LOG_FATAL ends the process. */
  datatype Tables<C> = Tables(channels: map<int, C>, kernel: map<int, Interest<C>>, failed: bool)

  datatype Operation = Add | Mod | Del

  datatype Outcome<C> = Outcome(tables: Tables<C>, chan: Chan)

  /** epoll_ctl: ADD needs an absent descriptor, MOD and DEL a present one. */
  function Ctl<C>(t: Tables<C>, op: Operation, c: C, ch: Chan): Tables<C> {
    if (op == Add) == (ch.fd in t.kernel) then t.(failed := true)
    else if op == Del then t.(kernel := t.kernel - {ch.fd})
    else t.(kernel := t.kernel[ch.fd := Interest(ch.events, c)])
  }

  function UpdateChannel<C>(t: Tables<C>, c: C, ch: Chan): Outcome<C> {
    match ch.index
    case New => Outcome(Ctl(t.(channels := t.channels[ch.fd := c]), Add, c, ch), ch.(index := Added))
    case Deleted => Outcome(Ctl(t, Add, c, ch), ch.(index := Added))
    case Added =>
      if ch.IsNoneEvent() then Outcome(Ctl(t, Del, c, ch), ch.(index := Deleted))
      else Outcome(Ctl(t, Mod, c, ch), ch)
  }

  function RemoveChannel<C>(t: Tables<C>, c: C, ch: Chan): Outcome<C> {
    var erased := t.(channels := t.channels - {ch.fd});
    Outcome(if ch.index == Added then Ctl(erased, Del, c, ch) else erased, ch.(index := New))
  }

  predicate HasChannel<C(==)>(t: Tables<C>, c: C, ch: Chan) {
    ch.fd in t.channels && t.channels[ch.fd] == c
  }

  // ---------------------------------------------------------------- operations on a channel

  datatype ChannelOp = EnableReading | DisableReading | EnableWriting | DisableWriting | DisableAll | Remove

  function NewMask(m: Mask, op: ChannelOp): Mask {
    match op
    case EnableReading => m + READ_EVENT
    case DisableReading => m - READ_EVENT
    case EnableWriting => m + WRITE_EVENT
    case DisableWriting => m - WRITE_EVENT
    case DisableAll => {}
    case Remove => m
  }

  function Perform<C>(t: Tables<C>, c: C, ch: Chan, op: ChannelOp): Outcome<C> {
    if op == Remove then RemoveChannel(t, c, ch)
    else UpdateChannel(t, c, ch.(events := NewMask(ch.events, op)))
  }

  // ---------------------------------------------------------------- agreement

  /** One channel and the two tables tell the same story about its descriptor. */
  ghost predicate Registered<C>(t: Tables<C>, c: C, ch: Chan) {
    match ch.index
    case New => ch.fd !in t.channels && ch.fd !in t.kernel
    case Added => ch.fd in t.channels && t.channels[ch.fd] == c
               && ch.fd in t.kernel && t.kernel[ch.fd] == Interest(ch.events, c)
    case Deleted => ch.fd in t.channels && t.channels[ch.fd] == c && ch.fd !in t.kernel
  }

  /** Nothing but descriptor `fd` differs. */
  ghost predicate SameElsewhere<C>(t: Tables<C>, t': Tables<C>, fd: int) {
    && t.failed == t'.failed
    && (forall g :: g != fd ==> (g in t.channels <==> g in t'.channels))
    && (forall g :: g != fd ==> (g in t.kernel <==> g in t'.kernel))
    && (forall g :: g != fd && g in t.channels ==> t'.channels[g] == t.channels[g])
    && (forall g :: g != fd && g in t.kernel ==> t'.kernel[g] == t.kernel[g])
  }

  function NextIndex(ch: Chan, op: ChannelOp): Index {
    if op == Remove then New
    else if ch.index == Added && NewMask(ch.events, op) == {} then Deleted
    else Added
  }

  /** Every operation on an agreeing channel is accepted by the kernel, keeps the agreement
    * and touches no other descriptor. */
  lemma PerformKeepsRegistered<C>(t: Tables<C>, c: C, ch: Chan, op: ChannelOp)
    requires Registered(t, c, ch)
    ensures var r := Perform(t, c, ch, op);
      && Registered(r.tables, c, r.chan) && SameElsewhere(t, r.tables, ch.fd)
      && r.chan == Chan(ch.fd, NewMask(ch.events, op), NextIndex(ch, op))
  {}

  /** Which flags each operation leaves: reading means the ordinary and the urgent data. */
  lemma MasksAre(m: Mask, f: Flag)
    ensures f in NewMask(m, EnableReading) <==> f in m || f == In || f == Pri
    ensures f in NewMask(m, DisableReading) <==> f in m && f != In && f != Pri
    ensures f in NewMask(m, EnableWriting) <==> f in m || f == Out
    ensures f in NewMask(m, DisableWriting) <==> f in m && f != Out
    ensures f !in NewMask(m, DisableAll)
    ensures f in NewMask(m, Remove) <==> f in m
  {}

  /** Disabling everything again and again flips between "deleted" and "added with an empty mask":
    * being added does not mean being interested in anything. */
  ghost function DisableTimes<C>(t: Tables<C>, c: C, ch: Chan, k: nat): Outcome<C>
    decreases k
  {
    if k == 0 then Outcome(t, ch)
    else var r := Perform(t, c, ch, DisableAll); DisableTimes(r.tables, c, r.chan, k - 1)
  }

  lemma {:induction false} RepeatedDisable<C>(t: Tables<C>, c: C, ch: Chan, k: nat)
    requires Registered(t, c, ch) && ch.index != New
    ensures var r := DisableTimes(t, c, ch, k);
      && Registered(r.tables, c, r.chan) && SameElsewhere(t, r.tables, ch.fd)
      && (k > 0 ==> r.chan.events == {})
      && (r.chan.index == Added <==> (k % 2 == 0 <==> ch.index == Added))
      && (r.chan.index == Deleted <==> r.chan.index != Added)
    decreases k
  {
    if k > 0 {
      PerformKeepsRegistered(t, c, ch, DisableAll);
      var r := Perform(t, c, ch, DisableAll);
      RepeatedDisable(r.tables, c, r.chan, k - 1);
    }
  }

  // ---------------------------------------------------------------- a whole poller

  datatype Poller<C(==)> = Poller(tables: Tables<C>, chans: map<C, Chan>)

  ghost predicate Agrees<C>(p: Poller<C>) {
    && !p.tables.failed
    && (forall c :: c in p.chans ==> Registered(p.tables, c, p.chans[c]))
    && (forall c, d :: c in p.chans && d in p.chans && c != d ==> p.chans[c].fd != p.chans[d].fd)
    && (forall fd :: fd in p.tables.channels ==>
          p.tables.channels[fd] in p.chans && p.chans[p.tables.channels[fd]].fd == fd)
    && p.tables.kernel.Keys <= p.tables.channels.Keys
  }

  function Act<C(==)>(p: Poller<C>, c: C, op: ChannelOp): Poller<C>
    requires c in p.chans
  {
    var r := Perform(p.tables, c, p.chans[c], op);
    Poller(r.tables, p.chans[c := r.chan])
  }

  function ActAll<C(==)>(p: Poller<C>, ops: seq<(C, ChannelOp)>): (r: Poller<C>)
    requires forall i :: 0 <= i < |ops| ==> ops[i].0 in p.chans
    ensures r.chans.Keys == p.chans.Keys
    decreases |ops|
  {
    if ops == [] then p else ActAll(Act(p, ops[0].0, ops[0].1), ops[1..])
  }

  lemma ActKeepsAgrees<C>(p: Poller<C>, c: C, op: ChannelOp)
    requires Agrees(p) && c in p.chans
    ensures Agrees(Act(p, c, op))
  {
    PerformKeepsRegistered(p.tables, c, p.chans[c], op);
    var q := Act(p, c, op);
    forall d | d in q.chans ensures Registered(q.tables, d, q.chans[d]) {
      assert d in p.chans && Registered(p.tables, d, p.chans[d]);
    }
    forall fd | fd in q.tables.channels
      ensures q.tables.channels[fd] in q.chans && q.chans[q.tables.channels[fd]].fd == fd
    {
      assert fd != p.chans[c].fd ==> fd in p.tables.channels;
      assert Registered(q.tables, c, q.chans[c]);
    }
  }

  /** Agreement survives every sequence of operations on channels with distinct descriptors,
    * and no operation is ever refused. */
  lemma {:induction false} ActAllKeepsAgrees<C>(p: Poller<C>, ops: seq<(C, ChannelOp)>)
    requires Agrees(p) && forall i :: 0 <= i < |ops| ==> ops[i].0 in p.chans
    ensures Agrees(ActAll(p, ops))
    decreases |ops|
  {
    if ops != [] {
      ActKeepsAgrees(p, ops[0].0, ops[0].1);
      ActAllKeepsAgrees(Act(p, ops[0].0, ops[0].1), ops[1..]);
    }
  }

  /** What `index_` says can be read off the tables, and the other way round. */
  lemma IndexIsTables<C>(p: Poller<C>, c: C)
    requires Agrees(p) && c in p.chans
    ensures var ch, t := p.chans[c], p.tables;
      && (ch.index == Added <==> ch.fd in t.kernel)
      && (ch.index == Added <==> ch.fd in t.kernel && t.kernel[ch.fd] == Interest(ch.events, c))
      && (ch.index == Deleted <==> ch.fd in t.channels && ch.fd !in t.kernel)
      && (ch.index == New <==> ch.fd !in t.channels && ch.fd !in t.kernel)
      && (HasChannel(t, c, ch) <==> ch.index != New)
  {}

  /** From an empty poller on: every run ends with tables that say exactly what the channels say. */
  lemma RunsAgree<C>(chans: map<C, Chan>, ops: seq<(C, ChannelOp)>, c: C)
    requires forall d :: d in chans ==> chans[d].index == New
    requires forall d, e :: d in chans && e in chans && d != e ==> chans[d].fd != chans[e].fd
    requires forall i :: 0 <= i < |ops| ==> ops[i].0 in chans
    requires c in chans
    ensures var p := ActAll(Poller(Tables(map[], map[], false), chans), ops);
      && !p.tables.failed
      && (p.chans[c].index == Added <==>
            p.chans[c].fd in p.tables.kernel && p.tables.kernel[p.chans[c].fd] == Interest(p.chans[c].events, c))
      && (p.chans[c].index == Deleted <==> p.chans[c].fd in p.tables.channels && p.chans[c].fd !in p.tables.kernel)
      && (p.chans[c].index == New <==> p.chans[c].fd !in p.tables.channels && p.chans[c].fd !in p.tables.kernel)
      && (HasChannel(p.tables, c, p.chans[c]) <==> p.chans[c].index != New)
  {
    var p0 := Poller(Tables(map[], map[], false), chans);
    ActAllKeepsAgrees(p0, ops);
    IndexIsTables(ActAll(p0, ops), c);
  }
}
