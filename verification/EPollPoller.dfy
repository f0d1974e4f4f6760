/** The objects of Channel.h and EPollPoller.cc. The kernel's interest table is a field of
  * the poller, because nothing else holds its epoll descriptor. `known` are the channels
  * whose loop uses this poller.
  */
module PollerObjects {
  import opened Polling

  const INIT_EVENT_LIST_SIZE: nat := 16

  class Channel {
    const fd: int
    const poller: EPollPoller
    var events: Mask
    var revents: Mask
    var index: Index
    var tied: bool

    /** The channel joins its loop, where no other channel may use its descriptor. */
    constructor (poller: EPollPoller, fd: int)
      modifies poller`known
      ensures this.poller == poller && this.fd == fd && !tied && revents == {}
      ensures Value() == Chan(fd, {}, New)
      ensures old(poller.Valid()) && (forall d :: d in old(poller.known) ==> d.fd != fd) ==>
        poller.Valid() && poller.known == old(poller.known) + {this}
    {
      this.poller, this.fd := poller, fd;
      events, revents, index, tied := {}, {}, New, false;
      new;
      if poller.Valid() && forall d :: d in poller.known ==> d.fd != fd { poller.Meet(this); }
    }

    function Value(): Chan
      reads this`events, this`index
    { Chan(fd, events, index) }

    method Tie()
      modifies this`tied
      ensures tied
    { tied := true; }

    method EnableReading()
      modifies this`events, this`index, poller`channels, poller`kernel, poller`failed
      ensures events == old(events) + {In, Pri}
      ensures Outcome(poller.Value(), Value())
           == Perform(old(poller.Value()), this, old(Value()), ChannelOp.EnableReading)
    {
      events := events + READ_EVENT;
      Update();
    }

    method DisableReading()
      modifies this`events, this`index, poller`channels, poller`kernel, poller`failed
      ensures events == old(events) - {In, Pri}
      ensures Outcome(poller.Value(), Value())
           == Perform(old(poller.Value()), this, old(Value()), ChannelOp.DisableReading)
    {
      events := events - READ_EVENT;
      Update();
    }

    method EnableWriting()
      modifies this`events, this`index, poller`channels, poller`kernel, poller`failed
      ensures events == old(events) + {Out}
      ensures Outcome(poller.Value(), Value())
           == Perform(old(poller.Value()), this, old(Value()), ChannelOp.EnableWriting)
    {
      events := events + WRITE_EVENT;
      Update();
    }

    method DisableWriting()
      modifies this`events, this`index, poller`channels, poller`kernel, poller`failed
      ensures events == old(events) - {Out}
      ensures Outcome(poller.Value(), Value())
           == Perform(old(poller.Value()), this, old(Value()), ChannelOp.DisableWriting)
    {
      events := events - WRITE_EVENT;
      Update();
    }

    method DisableAll()
      modifies this`events, this`index, poller`channels, poller`kernel, poller`failed
      ensures events == {}
      ensures Outcome(poller.Value(), Value()) == Perform(old(poller.Value()), this, old(Value()), ChannelOp.DisableAll)
    {
      events := {};
      Update();
    }

    method Remove()
      modifies this`index, poller`channels, poller`kernel, poller`failed
      ensures Outcome(poller.Value(), Value()) == Perform(old(poller.Value()), this, old(Value()), ChannelOp.Remove)
    {
      poller.RemoveChannel(this);
    }

    /** Any of these. */
    method Work(op: ChannelOp)
      modifies this`events, this`index, poller`channels, poller`kernel, poller`failed
      ensures Outcome(poller.Value(), Value()) == Perform(old(poller.Value()), this, old(Value()), op)
    {
      match op {
        case EnableReading => EnableReading();
        case DisableReading => DisableReading();
        case EnableWriting => EnableWriting();
        case DisableWriting => DisableWriting();
        case DisableAll => DisableAll();
        case Remove => Remove();
      }
    }

    /** ... as part of the loop: all its channels stay in agreement with the tables. */
    method Do(op: ChannelOp)
      modifies this`events, this`index, poller`channels, poller`kernel, poller`failed
      ensures Outcome(poller.Value(), Value()) == Perform(old(poller.Value()), this, old(Value()), op)
      ensures poller.KeptBy(this)
      ensures old(poller.Valid()) && this in poller.known ==> poller.Whole() == Act(old(poller.Whole()), this, op)
    {
      hide Perform;
      ghost var before, known := poller.Whole(), poller.Valid() && this in poller.known;
      Work(op);
      if known {
        ActKeepsAgrees(before, this, op);
        assert poller.Whole() == Act(before, this, op);
      }
    }

    method Update()
      modifies this`index, poller`channels, poller`kernel, poller`failed
      ensures Outcome(poller.Value(), Value()) == UpdateChannel(old(poller.Value()), this, old(Value()))
    {
      poller.UpdateChannel(this);
    }
  }

  class EPollPoller {
    var channels: map<int, Channel>
    var kernel: map<int, Interest<Channel>>
    var failed: bool
    var eventsSize: nat
    ghost var known: set<Channel>

    constructor ()
      ensures Valid() && known == {} && eventsSize == INIT_EVENT_LIST_SIZE
      ensures Value() == Tables(map[], map[], false)
    {
      channels, kernel, failed, eventsSize, known := map[], map[], false, INIT_EVENT_LIST_SIZE, {};
    }

    function Value(): Tables<Channel>
      reads this`channels, this`kernel, this`failed
    { Tables(channels, kernel, failed) }

    ghost function Whole(): Poller<Channel>
      reads this`channels, this`kernel, this`failed, this`known, known`events, known`index
    { Poller(Value(), map c | c in known :: c.Value()) }

    ghost predicate Valid()
      reads this`channels, this`kernel, this`failed, this`known, known`events, known`index
    {
      && (forall c :: c in known ==> c.poller == this)
      && Agrees(Whole())
    }

    /** A channel of this loop, on a descriptor no other channel of the loop uses. */
    ghost method Meet(c: Channel)
      requires Valid() && c.poller == this && c.index == New && c !in known
      requires forall d :: d in known ==> d.fd != c.fd
      modifies this`known
      ensures Valid() && known == old(known) + {c}
    {
      ghost var p := Whole();
      known := known + {c};
      ghost var q := Whole();
      assert q.tables == p.tables;
      assert forall d :: d in known && d != c ==> d in p.chans && q.chans[d] == p.chans[d];
      forall fd | fd in channels ensures channels[fd] in p.chans && q.chans[channels[fd]].fd == fd && fd != c.fd {
        assert p.tables.channels[fd] in p.chans;
      }
      forall d | d in q.chans ensures Registered(q.tables, d, q.chans[d]) {
        if d != c { assert Registered(p.tables, d, p.chans[d]); }
      }
      forall d, e | d in q.chans && e in q.chans && d != e ensures q.chans[d].fd != q.chans[e].fd {
        assert q.chans[d] == d.Value() && q.chans[e] == e.Value();
      }
      assert Agrees(q);
    }

    /** A channel of this loop that is not registered goes away. */
    ghost method Part(c: Channel)
      requires Valid() && c.index == New
      modifies this`known
      ensures Valid() && known == old(known) - {c}
    {
      ghost var p := Whole();
      known := known - {c};
      ghost var q := Whole();
      assert forall d :: d in known ==> d in p.chans && q.chans[d] == p.chans[d];
      forall fd | fd in channels ensures channels[fd] in q.chans && q.chans[channels[fd]].fd == fd {
        assert p.tables.channels[fd] in p.chans;
        assert Registered(p.tables, channels[fd], p.chans[channels[fd]]);
      }
      assert Agrees(q);
    }

    /** The loop still has the same channels; if they agreed with the tables before `c`, one of
      * them, was worked on, they still do. */
    twostate predicate KeptBy(c: Channel)
      reads this`channels, this`kernel, this`failed, this`known, known`events, known`index
    {
      known == old(known) && (old(Valid()) && c in known ==> Valid())
    }

    method UpdateChannel(channel: Channel)
      modifies channel`index, this`channels, this`kernel, this`failed
      ensures Outcome(Value(), channel.Value()) == Polling.UpdateChannel(old(Value()), channel, old(channel.Value()))
    {
      var index := channel.index;
      if index == New || index == Deleted {
        if index == New {
          channels := channels[channel.fd := channel];
        }
        channel.index := Added;
        Update(Operation.Add, channel);
      } else {
        if channel.events == {} {
          Update(Operation.Del, channel);
          channel.index := Deleted;
        } else {
          Update(Operation.Mod, channel);
        }
      }
    }

    method RemoveChannel(channel: Channel)
      modifies channel`index, this`channels, this`kernel, this`failed
      ensures Outcome(Value(), channel.Value()) == Polling.RemoveChannel(old(Value()), channel, old(channel.Value()))
    {
      channels := channels - {channel.fd};
      if channel.index == Added {
        Update(Operation.Del, channel);
      }
      channel.index := New;
    }

    /** The system call, and the process exit when it is refused. */
    method Update(op: Operation, channel: Channel)
      modifies this`kernel, this`failed
      ensures Value() == Ctl(old(Value()), op, channel, channel.Value())
    {
      var present := channel.fd in kernel;
      if (op == Operation.Add) == present {
        failed := true;
      } else if op == Operation.Del {
        kernel := kernel - {channel.fd};
      } else {
        kernel := kernel[channel.fd := Interest(channel.events, channel)];
      }
    }

    method HasChannel(channel: Channel) returns (r: bool)
      requires Valid() && channel in known
      ensures r <==> channel.index != New
    {
      IndexIsTables(Whole(), channel);
      r := channel.fd in channels && channels[channel.fd] == channel;
    }

    /** `ready` is what epoll_wait stored: descriptors of the interest table, each at most once,
      * with the flags that fired, never more of them than `events_` holds. */
    method Poll(ready: seq<(int, Mask)>) returns (active: seq<Channel>)
      requires Valid() && |ready| <= eventsSize
      requires forall i :: 0 <= i < |ready| ==> ready[i].0 in kernel
      requires forall i, j :: 0 <= i < j < |ready| ==> ready[i].0 != ready[j].0
      modifies this`eventsSize, known`revents
      ensures Valid() && Whole() == old(Whole())
      ensures |active| == |ready|
      ensures forall i :: 0 <= i < |active| ==>
        active[i] in known && active[i].fd == ready[i].0 && active[i].index == Added && active[i].revents == ready[i].1
      ensures forall i, j :: 0 <= i < j < |active| ==> active[i] != active[j]
      ensures forall c :: c in known && c !in active ==> c.revents == old(c.revents)
      ensures eventsSize == if ready != [] && |ready| == old(eventsSize) then 2 * old(eventsSize) else old(eventsSize)
    {
      active := [];
      for i := 0 to |ready|
        modifies known`revents
        invariant |active| == i && Valid() && Whole() == old(Whole())
        invariant forall k :: 0 <= k < i ==>
            && active[k] in known && active[k].fd == ready[k].0
            && active[k].index == Added && active[k].revents == ready[k].1
        invariant forall c :: c in known && c !in active ==> c.revents == old(c.revents)
      {
        var channel := Fired(ready[i].0, ready[i].1);
        active := active + [channel];
      }
      if |ready| > 0 && |ready| == eventsSize {
        eventsSize := eventsSize * 2;
      }
    }

    /** One entry of fillActiveChannels: the channel comes from the pointer the kernel kept. */
    method Fired(fd: int, revents: Mask) returns (channel: Channel)
      requires Valid() && fd in kernel
      modifies known`revents
      ensures Valid() && Whole() == old(Whole())
      ensures channel in known && channel.fd == fd && channel.index == Added && channel.revents == revents
      ensures forall c :: c in known && c != channel ==> c.revents == old(c.revents)
    {
      KernelTargets(fd);
      channel := kernel[fd].target;
      channel.revents := revents;
    }

    /** What the kernel hands back as `data.ptr` is a registered channel of this loop. */
    lemma KernelTargets(fd: int)
      requires Valid() && fd in kernel
      ensures kernel[fd].target in known && kernel[fd].target.fd == fd && kernel[fd].target.index == Added
      ensures kernel[fd].target == channels[fd] && kernel[fd].mask == kernel[fd].target.events
    {}
  }
}
