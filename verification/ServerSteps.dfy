/** What carries the invariant over a step: frames, and the steps of one loop's own protocol. */
module ServerSteps {
  import opened Polling
  import opened Connections
  import opened Servers
  import opened ServerInvariant
  import EL = EventLoops

  // ---------------------------------------------------------------- frames

  ghost predicate SameConns(s: Server, t: Server) {
    && t.cfg == s.cfg && t.conns == s.conns && t.homes == s.homes && t.tables == s.tables && t.next == s.next
    && |t.loops| == |s.loops| && |t.workers| == |s.workers|
  }

  ghost predicate SameMap(s: Server, t: Server) { t.names == s.names && t.erased == s.erased }

  /** References are only copied from references: nothing destroyed comes back. */
  ghost predicate NoNewHolds(s: Server, t: Server) { forall c: Id :: Held(t, c) ==> Held(s, c) }

  lemma HoldsFrom(s: Server, t: Server)
    requires |t.loops| == |s.loops| && |t.workers| == |s.workers|
    requires t.names.Values <= s.names.Values
    requires forall c :: c in t.user ==> Held(s, c)
    requires forall j, c: Id :: 0 <= j < |t.loops| && LoopMentions(t.loops[j], c) ==> Held(s, c)
    requires forall i, c: Id :: 0 <= i < |t.workers| && TodoMentions(t.workers[i].todo, c) ==> Held(s, c)
    ensures NoNewHolds(s, t)
  {}

  lemma HeldHere(s: Server)
    ensures forall j, c: Id :: 0 <= j < |s.loops| && LoopMentions(s.loops[j], c) ==> Held(s, c)
    ensures forall i, c: Id :: 0 <= i < |s.workers| && TodoMentions(s.workers[i].todo, c) ==> Held(s, c)
    ensures forall i, t, c: Id :: 0 <= i < |s.workers| && t in s.workers[i].todo && TaskMentions(t, c) ==> Held(s, c)
  {}

  /** Steps that leave connections and tables alone keep everything said about them. */
  lemma ConnsFramed(s: Server, t: Server)
    requires Inv(s) && SameConns(s, t) && NoNewHolds(s, t)
    ensures ConnsOk(t) && TablesOk(t) && FdsOk(t) && Bounded(t)
  {
    forall i | 0 <= i < |t.tables| ensures TableOk(t, i) { assert TableOk(s, i); }
  }

  lemma NamesFramed(s: Server, t: Server)
    requires Inv(s) && SameConns(s, t) && SameMap(s, t)
    ensures NamesOk(t)
  {}

  // ---------------------------------------------------------------- one loop moves

  /** How a protocol event changes what is due on a loop. */
  lemma DueAfter(l: EL.Loop<Functor>, e: EL.Event<Functor>)
    requires EL.Orderly(l) && EL.Enabled(l, e)
    ensures var l' := EL.Apply(l, e);
      EL.Outstanding(l') ==
        if e.Enqueue? || e.OwnEnqueue? then EL.Outstanding(l) + [e.f]
        else if e.RunNext? then EL.Outstanding(l)[1..]
        else EL.Outstanding(l)
    ensures EL.Orderly(EL.Apply(l, e))
    ensures e.RunNext? ==> EL.Outstanding(l) == [l.batch[l.next]] + EL.Outstanding(l)[1..]
  {
    EL.ApplyOrderly(l, e);
    if e.Enqueue? || e.OwnEnqueue? { PushAfter(l, e); } else { RestAfter(l, e); }
  }

  lemma PushAfter(l: EL.Loop<Functor>, e: EL.Event<Functor>)
    requires EL.Orderly(l) && EL.Enabled(l, e) && (e.Enqueue? || e.OwnEnqueue?)
    ensures EL.Outstanding(EL.Apply(l, e)) == EL.Outstanding(l) + [e.f]
  {}

  lemma RestAfter(l: EL.Loop<Functor>, e: EL.Event<Functor>)
    requires EL.Orderly(l) && EL.Enabled(l, e) && !e.Enqueue? && !e.OwnEnqueue?
    ensures e.RunNext? ==> EL.Outstanding(l) == [l.batch[l.next]] + EL.Outstanding(EL.Apply(l, e))
    ensures !e.RunNext? ==> EL.Outstanding(EL.Apply(l, e)) == EL.Outstanding(l)
  {}

  /** A step of loop `j` that neither pushes nor takes a functor changes nothing but that loop. */
  predicate Silent(e: EL.Event<Functor>) { !e.Enqueue? && !e.OwnEnqueue? && !e.RunNext? }

  lemma SilentLoopHolds(s: Server, j: nat, e: EL.Event<Functor>)
    requires j < |s.loops| && Silent(e)
    ensures NoNewHolds(s, WithLoop(s, j, e))
  {}

  /** ... so everything said about queues and tokens is as it was. */
  ghost predicate SameDue(s: Server, t: Server) {
    && |t.loops| == |s.loops|
    && forall k :: 0 <= k < |s.loops| ==>
      (t.loops[k].next <= |t.loops[k].batch| <==> s.loops[k].next <= |s.loops[k].batch|)
      && (s.loops[k].next <= |s.loops[k].batch| ==> EL.Outstanding(t.loops[k]) == EL.Outstanding(s.loops[k]))
  }

  ghost predicate SameTodos(s: Server, t: Server) {
    |t.workers| == |s.workers| && forall i :: 0 <= i < |s.workers| ==> t.workers[i].todo == s.workers[i].todo
  }

  lemma DueFramed(s: Server, t: Server)
    requires DueOk(s) && SameConns(s, t) && SameDue(s, t)
    ensures DueOk(t)
  {
    forall j, f | 0 <= j < |t.loops| && Due(t.loops[j], f) ensures FunctorOk(t, f) && Target(t, f) == j {
      assert Due(s.loops[j], f);
      assert FunctorOk(s, f) && Target(s, f) == j;
    }
  }

  lemma EstablishFramed(s: Server, t: Server)
    requires WellFormed(s) && WellFormed(t) && EstablishOnce(s) && SameConns(s, t) && SameDue(s, t) && SameTodos(s, t)
    ensures EstablishOnce(t)
  {}

  lemma DoomFramed(s: Server, t: Server)
    requires WellFormed(s) && WellFormed(t) && DoomOk(s) && SameConns(s, t) && SameDue(s, t) && SameTodos(s, t)
    requires SameMap(s, t)
    ensures DoomOk(t)
  {}

  lemma SilentDue(s: Server, j: nat, e: EL.Event<Functor>)
    requires LoopsOk(s) && j < |s.loops| && Silent(e) && EL.Enabled(s.loops[j], e)
    ensures SameDue(s, WithLoop(s, j, e)) && LoopsOk(WithLoop(s, j, e))
  {
    DueAfter(s.loops[j], e);
    EL.ApplyKeepsInv(s.loops[j], e);
  }

  /** All parts of the invariant that only read connections, tokens, queues and the map. */
  ghost predicate Core(s: Server) {
    && WellFormed(s) && LoopsOk(s) && DueOk(s) && EstablishOnce(s) && DoomOk(s) && NamesOk(s)
    && ConnsOk(s) && TablesOk(s) && FdsOk(s) && Bounded(s)
  }

  lemma InvParts(s: Server)
    ensures Inv(s) <==> Core(s) && TodosOk(s) && WakersOk(s) && ActiveOk(s) && !s.fault
  {}

  lemma SilentCore(s: Server, t: Server)
    requires Inv(s) && SameConns(s, t) && SameMap(s, t) && SameDue(s, t) && SameTodos(s, t) && LoopsOk(t)
    requires NoNewHolds(s, t)
    ensures Core(t)
  {
    hide LoopsOk, DueOk, TodosOk, WakersOk, ActiveOk, DoomOk, NamesOk, ConnsOk, TablesOk, FdsOk, Bounded, EstablishOnce,
      SameDue, SameTodos, NoNewHolds;
    DueFramed(s, t);
    EstablishFramed(s, t);
    DoomFramed(s, t);
    ConnsFramed(s, t);
    NamesFramed(s, t);
  }

  // ---------------------------------------------------------------- steps of one loop

  lemma QuietTodos(s: Server, i: nat, e: EL.Event<Functor>)
    requires WellFormed(s) && TodosOk(s) && WakersOk(s) && ActiveOk(s) && Enabled(s, Local(i, e))
    ensures TodosOk(WithLoop(s, i, e)) && WakersOk(WithLoop(s, i, e)) && ActiveOk(WithLoop(s, i, e))
  {
    var t := WithLoop(s, i, e);
    assert TodoOk(s, i);
    forall k | 0 <= k < |t.workers| ensures TodoOk(t, k) {
      assert TodoOk(s, k);
      assert t.loops[k].pc == s.loops[k].pc || t.workers[k].todo == [];
    }
    assert t.loops[i].wakers == s.loops[i].wakers;
    assert t.loops[i].pc == EL.Dispatching ==> s.loops[i].pc == EL.Dispatching;
  }

  lemma LocalStep(s: Server, i: nat, e: EL.Event<Functor>)
    requires Inv(s) && Enabled(s, Local(i, e))
    ensures Inv(Move(s, Local(i, e)))
  {
    hide LoopsOk, DueOk, TodosOk, WakersOk, ActiveOk, DoomOk, NamesOk, ConnsOk, TablesOk, FdsOk, Bounded, EstablishOnce,
      SameDue, NoNewHolds, Core;
    var t := WithLoop(s, i, e);
    InvParts(s);
    SilentDue(s, i, e);
    SilentLoopHolds(s, i, e);
    SilentCore(s, t);
    QuietTodos(s, i, e);
    InvParts(t);
  }

  lemma OutsideTodos(s: Server, th: EL.Thread, j: nat, e: EL.Event<Functor>)
    requires WellFormed(s) && TodosOk(s) && WakersOk(s) && ActiveOk(s) && Enabled(s, External(th, j, e))
    ensures TodosOk(WithLoop(s, j, e)) && WakersOk(WithLoop(s, j, e)) && ActiveOk(WithLoop(s, j, e))
  {
    var t := WithLoop(s, j, e);
    forall k | 0 <= k < |t.workers| ensures TodoOk(t, k) { assert TodoOk(s, k); }
  }

  lemma OutsideStep(s: Server, th: EL.Thread, j: nat, e: EL.Event<Functor>)
    requires Inv(s) && Enabled(s, External(th, j, e)) && !e.Enqueue?
    ensures Inv(Move(s, External(th, j, e)))
  {
    hide LoopsOk, DueOk, TodosOk, WakersOk, ActiveOk, DoomOk, NamesOk, ConnsOk, TablesOk, FdsOk, Bounded, EstablishOnce,
      SameDue, NoNewHolds, Core;
    var t := WithLoop(s, j, e);
    InvParts(s);
    SilentDue(s, j, e);
    SilentLoopHolds(s, j, e);
    SilentCore(s, t);
    OutsideTodos(s, th, j, e);
    InvParts(t);
  }

  lemma ReadyPresent(s: Server, i: nat, ready: seq<(int, Mask)>)
    requires Inv(s) && i < |s.tables| && forall k :: 0 <= k < |ready| ==> ready[k].0 in s.tables[i].kernel
    ensures forall x :: x in Targets(s.tables[i], ready) ==> Present(s, i, x.0)
  {
    var active := Targets(s.tables[i], ready);
    forall x | x in active ensures Present(s, i, x.0) {
      var k :| 0 <= k < |active| && active[k] == x;
      var fd := ready[k].0;
      assert TableOk(s, i);
      var c := s.tables[i].channels[fd];
      RegisteredIsHeld(s, c);
      assert Registered(s.tables[i], c, s.conns[c].chan);
    }
  }

  lemma PollTodos(s: Server, i: nat, t: Server, active: seq<(Id, Mask)>)
    requires WellFormed(s) && TodosOk(s) && WakersOk(s) && ActiveOk(s) && i < |s.loops| && s.loops[i].pc == EL.Polling
    requires exists w :: t == (var u := WithLoop(s, i, EL.PollReturn(w));
      u.(workers := u.workers[i := Worker(active, u.workers[i].todo)]))
    requires forall x :: x in active ==> Present(s, i, x.0)
    ensures TodosOk(t) && WakersOk(t) && ActiveOk(t)
  {
    assert TodoOk(s, i);
    forall k | 0 <= k < |t.workers| ensures TodoOk(t, k) { assert TodoOk(s, k); }
    forall k, j | 0 <= k < |t.workers| && 0 <= j < |t.loops|
      ensures k in t.loops[j].wakers <==> AboutToWake(t.workers[k], j)
    {
      assert AboutToWake(t.workers[k], j) <==> AboutToWake(s.workers[k], j);
    }
  }

  lemma PollStep(s: Server, i: nat, wake: bool, ready: seq<(int, Mask)>)
    requires Inv(s) && Enabled(s, Poll(i, wake, ready))
    ensures Inv(Move(s, Poll(i, wake, ready)))
  {
    hide LoopsOk, DueOk, TodosOk, WakersOk, ActiveOk, DoomOk, NamesOk, ConnsOk, TablesOk, FdsOk, Bounded,
      EstablishOnce, Core;
    var u := WithLoop(s, i, EL.PollReturn(wake));
    var active := Targets(s.tables[i], ready);
    var t := u.(workers := u.workers[i := Worker(active, u.workers[i].todo)]);
    InvParts(s);
    SilentDue(s, i, EL.PollReturn(wake));
    SilentLoopHolds(s, i, EL.PollReturn(wake));
    SameLoopsOk(u, t);
    HeldHere(u);
    HoldsFrom(u, t);
    SilentCore(s, t);
    ReadyPresent(s, i, ready);
    PollTodos(s, i, t, active);
    InvParts(t);
  }

  lemma SameLoopsOk(u: Server, t: Server)
    requires LoopsOk(u) && t.loops == u.loops
    ensures LoopsOk(t)
  {}
}
