/** Steps that work on a loop thread's list of tasks. */
module ServerTasks {
  import opened Polling
  import opened Connections
  import opened Servers
  import opened ServerInvariant
  import opened ServerSteps
  import EL = EventLoops

  // ---------------------------------------------------------------- replacing tasks

  /** Worker `i` goes on with `added` before `kept`, which is its old list or the tail of it. */
  ghost predicate Replaced(s: Server, t: Server, i: nat, added: seq<Task>, kept: seq<Task>) {
    && i < |s.workers| && |t.loops| == |s.loops|
    && (kept == s.workers[i].todo || (s.workers[i].todo != [] && kept == s.workers[i].todo[1..]))
    && t.workers == s.workers[i := s.workers[i].(todo := added + kept)]
  }

  /** The next task of worker `i` is `x`. */
  predicate Heads(s: Server, i: nat, x: Task) {
    i < |s.workers| && s.workers[i].todo != [] && s.workers[i].todo[0] == x
  }

  /** What the tokens and tasks of other connections can see of a connection. */
  ghost predicate SamePhase(s: Server, t: Server) {
    && t.cfg == s.cfg && t.homes == s.homes && |t.conns| == |s.conns|
    && forall c :: 0 <= c < |s.conns| ==>
      && (s.conns[c].state == Connecting <==> t.conns[c].state == Connecting)
      && (s.conns[c].state == Disconnected <==> t.conns[c].state == Disconnected)
      && (s.conns[c].chan.index == New <==> t.conns[c].chan.index == New)
  }

  ghost predicate SamePcs(s: Server, t: Server) {
    |t.loops| == |s.loops| && forall k :: 0 <= k < |s.loops| ==> t.loops[k].pc == s.loops[k].pc
  }

  ghost predicate SameWakers(s: Server, t: Server) {
    |t.loops| == |s.loops| && forall k :: 0 <= k < |s.loops| ==> t.loops[k].wakers == s.loops[k].wakers
  }

  /** Tasks that carry no commitment to establish, remove or destroy a connection. */
  predicate Plain(t: Task) {
    match t
    case Call(f) => f.Callback?
    case Queue(f) => f.Callback?
    case CloseCallback(_) => false
    case _ => true
  }

  ghost predicate KeepsTasks(s: Server, t: Server)
    requires |t.workers| == |s.workers| == |s.loops| == |t.loops|
  {
    forall k, x :: 0 <= k < |s.workers| && x in s.workers[k].todo && TaskOk(s, k, x) ==> TaskOk(t, k, x)
  }

  /** Connections only move on: closed ones stay closed, registered ones stay registered. */
  ghost predicate Onward(s: Server, t: Server) {
    && t.cfg == s.cfg && t.homes == s.homes && |t.conns| == |s.conns|
    && forall c :: 0 <= c < |s.conns| ==>
      && (s.conns[c].state == Disconnected ==> t.conns[c].state == Disconnected)
      && (s.conns[c].chan.index != New ==> t.conns[c].chan.index != New)
  }

  lemma OnwardKeepsTasks(s: Server, t: Server)
    requires |t.workers| == |s.workers| == |s.loops| && Onward(s, t) && SamePcs(s, t)
    ensures KeepsTasks(s, t)
  {}

  lemma ReplacedTodos(s: Server, t: Server, i: nat, added: seq<Task>, kept: seq<Task>)
    requires TodosOk(s) && Replaced(s, t, i, added, kept) && SamePcs(s, t) && KeepsTasks(s, t)
    requires forall x :: x in added ==> TaskOk(t, i, x)
    requires forall x :: x in (added + kept)[if added + kept == [] then 0 else 1..] ==> !x.WriteWake?
    requires added + kept != [] ==> s.loops[i].pc in {EL.Dispatching, EL.Running}
    ensures TodosOk(t)
  {
    assert TodoOk(s, i);
    forall k | 0 <= k < |t.workers| ensures TodoOk(t, k) {
      assert TodoOk(s, k);
    }
  }

  lemma ReplacedWakers(s: Server, t: Server, i: nat, added: seq<Task>, kept: seq<Task>)
    requires WakersOk(s) && Replaced(s, t, i, added, kept) && SameWakers(s, t)
    requires s.workers[i].todo != [] ==> !s.workers[i].todo[0].WriteWake?
    requires added + kept != [] ==> !(added + kept)[0].WriteWake?
    ensures WakersOk(t)
  {}

  lemma ActiveFramed(s: Server, t: Server)
    requires ActiveOk(s) && Onward(s, t) && SamePcs(s, t) && |t.workers| == |s.workers|
    requires forall k :: 0 <= k < |s.workers| ==> t.workers[k].active == s.workers[k].active
    ensures ActiveOk(t)
  {}

  lemma DuePhaseFramed(s: Server, t: Server)
    requires DueOk(s) && Onward(s, t) && SameDue(s, t)
    ensures DueOk(t)
  {
    forall j, f | 0 <= j < |t.loops| && Due(t.loops[j], f) ensures FunctorOk(t, f) && Target(t, f) == j {
      assert Due(s.loops[j], f);
      assert FunctorOk(s, f) && Target(s, f) == j;
    }
  }

  lemma NamesPhaseFramed(s: Server, t: Server)
    requires NamesOk(s) && Onward(s, t) && SameMap(s, t)
    ensures NamesOk(t)
  {}

  lemma TailCount(todo: seq<Task>, added: seq<Task>, x: Task)
    requires todo != []
    ensures multiset(added + todo[1..])[x] == multiset(added)[x] + multiset(todo)[x] - (if todo[0] == x then 1 else 0)
    ensures x in todo && x != todo[0] ==> x in added + todo[1..]
    ensures x in todo[1..] ==> x in todo
  {
    assert todo == [todo[0]] + todo[1..];
  }

  lemma NotAmong(added: seq<Task>, x: Task)
    requires x !in added
    ensures multiset(added)[x] == 0
  {}

  /** Replacing plain tasks by plain tasks disturbs no commitment. */
  lemma PlainTokens(s: Server, t: Server, i: nat, added: seq<Task>, kept: seq<Task>)
    requires WellFormed(s) && WellFormed(t) && Replaced(s, t, i, added, kept)
    requires SamePhase(s, t) && SameDue(s, t) && SameMap(s, t)
    requires forall x :: x in added ==> Plain(x)
    requires kept != s.workers[i].todo ==> Plain(s.workers[i].todo[0])
    requires EstablishOnce(s) && DoomOk(s)
    ensures EstablishOnce(t) && DoomOk(t)
  {
    forall x: Task | !Plain(x)
      ensures multiset(t.workers[i].todo)[x] == multiset(s.workers[i].todo)[x]
      ensures x in t.workers[i].todo <==> x in s.workers[i].todo
    {
      NotAmong(added, x);
      if kept != s.workers[i].todo { TailCount(s.workers[i].todo, added, x); }
    }
    PlainEstablish(s, t, i);
    PlainDoom(s, t, i);
  }

  ghost predicate SameCommitments(s: Server, t: Server, i: nat)
    requires i < |s.workers| && i < |t.workers|
  {
    forall x: Task :: !Plain(x) ==>
      && multiset(t.workers[i].todo)[x] == multiset(s.workers[i].todo)[x]
      && (x in t.workers[i].todo <==> x in s.workers[i].todo)
  }

  lemma PlainEstablish(s: Server, t: Server, i: nat)
    requires WellFormed(s) && WellFormed(t) && i < |s.workers| == |t.workers| && SamePhase(s, t) && SameDue(s, t)
    requires SameCommitments(s, t, i)
    requires forall k :: 0 <= k < |s.workers| && k != i ==> t.workers[k].todo == s.workers[k].todo
    requires EstablishOnce(s)
    ensures EstablishOnce(t)
  {}

  lemma PlainDoom(s: Server, t: Server, i: nat)
    requires WellFormed(s) && WellFormed(t) && i < |s.workers| == |t.workers| && SamePhase(s, t) && SameDue(s, t)
    requires SameMap(s, t)
    requires SameCommitments(s, t, i)
    requires forall k :: 0 <= k < |s.workers| && k != i ==> t.workers[k].todo == s.workers[k].todo
    requires DoomOk(s)
    ensures DoomOk(t)
  {
    forall c | 0 <= c < |t.conns| && t.conns[c].state == Disconnected ensures Doomed(t, c) {
      assert Doomed(s, c);
      assert !Plain(CloseCallback(c)) && !Plain(Queue(RemoveConn(c))) && !Plain(Call(RemoveConn(c)));
      assert !Plain(Queue(DestroyConn(c))) && !Plain(Call(DestroyConn(c)));
      assert forall k, f :: 0 <= k < |s.loops| ==> (Due(t.loops[k], f) <==> Due(s.loops[k], f));
    }
  }

  lemma ReplacedHolds(s: Server, t: Server, i: nat, added: seq<Task>, kept: seq<Task>)
    requires Replaced(s, t, i, added, kept)
    requires t.names.Values <= s.names.Values && t.user == s.user
    requires forall x, d: Id :: x in added && TaskMentions(x, d) ==> Held(s, d)
    requires forall k, c: Id :: 0 <= k < |t.loops| && LoopMentions(t.loops[k], c) ==> Held(s, c)
    ensures NoNewHolds(s, t)
  {}

  // ---------------------------------------------------------------- steps about one connection

  /** Worker `i` loses and gains only tasks about connection `c`. */
  ghost predicate OnlyAbout(s: Server, t: Server, i: nat, c: Id) {
    && |t.workers| == |s.workers| && i < |s.workers|
    && (forall k :: 0 <= k < |s.workers| && k != i ==> t.workers[k].todo == s.workers[k].todo)
    && (forall x: Task :: !TaskMentions(x, c) && !x.WriteWake? ==>
          multiset(t.workers[i].todo)[x] == multiset(s.workers[i].todo)[x])
  }

  lemma ReplacedOnlyAbout(s: Server, t: Server, i: nat, added: seq<Task>, kept: seq<Task>, c: Id)
    requires Replaced(s, t, i, added, kept)
    requires forall x :: x in added ==> TaskMentions(x, c) || x.WriteWake?
    requires kept != s.workers[i].todo ==> TaskMentions(s.workers[i].todo[0], c) || s.workers[i].todo[0].WriteWake?
    ensures OnlyAbout(s, t, i, c)
  {
    forall x: Task | !TaskMentions(x, c) && !x.WriteWake?
      ensures multiset(t.workers[i].todo)[x] == multiset(s.workers[i].todo)[x]
    {
      NotAmong(added, x);
      if kept != s.workers[i].todo { TailCount(s.workers[i].todo, added, x); }
    }
  }

  /** The queues change only by functors about `c`. */
  ghost predicate DueOnlyAbout(s: Server, t: Server, c: Id) {
    && |t.loops| == |s.loops|
    && forall k, f: Functor :: 0 <= k < |s.loops| && f.c != c ==>
      && (Due(t.loops[k], f) <==> Due(s.loops[k], f))
      && s.loops[k].next <= |s.loops[k].batch| && t.loops[k].next <= |t.loops[k].batch|
      && multiset(EL.Outstanding(t.loops[k]))[f] == multiset(EL.Outstanding(s.loops[k]))[f]
  }

  lemma SameDueOnlyAbout(s: Server, t: Server, c: Id)
    requires LoopsOk(s) && SameDue(s, t)
    ensures DueOnlyAbout(s, t, c)
  {}

  ghost predicate OthersUnchanged(s: Server, t: Server, c: Id) {
    && t.homes == s.homes && |t.conns| == |s.conns|
    && (forall d :: 0 <= d < |s.conns| && d != c ==> t.conns[d] == s.conns[d])
    && (forall d: Id :: d != c ==> (d in t.erased <==> d in s.erased))
  }

  lemma EstablishOther(s: Server, t: Server, i: nat, c: Id, d: Id)
    requires WellFormed(s) && WellFormed(t) && d < |s.conns| && d != c
    requires OnlyAbout(s, t, i, c) && DueOnlyAbout(s, t, c) && OthersUnchanged(s, t, c)
    ensures Establishing(t, d) == Establishing(s, d)
  {
    hide EL.Outstanding, Due;
    var e := EstablishConn(d);
    assert e.c != c && !TaskMentions(Queue(e), c) && !TaskMentions(Call(e), c);
  }

  lemma EstablishElsewhere(s: Server, t: Server, i: nat, c: Id)
    requires WellFormed(s) && WellFormed(t) && EstablishOnce(s)
    requires OnlyAbout(s, t, i, c) && DueOnlyAbout(s, t, c) && OthersUnchanged(s, t, c)
    requires c < |s.conns| ==> Establishing(t, c) == if t.conns[c].state == Connecting then 1 else 0
    ensures EstablishOnce(t)
  {
    hide Establishing, OnlyAbout, DueOnlyAbout, WellFormed;
    forall d | 0 <= d < |t.conns| ensures Establishing(t, d) == if t.conns[d].state == Connecting then 1 else 0 {
      if d != c { EstablishOther(s, t, i, c, d); }
    }
  }

  lemma SameTask(s: Server, t: Server, i: nat, c: Id, k: nat, x: Task)
    requires OnlyAbout(s, t, i, c) && k < |s.workers| && !TaskMentions(x, c) && !x.WriteWake?
    ensures x in t.workers[k].todo <==> x in s.workers[k].todo
  {}

  lemma DoomOther(s: Server, t: Server, i: nat, c: Id, d: Id)
    requires WellFormed(s) && WellFormed(t) && d < |s.conns| && d != c && Doomed(s, d)
    requires OnlyAbout(s, t, i, c) && DueOnlyAbout(s, t, c) && OthersUnchanged(s, t, c)
    ensures Doomed(t, d)
  {
    hide OnlyAbout, Due;
    var h := s.homes[d];
    SameTask(s, t, i, c, h, CloseCallback(d));
    SameTask(s, t, i, c, h, Queue(RemoveConn(d)));
    SameTask(s, t, i, c, 0, Call(RemoveConn(d)));
    SameTask(s, t, i, c, 0, Queue(DestroyConn(d)));
    SameTask(s, t, i, c, h, Call(DestroyConn(d)));
    assert RemoveConn(d).c != c && DestroyConn(d).c != c;
  }

  lemma DoomElsewhere(s: Server, t: Server, i: nat, c: Id)
    requires WellFormed(s) && WellFormed(t) && DoomOk(s)
    requires OnlyAbout(s, t, i, c) && DueOnlyAbout(s, t, c) && OthersUnchanged(s, t, c)
    requires c < |s.conns| && t.conns[c].state == Disconnected ==> Doomed(t, c)
    ensures DoomOk(t)
  {
    hide Doomed, OnlyAbout, DueOnlyAbout;
    forall d | 0 <= d < |t.conns| && t.conns[d].state == Disconnected ensures Doomed(t, d) {
      if d != c { DoomOther(s, t, i, c, d); }
    }
  }

  // ---------------------------------------------------------------- handlers of one connection

  lemma OtherRegistered(s: Server, i: nat, c: Id, d: Id, w: World<Id>)
    requires ConnsOk(s) && FdsOk(s) && i < |s.tables| && c < |s.conns| && d < |s.conns| && c != d && Held(s, c)
    requires Held(s, d)
    requires s.homes[d] == i && SameElsewhere(s.tables[i], w.tables, s.conns[c].chan.fd)
    ensures Registered(w.tables, d, s.conns[d].chan)
  {}

  lemma HandlerTables(s: Server, i: nat, c: Id, w: World<Id>, todo: seq<Task>)
    requires WellFormed(s) && TablesOk(s) && i < |s.tables| && c < |s.conns| && s.homes[c] == i
    requires !w.halted && !w.tables.failed && Registered(w.tables, c, w.conn.chan)
    requires w.conn.chan.fd == s.conns[c].chan.fd
    requires SameElsewhere(s.tables[i], w.tables, s.conns[c].chan.fd)
    ensures TablesOk(WithConn(s, i, c, w, todo))
  {
    var t := WithConn(s, i, c, w, todo);
    forall k | 0 <= k < |t.tables| ensures TableOk(t, k) {
      assert TableOk(s, k);
      forall fd | fd in t.tables[k].channels
        ensures Present(t, k, t.tables[k].channels[fd]) && t.conns[t.tables[k].channels[fd]].chan.fd == fd
      {
        if k != i || fd != s.conns[c].chan.fd {
          assert fd in s.tables[k].channels && t.tables[k].channels[fd] == s.tables[k].channels[fd];
        }
      }
      forall fd | fd in t.tables[k].kernel ensures fd in t.tables[k].channels {
        if k != i || fd != s.conns[c].chan.fd { assert fd in s.tables[k].kernel; }
      }
    }
  }

  /** A handler that behaves well for its own connection leaves every connection in order. */
  lemma HandlerConns(s: Server, i: nat, c: Id, w: World<Id>, todo: seq<Task>)
    requires Inv(s) && i < |s.tables| && c < |s.conns| && s.homes[c] == i && Held(s, c)
    requires !w.halted && Progress(WorldOf(s, i, c), w, c)
    requires NoNewHolds(s, WithConn(s, i, c, w, todo))
    ensures var t := WithConn(s, i, c, w, todo); ConnsOk(t) && TablesOk(t) && FdsOk(t) && Bounded(t)
  {
    var t := WithConn(s, i, c, w, todo);
    HandlerTables(s, i, c, w, todo);
    assert t.conns[c].chan.fd == s.conns[c].chan.fd;
    hide Sound, Registered, Held, TablesOk, SameElsewhere;
    HandlerFds(s, t);
    forall d | 0 <= d < |t.conns|
      ensures Sound(t.conns[d]) && (Held(t, d) ==> Registered(t.tables[t.homes[d]], d, t.conns[d].chan))
    {
      HandlerConn(s, i, c, w, todo, d);
    }
  }

  lemma HandlerFds(s: Server, t: Server)
    requires FdsOk(s) && Bounded(s) && NoNewHolds(s, t) && |t.conns| == |s.conns|
    requires forall d :: 0 <= d < |s.conns| ==> t.conns[d].chan.fd == s.conns[d].chan.fd
    ensures FdsOk(t) && Bounded(t)
  {}

  lemma HandlerConn(s: Server, i: nat, c: Id, w: World<Id>, todo: seq<Task>, d: Id)
    requires WellFormed(s) && ConnsOk(s) && FdsOk(s) && i < |s.tables| && c < |s.conns| && s.homes[c] == i && Held(s, c)
    requires !w.halted && Progress(WorldOf(s, i, c), w, c)
    requires NoNewHolds(s, WithConn(s, i, c, w, todo)) && d < |s.conns|
    ensures var t := WithConn(s, i, c, w, todo);
      Sound(t.conns[d]) && (Held(t, d) ==> Registered(t.tables[t.homes[d]], d, t.conns[d].chan))
  {
    hide Sound, Registered, Held, SameElsewhere;
    var t := WithConn(s, i, c, w, todo);
    if d != c && Held(t, d) && s.homes[d] == i { OtherRegistered(s, i, c, d, w); }
  }

  lemma WorldIsGood(s: Server, i: nat, c: Id)
    requires Inv(s) && c < |s.conns| && s.homes[c] == i && Held(s, c)
    ensures Good(WorldOf(s, i, c), c)
  {
    assert TableOk(s, i);
  }
}
