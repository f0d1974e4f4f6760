/** Two connections joined by a first-in first-out wire: what one user sends is what the
  * other user retrieves, through two buffers, two kernels and any splitting on the way. */
module Delivery {
  import opened Buffers
  import opened Polling
  import opened Connections
  import opened ConnectionTheorems

  datatype Link<A, B> = Link(left: World<A>, right: World<B>, wire: seq<byte>)

  datatype LinkEvent = AtLeft(e: Event) | AtRight(e: Event)

  /** The bytes a step adds to a history. */
  function Added(before: seq<byte>, after: seq<byte>): seq<byte> {
    if |before| <= |after| then after[|before|..] else []
  }

  function Incoming(e: Event): seq<byte> {
    if e.Ready? && (In in e.revents || Pri in e.revents) && e.read.Got? then e.read.data else []
  }

  predicate CanHappen<A, B>(l: Link<A, B>, x: LinkEvent) {
    match x
    case AtLeft(e) => Possible(l.left.conn, e)
    case AtRight(e) => Possible(l.right.conn, e) && Incoming(e) <= l.wire
  }

  function Next<A, B>(l: Link<A, B>, a: A, b: B, x: LinkEvent): Link<A, B>
    requires CanHappen(l, x)
  {
    match x
    case AtLeft(e) =>
      var left := Step(l.left, a, e);
      Link(left, l.right, l.wire + Added(l.left.conn.sent, left.conn.sent))
    case AtRight(e) =>
      Link(l.left, Step(l.right, b, e), l.wire[|Incoming(e)|..])
  }

  predicate RunOf<A, B>(l: Link<A, B>, a: A, b: B, xs: seq<LinkEvent>)
    decreases |xs|
  {
    xs == [] || (CanHappen(l, xs[0]) && RunOf(Next(l, a, b, xs[0]), a, b, xs[1..]))
  }

  function After<A, B>(l: Link<A, B>, a: A, b: B, xs: seq<LinkEvent>): Link<A, B>
    requires RunOf(l, a, b, xs)
    decreases |xs|
  {
    if xs == [] then l else After(Next(l, a, b, xs[0]), a, b, xs[1..])
  }

  ghost predicate Joined<A, B>(l: Link<A, B>, a: A, b: B) {
    && Good(l.left, a) && Good(l.right, b)
    && (!l.left.halted && !l.right.halted ==> l.left.conn.sent == l.right.conn.received + l.wire)
  }

  lemma {:induction false} CallbacksDoNotReceive<C>(w: World<C>, c: C, acts: seq<Action>)
    ensures DoAll(w, c, acts).conn.received == w.conn.received
    ensures w.halted ==> DoAll(w, c, acts).halted
    decreases |acts|
  {
    if acts != [] { CallbacksDoNotReceive(Do(w, c, acts[0]), c, acts[1..]); }
  }

  lemma StepReceives<C>(w: World<C>, c: C, e: Event)
    ensures var r := Step(w, c, e);
      !r.halted ==> !w.halted && r.conn.received == w.conn.received + Incoming(e)
  {
    match e
    case Established(acts) => CallbacksDoNotReceive(Establish(w, c), c, acts);
    case Task(acts) => CallbacksDoNotReceive(w, c, acts);
    case Destroyed(acts) =>
      CallbacksDoNotReceive(Touch(w.(conn := w.conn.(state := Disconnected)), c, DisableAll), c, acts);
    case Ready(_, _, _, _, _) =>
      CallbacksDoNotReceive(Close(w, c), c, e.closeActs);
      var w1 := OnClose(w, c, e);
      var w2 := if Err in e.revents then Halt(w1) else w1;
      CallbacksDoNotReceive(Read(w2, c, e.read), c, e.readActs);
      assert w2.conn.received == w.conn.received;
      var w3 := OnRead(w2, c, e);
      assert !w3.halted ==> w3.conn.received == w.conn.received + Incoming(e);
  }

  lemma NextJoined<A, B>(l: Link<A, B>, a: A, b: B, x: LinkEvent)
    requires Joined(l, a, b) && CanHappen(l, x)
    ensures Joined(Next(l, a, b, x), a, b)
  {
    hide Step, Good;
    match x
    case AtLeft(e) =>
      StepProgress(l.left, a, e);
      var left := Step(l.left, a, e);
      if !left.halted && !l.right.halted {
        assert left.conn.sent == l.left.conn.sent + Added(l.left.conn.sent, left.conn.sent);
        Reassociate(l.right.conn.received, l.wire, Added(l.left.conn.sent, left.conn.sent));
      }
    case AtRight(e) =>
      StepProgress(l.right, b, e);
      StepReceives(l.right, b, e);
      assert l.wire == Incoming(e) + l.wire[|Incoming(e)|..];
      Reassociate(l.right.conn.received, Incoming(e), l.wire[|Incoming(e)|..]);
  }

  lemma {:induction false} AfterJoined<A, B>(l: Link<A, B>, a: A, b: B, xs: seq<LinkEvent>)
    requires Joined(l, a, b) && RunOf(l, a, b, xs)
    ensures Joined(After(l, a, b, xs), a, b)
    decreases |xs|
  {
    if xs != [] {
      NextJoined(l, a, b, xs[0]);
      AfterJoined(Next(l, a, b, xs[0]), a, b, xs[1..]);
    }
  }

  /** End to end, at every moment: the bytes sent on the left are, in order, those already
    * retrieved on the right, those in its input buffer, those on the wire, and the backlog. */
  lemma InOrderDelivery<A, B>(l: Link<A, B>, a: A, b: B, xs: seq<LinkEvent>)
    requires Newborn(l.left, a) && Newborn(l.right, b) && l.wire == [] && RunOf(l, a, b, xs)
    ensures var r := After(l, a, b, xs); !r.left.halted && !r.right.halted ==>
      && r.left.conn.accepted == r.right.conn.consumed + r.right.conn.input + r.wire + r.left.conn.output
      && r.right.conn.consumed <= r.left.conn.accepted
  {
    AfterJoined(l, a, b, xs);
  }
}
