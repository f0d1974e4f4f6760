/** Publishing a new thread's loop: startLoop and threadFunc of EventLoopThread.cc, two threads
  * over one mutex, one condition variable and the pointer `loop_`. */
module LoopThreads {
  /** startLoop after thread_.start(): about to lock, holding the mutex, in cond_.wait, done. */
  datatype Starter = Calling | Holding | Asleep | Returned(published: bool)

  /** threadFunc: building the loop and running the callback, about to lock, holding the mutex
    * before and after storing `loop_`, inside loop(), back from it, and finished. */
  datatype Worker = Building | Ready | Publishing | Notifying | Looping | Leaving | Gone

  /** `published`: loop_ is not null. */
  datatype Start = Start(starter: Starter, worker: Worker, published: bool)

  datatype Step = Lock | Test | Spurious | Built | WorkerLock | Publish | Notify | LoopReturns | Clear

  const INITIAL := Start(Calling, Building, false)

  predicate Locked(s: Start) { s.starter == Holding || s.worker in {Publishing, Notifying} }

  predicate Enabled(s: Start, x: Step) {
    match x
    case Lock => s.starter == Calling && !Locked(s)
    case Test => s.starter == Holding
    case Spurious => s.starter == Asleep
    case Built => s.worker == Building
    case WorkerLock => s.worker == Ready && !Locked(s)
    case Publish => s.worker == Publishing
    case Notify => s.worker == Notifying
    case LoopReturns => s.worker == Looping
    case Clear => s.worker == Leaving && !Locked(s)
  }

  function Apply(s: Start, x: Step): Start {
    match x
    case Lock => s.(starter := Holding)
    case Test => s.(starter := if s.published then Returned(s.published) else Asleep)
    case Spurious => s.(starter := Calling)
    case Built => s.(worker := Ready)
    case WorkerLock => s.(worker := Publishing)
    case Publish => s.(worker := Notifying, published := true)
    case Notify => s.(worker := Looping, starter := if s.starter == Asleep then Calling else s.starter)
    case LoopReturns => s.(worker := Leaving)
    case Clear => s.(worker := Gone, published := false)
  }

  predicate Allowed(s: Start, xs: seq<Step>)
    decreases |xs|
  {
    xs == [] || (Enabled(s, xs[0]) && Allowed(Apply(s, xs[0]), xs[1..]))
  }

  function Run(s: Start, xs: seq<Step>): Start
    decreases |xs|
  {
    if xs == [] then s else Run(Apply(s, xs[0]), xs[1..])
  }

  /** The loop ended, and `loop_` was cleared, before the starter saw it. */
  predicate TooLate(s: Start) { s.worker == Gone && !s.starter.Returned? }

  ghost predicate Inv(s: Start) {
    && (s.published <==> s.worker == Notifying || s.worker == Looping || s.worker == Leaving)
    && !(s.starter == Holding && (s.worker == Publishing || s.worker == Notifying))
    && (s.starter == Asleep ==> s.worker != Looping && s.worker != Leaving)
    && (s.starter.Returned? ==> s.starter.published)
  }

  lemma ApplyKeepsInv(s: Start, x: Step)
    requires Inv(s) && Enabled(s, x)
    ensures Inv(Apply(s, x))
  {}

  lemma {:induction false} RunKeepsInv(s: Start, xs: seq<Step>)
    requires Inv(s) && Allowed(s, xs)
    ensures Inv(Run(s, xs))
    decreases |xs|
  {
    if xs != [] {
      ApplyKeepsInv(s, xs[0]);
      RunKeepsInv(Apply(s, xs[0]), xs[1..]);
    }
  }

  /** startLoop never returns null, and it never sleeps through the publication: once the
    * notification has been sent, a sleeping starter means that the loop is already over. */
  lemma StartIsNotMissed(xs: seq<Step>)
    requires Allowed(INITIAL, xs)
    ensures var s := Run(INITIAL, xs);
      && (s.starter.Returned? ==> s.starter.published)
      && !(s.starter == Asleep && (s.worker == Looping || s.worker == Leaving))
      && (s.starter == Asleep && s.published ==> s.worker == Notifying)
  {
    RunKeepsInv(INITIAL, xs);
  }

  /** A schedule that lets the starter return. */
  function Pick(s: Start): Step {
    if s.starter == Holding then Test
    else match s.worker
      case Building => Built
      case Ready => WorkerLock
      case Publishing => Publish
      case Notifying => Notify
      case _ => Lock
  }

  function Remaining(s: Start): nat {
    (match s.worker case Building => 12 case Ready => 9 case Publishing => 6 case Notifying => 3 case _ => 0)
    + (match s.starter case Calling => 2 case Holding => 1 case Asleep => 0 case Returned(_) => 0)
  }

  lemma {:induction false} CanReturn(s: Start) returns (xs: seq<Step>)
    requires Inv(s) && !TooLate(s)
    ensures Allowed(s, xs) && Run(s, xs).starter.Returned?
    decreases Remaining(s)
  {
    if s.starter.Returned? {
      xs := [];
    } else {
      var x := Pick(s);
      var rest := CanReturn(Apply(s, x));
      xs := [x] + rest;
      assert xs[1..] == rest;
    }
  }

  lemma {:induction false} StaysTooLate(s: Start, xs: seq<Step>)
    requires TooLate(s) && Inv(s) && Allowed(s, xs)
    ensures TooLate(Run(s, xs))
    decreases |xs|
  {
    if xs != [] { StaysTooLate(Apply(s, xs[0]), xs[1..]); }
  }

  ghost predicate Returns(s: Start, xs: seq<Step>) { Allowed(s, xs) && Run(s, xs).starter.Returned? }

  /** startLoop can still return exactly as long as the loop has not already come and gone. */
  lemma StartCanReturnIff(s: Start)
    requires Inv(s)
    ensures (exists xs :: Returns(s, xs)) <==> !TooLate(s)
  {
    if TooLate(s) {
      forall xs ensures !Returns(s, xs) {
        if Allowed(s, xs) { StaysTooLate(s, xs); }
      }
    } else {
      var xs := CanReturn(s);
      assert Returns(s, xs);
    }
  }

  lemma RunFrom(s: Start, x: Step, rest: seq<Step>)
    ensures Run(s, [x] + rest) == Run(Apply(s, x), rest)
    ensures Allowed(s, [x] + rest) <==> Enabled(s, x) && Allowed(Apply(s, x), rest)
  {}

  /** ... and that does happen: a loop that quits at once can leave its starter waiting for ever. */
  lemma LateStarterExists() returns (xs: seq<Step>)
    ensures Allowed(INITIAL, xs) && TooLate(Run(INITIAL, xs))
  {
    RunFrom(Start(Calling, Leaving, true), Clear, []);
    RunFrom(Start(Calling, Looping, true), LoopReturns, [Clear]);
    RunFrom(Start(Calling, Notifying, true), Notify, [LoopReturns] + [Clear]);
    RunFrom(Start(Calling, Publishing, false), Publish, [Notify] + ([LoopReturns] + [Clear]));
    RunFrom(Start(Calling, Ready, false), WorkerLock, [Publish] + ([Notify] + ([LoopReturns] + [Clear])));
    xs := [Built] + ([WorkerLock] + ([Publish] + ([Notify] + ([LoopReturns] + [Clear]))));
    RunFrom(INITIAL, Built, [WorkerLock] + ([Publish] + ([Notify] + ([LoopReturns] + [Clear]))));
    assert [Clear] + [] == [Clear];
  }
}
