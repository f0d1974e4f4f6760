/** The loop protocol of module EventLoops, read off its event trace: where the loop is, what is
  * in its queue, its eventfd and its flags, each as a function of the events alone. */
module LoopTraces {
  import opened EventLoops

  /** What was queued, by whichever thread. */
  function Queued<F>(es: seq<Event<F>>): seq<F>
    decreases |es|
  {
    if es == [] then []
    else
      var before := Queued(es[..|es| - 1]);
      match es[|es| - 1]
      case Enqueue(_, f) => before + [f]
      case OwnEnqueue(f) => before + [f]
      case _ => before
  }

  /** How many of them had been queued at the last swap. */
  function Claimed<F>(es: seq<Event<F>>): nat
    decreases |es|
  {
    if es == [] then 0
    else if es[|es| - 1].Swap? then |Queued(es[..|es| - 1])|
    else Claimed(es[..|es| - 1])
  }

  function CallsMade<F>(es: seq<Event<F>>): nat
    decreases |es|
  {
    if es == [] then 0 else CallsMade(es[..|es| - 1]) + if es[|es| - 1].RunNext? then 1 else 0
  }

  function PollsEntered<F>(es: seq<Event<F>>): nat
    decreases |es|
  {
    if es == [] then 0 else PollsEntered(es[..|es| - 1]) + if es[|es| - 1].StartPoll? then 1 else 0
  }

  /** Writes to the eventfd since it was last read. */
  function Unread<F>(es: seq<Event<F>>): nat
    decreases |es|
  {
    if es == [] then 0
    else
      match es[|es| - 1]
      case Wake(_) => Unread(es[..|es| - 1]) + 1
      case OwnWake => Unread(es[..|es| - 1]) + 1
      case ReadWake => 0
      case _ => Unread(es[..|es| - 1])
  }

  /** Asked to quit since `loop()` was last entered. */
  function QuitAsked<F>(es: seq<Event<F>>): bool
    decreases |es|
  {
    if es == [] then false
    else
      match es[|es| - 1]
      case Quit(_) => true
      case OwnQuit => true
      case Start => false
      case _ => QuitAsked(es[..|es| - 1])
  }

  /** Threads whose last step was a push or a quit, not yet the write that follows. */
  function Owing<F>(es: seq<Event<F>>): set<Thread>
    decreases |es|
  {
    if es == [] then {}
    else
      match es[|es| - 1]
      case Enqueue(t, _) => Owing(es[..|es| - 1]) + {t}
      case Quit(t) => Owing(es[..|es| - 1]) + {t}
      case Wake(t) => Owing(es[..|es| - 1]) - {t}
      case _ => Owing(es[..|es| - 1])
  }

  /** The last epoll_wait reported the eventfd, and it has not been read since. */
  function Reported<F>(es: seq<Event<F>>): bool
    decreases |es|
  {
    if es == [] then false
    else
      match es[|es| - 1]
      case PollReturn(wake) => wake
      case ReadWake => false
      case _ => Reported(es[..|es| - 1])
  }

  function Where<F>(es: seq<Event<F>>): Pc
    decreases |es|
  {
    if es == [] then Idle
    else
      match es[|es| - 1]
      case Start => Checking
      case Check => if QuitAsked(es[..|es| - 1]) then Stopped else Clearing
      case StartPoll => Polling
      case PollReturn(_) => Dispatching
      case EndDispatch => Claiming
      case Swap => Running
      case EndRun => Releasing
      case Release => Checking
      case _ => Where(es[..|es| - 1])
  }

  /** The loop's own thread pushed inside the functor phase and has not written since. */
  function OwnWriteDue<F>(es: seq<Event<F>>): bool
    decreases |es|
  {
    if es == [] then false
    else
      match es[|es| - 1]
      case OwnEnqueue(_) => Where(es[..|es| - 1]) == Running
      case OwnWake => false
      case _ => OwnWriteDue(es[..|es| - 1])
  }

  /** The state after the trace: the loop thread and its flags ... */
  ghost predicate FlagsFollow<F>(s: Loop<F>, es: seq<Event<F>>) {
    && s.pc == Where(es) && s.quit == QuitAsked(es) && s.calling == (Where(es) in {Claiming, Running})
    && s.owes == OwnWriteDue(es) && s.sawWake == Reported(es) && s.polls == PollsEntered(es)
  }

  /** ... and what other threads share with it. */
  ghost predicate QueueFollows<F>(s: Loop<F>, es: seq<Event<F>>) {
    && s.counter == Unread(es) && s.wakers == Owing(es)
    && s.queued == Queued(es) && |s.executed| == CallsMade(es)
    && Claimed(es) <= |Queued(es)| && s.pending == Queued(es)[Claimed(es)..]
  }

  ghost predicate Follows<F>(s: Loop<F>, es: seq<Event<F>>) { FlagsFollow(s, es) && QueueFollows(s, es) }

  lemma FlagsGoOn<F>(s: Loop<F>, es: seq<Event<F>>, e: Event<F>)
    requires FlagsFollow(s, es) && Orderly(s) && Enabled(s, e)
    ensures FlagsFollow(Apply(s, e), es + [e])
  {
    hide Outstanding;
    var fs := es + [e];
    assert fs[..|fs| - 1] == es && fs[|fs| - 1] == e;
  }

  lemma QueueGoesOn<F>(s: Loop<F>, es: seq<Event<F>>, e: Event<F>)
    requires QueueFollows(s, es) && Enabled(s, e)
    ensures QueueFollows(Apply(s, e), es + [e])
  {
    var fs := es + [e];
    assert fs[..|fs| - 1] == es && fs[|fs| - 1] == e;
  }

  lemma ApplyFollows<F>(s: Loop<F>, es: seq<Event<F>>, e: Event<F>)
    requires Follows(s, es) && Orderly(s) && Enabled(s, e)
    ensures Follows(Apply(s, e), es + [e])
  {
    FlagsGoOn(s, es, e);
    QueueGoesOn(s, es, e);
    hide FlagsFollow, QueueFollows;
  }

  lemma {:induction false} RunFollows<F>(es: seq<Event<F>>)
    requires Allowed(NewLoop(), es)
    ensures Orderly(Run(NewLoop(), es)) && Follows(Run(NewLoop(), es), es)
    decreases |es|
  {
    if es != [] {
      var init, e := es[..|es| - 1], es[|es| - 1];
      assert es == init + [e];
      RunConcat(NewLoop<F>(), init, [e]);
      RunOne(Run(NewLoop(), init), e);
      RunFollows(init);
      ApplyOrderly(Run(NewLoop(), init), e);
      ApplyFollows(Run(NewLoop(), init), init, e);
    }
  }

  /** In every run: the eventfd counts the writes since it was last read, the k-th call is of the
    * k-th functor queued, and what is pending is what was queued since the last swap. */
  lemma RunIsItsTrace<F>(es: seq<Event<F>>)
    requires Allowed(NewLoop(), es)
    ensures var s := Run(NewLoop(), es);
      && s.counter == Unread(es)
      && CallsMade(es) <= |Queued(es)| && s.executed == Queued(es)[..CallsMade(es)]
      && Claimed(es) <= |Queued(es)| && s.pending == Queued(es)[Claimed(es)..]
      && s.pc == Where(es) && s.quit == QuitAsked(es) && s.wakers == Owing(es) && s.polls == PollsEntered(es)
  {
    RunFollows(es);
  }

  lemma QuietStep<F>(s: Loop<F>, e: Event<F>)
    requires s.counter == 0 && !e.Wake? && !e.OwnWake?
    ensures Apply(s, e).counter == 0
  {}

  lemma {:induction false} NoWriteNoCount<F>(s: Loop<F>, es: seq<Event<F>>)
    requires s.counter == 0 && Allowed(s, es) && forall e :: e in es ==> !e.Wake? && !e.OwnWake?
    ensures Run(s, es).counter == 0
    decreases |es|
  {
    if es != [] {
      QuietStep(s, es[0]);
      NoWriteNoCount(Apply(s, es[0]), es[1..]);
    }
  }

  /** One read empties the eventfd: until somebody writes again, epoll_wait does not report it. */
  lemma ReadQuietens<F>(s: Loop<F>, es: seq<Event<F>>)
    requires Enabled(s, ReadWake) && Allowed(Apply(s, ReadWake), es)
    requires forall e :: e in es ==> !e.Wake? && !e.OwnWake?
    ensures !Enabled(Run(Apply(s, ReadWake), es), PollReturn(true))
  {
    NoWriteNoCount(Apply(s, ReadWake), es);
  }

  /** A reported wakeup is always read before the functors of that round are claimed. */
  lemma ReportIsRead<F>(es: seq<Event<F>>)
    requires Allowed(NewLoop(), es) && Enabled(Run(NewLoop(), es), EndDispatch)
    ensures !Reported(es)
  {
    RunFollows(es);
  }
}
