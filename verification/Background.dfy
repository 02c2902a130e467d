/** The supervisor of background services: the steps its goroutines interleave, and what waiting for
    them reports. */
module Background {
  import opened Collections
  import opened ErrorTrees

  datatype Phase = Accepting | Sealed | Stopping | AllJoined

  function Rank(phase: Phase): nat {
    match phase
    case Accepting => 0
    case Sealed => 1
    case Stopping => 2
    case AllJoined => 3
  }

  datatype Options = Options(keepAlive: bool, failFast: bool, exitOnEnd: bool)

  /** A job's program runs; it returned and its error is kept; its goroutine is about to cancel the
      scope; the goroutine is gone. */
  datatype Stage = Running | Finished | Signalling(signal: Error) | Left

  datatype Job = Job(id: nat, options: Options, stage: Stage, err: Option<Error>, canceled: bool)

  /** What waiting reported, and the cause it saw. */
  datatype Outcome = Outcome(cause: Option<Error>, result: Option<Error>)

  /** `released` says that the wait for all jobs returned, `collected` holds the errors it then takes. */
  datatype View = View(
    phase: Phase,
    jobs: seq<Job>,
    cause: Option<Error>,
    released: bool,
    collected: Option<seq<Error>>,
    reported: Option<Outcome>)

  const INITIAL := View(Accepting, [], None, false, None, None)

  /** The atomic steps: each is a region under the lock, a cancellation, or a return of the wait. */
  datatype Event =
    | Start(id: nat, options: Options, runner: bool)
    | Finish(job: nat, err: Option<Error>)
    | React(job: nat)
    | Signal(job: nat)
    | SealPhase
    | SealCancel(job: nat)
    | StopPhase
    | StopCancel(reason: Error)
    | Release
    | Collect
    | Report

  function Later(a: Phase, b: Phase): Phase {
    if Rank(a) < Rank(b) then b else a
  }

  function CanceledWith(cause: Option<Error>, reason: Error): Option<Error> {
    if cause.Some? then cause else Some(reason)
  }

  /** What the goroutine of a job that returned does to its scope. */
  function Reaction(job: Job, over: bool): Option<Error> {
    if job.err.Some? && Is(job.err.value, Sentinel(ServiceAborted)) then None
    else if job.err.Some? && !CancellationOnly(job.err.value) && job.options.failFast then job.err
    else if job.err.None? && job.options.exitOnEnd && !job.canceled && !over then Some(Sentinel(BackgroundEnded))
    else None
  }

  predicate Accepts(v: View) {
    v.phase == Accepting && v.cause.None?
  }

  predicate AllLeft(jobs: seq<Job>) {
    forall k :: 0 <= k < |jobs| ==> jobs[k].stage == Left
  }

  predicate Enabled(v: View, e: Event) {
    match e
    case Finish(k, _) => k < |v.jobs| && v.jobs[k].stage == Running
    case React(k) => k < |v.jobs| && v.jobs[k].stage == Finished
    case Signal(k) => k < |v.jobs| && v.jobs[k].stage.Signalling?
    case SealCancel(k) => k < |v.jobs| && v.phase != Accepting && !v.jobs[k].options.keepAlive
    case Release => AllLeft(v.jobs)
    case Collect => v.released && v.collected.None?
    case Report => v.collected.Some? && v.reported.None?
    case _ => true
  }

  function Apply(v: View, e: Event): View
    requires Enabled(v, e)
  {
    match e
    case Start(id, options, runner) =>
      if runner && Accepts(v) then v.(jobs := v.jobs + [Job(id, options, Running, None, false)]) else v
    case Finish(k, err) => v.(jobs := v.jobs[k := v.jobs[k].(stage := Finished, err := err)])
    case React(k) =>
      var reaction := Reaction(v.jobs[k], v.cause.Some?);
      if reaction.None? then v.(jobs := v.jobs[k := v.jobs[k].(stage := Left)])
      else v.(phase := Later(v.phase, Stopping), jobs := v.jobs[k := v.jobs[k].(stage := Signalling(reaction.value))])
    case Signal(k) =>
      v.(cause := CanceledWith(v.cause, v.jobs[k].stage.signal), jobs := v.jobs[k := v.jobs[k].(stage := Left)])
    case SealPhase => v.(phase := Later(v.phase, Sealed))
    case SealCancel(k) => v.(jobs := v.jobs[k := v.jobs[k].(canceled := true)])
    case StopPhase => v.(phase := Later(v.phase, Stopping))
    case StopCancel(reason) => v.(cause := CanceledWith(v.cause, reason))
    case Release => v.(released := true)
    case Collect => v.(phase := AllJoined, collected := Some(Reportable(v.jobs)))
    case Report => v.(reported := Some(Outcome(v.cause, WaitResult(v.collected.value, v.cause))))
  }

  // ---------------------------------------------------------------------------------------
  // The result of waiting

  /** A job's error that waiting reports. */
  predicate Real(err: Option<Error>) {
    err.Some? && !CancellationOnly(err.value) && !Is(err.value, Sentinel(ServiceAborted))
  }

  function Reportable(jobs: seq<Job>): seq<Error> {
    if jobs == [] then []
    else
      var last := jobs[|jobs| - 1];
      Reportable(jobs[..|jobs| - 1]) + if Real(last.err) then [Wrap(last.id, last.err.value)] else []
  }

  /** A cause that is a failure, neither cancellation nor the end of the lifecycle. */
  predicate FailureCause(cause: Option<Error>) {
    && cause.Some?
    && !Is(cause.value, Sentinel(BackgroundStopped))
    && !Is(cause.value, Sentinel(BackgroundEnded))
    && !CancellationOnly(cause.value)
  }

  function WaitResult(errs: seq<Error>, cause: Option<Error>): Option<Error> {
    var all := if FailureCause(cause) && !AnyIs(errs, cause.value) then [cause.value] + errs else errs;
    if cause.Some? && CancellationOnly(cause.value) && all == [] then cause else JoinAll(all)
  }

  lemma {:induction false} ReportableHas(jobs: seq<Job>, k: nat)
    requires k < |jobs| && Real(jobs[k].err)
    ensures Wrap(jobs[k].id, jobs[k].err.value) in Reportable(jobs)
    ensures AnyIs(Reportable(jobs), jobs[k].err.value)
  {
    var front, last := jobs[..|jobs| - 1], jobs[|jobs| - 1];
    var mine := Wrap(jobs[k].id, jobs[k].err.value);
    if k < |front| {
      ReportableHas(front, k);
    }
    assert mine in Reportable(jobs) by {
      assert k == |front| ==> Reportable(jobs) == Reportable(front) + [mine];
    }
    var i :| 0 <= i < |Reportable(jobs)| && Reportable(jobs)[i] == mine;
    AnyIsAt(Reportable(jobs), jobs[k].err.value, i);
  }

  lemma {:induction false} ReportableOnly(jobs: seq<Job>)
    ensures Reportable(jobs) == [] <==> forall k :: 0 <= k < |jobs| ==> !Real(jobs[k].err)
    ensures |Reportable(jobs)| <= |jobs|
  {
    if jobs != [] {
      var front := jobs[..|jobs| - 1];
      ReportableOnly(front);
      if k :| 0 <= k < |front| && Real(front[k].err) {
        assert Real(jobs[k].err);
      }
    }
  }

  /** Waiting collects exactly the errors of jobs that are neither cancellation alone nor an abort. */
  lemma {:induction false} ReportableAre(jobs: seq<Job>)
    ensures forall e :: e in Reportable(jobs) <==>
      exists k :: 0 <= k < |jobs| && jobs[k].err.Some? && e == Wrap(jobs[k].id, jobs[k].err.value) &&
        !CancellationOnly(jobs[k].err.value) && !Is(jobs[k].err.value, Sentinel(ServiceAborted))
  {
    if jobs != [] {
      var front, last := jobs[..|jobs| - 1], jobs[|jobs| - 1];
      ReportableAre(front);
      assert forall k :: 0 <= k < |front| ==> jobs[k] == front[k];
    }
  }

  /** The cause adds nothing if the scope was ended by its lifecycle, and stands alone if it is cancellation and
      there is no error; a failure is always there. */
  lemma ResultByCause(errs: seq<Error>, cause: Error)
    ensures cause in {Sentinel(BackgroundStopped), Sentinel(BackgroundEnded)} ==>
      WaitResult(errs, Some(cause)) == if errs == [] then None else Some(Joined(errs))
    ensures CancellationOnly(cause) ==>
      WaitResult(errs, Some(cause)) == Some(if errs == [] then cause else Joined(errs))
    ensures cause.Plain? || cause == Sentinel(ServiceAborted) || cause == DeadlineExceeded ==>
      WaitResult(errs, Some(cause)) == Some(Joined(if AnyIs(errs, cause) then errs else [cause] + errs))
    ensures WaitResult(errs, None) == if errs == [] then None else Some(Joined(errs))
  {
    if CancellationOnly(cause) {
      CancellationHidesNoMark(cause, BackgroundStopped);
      CancellationHidesNoMark(cause, BackgroundEnded);
    }
  }

  lemma WaitResultHasCause(errs: seq<Error>, cause: Option<Error>)
    requires FailureCause(cause)
    ensures WaitResult(errs, cause).Some? && Is(WaitResult(errs, cause).value, cause.value)
  {
    if !AnyIs(errs, cause.value) {
      AnyIsAt([cause.value] + errs, cause.value, 0);
    }
  }

  predicate LifecycleCause(cause: Option<Error>) {
    cause.Some? && (Is(cause.value, Sentinel(BackgroundStopped)) || Is(cause.value, Sentinel(BackgroundEnded)))
  }

  lemma QuietResult(jobs: seq<Job>, cause: Option<Error>)
    ensures WaitResult(Reportable(jobs), cause).None? <==>
      (forall k :: 0 <= k < |jobs| ==> !Real(jobs[k].err)) && (cause.Some? ==> LifecycleCause(cause))
  {
    ReportableOnly(jobs);
    if cause.Some? && CancellationOnly(cause.value) {
      CancellationHidesNoMark(cause.value, BackgroundStopped);
      CancellationHidesNoMark(cause.value, BackgroundEnded);
    }
  }

  // ---------------------------------------------------------------------------------------
  // Runs

  predicate Possible(v: View, events: seq<Event>)
    decreases |events|, 0
  {
    events == [] || (Possible(v, events[..|events| - 1]) &&
      Enabled(Run(v, events[..|events| - 1]), events[|events| - 1]))
  }

  function Run(v: View, events: seq<Event>): View
    requires Possible(v, events)
    decreases |events|, 1
  {
    if events == [] then v else Apply(Run(v, events[..|events| - 1]), events[|events| - 1])
  }

  /** Phases only move forward, a cause once set stays, jobs are never dropped and their errors never
      change, and no job is added outside the accepting phase. */
  ghost predicate Forward(a: View, b: View) {
    && Rank(a.phase) <= Rank(b.phase)
    && (a.cause.Some? ==> b.cause == a.cause)
    && |a.jobs| <= |b.jobs|
    && (!Accepts(a) ==> |b.jobs| == |a.jobs|)
    && (forall k :: 0 <= k < |a.jobs| ==> SameJob(a.jobs[k], b.jobs[k]))
    && (a.released ==> b.released)
    && (a.collected.Some? ==> b.collected == a.collected)
    && (a.reported.Some? ==> b.reported == a.reported)
  }

  predicate SameJob(a: Job, b: Job) {
    && b.id == a.id && b.options == a.options
    && (a.stage != Running ==> b.stage != Running && b.err == a.err)
    && (a.stage == Left ==> b.stage == Left)
    && (a.canceled ==> b.canceled)
  }

  lemma StepForward(v: View, e: Event)
    requires Enabled(v, e)
    ensures Forward(v, Apply(v, e))
  {
  }

  lemma {:induction false} RunForward(v: View, events: seq<Event>)
    requires Possible(v, events)
    ensures Forward(v, Run(v, events))
  {
    if events != [] {
      RunForward(v, events[..|events| - 1]);
      StepForward(Run(v, events[..|events| - 1]), events[|events| - 1]);
    }
  }

  /** What holds of every job and of the cause in every reachable state. */
  ghost predicate Inv(v: View) {
    && (forall k :: 0 <= k < |v.jobs| ==> JobInv(v, v.jobs[k]))
    && (v.collected.Some? ==> v.released && v.phase == AllJoined)
    && (v.reported.Some? ==> v.collected.Some?)
  }

  ghost predicate JobInv(v: View, job: Job) {
    && (job.stage == Running ==> job.err.None?)
    && (job.options.keepAlive ==> !job.canceled)
    && (job.stage.Signalling? ==> v.phase != Accepting)
    && (job.stage.Signalling? && job.err.Some? ==>
          job.err == Some(job.stage.signal) && Real(job.err) && job.options.failFast)
    && (job.stage.Signalling? && job.err.None? ==>
          job.stage.signal == Sentinel(BackgroundEnded) && job.options.exitOnEnd)
    // A job that failed fast has cancelled the scope by the time it is gone.
    && (job.stage == Left && Real(job.err) && job.options.failFast ==> v.cause.Some? && v.phase != Accepting)
  }

  lemma StepKeepsInv(v: View, e: Event)
    requires Inv(v) && Enabled(v, e)
    ensures Inv(Apply(v, e))
  {
    var w := Apply(v, e);
    forall k | 0 <= k < |w.jobs|
      ensures JobInv(w, w.jobs[k])
    {
      assert k < |v.jobs| ==> JobInv(v, v.jobs[k]);
    }
  }

  lemma {:induction false} ReachableInv(events: seq<Event>)
    requires Possible(INITIAL, events)
    ensures Inv(Run(INITIAL, events))
  {
    if events != [] {
      ReachableInv(events[..|events| - 1]);
      StepKeepsInv(Run(INITIAL, events[..|events| - 1]), events[|events| - 1]);
    }
  }

  /** Whoever stops the scope from outside gives a reason of its lifecycle or a cancellation. */
  predicate LifecycleStops(events: seq<Event>) {
    forall k :: 0 <= k < |events| && events[k].StopCancel? ==> !FailureCause(Some(events[k].reason))
  }

  /** Someone stopped the scope from outside for this reason: the context around it was cancelled with it. */
  predicate StoppedFor(events: seq<Event>, reason: Error) {
    exists k :: 0 <= k < |events| && events[k] == StopCancel(reason)
  }

  /** A failure that cancelled the scope is the real error of a job that is gone, or came from outside. */
  ghost predicate CauseIsKnown(v: View, events: seq<Event>) {
    FailureCause(v.cause) ==>
      (exists k :: 0 <= k < |v.jobs| && FailedFast(v.jobs[k], v.cause)) || StoppedFor(events, v.cause.value)
  }

  predicate FailedFast(job: Job, cause: Option<Error>) {
    job.stage == Left && job.options.failFast && Real(job.err) && job.err == cause
  }

  lemma StepKeepsCause(v: View, events: seq<Event>, e: Event)
    requires Inv(v) && CauseIsKnown(v, events) && Enabled(v, e)
    ensures CauseIsKnown(Apply(v, e), events + [e])
  {
    var w, all := Apply(v, e), events + [e];
    if FailureCause(v.cause) {
      if k :| 0 <= k < |v.jobs| && FailedFast(v.jobs[k], v.cause) {
        StepForward(v, e);
        assert SameJob(v.jobs[k], w.jobs[k]) && FailedFast(w.jobs[k], w.cause);
      } else {
        var k :| 0 <= k < |events| && events[k] == StopCancel(v.cause.value);
        assert all[k] == events[k];
      }
    } else if FailureCause(w.cause) && e.Signal? {
      assert JobInv(v, v.jobs[e.job]);
      assert FailedFast(w.jobs[e.job], w.cause);
    } else if FailureCause(w.cause) {
      assert all[|events|] == StopCancel(w.cause.value);
    }
  }

  lemma {:induction false} ReachableCause(events: seq<Event>)
    requires Possible(INITIAL, events)
    ensures CauseIsKnown(Run(INITIAL, events), events)
  {
    if events != [] {
      var before := events[..|events| - 1];
      ReachableCause(before);
      ReachableInv(before);
      assert before + [events[|events| - 1]] == events;
      StepKeepsCause(Run(INITIAL, before), before, events[|events| - 1]);
    }
  }

  // ---------------------------------------------------------------------------------------
  // Services that end their scope

  /** A service that ends its scope on exit returned by itself and is gone. */
  predicate EndedItself(job: Job) {
    job.options.exitOnEnd && job.stage == Left && job.err.None? && !job.canceled
  }

  predicate AnyStop(events: seq<Event>) {
    exists k :: 0 <= k < |events| && events[k].StopCancel?
  }

  /** The goroutine of the job judged its return while the job was not cancelled. */
  predicate Reacted(events: seq<Event>, k: nat)
    requires Possible(INITIAL, events)
    decreases |events|
  {
    events != [] &&
    var front := events[..|events| - 1];
    Reacted(front, k) || (events[|events| - 1] == React(k) && !Run(INITIAL, front).jobs[k].canceled)
  }

  /** Every such service has ended the scope, unless it was over; and what cancelled the scope is known. */
  ghost predicate EndsAreKnown(v: View, events: seq<Event>)
    requires Possible(INITIAL, events)
  {
    && (forall k :: 0 <= k < |v.jobs| && EndedItself(v.jobs[k]) ==> v.cause.Some?)
    && (forall k :: 0 <= k < |v.jobs| && v.jobs[k].stage.Signalling? && v.jobs[k].err.None? ==> Reacted(events, k))
    && (v.cause.Some? && !AnyStop(events) ==>
          && v.phase != Accepting
          && ((exists k :: 0 <= k < |v.jobs| && FailedFast(v.jobs[k], v.cause)) ||
              (v.cause == Some(Sentinel(BackgroundEnded)) &&
               exists k :: 0 <= k < |v.jobs| && Exited(v.jobs[k]) && Reacted(events, k))))
  }

  /** The same, whether it was cancelled later or not. */
  predicate Exited(job: Job) {
    job.options.exitOnEnd && job.stage == Left && job.err.None?
  }

  lemma AnyStopMore(events: seq<Event>, e: Event)
    ensures AnyStop(events + [e]) <==> AnyStop(events) || e.StopCancel?
  {
    var all := events + [e];
    if k :| 0 <= k < |events| && events[k].StopCancel? {
      assert all[k].StopCancel?;
    }
    assert all[|events|] == e;
  }

  lemma StepKeepsEnds(v: View, events: seq<Event>, e: Event)
    requires Possible(INITIAL, events) && v == Run(INITIAL, events) && Possible(INITIAL, events + [e])
    requires Inv(v) && EndsAreKnown(v, events) && Enabled(v, e)
    ensures EndsAreKnown(Apply(v, e), events + [e])
  {
    var w, all := Apply(v, e), events + [e];
    assert all[..|events|] == events;
    AnyStopMore(events, e);
    StepForward(v, e);
    forall k | 0 <= k < |w.jobs|
      ensures EndedItself(w.jobs[k]) ==> w.cause.Some?
      ensures w.jobs[k].stage.Signalling? && w.jobs[k].err.None? ==> Reacted(all, k)
    {
      StepKeepsJobEnd(v, events, e, k);
    }
    if w.cause.Some? && !AnyStop(all) {
      if v.cause.Some? {
        CauseStaysKnown(v, events, e);
      } else {
        assert e.Signal? && JobInv(v, v.jobs[e.job]);
        assert FailedFast(w.jobs[e.job], w.cause) || (Exited(w.jobs[e.job]) && Reacted(all, e.job));
      }
    }
  }

  lemma StepKeepsJobEnd(v: View, events: seq<Event>, e: Event, k: nat)
    requires Possible(INITIAL, events) && v == Run(INITIAL, events) && Possible(INITIAL, events + [e])
    requires Inv(v) && EndsAreKnown(v, events) && Enabled(v, e) && k < |Apply(v, e).jobs|
    ensures
      var w := Apply(v, e);
      && (EndedItself(w.jobs[k]) ==> w.cause.Some?)
      && (w.jobs[k].stage.Signalling? && w.jobs[k].err.None? ==> Reacted(events + [e], k))
  {
    assert (events + [e])[..|events|] == events;
    if k < |v.jobs| {
      assert JobInv(v, v.jobs[k]);
    }
  }

  lemma CauseStaysKnown(v: View, events: seq<Event>, e: Event)
    requires Possible(INITIAL, events) && v == Run(INITIAL, events) && Possible(INITIAL, events + [e])
    requires Inv(v) && EndsAreKnown(v, events) && Enabled(v, e) && v.cause.Some? && !AnyStop(events)
    ensures
      var w := Apply(v, e);
      && w.phase != Accepting
      && ((exists k :: 0 <= k < |w.jobs| && FailedFast(w.jobs[k], w.cause)) ||
          (w.cause == Some(Sentinel(BackgroundEnded)) &&
           exists k :: 0 <= k < |w.jobs| && Exited(w.jobs[k]) && Reacted(events + [e], k)))
  {
    var w := Apply(v, e);
    assert (events + [e])[..|events|] == events;
    StepForward(v, e);
    if k :| 0 <= k < |v.jobs| && FailedFast(v.jobs[k], v.cause) {
      assert SameJob(v.jobs[k], w.jobs[k]) && FailedFast(w.jobs[k], w.cause);
    } else {
      var k :| 0 <= k < |v.jobs| && Exited(v.jobs[k]) && Reacted(events, k);
      assert SameJob(v.jobs[k], w.jobs[k]) && Exited(w.jobs[k]);
    }
  }

  lemma {:induction false} ReachableEnds(events: seq<Event>)
    requires Possible(INITIAL, events)
    ensures EndsAreKnown(Run(INITIAL, events), events)
  {
    if events != [] {
      var before := events[..|events| - 1];
      ReachableEnds(before);
      ReachableInv(before);
      assert before + [events[|events| - 1]] == events;
      StepKeepsEnds(Run(INITIAL, before), before, events[|events| - 1]);
    }
  }

  /** In every interleaving, a service with exit-on-end that returned without error, was not cancelled and is
      gone has ended its scope: it accepts no more services. Unless something else stopped the scope, it did so
      with the end mark, and moved the phase on. */
  lemma ExitEndsScope(events: seq<Event>, k: nat)
    requires Possible(INITIAL, events)
    ensures
      var v := Run(INITIAL, events);
      k < |v.jobs| && EndedItself(v.jobs[k]) ==>
        && v.cause.Some? && !Accepts(v)
        && (!AnyStop(events) ==> v.phase != Accepting)
        && (!AnyStop(events) && (forall j :: 0 <= j < |v.jobs| ==> !FailedFast(v.jobs[j], v.cause)) ==>
              v.cause == Some(Sentinel(BackgroundEnded)))
  {
    ReachableEnds(events);
  }

  /** Nothing but a stop, a failure of a fail-fast job or the exit of a service that was not cancelled before
      cancels a scope. */
  lemma OnlyThoseCancel(events: seq<Event>)
    requires Possible(INITIAL, events) && !AnyStop(events)
    ensures
      var v := Run(INITIAL, events);
      (forall k :: 0 <= k < |v.jobs| ==>
            !FailedFast(v.jobs[k], v.cause) && !(Exited(v.jobs[k]) && Reacted(events, k))) ==>
        v.cause.None?
  {
    ReachableEnds(events);
  }

  /** Every later state of a run is joined only with all its jobs gone. */
  ghost predicate JoinsAll(v: View) {
    forall events :: Possible(v, events) && Run(v, events).phase == AllJoined ==> AllLeft(Run(v, events).jobs)
  }

  /** When the wait for the jobs returns, the scope will be joined with all of them gone exactly when
      no further job can start: it was sealed, stopped or cancelled before. */
  lemma WaitJoinsAllIff(v: View)
    requires Inv(v) && v.released && v.collected.None? && AllLeft(v.jobs)
    ensures JoinsAll(v) <==> !Accepts(v)
  {
    if Accepts(v) {
      var late := [Start(0, Options(false, false, false), true), Collect];
      var started := Apply(v, late[0]);
      assert late[..1] == [late[0]] && late[..1][..0] == [] && late[..0] == [];
      assert Possible(v, []) && Run(v, []) == v;
      assert Possible(v, late[..1]) && Run(v, late[..1]) == started;
      assert Possible(v, late) && Run(v, late) == Apply(started, Collect);
      assert Run(v, late).jobs[|v.jobs|].stage == Running;
    } else {
      forall events | Possible(v, events) && Run(v, events).phase == AllJoined
        ensures AllLeft(Run(v, events).jobs)
      {
        RunForward(v, events);
        assert forall k :: 0 <= k < |v.jobs| ==> SameJob(v.jobs[k], Run(v, events).jobs[k]);
      }
    }
  }

  lemma {:induction false} ReportableSame(a: seq<Job>, b: seq<Job>)
    requires |a| == |b| && AllLeft(a)
    requires forall k :: 0 <= k < |a| ==> SameJob(a[k], b[k])
    ensures Reportable(a) == Reportable(b)
  {
    if a != [] {
      ReportableSame(a[..|a| - 1], b[..|b| - 1]);
      assert SameJob(a[|a| - 1], b[|b| - 1]);
    }
  }

  /** What the waiting took and reported, with all jobs gone and no more to come. */
  ghost predicate Reporting(v: View) {
    && AllLeft(v.jobs) && !Accepts(v)
    && (v.collected.Some? ==> v.collected.value == Reportable(v.jobs))
    && (v.reported.Some? ==>
          && v.reported.value.result == WaitResult(Reportable(v.jobs), v.reported.value.cause)
          && (v.reported.value.cause.Some? ==> v.cause == v.reported.value.cause))
  }

  lemma StepKeepsReporting(v: View, e: Event)
    requires Reporting(v) && Enabled(v, e) && (v.reported.Some? ==> v.collected.Some?)
    ensures Reporting(Apply(v, e))
  {
    StepForward(v, e);
    ReportableSame(v.jobs, Apply(v, e).jobs);
  }

  lemma {:induction false} StaysReporting(before: View, events: seq<Event>)
    requires Inv(before) && Reporting(before) && Possible(before, events)
    ensures Inv(Run(before, events)) && Reporting(Run(before, events))
  {
    if events != [] {
      StaysReporting(before, events[..|events| - 1]);
      var v := Run(before, events[..|events| - 1]);
      StepKeepsInv(v, events[|events| - 1]);
      StepKeepsReporting(v, events[|events| - 1]);
    }
  }

  lemma WaitResultHas(errs: seq<Error>, cause: Option<Error>, err: Error)
    requires AnyIs(errs, err)
    ensures WaitResult(errs, cause).Some? && Is(WaitResult(errs, cause).value, err)
  {
    if cause.Some? {
      assert ([cause.value] + errs)[1..] == errs;
    }
  }

  /** Once waiting has reported in a scope that no job could enter when the wait returned, every job is
      gone, every real error is in the result, and a service that failed fast has cancelled the scope. */
  lemma WaitReportsAll(before: View, events: seq<Event>)
    requires Inv(before) && AllLeft(before.jobs) && before.collected.None? && before.reported.None? && !Accepts(before)
    requires Possible(before, events) && Run(before, events).reported.Some?
    ensures var v := Run(before, events);
      && AllLeft(v.jobs)
      && (forall k :: 0 <= k < |v.jobs| && Real(v.jobs[k].err) ==>
            && v.reported.value.result.Some?
            && Is(v.reported.value.result.value, v.jobs[k].err.value)
            && (v.jobs[k].options.failFast ==> v.cause.Some?))
  {
    StaysReporting(before, events);
    var v := Run(before, events);
    forall k | 0 <= k < |v.jobs| && Real(v.jobs[k].err)
      ensures v.reported.value.result.Some? && Is(v.reported.value.result.value, v.jobs[k].err.value)
      ensures v.jobs[k].options.failFast ==> v.cause.Some?
    {
      ReportableHas(v.jobs, k);
      WaitResultHas(Reportable(v.jobs), v.reported.value.cause, v.jobs[k].err.value);
      assert JobInv(v, v.jobs[k]);
    }
  }

  /** A run up to a moment at which all jobs are gone and no more can start, and on to a report. */
  ghost predicate WaitedFor(first: seq<Event>, later: seq<Event>) {
    && Possible(INITIAL, first) && Possible(Run(INITIAL, first), later)
    && AllLeft(Run(INITIAL, first).jobs) && !Accepts(Run(INITIAL, first)) && Run(INITIAL, first).collected.None?
    && Run(Run(INITIAL, first), later).reported.Some?
  }

  lemma {:induction false} RunsJoin(first: seq<Event>, later: seq<Event>)
    requires Possible(INITIAL, first) && Possible(Run(INITIAL, first), later)
    ensures Possible(INITIAL, first + later) && Run(INITIAL, first + later) == Run(Run(INITIAL, first), later)
  {
    if later == [] {
      assert first + later == first;
    } else {
      RunsJoin(first, later[..|later| - 1]);
      assert (first + later)[..|first + later| - 1] == first + later[..|later| - 1];
    }
  }

  lemma WaitedForReporting(first: seq<Event>, later: seq<Event>)
    requires WaitedFor(first, later)
    ensures var v := Run(Run(INITIAL, first), later); Reporting(v) && Inv(v)
  {
    ReachableInv(first);
    StaysReporting(Run(INITIAL, first), later);
  }

  /** In every interleaving a failure that cancelled the scope is reported. It is added to the collected errors
      only where it was inherited from the context around the scope and no job reports it. */
  lemma CauseReported(first: seq<Event>, later: seq<Event>)
    requires WaitedFor(first, later)
    ensures
      var v := Run(Run(INITIAL, first), later);
      var outcome := v.reported.value;
      FailureCause(outcome.cause) ==>
        && outcome.result.Some? && Is(outcome.result.value, outcome.cause.value) && v.collected.Some?
        && (AnyIs(v.collected.value, outcome.cause.value) ==> outcome.result == JoinAll(v.collected.value))
        && (!AnyIs(v.collected.value, outcome.cause.value) ==>
              outcome.result == JoinAll([outcome.cause.value] + v.collected.value) &&
              StoppedFor(first + later, outcome.cause.value))
  {
    var v := Run(Run(INITIAL, first), later);
    RunsJoin(first, later);
    ReachableCause(first + later);
    WaitedForReporting(first, later);
    var cause := v.reported.value.cause;
    if FailureCause(cause) {
      if k :| 0 <= k < |v.jobs| && FailedFast(v.jobs[k], v.cause) {
        ReportableHas(v.jobs, k);
      }
      WaitResultHasCause(v.collected.value, cause);
    }
  }

  /** The failure that cancelled a scope is never reported twice by it if it is a failure of the scope's own:
      in every interleaving it is the error of a job among those collected, so the report is the collected
      errors and nothing is added. */
  lemma CausePresentOnce(first: seq<Event>, later: seq<Event>)
    requires WaitedFor(first, later) && LifecycleStops(first + later)
    ensures
      var v := Run(Run(INITIAL, first), later);
      var outcome := v.reported.value;
      FailureCause(outcome.cause) ==>
        && (exists k :: 0 <= k < |v.jobs| && FailedFast(v.jobs[k], outcome.cause))
        && v.collected.Some? && AnyIs(v.collected.value, outcome.cause.value)
        && outcome.result == JoinAll(v.collected.value)
        && outcome.result.Some? && Is(outcome.result.value, outcome.cause.value)
  {
    var v := Run(Run(INITIAL, first), later);
    RunsJoin(first, later);
    ReachableCause(first + later);
    WaitedForReporting(first, later);
    CauseReported(first, later);
    var cause := v.reported.value.cause;
    if FailureCause(cause) {
      var k :| 0 <= k < |v.jobs| && FailedFast(v.jobs[k], v.cause);
      ReportableHas(v.jobs, k);
    }
  }

  /** A failure that a scope inherits from the one around it, where it is the error of a job that failed fast,
      is reported by both, and what the outer scope joins carries it twice. */
  lemma InheritedFailureTwice(first: seq<Event>, later: seq<Event>, outer: seq<Job>, k: nat, leaf: Error)
    requires WaitedFor(first, later) && k < |outer|
    requires
      var cause := Run(Run(INITIAL, first), later).reported.value.cause;
      FailureCause(cause) && FailedFast(outer[k], cause) && leaf in Leaves(cause.value) && !CancellationLeaf(leaf)
    ensures
      var outcome := Run(Run(INITIAL, first), later).reported.value;
      var all := JoinBackground(outcome.result, WaitResult(Reportable(outer), outcome.cause));
      multiset(LeavesOf(all))[leaf] >= 2
  {
    var outcome := Run(Run(INITIAL, first), later).reported.value;
    var around := WaitResult(Reportable(outer), outcome.cause);
    CauseReported(first, later);
    IsHasLeaves(outcome.result.value, outcome.cause.value, leaf);
    ReportableHas(outer, k);
    WaitResultHasCause(Reportable(outer), outcome.cause);
    IsHasLeaves(around.value, outcome.cause.value, leaf);
    JoinBackgroundCounts(outcome.result, around, leaf);
  }

  /** Waiting reports nothing exactly when no job has a real error and the scope was left alone or ended
      by its lifecycle. */
  lemma WaitIsQuiet(first: seq<Event>, later: seq<Event>)
    requires WaitedFor(first, later)
    ensures
      var v := Run(Run(INITIAL, first), later);
      v.reported.value.result.None? <==>
        && (forall k :: 0 <= k < |v.jobs| ==> !Real(v.jobs[k].err))
        && (v.reported.value.cause.Some? ==> LifecycleCause(v.reported.value.cause))
  {
    var v := Run(Run(INITIAL, first), later);
    WaitedForReporting(first, later);
    QuietResult(v.jobs, v.reported.value.cause);
  }

  // ---------------------------------------------------------------------------------------
  // The supervisor's methods, each run without interruption

  datatype Refusal = NoRunner | TooLate | AfterCancellation(cause: Error)

  /** Sealing a scope and cancelling the first `n` of its jobs that are not kept alive. */
  function SealedUpTo(v: View, n: nat): View
    requires n <= |v.jobs|
  {
    v.(phase := Later(v.phase, Sealed),
       jobs := seq(|v.jobs|, k requires 0 <= k < |v.jobs| =>
         if k < n && !v.jobs[k].options.keepAlive then v.jobs[k].(canceled := true) else v.jobs[k]))
  }

  lemma SealedNone(v: View)
    ensures SealedUpTo(v, 0) == Apply(v, SealPhase)
  {
    assert SealedUpTo(v, 0).jobs == v.jobs;
  }

  /** Sealing is its phase change followed by the cancellations, one at a time. */
  lemma SealedMore(v: View, k: nat)
    requires k < |v.jobs|
    ensures SealedUpTo(v, k + 1) ==
      if v.jobs[k].options.keepAlive then SealedUpTo(v, k) else Apply(SealedUpTo(v, k), SealCancel(k))
  {
    var next := if v.jobs[k].options.keepAlive then SealedUpTo(v, k) else Apply(SealedUpTo(v, k), SealCancel(k));
    assert SealedUpTo(v, k + 1).jobs == next.jobs;
  }

  class Supervisor {
    var phase: Phase
    var jobs: seq<Job>
    var cause: Option<Error>
    var released: bool
    var collected: Option<seq<Error>>
    var reported: Option<Outcome>

    function Current(): View
      reads this
    {
      View(phase, jobs, cause, released, collected, reported)
    }

    constructor ()
      ensures Current() == INITIAL
    {
      phase, jobs, cause, released, collected, reported := Accepting, [], None, false, None, None;
    }

    method StartService(id: nat, options: Options, runner: bool) returns (refusal: Option<Refusal>)
      modifies this`jobs
      ensures Current() == Apply(old(Current()), Start(id, options, runner))
      ensures refusal ==
        if !runner then Some(NoRunner)
        else if phase != Accepting then Some(TooLate)
        else if cause.Some? then Some(AfterCancellation(cause.value))
        else None
      ensures jobs == if refusal.None? then old(jobs) + [Job(id, options, Running, None, false)] else old(jobs)
    {
      if !runner {
        return Some(NoRunner);
      }
      if phase != Accepting {
        return Some(TooLate);
      }
      if cause.Some? {
        return Some(AfterCancellation(cause.value));
      }
      jobs := jobs + [Job(id, options, Running, None, false)];
      return None;
    }

    method Seal()
      modifies this`phase, this`jobs
      ensures Current() == SealedUpTo(old(Current()), |old(jobs)|)
      ensures phase == (if old(phase) == Accepting then Sealed else old(phase)) && |jobs| == |old(jobs)|
      ensures forall k :: 0 <= k < |jobs| ==>
        jobs[k] == if old(jobs)[k].options.keepAlive then old(jobs)[k] else old(jobs)[k].(canceled := true)
    {
      if phase == Accepting {
        phase := Sealed;
      }
      SealedNone(old(Current()));
      for k := 0 to |jobs|
        invariant |jobs| == |old(jobs)| && Current() == SealedUpTo(old(Current()), k)
      {
        SealedMore(old(Current()), k);
        if !jobs[k].options.keepAlive {
          jobs := jobs[k := jobs[k].(canceled := true)];
        }
      }
    }

    method Stop(reason: Option<Error>)
      modifies this`phase, this`cause
      ensures Current() == Apply(Apply(old(Current()), StopPhase),
                                 StopCancel(if reason.None? then Sentinel(BackgroundStopped) else reason.value))
      ensures phase == if old(phase) == AllJoined then AllJoined else Stopping
      ensures cause ==
        if old(cause).Some? then old(cause) else if reason.Some? then reason else Some(Sentinel(BackgroundStopped))
    {
      if phase == Accepting || phase == Sealed {
        phase := Stopping;
      }
      var why := if reason.None? then Sentinel(BackgroundStopped) else reason.value;
      if cause.None? {
        cause := Some(why);
      }
    }

    /** Waits for jobs that are all gone, and takes their errors. */
    method Wait() returns (result: Option<Error>)
      requires AllLeft(jobs) && collected.None? && reported.None?
      modifies this
      ensures Current() == Apply(Apply(Apply(old(Current()), Release), Collect), Report)
      ensures reported == Some(Outcome(old(cause), result)) && phase == AllJoined && cause == old(cause)
    {
      released, phase := true, AllJoined;
      var errs: seq<Error> := [];
      for k := 0 to |jobs|
        invariant errs == Reportable(jobs[..k])
      {
        assert jobs[..k + 1][..k] == jobs[..k];
        var err := jobs[k].err;
        if err.Some? && !CancellationOnly(err.value) && !Is(err.value, Sentinel(ServiceAborted)) {
          errs := errs + [Wrap(jobs[k].id, err.value)];
        }
      }
      assert jobs[..|jobs|] == jobs;
      collected := Some(errs);
      if FailureCause(cause) {
        var found := Contains(errs, cause.value);
        if !found {
          errs := [cause.value] + errs;
        }
      }
      result := if cause.Some? && CancellationOnly(cause.value) && |errs| == 0 then cause else JoinAll(errs);
      reported := Some(Outcome(cause, result));
    }
  }

  method Contains(errs: seq<Error>, target: Error) returns (found: bool)
    ensures found <==> AnyIs(errs, target)
  {
    for k := 0 to |errs|
      invariant AnyIs(errs, target) <==> AnyIs(errs[k..], target)
    {
      assert errs[k..][1..] == errs[k + 1..];
      if Is(errs[k], target) {
        return true;
      }
    }
    return false;
  }
}
