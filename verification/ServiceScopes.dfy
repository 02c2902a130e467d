/** Which steps may start a service that ends the scope they run in, and what a run does to its contexts. */
module ServiceScopes {
  import opened StepTree
  import opened Interpreter

  /** Some step may start such a service in the scope the steps stand in. Executor and worktree blocks have
      scopes of their own; controls run their bodies in the scope around them. */
  predicate Starts(steps: seq<Step>)
    decreases steps, 0
  {
    steps != [] && (StepStarts(steps[0]) || Starts(steps[1..]))
  }

  predicate StepStarts(step: Step)
    decreases step
  {
    match step.kind
    case Leaf(_, service) => service
    case Conditional(body) => Starts(body)
    case Scoped(body) => Starts(body)
    case Concurrent(body, _, _) => Starts(body)
    case Fanout(body, _) => Starts(body)
    case Attempt(body, _) => Starts(body)
    case Once(body) => Starts(body)
    case TryCatch(body, rescue) => TryStarts(body) || (body != [] && TryStarts(rescue))
    case CancelOn(monitors, body) => Starts(monitors) || Starts(body)
    case _ => false
  }

  /** The cleanup of a try runs in the scope around it, whose services are not sealed. */
  predicate TryStarts(steps: seq<Step>)
    decreases steps, 1
  {
    Starts(steps) || DefersStart(steps)
  }

  predicate DefersStart(steps: seq<Step>)
    decreases steps, 0
  {
    steps != [] && (StepDefersStart(steps[0]) || DefersStart(steps[1..]))
  }

  predicate StepDefersStart(step: Step)
    decreases step
  {
    match step.kind
    case Conditional(body) => DefersStart(body)
    case Scoped(body) => DefersStart(body)
    case Leaf(deferred, _) => Starts(deferred)
    case Attempt(_, deferred) => Starts(deferred)
    case _ => false
  }

  lemma {:induction false} StartsAt(steps: seq<Step>, k: nat)
    requires k < |steps| && StepStarts(steps[k])
    ensures Starts(steps)
  {
    if k > 0 {
      StartsAt(steps[1..], k - 1);
    }
  }

  // ---------------------------------------------------------------------------------------
  // Contexts over a run

  /** No context ends during the run. */
  ghost predicate NoneEnds(o: Oracle) {
    forall at: Site :: o(at).ends == 0 && o(at).during == 0
  }

  /** From `a` to `b` at most the innermost scope got a service that can end it, and that only if one was
      started; what is over now was over before or is a context that could end, and did; what was over
      stays so. */
  ghost predicate Kept(o: Oracle, a: Context, b: Context, starts: bool) {
    && |b.serving| == |a.serving| && b.shield == a.shield && b.inherits == a.inherits
    && (b.serving == a.serving ||
        (starts && |a.serving| > 1 && b.serving == a.serving[|a.serving| - 1 := true]))
    && (if a.Over() then b.live == a.live else b.Over() ==> b.serving[b.live] && !NoneEnds(o))
  }

  lemma KeptTwice(o: Oracle, a: Context, b: Context, c: Context, s: bool, t: bool)
    requires Kept(o, a, b, s) && Kept(o, b, c, t)
    ensures Kept(o, a, c, s || t)
  {
  }

  lemma KeptInside(o: Oracle, outer: Context, inner: Context, starts: bool)
    requires Kept(o, Nest(outer), inner, starts)
    ensures Kept(o, outer, Leave(outer, inner), false)
  {
  }

  lemma KeptShielded(o: Oracle, a: Context, cleaned: Context, starts: bool)
    requires Kept(o, Shield(a), cleaned, starts)
    ensures Kept(o, a, a.(serving := cleaned.serving), starts)
  {
  }

  lemma {:induction false} SequenceKeeps(steps: seq<Step>, at: Site, o: Oracle, f: Frame)
    requires at.In?
    ensures Kept(o, f.context, ExecSequence(steps, at, o, f).frame.context, Starts(steps))
    decreases steps, 0
  {
    if steps != [] {
      var r := ExecStep(steps[0], at, o, f);
      StepKeeps(steps[0], at, o, f);
      SequenceKeeps(steps[1..], Next(at), o, r.frame);
      KeptTwice(o, f.context, r.frame.context, ExecSequence(steps[1..], Next(at), o, r.frame).frame.context,
                StepStarts(steps[0]), Starts(steps[1..]));
    }
  }

  lemma {:induction false} StepKeeps(step: Step, at: Site, o: Oracle, f: Frame)
    requires at.In?
    ensures Kept(o, f.context, ExecStep(step, at, o, f).frame.context, StepStarts(step))
    decreases step, 3
  {
    var g := f.(context := Turn(f.context, o(at).ends));
    if KeepsRecord(step.kind) {
      RecordedKeeps(step, at, o, g);
      KeptTwice(o, f.context, g.context, ExecRecorded(step, at, o, g).frame.context, false, StepStarts(step));
    } else {
      BlockKeeps(step, at, o, g);
      KeptTwice(o, f.context, g.context, ExecBlock(step, at, o, g).frame.context, false, StepStarts(step));
    }
  }

  lemma {:induction false} BlockKeeps(step: Step, at: Site, o: Oracle, f: Frame)
    requires at.In? && !KeepsRecord(step.kind)
    ensures Kept(o, f.context, ExecBlock(step, at, o, f).frame.context, StepStarts(step))
    decreases step, 2
  {
    match step.kind
    case Return =>
    case Conditional(body) => SequenceKeeps(body, In(at, Body, 0), o, f);
    case Scoped(body) => SequenceKeeps(body, In(at, Body, 0), o, f);
    case Executor(body, finale) => ScopeKeeps(step, at, o, f);
    case Concurrent(body, _, _) =>
      var order := o(at).order;
      BranchesKeep(step.kind, at, o, f, order);
      var run := RunBranches(step.kind, at, o, f, order);
      KeptTwice(o, f.context, run.context, Turn(run.context, o(at).during), StepStarts(step), false);
  }

  lemma FinishKeeps(step: Step, at: Site, o: Oracle, f: Frame, inner: Result, starts: bool)
    requires Kept(o, f.context, inner.frame.context, starts)
    ensures Kept(o, f.context, Finish(step, f, o(at), inner).frame.context, starts)
  {
    KeptTwice(o, f.context, inner.frame.context, Turn(inner.frame.context, o(at).during), starts, false);
  }

  lemma {:induction false} RecordedKeeps(step: Step, at: Site, o: Oracle, f: Frame)
    requires at.In? && KeepsRecord(step.kind)
    ensures Kept(o, f.context, ExecRecorded(step, at, o, f).frame.context, StepStarts(step))
    decreases step, 2
  {
    if step.kind.Worktree? {
      ScopeKeeps(step, at, o, f);
    } else {
      PrivateKeeps(step, at, o, f);
      FinishKeeps(step, at, o, f, ExecPrivate(step, at, o, f), StepStarts(step));
    }
  }

  lemma {:induction false} PrivateKeeps(step: Step, at: Site, o: Oracle, f: Frame)
    requires at.In? && KeepsRecord(step.kind) && !step.kind.Worktree?
    ensures Kept(o, f.context, ExecPrivate(step, at, o, f).frame.context, StepStarts(step))
    decreases step, 1
  {
    match step.kind
    case Leaf(_, _) =>
    case Fanout(body, _) => IterationsKeep(body, at, o, f, o(at).passes);
    case Attempt(body, _) => PassesKeep(body, at, o, f, o(at).passes);
    case Once(body) => SequenceKeeps(body, In(at, Body, 0), o, Private(f));
    case TryCatch(_, _) => TryKeeps(step, at, o, Private(f).(registered := {}));
    case CancelOn(_, _) => RaceKeeps(step, at, o, f);
  }

  lemma {:induction false} ScopeKeeps(step: Step, at: Site, o: Oracle, f: Frame)
    requires step.kind.Executor? || step.kind.Worktree?
    ensures Kept(o, f.context, ExecScope(step, at, o, f).frame.context, false)
    decreases step, 1
  {
    SequenceKeeps(step.kind.body, BodyAt(step, at), o, EnterScope(f));
    KeptInside(o, f.context, ExecSequence(step.kind.body, BodyAt(step, at), o, EnterScope(f)).frame.context,
               Starts(step.kind.body));
  }

  lemma {:induction false} EachKeeps(steps: seq<Step>, at: Site, o: Oracle, f: Frame)
    requires at.In?
    ensures Kept(o, f.context, ExecEach(steps, at, o, f).frame.context, Starts(steps))
    decreases steps, 0
  {
    if steps != [] {
      var r := ExecStep(steps[0], at, o, f);
      StepKeeps(steps[0], at, o, f);
      EachKeeps(steps[1..], Next(at), o, r.frame);
      KeptTwice(o, f.context, r.frame.context, ExecEach(steps[1..], Next(at), o, r.frame).frame.context,
                StepStarts(steps[0]), Starts(steps[1..]));
    }
  }

  lemma {:induction false} DefersKeep(steps: seq<Step>, at: Site, o: Oracle, f: Frame)
    requires at.In?
    ensures Kept(o, f.context, ExecDefers(steps, at, o, f).frame.context, DefersStart(steps))
    decreases steps, 0
  {
    if steps != [] {
      var later := ExecDefers(steps[1..], Next(at), o, f);
      DefersKeep(steps[1..], Next(at), o, f);
      StepDefersKeep(steps[0], at, o, later.frame);
      KeptTwice(o, f.context, later.frame.context, ExecStepDefers(steps[0], at, o, later.frame).frame.context,
                DefersStart(steps[1..]), StepDefersStart(steps[0]));
    }
  }

  lemma {:induction false} StepDefersKeep(step: Step, at: Site, o: Oracle, f: Frame)
    ensures Kept(o, f.context, ExecStepDefers(step, at, o, f).frame.context, StepDefersStart(step))
    decreases step, 0
  {
    match step.kind
    case Conditional(body) => DefersKeep(body, In(at, Body, 0), o, f);
    case Scoped(body) => DefersKeep(body, In(at, Body, 0), o, f);
    case Leaf(deferred, _) => EachKeeps(deferred, In(at, Deferred, 0), o, f);
    case Attempt(_, deferred) => EachKeeps(deferred, In(at, AttemptDeferred, 0), o, f);
    case _ =>
  }

  lemma {:induction false} RescueKeeps(steps: seq<Step>, at: Site, o: Oracle, f: Frame)
    requires at.In?
    ensures Kept(o, f.context, ExecRescue(steps, at, o, f).frame.context, Starts(steps))
    decreases steps, 0
  {
    if steps != [] {
      var r := ExecStep(steps[0], at, o, f);
      StepKeeps(steps[0], at, o, f);
      RescueKeeps(steps[1..], Next(at), o, r.frame);
      KeptTwice(o, f.context, r.frame.context, ExecRescue(steps[1..], Next(at), o, r.frame).frame.context,
                StepStarts(steps[0]), Starts(steps[1..]));
    }
  }

  /** Cleanup of which nothing is registered does not run. */
  lemma {:induction false} NothingRegistered(steps: seq<Step>, at: Site, o: Oracle, f: Frame)
    requires at.In? && f.registered == {}
    ensures
      var r := ExecDefers(steps, at, o, f);
      r.frame == f && r.seen == {} && r.err == OK
    decreases steps
  {
    if steps != [] {
      NothingRegistered(steps[1..], Next(at), o, f);
      StepNothingRegistered(steps[0], at, o, f);
    }
  }

  lemma {:induction false} StepNothingRegistered(step: Step, at: Site, o: Oracle, f: Frame)
    requires f.registered == {}
    ensures
      var r := ExecStepDefers(step, at, o, f);
      r.frame == f && r.seen == {} && r.err == OK
    decreases step
  {
    match step.kind
    case Conditional(body) => NothingRegistered(body, In(at, Body, 0), o, f);
    case Scoped(body) => NothingRegistered(body, In(at, Body, 0), o, f);
    case _ =>
  }

  lemma {:induction false} TryKeeps(step: Step, at: Site, o: Oracle, f: Frame)
    requires step.kind.TryCatch? && f.registered == {}
    ensures Kept(o, f.context, ExecTryCatch(step, at, o, f).frame.context, StepStarts(step))
    decreases step, 0, 1
  {
    var body, rescue := step.kind.body, step.kind.rescue;
    var attempted := ExecSequence(body, In(at, Body, 0), o, f);
    var rescued := ExecCatch(step, at, o, attempted);
    CatchKeeps(step, at, o, f);
    var g := Shielded(rescued.frame);
    TryCleanupKeeps(step, at, o, g);
    KeptShielded(o, rescued.frame.context, TryCleanup(step, at, o, g).frame.context, StepStarts(step));
    KeptTwice(o, f.context, rescued.frame.context, ExecTryCatch(step, at, o, f).frame.context, StepStarts(step),
              StepStarts(step));
  }

  /** The try and its rescue; without a body there is nothing to rescue and nothing registered. */
  lemma {:induction false} CatchKeeps(step: Step, at: Site, o: Oracle, f: Frame)
    requires step.kind.TryCatch? && f.registered == {}
    ensures
      var attempted := ExecSequence(step.kind.body, In(at, Body, 0), o, f);
      var rescued := ExecCatch(step, at, o, attempted);
      && Kept(o, f.context, rescued.frame.context, StepStarts(step))
      && (step.kind.body == [] ==> rescued.frame.registered == {})
    decreases step, 0, 0
  {
    var body, rescue := step.kind.body, step.kind.rescue;
    var attempted := ExecSequence(body, In(at, Body, 0), o, f);
    SequenceKeeps(body, In(at, Body, 0), o, f);
    if body != [] {
      RescueKeeps(rescue, In(at, Rescue, 0), o, attempted.frame);
      KeptTwice(o, f.context, attempted.frame.context,
                ExecRescue(rescue, In(at, Rescue, 0), o, attempted.frame).frame.context, Starts(body), Starts(rescue));
    }
  }

  lemma {:induction false} TryCleanupKeeps(step: Step, at: Site, o: Oracle, f: Frame)
    requires step.kind.TryCatch? && (step.kind.body == [] ==> f.registered == {})
    ensures Kept(o, f.context, TryCleanup(step, at, o, f).frame.context, StepStarts(step))
    decreases step, 0, 0
  {
    var body, rescue := step.kind.body, step.kind.rescue;
    var later := ExecDefers(rescue, In(at, Rescue, 0), o, f);
    DefersKeep(rescue, In(at, Rescue, 0), o, f);
    DefersKeep(body, In(at, Body, 0), o, later.frame);
    if body == [] {
      NothingRegistered(rescue, In(at, Rescue, 0), o, f);
    }
    KeptTwice(o, f.context, later.frame.context, ExecDefers(body, In(at, Body, 0), o, later.frame).frame.context,
              body != [] && DefersStart(rescue), DefersStart(body));
  }

  lemma {:induction false} IterationsKeep(body: seq<Step>, at: Site, o: Oracle, f: Frame, n: nat)
    ensures Kept(o, f.context, ExecIterations(body, at, o, f, n).frame.context, Starts(body))
    decreases body, 1, n
  {
    if n > 0 {
      var before := ExecIterations(body, at, o, f, n - 1);
      IterationsKeep(body, at, o, f, n - 1);
      SequenceKeeps(body, In(Pass(at, n - 1), Body, 0), o, Fork(f, before.frame));
      KeptTwice(o, f.context, before.frame.context, ExecIterations(body, at, o, f, n).frame.context, Starts(body),
                Starts(body));
    }
  }

  lemma {:induction false} PassesKeep(body: seq<Step>, at: Site, o: Oracle, f: Frame, n: nat)
    ensures Kept(o, f.context, ExecPasses(body, at, o, f, n).frame.context, Starts(body))
    decreases body, 1, n
  {
    if n > 0 {
      var before := ExecPasses(body, at, o, f, n - 1);
      PassesKeep(body, at, o, f, n - 1);
      SequenceKeeps(body, In(Pass(at, n - 1), Body, 0), o, Fork(f, before.frame));
      KeptTwice(o, f.context, before.frame.context, ExecPasses(body, at, o, f, n).frame.context, Starts(body),
                Starts(body));
    }
  }

  lemma {:induction false} MonitorsKeep(monitors: seq<Step>, at: Site, o: Oracle, f: Frame)
    requires at.In?
    ensures Kept(o, f.context, ExecMonitors(monitors, at, o, f).frame.context, Starts(monitors))
    decreases monitors, 0
  {
    if monitors != [] {
      var r := ExecStep(monitors[0], at, o, f);
      StepKeeps(monitors[0], at, o, f);
      MonitorsKeep(monitors[1..], Next(at), o, Keep(f, r.frame));
      KeptTwice(o, f.context, r.frame.context, ExecMonitors(monitors[1..], Next(at), o, Keep(f, r.frame)).frame.context,
                StepStarts(monitors[0]), Starts(monitors[1..]));
    }
  }

  lemma {:induction false} RaceKeeps(step: Step, at: Site, o: Oracle, f: Frame)
    requires step.kind.CancelOn?
    ensures Kept(o, f.context, ExecRace(step, at, o, f).frame.context, StepStarts(step))
    decreases step, 0
  {
    var watched := ExecMonitors(step.kind.monitors, In(at, Monitor, 0), o, Private(f));
    MonitorsKeep(step.kind.monitors, In(at, Monitor, 0), o, Private(f));
    SequenceKeeps(step.kind.body, In(at, Body, 0), o, Fork(f, watched.frame));
    KeptTwice(o, f.context, watched.frame.context, ExecRace(step, at, o, f).frame.context, Starts(step.kind.monitors),
              Starts(step.kind.body));
  }

  lemma {:induction false} BranchesKeep(group: Kind, at: Site, o: Oracle, f: Frame, order: seq<nat>)
    requires group.Concurrent?
    ensures Kept(o, f.context, RunBranches(group, at, o, f, order).context, Starts(group.body))
    decreases group, 0, |order|
  {
    if order != [] {
      var before := RunBranches(group, at, o, f, order[..|order| - 1]);
      BranchesKeep(group, at, o, f, order[..|order| - 1]);
      var k := order[|order| - 1];
      if !before.context.Over() && MayStart(group, FatesOf(before.done), k) {
        NextKeeps(group, at, o, f, before, k);
        KeptTwice(o, f.context, before.context, RunBranches(group, at, o, f, order).context, Starts(group.body),
                  Starts(group.body));
      }
    }
  }

  lemma {:induction false} NextKeeps(group: Kind, at: Site, o: Oracle, f: Frame, before: GroupRun, k: nat)
    requires group.Concurrent? && k < |group.body|
    ensures
      var g := BranchFrame(group.body, f, before, k);
      Kept(o, before.context, ExecStep(group.body[k], In(at, Branch, k), o, g).frame.context, Starts(group.body))
    decreases group, 0, 0
  {
    StepKeeps(group.body[k], In(at, Branch, k), o, BranchFrame(group.body, f, before, k));
    if StepStarts(group.body[k]) {
      StartsAt(group.body, k);
    }
  }
}
