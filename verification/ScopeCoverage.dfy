/** The validator's scopes over-approximate what a run can publish, exactly where it looks. */
module ScopeCoverage {
  import opened ConcurrentGraph
  import opened StepTree
  import opened Interpreter
  import opened ReferenceScope
  import opened ServiceScopes

  ghost predicate Sound(r: Result, v: Checked) {
    Covered(v.points, r.seen) && Covers(v.scope, r.frame.ids)
  }

  lemma {:induction false} SequenceCovered(steps: seq<Step>, at: Site, o: Oracle, f: Frame, scope: set<string>)
    requires at.In? && Covers(scope, f.ids) && !Unchecked(steps)
    ensures Sound(ExecSequence(steps, at, o, f), ValidateSequence(steps, Static(at), scope))
    decreases steps, 0
  {
    if steps != [] {
      var r, v := ExecStep(steps[0], at, o, f), ValidateStep(steps[0], Static(at), scope);
      StepCovered(steps[0], at, o, f, scope);
      SequenceGrows(steps[1..], Next(Static(at)), v.scope);
      SequenceCovered(steps[1..], Next(at), o, r.frame, v.scope);
      var rest := ExecSequence(steps[1..], Next(at), o, r.frame);
      var restV := ValidateSequence(steps[1..], Next(Static(at)), v.scope);
      CoveredBoth(v.points, restV.points, v.points + restV.points, r.seen, rest.seen);
      CoveredMore(v.points, v.points + restV.points, r.seen);
    }
  }

  lemma {:induction false} StepCovered(step: Step, at: Site, o: Oracle, f: Frame, scope: set<string>)
    requires at.In? && Covers(scope, f.ids) && !StepUnchecked(step)
    ensures Sound(ExecStep(step, at, o, f), ValidateStep(step, Static(at), scope))
    decreases step, 4
  {
    var g, v := f.(context := Turn(f.context, o(at).ends)), ValidateStep(step, Static(at), scope);
    StepGrows(step, Static(at), scope);
    CoveredPoint(v.points, at, scope, f.ids);
    if KeepsRecord(step.kind) {
      RecordedCovered(step, at, o, g, scope);
    } else {
      BlockCovered(step, at, o, g, scope);
    }
  }

  lemma {:induction false} BlockCovered(step: Step, at: Site, o: Oracle, f: Frame, scope: set<string>)
    requires at.In? && Covers(scope, f.ids) && !StepUnchecked(step) && !KeepsRecord(step.kind)
    ensures Sound(ExecBlock(step, at, o, f), ValidateStep(step, Static(at), scope))
    decreases step, 3
  {
    StepGrows(step, Static(at), scope);
    match step.kind
    case Return =>
    case Conditional(body) => BodyCovered(step, body, at, o, f, scope);
    case Scoped(body) => BodyCovered(step, body, at, o, f, scope);
    case Executor(_, _) => ScopeCovered(step, at, o, f, scope);
    case Concurrent(_, _, _) => GroupCovered(step, at, o, f, scope);
  }

  lemma {:induction false} RecordedCovered(step: Step, at: Site, o: Oracle, f: Frame, scope: set<string>)
    requires at.In? && Covers(scope, f.ids) && !StepUnchecked(step) && KeepsRecord(step.kind)
    ensures Sound(ExecRecorded(step, at, o, f), ValidateStep(step, Static(at), scope))
    decreases step, 3
  {
    StepGrows(step, Static(at), scope);
    if step.kind.Worktree? {
      ScopeCovered(step, at, o, f, scope);
    } else {
      PrivateCovered(step, at, o, f, scope);
    }
  }

  lemma {:induction false} PrivateCovered(step: Step, at: Site, o: Oracle, f: Frame, scope: set<string>)
    requires at.In? && Covers(scope, f.ids) && !StepUnchecked(step) && KeepsRecord(step.kind) && !step.kind.Worktree?
    ensures Covered(ValidateStep(step, Static(at), scope).points, ExecPrivate(step, at, o, f).seen)
    decreases step, 2
  {
    match step.kind
    case Leaf(_, _) =>
    case Fanout(_, _) => IterationsCovered(step, at, o, f, scope, o(at).passes);
    case Attempt(_, _) => PassesCovered(step, at, o, f, scope, o(at).passes);
    case Once(body) => BodyCovered(step, body, at, o, Private(f), scope);
    case TryCatch(_, _) => TryCovered(step, at, o, Private(f).(registered := {}), scope);
    case CancelOn(_, _) => RaceCovered(step, at, o, f, scope);
  }

  lemma {:induction false} RaceCovered(step: Step, at: Site, o: Oracle, f: Frame, scope: set<string>)
    requires at.In? && Covers(scope, f.ids) && !StepUnchecked(step) && step.kind.CancelOn?
    ensures Covered(ValidateStep(step, Static(at), scope).points, ExecRace(step, at, o, f).seen)
    decreases step, 1
  {
    var monitors, v := step.kind.monitors, ValidateStep(step, Static(at), scope);
    var watched := ExecMonitors(monitors, In(at, Monitor, 0), o, Private(f));
    MonitorsCovered(monitors, In(at, Monitor, 0), o, Private(f), scope);
    CoveredMore(ValidateMonitors(monitors, In(Static(at), Monitor, 0), scope), v.points, watched.seen);
    BodyCovered(step, step.kind.body, at, o, Fork(f, watched.frame), scope);
  }

  /** The body of a block or of a control with one run. */
  lemma {:induction false} BodyCovered(step: Step, body: seq<Step>, at: Site, o: Oracle, f: Frame, scope: set<string>)
    requires at.In? && Covers(scope, f.ids) && !StepUnchecked(step)
    requires step.kind.Conditional? || step.kind.Scoped? || step.kind.Once? || step.kind.CancelOn?
    requires body == step.kind.body
    ensures Covered(ValidateStep(step, Static(at), scope).points, ExecSequence(body, In(at, Body, 0), o, f).seen)
    ensures Covers(ValidateSequence(body, In(Static(at), Body, 0), scope).scope,
                   ExecSequence(body, In(at, Body, 0), o, f).frame.ids)
    decreases step, 0
  {
    SequenceCovered(body, In(at, Body, 0), o, f, scope);
    CoveredMore(ValidateSequence(body, In(Static(at), Body, 0), scope).points,
                ValidateStep(step, Static(at), scope).points,
                ExecSequence(body, In(at, Body, 0), o, f).seen);
  }

  lemma {:induction false} ScopeCovered(step: Step, at: Site, o: Oracle, f: Frame, scope: set<string>)
    requires at.In? && Covers(scope, f.ids) && !StepUnchecked(step)
    requires step.kind.Executor? || step.kind.Worktree?
    ensures Sound(ExecScope(step, at, o, f), ValidateStep(step, Static(at), scope))
    decreases step, 0
  {
    var body, start, place := step.kind.body, BodyAt(step, at), BodyAt(step, Static(at));
    var points := ValidateStep(step, Static(at), scope).points;
    var main, v := ExecSequence(body, start, o, EnterScope(f)), ValidateSequence(body, place, scope);
    SequenceCovered(body, start, o, EnterScope(f), scope);
    var inner := Cleaning(main.frame);
    var defers, d := ExecDefers(body, start, o, inner), ValidateDefers(body, place, v.scope);
    DefersCovered(body, start, o, inner, v.scope);
    CoveredBoth(v.points, d.points, points, main.seen, defers.seen);
    if step.kind.Executor? {
      var finals := ExecEach(step.kind.finale, In(at, ExecutorFinally, 0), o, defers.frame);
      EachCovered(step.kind.finale, In(at, ExecutorFinally, 0), o, defers.frame, d.scope);
      CoveredMore(ValidateSequence(step.kind.finale, In(Static(at), ExecutorFinally, 0), d.scope).points, points,
                  finals.seen);
    }
  }

  lemma {:induction false} EachCovered(steps: seq<Step>, at: Site, o: Oracle, f: Frame, scope: set<string>)
    requires at.In? && Covers(scope, f.ids) && !Unchecked(steps)
    ensures Sound(ExecEach(steps, at, o, f), ValidateSequence(steps, Static(at), scope))
    decreases steps, 0
  {
    if steps != [] {
      var r, v := ExecStep(steps[0], at, o, f), ValidateStep(steps[0], Static(at), scope);
      StepCovered(steps[0], at, o, f, scope);
      EachCovered(steps[1..], Next(at), o, r.frame, v.scope);
      var restV := ValidateSequence(steps[1..], Next(Static(at)), v.scope);
      CoveredBoth(v.points, restV.points, v.points + restV.points, r.seen,
                  ExecEach(steps[1..], Next(at), o, r.frame).seen);
    }
  }

  lemma {:induction false} RescueCovered(steps: seq<Step>, at: Site, o: Oracle, f: Frame, scope: set<string>)
    requires at.In? && Covers(scope, f.ids) && !Unchecked(steps)
    ensures Sound(ExecRescue(steps, at, o, f), ValidateSequence(steps, Static(at), scope))
    decreases steps, 0
  {
    if steps != [] {
      var r, v := ExecStep(steps[0], at, o, f), ValidateStep(steps[0], Static(at), scope);
      StepCovered(steps[0], at, o, f, scope);
      SequenceGrows(steps[1..], Next(Static(at)), v.scope);
      RescueCovered(steps[1..], Next(at), o, r.frame, v.scope);
      var restV := ValidateSequence(steps[1..], Next(Static(at)), v.scope);
      CoveredBoth(v.points, restV.points, v.points + restV.points, r.seen,
                  ExecRescue(steps[1..], Next(at), o, r.frame).seen);
      CoveredMore(v.points, v.points + restV.points, r.seen);
    }
  }

  lemma {:induction false} DefersCovered(steps: seq<Step>, at: Site, o: Oracle, f: Frame, scope: set<string>)
    requires at.In? && Covers(scope, f.ids) && !UncheckedDefers(steps)
    ensures Sound(ExecDefers(steps, at, o, f), ValidateDefers(steps, Static(at), scope))
    decreases steps, 0
  {
    if steps != [] {
      var later, laterV := ExecDefers(steps[1..], Next(at), o, f), ValidateDefers(steps[1..], Next(Static(at)), scope);
      DefersCovered(steps[1..], Next(at), o, f, scope);
      StepDefersCovered(steps[0], at, o, later.frame, laterV.scope);
      var mineV := ValidateStepDefers(steps[0], Static(at), laterV.scope);
      CoveredBoth(laterV.points, mineV.points, laterV.points + mineV.points,
                  later.seen, ExecStepDefers(steps[0], at, o, later.frame).seen);
    }
  }

  lemma {:induction false} StepDefersCovered(step: Step, at: Site, o: Oracle, f: Frame, scope: set<string>)
    requires Covers(scope, f.ids) && !StepUncheckedDefers(step)
    ensures Sound(ExecStepDefers(step, at, o, f), ValidateStepDefers(step, Static(at), scope))
    decreases step, 0
  {
    StepDefersGrow(step, Static(at), scope);
    match step.kind
    case Conditional(body) => DefersCovered(body, In(at, Body, 0), o, f, scope);
    case Scoped(body) => DefersCovered(body, In(at, Body, 0), o, f, scope);
    case Leaf(deferred, _) => EachCovered(deferred, In(at, Deferred, 0), o, f, scope);
    case _ =>
  }

  lemma {:induction false} IterationsCovered(step: Step, at: Site, o: Oracle, f: Frame, scope: set<string>, n: nat)
    requires at.In? && Covers(scope, f.ids) && !StepUnchecked(step) && step.kind.Fanout?
    ensures Covered(ValidateStep(step, Static(at), scope).points, ExecIterations(step.kind.body, at, o, f, n).seen)
    decreases step, 0, n
  {
    if n > 0 {
      var body, points := step.kind.body, ValidateStep(step, Static(at), scope).points;
      var before := ExecIterations(body, at, o, f, n - 1);
      IterationsCovered(step, at, o, f, scope, n - 1);
      var start, g := In(Pass(at, n - 1), Body, 0), Fork(f, before.frame);
      var r, v := ExecSequence(body, start, o, g), ValidateSequence(body, In(Static(at), Body, 0), scope);
      assert Static(start) == In(Static(at), Body, 0);
      SequenceCovered(body, start, o, g, scope);
      CoveredBoth(points, v.points, points, before.seen, r.seen);
      CoveredPoint(points, In(at, CollectExpression, 0), v.scope, r.frame.ids);
    }
  }

  lemma {:induction false} PassesCovered(step: Step, at: Site, o: Oracle, f: Frame, scope: set<string>, n: nat)
    requires at.In? && Covers(scope, f.ids) && !StepUnchecked(step) && step.kind.Attempt?
    ensures Covered(ValidateStep(step, Static(at), scope).points, ExecPasses(step.kind.body, at, o, f, n).seen)
    decreases step, 0, n
  {
    if n > 0 {
      var body, points := step.kind.body, ValidateStep(step, Static(at), scope).points;
      var before := ExecPasses(body, at, o, f, n - 1);
      PassesCovered(step, at, o, f, scope, n - 1);
      var start, g := In(Pass(at, n - 1), Body, 0), Fork(f, before.frame);
      var r, v := ExecSequence(body, start, o, g), ValidateSequence(body, In(Static(at), Body, 0), scope);
      assert Static(start) == In(Static(at), Body, 0);
      SequenceCovered(body, start, o, g, scope);
      SequenceGrows(body, In(Static(at), Body, 0), scope);
      CoveredBoth(points, v.points, points, before.seen, r.seen);
      CoveredPoint(points, In(at, UntilExpression, 0), v.scope, r.frame.ids);
      CoveredPoint(points, In(at, WhenExpression, 0), v.scope, f.ids);
    }
  }

  lemma {:induction false} TryCovered(step: Step, at: Site, o: Oracle, f: Frame, scope: set<string>)
    requires at.In? && Covers(scope, f.ids) && !StepUnchecked(step) && step.kind.TryCatch? && f.registered == {}
    ensures Covered(ValidateStep(step, Static(at), scope).points, ExecTryCatch(step, at, o, f).seen)
    decreases step, 0
  {
    var body, rescue, place := step.kind.body, step.kind.rescue, Static(at);
    var points := ValidateStep(step, place, scope).points;
    var attempted, v := ExecSequence(body, In(at, Body, 0), o, f), ValidateSequence(body, In(place, Body, 0), scope);
    SequenceCovered(body, In(at, Body, 0), o, f, scope);
    var r := ValidateSequence(rescue, In(place, Rescue, 0), v.scope);
    SequenceGrows(rescue, In(place, Rescue, 0), v.scope);
    var rescued := ExecCatch(step, at, o, attempted);
    var g := Shielded(rescued.frame);
    if body == [] {
      NothingRegistered(rescue, In(at, Rescue, 0), o, g);
      DefersGrow(rescue, In(place, Rescue, 0), r.scope);
    } else {
      RescueCovered(rescue, In(at, Rescue, 0), o, attempted.frame, v.scope);
      DefersCovered(rescue, In(at, Rescue, 0), o, g, r.scope);
    }
    var later, laterV := ExecDefers(rescue, In(at, Rescue, 0), o, g),
      ValidateDefers(rescue, In(place, Rescue, 0), r.scope);
    var earlier := ExecDefers(body, In(at, Body, 0), o, later.frame);
    DefersCovered(body, In(at, Body, 0), o, later.frame, laterV.scope);
    CoveredMore(v.points, points, attempted.seen);
    CoveredMore(r.points, points, rescued.seen);
    CoveredMore(laterV.points, points, later.seen);
    CoveredMore(ValidateDefers(body, In(place, Body, 0), laterV.scope).points, points, earlier.seen);
  }

  lemma {:induction false} MonitorsCovered(monitors: seq<Step>, at: Site, o: Oracle, f: Frame, scope: set<string>)
    requires at.In? && Covers(scope, f.ids) && !Unchecked(monitors)
    ensures Covered(ValidateMonitors(monitors, Static(at), scope), ExecMonitors(monitors, at, o, f).seen)
    decreases monitors, 0
  {
    if monitors != [] {
      var r := ExecStep(monitors[0], at, o, f);
      StepCovered(monitors[0], at, o, f, scope);
      MonitorsCovered(monitors[1..], Next(at), o, Keep(f, r.frame), scope);
      CoveredBoth(ValidateStep(monitors[0], Static(at), scope).points,
                  ValidateMonitors(monitors[1..], Next(Static(at)), scope),
                  ValidateMonitors(monitors, Static(at), scope),
                  r.seen, ExecMonitors(monitors[1..], Next(at), o, Keep(f, r.frame)).seen);
    }
  }

  // ---------------------------------------------------------------------------------------
  // Groups

  lemma {:induction false} BranchPoints(rest: seq<Step>, at: Site, scope: set<string>, branches: seq<Step>, k: nat,
                                        j: nat)
    requires j < |rest|
    ensures ValidateStep(rest[j], In(at, Branch, k + j), BranchScope(branches, scope, k + j)).points <=
      ValidateBranches(rest, at, scope, branches, k)
    decreases j
  {
    if j > 0 {
      BranchPoints(rest[1..], at, scope, branches, k + 1, j - 1);
    }
  }

  lemma {:induction false} SelectedAt(steps: seq<Step>, k: nat)
    requires k < |steps|
    ensures SelectedStep(steps[k]) <= Selected(steps)
  {
    if k > 0 {
      SelectedAt(steps[1..], k - 1);
    }
  }

  ghost predicate DoneCovered(points: set<Observation>, done: map<nat, Result>) {
    forall k :: k in done ==> Covered(points, done[k].seen)
  }

  /** What a branch reads of its ancestors, the validator gives it in scope. */
  lemma ReadCovered(branches: seq<Step>, ids: set<string>, scope: set<string>, done: map<nat, Result>, k: nat)
    requires Covers(scope, ids)
    ensures Covers(BranchScope(branches, scope, k), ReadIds(branches, ids, done, k))
  {
    forall id | id in ReadIds(branches, ids, done, k) && id != ""
      ensures id in BranchScope(branches, scope, k)
    {
      if id !in ids {
        var a :| a in done && Depends(NeedEdges(branches), k, a) && id in BranchIds(branches, done, a);
        assert id in NeededIds(branches, k);
      }
    }
  }

  lemma {:induction false} BranchCovered(step: Step, at: Site, o: Oracle, f: Frame, scope: set<string>, k: nat)
    requires at.In? && !StepUnchecked(step) && step.kind.Concurrent? && k < |step.kind.body|
    requires Covers(BranchScope(step.kind.body, scope, k), f.ids)
    ensures Covered(ValidateStep(step, Static(at), scope).points,
                    ExecStep(step.kind.body[k], In(at, Branch, k), o, f).seen)
    decreases step, 0
  {
    var branches, seen := step.kind.body, BranchScope(step.kind.body, scope, k);
    UncheckedAt(branches, k);
    StepCovered(branches[k], In(at, Branch, k), o, f, seen);
    BranchPoints(branches, Static(at), scope, branches, 0, k);
    CoveredMore(ValidateStep(branches[k], In(Static(at), Branch, k), seen).points,
                ValidateStep(step, Static(at), scope).points,
                ExecStep(branches[k], In(at, Branch, k), o, f).seen);
  }

  lemma {:induction false} BranchesCovered(step: Step, at: Site, o: Oracle, f: Frame, scope: set<string>,
                                           order: seq<nat>)
    requires at.In? && Covers(scope, f.ids) && !StepUnchecked(step) && step.kind.Concurrent?
    ensures DoneCovered(ValidateStep(step, Static(at), scope).points, RunBranches(step.kind, at, o, f, order).done)
    decreases step, 1, |order|
  {
    if order != [] {
      var branches := step.kind.body;
      var points := ValidateStep(step, Static(at), scope).points;
      BranchesCovered(step, at, o, f, scope, order[..|order| - 1]);
      var before := RunBranches(step.kind, at, o, f, order[..|order| - 1]);
      var k := order[|order| - 1];
      if !before.context.Over() && MayStart(step.kind, FatesOf(before.done), k) {
        ReadCovered(branches, f.ids, scope, before.done, k);
        BranchCovered(step, at, o, BranchFrame(branches, f, before, k), scope, k);
      }
    }
  }

  lemma {:induction false} GroupCovered(step: Step, at: Site, o: Oracle, f: Frame, scope: set<string>)
    requires at.In? && Covers(scope, f.ids) && !StepUnchecked(step) && step.kind.Concurrent?
    ensures Sound(ExecGroup(step, at, o, f), ValidateStep(step, Static(at), scope))
    decreases step, 2
  {
    var branches := step.kind.body;
    BranchesCovered(step, at, o, f, scope, o(at).order);
    var run := RunBranches(step.kind, at, o, f, o(at).order);
    forall a: nat, id | a in run.done && id in BranchIds(branches, run.done, a)
      ensures id in Selected(branches)
    {
      SelectedAt(branches, a);
    }
  }

  // ---------------------------------------------------------------------------------------
  // Whole workflows

  predicate WorkflowUnchecked(steps: seq<Step>, finale: seq<Step>) {
    Unchecked(steps) || UncheckedDefers(steps) || Unchecked(finale)
  }

  /** Wherever a step runs, and wherever a control evaluates an expression over its body, every step id
      the run could supply is in the validator's scope for that place. */
  lemma WorkflowCovered(steps: seq<Step>, finale: seq<Step>, o: Oracle, ids: set<string>, inherits: bool)
    requires !WorkflowUnchecked(steps, finale)
    ensures Covered(ValidateWorkflow(steps, finale, ids).points, ExecWorkflow(steps, finale, o, ids, inherits).seen)
  {
    var start := In(Workflow, Main, 0);
    var points := ValidateWorkflow(steps, finale, ids).points;
    var f := Frame(ids, false, {}, Root(inherits));
    var main, v := ExecSequence(steps, start, o, f), ValidateSequence(steps, start, ids);
    SequenceCovered(steps, start, o, f, ids);
    var inner := Cleaning(main.frame);
    var defers, d := ExecDefers(steps, start, o, inner), ValidateDefers(steps, start, v.scope);
    DefersCovered(steps, start, o, inner, v.scope);
    EachCovered(finale, In(Workflow, Finally, 0), o, defers.frame, d.scope);
    CoveredBoth(v.points, d.points, points, main.seen, defers.seen);
    CoveredMore(ValidateSequence(finale, In(Workflow, Finally, 0), d.scope).points, points,
                ExecEach(finale, In(Workflow, Finally, 0), o, defers.frame).seen);
  }
}
