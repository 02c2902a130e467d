/** Records that a run does lose: services end their scopes before recorded work, and the run succeeds. */
module RecordLoss {
  import opened Collections
  import opened StepTree
  import opened Interpreter
  import opened ServiceScopes
  import opened GroupPlans
  import opened StepAccounting
  import opened SmoothRun

  // ---------------------------------------------------------------------------------------
  // What can be lost is there

  lemma {:induction false} LosesWorkIsWork(steps: seq<Step>)
    requires LosesWork(steps) || LossyBlocks(steps) || BranchLosesWork(steps)
    ensures SkipRecords(steps) != []
    decreases steps, 0
  {
    if StepLosesWork(steps[0]) || StepLossyBlocks(steps[0]) {
      StepLosesWorkIsWork(steps[0]);
    } else if !StepStarts(steps[0]) || SkipRecords(steps[1..]) == [] {
      LosesWorkIsWork(steps[1..]);
    }
  }

  lemma {:induction false} StepLosesWorkIsWork(step: Step)
    requires StepLosesWork(step) || StepLossyBlocks(step)
    ensures SkipStepRecords(step) != []
    decreases step, 0
  {
    match step.kind
    case Conditional(body) => LosesWorkIsWork(body);
    case Scoped(body) => LosesWorkIsWork(body);
    case Executor(body, finale) =>
      if LosesWork(body) || LossyBlocks(body) {
        LosesWorkIsWork(body);
      } else if LossyDefers(body) {
        LossyDefersIsWork(body);
      } else {
        LosesWorkIsWork(finale);
      }
    case Concurrent(body, _, _) =>
      if plan: seq<Start> :| LosingPlan(step.kind, plan) {
        FeasibleIsDistinct(step.kind, plan);
        assert plan[|plan| - 1].branch == Branches(plan)[|plan| - 1];
        StartsAt(body, plan[|plan| - 1].branch);
        StartsLeaveRecords(body);
      } else {
        LosesWorkIsWork(body);
      }
  }

  lemma {:induction false} LossyDefersIsWork(steps: seq<Step>)
    requires LossyDefers(steps)
    ensures SkipDeferRecords(steps) != []
    decreases steps, 0
  {
    if StepLossyDefers(steps[0]) {
      StepLossyDefersIsWork(steps[0]);
    } else {
      LossyDefersIsWork(steps[1..]);
    }
  }

  lemma {:induction false} StepLossyDefersIsWork(step: Step)
    requires StepLossyDefers(step)
    ensures SkipStepDeferRecords(step) != []
    decreases step, 0
  {
    match step.kind
    case Conditional(body) => LossyDefersIsWork(body);
    case Scoped(body) => LossyDefersIsWork(body);
    case Leaf(deferred, _) => LosesWorkIsWork(deferred);
    case Attempt(_, deferred) => LosesWorkIsWork(deferred);
  }

  // ---------------------------------------------------------------------------------------
  // It is lost

  /** Fewer records than there is work, if the result was cut off or there is something to lose. */
  ghost predicate Short(r: Result, all: nat, loses: bool) {
    r.err != OK || loses ==> |r.records| < all
  }

  lemma {:induction false} SequenceLoses(root: Tree, steps: seq<Step>, at: Site, f: Frame)
    requires Normal(root, true, {}, at) && at.role != Branch && Stands(root, steps, at) && GroupsAcyclic(steps)
    requires Visible(root, at) && Fit(root, true, at, f, SkipRecords(steps) != [])
    ensures Short(ExecSequence(steps, at, Smooth(root, true, {}), f), |SkipRecords(steps)|,
                  (InScope(at) && LosesWork(steps)) || LossyBlocks(steps))
    decreases steps, 0, 1
  {
    if steps != [] {
      var o := Smooth(root, true, {});
      StandsNext(root, steps, at);
      SmoothStep(root, true, {}, steps[0], at, f);
      StepLoses(root, steps[0], at, f);
      StepRecords(steps[0], at, o, f);
      var r := ExecStep(steps[0], at, o, f);
      if r.err == OK {
        RestLoses(root, steps, at, f, r);
      }
    }
  }

  lemma {:induction false} RestLoses(root: Tree, steps: seq<Step>, at: Site, f: Frame, r: Result)
    requires Normal(root, true, {}, at) && at.role != Branch && GroupsAcyclic(steps)
    requires steps != [] && Stands(root, steps[1..], Next(at))
    requires Visible(root, at) && Fit(root, true, at, f, SkipRecords(steps) != []) && r.err == OK
    requires |r.records| <= |SkipStepRecords(steps[0])|
    requires Short(r, |SkipStepRecords(steps[0])|,
                   (InScope(at) && StepLosesWork(steps[0])) || StepLossyBlocks(steps[0]))
    requires !r.frame.returning && Alive(r.frame.context)
    requires |r.frame.context.serving| == |f.context.serving| && r.frame.context.shield == f.context.shield
    requires StepStarts(steps[0]) && |f.context.serving| > 1 ==> r.frame.context.Armed()
    ensures Short(Append(r, ExecSequence(steps[1..], Next(at), Smooth(root, true, {}), r.frame)), |SkipRecords(steps)|,
                  (InScope(at) && LosesWork(steps)) || LossyBlocks(steps))
    decreases steps, 0, 0
  {
    var o := Smooth(root, true, {});
    SequenceRecords(steps[1..], Next(at), o, r.frame);
    if InScope(at) && r.frame.context.Armed() && SkipRecords(steps[1..]) != [] {
      CutSequence(root, true, {}, steps[1..], Next(at), r.frame);
    } else {
      SequenceLoses(root, steps[1..], Next(at), r.frame);
    }
  }

  lemma {:induction false} StepLoses(root: Tree, step: Step, at: Site, f: Frame)
    requires Normal(root, true, {}, at) && StepAt(root, at) == Some(step) && StepGroupsAcyclic(step)
    requires Visible(root, at) && Fit(root, true, at, f, SkipStepRecords(step) != [])
    ensures Short(ExecStep(step, at, Smooth(root, true, {}), f), |SkipStepRecords(step)|,
                  (InScope(at) && StepLosesWork(step)) || StepLossyBlocks(step))
    decreases step, 4
  {
    Reached(root, true, {}, step, at, f);
    if KeepsRecord(step.kind) {
      SmoothRecorded(root, true, {}, step, at, f);
    } else {
      BlockLoses(root, step, at, f);
    }
  }

  lemma {:induction false} BlockLoses(root: Tree, step: Step, at: Site, f: Frame)
    requires Normal(root, true, {}, at) && StepAt(root, at) == Some(step) && StepGroupsAcyclic(step)
    requires Visible(root, at) && Fit(root, true, at, f, SkipStepRecords(step) != []) && !KeepsRecord(step.kind)
    ensures Short(ExecBlock(step, at, Smooth(root, true, {}), f), |SkipStepRecords(step)|,
                  (InScope(at) && StepLosesWork(step)) || StepLossyBlocks(step))
    decreases step, 3
  {
    match step.kind
    case Return =>
    case Conditional(body) => SequenceLoses(root, body, In(at, Body, 0), f);
    case Scoped(body) => SequenceLoses(root, body, In(at, Body, 0), f);
    case Executor(_, _) => ScopeLoses(root, step, at, f);
    case Concurrent(_, _, _) => GroupLoses(root, step, at, f);
  }

  lemma {:induction false} ScopeLoses(root: Tree, step: Step, at: Site, f: Frame)
    requires at.In? && StepAt(root, at) == Some(step) && StepGroupsAcyclic(step) && step.kind.Executor?
    requires Visible(root, at) && Fit(root, true, at, f, false)
    ensures Short(ExecScope(step, at, Smooth(root, true, {}), f), |SkipStepRecords(step)|, StepLossyBlocks(step))
    decreases step, 2
  {
    var o, body, start, inner := Smooth(root, true, {}), step.kind.body, BodyAt(step, at), EnterScope(f);
    SmoothScope(root, true, {}, step, at, f);
    ChildrenStand(root, step, at, start.role, body);
    SmoothSequence(root, true, {}, body, start, inner);
    SequenceLoses(root, body, start, inner);
    SequenceRecords(body, start, o, inner);
    var main := ExecSequence(body, start, o, inner);
    CleanupRecords(step, at, o, Cleaning(main.frame));
    if main.err == OK {
      CleanupLoses(root, step, at, Cleaning(main.frame));
    }
  }

  lemma EitherIsShort(first: Result, second: Result, m: nat, n: nat, a: bool, b: bool)
    requires |first.records| <= m && |second.records| <= n
    requires (a ==> |first.records| < m) && (b ==> |second.records| < n)
    ensures a || b ==> |Both(first, second).records| < m + n
  {
  }

  lemma {:induction false} CleanupLoses(root: Tree, step: Step, at: Site, f: Frame)
    requires at.In? && StepAt(root, at) == Some(step) && StepGroupsAcyclic(step) && step.kind.Executor?
    requires Visible(root, at) && !f.returning && f.context == CLEANUP && Owners(step.kind.body) <= f.registered
    ensures LossyDefers(step.kind.body) || LossyBlocks(step.kind.finale) ==>
      |ScopeCleanup(step, at, Smooth(root, true, {}), f).records| <
        |SkipDeferRecords(step.kind.body)| + |SkipRecords(step.kind.finale)|
    decreases step, 0
  {
    var o, body, finale, start := Smooth(root, true, {}), step.kind.body, step.kind.finale, BodyAt(step, at);
    var last := In(at, ExecutorFinally, 0);
    ChildrenStand(root, step, at, start.role, body);
    ChildrenStand(root, step, at, ExecutorFinally, finale);
    var defers := ExecDefers(body, start, o, f);
    SmoothDefers(root, true, {}, body, start, f);
    DefersLose(root, body, start, f);
    DefersRecords(body, start, o, f);
    var each := ExecEach(finale, last, o, defers.frame);
    EachLoses(root, finale, last, defers.frame);
    EachRecords(finale, last, o, defers.frame);
    EitherIsShort(defers, each, |SkipDeferRecords(body)|, |SkipRecords(finale)|, LossyDefers(body),
                  LossyBlocks(finale));
  }

  lemma {:induction false} EachLoses(root: Tree, steps: seq<Step>, at: Site, f: Frame)
    requires Normal(root, true, {}, at) && at.role != Branch && Stands(root, steps, at) && GroupsAcyclic(steps)
    requires Visible(root, at) && !InScope(at) && !f.returning && f.context == CLEANUP
    ensures LossyBlocks(steps) ==> |ExecEach(steps, at, Smooth(root, true, {}), f).records| < |SkipRecords(steps)|
    decreases steps, 0
  {
    if steps != [] {
      var o := Smooth(root, true, {});
      StandsNext(root, steps, at);
      SmoothStep(root, true, {}, steps[0], at, f);
      StepLoses(root, steps[0], at, f);
      StepRecords(steps[0], at, o, f);
      var r := ExecStep(steps[0], at, o, f);
      EachLoses(root, steps[1..], Next(at), r.frame);
      EachRecords(steps[1..], Next(at), o, r.frame);
    }
  }

  lemma {:induction false} DefersLose(root: Tree, steps: seq<Step>, at: Site, f: Frame)
    requires at.In? && Stands(root, steps, at) && GroupsAcyclic(steps)
    requires Visible(root, at) && !f.returning && f.context == CLEANUP && Owners(steps) <= f.registered
    ensures LossyDefers(steps) ==>
      |ExecDefers(steps, at, Smooth(root, true, {}), f).records| < |SkipDeferRecords(steps)|
    decreases steps, 0
  {
    if steps != [] {
      var o := Smooth(root, true, {});
      StandsNext(root, steps, at);
      SmoothDefers(root, true, {}, steps[1..], Next(at), f);
      var later := ExecDefers(steps[1..], Next(at), o, f);
      DefersLose(root, steps[1..], Next(at), f);
      DefersRecords(steps[1..], Next(at), o, f);
      StepDefersLose(root, steps[0], at, later.frame);
      StepDefersRecords(steps[0], at, o, later.frame);
    }
  }

  lemma {:induction false} StepDefersLose(root: Tree, step: Step, at: Site, f: Frame)
    requires at.In? && StepAt(root, at) == Some(step) && StepGroupsAcyclic(step)
    requires Visible(root, at) && !f.returning && f.context == CLEANUP && StepOwners(step) <= f.registered
    ensures StepLossyDefers(step) ==>
      |ExecStepDefers(step, at, Smooth(root, true, {}), f).records| < |SkipStepDeferRecords(step)|
    decreases step, 0
  {
    match step.kind
    case Conditional(body) => DefersLose(root, body, In(at, Body, 0), f);
    case Scoped(body) => DefersLose(root, body, In(at, Body, 0), f);
    case Leaf(deferred, _) => EachLoses(root, deferred, In(at, Deferred, 0), f);
    case Attempt(_, deferred) => EachLoses(root, deferred, In(at, AttemptDeferred, 0), f);
    case _ =>
  }

  // ---------------------------------------------------------------------------------------
  // Groups

  ghost predicate ShortAt(branches: seq<Step>, done: map<nat, Result>, k: nat) {
    k in done && k < |branches| && |done[k].records| < |SkipStepRecords(branches[k])|
  }

  /** A group that was cut off has lost something; until then every branch that failed as planned has no
      records but its own, and every other lost what it could. */
  ghost predicate Losing(branches: seq<Step>, inScope: bool, run: GroupRun) {
    && (run.context.Over() ==> exists k :: ShortAt(branches, run.done, k))
    && (!run.context.Over() ==> forall k :: k in run.done && k < |branches| ==>
          if run.done[k].err == OK then
            (inScope && StepLosesWork(branches[k])) || StepLossyBlocks(branches[k]) ==> ShortAt(branches, run.done, k)
          else !KeepsRecord(branches[k].kind) ==> run.done[k].records == [])
  }

  /** What one branch of the plan loses. */
  ghost predicate BranchLoses(step: Step, inScope: bool, r: Result) {
    && (r.frame.context.Over() ==> |r.records| < |SkipStepRecords(step)|)
    && (!r.frame.context.Over() ==>
          if r.err == OK then
            (inScope && StepLosesWork(step)) || StepLossyBlocks(step) ==> |r.records| < |SkipStepRecords(step)|
          else !KeepsRecord(step.kind) ==> r.records == [])
  }

  lemma {:induction false} PlannedBranchLoses(root: Tree, group: Kind, at: Site, start: Start, f: Frame)
    requires GroupAt(root, true, group, at, [start])
    requires Visible(root, at) && !f.returning && Alive(f.context) && f.context.shield == 0 < |f.context.serving|
    requires InScope(at) ==> |f.context.serving| > 1
    ensures
      var k := start.branch;
      BranchLoses(group.body[k], InScope(at), ExecStep(group.body[k], In(at, Branch, k), Smooth(root, true, {}), f))
    decreases group, 0, 0
  {
    assert start in [start];
    var k := start.branch;
    var step, place := group.body[k], In(at, Branch, k);
    BranchStands(root, group, at, k);
    if InScope(at) && SkipStepRecords(step) != [] && f.context.Armed() {
      CutStep(root, true, {}, step, place, f);
    } else if !start.succeeds {
      DoomedStep(root, true, {}, step, place, f);
    } else {
      SmoothStep(root, true, {}, step, place, f);
      StepLoses(root, step, place, f);
    }
  }

  lemma NextLoses(branches: seq<Step>, inScope: bool, before: GroupRun, start: Start, r: Result)
    requires Losing(branches, inScope, before) && !before.context.Over() && start.branch < |branches|
    requires BranchLoses(branches[start.branch], inScope, r)
    ensures Losing(branches, inScope, After(before, start.branch, r))
  {
    if r.frame.context.Over() {
      assert ShortAt(branches, before.done[start.branch := r], start.branch);
    } else {
      forall k | k in before.done && k < |branches| && k != start.branch
        ensures ShortAt(branches, before.done, k) <==> ShortAt(branches, before.done[start.branch := r], k)
      {
      }
    }
  }

  lemma {:induction false} BranchesLose(root: Tree, group: Kind, at: Site, part: seq<Start>, f: Frame)
    requires GroupAt(root, true, group, at, part) && Feasible(group, part)
    requires Visible(root, at) && Fit(root, true, at, f, SkipRecords(group.body) != [])
    ensures Losing(group.body, InScope(at), RunBranches(group, at, Smooth(root, true, {}), f, Branches(part)))
    decreases group, 1, |part|
  {
    if part != [] {
      var front, start := LastOfPlan(root, true, group, at, part);
      BranchesLose(root, group, at, front, f);
      SmoothBranches(root, true, {}, group, at, front, f);
      NextBranchLoses(root, group, at, front, start, f);
    }
  }

  lemma {:induction false} NextBranchLoses(root: Tree, group: Kind, at: Site, front: seq<Start>, start: Start, f: Frame)
    requires GroupAt(root, true, group, at, [start]) && MayStart(group, PlanFates(front), start.branch)
    requires Visible(root, at) && Fit(root, true, at, f, SkipRecords(group.body) != [])
    requires
      var before := RunBranches(group, at, Smooth(root, true, {}), f, Branches(front));
      && Following(true, group, front, f, true, InScope(at), before)
      && Losing(group.body, InScope(at), before)
    ensures Losing(group.body, InScope(at),
                   RunBranches(group, at, Smooth(root, true, {}), f, Branches(front + [start])))
    decreases group, 0, 1
  {
    var o, k := Smooth(root, true, {}), start.branch;
    var before := RunBranches(group, at, o, f, Branches(front));
    RunNext(group, at, o, f, front, start);
    if !before.context.Over() {
      var g := BranchFrame(group.body, f, before, k);
      PlannedBranchLoses(root, group, at, start, g);
      NextLoses(group.body, InScope(at), before, start, ExecStep(group.body[k], In(at, Branch, k), o, g));
    }
  }

  lemma {:induction false} GroupIsShort(branches: seq<Step>, done: map<nat, Result>, n: nat, k: nat)
    requires k < n <= |branches| && |BranchRecord(branches, done, k)| < |SkipStepRecords(branches[k])|
    requires forall j :: j in done && j < |branches| ==> |done[j].records| <= |SkipStepRecords(branches[j])|
    ensures |GroupRecords(branches, done, n)| < |SkipRecords(branches[..n])|
  {
    SkipRecordsEnd(branches, n);
    if k == n - 1 {
      GroupRecordsBound(branches, done, n - 1);
    } else {
      GroupIsShort(branches, done, n - 1, k);
    }
  }

  lemma {:induction false} SomeBranchLoses(branches: seq<Step>, inScope: bool) returns (k: nat)
    requires (inScope && BranchLosesWork(branches)) || LossyBlocks(branches)
    ensures k < |branches| && ((inScope && StepLosesWork(branches[k])) || StepLossyBlocks(branches[k]))
  {
    if (inScope && StepLosesWork(branches[0])) || StepLossyBlocks(branches[0]) {
      k := 0;
    } else {
      var rest := SomeBranchLoses(branches[1..], inScope);
      k := rest + 1;
    }
  }

  /** A group that followed its plan and lost something. */
  lemma PlanLoses(group: Kind, plan: seq<Start>, inScope: bool, run: GroupRun) returns (k: nat)
    requires group.Concurrent? && Losing(group.body, inScope, run)
    requires !run.context.Over() ==> FatesOf(run.done) == PlanFates(plan)
    requires run.context.Over() || LosingPlan(group, plan) ||
        (FullPlan(group, plan) && ((inScope && BranchLosesWork(group.body)) || LossyBlocks(group.body)))
    ensures k < |group.body| && |BranchRecord(group.body, run.done, k)| < |SkipStepRecords(group.body[k])|
  {
    if run.context.Over() {
      k :| ShortAt(group.body, run.done, k);
    } else if LosingPlan(group, plan) {
      k :| Unsettled(group.body, PlanFates(plan), k);
      assert k in run.done <==> k in FatesOf(run.done);
    } else {
      k := SomeBranchLoses(group.body, inScope);
      AllSucceeded(plan);
      assert k in FatesOf(run.done) && FatesOf(run.done)[k];
    }
  }

  lemma {:induction false} GroupLoses(root: Tree, step: Step, at: Site, f: Frame)
    requires Normal(root, true, {}, at) && StepAt(root, at) == Some(step) && StepGroupsAcyclic(step)
    requires Visible(root, at) && step.kind.Concurrent? && Fit(root, true, at, f, SkipStepRecords(step) != [])
    ensures Short(ExecGroup(step, at, Smooth(root, true, {}), f), |SkipStepRecords(step)|,
                  (InScope(at) && StepLosesWork(step)) || StepLossyBlocks(step))
    decreases step, 1
  {
    var group, o := step.kind, Smooth(root, true, {});
    var plan := PlanOf(group, InScope(at));
    assert Cutting(root, true, at) <==> InScope(at);
    PlanChosen(group, InScope(at));
    PlanIsFollowed(root, true, step, at);
    var order := Branches(plan);
    assert o(at).order == order;
    SmoothBranches(root, true, {}, group, at, plan, f);
    BranchesLose(root, group, at, plan, f);
    BranchRecords(group, at, o, f, order);
    var run := RunBranches(group, at, o, f, order);
    SmoothGroup(root, true, {}, step, at, f);
    if ExecGroup(step, at, o, f).err != OK || (InScope(at) && StepLosesWork(step)) || StepLossyBlocks(step) {
      GroupHasLost(step, f, plan, InScope(at), run, o(at), Shown(root, true, at));
    }
  }

  lemma GroupHasLost(step: Step, f: Frame, plan: seq<Start>, inScope: bool, run: GroupRun, c: Choice, shown: bool)
    requires step.kind.Concurrent? && Losing(step.kind.body, inScope, run) && GroupBounded(step.kind.body, run)
    requires Following(true, step.kind, plan, f, shown, inScope, run) && c.error == OK
    requires inScope && Loses(step.kind) ==> LosingPlan(step.kind, plan)
    requires !(inScope && Loses(step.kind)) ==> FullPlan(step.kind, plan) && c.during == 0
    requires GroupResult(step, f, run, c).err != OK || (inScope && StepLosesWork(step)) || StepLossyBlocks(step)
    ensures |GroupRecords(step.kind.body, run.done, |step.kind.body|)| < |SkipStepRecords(step)|
  {
    if !(inScope && Loses(step.kind)) && !run.context.Over() {
      FullPlanSucceeds(step.kind, plan, run.(context := Turn(run.context, 0)), c);
    }
    PlanHasLost(step, plan, inScope, run);
  }

  lemma PlanHasLost(step: Step, plan: seq<Start>, inScope: bool, run: GroupRun)
    requires step.kind.Concurrent? && Losing(step.kind.body, inScope, run) && GroupBounded(step.kind.body, run)
    requires !run.context.Over() ==> FatesOf(run.done) == PlanFates(plan)
    requires run.context.Over() || LosingPlan(step.kind, plan) ||
        (FullPlan(step.kind, plan) && ((inScope && BranchLosesWork(step.kind.body)) || LossyBlocks(step.kind.body)))
    ensures |GroupRecords(step.kind.body, run.done, |step.kind.body|)| < |SkipStepRecords(step)|
  {
    var k := PlanLoses(step.kind, plan, inScope, run);
    WholeGroupIsShort(step.kind.body, run.done, k);
  }

  lemma WholeGroupIsShort(branches: seq<Step>, done: map<nat, Result>, k: nat)
    requires k < |branches| && |BranchRecord(branches, done, k)| < |SkipStepRecords(branches[k])|
    requires forall j :: j in done && j < |branches| ==> |done[j].records| <= |SkipStepRecords(branches[j])|
    ensures |GroupRecords(branches, done, |branches|)| < |SkipRecords(branches)|
  {
    GroupIsShort(branches, done, |branches|, k);
    assert branches[..|branches|] == branches;
  }

  // ---------------------------------------------------------------------------------------
  // The exact condition

  /** Every run that succeeds leaves the records of all its steps; `called` if a step may call it in a scope
      which a service may end. */
  ghost predicate AlwaysAccounted(steps: seq<Step>, finale: seq<Step>, called: bool) {
    forall o: Oracle, ids: set<string>, inherits: bool ::
      (inherits ==> called) && ExecWorkflow(steps, finale, o, ids, inherits).err == OK ==>
        |ExecWorkflow(steps, finale, o, ids, inherits).records| == AllRecords(steps, finale)
  }

  /** A run that is called in a scope which a service may end loses work if it has any main steps that leave
      records; cleanup and final steps are as in any run. */
  ghost predicate CalledLosesWork(steps: seq<Step>, finale: seq<Step>) {
    SkipRecords(steps) != [] || LossyBlocks(finale)
  }

  ghost predicate RunLosesWork(steps: seq<Step>, finale: seq<Step>, called: bool) {
    if called then CalledLosesWork(steps, finale) else WorkflowLosesWork(steps, finale)
  }

  lemma WorkflowLoses(steps: seq<Step>, finale: seq<Step>, ids: set<string>) returns (o: Oracle)
    requires WorkflowLosesWork(steps, finale) && GroupsAcyclic(steps) && GroupsAcyclic(finale)
    ensures var r := ExecWorkflow(steps, finale, o, ids, false); r.err == OK && |r.records| < AllRecords(steps, finale)
  {
    var root, start, f := Tree(steps, finale), In(Workflow, Main, 0), Frame(ids, false, {}, Root(false));
    o := Smooth(root, true, {});
    assert Stands(root, steps, start);
    SmoothSequence(root, true, {}, steps, start, f);
    SequenceLoses(root, steps, start, f);
    SequenceRecords(steps, start, o, f);
    var main := ExecSequence(steps, start, o, f);
    EndingLoses(root, Cleaning(main.frame), main.err == OK);
    EndingRecords(steps, finale, o, Cleaning(main.frame));
  }

  lemma EndingLoses(root: Tree, f: Frame, registered: bool)
    requires GroupsAcyclic(root.main) && GroupsAcyclic(root.finale) && !f.returning && f.context == CLEANUP
    requires registered ==> Owners(root.main) <= f.registered
    ensures
      var r := Ending(root.main, root.finale, Smooth(root, true, {}), f);
      && r.err == OK
      && (registered && (LossyDefers(root.main) || LossyBlocks(root.finale)) ==>
            |r.records| < |SkipDeferRecords(root.main)| + |SkipRecords(root.finale)|)
      && (LossyBlocks(root.finale) ==> |r.records| < |SkipDeferRecords(root.main)| + |SkipRecords(root.finale)|)
  {
    var o, start, last := Smooth(root, true, {}), In(Workflow, Main, 0), In(Workflow, Finally, 0);
    assert Stands(root, root.main, start) && Stands(root, root.finale, last);
    SmoothDefers(root, true, {}, root.main, start, f);
    var defers := ExecDefers(root.main, start, o, f);
    DefersRecords(root.main, start, o, f);
    SmoothEach(root, true, {}, root.finale, last, defers.frame);
    EachLoses(root, root.finale, last, defers.frame);
    EachRecords(root.finale, last, o, defers.frame);
    if registered {
      DefersLose(root, root.main, start, f);
    }
  }

  /** The scope the run was called in ends as its first step is reached. */
  lemma CalledRunIsCut(steps: seq<Step>, o: Oracle, ids: set<string>)
    requires SkipRecords(steps) != [] && o(In(Workflow, Main, 0)).ends == 2
    ensures
      var main := ExecMain(steps, o, ids, true);
      main.records == [] && Foreground(main) == OK && main.frame.registered == {}
  {
    var at, f := In(Workflow, Main, 0), Frame(ids, false, {}, Root(true));
    assert Turn(f.context, 2).live == 0;
    assert ExecStep(steps[0], at, o, f).err == CANCELED;
  }

  /** Then the run succeeds, with the records of its cleanup, all skipped, and of its final steps. */
  lemma CalledRunLoses(steps: seq<Step>, finale: seq<Step>, ids: set<string>) returns (o: Oracle)
    requires SkipRecords(steps) != [] && GroupsAcyclic(finale)
    ensures var r := ExecWorkflow(steps, finale, o, ids, true); r.err == OK && |r.records| < AllRecords(steps, finale)
  {
    var root, start, last := Tree([], finale), In(Workflow, Main, 0), In(Workflow, Finally, 0);
    o := Smooth(root, true, {});
    assert StepAt(root, start) == None;
    CalledRunIsCut(steps, o, ids);
    var f := Cleaning(ExecMain(steps, o, ids, true).frame);
    NothingRegistered(steps, start, o, f);
    DefersRecords(steps, start, o, f);
    assert Stands(root, finale, last);
    SmoothEach(root, true, {}, finale, last, f);
    EachRecords(finale, last, o, f);
  }

  /** Without recorded main steps there is nothing for the end of any scope of the main steps to cut off. */
  lemma NothingToCut(steps: seq<Step>, finale: seq<Step>, o: Oracle, ids: set<string>, inherits: bool)
    requires !CalledLosesWork(steps, finale)
    ensures !WorkflowLosesWork(steps, finale)
    ensures
      var r := ExecWorkflow(steps, finale, o, ids, inherits);
      r.err == OK ==> |r.records| == AllRecords(steps, finale)
  {
    if LosesWork(steps) || LossyBlocks(steps) {
      LosesWorkIsWork(steps);
    }
    NoRecordsNoDefers(steps);
    if LossyDefers(steps) {
      LossyDefersIsWork(steps);
    }
    var main := ExecMain(steps, o, ids, inherits);
    SequenceRecords(steps, In(Workflow, Main, 0), o, Frame(ids, false, {}, Root(inherits)));
    EndingRecords(steps, finale, o, Cleaning(main.frame));
  }

  /** A run whose services end their scopes can lose records and succeed exactly if, in the run's own scope
      or in that of a recorded executor block, a step that starts such a service may come before recorded
      work; a run called in a scope that a service may end, exactly if there is recorded work in its main
      steps or its final steps have a block that loses some. */
  lemma AlwaysAccountedIff(steps: seq<Step>, finale: seq<Step>, called: bool)
    requires GroupsAcyclic(steps) && GroupsAcyclic(finale)
    ensures AlwaysAccounted(steps, finale, called) <==> !RunLosesWork(steps, finale, called)
  {
    if called && SkipRecords(steps) != [] {
      var o := CalledRunLoses(steps, finale, {});
    } else if RunLosesWork(steps, finale, called) {
      var o := WorkflowLoses(steps, finale, {});
    } else {
      forall o: Oracle, ids: set<string>, inherits: bool |
          (inherits ==> called) && ExecWorkflow(steps, finale, o, ids, inherits).err == OK
        ensures |ExecWorkflow(steps, finale, o, ids, inherits).records| == AllRecords(steps, finale)
      {
        if called {
          NothingToCut(steps, finale, o, ids, inherits);
        } else {
          UncalledGoesOn(steps, o, ids);
          WorkflowRecords(steps, finale, o, ids, inherits);
        }
      }
    }
  }

  lemma UncalledGoesOn(steps: seq<Step>, o: Oracle, ids: set<string>)
    ensures !ExecMain(steps, o, ids, false).frame.context.CutOutside()
  {
    SequenceKeeps(steps, In(Workflow, Main, 0), o, Frame(ids, false, {}, Root(false)));
  }
}
