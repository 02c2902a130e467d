/** How many records an execution leaves, against what skipping the same steps leaves. */
module StepAccounting {
  import opened ConcurrentGraph
  import opened GroupPlans
  import opened StepTree
  import opened Interpreter
  import opened ServiceScopes

  // ---------------------------------------------------------------------------------------
  // Where records can be lost

  /** A service that ends the scope the steps stand in may be started before recorded work of the scope. */
  ghost predicate LosesWork(steps: seq<Step>)
    decreases steps, 0
  {
    steps != [] &&
    (StepLosesWork(steps[0]) || (StepStarts(steps[0]) && SkipRecords(steps[1..]) != []) || LosesWork(steps[1..]))
  }

  ghost predicate StepLosesWork(step: Step)
    decreases step, 0
  {
    match step.kind
    case Conditional(body) => LosesWork(body)
    case Scoped(body) => LosesWork(body)
    case Concurrent(body, _, _) => BranchLosesWork(body) || exists plan :: LosingPlan(step.kind, plan)
    case _ => false
  }

  ghost predicate BranchLosesWork(branches: seq<Step>)
    decreases branches, 0
  {
    branches != [] && (StepLosesWork(branches[0]) || BranchLosesWork(branches[1..]))
  }

  /** Not all of the branch's work is recorded yet, nor will it be skipped: it has not run, or it is a block
      that failed before its own steps. */
  ghost predicate Unsettled(branches: seq<Step>, fates: Fates, k: nat) {
    && k < |branches| && SkipStepRecords(branches[k]) != []
    && if k in fates then !fates[k] && !KeepsRecord(branches[k].kind) else !Behind(branches, fates, k)
  }

  /** After it a service may end the scope, with work of another branch unsettled. */
  ghost predicate LosingPlan(group: Kind, plan: seq<Start>) {
    && group.Concurrent? && plan != [] && Feasible(group, plan)
    && plan[|plan| - 1].succeeds && StepStarts(group.body[plan[|plan| - 1].branch])
    && exists k :: Unsettled(group.body, PlanFates(plan), k)
  }

  /** Some executor block among the recorded steps has a scope that loses work. */
  ghost predicate LossyBlocks(steps: seq<Step>)
    decreases steps, 0
  {
    steps != [] && (StepLossyBlocks(steps[0]) || LossyBlocks(steps[1..]))
  }

  ghost predicate StepLossyBlocks(step: Step)
    decreases step, 0
  {
    match step.kind
    case Executor(body, finale) => LosesWork(body) || LossyBlocks(body) || LossyDefers(body) || LossyBlocks(finale)
    case Conditional(body) => LossyBlocks(body)
    case Scoped(body) => LossyBlocks(body)
    case Concurrent(body, _, _) => LossyBlocks(body)
    case _ => false
  }

  /** The same for the cleanup that a scope collects. */
  ghost predicate LossyDefers(steps: seq<Step>)
    decreases steps, 0
  {
    steps != [] && (StepLossyDefers(steps[0]) || LossyDefers(steps[1..]))
  }

  ghost predicate StepLossyDefers(step: Step)
    decreases step, 0
  {
    match step.kind
    case Conditional(body) => LossyDefers(body)
    case Scoped(body) => LossyDefers(body)
    case Leaf(deferred, _) => LossyBlocks(deferred)
    case Attempt(_, deferred) => LossyBlocks(deferred)
    case _ => false
  }

  /** The run's own scope loses work, or one of its blocks does. */
  ghost predicate WorkflowLosesWork(steps: seq<Step>, finale: seq<Step>) {
    LosesWork(steps) || LossyBlocks(steps) || LossyDefers(steps) || LossyBlocks(finale)
  }

  // ---------------------------------------------------------------------------------------
  // Which runs are safe

  /** No service that could end a scope is running yet, and none has ended one. */
  predicate Calm(c: Context) {
    c.serving != [] && !c.Ended() && forall l :: 1 <= l < |c.serving| ==> !c.serving[l]
  }

  /** No context ends in the whole run, or nothing that could be lost is left. */
  ghost predicate Undisturbed(o: Oracle, c: Context) {
    NoneEnds(o) && !c.Over()
  }

  ghost predicate Secure(c: Context, loses: bool, lossy: bool) {
    Calm(c) && !lossy && (|c.serving| > 1 ==> !loses)
  }

  /** No more records than `all`. As many, if nothing went wrong and either no context ends or nothing can
      be lost within the run and the scope it was called in did not end; then even as soon as a service
      that could end the scope is running. */
  ghost predicate Counted(o: Oracle, f: Frame, r: Result, all: nat, loses: bool, lossy: bool) {
    && |r.records| <= all
    && (Undisturbed(o, f.context) && r.err == OK ==> |r.records| == all)
    && (Secure(f.context, loses, lossy) && !r.frame.context.CutOutside() ==>
          (r.err == OK || r.frame.context.Armed() ==> |r.records| == all))
  }

  lemma CalmKept(o: Oracle, a: Context, b: Context, starts: bool)
    requires Calm(a) && Kept(o, a, b, starts)
    ensures b.Armed() ==> starts && |a.serving| > 1
    ensures b.Ended() ==> b.Armed() || b.CutOutside()
    ensures !b.Armed() && !b.CutOutside() ==> Calm(b)
  {
  }

  // ---------------------------------------------------------------------------------------
  // Sequences and blocks

  /** Any sequence that returns no error, cut short by a return at any depth or not, leaves exactly as many
      records as skipping it would, provided no context ends or nothing can be lost; in every case it
      leaves no more. */
  lemma {:induction false} SequenceRecords(steps: seq<Step>, at: Site, o: Oracle, f: Frame)
    requires at.In?
    ensures Counted(o, f, ExecSequence(steps, at, o, f), |SkipRecords(steps)|, LosesWork(steps), LossyBlocks(steps))
    decreases steps, 0
  {
    if steps != [] {
      StepRecords(steps[0], at, o, f);
      var r := ExecStep(steps[0], at, o, f);
      StepKeeps(steps[0], at, o, f);
      SequenceRecords(steps[1..], Next(at), o, r.frame);
      SequenceKeeps(steps[1..], Next(at), o, r.frame);
      if Calm(f.context) {
        CalmKept(o, f.context, r.frame.context, StepStarts(steps[0]));
      }
    }
  }

  /** No context ends in the run, or its scope has nothing to lose and the one it was called in goes on. */
  ghost predicate Spared(o: Oracle, c: Context, later: Context, steps: seq<Step>) {
    Undisturbed(o, c) || (Secure(c, LosesWork(steps), LossyBlocks(steps)) && !later.CutOutside())
  }

  lemma SparedRecords(steps: seq<Step>, at: Site, o: Oracle, f: Frame)
    requires at.In?
    ensures
      var r := ExecSequence(steps, at, o, f);
      && |r.records| <= |SkipRecords(steps)|
      && (r.err == OK && Spared(o, f.context, r.frame.context, steps) ==> |r.records| == |SkipRecords(steps)|)
  {
    SequenceRecords(steps, at, o, f);
  }

  lemma {:induction false} StepRecords(step: Step, at: Site, o: Oracle, f: Frame)
    requires at.In?
    ensures Counted(o, f, ExecStep(step, at, o, f), |SkipStepRecords(step)|, StepLosesWork(step), StepLossyBlocks(step))
    decreases step, 3
  {
    var g := f.(context := Turn(f.context, o(at).ends));
    if !KeepsRecord(step.kind) {
      BlockRecords(step, at, o, g);
    }
  }

  lemma {:induction false} BlockRecords(step: Step, at: Site, o: Oracle, f: Frame)
    requires at.In? && !KeepsRecord(step.kind)
    ensures Counted(o, f, ExecBlock(step, at, o, f), |SkipStepRecords(step)|, StepLosesWork(step),
                    StepLossyBlocks(step))
    decreases step, 2
  {
    match step.kind
    case Conditional(body) => SequenceRecords(body, In(at, Body, 0), o, f);
    case Scoped(body) => SequenceRecords(body, In(at, Body, 0), o, f);
    case Executor(body, finale) => ScopeRecords(step, at, o, f);
    case Concurrent(_, _, _) => CountGroup(step, at, o, f);
    case Return =>
  }

  lemma {:induction false} ScopeRecords(step: Step, at: Site, o: Oracle, f: Frame)
    requires step.kind.Executor?
    ensures Counted(o, f, ExecScope(step, at, o, f), |SkipStepRecords(step)|, StepLosesWork(step),
                    StepLossyBlocks(step))
    decreases step, 1
  {
    var body, inner := step.kind.body, EnterScope(f);
    var main := ExecSequence(body, BodyAt(step, at), o, inner);
    SequenceRecords(body, BodyAt(step, at), o, inner);
    SequenceKeeps(body, BodyAt(step, at), o, inner);
    CleanupRecords(step, at, o, Cleaning(main.frame));
    if Calm(f.context) {
      CalmKept(o, inner.context, main.frame.context, Starts(body));
    }
  }

  lemma {:induction false} CleanupRecords(step: Step, at: Site, o: Oracle, f: Frame)
    requires step.kind.Executor? && f.context == CLEANUP
    ensures
      var r, all := ScopeCleanup(step, at, o, f), |SkipDeferRecords(step.kind.body)| + |SkipRecords(step.kind.finale)|;
      && Counted(o, f, r, all, false, LossyDefers(step.kind.body) || LossyBlocks(step.kind.finale))
      && !r.frame.context.inherits
    decreases step, 0
  {
    var defers := ExecDefers(step.kind.body, BodyAt(step, at), o, f);
    DefersRecords(step.kind.body, BodyAt(step, at), o, f);
    DefersKeep(step.kind.body, BodyAt(step, at), o, f);
    EachRecords(step.kind.finale, In(at, ExecutorFinally, 0), o, defers.frame);
    EachKeeps(step.kind.finale, In(at, ExecutorFinally, 0), o, defers.frame);
    CalmKept(o, f.context, defers.frame.context, DefersStart(step.kind.body));
  }

  lemma {:induction false} EachRecords(steps: seq<Step>, at: Site, o: Oracle, f: Frame)
    requires at.In? && |f.context.serving| <= 1 && !f.context.inherits
    ensures Counted(o, f, ExecEach(steps, at, o, f), |SkipRecords(steps)|, false, LossyBlocks(steps))
    decreases steps, 0
  {
    if steps != [] {
      StepRecords(steps[0], at, o, f);
      var r := ExecStep(steps[0], at, o, f);
      StepKeeps(steps[0], at, o, f);
      EachRecords(steps[1..], Next(at), o, r.frame);
      EachKeeps(steps, at, o, f);
      if Calm(f.context) {
        CalmKept(o, f.context, r.frame.context, StepStarts(steps[0]));
      }
    }
  }

  lemma {:induction false} DefersRecords(steps: seq<Step>, at: Site, o: Oracle, f: Frame)
    requires at.In? && |f.context.serving| <= 1 && !f.context.inherits
    ensures Counted(o, f, ExecDefers(steps, at, o, f), |SkipDeferRecords(steps)|, false, LossyDefers(steps))
    decreases steps, 0
  {
    if steps != [] {
      var later := ExecDefers(steps[1..], Next(at), o, f);
      DefersRecords(steps[1..], Next(at), o, f);
      DefersKeep(steps[1..], Next(at), o, f);
      DefersKeep(steps, at, o, f);
      StepDefersRecords(steps[0], at, o, later.frame);
      if Calm(f.context) {
        CalmKept(o, f.context, later.frame.context, DefersStart(steps[1..]));
      }
    }
  }

  lemma {:induction false} StepDefersRecords(step: Step, at: Site, o: Oracle, f: Frame)
    requires |f.context.serving| <= 1 && !f.context.inherits
    ensures Counted(o, f, ExecStepDefers(step, at, o, f), |SkipStepDeferRecords(step)|, false, StepLossyDefers(step))
    decreases step, 0
  {
    match step.kind
    case Conditional(body) => DefersRecords(body, In(at, Body, 0), o, f);
    case Scoped(body) => DefersRecords(body, In(at, Body, 0), o, f);
    case Leaf(deferred, _) => EachRecords(deferred, In(at, Deferred, 0), o, f);
    case Attempt(_, deferred) => EachRecords(deferred, In(at, AttemptDeferred, 0), o, f);
    case _ =>
  }

  // ---------------------------------------------------------------------------------------
  // Groups

  /** Every branch that started had what it needs. */
  ghost predicate NeedsMet(branches: seq<Step>, fates: Fates) {
    forall k :: k in fates ==>
      k < |branches| && forall d :: d in NeedEdges(branches)[k] ==> d in fates && fates[d]
  }

  lemma {:induction false} PathSucceeded(branches: seq<Step>, fates: Fates, p: seq<nat>)
    requires NeedsMet(branches, fates) && IsPath(NeedEdges(branches), p)
    requires forall d :: d in NeedEdges(branches)[p[0]] ==> d in fates && fates[d]
    ensures p[|p| - 1] in fates && fates[p[|p| - 1]]
    decreases |p|
  {
    assert p[1] in NeedEdges(branches)[p[0]];
    if |p| > 2 {
      assert IsPath(NeedEdges(branches), p[1..]);
      PathSucceeded(branches, fates, p[1..]);
    }
  }

  /** What is ready is not behind a failure. */
  lemma ReadyIsNotBehind(branches: seq<Step>, fates: Fates, k: nat)
    requires NeedsMet(branches, fates) && Ready(branches, fates, k)
    ensures !Behind(branches, fates, k)
  {
    if Behind(branches, fates, k) {
      var a :| a in fates && !fates[a] && Depends(NeedEdges(branches), k, a);
      var p :| IsPath(NeedEdges(branches), p) && p[0] == k && p[|p| - 1] == a;
      PathSucceeded(branches, fates, p);
    }
  }

  ghost predicate Full(branches: seq<Step>, done: map<nat, Result>, k: nat)
    requires k < |branches|
  {
    k in done && |done[k].records| == |SkipStepRecords(branches[k])|
  }

  /** Every branch has left all its records, or will be recorded as skipped, or has none to leave. */
  ghost predicate Settled(branches: seq<Step>, done: map<nat, Result>) {
    forall k: nat :: k < |branches| ==>
      SkipStepRecords(branches[k]) == [] || Full(branches, done, k) ||
      (k !in done && Behind(branches, FatesOf(done), k))
  }

  /** A branch that succeeded left all its records, and so did any that keeps one of its own. */
  ghost predicate OnTrack(branches: seq<Step>, done: map<nat, Result>) {
    forall k :: k in done ==>
      k < |branches| && (done[k].err == OK || KeepsRecord(branches[k].kind) ==> Full(branches, done, k))
  }

  ghost predicate Planned(group: Kind, done: map<nat, Result>)
    requires group.Concurrent?
  {
    exists plan :: Feasible(group, plan) && PlanFates(plan) == FatesOf(done)
  }

  /** What holds of the branches run so far: in any case, ... */
  ghost predicate GroupBounded(branches: seq<Step>, run: GroupRun) {
    && NeedsMet(branches, FatesOf(run.done))
    && forall k :: k in run.done ==> k < |branches| && |run.done[k].records| <= |SkipStepRecords(branches[k])|
  }

  /** ... while no context ends, ... */
  ghost predicate GroupUndisturbed(group: Kind, o: Oracle, c: Context, run: GroupRun)
    requires group.Concurrent?
  {
    Undisturbed(o, c) ==> !run.context.Over() && OnTrack(group.body, run.done)
  }

  /** ... and where nothing can be lost. */
  ghost predicate GroupSecure(group: Kind, c: Context, run: GroupRun)
    requires group.Concurrent?
  {
    Secure(c, BranchLosesWork(group.body) || (exists plan :: LosingPlan(group, plan)), LossyBlocks(group.body)) &&
    !run.context.CutOutside() ==>
      if run.context.Armed() then Settled(group.body, run.done)
      else run.context.Over() || (OnTrack(group.body, run.done) && Planned(group, run.done))
  }

  ghost predicate GroupCounted(group: Kind, o: Oracle, c: Context, run: GroupRun)
    requires group.Concurrent?
  {
    GroupBounded(group.body, run) && GroupUndisturbed(group, o, c, run) && GroupSecure(group, c, run)
  }

  lemma {:induction false} BranchLosesAt(branches: seq<Step>, k: nat)
    requires k < |branches|
    ensures StepLosesWork(branches[k]) ==> BranchLosesWork(branches)
    ensures StepLossyBlocks(branches[k]) ==> LossyBlocks(branches)
  {
    if k > 0 {
      BranchLosesAt(branches[1..], k - 1);
    }
  }

  /** Unless its context is over, a step that keeps a record leaves it. */
  lemma KeptRecord(step: Step, at: Site, o: Oracle, f: Frame)
    requires at.In? && KeepsRecord(step.kind)
    ensures var r := ExecStep(step, at, o, f); r.frame.context.Over() || |r.records| == |SkipStepRecords(step)|
  {
  }

  lemma PlanNext(group: Kind, done: map<nat, Result>, k: nat, succeeds: bool) returns (plan: seq<Start>)
    requires group.Concurrent? && Planned(group, done) && MayStart(group, FatesOf(done), k)
    ensures plan != [] && Feasible(group, plan) && plan[|plan| - 1] == Start(k, succeeds)
    ensures PlanFates(plan) == FatesOf(done)[k := succeeds]
  {
    var before :| Feasible(group, before) && PlanFates(before) == FatesOf(done);
    plan := before + [Start(k, succeeds)];
    assert plan[..|plan| - 1] == before;
  }

  lemma BehindMore(branches: seq<Step>, done: map<nat, Result>, k: nat, r: Result, j: nat)
    requires k !in done && Behind(branches, FatesOf(done), j)
    ensures Behind(branches, FatesOf(done[k := r]), j)
  {
    var a :| a in FatesOf(done) && !FatesOf(done)[a] && Depends(NeedEdges(branches), j, a);
    assert a in FatesOf(done[k := r]) && !FatesOf(done[k := r])[a];
  }

  /** A branch that runs when all work is settled has none. */
  lemma StaysSettled(branches: seq<Step>, done: map<nat, Result>, k: nat, r: Result)
    requires NeedsMet(branches, FatesOf(done)) && Ready(branches, FatesOf(done), k) && Settled(branches, done)
    ensures Settled(branches, done[k := r])
  {
    ReadyIsNotBehind(branches, FatesOf(done), k);
    forall j: nat | j < |branches| && SkipStepRecords(branches[j]) != []
      ensures Full(branches, done[k := r], j) || (j !in done[k := r] && Behind(branches, FatesOf(done[k := r]), j))
    {
      assert j != k;
      if j !in done {
        BehindMore(branches, done, k, r, j);
      }
    }
  }

  /** When a service that could end the scope starts, all work is settled, for else there is a losing plan. */
  lemma ArmedIsSettled(group: Kind, done: map<nat, Result>, k: nat, r: Result)
    requires group.Concurrent? && Planned(group, done) && OnTrack(group.body, done)
    requires MayStart(group, FatesOf(done), k) && StepStarts(group.body[k])
    requires |r.records| == |SkipStepRecords(group.body[k])|
    requires !exists plan :: LosingPlan(group, plan)
    ensures Settled(group.body, done[k := r])
  {
    var branches := group.body;
    var plan := PlanNext(group, done, k, true);
    assert !LosingPlan(group, plan);
    forall j: nat | j < |branches| && SkipStepRecords(branches[j]) != []
      ensures Full(branches, done[k := r], j) || (j !in done[k := r] && Behind(branches, FatesOf(done[k := r]), j))
    {
      assert !Unsettled(branches, PlanFates(plan), j);
      if j != k && j in done {
        assert Full(branches, done, j);
      } else if j != k {
        var a :| a in PlanFates(plan) && !PlanFates(plan)[a] && Depends(NeedEdges(branches), j, a);
        assert a != k && a in FatesOf(done[k := r]) && !FatesOf(done[k := r])[a];
      }
    }
  }

  /** One more branch, with its result. */
  ghost predicate NextBranch(group: Kind, at: Site, o: Oracle, f: Frame, before: GroupRun, k: nat, r: Result)
    requires group.Concurrent?
  {
    && !before.context.Over() && MayStart(group, FatesOf(before.done), k)
    && Kept(o, f.context, before.context, Starts(group.body))
    && r == ExecStep(group.body[k], In(at, Branch, k), o, BranchFrame(group.body, f, before, k))
    && Kept(o, before.context, r.frame.context, StepStarts(group.body[k]))
    && Counted(o, BranchFrame(group.body, f, before, k), r, |SkipStepRecords(group.body[k])|,
               StepLosesWork(group.body[k]), StepLossyBlocks(group.body[k]))
  }

  function After(before: GroupRun, k: nat, r: Result): GroupRun {
    GroupRun(before.done[k := r], r.frame.registered, r.frame.context)
  }

  lemma NextBounded(group: Kind, at: Site, o: Oracle, f: Frame, before: GroupRun, k: nat, r: Result)
    requires group.Concurrent? && NextBranch(group, at, o, f, before, k, r) && GroupBounded(group.body, before)
    ensures GroupBounded(group.body, After(before, k, r))
  {
    FatesNext(before.done, k, r);
  }

  lemma NextOnTrack(group: Kind, at: Site, o: Oracle, f: Frame, before: GroupRun, k: nat, r: Result)
    requires group.Concurrent? && NextBranch(group, at, o, f, before, k, r) && OnTrack(group.body, before.done)
    requires !r.frame.context.Over() && (r.err == OK ==> |r.records| == |SkipStepRecords(group.body[k])|)
    ensures OnTrack(group.body, before.done[k := r])
  {
    if KeepsRecord(group.body[k].kind) {
      KeptRecord(group.body[k], In(at, Branch, k), o, BranchFrame(group.body, f, before, k));
    }
  }

  lemma NextSecure(group: Kind, at: Site, o: Oracle, f: Frame, before: GroupRun, k: nat, r: Result)
    requires group.Concurrent? && NextBranch(group, at, o, f, before, k, r) && GroupBounded(group.body, before)
    requires Secure(f.context, BranchLosesWork(group.body) || (exists plan :: LosingPlan(group, plan)),
                    LossyBlocks(group.body))
    requires GroupSecure(group, f.context, before) && !r.frame.context.CutOutside()
    ensures GroupSecure(group, f.context, After(before, k, r))
  {
    CalmKept(o, f.context, before.context, Starts(group.body));
    if before.context.Armed() {
      StaysSettled(group.body, before.done, k, r);
    } else {
      CalmKept(o, before.context, r.frame.context, StepStarts(group.body[k]));
      BranchLosesAt(group.body, k);
      if r.frame.context.Armed() {
        ArmedIsSettled(group, before.done, k, r);
      } else if !r.frame.context.Over() {
        NextOnTrack(group, at, o, f, before, k, r);
        FatesNext(before.done, k, r);
        var plan := PlanNext(group, before.done, k, r.err == OK);
      }
    }
  }

  lemma NextCounted(group: Kind, at: Site, o: Oracle, f: Frame, before: GroupRun, k: nat, r: Result)
    requires group.Concurrent? && NextBranch(group, at, o, f, before, k, r) && GroupCounted(group, o, f.context, before)
    ensures GroupCounted(group, o, f.context, After(before, k, r))
  {
    NextBounded(group, at, o, f, before, k, r);
    if Undisturbed(o, f.context) {
      NextOnTrack(group, at, o, f, before, k, r);
    }
    if Secure(f.context, BranchLosesWork(group.body) || (exists plan :: LosingPlan(group, plan)),
              LossyBlocks(group.body)) && !r.frame.context.CutOutside() {
      NextSecure(group, at, o, f, before, k, r);
    }
  }

  lemma {:induction false} BranchIsNext(group: Kind, at: Site, o: Oracle, f: Frame, before: GroupRun, k: nat)
    returns (r: Result)
    requires group.Concurrent? && !before.context.Over() && MayStart(group, FatesOf(before.done), k)
    requires Kept(o, f.context, before.context, Starts(group.body))
    ensures NextBranch(group, at, o, f, before, k, r)
    decreases group, 0
  {
    var g, step := BranchFrame(group.body, f, before, k), group.body[k];
    r := ExecStep(step, In(at, Branch, k), o, g);
    StepRecords(step, In(at, Branch, k), o, g);
    StepKeeps(step, In(at, Branch, k), o, g);
  }

  lemma {:induction false} BranchRecords(group: Kind, at: Site, o: Oracle, f: Frame, order: seq<nat>)
    requires group.Concurrent?
    ensures GroupCounted(group, o, f.context, RunBranches(group, at, o, f, order))
    decreases group, 1, |order|
  {
    if order == [] {
      assert Feasible(group, []) && PlanFates([]) == FatesOf(map[]);
    } else {
      var before := RunBranches(group, at, o, f, order[..|order| - 1]);
      BranchRecords(group, at, o, f, order[..|order| - 1]);
      BranchesKeep(group, at, o, f, order[..|order| - 1]);
      var k := order[|order| - 1];
      if !before.context.Over() && MayStart(group, FatesOf(before.done), k) {
        var r := BranchIsNext(group, at, o, f, before, k);
        NextCounted(group, at, o, f, before, k, r);
      }
    }
  }

  lemma {:induction false} SkipRecordsEnd(steps: seq<Step>, n: nat)
    requires 0 < n <= |steps|
    ensures SkipRecords(steps[..n]) == SkipRecords(steps[..n - 1]) + SkipStepRecords(steps[n - 1])
    decreases n
  {
    var s := steps[..n];
    if n == 1 {
      assert s[1..] == [] && steps[..0] == [];
    } else {
      assert s[1..] == steps[1..][..n - 1];
      assert steps[..n - 1][1..] == steps[1..][..n - 2];
      SkipRecordsEnd(steps[1..], n - 1);
    }
  }

  lemma {:induction false} GroupRecordsBound(branches: seq<Step>, done: map<nat, Result>, n: nat)
    requires n <= |branches|
    requires forall k :: k in done && k < |branches| ==> |done[k].records| <= |SkipStepRecords(branches[k])|
    ensures |GroupRecords(branches, done, n)| <= |SkipRecords(branches[..n])|
    ensures Settled(branches, done) ==> |GroupRecords(branches, done, n)| == |SkipRecords(branches[..n])|
  {
    if n > 0 {
      GroupRecordsBound(branches, done, n - 1);
      SkipRecordsEnd(branches, n);
    }
  }

  lemma {:induction false} JoinedOk(done: map<nat, Result>, n: nat)
    requires JoinDone(done, n, false) == OK
    ensures forall k: nat :: k < n && k in done ==> done[k].err == OK
  {
    if n > 0 {
      JoinedOk(done, n - 1);
    }
  }

  /** A group without error has run every branch with success. */
  lemma GroupOk(group: Kind, run: GroupRun, c: Choice)
    requires group.Concurrent? && GroupError(group, run, c) == OK && OnTrack(group.body, run.done)
    ensures Settled(group.body, run.done)
  {
    JoinedOk(run.done, |group.body|);
  }

  lemma {:induction false} CountGroup(step: Step, at: Site, o: Oracle, f: Frame)
    requires step.kind.Concurrent?
    ensures Counted(o, f, ExecGroup(step, at, o, f), |SkipStepRecords(step)|, StepLosesWork(step),
                    StepLossyBlocks(step))
    decreases step, 1
  {
    var group, run := step.kind, RunBranches(step.kind, at, o, f, o(at).order);
    BranchRecords(group, at, o, f, o(at).order);
    BranchesKeep(group, at, o, f, o(at).order);
    CountResult(step, o, f, run, o(at));
  }

  lemma CountResult(step: Step, o: Oracle, f: Frame, run: GroupRun, c: Choice)
    requires step.kind.Concurrent? && GroupCounted(step.kind, o, f.context, run)
    requires Kept(o, f.context, run.context, Starts(step.kind.body))
    ensures Counted(o, f, GroupResult(step, f, run, c), |SkipStepRecords(step)|, StepLosesWork(step),
                    StepLossyBlocks(step))
  {
    var group := step.kind;
    GroupRecordsBound(group.body, run.done, |group.body|);
    assert group.body[..|group.body|] == group.body;
    if GroupResult(step, f, run, c).err == OK && OnTrack(group.body, run.done) {
      GroupOk(group, run.(context := Turn(run.context, c.during)), c);
    }
  }

  // ---------------------------------------------------------------------------------------
  // Whole runs

  /** What skipping a whole workflow leaves: its steps, their cleanup and its final steps. */
  function AllRecords(steps: seq<Step>, finale: seq<Step>): nat {
    |SkipRecords(steps)| + |SkipDeferRecords(steps)| + |SkipRecords(finale)|
  }

  lemma EndingRecords(steps: seq<Step>, finale: seq<Step>, o: Oracle, f: Frame)
    requires f.context == CLEANUP
    ensures Counted(o, f, Ending(steps, finale, o, f), |SkipDeferRecords(steps)| + |SkipRecords(finale)|, false,
                    LossyDefers(steps) || LossyBlocks(finale))
    ensures !Ending(steps, finale, o, f).frame.context.inherits
  {
    var start, last := In(Workflow, Main, 0), In(Workflow, Finally, 0);
    var defers := ExecDefers(steps, start, o, f);
    DefersRecords(steps, start, o, f);
    DefersKeep(steps, start, o, f);
    EachRecords(finale, last, o, defers.frame);
    EachKeeps(finale, last, o, defers.frame);
    CalmKept(o, f.context, defers.frame.context, DefersStart(steps));
  }

  /** No context ends in the run, or none of its scopes can lose work and the one it was called in goes on. */
  ghost predicate SparedRun(steps: seq<Step>, finale: seq<Step>, o: Oracle, ids: set<string>, inherits: bool) {
    NoneEnds(o) ||
    (!WorkflowLosesWork(steps, finale) && !ExecMain(steps, o, ids, inherits).frame.context.CutOutside())
  }

  lemma MainRecords(steps: seq<Step>, finale: seq<Step>, o: Oracle, ids: set<string>, inherits: bool)
    ensures
      var main := ExecMain(steps, o, ids, inherits);
      && |main.records| <= |SkipRecords(steps)|
      && (Foreground(main) == OK && SparedRun(steps, finale, o, ids, inherits) ==>
            |main.records| == |SkipRecords(steps)|)
  {
    var start, f := In(Workflow, Main, 0), Frame(ids, false, {}, Root(inherits));
    var main := ExecMain(steps, o, ids, inherits);
    SequenceRecords(steps, start, o, f);
    SequenceKeeps(steps, start, o, f);
    assert Calm(f.context);
    CalmKept(o, f.context, main.frame.context, Starts(steps));
  }

  /** A run that is spared and succeeds leaves exactly the records of all its steps; none leaves more. */
  lemma WorkflowRecords(steps: seq<Step>, finale: seq<Step>, o: Oracle, ids: set<string>, inherits: bool)
    ensures
      var r := ExecWorkflow(steps, finale, o, ids, inherits);
      && |r.records| <= AllRecords(steps, finale)
      && (r.err == OK && SparedRun(steps, finale, o, ids, inherits) ==> |r.records| == AllRecords(steps, finale))
  {
    MainRecords(steps, finale, o, ids, inherits);
    EndingRecords(steps, finale, o, Cleaning(ExecMain(steps, o, ids, inherits).frame));
  }

  /** The total a run announces, against the records of a run that succeeds: where nothing is lost they are
      as many exactly when no executor block hides cleanup from the total. */
  lemma AnnouncedTotal(steps: seq<Step>, finale: seq<Step>, o: Oracle, ids: set<string>, inherits: bool)
    requires ExecWorkflow(steps, finale, o, ids, inherits).err == OK
    requires SparedRun(steps, finale, o, ids, inherits)
    ensures
      var total := LeafCount(steps) + NestedDeferCount(steps) + GroupsLeafCount(DeferGroups(steps)) + LeafCount(finale);
      var records := ExecWorkflow(steps, finale, o, ids, inherits).records;
      && |records| >= total
      && (|records| == total <==>
            !HidesExecutorDefers(steps) && !DefersHaveExecutorDefers(steps) && !HasExecutorDefers(finale))
  {
    WorkflowRecords(steps, finale, o, ids, inherits);
    TotalCountsRecords(steps);
    DeferRecordsBeyondLeaves(steps);
    RecordsBeyondLeaves(finale);
  }
}
