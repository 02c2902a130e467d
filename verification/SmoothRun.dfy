/** Executions in which every step succeeds. In variants of them chosen try bodies fail at once so that
    their rescue runs, or services end their scopes where that cuts off recorded work. */
module SmoothRun {
  import opened Collections
  import opened ConcurrentGraph
  import opened StepTree
  import opened Interpreter
  import opened ServiceScopes
  import opened GroupPlans
  import opened StepAccounting

  // ---------------------------------------------------------------------------------------
  // Finding a step by its place

  ghost function Child(step: Step, role: Role, index: nat): Option<Step> {
    var steps := match (role, step.kind)
      case (Body, Conditional(body)) => body
      case (Body, Scoped(body)) => body
      case (Body, Worktree(body)) => body
      case (Body, Fanout(body, _)) => body
      case (Body, Attempt(body, _)) => body
      case (Body, Once(body)) => body
      case (Body, TryCatch(body, _)) => body
      case (Body, CancelOn(_, body)) => body
      case (ExecutorBody, Executor(body, _)) => body
      case (ExecutorFinally, Executor(_, finale)) => finale
      case (Deferred, Leaf(deferred, _)) => deferred
      case (AttemptDeferred, Attempt(_, deferred)) => deferred
      case (Branch, Concurrent(body, _, _)) => body
      case (Monitor, CancelOn(monitors, _)) => monitors
      case (Rescue, TryCatch(_, rescue)) => rescue
      case _ => [];
    if index < |steps| then Some(steps[index]) else None
  }

  /** The steps of a workflow and its final steps. */
  datatype Tree = Tree(main: seq<Step>, finale: seq<Step>)

  ghost function StepAt(root: Tree, at: Site): Option<Step> {
    match at
    case Workflow => None
    case Pass(of, _) => StepAt(root, of)
    case In(parent, role, index) =>
      if parent == Workflow then
        if role == Main && index < |root.main| then Some(root.main[index])
        else if role == Finally && index < |root.finale| then Some(root.finale[index])
        else None
      else if StepAt(root, parent).Some? then Child(StepAt(root, parent).value, role, index)
      else None
  }

  function Offset(at: Site, k: nat): Site
    requires at.In?
  {
    In(at.parent, at.role, at.index + k)
  }

  /** The sequence stands in the tree from this place on. */
  ghost predicate Stands(root: Tree, steps: seq<Step>, at: Site) {
    && at.In?
    && forall k: nat :: k < |steps| ==> StepAt(root, Offset(at, k)) == Some(steps[k])
  }

  /** The children of a step stand below it. */
  lemma ChildrenStand(root: Tree, step: Step, at: Site, role: Role, children: seq<Step>)
    requires at.In? && StepAt(root, at) == Some(step)
    requires forall k: nat :: k < |children| ==> Child(step, role, k) == Some(children[k])
    ensures Stands(root, children, In(at, role, 0))
  {
  }

  lemma StandsNext(root: Tree, steps: seq<Step>, at: Site)
    requires Stands(root, steps, at) && steps != []
    ensures StepAt(root, at) == Some(steps[0])
    ensures Stands(root, steps[1..], Next(at))
  {
    assert Offset(at, 0) == at;
    forall k: nat | k < |steps[1..]|
      ensures StepAt(root, Offset(Next(at), k)) == Some(steps[1..][k])
    {
      assert Offset(Next(at), k) == Offset(at, k + 1);
    }
  }

  // ---------------------------------------------------------------------------------------
  // Groups that can run to the end

  /** Every concurrent group declared in the tree waits without a cycle. */
  ghost predicate GroupsAcyclic(steps: seq<Step>)
    decreases steps
  {
    steps == [] || (StepGroupsAcyclic(steps[0]) && GroupsAcyclic(steps[1..]))
  }

  ghost predicate StepGroupsAcyclic(step: Step)
    decreases step
  {
    match step.kind
    case Leaf(deferred, _) => GroupsAcyclic(deferred)
    case Return => true
    case Conditional(body) => GroupsAcyclic(body)
    case Scoped(body) => GroupsAcyclic(body)
    case Executor(body, finale) => GroupsAcyclic(body) && GroupsAcyclic(finale)
    case Worktree(body) => GroupsAcyclic(body)
    case Concurrent(body, _, _) => GroupsAcyclic(body) && Acyclic(WaitEdges(body))
    case Fanout(body, _) => GroupsAcyclic(body)
    case Attempt(body, deferred) => GroupsAcyclic(body) && GroupsAcyclic(deferred)
    case Once(body) => GroupsAcyclic(body)
    case TryCatch(body, rescue) => GroupsAcyclic(body) && GroupsAcyclic(rescue)
    case CancelOn(monitors, body) => GroupsAcyclic(monitors) && GroupsAcyclic(body)
  }

  lemma {:induction false} GroupsAcyclicAt(steps: seq<Step>, k: nat)
    requires GroupsAcyclic(steps) && k < |steps|
    ensures StepGroupsAcyclic(steps[k])
  {
    if k > 0 {
      GroupsAcyclicAt(steps[1..], k - 1);
    }
  }

  // ---------------------------------------------------------------------------------------
  // The executions

  /** Records of steps here are records of the run: no control or worktree around them keeps one instead. */
  ghost predicate Visible(root: Tree, at: Site) {
    match at
    case Workflow => true
    case Pass(_, _) => false
    case In(parent, role, _) =>
      Visible(root, parent) && role != Rescue && role != Monitor && (role == Body ==> Transparent(StepAt(root, parent)))
  }

  ghost predicate Transparent(step: Option<Step>) {
    step.Some? && (step.value.kind.Conditional? || step.value.kind.Scoped?)
  }

  /** Steps here run in the scope of a workflow's or executor block's main steps, not in cleanup. */
  ghost predicate InScope(at: Site) {
    match at
    case Workflow => false
    case Pass(of, _) => InScope(of)
    case In(parent, role, _) =>
      role == Main || role == ExecutorBody || ((role == Body || role == Branch) && InScope(parent))
  }

  /** Where services end their scopes, in the variant that cuts off work. */
  ghost predicate Cutting(root: Tree, cuts: bool, at: Site) {
    cuts && Visible(root, at) && InScope(at)
  }

  ghost predicate Loses(group: Kind) {
    exists plan :: LosingPlan(group, plan)
  }

  /** The plan a group follows: one that loses work where that is wanted and possible, else a full one. */
  ghost function PlanOf(group: Kind, losing: bool): seq<Start>
    requires group.Concurrent?
  {
    if losing && Loses(group) then var plan :| LosingPlan(group, plan); plan
    else if exists plan :: FullPlan(group, plan) then var plan :| FullPlan(group, plan); plan
    else []
  }

  /** A branch that the plan of its group has fail. */
  ghost predicate Doomed(root: Tree, cuts: bool, at: Site) {
    && at.In? && at.role == Branch
    && StepAt(root, at.parent).Some? && StepAt(root, at.parent).value.kind.Concurrent?
    && Start(at.index, false) in PlanOf(StepAt(root, at.parent).value.kind, Cutting(root, cuts, at.parent))
  }

  /** A try that can start a service only by its rescue. */
  predicate StartsByRescue(kind: Kind) {
    kind.TryCatch? && !TryStarts(kind.body) && TryStarts(kind.rescue)
  }

  /** A step directly in the body of a try that is made to fail; its rescue has work to do. */
  ghost predicate Thwarted(root: Tree, cuts: bool, fails: set<Site>, at: Site) {
    && at.In? && at.role == Body
    && StepAt(root, at.parent).Some?
    && StepAt(root, at.parent).value.kind.TryCatch?
    && SkipRecords(StepAt(root, at.parent).value.kind.rescue) != []
    && if cuts then StartsByRescue(StepAt(root, at.parent).value.kind) else at.parent in fails
  }

  ghost predicate HasWork(step: Option<Step>) {
    step.Some? && SkipStepRecords(step.value) != []
  }

  ghost predicate IsLosingGroup(root: Tree, cuts: bool, at: Site) {
    Cutting(root, cuts, at) && StepAt(root, at).Some? && Loses(StepAt(root, at).value.kind)
  }

  ghost function OrderAt(root: Tree, cuts: bool, at: Site): seq<nat> {
    if StepAt(root, at).Some? && StepAt(root, at).value.kind.Concurrent?
    then Branches(PlanOf(StepAt(root, at).value.kind, Cutting(root, cuts, at))) else []
  }

  /** Conditions hold, no return fires, and nothing fails but the first steps of the tries in `fails`. With
      `cuts`, a service that can end its scope does so before recorded work of the scope, or after the
      plan of a group that loses some; tries start services by their rescue if they can only so. What is
      not in the tree is cut off by the end of a scope around it. */
  ghost function Smooth(root: Tree, cuts: bool, fails: set<Site>): Oracle {
    (at: Site) =>
      Choice(if StepAt(root, at).None? then 2
             else if Cutting(root, cuts, at) && HasWork(StepAt(root, at)) then 1
             else 0,
             if Thwarted(root, cuts, fails, at) || Doomed(root, cuts, at) then FAILED else OK,
             !(StepAt(root, at).Some? && StepAt(root, at).value.kind.Return?),
             if IsLosingGroup(root, cuts, at) then 1 else 0,
             OK, OK, OK, false, false, false, 1, OrderAt(root, cuts, at))
  }

  // ---------------------------------------------------------------------------------------
  // It runs through

  /** The owners whose cleanup a scope collects. */
  function Owners(steps: seq<Step>): set<string>
    decreases steps
  {
    if steps == [] then {} else StepOwners(steps[0]) + Owners(steps[1..])
  }

  function StepOwners(step: Step): set<string>
    decreases step
  {
    match step.kind
    case Conditional(body) => Owners(body)
    case Scoped(body) => Owners(body)
    case Leaf(deferred, _) => if deferred == [] then {} else {step.decl.id}
    case Attempt(_, deferred) => if deferred == [] then {} else {step.decl.id}
    case _ => {}
  }

  /** Nothing is over. */
  predicate Alive(c: Context) {
    c.live == |c.serving|
  }

  ghost predicate Shown(root: Tree, cuts: bool, at: Site) {
    cuts && Visible(root, at)
  }

  /** A frame to go on from; where services end their scopes, one may run only if no work is left. */
  ghost predicate Fit(root: Tree, cuts: bool, at: Site, f: Frame, work: bool) {
    && !f.returning && Alive(f.context)
    && (Shown(root, cuts, at) ==> f.context.shield == 0 < |f.context.serving|)
    && (Cutting(root, cuts, at) ==> |f.context.serving| > 1 && !(f.context.Armed() && work))
  }

  /** A service ended the innermost scope. */
  predicate CutOff(c: Context) {
    c.Armed() && c.live == |c.serving| - 1
  }

  /** Succeeded, without a return, with all collected owners registered, and with a record of success if
      there was work to record. Where services end their scopes it may be cut off instead. Only what may
      start a service changes the contexts. */
  ghost predicate Through(cuts: bool, r: Result, f: Frame, owners: set<string>, work: bool, starts: bool,
                          cutting: bool)
  {
    && !r.frame.returning
    && |r.frame.context.serving| == |f.context.serving| && r.frame.context.shield == f.context.shield
    && (cuts && starts && |f.context.serving| > 1 ==> r.frame.context.Armed())
    && (!starts || |f.context.serving| <= 1 ==> r.err == OK && r.frame.context == f.context)
    && (r.err == OK ==> Alive(r.frame.context) && f.registered + owners <= r.frame.registered)
    && (r.err == OK && work ==> !AllSkipped(r.records))
    && (r.err != OK ==> cutting && CancellationOnly(r.err) && CutOff(r.frame.context))
  }

  lemma OneSuccess(id: string)
    ensures !AllSkipped([Record(id, Succeeded)])
  {
    assert [Record(id, Succeeded)][0].status == Succeeded;
  }

  lemma WorkedJoin(a: seq<Record>, b: seq<Record>)
    ensures AllSkipped(a + b) <==> AllSkipped(a) && AllSkipped(b)
  {
    if AllSkipped(a + b) {
      assert forall k :: 0 <= k < |a| ==> a[k] == (a + b)[k];
      assert forall k :: 0 <= k < |b| ==> b[k] == (a + b)[|a| + k];
    }
  }

  /** What starts a service leaves a record. */
  lemma {:induction false} StartsLeaveRecords(steps: seq<Step>)
    requires Starts(steps)
    ensures SkipRecords(steps) != []
    decreases steps
  {
    if StepStarts(steps[0]) {
      StepStartsLeavesRecords(steps[0]);
    } else {
      StartsLeaveRecords(steps[1..]);
    }
  }

  lemma {:induction false} StepStartsLeavesRecords(step: Step)
    requires StepStarts(step)
    ensures SkipStepRecords(step) != []
    decreases step
  {
    match step.kind
    case Conditional(body) => StartsLeaveRecords(body);
    case Scoped(body) => StartsLeaveRecords(body);
    case Concurrent(body, _, _) => StartsLeaveRecords(body);
    case _ =>
  }

  lemma {:induction false} DefersStartLeaveRecords(steps: seq<Step>)
    requires DefersStart(steps)
    ensures SkipRecords(steps) != []
    decreases steps
  {
    if StepDefersStart(steps[0]) {
      StepDefersStartLeavesRecords(steps[0]);
    } else {
      DefersStartLeaveRecords(steps[1..]);
    }
  }

  lemma {:induction false} StepDefersStartLeavesRecords(step: Step)
    requires StepDefersStart(step)
    ensures SkipStepRecords(step) != []
    decreases step
  {
    match step.kind
    case Conditional(body) => DefersStartLeaveRecords(body);
    case Scoped(body) => DefersStartLeaveRecords(body);
    case _ =>
  }

  /** The place of a step in a sequence, and that of an expression or sequence that is not made to fail. */
  ghost predicate Normal(root: Tree, cuts: bool, fails: set<Site>, at: Site) {
    at.In? && !Thwarted(root, cuts, fails, at) && !Doomed(root, cuts, at)
  }

  /** One after the other. */
  lemma ThroughBoth(cuts: bool, a: Result, b: Result, f: Frame, owners: set<string>, more: set<string>, work: bool,
                    moreWork: bool, starts: bool, moreStarts: bool, cutting: bool)
    requires Through(cuts, a, f, owners, work, starts, cutting) && a.err == OK
    requires Through(cuts, b, a.frame, more, moreWork, moreStarts, cutting)
    requires a.frame.context.Armed() ==> b.frame.context.Armed()
    ensures Through(cuts, Append(a, b), f, owners + more, work || moreWork, starts || moreStarts, cutting)
  {
    WorkedJoin(a.records, b.records);
  }

  // ---------------------------------------------------------------------------------------
  // Sequences

  lemma {:induction false} SmoothSequence(root: Tree, cuts: bool, fails: set<Site>, steps: seq<Step>, at: Site,
                                          f: Frame)
    requires Normal(root, cuts, fails, at) && at.role != Branch && Stands(root, steps, at) && GroupsAcyclic(steps)
    requires Fit(root, cuts, at, f, SkipRecords(steps) != [])
    ensures Through(cuts, ExecSequence(steps, at, Smooth(root, cuts, fails), f), f, Owners(steps),
                    SkipRecords(steps) != [] && !Shown(root, cuts, at), Starts(steps), Cutting(root, cuts, at))
    decreases steps, 0, 1
  {
    if steps != [] {
      var o := Smooth(root, cuts, fails);
      StandsNext(root, steps, at);
      SmoothStep(root, cuts, fails, steps[0], at, f);
      var r := ExecStep(steps[0], at, o, f);
      if r.err == OK {
        SmoothRest(root, cuts, fails, steps, at, f, r);
      }
    }
  }

  lemma {:induction false} SmoothRest(root: Tree, cuts: bool, fails: set<Site>, steps: seq<Step>, at: Site, f: Frame,
                                      r: Result)
    requires Normal(root, cuts, fails, at) && at.role != Branch && GroupsAcyclic(steps)
    requires steps != [] && Stands(root, steps[1..], Next(at))
    requires Fit(root, cuts, at, f, SkipRecords(steps) != []) && r.err == OK
    requires Through(cuts, r, f, StepOwners(steps[0]), SkipStepRecords(steps[0]) != [] && !Shown(root, cuts, at),
                     StepStarts(steps[0]), Cutting(root, cuts, at) && !KeepsRecord(steps[0].kind))
    ensures Through(cuts, Append(r, ExecSequence(steps[1..], Next(at), Smooth(root, cuts, fails), r.frame)), f,
                    Owners(steps), SkipRecords(steps) != [] && !Shown(root, cuts, at), Starts(steps),
                    Cutting(root, cuts, at))
    decreases steps, 0, 0
  {
    var o := Smooth(root, cuts, fails);
    var rest := ExecSequence(steps[1..], Next(at), o, r.frame);
    if r.frame.context.Armed() {
      ArmedStays(steps[1..], Next(at), o, r.frame);
    }
    if Cutting(root, cuts, at) && r.frame.context.Armed() && SkipRecords(steps[1..]) != [] {
      CutSequence(root, cuts, fails, steps[1..], Next(at), r.frame);
    } else {
      SmoothSequence(root, cuts, fails, steps[1..], Next(at), r.frame);
      ThroughBoth(cuts, r, rest, f, StepOwners(steps[0]), Owners(steps[1..]),
                  SkipStepRecords(steps[0]) != [] && !Shown(root, cuts, at),
                  SkipRecords(steps[1..]) != [] && !Shown(root, cuts, at),
                  StepStarts(steps[0]), Starts(steps[1..]), Cutting(root, cuts, at));
    }
  }

  lemma ArmedStays(steps: seq<Step>, at: Site, o: Oracle, f: Frame)
    requires at.In? && f.context.Armed()
    ensures ExecSequence(steps, at, o, f).frame.context.Armed()
  {
    SequenceKeeps(steps, at, o, f);
  }

  /** With a service running that ends the scope before the next work, a sequence ends there. */
  lemma {:induction false} CutSequence(root: Tree, cuts: bool, fails: set<Site>, steps: seq<Step>, at: Site, f: Frame)
    requires Normal(root, cuts, fails, at) && at.role != Branch && Stands(root, steps, at) && GroupsAcyclic(steps)
    requires Cutting(root, cuts, at) && !f.returning && Alive(f.context) && f.context.Armed() && f.context.shield == 0
    requires SkipRecords(steps) != []
    ensures
      var r := ExecSequence(steps, at, Smooth(root, cuts, fails), f);
      && r.err == CANCELED && r.records == [] && !r.frame.returning && CutOff(r.frame.context)
      && |r.frame.context.serving| == |f.context.serving| && r.frame.context.shield == f.context.shield
    decreases steps, 0
  {
    StandsNext(root, steps, at);
    if SkipStepRecords(steps[0]) == [] {
      WorklessStep(root, cuts, fails, steps[0], at, f);
      CutSequence(root, cuts, fails, steps[1..], Next(at), ExecStep(steps[0], at, Smooth(root, cuts, fails), f).frame);
    } else {
      CutStep(root, cuts, fails, steps[0], at, f);
    }
  }

  /** A step with work is not reached. */
  lemma CutStep(root: Tree, cuts: bool, fails: set<Site>, step: Step, at: Site, f: Frame)
    requires at.In? && StepAt(root, at) == Some(step) && Cutting(root, cuts, at) && SkipStepRecords(step) != []
    requires Alive(f.context) && f.context.Armed() && f.context.shield == 0
    ensures
      var r := ExecStep(step, at, Smooth(root, cuts, fails), f);
      && r.err == CANCELED && r.records == [] && CutOff(r.frame.context)
      && r.frame == f.(context := f.context.(live := |f.context.serving| - 1))
  {
    assert Smooth(root, cuts, fails)(at).ends == 1;
  }

  /** A step without work changes nothing that matters here. */
  lemma {:induction false} WorklessStep(root: Tree, cuts: bool, fails: set<Site>, step: Step, at: Site, f: Frame)
    requires Normal(root, cuts, fails, at) && StepAt(root, at) == Some(step) && StepGroupsAcyclic(step)
    requires Fit(root, cuts, at, f, false) && SkipStepRecords(step) == []
    ensures
      var o := Smooth(root, cuts, fails);
      var r := ExecStep(step, at, o, f);
      && r.err == OK && r.records == [] && !r.frame.returning && r.frame.context == f.context
      && !EndsSequence(step.kind, o(at), r.frame)
    decreases step, 5
  {
    SmoothStep(root, cuts, fails, step, at, f);
    StepRecords(step, at, Smooth(root, cuts, fails), f);
    if StepStarts(step) {
      StepStartsLeavesRecords(step);
    }
    assert step.kind.Return? ==> !Smooth(root, cuts, fails)(at).run;
  }

  /** The oracle as it is where a step is reached and goes on. */
  lemma Reached(root: Tree, cuts: bool, fails: set<Site>, step: Step, at: Site, f: Frame)
    requires Normal(root, cuts, fails, at) && StepAt(root, at) == Some(step)
    requires Fit(root, cuts, at, f, SkipStepRecords(step) != [])
    ensures var o := Smooth(root, cuts, fails);
      && f.(context := Turn(f.context, o(at).ends)) == f && !f.context.Over() && o(at).before == OK
      && (step.kind.Return? <==> !o(at).run)
      && (!step.kind.Concurrent? ==> o(at).during == 0)
  {
  }

  lemma {:induction false} SmoothStep(root: Tree, cuts: bool, fails: set<Site>, step: Step, at: Site, f: Frame)
    requires Normal(root, cuts, fails, at) && StepAt(root, at) == Some(step) && StepGroupsAcyclic(step)
    requires Fit(root, cuts, at, f, SkipStepRecords(step) != [])
    ensures Through(cuts, ExecStep(step, at, Smooth(root, cuts, fails), f), f, StepOwners(step),
                    SkipStepRecords(step) != [] && !Shown(root, cuts, at), StepStarts(step),
                    Cutting(root, cuts, at) && !KeepsRecord(step.kind))
    decreases step, 4
  {
    Reached(root, cuts, fails, step, at, f);
    if KeepsRecord(step.kind) {
      SmoothRecorded(root, cuts, fails, step, at, f);
    } else {
      SmoothBlock(root, cuts, fails, step, at, f);
    }
  }

  lemma {:induction false} SmoothBlock(root: Tree, cuts: bool, fails: set<Site>, step: Step, at: Site, f: Frame)
    requires Normal(root, cuts, fails, at) && StepAt(root, at) == Some(step) && StepGroupsAcyclic(step)
    requires Fit(root, cuts, at, f, SkipStepRecords(step) != []) && !KeepsRecord(step.kind)
    ensures Through(cuts, ExecBlock(step, at, Smooth(root, cuts, fails), f), f, StepOwners(step),
                    SkipStepRecords(step) != [] && !Shown(root, cuts, at), StepStarts(step), Cutting(root, cuts, at))
    decreases step, 3
  {
    match step.kind
    case Return =>
    case Conditional(body) => SmoothSequence(root, cuts, fails, body, In(at, Body, 0), f);
    case Scoped(body) => SmoothSequence(root, cuts, fails, body, In(at, Body, 0), f);
    case Executor(_, _) => SmoothScope(root, cuts, fails, step, at, f);
    case Concurrent(_, _, _) => SmoothGroup(root, cuts, fails, step, at, f);
  }

  lemma {:induction false} SmoothRecorded(root: Tree, cuts: bool, fails: set<Site>, step: Step, at: Site, f: Frame)
    requires Normal(root, cuts, fails, at) && StepAt(root, at) == Some(step) && StepGroupsAcyclic(step)
    requires Fit(root, cuts, at, f, SkipStepRecords(step) != []) && KeepsRecord(step.kind)
    ensures Through(cuts, ExecRecorded(step, at, Smooth(root, cuts, fails), f), f, StepOwners(step), true,
                    StepStarts(step), false)
    decreases step, 3
  {
    OneSuccess(step.decl.id);
    Reached(root, cuts, fails, step, at, f);
    if step.kind.Worktree? {
      SmoothScope(root, cuts, fails, step, at, f);
    } else {
      SmoothPrivate(root, cuts, fails, step, at, f);
    }
  }

  /** A private run succeeds, with what it registered. */
  ghost predicate Passed(cuts: bool, r: Result, f: Frame, starts: bool) {
    && r.err == OK && Alive(r.frame.context) && f.registered <= r.frame.registered
    && |r.frame.context.serving| == |f.context.serving| && r.frame.context.shield == f.context.shield
    && (cuts && starts && |f.context.serving| > 1 ==> r.frame.context.Armed())
    && (!starts || |f.context.serving| <= 1 ==> r.frame.context == f.context)
  }

  lemma {:induction false} SmoothPrivate(root: Tree, cuts: bool, fails: set<Site>, step: Step, at: Site, f: Frame)
    requires Normal(root, cuts, fails, at) && StepAt(root, at) == Some(step) && StepGroupsAcyclic(step)
    requires !f.returning && Alive(f.context) && KeepsRecord(step.kind) && !step.kind.Worktree?
    ensures Passed(cuts, ExecPrivate(step, at, Smooth(root, cuts, fails), f), f, StepStarts(step))
    decreases step, 2
  {
    match step.kind
    case Leaf(_, _) =>
    case Fanout(body, _) => SmoothPass(root, cuts, fails, body, at, f, step);
    case Attempt(body, _) => SmoothPass(root, cuts, fails, body, at, f, step);
    case Once(body) => SmoothSequence(root, cuts, fails, body, In(at, Body, 0), Private(f));
    case TryCatch(_, _) => SmoothTry(root, cuts, fails, step, at, Private(f).(registered := {}));
    case CancelOn(_, _) => SmoothRace(root, cuts, fails, step, at, f);
  }

  lemma {:induction false} SmoothRace(root: Tree, cuts: bool, fails: set<Site>, step: Step, at: Site, f: Frame)
    requires Normal(root, cuts, fails, at) && StepAt(root, at) == Some(step) && StepGroupsAcyclic(step)
    requires !f.returning && Alive(f.context) && step.kind.CancelOn?
    ensures Passed(cuts, ExecRace(step, at, Smooth(root, cuts, fails), f), f, StepStarts(step))
    decreases step, 1
  {
    var o, monitors, body := Smooth(root, cuts, fails), step.kind.monitors, step.kind.body;
    SmoothMonitors(root, cuts, fails, monitors, In(at, Monitor, 0), Private(f));
    var watched := ExecMonitors(monitors, In(at, Monitor, 0), o, Private(f));
    SmoothSequence(root, cuts, fails, body, In(at, Body, 0), Fork(f, watched.frame));
    if watched.frame.context.Armed() {
      ArmedStays(body, In(at, Body, 0), o, Fork(f, watched.frame));
    }
  }

  // ---------------------------------------------------------------------------------------
  // Scopes and cleanup

  lemma {:induction false} SmoothScope(root: Tree, cuts: bool, fails: set<Site>, step: Step, at: Site, f: Frame)
    requires at.In? && StepAt(root, at) == Some(step) && StepGroupsAcyclic(step)
    requires step.kind.Executor? || step.kind.Worktree?
    requires Fit(root, cuts, at, f, false)
    ensures Through(cuts, ExecScope(step, at, Smooth(root, cuts, fails), f), f, {},
                    step.kind.Executor? && SkipStepRecords(step) != [] && !Shown(root, cuts, at), false, false)
    decreases step, 2
  {
    var o, body := Smooth(root, cuts, fails), step.kind.body;
    SmoothScopeBody(root, cuts, fails, step, at, EnterScope(f));
    var main := ExecSequence(body, BodyAt(step, at), o, EnterScope(f));
    SmoothScopeCleanup(root, cuts, fails, step, at, Cleaning(main.frame));
    var cleanup := ScopeCleanup(step, at, o, Cleaning(main.frame));
    ScopeIs(step, at, o, f, main, cleanup);
    ScopePasses(cuts, step, f, main, cleanup, Shown(root, cuts, at));
  }

  lemma ScopeIs(step: Step, at: Site, o: Oracle, f: Frame, main: Result, cleanup: Result)
    requires step.kind.Executor? || step.kind.Worktree?
    requires main == ExecSequence(step.kind.body, BodyAt(step, at), o, EnterScope(f))
    requires cleanup == ScopeCleanup(step, at, o, Cleaning(main.frame))
    ensures ExecScope(step, at, o, f) == ScopeResult(f, main, cleanup, o(at).service)
  {
  }

  /** A scope passes even if its body was cut off. */
  lemma ScopePasses(cuts: bool, step: Step, f: Frame, main: Result, cleanup: Result, shown: bool)
    requires (step.kind.Executor? || step.kind.Worktree?) && !f.returning && Alive(f.context)
    requires Through(cuts, main, EnterScope(f), Owners(step.kind.body),
                     step.kind.Executor? && SkipRecords(step.kind.body) != [] && !shown, Starts(step.kind.body), shown)
    requires Through(cuts, cleanup, Cleaning(main.frame), {},
                     step.kind.Executor? && SkipRecords(step.kind.finale) != [] && !shown, false, false)
    ensures Through(cuts, ScopeResult(f, main, cleanup, OK), f, {},
                    step.kind.Executor? && SkipStepRecords(step) != [] && !shown, false, false)
  {
    WorkedJoin(main.records, cleanup.records);
    if SkipRecords(step.kind.body) == [] {
      NoRecordsNoDefers(step.kind.body);
    }
  }

  /** The body runs through, or is cut off because a service ends the scope. */
  lemma {:induction false} SmoothScopeBody(root: Tree, cuts: bool, fails: set<Site>, step: Step, at: Site, f: Frame)
    requires at.In? && StepAt(root, at) == Some(step) && StepGroupsAcyclic(step)
    requires step.kind.Executor? || step.kind.Worktree?
    requires !f.returning && Alive(f.context) && |f.context.serving| > 0 && !f.context.serving[|f.context.serving| - 1]
    requires Shown(root, cuts, at) ==> f.context.shield == 0 && |f.context.serving| > 1
    ensures Through(cuts, ExecSequence(step.kind.body, BodyAt(step, at), Smooth(root, cuts, fails), f), f,
                    Owners(step.kind.body),
                    step.kind.Executor? && SkipRecords(step.kind.body) != [] && !Shown(root, cuts, at),
                    Starts(step.kind.body), Shown(root, cuts, at))
    decreases step, 0
  {
    assert Stands(root, step.kind.body, BodyAt(step, at));
    SmoothSequence(root, cuts, fails, step.kind.body, BodyAt(step, at), f);
  }

  lemma {:induction false} SmoothScopeCleanup(root: Tree, cuts: bool, fails: set<Site>, step: Step, at: Site, f: Frame)
    requires at.In? && StepAt(root, at) == Some(step) && StepGroupsAcyclic(step)
    requires step.kind.Executor? || step.kind.Worktree?
    requires !f.returning && f.context == CLEANUP
    ensures Through(cuts, ScopeCleanup(step, at, Smooth(root, cuts, fails), f), f, {},
                    step.kind.Executor? && SkipRecords(step.kind.finale) != [] && !Shown(root, cuts, at), false, false)
    decreases step, 1
  {
    var o := Smooth(root, cuts, fails);
    assert Stands(root, step.kind.body, BodyAt(step, at));
    SmoothDefers(root, cuts, fails, step.kind.body, BodyAt(step, at), f);
    var defers := ExecDefers(step.kind.body, BodyAt(step, at), o, f);
    if step.kind.Executor? {
      var finale := step.kind.finale;
      SmoothFinals(root, cuts, fails, step, at, defers.frame);
      CleanedThrough(cuts, f, defers, ExecEach(finale, In(at, ExecutorFinally, 0), o, defers.frame),
                     SkipRecords(finale) != [] && !Shown(root, cuts, at), DefersStart(step.kind.body),
                     Owners(step.kind.body) <= f.registered, Starts(finale));
    }
  }

  lemma {:induction false} SmoothFinals(root: Tree, cuts: bool, fails: set<Site>, step: Step, at: Site, f: Frame)
    requires at.In? && StepAt(root, at) == Some(step) && StepGroupsAcyclic(step) && step.kind.Executor?
    requires !f.returning && Alive(f.context) && f.context.shield == 0 && |f.context.serving| == 1
    ensures Through(cuts, ExecEach(step.kind.finale, In(at, ExecutorFinally, 0), Smooth(root, cuts, fails), f), f, {},
                    SkipRecords(step.kind.finale) != [] && !Shown(root, cuts, at), Starts(step.kind.finale), false)
    decreases step, 0
  {
    var start := In(at, ExecutorFinally, 0);
    assert Stands(root, step.kind.finale, start);
    SmoothEach(root, cuts, fails, step.kind.finale, start, f);
  }

  /** Deferred cleanup of a scope, then its final steps. */
  lemma CleanedThrough(cuts: bool, f: Frame, defers: Result, finals: Result, work: bool, starts: bool, registered: bool,
                       moreStarts: bool)
    requires f.context == CLEANUP && Cleaned(cuts, defers, f, starts, registered)
    requires Through(cuts, finals, defers.frame, {}, work, moreStarts, false)
    ensures Through(cuts, Both(defers, finals), f, {}, work, false, false)
  {
    WorkedJoin(defers.records, finals.records);
  }

  /** Cleanup is deferred by steps that leave records themselves. */
  lemma {:induction false} NoRecordsNoDefers(steps: seq<Step>)
    requires SkipRecords(steps) == []
    ensures SkipDeferRecords(steps) == []
    decreases steps
  {
    if steps != [] {
      NoRecordsNoDefers(steps[1..]);
      StepNoRecordsNoDefers(steps[0]);
    }
  }

  lemma {:induction false} StepNoRecordsNoDefers(step: Step)
    requires SkipStepRecords(step) == []
    ensures SkipStepDeferRecords(step) == []
    decreases step
  {
    match step.kind
    case Conditional(body) => NoRecordsNoDefers(body);
    case Scoped(body) => NoRecordsNoDefers(body);
    case _ =>
  }

  lemma {:induction false} SmoothEach(root: Tree, cuts: bool, fails: set<Site>, steps: seq<Step>, at: Site, f: Frame)
    requires Normal(root, cuts, fails, at) && at.role != Branch && Stands(root, steps, at) && GroupsAcyclic(steps)
    requires !InScope(at) || !Shown(root, cuts, at)
    requires Fit(root, cuts, at, f, false)
    ensures Through(cuts, ExecEach(steps, at, Smooth(root, cuts, fails), f), f, {},
                    SkipRecords(steps) != [] && !Shown(root, cuts, at), Starts(steps), false)
    decreases steps, 0
  {
    if steps != [] {
      var o := Smooth(root, cuts, fails);
      StandsNext(root, steps, at);
      SmoothStep(root, cuts, fails, steps[0], at, f);
      var r := ExecStep(steps[0], at, o, f);
      SmoothEach(root, cuts, fails, steps[1..], Next(at), r.frame);
      EachKeeps(steps[1..], Next(at), o, r.frame);
      WorkedJoin(r.records, ExecEach(steps[1..], Next(at), o, r.frame).records);
    }
  }

  /** Cleanup of which the owners are registered runs, and starts the services it can. */
  ghost predicate Cleaned(cuts: bool, r: Result, f: Frame, starts: bool, registered: bool) {
    && r.err == OK && !r.frame.returning && Alive(r.frame.context) && f.registered <= r.frame.registered
    && |r.frame.context.serving| == |f.context.serving| && r.frame.context.shield == f.context.shield
    && (cuts && starts && registered && |f.context.serving| > 1 ==> r.frame.context.Armed())
    && (f.context.Armed() ==> r.frame.context.Armed())
    && (!starts || |f.context.serving| <= 1 ==> r.frame.context == f.context)
  }

  lemma {:induction false} SmoothDefers(root: Tree, cuts: bool, fails: set<Site>, steps: seq<Step>, at: Site, f: Frame)
    requires at.In? && Stands(root, steps, at) && GroupsAcyclic(steps)
    requires !f.returning && Alive(f.context)
    requires Shown(root, cuts, at) ==> f.context.shield == 0 < |f.context.serving|
    ensures Cleaned(cuts, ExecDefers(steps, at, Smooth(root, cuts, fails), f), f, DefersStart(steps),
                    Owners(steps) <= f.registered)
    decreases steps, 0
  {
    if steps != [] {
      var o := Smooth(root, cuts, fails);
      StandsNext(root, steps, at);
      SmoothDefers(root, cuts, fails, steps[1..], Next(at), f);
      var later := ExecDefers(steps[1..], Next(at), o, f);
      SmoothStepDefers(root, cuts, fails, steps[0], at, later.frame);
      CleanedTwice(cuts, f, later, ExecStepDefers(steps[0], at, o, later.frame), DefersStart(steps[1..]),
                   Owners(steps[1..]) <= f.registered, StepDefersStart(steps[0]),
                   StepOwners(steps[0]) <= later.frame.registered);
    }
  }

  lemma CleanedTwice(cuts: bool, f: Frame, a: Result, b: Result, starts: bool, registered: bool, moreStarts: bool,
                     moreRegistered: bool)
    requires Cleaned(cuts, a, f, starts, registered) && Cleaned(cuts, b, a.frame, moreStarts, moreRegistered)
    ensures Cleaned(cuts, Both(a, b), f, starts || moreStarts, (starts && registered) || (moreStarts && moreRegistered))
  {
  }

  lemma {:induction false} SmoothStepDefers(root: Tree, cuts: bool, fails: set<Site>, step: Step, at: Site, f: Frame)
    requires at.In? && StepAt(root, at) == Some(step) && StepGroupsAcyclic(step)
    requires !f.returning && Alive(f.context)
    requires Shown(root, cuts, at) ==> f.context.shield == 0 < |f.context.serving|
    ensures Cleaned(cuts, ExecStepDefers(step, at, Smooth(root, cuts, fails), f), f, StepDefersStart(step),
                    StepOwners(step) <= f.registered)
    decreases step, 1
  {
    match step.kind
    case Conditional(body) => SmoothDefers(root, cuts, fails, body, In(at, Body, 0), f);
    case Scoped(body) => SmoothDefers(root, cuts, fails, body, In(at, Body, 0), f);
    case Leaf(_, _) => SmoothOwnDefers(root, cuts, fails, step, at, f);
    case Attempt(_, _) => SmoothOwnDefers(root, cuts, fails, step, at, f);
    case _ =>
  }

  lemma {:induction false} SmoothOwnDefers(root: Tree, cuts: bool, fails: set<Site>, step: Step, at: Site, f: Frame)
    requires at.In? && StepAt(root, at) == Some(step) && StepGroupsAcyclic(step)
    requires step.kind.Leaf? || step.kind.Attempt?
    requires !f.returning && Alive(f.context)
    requires Shown(root, cuts, at) ==> f.context.shield == 0 < |f.context.serving|
    ensures Cleaned(cuts, ExecStepDefers(step, at, Smooth(root, cuts, fails), f), f, StepDefersStart(step),
                    StepOwners(step) <= f.registered)
    decreases step, 0
  {
    var place := In(at, if step.kind.Leaf? then Deferred else AttemptDeferred, 0);
    if step.decl.id in f.registered {
      assert Stands(root, step.kind.deferred, place);
      SmoothGroupDefers(root, cuts, fails, step.kind.deferred, place, f);
    } else {
      assert step.kind.deferred == [] ==> !Starts(step.kind.deferred);
    }
  }

  lemma {:induction false} SmoothGroupDefers(root: Tree, cuts: bool, fails: set<Site>, deferred: seq<Step>, at: Site,
                                             f: Frame)
    requires at.In? && (at.role == Deferred || at.role == AttemptDeferred) && Stands(root, deferred, at)
    requires GroupsAcyclic(deferred) && !f.returning && Alive(f.context)
    requires Shown(root, cuts, at) ==> f.context.shield == 0 < |f.context.serving|
    ensures Cleaned(cuts, ExecEach(deferred, at, Smooth(root, cuts, fails), f), f, Starts(deferred), true)
    decreases deferred, 1
  {
    SmoothEach(root, cuts, fails, deferred, at, f);
    EachKeeps(deferred, at, Smooth(root, cuts, fails), f);
  }

  // ---------------------------------------------------------------------------------------
  // Controls

  lemma {:induction false} SmoothRescue(root: Tree, cuts: bool, fails: set<Site>, steps: seq<Step>, at: Site, f: Frame)
    requires Normal(root, cuts, fails, at) && at.role == Rescue && Stands(root, steps, at) && GroupsAcyclic(steps)
    requires !f.returning && Alive(f.context)
    ensures Through(cuts, ExecRescue(steps, at, Smooth(root, cuts, fails), f), f, Owners(steps),
                    SkipRecords(steps) != [], Starts(steps), false)
    decreases steps, 0
  {
    if steps != [] {
      var o := Smooth(root, cuts, fails);
      StandsNext(root, steps, at);
      SmoothStep(root, cuts, fails, steps[0], at, f);
      var r := ExecStep(steps[0], at, o, f);
      SmoothRescue(root, cuts, fails, steps[1..], Next(at), r.frame);
      RescueKeeps(steps[1..], Next(at), o, r.frame);
      WorkedJoin(r.records, ExecRescue(steps[1..], Next(at), o, r.frame).records);
    }
  }

  /** A try that fails at once is rescued; one that does not succeeds by itself. */
  lemma {:induction false} SmoothTry(root: Tree, cuts: bool, fails: set<Site>, step: Step, at: Site, f: Frame)
    requires at.In? && StepAt(root, at) == Some(step) && StepGroupsAcyclic(step) && step.kind.TryCatch?
    requires !f.returning && Alive(f.context) && f.registered == {}
    ensures Passed(cuts, ExecTryCatch(step, at, Smooth(root, cuts, fails), f), f, StepStarts(step))
    decreases step, 1
  {
    var o, body := Smooth(root, cuts, fails), step.kind.body;
    if Thwarted(root, cuts, fails, In(at, Body, 0)) && body != [] {
      SmoothRescued(root, cuts, fails, step, at, f);
    } else {
      SmoothTried(root, cuts, fails, step, at, f);
    }
  }

  /** The parts of a try, put together. */
  lemma TryPasses(cuts: bool, c: Choice, f: Frame, attempted: Result, rescued: Result, cleanup: Result, starts: bool,
                  cleaning: bool, registered: bool)
    requires Verdict(c, attempted, rescued) == OK && f.registered == {} && Alive(rescued.frame.context)
    requires |rescued.frame.context.serving| == |f.context.serving| && rescued.frame.context.shield == f.context.shield
    requires Cleaned(cuts, cleanup, Shielded(rescued.frame), cleaning, registered)
    requires cuts && starts && |f.context.serving| > 1 ==> rescued.frame.context.Armed() || (cleaning && registered)
    requires !starts || |f.context.serving| <= 1 ==> rescued.frame.context == f.context
    requires !starts ==> !cleaning
    ensures Passed(cuts, TryResult(c, attempted, rescued, cleanup), f, starts)
  {
  }

  lemma TryMayStart(step: Step)
    requires step.kind.TryCatch?
    ensures StepStarts(step) <==>
      Starts(step.kind.body) || DefersStart(step.kind.body) ||
      (step.kind.body != [] && (Starts(step.kind.rescue) || DefersStart(step.kind.rescue)))
  {
    assert step.kind.body == [] ==> !Starts(step.kind.body) && !DefersStart(step.kind.body);
  }

  lemma TryIs(step: Step, at: Site, o: Oracle, f: Frame, attempted: Result, rescued: Result, cleanup: Result)
    requires step.kind.TryCatch? && attempted == ExecSequence(step.kind.body, In(at, Body, 0), o, f)
    requires rescued == ExecCatch(step, at, o, attempted)
    requires cleanup == TryCleanup(step, at, o, Shielded(rescued.frame))
    ensures ExecTryCatch(step, at, o, f) == TryResult(o(at), attempted, rescued, cleanup)
  {
  }

  /** How a try passes whose body failed at once. */
  lemma RescuePasses(cuts: bool, step: Step, c: Choice, f: Frame, attempted: Result, rescued: Result, cleanup: Result,
                     registered: bool)
    requires step.kind.TryCatch? && f.registered == {} && Alive(f.context) && !c.contextDone
    requires attempted.err == FAILED && attempted.frame == f
    requires Through(cuts, rescued, f, Owners(step.kind.rescue), true, Starts(step.kind.rescue), false)
    requires Cleaned(cuts, cleanup, Shielded(rescued.frame),
                     DefersStart(step.kind.body) || DefersStart(step.kind.rescue), registered)
    requires step.kind.body != [] && (cuts ==> StartsByRescue(step.kind))
    requires DefersStart(step.kind.rescue) ==> registered
    ensures Passed(cuts, TryResult(c, attempted, rescued, cleanup), f, StepStarts(step))
  {
    TryMayStart(step);
    TryPasses(cuts, c, f, attempted, rescued, cleanup, StepStarts(step),
              DefersStart(step.kind.body) || DefersStart(step.kind.rescue), registered);
  }

  lemma CatchIs(step: Step, at: Site, o: Oracle, attempted: Result)
    requires step.kind.TryCatch? && attempted.err == FAILED && Alive(attempted.frame.context) && !o(at).contextDone
    ensures ExecCatch(step, at, o, attempted) == ExecRescue(step.kind.rescue, In(at, Rescue, 0), o, attempted.frame)
  {
  }

  /** How the parts of a try go whose body is made to fail. */
  lemma {:induction false} RescueGoes(root: Tree, cuts: bool, fails: set<Site>, step: Step, at: Site, f: Frame)
    returns (attempted: Result, rescued: Result)
    requires at.In? && StepAt(root, at) == Some(step) && StepGroupsAcyclic(step) && step.kind.TryCatch?
    requires !f.returning && Alive(f.context)
    requires Thwarted(root, cuts, fails, In(at, Body, 0)) && step.kind.body != []
    ensures attempted == ExecSequence(step.kind.body, In(at, Body, 0), Smooth(root, cuts, fails), f)
    ensures attempted.err == FAILED && attempted.frame == f && !Smooth(root, cuts, fails)(at).contextDone
    ensures rescued == ExecRescue(step.kind.rescue, In(at, Rescue, 0), Smooth(root, cuts, fails), f)
    ensures Through(cuts, rescued, f, Owners(step.kind.rescue), true, Starts(step.kind.rescue), false)
    decreases step, 0, 1
  {
    var o := Smooth(root, cuts, fails);
    attempted := ExecSequence(step.kind.body, In(at, Body, 0), o, f);
    FailsAtOnce(root, cuts, fails, step.kind.body, In(at, Body, 0), f);
    rescued := ExecRescue(step.kind.rescue, In(at, Rescue, 0), o, f);
    RescueSucceeds(root, cuts, fails, step, at, f);
  }

  lemma {:induction false} RescueSucceeds(root: Tree, cuts: bool, fails: set<Site>, step: Step, at: Site, f: Frame)
    requires at.In? && StepAt(root, at) == Some(step) && StepGroupsAcyclic(step) && step.kind.TryCatch?
    requires !f.returning && Alive(f.context)
    requires Thwarted(root, cuts, fails, In(at, Body, 0)) && step.kind.body != []
    ensures
      var rescued := ExecRescue(step.kind.rescue, In(at, Rescue, 0), Smooth(root, cuts, fails), f);
      Through(cuts, rescued, f, Owners(step.kind.rescue), true, Starts(step.kind.rescue), false)
    decreases step, 0, 0
  {
    SmoothRescue(root, cuts, fails, step.kind.rescue, In(at, Rescue, 0), f);
  }

  lemma {:induction false} SmoothRescued(root: Tree, cuts: bool, fails: set<Site>, step: Step, at: Site, f: Frame)
    requires at.In? && StepAt(root, at) == Some(step) && StepGroupsAcyclic(step) && step.kind.TryCatch?
    requires !f.returning && Alive(f.context) && f.registered == {}
    requires Thwarted(root, cuts, fails, In(at, Body, 0)) && step.kind.body != []
    ensures Passed(cuts, ExecTryCatch(step, at, Smooth(root, cuts, fails), f), f, StepStarts(step))
    decreases step, 0, 2
  {
    var attempted, rescued := RescueGoes(root, cuts, fails, step, at, f);
    CatchIs(step, at, Smooth(root, cuts, fails), attempted);
    var cleanup, registered := CleanupGoes(root, cuts, fails, step, at, rescued.frame);
    TryIs(step, at, Smooth(root, cuts, fails), f, attempted, rescued, cleanup);
    RescuePasses(cuts, step, Smooth(root, cuts, fails)(at), f, attempted, rescued, cleanup, registered);
  }

  /** A body whose steps are made to fail fails at its first, without an effect. */
  lemma FailsAtOnce(root: Tree, cuts: bool, fails: set<Site>, body: seq<Step>, at: Site, f: Frame)
    requires at.In? && Thwarted(root, cuts, fails, at) && body != [] && Alive(f.context) && StepAt(root, at).Some?
    ensures var r := ExecSequence(body, at, Smooth(root, cuts, fails), f); r.err == FAILED && r.frame == f
  {
    var o := Smooth(root, cuts, fails);
    assert o(at).ends == 0 && o(at).before == FAILED;
    assert f.(context := Turn(f.context, 0)) == f;
    assert ExecStep(body[0], at, o, f).err == FAILED && ExecStep(body[0], at, o, f).frame == f;
  }

  lemma {:induction false} SmoothTried(root: Tree, cuts: bool, fails: set<Site>, step: Step, at: Site, f: Frame)
    requires at.In? && StepAt(root, at) == Some(step) && StepGroupsAcyclic(step) && step.kind.TryCatch?
    requires !f.returning && Alive(f.context) && f.registered == {}
    requires !Thwarted(root, cuts, fails, In(at, Body, 0)) || step.kind.body == []
    ensures Passed(cuts, ExecTryCatch(step, at, Smooth(root, cuts, fails), f), f, StepStarts(step))
    decreases step, 0, 2
  {
    var o, body, rescue := Smooth(root, cuts, fails), step.kind.body, step.kind.rescue;
    if body == [] {
      EmptyTryPasses(cuts, step, at, o, f);
    } else {
      var attempted := ExecSequence(body, In(at, Body, 0), o, f);
      SmoothSequence(root, cuts, fails, body, In(at, Body, 0), f);
      var cleanup, registered := CleanupGoes(root, cuts, fails, step, at, attempted.frame);
      if cuts && TryStarts(rescue) {
        TryStartsLeaveRecords(rescue);
      }
      var rescued := Result(attempted.frame, SkipRecords(rescue), {}, OK);
      TryIs(step, at, o, f, attempted, rescued, cleanup);
      TriedPasses(cuts, step, o(at), f, attempted, rescued, cleanup, registered);
    }
  }

  /** How a try passes whose body does. */
  lemma TriedPasses(cuts: bool, step: Step, c: Choice, f: Frame, attempted: Result, rescued: Result, cleanup: Result,
                    registered: bool)
    requires step.kind.TryCatch? && f.registered == {} && Alive(f.context) && step.kind.body != []
    requires Through(cuts, attempted, f, Owners(step.kind.body), false, Starts(step.kind.body), false)
    requires rescued.err == OK && rescued.frame == attempted.frame
    requires Cleaned(cuts, cleanup, Shielded(attempted.frame),
                     DefersStart(step.kind.body) || DefersStart(step.kind.rescue), registered)
    requires cuts && StepStarts(step) ==> TryStarts(step.kind.body)
    requires DefersStart(step.kind.body) ==> registered
    ensures Passed(cuts, TryResult(c, attempted, rescued, cleanup), f, StepStarts(step))
  {
    TryMayStart(step);
    TryPasses(cuts, c, f, attempted, rescued, cleanup, StepStarts(step),
              DefersStart(step.kind.body) || DefersStart(step.kind.rescue), registered);
  }

  lemma {:induction false} EmptyTryPasses(cuts: bool, step: Step, at: Site, o: Oracle, f: Frame)
    requires step.kind.TryCatch? && step.kind.body == []
    requires !f.returning && Alive(f.context) && f.registered == {}
    ensures Passed(cuts, ExecTryCatch(step, at, o, f), f, StepStarts(step))
  {
    var g := Shielded(f);
    NothingRegistered(step.kind.rescue, In(at, Rescue, 0), o, g);
    NothingIsClean(step.kind.rescue, In(at, Rescue, 0), o, g);
    assert ExecSequence(step.kind.body, In(at, Body, 0), o, f) == Result(f, [], {}, OK);
    assert ExecDefers(step.kind.body, In(at, Body, 0), o, g) == Result(g, [], {}, OK);
    TryMayStart(step);
  }

  lemma {:induction false} NothingIsClean(steps: seq<Step>, at: Site, o: Oracle, f: Frame)
    requires at.In? && f.registered == {}
    ensures ExecDefers(steps, at, o, f).err == OK
    decreases steps
  {
    if steps != [] {
      NothingIsClean(steps[1..], Next(at), o, f);
      NothingRegistered(steps[1..], Next(at), o, f);
      StepNothingIsClean(steps[0], at, o, f);
    }
  }

  lemma {:induction false} StepNothingIsClean(step: Step, at: Site, o: Oracle, f: Frame)
    requires f.registered == {}
    ensures ExecStepDefers(step, at, o, f).err == OK
    decreases step
  {
    match step.kind
    case Conditional(body) => NothingIsClean(body, In(at, Body, 0), o, f);
    case Scoped(body) => NothingIsClean(body, In(at, Body, 0), o, f);
    case _ =>
  }

  lemma TryStartsLeaveRecords(steps: seq<Step>)
    requires TryStarts(steps)
    ensures SkipRecords(steps) != []
  {
    if Starts(steps) {
      StartsLeaveRecords(steps);
    } else {
      DefersStartLeaveRecords(steps);
    }
  }

  /** The cleanup of a try from the state its rescue left: that deferred by the rescue, then by the body. */
  lemma {:induction false} CleanupGoes(root: Tree, cuts: bool, fails: set<Site>, step: Step, at: Site, f: Frame)
    returns (cleanup: Result, registered: bool)
    requires at.In? && StepAt(root, at) == Some(step) && StepGroupsAcyclic(step) && step.kind.TryCatch?
    requires !f.returning && Alive(f.context)
    ensures cleanup == TryCleanup(step, at, Smooth(root, cuts, fails), Shielded(f))
    ensures Cleaned(cuts, cleanup, Shielded(f), DefersStart(step.kind.body) || DefersStart(step.kind.rescue),
                    registered)
    ensures DefersStart(step.kind.body) && Owners(step.kind.body) <= f.registered ==> registered
    ensures DefersStart(step.kind.rescue) && Owners(step.kind.rescue) <= f.registered ==> registered
    decreases step, 0, 1
  {
    var o, body, rescue := Smooth(root, cuts, fails), step.kind.body, step.kind.rescue;
    SmoothDefers(root, cuts, fails, rescue, In(at, Rescue, 0), Shielded(f));
    var later := ExecDefers(rescue, In(at, Rescue, 0), o, Shielded(f));
    SmoothDefers(root, cuts, fails, body, In(at, Body, 0), later.frame);
    var earlier := ExecDefers(body, In(at, Body, 0), o, later.frame);
    CleanedTwice(cuts, Shielded(f), later, earlier, DefersStart(rescue), Owners(rescue) <= f.registered,
                 DefersStart(body), Owners(body) <= later.frame.registered);
    cleanup := Both(later, earlier);
    registered := (DefersStart(rescue) && Owners(rescue) <= f.registered) ||
      (DefersStart(body) && Owners(body) <= later.frame.registered);
  }

  /** One repetition of a control's body. */
  lemma {:induction false} SmoothPass(root: Tree, cuts: bool, fails: set<Site>, body: seq<Step>, at: Site, f: Frame,
                                      step: Step)
    requires at.In? && StepAt(root, at) == Some(step) && StepGroupsAcyclic(step)
    requires !f.returning && Alive(f.context)
    requires (step.kind.Fanout? || step.kind.Attempt?) && body == step.kind.body
    ensures Passed(cuts, ExecIterations(body, at, Smooth(root, cuts, fails), f, 1), f, Starts(body))
    ensures Passed(cuts, ExecPasses(body, at, Smooth(root, cuts, fails), f, 1), f, Starts(body))
    decreases body, 1
  {
    var o := Smooth(root, cuts, fails);
    assert ExecIterations(body, at, o, f, 0).frame == f && ExecPasses(body, at, o, f, 0).frame == f;
    assert Fork(f, f) == f;
    assert StepAt(root, Pass(at, 0)) == Some(step);
    assert Stands(root, body, In(Pass(at, 0), Body, 0));
    SmoothSequence(root, cuts, fails, body, In(Pass(at, 0), Body, 0), f);
  }

  lemma {:induction false} SmoothMonitors(root: Tree, cuts: bool, fails: set<Site>, monitors: seq<Step>, at: Site,
                                          f: Frame)
    requires Normal(root, cuts, fails, at) && at.role == Monitor && Stands(root, monitors, at)
    requires GroupsAcyclic(monitors)
    requires !f.returning && Alive(f.context)
    ensures Passed(cuts, ExecMonitors(monitors, at, Smooth(root, cuts, fails), f), f, Starts(monitors))
    decreases monitors, 0
  {
    if monitors != [] {
      var o := Smooth(root, cuts, fails);
      StandsNext(root, monitors, at);
      SmoothStep(root, cuts, fails, monitors[0], at, f);
      var r := ExecStep(monitors[0], at, o, f);
      SmoothMonitors(root, cuts, fails, monitors[1..], Next(at), Keep(f, r.frame));
      MonitorsKeep(monitors[1..], Next(at), o, Keep(f, r.frame));
    }
  }

  // ---------------------------------------------------------------------------------------
  // Groups

  ghost predicate StarterAt(group: Kind, start: Start)
    requires group.Concurrent?
  {
    start.succeeds && start.branch < |group.body| && StepStarts(group.body[start.branch])
  }

  /** Some branch that started with success can start a service. */
  ghost predicate StarterRan(group: Kind, plan: seq<Start>)
    requires group.Concurrent?
  {
    exists i :: 0 <= i < |plan| && StarterAt(group, plan[i])
  }

  /** The branches that ran without error did their work. */
  ghost predicate DidWork(branches: seq<Step>, done: map<nat, Result>) {
    forall k :: k in done && k < |branches| && done[k].err == OK && SkipStepRecords(branches[k]) != [] ==>
      !AllSkipped(done[k].records)
  }

  /** The group follows its plan, or a service has cut it off. */
  ghost predicate Following(cuts: bool, group: Kind, plan: seq<Start>, f: Frame, shown: bool, cutting: bool,
                            run: GroupRun)
    requires group.Concurrent?
  {
    && |run.context.serving| == |f.context.serving| && run.context.shield == f.context.shield
    && (run.context.Over() ==> cutting && CutOff(run.context) && Starts(group.body))
    && (!run.context.Over() ==>
          && Alive(run.context) && FatesOf(run.done) == PlanFates(plan) && f.registered <= run.registered
          && (cuts && StarterRan(group, plan) && |f.context.serving| > 1 ==> run.context.Armed())
          && (!StarterRan(group, plan) || |f.context.serving| <= 1 ==> run.context == f.context)
          && (!shown ==> DidWork(group.body, run.done)))
  }

  lemma PlanChosen(group: Kind, losing: bool)
    requires group.Concurrent? && Acyclic(WaitEdges(group.body))
    ensures Feasible(group, PlanOf(group, losing))
    ensures losing && Loses(group) ==> LosingPlan(group, PlanOf(group, losing))
    ensures !(losing && Loses(group)) ==> FullPlan(group, PlanOf(group, losing))
  {
    AcyclicHasFullPlan(group);
  }

  lemma NothingDoomed(root: Tree, at: Site)
    ensures !Doomed(root, false, at)
  {
  }

  /** A group in the tree, and the plan it follows. */
  ghost predicate GroupAt(root: Tree, cuts: bool, group: Kind, at: Site, plan: seq<Start>) {
    && at.In? && StepAt(root, at).Some? && StepAt(root, at).value.kind == group && group.Concurrent?
    && GroupsAcyclic(group.body)
    && forall start :: start in plan ==>
         start.branch < |group.body| && (Doomed(root, cuts, In(at, Branch, start.branch)) <==> !start.succeeds)
  }

  lemma PlanIsFollowed(root: Tree, cuts: bool, step: Step, at: Site)
    requires at.In? && StepAt(root, at) == Some(step) && step.kind.Concurrent? && StepGroupsAcyclic(step)
    ensures GroupAt(root, cuts, step.kind, at, PlanOf(step.kind, Cutting(root, cuts, at)))
  {
    var plan := PlanOf(step.kind, Cutting(root, cuts, at));
    PlanChosen(step.kind, Cutting(root, cuts, at));
    FeasibleIsDistinct(step.kind, plan);
    forall start | start in plan
      ensures start.branch < |step.kind.body|
      ensures Start(start.branch, false) in plan <==> !start.succeeds
    {
      OneFate(step.kind, plan, start);
    }
  }

  lemma OneFate(group: Kind, plan: seq<Start>, start: Start)
    requires group.Concurrent? && Feasible(group, plan) && start in plan
    ensures start.branch < |group.body|
    ensures Start(start.branch, false) in plan <==> !start.succeeds
  {
    FeasibleIsDistinct(group, plan);
    var i :| 0 <= i < |plan| && plan[i] == start;
    assert Branches(plan)[i] == start.branch;
    if Start(start.branch, false) in plan {
      var j :| 0 <= j < |plan| && plan[j] == Start(start.branch, false);
      assert Branches(plan)[j] == start.branch;
    }
  }

  lemma BranchStands(root: Tree, group: Kind, at: Site, k: nat)
    requires at.In? && StepAt(root, at).Some? && StepAt(root, at).value.kind == group && group.Concurrent?
    requires GroupsAcyclic(group.body) && k < |group.body|
    ensures StepGroupsAcyclic(group.body[k]) && StepAt(root, In(at, Branch, k)) == Some(group.body[k])
  {
    GroupsAcyclicAt(group.body, k);
  }

  /** What becomes of a branch: it ends as planned, or the scope has been ended. */
  ghost predicate Outcome(root: Tree, cuts: bool, group: Kind, at: Site, start: Start, f: Frame, r: Result)
    requires group.Concurrent? && start.branch < |group.body|
  {
    var work := SkipStepRecords(group.body[start.branch]) != [];
    && |r.frame.context.serving| == |f.context.serving| && r.frame.context.shield == f.context.shield
    && (r.frame.context.Over() ==>
          && Cutting(root, cuts, at) && CutOff(r.frame.context)
          && (StarterAt(group, start) || (f.context.Armed() && work)))
    && (!r.frame.context.Over() ==>
          && Alive(r.frame.context) && (r.err == OK <==> start.succeeds) && f.registered <= r.frame.registered
          && (cuts && StarterAt(group, start) && |f.context.serving| > 1 ==> r.frame.context.Armed())
          && (f.context.Armed() ==> r.frame.context.Armed())
          && (!StarterAt(group, start) || |f.context.serving| <= 1 ==> r.frame.context == f.context)
          && (r.err == OK && work && !Shown(root, cuts, at) ==> !AllSkipped(r.records)))
  }

  /** A branch that its plan has fail does so at once. */
  lemma DoomedStep(root: Tree, cuts: bool, fails: set<Site>, step: Step, at: Site, f: Frame)
    requires at.In? && StepAt(root, at) == Some(step) && Doomed(root, cuts, at) && Alive(f.context)
    requires Cutting(root, cuts, at) ==> |f.context.serving| > 1 && !(f.context.Armed() && SkipStepRecords(step) != [])
    ensures
      var r := ExecStep(step, at, Smooth(root, cuts, fails), f);
      r.err == FAILED && r.frame == f && (!KeepsRecord(step.kind) ==> r.records == [])
  {
    var o := Smooth(root, cuts, fails);
    assert f.(context := Turn(f.context, o(at).ends)) == f;
  }

  lemma {:induction false} SmoothBranch(root: Tree, cuts: bool, fails: set<Site>, group: Kind, at: Site, start: Start,
                                        f: Frame)
    requires GroupAt(root, cuts, group, at, [start])
    requires !f.returning && Alive(f.context)
    requires Shown(root, cuts, at) ==> f.context.shield == 0 < |f.context.serving|
    requires Cutting(root, cuts, at) ==> |f.context.serving| > 1
    ensures
      var k := start.branch;
      Outcome(root, cuts, group, at, start, f, ExecStep(group.body[k], In(at, Branch, k), Smooth(root, cuts, fails), f))
    decreases group, 0, 0
  {
    assert start in [start];
    var k := start.branch;
    var step, place, o := group.body[k], In(at, Branch, k), Smooth(root, cuts, fails);
    BranchStands(root, group, at, k);
    if Cutting(root, cuts, at) && SkipStepRecords(step) != [] && f.context.Armed() {
      CutStep(root, cuts, fails, step, place, f);
    } else if !start.succeeds {
      DoomedStep(root, cuts, fails, step, place, f);
    } else {
      SmoothStep(root, cuts, fails, step, place, f);
      StepKeeps(step, place, o, f);
    }
  }

  lemma StarterRanNext(group: Kind, front: seq<Start>, start: Start)
    requires group.Concurrent?
    ensures StarterRan(group, front + [start]) <==> StarterRan(group, front) || StarterAt(group, start)
  {
    var part := front + [start];
    if StarterRan(group, front) {
      var i :| 0 <= i < |front| && StarterAt(group, front[i]);
      assert part[i] == front[i];
    }
    if StarterAt(group, start) {
      assert part[|front|] == start;
    }
  }

  lemma StarterStarts(group: Kind, plan: seq<Start>)
    requires group.Concurrent? && StarterRan(group, plan)
    ensures Starts(group.body)
  {
    var i :| 0 <= i < |plan| && StarterAt(group, plan[i]);
    StartsAt(group.body, plan[i].branch);
  }

  lemma {:induction false} NoWorkAt(steps: seq<Step>, k: nat)
    requires k < |steps| && SkipStepRecords(steps[k]) != []
    ensures SkipRecords(steps) != []
  {
    if k > 0 {
      NoWorkAt(steps[1..], k - 1);
    }
  }

  /** One more branch of the plan. */
  lemma RunNext(group: Kind, at: Site, o: Oracle, f: Frame, front: seq<Start>, start: Start)
    requires group.Concurrent?
    ensures
      var before, k := RunBranches(group, at, o, f, Branches(front)), start.branch;
      RunBranches(group, at, o, f, Branches(front + [start])) ==
        if before.context.Over() || !MayStart(group, FatesOf(before.done), k) then before
        else After(before, k, ExecStep(group.body[k], In(at, Branch, k), o, BranchFrame(group.body, f, before, k)))
  {
    var order := Branches(front + [start]);
    assert order[..|order| - 1] == Branches(front);
  }

  /** The last branch of a plan, and what comes before it. */
  lemma LastOfPlan(root: Tree, cuts: bool, group: Kind, at: Site, part: seq<Start>)
    returns (front: seq<Start>, start: Start)
    requires GroupAt(root, cuts, group, at, part) && Feasible(group, part) && part != []
    ensures part == front + [start] && |front| < |part|
    ensures GroupAt(root, cuts, group, at, front) && Feasible(group, front)
    ensures GroupAt(root, cuts, group, at, [start]) && MayStart(group, PlanFates(front), start.branch)
  {
    front, start := part[..|part| - 1], part[|part| - 1];
  }

  lemma {:induction false} SmoothBranches(root: Tree, cuts: bool, fails: set<Site>, group: Kind, at: Site,
                                          part: seq<Start>, f: Frame)
    requires GroupAt(root, cuts, group, at, part) && Feasible(group, part)
    requires Fit(root, cuts, at, f, SkipRecords(group.body) != [])
    ensures Following(cuts, group, part, f, Shown(root, cuts, at), Cutting(root, cuts, at),
                      RunBranches(group, at, Smooth(root, cuts, fails), f, Branches(part)))
    decreases group, 1, |part|
  {
    if part != [] {
      var front, start := LastOfPlan(root, cuts, group, at, part);
      SmoothBranches(root, cuts, fails, group, at, front, f);
      NextBranchFollows(root, cuts, fails, group, at, front, start, f);
    }
  }

  lemma {:induction false} NextBranchFollows(root: Tree, cuts: bool, fails: set<Site>, group: Kind, at: Site,
                                             front: seq<Start>, start: Start, f: Frame)
    requires GroupAt(root, cuts, group, at, [start]) && MayStart(group, PlanFates(front), start.branch)
    requires Fit(root, cuts, at, f, SkipRecords(group.body) != [])
    requires Following(cuts, group, front, f, Shown(root, cuts, at), Cutting(root, cuts, at),
                       RunBranches(group, at, Smooth(root, cuts, fails), f, Branches(front)))
    ensures Following(cuts, group, front + [start], f, Shown(root, cuts, at), Cutting(root, cuts, at),
                      RunBranches(group, at, Smooth(root, cuts, fails), f, Branches(front + [start])))
    decreases group, 0, 1
  {
    var before := RunBranches(group, at, Smooth(root, cuts, fails), f, Branches(front));
    RunNext(group, at, Smooth(root, cuts, fails), f, front, start);
    if !before.context.Over() {
      var g := BranchFrame(group.body, f, before, start.branch);
      SmoothBranch(root, cuts, fails, group, at, start, g);
      NextFollows(root, cuts, group, at, front, start, f, before, g,
                  ExecStep(group.body[start.branch], In(at, Branch, start.branch), Smooth(root, cuts, fails), g));
    }
  }

  lemma NextFollows(root: Tree, cuts: bool, group: Kind, at: Site, front: seq<Start>, start: Start, f: Frame,
                    before: GroupRun, g: Frame, r: Result)
    requires group.Concurrent? && start.branch < |group.body|
    requires Fit(root, cuts, at, f, SkipRecords(group.body) != [])
    requires !before.context.Over() && g.context == before.context && g.registered == before.registered
    requires Following(cuts, group, front, f, Shown(root, cuts, at), Cutting(root, cuts, at), before)
    requires Outcome(root, cuts, group, at, start, g, r)
    ensures Following(cuts, group, front + [start], f, Shown(root, cuts, at), Cutting(root, cuts, at),
                      After(before, start.branch, r))
  {
    var k := start.branch;
    StarterRanNext(group, front, start);
    FatesNext(before.done, k, r);
    assert (front + [start])[..|front|] == front;
    if StepStarts(group.body[k]) {
      StartsAt(group.body, k);
    }
    if StarterRan(group, front) {
      StarterStarts(group, front);
    }
    if SkipStepRecords(group.body[k]) != [] {
      NoWorkAt(group.body, k);
    }
  }

  lemma {:induction false} AllJoined(done: map<nat, Result>, n: nat, primary: bool)
    requires forall k: nat :: k < n && k in done ==> done[k].err == OK
    ensures JoinDone(done, n, primary) == OK
  {
    if n > 0 {
      AllJoined(done, n - 1, primary);
    }
  }

  /** A group that has followed a full plan has no error. */
  lemma FullPlanSucceeds(group: Kind, plan: seq<Start>, run: GroupRun, c: Choice)
    requires group.Concurrent? && FullPlan(group, plan) && FatesOf(run.done) == PlanFates(plan)
    requires !run.context.Over() && c.error == OK
    ensures GroupError(group, run, c) == OK
    ensures forall k: nat :: k < |group.body| ==> k in run.done && run.done[k].err == OK
  {
    AllSucceeded(plan);
    forall k: nat | k < |group.body| || k in run.done
      ensures k in run.done && run.done[k].err == OK
    {
      assert k in run.done ==> k in FatesOf(run.done);
      assert k in FatesOf(run.done) ==> FatesOf(run.done)[k];
    }
    AllJoined(run.done, |group.body|, true);
    AllJoined(run.done, |group.body|, false);
  }

  /** If a branch can start a service, a full plan has it do so. */
  lemma FullPlanStarts(group: Kind, plan: seq<Start>)
    requires group.Concurrent? && FullPlan(group, plan) && Starts(group.body)
    ensures StarterRan(group, plan)
  {
    var k := SomeStarter(group.body);
    FatesHold(plan, k);
    var i :| 0 <= i < |Branches(plan)| && Branches(plan)[i] == k;
    assert StarterAt(group, plan[i]);
  }

  lemma {:induction false} SomeStarter(steps: seq<Step>) returns (k: nat)
    requires Starts(steps)
    ensures k < |steps| && StepStarts(steps[k])
  {
    if StepStarts(steps[0]) {
      k := 0;
    } else {
      var rest := SomeStarter(steps[1..]);
      k := rest + 1;
    }
  }

  lemma {:induction false} GroupWorked(branches: seq<Step>, done: map<nat, Result>, n: nat)
    requires n <= |branches| && DidWork(branches, done)
    requires forall k: nat :: k < n ==> k in done && done[k].err == OK
    ensures SkipRecords(branches[..n]) != [] ==> !AllSkipped(GroupRecords(branches, done, n))
  {
    if n > 0 {
      GroupWorked(branches, done, n - 1);
      SkipRecordsEnd(branches, n);
      WorkedJoin(GroupRecords(branches, done, n - 1), done[n - 1].records);
    }
  }

  lemma {:induction false} SmoothGroup(root: Tree, cuts: bool, fails: set<Site>, step: Step, at: Site, f: Frame)
    requires Normal(root, cuts, fails, at) && StepAt(root, at) == Some(step) && StepGroupsAcyclic(step)
    requires step.kind.Concurrent? && Fit(root, cuts, at, f, SkipStepRecords(step) != [])
    ensures Through(cuts, ExecGroup(step, at, Smooth(root, cuts, fails), f), f, {},
                    SkipStepRecords(step) != [] && !Shown(root, cuts, at), StepStarts(step), Cutting(root, cuts, at))
    decreases step, 1
  {
    var group, o := step.kind, Smooth(root, cuts, fails);
    var plan := PlanOf(group, Cutting(root, cuts, at));
    PlanChosen(group, Cutting(root, cuts, at));
    PlanIsFollowed(root, cuts, step, at);
    var order := Branches(plan);
    assert o(at).order == order;
    SmoothBranches(root, cuts, fails, group, at, plan, f);
    var run := RunBranches(group, at, o, f, order);
    if IsLosingGroup(root, cuts, at) {
      LosingGroup(cuts, step, f, plan, run, o(at));
    } else if run.context.Over() {
      CutGroup(cuts, step, f, run, o(at));
    } else {
      FullGroup(cuts, step, f, plan, run, o(at), Shown(root, cuts, at), Cutting(root, cuts, at));
    }
  }

  /** What a group leaves behind when it has been cut off, ... */
  lemma CutGroup(cuts: bool, step: Step, f: Frame, run: GroupRun, c: Choice)
    requires step.kind.Concurrent? && run.context.Over() && CutOff(run.context) && Starts(step.kind.body)
    requires |run.context.serving| == |f.context.serving| > 1 && run.context.shield == f.context.shield
    requires !f.returning
    ensures Through(cuts, GroupResult(step, f, run, c), f, {}, false, true, true)
    ensures GroupResult(step, f, run, c).err == CANCELED
  {
  }

  /** ... when its plan loses work, ... */
  lemma LosingGroup(cuts: bool, step: Step, f: Frame, plan: seq<Start>, run: GroupRun, c: Choice)
    requires step.kind.Concurrent? && LosingPlan(step.kind, plan) && cuts && c.during == 1
    requires !f.returning && f.context.shield == 0 && |f.context.serving| > 1
    requires Following(cuts, step.kind, plan, f, true, true, run)
    ensures Through(cuts, GroupResult(step, f, run, c), f, {}, false, true, true) && Starts(step.kind.body)
    ensures GroupResult(step, f, run, c).err == CANCELED
  {
    var last := |plan| - 1;
    FeasibleIsDistinct(step.kind, plan);
    assert plan[last].branch == Branches(plan)[last];
    assert StarterAt(step.kind, plan[last]);
    StarterStarts(step.kind, plan);
  }

  /** ... and when all branches have succeeded. */
  lemma FullGroup(cuts: bool, step: Step, f: Frame, plan: seq<Start>, run: GroupRun, c: Choice, shown: bool,
                  cutting: bool)
    requires step.kind.Concurrent? && FullPlan(step.kind, plan) && c.during == 0 && c.error == OK
    requires !f.returning && !run.context.Over()
    requires Following(cuts, step.kind, plan, f, shown, cutting, run)
    ensures Through(cuts, GroupResult(step, f, run, c), f, {}, SkipStepRecords(step) != [] && !shown,
                    Starts(step.kind.body), cutting)
    ensures GroupResult(step, f, run, c).err == OK
  {
    var group := step.kind;
    FullPlanSucceeds(group, plan, run.(context := Turn(run.context, 0)), c);
    FullPlanStarters(group, plan);
    if !shown {
      AllWorked(group.body, run.done);
    }
  }

  lemma FullPlanStarters(group: Kind, plan: seq<Start>)
    requires group.Concurrent? && FullPlan(group, plan)
    ensures StarterRan(group, plan) <==> Starts(group.body)
  {
    if StarterRan(group, plan) {
      StarterStarts(group, plan);
    }
    if Starts(group.body) {
      FullPlanStarts(group, plan);
    }
  }

  lemma AllWorked(branches: seq<Step>, done: map<nat, Result>)
    requires DidWork(branches, done)
    requires forall k: nat :: k < |branches| ==> k in done && done[k].err == OK
    ensures SkipRecords(branches) != [] ==> !AllSkipped(GroupRecords(branches, done, |branches|))
  {
    GroupWorked(branches, done, |branches|);
    assert branches[..|branches|] == branches;
  }
}
