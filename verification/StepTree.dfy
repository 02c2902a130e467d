/** The tree of declared steps and the static counts the engine takes from it. */
module StepTree {
  import opened ConcurrentGraph

  /** A declaration: its id and sibling edges, and what kind of step it is. */
  datatype Step = Step(decl: Declaration, kind: Kind)

  /** Bodies are the child sequences a kind owns. Only ordinary steps and attempts carry `deferred`
      cleanup. `service` marks a step that may start a service which ends its scope when it exits; an
      environment or working-directory block is a `Scoped` one. A `serial` group has room for one branch
      at a time, a `failFast` one starts none after a failure; of a fan-out that fails fast the error is that of
      its failed iterations alone, if any failed by itself. */
  datatype Kind =
    | Leaf(deferred: seq<Step>, service: bool)
    | Return
    | Conditional(body: seq<Step>)
    | Scoped(body: seq<Step>)
    | Executor(body: seq<Step>, finale: seq<Step>)
    | Worktree(body: seq<Step>)
    | Concurrent(body: seq<Step>, serial: bool, failFast: bool)
    | Fanout(body: seq<Step>, failFast: bool)
    | Attempt(body: seq<Step>, deferred: seq<Step>)
    | Once(body: seq<Step>)
    | TryCatch(body: seq<Step>, rescue: seq<Step>)
    | CancelOn(monitors: seq<Step>, body: seq<Step>)

  /** Steps that leave a record of their own when a sequence is counted. */
  function LeafCount(steps: seq<Step>): nat
    decreases steps
  {
    if steps == [] then 0 else StepLeafCount(steps[0]) + LeafCount(steps[1..])
  }

  function StepLeafCount(step: Step): nat
    decreases step
  {
    match step.kind
    case Executor(body, finale) => LeafCount(body) + LeafCount(finale)
    case Conditional(body) => LeafCount(body)
    case Scoped(body) => LeafCount(body)
    case Concurrent(body, _, _) => LeafCount(body)
    case Return => 0
    case _ => 1
  }

  // ---------------------------------------------------------------------------------------
  // Defer groups

  /** Cleanup declared on one step of a scope. */
  datatype DeferGroup = DeferGroup(owner: string, steps: seq<Step>)

  /** The cleanup a scope collects, in declaration order. Executor and worktree blocks own scopes of
      their own; controls run their bodies privately. */
  function DeferGroups(steps: seq<Step>): seq<DeferGroup>
    decreases steps
  {
    if steps == [] then [] else StepDeferGroups(steps[0]) + DeferGroups(steps[1..])
  }

  function StepDeferGroups(step: Step): seq<DeferGroup>
    decreases step
  {
    match step.kind
    case Conditional(body) => DeferGroups(body)
    case Scoped(body) => DeferGroups(body)
    case Leaf(deferred, _) => if deferred == [] then [] else [DeferGroup(step.decl.id, deferred)]
    case Attempt(_, deferred) => if deferred == [] then [] else [DeferGroup(step.decl.id, deferred)]
    case _ => []
  }

  function GroupsLeafCount(groups: seq<DeferGroup>): nat {
    if groups == [] then 0 else LeafCount(groups[0].steps) + GroupsLeafCount(groups[1..])
  }

  /** The cleanup of executor blocks in a scope, which the scope's own total does not include. */
  function NestedDeferCount(steps: seq<Step>): nat
    decreases steps
  {
    if steps == [] then 0 else StepNestedDeferCount(steps[0]) + NestedDeferCount(steps[1..])
  }

  function StepNestedDeferCount(step: Step): nat
    decreases step
  {
    match step.kind
    case Executor(body, _) => GroupsLeafCount(DeferGroups(body))
    case Conditional(body) => NestedDeferCount(body)
    case Scoped(body) => NestedDeferCount(body)
    case _ => 0
  }

  // ---------------------------------------------------------------------------------------
  // Records of skipped steps

  datatype RecordStatus = Succeeded | SkippedStep | FailedStep
  datatype Record = Record(id: string, status: RecordStatus)

  /** What skipping a whole sequence records: one entry per leaf, and for an executor block also its
      deferred cleanup, last group first, before its final steps. */
  function SkipRecords(steps: seq<Step>): seq<Record>
    decreases steps
  {
    if steps == [] then [] else SkipStepRecords(steps[0]) + SkipRecords(steps[1..])
  }

  function SkipStepRecords(step: Step): seq<Record>
    decreases step
  {
    match step.kind
    case Executor(body, finale) => SkipRecords(body) + SkipDeferRecords(body) + SkipRecords(finale)
    case Conditional(body) => SkipRecords(body)
    case Scoped(body) => SkipRecords(body)
    case Concurrent(body, _, _) => SkipRecords(body)
    case Return => []
    case _ => [Record(step.decl.id, SkippedStep)]
  }

  /** The deferred cleanup of a scope, last declared group first. */
  function SkipDeferRecords(steps: seq<Step>): seq<Record>
    decreases steps
  {
    if steps == [] then [] else SkipDeferRecords(steps[1..]) + SkipStepDeferRecords(steps[0])
  }

  function SkipStepDeferRecords(step: Step): seq<Record>
    decreases step
  {
    match step.kind
    case Conditional(body) => SkipDeferRecords(body)
    case Scoped(body) => SkipDeferRecords(body)
    case Leaf(deferred, _) => SkipRecords(deferred)
    case Attempt(_, deferred) => SkipRecords(deferred)
    case _ => []
  }

  /** The same taken from the collected groups: a loop from the last group to the first. */
  function SkipGroupRecords(groups: seq<DeferGroup>): seq<Record> {
    if groups == [] then [] else SkipGroupRecords(groups[1..]) + SkipRecords(groups[0].steps)
  }

  lemma {:induction false} SkipGroupsJoin(a: seq<DeferGroup>, b: seq<DeferGroup>)
    ensures SkipGroupRecords(a + b) == SkipGroupRecords(b) + SkipGroupRecords(a)
  {
    if a == [] {
      assert a + b == b;
    } else {
      assert (a + b)[1..] == a[1..] + b;
      SkipGroupsJoin(a[1..], b);
    }
  }

  /** Walking the scope's tree backwards visits the collected groups in reverse declaration order. */
  lemma {:induction false} SkipDefersAreReversedGroups(steps: seq<Step>)
    ensures SkipDeferRecords(steps) == SkipGroupRecords(DeferGroups(steps))
    decreases steps
  {
    if steps != [] {
      SkipStepDefersAreReversedGroups(steps[0]);
      SkipDefersAreReversedGroups(steps[1..]);
      SkipGroupsJoin(StepDeferGroups(steps[0]), DeferGroups(steps[1..]));
    }
  }

  lemma {:induction false} SkipStepDefersAreReversedGroups(step: Step)
    ensures SkipStepDeferRecords(step) == SkipGroupRecords(StepDeferGroups(step))
    decreases step
  {
    match step.kind
    case Conditional(body) => SkipDefersAreReversedGroups(body);
    case Scoped(body) => SkipDefersAreReversedGroups(body);
    case _ =>
  }

  // ---------------------------------------------------------------------------------------
  // Records against totals

  /** Somewhere among the steps recorded for a sequence stands an executor block with deferred cleanup. */
  predicate HasExecutorDefers(steps: seq<Step>)
    decreases steps
  {
    steps != [] && (StepHasExecutorDefers(steps[0]) || HasExecutorDefers(steps[1..]))
  }

  predicate StepHasExecutorDefers(step: Step)
    decreases step
  {
    match step.kind
    case Executor(body, finale) =>
      || GroupsLeafCount(DeferGroups(body)) > 0
      || HasExecutorDefers(body) || DefersHaveExecutorDefers(body) || HasExecutorDefers(finale)
    case Conditional(body) => HasExecutorDefers(body)
    case Scoped(body) => HasExecutorDefers(body)
    case Concurrent(body, _, _) => HasExecutorDefers(body)
    case _ => false
  }

  /** The same for the deferred cleanup of a scope. */
  predicate DefersHaveExecutorDefers(steps: seq<Step>)
    decreases steps
  {
    steps != [] && (StepDefersHaveExecutorDefers(steps[0]) || DefersHaveExecutorDefers(steps[1..]))
  }

  predicate StepDefersHaveExecutorDefers(step: Step)
    decreases step
  {
    match step.kind
    case Conditional(body) => DefersHaveExecutorDefers(body)
    case Scoped(body) => DefersHaveExecutorDefers(body)
    case Leaf(deferred, _) => HasExecutorDefers(deferred)
    case Attempt(_, deferred) => HasExecutorDefers(deferred)
    case _ => false
  }

  /** An executor block with deferred cleanup sits inside another executor block or a concurrent group. */
  predicate HidesExecutorDefers(steps: seq<Step>)
    decreases steps
  {
    steps != [] && (StepHidesExecutorDefers(steps[0]) || HidesExecutorDefers(steps[1..]))
  }

  predicate StepHidesExecutorDefers(step: Step)
    decreases step
  {
    match step.kind
    case Conditional(body) => HidesExecutorDefers(body)
    case Scoped(body) => HidesExecutorDefers(body)
    case Executor(body, finale) =>
      HasExecutorDefers(body) || DefersHaveExecutorDefers(body) || HasExecutorDefers(finale)
    case Concurrent(body, _, _) => HasExecutorDefers(body)
    case _ => false
  }

  lemma {:induction false} GroupsLeafCountJoin(a: seq<DeferGroup>, b: seq<DeferGroup>)
    ensures GroupsLeafCount(a + b) == GroupsLeafCount(a) + GroupsLeafCount(b)
  {
    if a == [] {
      assert a + b == b;
    } else {
      assert (a + b)[1..] == a[1..] + b;
      GroupsLeafCountJoin(a[1..], b);
    }
  }

  lemma {:induction false} RecordsBeyondLeaves(steps: seq<Step>)
    ensures |SkipRecords(steps)| >= LeafCount(steps)
    ensures |SkipRecords(steps)| == LeafCount(steps) <==> !HasExecutorDefers(steps)
    decreases steps
  {
    if steps != [] {
      StepRecordsBeyondLeaves(steps[0]);
      RecordsBeyondLeaves(steps[1..]);
    }
  }

  lemma {:induction false} StepRecordsBeyondLeaves(step: Step)
    ensures |SkipStepRecords(step)| >= StepLeafCount(step)
    ensures |SkipStepRecords(step)| == StepLeafCount(step) <==> !StepHasExecutorDefers(step)
    decreases step
  {
    match step.kind
    case Executor(body, finale) =>
      RecordsBeyondLeaves(body);
      DeferRecordsBeyondLeaves(body);
      RecordsBeyondLeaves(finale);
    case Conditional(body) => RecordsBeyondLeaves(body);
    case Scoped(body) => RecordsBeyondLeaves(body);
    case Concurrent(body, _, _) => RecordsBeyondLeaves(body);
    case _ =>
  }

  lemma {:induction false} DeferRecordsBeyondLeaves(steps: seq<Step>)
    ensures |SkipDeferRecords(steps)| >= GroupsLeafCount(DeferGroups(steps))
    ensures |SkipDeferRecords(steps)| == GroupsLeafCount(DeferGroups(steps)) <==> !DefersHaveExecutorDefers(steps)
    decreases steps
  {
    if steps != [] {
      StepDeferRecordsBeyondLeaves(steps[0]);
      DeferRecordsBeyondLeaves(steps[1..]);
      GroupsLeafCountJoin(StepDeferGroups(steps[0]), DeferGroups(steps[1..]));
    }
  }

  lemma {:induction false} StepDeferRecordsBeyondLeaves(step: Step)
    ensures |SkipStepDeferRecords(step)| >= GroupsLeafCount(StepDeferGroups(step))
    ensures |SkipStepDeferRecords(step)| == GroupsLeafCount(StepDeferGroups(step)) <==>
      !StepDefersHaveExecutorDefers(step)
    decreases step
  {
    match step.kind
    case Conditional(body) => DeferRecordsBeyondLeaves(body);
    case Scoped(body) => DeferRecordsBeyondLeaves(body);
    case Leaf(deferred, _) => RecordsBeyondLeaves(deferred);
    case Attempt(_, deferred) => RecordsBeyondLeaves(deferred);
    case _ =>
  }

  /** The total a run announces, leaves plus nested cleanup, is the number of records its steps leave
      exactly when no executor block with deferred cleanup is hidden in another one or in a group. */
  lemma {:induction false} TotalCountsRecords(steps: seq<Step>)
    ensures |SkipRecords(steps)| >= LeafCount(steps) + NestedDeferCount(steps)
    ensures |SkipRecords(steps)| == LeafCount(steps) + NestedDeferCount(steps) <==> !HidesExecutorDefers(steps)
    decreases steps
  {
    if steps != [] {
      StepTotalCountsRecords(steps[0]);
      TotalCountsRecords(steps[1..]);
    }
  }

  lemma {:induction false} StepTotalCountsRecords(step: Step)
    ensures |SkipStepRecords(step)| >= StepLeafCount(step) + StepNestedDeferCount(step)
    ensures |SkipStepRecords(step)| == StepLeafCount(step) + StepNestedDeferCount(step) <==>
      !StepHidesExecutorDefers(step)
    decreases step
  {
    match step.kind
    case Conditional(body) => TotalCountsRecords(body);
    case Scoped(body) => TotalCountsRecords(body);
    case Executor(body, finale) =>
      RecordsBeyondLeaves(body);
      DeferRecordsBeyondLeaves(body);
      RecordsBeyondLeaves(finale);
    case Concurrent(body, _, _) => RecordsBeyondLeaves(body);
    case _ =>
  }
}
