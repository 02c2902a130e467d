/** The reference validator's idea of which step ids are in scope where. */
module ReferenceScope {
  import opened ConcurrentGraph
  import opened StepTree
  import opened Interpreter

  /** The scope a sequence leaves behind, and the scope every place in it was validated against. */
  datatype Checked = Checked(scope: set<string>, points: set<Observation>)

  /** Anonymous declarations add nothing. */
  function AddStep(scope: set<string>, id: string): set<string> {
    if id == "" then scope else scope + {id}
  }

  function AddSteps(scope: set<string>, ids: set<string>): set<string> {
    scope + (ids - {""})
  }

  ghost function ValidateSequence(steps: seq<Step>, at: Site, scope: set<string>): Checked
    requires at.In?
    decreases steps, 0
  {
    if steps == [] then Checked(scope, {})
    else
      var v := ValidateStep(steps[0], at, scope);
      var rest := ValidateSequence(steps[1..], Next(at), v.scope);
      Checked(rest.scope, v.points + rest.points)
  }

  ghost function ValidateStep(step: Step, at: Site, scope: set<string>): Checked
    requires at.In?
    decreases step, 1
  {
    var here := {Observation(at, scope)};
    match step.kind
    case Leaf(_, _) => Checked(AddStep(scope, step.decl.id), here)
    case Return => Checked(scope, here)
    case Conditional(body) =>
      var v := ValidateSequence(body, In(at, Body, 0), scope);
      v.(points := here + v.points)
    case Scoped(body) =>
      var v := ValidateSequence(body, In(at, Body, 0), scope);
      v.(points := here + v.points)
    case Executor(body, finale) =>
      var v := ValidateSequence(body, In(at, ExecutorBody, 0), scope);
      var d := ValidateDefers(body, In(at, ExecutorBody, 0), v.scope);
      var final := ValidateSequence(finale, In(at, ExecutorFinally, 0), d.scope);
      Checked(final.scope, here + v.points + d.points + final.points)
    case Worktree(body) =>
      var v := ValidateSequence(body, In(at, Body, 0), scope);
      var d := ValidateDefers(body, In(at, Body, 0), v.scope);
      Checked(AddStep(d.scope, step.decl.id), here + v.points + d.points)
    case Concurrent(body, _, _) =>
      Checked(AddSteps(scope, Selected(body)), here + ValidateBranches(body, at, scope, body, 0))
    case Fanout(body, _) =>
      var v := ValidateSequence(body, In(at, Body, 0), scope);
      Checked(AddStep(scope, step.decl.id), here + v.points + {Observation(In(at, CollectExpression, 0), v.scope)})
    case Attempt(body, _) =>
      var v := ValidateSequence(body, In(at, Body, 0), scope);
      Checked(AddStep(scope, step.decl.id),
              here + v.points + {Observation(In(at, UntilExpression, 0), v.scope),
                                 Observation(In(at, WhenExpression, 0), v.scope)})
    case Once(body) =>
      var v := ValidateSequence(body, In(at, Body, 0), scope);
      Checked(AddStep(scope, step.decl.id), here + v.points)
    case TryCatch(body, rescue) =>
      var v := ValidateSequence(body, In(at, Body, 0), scope);
      var r := ValidateSequence(rescue, In(at, Rescue, 0), v.scope);
      var later := ValidateDefers(rescue, In(at, Rescue, 0), r.scope);
      var earlier := ValidateDefers(body, In(at, Body, 0), later.scope);
      Checked(AddStep(scope, step.decl.id), here + v.points + r.points + later.points + earlier.points)
    case CancelOn(monitors, body) =>
      var v := ValidateSequence(body, In(at, Body, 0), scope);
      Checked(AddStep(scope, step.decl.id), here + ValidateMonitors(monitors, In(at, Monitor, 0), scope) + v.points)
  }

  /** Deferred cleanup is validated last group first. An attempt hands none of its own over. */
  ghost function ValidateDefers(steps: seq<Step>, at: Site, scope: set<string>): Checked
    requires at.In?
    decreases steps, 0
  {
    if steps == [] then Checked(scope, {})
    else
      var later := ValidateDefers(steps[1..], Next(at), scope);
      var mine := ValidateStepDefers(steps[0], at, later.scope);
      Checked(mine.scope, later.points + mine.points)
  }

  ghost function ValidateStepDefers(step: Step, at: Site, scope: set<string>): Checked
    decreases step, 0
  {
    match step.kind
    case Conditional(body) => ValidateDefers(body, In(at, Body, 0), scope)
    case Scoped(body) => ValidateDefers(body, In(at, Body, 0), scope)
    case Leaf(deferred, _) => ValidateSequence(deferred, In(at, Deferred, 0), scope)
    case _ => Checked(scope, {})
  }

  /** Every monitor starts from the scope outside. */
  ghost function ValidateMonitors(monitors: seq<Step>, at: Site, scope: set<string>): set<Observation>
    requires at.In?
    decreases monitors, 0
  {
    if monitors == [] then {}
    else ValidateStep(monitors[0], at, scope).points + ValidateMonitors(monitors[1..], Next(at), scope)
  }

  /** A branch sees the scope outside and what the branches it transitively needs declare. */
  ghost function BranchScope(branches: seq<Step>, scope: set<string>, k: nat): set<string> {
    AddSteps(scope, NeededIds(branches, k))
  }

  ghost function NeededIds(branches: seq<Step>, k: nat): set<string> {
    set a: nat, id | a < |branches| && Depends(NeedEdges(branches), k, a) && id in SelectedStep(branches[a]) :: id
  }

  ghost function ValidateBranches(rest: seq<Step>, at: Site, scope: set<string>, branches: seq<Step>,
                                  k: nat): set<Observation>
    decreases rest, 0
  {
    if rest == [] then {}
    else
      ValidateStep(rest[0], In(at, Branch, k), BranchScope(branches, scope, k)).points +
      ValidateBranches(rest[1..], at, scope, branches, k + 1)
  }

  ghost function ValidateWorkflow(steps: seq<Step>, finale: seq<Step>, ids: set<string>): Checked {
    var main := ValidateSequence(steps, In(Workflow, Main, 0), ids);
    var d := ValidateDefers(steps, In(Workflow, Main, 0), main.scope);
    var final := ValidateSequence(finale, In(Workflow, Finally, 0), d.scope);
    Checked(final.scope, main.points + d.points + final.points)
  }

  // ---------------------------------------------------------------------------------------
  // Scopes only grow

  lemma {:induction false} SequenceGrows(steps: seq<Step>, at: Site, scope: set<string>)
    requires at.In?
    ensures scope <= ValidateSequence(steps, at, scope).scope
    decreases steps, 0
  {
    if steps != [] {
      StepGrows(steps[0], at, scope);
      SequenceGrows(steps[1..], Next(at), ValidateStep(steps[0], at, scope).scope);
    }
  }

  lemma {:induction false} StepGrows(step: Step, at: Site, scope: set<string>)
    requires at.In?
    ensures scope <= ValidateStep(step, at, scope).scope
    decreases step, 1
  {
    match step.kind
    case Conditional(body) => SequenceGrows(body, In(at, Body, 0), scope);
    case Scoped(body) => SequenceGrows(body, In(at, Body, 0), scope);
    case Executor(body, finale) =>
      var v := ValidateSequence(body, In(at, ExecutorBody, 0), scope);
      SequenceGrows(body, In(at, ExecutorBody, 0), scope);
      DefersGrow(body, In(at, ExecutorBody, 0), v.scope);
      SequenceGrows(finale, In(at, ExecutorFinally, 0), ValidateDefers(body, In(at, ExecutorBody, 0), v.scope).scope);
    case Worktree(body) =>
      SequenceGrows(body, In(at, Body, 0), scope);
      DefersGrow(body, In(at, Body, 0), ValidateSequence(body, In(at, Body, 0), scope).scope);
    case _ =>
  }

  lemma {:induction false} DefersGrow(steps: seq<Step>, at: Site, scope: set<string>)
    requires at.In?
    ensures scope <= ValidateDefers(steps, at, scope).scope
    decreases steps, 0
  {
    if steps != [] {
      DefersGrow(steps[1..], Next(at), scope);
      StepDefersGrow(steps[0], at, ValidateDefers(steps[1..], Next(at), scope).scope);
    }
  }

  lemma {:induction false} StepDefersGrow(step: Step, at: Site, scope: set<string>)
    ensures scope <= ValidateStepDefers(step, at, scope).scope
    decreases step, 0
  {
    match step.kind
    case Conditional(body) => DefersGrow(body, In(at, Body, 0), scope);
    case Scoped(body) => DefersGrow(body, In(at, Body, 0), scope);
    case Leaf(deferred, _) => SequenceGrows(deferred, In(at, Deferred, 0), scope);
    case _ =>
  }

  // ---------------------------------------------------------------------------------------
  // Coverage

  ghost predicate Covers(scope: set<string>, ids: set<string>) {
    forall id :: id in ids && id != "" ==> id in scope
  }

  ghost predicate CoveredAt(points: set<Observation>, seen: Observation) {
    exists p :: p in points && p.at == seen.at && Covers(p.ids, seen.ids)
  }

  /** Everything seen was seen at a validated place, with no id its scope lacks. */
  ghost predicate Covered(points: set<Observation>, seen: set<Observation>) {
    forall x :: x in seen ==> CoveredAt(points, x)
  }

  lemma CoveredMore(points: set<Observation>, more: set<Observation>, seen: set<Observation>)
    requires Covered(points, seen) && points <= more
    ensures Covered(more, seen)
  {
    forall x | x in seen
      ensures CoveredAt(more, x)
    {
      assert CoveredAt(points, x);
    }
  }

  lemma CoveredBoth(a: set<Observation>, b: set<Observation>, points: set<Observation>, s: set<Observation>,
                    t: set<Observation>)
    requires Covered(a, s) && Covered(b, t) && a <= points && b <= points
    ensures Covered(points, s + t)
  {
    CoveredMore(a, points, s);
    CoveredMore(b, points, t);
  }

  lemma CoveredPoint(points: set<Observation>, at: Site, scope: set<string>, ids: set<string>)
    requires Observation(Static(at), scope) in points && Covers(scope, ids)
    ensures Covered(points, See(at, ids))
  {
  }

  // ---------------------------------------------------------------------------------------
  // Cleanup the validator never sees

  /** Some defer scope within the steps collects cleanup that an attempt carries. */
  predicate Unchecked(steps: seq<Step>)
    decreases steps
  {
    steps != [] && (StepUnchecked(steps[0]) || Unchecked(steps[1..]))
  }

  predicate StepUnchecked(step: Step)
    decreases step
  {
    match step.kind
    case Leaf(_, _) => false
    case Return => false
    case Conditional(body) => Unchecked(body)
    case Scoped(body) => Unchecked(body)
    case Executor(body, finale) => Unchecked(body) || UncheckedDefers(body) || Unchecked(finale)
    case Worktree(body) => Unchecked(body) || UncheckedDefers(body)
    case Concurrent(body, _, _) => Unchecked(body)
    case Fanout(body, _) => Unchecked(body)
    case Attempt(body, _) => Unchecked(body)
    case Once(body) => Unchecked(body)
    case TryCatch(body, rescue) => Unchecked(body) || UncheckedDefers(body) || (body != [] &&
        (Unchecked(rescue) || UncheckedDefers(rescue)))
    case CancelOn(monitors, body) => Unchecked(monitors) || Unchecked(body)
  }

  /** The cleanup this scope collects includes some that an attempt carries, or contains such a scope. */
  predicate UncheckedDefers(steps: seq<Step>)
    decreases steps
  {
    steps != [] && (StepUncheckedDefers(steps[0]) || UncheckedDefers(steps[1..]))
  }

  predicate StepUncheckedDefers(step: Step)
    decreases step
  {
    match step.kind
    case Conditional(body) => UncheckedDefers(body)
    case Scoped(body) => UncheckedDefers(body)
    case Leaf(deferred, _) => Unchecked(deferred)
    case Attempt(_, deferred) => deferred != []
    case _ => false
  }

  lemma {:induction false} UncheckedAt(steps: seq<Step>, k: nat)
    requires !Unchecked(steps) && k < |steps|
    ensures !StepUnchecked(steps[k])
  {
    if k > 0 {
      UncheckedAt(steps[1..], k - 1);
    }
  }
}
