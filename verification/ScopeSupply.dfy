/** The validator's scopes are no wider than they must be: the run in which nothing fails supplies them. */
module ScopeSupply {
  import opened Collections
  import opened ConcurrentGraph
  import opened StepTree
  import opened Interpreter
  import opened GroupPlans
  import opened StepAccounting
  import opened SmoothRun
  import opened ReferenceScope
  import opened StepLaws

  // ---------------------------------------------------------------------------------------
  // Places and ids that such a run does not reach

  /** Rescue steps do not run, and `when` is not evaluated, if nothing fails. */
  predicate Excused(at: Site) {
    match at
    case Workflow => false
    case In(parent, role, _) => role == Rescue || role == WhenExpression || Excused(parent)
    case Pass(of, _) => Excused(of)
  }

  /** All ids declared in the steps, at any depth. */
  function AllIds(steps: seq<Step>): set<string>
    decreases steps
  {
    if steps == [] then {} else StepIds(steps[0]) + AllIds(steps[1..])
  }

  function StepIds(step: Step): set<string>
    decreases step
  {
    {step.decl.id} +
    match step.kind
    case Leaf(deferred, _) => AllIds(deferred)
    case Return => {}
    case Conditional(body) => AllIds(body)
    case Scoped(body) => AllIds(body)
    case Executor(body, finale) => AllIds(body) + AllIds(finale)
    case Worktree(body) => AllIds(body)
    case Concurrent(body, _, _) => AllIds(body)
    case Fanout(body, _) => AllIds(body)
    case Attempt(body, deferred) => AllIds(body) + AllIds(deferred)
    case Once(body) => AllIds(body)
    case TryCatch(body, rescue) => AllIds(body) + AllIds(rescue)
    case CancelOn(monitors, body) => AllIds(monitors) + AllIds(body)
  }

  /** The ids that are in scope somewhere though nothing supplies them in such a run: those of returns, which
      groups publish by name, and of rescue steps. */
  function Loose(steps: seq<Step>): set<string>
    decreases steps
  {
    if steps == [] then {} else StepLoose(steps[0]) + Loose(steps[1..])
  }

  function StepLoose(step: Step): set<string>
    decreases step
  {
    match step.kind
    case Leaf(deferred, _) => Loose(deferred)
    case Return => {step.decl.id}
    case Conditional(body) => Loose(body)
    case Scoped(body) => Loose(body)
    case Executor(body, finale) => Loose(body) + Loose(finale)
    case Worktree(body) => Loose(body)
    case Concurrent(body, _, _) => Loose(body)
    case Fanout(body, _) => Loose(body)
    case Attempt(body, deferred) => Loose(body) + Loose(deferred)
    case Once(body) => Loose(body)
    case TryCatch(body, rescue) => Loose(body) + AllIds(rescue)
    case CancelOn(monitors, body) => Loose(monitors) + Loose(body)
  }

  // ---------------------------------------------------------------------------------------
  // What the validator adds

  lemma {:induction false} SelectedIsDeclared(steps: seq<Step>)
    ensures Selected(steps) <= AllIds(steps)
    decreases steps
  {
    if steps != [] {
      StepSelectedIsDeclared(steps[0]);
      SelectedIsDeclared(steps[1..]);
    }
  }

  lemma {:induction false} StepSelectedIsDeclared(step: Step)
    ensures SelectedStep(step) <= StepIds(step)
    decreases step
  {
    match step.kind
    case Executor(body, finale) => SelectedIsDeclared(body); SelectedIsDeclared(finale);
    case Conditional(body) => SelectedIsDeclared(body);
    case Scoped(body) => SelectedIsDeclared(body);
    case Concurrent(body, _, _) => SelectedIsDeclared(body);
    case _ =>
  }

  lemma {:induction false} ScopeAddsDeclared(steps: seq<Step>, at: Site, scope: set<string>)
    requires at.In?
    ensures ValidateSequence(steps, at, scope).scope <= scope + AllIds(steps)
    decreases steps, 0
  {
    if steps != [] {
      StepAddsDeclared(steps[0], at, scope);
      ScopeAddsDeclared(steps[1..], Next(at), ValidateStep(steps[0], at, scope).scope);
    }
  }

  lemma {:induction false} StepAddsDeclared(step: Step, at: Site, scope: set<string>)
    requires at.In?
    ensures ValidateStep(step, at, scope).scope <= scope + StepIds(step)
    decreases step, 1
  {
    match step.kind
    case Conditional(body) => ScopeAddsDeclared(body, In(at, Body, 0), scope);
    case Scoped(body) => ScopeAddsDeclared(body, In(at, Body, 0), scope);
    case Executor(body, finale) =>
      var v := ValidateSequence(body, In(at, ExecutorBody, 0), scope);
      ScopeAddsDeclared(body, In(at, ExecutorBody, 0), scope);
      DefersAddDeclared(body, In(at, ExecutorBody, 0), v.scope);
      ScopeAddsDeclared(finale, In(at, ExecutorFinally, 0),
                        ValidateDefers(body, In(at, ExecutorBody, 0), v.scope).scope);
    case Worktree(body) =>
      ScopeAddsDeclared(body, In(at, Body, 0), scope);
      DefersAddDeclared(body, In(at, Body, 0), ValidateSequence(body, In(at, Body, 0), scope).scope);
    case Concurrent(body, _, _) => SelectedIsDeclared(body);
    case _ =>
  }

  lemma {:induction false} DefersAddDeclared(steps: seq<Step>, at: Site, scope: set<string>)
    requires at.In?
    ensures ValidateDefers(steps, at, scope).scope <= scope + AllIds(steps)
    decreases steps, 0
  {
    if steps != [] {
      DefersAddDeclared(steps[1..], Next(at), scope);
      StepDefersAddDeclared(steps[0], at, ValidateDefers(steps[1..], Next(at), scope).scope);
    }
  }

  lemma {:induction false} StepDefersAddDeclared(step: Step, at: Site, scope: set<string>)
    ensures ValidateStepDefers(step, at, scope).scope <= scope + StepIds(step)
    decreases step, 0
  {
    match step.kind
    case Conditional(body) => DefersAddDeclared(body, In(at, Body, 0), scope);
    case Scoped(body) => DefersAddDeclared(body, In(at, Body, 0), scope);
    case Leaf(deferred, _) => ScopeAddsDeclared(deferred, In(at, Deferred, 0), scope);
    case _ =>
  }

  /** Rescue steps are validated against the scope the body leaves, and so is `when`; the cleanup of the body
      against what rescue and its cleanup leave. */
  lemma ExcusedScopes(step: Step, at: Site, scope: set<string>)
    requires at.In? && (step.kind.TryCatch? || step.kind.Attempt?)
    ensures
      var points := ValidateStep(step, at, scope).points;
      var body := ValidateSequence(step.kind.body, In(at, Body, 0), scope);
      if step.kind.Attempt? then Observation(In(at, WhenExpression, 0), body.scope) in points
      else
        var rescue := ValidateSequence(step.kind.rescue, In(at, Rescue, 0), body.scope);
        var later := ValidateDefers(step.kind.rescue, In(at, Rescue, 0), rescue.scope);
        rescue.points <= points && later.points <= points &&
        ValidateDefers(step.kind.body, In(at, Body, 0), later.scope).points <= points
  {
  }

  // ---------------------------------------------------------------------------------------
  // Everything under an excused place is excused

  ghost predicate AllExcused(points: set<Observation>) {
    forall p :: p in points ==> Excused(p.at)
  }

  lemma {:induction false} SequenceExcused(steps: seq<Step>, at: Site, scope: set<string>)
    requires at.In? && Excused(at)
    ensures AllExcused(ValidateSequence(steps, at, scope).points)
    decreases steps, 0
  {
    if steps != [] {
      StepExcused(steps[0], at, scope);
      SequenceExcused(steps[1..], Next(at), ValidateStep(steps[0], at, scope).scope);
    }
  }

  lemma {:induction false} StepExcused(step: Step, at: Site, scope: set<string>)
    requires at.In? && Excused(at)
    ensures AllExcused(ValidateStep(step, at, scope).points)
    decreases step, 1
  {
    match step.kind
    case Leaf(_, _) =>
    case Return =>
    case Conditional(body) => SequenceExcused(body, In(at, Body, 0), scope);
    case Scoped(body) => SequenceExcused(body, In(at, Body, 0), scope);
    case Executor(body, finale) =>
      var v := ValidateSequence(body, In(at, ExecutorBody, 0), scope);
      var d := ValidateDefers(body, In(at, ExecutorBody, 0), v.scope);
      SequenceExcused(body, In(at, ExecutorBody, 0), scope);
      DefersExcused(body, In(at, ExecutorBody, 0), v.scope);
      SequenceExcused(finale, In(at, ExecutorFinally, 0), d.scope);
    case Worktree(body) =>
      SequenceExcused(body, In(at, Body, 0), scope);
      DefersExcused(body, In(at, Body, 0), ValidateSequence(body, In(at, Body, 0), scope).scope);
    case Concurrent(body, _, _) => BranchesExcused(body, at, scope, body, 0);
    case Fanout(body, _) => SequenceExcused(body, In(at, Body, 0), scope);
    case Attempt(body, _) => SequenceExcused(body, In(at, Body, 0), scope);
    case Once(body) => SequenceExcused(body, In(at, Body, 0), scope);
    case TryCatch(_, _) => TryExcused(step, at, scope);
    case CancelOn(monitors, body) =>
      MonitorsExcused(monitors, In(at, Monitor, 0), scope);
      SequenceExcused(body, In(at, Body, 0), scope);
  }

  lemma {:induction false} TryExcused(step: Step, at: Site, scope: set<string>)
    requires at.In? && Excused(at) && step.kind.TryCatch?
    ensures AllExcused(ValidateStep(step, at, scope).points)
    decreases step, 0
  {
    var body, rescue := step.kind.body, step.kind.rescue;
    var v := ValidateSequence(body, In(at, Body, 0), scope);
    var r := ValidateSequence(rescue, In(at, Rescue, 0), v.scope);
    var later := ValidateDefers(rescue, In(at, Rescue, 0), r.scope);
    SequenceExcused(body, In(at, Body, 0), scope);
    SequenceExcused(rescue, In(at, Rescue, 0), v.scope);
    DefersExcused(rescue, In(at, Rescue, 0), r.scope);
    DefersExcused(body, In(at, Body, 0), later.scope);
  }

  lemma {:induction false} DefersExcused(steps: seq<Step>, at: Site, scope: set<string>)
    requires at.In? && Excused(at)
    ensures AllExcused(ValidateDefers(steps, at, scope).points)
    decreases steps, 0
  {
    if steps != [] {
      DefersExcused(steps[1..], Next(at), scope);
      StepDefersExcused(steps[0], at, ValidateDefers(steps[1..], Next(at), scope).scope);
    }
  }

  lemma {:induction false} StepDefersExcused(step: Step, at: Site, scope: set<string>)
    requires Excused(at)
    ensures AllExcused(ValidateStepDefers(step, at, scope).points)
    decreases step, 0
  {
    match step.kind
    case Conditional(body) => DefersExcused(body, In(at, Body, 0), scope);
    case Scoped(body) => DefersExcused(body, In(at, Body, 0), scope);
    case Leaf(deferred, _) => SequenceExcused(deferred, In(at, Deferred, 0), scope);
    case _ =>
  }

  lemma {:induction false} MonitorsExcused(monitors: seq<Step>, at: Site, scope: set<string>)
    requires at.In? && Excused(at)
    ensures AllExcused(ValidateMonitors(monitors, at, scope))
    decreases monitors, 0
  {
    if monitors != [] {
      StepExcused(monitors[0], at, scope);
      MonitorsExcused(monitors[1..], Next(at), scope);
    }
  }

  lemma {:induction false} BranchesExcused(rest: seq<Step>, at: Site, scope: set<string>, branches: seq<Step>, k: nat)
    requires Excused(at)
    ensures AllExcused(ValidateBranches(rest, at, scope, branches, k))
    decreases rest, 0
  {
    if rest != [] {
      StepExcused(rest[0], In(at, Branch, k), BranchScope(branches, scope, k));
      BranchesExcused(rest[1..], at, scope, branches, k + 1);
    }
  }

  // ---------------------------------------------------------------------------------------
  // Ids only grow in a run

  lemma {:induction false} SequenceKeepsIds(steps: seq<Step>, at: Site, o: Oracle, f: Frame)
    requires at.In?
    ensures f.ids <= ExecSequence(steps, at, o, f).frame.ids
    decreases steps, 0
  {
    if steps != [] {
      StepKeepsIds(steps[0], at, o, f);
      SequenceKeepsIds(steps[1..], Next(at), o, ExecStep(steps[0], at, o, f).frame);
    }
  }

  lemma {:induction false} StepKeepsIds(step: Step, at: Site, o: Oracle, f: Frame)
    requires at.In?
    ensures f.ids <= ExecStep(step, at, o, f).frame.ids
    decreases step, 2
  {
    if !Runs(at, o, f) {
      DoesNotRun(step, at, o, f);
    } else if step.kind.Executor? || step.kind.Worktree? {
      BlockKeepsIds(step, at, o, f);
    } else if KeepsRecord(step.kind) {
      KeeperOutcome(step, at, o, f);
    } else if step.kind.Conditional? || step.kind.Scoped? {
      BlockIsBody(step, at, o, f);
      SequenceKeepsIds(step.kind.body, In(at, Body, 0), o, Arrive(at, o, f));
    } else if step.kind.Concurrent? {
      GroupIs(step, at, o, f);
    } else {
      ReturnFires(step, at, o, f);
    }
  }

  lemma {:induction false} BlockKeepsIds(step: Step, at: Site, o: Oracle, f: Frame)
    requires at.In? && (step.kind.Executor? || step.kind.Worktree?) && Runs(at, o, f)
    ensures f.ids <= ExecStep(step, at, o, f).frame.ids
    decreases step, 1
  {
    BlockSucceeds(step, at, o, f);
    var g := Arrive(at, o, f);
    var main := MainOf(step, at, o, f).frame;
    SequenceKeepsIds(step.kind.body, BodyAt(step, at), o, g.(registered := {}, context := Nest(g.context)));
    var inner := Frame(main.ids, false, main.registered, CLEANUP);
    DefersKeepIds(step.kind.body, BodyAt(step, at), o, inner);
    if step.kind.Executor? {
      EachKeepsIds(step.kind.finale, In(at, ExecutorFinally, 0), o,
                   ExecDefers(step.kind.body, BodyAt(step, at), o, inner).frame);
    }
  }

  lemma {:induction false} EachKeepsIds(steps: seq<Step>, at: Site, o: Oracle, f: Frame)
    requires at.In?
    ensures f.ids <= ExecEach(steps, at, o, f).frame.ids
    decreases steps, 0
  {
    if steps != [] {
      StepKeepsIds(steps[0], at, o, f);
      EachKeepsIds(steps[1..], Next(at), o, ExecStep(steps[0], at, o, f).frame);
    }
  }

  lemma {:induction false} DefersKeepIds(steps: seq<Step>, at: Site, o: Oracle, f: Frame)
    requires at.In?
    ensures f.ids <= ExecDefers(steps, at, o, f).frame.ids
    decreases steps, 0
  {
    if steps != [] {
      DefersKeepIds(steps[1..], Next(at), o, f);
      StepDefersKeepIds(steps[0], at, o, ExecDefers(steps[1..], Next(at), o, f).frame);
    }
  }

  lemma {:induction false} StepDefersKeepIds(step: Step, at: Site, o: Oracle, f: Frame)
    ensures f.ids <= ExecStepDefers(step, at, o, f).frame.ids
    decreases step, 0
  {
    match step.kind
    case Conditional(body) => DefersKeepIds(body, In(at, Body, 0), o, f);
    case Scoped(body) => DefersKeepIds(body, In(at, Body, 0), o, f);
    case Leaf(deferred, _) => EachKeepsIds(deferred, In(at, Deferred, 0), o, f);
    case Attempt(_, deferred) => EachKeepsIds(deferred, In(at, AttemptDeferred, 0), o, f);
    case _ =>
  }

  // ---------------------------------------------------------------------------------------
  // The run in which nothing fails supplies every scope

  ghost function Undisturbed(root: Tree): Oracle {
    Smooth(root, false, {})
  }

  predicate Live(f: Frame) {
    !f.returning && Alive(f.context)
  }

  /** At every place, but for the excused ones, something was seen with all the ids of its scope. */
  ghost predicate Supplied(points: set<Observation>, seen: set<Observation>, loose: set<string>) {
    forall p :: p in points ==> Excused(p.at) || exists x :: x in seen && x.at == p.at && p.ids <= x.ids + loose
  }

  lemma SuppliedMore(points: set<Observation>, seen: set<Observation>, more: set<Observation>, loose: set<string>)
    requires Supplied(points, seen, loose) && seen <= more
    ensures Supplied(points, more, loose)
  {
    forall p | p in points && !Excused(p.at)
      ensures exists x :: x in more && x.at == p.at && p.ids <= x.ids + loose
    {
      var x :| x in seen && x.at == p.at && p.ids <= x.ids + loose;
      assert x in more;
    }
  }

  lemma SuppliedBoth(a: set<Observation>, b: set<Observation>, s: set<Observation>, t: set<Observation>,
                     loose: set<string>)
    requires Supplied(a, s, loose) && Supplied(b, t, loose)
    ensures Supplied(a + b, s + t, loose)
  {
    SuppliedMore(a, s, s + t, loose);
    SuppliedMore(b, t, s + t, loose);
  }

  lemma SuppliedHere(at: Site, scope: set<string>, ids: set<string>, loose: set<string>)
    requires scope <= ids + loose
    ensures Supplied({Observation(Static(at), scope)}, See(at, ids), loose)
  {
    assert Observation(Static(at), ids) in See(at, ids);
  }

  /** The scope left is published, and those inside were supplied. */
  ghost predicate Gives(v: Checked, r: Result, loose: set<string>) {
    v.scope <= r.frame.ids + loose && Supplied(v.points, r.seen, loose)
  }

  lemma GivesBoth(v: Checked, w: Checked, r: Result, rest: Result, loose: set<string>)
    requires Gives(v, r, loose) && Gives(w, rest, loose)
    ensures Gives(Checked(w.scope, v.points + w.points), Append(r, rest), loose)
  {
    SuppliedBoth(v.points, w.points, r.seen, rest.seen, loose);
  }

  /** What may be asked of a place: it is that of the steps in the tree, and its scope is supplied so far. */
  ghost predicate Asked(root: Tree, steps: seq<Step>, at: Site, f: Frame, scope: set<string>, loose: set<string>) {
    && Stands(root, steps, at) && GroupsAcyclic(steps) && Live(f) && !Thwarted(root, false, {}, at)
    && scope <= f.ids + loose && Loose(steps) <= loose && "" in loose
  }

  ghost predicate StepAsked(root: Tree, step: Step, at: Site, f: Frame, scope: set<string>, loose: set<string>) {
    && at.In? && StepAt(root, at) == Some(step) && StepGroupsAcyclic(step) && Live(f)
    && !Thwarted(root, false, {}, at)
    && scope <= f.ids + loose && StepLoose(step) <= loose && "" in loose
  }

  lemma NothingThwarted(root: Tree, at: Site)
    ensures !Thwarted(root, false, {}, at)
  {
  }

  lemma AskedFirst(root: Tree, steps: seq<Step>, at: Site, f: Frame, scope: set<string>, loose: set<string>)
    requires Asked(root, steps, at, f, scope, loose) && steps != []
    ensures StepAsked(root, steps[0], at, f, scope, loose)
    ensures Stands(root, steps[1..], Next(at)) && Loose(steps[1..]) <= loose && GroupsAcyclic(steps[1..])
  {
    StandsNext(root, steps, at);
  }

  lemma StepSucceeds(root: Tree, step: Step, at: Site, f: Frame)
    requires at.In? && StepAt(root, at) == Some(step) && StepGroupsAcyclic(step) && Live(f)
    ensures
      var r := ExecStep(step, at, Undisturbed(root), f);
      r.err == OK && Live(r.frame) && f.registered + StepOwners(step) <= r.frame.registered
    ensures
      var o := Undisturbed(root);
      Arrive(at, o, f) == f && Runs(at, o, f) && (step.kind.Return? <==> !o(at).run) && o(at).passes == 1
    ensures !Undisturbed(root)(at).replayed && Undisturbed(root)(at).error == OK
  {
    NothingThwarted(root, at);
    NothingDoomed(root, at);
    SmoothStep(root, false, {}, step, at, f);
    Reached(root, false, {}, step, at, f);
  }

  lemma {:induction false} SequenceGives(root: Tree, steps: seq<Step>, at: Site, f: Frame, scope: set<string>,
                                         loose: set<string>)
    requires Asked(root, steps, at, f, scope, loose)
    ensures Gives(ValidateSequence(steps, Static(at), scope), ExecSequence(steps, at, Undisturbed(root), f), loose)
    ensures
      var r := ExecSequence(steps, at, Undisturbed(root), f);
      r.err == OK && Live(r.frame) && f.registered + Owners(steps) <= r.frame.registered
    decreases steps, 0
  {
    if steps != [] {
      var o := Undisturbed(root);
      AskedFirst(root, steps, at, f, scope, loose);
      StepSucceeds(root, steps[0], at, f);
      StepGives(root, steps[0], at, f, scope, loose);
      var r, v := ExecStep(steps[0], at, o, f), ValidateStep(steps[0], Static(at), scope);
      NothingThwarted(root, Next(at));
      SequenceGives(root, steps[1..], Next(at), r.frame, v.scope, loose);
      var rest := ExecSequence(steps[1..], Next(at), o, r.frame);
      var w := ValidateSequence(steps[1..], Static(Next(at)), v.scope);
      GivesBoth(v, w, r, rest, loose);
      assert Static(Next(at)) == Next(Static(at));
      assert !EndsSequence(steps[0].kind, o(at), r.frame);
      assert ExecSequence(steps, at, o, f) == Append(r, rest);
    }
  }

  lemma {:induction false} StepGives(root: Tree, step: Step, at: Site, f: Frame, scope: set<string>, loose: set<string>)
    requires StepAsked(root, step, at, f, scope, loose)
    ensures Gives(ValidateStep(step, Static(at), scope), ExecStep(step, at, Undisturbed(root), f), loose)
    decreases step, 4
  {
    StepSucceeds(root, step, at, f);
    SuppliedHere(at, scope, f.ids, loose);
    if step.kind.Executor? || step.kind.Worktree? {
      BlockGives(root, step, at, f, scope, loose);
    } else if KeepsRecord(step.kind) {
      KeeperGives(root, step, at, f, scope, loose);
    } else if step.kind.Concurrent? {
      GroupGives(root, step, at, f, scope, loose);
    } else if step.kind.Return? {
      ReturnFires(step, at, Undisturbed(root), f);
      OwnObservation(step, at, Undisturbed(root), f);
      SuppliedMore({Observation(Static(at), scope)}, See(at, f.ids), ExecStep(step, at, Undisturbed(root), f).seen,
                   loose);
    } else {
      BodyGives(root, step, at, f, scope, loose);
    }
  }

  lemma {:induction false} BodyGives(root: Tree, step: Step, at: Site, f: Frame, scope: set<string>, loose: set<string>)
    requires StepAsked(root, step, at, f, scope, loose) && (step.kind.Conditional? || step.kind.Scoped?)
    ensures Gives(ValidateStep(step, Static(at), scope), ExecStep(step, at, Undisturbed(root), f), loose)
    decreases step, 3
  {
    var o, body, start := Undisturbed(root), step.kind.body, In(at, Body, 0);
    StepSucceeds(root, step, at, f);
    BlockIsBody(step, at, o, f);
    ChildrenStand(root, step, at, Body, body);
    NothingThwarted(root, start);
    SequenceGives(root, body, start, f, scope, loose);
    SuppliedHere(at, scope, f.ids, loose);
    SuppliedBoth({Observation(Static(at), scope)}, ValidateSequence(body, Static(start), scope).points, See(at, f.ids),
                 ExecSequence(body, start, o, f).seen, loose);
  }

  lemma {:induction false} KeeperGives(root: Tree, step: Step, at: Site, f: Frame, scope: set<string>,
                                       loose: set<string>)
    requires StepAsked(root, step, at, f, scope, loose) && KeepsRecord(step.kind) && !step.kind.Worktree?
    ensures Gives(ValidateStep(step, Static(at), scope), ExecStep(step, at, Undisturbed(root), f), loose)
    decreases step, 3
  {
    var o := Undisturbed(root);
    StepSucceeds(root, step, at, f);
    KeeperOutcome(step, at, o, f);
    KeeperRuns(step, at, o, f);
    PrivateGives(root, step, at, f, scope, loose);
    SuppliedHere(at, scope, f.ids, loose);
    SuppliedBoth({Observation(Static(at), scope)}, Inside(step, Static(at), scope), See(at, f.ids),
                 ExecPrivate(step, at, o, f).seen, loose);
    InsideIs(step, Static(at), scope);
    KeeperScope(step, Static(at), scope);
  }

  lemma KeeperScope(step: Step, at: Site, scope: set<string>)
    requires at.In? && KeepsRecord(step.kind) && !step.kind.Worktree?
    ensures ValidateStep(step, at, scope).scope <= scope + {step.decl.id}
  {
  }

  /** The places within a leaf or control. */
  ghost function Inside(step: Step, at: Site, scope: set<string>): set<Observation>
    requires at.In? && KeepsRecord(step.kind) && !step.kind.Worktree?
  {
    ValidateStep(step, at, scope).points - {Observation(at, scope)}
  }

  lemma InsideIs(step: Step, at: Site, scope: set<string>)
    requires at.In? && KeepsRecord(step.kind) && !step.kind.Worktree?
    ensures ValidateStep(step, at, scope).points == {Observation(at, scope)} + Inside(step, at, scope)
  {
  }

  lemma SuppliedLess(points: set<Observation>, less: set<Observation>, seen: set<Observation>, loose: set<string>)
    requires Supplied(points, seen, loose) && less <= points
    ensures Supplied(less, seen, loose)
  {
  }

  lemma {:induction false} PrivateGives(root: Tree, step: Step, at: Site, f: Frame, scope: set<string>,
                                        loose: set<string>)
    requires StepAsked(root, step, at, f, scope, loose) && KeepsRecord(step.kind) && !step.kind.Worktree?
    ensures Supplied(Inside(step, Static(at), scope), ExecPrivate(step, at, Undisturbed(root), f).seen, loose)
    decreases step, 2
  {
    match step.kind
    case Leaf(_, _) =>
    case Fanout(_, _) => FanoutGives(root, step, at, f, scope, loose);
    case Attempt(_, _) => AttemptGives(root, step, at, f, scope, loose);
    case Once(body) =>
      var start := In(at, Body, 0);
      ChildrenStand(root, step, at, Body, body);
      NothingThwarted(root, start);
      SequenceGives(root, body, start, Private(f), scope, loose);
      SuppliedLess(ValidateSequence(body, Static(start), scope).points, Inside(step, Static(at), scope),
                   ExecSequence(body, start, Undisturbed(root), Private(f)).seen, loose);
    case TryCatch(_, _) => TryGives(root, step, at, f, scope, loose);
    case CancelOn(_, _) => RaceGives(root, step, at, f, scope, loose);
  }

  lemma {:induction false} FanoutGives(root: Tree, step: Step, at: Site, f: Frame, scope: set<string>,
                                       loose: set<string>)
    requires StepAsked(root, step, at, f, scope, loose) && step.kind.Fanout?
    ensures Supplied(Inside(step, Static(at), scope), ExecPrivate(step, at, Undisturbed(root), f).seen, loose)
    decreases step, 1
  {
    var o, body, collect := Undisturbed(root), step.kind.body, In(at, CollectExpression, 0);
    var r, v := OnePass(root, step, at, f, scope, loose);
    SuppliedHere(collect, v.scope, r.frame.ids, loose);
    SuppliedBoth(v.points, {Observation(Static(collect), v.scope)}, r.seen, See(collect, r.frame.ids), loose);
    var all := ExecIterations(body, at, o, f, 1);
    assert ExecIterations(body, at, o, f, 0) == Result(f, [], {}, OK) && Fork(f, f) == f;
    assert all.seen == {} + r.seen + See(collect, r.frame.ids);
    assert ExecPrivate(step, at, o, f).seen == all.seen;
    SuppliedMore(v.points + {Observation(Static(collect), v.scope)}, r.seen + See(collect, r.frame.ids), all.seen,
                 loose);
    SuppliedLess(v.points + {Observation(Static(collect), v.scope)}, Inside(step, Static(at), scope), all.seen, loose);
  }

  lemma {:induction false} OnePass(root: Tree, step: Step, at: Site, f: Frame, scope: set<string>, loose: set<string>)
    returns (r: Result, v: Checked)
    requires StepAsked(root, step, at, f, scope, loose) && (step.kind.Fanout? || step.kind.Attempt?)
    ensures r == ExecSequence(step.kind.body, In(Pass(at, 0), Body, 0), Undisturbed(root), f)
    ensures v == ValidateSequence(step.kind.body, In(Static(at), Body, 0), scope)
    ensures Gives(v, r, loose) && r.err == OK
    decreases step, 0
  {
    var start := In(Pass(at, 0), Body, 0);
    assert StepAt(root, Pass(at, 0)) == Some(step);
    assert Stands(root, step.kind.body, start);
    NothingThwarted(root, start);
    SequenceGives(root, step.kind.body, start, f, scope, loose);
    assert Static(start) == In(Static(at), Body, 0);
    r := ExecSequence(step.kind.body, start, Undisturbed(root), f);
    v := ValidateSequence(step.kind.body, Static(start), scope);
  }

  lemma {:induction false} AttemptGives(root: Tree, step: Step, at: Site, f: Frame, scope: set<string>,
                                        loose: set<string>)
    requires StepAsked(root, step, at, f, scope, loose) && step.kind.Attempt?
    ensures Supplied(Inside(step, Static(at), scope), ExecPrivate(step, at, Undisturbed(root), f).seen, loose)
    decreases step, 1
  {
    var o, body, until := Undisturbed(root), step.kind.body, In(at, UntilExpression, 0);
    var r, v := OnePass(root, step, at, f, scope, loose);
    SuppliedHere(until, v.scope, r.frame.ids, loose);
    SuppliedBoth(v.points, {Observation(Static(until), v.scope)}, r.seen, See(until, r.frame.ids), loose);
    var all := ExecPasses(body, at, o, f, 1);
    assert ExecPasses(body, at, o, f, 0) == Result(f, [], {}, OK) && Fork(f, f) == f;
    assert all.seen == {} + r.seen + See(until, r.frame.ids);
    assert ExecPrivate(step, at, o, f).seen == all.seen;
    SuppliedMore(v.points + {Observation(Static(until), v.scope)}, r.seen + See(until, r.frame.ids), all.seen, loose);
    AttemptPoints(step, Static(at), scope, v, all.seen, loose);
  }

  lemma AttemptPoints(step: Step, at: Site, scope: set<string>, v: Checked, seen: set<Observation>, loose: set<string>)
    requires at.In? && step.kind.Attempt? && v == ValidateSequence(step.kind.body, In(at, Body, 0), scope)
    requires Supplied(v.points + {Observation(In(at, UntilExpression, 0), v.scope)}, seen, loose)
    ensures Supplied(Inside(step, at, scope), seen, loose)
  {
  }

  lemma {:induction false} RaceGives(root: Tree, step: Step, at: Site, f: Frame, scope: set<string>, loose: set<string>)
    requires StepAsked(root, step, at, f, scope, loose) && step.kind.CancelOn?
    ensures Supplied(Inside(step, Static(at), scope), ExecPrivate(step, at, Undisturbed(root), f).seen, loose)
    decreases step, 1
  {
    var o, monitors, body := Undisturbed(root), step.kind.monitors, step.kind.body;
    var watch, start := In(at, Monitor, 0), In(at, Body, 0);
    ChildrenStand(root, step, at, Monitor, monitors);
    ChildrenStand(root, step, at, Body, body);
    NothingThwarted(root, watch);
    NothingThwarted(root, start);
    NothingDoomed(root, watch);
    MonitorsGive(root, monitors, watch, Private(f), scope, loose);
    SmoothMonitors(root, false, {}, monitors, watch, Private(f));
    var watched := ExecMonitors(monitors, watch, o, Private(f));
    SequenceGives(root, body, start, Fork(f, watched.frame), scope, loose);
    var main := ExecSequence(body, start, o, Fork(f, watched.frame));
    SuppliedBoth(ValidateMonitors(monitors, Static(watch), scope), ValidateSequence(body, Static(start), scope).points,
                 watched.seen, main.seen, loose);
    assert ExecPrivate(step, at, o, f).seen == main.seen + watched.seen;
    SuppliedMore(ValidateMonitors(monitors, Static(watch), scope) + ValidateSequence(body, Static(start), scope).points,
                 watched.seen + main.seen, main.seen + watched.seen, loose);
    SuppliedLess(ValidateMonitors(monitors, Static(watch), scope) + ValidateSequence(body, Static(start), scope).points,
                 Inside(step, Static(at), scope), main.seen + watched.seen, loose);
  }

  lemma {:induction false} MonitorsGive(root: Tree, monitors: seq<Step>, at: Site, f: Frame, scope: set<string>,
                                        loose: set<string>)
    requires Asked(root, monitors, at, f, scope, loose)
    ensures Supplied(ValidateMonitors(monitors, Static(at), scope),
                     ExecMonitors(monitors, at, Undisturbed(root), f).seen, loose)
    decreases monitors, 0
  {
    if monitors != [] {
      var o := Undisturbed(root);
      AskedFirst(root, monitors, at, f, scope, loose);
      StepSucceeds(root, monitors[0], at, f);
      StepGives(root, monitors[0], at, f, scope, loose);
      var r := ExecStep(monitors[0], at, o, f);
      NothingThwarted(root, Next(at));
      MonitorsGive(root, monitors[1..], Next(at), Keep(f, r.frame), scope, loose);
      assert Static(Next(at)) == Next(Static(at));
      SuppliedBoth(ValidateStep(monitors[0], Static(at), scope).points,
                   ValidateMonitors(monitors[1..], Static(Next(at)), scope), r.seen,
                   ExecMonitors(monitors[1..], Next(at), o, Keep(f, r.frame)).seen, loose);
    }
  }

  lemma {:induction false} EachGives(root: Tree, steps: seq<Step>, at: Site, f: Frame, scope: set<string>,
                                     loose: set<string>)
    requires Asked(root, steps, at, f, scope, loose)
    ensures Gives(ValidateSequence(steps, Static(at), scope), ExecEach(steps, at, Undisturbed(root), f), loose)
    ensures Live(ExecEach(steps, at, Undisturbed(root), f).frame)
    decreases steps, 0
  {
    if steps != [] {
      var o := Undisturbed(root);
      AskedFirst(root, steps, at, f, scope, loose);
      StepSucceeds(root, steps[0], at, f);
      StepGives(root, steps[0], at, f, scope, loose);
      var r, v := ExecStep(steps[0], at, o, f), ValidateStep(steps[0], Static(at), scope);
      NothingThwarted(root, Next(at));
      EachGives(root, steps[1..], Next(at), r.frame, v.scope, loose);
      assert Static(Next(at)) == Next(Static(at));
      SuppliedBoth(v.points, ValidateSequence(steps[1..], Static(Next(at)), v.scope).points, r.seen,
                   ExecEach(steps[1..], Next(at), o, r.frame).seen, loose);
    }
  }

  lemma {:induction false} DefersGive(root: Tree, steps: seq<Step>, at: Site, f: Frame, scope: set<string>,
                                      loose: set<string>)
    requires Asked(root, steps, at, f, scope, loose) && Owners(steps) <= f.registered
    ensures Gives(ValidateDefers(steps, Static(at), scope), ExecDefers(steps, at, Undisturbed(root), f), loose)
    ensures
      var r := ExecDefers(steps, at, Undisturbed(root), f);
      r.err == OK && Live(r.frame) && f.registered <= r.frame.registered
    decreases steps, 0
  {
    SmoothDefers(root, false, {}, steps, at, f);
    if steps != [] {
      var o := Undisturbed(root);
      AskedFirst(root, steps, at, f, scope, loose);
      NothingThwarted(root, Next(at));
      DefersGive(root, steps[1..], Next(at), f, scope, loose);
      var later, v := ExecDefers(steps[1..], Next(at), o, f), ValidateDefers(steps[1..], Static(Next(at)), scope);
      StepDefersGive(root, steps[0], at, later.frame, v.scope, loose);
      assert Static(Next(at)) == Next(Static(at));
      SuppliedBoth(v.points, ValidateStepDefers(steps[0], Static(at), v.scope).points, later.seen,
                   ExecStepDefers(steps[0], at, o, later.frame).seen, loose);
    }
  }

  lemma {:induction false} StepDefersGive(root: Tree, step: Step, at: Site, f: Frame, scope: set<string>,
                                          loose: set<string>)
    requires StepAsked(root, step, at, f, scope, loose) && StepOwners(step) <= f.registered
    ensures Gives(ValidateStepDefers(step, Static(at), scope), ExecStepDefers(step, at, Undisturbed(root), f), loose)
    decreases step, 0
  {
    var place := In(at, Body, 0);
    NothingThwarted(root, place);
    NothingThwarted(root, In(at, Deferred, 0));
    StepDefersKeepIds(step, at, Undisturbed(root), f);
    match step.kind
    case Conditional(body) =>
      ChildrenStand(root, step, at, Body, body);
      DefersGive(root, body, place, f, scope, loose);
    case Scoped(body) =>
      ChildrenStand(root, step, at, Body, body);
      DefersGive(root, body, place, f, scope, loose);
    case Leaf(deferred, _) =>
      ChildrenStand(root, step, at, Deferred, deferred);
      if deferred != [] {
        EachGives(root, deferred, In(at, Deferred, 0), f, scope, loose);
      }
    case _ =>
  }

  lemma {:induction false} BlockGives(root: Tree, step: Step, at: Site, f: Frame, scope: set<string>,
                                      loose: set<string>)
    requires StepAsked(root, step, at, f, scope, loose) && (step.kind.Executor? || step.kind.Worktree?)
    ensures Gives(ValidateStep(step, Static(at), scope), ExecStep(step, at, Undisturbed(root), f), loose)
    decreases step, 3
  {
    var o, body, start := Undisturbed(root), step.kind.body, BodyAt(step, at);
    StepSucceeds(root, step, at, f);
    BlockSucceeds(step, at, o, f);
    SuppliedHere(at, scope, f.ids, loose);
    var main, v := MainGives(root, step, at, f, scope, loose);
    var cleanup, points, last := CleanupGives(root, step, at, main.frame, v, loose);
    SuppliedBoth(v.points, points, main.seen, cleanup.seen, loose);
    SuppliedBoth({Observation(Static(at), scope)}, v.points + points, See(at, f.ids), main.seen + cleanup.seen, loose);
    SuppliedLess({Observation(Static(at), scope)} + (v.points + points), ValidateStep(step, Static(at), scope).points,
                 ExecStep(step, at, o, f).seen, loose);
  }

  lemma {:induction false} MainGives(root: Tree, step: Step, at: Site, f: Frame, scope: set<string>, loose: set<string>)
    returns (main: Result, v: Checked)
    requires StepAsked(root, step, at, f, scope, loose) && (step.kind.Executor? || step.kind.Worktree?)
    ensures main == MainOf(step, at, Undisturbed(root), f)
    ensures v == ValidateSequence(step.kind.body, Static(BodyAt(step, at)), scope)
    ensures Gives(v, main, loose) && Owners(step.kind.body) <= main.frame.registered
    decreases step, 0
  {
    var start := BodyAt(step, at);
    StepSucceeds(root, step, at, f);
    ChildrenStand(root, step, at, start.role, step.kind.body);
    NothingThwarted(root, start);
    SequenceGives(root, step.kind.body, start, f.(registered := {}, context := Nest(f.context)), scope, loose);
    main := MainOf(step, at, Undisturbed(root), f);
    v := ValidateSequence(step.kind.body, Static(start), scope);
  }

  lemma {:induction false} CleanupGives(root: Tree, step: Step, at: Site, main: Frame, v: Checked, loose: set<string>)
    returns (cleanup: Result, points: set<Observation>, last: set<string>)
    requires at.In? && StepAt(root, at) == Some(step) && StepGroupsAcyclic(step)
    requires (step.kind.Executor? || step.kind.Worktree?) && StepLoose(step) <= loose && "" in loose
    requires v.scope <= main.ids + loose && Owners(step.kind.body) <= main.registered
    ensures
      var body, start, g := step.kind.body, BodyAt(step, at), Frame(main.ids, false, main.registered, CLEANUP);
      var defers, d := ExecDefers(body, start, Undisturbed(root), g), ValidateDefers(body, Static(start), v.scope);
      if step.kind.Executor? then
        var place := In(at, ExecutorFinally, 0);
        var final := ValidateSequence(step.kind.finale, Static(place), d.scope);
        && cleanup == Both(defers, ExecEach(step.kind.finale, place, Undisturbed(root), defers.frame))
        && points == d.points + final.points && last == final.scope
      else cleanup == defers && points == d.points && last == d.scope
    ensures last <= cleanup.frame.ids + loose && Supplied(points, cleanup.seen, loose)
    decreases step, 0
  {
    var o, body, start := Undisturbed(root), step.kind.body, BodyAt(step, at);
    var g := Frame(main.ids, false, main.registered, CLEANUP);
    ChildrenStand(root, step, at, start.role, body);
    NothingThwarted(root, start);
    DefersGive(root, body, start, g, v.scope, loose);
    var defers, d := ExecDefers(body, start, o, g), ValidateDefers(body, Static(start), v.scope);
    if step.kind.Executor? {
      var place := In(at, ExecutorFinally, 0);
      ChildrenStand(root, step, at, ExecutorFinally, step.kind.finale);
      NothingThwarted(root, place);
      EachGives(root, step.kind.finale, place, defers.frame, d.scope, loose);
      var each, final := ExecEach(step.kind.finale, place, o, defers.frame),
                         ValidateSequence(step.kind.finale, Static(place), d.scope);
      SuppliedBoth(d.points, final.points, defers.seen, each.seen, loose);
      cleanup, points, last := Both(defers, each), d.points + final.points, final.scope;
    } else {
      cleanup, points, last := defers, d.points, d.scope;
    }
  }

  lemma {:induction false} TryGives(root: Tree, step: Step, at: Site, f: Frame, scope: set<string>, loose: set<string>)
    requires StepAsked(root, step, at, f, scope, loose) && step.kind.TryCatch?
    ensures Supplied(Inside(step, Static(at), scope), ExecPrivate(step, at, Undisturbed(root), f).seen, loose)
    decreases step, 1
  {
    var o, body, rescue := Undisturbed(root), step.kind.body, step.kind.rescue;
    var start, again, g := In(at, Body, 0), In(at, Rescue, 0), f.(returning := false, registered := {});
    ChildrenStand(root, step, at, Body, body);
    NothingThwarted(root, start);
    SequenceGives(root, body, start, g, scope, loose);
    var attempted, v := ExecSequence(body, start, o, g), ValidateSequence(body, Static(start), scope);
    var r := ValidateSequence(rescue, Static(again), v.scope);
    var later := ValidateDefers(rescue, Static(again), r.scope);
    ScopeAddsDeclared(rescue, Static(again), v.scope);
    DefersAddDeclared(rescue, Static(again), r.scope);
    SequenceExcused(rescue, Static(again), v.scope);
    DefersExcused(rescue, Static(again), r.scope);
    var h := attempted.frame.(context := Shield(attempted.frame.context));
    var second, d := TryCleanupGives(root, step, at, h, later.scope, v.scope, loose);
    SuppliedBoth(v.points, d.points, attempted.seen, second.seen, loose);
    StepSucceeds(root, step, at, f);
    TrySeesAll(step, at, o, f, second);
    SuppliedMore(v.points + d.points, attempted.seen + second.seen, ExecPrivate(step, at, o, f).seen, loose);
    TryPoints(step, Static(at), scope, v, r, later, d, ExecPrivate(step, at, o, f).seen, loose);
  }

  lemma TryPoints(step: Step, at: Site, scope: set<string>, v: Checked, r: Checked, later: Checked, d: Checked,
                  seen: set<Observation>, loose: set<string>)
    requires at.In? && step.kind.TryCatch?
    requires v == ValidateSequence(step.kind.body, In(at, Body, 0), scope)
    requires r == ValidateSequence(step.kind.rescue, In(at, Rescue, 0), v.scope)
    requires later == ValidateDefers(step.kind.rescue, In(at, Rescue, 0), r.scope)
    requires d == ValidateDefers(step.kind.body, In(at, Body, 0), later.scope)
    requires AllExcused(r.points) && AllExcused(later.points) && Supplied(v.points + d.points, seen, loose)
    ensures Supplied(Inside(step, at, scope), seen, loose)
  {
  }

  /** The cleanup of the body, after that of the rescue, of which nothing was reached. */
  lemma {:induction false} TryCleanupGives(root: Tree, step: Step, at: Site, h: Frame, scope: set<string>,
                                           before: set<string>, loose: set<string>)
    returns (second: Result, d: Checked)
    requires at.In? && StepAt(root, at) == Some(step) && StepGroupsAcyclic(step) && step.kind.TryCatch?
    requires Live(h) && Owners(step.kind.body) <= h.registered && StepLoose(step) <= loose && "" in loose
    requires before <= h.ids + loose && scope <= before + AllIds(step.kind.rescue)
    ensures
      var first := ExecDefers(step.kind.rescue, In(at, Rescue, 0), Undisturbed(root), h);
      second == ExecDefers(step.kind.body, In(at, Body, 0), Undisturbed(root), first.frame)
    ensures d == ValidateDefers(step.kind.body, In(Static(at), Body, 0), scope)
    ensures Supplied(d.points, second.seen, loose)
    decreases step, 0
  {
    var o, body, rescue, start, again := Undisturbed(root), step.kind.body, step.kind.rescue, In(at, Body, 0),
                                         In(at, Rescue, 0);
    var first := ExecDefers(rescue, again, o, h);
    DefersKeepIds(rescue, again, o, h);
    ChildrenStand(root, step, at, Rescue, rescue);
    ChildrenStand(root, step, at, Body, body);
    NothingThwarted(root, start);
    SmoothDefers(root, false, {}, rescue, again, h);
    DefersGive(root, body, start, first.frame, scope, loose);
    second, d := ExecDefers(body, start, o, first.frame), ValidateDefers(body, Static(start), scope);
  }

  lemma TrySeesAll(step: Step, at: Site, o: Oracle, f: Frame, second: Result)
    requires at.In? && step.kind.TryCatch? && Arrive(at, o, f) == f && Attempted(step, at, o, f).err == OK
    requires
      var attempted := Attempted(step, at, o, f).frame;
      var later := ExecDefers(step.kind.rescue, In(at, Rescue, 0), o,
                              attempted.(context := Shield(attempted.context)));
      second == ExecDefers(step.kind.body, In(at, Body, 0), o, later.frame)
    ensures Attempted(step, at, o, f).seen + second.seen <= ExecPrivate(step, at, o, f).seen
  {
    TryIsItsParts(step, at, o, f);
    assert second.seen <= CleanedUp(step, at, o, f).seen;
  }

  // ---------------------------------------------------------------------------------------
  // Groups

  /** What the branches run so far supply. */
  ghost predicate BranchesGive(group: Kind, at: Site, scope: set<string>, run: GroupRun, loose: set<string>)
    requires group.Concurrent?
  {
    forall k :: k in run.done && k < |group.body| ==>
      && run.done[k].err == OK
      && SelectedStep(group.body[k]) <= run.done[k].frame.ids + loose
      && Supplied(ValidateStep(group.body[k], In(at, Branch, k), BranchScope(group.body, scope, k)).points,
                  run.done[k].seen, loose)
  }

  /** A step that succeeds in such a run publishes the ids it is selected by. */
  lemma {:induction false} SelectedInScope(steps: seq<Step>, at: Site, scope: set<string>)
    requires at.In?
    ensures Selected(steps) <= ValidateSequence(steps, at, scope).scope + Loose(steps) + {""}
    decreases steps, 0
  {
    if steps != [] {
      var v := ValidateStep(steps[0], at, scope);
      StepSelectedInScope(steps[0], at, scope);
      SelectedInScope(steps[1..], Next(at), v.scope);
      SequenceGrows(steps[1..], Next(at), v.scope);
    }
  }

  lemma {:induction false} StepSelectedInScope(step: Step, at: Site, scope: set<string>)
    requires at.In?
    ensures SelectedStep(step) <= ValidateStep(step, at, scope).scope + StepLoose(step) + {""}
    decreases step, 1
  {
    match step.kind
    case Conditional(body) => SelectedInScope(body, In(at, Body, 0), scope);
    case Scoped(body) => SelectedInScope(body, In(at, Body, 0), scope);
    case Executor(body, finale) =>
      var v := ValidateSequence(body, In(at, ExecutorBody, 0), scope);
      var d := ValidateDefers(body, In(at, ExecutorBody, 0), v.scope);
      SelectedInScope(body, In(at, ExecutorBody, 0), scope);
      DefersGrow(body, In(at, ExecutorBody, 0), v.scope);
      SequenceGrows(finale, In(at, ExecutorFinally, 0), d.scope);
      SelectedInScope(finale, In(at, ExecutorFinally, 0), d.scope);
    case _ =>
  }

  /** A branch that may start finds in its state what the validator has in its scope. */
  lemma BranchIsSupplied(branches: seq<Step>, f: Frame, before: GroupRun, scope: set<string>, k: nat,
                         loose: set<string>)
    requires scope <= f.ids + loose && k < |branches|
    requires NeedsMet(branches, FatesOf(before.done))
    requires forall d :: d in NeedEdges(branches)[k] ==> d in before.done && before.done[d].err == OK
    requires forall a :: a in before.done && a < |branches| ==>
        before.done[a].err == OK && SelectedStep(branches[a]) <= before.done[a].frame.ids + loose
    ensures BranchScope(branches, scope, k) <= BranchFrame(branches, f, before, k).ids + loose
  {
    forall id | id in NeededIds(branches, k)
      ensures id in BranchFrame(branches, f, before, k).ids + loose
    {
      var a: nat :| a < |branches| && Depends(NeedEdges(branches), k, a) && id in SelectedStep(branches[a]);
      var p :| IsPath(NeedEdges(branches), p) && p[0] == k && p[|p| - 1] == a;
      PathSucceeded(branches, FatesOf(before.done), p);
      if id !in loose {
        assert id in BranchIds(branches, before.done, a);
      }
    }
  }

  lemma {:induction false} PlannedBranchesGive(root: Tree, step: Step, at: Site, part: seq<Start>, f: Frame,
                                               scope: set<string>, loose: set<string>)
    requires StepAsked(root, step, at, f, scope, loose) && step.kind.Concurrent?
    requires GroupAt(root, false, step.kind, at, part) && Feasible(step.kind, part)
    ensures BranchesGive(step.kind, Static(at), scope,
                         RunBranches(step.kind, at, Undisturbed(root), f, Branches(part)), loose)
    decreases step, 2, |part|
  {
    if part != [] {
      var front, start := LastOfPlan(root, false, step.kind, at, part);
      PlannedBranchesGive(root, step, at, front, f, scope, loose);
      SmoothBranches(root, false, {}, step.kind, at, front, f);
      BranchRecords(step.kind, at, Undisturbed(root), f, Branches(front));
      NextBranchGives(root, step, at, front, start, f, scope, loose);
    }
  }

  lemma {:induction false} NextBranchGives(root: Tree, step: Step, at: Site, front: seq<Start>, start: Start, f: Frame,
                                           scope: set<string>, loose: set<string>)
    requires StepAsked(root, step, at, f, scope, loose) && step.kind.Concurrent?
    requires GroupAt(root, false, step.kind, at, [start]) && MayStart(step.kind, PlanFates(front), start.branch)
    requires
      var before := RunBranches(step.kind, at, Undisturbed(root), f, Branches(front));
      && BranchesGive(step.kind, Static(at), scope, before, loose)
      && Following(false, step.kind, front, f, false, false, before) && GroupBounded(step.kind.body, before)
    ensures BranchesGive(step.kind, Static(at), scope,
                         RunBranches(step.kind, at, Undisturbed(root), f, Branches(front + [start])), loose)
    decreases step, 1
  {
    var o, group, k := Undisturbed(root), step.kind, start.branch;
    var before := RunBranches(group, at, o, f, Branches(front));
    RunNext(group, at, o, f, front, start);
    if !before.context.Over() {
      assert start in [start];
      BranchStands(root, group, at, k);
      BranchIsSupplied(group.body, f, before, scope, k, loose);
      LooseAt(group.body, k);
      BranchGives(root, group, at, k, BranchFrame(group.body, f, before, k), scope, before, loose);
    }
  }

  lemma {:induction false} BranchGives(root: Tree, group: Kind, at: Site, k: nat, g: Frame, scope: set<string>,
                                       before: GroupRun, loose: set<string>)
    requires group.Concurrent? && at.In? && k < |group.body| && BranchesGive(group, Static(at), scope, before, loose)
    requires StepAt(root, In(at, Branch, k)) == Some(group.body[k]) && StepGroupsAcyclic(group.body[k]) && Live(g)
    requires BranchScope(group.body, scope, k) <= g.ids + loose && StepLoose(group.body[k]) <= loose && "" in loose
    ensures BranchesGive(group, Static(at), scope,
                         After(before, k, ExecStep(group.body[k], In(at, Branch, k), Undisturbed(root), g)), loose)
    decreases group, 0
  {
    NothingThwarted(root, In(at, Branch, k));
    OneBranchGives(root, group.body[k], In(at, Branch, k), g, BranchScope(group.body, scope, k), loose);
  }

  lemma {:induction false} OneBranchGives(root: Tree, step: Step, at: Site, f: Frame, scope: set<string>,
                                          loose: set<string>)
    requires StepAsked(root, step, at, f, scope, loose)
    ensures
      var r := ExecStep(step, at, Undisturbed(root), f);
      && r.err == OK && SelectedStep(step) <= r.frame.ids + loose
      && Supplied(ValidateStep(step, Static(at), scope).points, r.seen, loose)
    decreases step, 5
  {
    StepSucceeds(root, step, at, f);
    StepGives(root, step, at, f, scope, loose);
    StepSelectedInScope(step, Static(at), scope);
  }

  lemma {:induction false} LooseAt(steps: seq<Step>, k: nat)
    requires k < |steps|
    ensures StepLoose(steps[k]) <= Loose(steps)
  {
    if k > 0 {
      LooseAt(steps[1..], k - 1);
    }
  }

  lemma {:induction false} BranchesArePoints(rest: seq<Step>, at: Site, scope: set<string>, branches: seq<Step>, k: nat)
    requires k + |rest| == |branches| && branches[k..] == rest
    ensures forall p :: p in ValidateBranches(rest, at, scope, branches, k) ==>
      exists j: nat :: k <= j < |branches| &&
        p in ValidateStep(branches[j], In(at, Branch, j), BranchScope(branches, scope, j)).points
    decreases rest
  {
    if rest != [] {
      assert branches[k + 1..] == rest[1..] && branches[k] == rest[0];
      BranchesArePoints(rest[1..], at, scope, branches, k + 1);
    }
  }

  lemma {:induction false} GroupGives(root: Tree, step: Step, at: Site, f: Frame, scope: set<string>,
                                      loose: set<string>)
    requires StepAsked(root, step, at, f, scope, loose) && step.kind.Concurrent?
    ensures Gives(ValidateStep(step, Static(at), scope), ExecStep(step, at, Undisturbed(root), f), loose)
    decreases step, 3
  {
    var o, branches := Undisturbed(root), step.kind.body;
    var plan := PlanOf(step.kind, false);
    StepSucceeds(root, step, at, f);
    PlanChosen(step.kind, false);
    PlanIsFollowed(root, false, step, at);
    PlannedBranchesGive(root, step, at, plan, f, scope, loose);
    GroupSucceeds(step, at, o, f);
    GroupIs(step, at, o, f);
    assert o(at).order == Branches(plan);
    var run := BranchesOf(step, at, o, f);
    GroupScopeGiven(step, f, run, scope, loose, ExecStep(step, at, o, f).frame.ids);
    BranchesArePoints(branches, Static(at), scope, branches, 0);
    GroupPointsGiven(step, at, o, f, scope, loose);
  }

  lemma GroupScopeGiven(step: Step, f: Frame, run: GroupRun, scope: set<string>, loose: set<string>, ids: set<string>)
    requires step.kind.Concurrent? && scope <= f.ids + loose
    requires forall k: nat :: k < |step.kind.body| ==>
      && k in run.done && run.done[k].err == OK
      && SelectedStep(step.kind.body[k]) <= run.done[k].frame.ids + loose
    requires ids == f.ids + set a, id | a in run.done && id in BranchIds(step.kind.body, run.done, a) :: id
    ensures AddSteps(scope, Selected(step.kind.body)) <= ids + loose
  {
    forall id | id in Selected(step.kind.body)
      ensures id in ids + loose
    {
      var k := SelectedBy(step.kind.body, id);
      if id !in loose {
        assert id in BranchIds(step.kind.body, run.done, k);
      }
    }
  }

  lemma {:induction false} SelectedBy(steps: seq<Step>, id: string) returns (k: nat)
    requires id in Selected(steps)
    ensures k < |steps| && id in SelectedStep(steps[k])
  {
    if id in SelectedStep(steps[0]) {
      k := 0;
    } else {
      var rest := SelectedBy(steps[1..], id);
      k := rest + 1;
    }
  }

  lemma GroupPointsGiven(step: Step, at: Site, o: Oracle, f: Frame, scope: set<string>, loose: set<string>)
    requires at.In? && step.kind.Concurrent? && Runs(at, o, f) && Arrive(at, o, f) == f && scope <= f.ids + loose
    requires BranchesGive(step.kind, Static(at), scope, BranchesOf(step, at, o, f), loose)
    requires forall k: nat :: k < |step.kind.body| ==> k in BranchesOf(step, at, o, f).done
    requires forall p :: p in ValidateBranches(step.kind.body, Static(at), scope, step.kind.body, 0) ==>
      exists j: nat :: j < |step.kind.body| &&
        p in ValidateStep(step.kind.body[j], In(Static(at), Branch, j), BranchScope(step.kind.body, scope, j)).points
    ensures Supplied(ValidateStep(step, Static(at), scope).points, ExecStep(step, at, o, f).seen, loose)
  {
    var run, seen := BranchesOf(step, at, o, f), ExecStep(step, at, o, f).seen;
    assert ExecGroup(step, at, o, f) == GroupResult(step, f, run, o(at));
    SuppliedHere(at, scope, f.ids, loose);
    OwnObservation(step, at, o, f);
    SuppliedMore({Observation(Static(at), scope)}, See(at, f.ids), seen, loose);
    forall j: nat | j < |step.kind.body|
      ensures Supplied(ValidateStep(step.kind.body[j], In(Static(at), Branch, j),
                                    BranchScope(step.kind.body, scope, j)).points, seen, loose)
    {
      assert j in run.done && run.done[j].seen <= GroupResult(step, f, run, o(at)).seen;
      SuppliedMore(ValidateStep(step.kind.body[j], In(Static(at), Branch, j),
                                BranchScope(step.kind.body, scope, j)).points, run.done[j].seen, seen, loose);
    }
  }

  // ---------------------------------------------------------------------------------------
  // Whole workflows

  /** In the run in which nothing fails every place the validator visits, outside rescue and `when`, sees all the
      ids of its scope, but for those that only returns and rescue steps declare; and so does what follows the
      run. With coverage, the validator's scopes are there exactly what that run supplies. */
  lemma WorkflowSupplied(steps: seq<Step>, finale: seq<Step>, ids: set<string>)
    requires GroupsAcyclic(steps) && GroupsAcyclic(finale)
    ensures
      var o, loose := Undisturbed(Tree(steps, finale)), Loose(steps) + Loose(finale) + {""};
      Gives(ValidateWorkflow(steps, finale, ids), ExecWorkflow(steps, finale, o, ids, false), loose)
  {
    var root, loose := Tree(steps, finale), Loose(steps) + Loose(finale) + {""};
    var o, start, last := Undisturbed(root), In(Workflow, Main, 0), In(Workflow, Finally, 0);
    var f := Frame(ids, false, {}, Root(false));
    assert Stands(root, steps, start) && Stands(root, finale, last);
    NothingThwarted(root, start);
    NothingThwarted(root, last);
    SequenceGives(root, steps, start, f, ids, loose);
    var main, v := ExecMain(steps, o, ids, false), ValidateSequence(steps, start, ids);
    var g := Cleaning(main.frame);
    DefersGive(root, steps, start, g, v.scope, loose);
    var defers, d := ExecDefers(steps, start, o, g), ValidateDefers(steps, start, v.scope);
    EachGives(root, finale, last, defers.frame, d.scope, loose);
    var each, final := ExecEach(finale, last, o, defers.frame), ValidateSequence(finale, last, d.scope);
    SuppliedBoth(v.points, d.points, main.seen, defers.seen, loose);
    SuppliedBoth(v.points + d.points, final.points, main.seen + defers.seen, each.seen, loose);
    SuppliedMore(v.points + d.points + final.points, main.seen + defers.seen + each.seen,
                 ExecWorkflow(steps, finale, o, ids, false).seen, loose);
  }
}
