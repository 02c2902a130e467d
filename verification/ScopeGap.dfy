/** The cleanup the validator never sees does run: its scopes cover every run exactly when there is none. */
module ScopeGap {
  import opened Collections
  import opened ConcurrentGraph
  import opened StepTree
  import opened Interpreter
  import opened ReferenceScope
  import opened ScopeCoverage
  import opened GroupPlans
  import opened SmoothRun

  // ---------------------------------------------------------------------------------------
  // The validator has no place in cleanup that an attempt carries

  ghost predicate Hidden(at: Site) {
    match at
    case Workflow => false
    case Pass(of, _) => Hidden(of)
    case In(parent, role, _) => role == AttemptDeferred || Hidden(parent)
  }

  ghost predicate NoneHidden(points: set<Observation>) {
    forall p :: p in points ==> !Hidden(p.at)
  }

  lemma {:induction false} SequenceHidesNothing(steps: seq<Step>, at: Site, scope: set<string>)
    requires at.In? && !Hidden(at)
    ensures NoneHidden(ValidateSequence(steps, at, scope).points)
    decreases steps, 0
  {
    if steps != [] {
      StepHidesNothing(steps[0], at, scope);
      SequenceHidesNothing(steps[1..], Next(at), ValidateStep(steps[0], at, scope).scope);
    }
  }

  lemma {:induction false} StepHidesNothing(step: Step, at: Site, scope: set<string>)
    requires at.In? && !Hidden(at)
    ensures NoneHidden(ValidateStep(step, at, scope).points)
    decreases step, 1
  {
    match step.kind
    case Leaf(_, _) =>
    case Return =>
    case Conditional(body) => SequenceHidesNothing(body, In(at, Body, 0), scope);
    case Scoped(body) => SequenceHidesNothing(body, In(at, Body, 0), scope);
    case Executor(body, finale) =>
      var v := ValidateSequence(body, In(at, ExecutorBody, 0), scope);
      SequenceHidesNothing(body, In(at, ExecutorBody, 0), scope);
      DefersHideNothing(body, In(at, ExecutorBody, 0), v.scope);
      var d := ValidateDefers(body, In(at, ExecutorBody, 0), v.scope);
      SequenceHidesNothing(finale, In(at, ExecutorFinally, 0), d.scope);
    case Worktree(body) =>
      SequenceHidesNothing(body, In(at, Body, 0), scope);
      DefersHideNothing(body, In(at, Body, 0), ValidateSequence(body, In(at, Body, 0), scope).scope);
    case Concurrent(body, _, _) => BranchesHideNothing(body, at, scope, body, 0);
    case Fanout(body, _) => SequenceHidesNothing(body, In(at, Body, 0), scope);
    case Attempt(body, _) => SequenceHidesNothing(body, In(at, Body, 0), scope);
    case Once(body) => SequenceHidesNothing(body, In(at, Body, 0), scope);
    case TryCatch(body, rescue) =>
      var v := ValidateSequence(body, In(at, Body, 0), scope);
      var r := ValidateSequence(rescue, In(at, Rescue, 0), v.scope);
      SequenceHidesNothing(body, In(at, Body, 0), scope);
      SequenceHidesNothing(rescue, In(at, Rescue, 0), v.scope);
      DefersHideNothing(rescue, In(at, Rescue, 0), r.scope);
      DefersHideNothing(body, In(at, Body, 0), ValidateDefers(rescue, In(at, Rescue, 0), r.scope).scope);
    case CancelOn(monitors, body) =>
      MonitorsHideNothing(monitors, In(at, Monitor, 0), scope);
      SequenceHidesNothing(body, In(at, Body, 0), scope);
  }

  lemma {:induction false} DefersHideNothing(steps: seq<Step>, at: Site, scope: set<string>)
    requires at.In? && !Hidden(at)
    ensures NoneHidden(ValidateDefers(steps, at, scope).points)
    decreases steps, 0
  {
    if steps != [] {
      DefersHideNothing(steps[1..], Next(at), scope);
      StepDefersHideNothing(steps[0], at, ValidateDefers(steps[1..], Next(at), scope).scope);
    }
  }

  lemma {:induction false} StepDefersHideNothing(step: Step, at: Site, scope: set<string>)
    requires !Hidden(at)
    ensures NoneHidden(ValidateStepDefers(step, at, scope).points)
    decreases step, 0
  {
    match step.kind
    case Conditional(body) => DefersHideNothing(body, In(at, Body, 0), scope);
    case Scoped(body) => DefersHideNothing(body, In(at, Body, 0), scope);
    case Leaf(deferred, _) => SequenceHidesNothing(deferred, In(at, Deferred, 0), scope);
    case _ =>
  }

  lemma {:induction false} MonitorsHideNothing(monitors: seq<Step>, at: Site, scope: set<string>)
    requires at.In? && !Hidden(at)
    ensures NoneHidden(ValidateMonitors(monitors, at, scope))
    decreases monitors, 0
  {
    if monitors != [] {
      StepHidesNothing(monitors[0], at, scope);
      MonitorsHideNothing(monitors[1..], Next(at), scope);
    }
  }

  lemma {:induction false} BranchesHideNothing(rest: seq<Step>, at: Site, scope: set<string>, branches: seq<Step>,
                                               k: nat)
    requires !Hidden(at)
    ensures NoneHidden(ValidateBranches(rest, at, scope, branches, k))
    decreases rest, 0
  {
    if rest != [] {
      StepHidesNothing(rest[0], In(at, Branch, k), BranchScope(branches, scope, k));
      BranchesHideNothing(rest[1..], at, scope, branches, k + 1);
    }
  }

  // ---------------------------------------------------------------------------------------
  // Steering a run to a place

  /** The place lies in the given child sequence. */
  ghost predicate Beneath(w: Site, parent: Site, role: Role) {
    match w
    case Workflow => false
    case Pass(of, _) => Beneath(of, parent, role)
    case In(p, r, _) => (p == parent && r == role) || Beneath(p, parent, role)
  }

  ghost function Depth(at: Site): nat {
    match at
    case Workflow => 0
    case Pass(of, _) => Depth(of) + 1
    case In(parent, _, _) => Depth(parent) + 1
  }

  /** The tries that have to fail on the way: those whose rescue the place lies in. */
  ghost function FailsFor(w: Site): set<Site> {
    match w
    case Workflow => {}
    case Pass(of, _) => FailsFor(of)
    case In(parent, role, _) => FailsFor(parent) + if role == Rescue then {parent} else {}
  }

  lemma {:induction false} FailsAbove(w: Site)
    ensures forall t :: t in FailsFor(w) ==> Depth(t) < Depth(w)
  {
    match w
    case Workflow =>
    case Pass(of, _) => FailsAbove(of);
    case In(parent, _, _) => FailsAbove(parent);
  }

  lemma {:induction false} BeneathIsDeeper(w: Site, parent: Site, role: Role)
    requires Beneath(w, parent, role)
    ensures Depth(parent) < Depth(w)
  {
    match w
    case Pass(of, _) => BeneathIsDeeper(of, parent, role);
    case In(p, r, _) =>
      if !(p == parent && r == role) {
        BeneathIsDeeper(p, parent, role);
      }
  }

  /** A try above the place fails exactly when the place lies in its rescue. */
  lemma {:induction false} FailsExactly(w: Site, parent: Site, role: Role)
    requires Beneath(w, parent, role)
    ensures parent in FailsFor(w) <==> role == Rescue
  {
    match w
    case Pass(of, _) => FailsExactly(of, parent, role);
    case In(p, r, _) =>
      if p == parent && r == role {
        FailsAbove(p);
      } else {
        FailsExactly(p, parent, role);
        BeneathIsDeeper(p, parent, role);
      }
  }

  lemma {:induction false} BeneathOuter(w: Site, at: Site, role: Role)
    requires at.In? && (Beneath(w, at, role) || Beneath(w, Pass(at, 0), role))
    ensures Beneath(w, at.parent, at.role)
  {
    match w
    case Pass(of, _) => BeneathOuter(of, at, role);
    case In(p, r, _) =>
      if !(p == at && r == role) && !(p == Pass(at, 0) && r == role) {
        BeneathOuter(p, at, role);
      }
  }

  /** A place in cleanup an attempt carries, which a run of the steps can come to. */
  ghost function Target(steps: seq<Step>, at: Site): (w: Site)
    requires at.In? && Unchecked(steps)
    ensures Beneath(w, at.parent, at.role)
    decreases steps, 0
  {
    if StepUnchecked(steps[0]) then StepTarget(steps[0], at) else Target(steps[1..], Next(at))
  }

  ghost function StepTarget(step: Step, at: Site): (w: Site)
    requires at.In? && StepUnchecked(step)
    ensures Beneath(w, at.parent, at.role)
    decreases step, 1
  {
    match step.kind
    case Conditional(body) => Into(Target(body, In(at, Body, 0)), at, Body)
    case Scoped(body) => Into(Target(body, In(at, Body, 0)), at, Body)
    case Executor(body, finale) =>
      if Unchecked(body) then Into(Target(body, In(at, ExecutorBody, 0)), at, ExecutorBody)
      else if UncheckedDefers(body) then Into(DefersTarget(body, In(at, ExecutorBody, 0)), at, ExecutorBody)
      else Into(Target(finale, In(at, ExecutorFinally, 0)), at, ExecutorFinally)
    case Worktree(body) =>
      if Unchecked(body) then Into(Target(body, In(at, Body, 0)), at, Body)
      else Into(DefersTarget(body, In(at, Body, 0)), at, Body)
    case Concurrent(body, _, _) =>
      var k := UncheckedIndex(body);
      Into(StepTarget(body[k], In(at, Branch, k)), at, Branch)
    case Fanout(body, _) => Into(Target(body, In(Pass(at, 0), Body, 0)), at, Body)
    case Attempt(body, _) => Into(Target(body, In(Pass(at, 0), Body, 0)), at, Body)
    case Once(body) => Into(Target(body, In(at, Body, 0)), at, Body)
    case TryCatch(body, rescue) =>
      if Unchecked(body) then Into(Target(body, In(at, Body, 0)), at, Body)
      else if UncheckedDefers(body) then Into(DefersTarget(body, In(at, Body, 0)), at, Body)
      else if Unchecked(rescue) then Into(Target(rescue, In(at, Rescue, 0)), at, Rescue)
      else Into(DefersTarget(rescue, In(at, Rescue, 0)), at, Rescue)
    case CancelOn(monitors, body) =>
      if Unchecked(monitors) then Into(Target(monitors, In(at, Monitor, 0)), at, Monitor)
      else Into(Target(body, In(at, Body, 0)), at, Body)
  }

  /** A place below a step is also below the sequence the step stands in. */
  ghost function Into(w: Site, at: Site, role: Role): (r: Site)
    requires at.In? && (Beneath(w, at, role) || Beneath(w, Pass(at, 0), role))
    ensures r == w && Beneath(w, at.parent, at.role)
  {
    BeneathOuter(w, at, role);
    w
  }

  ghost function UncheckedIndex(steps: seq<Step>): (k: nat)
    requires Unchecked(steps)
    ensures k < |steps| && StepUnchecked(steps[k])
  {
    if StepUnchecked(steps[0]) then 0 else UncheckedIndex(steps[1..]) + 1
  }

  ghost function DefersTarget(steps: seq<Step>, at: Site): (w: Site)
    requires at.In? && UncheckedDefers(steps)
    ensures Beneath(w, at.parent, at.role)
    decreases steps, 0
  {
    if StepUncheckedDefers(steps[0]) then StepDefersTarget(steps[0], at) else DefersTarget(steps[1..], Next(at))
  }

  ghost function StepDefersTarget(step: Step, at: Site): (w: Site)
    requires at.In? && StepUncheckedDefers(step)
    ensures Beneath(w, at.parent, at.role)
    decreases step, 0
  {
    match step.kind
    case Conditional(body) => Into(DefersTarget(body, In(at, Body, 0)), at, Body)
    case Scoped(body) => Into(DefersTarget(body, In(at, Body, 0)), at, Body)
    case Leaf(deferred, _) => Into(Target(deferred, In(at, Deferred, 0)), at, Deferred)
    case Attempt(_, _) => Into(In(at, AttemptDeferred, 0), at, AttemptDeferred)
  }

  // ---------------------------------------------------------------------------------------
  // A run that comes there

  /** Something was seen in cleanup that an attempt carries. */
  ghost predicate Escapes(seen: set<Observation>) {
    exists x :: x in seen && Hidden(x.at)
  }

  /** A frame of a run that is not being ended. */
  ghost predicate Fresh(f: Frame) {
    !f.returning && Alive(f.context)
  }

  lemma EscapesMore(seen: set<Observation>, more: set<Observation>)
    requires Escapes(seen) && seen <= more
    ensures Escapes(more)
  {
    var x :| x in seen && Hidden(x.at);
    assert x in more;
  }

  ghost function Steered(root: Tree, w: Site): Oracle {
    Smooth(root, false, FailsFor(w))
  }

  lemma {:induction false} SequenceEscapes(root: Tree, steps: seq<Step>, at: Site, f: Frame)
    requires Stands(root, steps, at) && GroupsAcyclic(steps) && Fresh(f)
    requires Unchecked(steps)
    ensures Escapes(ExecSequence(steps, at, Steered(root, Target(steps, at)), f).seen)
    decreases steps, 0
  {
    var w := Target(steps, at);
    var o := Steered(root, w);
    StandsNext(root, steps, at);
    FailsExactly(w, at.parent, at.role);
    NothingDoomed(root, at);
    SmoothStep(root, false, FailsFor(w), steps[0], at, f);
    var r := ExecStep(steps[0], at, o, f);
    if StepUnchecked(steps[0]) {
      StepEscapes(root, steps[0], at, f);
    } else {
      SequenceEscapes(root, steps[1..], Next(at), r.frame);
      EscapesMore(ExecSequence(steps[1..], Next(at), o, r.frame).seen, ExecSequence(steps, at, o, f).seen);
    }
    if Escapes(r.seen) {
      EscapesMore(r.seen, ExecSequence(steps, at, o, f).seen);
    }
  }

  lemma {:induction false} EachEscapes(root: Tree, steps: seq<Step>, at: Site, f: Frame)
    requires Stands(root, steps, at) && GroupsAcyclic(steps) && Fresh(f)
    requires Unchecked(steps)
    ensures Escapes(ExecEach(steps, at, Steered(root, Target(steps, at)), f).seen)
    decreases steps, 0
  {
    var w := Target(steps, at);
    var o := Steered(root, w);
    StandsNext(root, steps, at);
    FailsExactly(w, at.parent, at.role);
    NothingDoomed(root, at);
    SmoothStep(root, false, FailsFor(w), steps[0], at, f);
    var r := ExecStep(steps[0], at, o, f);
    if StepUnchecked(steps[0]) {
      StepEscapes(root, steps[0], at, f);
      EscapesMore(r.seen, ExecEach(steps, at, o, f).seen);
    } else {
      EachEscapes(root, steps[1..], Next(at), r.frame);
      EscapesMore(ExecEach(steps[1..], Next(at), o, r.frame).seen, ExecEach(steps, at, o, f).seen);
    }
  }

  lemma {:induction false} RescueEscapes(root: Tree, steps: seq<Step>, at: Site, f: Frame)
    requires Stands(root, steps, at) && GroupsAcyclic(steps) && Fresh(f)
    requires Unchecked(steps)
    ensures Escapes(ExecRescue(steps, at, Steered(root, Target(steps, at)), f).seen)
    decreases steps, 0
  {
    var w := Target(steps, at);
    var o := Steered(root, w);
    StandsNext(root, steps, at);
    FailsExactly(w, at.parent, at.role);
    NothingDoomed(root, at);
    SmoothStep(root, false, FailsFor(w), steps[0], at, f);
    var r := ExecStep(steps[0], at, o, f);
    if StepUnchecked(steps[0]) {
      StepEscapes(root, steps[0], at, f);
      EscapesMore(r.seen, ExecRescue(steps, at, o, f).seen);
    } else {
      RescueEscapes(root, steps[1..], Next(at), r.frame);
      EscapesMore(ExecRescue(steps[1..], Next(at), o, r.frame).seen, ExecRescue(steps, at, o, f).seen);
    }
  }

  lemma {:induction false} MonitorsEscape(root: Tree, monitors: seq<Step>, at: Site, f: Frame)
    requires Stands(root, monitors, at) && GroupsAcyclic(monitors) && Fresh(f)
    requires Unchecked(monitors)
    ensures Escapes(ExecMonitors(monitors, at, Steered(root, Target(monitors, at)), f).seen)
    decreases monitors, 0
  {
    var w := Target(monitors, at);
    var o := Steered(root, w);
    StandsNext(root, monitors, at);
    FailsExactly(w, at.parent, at.role);
    NothingDoomed(root, at);
    SmoothStep(root, false, FailsFor(w), monitors[0], at, f);
    var r := ExecStep(monitors[0], at, o, f);
    var g := Keep(f, r.frame);
    if StepUnchecked(monitors[0]) {
      StepEscapes(root, monitors[0], at, f);
      EscapesMore(r.seen, ExecMonitors(monitors, at, o, f).seen);
    } else {
      MonitorsEscape(root, monitors[1..], Next(at), g);
      EscapesMore(ExecMonitors(monitors[1..], Next(at), o, g).seen, ExecMonitors(monitors, at, o, f).seen);
    }
  }

  lemma DefersSee(steps: seq<Step>, at: Site, o: Oracle, f: Frame)
    requires at.In? && steps != []
    ensures
      var all, later := ExecDefers(steps, at, o, f).seen, ExecDefers(steps[1..], Next(at), o, f);
      later.seen <= all && ExecStepDefers(steps[0], at, o, later.frame).seen <= all
  {
  }

  lemma {:induction false} DefersEscape(root: Tree, steps: seq<Step>, at: Site, f: Frame)
    requires Stands(root, steps, at) && GroupsAcyclic(steps) && Fresh(f)
    requires UncheckedDefers(steps) && Owners(steps) <= f.registered
    ensures Escapes(ExecDefers(steps, at, Steered(root, DefersTarget(steps, at)), f).seen)
    decreases steps, 0, 1
  {
    StandsNext(root, steps, at);
    if StepUncheckedDefers(steps[0]) {
      FirstDefersEscape(root, steps, at, f);
    } else {
      DefersEscape(root, steps[1..], Next(at), f);
      var o := Steered(root, DefersTarget(steps[1..], Next(at)));
      DefersSee(steps, at, o, f);
      EscapesMore(ExecDefers(steps[1..], Next(at), o, f).seen, ExecDefers(steps, at, o, f).seen);
    }
  }

  lemma {:induction false} FirstDefersEscape(root: Tree, steps: seq<Step>, at: Site, f: Frame)
    requires at.In? && steps != [] && StepAt(root, at) == Some(steps[0]) && Stands(root, steps[1..], Next(at))
    requires GroupsAcyclic(steps) && Fresh(f)
    requires StepUncheckedDefers(steps[0]) && Owners(steps) <= f.registered
    ensures Escapes(ExecDefers(steps, at, Steered(root, StepDefersTarget(steps[0], at)), f).seen)
    decreases steps, 0, 0
  {
    var o := Steered(root, StepDefersTarget(steps[0], at));
    LaterIsFresh(root, FailsFor(StepDefersTarget(steps[0], at)), steps[1..], Next(at), f);
    var later := ExecDefers(steps[1..], Next(at), o, f);
    StepDefersEscape(root, steps[0], at, later.frame);
    DefersSee(steps, at, o, f);
    EscapesMore(ExecStepDefers(steps[0], at, o, later.frame).seen, ExecDefers(steps, at, o, f).seen);
  }

  lemma LaterIsFresh(root: Tree, fails: set<Site>, steps: seq<Step>, at: Site, f: Frame)
    requires at.In? && Stands(root, steps, at) && GroupsAcyclic(steps) && Fresh(f)
    ensures
      var r := ExecDefers(steps, at, Smooth(root, false, fails), f);
      Fresh(r.frame) && f.registered <= r.frame.registered
  {
    SmoothDefers(root, false, fails, steps, at, f);
  }

  lemma {:induction false} StepDefersEscape(root: Tree, step: Step, at: Site, f: Frame)
    requires at.In? && StepAt(root, at) == Some(step) && StepGroupsAcyclic(step) && Fresh(f)
    requires StepUncheckedDefers(step) && StepOwners(step) <= f.registered
    ensures Escapes(ExecStepDefers(step, at, Steered(root, StepDefersTarget(step, at)), f).seen)
    decreases step, 0
  {
    match step.kind
    case Conditional(body) => DefersEscape(root, body, In(at, Body, 0), f);
    case Scoped(body) => DefersEscape(root, body, In(at, Body, 0), f);
    case Leaf(deferred, _) => EachEscapes(root, deferred, In(at, Deferred, 0), f);
    case Attempt(_, deferred) =>
      var o, place := Steered(root, In(at, AttemptDeferred, 0)), In(at, AttemptDeferred, 0);
      assert See(place, f.ids) <= ExecStep(deferred[0], place, o, f).seen;
      assert Observation(Static(place), f.ids) in ExecEach(deferred, place, o, f).seen;
  }

  /** Where the run of a step comes to the cleanup, the sequences inside it being done. */
  lemma {:induction false} StepEscapes(root: Tree, step: Step, at: Site, f: Frame)
    requires at.In? && StepAt(root, at) == Some(step) && StepGroupsAcyclic(step) && Fresh(f)
    requires StepUnchecked(step)
    ensures Escapes(ExecStep(step, at, Steered(root, StepTarget(step, at)), f).seen)
    decreases step, 4
  {
    var w := StepTarget(step, at);
    var o := Steered(root, w);
    FailsExactly(w, at.parent, at.role);
    NothingDoomed(root, at);
    Reached(root, false, FailsFor(w), step, at, f);
    var all := ExecStep(step, at, o, f).seen;
    if KeepsRecord(step.kind) {
      RecordedEscapes(root, step, at, f);
      EscapesMore(ExecRecorded(step, at, o, f).seen, all);
    } else {
      BlockEscapes(root, step, at, f);
      EscapesMore(ExecBlock(step, at, o, f).seen, all);
    }
  }

  lemma {:induction false} BlockEscapes(root: Tree, step: Step, at: Site, f: Frame)
    requires at.In? && StepAt(root, at) == Some(step) && StepGroupsAcyclic(step) && Fresh(f)
    requires StepUnchecked(step) && !KeepsRecord(step.kind)
    ensures Escapes(ExecBlock(step, at, Steered(root, StepTarget(step, at)), f).seen)
    decreases step, 3
  {
    match step.kind
    case Conditional(body) => SequenceEscapes(root, body, In(at, Body, 0), f);
    case Scoped(body) => SequenceEscapes(root, body, In(at, Body, 0), f);
    case Executor(_, _) => ScopeEscapes(root, step, at, f);
    case Concurrent(_, _, _) => GroupEscapes(root, step, at, f);
  }

  lemma {:induction false} RecordedEscapes(root: Tree, step: Step, at: Site, f: Frame)
    requires at.In? && StepAt(root, at) == Some(step) && StepGroupsAcyclic(step) && Fresh(f)
    requires StepUnchecked(step) && KeepsRecord(step.kind)
    ensures Escapes(ExecRecorded(step, at, Steered(root, StepTarget(step, at)), f).seen)
    decreases step, 3
  {
    if step.kind.Worktree? {
      ScopeEscapes(root, step, at, f);
    } else {
      PrivateEscapes(root, step, at, f);
    }
  }

  lemma {:induction false} PrivateEscapes(root: Tree, step: Step, at: Site, f: Frame)
    requires at.In? && StepAt(root, at) == Some(step) && StepGroupsAcyclic(step) && Fresh(f)
    requires StepUnchecked(step) && KeepsRecord(step.kind) && !step.kind.Worktree?
    ensures Escapes(ExecPrivate(step, at, Steered(root, StepTarget(step, at)), f).seen)
    decreases step, 2
  {
    match step.kind
    case Fanout(_, _) => PassEscapes(root, step, at, f);
    case Attempt(_, _) => PassEscapes(root, step, at, f);
    case Once(body) => SequenceEscapes(root, body, In(at, Body, 0), Private(f));
    case TryCatch(_, _) => TryEscapes(root, step, at, Private(f).(registered := {}));
    case CancelOn(_, _) => RaceEscapes(root, step, at, f);
  }

  lemma {:induction false} RaceEscapes(root: Tree, step: Step, at: Site, f: Frame)
    requires at.In? && StepAt(root, at) == Some(step) && StepGroupsAcyclic(step) && Fresh(f)
    requires StepUnchecked(step) && step.kind.CancelOn?
    ensures Escapes(ExecRace(step, at, Steered(root, StepTarget(step, at)), f).seen)
    decreases step, 1
  {
    var monitors, body, o := step.kind.monitors, step.kind.body, Steered(root, StepTarget(step, at));
    var all := ExecRace(step, at, o, f).seen;
    var watched := ExecMonitors(monitors, In(at, Monitor, 0), o, Private(f));
    assert Stands(root, monitors, In(at, Monitor, 0)) && Stands(root, body, In(at, Body, 0));
    if Unchecked(monitors) {
      MonitorsEscape(root, monitors, In(at, Monitor, 0), Private(f));
      EscapesMore(watched.seen, all);
    } else {
      assert StepTarget(step, at) == Into(Target(body, In(at, Body, 0)), at, Body);
      SmoothMonitors(root, false, FailsFor(StepTarget(step, at)), monitors, In(at, Monitor, 0), Private(f));
      SequenceEscapes(root, body, In(at, Body, 0), Fork(f, watched.frame));
      EscapesMore(ExecSequence(body, In(at, Body, 0), o, Fork(f, watched.frame)).seen, all);
    }
  }

  lemma {:induction false} PassEscapes(root: Tree, step: Step, at: Site, f: Frame)
    requires at.In? && StepAt(root, at) == Some(step) && StepGroupsAcyclic(step) && Fresh(f)
    requires StepUnchecked(step) && (step.kind.Fanout? || step.kind.Attempt?)
    ensures Escapes(ExecIterations(step.kind.body, at, Steered(root, StepTarget(step, at)), f, 1).seen)
    ensures Escapes(ExecPasses(step.kind.body, at, Steered(root, StepTarget(step, at)), f, 1).seen)
    decreases step, 0
  {
    var body, o, start := step.kind.body, Steered(root, StepTarget(step, at)), In(Pass(at, 0), Body, 0);
    assert ExecIterations(body, at, o, f, 0).frame == f && ExecPasses(body, at, o, f, 0).frame == f;
    assert Fork(f, f) == f;
    assert StepAt(root, Pass(at, 0)) == Some(step);
    assert Stands(root, body, start);
    SequenceEscapes(root, body, start, f);
    var seen := ExecSequence(body, start, o, f).seen;
    EscapesMore(seen, ExecIterations(body, at, o, f, 1).seen);
    EscapesMore(seen, ExecPasses(body, at, o, f, 1).seen);
  }

  lemma {:induction false} ScopeEscapes(root: Tree, step: Step, at: Site, f: Frame)
    requires at.In? && StepAt(root, at) == Some(step) && StepGroupsAcyclic(step) && Fresh(f)
    requires StepUnchecked(step) && (step.kind.Executor? || step.kind.Worktree?)
    ensures Escapes(ExecScope(step, at, Steered(root, StepTarget(step, at)), f).seen)
    decreases step, 2
  {
    var body, start, o := step.kind.body, BodyAt(step, at), Steered(root, StepTarget(step, at));
    var fails, all := FailsFor(StepTarget(step, at)), ExecScope(step, at, o, f).seen;
    var main := ExecSequence(body, start, o, EnterScope(f));
    ChildrenStand(root, step, at, start.role, body);
    SmoothSequence(root, false, fails, body, start, EnterScope(f));
    if Unchecked(body) {
      SequenceEscapes(root, body, start, EnterScope(f));
      EscapesMore(main.seen, all);
    } else {
      CleanupEscapes(root, step, at, Cleaning(main.frame));
      EscapesMore(ScopeCleanup(step, at, o, Cleaning(main.frame)).seen, all);
    }
  }

  lemma {:induction false} CleanupEscapes(root: Tree, step: Step, at: Site, f: Frame)
    requires at.In? && StepAt(root, at) == Some(step) && StepGroupsAcyclic(step) && Fresh(f)
    requires StepUnchecked(step) && (step.kind.Executor? || step.kind.Worktree?) && !Unchecked(step.kind.body)
    requires Owners(step.kind.body) <= f.registered
    ensures Escapes(ScopeCleanup(step, at, Steered(root, StepTarget(step, at)), f).seen)
    decreases step, 1
  {
    var body, start, o := step.kind.body, BodyAt(step, at), Steered(root, StepTarget(step, at));
    var all, defers := ScopeCleanup(step, at, o, f).seen, ExecDefers(body, start, o, f);
    ChildrenStand(root, step, at, start.role, body);
    SmoothDefers(root, false, FailsFor(StepTarget(step, at)), body, start, f);
    if UncheckedDefers(body) {
      DefersEscape(root, body, start, f);
      EscapesMore(defers.seen, all);
    } else {
      FinalsEscape(root, step, at, defers.frame);
      EscapesMore(ExecEach(step.kind.finale, In(at, ExecutorFinally, 0), o, defers.frame).seen, all);
    }
  }

  lemma {:induction false} FinalsEscape(root: Tree, step: Step, at: Site, f: Frame)
    requires at.In? && StepAt(root, at) == Some(step) && StepGroupsAcyclic(step) && Fresh(f)
    requires StepUnchecked(step) && step.kind.Executor? && !Unchecked(step.kind.body)
    requires !UncheckedDefers(step.kind.body)
    ensures Escapes(ExecEach(step.kind.finale, In(at, ExecutorFinally, 0), Steered(root, StepTarget(step, at)), f).seen)
    decreases step, 0
  {
    ChildrenStand(root, step, at, ExecutorFinally, step.kind.finale);
    EachEscapes(root, step.kind.finale, In(at, ExecutorFinally, 0), f);
  }

  lemma {:induction false} TryEscapes(root: Tree, step: Step, at: Site, f: Frame)
    requires at.In? && StepAt(root, at) == Some(step) && StepGroupsAcyclic(step) && Fresh(f)
    requires StepUnchecked(step) && step.kind.TryCatch?
    ensures Escapes(ExecTryCatch(step, at, Steered(root, StepTarget(step, at)), f).seen)
    decreases step, 1
  {
    var body, w := step.kind.body, StepTarget(step, at);
    var o, start := Steered(root, w), In(at, Body, 0);
    TrySees(step, at, o, f);
    if Unchecked(body) {
      SequenceEscapes(root, body, start, f);
      EscapesMore(ExecSequence(body, start, o, f).seen, ExecTryCatch(step, at, o, f).seen);
    } else if UncheckedDefers(body) {
      TriedEscapes(root, step, at, f);
    } else {
      RescueOfTryEscapes(root, step, at, f);
    }
  }

  lemma TrySees(step: Step, at: Site, o: Oracle, f: Frame)
    requires step.kind.TryCatch?
    ensures
      var all, attempted := ExecTryCatch(step, at, o, f).seen, ExecSequence(step.kind.body, In(at, Body, 0), o, f);
      var rescued := ExecCatch(step, at, o, attempted);
      && attempted.seen <= all && rescued.seen <= all
      && TryCleanup(step, at, o, Shielded(rescued.frame)).seen <= all
      && (attempted.err == OK ==> rescued.frame == attempted.frame)
  {
  }

  lemma {:induction false} TriedEscapes(root: Tree, step: Step, at: Site, f: Frame)
    requires at.In? && StepAt(root, at) == Some(step) && StepGroupsAcyclic(step) && Fresh(f)
    requires StepUnchecked(step) && step.kind.TryCatch?
    requires !Unchecked(step.kind.body) && UncheckedDefers(step.kind.body)
    ensures Escapes(ExecTryCatch(step, at, Steered(root, StepTarget(step, at)), f).seen)
    decreases step, 0, 1
  {
    var body, w, start := step.kind.body, StepTarget(step, at), In(at, Body, 0);
    var o := Steered(root, w);
    FailsExactly(w, at, Body);
    NothingDoomed(root, start);
    SmoothSequence(root, false, FailsFor(w), body, start, f);
    var attempted := ExecSequence(body, start, o, f);
    var g := Shielded(attempted.frame);
    DefersOfTryEscape(root, step, at, g);
    TrySees(step, at, o, f);
    EscapesMore(TryCleanup(step, at, o, g).seen, ExecTryCatch(step, at, o, f).seen);
  }

  lemma {:induction false} DefersOfTryEscape(root: Tree, step: Step, at: Site, f: Frame)
    requires at.In? && StepAt(root, at) == Some(step) && StepGroupsAcyclic(step) && Fresh(f)
    requires StepUnchecked(step) && step.kind.TryCatch?
    requires !Unchecked(step.kind.body) && UncheckedDefers(step.kind.body) && Owners(step.kind.body) <= f.registered
    ensures Escapes(TryCleanup(step, at, Steered(root, StepTarget(step, at)), f).seen)
    decreases step, 0, 0
  {
    var body, rescue, w := step.kind.body, step.kind.rescue, StepTarget(step, at);
    var o := Steered(root, w);
    SmoothDefers(root, false, FailsFor(w), rescue, In(at, Rescue, 0), f);
    var later := ExecDefers(rescue, In(at, Rescue, 0), o, f);
    DefersEscape(root, body, In(at, Body, 0), later.frame);
    EscapesMore(ExecDefers(body, In(at, Body, 0), o, later.frame).seen, TryCleanup(step, at, o, f).seen);
  }

  lemma RescueIsReached(root: Tree, step: Step, at: Site)
    requires at.In? && StepAt(root, at) == Some(step) && StepUnchecked(step) && step.kind.TryCatch?
    requires !Unchecked(step.kind.body) && !UncheckedDefers(step.kind.body)
    ensures step.kind.body != []
    ensures Thwarted(root, false, FailsFor(StepTarget(step, at)), In(at, Body, 0))
  {
    FailsExactly(StepTarget(step, at), at, Rescue);
    RescueLeavesRecords(step.kind.rescue);
  }

  /** The try fails at its first step, so that its rescue runs. */
  lemma RescueRuns(root: Tree, step: Step, at: Site, f: Frame) returns (rescued: Result)
    requires at.In? && StepAt(root, at) == Some(step) && StepGroupsAcyclic(step) && Fresh(f)
    requires StepUnchecked(step) && step.kind.TryCatch?
    requires !Unchecked(step.kind.body) && !UncheckedDefers(step.kind.body)
    ensures rescued == ExecRescue(step.kind.rescue, In(at, Rescue, 0), Steered(root, StepTarget(step, at)), f)
    ensures Fresh(rescued.frame) && Owners(step.kind.rescue) <= rescued.frame.registered
    ensures rescued.seen <= ExecTryCatch(step, at, Steered(root, StepTarget(step, at)), f).seen
    ensures TryCleanup(step, at, Steered(root, StepTarget(step, at)), Shielded(rescued.frame)).seen <=
      ExecTryCatch(step, at, Steered(root, StepTarget(step, at)), f).seen
  {
    var attempted;
    RescueIsReached(root, step, at);
    attempted, rescued := RescueGoes(root, false, FailsFor(StepTarget(step, at)), step, at, f);
    CatchIs(step, at, Smooth(root, false, FailsFor(StepTarget(step, at))), attempted);
    TrySees(step, at, Smooth(root, false, FailsFor(StepTarget(step, at))), f);
  }

  lemma {:induction false} RescueOfTryEscapes(root: Tree, step: Step, at: Site, f: Frame)
    requires at.In? && StepAt(root, at) == Some(step) && StepGroupsAcyclic(step) && Fresh(f)
    requires StepUnchecked(step) && step.kind.TryCatch?
    requires !Unchecked(step.kind.body) && !UncheckedDefers(step.kind.body)
    ensures Escapes(ExecTryCatch(step, at, Steered(root, StepTarget(step, at)), f).seen)
    decreases step, 0, 1
  {
    var rescued := RescueRuns(root, step, at, f);
    if Unchecked(step.kind.rescue) {
      TargetOfRescue(step, at);
      RescueItselfEscapes(root, step, at, f);
      EscapesMore(rescued.seen, ExecTryCatch(step, at, Steered(root, StepTarget(step, at)), f).seen);
    } else {
      DefersOfRescueEscape(root, step, at, Shielded(rescued.frame));
      EscapesMore(TryCleanup(step, at, Steered(root, StepTarget(step, at)), Shielded(rescued.frame)).seen,
                  ExecTryCatch(step, at, Steered(root, StepTarget(step, at)), f).seen);
    }
  }

  lemma TargetOfRescue(step: Step, at: Site)
    requires at.In? && StepUnchecked(step) && step.kind.TryCatch? && Unchecked(step.kind.rescue)
    requires !Unchecked(step.kind.body) && !UncheckedDefers(step.kind.body)
    ensures StepTarget(step, at) == Target(step.kind.rescue, In(at, Rescue, 0))
  {
  }

  lemma {:induction false} RescueItselfEscapes(root: Tree, step: Step, at: Site, f: Frame)
    requires at.In? && StepAt(root, at) == Some(step) && StepGroupsAcyclic(step) && Fresh(f)
    requires step.kind.TryCatch? && Unchecked(step.kind.rescue)
    ensures
      var start := In(at, Rescue, 0);
      Escapes(ExecRescue(step.kind.rescue, start, Steered(root, Target(step.kind.rescue, start)), f).seen)
    decreases step, 0, 0
  {
    ChildrenStand(root, step, at, Rescue, step.kind.rescue);
    RescueEscapes(root, step.kind.rescue, In(at, Rescue, 0), f);
  }

  lemma {:induction false} DefersOfRescueEscape(root: Tree, step: Step, at: Site, f: Frame)
    requires at.In? && StepAt(root, at) == Some(step) && StepGroupsAcyclic(step) && Fresh(f)
    requires StepUnchecked(step) && step.kind.TryCatch?
    requires !Unchecked(step.kind.body) && !UncheckedDefers(step.kind.body)
    requires !Unchecked(step.kind.rescue) && Owners(step.kind.rescue) <= f.registered
    ensures Escapes(TryCleanup(step, at, Steered(root, StepTarget(step, at)), f).seen)
    decreases step, 0, 0
  {
    var rescue, start, o := step.kind.rescue, In(at, Rescue, 0), Steered(root, StepTarget(step, at));
    DefersEscape(root, rescue, start, f);
    CleanupSees(step, at, o, f);
    EscapesMore(ExecDefers(rescue, start, o, f).seen, TryCleanup(step, at, o, f).seen);
  }

  lemma CleanupSees(step: Step, at: Site, o: Oracle, f: Frame)
    requires step.kind.TryCatch?
    ensures ExecDefers(step.kind.rescue, In(at, Rescue, 0), o, f).seen <= TryCleanup(step, at, o, f).seen
  {
  }

  lemma {:induction false} RescueLeavesRecords(steps: seq<Step>)
    requires Unchecked(steps) || UncheckedDefers(steps)
    ensures SkipRecords(steps) != []
    decreases steps
  {
    if StepUnchecked(steps[0]) || StepUncheckedDefers(steps[0]) {
      StepLeavesRecords(steps[0]);
    } else {
      RescueLeavesRecords(steps[1..]);
    }
  }

  lemma {:induction false} StepLeavesRecords(step: Step)
    requires StepUnchecked(step) || StepUncheckedDefers(step)
    ensures SkipStepRecords(step) != []
    decreases step
  {
    match step.kind
    case Conditional(body) => RescueLeavesRecords(body);
    case Scoped(body) => RescueLeavesRecords(body);
    case Executor(body, finale) => RescueLeavesRecords(if Unchecked(finale) then finale else body);
    case Concurrent(body, _, _) => RescueLeavesRecords(body);
    case _ =>
  }

  ghost predicate EscapesOnce(done: map<nat, Result>, k: nat) {
    k in done ==> Escapes(done[k].seen)
  }

  lemma {:induction false} BranchEscapes(root: Tree, step: Step, at: Site, f: Frame, part: seq<Start>)
    requires at.In? && StepAt(root, at) == Some(step) && StepUnchecked(step) && step.kind.Concurrent?
    requires GroupAt(root, false, step.kind, at, part) && Feasible(step.kind, part)
    requires Fit(root, false, at, f, SkipRecords(step.kind.body) != [])
    ensures EscapesOnce(RunBranches(step.kind, at, Steered(root, StepTarget(step, at)), f, Branches(part)).done,
                        UncheckedIndex(step.kind.body))
    decreases step, 0, |part| + 2
  {
    if part != [] {
      var w := StepTarget(step, at);
      var front, start := LastOfPlan(root, false, step.kind, at, part);
      BranchEscapes(root, step, at, f, front);
      SmoothBranches(root, false, FailsFor(w), step.kind, at, front, f);
      BranchEscapesNext(root, step, at, f, front, start);
    }
  }

  lemma {:induction false} BranchEscapesNext(root: Tree, step: Step, at: Site, f: Frame, front: seq<Start>,
                                             start: Start)
    requires at.In? && StepAt(root, at) == Some(step) && StepUnchecked(step) && step.kind.Concurrent?
    requires GroupAt(root, false, step.kind, at, [start]) && MayStart(step.kind, PlanFates(front), start.branch)
    requires
      var before := RunBranches(step.kind, at, Steered(root, StepTarget(step, at)), f, Branches(front));
      && EscapesOnce(before.done, UncheckedIndex(step.kind.body))
      && Alive(before.context) && FatesOf(before.done) == PlanFates(front)
    ensures
      var all := RunBranches(step.kind, at, Steered(root, StepTarget(step, at)), f, Branches(front + [start]));
      EscapesOnce(all.done, UncheckedIndex(step.kind.body))
    decreases step, 0, 1
  {
    var o := Steered(root, StepTarget(step, at));
    RunNext(step.kind, at, o, f, front, start);
    if start.branch == UncheckedIndex(step.kind.body) {
      NextEscapes(root, step, at, f, RunBranches(step.kind, at, o, f, Branches(front)));
    }
  }

  lemma {:induction false} NextEscapes(root: Tree, step: Step, at: Site, f: Frame, before: GroupRun)
    requires at.In? && StepAt(root, at) == Some(step) && StepUnchecked(step) && step.kind.Concurrent?
    requires GroupsAcyclic(step.kind.body) && Alive(before.context)
    ensures
      var k := UncheckedIndex(step.kind.body);
      Escapes(ExecStep(step.kind.body[k], In(at, Branch, k), Steered(root, StepTarget(step, at)),
                       BranchFrame(step.kind.body, f, before, k)).seen)
    decreases step, 0, 0
  {
    var k := UncheckedIndex(step.kind.body);
    GroupsAcyclicAt(step.kind.body, k);
    StepEscapes(root, step.kind.body[k], In(at, Branch, k), BranchFrame(step.kind.body, f, before, k));
  }

  lemma {:induction false} GroupEscapes(root: Tree, step: Step, at: Site, f: Frame)
    requires at.In? && StepAt(root, at) == Some(step) && StepGroupsAcyclic(step) && Fresh(f)
    requires StepUnchecked(step) && step.kind.Concurrent?
    ensures Escapes(ExecGroup(step, at, Steered(root, StepTarget(step, at)), f).seen)
    decreases step, 1
  {
    var w, group, k := StepTarget(step, at), step.kind, UncheckedIndex(step.kind.body);
    var o, plan := Steered(root, w), PlanOf(group, false);
    PlanChosen(group, false);
    PlanIsFollowed(root, false, step, at);
    var order := Branches(plan);
    assert o(at).order == order;
    SmoothBranches(root, false, FailsFor(w), group, at, plan, f);
    BranchEscapes(root, step, at, f, plan);
    var done := RunBranches(group, at, o, f, order).done;
    assert k in FatesOf(done);
    EscapesMore(done[k].seen, ExecGroup(step, at, o, f).seen);
  }

  // ---------------------------------------------------------------------------------------
  // The exact condition

  /** Whatever happens in a run, no step sees an id that its scope in the validator lacks. */
  ghost predicate AlwaysCovered(steps: seq<Step>, finale: seq<Step>, ids: set<string>) {
    forall o: Oracle, inherits: bool ::
      Covered(ValidateWorkflow(steps, finale, ids).points, ExecWorkflow(steps, finale, o, ids, inherits).seen)
  }

  lemma EscapeIsNotCovered(points: set<Observation>, seen: set<Observation>)
    requires NoneHidden(points) && Escapes(seen)
    ensures !Covered(points, seen)
  {
    var x :| x in seen && Hidden(x.at);
    assert !CoveredAt(points, x);
  }

  lemma WorkflowHidesNothing(steps: seq<Step>, finale: seq<Step>, ids: set<string>)
    ensures NoneHidden(ValidateWorkflow(steps, finale, ids).points)
  {
    var start := In(Workflow, Main, 0);
    var v := ValidateSequence(steps, start, ids);
    SequenceHidesNothing(steps, start, ids);
    DefersHideNothing(steps, start, v.scope);
    SequenceHidesNothing(finale, In(Workflow, Finally, 0), ValidateDefers(steps, start, v.scope).scope);
  }

  lemma WorkflowEscapes(steps: seq<Step>, finale: seq<Step>, ids: set<string>) returns (o: Oracle)
    requires WorkflowUnchecked(steps, finale) && GroupsAcyclic(steps) && GroupsAcyclic(finale)
    ensures Escapes(ExecWorkflow(steps, finale, o, ids, false).seen)
  {
    var root, start, last := Tree(steps, finale), In(Workflow, Main, 0), In(Workflow, Finally, 0);
    assert Stands(root, steps, start) && Stands(root, finale, last);
    var w := if Unchecked(steps) then Target(steps, start)
             else if UncheckedDefers(steps) then DefersTarget(steps, start) else Target(finale, last);
    o := Steered(root, w);
    var f := Frame(ids, false, {}, Root(false));
    var main := ExecSequence(steps, start, o, f);
    NothingDoomed(root, start);
    SmoothSequence(root, false, FailsFor(w), steps, start, f);
    var all := ExecWorkflow(steps, finale, o, ids, false).seen;
    if Unchecked(steps) {
      SequenceEscapes(root, steps, start, f);
      EscapesMore(main.seen, all);
    } else {
      EndingEscapes(root, Cleaning(main.frame));
      EscapesMore(Ending(steps, finale, o, Cleaning(main.frame)).seen, all);
    }
  }

  lemma EndingEscapes(root: Tree, f: Frame)
    requires GroupsAcyclic(root.main) && GroupsAcyclic(root.finale) && Fresh(f) && Owners(root.main) <= f.registered
    requires UncheckedDefers(root.main) || Unchecked(root.finale)
    ensures
      var start, last := In(Workflow, Main, 0), In(Workflow, Finally, 0);
      var w := if UncheckedDefers(root.main) then DefersTarget(root.main, start) else Target(root.finale, last);
      Escapes(Ending(root.main, root.finale, Steered(root, w), f).seen)
  {
    var start, last := In(Workflow, Main, 0), In(Workflow, Finally, 0);
    var w := if UncheckedDefers(root.main) then DefersTarget(root.main, start) else Target(root.finale, last);
    var o := Steered(root, w);
    assert Stands(root, root.main, start) && Stands(root, root.finale, last);
    var all, defers := Ending(root.main, root.finale, o, f).seen, ExecDefers(root.main, start, o, f);
    SmoothDefers(root, false, FailsFor(w), root.main, start, f);
    if UncheckedDefers(root.main) {
      DefersEscape(root, root.main, start, f);
      EscapesMore(defers.seen, all);
    } else {
      EachEscapes(root, root.finale, last, defers.frame);
      EscapesMore(ExecEach(root.finale, last, o, defers.frame).seen, all);
    }
  }

  /** The validator's scopes cover every run exactly when no attempt hands cleanup to a defer scope. */
  lemma AlwaysCoveredIff(steps: seq<Step>, finale: seq<Step>, ids: set<string>)
    requires GroupsAcyclic(steps) && GroupsAcyclic(finale)
    ensures AlwaysCovered(steps, finale, ids) <==> !WorkflowUnchecked(steps, finale)
  {
    if WorkflowUnchecked(steps, finale) {
      var o := WorkflowEscapes(steps, finale, ids);
      WorkflowHidesNothing(steps, finale, ids);
      EscapeIsNotCovered(ValidateWorkflow(steps, finale, ids).points, ExecWorkflow(steps, finale, o, ids, false).seen);
    } else {
      forall o: Oracle, inherits: bool
        ensures Covered(ValidateWorkflow(steps, finale, ids).points, ExecWorkflow(steps, finale, o, ids, inherits).seen)
      {
        WorkflowCovered(steps, finale, o, ids, inherits);
      }
    }
  }

  // ---------------------------------------------------------------------------------------
  // An id that a run supplies and the validator rejects

  function Plain(id: string, deferred: seq<Step>): Step {
    Step(Declaration(id, [], []), Leaf(deferred, false))
  }

  /** An attempt `b` with cleanup `x`, declared after a step `a` with cleanup `y`. */
  function LateAttempt(): seq<Step> {
    [Plain("a", [Plain("y", [])]), Step(Declaration("b", [], []), Attempt([Plain("w", [])], [Plain("x", [])]))]
  }

  /** The cleanup `x` runs before `y`, so that `y` could refer to it; the scope that `y` is validated
      against has no `x`. */
  lemma SuppliedIdRejected()
    ensures
      var start, y := In(Workflow, Main, 0), In(In(Workflow, Main, 0), Deferred, 0);
      && (exists o: Oracle :: exists s ::
            s in ExecWorkflow(LateAttempt(), [], o, {}, false).seen && s.at == y && "x" in s.ids)
      && (forall p :: p in ValidateWorkflow(LateAttempt(), [], {}).points && p.at == y ==> "x" !in p.ids)
  {
    var steps, start, y := LateAttempt(), In(Workflow, Main, 0), In(In(Workflow, Main, 0), Deferred, 0);
    var o := Smooth(Tree(steps, []), false, {});
    RunSuppliesX(o);
    ScopeLacksX();
  }

  lemma PlainIsAcyclic(id: string)
    ensures GroupsAcyclic([Plain(id, [])])
  {
    assert [Plain(id, [])][1..] == [] && StepGroupsAcyclic(Plain(id, []));
  }

  lemma LateAttemptIsAcyclic()
    ensures GroupsAcyclic(LateAttempt())
    ensures Owners(LateAttempt()) == {"a", "b"}
  {
    var steps := LateAttempt();
    PlainIsAcyclic("y");
    PlainIsAcyclic("w");
    PlainIsAcyclic("x");
    assert steps[1..][1..] == [];
    assert StepGroupsAcyclic(steps[0]) && StepGroupsAcyclic(steps[1]) && GroupsAcyclic(steps[1..]);
    assert Owners(steps[1..]) == {"b"} + Owners([]);
  }

  lemma LateAttemptRegisters(o: Oracle)
    requires o == Smooth(Tree(LateAttempt(), []), false, {})
    ensures var r := ExecSequence(LateAttempt(), In(Workflow, Main, 0), o, Frame({}, false, {}, Root(false)));
      !r.frame.returning && {"a", "b"} <= r.frame.registered
  {
    var steps, start := LateAttempt(), In(Workflow, Main, 0);
    LateAttemptIsAcyclic();
    assert Stands(Tree(steps, []), steps, start);
    NothingDoomed(Tree(steps, []), start);
    SmoothSequence(Tree(steps, []), false, {}, steps, start, Frame({}, false, {}, Root(false)));
  }

  lemma DefersOfTwo(a: Step, b: Step, at: Site, o: Oracle, f: Frame)
    requires at.In?
    ensures
      var later := ExecStepDefers(b, Next(at), o, f);
      ExecStepDefers(a, at, o, later.frame).seen <= ExecDefers([a, b], at, o, f).seen
  {
    assert [a, b][1..] == [b] && [b][1..] == [];
    assert ExecDefers([b][1..], Next(Next(at)), o, f) == Result(f, [], {}, OK);
    var later := ExecDefers([b], Next(at), o, f);
    assert later.frame == ExecStepDefers(b, Next(at), o, f).frame;
    assert ExecDefers([a, b], at, o, f).seen == later.seen + ExecStepDefers(a, at, o, later.frame).seen;
  }

  lemma SeenFirst(id: string, at: Site, o: Oracle, f: Frame)
    requires at.In?
    ensures Observation(Static(at), f.ids) in ExecEach([Plain(id, [])], at, o, f).seen
  {
    assert See(at, f.ids) <= ExecStep(Plain(id, []), at, o, f).seen;
  }

  lemma LateAttemptCleansUp(o: Oracle, f: Frame)
    requires o == Smooth(Tree(LateAttempt(), []), false, {})
    requires "a" in f.registered && "b" in f.registered && f.context == CLEANUP
    ensures var y := In(In(Workflow, Main, 0), Deferred, 0);
      exists s :: s in ExecDefers(LateAttempt(), In(Workflow, Main, 0), o, f).seen && s.at == y && "x" in s.ids
  {
    var a, b, start := LateAttempt()[0], LateAttempt()[1], In(Workflow, Main, 0);
    var place, later := In(Next(start), AttemptDeferred, 0), ExecStepDefers(b, Next(start), o, f);
    SmoothCleanup(o, place);
    XPublished(o, place, f);
    AttemptCleansUp(b, o, f);
    CleansUpInTurn(a, b, o, f, later);
  }

  lemma SmoothCleanup(o: Oracle, place: Site)
    requires o == Smooth(Tree(LateAttempt(), []), false, {})
    requires place == In(Next(In(Workflow, Main, 0)), AttemptDeferred, 0)
    ensures o(place).before == OK && o(place).ends == 0 && o(place).during == 0 && o(place).error == OK && o(place).run
  {
    assert StepAt(Tree(LateAttempt(), []), place) == Some(Plain("x", []));
  }

  lemma AttemptCleansUp(b: Step, o: Oracle, f: Frame)
    requires b == LateAttempt()[1] && "b" in f.registered
    ensures ExecStepDefers(b, Next(In(Workflow, Main, 0)), o, f) ==
      ExecEach([Plain("x", [])], In(Next(In(Workflow, Main, 0)), AttemptDeferred, 0), o, f)
  {
  }

  lemma CleansUpInTurn(a: Step, b: Step, o: Oracle, f: Frame, later: Result)
    requires a == LateAttempt()[0] && b == LateAttempt()[1] && "a" in f.registered
    requires later == ExecStepDefers(b, Next(In(Workflow, Main, 0)), o, f)
    requires later.frame == f.(ids := f.ids + {"x"})
    ensures var y := In(In(Workflow, Main, 0), Deferred, 0);
      exists s :: s in ExecDefers(LateAttempt(), In(Workflow, Main, 0), o, f).seen && s.at == y && "x" in s.ids
  {
    SeenFirst("y", In(In(Workflow, Main, 0), Deferred, 0), o, later.frame);
    DefersOfTwo(a, b, In(Workflow, Main, 0), o, f);
  }

  lemma RunSuppliesX(o: Oracle)
    requires o == Smooth(Tree(LateAttempt(), []), false, {})
    ensures exists s ::
      s in ExecWorkflow(LateAttempt(), [], o, {}, false).seen &&
      s.at == In(In(Workflow, Main, 0), Deferred, 0) && "x" in s.ids
  {
    var start := In(Workflow, Main, 0);
    LateAttemptRegisters(o);
    var main := ExecSequence(LateAttempt(), start, o, Frame({}, false, {}, Root(false)));
    var inner := Cleaning(main.frame);
    LateAttemptCleansUp(o, inner);
    assert ExecDefers(LateAttempt(), start, o, inner).seen <= ExecWorkflow(LateAttempt(), [], o, {}, false).seen;
  }

  lemma XPublished(o: Oracle, at: Site, f: Frame)
    requires at.In? && o(at).before == OK && o(at).run && o(at).error == OK && o(at).ends == 0 && o(at).during == 0
    requires f.context == CLEANUP
    ensures ExecEach([Plain("x", [])], at, o, f).frame == f.(ids := f.ids + {"x"})
  {
    assert [Plain("x", [])][1..] == [] && Turn(CLEANUP, 0) == CLEANUP;
  }

  /** What is in scope after the main steps, which declare no `x`. */
  lemma MainScope()
    ensures ValidateSequence(LateAttempt(), In(Workflow, Main, 0), {}).scope == {"a", "b"}
  {
    var steps := LateAttempt();
    assert steps[1..][1..] == [] && [Plain("w", [])][1..] == [];
  }

  lemma MainPoints()
    ensures forall p :: p in ValidateSequence(LateAttempt(), In(Workflow, Main, 0), {}).points ==>
      p.at != In(In(Workflow, Main, 0), Deferred, 0)
  {
    var steps := LateAttempt();
    assert steps[1..][1..] == [] && [Plain("w", [])][1..] == [];
  }

  lemma CleanupPoints(scope: set<string>)
    ensures ValidateDefers(LateAttempt(), In(Workflow, Main, 0), scope).points ==
      {Observation(In(In(Workflow, Main, 0), Deferred, 0), scope)}
  {
    var steps := LateAttempt();
    assert steps[1..][1..] == [] && [Plain("y", [])][1..] == [];
    assert ValidateDefers(steps[1..], Next(In(Workflow, Main, 0)), scope) == Checked(scope, {});
  }

  lemma ScopeLacksX()
    ensures forall p ::
      p in ValidateWorkflow(LateAttempt(), [], {}).points && p.at == In(In(Workflow, Main, 0), Deferred, 0) ==>
        "x" !in p.ids
  {
    MainScope();
    MainPoints();
    CleanupPoints({"a", "b"});
  }
}
