/** The interpreter as the engine runs it: loops over steps that change the run's state and append to
    its records in place. Each method does exactly what the interpreter's definition says, so that a whole
    run leaves the records it should and sees no id its scope lacks. */
module EngineRun {
  import opened StepTree
  import opened Interpreter
  import opened ReferenceScope
  import opened ServiceScopes
  import opened SmoothRun
  import StepAccounting
  import ScopeCoverage

  /** What remains after one more result. */
  lemma OneLess(before: seq<Record>, saw: set<Observation>, all: Result, records: seq<Record>, seen: set<Observation>,
                r: Result, rest: Result)
    requires before + all.records == records + (r.records + rest.records)
    requires saw + all.seen == seen + (r.seen + rest.seen)
    ensures before + all.records == records + r.records + rest.records
    ensures saw + all.seen == seen + r.seen + rest.seen
  {
  }

  lemma Together(before: seq<Record>, a: seq<Record>, b: seq<Record>, saw: set<Observation>, s: set<Observation>,
                 t: set<Observation>)
    ensures before + a + b == before + (a + b) && saw + s + t == saw + (s + t)
  {
  }

  lemma EachFrom(steps: seq<Step>, k: nat, at: Site, o: Oracle, f: Frame)
    requires at.In? && k < |steps|
    ensures
      var r := ExecStep(steps[k], Offset(at, k), o, f);
      ExecEach(steps[k..], Offset(at, k), o, f) == Both(r, ExecEach(steps[k + 1..], Offset(at, k + 1), o, r.frame))
  {
    assert steps[k..][1..] == steps[k + 1..] && Next(Offset(at, k)) == Offset(at, k + 1);
  }

  lemma DefersFrom(steps: seq<Step>, k: nat, at: Site, o: Oracle, f: Frame)
    requires at.In? && k < |steps|
    ensures
      var later := ExecDefers(steps[k + 1..], Offset(at, k + 1), o, f);
      ExecDefers(steps[k..], Offset(at, k), o, f) ==
        Both(later, ExecStepDefers(steps[k], Offset(at, k), o, later.frame))
  {
    assert steps[k..][1..] == steps[k + 1..] && Next(Offset(at, k)) == Offset(at, k + 1);
  }

  lemma SequenceFrom(steps: seq<Step>, k: nat, at: Site, o: Oracle, f: Frame)
    requires at.In? && k < |steps|
    ensures
      var r := ExecStep(steps[k], Offset(at, k), o, f);
      ExecSequence(steps[k..], Offset(at, k), o, f) ==
        if r.err != OK then r
        else if EndsSequence(steps[k].kind, o(Offset(at, k)), r.frame) then
          r.(records := r.records + SkipRecords(steps[k + 1..]))
        else Append(r, ExecSequence(steps[k + 1..], Offset(at, k + 1), o, r.frame))
  {
    assert steps[k..][1..] == steps[k + 1..] && Next(Offset(at, k)) == Offset(at, k + 1);
  }

  lemma RescueStops(steps: seq<Step>, k: nat, at: Site, o: Oracle, f: Frame)
    requires at.In? && k < |steps| && StopsRescue(ExecStep(steps[k], Offset(at, k), o, f), o(Offset(at, k)))
    ensures var r := ExecStep(steps[k], Offset(at, k), o, f);
      ExecRescue(steps[k..], Offset(at, k), o, f) == r.(records := r.records + SkipRecords(steps[k + 1..]))
  {
    assert steps[k..][1..] == steps[k + 1..];
  }

  lemma RescueGoesOn(steps: seq<Step>, k: nat, at: Site, o: Oracle, f: Frame)
    requires at.In? && k < |steps| && !StopsRescue(ExecStep(steps[k], Offset(at, k), o, f), o(Offset(at, k)))
    ensures var r := ExecStep(steps[k], Offset(at, k), o, f);
      ExecRescue(steps[k..], Offset(at, k), o, f) == Both(r, ExecRescue(steps[k + 1..], Offset(at, k + 1), o, r.frame))
  {
    assert steps[k..][1..] == steps[k + 1..] && Next(Offset(at, k)) == Offset(at, k + 1);
  }

  lemma {:induction false} MonitorsLeaveNoRecords(monitors: seq<Step>, at: Site, o: Oracle, f: Frame)
    requires at.In?
    ensures ExecMonitors(monitors, at, o, f).records == [] && ExecMonitors(monitors, at, o, f).err == OK
    decreases |monitors|
  {
    if monitors != [] {
      MonitorsLeaveNoRecords(monitors[1..], Next(at), o, Keep(f, ExecStep(monitors[0], at, o, f).frame));
    }
  }

  class Run {
    var ids: set<string>
    var returning: bool
    var registered: set<string>
    var context: Context
    var records: seq<Record>
    ghost var seen: set<Observation>
    const o: Oracle
    const groups: (Step, Site, Frame) -> Result

    function Now(): Frame
      reads this
    {
      Frame(ids, returning, registered, context)
    }

    /** Concurrent groups are run by their own scheduler. */
    ghost predicate Valid() {
      forall step: Step, at: Site, f: Frame :: step.kind.Concurrent? ==>
        groups(step, at, f) == ExecGroup(step, at, o, f)
    }

    constructor (f: Frame, o: Oracle, groups: (Step, Site, Frame) -> Result)
      ensures Now() == f && records == [] && seen == {}
      ensures this.o == o && this.groups == groups
    {
      ids, returning, registered, context := f.ids, f.returning, f.registered, f.context;
      records, seen := [], {};
      this.o, this.groups := o, groups;
    }

    /** From the given state on, exactly this has happened. */
    ghost predicate Did(before: seq<Record>, saw: set<Observation>, r: Result, err: Err)
      reads this
    {
      Now() == r.frame && records == before + r.records && seen == saw + r.seen && err == r.err
    }

    /** What has happened and what remains make up all of it, apart from errors. */
    ghost predicate Remains(before: seq<Record>, saw: set<Observation>, all: Result, rest: Result)
      reads this
    {
      all.frame == rest.frame && before + all.records == records + rest.records && saw + all.seen == seen + rest.seen
    }

    // ---------------------------------------------------------------------------------------
    // Recording

    method RecordStep(step: Step, status: RecordStatus)
      modifies this`records
      ensures records == old(records) + [Record(step.decl.id, status)]
    {
      records := records + [Record(step.decl.id, status)];
    }

    /** Records every leaf of the steps as skipped, and an executor block's own cleanup with it. */
    method RecordSkippedSteps(steps: seq<Step>)
      modifies this`records
      ensures records == old(records) + SkipRecords(steps)
      decreases steps, 0
    {
      for k := 0 to |steps|
        invariant records == old(records) + SkipRecords(steps[..k])
      {
        StepAccounting.SkipRecordsEnd(steps, k + 1);
        RecordSkippedStep(steps[k]);
      }
      assert steps[..|steps|] == steps;
    }

    method RecordSkippedStep(step: Step)
      modifies this`records
      ensures records == old(records) + SkipStepRecords(step)
      decreases step, 1
    {
      match step.kind
      case Executor(body, finale) =>
        RecordSkippedSteps(body);
        RecordSkippedDefers(body);
        RecordSkippedSteps(finale);
      case Conditional(body) => RecordSkippedSteps(body);
      case Scoped(body) => RecordSkippedSteps(body);
      case Concurrent(body, _, _) => RecordSkippedSteps(body);
      case Return =>
      case _ => RecordStep(step, SkippedStep);
    }

    method RecordSkippedDefers(steps: seq<Step>)
      modifies this`records
      ensures records == old(records) + SkipDeferRecords(steps)
      decreases steps, 0
    {
      var k := |steps|;
      while k > 0
        invariant 0 <= k <= |steps|
        invariant records == old(records) + SkipDeferRecords(steps[k..])
      {
        k := k - 1;
        assert steps[k..][1..] == steps[k + 1..];
        RecordSkippedStepDefers(steps[k]);
      }
      assert steps[0..] == steps;
    }

    method RecordSkippedStepDefers(step: Step)
      modifies this`records
      ensures records == old(records) + SkipStepDeferRecords(step)
      decreases step, 0
    {
      match step.kind
      case Conditional(body) => RecordSkippedDefers(body);
      case Scoped(body) => RecordSkippedDefers(body);
      case Leaf(deferred, _) => RecordSkippedSteps(deferred);
      case Attempt(_, deferred) => RecordSkippedSteps(deferred);
      case _ =>
    }

    // ---------------------------------------------------------------------------------------
    // Sequences and steps

    /** A sequence leaves no more records than skipping it would, and as many if it returns no error, provided
        no context ended in the run or its scope has nothing to lose. */
    method ExecuteSequence(steps: seq<Step>, at: Site) returns (err: Err)
      requires Valid() && at.In?
      modifies this
      ensures Did(old(records), old(seen), ExecSequence(steps, at, o, old(Now())), err)
      ensures |records| <= |old(records)| + |SkipRecords(steps)|
      ensures err == OK && StepAccounting.Spared(o, old(context), context, steps) ==>
        |records| == |old(records)| + |SkipRecords(steps)|
      decreases steps, 1
    {
      StepAccounting.SparedRecords(steps, at, o, Now());
      ghost var before, saw, all := records, seen, ExecSequence(steps, at, o, Now());
      assert steps[0..] == steps && Offset(at, 0) == at;
      for k := 0 to |steps|
        invariant Remains(before, saw, all, ExecSequence(steps[k..], Offset(at, k), o, Now()))
        invariant all.err == ExecSequence(steps[k..], Offset(at, k), o, Now()).err
      {
        var ended;
        err, ended := ExecuteNext(steps, at, k, before, saw, all);
        if ended {
          return;
        }
      }
      err := OK;
    }

    /** One step of a sequence; an error or a return that fired ends it. */
    method ExecuteNext(steps: seq<Step>, at: Site, k: nat, ghost before: seq<Record>, ghost saw: set<Observation>,
                       ghost all: Result)
      returns (err: Err, ended: bool)
      requires Valid() && at.In? && k < |steps|
      requires Remains(before, saw, all, ExecSequence(steps[k..], Offset(at, k), o, Now()))
      requires all.err == ExecSequence(steps[k..], Offset(at, k), o, Now()).err
      modifies this
      ensures ended ==> Did(before, saw, all, err)
      ensures !ended ==> Remains(before, saw, all, ExecSequence(steps[k + 1..], Offset(at, k + 1), o, Now()))
      ensures !ended ==> all.err == ExecSequence(steps[k + 1..], Offset(at, k + 1), o, Now()).err
      decreases steps, 0
    {
      SequenceFrom(steps, k, at, o, Now());
      ghost var r := ExecStep(steps[k], Offset(at, k), o, Now());
      err := ExecuteStep(steps[k], Offset(at, k));
      ended := err != OK;
      if !ended {
        if EndsSequence(steps[k].kind, o(Offset(at, k)), Now()) {
          RecordSkippedSteps(steps[k + 1..]);
          ended := true;
        } else {
          OneLess(before, saw, all, old(records), old(seen), r,
                  ExecSequence(steps[k + 1..], Offset(at, k + 1), o, Now()));
        }
      }
    }

    method ExecuteStep(step: Step, at: Site) returns (err: Err)
      requires Valid() && at.In?
      modifies this
      ensures Did(old(records), old(seen), ExecStep(step, at, o, old(Now())), err)
      decreases step, 8
    {
      seen := seen + See(at, ids);
      context := Turn(context, o(at).ends);
      if context.Over() {
        err := CANCELED;
      } else if o(at).before != OK {
        err := o(at).before;
        if KeepsRecord(step.kind) {
          RecordStep(step, FailedStep);
        }
      } else if KeepsRecord(step.kind) {
        err := ExecuteRecorded(step, at);
      } else {
        err := ExecuteBlock(step, at);
      }
    }

    /** Blocks leave no record of their own. */
    method ExecuteBlock(step: Step, at: Site) returns (err: Err)
      requires Valid() && at.In? && !KeepsRecord(step.kind)
      modifies this
      ensures Did(old(records), old(seen), ExecBlock(step, at, o, old(Now())), err)
      decreases step, 6
    {
      var c := o(at);
      match step.kind
      case Return =>
        err := OK;
        if c.run {
          returning := true;
        }
      case Conditional(body) =>
        if c.run {
          err := ExecuteSequence(body, In(at, Body, 0));
        } else {
          RecordSkippedSteps(body);
          err := OK;
        }
      case Scoped(body) => err := ExecuteSequence(body, In(at, Body, 0));
      case Executor(body, finale) =>
        var inner := ExecuteScope(step, at);
        err := Join(inner, c.late);
      case Concurrent(_, _, _) =>
        var r := groups(step, at, Now());
        ids, returning, registered, context := r.frame.ids, r.frame.returning, r.frame.registered, r.frame.context;
        records := records + r.records;
        seen := seen + r.seen;
        err := r.err;
    }

    /** Leaves, worktrees and controls keep a record. */
    method ExecuteRecorded(step: Step, at: Site) returns (err: Err)
      requires Valid() && at.In? && KeepsRecord(step.kind)
      modifies this
      ensures Did(old(records), old(seen), ExecRecorded(step, at, o, old(Now())), err)
      decreases step, 7
    {
      var c := o(at);
      if step.kind.Worktree? {
        err := ExecuteWorktree(step, at);
      } else if !c.run {
        RecordStep(step, SkippedStep);
        err := OK;
      } else if step.kind.Once? && c.replayed {
        ids := ids + {step.decl.id};
        RecordStep(step, SkippedStep);
        err := OK;
      } else {
        err := ExecutePrivate(step, at);
        FinishStep(step, c, err);
      }
    }

    /** The end of a step that keeps a record. */
    method FinishStep(step: Step, c: Choice, err: Err)
      modifies this
      ensures seen == old(seen)
      ensures records == old(records) + [Record(step.decl.id, if err == OK then Succeeded else FailedStep)]
      ensures
        var after := old(Now()).(context := Turn(old(context), c.during));
        Now() ==
          if err != OK then after else Register(Publish(after, step.decl.id), step.decl.id, DeferredBy(step.kind))
    {
      context := Turn(context, c.during);
      if err == OK {
        ids := ids + {step.decl.id};
        if |DeferredBy(step.kind)| > 0 {
          registered := registered + {step.decl.id};
        }
        RecordStep(step, Succeeded);
      } else {
        RecordStep(step, FailedStep);
      }
    }

    // ---------------------------------------------------------------------------------------
    // Scopes with cleanup

    /** The body in defer and service scopes of its own, its services joined, and its cleanup, during which a
        return does not count as fired. */
    method ExecuteScope(step: Step, at: Site) returns (err: Err)
      requires Valid() && (step.kind.Executor? || step.kind.Worktree?)
      modifies this
      ensures Did(old(records), old(seen), ExecScope(step, at, o, old(Now())), err)
      decreases step, 3
    {
      ghost var f := Now();
      ghost var main := ExecSequence(step.kind.body, BodyAt(step, at), o, EnterScope(f));
      ghost var after := ScopeCleanup(step, at, o, Cleaning(main.frame));
      ScopeIs(step, at, o, f, main, after);
      err := ExecuteScopeParts(step, at, main, after);
    }

    method ExecuteScopeParts(step: Step, at: Site, ghost main: Result, ghost after: Result) returns (err: Err)
      requires Valid() && (step.kind.Executor? || step.kind.Worktree?)
      requires main == ExecSequence(step.kind.body, BodyAt(step, at), o, EnterScope(Now()))
      requires after == ScopeCleanup(step, at, o, Cleaning(main.frame))
      modifies this
      ensures Did(old(records), old(seen), ScopeResult(old(Now()), main, after, o(at).service), err)
      decreases step, 2
    {
      var outside, owners := context, registered;
      registered, context := {}, Nest(context);
      var foreground, wasReturning, ended := ExecuteBody(step, at, main);
      ghost var middle, saw := records, seen;
      var cleanup := ExecuteCleanup(step, at);
      Together(old(records), main.records, after.records, old(seen), main.seen, after.seen);
      assert records == middle + after.records && seen == saw + after.seen;
      returning, registered, context := wasReturning, owners, Leave(outside, ended);
      err := Join(JoinBackground(foreground, o(at).service), cleanup);
    }

    /** The body of a scope, up to the state its cleanup starts from. */
    method ExecuteBody(step: Step, at: Site, ghost main: Result)
      returns (foreground: Err, wasReturning: bool, ended: Context)
      requires Valid() && (step.kind.Executor? || step.kind.Worktree?)
      requires main == ExecSequence(step.kind.body, BodyAt(step, at), o, Now())
      modifies this
      ensures Now() == Cleaning(main.frame) && foreground == Foreground(main)
      ensures wasReturning == main.frame.returning && ended == main.frame.context
      ensures records == old(records) + main.records && seen == old(seen) + main.seen
      decreases step, 1
    {
      foreground := ExecuteSequence(step.kind.body, BodyAt(step, at));
      wasReturning, ended := returning, context;
      if context.Ended() && CancellationOnly(foreground) {
        foreground := OK;
      }
      returning, context := false, CLEANUP;
    }

    method ExecuteCleanup(step: Step, at: Site) returns (err: Err)
      requires Valid() && (step.kind.Executor? || step.kind.Worktree?)
      modifies this
      ensures Did(old(records), old(seen), ScopeCleanup(step, at, o, old(Now())), err)
      decreases step, 0
    {
      err := ExecuteDefers(step.kind.body, BodyAt(step, at));
      if step.kind.Executor? {
        var last := ExecuteEach(step.kind.finale, In(at, ExecutorFinally, 0));
        err := Join(err, last);
      }
    }

    method ExecuteWorktree(step: Step, at: Site) returns (err: Err)
      requires Valid() && at.In? && step.kind.Worktree?
      modifies this
      ensures Did(old(records), old(seen), ExecRecorded(step, at, o, old(Now())), err)
      decreases step, 4
    {
      var c, outside := o(at), records;
      var inner := ExecuteScope(step, at);
      records := outside;
      err := Join(inner, c.late);
      if err == OK {
        ids := ids + {step.decl.id};
        RecordStep(step, Succeeded);
      } else {
        RecordStep(step, FailedStep);
      }
    }

    /** Steps run one by one, whatever becomes of the others. */
    method ExecuteEach(steps: seq<Step>, at: Site) returns (err: Err)
      requires Valid() && at.In?
      modifies this
      ensures Did(old(records), old(seen), ExecEach(steps, at, o, old(Now())), err)
      decreases steps, 1
    {
      err := OK;
      ghost var before, saw, all := records, seen, ExecEach(steps, at, o, Now());
      assert steps[0..] == steps && Offset(at, 0) == at;
      for k := 0 to |steps|
        invariant Remains(before, saw, all, ExecEach(steps[k..], Offset(at, k), o, Now()))
        invariant all.err == Join(err, ExecEach(steps[k..], Offset(at, k), o, Now()).err)
      {
        err := ExecuteNextEach(steps, at, k, err, before, saw, all);
      }
    }

    method ExecuteNextEach(steps: seq<Step>, at: Site, k: nat, soFar: Err, ghost before: seq<Record>,
                           ghost saw: set<Observation>,
                           ghost all: Result)
      returns (err: Err)
      requires Valid() && at.In? && k < |steps|
      requires Remains(before, saw, all, ExecEach(steps[k..], Offset(at, k), o, Now()))
      requires all.err == Join(soFar, ExecEach(steps[k..], Offset(at, k), o, Now()).err)
      modifies this
      ensures Remains(before, saw, all, ExecEach(steps[k + 1..], Offset(at, k + 1), o, Now()))
      ensures all.err == Join(err, ExecEach(steps[k + 1..], Offset(at, k + 1), o, Now()).err)
      decreases steps, 0
    {
      EachFrom(steps, k, at, o, Now());
      ghost var r := ExecStep(steps[k], Offset(at, k), o, Now());
      var one := ExecuteStep(steps[k], Offset(at, k));
      err := Join(soFar, one);
      OneLess(before, saw, all, old(records), old(seen), r, ExecEach(steps[k + 1..], Offset(at, k + 1), o, Now()));
    }

    /** The deferred cleanup of a scope, last declared first. */
    method ExecuteDefers(steps: seq<Step>, at: Site) returns (err: Err)
      requires Valid() && at.In?
      modifies this
      ensures Did(old(records), old(seen), ExecDefers(steps, at, o, old(Now())), err)
      decreases steps, 0
    {
      err := OK;
      var k := |steps|;
      while k > 0
        invariant 0 <= k <= |steps|
        invariant Did(old(records), old(seen), ExecDefers(steps[k..], Offset(at, k), o, old(Now())), err)
      {
        k := k - 1;
        DefersFrom(steps, k, at, o, old(Now()));
        var one := ExecuteStepDefers(steps[k], Offset(at, k));
        err := Join(err, one);
      }
      assert steps[0..] == steps && Offset(at, 0) == at;
    }

    method ExecuteStepDefers(step: Step, at: Site) returns (err: Err)
      requires Valid()
      modifies this
      ensures Did(old(records), old(seen), ExecStepDefers(step, at, o, old(Now())), err)
      decreases step, 0
    {
      err := OK;
      match step.kind
      case Conditional(body) => err := ExecuteDefers(body, In(at, Body, 0));
      case Scoped(body) => err := ExecuteDefers(body, In(at, Body, 0));
      case Leaf(deferred, _) =>
        if step.decl.id in registered {
          err := ExecuteEach(deferred, In(at, Deferred, 0));
        } else {
          RecordSkippedSteps(deferred);
        }
      case Attempt(_, deferred) =>
        if step.decl.id in registered {
          err := ExecuteEach(deferred, In(at, AttemptDeferred, 0));
        } else {
          RecordSkippedSteps(deferred);
        }
      case _ =>
    }

    // ---------------------------------------------------------------------------------------
    // Controls

    /** What a private run leaves behind: registrations and services, what it saw, and its error. */
    ghost predicate Left(before: Frame, saw: set<Observation>, r: Result, err: Err)
      reads this
    {
      Now() == Interpreter.Keep(before, r.frame) && seen == saw + r.seen && err == r.err
    }

    /** A leaf runs; a control runs its body on private copies of the state. */
    method ExecutePrivate(step: Step, at: Site) returns (err: Err)
      requires Valid() && at.In? && KeepsRecord(step.kind) && !step.kind.Worktree?
      modifies this
      ensures records == old(records)
      ensures Left(old(Now()), old(seen), ExecPrivate(step, at, o, old(Now())), err)
      decreases step, 5
    {
      var c := o(at);
      match step.kind
      case Leaf(_, service) =>
        if service {
          context := Serve(context);
        }
        err := c.error;
      case Fanout(body, failFast) =>
        var all, primary := ExecuteIterations(body, at, c.passes);
        err := Ruled(if c.error != OK then c.error else IterationError(failFast, all, primary), Now(), c);
      case Attempt(body, _) =>
        err := ExecutePasses(body, at, c.passes);
        err := if c.passes == 0 then FAILED else if err == OK then c.error else err;
        err := if |body| == 0 then c.error else Ruled(err, Now(), c);
      case Once(body) =>
        var private := new Run(Private(Now()), o, groups);
        err := private.ExecuteSequence(body, In(at, Body, 0));
        Keep(private);
        err := if err == OK then c.error else err;
      case TryCatch(_, _) =>
        var private := new Run(Private(Now()).(registered := {}), o, groups);
        err := private.ExecuteTryCatch(step, at);
        context, seen := private.context, seen + private.seen;
      case CancelOn(_, _) =>
        ExecuteRace(step, at);
        err := Ruled(c.error, Now(), c);
    }

    /** Monitors and body on private copies; what they could see, registered and started remains. */
    method ExecuteRace(step: Step, at: Site)
      requires Valid() && step.kind.CancelOn?
      modifies this
      ensures records == old(records) && Left(old(Now()), old(seen), ExecRace(step, at, o, old(Now())), OK)
      decreases step, 1
    {
      var watched := new Run(Private(Now()), o, groups);
      watched.ExecuteMonitors(step.kind.monitors, In(at, Monitor, 0));
      Keep(watched);
      var private := new Run(Private(Now()), o, groups);
      var _ := private.ExecuteSequence(step.kind.body, In(at, Body, 0));
      Keep(private);
    }

    /** Of a private run registrations and services remain. */
    method Keep(private: Run)
      requires private != this
      modifies this`registered, this`context, this`seen
      ensures Now() == Interpreter.Keep(old(Now()), private.Now()) && seen == old(seen) + private.seen
    {
      registered, context := private.registered, private.context;
      seen := seen + private.seen;
    }

    /** The joined error of all iterations, and that of those which report no cancellation. */
    method ExecuteIterations(body: seq<Step>, at: Site, n: nat) returns (err: Err, primary: Err)
      requires Valid() && at.In?
      modifies this
      ensures Did(old(records), old(seen), ExecIterations(body, at, o, old(Now()), n), err)
      ensures primary == PrimaryError(body, at, o, old(Now()), n)
      decreases body, 2
    {
      err, primary := OK, OK;
      ghost var f := Now();
      for k := 0 to n
        invariant Did(old(records), old(seen), ExecIterations(body, at, o, f, k), err)
        invariant primary == PrimaryError(body, at, o, f, k)
        invariant ids == f.ids && returning == f.returning
      {
        var private := new Run(Private(Now()), o, groups);
        assert private.Now() == Fork(f, Now());
        var one := private.ExecuteSequence(body, In(Pass(at, k), Body, 0));
        Keep(private);
        if one == OK {
          seen := seen + See(In(at, CollectExpression, 0), private.ids);
        }
        err := Join(err, one);
        if !one.canceled {
          primary := Join(primary, one);
        }
      }
    }

    method ExecutePasses(body: seq<Step>, at: Site, n: nat) returns (err: Err)
      requires Valid() && at.In?
      modifies this
      ensures Did(old(records), old(seen), ExecPasses(body, at, o, old(Now()), n), err)
      decreases body, 2
    {
      err := OK;
      ghost var f := Now();
      for k := 0 to n
        invariant Did(old(records), old(seen), ExecPasses(body, at, o, f, k), err)
        invariant ids == f.ids && returning == f.returning
      {
        var private := new Run(Private(Now()), o, groups);
        assert private.Now() == Fork(f, Now());
        err := private.ExecuteSequence(body, In(Pass(at, k), Body, 0));
        Keep(private);
        seen := seen +
          if err == OK then See(In(at, UntilExpression, 0), private.ids) else See(In(at, WhenExpression, 0), ids);
      }
    }

    method ExecuteMonitors(monitors: seq<Step>, at: Site)
      requires Valid() && at.In?
      modifies this
      ensures Did(old(records), old(seen), ExecMonitors(monitors, at, o, old(Now())), OK)
      decreases monitors, 1
    {
      ghost var all := ExecMonitors(monitors, at, o, Now());
      ghost var f, before := Now(), seen;
      MonitorsLeaveNoRecords(monitors, at, o, f);
      assert monitors[0..] == monitors && Offset(at, 0) == at;
      for k := 0 to |monitors|
        invariant ids == f.ids && returning == f.returning && records == old(records)
        invariant var rest := ExecMonitors(monitors[k..], Offset(at, k), o, Now());
          rest.frame == all.frame && before + all.seen == seen + rest.seen
      {
        assert monitors[k..][1..] == monitors[k + 1..] && Next(Offset(at, k)) == Offset(at, k + 1);
        var private := new Run(Now(), o, groups);
        var _ := private.ExecuteStep(monitors[k], Offset(at, k));
        Keep(private);
      }
    }

    /** Rescue steps run one by one, until one is cancelled or the context is over. */
    method ExecuteRescue(steps: seq<Step>, at: Site) returns (err: Err)
      requires Valid() && at.In?
      modifies this
      ensures Did(old(records), old(seen), ExecRescue(steps, at, o, old(Now())), err)
      decreases steps, 1
    {
      err := OK;
      ghost var before, saw, all := records, seen, ExecRescue(steps, at, o, Now());
      assert steps[0..] == steps && Offset(at, 0) == at;
      for k := 0 to |steps|
        invariant Remains(before, saw, all, ExecRescue(steps[k..], Offset(at, k), o, Now()))
        invariant all.err == Join(err, ExecRescue(steps[k..], Offset(at, k), o, Now()).err)
      {
        var ended;
        err, ended := ExecuteNextRescue(steps, at, k, err, before, saw, all);
        if ended {
          return;
        }
      }
    }

    method ExecuteNextRescue(steps: seq<Step>, at: Site, k: nat, soFar: Err, ghost before: seq<Record>,
                             ghost saw: set<Observation>,
                             ghost all: Result)
      returns (err: Err, ended: bool)
      requires Valid() && at.In? && k < |steps|
      requires Remains(before, saw, all, ExecRescue(steps[k..], Offset(at, k), o, Now()))
      requires all.err == Join(soFar, ExecRescue(steps[k..], Offset(at, k), o, Now()).err)
      modifies this
      ensures ended ==> Did(before, saw, all, err)
      ensures !ended ==> Remains(before, saw, all, ExecRescue(steps[k + 1..], Offset(at, k + 1), o, Now()))
      ensures !ended ==> all.err == Join(err, ExecRescue(steps[k + 1..], Offset(at, k + 1), o, Now()).err)
      decreases steps, 0
    {
      ghost var f := Now();
      var one := ExecuteStep(steps[k], Offset(at, k));
      err := Join(soFar, one);
      ended := one != OK && (o(Offset(at, k)).contextDone || context.Over() || one.canceled);
      if ended {
        RescueStops(steps, k, at, o, f);
        RecordSkippedSteps(steps[k + 1..]);
      } else {
        RescueGoesOn(steps, k, at, o, f);
        OneLess(before, saw, all, old(records), old(seen), ExecStep(steps[k], Offset(at, k), o, f),
                ExecRescue(steps[k + 1..], Offset(at, k + 1), o, Now()));
      }
    }

    /** The rescue, if there is something to catch. */
    method ExecuteCatch(step: Step, at: Site, attempted: Err, ghost r: Result) returns (verdict: Err)
      requires Valid() && step.kind.TryCatch? && Now() == r.frame && attempted == r.err
      modifies this
      ensures
        var rescued := ExecCatch(step, at, o, r);
        && Now() == rescued.frame && records == old(records) + rescued.records && seen == old(seen) + rescued.seen
        && verdict == Verdict(o(at), r, rescued)
      decreases step, 0
    {
      var c, start := o(at), |records|;
      var caught := Catchable(attempted) && !c.contextDone && !context.Over();
      var rescued := OK;
      if caught {
        rescued := ExecuteRescue(step.kind.rescue, In(at, Rescue, 0));
      } else {
        RecordSkippedSteps(step.kind.rescue);
      }
      assert records[start..] == ExecCatch(step, at, o, r).records;
      if caught && rescued == OK && !AllSkipped(records[start..]) {
        verdict := OK;
      } else if rescued == OK {
        verdict := attempted;
      } else if c.contextDoneLater || context.Over() || rescued.canceled {
        verdict := rescued;
      } else {
        verdict := Join(attempted, rescued);
      }
    }

    method ExecuteTryCatch(step: Step, at: Site) returns (err: Err)
      requires Valid() && step.kind.TryCatch?
      modifies this
      ensures Did(old(records), old(seen), ExecTryCatch(step, at, o, old(Now())), err)
      decreases step, 2
    {
      ghost var attempted := ExecSequence(step.kind.body, In(at, Body, 0), o, Now());
      ghost var rescued := ExecCatch(step, at, o, attempted);
      ghost var cleanup := TryCleanup(step, at, o, Shielded(rescued.frame));
      TryIs(step, at, o, Now(), attempted, rescued, cleanup);
      err := ExecuteTry(step, at, attempted, rescued);
      var outside := context;
      context := Shield(context);
      var last := ExecuteTryCleanup(step, at);
      context := outside.(serving := context.serving);
      err := Join(err, last);
    }

    method ExecuteTry(step: Step, at: Site, ghost attempted: Result, ghost rescued: Result) returns (err: Err)
      requires Valid() && step.kind.TryCatch? && attempted == ExecSequence(step.kind.body, In(at, Body, 0), o, Now())
      requires rescued == ExecCatch(step, at, o, attempted)
      modifies this
      ensures Now() == rescued.frame && err == Verdict(o(at), attempted, rescued)
      ensures records == old(records) + (attempted.records + rescued.records)
      ensures seen == old(seen) + (attempted.seen + rescued.seen)
      decreases step, 1
    {
      err := ExecuteSequence(step.kind.body, In(at, Body, 0));
      err := ExecuteCatch(step, at, err, attempted);
    }

    method ExecuteTryCleanup(step: Step, at: Site) returns (err: Err)
      requires Valid() && step.kind.TryCatch?
      modifies this
      ensures Did(old(records), old(seen), TryCleanup(step, at, o, old(Now())), err)
      decreases step, 0
    {
      err := ExecuteDefers(step.kind.rescue, In(at, Rescue, 0));
      var earlier := ExecuteDefers(step.kind.body, In(at, Body, 0));
      err := Join(err, earlier);
    }

    // ---------------------------------------------------------------------------------------
    // A whole run

    /** A whole run, called by a step or not. If it succeeds, and no context ended in it or none of its scopes
        can lose work and the scope it was called in went on, it has left the records of all its steps.
        Whatever happened, it has observed no id that the validator's scope for the place lacks, provided
        the validator visits all cleanup. */
    method ExecuteWorkflow(steps: seq<Step>, finale: seq<Step>) returns (err: Err)
      requires Valid() && !returning && registered == {} && context == Root(context.inherits)
      requires records == [] && seen == {}
      modifies this
      ensures Did([], {}, ExecWorkflow(steps, finale, o, old(ids), old(context).inherits), err)
      ensures |records| <= StepAccounting.AllRecords(steps, finale)
      ensures err == OK && StepAccounting.SparedRun(steps, finale, o, old(ids), old(context).inherits) ==>
        |records| == StepAccounting.AllRecords(steps, finale)
      ensures !ScopeCoverage.WorkflowUnchecked(steps, finale) ==>
        Covered(ValidateWorkflow(steps, finale, old(ids)).points, seen)
    {
      StepAccounting.WorkflowRecords(steps, finale, o, ids, context.inherits);
      if !ScopeCoverage.WorkflowUnchecked(steps, finale) {
        ScopeCoverage.WorkflowCovered(steps, finale, o, ids, context.inherits);
      }
      err := ExecutePhases(steps, finale);
    }

    method ExecutePhases(steps: seq<Step>, finale: seq<Step>) returns (err: Err)
      requires Valid() && !returning && registered == {} && context == Root(context.inherits)
      requires records == [] && seen == {}
      modifies this
      ensures Did([], {}, ExecWorkflow(steps, finale, o, old(ids), old(context).inherits), err)
    {
      var main := ExecuteSequence(steps, In(Workflow, Main, 0));
      if context.Ended() && CancellationOnly(main) {
        main := OK;
      }
      returning, context := false, CLEANUP;
      var last := ExecuteEnding(steps, finale);
      err := Join(JoinBackground(main, o(Workflow).service), last);
    }

    method ExecuteEnding(steps: seq<Step>, finale: seq<Step>) returns (err: Err)
      requires Valid()
      modifies this
      ensures Did(old(records), old(seen), Ending(steps, finale, o, old(Now())), err)
    {
      err := ExecuteDefers(steps, In(Workflow, Main, 0));
      var last := ExecuteEach(finale, In(Workflow, Finally, 0));
      err := Join(err, last);
    }
  }
}
