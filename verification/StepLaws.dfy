/** What each kind of step makes of the executions inside it: when it succeeds, what it records and publishes,
    and what goes on after it. */
module StepLaws {
  import opened ConcurrentGraph
  import opened StepTree
  import opened Interpreter
  import opened SmoothRun

  /** The frame in which a step runs once it is reached. */
  function Arrive(at: Site, o: Oracle, f: Frame): Frame {
    f.(context := Turn(f.context, o(at).ends))
  }

  /** It is reached in a context that is not over, and nothing fails before it. */
  predicate Runs(at: Site, o: Oracle, f: Frame) {
    !Arrive(at, o, f).context.Over() && o(at).before == OK
  }

  // ---------------------------------------------------------------------------------------
  // Contexts

  /** A context ends at a level that can end and is not shielded, if nothing in it has ended yet; then that level
      and all inside it are over. */
  lemma ContextEnds(c: Context, n: nat)
    ensures
      var d := Turn(c, n);
      && d.serving == c.serving && d.shield == c.shield && d.inherits == c.inherits
      && (c.Over() ==> d == c)
      && (!c.Over() && c.live == |c.serving| ==>
            (d.Over() <==> 0 < n <= |c.serving| - c.shield && c.serving[|c.serving| - n]))
      && (!c.Over() && d.Over() ==> d.live == |c.serving| - n)
  {
  }

  /** A scope opened inside is over exactly if the one outside is, and cannot end before a service starts in it;
      then it can, without the scope outside. */
  lemma ScopeOpens(c: Context)
    requires c.live <= |c.serving|
    ensures
      var inner := Nest(c);
      && (inner.Over() <==> c.Over()) && Leave(c, inner) == c
      && (!c.Over() ==> Turn(inner, 1) == inner)
      && (!c.Over() && c.serving != [] && c.shield <= |c.serving| ==>
            var ended := Turn(Serve(inner), 1);
            ended.Over() && ended.Ended() && Leave(c, ended) == c)
  {
  }

  /** When an outer level ends, so does what is inside it, and it stays over outside. */
  lemma OuterEnds(c: Context, inner: Context)
    requires inner.live < |c.serving| && |inner.serving| > |c.serving|
    ensures inner.Over() && Leave(c, inner).Over() && Leave(c, inner).live == inner.live
  {
  }

  /** Nothing ends the contexts of cleanup, neither of a scope's nor of a try's; of a try's, services can still
      be started. */
  lemma CleanupIsNotCancelled(c: Context, n: nat)
    ensures !CLEANUP.Over() && Turn(CLEANUP, n) == CLEANUP && Serve(CLEANUP) == CLEANUP
    ensures !Shield(c).Over() && Turn(Shield(c), n) == Shield(c)
    ensures |c.serving| > 1 ==> Serve(Shield(c)).Armed()
  {
  }

  /** The run's own scope can end only by a service of its own, and with its caller's context. */
  lemma RootEnds(inherits: bool)
    ensures
      var c := Root(inherits);
      && !c.Over() && Turn(c, 1) == c && Turn(Serve(c), 1).Ended()
      && Turn(c, 2).Over() && (Turn(c, 2).Ended() <==> inherits)
  {
  }

  // ---------------------------------------------------------------------------------------
  // Any step

  /** A step that does not come to run changes nothing: it is cancelled without a record, or fails with one. */
  lemma DoesNotRun(step: Step, at: Site, o: Oracle, f: Frame)
    requires at.In? && !Runs(at, o, f)
    ensures
      var r := ExecStep(step, at, o, f);
      && r.err != OK && r.seen == See(at, f.ids)
      && r.frame.ids == f.ids && r.frame.returning == f.returning && r.frame.registered == f.registered
      && (Arrive(at, o, f).context.Over() ==> r.err == CANCELED && r.records == [])
      && (!Arrive(at, o, f).context.Over() ==>
            r.records == if KeepsRecord(step.kind) then [Record(step.decl.id, FailedStep)] else [])
  {
  }

  /** The step is passed over by its own condition or stands for a recorded outcome. */
  predicate PassedOver(kind: Kind, c: Choice) {
    !kind.Worktree? && (!c.run || (kind.Once? && c.replayed))
  }

  /** A leaf or control leaves one record, which tells whether it ran and succeeded. It publishes its id if it
      did or if its outcome is replayed, and nothing otherwise; a return inside it stays inside. */
  lemma KeeperOutcome(step: Step, at: Site, o: Oracle, f: Frame)
    requires at.In? && KeepsRecord(step.kind) && !step.kind.Worktree? && Runs(at, o, f)
    ensures
      var r, c := ExecStep(step, at, o, f), o(at);
      var over := PassedOver(step.kind, c);
      && r.records ==
        [Record(step.decl.id, if over then SkippedStep else if r.err == OK then Succeeded else FailedStep)]
      && (over ==> r.err == OK && r.seen == See(at, f.ids) && r.frame.registered == f.registered)
      && r.frame.ids == (if r.err == OK && (c.run || !over) then f.ids + {step.decl.id} else f.ids)
      && r.frame.returning == f.returning
  {
  }

  /** Otherwise it does what its kind does in private, and ends with that error. */
  lemma KeeperRuns(step: Step, at: Site, o: Oracle, f: Frame)
    requires at.In? && KeepsRecord(step.kind) && !step.kind.Worktree? && Runs(at, o, f)
    requires !PassedOver(step.kind, o(at))
    ensures
      var r, inner := ExecStep(step, at, o, f), ExecPrivate(step, at, o, Arrive(at, o, f));
      r.err == inner.err && r.seen == See(at, f.ids) + inner.seen
  {
    var g := Arrive(at, o, f);
    var inner := ExecPrivate(step, at, o, g);
    assert ExecRecorded(step, at, o, g) == Finish(step, g, o(at), inner);
    assert Finish(step, g, o(at), inner).err == inner.err && Finish(step, g, o(at), inner).seen == inner.seen;
  }

  /** What succeeds registers its cleanup; what does not registers none of its own. */
  lemma KeeperRegisters(step: Step, at: Site, o: Oracle, f: Frame)
    requires at.In? && KeepsRecord(step.kind) && !step.kind.Worktree? && Runs(at, o, f)
    ensures
      var r, inner := ExecStep(step, at, o, f), ExecPrivate(step, at, o, Arrive(at, o, f)).frame.registered;
      !PassedOver(step.kind, o(at)) ==>
        r.frame.registered == if r.err == OK && DeferredBy(step.kind) != [] then inner + {step.decl.id} else inner
  {
  }

  lemma LeafOutcome(step: Step, at: Site, o: Oracle, f: Frame)
    requires at.In? && step.kind.Leaf? && Runs(at, o, f) && o(at).run
    ensures
      var r := ExecStep(step, at, o, f);
      && r.err == o(at).error && r.seen == See(at, f.ids)
      && (r.err == OK ==> r.frame.ids == f.ids + {step.decl.id} && r.records == [Record(step.decl.id, Succeeded)])
      && (r.err != OK ==> r.frame.ids == f.ids && r.records == [Record(step.decl.id, FailedStep)])
      && r.frame.registered ==
        (if r.err == OK && step.kind.deferred != [] then f.registered + {step.decl.id} else f.registered)
      && r.frame.context ==
        var c := Turn(f.context, o(at).ends);
        Turn(if step.kind.service then Serve(c) else c, o(at).during)
  {
    KeeperOutcome(step, at, o, f);
    KeeperRegisters(step, at, o, f);
  }

  // ---------------------------------------------------------------------------------------
  // Sequences

  /** The first `k` steps run one after the other, and the rest is reached. */
  ghost predicate GoesThrough(steps: seq<Step>, at: Site, o: Oracle, f: Frame, k: nat)
    requires at.In? && k <= |steps|
  {
    k == 0 ||
    var r := ExecStep(steps[0], at, o, f);
    r.err == OK && !EndsSequence(steps[0].kind, o(at), r.frame) && GoesThrough(steps[1..], Next(at), o, r.frame, k - 1)
  }

  lemma AppendTwice(a: Result, b: Result, c: Result)
    ensures Append(a, Append(b, c)) == Append(Append(a, b), c)
  {
    assert a.records + (b.records + c.records) == a.records + b.records + c.records;
    assert a.seen + (b.seen + c.seen) == a.seen + b.seen + c.seen;
  }

  /** Then the sequence is those steps followed by the rest. */
  lemma {:induction false} SequenceSplits(steps: seq<Step>, at: Site, o: Oracle, f: Frame, k: nat)
    requires at.In? && k <= |steps| && GoesThrough(steps, at, o, f, k)
    ensures
      var front := ExecSequence(steps[..k], at, o, f);
      && front.err == OK
      && ExecSequence(steps, at, o, f) == Append(front, ExecSequence(steps[k..], Offset(at, k), o, front.frame))
    decreases k
  {
    if k == 0 {
      var all := ExecSequence(steps, at, o, f);
      assert steps[..0] == [] && steps[0..] == steps && Offset(at, 0) == at;
      assert [] + all.records == all.records && {} + all.seen == all.seen;
    } else {
      var r := ExecStep(steps[0], at, o, f);
      SequenceSplits(steps[1..], Next(at), o, r.frame, k - 1);
      assert steps[..k][1..] == steps[1..][..k - 1] && steps[1..][k - 1..] == steps[k..];
      assert Offset(Next(at), k - 1) == Offset(at, k);
      var front, rest := ExecSequence(steps[1..][..k - 1], Next(at), o, r.frame), steps[k..];
      AppendTwice(r, front, ExecSequence(rest, Offset(at, k), o, front.frame));
    }
  }

  /** A step that fails ends its sequence: nothing after it runs or leaves a record. */
  lemma FailureEndsSequence(steps: seq<Step>, at: Site, o: Oracle, f: Frame, k: nat)
    requires at.In? && k < |steps| && GoesThrough(steps, at, o, f, k)
    ensures
      var front := ExecSequence(steps[..k], at, o, f);
      var r := ExecStep(steps[k], Offset(at, k), o, front.frame);
      r.err != OK ==> ExecSequence(steps, at, o, f) == Append(front, r)
  {
    SequenceSplits(steps, at, o, f, k);
  }

  /** A return that fires, in the sequence itself or in a block of it, ends the sequence without an error. What
      follows it is not seen, and is recorded as skipped. */
  lemma ReturnEndsSequence(steps: seq<Step>, at: Site, o: Oracle, f: Frame, k: nat)
    requires at.In? && k < |steps| && GoesThrough(steps, at, o, f, k)
    ensures
      var front, place := ExecSequence(steps[..k], at, o, f), Offset(at, k);
      var kind, r := steps[k].kind, ExecStep(steps[k], place, o, front.frame);
      var blocks := kind.Conditional? || kind.Scoped? || kind.Executor? || kind.Worktree?;
      (kind.Return? && Runs(place, o, front.frame) && o(place).run) || (blocks && r.err == OK && r.frame.returning) ==>
        var all := ExecSequence(steps, at, o, f);
        && all.err == OK && all.frame.returning && all.seen == front.seen + r.seen
        && all.records == front.records + (r.records + SkipRecords(steps[k + 1..]))
  {
    SequenceSplits(steps, at, o, f, k);
    var front, place := ExecSequence(steps[..k], at, o, f), Offset(at, k);
    if steps[k].kind.Return? && Runs(place, o, front.frame) {
      ReturnFires(steps[k], place, o, front.frame);
    }
    EndOfSequence(steps[k..], place, o, front.frame);
    assert steps[k..][1..] == steps[k + 1..];
  }

  lemma EndOfSequence(steps: seq<Step>, at: Site, o: Oracle, f: Frame)
    requires at.In? && steps != []
    ensures
      var r := ExecStep(steps[0], at, o, f);
      r.err == OK && EndsSequence(steps[0].kind, o(at), r.frame) ==>
        ExecSequence(steps, at, o, f) == r.(records := r.records + SkipRecords(steps[1..]))
  {
  }

  lemma ReturnFires(step: Step, at: Site, o: Oracle, f: Frame)
    requires at.In? && step.kind.Return? && Runs(at, o, f)
    ensures
      var r := ExecStep(step, at, o, f);
      r.err == OK && r.records == [] && r.frame.ids == f.ids && r.frame.returning == (f.returning || o(at).run)
  {
  }

  /** Only a return that fires, or a block in which one did, ends a sequence. */
  lemma OnlyReturnsEnd(kind: Kind, c: Choice, frame: Frame)
    ensures EndsSequence(kind, c, frame) <==>
      || (kind.Return? && c.run)
      || ((kind.Conditional? || kind.Scoped? || kind.Executor? || kind.Worktree?) && frame.returning)
  {
  }

  /** After any other step that succeeds the sequence goes on, so that a control keeps a return to itself. */
  lemma OthersGoOn(step: Step, at: Site, o: Oracle, f: Frame)
    requires at.In? && ExecStep(step, at, o, f).err == OK && !f.returning
    requires
      || step.kind.Concurrent? || (KeepsRecord(step.kind) && !step.kind.Worktree?)
      || (step.kind.Return? && !o(at).run)
    ensures !EndsSequence(step.kind, o(at), ExecStep(step, at, o, f).frame)
    ensures !ExecStep(step, at, o, f).frame.returning
  {
    if KeepsRecord(step.kind) {
      KeeperOutcome(step, at, o, f);
    } else if step.kind.Return? {
      ReturnFires(step, at, o, f);
    } else {
      GroupKeepsReturn(step, at, o, f);
    }
  }

  lemma GroupKeepsReturn(step: Step, at: Site, o: Oracle, f: Frame)
    requires at.In? && step.kind.Concurrent?
    ensures ExecStep(step, at, o, f).frame.returning == f.returning
  {
    assert ExecGroup(step, at, o, Arrive(at, o, f)).frame.returning == f.returning;
  }

  // ---------------------------------------------------------------------------------------
  // Blocks

  /** A block whose condition does not hold records its steps as skipped and changes nothing; one whose condition
      holds, or a scoped one, is its body. */
  lemma BlockIsBody(step: Step, at: Site, o: Oracle, f: Frame)
    requires at.In? && (step.kind.Conditional? || step.kind.Scoped?) && Runs(at, o, f)
    ensures
      var r, g := ExecStep(step, at, o, f), Arrive(at, o, f);
      if step.kind.Conditional? && !o(at).run then
        r.records == SkipRecords(step.kind.body) && r.frame == g && r.seen == See(at, f.ids) && r.err == OK
      else
        var body := ExecSequence(step.kind.body, In(at, Body, 0), o, g);
        r.records == body.records && r.frame == body.frame && r.seen == See(at, f.ids) + body.seen && r.err == body.err
  {
  }

  /** The body of an executor or worktree block, in a defer scope and a scope of services of its own. */
  ghost function MainOf(step: Step, at: Site, o: Oracle, f: Frame): Result
    requires step.kind.Executor? || step.kind.Worktree?
  {
    var g := Arrive(at, o, f);
    ExecSequence(step.kind.body, BodyAt(step, at), o, g.(registered := {}, context := Nest(g.context)))
  }

  /** Its cleanup runs whatever became of the body, with what the body published and registered. */
  ghost function CleanupOf(step: Step, at: Site, o: Oracle, f: Frame): Result
    requires step.kind.Executor? || step.kind.Worktree?
  {
    var main := MainOf(step, at, o, f).frame;
    var g := Frame(main.ids, false, main.registered, CLEANUP);
    var defers := ExecDefers(step.kind.body, BodyAt(step, at), o, g);
    if step.kind.Executor? then
      Both(defers, ExecEach(step.kind.finale, In(at, ExecutorFinally, 0), o, defers.frame))
    else defers
  }

  /** A block succeeds exactly if its body did, or was cut off by a service, and its services, its cleanup and
      leaving it did. */
  lemma BlockSucceeds(step: Step, at: Site, o: Oracle, f: Frame)
    requires at.In? && (step.kind.Executor? || step.kind.Worktree?) && Runs(at, o, f)
    ensures
      var r, main, cleanup := ExecStep(step, at, o, f), MainOf(step, at, o, f), CleanupOf(step, at, o, f);
      && (r.err == OK <==>
            && (main.err == OK || (main.frame.context.Ended() && CancellationOnly(main.err)))
            && o(at).service == OK && o(at).late == OK && cleanup.err == OK)
      && r.frame.returning == main.frame.returning && r.frame.registered == f.registered
      && r.frame.context == Leave(Arrive(at, o, f).context, main.frame.context)
      && r.seen == See(at, f.ids) + (main.seen + cleanup.seen)
      && (step.kind.Executor? ==> r.records == main.records + cleanup.records && r.frame.ids == cleanup.frame.ids)
      && (step.kind.Worktree? ==>
            && r.records == [Record(step.decl.id, if r.err == OK then Succeeded else FailedStep)]
            && r.frame.ids == if r.err == OK then cleanup.frame.ids + {step.decl.id} else cleanup.frame.ids)
  {
    var g := Arrive(at, o, f);
    assert EnterScope(g) == g.(registered := {}, context := Nest(g.context));
    var main := MainOf(step, at, o, f);
    assert Cleaning(main.frame) == Frame(main.frame.ids, false, main.frame.registered, CLEANUP);
    assert ScopeCleanup(step, at, o, Cleaning(main.frame)) == CleanupOf(step, at, o, f);
    assert ExecScope(step, at, o, g) == ScopeResult(g, main, CleanupOf(step, at, o, f), o(at).service);
  }

  // ---------------------------------------------------------------------------------------
  // Cleanup

  /** Cleanup steps run in order, each after all before it and whatever became of them. */
  lemma {:induction false} EachStepRuns(steps: seq<Step>, at: Site, o: Oracle, f: Frame, k: nat)
    requires at.In? && k < |steps|
    ensures
      var before := ExecEach(steps[..k], at, o, f);
      var r := ExecStep(steps[k], Offset(at, k), o, before.frame);
      && ExecEach(steps[..k + 1], at, o, f) == Both(before, r)
    decreases k
  {
    if k == 0 {
      var r := ExecStep(steps[0], at, o, f);
      assert steps[..0] == [] && steps[..1] == [steps[0]] && [steps[0]][1..] == [] && Offset(at, 0) == at;
      BothNothing(f, r);
    } else {
      var r := ExecStep(steps[0], at, o, f);
      EachStepRuns(steps[1..], Next(at), o, r.frame, k - 1);
      assert steps[..k][1..] == steps[1..][..k - 1] && steps[..k + 1][1..] == steps[1..][..k];
      assert Offset(Next(at), k - 1) == Offset(at, k);
      var front := ExecEach(steps[1..][..k - 1], Next(at), o, r.frame);
      BothTwice(r, front, ExecStep(steps[k], Offset(at, k), o, front.frame));
    }
  }

  lemma BothNothing(f: Frame, r: Result)
    ensures Both(Result(f, [], {}, OK), r) == r
    ensures Both(r, Result(r.frame, [], {}, OK)) == r
  {
    assert [] + r.records == r.records + [] == r.records && {} + r.seen == r.seen + {} == r.seen;
  }

  lemma BothTwice(a: Result, b: Result, c: Result)
    ensures Both(a, Both(b, c)) == Both(Both(a, b), c)
  {
    assert a.records + (b.records + c.records) == a.records + b.records + c.records;
    assert a.seen + (b.seen + c.seen) == a.seen + b.seen + c.seen;
  }

  /** Cleanup succeeds exactly if every one of its steps does. */
  lemma EachSucceeds(steps: seq<Step>, at: Site, o: Oracle, f: Frame)
    requires at.In?
    ensures ExecEach(steps, at, o, f).err == OK <==> forall k: nat :: k < |steps| ==> EachRunsAt(steps, at, o, f, k)
  {
    EachSucceedsUpTo(steps, at, o, f, |steps|);
    assert steps[..|steps|] == steps;
  }

  lemma BothSucceed(a: Result, b: Result)
    ensures Both(a, b).err == OK <==> a.err == OK && b.err == OK
  {
  }

  ghost predicate EachRunsAt(steps: seq<Step>, at: Site, o: Oracle, f: Frame, k: nat)
    requires at.In? && k < |steps|
  {
    ExecStep(steps[k], Offset(at, k), o, ExecEach(steps[..k], at, o, f).frame).err == OK
  }

  lemma {:induction false} EachSucceedsUpTo(steps: seq<Step>, at: Site, o: Oracle, f: Frame, n: nat)
    requires at.In? && n <= |steps|
    ensures ExecEach(steps[..n], at, o, f).err == OK <==>
      forall k: nat :: k < n ==> EachRunsAt(steps, at, o, f, k)
    decreases n
  {
    if n == 0 {
      assert steps[..0] == [];
    } else {
      var k := n - 1;
      EachSucceedsUpTo(steps, at, o, f, k);
      EachStepRuns(steps, at, o, f, k);
      var before := ExecEach(steps[..k], at, o, f);
      BothSucceed(before, ExecStep(steps[k], Offset(at, k), o, before.frame));
      assert EachRunsAt(steps, at, o, f, k) <==> ExecStep(steps[k], Offset(at, k), o, before.frame).err == OK;
    }
  }

  /** The cleanup a step defers runs exactly if it was registered; otherwise it is recorded as skipped. */
  lemma DeferredRuns(step: Step, at: Site, o: Oracle, f: Frame)
    requires step.kind.Leaf? || step.kind.Attempt?
    ensures
      var r, deferred := ExecStepDefers(step, at, o, f), step.kind.deferred;
      var place := In(at, if step.kind.Leaf? then Deferred else AttemptDeferred, 0);
      if step.decl.id in f.registered then r == ExecEach(deferred, place, o, f)
      else r.records == SkipRecords(deferred) && r.frame == f && r.seen == {} && r.err == OK
  {
  }

  /** The cleanup of a scope runs from its last step to its first. */
  lemma {:induction false} DefersRunBackwards(steps: seq<Step>, at: Site, o: Oracle, f: Frame, k: nat)
    requires at.In? && k < |steps|
    ensures
      var later := ExecDefers(steps[k + 1..], Offset(at, k + 1), o, f);
      ExecDefers(steps[k..], Offset(at, k), o, f) ==
        Both(later, ExecStepDefers(steps[k], Offset(at, k), o, later.frame))
  {
    assert steps[k..][1..] == steps[k + 1..] && Next(Offset(at, k)) == Offset(at, k + 1);
  }

  /** It succeeds exactly if the cleanup of each of its steps does. */
  lemma {:induction false} DefersSucceed(steps: seq<Step>, at: Site, o: Oracle, f: Frame, k: nat)
    requires at.In? && k <= |steps|
    ensures ExecDefers(steps[k..], Offset(at, k), o, f).err == OK <==>
      forall j :: k <= j < |steps| ==>
        var later := ExecDefers(steps[j + 1..], Offset(at, j + 1), o, f);
        ExecStepDefers(steps[j], Offset(at, j), o, later.frame).err == OK
    decreases |steps| - k
  {
    if k < |steps| {
      DefersSucceed(steps, at, o, f, k + 1);
      DefersRunBackwards(steps, at, o, f, k);
    }
  }

  // ---------------------------------------------------------------------------------------
  // Fan-outs

  /** One iteration of a fan-out, on a private copy of the state outside. */
  ghost function Iteration(step: Step, at: Site, o: Oracle, f: Frame, k: nat): Result
    requires step.kind.Fanout?
  {
    var g := Arrive(at, o, f);
    var before := ExecIterations(step.kind.body, at, o, g, k).frame;
    ExecSequence(step.kind.body, In(Pass(at, k), Body, 0), o, Frame(f.ids, false, before.registered, before.context))
  }

  lemma IterationIs(step: Step, at: Site, o: Oracle, f: Frame, k: nat)
    requires step.kind.Fanout?
    ensures
      var g := Arrive(at, o, f);
      var before, all := ExecIterations(step.kind.body, at, o, g, k), ExecIterations(step.kind.body, at, o, g, k + 1);
      && (all.err == OK <==> before.err == OK && Iteration(step, at, o, f, k).err == OK)
      && before.seen + Iteration(step, at, o, f, k).seen <= all.seen
  {
    var g := Arrive(at, o, f);
    var before := ExecIterations(step.kind.body, at, o, g, k);
    assert Fork(g, before.frame) == Frame(f.ids, false, before.frame.registered, before.frame.context);
  }

  lemma {:induction false} IterationsSucceed(step: Step, at: Site, o: Oracle, f: Frame, n: nat)
    requires step.kind.Fanout?
    ensures ExecIterations(step.kind.body, at, o, Arrive(at, o, f), n).err == OK <==>
      forall k: nat :: k < n ==> Iteration(step, at, o, f, k).err == OK
    ensures forall k: nat :: k < n ==>
      Iteration(step, at, o, f, k).seen <= ExecIterations(step.kind.body, at, o, Arrive(at, o, f), n).seen
    decreases n
  {
    if n > 0 {
      IterationsSucceed(step, at, o, f, n - 1);
      IterationIs(step, at, o, f, n - 1);
    }
  }

  /** A fan-out succeeds exactly if every iteration does, it has no error of its own, and no context around it
      is over at its end: one failed iteration is enough to fail it, and then it publishes nothing. */
  lemma FanoutSucceeds(step: Step, at: Site, o: Oracle, f: Frame)
    requires at.In? && step.kind.Fanout? && Runs(at, o, f) && o(at).run
    ensures
      var r, n := ExecStep(step, at, o, f), o(at).passes;
      var ended := Turn(ExecIterations(step.kind.body, at, o, Arrive(at, o, f), n).frame.context, o(at).during).Over();
      && (r.err == OK <==>
            !ended && o(at).error == OK && forall k: nat :: k < n ==> Iteration(step, at, o, f, k).err == OK)
      && (r.err == OK ==> r.records == [Record(step.decl.id, Succeeded)] && r.frame.ids == f.ids + {step.decl.id})
      && (r.err != OK ==> r.records == [Record(step.decl.id, FailedStep)] && r.frame.ids == f.ids)
      && (forall k: nat :: k < n ==> Iteration(step, at, o, f, k).seen <= r.seen)
  {
    var g := Arrive(at, o, f);
    var all := ExecIterations(step.kind.body, at, o, g, o(at).passes);
    IterationsSucceed(step, at, o, f, o(at).passes);
    KeeperOutcome(step, at, o, f);
    KeeperRuns(step, at, o, f);
    var primary := PrimaryError(step.kind.body, at, o, g, o(at).passes);
    var joined := IterationError(step.kind.failFast, all.err, primary);
    assert ExecPrivate(step, at, o, g) ==
      all.(err := Ruled(if o(at).error != OK then o(at).error else joined, all.frame, o(at)));
  }

  // ---------------------------------------------------------------------------------------
  // Attempts

  /** One pass of an attempt, on a private copy of the state outside. */
  ghost function PassOf(step: Step, at: Site, o: Oracle, f: Frame, k: nat): Result
    requires step.kind.Attempt?
  {
    var g := Arrive(at, o, f);
    var before := ExecPasses(step.kind.body, at, o, g, k).frame;
    ExecSequence(step.kind.body, In(Pass(at, k), Body, 0), o, Frame(f.ids, false, before.registered, before.context))
  }

  /** An attempt succeeds exactly if its last pass does, however the passes before it ended, it has no error of
      its own, and no context around it is over at its end. */
  lemma AttemptSucceeds(step: Step, at: Site, o: Oracle, f: Frame)
    requires at.In? && step.kind.Attempt? && step.kind.body != [] && Runs(at, o, f) && o(at).run
    ensures
      var r, n := ExecStep(step, at, o, f), o(at).passes;
      var ended := Turn(ExecPasses(step.kind.body, at, o, Arrive(at, o, f), n).frame.context, o(at).during).Over();
      && (r.err == OK <==> !ended && n > 0 && PassOf(step, at, o, f, n - 1).err == OK && o(at).error == OK)
      && (r.err == OK ==> r.records == [Record(step.decl.id, Succeeded)] && r.frame.ids == f.ids + {step.decl.id})
      && (r.err != OK ==> r.records == [Record(step.decl.id, FailedStep)] && r.frame.ids == f.ids)
  {
    var g, n := Arrive(at, o, f), o(at).passes;
    var last := ExecPasses(step.kind.body, at, o, g, n);
    if n > 0 {
      var before := ExecPasses(step.kind.body, at, o, g, n - 1).frame;
      assert Fork(g, before) == Frame(f.ids, false, before.registered, before.context);
      assert last.err == PassOf(step, at, o, f, n - 1).err;
    }
    KeeperOutcome(step, at, o, f);
    KeeperRuns(step, at, o, f);
    var passed := if n == 0 then FAILED else if last.err == OK then o(at).error else last.err;
    assert ExecPrivate(step, at, o, g) == last.(err := Ruled(passed, last.frame, o(at)));
  }

  /** Every pass is seen. */
  lemma {:induction false} PassesAreSeen(step: Step, at: Site, o: Oracle, f: Frame, n: nat, k: nat)
    requires step.kind.Attempt? && k < n
    ensures PassOf(step, at, o, f, k).seen <= ExecPasses(step.kind.body, at, o, Arrive(at, o, f), n).seen
    decreases n
  {
    var g := Arrive(at, o, f);
    var before := ExecPasses(step.kind.body, at, o, g, n - 1).frame;
    assert Fork(g, before) == Frame(f.ids, false, before.registered, before.context);
    if k < n - 1 {
      PassesAreSeen(step, at, o, f, n - 1, k);
    }
  }

  // ---------------------------------------------------------------------------------------
  // Once and cancel_on

  /** Of a step that runs once, a replayed outcome counts as skipped but publishes the id, without running the
      body; otherwise it succeeds exactly if its body does and it has no error of its own. */
  lemma OnceSucceeds(step: Step, at: Site, o: Oracle, f: Frame)
    requires at.In? && step.kind.Once? && Runs(at, o, f) && o(at).run
    ensures
      var r, g := ExecStep(step, at, o, f), Arrive(at, o, f);
      var body := ExecSequence(step.kind.body, In(at, Body, 0), o, g.(returning := false));
      if o(at).replayed then
        && r.err == OK && r.records == [Record(step.decl.id, SkippedStep)] && r.seen == See(at, f.ids)
        && r.frame.ids == f.ids + {step.decl.id}
      else
        && (r.err == OK <==> body.err == OK && o(at).error == OK)
        && r.seen == See(at, f.ids) + body.seen
        && r.records == [Record(step.decl.id, if r.err == OK then Succeeded else FailedStep)]
        && r.frame.ids == if r.err == OK then f.ids + {step.decl.id} else f.ids
  {
    KeeperOutcome(step, at, o, f);
    if !o(at).replayed {
      KeeperRuns(step, at, o, f);
      var g := Arrive(at, o, f);
      var body := ExecSequence(step.kind.body, In(at, Body, 0), o, g.(returning := false));
      assert ExecPrivate(step, at, o, g) == body.(err := if body.err == OK then o(at).error else body.err);
    }
  }

  /** A race ends as its body or monitors decide, unless a context around it is over; both are seen. */
  lemma RaceSucceeds(step: Step, at: Site, o: Oracle, f: Frame)
    requires at.In? && step.kind.CancelOn? && Runs(at, o, f) && o(at).run
    ensures
      var r, g := ExecStep(step, at, o, f), Arrive(at, o, f);
      var watched := ExecMonitors(step.kind.monitors, In(at, Monitor, 0), o, g.(returning := false));
      var body := ExecSequence(step.kind.body, In(at, Body, 0), o,
                               Frame(f.ids, false, watched.frame.registered, watched.frame.context));
      && (r.err == OK <==> o(at).error == OK && !Turn(body.frame.context, o(at).during).Over())
      && r.seen == See(at, f.ids) + (body.seen + watched.seen)
      && r.records == [Record(step.decl.id, if r.err == OK then Succeeded else FailedStep)]
      && r.frame.ids == if r.err == OK then f.ids + {step.decl.id} else f.ids
  {
    var g := Arrive(at, o, f);
    var watched := ExecMonitors(step.kind.monitors, In(at, Monitor, 0), o, Private(g));
    assert Fork(g, watched.frame) == Frame(f.ids, false, watched.frame.registered, watched.frame.context);
    KeeperOutcome(step, at, o, f);
    KeeperRuns(step, at, o, f);
    var race := ExecRace(step, at, o, g);
    assert ExecPrivate(step, at, o, g) == race.(err := Ruled(o(at).error, race.frame, o(at)));
  }

  /** Every monitor runs on a private copy of the state outside. */
  lemma {:induction false} MonitorsAreSeen(monitors: seq<Step>, at: Site, o: Oracle, f: Frame, k: nat)
    requires at.In? && k < |monitors|
    ensures See(Offset(at, k), f.ids) <= ExecMonitors(monitors, at, o, f).seen
    decreases |monitors|
  {
    if k > 0 {
      MonitorsAreSeen(monitors[1..], Next(at), o, Keep(f, ExecStep(monitors[0], at, o, f).frame), k - 1);
      assert Offset(Next(at), k - 1) == Offset(at, k);
    } else {
      assert Offset(at, 0) == at;
      OwnObservation(monitors[0], at, o, f);
    }
  }

  lemma OwnObservation(step: Step, at: Site, o: Oracle, f: Frame)
    requires at.In?
    ensures See(at, f.ids) <= ExecStep(step, at, o, f).seen
  {
  }

  /** A private body registers its cleanup in the scope around, and starts its services there; a try keeps the
      registrations to itself, and its cleanup can still start services. */
  lemma PrivateLeaves(step: Step, at: Site, o: Oracle, f: Frame)
    requires at.In? && KeepsRecord(step.kind) && !step.kind.Worktree? && !step.kind.Leaf? && Runs(at, o, f)
    requires !PassedOver(step.kind, o(at))
    ensures
      var r, g := ExecStep(step, at, o, f), Arrive(at, o, f);
      var own := if r.err == OK && DeferredBy(step.kind) != [] then {step.decl.id} else {};
      var inner :=
        match step.kind
        case Fanout(body, _) => ExecIterations(body, at, o, g, o(at).passes).frame
        case Attempt(body, _) => ExecPasses(body, at, o, g, o(at).passes).frame
        case Once(body) => ExecSequence(body, In(at, Body, 0), o, g.(returning := false)).frame
        case TryCatch(_, _) =>
          var rescued := Rescued(step, at, o, f).frame;
          g.(context := rescued.context.(serving := CleanedUp(step, at, o, f).frame.context.serving))
        case CancelOn(_, _) => ExecRace(step, at, o, g).frame;
      && r.frame.registered == inner.registered + own
      && r.frame.context == Turn(inner.context, o(at).during)
  {
    var g := Arrive(at, o, f);
    var inner := ExecPrivate(step, at, o, g);
    assert ExecRecorded(step, at, o, g) == Finish(step, g, o(at), inner);
    if step.kind.TryCatch? {
      TryIsItsParts(step, at, o, f);
    }
  }

  /** A pass that succeeded is judged by `until`, with what it published; one that failed by `when`, which sees
      the state outside. */
  lemma PassIsJudged(step: Step, at: Site, o: Oracle, f: Frame, k: nat)
    requires step.kind.Attempt? && at.In?
    ensures
      var r, seen := PassOf(step, at, o, f, k), ExecPasses(step.kind.body, at, o, Arrive(at, o, f), k + 1).seen;
      && (r.err == OK ==> See(In(at, UntilExpression, 0), r.frame.ids) <= seen)
      && (r.err != OK ==> See(In(at, WhenExpression, 0), f.ids) <= seen)
  {
    var g := Arrive(at, o, f);
    var before := ExecPasses(step.kind.body, at, o, g, k).frame;
    assert Fork(g, before) == Frame(f.ids, false, before.registered, before.context);
  }

  // ---------------------------------------------------------------------------------------
  // Recovery

  ghost function Attempted(step: Step, at: Site, o: Oracle, f: Frame): Result
    requires step.kind.TryCatch?
  {
    ExecSequence(step.kind.body, In(at, Body, 0), o, Arrive(at, o, f).(returning := false, registered := {}))
  }

  /** A failure is caught, also a timeout, but neither a plain cancellation nor anything in a context that is
      over. */
  ghost predicate IsCaught(step: Step, at: Site, o: Oracle, f: Frame)
    requires step.kind.TryCatch?
  {
    var attempted := Attempted(step, at, o, f);
    && attempted.err != OK && (attempted.err.deadline || !attempted.err.canceled)
    && !o(at).contextDone && !attempted.frame.context.Over()
  }

  /** The rescue, which runs only if something was caught, from the state the body left. */
  ghost function Rescued(step: Step, at: Site, o: Oracle, f: Frame): Result
    requires step.kind.TryCatch?
  {
    var attempted := Attempted(step, at, o, f);
    if IsCaught(step, at, o, f) then ExecRescue(step.kind.rescue, In(at, Rescue, 0), o, attempted.frame)
    else Result(attempted.frame, SkipRecords(step.kind.rescue), {}, OK)
  }

  /** The cleanup deferred by the rescue and then by the body, which runs in any case and is not cancelled. */
  ghost function CleanedUp(step: Step, at: Site, o: Oracle, f: Frame): Result
    requires step.kind.TryCatch?
  {
    var rescued := Rescued(step, at, o, f).frame;
    var g := rescued.(context := Shield(rescued.context));
    var later := ExecDefers(step.kind.rescue, In(at, Rescue, 0), o, g);
    Both(later, ExecDefers(step.kind.body, In(at, Body, 0), o, later.frame))
  }

  /** A try succeeds exactly if its cleanup does, and its body did or failed in a way that is caught and rescued:
      by a rescue without error of which something ran. */
  lemma TrySucceeds(step: Step, at: Site, o: Oracle, f: Frame)
    requires at.In? && step.kind.TryCatch? && Runs(at, o, f) && o(at).run
    ensures
      var r, attempted, rescued := ExecStep(step, at, o, f), Attempted(step, at, o, f), Rescued(step, at, o, f);
      && (r.err == OK <==>
            && CleanedUp(step, at, o, f).err == OK
            && (attempted.err == OK ||
                (IsCaught(step, at, o, f) && rescued.err == OK &&
                 exists k :: 0 <= k < |rescued.records| && rescued.records[k].status != SkippedStep)))
      && r.seen == See(at, f.ids) + (attempted.seen + rescued.seen + CleanedUp(step, at, o, f).seen)
      && r.records == [Record(step.decl.id, if r.err == OK then Succeeded else FailedStep)]
      && r.frame.ids == if r.err == OK then f.ids + {step.decl.id} else f.ids
  {
    TryIsItsParts(step, at, o, f);
    KeeperOutcome(step, at, o, f);
    KeeperRuns(step, at, o, f);
    var attempted, rescued := Attempted(step, at, o, f), Rescued(step, at, o, f);
    VerdictIs(o(at), attempted, rescued, CleanedUp(step, at, o, f));
    assert !IsCaught(step, at, o, f) ==> rescued.err == OK;
  }

  lemma VerdictIs(c: Choice, attempted: Result, rescued: Result, cleanup: Result)
    requires !Caught(attempted, c) ==> rescued.err == OK
    ensures
      TryResult(c, attempted, rescued, cleanup).err == OK <==>
        && cleanup.err == OK
        && (attempted.err == OK ||
            (Caught(attempted, c) && rescued.err == OK &&
             exists k :: 0 <= k < |rescued.records| && rescued.records[k].status != SkippedStep))
  {
  }

  lemma TryIsItsParts(step: Step, at: Site, o: Oracle, f: Frame)
    requires at.In? && step.kind.TryCatch?
    ensures
      var g := Private(Arrive(at, o, f)).(registered := {});
      var attempted, rescued := Attempted(step, at, o, f), Rescued(step, at, o, f);
      ExecTryCatch(step, at, o, g) == TryResult(o(at), attempted, rescued, CleanedUp(step, at, o, f))
  {
    var attempted := Attempted(step, at, o, f);
    assert Caught(attempted, o(at)) <==> IsCaught(step, at, o, f);
    assert ExecCatch(step, at, o, attempted) == Rescued(step, at, o, f);
    var rescued := Rescued(step, at, o, f);
    assert TryCleanup(step, at, o, Shielded(rescued.frame)) == CleanedUp(step, at, o, f);
  }

  /** Rescue steps run in order past failures, until one is cancelled or leaves a context that is over; the rest
      is then recorded as skipped. */
  lemma RescueStepByStep(steps: seq<Step>, at: Site, o: Oracle, f: Frame)
    requires at.In? && steps != []
    ensures
      var r, all := ExecStep(steps[0], at, o, f), ExecRescue(steps, at, o, f);
      if r.err != OK && (o(at).contextDone || r.frame.context.Over() || r.err.canceled) then
        && all.err == r.err && all.frame == r.frame && all.seen == r.seen
        && all.records == r.records + SkipRecords(steps[1..])
      else
        var rest := ExecRescue(steps[1..], Next(at), o, r.frame);
        && all.err == Join(r.err, rest.err) && all.frame == rest.frame
        && all.seen == r.seen + rest.seen && all.records == r.records + rest.records
  {
  }

  // ---------------------------------------------------------------------------------------
  // Groups

  /** The branches of a group that have run, in the order its choice gives. */
  ghost function BranchesOf(step: Step, at: Site, o: Oracle, f: Frame): GroupRun
    requires step.kind.Concurrent?
  {
    RunBranches(step.kind, at, o, Arrive(at, o, f), o(at).order)
  }

  lemma {:induction false} JoinedIsOk(done: map<nat, Result>, n: nat, primary: bool)
    ensures (forall k: nat :: k < n && k in done ==> done[k].err == OK) ==> JoinDone(done, n, primary) == OK
    ensures JoinDone(done, n, false) == OK ==> forall k: nat :: k < n && k in done ==> done[k].err == OK
  {
    if n > 0 {
      JoinedIsOk(done, n - 1, primary);
      JoinedIsOk(done, n - 1, false);
    }
  }

  /** A group succeeds exactly if every branch ran with success, it did not time out, and no context around it
      is over at its end. */
  lemma GroupSucceeds(step: Step, at: Site, o: Oracle, f: Frame)
    requires at.In? && step.kind.Concurrent? && Runs(at, o, f)
    ensures
      var r, run, n := ExecStep(step, at, o, f), BranchesOf(step, at, o, f), |step.kind.body|;
      && (r.err == OK <==>
            && !Turn(run.context, o(at).during).Over() && o(at).error == OK
            && forall k: nat :: k < n ==> k in run.done && run.done[k].err == OK)
      && (r.err != OK ==> r.frame.ids == f.ids)
      && r.frame.returning == f.returning && r.frame.registered == run.registered
      && r.frame.context == Turn(run.context, o(at).during)
      && (forall k :: k in run.done ==> run.done[k].seen <= r.seen)
      && r.records == GroupRecords(step.kind.body, run.done, n)
  {
    var run, n := BranchesOf(step, at, o, f), |step.kind.body|;
    JoinedIsOk(run.done, n, true);
    JoinedIsOk(run.done, n, false);
    GroupIs(step, at, o, f);
    assert ExecGroup(step, at, o, Arrive(at, o, f)) == GroupResult(step, Arrive(at, o, f), run, o(at));
  }

  lemma GroupIs(step: Step, at: Site, o: Oracle, f: Frame)
    requires at.In? && step.kind.Concurrent? && Runs(at, o, f)
    ensures
      var r, run := ExecStep(step, at, o, f), BranchesOf(step, at, o, f);
      var after := run.(context := Turn(run.context, o(at).during));
      var published := set a, id | a in run.done && id in BranchIds(step.kind.body, run.done, a) :: id;
      && r.err == GroupError(step.kind, after, o(at))
      && r.frame.ids == (if r.err == OK then f.ids + published else f.ids) && r.frame.returning == f.returning
  {
    var g := Arrive(at, o, f);
    assert ExecGroup(step, at, o, g) == GroupResult(step, g, BranchesOf(step, at, o, f), o(at));
  }

  /** A group that succeeds publishes what its branches published of their own, and nothing else. */
  lemma GroupPublishes(step: Step, at: Site, o: Oracle, f: Frame, id: string)
    requires at.In? && step.kind.Concurrent? && Runs(at, o, f) && ExecStep(step, at, o, f).err == OK
    ensures
      var run := BranchesOf(step, at, o, f);
      id in ExecStep(step, at, o, f).frame.ids <==>
        id in f.ids ||
        exists k :: k in run.done && k < |step.kind.body| && id in SelectedStep(step.kind.body[k]) &&
          id in run.done[k].frame.ids
  {
    var run := BranchesOf(step, at, o, f);
    GroupSucceeds(step, at, o, f);
    GroupIs(step, at, o, f);
    forall a | a in run.done
      ensures id in BranchIds(step.kind.body, run.done, a) <==>
        a < |step.kind.body| && id in SelectedStep(step.kind.body[a]) && id in run.done[a].frame.ids
    {
    }
  }

  /** A branch starts from the state outside the group and what the branches it transitively needs published,
      and from nothing else; it keeps a return to itself. */
  lemma BranchSees(branches: seq<Step>, f: Frame, before: GroupRun, k: nat, id: string)
    ensures !BranchFrame(branches, f, before, k).returning
    ensures id in BranchFrame(branches, f, before, k).ids <==>
      id in f.ids ||
      exists a :: a in before.done && a < |branches| && Depends(NeedEdges(branches), k, a) &&
        before.done[a].err == OK && id in SelectedStep(branches[a]) && id in before.done[a].frame.ids
  {
    forall a | a in before.done
      ensures id in BranchIds(branches, before.done, a) <==>
        a < |branches| && before.done[a].err == OK && id in SelectedStep(branches[a]) && id in before.done[a].frame.ids
    {
    }
  }

  /** The group's records stand in the order its branches are declared: those of each that ran, and skipped ones
      for each that a failure left behind. */
  lemma {:induction false} GroupRecordsInOrder(branches: seq<Step>, done: map<nat, Result>, n: nat)
    requires n < |branches|
    ensures
      var behind := exists a :: a in done && done[a].err != OK && Depends(NeedEdges(branches), n, a);
      GroupRecords(branches, done, n + 1) == GroupRecords(branches, done, n) +
        if n in done then done[n].records else if behind then SkipStepRecords(branches[n]) else []
  {
    if a :| a in done && done[a].err != OK && Depends(NeedEdges(branches), n, a) {
      assert a in FatesOf(done) && !FatesOf(done)[a];
    }
  }

  // ---------------------------------------------------------------------------------------
  // Whole runs

  /** A run succeeds exactly if its main steps did, or were cut off by a service, and its services, its deferred
      cleanup and its final steps did; cleanup and final steps run in any case. */
  lemma RunSucceeds(steps: seq<Step>, finale: seq<Step>, o: Oracle, ids: set<string>, inherits: bool)
    ensures
      var r, main := ExecWorkflow(steps, finale, o, ids, inherits), ExecMain(steps, o, ids, inherits);
      var defers := ExecDefers(steps, In(Workflow, Main, 0), o,
                               Frame(main.frame.ids, false, main.frame.registered, CLEANUP));
      var last := ExecEach(finale, In(Workflow, Finally, 0), o, defers.frame);
      && (r.err == OK <==>
            && (main.err == OK || (main.frame.context.Ended() && CancellationOnly(main.err)))
            && o(Workflow).service == OK && defers.err == OK && last.err == OK)
      && r.records == main.records + (defers.records + last.records)
      && r.seen == main.seen + (defers.seen + last.seen)
  {
    var main := ExecMain(steps, o, ids, inherits);
    assert Cleaning(main.frame) == Frame(main.frame.ids, false, main.frame.registered, CLEANUP);
  }

  // ---------------------------------------------------------------------------------------
  // Which error remains

  /** Everything the part contains is in the whole. */
  predicate Carries(all: Err, part: Err) {
    (part.canceled ==> all.canceled) && (part.deadline ==> all.deadline) && (part.failure ==> all.failure)
  }

  /** Joining keeps both errors and adds nothing. A scope's error keeps that of its services, and that of its
      foreground unless this reports only the cancellation with which a service failed. */
  lemma JoinsCarry(a: Err, b: Err)
    ensures Carries(Join(a, b), a) && Carries(Join(a, b), b)
    ensures forall all: Err :: Carries(all, a) && Carries(all, b) ==> Carries(all, Join(a, b))
    ensures Carries(JoinBackground(a, b), b)
    ensures !Carries(JoinBackground(a, b), a) ==>
      a == CANCELED && (b.deadline || b.failure || !b.canceled) && b != OK && JoinBackground(a, b) == b
    ensures Carries(Join(a, b), JoinBackground(a, b))
  {
  }

  /** An iteration failed with an error that reports no cancellation. */
  ghost predicate AnyFailed(step: Step, at: Site, o: Oracle, f: Frame, n: nat)
    requires step.kind.Fanout?
  {
    exists k: nat :: k < n && Iteration(step, at, o, f, k).err != OK && !Iteration(step, at, o, f, k).err.canceled
  }

  /** The error of a fan-out is the cancellation of a context around it, or its own, or those of its iterations: all
      of them, but if it fails fast only the ones that report no cancellation, should there be any. */
  lemma FanoutCarries(step: Step, at: Site, o: Oracle, f: Frame, k: nat, whole: Err)
    requires at.In? && step.kind.Fanout? && Runs(at, o, f) && o(at).run
    ensures
      var r, n := ExecStep(step, at, o, f), o(at).passes;
      var primary := step.kind.failFast && AnyFailed(step, at, o, f, n);
      if Turn(ExecIterations(step.kind.body, at, o, Arrive(at, o, f), n).frame.context, o(at).during).Over() then
        r.err == CANCELED
      else if o(at).error != OK then r.err == o(at).error
      else
        && (k < n && (primary ==> !Iteration(step, at, o, f, k).err.canceled) ==>
              Carries(r.err, Iteration(step, at, o, f, k).err))
        && (primary ==> !r.err.canceled)
        && (AllCarried(step, at, o, f, n, whole) ==> Carries(whole, r.err))
  {
    var g, n := Arrive(at, o, f), o(at).passes;
    var all, primary := ExecIterations(step.kind.body, at, o, g, n), PrimaryError(step.kind.body, at, o, g, n);
    IterationsCarry(step, at, o, f, n, k, whole);
    PrimaryIsFailure(step, at, o, f, n);
    if k < n && !Iteration(step, at, o, f, k).err.canceled {
      PrimaryHas(step, at, o, f, n, k);
    }
    if AllCarried(step, at, o, f, n, whole) {
      PrimaryWithin(step, at, o, f, n, whole);
    }
    KeeperRuns(step, at, o, f);
    var joined := IterationError(step.kind.failFast, all.err, primary);
    assert ExecPrivate(step, at, o, g) ==
      all.(err := Ruled(if o(at).error != OK then o(at).error else joined, all.frame, o(at)));
  }

  lemma {:induction false} PrimaryIsFailure(step: Step, at: Site, o: Oracle, f: Frame, n: nat)
    requires step.kind.Fanout?
    ensures
      var primary := PrimaryError(step.kind.body, at, o, Arrive(at, o, f), n);
      !primary.canceled && (primary != OK <==> AnyFailed(step, at, o, f, n))
    decreases n
  {
    if n > 0 {
      PrimaryIsFailure(step, at, o, f, n - 1);
      PrimaryJoins(step, at, o, f, n - 1);
      AnyFailedNext(step, at, o, f, n - 1);
    }
  }

  lemma {:induction false} PrimaryHas(step: Step, at: Site, o: Oracle, f: Frame, n: nat, k: nat)
    requires step.kind.Fanout? && k < n && !Iteration(step, at, o, f, k).err.canceled
    ensures Carries(PrimaryError(step.kind.body, at, o, Arrive(at, o, f), n), Iteration(step, at, o, f, k).err)
    decreases n
  {
    PrimaryJoins(step, at, o, f, n - 1);
    if k < n - 1 {
      PrimaryHas(step, at, o, f, n - 1, k);
    }
  }

  lemma {:induction false} PrimaryWithin(step: Step, at: Site, o: Oracle, f: Frame, n: nat, whole: Err)
    requires step.kind.Fanout? && AllCarried(step, at, o, f, n, whole)
    ensures Carries(whole, PrimaryError(step.kind.body, at, o, Arrive(at, o, f), n))
    decreases n
  {
    if n > 0 {
      PrimaryWithin(step, at, o, f, n - 1, whole);
      PrimaryJoins(step, at, o, f, n - 1);
    }
  }

  lemma AnyFailedNext(step: Step, at: Site, o: Oracle, f: Frame, n: nat)
    requires step.kind.Fanout?
    ensures
      var err := Iteration(step, at, o, f, n).err;
      AnyFailed(step, at, o, f, n + 1) <==> AnyFailed(step, at, o, f, n) || (err != OK && !err.canceled)
  {
  }

  lemma PrimaryJoins(step: Step, at: Site, o: Oracle, f: Frame, k: nat)
    requires step.kind.Fanout?
    ensures
      var g, err := Arrive(at, o, f), Iteration(step, at, o, f, k).err;
      PrimaryError(step.kind.body, at, o, g, k + 1) ==
        Join(PrimaryError(step.kind.body, at, o, g, k), if err.canceled then OK else err)
  {
    var g := Arrive(at, o, f);
    var before := ExecIterations(step.kind.body, at, o, g, k);
    assert Fork(g, before.frame) == Frame(f.ids, false, before.frame.registered, before.frame.context);
  }

  ghost predicate AllCarried(step: Step, at: Site, o: Oracle, f: Frame, n: nat, whole: Err)
    requires step.kind.Fanout?
  {
    forall j: nat :: j < n ==> Carries(whole, Iteration(step, at, o, f, j).err)
  }

  lemma {:induction false} IterationsCarry(step: Step, at: Site, o: Oracle, f: Frame, n: nat, k: nat, whole: Err)
    requires step.kind.Fanout?
    ensures
      var err := ExecIterations(step.kind.body, at, o, Arrive(at, o, f), n).err;
      && (k < n ==> Carries(err, Iteration(step, at, o, f, k).err))
      && (AllCarried(step, at, o, f, n, whole) ==> Carries(whole, err))
    decreases n
  {
    if n > 0 {
      IterationsCarry(step, at, o, f, n - 1, k, whole);
      IterationJoins(step, at, o, f, n - 1);
    }
  }

  lemma IterationJoins(step: Step, at: Site, o: Oracle, f: Frame, k: nat)
    requires step.kind.Fanout?
    ensures
      var g := Arrive(at, o, f);
      ExecIterations(step.kind.body, at, o, g, k + 1).err ==
        Join(ExecIterations(step.kind.body, at, o, g, k).err, Iteration(step, at, o, f, k).err)
  {
    var g := Arrive(at, o, f);
    var before := ExecIterations(step.kind.body, at, o, g, k);
    assert Fork(g, before.frame) == Frame(f.ids, false, before.frame.registered, before.frame.context);
  }

  /** The error of an attempt is that of its last pass, or its own. */
  lemma AttemptCarries(step: Step, at: Site, o: Oracle, f: Frame)
    requires at.In? && step.kind.Attempt? && Runs(at, o, f) && o(at).run
    ensures
      var r, n := ExecStep(step, at, o, f), o(at).passes;
      var ended := Turn(ExecPasses(step.kind.body, at, o, Arrive(at, o, f), n).frame.context, o(at).during).Over();
      && (step.kind.body == [] ==> r.err == o(at).error)
      && (step.kind.body != [] && ended ==> r.err == CANCELED)
      && (step.kind.body != [] && !ended && n == 0 ==> r.err == FAILED)
      && (step.kind.body != [] && !ended && n > 0 ==>
            var last := PassOf(step, at, o, f, n - 1).err;
            r.err == if last != OK then last else o(at).error)
  {
    var g, n := Arrive(at, o, f), o(at).passes;
    KeeperRuns(step, at, o, f);
    if n > 0 {
      var before := ExecPasses(step.kind.body, at, o, g, n - 1).frame;
      assert Fork(g, before) == Frame(f.ids, false, before.registered, before.context);
      assert ExecPasses(step.kind.body, at, o, g, n).err == PassOf(step, at, o, f, n - 1).err;
    }
  }

  /** The error of a step that runs once is that of its body, or its own; of a race its own, unless a context
      around it is over. */
  lemma OnceAndRaceCarry(step: Step, at: Site, o: Oracle, f: Frame)
    requires at.In? && (step.kind.Once? || step.kind.CancelOn?) && Runs(at, o, f) && o(at).run
    ensures
      var r, g := ExecStep(step, at, o, f), Arrive(at, o, f);
      if step.kind.Once? then
        var body := ExecSequence(step.kind.body, In(at, Body, 0), o, g.(returning := false));
        !o(at).replayed ==> r.err == if body.err != OK then body.err else o(at).error
      else
        r.err == if Turn(ExecRace(step, at, o, g).frame.context, o(at).during).Over() then CANCELED else o(at).error
  {
    if !(step.kind.Once? && o(at).replayed) {
      KeeperRuns(step, at, o, f);
    }
  }

  /** The error of a try, where it has one, is that of its cleanup with: the body's, if there was nothing to
      catch or nothing ran to rescue it; the rescue's alone, if the rescue was cancelled; otherwise both. */
  lemma TryCarries(step: Step, at: Site, o: Oracle, f: Frame)
    requires at.In? && step.kind.TryCatch? && Runs(at, o, f) && o(at).run
    ensures
      var r, attempted, rescued := ExecStep(step, at, o, f), Attempted(step, at, o, f), Rescued(step, at, o, f);
      var cleanup := CleanedUp(step, at, o, f).err;
      && Carries(r.err, cleanup)
      && (rescued.err != OK ==> Carries(r.err, rescued.err))
      && (rescued.err != OK && !o(at).contextDoneLater && !rescued.frame.context.Over() && !rescued.err.canceled ==>
            r.err == Join(Join(attempted.err, rescued.err), cleanup))
      && (rescued.err != OK && (o(at).contextDoneLater || rescued.frame.context.Over() || rescued.err.canceled) ==>
            r.err == Join(rescued.err, cleanup))
      && (rescued.err == OK && (!IsCaught(step, at, o, f) || AllSkipped(rescued.records)) ==>
            r.err == Join(attempted.err, cleanup))
  {
    TryIsItsParts(step, at, o, f);
    KeeperRuns(step, at, o, f);
    var attempted, rescued := Attempted(step, at, o, f), Rescued(step, at, o, f);
    assert Caught(attempted, o(at)) <==> IsCaught(step, at, o, f);
    JoinsCarry(Verdict(o(at), attempted, rescued), CleanedUp(step, at, o, f).err);
  }

  /** The error of a block, and that of a run, carries what went wrong in its body, its services and its cleanup,
      but for a cancellation that a service brought about. */
  lemma BlockCarries(step: Step, at: Site, o: Oracle, f: Frame)
    requires at.In? && (step.kind.Executor? || step.kind.Worktree?) && Runs(at, o, f)
    ensures
      var r, main, cleanup := ExecStep(step, at, o, f), MainOf(step, at, o, f), CleanupOf(step, at, o, f);
      && Carries(r.err, cleanup.err) && Carries(r.err, o(at).late) && Carries(r.err, o(at).service)
      && (main.err.deadline ==> r.err.deadline) && (main.err.failure ==> r.err.failure)
      && (main.err.canceled && !CancellationOnly(main.err) ==> r.err.canceled)
      && (CancellationOnly(main.err) && !main.frame.context.Ended() && o(at).service == OK ==> r.err.canceled)
      && Carries(Join(Join(main.err, o(at).service), Join(cleanup.err, o(at).late)), r.err)
  {
    var g, main := Arrive(at, o, f), MainOf(step, at, o, f);
    assert EnterScope(g) == g.(registered := {}, context := Nest(g.context));
    assert Cleaning(main.frame) == Frame(main.frame.ids, false, main.frame.registered, CLEANUP);
    assert ScopeCleanup(step, at, o, Cleaning(main.frame)) == CleanupOf(step, at, o, f);
    assert ExecScope(step, at, o, g) == ScopeResult(g, main, CleanupOf(step, at, o, f), o(at).service);
    ScopeCarries(g, main, CleanupOf(step, at, o, f), o(at));
  }

  lemma ScopeCarries(g: Frame, main: Result, cleanup: Result, c: Choice)
    ensures
      var err := Join(ScopeResult(g, main, cleanup, c.service).err, c.late);
      && Carries(err, cleanup.err) && Carries(err, c.late) && Carries(err, c.service)
      && (main.err.deadline ==> err.deadline) && (main.err.failure ==> err.failure)
      && (main.err.canceled && !CancellationOnly(main.err) ==> err.canceled)
      && (CancellationOnly(main.err) && !main.frame.context.Ended() && c.service == OK ==> err.canceled)
      && Carries(Join(Join(main.err, c.service), Join(cleanup.err, c.late)), err)
  {
    JoinsCarry(Foreground(main), c.service);
  }

  lemma RunCarries(steps: seq<Step>, finale: seq<Step>, o: Oracle, ids: set<string>, inherits: bool)
    ensures
      var r, main := ExecWorkflow(steps, finale, o, ids, inherits), ExecMain(steps, o, ids, inherits);
      var ending := Ending(steps, finale, o, Frame(main.frame.ids, false, main.frame.registered, CLEANUP));
      && Carries(r.err, ending.err) && Carries(r.err, o(Workflow).service)
      && (main.err.deadline ==> r.err.deadline) && (main.err.failure ==> r.err.failure)
      && (main.err.canceled && !CancellationOnly(main.err) ==> r.err.canceled)
      && (CancellationOnly(main.err) && !main.frame.context.Ended() && o(Workflow).service == OK ==> r.err.canceled)
      && Carries(Join(Join(main.err, o(Workflow).service), ending.err), r.err)
  {
    var main := ExecMain(steps, o, ids, inherits);
    assert Cleaning(main.frame) == Frame(main.frame.ids, false, main.frame.registered, CLEANUP);
    JoinsCarry(Foreground(main), o(Workflow).service);
  }

  lemma {:induction false} JoinedCarries(done: map<nat, Result>, n: nat, primary: bool, k: nat, whole: Err)
    ensures k < n && k in done && !(primary && done[k].err.canceled) ==>
      Carries(JoinDone(done, n, primary), done[k].err)
    ensures primary ==> !JoinDone(done, n, primary).canceled
    ensures (forall j: nat :: j < n && j in done && !(primary && done[j].err.canceled) ==> Carries(whole, done[j].err))
      ==> Carries(whole, JoinDone(done, n, primary))
    decreases n
  {
    if n > 0 {
      JoinedCarries(done, n - 1, primary, k, whole);
    }
  }

  /** Some branch failed with an error that reports no cancellation. */
  predicate AnyPrimary(done: map<nat, Result>, n: nat) {
    exists j: nat :: j < n && j in done && done[j].err != OK && !done[j].err.canceled
  }

  /** The error of a group is the cancellation of a context around it, or its own, or those of its branches: all
      of them, but if it fails fast only the ones that report no cancellation, should there be any. */
  lemma GroupCarries(step: Step, at: Site, o: Oracle, f: Frame, k: nat, whole: Err)
    requires at.In? && step.kind.Concurrent? && Runs(at, o, f)
    ensures
      var r, run, n := ExecStep(step, at, o, f), BranchesOf(step, at, o, f), |step.kind.body|;
      var primary := step.kind.failFast && AnyPrimary(run.done, n);
      if Turn(run.context, o(at).during).Over() then r.err == CANCELED
      else if o(at).error != OK then r.err == o(at).error
      else
        && (k < n && k in run.done && (primary ==> !run.done[k].err.canceled) ==> Carries(r.err, run.done[k].err))
        && (primary ==> !r.err.canceled)
        && ((forall j: nat :: j < n ==> j in run.done && Carries(whole, run.done[j].err)) ==> Carries(whole, r.err))
  {
    var run, n := BranchesOf(step, at, o, f), |step.kind.body|;
    GroupIs(step, at, o, f);
    JoinedCarries(run.done, n, true, k, whole);
    JoinedCarries(run.done, n, false, k, whole);
    if j: nat :| j < n && j in run.done && run.done[j].err != OK && !run.done[j].err.canceled {
      JoinedCarries(run.done, n, true, j, whole);
    } else {
      NothingPrimary(run.done, n);
    }
  }

  lemma {:induction false} NothingPrimary(done: map<nat, Result>, n: nat)
    requires forall j: nat :: j < n && j in done ==> done[j].err == OK || done[j].err.canceled
    ensures JoinDone(done, n, true) == OK
  {
    if n > 0 {
      NothingPrimary(done, n - 1);
    }
  }

  // ---------------------------------------------------------------------------------------
  // What skipping records

  /** The ids of returns among the steps that are recorded for a sequence. */
  function ReturnIds(steps: seq<Step>): set<string>
    decreases steps
  {
    if steps == [] then {} else StepReturnIds(steps[0]) + ReturnIds(steps[1..])
  }

  function StepReturnIds(step: Step): set<string>
    decreases step
  {
    match step.kind
    case Return => {step.decl.id}
    case Executor(body, finale) => ReturnIds(body) + ReturnIds(finale)
    case Conditional(body) => ReturnIds(body)
    case Scoped(body) => ReturnIds(body)
    case Concurrent(body, _, _) => ReturnIds(body)
    case _ => {}
  }

  predicate Recorded(records: seq<Record>, id: string) {
    exists k :: 0 <= k < |records| && records[k].id == id
  }

  lemma RecordedJoin(a: seq<Record>, b: seq<Record>, id: string)
    ensures Recorded(a + b, id) <==> Recorded(a, id) || Recorded(b, id)
  {
    assert forall k :: 0 <= k < |a| ==> (a + b)[k] == a[k];
    assert forall k :: 0 <= k < |b| ==> (a + b)[|a| + k] == b[k];
  }

  lemma SkippedJoin(a: seq<Record>, b: seq<Record>)
    ensures AllSkipped(a + b) <==> AllSkipped(a) && AllSkipped(b)
  {
    WorkedJoin(a, b);
  }

  /** Skipping records every step as skipped. */
  lemma {:induction false} SkippingSkips(steps: seq<Step>)
    ensures AllSkipped(SkipRecords(steps)) && AllSkipped(SkipDeferRecords(steps))
    decreases steps
  {
    if steps != [] {
      SkippingStepSkips(steps[0]);
      SkippingSkips(steps[1..]);
      SkippedJoin(SkipStepRecords(steps[0]), SkipRecords(steps[1..]));
      SkippedJoin(SkipDeferRecords(steps[1..]), SkipStepDeferRecords(steps[0]));
    }
  }

  lemma {:induction false} SkippingStepSkips(step: Step)
    ensures AllSkipped(SkipStepRecords(step)) && AllSkipped(SkipStepDeferRecords(step))
    decreases step
  {
    match step.kind
    case Executor(body, finale) =>
      SkippingSkips(body);
      SkippingSkips(finale);
      SkippedJoin(SkipRecords(body), SkipDeferRecords(body));
      SkippedJoin(SkipRecords(body) + SkipDeferRecords(body), SkipRecords(finale));
    case Conditional(body) => SkippingSkips(body);
    case Scoped(body) => SkippingSkips(body);
    case Concurrent(body, _, _) => SkippingSkips(body);
    case Leaf(deferred, _) => SkippingSkips(deferred);
    case Attempt(_, deferred) => SkippingSkips(deferred);
    case _ =>
  }

  /** Where no executor block defers cleanup, the ids recorded are those the steps publish to their surroundings,
      but for returns, which leave no record. */
  lemma {:induction false} RecordsAreSelected(steps: seq<Step>, id: string)
    requires !HasExecutorDefers(steps)
    ensures Recorded(SkipRecords(steps), id) ==> id in Selected(steps)
    ensures id in Selected(steps) ==> Recorded(SkipRecords(steps), id) || id in ReturnIds(steps)
    decreases steps
  {
    if steps != [] {
      StepRecordsAreSelected(steps[0], id);
      RecordsAreSelected(steps[1..], id);
      RecordedJoin(SkipStepRecords(steps[0]), SkipRecords(steps[1..]), id);
    }
  }

  lemma {:induction false} StepRecordsAreSelected(step: Step, id: string)
    requires !StepHasExecutorDefers(step)
    ensures Recorded(SkipStepRecords(step), id) ==> id in SelectedStep(step)
    ensures id in SelectedStep(step) ==> Recorded(SkipStepRecords(step), id) || id in StepReturnIds(step)
    decreases step
  {
    match step.kind
    case Executor(body, finale) =>
      RecordsAreSelected(body, id);
      RecordsAreSelected(finale, id);
      DeferRecordsBeyondLeaves(body);
      assert SkipDeferRecords(body) == [];
      RecordedJoin(SkipRecords(body), SkipDeferRecords(body), id);
      RecordedJoin(SkipRecords(body) + SkipDeferRecords(body), SkipRecords(finale), id);
    case Conditional(body) => RecordsAreSelected(body, id);
    case Scoped(body) => RecordsAreSelected(body, id);
    case Concurrent(body, _, _) => RecordsAreSelected(body, id);
    case Return =>
    case _ => assert SkipStepRecords(step)[0].id == step.decl.id;
  }
}
