/** Executing a step tree: what is published, what is recorded, and what each step can see. */
module Interpreter {
  import opened ConcurrentGraph
  import opened StepTree

  // ---------------------------------------------------------------------------------------
  // Places

  /** Which child sequence of its parent a step belongs to, or which expression of it is meant. */
  datatype Role = Main | Finally | Body | ExecutorBody | ExecutorFinally | Deferred | AttemptDeferred
                | Branch | Monitor | Rescue | UntilExpression | WhenExpression | CollectExpression

  /** Where a step is declared; `Pass` marks one repetition of a body and is dropped statically. */
  datatype Site = Workflow | In(parent: Site, role: Role, index: nat) | Pass(of: Site, number: nat)

  function Next(at: Site): Site
    requires at.In?
  {
    In(at.parent, at.role, at.index + 1)
  }

  function Static(at: Site): Site {
    match at
    case Workflow => Workflow
    case In(parent, role, index) => In(Static(parent), role, index)
    case Pass(of, _) => Static(of)
  }

  // ---------------------------------------------------------------------------------------
  // Errors

  /** What a possibly joined error contains; all three absent means no error. */
  datatype Err = Err(canceled: bool, deadline: bool, failure: bool)

  const OK := Err(false, false, false)
  const CANCELED := Err(true, false, false)
  const FAILED := Err(false, false, true)

  function Join(a: Err, b: Err): Err {
    Err(a.canceled || b.canceled, a.deadline || b.deadline, a.failure || b.failure)
  }

  predicate CancellationOnly(e: Err) {
    e.canceled && !e.deadline && !e.failure
  }

  /** A failed or timed-out status; a cancellation without a deadline counts as canceled. */
  predicate Catchable(e: Err) {
    e != OK && (e.deadline || !e.canceled)
  }

  /** A scope's foreground error joined with that of its services: a real service failure replaces a
      foreground that only reports cancellation. */
  function JoinBackground(foreground: Err, background: Err): Err {
    if CancellationOnly(foreground) && background != OK && !CancellationOnly(background) then background
    else Join(foreground, background)
  }

  // ---------------------------------------------------------------------------------------
  // Contexts

  /** The contexts a step runs in, each derived from the one before: level 0 is the caller's, any other is
      the scope of services of the run or of a block. `serving` says which of them can end: the caller's,
      and a scope in which a service was started that ends it on exit. The first `live` levels are not
      over; cancellation does not come through the first `shield` levels. `inherits` says what the end of
      the caller's context is: that of a scope a service ended, in which the run was called, or a plain
      cancellation. */
  datatype Context = Context(serving: seq<bool>, shield: nat, live: nat, inherits: bool) {
    predicate Over() {
      live < |serving|
    }

    /** Over because a service ended a scope: the cause of a context is that of the first level to end. */
    predicate Ended() {
      live < |serving| && (live > 0 || inherits)
    }

    /** Over because a service ended a scope that the run was called in. */
    predicate CutOutside() {
      live == 0 < |serving| && inherits
    }

    /** A service may run that can end the innermost scope. */
    predicate Armed() {
      |serving| > 1 && serving[|serving| - 1]
    }
  }

  /** A run's own scope inside the caller's context. */
  function Root(inherits: bool): Context {
    Context([true, false], 0, 2, inherits)
  }

  /** The context of a scope's cleanup: detached, and with its services sealed. */
  const CLEANUP := Context([false], 0, 1, false)

  /** The `n`-th level from the inside ends now, if it can. */
  function Turn(c: Context, n: nat): Context {
    if 0 < n <= |c.serving| - c.shield && !c.Over() && c.serving[|c.serving| - n]
    then c.(live := |c.serving| - n) else c
  }

  /** A service is started in the innermost scope. */
  function Serve(c: Context): Context {
    if |c.serving| > 1 then c.(serving := c.serving[|c.serving| - 1 := true]) else c
  }

  function Nest(c: Context): Context {
    c.(serving := c.serving + [false], live := if c.Over() then c.live else |c.serving| + 1)
  }

  /** Back in the outer contexts, some of which may have ended while the inner one was open. */
  function Leave(outer: Context, inner: Context): Context {
    outer.(live := if inner.live < |outer.serving| then inner.live else |outer.serving|)
  }

  /** Cancellation from outside does not come through, but services can be started. */
  function Shield(c: Context): Context {
    c.(shield := |c.serving|, live := |c.serving|)
  }

  // ---------------------------------------------------------------------------------------
  // Choices

  /** Everything about one execution of a step that the tree does not determine. */
  datatype Choice = Choice(
    ends: nat,          // which context ends as the step is reached, counted from the inside
    before: Err,        // an error before the step runs, as from evaluating its condition
    run: bool,          // its condition
    during: nat,        // which context ends while the step runs
    error: Err,         // the step's own error once started
    late: Err,          // an error while leaving a block
    service: Err,       // the joined error of the block's services
    contextDone: bool,  // a timeout around the step is over when it is done
    contextDoneLater: bool,  // and after the rescue of a try
    replayed: bool,     // a recorded outcome is replayed
    passes: nat,        // how often a body runs
    order: seq<nat>)    // in which order branches start

  type Oracle = Site -> Choice

  // ---------------------------------------------------------------------------------------
  // State and results

  /** The run state steps share: published step ids, the return flag, the owners whose deferred cleanup
      is registered in the current defer scope, and the contexts. */
  datatype Frame = Frame(ids: set<string>, returning: bool, registered: set<string>, context: Context)

  /** What a step could refer to when it was reached. */
  datatype Observation = Observation(at: Site, ids: set<string>)

  datatype Result = Result(frame: Frame, records: seq<Record>, seen: set<Observation>, err: Err)

  /** The ids whose outputs a sequence publishes to its surroundings. */
  function Selected(steps: seq<Step>): set<string>
    decreases steps
  {
    if steps == [] then {} else SelectedStep(steps[0]) + Selected(steps[1..])
  }

  function SelectedStep(step: Step): set<string>
    decreases step
  {
    match step.kind
    case Executor(body, finale) => Selected(body) + Selected(finale)
    case Conditional(body) => Selected(body)
    case Scoped(body) => Selected(body)
    case Concurrent(body, _, _) => Selected(body)
    case _ => {step.decl.id}
  }

  function See(at: Site, ids: set<string>): set<Observation> {
    {Observation(Static(at), ids)}
  }

  function Append(a: Result, b: Result): Result {
    Result(b.frame, a.records + b.records, a.seen + b.seen, b.err)
  }

  /** Two runs in a row, of which a failure of the first does not prevent the second. */
  function Both(a: Result, b: Result): Result {
    Append(a, b).(err := Join(a.err, b.err))
  }

  /** A step that keeps a record of its own. */
  function Recorded(step: Step, frame: Frame, seen: set<Observation>, err: Err): Result {
    Result(frame, [Record(step.decl.id, if err == OK then Succeeded else FailedStep)], seen, err)
  }

  function SkippedResult(step: Step, frame: Frame, seen: set<Observation>): Result {
    Result(frame, [Record(step.decl.id, SkippedStep)], seen, OK)
  }

  function Publish(frame: Frame, id: string): Frame {
    frame.(ids := frame.ids + {id})
  }

  function Register(frame: Frame, id: string, deferred: seq<Step>): Frame {
    if deferred == [] then frame else frame.(registered := frame.registered + {id})
  }

  /** A private copy of the state, in the same defer scope and contexts. */
  function Private(frame: Frame): Frame {
    frame.(returning := false)
  }

  /** Another private copy, after one that registered cleanup or started services. */
  function Fork(frame: Frame, after: Frame): Frame {
    Keep(Private(frame), after)
  }

  /** What remains of a private run. */
  function Keep(frame: Frame, inner: Frame): Frame {
    frame.(registered := inner.registered, context := inner.context)
  }

  // ---------------------------------------------------------------------------------------
  // Execution

  ghost function ExecSequence(steps: seq<Step>, at: Site, o: Oracle, f: Frame): Result
    requires at.In?
    decreases steps, 0
  {
    if steps == [] then Result(f, [], {}, OK)
    else
      var r := ExecStep(steps[0], at, o, f);
      if r.err != OK then r
      else if EndsSequence(steps[0].kind, o(at), r.frame) then
        r.(records := r.records + SkipRecords(steps[1..]))
      else Append(r, ExecSequence(steps[1..], Next(at), o, r.frame))
  }

  /** A return that fired ends its sequence, and so do the blocks around it; controls swallow it. */
  predicate EndsSequence(kind: Kind, c: Choice, frame: Frame) {
    match kind
    case Return => c.run
    case Conditional(_) => frame.returning
    case Scoped(_) => frame.returning
    case Executor(_, _) => frame.returning
    case Worktree(_) => frame.returning
    case _ => false
  }

  /** Leaves, worktrees and controls keep a record of their own once they have started. */
  predicate KeepsRecord(kind: Kind) {
    kind.Leaf? || kind.Worktree? || kind.Fanout? || kind.Attempt? || kind.Once? || kind.TryCatch? || kind.CancelOn?
  }

  /** No step starts in a context that is over, and then it leaves no record. */
  ghost function ExecStep(step: Step, at: Site, o: Oracle, f: Frame): Result
    requires at.In?
    decreases step, 3
  {
    var g, seen := f.(context := Turn(f.context, o(at).ends)), See(at, f.ids);
    if g.context.Over() then Result(g, [], seen, CANCELED)
    else if o(at).before != OK then
      if KeepsRecord(step.kind) then Recorded(step, g, seen, o(at).before) else Result(g, [], seen, o(at).before)
    else Within(seen, if KeepsRecord(step.kind) then ExecRecorded(step, at, o, g) else ExecBlock(step, at, o, g))
  }

  function Within(seen: set<Observation>, r: Result): Result {
    r.(seen := seen + r.seen)
  }

  /** Blocks leave no record of their own. */
  ghost function ExecBlock(step: Step, at: Site, o: Oracle, f: Frame): Result
    requires at.In? && !KeepsRecord(step.kind)
    decreases step, 2
  {
    var c := o(at);
    match step.kind
    case Return => Result(if c.run then f.(returning := true) else f, [], {}, OK)
    case Conditional(body) =>
      if !c.run then Result(f, SkipRecords(body), {}, OK) else ExecSequence(body, In(at, Body, 0), o, f)
    case Scoped(body) => ExecSequence(body, In(at, Body, 0), o, f)
    case Executor(body, finale) =>
      var scope := ExecScope(step, at, o, f);
      scope.(err := Join(scope.err, c.late))
    case Concurrent(_, _, _) => ExecGroup(step, at, o, f)
  }

  ghost function ExecRecorded(step: Step, at: Site, o: Oracle, f: Frame): Result
    requires at.In? && KeepsRecord(step.kind)
    decreases step, 2
  {
    var c := o(at);
    if step.kind.Worktree? then
      var scope := ExecScope(step, at, o, f);
      var err := Join(scope.err, c.late);
      Recorded(step, if err == OK then Publish(scope.frame, step.decl.id) else scope.frame, scope.seen, err)
    else if !c.run then SkippedResult(step, f, {})
    else if step.kind.Once? && c.replayed then SkippedResult(step, Publish(f, step.decl.id), {})
    else Finish(step, f, c, ExecPrivate(step, at, o, f))
  }

  /** A leaf runs; a control runs its body on private copies of the state, and its error is decided. */
  ghost function ExecPrivate(step: Step, at: Site, o: Oracle, f: Frame): Result
    requires at.In? && KeepsRecord(step.kind) && !step.kind.Worktree?
    decreases step, 1
  {
    var c := o(at);
    match step.kind
    case Leaf(_, service) => Result(if service then f.(context := Serve(f.context)) else f, [], {}, c.error)
    case Fanout(body, failFast) =>
      var all := ExecIterations(body, at, o, f, c.passes);
      var joined := IterationError(failFast, all.err, PrimaryError(body, at, o, f, c.passes));
      all.(err := Ruled(if c.error != OK then c.error else joined, all.frame, c))
    case Attempt(body, _) =>
      var last := ExecPasses(body, at, o, f, c.passes);
      var passed := if c.passes == 0 then FAILED else if last.err == OK then c.error else last.err;
      last.(err := if body == [] then c.error else Ruled(passed, last.frame, c))
    case Once(body) =>
      var r := ExecSequence(body, In(at, Body, 0), o, Private(f));
      r.(err := if r.err == OK then c.error else r.err)
    case TryCatch(_, _) =>
      var r := ExecTryCatch(step, at, o, Private(f).(registered := {}));
      r.(frame := r.frame.(registered := f.registered))
    case CancelOn(_, _) =>
      var r := ExecRace(step, at, o, f);
      r.(err := Ruled(c.error, r.frame, c))
  }

  /** When a control has come to its end, a context that is over takes precedence. */
  function Ruled(err: Err, inner: Frame, c: Choice): Err {
    if Turn(inner.context, c.during).Over() then CANCELED else err
  }

  /** The cleanup a step registers when it succeeds. */
  function DeferredBy(kind: Kind): seq<Step> {
    if kind.Leaf? || kind.Attempt? then kind.deferred else []
  }

  /** A step that kept a record publishes its own id when it succeeds; of a private run only registrations
      and services remain. */
  function Finish(step: Step, f: Frame, c: Choice, inner: Result): Result {
    var after := Keep(f, inner.frame.(context := Turn(inner.frame.context, c.during)));
    if inner.err != OK then Recorded(step, after, inner.seen, inner.err)
    else Recorded(step, Register(Publish(after, step.decl.id), step.decl.id, DeferredBy(step.kind)), inner.seen, OK)
  }

  // ---------------------------------------------------------------------------------------
  // Scopes with cleanup

  /** Where the body of a block or control starts. */
  function BodyAt(step: Step, at: Site): Site {
    In(at, if step.kind.Executor? then ExecutorBody else Body, 0)
  }

  /** A block with defer and service scopes of its own: the body, then its cleanup. */
  ghost function ExecScope(step: Step, at: Site, o: Oracle, f: Frame): Result
    requires step.kind.Executor? || step.kind.Worktree?
    decreases step, 1
  {
    var main := ExecSequence(step.kind.body, BodyAt(step, at), o, EnterScope(f));
    var cleanup := ScopeCleanup(step, at, o, Cleaning(main.frame));
    ScopeResult(f, main, cleanup, o(at).service)
  }

  function ScopeResult(f: Frame, main: Result, cleanup: Result, service: Err): Result {
    Result(LeaveScope(f, main.frame, cleanup.frame), main.records + cleanup.records, main.seen + cleanup.seen,
           Join(JoinBackground(Foreground(main), service), cleanup.err))
  }

  function EnterScope(f: Frame): Frame {
    f.(registered := {}, context := Nest(f.context))
  }

  /** In cleanup a return does not count as fired, and nothing is cancelled. */
  function Cleaning(f: Frame): Frame {
    f.(returning := false, context := CLEANUP)
  }

  function LeaveScope(outer: Frame, main: Frame, cleaned: Frame): Frame {
    Frame(cleaned.ids, main.returning, outer.registered, Leave(outer.context, main.context))
  }

  /** A body that was only cancelled because a service ended its scope counts as successful. */
  function Foreground(main: Result): Err {
    if main.frame.context.Ended() && CancellationOnly(main.err) then OK else main.err
  }

  /** The deferred cleanup of a scope, then its final steps. */
  ghost function ScopeCleanup(step: Step, at: Site, o: Oracle, f: Frame): Result
    requires step.kind.Executor? || step.kind.Worktree?
    decreases step, 0
  {
    var defers := ExecDefers(step.kind.body, BodyAt(step, at), o, f);
    if step.kind.Executor? then
      Both(defers, ExecEach(step.kind.finale, In(at, ExecutorFinally, 0), o, defers.frame))
    else defers
  }

  /** Cleanup steps run one by one; a failure does not stop the next. */
  ghost function ExecEach(steps: seq<Step>, at: Site, o: Oracle, f: Frame): Result
    requires at.In?
    decreases steps, 0
  {
    if steps == [] then Result(f, [], {}, OK)
    else
      var r := ExecStep(steps[0], at, o, f);
      Both(r, ExecEach(steps[1..], Next(at), o, r.frame))
  }

  /** The deferred cleanup of a scope, last declared group first: registered groups run, the others
      are recorded as skipped. */
  ghost function ExecDefers(steps: seq<Step>, at: Site, o: Oracle, f: Frame): Result
    requires at.In?
    decreases steps, 0
  {
    if steps == [] then Result(f, [], {}, OK)
    else
      var later := ExecDefers(steps[1..], Next(at), o, f);
      Both(later, ExecStepDefers(steps[0], at, o, later.frame))
  }

  ghost function ExecStepDefers(step: Step, at: Site, o: Oracle, f: Frame): Result
    decreases step, 0
  {
    match step.kind
    case Conditional(body) => ExecDefers(body, In(at, Body, 0), o, f)
    case Scoped(body) => ExecDefers(body, In(at, Body, 0), o, f)
    case Leaf(deferred, _) =>
      if step.decl.id in f.registered then ExecEach(deferred, In(at, Deferred, 0), o, f)
      else Result(f, SkipRecords(deferred), {}, OK)
    case Attempt(_, deferred) =>
      if step.decl.id in f.registered then ExecEach(deferred, In(at, AttemptDeferred, 0), o, f)
      else Result(f, SkipRecords(deferred), {}, OK)
    case _ => Result(f, [], {}, OK)
  }

  // ---------------------------------------------------------------------------------------
  // Recovery

  /** Rescue steps also run one by one, until one of them is cancelled or the context is over. */
  ghost function ExecRescue(steps: seq<Step>, at: Site, o: Oracle, f: Frame): Result
    requires at.In?
    decreases steps, 0
  {
    if steps == [] then Result(f, [], {}, OK)
    else
      var r := ExecStep(steps[0], at, o, f);
      if StopsRescue(r, o(at)) then r.(records := r.records + SkipRecords(steps[1..]))
      else Both(r, ExecRescue(steps[1..], Next(at), o, r.frame))
  }

  predicate StopsRescue(r: Result, c: Choice) {
    r.err != OK && (c.contextDone || r.frame.context.Over() || r.err.canceled)
  }

  predicate AllSkipped(records: seq<Record>) {
    forall k :: 0 <= k < |records| ==> records[k].status == SkippedStep
  }

  /** There is something to catch. */
  predicate Caught(attempted: Result, c: Choice) {
    Catchable(attempted.err) && !c.contextDone && !attempted.frame.context.Over()
  }

  /** Try, then the rescue if there is something to catch, then the cleanup deferred by both. */
  ghost function ExecTryCatch(step: Step, at: Site, o: Oracle, f: Frame): Result
    requires step.kind.TryCatch?
    decreases step, 0, 1
  {
    var attempted := ExecSequence(step.kind.body, In(at, Body, 0), o, f);
    var rescued := ExecCatch(step, at, o, attempted);
    var cleanup := TryCleanup(step, at, o, Shielded(rescued.frame));
    TryResult(o(at), attempted, rescued, cleanup)
  }

  function TryResult(c: Choice, attempted: Result, rescued: Result, cleanup: Result): Result {
    Result(Unshield(rescued.frame, cleanup.frame), attempted.records + rescued.records + cleanup.records,
           attempted.seen + rescued.seen + cleanup.seen,
           Join(Verdict(c, attempted, rescued), cleanup.err))
  }

  ghost function ExecCatch(step: Step, at: Site, o: Oracle, attempted: Result): Result
    requires step.kind.TryCatch?
    decreases step, 0, 0
  {
    if Caught(attempted, o(at)) then ExecRescue(step.kind.rescue, In(at, Rescue, 0), o, attempted.frame)
    else Result(attempted.frame, SkipRecords(step.kind.rescue), {}, OK)
  }

  /** The error of a try before its cleanup: a rescue of which nothing ran recovers nothing. */
  function Verdict(c: Choice, attempted: Result, rescued: Result): Err {
    if Caught(attempted, c) && rescued.err == OK && !AllSkipped(rescued.records) then OK
    else if rescued.err == OK then attempted.err
    else if c.contextDoneLater || rescued.frame.context.Over() || rescued.err.canceled then rescued.err
    else Join(attempted.err, rescued.err)
  }

  /** The cleanup deferred by the rescue, then that deferred by the body. */
  ghost function TryCleanup(step: Step, at: Site, o: Oracle, f: Frame): Result
    requires step.kind.TryCatch?
    decreases step, 0, 0
  {
    var later := ExecDefers(step.kind.rescue, In(at, Rescue, 0), o, f);
    Both(later, ExecDefers(step.kind.body, In(at, Body, 0), o, later.frame))
  }

  /** The cleanup of a try is not cancelled. */
  function Shielded(f: Frame): Frame {
    f.(context := Shield(f.context))
  }

  /** After cleanup the contexts are as before, but for services started in it. */
  function Unshield(f: Frame, cleaned: Frame): Frame {
    cleaned.(context := f.context.(serving := cleaned.context.serving))
  }

  // ---------------------------------------------------------------------------------------
  // Repeated and parallel bodies

  /** Independent iterations, each on a private copy; one that succeeded may be collected. */
  ghost function ExecIterations(body: seq<Step>, at: Site, o: Oracle, f: Frame, n: nat): Result
    decreases body, 1, n
  {
    if n == 0 then Result(f, [], {}, OK)
    else
      var before := ExecIterations(body, at, o, f, n - 1);
      var r := ExecSequence(body, In(Pass(at, n - 1), Body, 0), o, Fork(f, before.frame));
      var collected := if r.err == OK then See(In(at, CollectExpression, 0), r.frame.ids) else {};
      Result(Keep(f, r.frame), [], before.seen + r.seen + collected, Join(before.err, r.err))
  }

  /** The errors of the iterations that report no cancellation. */
  ghost function PrimaryError(body: seq<Step>, at: Site, o: Oracle, f: Frame, n: nat): (err: Err)
    ensures ExecIterations(body, at, o, f, n).err == OK ==> err == OK
    decreases body, 2, n
  {
    if n == 0 then OK
    else
      var before := ExecIterations(body, at, o, f, n - 1);
      var r := ExecSequence(body, In(Pass(at, n - 1), Body, 0), o, Fork(f, before.frame));
      Join(PrimaryError(body, at, o, f, n - 1), if r.err.canceled then OK else r.err)
  }

  /** Where one failure is enough to stop, the cancellations it brought about are dropped. */
  function IterationError(failFast: bool, all: Err, primary: Err): Err {
    if failFast && primary != OK then primary else all
  }

  /** Successive passes of an attempt: `until` reads a successful pass, `when` the state outside. */
  ghost function ExecPasses(body: seq<Step>, at: Site, o: Oracle, f: Frame, n: nat): Result
    decreases body, 1, n
  {
    if n == 0 then Result(f, [], {}, OK)
    else
      var before := ExecPasses(body, at, o, f, n - 1);
      var r := ExecSequence(body, In(Pass(at, n - 1), Body, 0), o, Fork(f, before.frame));
      var judged :=
        if r.err == OK then See(In(at, UntilExpression, 0), r.frame.ids) else See(In(at, WhenExpression, 0), f.ids);
      Result(Keep(f, r.frame), [], before.seen + r.seen + judged, r.err)
  }

  /** The monitors racing a cancel_on body, each on a private copy. */
  ghost function ExecMonitors(monitors: seq<Step>, at: Site, o: Oracle, f: Frame): Result
    requires at.In?
    decreases monitors, 0
  {
    if monitors == [] then Result(f, [], {}, OK)
    else
      var r := ExecStep(monitors[0], at, o, f);
      var rest := ExecMonitors(monitors[1..], Next(at), o, Keep(f, r.frame));
      rest.(seen := r.seen + rest.seen)
  }

  /** Monitors and body on private copies; what becomes of them is the step's own error. */
  ghost function ExecRace(step: Step, at: Site, o: Oracle, f: Frame): Result
    requires step.kind.CancelOn?
    decreases step, 0
  {
    var watched := ExecMonitors(step.kind.monitors, In(at, Monitor, 0), o, Private(f));
    var main := ExecSequence(step.kind.body, In(at, Body, 0), o, Fork(f, watched.frame));
    Result(main.frame, [], main.seen + watched.seen, OK)
  }

  // ---------------------------------------------------------------------------------------
  // Concurrent groups

  function Declarations(steps: seq<Step>): seq<Declaration> {
    seq(|steps|, i requires 0 <= i < |steps| => steps[i].decl)
  }

  lemma IndexesMore(decls: seq<Declaration>, ids: map<string, nat>)
    requires decls != [] && IndexesIds(decls[..|decls| - 1], ids)
    ensures var last := decls[|decls| - 1].id; IndexesIds(decls, if last == "" then ids else ids[last := |decls| - 1])
  {
    var front := decls[..|decls| - 1];
    assert forall k :: 0 <= k < |front| ==> front[k] == decls[k];
    forall id | id in ids && id != decls[|decls| - 1].id
      ensures Resolves(decls, id, ids[id])
    {
      assert Resolves(front, id, ids[id]);
    }
  }

  /** The last position of every id. */
  ghost function IdMap(decls: seq<Declaration>): (ids: map<string, nat>)
    ensures IndexesIds(decls, ids)
    decreases |decls|
  {
    if decls == [] then map[]
    else
      var front, last := decls[..|decls| - 1], decls[|decls| - 1];
      IndexesMore(decls, IdMap(front));
      if last.id == "" then IdMap(front) else IdMap(front)[last.id := |decls| - 1]
  }

  ghost function NeedEdges(steps: seq<Step>): seq<seq<nat>> {
    var decls := Declarations(steps);
    seq(|steps|, i requires 0 <= i < |steps| => Index(IdMap(decls), decls[i].needs))
  }

  ghost function AfterEdges(steps: seq<Step>): seq<seq<nat>> {
    var decls := Declarations(steps);
    seq(|steps|, i requires 0 <= i < |steps| => Index(IdMap(decls), decls[i].after))
  }

  /** The branches that are over, and whether each ended without error. */
  type Fates = map<nat, bool>

  function FatesOf(done: map<nat, Result>): Fates {
    map k | k in done :: done[k].err == OK
  }

  /** A branch that transitively needs a failed one. */
  ghost predicate Behind(branches: seq<Step>, fates: Fates, k: nat) {
    exists a :: a in fates && !fates[a] && Depends(NeedEdges(branches), k, a)
  }

  /** All it needs has succeeded, and all it runs after has run or will not. */
  ghost predicate Ready(branches: seq<Step>, fates: Fates, k: nat) {
    && k < |branches|
    && k !in fates
    && (forall d :: d in NeedEdges(branches)[k] ==> d in fates && fates[d])
    && (forall a :: a in AfterEdges(branches)[k] ==> a in fates || Behind(branches, fates, a))
  }

  /** With room for one branch the first that is ready starts. With more room any may be the next to take
      effect: one that was started can be held up while the others go on. */
  ghost predicate MayStart(group: Kind, fates: Fates, k: nat)
    requires group.Concurrent?
  {
    && Ready(group.body, fates, k)
    && (group.serial ==> forall j: nat :: j < k ==> !Ready(group.body, fates, j))
    && (group.failFast ==> forall a :: a in fates ==> fates[a])
  }

  /** What a finished branch publishes to those that need it, and to the group's commit. */
  function BranchIds(branches: seq<Step>, done: map<nat, Result>, a: nat): set<string> {
    if a < |branches| && a in done && done[a].err == OK then SelectedStep(branches[a]) * done[a].frame.ids else {}
  }

  /** The ids in a branch's read state: those of the snapshot and of its ancestors. */
  ghost function ReadIds(branches: seq<Step>, ids: set<string>, done: map<nat, Result>, k: nat): set<string> {
    ids + set a, id | a in done && Depends(NeedEdges(branches), k, a) && id in BranchIds(branches, done, a) :: id
  }

  datatype GroupRun = GroupRun(done: map<nat, Result>, registered: set<string>, context: Context)

  ghost function BranchFrame(branches: seq<Step>, f: Frame, before: GroupRun, k: nat): Frame {
    Frame(ReadIds(branches, f.ids, before.done, k), false, before.registered, before.context)
  }

  /** Starts branches in the order given, passing over those that may not start; none starts in a context
      that is over. */
  ghost function RunBranches(group: Kind, at: Site, o: Oracle, f: Frame, order: seq<nat>): GroupRun
    requires group.Concurrent?
    decreases group, 0, |order|
  {
    if order == [] then GroupRun(map[], f.registered, f.context)
    else
      var before := RunBranches(group, at, o, f, order[..|order| - 1]);
      var k := order[|order| - 1];
      if before.context.Over() || !MayStart(group, FatesOf(before.done), k) then before
      else
        var r := ExecStep(group.body[k], In(at, Branch, k), o, BranchFrame(group.body, f, before, k));
        GroupRun(before.done[k := r], r.frame.registered, r.frame.context)
  }

  /** The branches' errors, or only the primary ones that report no cancellation. */
  function JoinDone(done: map<nat, Result>, n: nat, primary: bool): Err {
    if n == 0 then OK
    else
      var counts := n - 1 in done && !(primary && done[n - 1].err.canceled);
      Join(JoinDone(done, n - 1, primary), if counts then done[n - 1].err else OK)
  }

  /** Records in declaration order; a branch behind a failed need is recorded as skipped. */
  ghost function GroupRecords(branches: seq<Step>, done: map<nat, Result>, n: nat): seq<Record>
    requires n <= |branches|
  {
    if n == 0 then [] else GroupRecords(branches, done, n - 1) + BranchRecord(branches, done, n - 1)
  }

  ghost function BranchRecord(branches: seq<Step>, done: map<nat, Result>, k: nat): seq<Record>
    requires k < |branches|
  {
    if k in done then done[k].records
    else if Behind(branches, FatesOf(done), k) then SkipStepRecords(branches[k])
    else []
  }

  /** The group's error: a context that is over comes first, then a timeout, then the branches' errors, of
      which a group that fails fast drops cancellations behind a failure. Without any of them every branch
      has run. */
  function GroupError(group: Kind, run: GroupRun, c: Choice): Err
    requires group.Concurrent?
  {
    if run.context.Over() then CANCELED
    else if c.error != OK then c.error
    else if group.failFast && JoinDone(run.done, |group.body|, true) != OK then JoinDone(run.done, |group.body|, true)
    else if JoinDone(run.done, |group.body|, false) != OK then JoinDone(run.done, |group.body|, false)
    else if forall k: nat :: k < |group.body| ==> k in run.done then OK
    else FAILED
  }

  ghost function ExecGroup(step: Step, at: Site, o: Oracle, f: Frame): Result
    requires step.kind.Concurrent?
    decreases step, 1
  {
    GroupResult(step, f, RunBranches(step.kind, at, o, f, o(at).order), o(at))
  }

  /** When its branches are over, a group without error commits what they publish. */
  ghost function GroupResult(step: Step, f: Frame, all: GroupRun, c: Choice): Result
    requires step.kind.Concurrent?
  {
    var branches, run := step.kind.body, all.(context := Turn(all.context, c.during));
    var err := GroupError(step.kind, run, c);
    var published := set a, id | a in run.done && id in BranchIds(branches, run.done, a) :: id;
    Result(f.(ids := if err == OK then f.ids + published else f.ids, registered := run.registered,
              context := run.context),
           GroupRecords(branches, run.done, |branches|),
           (set a, x | a in run.done && x in run.done[a].seen :: x),
           err)
  }

  // ---------------------------------------------------------------------------------------
  // A whole run

  ghost function ExecMain(steps: seq<Step>, o: Oracle, ids: set<string>, inherits: bool): Result {
    ExecSequence(steps, In(Workflow, Main, 0), o, Frame(ids, false, {}, Root(inherits)))
  }

  /** The main steps, the services joined, then deferred cleanup and the workflow's final steps. A run that
      a step calls is a run like any other, but inherits the end of the scope it is called in. */
  ghost function ExecWorkflow(steps: seq<Step>, finale: seq<Step>, o: Oracle, ids: set<string>,
                              inherits: bool): Result
  {
    var main := ExecMain(steps, o, ids, inherits);
    var ending := Ending(steps, finale, o, Cleaning(main.frame));
    Append(main, ending).(err := Join(JoinBackground(Foreground(main), o(Workflow).service), ending.err))
  }

  ghost function Ending(steps: seq<Step>, finale: seq<Step>, o: Oracle, f: Frame): Result {
    var defers := ExecDefers(steps, In(Workflow, Main, 0), o, f);
    Both(defers, ExecEach(finale, In(Workflow, Finally, 0), o, defers.frame))
  }
}
