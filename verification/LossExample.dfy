/** The smallest runs that succeed without the record of one of their steps. */
module LossExample {
  import opened ConcurrentGraph
  import opened StepTree
  import opened Interpreter
  import opened ServiceScopes
  import opened StepAccounting
  import opened SmoothRun
  import opened RecordLoss

  function Plain(id: string, service: bool): Step {
    Step(Declaration(id, [], []), Leaf([], service))
  }

  function Block(body: seq<Step>): Step {
    Step(Declaration("block", [], []), Executor(body, []))
  }

  /** Nothing fails, and a context ends as `cut` is reached. */
  function EndsAt(cut: Site, level: nat): Oracle {
    (at: Site) => Choice(if at == cut then level else 0, OK, true, 0, OK, OK, OK, false, false, false, 0, [])
  }

  /** The contexts after a step. */
  function Around(service: bool, c: Context): Context {
    if service then Serve(c) else c
  }

  lemma PlainStep(id: string, service: bool, at: Site, o: Oracle, f: Frame)
    requires at.In? && Alive(f.context) && o(at) == EndsAt(Workflow, 0)(at)
    ensures
      var r := ExecStep(Plain(id, service), at, o, f);
      && r.err == OK && r.records == [Record(id, Succeeded)]
      && r.frame == Publish(f, id).(context := Around(service, f.context))
  {
    assert Turn(f.context, 0) == f.context && f.(context := f.context) == f;
    var c, step, around := o(at), Plain(id, service), Around(service, f.context);
    assert c.ends == 0 && c.before == OK && c.run && c.during == 0 && c.error == OK;
    assert ExecPrivate(step, at, o, f) == Result(f.(context := around), [], {}, OK);
    assert Finish(step, f, c, ExecPrivate(step, at, o, f)).frame == Publish(f, id).(context := around);
    assert ExecRecorded(step, at, o, f).frame == Publish(f, id).(context := around);
  }

  /** Two steps in one sequence, with a context that can end and does so between them. */
  lemma FirstAlone(id: string, service: bool, second: Step, at: Site, f: Frame, level: nat)
    requires at.In? && Alive(f.context) && f.context.shield == 0 && 0 < level <= |f.context.serving|
    requires Around(service, f.context).serving[|f.context.serving| - level]
    ensures
      var r := ExecSequence([Plain(id, service), second], at, EndsAt(Next(at), level), f);
      && r.records == [Record(id, Succeeded)] && r.err == CANCELED
      && r.frame.returning == f.returning && r.frame.registered == f.registered
      && r.frame.context == Around(service, f.context).(live := |f.context.serving| - level)
  {
    var o, both := EndsAt(Next(at), level), [Plain(id, service), second];
    assert both[1..] == [second] && at != Next(at);
    PlainStep(id, service, at, o, f);
    var r := ExecStep(both[0], at, o, f);
    assert ExecStep(second, Next(at), o, r.frame).err == CANCELED;
    assert ExecSequence([second], Next(at), o, r.frame) == ExecStep(second, Next(at), o, r.frame);
  }

  lemma {:induction false} NoCleanup(steps: seq<Step>, at: Site, o: Oracle, f: Frame)
    requires at.In? && forall k :: 0 <= k < |steps| ==> steps[k].kind.Leaf? && steps[k].kind.deferred == []
    ensures ExecDefers(steps, at, o, f) == Result(f, [], {}, OK) && SkipDeferRecords(steps) == []
  {
    if steps != [] {
      NoCleanup(steps[1..], Next(at), o, f);
      assert ExecEach([], In(at, Deferred, 0), o, f) == Result(f, [], {}, OK) && SkipRecords([]) == [];
      assert ExecStepDefers(steps[0], at, o, f) == Result(f, [], {}, OK);
      assert SkipStepDeferRecords(steps[0]) == [];
    }
  }

  predicate Quiet(c: Choice) {
    c.ends == 0 && c.before == OK && c.late == OK && c.service == OK
  }

  predicate Ends(main: Result) {
    main.err == CANCELED && |main.frame.context.serving| == 3 && main.frame.context.live == 2
  }

  lemma CleanupEnds(body: seq<Step>, at: Site, o: Oracle, g: Frame)
    requires at.In? && forall k :: 0 <= k < |body| ==> body[k].kind.Leaf? && body[k].kind.deferred == []
    ensures ScopeCleanup(Block(body), at, o, g) == Result(g, [], {}, OK)
  {
    NoCleanup(body, BodyAt(Block(body), at), o, g);
    assert ExecEach([], In(at, ExecutorFinally, 0), o, g) == Result(g, [], {}, OK);
  }

  lemma BlockEnds(body: seq<Step>, at: Site, o: Oracle, f: Frame)
    requires at.In? && Quiet(o(at)) && f.context == Root(false)
    requires forall k :: 0 <= k < |body| ==> body[k].kind.Leaf? && body[k].kind.deferred == []
    requires Ends(ExecSequence(body, BodyAt(Block(body), at), o, EnterScope(f)))
    ensures
      var main, r := ExecSequence(body, BodyAt(Block(body), at), o, EnterScope(f)), ExecScope(Block(body), at, o, f);
      && r.err == OK && r.records == main.records && r.frame.context == Root(false)
      && r.frame.returning == main.frame.returning
  {
    var main := ExecSequence(body, BodyAt(Block(body), at), o, EnterScope(f));
    var cleanup := ScopeCleanup(Block(body), at, o, Cleaning(main.frame));
    CleanupEnds(body, at, o, Cleaning(main.frame));
    ScopeEnds(f, main, cleanup);
  }

  lemma BlockStepEnds(step: Step, at: Site, o: Oracle, f: Frame)
    requires at.In? && step.kind.Executor? && Quiet(o(at)) && f.context == Root(false)
    requires var r := ExecScope(step, at, o, f); r.err == OK
    ensures
      var scope, r := ExecScope(step, at, o, f), ExecStep(step, at, o, f);
      r.err == OK && r.records == scope.records && r.frame == scope.frame
  {
    assert Turn(f.context, 0) == f.context && f.(context := f.context) == f;
    assert ExecBlock(step, at, o, f).err == OK;
  }

  lemma ScopeEnds(f: Frame, main: Result, cleanup: Result)
    requires f.context == Root(false) && Ends(main) && cleanup.err == OK && cleanup.records == []
    ensures
      var r := ScopeResult(f, main, cleanup, OK);
      && r.err == OK && r.records == main.records && r.frame.context == Root(false)
      && r.frame.returning == main.frame.returning && r.frame.registered == f.registered
  {
  }

  lemma RunOf(step: Step, o: Oracle, ids: set<string>)
    requires step.kind.Executor? && o(Workflow).service == OK
    requires
      var r := ExecStep(step, In(Workflow, Main, 0), o, Frame(ids, false, {}, Root(false)));
      r.err == OK && !r.frame.returning && !r.frame.context.Over()
    ensures
      var r := ExecWorkflow([step], [], o, ids, false);
      r.err == OK && r.records == ExecStep(step, In(Workflow, Main, 0), o, Frame(ids, false, {}, Root(false))).records
  {
    var at, f := In(Workflow, Main, 0), Frame(ids, false, {}, Root(false));
    var first := ExecStep(step, at, o, f);
    var main := ExecSequence([step], at, o, f);
    assert [step][1..] == [];
    assert ExecSequence([], Next(at), o, first.frame) == Result(first.frame, [], {}, OK);
    assert main.records == first.records && main.err == OK;
    var g := Cleaning(main.frame);
    assert ExecDefers([], Next(at), o, g) == Result(g, [], {}, OK);
    assert ExecDefers([step], at, o, g) == Result(g, [], {}, OK);
    assert Ending([step], [], o, g) == Result(g, [], {}, OK);
  }

  /** A service that ends the scope of its block before the next step of the block starts: the block and the
      run succeed, and only the service has left a record. */
  lemma ServiceBeforeWork(ids: set<string>) returns (o: Oracle)
    ensures
      var block := Block([Plain("service", true), Plain("work", false)]);
      var r := ExecWorkflow([block], [], o, ids, false);
      && AllRecords([block], []) == 2 && SkipRecords([block]) != []
      && r.err == OK && r.records == [Record("service", Succeeded)]
  {
    var body := [Plain("service", true), Plain("work", false)];
    var block, at, f := Block(body), In(Workflow, Main, 0), Frame(ids, false, {}, Root(false));
    o := EndsAt(Next(BodyAt(block, at)), 1);
    FirstAlone("service", true, body[1], BodyAt(block, at), EnterScope(f), 1);
    BlockEnds(body, at, o, f);
    BlockStepEnds(block, at, o, f);
    RunOf(block, o, ids);
    TwoRecords(body);
  }

  lemma TwoRecords(body: seq<Step>)
    requires |body| == 2 && forall k :: 0 <= k < 2 ==> body[k].kind.Leaf? && body[k].kind.deferred == []
    ensures AllRecords([Block(body)], []) == 2
  {
    assert [Block(body)][1..] == [];
    PlainRecords(body);
    NoCleanup(body, In(Workflow, Main, 0), EndsAt(Workflow, 0), Frame({}, false, {}, Root(false)));
    assert |SkipStepRecords(Block(body))| == 2;
    assert SkipDeferRecords([]) == [] && SkipDeferRecords([Block(body)]) == [];
  }

  /** In the other order nothing is lost, unless a step calls the run. */
  lemma WorkBeforeService()
    ensures
      var block := Block([Plain("work", false), Plain("service", true)]);
      AlwaysAccounted([block], [], false) && !AlwaysAccounted([block], [], true)
  {
    var body := [Plain("work", false), Plain("service", true)];
    var block := Block(body);
    assert body[1..] == [body[1]] && [body[1]][1..] == [] && [block][1..] == [];
    LeavesAreSafe(body);
    assert !LosesWork([body[1]]) && !LosesWork(body);
    assert !StepLosesWork(block) && !StepStarts(block) && !StepLossyBlocks(block) && !StepLossyDefers(block);
    assert !LosesWork([]) && !LosesWork([block]) && !LossyBlocks([]) && !LossyDefers([]);
    assert !LossyBlocks([block]) && !LossyDefers([block]) && GroupsAcyclic([block]);
    AlwaysAccountedIff([block], [], false);
    TwoRecords(body);
    AlwaysAccountedIff([block], [], true);
  }

  lemma {:induction false} LeavesAreSafe(steps: seq<Step>)
    requires forall k :: 0 <= k < |steps| ==> steps[k].kind.Leaf? && steps[k].kind.deferred == []
    ensures !LossyBlocks(steps) && !LossyDefers(steps) && GroupsAcyclic(steps)
  {
    if steps != [] {
      LeavesAreSafe(steps[1..]);
      assert !LossyBlocks([]) && GroupsAcyclic([]);
      assert !StepLossyDefers(steps[0]) && StepGroupsAcyclic(steps[0]);
    }
  }

  /** Without any service of its own a run can lose a record, but only if a step calls it: here a service of
      its caller ends the scope it is called in between its two steps. */
  lemma CalledBetween(ids: set<string>) returns (o: Oracle)
    ensures
      var steps := [Plain("first", false), Plain("second", false)];
      var r := ExecWorkflow(steps, [], o, ids, true);
      && AllRecords(steps, []) == 2 && r.err == OK && r.records == [Record("first", Succeeded)]
      && AlwaysAccounted(steps, [], false)
  {
    var steps := [Plain("first", false), Plain("second", false)];
    var at := In(Workflow, Main, 0);
    o := EndsAt(Next(at), 2);
    FirstAlone("first", false, steps[1], at, Frame(ids, false, {}, Root(true)), 2);
    CalledRunOf(steps, o, ids);
    PlainRecords(steps);
    NeverLost(steps);
  }

  lemma CalledRunOf(steps: seq<Step>, o: Oracle, ids: set<string>)
    requires forall k :: 0 <= k < |steps| ==> steps[k].kind.Leaf? && steps[k].kind.deferred == []
    requires Foreground(ExecMain(steps, o, ids, true)) == OK && o(Workflow).service == OK
    ensures
      var r := ExecWorkflow(steps, [], o, ids, true);
      r.err == OK && r.records == ExecMain(steps, o, ids, true).records
  {
    var g := Cleaning(ExecMain(steps, o, ids, true).frame);
    NoCleanup(steps, In(Workflow, Main, 0), o, g);
    assert Ending(steps, [], o, g) == Result(g, [], {}, OK);
  }

  lemma {:induction false} NoServiceNoLoss(steps: seq<Step>)
    requires forall k :: 0 <= k < |steps| ==> steps[k].kind == Leaf([], false)
    ensures !LosesWork(steps)
  {
    if steps != [] {
      NoServiceNoLoss(steps[1..]);
      assert !StepLosesWork(steps[0]) && !StepStarts(steps[0]);
    }
  }

  lemma NeverLost(steps: seq<Step>)
    requires forall k :: 0 <= k < |steps| ==> steps[k].kind == Leaf([], false)
    ensures AlwaysAccounted(steps, [], false)
  {
    LeavesAreSafe(steps);
    NoServiceNoLoss(steps);
    assert !LossyBlocks([]) && GroupsAcyclic([]);
    AlwaysAccountedIff(steps, [], false);
  }

  lemma PlainRecords(steps: seq<Step>)
    requires |steps| == 2 && forall k :: 0 <= k < 2 ==> steps[k].kind.Leaf? && steps[k].kind.deferred == []
    ensures AllRecords(steps, []) == 2
  {
    assert steps[1..] == [steps[1]];
    assert SkipRecords([]) == [] && |SkipStepRecords(steps[0])| == 1 && |SkipStepRecords(steps[1])| == 1;
    assert |SkipRecords([steps[1]])| == 1;
    NoCleanup(steps, In(Workflow, Main, 0), EndsAt(Workflow, 0), Frame({}, false, {}, Root(false)));
  }
}
