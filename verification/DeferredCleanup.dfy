/** Deferred groups and the cleanup of a scope: which steps run, in which order, and what failures each
    of them can see. */
module DeferredCleanup {
  import opened Collections
  import opened StepTree

  // ---------------------------------------------------------------------------------------
  // Deferred groups

  /** A collected group; `env` is the environment its owner committed under, if a scoped one. */
  datatype Group = Group(owner: string, steps: seq<Step>, active: bool, env: Option<nat>)

  /** The environment an active group's steps run under. */
  function GroupEnv(group: Group, outside: nat): nat {
    if group.env.Some? then group.env.value else outside
  }

  function Pending(groups: seq<DeferGroup>): seq<Group> {
    seq(|groups|, k requires 0 <= k < |groups| => Group(groups[k].owner, groups[k].steps, false, None))
  }

  /** The last group declared under each owner id. */
  ghost predicate LastByOwner(groups: seq<Group>, byOwner: map<string, nat>) {
    && (forall id :: id in byOwner ==>
          && byOwner[id] < |groups| && groups[byOwner[id]].owner == id
          && forall k :: byOwner[id] < k < |groups| ==> groups[k].owner != id)
    && (forall k :: 0 <= k < |groups| ==> groups[k].owner in byOwner)
  }

  /** An owner committed, under a scoped environment or not. */
  datatype Commit = Commit(owner: string, env: Option<nat>)

  /** No later group has the same owner. */
  predicate IsLast(groups: seq<Group>, k: nat)
    requires k < |groups|
  {
    forall j :: k < j < |groups| ==> groups[j].owner != groups[k].owner
  }

  /** The last group of the owner is activated, and no other. */
  function Activated(groups: seq<Group>, c: Commit): seq<Group> {
    seq(|groups|, k requires 0 <= k < |groups| =>
      if groups[k].owner == c.owner && IsLast(groups, k) then groups[k].(active := true, env := c.env) else groups[k])
  }

  class DeferStack {
    var groups: seq<Group>
    var byOwner: map<string, nat>

    ghost predicate Valid()
      reads this
    {
      LastByOwner(groups, byOwner)
    }

    constructor (steps: seq<Step>)
      ensures Valid() && groups == Pending(DeferGroups(steps))
    {
      groups, byOwner := [], map[];
      new;
      Collect(steps);
      assert groups == Pending(DeferGroups(steps));
    }

    /** Appends the groups of a scope in declaration order. */
    method Collect(steps: seq<Step>)
      requires Valid()
      modifies this
      ensures Valid() && groups == old(groups) + Pending(DeferGroups(steps))
      decreases steps, 0
    {
      for k := 0 to |steps|
        invariant Valid() && groups == old(groups) + Pending(DeferGroups(steps[..k]))
      {
        ghost var sofar := Pending(DeferGroups(steps[..k]));
        CollectedMore(steps, k);
        CollectStep(steps[k]);
        assert groups == old(groups) + (sofar + Pending(StepDeferGroups(steps[k])));
      }
      assert steps[..|steps|] == steps;
    }

    method CollectStep(step: Step)
      requires Valid()
      modifies this
      ensures Valid() && groups == old(groups) + Pending(StepDeferGroups(step))
      decreases step, 1
    {
      match step.kind
      case Executor(_, _) => assert groups == old(groups) + Pending([]);
      case Worktree(_) => assert groups == old(groups) + Pending([]);
      case Scoped(body) => Collect(body);
      case Conditional(body) => Collect(body);
      case Leaf(deferred, _) => Add(step.decl.id, deferred);
      case Attempt(_, deferred) => Add(step.decl.id, deferred);
      case _ => assert groups == old(groups) + Pending([]);
    }

    method Add(owner: string, deferred: seq<Step>)
      requires Valid()
      modifies this
      ensures Valid()
      ensures groups == old(groups) + Pending(if deferred == [] then [] else [DeferGroup(owner, deferred)])
    {
      if |deferred| == 0 {
        assert groups == old(groups) + Pending([]);
        return;
      }
      byOwner := byOwner[owner := |groups|];
      groups := groups + [Group(owner, deferred, false, None)];
      assert groups == old(groups) + Pending([DeferGroup(owner, deferred)]);
    }

    /** An owner that committed activates its group and no other. */
    method Register(owner: string, env: Option<nat>)
      requires Valid()
      modifies this`groups
      ensures Valid() && groups == Activated(old(groups), Commit(owner, env))
    {
      if owner in byOwner {
        var k := byOwner[owner];
        groups := groups[k := groups[k].(active := true, env := env)];
      }
    }

    method StepCount() returns (total: nat)
      ensures total == TotalLeaves(groups)
    {
      total := 0;
      for k := 0 to |groups|
        invariant total == TotalLeaves(groups[..k])
      {
        assert groups[..k + 1][..k] == groups[..k];
        total := total + LeafCount(groups[k].steps);
      }
      assert groups[..|groups|] == groups;
    }
  }

  function TotalLeaves(groups: seq<Group>): nat {
    if groups == [] then 0 else TotalLeaves(groups[..|groups| - 1]) + LeafCount(groups[|groups| - 1].steps)
  }

  lemma CollectedMore(steps: seq<Step>, k: nat)
    requires k < |steps|
    ensures Pending(DeferGroups(steps[..k + 1])) == Pending(DeferGroups(steps[..k])) +
        Pending(StepDeferGroups(steps[k]))
  {
    DeferGroupsEnd(steps, k + 1);
    PendingJoin(DeferGroups(steps[..k]), StepDeferGroups(steps[k]));
  }

  lemma PendingJoin(a: seq<DeferGroup>, b: seq<DeferGroup>)
    ensures Pending(a + b) == Pending(a) + Pending(b)
  {
  }

  lemma {:induction false} DeferGroupsEnd(steps: seq<Step>, n: nat)
    requires 0 < n <= |steps|
    ensures DeferGroups(steps[..n]) == DeferGroups(steps[..n - 1]) + StepDeferGroups(steps[n - 1])
    decreases n
  {
    var s := steps[..n];
    if n == 1 {
      assert s[1..] == [] && steps[..0] == [];
    } else {
      assert s[1..] == steps[1..][..n - 1];
      assert steps[..n - 1][1..] == steps[1..][..n - 2];
      DeferGroupsEnd(steps[1..], n - 1);
    }
  }

  // ---------------------------------------------------------------------------------------
  // Failures a cleanup step can see

  datatype Status = Success | Skip | Failure | Canceled | TimedOut
  datatype Fault = Fault(status: Status, message: string)

  /** What one step left in the statistics, with the statistics of its repeated bodies. */
  datatype Stats = Stats(id: string, status: Status, error: Option<string>, iterations: seq<Iteration>)
  datatype Iteration = Iteration(steps: seq<Stats>)

  datatype ErrorRecord = ErrorRecord(status: Status, message: string, step: string)

  /** The failures among recorded steps; a repeated body's own failures stand in for its control's. */
  function ErrorRecords(steps: seq<Stats>): seq<ErrorRecord>
    decreases steps
  {
    if steps == [] then [] else StatsErrors(steps[0]) + ErrorRecords(steps[1..])
  }

  function StatsErrors(s: Stats): seq<ErrorRecord>
    decreases s
  {
    var inner := IterationErrors(s.iterations);
    if inner != [] then inner
    else if s.error.None? || s.status == Success || s.status == Skip then []
    else [ErrorRecord(s.status, s.error.value, s.id)]
  }

  function IterationErrors(iterations: seq<Iteration>): seq<ErrorRecord>
    decreases iterations
  {
    if iterations == [] then [] else ErrorRecords(iterations[0].steps) + IterationErrors(iterations[1..])
  }

  /** The failures of the main steps; one without a record of its own is still reported. */
  function MainErrors(main: seq<Stats>, err: Option<Fault>): seq<ErrorRecord> {
    var records := ErrorRecords(main);
    if err.Some? && records == [] then [ErrorRecord(err.value.status, err.value.message, "")] else records
  }

  /** Something went wrong in the step: in its repeated bodies, or with an error of its own. */
  predicate WentWrong(s: Stats)
    decreases s
  {
    || (exists k :: 0 <= k < |s.iterations| && AnyWentWrong(s.iterations[k].steps))
    || (s.error.Some? && s.status != Success && s.status != Skip)
  }

  predicate AnyWentWrong(steps: seq<Stats>)
    decreases steps
  {
    exists k :: 0 <= k < |steps| && WentWrong(steps[k])
  }

  /** The record stands for this step, of which nothing inner went wrong. */
  predicate Names(r: ErrorRecord, s: Stats) {
    && s.error == Some(r.message) && s.status == r.status && s.id == r.step && r.status != Success && r.status != Skip
    && forall k :: 0 <= k < |s.iterations| ==> !AnyWentWrong(s.iterations[k].steps)
  }

  /** The step or one within it. */
  predicate Within(t: Stats, s: Stats)
    decreases s
  {
    || t == s
    || exists k, j :: 0 <= k < |s.iterations| && 0 <= j < |s.iterations[k].steps| && Within(t, s.iterations[k].steps[j])
  }

  /** There is a failure record exactly if something went wrong, and each is that of an innermost failure. */
  lemma {:induction false} RecordsAreFailures(s: Stats)
    ensures StatsErrors(s) != [] <==> WentWrong(s)
    ensures forall r :: r in StatsErrors(s) ==> exists t :: Within(t, s) && Names(r, t)
    decreases s
  {
    IterationRecords(s, 0);
    assert s.iterations[0..] == s.iterations;
    if IterationErrors(s.iterations) == [] && StatsErrors(s) != [] {
      assert Within(s, s) && Names(StatsErrors(s)[0], s);
    }
  }

  lemma {:induction false} IterationRecords(s: Stats, from: nat)
    requires from <= |s.iterations|
    ensures IterationErrors(s.iterations[from..]) != [] <==>
      exists k :: from <= k < |s.iterations| && AnyWentWrong(s.iterations[k].steps)
    ensures forall r :: r in IterationErrors(s.iterations[from..]) ==> exists t :: Within(t, s) && Names(r, t)
    decreases s, 0, |s.iterations| - from
  {
    if from < |s.iterations| {
      var rest, steps := s.iterations[from..], s.iterations[from].steps;
      assert rest[1..] == s.iterations[from + 1..];
      IterationRecords(s, from + 1);
      StepRecords(s, from, 0);
      assert steps[0..] == steps;
      assert IterationErrors(rest) == ErrorRecords(steps) + IterationErrors(s.iterations[from + 1..]);
    }
  }

  lemma {:induction false} StepRecords(s: Stats, k: nat, from: nat)
    requires k < |s.iterations| && from <= |s.iterations[k].steps|
    ensures
      var steps := s.iterations[k].steps;
      && (ErrorRecords(steps[from..]) != [] <==> exists j :: from <= j < |steps| && WentWrong(steps[j]))
      && forall r :: r in ErrorRecords(steps[from..]) ==> exists t :: Within(t, s) && Names(r, t)
    decreases s, 0, 0, |s.iterations[k].steps| - from
  {
    var steps := s.iterations[k].steps;
    if from < |steps| {
      assert steps[from..][1..] == steps[from + 1..];
      StepRecords(s, k, from + 1);
      RecordsAreFailures(steps[from]);
      forall r | r in StatsErrors(steps[from])
        ensures exists t :: Within(t, s) && Names(r, t)
      {
        var t :| Within(t, steps[from]) && Names(r, t);
        assert Within(t, s.iterations[k].steps[from]);
        assert Within(t, s);
      }
      assert ErrorRecords(steps[from..]) == StatsErrors(steps[from]) + ErrorRecords(steps[from + 1..]);
    }
  }

  /** Cleanup sees a failure exactly if the main steps failed or something in them went wrong. */
  lemma MainErrorsAre(main: seq<Stats>, err: Option<Fault>)
    ensures MainErrors(main, err) != [] <==> err.Some? || AnyWentWrong(main)
    ensures !AnyWentWrong(main) && err.Some? ==>
      MainErrors(main, err) == [ErrorRecord(err.value.status, err.value.message, "")]
  {
    var whole := Stats("", Success, None, [Iteration(main)]);
    StepRecords(whole, 0, 0);
    assert whole.iterations[0].steps[0..] == main;
  }

  /** A cleanup step about to run: the status and the failures it sees and the environment it runs under. */
  datatype Sight = Sight(step: Step, status: Status, errors: seq<ErrorRecord>, env: nat)

  predicate AllSeeStatus(sights: seq<Sight>, status: Status) {
    forall k :: 0 <= k < |sights| ==> sights[k].status == status
  }

  /** What running it leaves. */
  datatype Ran = Ran(added: seq<Stats>, err: Option<Fault>)

  /** How each cleanup step turns out, by its position among those run and what it sees. */
  type Oracle = (nat, Sight) -> Ran

  function NewErrors(step: Step, ran: Ran): seq<ErrorRecord> {
    if ran.err.None? then []
    else
      var records := ErrorRecords(ran.added);
      if records == [] then [ErrorRecord(ran.err.value.status, ran.err.value.message, step.decl.id)] else records
  }

  /** A cleanup step that fails adds the failures it recorded, or one of its own if it recorded none; one that
      succeeds adds nothing. */
  lemma NewErrorsAre(step: Step, ran: Ran)
    ensures NewErrors(step, ran) != [] <==> ran.err.Some?
    ensures ran.err.Some? && AnyWentWrong(ran.added) ==> NewErrors(step, ran) == ErrorRecords(ran.added)
    ensures ran.err.Some? && !AnyWentWrong(ran.added) ==>
      NewErrors(step, ran) == [ErrorRecord(ran.err.value.status, ran.err.value.message, step.decl.id)]
  {
    MainErrorsAre(ran.added, None);
  }

  /** The failures of the cleanup steps run so far, each run once in this order. */
  function FailuresOf(sights: seq<Sight>, o: Oracle): seq<ErrorRecord> {
    if sights == [] then []
    else
      var last := |sights| - 1;
      FailuresOf(sights[..last], o) + NewErrors(sights[last].step, o(last, sights[last]))
  }

  /** Every step run saw the main failures followed by those of the steps run before it. */
  predicate SeesEarlierFailures(sights: seq<Sight>, main: seq<ErrorRecord>, o: Oracle) {
    if sights == [] then true
    else
      var last := |sights| - 1;
      SeesEarlierFailures(sights[..last], main, o) && sights[last].errors == main + FailuresOf(sights[..last], o)
  }

  lemma {:induction false} SeenAt(sights: seq<Sight>, main: seq<ErrorRecord>, o: Oracle, k: nat)
    requires SeesEarlierFailures(sights, main, o) && k < |sights|
    ensures sights[k].errors == main + FailuresOf(sights[..k], o)
  {
    var last := |sights| - 1;
    if k < last {
      SeenAt(sights[..last], main, o, k);
      assert sights[..last][..k] == sights[..k];
    }
  }

  lemma SeesMore(sights: seq<Sight>, main: seq<ErrorRecord>, o: Oracle, next: Sight)
    requires SeesEarlierFailures(sights, main, o) && next.errors == main + FailuresOf(sights, o)
    ensures SeesEarlierFailures(sights + [next], main, o)
    ensures FailuresOf(sights + [next], o) == FailuresOf(sights, o) + NewErrors(next.step, o(|sights|, next))
  {
    assert (sights + [next])[..|sights|] == sights;
  }

  // ---------------------------------------------------------------------------------------
  // Running the cleanup of a scope

  datatype Binding = Finally(status: Status, errors: seq<ErrorRecord>) | Other(token: nat)

  /** One step to run, and the environment to run it under. */
  datatype Task = Task(step: Step, env: nat)

  function Tasks(steps: seq<Step>, env: nat): seq<Task> {
    seq(|steps|, k requires 0 <= k < |steps| => Task(steps[k], env))
  }

  function Done(sights: seq<Sight>): seq<Task> {
    seq(|sights|, k requires 0 <= k < |sights| => Task(sights[k].step, sights[k].env))
  }

  /** The steps of the active groups, last declared group first. */
  function ActiveTasks(groups: seq<Group>, env: nat): seq<Task> {
    if groups == [] then []
    else ActiveTasks(groups[1..], env) + GroupTasks(groups[0], env)
  }

  function GroupTasks(group: Group, env: nat): seq<Task> {
    if group.active then Tasks(group.steps, GroupEnv(group, env)) else []
  }

  function TaskCount(groups: seq<Group>): nat {
    if groups == [] then 0 else TaskCount(groups[1..]) + if groups[0].active then |groups[0].steps| else 0
  }

  /** Part of the statistics: what one step that ran added, by its position among those run, or the record
      of a skipped step. */
  datatype Entry = RanStep(position: nat) | Unreached(record: Record)

  function RanSteps(start: nat, count: nat): seq<Entry> {
    if count == 0 then [] else RanSteps(start, count - 1) + [RanStep(start + count - 1)]
  }

  function SkippedSteps(records: seq<Record>): seq<Entry> {
    if records == [] then [] else [Unreached(records[0])] + SkippedSteps(records[1..])
  }

  function GroupEntries(group: Group, start: nat): seq<Entry> {
    if group.active then RanSteps(start, |group.steps|) else SkippedSteps(SkipRecords(group.steps))
  }

  /** What cleaning up the groups leaves in the statistics, the last group first, whether run or skipped. */
  function CleanupEntries(groups: seq<Group>, start: nat): seq<Entry> {
    if groups == [] then []
    else CleanupEntries(groups[1..], start) + GroupEntries(groups[0], start + TaskCount(groups[1..]))
  }

  lemma RestoredAre(bindings: Option<map<string, Binding>>)
    ensures bindings.Some? && "finally" in bindings.value ==>
      (bindings.value - {"finally"})["finally" := bindings.value["finally"]] == bindings.value
    ensures bindings.Some? && "finally" !in bindings.value ==> bindings.value - {"finally"} == bindings.value
  {
  }

  lemma RebindKeepsOthers(m: map<string, Binding>, b: Binding)
    ensures m["finally" := b] - {"finally"} == m - {"finally"}
  {
  }

  /** What the binding holds after one more step. */
  lemma Noted(sights: seq<Sight>, main: seq<ErrorRecord>, o: Oracle, next: Sight)
    requires SeesEarlierFailures(sights, main, o) && next.errors == main + FailuresOf(sights, o)
    ensures SeesEarlierFailures(sights + [next], main, o)
    ensures main + FailuresOf(sights + [next], o) == next.errors + NewErrors(next.step, o(|sights|, next))
  {
    SeesMore(sights, main, o, next);
    RecordsJoin(main, FailuresOf(sights, o), NewErrors(next.step, o(|sights|, next)));
  }

  lemma RecordsJoin(a: seq<ErrorRecord>, b: seq<ErrorRecord>, c: seq<ErrorRecord>)
    ensures a + b + c == a + (b + c)
  {
  }

  class CleanupRun {
    var bindings: Option<map<string, Binding>>
    var env: nat
    var stats: seq<Entry>   // what cleanup recorded, of steps that ran and of groups never reached
    var sights: seq<Sight>  // the cleanup steps run so far
    const o: Oracle

    constructor (bindings: Option<map<string, Binding>>, env: nat, o: Oracle)
      ensures this.bindings == bindings && this.env == env && this.o == o
      ensures stats == [] && sights == []
    {
      this.bindings, this.env, this.o := bindings, env, o;
      stats, sights := [], [];
    }

    ghost predicate Underway(main: seq<ErrorRecord>, status: Status)
      reads this
    {
      && bindings.Some? && "finally" in bindings.value
      && bindings.value["finally"] == Finally(status, main + FailuresOf(sights, o))
      && SeesEarlierFailures(sights, main, o) && AllSeeStatus(sights, status)
    }

    /** The bindings other than `finally`. */
    ghost function Others(): map<string, Binding>
      reads this
    {
      if bindings.None? then map[] else bindings.value - {"finally"}
    }

    method RunStep(step: Step) returns (ran: Ran)
      requires bindings.Some? && "finally" in bindings.value && bindings.value["finally"].Finally?
      modifies this`sights, this`stats
      ensures var sight := Sight(step, bindings.value["finally"].status, bindings.value["finally"].errors, env);
        && sights == old(sights) + [sight]
        && ran == o(|old(sights)|, sight)
        && stats == old(stats) + [RanStep(|old(sights)|)]
    {
      var sight := Sight(step, bindings.value["finally"].status, bindings.value["finally"].errors, env);
      ran := o(|sights|, sight);
      stats := stats + [RanStep(|sights|)];
      sights := sights + [sight];
    }

    /** One cleanup step: its failure adds to what later ones see. */
    method ExecuteCleanupStep(step: Step, ghost main: seq<ErrorRecord>,
                              ghost status: Status) returns (err: Option<Fault>)
      requires Underway(main, status)
      modifies this
      ensures Underway(main, status) && Others() == old(Others()) && env == old(env)
      ensures |sights| == |old(sights)| + 1 && sights[..|old(sights)|] == old(sights)
      ensures sights[|old(sights)|].step == step && sights[|old(sights)|].env == env
      ensures err == o(|old(sights)|, sights[|old(sights)|]).err
      ensures stats == old(stats) + [RanStep(|old(sights)|)]
    {
      var before := bindings.value["finally"];
      ghost var earlier := sights;
      var ran := RunStep(step);
      Noted(earlier, main, o, sights[|earlier|]);
      err := ran.err;
      if err.Some? {
        Note(before, step, ran);
      }
    }

    /** Adds the failures of a step that failed to what later ones see. */
    method Note(before: Binding, step: Step, ran: Ran)
      requires bindings.Some? && before.Finally? && ran.err.Some?
      modifies this`bindings
      ensures bindings.Some? && Others() == old(Others())
      ensures "finally" in bindings.value
      ensures bindings.value["finally"] == Finally(before.status, before.errors + NewErrors(step, ran))
    {
      var records := ErrorRecords(ran.added);
      if |records| == 0 {
        records := [ErrorRecord(ran.err.value.status, ran.err.value.message, step.decl.id)];
      }
      RebindKeepsOthers(bindings.value, before.(errors := before.errors + records));
      bindings := Some(bindings.value["finally" := before.(errors := before.errors + records)]);
    }

    /** Cleanup steps run one by one; a failure stops none of them. */
    method ExecuteCleanupSteps(steps: seq<Step>, ghost main: seq<ErrorRecord>, ghost status: Status)
      returns (failures: seq<Fault>)
      requires Underway(main, status)
      modifies this
      ensures Underway(main, status) && Others() == old(Others()) && env == old(env)
      ensures Progress(old(sights), sights, steps, env, failures, old(stats), stats, o)
    {
      failures := [];
      ghost var before := sights;
      for k := 0 to |steps|
        invariant Underway(main, status) && Others() == old(Others()) && env == old(env)
        invariant Progress(before, sights, steps[..k], env, failures, old(stats), stats, o)
      {
        ghost var earlier, earlierFailures, earlierStats := sights, failures, stats;
        var err := ExecuteCleanupStep(steps[k], main, status);
        if err.Some? {
          failures := failures + [err.value];
        }
        ProgressStep(before, earlier, sights, steps, k, env, earlierFailures, old(stats), earlierStats, o);
      }
      assert steps[..|steps|] == steps;
    }

    /** A group whose owner committed runs under its owner's environment; any other is recorded as
        skipped. */
    method ExecuteGroup(group: Group, ghost main: seq<ErrorRecord>, ghost status: Status) returns (failures: seq<Fault>)
      requires Underway(main, status)
      modifies this
      ensures Underway(main, status) && Others() == old(Others()) && env == old(env)
      ensures Followed(old(sights), sights, GroupTasks(group, env), failures, o)
      ensures stats == old(stats) + GroupEntries(group, |old(sights)|)
    {
      failures := [];
      if group.active {
        var previous := env;
        if group.env.Some? {
          env := group.env.value;
        }
        failures := ExecuteCleanupSteps(group.steps, main, status);
        env := previous;
      } else {
        stats := stats + SkippedSteps(SkipRecords(group.steps));
        FollowedNone(sights, o);
      }
    }

    /** The collected groups, from the last to the first. */
    method ExecuteDeferred(groups: seq<Group>, ghost main: seq<ErrorRecord>,
                           ghost status: Status) returns (failures: seq<Fault>)
      requires Underway(main, status)
      modifies this
      ensures Underway(main, status) && Others() == old(Others()) && env == old(env)
      ensures Cleaned(groups, env, old(sights), sights, failures, old(stats), stats, o)
    {
      failures := [];
      ghost var before, outside, stats0 := sights, env, stats;
      FollowedNone(sights, o);
      var index := |groups|;
      while index > 0
        invariant 0 <= index <= |groups|
        invariant Underway(main, status) && Others() == old(Others()) && env == outside
        invariant Cleaned(groups[index..], outside, before, sights, failures, stats0, stats, o)
      {
        index := index - 1;
        ghost var middle, stats1 := sights, stats;
        var more := ExecuteGroup(groups[index], main, status);
        assert groups[index..][1..] == groups[index + 1..];
        CleanedMore(groups[index..], groups[index + 1..], outside, before, middle, sights, failures, more, stats0,
                    stats1, stats, o);
        failures := failures + more;
      }
      assert groups[0..] == groups;
    }

    /** Binds `finally` to the failures of the main steps. */
    method Bind(main: seq<Stats>, err: Option<Fault>)
      returns (wereNone: bool, previous: Option<Binding>, ghost errors: seq<ErrorRecord>, ghost status: Status)
      requires sights == []
      modifies this`bindings
      ensures errors == MainErrors(main, err) && Underway(errors, status)
      ensures status == if err.Some? then err.value.status else Success
      ensures wereNone == old(bindings).None?
      ensures Others() == old(Others())
      ensures previous ==
        if old(bindings).Some? && "finally" in old(bindings.value) then Some(old(bindings.value["finally"])) else None
    {
      wereNone := bindings.None?;
      if wereNone {
        bindings := Some(map[]);
      }
      previous := if "finally" in bindings.value then Some(bindings.value["finally"]) else None;
      var state := if err.Some? then err.value.status else Success;
      var records := ErrorRecords(main);
      if err.Some? && |records| == 0 {
        records := [ErrorRecord(err.value.status, err.value.message, "")];
      }
      bindings := Some(bindings.value["finally" := Finally(state, records)]);
      errors, status := records, state;
    }

    /** Undoes it. */
    method Restore(wereNone: bool, previous: Option<Binding>)
      requires bindings.Some?
      modifies this`bindings
      ensures bindings ==
        if wereNone && previous.None? && old(Others()) == map[] then None
        else Some(if previous.Some? then old(Others())["finally" := previous.value] else old(Others()))
    {
      if previous.Some? {
        bindings := Some(bindings.value["finally" := previous.value]);
        assert bindings.value == old(Others())["finally" := previous.value];
      } else {
        bindings := Some(bindings.value - {"finally"});
      }
      if wereNone && |bindings.value| == 0 {
        bindings := None;
      }
    }

    /** The whole cleanup of a scope, whatever became of its main steps: the deferred groups, then the
        final steps, under a `finally` binding that is gone again afterwards. */
    method ExecuteCleanupScope(groups: seq<Group>, finale: seq<Step>, main: seq<Stats>, err: Option<Fault>)
      returns (failures: seq<Fault>)
      requires sights == []
      modifies this
      ensures Followed([], sights, ActiveTasks(groups, env) + Tasks(finale, env), failures, o)
      ensures SeesEarlierFailures(sights, MainErrors(main, err), o)
      ensures AllSeeStatus(sights, if err.Some? then err.value.status else Success)
      ensures stats == old(stats) + CleanupEntries(groups, 0) + RanSteps(TaskCount(groups), |finale|)
      ensures bindings == old(bindings) && env == old(env)
    {
      FollowedNone(sights, o);
      if |groups| == 0 && |finale| == 0 {
        assert Tasks(finale, env) == [];
        return [];
      }
      var wereNone, previous;
      ghost var errors, status;
      wereNone, previous, errors, status := Bind(main, err);
      failures := ExecuteDeferred(groups, errors, status);
      ghost var middle := sights;
      var more := ExecuteCleanupSteps(finale, errors, status);
      FollowedJoin([], middle, sights, ActiveTasks(groups, env), Tasks(finale, env), failures, more, o);
      failures := failures + more;
      Restore(wereNone, previous);
      RestoredAre(old(bindings));
    }
  }

  /** The stack's total is the static count of the scope's cleanup. */
  lemma {:induction false} PendingLeaves(groups: seq<DeferGroup>)
    ensures TotalLeaves(Pending(groups)) == GroupsLeafCount(groups)
  {
    if groups != [] {
      var front, last := groups[..|groups| - 1], groups[|groups| - 1];
      assert groups == front + [last] && [last][1..] == [];
      assert Pending(groups)[..|front|] == Pending(front);
      PendingLeaves(front);
      GroupsLeafCountJoin(front, [last]);
    }
  }

  /** A scope none of whose owners committed records exactly what skipping its cleanup records, and
      runs nothing. */
  lemma {:induction false} NothingReached(groups: seq<DeferGroup>, start: nat, env: nat)
    ensures ActiveTasks(Pending(groups), env) == [] && TaskCount(Pending(groups)) == 0
    ensures CleanupEntries(Pending(groups), start) == SkippedSteps(SkipGroupRecords(groups))
  {
    if groups != [] {
      assert Pending(groups)[1..] == Pending(groups[1..]);
      NothingReached(groups[1..], start, env);
      SkippedStepsJoin(SkipGroupRecords(groups[1..]), SkipRecords(groups[0].steps));
    }
  }

  lemma {:induction false} SkippedStepsJoin(a: seq<Record>, b: seq<Record>)
    ensures SkippedSteps(a + b) == SkippedSteps(a) + SkippedSteps(b)
  {
    if a == [] {
      assert a + b == b;
    } else {
      assert (a + b)[1..] == a[1..] + b;
      SkippedStepsJoin(a[1..], b);
    }
  }

  // ---------------------------------------------------------------------------------------
  // What was registered is what runs

  function AfterCommits(groups: seq<Group>, commits: seq<Commit>): seq<Group> {
    if commits == [] then groups
    else Activated(AfterCommits(groups, commits[..|commits| - 1]), commits[|commits| - 1])
  }

  /** The last commit of the owner. */
  function CommitOf(commits: seq<Commit>, owner: string): Option<Commit> {
    if commits == [] then None
    else if commits[|commits| - 1].owner == owner then Some(commits[|commits| - 1])
    else CommitOf(commits[..|commits| - 1], owner)
  }

  predicate Declares(groups: seq<DeferGroup>, owner: string) {
    exists k :: 0 <= k < |groups| && groups[k].owner == owner
  }

  /** The steps of the groups whose owner committed, last declared group first, each under the environment
      its owner committed under; of two groups of one owner only the later counts. */
  function CommittedTasks(groups: seq<DeferGroup>, commits: seq<Commit>, env: nat): seq<Task> {
    if groups == [] then []
    else
      var commit := CommitOf(commits, groups[0].owner);
      CommittedTasks(groups[1..], commits, env) +
      if commit.None? || Declares(groups[1..], groups[0].owner) then []
      else Tasks(groups[0].steps, if commit.value.env.Some? then commit.value.env.value else env)
  }

  /** The standing of one collected group after the commits. */
  predicate Stands(group: Group, declared: DeferGroup, commits: seq<Commit>, last: bool) {
    var commit := CommitOf(commits, declared.owner);
    && group.owner == declared.owner && group.steps == declared.steps
    && if commit.Some? && last then group.active && group.env == commit.value.env else !group.active
  }

  lemma {:induction false} StandsAfter(groups: seq<DeferGroup>, commits: seq<Commit>)
    ensures
      var after := AfterCommits(Pending(groups), commits);
      && |after| == |groups|
      && forall k :: 0 <= k < |groups| ==> Stands(after[k], groups[k], commits, IsLast(Pending(groups), k))
  {
    if commits != [] {
      var front, c := commits[..|commits| - 1], commits[|commits| - 1];
      StandsAfter(groups, front);
      var before, after := AfterCommits(Pending(groups), front), AfterCommits(Pending(groups), commits);
      forall k | 0 <= k < |groups|
        ensures Stands(after[k], groups[k], commits, IsLast(Pending(groups), k))
      {
        assert forall j :: 0 <= j < |groups| ==>
          && Stands(before[j], groups[j], front, IsLast(Pending(groups), j))
          && before[j].owner == Pending(groups)[j].owner;
        assert IsLast(before, k) <==> IsLast(Pending(groups), k);
      }
    }
  }

  lemma {:induction false} StandingTasks(after: seq<Group>, groups: seq<DeferGroup>, commits: seq<Commit>, env: nat)
    requires |after| == |groups|
    requires forall k :: 0 <= k < |groups| ==>
        Stands(after[k], groups[k], commits, !Declares(groups[k + 1..], groups[k].owner))
    ensures ActiveTasks(after, env) == CommittedTasks(groups, commits, env)
  {
    if groups != [] {
      forall k | 0 <= k < |groups| - 1
        ensures Stands(after[1..][k], groups[1..][k], commits, !Declares(groups[1..][k + 1..], groups[1..][k].owner))
      {
        assert groups[1..][k + 1..] == groups[k + 2..];
        assert Stands(after[k + 1], groups[k + 1], commits, !Declares(groups[k + 2..], groups[k + 1].owner));
      }
      StandingTasks(after[1..], groups[1..], commits, env);
      assert Stands(after[0], groups[0], commits, !Declares(groups[1..], groups[0].owner));
    }
  }

  /** After any commits on the stack of a scope, its cleanup runs exactly the steps of the groups whose owner
      committed, last declared first, and then the final steps. */
  lemma CommittedGroupsRun(steps: seq<Step>, finale: seq<Step>, commits: seq<Commit>, env: nat, sights: seq<Sight>,
                           failures: seq<Fault>, o: Oracle)
    requires
      var groups := AfterCommits(Pending(DeferGroups(steps)), commits);
      Followed([], sights, ActiveTasks(groups, env) + Tasks(finale, env), failures, o)
    ensures Done(sights) == CommittedTasks(DeferGroups(steps), commits, env) + Tasks(finale, env)
  {
    var groups := DeferGroups(steps);
    StandsAfter(groups, commits);
    var after := AfterCommits(Pending(groups), commits);
    forall k | 0 <= k < |groups|
      ensures Stands(after[k], groups[k], commits, !Declares(groups[k + 1..], groups[k].owner))
    {
      LastIsUndeclared(groups, k);
    }
    StandingTasks(after, groups, commits, env);
  }

  lemma LastIsUndeclared(groups: seq<DeferGroup>, k: nat)
    requires k < |groups|
    ensures IsLast(Pending(groups), k) <==> !Declares(groups[k + 1..], groups[k].owner)
  {
    var later := groups[k + 1..];
    if !IsLast(Pending(groups), k) {
      var j :| k < j < |groups| && Pending(groups)[j].owner == Pending(groups)[k].owner;
      assert later[j - k - 1].owner == groups[k].owner;
    }
    if Declares(later, groups[k].owner) {
      var j :| 0 <= j < |later| && later[j].owner == groups[k].owner;
      assert Pending(groups)[k + 1 + j].owner == groups[k].owner;
    }
  }

  /** The groups given were cleaned up, from the last to the first. */
  predicate Cleaned(groups: seq<Group>, env: nat, before: seq<Sight>, after: seq<Sight>, failures: seq<Fault>,
                    stats0: seq<Entry>, stats: seq<Entry>, o: Oracle) {
    && Followed(before, after, ActiveTasks(groups, env), failures, o)
    && |after| == |before| + TaskCount(groups)
    && stats == stats0 + CleanupEntries(groups, |before|)
  }

  lemma CleanedMore(groups: seq<Group>, rest: seq<Group>, env: nat, before: seq<Sight>, middle: seq<Sight>,
                    after: seq<Sight>, failures: seq<Fault>, more: seq<Fault>, stats0: seq<Entry>, stats1: seq<Entry>,
                    stats: seq<Entry>, o: Oracle)
    requires groups != [] && groups[1..] == rest
    requires Cleaned(rest, env, before, middle, failures, stats0, stats1, o)
    requires Followed(middle, after, GroupTasks(groups[0], env), more, o)
    requires stats == stats1 + GroupEntries(groups[0], |middle|)
    ensures Cleaned(groups, env, before, after, failures + more, stats0, stats, o)
  {
    FollowedJoin(before, middle, after, ActiveTasks(rest, env), GroupTasks(groups[0], env), failures, more, o);
    FollowedCount(middle, after, GroupTasks(groups[0], env), more, o);
    EntriesJoin(stats0, CleanupEntries(rest, |before|), GroupEntries(groups[0], |middle|));
  }

  lemma EntriesJoin(stats0: seq<Entry>, a: seq<Entry>, b: seq<Entry>)
    ensures stats0 + a + b == stats0 + (a + b)
  {
  }

  lemma FollowedCount(before: seq<Sight>, after: seq<Sight>, tasks: seq<Task>, failures: seq<Fault>, o: Oracle)
    requires Followed(before, after, tasks, failures, o)
    ensures |after| == |before| + |tasks|
  {
    assert |Done(after)| == |Done(before) + tasks|;
  }

  lemma FollowedNone(sights: seq<Sight>, o: Oracle)
    ensures Followed(sights, sights, [], [], o)
  {
  }

  /** Exactly the given tasks were run after `before`, in this order and each once, with these errors. */
  predicate Followed(before: seq<Sight>, after: seq<Sight>, tasks: seq<Task>, failures: seq<Fault>, o: Oracle) {
    && |before| <= |after| && after[..|before|] == before
    && Done(after) == Done(before) + tasks
    && failures == Faults(after, |before|, o)
  }

  lemma FollowedMore(before: seq<Sight>, middle: seq<Sight>, after: seq<Sight>, tasks: seq<Task>,
                     failures: seq<Fault>, o: Oracle)
    requires Followed(before, middle, tasks, failures, o)
    requires |after| == |middle| + 1 && after[..|middle|] == middle
    ensures var next := after[|middle|];
      Followed(before, after, tasks + [Task(next.step, next.env)],
           failures + if o(|middle|, next).err.Some? then [o(|middle|, next).err.value] else [], o)
  {
    assert after == middle + [after[|middle|]];
    assert after[..|before|] == middle[..|before|];
    assert Done(after) == Done(middle) + [Task(after[|middle|].step, after[|middle|].env)];
  }

  lemma {:induction false} FaultsSplit(middle: seq<Sight>, after: seq<Sight>, start: nat, o: Oracle)
    requires start <= |middle| <= |after| && after[..|middle|] == middle
    ensures Faults(after, start, o) == Faults(middle, start, o) + Faults(after, |middle|, o)
    decreases |after|
  {
    if |after| == |middle| {
      assert after == middle;
    } else {
      var last := |after| - 1;
      assert after[..last][..|middle|] == middle;
      FaultsSplit(middle, after[..last], start, o);
    }
  }

  lemma FollowedJoin(before: seq<Sight>, middle: seq<Sight>, after: seq<Sight>, a: seq<Task>, b: seq<Task>,
                     f: seq<Fault>, g: seq<Fault>, o: Oracle)
    requires Followed(before, middle, a, f, o) && Followed(middle, after, b, g, o)
    ensures Followed(before, after, a + b, f + g, o)
  {
    assert after[..|before|] == middle[..|before|];
    assert Done(after) == Done(before) + a + b == Done(before) + (a + b);
    FaultsSplit(middle, after, |before|, o);
  }

  /** The given steps were run one after the other, and left this in the statistics. */
  predicate Progress(before: seq<Sight>, after: seq<Sight>, steps: seq<Step>, env: nat, failures: seq<Fault>,
                     stats0: seq<Entry>, stats: seq<Entry>, o: Oracle) {
    Followed(before, after, Tasks(steps, env), failures, o) && stats == stats0 + RanSteps(|before|, |steps|)
  }

  lemma EntriesNext(stats0: seq<Entry>, stats: seq<Entry>, start: nat, k: nat)
    requires stats == stats0 + RanSteps(start, k)
    ensures stats + [RanStep(start + k)] == stats0 + RanSteps(start, k + 1)
  {
  }

  lemma ProgressStep(before: seq<Sight>, middle: seq<Sight>, after: seq<Sight>, steps: seq<Step>, k: nat, env: nat,
                     failures: seq<Fault>, stats0: seq<Entry>, stats: seq<Entry>, o: Oracle)
    requires k < |steps| && Progress(before, middle, steps[..k], env, failures, stats0, stats, o)
    requires |after| == |middle| + 1 && after[..|middle|] == middle
    requires after[|middle|].step == steps[k] && after[|middle|].env == env
    ensures var err := o(|middle|, after[|middle|]).err;
      Progress(before, after, steps[..k + 1], env, if err.Some? then failures + [err.value] else failures, stats0,
               stats + [RanStep(|middle|)], o)
  {
    FollowedStep(before, middle, after, steps, k, env, failures, o);
    FollowedCount(before, middle, Tasks(steps[..k], env), failures, o);
    EntriesNext(stats0, stats, |before|, k);
  }

  lemma FollowedStep(before: seq<Sight>, middle: seq<Sight>, after: seq<Sight>, steps: seq<Step>, k: nat, env: nat,
                     failures: seq<Fault>, o: Oracle)
    requires k < |steps| && Followed(before, middle, Tasks(steps[..k], env), failures, o)
    requires |after| == |middle| + 1 && after[..|middle|] == middle
    requires after[|middle|].step == steps[k] && after[|middle|].env == env
    ensures var err := o(|middle|, after[|middle|]).err;
      Followed(before, after, Tasks(steps[..k + 1], env), if err.Some? then failures + [err.value] else failures, o)
  {
    FollowedMore(before, middle, after, Tasks(steps[..k], env), failures, o);
    assert Tasks(steps[..k + 1], env) == Tasks(steps[..k], env) + [Task(steps[k], env)];
    assert failures + [] == failures;
  }

  /** The errors of the steps run from `start` on. */
  function Faults(sights: seq<Sight>, start: nat, o: Oracle): seq<Fault> {
    if |sights| <= start then []
    else
      var last := |sights| - 1;
      var err := o(last, sights[last]).err;
      Faults(sights[..last], start, o) + if err.Some? then [err.value] else []
  }
}
