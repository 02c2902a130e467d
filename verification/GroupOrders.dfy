/** The orders in which the interpreter lets branches take effect are those of the scheduler's runs. */
module GroupOrders {
  import opened Collections
  import opened ConcurrentGraph
  import opened RunState
  import opened StepTree
  import opened Scheduler
  import opened SchedulerProperties
  import opened GroupPlans
  import Interpreter

  /** The group the scheduler runs for a concurrent step. */
  ghost predicate Runs(g: Group, group: Kind) {
    && group.Concurrent? && WellFormed(g)
    && g.graph.dependencies == Interpreter.NeedEdges(group.body)
    && g.graph.after == Interpreter.AfterEdges(group.body)
    && g.failFast == group.failFast
    && (group.serial ==> g.limit == 1)
  }

  /** There is room for all branches, or for one as the group demands. */
  ghost predicate HasRoom(g: Group, group: Kind) {
    group.Concurrent? && (group.serial || g.limit >= g.Size())
  }

  /** The branches a run received, in that order. */
  ghost function Received(g: Group, events: seq<Event>): seq<Start>
    requires WellFormed(g) && Run(g, events).Some?
    decreases |events|
  {
    if events == [] then []
    else
      var front, e := events[..|events| - 1], events[|events| - 1];
      if !e.Receive? then Received(g, front)
      else Received(g, front) + [Start(e.index, !Run(g, front).value.tasks[e.index].outcome.failed)]
  }

  lemma ReceivedNext(g: Group, events: seq<Event>, m: Machine, e: Event)
    requires Reaches(g, events, m) && Enabled(g, m, e)
    ensures Reaches(g, events + [e], Apply(g, m, e))
    ensures Received(g, events + [e]) ==
      Received(g, events) + (if e.Receive? then [Start(e.index, !m.tasks[e.index].outcome.failed)] else [])
  {
    RunStep(g, events, m, e);
    assert (events + [e])[..|events|] == events;
  }

  // ---------------------------------------------------------------------------------------
  // Every run is a plan

  /** The branches over in `m` are those of the plan, with the same fates. */
  ghost predicate Agree(g: Group, m: Machine, fates: Interpreter.Fates)
    requires Sized(g, m)
  {
    && (forall k: nat :: k in fates <==> (k < g.Size() && m.status[k] == Finished))
    && forall k: nat :: k in fates ==> fates[k] == !m.outcomes[k].failed
  }

  /** With room for one branch, the one that runs was the first that could. */
  ghost predicate FirstRuns(g: Group, m: Machine)
    requires WellFormed(g) && Sized(g, m)
  {
    g.limit == 1 ==>
      forall i :: 0 <= i < g.Size() && m.status[i] == Running ==>
        && (forall j :: 0 <= j < g.Size() && m.status[j] == Running ==> i == j)
        && forall j :: 0 <= j < i ==> !Admissible(g, m, j)
  }

  lemma AdmitKeepsFirst(g: Group, m: Machine, i: nat)
    requires Inv(g, m) && Enabled(g, m, Admit(i))
    ensures FirstRuns(g, Apply(g, m, Admit(i)))
  {
    var m' := Apply(g, m, Admit(i));
    if g.limit == 1 {
      TallyZero(m.status, Running);
      assert forall j :: 0 <= j < g.Size() && Admissible(g, m', j) ==> Admissible(g, m, j);
    }
  }

  lemma StepKeepsFirst(g: Group, m: Machine, e: Event)
    requires Inv(g, m) && Enabled(g, m, e) && FirstRuns(g, m)
    ensures FirstRuns(g, Apply(g, m, e))
  {
    var m' := Apply(g, m, e);
    match e
    case Admit(i) => AdmitKeepsFirst(g, m, i);
    case Receive(i) =>
      forall j | 0 <= j < g.Size()
        ensures g.limit == 1 ==> m'.status[j] != Running
      {
        ReceiveStatus(g, m, i, j);
      }
    case _ =>
      assert m'.status == m.status && m'.outcomes == m.outcomes;
      assert forall j :: 0 <= j < g.Size() && Admissible(g, m', j) ==> Admissible(g, m, j);
  }

  lemma {:induction false} ReachableFirst(g: Group, events: seq<Event>, m: Machine)
    requires Reaches(g, events, m)
    ensures FirstRuns(g, m)
    decreases |events|
  {
    if events != [] {
      var front := events[..|events| - 1];
      ReachableFirst(g, front, Run(g, front).value);
      ReachableInv(g, front, Run(g, front).value);
      StepKeepsFirst(g, Run(g, front).value, events[|events| - 1]);
    }
  }

  lemma SkippedIsBehind(g: Group, group: Kind, m: Machine, fates: Interpreter.Fates, j: nat)
    requires Runs(g, group) && Inv(g, m) && Agree(g, m, fates) && j < g.Size()
    ensures m.status[j] == Skipped <==> Interpreter.Behind(group.body, fates, j)
  {
    if m.status[j] == Skipped {
      var f :| FailedAt(g, m, f) && Depends(g.graph.dependencies, j, f);
      assert f in fates && !fates[f];
    }
    if Interpreter.Behind(group.body, fates, j) {
      var a :| a in fates && !fates[a] && Depends(Interpreter.NeedEdges(group.body), j, a);
      assert FailedAt(g, m, a);
    }
  }

  /** Where nothing is cancelled, a branch is ready exactly if it could be admitted or has been. */
  lemma ReadyIsAdmissible(g: Group, group: Kind, m: Machine, fates: Interpreter.Fates, j: nat)
    requires Runs(g, group) && Inv(g, m) && Agree(g, m, fates) && j < g.Size()
    ensures Interpreter.Ready(group.body, fates, j) <==> Admissible(g, m, j) || m.status[j] == Running
  {
    forall a | a in g.graph.after[j]
      ensures Terminal(m.status[a]) <==> a in fates || Interpreter.Behind(group.body, fates, a)
    {
      SkippedIsBehind(g, group, m, fates, a);
    }
    if m.status[j] == Running {
      assert forall d :: d in g.graph.dependencies[j] ==> Settled(g, m, d);
    }
    if Interpreter.Ready(group.body, fates, j) && m.status[j] == Skipped {
      ReadyNotSkipped(g, m, j);
    }
  }

  lemma ReadyNotSkipped(g: Group, m: Machine, j: nat)
    requires Inv(g, m) && j < g.Size() && m.status[j] == Skipped
    ensures exists d :: d in g.graph.dependencies[j] && !(m.status[d] == Finished && !m.outcomes[d].failed)
  {
    var f :| FailedAt(g, m, f) && Depends(g.graph.dependencies, j, f);
    var d := DependsSplit(g.graph.dependencies, j, f);
    if m.status[d] == Finished && !m.outcomes[d].failed {
      AncestorSettled(g, m, d, f);
    }
  }

  /** What is received next, the interpreter may start next. */
  lemma ReceivedMayStart(g: Group, group: Kind, m: Machine, fates: Interpreter.Fates, i: nat)
    requires Runs(g, group) && Inv(g, m) && FirstRuns(g, m) && Agree(g, m, fates)
    requires i < g.Size() && m.status[i] == Running && !Cancelled(m)
    ensures Interpreter.MayStart(group, fates, i)
  {
    ReadyIsAdmissible(g, group, m, fates, i);
    if group.serial {
      forall j: nat | j < i
        ensures !Interpreter.Ready(group.body, fates, j)
      {
        ReadyIsAdmissible(g, group, m, fates, j);
      }
    }
    if group.failFast {
      forall a | a in fates
        ensures fates[a]
      {
        assert !FailedAt(g, m, a);
      }
    }
  }

  lemma ReceiveAgrees(g: Group, m: Machine, fates: Interpreter.Fates, i: nat)
    requires Inv(g, m) && Agree(g, m, fates) && Enabled(g, m, Receive(i))
    ensures Agree(g, Apply(g, m, Receive(i)), fates[i := !m.tasks[i].outcome.failed])
  {
    var later := Apply(g, m, Receive(i));
    forall k: nat | k < g.Size()
      ensures Booked(m, later, i, k)
    {
      ReceiveStatus(g, m, i, k);
    }
    AgreeNext(g, m, later, fates, i);
  }

  /** Only `i` is over that was not before. */
  predicate Booked(m: Machine, later: Machine, i: nat, k: nat)
    requires k < |m.status| == |m.outcomes| == |later.status| == |later.outcomes| && i < |m.tasks|
  {
    if k == i then later.status[k] == Finished && (m.tasks[i].Sent? ==> later.outcomes[k] == m.tasks[i].outcome)
    else if m.status[k] == Finished then later.status[k] == Finished && later.outcomes[k] == m.outcomes[k]
    else later.status[k] != Finished
  }

  lemma AgreeNext(g: Group, m: Machine, later: Machine, fates: Interpreter.Fates, i: nat)
    requires Sized(g, m) && Sized(g, later) && Agree(g, m, fates) && i < g.Size() && m.tasks[i].Sent?
    requires forall k: nat :: k < g.Size() ==> Booked(m, later, i, k)
    ensures Agree(g, later, fates[i := !m.tasks[i].outcome.failed])
  {
    var next := fates[i := !m.tasks[i].outcome.failed];
    forall k: nat
      ensures k in next <==> (k < g.Size() && later.status[k] == Finished)
      ensures k in next ==> next[k] == !later.outcomes[k].failed
    {
      if k < g.Size() {
        assert Booked(m, later, i, k);
      }
    }
  }

  /** Nothing had been cancelled before its last event. */
  ghost predicate Uninterrupted(g: Group, events: seq<Event>) {
    && WellFormed(g) && Run(g, events).Some?
    && (events == [] || !Cancelled(Run(g, events[..|events| - 1]).value))
  }

  lemma PlanGrows(group: Kind, plan: seq<Start>, start: Start)
    requires group.Concurrent? && Feasible(group, plan)
    ensures PlanFates(plan + [start]) == PlanFates(plan)[start.branch := start.succeeds]
    ensures Interpreter.MayStart(group, PlanFates(plan), start.branch) ==> Feasible(group, plan + [start])
  {
    assert (plan + [start])[..|plan|] == plan;
  }

  /** Under any limit the branches a run receives take effect in a way the interpreter allows, with the
      fates they had. */
  lemma {:induction false} RunIsPlan(g: Group, group: Kind, events: seq<Event>, m: Machine)
    requires Runs(g, group) && Reaches(g, events, m) && Uninterrupted(g, events)
    ensures Feasible(group, Received(g, events)) && Agree(g, m, PlanFates(Received(g, events)))
    decreases |events|
  {
    if events != [] {
      var front, e := events[..|events| - 1], events[|events| - 1];
      var before := Run(g, front).value;
      StaysUninterrupted(g, front);
      RunIsPlan(g, group, front, before);
      ReachableInv(g, front, before);
      if e.Receive? {
        ReachableFirst(g, front, before);
        var plan := Received(g, front);
        ReceivedMayStart(g, group, before, PlanFates(plan), e.index);
        PlanGrows(group, plan, Start(e.index, !before.tasks[e.index].outcome.failed));
        ReceiveAgrees(g, before, PlanFates(plan), e.index);
      } else {
        OtherAgrees(g, before, e, PlanFates(Received(g, front)));
      }
    }
  }

  lemma OtherAgrees(g: Group, m: Machine, e: Event, fates: Interpreter.Fates)
    requires Inv(g, m) && Agree(g, m, fates) && Enabled(g, m, e) && !e.Receive?
    ensures Agree(g, Apply(g, m, e), fates)
  {
    var later := Apply(g, m, e);
    assert later.outcomes == m.outcomes;
    assert forall k: nat :: k < g.Size() ==> (later.status[k] == Finished <==> m.status[k] == Finished);
  }

  lemma StaysUninterrupted(g: Group, events: seq<Event>)
    requires WellFormed(g) && Run(g, events).Some? && !Cancelled(Run(g, events).value)
    ensures Uninterrupted(g, events)
  {
  }

  // ---------------------------------------------------------------------------------------
  // Every plan is a run

  /** Between the branches of a plan: nobody has cancelled the group, and what was admitted waits. */
  ghost predicate Waiting(g: Group, group: Kind, events: seq<Event>, m: Machine) {
    && Reaches(g, events, m) && Uninterrupted(g, events) && !m.parentDone && !m.deadlineHit
    && (forall i :: 0 <= i < g.Size() && m.status[i] == Running ==> m.tasks[i].Spawned?)
    && (group.Concurrent? && group.serial ==> Tally(m.status, Running) == 0)
  }

  lemma {:induction false} TallyBelow(status: seq<Status>, s: Status, i: nat)
    requires i < |status| && status[i] != s
    ensures Tally(status, s) < |status|
  {
    TallyAtMost(status[1..], s);
    if i > 0 {
      TallyBelow(status[1..], s, i - 1);
    }
  }

  lemma {:induction false} TallyAtMost(status: seq<Status>, s: Status)
    ensures Tally(status, s) <= |status|
  {
    if status != [] {
      TallyAtMost(status[1..], s);
    }
  }

  /** Admits the children before `k` that can go first, then `k`. */
  lemma {:induction false} AdmitUntil(g: Group, group: Kind, events: seq<Event>, m: Machine, k: nat)
    returns (more: seq<Event>, later: Machine)
    requires Runs(g, group) && HasRoom(g, group) && Reaches(g, events, m) && !Cancelled(m)
    requires k < g.Size() && Admissible(g, m, k)
    requires forall i :: 0 <= i < g.Size() && m.status[i] == Running ==> m.tasks[i].Spawned?
    requires group.serial ==> Tally(m.status, Running) == 0
    requires group.serial ==> forall j :: 0 <= j < k ==> !Admissible(g, m, j)
    ensures Reaches(g, more, later) && !Cancelled(later)
    ensures Received(g, more) == Received(g, events) && later.status[k] == Running
    ensures forall i :: 0 <= i < g.Size() && later.status[i] == Running ==> later.tasks[i].Spawned?
    ensures group.serial ==> Tally(later.status, Running) == 1
    decreases Tally(m.status, Pending)
  {
    var least := LeastAdmissible(g, m, k);
    TallyBelow(m.status, Running, k);
    AdmitOne(g, m, least, k);
    ReceivedNext(g, events, m, Admit(least));
    more, later := events + [Admit(least)], Apply(g, m, Admit(least));
    if least != k {
      more, later := AdmitUntil(g, group, more, later, k);
    }
  }

  lemma AdmitOne(g: Group, m: Machine, i: nat, k: nat)
    requires WellFormed(g) && Sized(g, m) && i < g.Size() && Enabled(g, m, Admit(i))
    requires k < g.Size() && Admissible(g, m, k)
    ensures
      var later := Apply(g, m, Admit(i));
      && Tally(later.status, Running) == Tally(m.status, Running) + 1
      && Tally(later.status, Pending) < Tally(m.status, Pending)
      && later.status[i] == Running && (i != k ==> Admissible(g, later, k))
  {
    TallyUpdate(m.status, i, Running, Running);
    TallyUpdate(m.status, i, Running, Pending);
  }

  /** An admitted branch begins, finishes as planned and is received. */
  lemma Perform(g: Group, group: Kind, events: seq<Event>, m: Machine, k: nat, succeeds: bool)
    returns (more: seq<Event>, later: Machine)
    requires Runs(g, group) && Reaches(g, events, m) && !Cancelled(m)
    requires k < g.Size() && m.status[k] == Running
    requires forall i :: 0 <= i < g.Size() && m.status[i] == Running ==> m.tasks[i].Spawned?
    requires group.serial ==> Tally(m.status, Running) == 1
    ensures Waiting(g, group, more, later)
    ensures Received(g, more) == Received(g, events) + [Start(k, succeeds)]
  {
    ReachableInv(g, events, m);
    var begun := Apply(g, m, Begin(k));
    ReceivedNext(g, events, m, Begin(k));
    ReachableInv(g, events + [Begin(k)], begun);
    var outcome := Outcome(Some(g.snapshot), true, !succeeds, false);
    var done := Apply(g, begun, Event.Finish(k, outcome));
    ReceivedNext(g, events + [Begin(k)], begun, Event.Finish(k, outcome));
    more, later := Book(g, group, events + [Begin(k)] + [Event.Finish(k, outcome)], done, k);
  }

  lemma LastIsUninterrupted(g: Group, events: seq<Event>, m: Machine, e: Event)
    requires Reaches(g, events, m) && !Cancelled(m) && Enabled(g, m, e)
    ensures Uninterrupted(g, events + [e])
  {
    RunStep(g, events, m, e);
    assert (events + [e])[..|events|] == events;
  }

  lemma Book(g: Group, group: Kind, events: seq<Event>, m: Machine, k: nat)
    returns (more: seq<Event>, later: Machine)
    requires Runs(g, group) && Reaches(g, events, m) && !Cancelled(m)
    requires k < g.Size() && m.status[k] == Running && m.tasks[k].Sent?
    requires forall i :: 0 <= i < g.Size() && m.status[i] == Running && i != k ==> m.tasks[i].Spawned?
    requires group.serial ==> Tally(m.status, Running) == 1
    ensures Waiting(g, group, more, later)
    ensures Received(g, more) == Received(g, events) + [Start(k, !m.tasks[k].outcome.failed)]
  {
    ReachableInv(g, events, m);
    ReceivedNext(g, events, m, Receive(k));
    LastIsUninterrupted(g, events, m, Receive(k));
    more, later := events + [Receive(k)], Apply(g, m, Receive(k));
    ReceiveKeepsTally(g, m, k);
    forall i | 0 <= i < g.Size() && later.status[i] == Running
      ensures later.tasks[i].Spawned?
    {
      ReceiveStatus(g, m, k, i);
    }
  }

  /** A group that fails fast goes on only if nothing has failed. */
  lemma MayStartIsLive(g: Group, group: Kind, m: Machine, fates: Interpreter.Fates, k: nat)
    requires Runs(g, group) && Inv(g, m) && Agree(g, m, fates) && Interpreter.MayStart(group, fates, k)
    requires !m.parentDone && !m.deadlineHit
    ensures !Cancelled(m) && k < g.Size()
    ensures Admissible(g, m, k) || m.status[k] == Running
    ensures group.serial ==> forall j :: 0 <= j < k ==> !Admissible(g, m, j)
  {
    assert |Interpreter.NeedEdges(group.body)| == |group.body|;
    ReadyIsAdmissible(g, group, m, fates, k);
    if group.serial {
      forall j | 0 <= j < k
        ensures !Admissible(g, m, j)
      {
        ReadyIsAdmissible(g, group, m, fates, j);
      }
    }
  }

  lemma {:induction false} PlanIsRun(g: Group, group: Kind, plan: seq<Start>)
    returns (events: seq<Event>, m: Machine)
    requires Runs(g, group) && HasRoom(g, group) && Feasible(group, plan)
    ensures Waiting(g, group, events, m) && Received(g, events) == plan
    decreases |plan|
  {
    if plan == [] {
      events, m := [], Initial(g);
      TallyZero(m.status, Running);
    } else {
      var front, start := LastStart(group, plan);
      events, m := PlanIsRun(g, group, front);
      ReachableInv(g, events, m);
      RunIsPlan(g, group, events, m);
      MayStartIsLive(g, group, m, PlanFates(front), start.branch);
      events, m := PerformNext(g, group, events, m, start);
    }
  }

  lemma LastStart(group: Kind, plan: seq<Start>) returns (front: seq<Start>, start: Start)
    requires group.Concurrent? && Feasible(group, plan) && plan != []
    ensures plan == front + [start] && |front| < |plan| && Feasible(group, front)
    ensures Interpreter.MayStart(group, PlanFates(front), start.branch)
  {
    front, start := plan[..|plan| - 1], plan[|plan| - 1];
  }

  lemma PerformNext(g: Group, group: Kind, events: seq<Event>, m: Machine, start: Start)
    returns (more: seq<Event>, later: Machine)
    requires Runs(g, group) && HasRoom(g, group) && Waiting(g, group, events, m) && !Cancelled(m)
    requires start.branch < g.Size()
    requires Admissible(g, m, start.branch) || m.status[start.branch] == Running
    requires group.serial ==> forall j :: 0 <= j < start.branch ==> !Admissible(g, m, j)
    ensures Waiting(g, group, more, later) && Received(g, more) == Received(g, events) + [start]
  {
    more, later := events, m;
    if m.status[start.branch] != Running {
      more, later := AdmitUntil(g, group, events, m, start.branch);
    } else if group.serial {
      TallyZero(m.status, Running);
      assert false;
    }
    more, later := Perform(g, group, more, later, start.branch, start.succeeds);
  }

  // ---------------------------------------------------------------------------------------
  // They are the same

  /** With room for one branch or for all, branches can take effect in some order, each with success or
      not, exactly if some run that nobody interrupts receives them so. */
  lemma PlansAreRuns(g: Group, group: Kind, plan: seq<Start>)
    requires Runs(g, group) && HasRoom(g, group)
    ensures Feasible(group, plan) <==> exists events :: Uninterrupted(g, events) && Received(g, events) == plan
  {
    if Feasible(group, plan) {
      var events, m := PlanIsRun(g, group, plan);
    }
    if events :| Uninterrupted(g, events) && Received(g, events) == plan {
      RunIsPlan(g, group, events, Run(g, events).value);
    }
  }

  lemma {:induction false} BranchesArePlan(group: Kind, at: Interpreter.Site, o: Interpreter.Oracle,
                                           f: Interpreter.Frame, order: seq<nat>) returns (plan: seq<Start>)
    requires group.Concurrent?
    ensures Feasible(group, plan)
    ensures PlanFates(plan) == Interpreter.FatesOf(Interpreter.RunBranches(group, at, o, f, order).done)
    decreases |order|
  {
    if order == [] {
      plan := [];
    } else {
      var front, k := order[..|order| - 1], order[|order| - 1];
      plan := BranchesArePlan(group, at, o, f, front);
      var before := Interpreter.RunBranches(group, at, o, f, front);
      if !before.context.Over() && Interpreter.MayStart(group, PlanFates(plan), k) {
        var r := Interpreter.ExecStep(group.body[k], Interpreter.In(at, Interpreter.Branch, k), o,
                                      Interpreter.BranchFrame(group.body, f, before, k));
        FatesNext(before.done, k, r);
        PlanGrows(group, plan, Start(k, r.err == Interpreter.OK));
        plan := plan + [Start(k, r.err == Interpreter.OK)];
      }
    }
  }

  /** Whatever the order given and however its branches end, the interpreter's group is a run of the
      scheduler: the same branches are over, failed and left behind. */
  lemma GroupIsScheduled(g: Group, group: Kind, at: Interpreter.Site, o: Interpreter.Oracle, f: Interpreter.Frame,
                         order: seq<nat>) returns (events: seq<Event>, m: Machine)
    requires Runs(g, group) && HasRoom(g, group)
    ensures Reaches(g, events, m) && Uninterrupted(g, events)
    ensures
      var done := Interpreter.RunBranches(group, at, o, f, order).done;
      && (forall k: nat :: k < g.Size() ==> (m.status[k] == Finished <==> k in done))
      && (forall k :: k in done && k < g.Size() ==> (m.outcomes[k].failed <==> done[k].err != Interpreter.OK))
      && (forall k: nat :: k < g.Size() ==>
            (m.status[k] == Skipped <==> Interpreter.Behind(group.body, Interpreter.FatesOf(done), k)))
  {
    var done := Interpreter.RunBranches(group, at, o, f, order).done;
    var plan := BranchesArePlan(group, at, o, f, order);
    events, m := PlanIsRun(g, group, plan);
    RunIsPlan(g, group, events, m);
    ReachableInv(g, events, m);
    assert forall k :: k in done <==> k in Interpreter.FatesOf(done);
    forall k: nat | k < g.Size()
      ensures m.status[k] == Skipped <==> Interpreter.Behind(group.body, Interpreter.FatesOf(done), k)
    {
      SkippedIsBehind(g, group, m, PlanFates(plan), k);
    }
  }
}
