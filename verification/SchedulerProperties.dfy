/** What holds of every interleaving of a concurrent group. */
module SchedulerProperties {
  import opened ConcurrentGraph
  import opened GroupValidation
  import opened RunState
  import opened Scheduler

  // ---------------------------------------------------------------------------------------
  // Safety

  /** A branch that runs, or that actually started, has everything it transitively needs started and finished
      without error and everything it runs after over; the limit is never exceeded. A never-started
      branch reports no error, yet admits nobody: by then the context is cancelled for good. */
  lemma AdmissionSafety(g: Group, events: seq<Event>, m: Machine, i: nat)
    requires Reaches(g, events, m) && i < g.Size()
    ensures m.status[i] == Running || m.outcomes[i].started ==>
      && (forall d: nat :: Depends(g.graph.dependencies, i, d) ==>
            d < g.Size() && m.status[d] == Finished && m.outcomes[d].started && !m.outcomes[d].failed)
      && (forall a :: a in g.graph.after[i] ==> m.status[a] == Finished || m.status[a] == Skipped)
    ensures g.limit >= 0 ==> Tally(m.status, Running) <= g.limit
  {
    ReachableInv(g, events, m);
    if m.outcomes[i].started {
      assert m.status[i] == Finished;
    }
    if m.status[i] == Running || m.outcomes[i].started {
      forall d: nat | Depends(g.graph.dependencies, i, d)
        ensures d < g.Size() && m.status[d] == Finished && m.outcomes[d].started && !m.outcomes[d].failed
      {
        AncestorSettled(g, m, i, d);
      }
    }
  }

  function Count(events: seq<Event>, e: Event): nat {
    if events == [] then 0 else (if events[|events| - 1] == e then 1 else 0) + Count(events[..|events| - 1], e)
  }

  /** No child is admitted, started or received twice, and a skipped one never is at all. */
  lemma {:induction false} AtMostOnce(g: Group, events: seq<Event>, m: Machine, i: nat)
    requires Reaches(g, events, m) && i < g.Size()
    ensures Count(events, Admit(i)) == if m.status[i] == Running || m.status[i] == Finished then 1 else 0
    ensures Count(events, Begin(i)) ==
      if m.status[i] == Finished || (m.status[i] == Running && !m.tasks[i].Spawned?) then 1 else 0
    ensures Count(events, Receive(i)) == if m.status[i] == Finished then 1 else 0
    decreases |events|
  {
    if events != [] {
      var front, e := events[..|events| - 1], events[|events| - 1];
      var before := Run(g, front).value;
      AtMostOnce(g, front, before, i);
      ReachableInv(g, front, before);
      EventMoves(g, before, e, i);
    }
  }

  /** How one event changes the standing of one child. */
  lemma EventMoves(g: Group, m: Machine, e: Event, i: nat)
    requires Inv(g, m) && Enabled(g, m, e) && i < g.Size()
    ensures var m' := Apply(g, m, e);
      && (e == Admit(i) ==> m.status[i] == Pending && m'.status[i] == Running && m'.tasks[i].Spawned?)
      && (e == Begin(i) ==>
            m.status[i] == Running && m.tasks[i].Spawned? && m'.status[i] == Running && !m'.tasks[i].Spawned?)
      && (e == Receive(i) ==> m.status[i] == Running && !m.tasks[i].Spawned? && m'.status[i] == Finished)
      && (e != Admit(i) && e != Receive(i) ==>
            (m'.status[i] == Running <==> m.status[i] == Running) &&
                (m'.status[i] == Finished <==> m.status[i] == Finished))
      && (e != Admit(i) && e != Begin(i) && e != Receive(i) ==> (m'.tasks[i].Spawned? <==> m.tasks[i].Spawned?))
  {
    if e.Receive? {
      ReceiveStatus(g, m, e.index, i);
    }
  }

  /** What transitively needs a failed child never started. */
  ghost predicate NothingBehindFailure(g: Group, outcomes: seq<Outcome>)
    requires |outcomes| == g.Size()
  {
    forall j, f | 0 <= j < g.Size() && 0 <= f < g.Size() ::
      outcomes[f].failed && Depends(g.graph.dependencies, j, f) ==> !outcomes[j].started
  }

  lemma NothingRanBehindFailure(g: Group, events: seq<Event>, m: Machine)
    requires Reaches(g, events, m)
    ensures NothingBehindFailure(g, m.outcomes)
  {
    ReachableInv(g, events, m);
    forall j, f | 0 <= j < g.Size() && 0 <= f < g.Size() && m.outcomes[f].failed && Depends(g.graph.dependencies, j, f)
      ensures !m.outcomes[j].started
    {
      assert FailedAt(g, m, f);
      assert m.status[j] == Skipped;
    }
  }

  /** The skipped children are exactly those that transitively need one that finished with an error,
      and none of them was ever admitted. */
  lemma SkipExactness(g: Group, events: seq<Event>, m: Machine, j: nat)
    requires Reaches(g, events, m) && j < g.Size()
    ensures m.status[j] == Skipped <==> exists f: nat :: FailedAt(g, m, f) && Depends(g.graph.dependencies, j, f)
    ensures m.status[j] == Skipped ==> Count(events, Admit(j)) == 0 && m.outcomes[j] == SKIPPED_OUTCOME
  {
    ReachableInv(g, events, m);
    AtMostOnce(g, events, m, j);
  }

  /** While it executes, a branch's state is the one its ancestors' outcomes determine, whatever
      order anything completed in, and those outcomes are all in. */
  lemma BranchReadsItsAncestors(g: Group, events: seq<Event>, m: Machine, i: nat)
    requires Reaches(g, events, m) && i < g.Size() && m.tasks[i].Executing?
    ensures m.tasks[i].input == InputOf(g, m.outcomes, i)
    ensures forall a: nat :: Depends(g.graph.dependencies, i, a) ==> a < g.Size() && Settled(g, m, a)
  {
    ReachableInv(g, events, m);
    forall a: nat | Depends(g.graph.dependencies, i, a)
      ensures a < g.Size() && Settled(g, m, a)
    {
      AncestorSettled(g, m, i, a);
    }
  }

  // ---------------------------------------------------------------------------------------
  // Cancellation

  /** Something has cancelled the run: its parent, its deadline, or a failure received where one is enough. */
  ghost predicate Stopped(g: Group, events: seq<Event>)
    requires WellFormed(g) && Run(g, events).Some?
    decreases |events|
  {
    events != [] &&
    var front, e := events[..|events| - 1], events[|events| - 1];
    || Stopped(g, front)
    || e.CancelParent? || e.Deadline?
    || (g.failFast && e.Receive? && Run(g, front).value.tasks[e.index].outcome.failed)
  }

  /** The branch's goroutine got to run, before or after that. */
  ghost predicate Began(g: Group, events: seq<Event>, i: nat, stopped: bool)
    requires WellFormed(g) && Run(g, events).Some?
    decreases |events|
  {
    events != [] &&
    var front := events[..|events| - 1];
    Began(g, front, i, stopped) || (events[|events| - 1] == Begin(i) && (Stopped(g, front) <==> stopped))
  }

  lemma {:induction false} StoppedIsCancelled(g: Group, events: seq<Event>, m: Machine)
    requires Reaches(g, events, m)
    ensures Stopped(g, events) <==> Cancelled(m)
    decreases |events|
  {
    if events != [] {
      var front := events[..|events| - 1];
      StoppedIsCancelled(g, front, Run(g, front).value);
    }
  }

  /** Where the outcome of a branch comes from: it started before anything had cancelled the run and is what
      the branch finished with, or it began only afterwards and is empty. */
  ghost predicate Originates(g: Group, events: seq<Event>, i: nat, o: Outcome)
    requires WellFormed(g) && Run(g, events).Some?
  {
    if o.started then Began(g, events, i, false) && Event.Finish(i, o) in events
    else o == NO_OUTCOME && Began(g, events, i, true)
  }

  ghost predicate OriginatesAt(g: Group, events: seq<Event>, m: Machine, i: nat)
    requires WellFormed(g) && Run(g, events).Some? && Sized(g, m) && i < g.Size()
  {
    && (m.tasks[i].Executing? ==> Began(g, events, i, false))
    && (m.tasks[i].Sent? ==> Originates(g, events, i, m.tasks[i].outcome))
    && (m.status[i] == Finished ==> Originates(g, events, i, m.outcomes[i]))
  }

  lemma StepOriginates(g: Group, events: seq<Event>, m: Machine, e: Event, i: nat)
    requires Reaches(g, events, m) && Enabled(g, m, e) && Reaches(g, events + [e], Apply(g, m, e)) && i < g.Size()
    requires OriginatesAt(g, events, m, i) && Inv(g, m)
    ensures OriginatesAt(g, events + [e], Apply(g, m, e), i)
  {
    assert (events + [e])[..|events|] == events;
    StoppedIsCancelled(g, events, m);
    if e.Receive? {
      ReceiveStatus(g, m, e.index, i);
    }
  }

  lemma {:induction false} EveryOriginates(g: Group, events: seq<Event>, m: Machine, i: nat)
    requires Reaches(g, events, m) && i < g.Size()
    ensures OriginatesAt(g, events, m, i)
    decreases |events|
  {
    if events != [] {
      var front, e := events[..|events| - 1], events[|events| - 1];
      assert events == front + [e];
      EveryOriginates(g, front, Run(g, front).value, i);
      ReachableInv(g, front, Run(g, front).value);
      StepOriginates(g, front, Run(g, front).value, e, i);
    }
  }

  lemma {:induction false} BeganOnce(g: Group, events: seq<Event>, m: Machine, i: nat)
    requires Reaches(g, events, m) && i < g.Size()
    ensures !(Began(g, events, i, false) && Began(g, events, i, true))
    ensures Began(g, events, i, false) || Began(g, events, i, true) <==> Count(events, Begin(i)) > 0
    decreases |events|
  {
    AtMostOnce(g, events, m, i);
    if events != [] {
      var front := events[..|events| - 1];
      BeganOnce(g, front, Run(g, front).value, i);
    }
  }

  /** A branch that gets to run only after the run was cancelled never executes: whatever happens then, it has
      no outcome of its own. One that started did so before. */
  lemma StartsOnlyUncancelled(g: Group, events: seq<Event>, m: Machine, i: nat)
    requires Reaches(g, events, m) && i < g.Size()
    ensures Began(g, events, i, true) ==>
      && !m.tasks[i].Executing? && !m.outcomes[i].started
      && (m.status[i] == Finished ==> m.outcomes[i] == NO_OUTCOME)
    ensures m.tasks[i].Executing? || m.outcomes[i].started ==> Began(g, events, i, false)
    ensures m.outcomes[i].started ==> Event.Finish(i, m.outcomes[i]) in events
  {
    EveryOriginates(g, events, m, i);
    BeganOnce(g, events, m, i);
    ReachableInv(g, events, m);
    assert m.outcomes[i].started ==> m.status[i] == Finished;
  }

  /** Once the run is cancelled nothing is admitted. */
  lemma {:induction false} AdmitsOnlyUncancelled(g: Group, events: seq<Event>, more: seq<Event>, m: Machine)
    requires Reaches(g, events + more, m) && Run(g, events).Some? && Stopped(g, events)
    ensures Stopped(g, events + more) && forall k :: 0 <= k < |more| ==> !more[k].Admit?
    decreases |more|
  {
    if more == [] {
      assert events + more == events;
    } else {
      var all, front := events + more, more[..|more| - 1];
      assert all[..|all| - 1] == events + front;
      var before := Run(g, events + front).value;
      AdmitsOnlyUncancelled(g, events, front, before);
      StoppedIsCancelled(g, events + front, before);
    }
  }

  // ---------------------------------------------------------------------------------------
  // Termination

  function Stage(s: Status, t: Task): nat {
    match t
    case Spawned(_) => 1
    case Executing(_) => 2
    case Sent(_) => 3
    case Idle => if s == Finished then 4 else 0
  }

  function Stages(status: seq<Status>, tasks: seq<Task>): nat
    requires |status| == |tasks|
  {
    if status == [] then 0 else Stage(status[0], tasks[0]) + Stages(status[1..], tasks[1..])
  }

  lemma {:induction false} StagesBound(status: seq<Status>, tasks: seq<Task>)
    requires |status| == |tasks|
    ensures Stages(status, tasks) <= 4 * |status|
  {
    if status != [] {
      StagesBound(status[1..], tasks[1..]);
    }
  }

  /** Moving one child on, with the others' stages as they were, moves the sum on. */
  lemma {:induction false} StagesAdvance(status: seq<Status>, tasks: seq<Task>, status': seq<Status>,
                                         tasks': seq<Task>, i: nat)
    requires |status| == |tasks| == |status'| == |tasks'| && i < |status|
    requires Stage(status[i], tasks[i]) < Stage(status'[i], tasks'[i])
    requires forall j :: 0 <= j < |status| && j != i ==> Stage(status[j], tasks[j]) == Stage(status'[j], tasks'[j])
    ensures Stages(status, tasks) < Stages(status', tasks')
  {
    if i == 0 {
      StagesSame(status[1..], tasks[1..], status'[1..], tasks'[1..]);
    } else {
      assert Stage(status[0], tasks[0]) == Stage(status'[0], tasks'[0]);
      StagesAdvance(status[1..], tasks[1..], status'[1..], tasks'[1..], i - 1);
    }
  }

  lemma {:induction false} StagesSame(status: seq<Status>, tasks: seq<Task>, status': seq<Status>, tasks': seq<Task>)
    requires |status| == |tasks| == |status'| == |tasks'|
    requires forall j :: 0 <= j < |status| ==> Stage(status[j], tasks[j]) == Stage(status'[j], tasks'[j])
    ensures Stages(status, tasks) == Stages(status', tasks')
  {
    if status != [] {
      assert Stage(status[0], tasks[0]) == Stage(status'[0], tasks'[0]);
      StagesSame(status[1..], tasks[1..], status'[1..], tasks'[1..]);
    }
  }

  function Effort(m: Machine): nat
    requires |m.status| == |m.tasks|
  {
    Stages(m.status, m.tasks) + (if m.parentDone then 1 else 0) + (if m.deadlineHit then 1 else 0)
  }

  lemma ReceiveGrows(g: Group, m: Machine, i: nat)
    requires Inv(g, m) && Enabled(g, m, Receive(i))
    ensures Effort(m) < Effort(Apply(g, m, Receive(i)))
  {
    var m' := Apply(g, m, Receive(i));
    forall j | 0 <= j < g.Size() && j != i
      ensures Stage(m.status[j], m.tasks[j]) == Stage(m'.status[j], m'.tasks[j])
    {
      ReceiveStatus(g, m, i, j);
    }
    ReceiveStatus(g, m, i, i);
    StagesAdvance(m.status, m.tasks, m'.status, m'.tasks, i);
  }

  lemma EffortGrows(g: Group, m: Machine, e: Event)
    requires Inv(g, m) && Enabled(g, m, e)
    ensures Effort(m) < Effort(Apply(g, m, e))
  {
    var m' := Apply(g, m, e);
    match e
    case CancelParent =>
    case Deadline =>
    case Receive(i) => ReceiveGrows(g, m, i);
    case _ =>
      StagesAdvance(m.status, m.tasks, m'.status, m'.tasks, e.index);
  }

  /** Every interleaving ends: on any graph, cyclic or not, no run has more events than this. */
  lemma {:induction false} RunsAreBounded(g: Group, events: seq<Event>, m: Machine)
    requires Reaches(g, events, m)
    ensures |events| <= Effort(m) <= 4 * g.Size() + 2
    decreases |events|
  {
    StagesBound(m.status, m.tasks);
    if events != [] {
      var front := events[..|events| - 1];
      RunsAreBounded(g, front, Run(g, front).value);
      ReachableInv(g, front, Run(g, front).value);
      EffortGrows(g, Run(g, front).value, events[|events| - 1]);
    }
  }

  // ---------------------------------------------------------------------------------------
  // Progress

  /** Nothing can happen any more except a cancellation from outside. */
  ghost predicate Stuck(g: Group, m: Machine)
    requires WellFormed(g) && Sized(g, m)
  {
    forall i :: 0 <= i < g.Size() ==>
      && !Enabled(g, m, Admit(i)) && !Enabled(g, m, Begin(i)) && !Enabled(g, m, Receive(i)) && !m.tasks[i].Executing?
  }

  /** A finished group has joined every branch it admitted. */
  lemma StuckHasJoined(g: Group, events: seq<Event>, m: Machine)
    requires Reaches(g, events, m) && Stuck(g, m)
    ensures forall i :: 0 <= i < g.Size() ==> m.status[i] != Running
    ensures Tally(m.status, Running) == 0
  {
    ReachableInv(g, events, m);
    forall i | 0 <= i < g.Size()
      ensures m.status[i] != Running
    {
      assert !Enabled(g, m, Begin(i)) && !Enabled(g, m, Receive(i));
    }
    TallyZero(m.status, Running);
  }

  /** With nothing running, a pending child leads back along the edges it waits on to an admissible one. */
  lemma {:induction false} PendingLeadsToAdmissible(g: Group, m: Machine, rank: seq<nat>, i: nat) returns (k: nat)
    requires Inv(g, m) && Ranks(Waits(g.graph), rank)
    requires forall j :: 0 <= j < g.Size() ==> m.status[j] != Running
    requires i < g.Size() && m.status[i] == Pending
    ensures k < g.Size() && Admissible(g, m, k)
    decreases rank[i]
  {
    if a :| a in g.graph.after[i] && !Terminal(m.status[a]) {
      assert a in Waits(g.graph)[i];
      k := PendingLeadsToAdmissible(g, m, rank, a);
    } else if d :| d in g.graph.dependencies[i] && !(m.status[d] == Finished && !m.outcomes[d].failed) {
      assert d in Waits(g.graph)[i];
      DependsEdge(g.graph.dependencies, i, d);
      if m.status[d] == Skipped {
        var f :| FailedAt(g, m, f) && Depends(g.graph.dependencies, d, f);
        DependsTransitive(g.graph.dependencies, i, d, f);
        assert false;
      }
      if m.status[d] == Finished {
        assert FailedAt(g, m, d);
        assert false;
      }
      k := PendingLeadsToAdmissible(g, m, rank, d);
    } else {
      k := i;
    }
  }

  lemma {:induction false} LeastAdmissible(g: Group, m: Machine, k: nat) returns (least: nat)
    requires WellFormed(g) && Sized(g, m) && k < g.Size() && Admissible(g, m, k)
    ensures least <= k && Admissible(g, m, least)
    ensures forall j :: 0 <= j < least ==> !Admissible(g, m, j)
    decreases k
  {
    if j :| 0 <= j < k && Admissible(g, m, j) {
      least := LeastAdmissible(g, m, j);
    } else {
      least := k;
    }
  }

  /** On an acyclic group with room for one branch, a run that can go no further without having been
      cancelled has finished or skipped every child. */
  lemma Progress(g: Group, events: seq<Event>, m: Machine)
    requires Reaches(g, events, m) && Stuck(g, m)
    requires Acyclic(Waits(g.graph)) && g.limit >= 1 && !Cancelled(m)
    ensures forall i :: 0 <= i < g.Size() ==> m.status[i] == Finished || m.status[i] == Skipped
  {
    ReachableInv(g, events, m);
    StuckHasJoined(g, events, m);
    var rank :| Ranks(Waits(g.graph), rank);
    if i :| 0 <= i < g.Size() && !Terminal(m.status[i]) {
      var k := PendingLeadsToAdmissible(g, m, rank, i);
      var least := LeastAdmissible(g, m, k);
      assert Enabled(g, m, Admit(least));
      assert false;
    }
  }

  // ---------------------------------------------------------------------------------------
  // The group's verdict

  /** Every branch ran to a successful or skipped end. */
  ghost predicate AllCompleted(outcomes: seq<Outcome>) {
    forall i :: 0 <= i < |outcomes| ==> outcomes[i].started && !outcomes[i].failed
  }

  /** The group reports no error: the parent is live, the deadline did not cut it short, no branch failed. */
  ghost predicate Clean(g: Group, m: Machine) {
    && !m.parentDone
    && !(m.deadlineHit && g.hasTimeout && !AllCompleted(m.outcomes))
    && forall i :: 0 <= i < |m.outcomes| ==> !m.outcomes[i].failed
  }

  /** A group without error has run every child: none was skipped, none was kept from starting. */
  lemma CleanMeansAllRan(g: Group, events: seq<Event>, m: Machine)
    requires Reaches(g, events, m) && Stuck(g, m)
    requires Acyclic(Waits(g.graph)) && g.limit >= 1
    requires Clean(g, m)
    ensures AllCompleted(m.outcomes)
    ensures forall i :: 0 <= i < g.Size() ==> m.outcomes[i].started && !m.outcomes[i].failed
    ensures forall i :: 0 <= i < g.Size() ==> m.status[i] == Finished
  {
    ReachableInv(g, events, m);
    assert !m.stop;
    if !m.deadlineHit {
      Progress(g, events, m);
      assert forall i :: 0 <= i < g.Size() ==> m.status[i] != Skipped;
    }
  }

  // ---------------------------------------------------------------------------------------
  // Independence from the schedule

  /** Every execution in the run produced what `behave` gives for its branch and read state. */
  ghost predicate Obeys(g: Group, events: seq<Event>, behave: (nat, View) -> Outcome)
    requires WellFormed(g) && Run(g, events).Some?
    decreases |events|
  {
    events == [] ||
    var front, e := events[..|events| - 1], events[|events| - 1];
    && Obeys(g, front, behave)
    && (e.Finish? ==> e.outcome == behave(e.index, Run(g, front).value.tasks[e.index].input))
  }

  ghost predicate DeterminedAt(g: Group, m: Machine, behave: (nat, View) -> Outcome, i: nat)
    requires WellFormed(g) && Sized(g, m) && i < g.Size()
  {
    && (m.tasks[i].Sent? && m.tasks[i].outcome.started ==> m.tasks[i].outcome == behave(i, InputOf(g, m.outcomes, i)))
    && (m.status[i] == Finished && m.outcomes[i].started ==> m.outcomes[i] == behave(i, InputOf(g, m.outcomes, i)))
  }

  ghost predicate Determined(g: Group, m: Machine, behave: (nat, View) -> Outcome)
    requires WellFormed(g) && Sized(g, m)
  {
    forall i :: 0 <= i < g.Size() ==> DeterminedAt(g, m, behave, i)
  }

  lemma StepKeepsInputs(g: Group, m: Machine, e: Event, i: nat)
    requires Inv(g, m) && Enabled(g, m, e) && i < g.Size()
    requires m.status[i] == Running || m.status[i] == Finished
    ensures InputOf(g, m.outcomes, i) == InputOf(g, Apply(g, m, e).outcomes, i)
  {
    if e.Receive? {
      var m' := Apply(g, m, e);
      forall a | 0 <= a < g.Size() && Depends(g.graph.dependencies, i, a)
        ensures m.outcomes[a] == m'.outcomes[a]
      {
        AncestorSettled(g, m, i, a);
        ReceiveKeepsSettled(g, m, e.index, a);
      }
      InputStable(g, i, m.outcomes, m'.outcomes);
    }
  }

  lemma StepKeepsDetermined(g: Group, m: Machine, e: Event, behave: (nat, View) -> Outcome)
    requires Inv(g, m) && Enabled(g, m, e) && Determined(g, m, behave)
    requires e.Finish? ==> e.outcome == behave(e.index, m.tasks[e.index].input)
    ensures Determined(g, Apply(g, m, e), behave)
  {
    forall i | 0 <= i < g.Size()
      ensures DeterminedAt(g, Apply(g, m, e), behave, i)
    {
      StepKeepsDeterminedAt(g, m, e, behave, i);
    }
  }

  lemma StepKeepsDeterminedAt(g: Group, m: Machine, e: Event, behave: (nat, View) -> Outcome, i: nat)
    requires Inv(g, m) && Enabled(g, m, e) && i < g.Size() && DeterminedAt(g, m, behave, i)
    requires e.Finish? ==> e.outcome == behave(e.index, m.tasks[e.index].input)
    ensures DeterminedAt(g, Apply(g, m, e), behave, i)
  {
    if m.status[i] == Running || m.status[i] == Finished {
      StepKeepsInputs(g, m, e, i);
    }
    if e.Receive? {
      ReceiveKeepsDeterminedAt(g, m, e.index, behave, i);
    }
  }

  lemma ReceiveKeepsDeterminedAt(g: Group, m: Machine, k: nat, behave: (nat, View) -> Outcome, i: nat)
    requires Inv(g, m) && Enabled(g, m, Receive(k)) && i < g.Size() && DeterminedAt(g, m, behave, i)
    requires m.status[i] == Running || m.status[i] == Finished ==>
        InputOf(g, m.outcomes, i) == InputOf(g, Apply(g, m, Receive(k)).outcomes, i)
    ensures DeterminedAt(g, Apply(g, m, Receive(k)), behave, i)
  {
    ReceiveStatus(g, m, k, i);
  }

  lemma {:induction false} ObedientIsDetermined(g: Group, events: seq<Event>, m: Machine,
                                                behave: (nat, View) -> Outcome)
    requires Reaches(g, events, m) && Obeys(g, events, behave)
    ensures Determined(g, m, behave)
    decreases |events|
  {
    if events != [] {
      var front := events[..|events| - 1];
      ObedientIsDetermined(g, front, Run(g, front).value, behave);
      ReachableInv(g, front, Run(g, front).value);
      StepKeepsDetermined(g, Run(g, front).value, events[|events| - 1], behave);
    }
  }

  /** Every child has run or was skipped. */
  ghost predicate Complete(g: Group, events: seq<Event>, m: Machine, behave: (nat, View) -> Outcome) {
    && Reaches(g, events, m)
    && Obeys(g, events, behave)
    && forall i :: 0 <= i < g.Size() ==> Over(g, m, i)
  }

  lemma {:induction false} SameFate(g: Group, a: seq<Event>, ma: Machine, b: seq<Event>, mb: Machine,
                                    behave: (nat, View) -> Outcome, rank: seq<nat>, i: nat)
    requires Complete(g, a, ma, behave) && Complete(g, b, mb, behave)
    requires Ranks(g.graph.dependencies, rank) && i < g.Size()
    ensures ma.status[i] == mb.status[i] && ma.outcomes[i] == mb.outcomes[i]
    decreases rank[i]
  {
    ReachableInv(g, a, ma);
    ReachableInv(g, b, mb);
    ObedientIsDetermined(g, a, ma, behave);
    ObedientIsDetermined(g, b, mb, behave);
    forall k | 0 <= k < g.Size() && Depends(g.graph.dependencies, i, k)
      ensures ma.status[k] == mb.status[k] && ma.outcomes[k] == mb.outcomes[k]
    {
      RankedHasNoCycle(g.graph.dependencies, rank, i, k);
      SameFate(g, a, ma, b, mb, behave, rank, k);
    }
    FateFollows(g, ma, mb, behave, i);
  }

  ghost predicate Over(g: Group, m: Machine, i: nat)
    requires Sized(g, m) && i < g.Size()
  {
    m.status[i] == Skipped || (m.status[i] == Finished && m.outcomes[i].started)
  }

  /** What all it needs came to determines what a child comes to. */
  lemma FateFollows(g: Group, ma: Machine, mb: Machine, behave: (nat, View) -> Outcome, i: nat)
    requires Inv(g, ma) && Inv(g, mb) && i < g.Size()
    requires Determined(g, ma, behave) && Determined(g, mb, behave) && Over(g, ma, i) && Over(g, mb, i)
    requires forall k :: 0 <= k < g.Size() && Depends(g.graph.dependencies, i, k) ==>
        ma.status[k] == mb.status[k] && ma.outcomes[k] == mb.outcomes[k]
    ensures ma.status[i] == mb.status[i] && ma.outcomes[i] == mb.outcomes[i]
  {
    if ma.status[i] == Skipped {
      var f :| FailedAt(g, ma, f) && Depends(g.graph.dependencies, i, f);
      assert FailedAt(g, mb, f);
    } else if mb.status[i] == Skipped {
      var f :| FailedAt(g, mb, f) && Depends(g.graph.dependencies, i, f);
      assert FailedAt(g, ma, f);
    } else {
      InputStable(g, i, ma.outcomes, mb.outcomes);
      assert DeterminedAt(g, ma, behave, i) && DeterminedAt(g, mb, behave, i);
    }
  }

  /** Two complete runs of an acyclic group whose branches behave alike end in the same outcomes, whatever
      the interleaving and whatever is cancelled after the last branch began: the same children fail, the
      same are skipped, and the group commits the same state. */
  lemma ScheduleIndependence(g: Group, a: seq<Event>, ma: Machine, b: seq<Event>, mb: Machine,
                             behave: (nat, View) -> Outcome)
    requires Complete(g, a, ma, behave) && Complete(g, b, mb, behave)
    requires Acyclic(g.graph.dependencies)
    ensures ma.status == mb.status && ma.outcomes == mb.outcomes
    ensures forall v: View :: Committed(v, g.owned, ma.outcomes) == Committed(v, g.owned, mb.outcomes)
  {
    var rank :| Ranks(g.graph.dependencies, rank);
    forall i | 0 <= i < g.Size()
      ensures ma.status[i] == mb.status[i] && ma.outcomes[i] == mb.outcomes[i]
    {
      SameFate(g, a, ma, b, mb, behave, rank, i);
    }
    assert ma.outcomes == mb.outcomes;
  }

  /** Two runs that can go no further and report no error agree in the same way, even if a deadline fired
      after the last branch had finished in one of them. */
  lemma CleanRunsAgree(g: Group, a: seq<Event>, ma: Machine, b: seq<Event>, mb: Machine,
                       behave: (nat, View) -> Outcome)
    requires Reaches(g, a, ma) && Obeys(g, a, behave) && Stuck(g, ma) && Clean(g, ma)
    requires Reaches(g, b, mb) && Obeys(g, b, behave) && Stuck(g, mb) && Clean(g, mb)
    requires Acyclic(Waits(g.graph)) && g.limit >= 1
    ensures ma.outcomes == mb.outcomes
    ensures forall v: View :: Committed(v, g.owned, ma.outcomes) == Committed(v, g.owned, mb.outcomes)
  {
    CleanMeansAllRan(g, a, ma);
    CleanMeansAllRan(g, b, mb);
    var rank :| Ranks(Waits(g.graph), rank);
    assert Ranks(g.graph.dependencies, rank);
    ScheduleIndependence(g, a, ma, b, mb, behave);
  }
}
