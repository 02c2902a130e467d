/** Every interleaving of a concurrent group: the scheduler, its branches, and cancellation. */
module Scheduler {
  import opened Collections
  import opened ConcurrentGraph
  import opened RunState

  /** A group ready to run: its graph, limits, the state branches start from, and the step ids
      each child declares. */
  datatype Group = Group(
    graph: Graph, limit: int, failFast: bool, hasTimeout: bool, snapshot: View, owned: seq<set<string>>)
  {
    ghost function Size(): nat {
      |graph.dependencies|
    }
  }

  datatype Status = Pending | Running | Finished | Skipped

  /** A branch outside the scheduler's own loop: not started, spawned with its read state,
      executing, or done with its completion waiting to be received. */
  datatype Task = Idle | Spawned(input: View) | Executing(input: View) | Sent(outcome: Outcome)

  datatype Machine = Machine(
    status: seq<Status>, tasks: seq<Task>, outcomes: seq<Outcome>,
    stop: bool, parentDone: bool, deadlineHit: bool)

  datatype Event =
    | CancelParent
    | Deadline
    | Begin(index: nat)
    | Finish(index: nat, outcome: Outcome)
    | Admit(index: nat)
    | Receive(index: nat)

  const SKIPPED_OUTCOME := Outcome(None, false, false, true)

  /** Shape of the graph a group is built with. */
  ghost predicate WellFormed(g: Group) {
    && |g.graph.dependencies| == |g.graph.dependents| == |g.graph.ancestors|
    && |g.graph.dependencies| == |g.graph.after| == |g.graph.afterDependents|
    && |g.owned| == g.Size()
    && InRange(g.graph.dependencies) && InRange(g.graph.after)
    && Transposed(g.graph.dependencies, g.graph.dependents)
    && Transposed(g.graph.after, g.graph.afterDependents)
    && AncestorsBuilt(g.graph.dependencies, g.graph.ancestors, g.Size())
  }

  ghost function Initial(g: Group): Machine {
    var n := g.Size();
    Machine(seq(n, _ => Pending), seq(n, _ => Idle), seq(n, _ => NO_OUTCOME), false, false, false)
  }

  /** The run context is done once the parent or the group deadline is, or a failure stopped the group. */
  predicate Cancelled(m: Machine) {
    m.stop || m.parentDone || m.deadlineHit
  }

  predicate Terminal(s: Status) {
    s == Finished || s == Skipped
  }

  function Tally(status: seq<Status>, s: Status): nat {
    if status == [] then 0 else (if status[0] == s then 1 else 0) + Tally(status[1..], s)
  }

  ghost predicate Sized(g: Group, m: Machine) {
    |m.status| == |m.tasks| == |m.outcomes| == g.Size()
  }

  /** Every needed sibling finished without error and every `after` sibling is over. */
  ghost predicate Admissible(g: Group, m: Machine, i: nat)
    requires WellFormed(g) && Sized(g, m) && i < g.Size()
  {
    && m.status[i] == Pending
    && (forall d :: d in g.graph.dependencies[i] ==> m.status[d] == Finished && !m.outcomes[d].failed)
    && forall a :: a in g.graph.after[i] ==> Terminal(m.status[a])
  }

  ghost predicate Enabled(g: Group, m: Machine, e: Event)
    requires WellFormed(g) && Sized(g, m)
  {
    match e
    case CancelParent => !m.parentDone
    case Deadline => g.hasTimeout && !m.parentDone && !m.deadlineHit
    case Begin(i) => i < g.Size() && m.tasks[i].Spawned?
    case Finish(i, o) => i < g.Size() && m.tasks[i].Executing? && o.started && (o.state.None? ==> o.failed)
    case Admit(i) =>
      && i < g.Size()
      && Tally(m.status, Running) < g.limit
      && !Cancelled(m)
      && Admissible(g, m, i)
      && forall k :: 0 <= k < i ==> !Admissible(g, m, k)
    case Receive(i) => i < g.Size() && m.tasks[i].Sent?
  }

  ghost function InputOf(g: Group, outcomes: seq<Outcome>, i: nat): View
    requires WellFormed(g) && i < g.Size() && |outcomes| == g.Size()
  {
    AncestorsInRange(g, i);
    ReadState(g.snapshot, g.owned, outcomes, g.graph.ancestors[i])
  }

  lemma AncestorsInRange(g: Group, i: nat)
    requires WellFormed(g) && i < g.Size()
    ensures forall k :: 0 <= k < |g.graph.ancestors[i]| ==> g.graph.ancestors[i][k] < g.Size()
  {
    forall k | 0 <= k < |g.graph.ancestors[i]|
      ensures g.graph.ancestors[i][k] < g.Size()
    {
      DependsInRange(g.graph.dependencies, i, g.graph.ancestors[i][k]);
    }
  }

  /** The pending children that transitively need a failed one. */
  ghost predicate Doomed(g: Group, m: Machine, failed: nat, j: nat)
    requires Sized(g, m) && j < g.Size()
  {
    m.status[j] == Pending && Depends(g.graph.dependencies, j, failed)
  }

  ghost function Apply(g: Group, m: Machine, e: Event): (m': Machine)
    requires WellFormed(g) && Sized(g, m) && Enabled(g, m, e)
    ensures Sized(g, m')
  {
    match e
    case CancelParent => m.(parentDone := true)
    case Deadline => m.(deadlineHit := true)
    case Begin(i) =>
      if Cancelled(m) then m.(tasks := m.tasks[i := Sent(NO_OUTCOME)])
      else m.(tasks := m.tasks[i := Executing(m.tasks[i].input)])
    case Finish(i, o) => m.(tasks := m.tasks[i := Sent(o)])
    case Admit(i) =>
      m.(status := m.status[i := Running], tasks := m.tasks[i := Spawned(InputOf(g, m.outcomes, i))])
    case Receive(i) =>
      var o := m.tasks[i].outcome;
      var m1 := m.(status := m.status[i := Finished], tasks := m.tasks[i := Idle], outcomes := m.outcomes[i := o]);
      if !o.failed then m1
      else
        m1.(status := seq(g.Size(), j requires 0 <= j < g.Size() =>
              if Doomed(g, m1, i, j) then Skipped else m1.status[j]),
            outcomes := seq(g.Size(), j requires 0 <= j < g.Size() =>
              if Doomed(g, m1, i, j) then SKIPPED_OUTCOME else m1.outcomes[j]),
            stop := m1.stop || g.failFast)
  }

  /** The machine after a sequence of events, if each was enabled when it happened. */
  ghost function Run(g: Group, events: seq<Event>): (m: Option<Machine>)
    requires WellFormed(g)
    ensures m.Some? ==> Sized(g, m.value)
    decreases |events|
  {
    if events == [] then Some(Initial(g))
    else
      var before := Run(g, events[..|events| - 1]);
      if before.Some? && Enabled(g, before.value, events[|events| - 1])
      then Some(Apply(g, before.value, events[|events| - 1]))
      else None
  }

  ghost predicate Reaches(g: Group, events: seq<Event>, m: Machine) {
    WellFormed(g) && Run(g, events) == Some(m)
  }

  lemma RunStep(g: Group, events: seq<Event>, m: Machine, e: Event)
    requires Reaches(g, events, m) && Enabled(g, m, e)
    ensures Reaches(g, events + [e], Apply(g, m, e))
  {
    assert (events + [e])[..|events|] == events;
  }

  // ---------------------------------------------------------------------------------------
  // The invariant

  ghost predicate Coherent(g: Group, m: Machine)
    requires WellFormed(g) && Sized(g, m)
  {
    forall i :: 0 <= i < g.Size() ==>
      && (m.status[i] == Running <==> !m.tasks[i].Idle?)
      && (m.status[i] == Skipped ==> m.outcomes[i] == SKIPPED_OUTCOME)
      && (m.status[i] == Pending || m.status[i] == Running ==> m.outcomes[i] == NO_OUTCOME)
  }

  ghost predicate Settled(g: Group, m: Machine, d: nat)
    requires Sized(g, m) && d < g.Size()
  {
    m.status[d] == Finished && m.outcomes[d].started && !m.outcomes[d].failed
  }

  /** A child that was admitted had all it needs settled and all it runs after over. */
  ghost predicate AdmittedInOrder(g: Group, m: Machine)
    requires WellFormed(g) && Sized(g, m)
  {
    forall i :: 0 <= i < g.Size() && (m.status[i] == Running || m.status[i] == Finished) ==>
      && (forall d :: d in g.graph.dependencies[i] ==> Settled(g, m, d))
      && forall a :: a in g.graph.after[i] ==> Terminal(m.status[a])
  }

  ghost predicate FailedAt(g: Group, m: Machine, f: nat)
    requires Sized(g, m)
  {
    f < g.Size() && m.status[f] == Finished && m.outcomes[f].failed
  }

  ghost predicate SkipExact(g: Group, m: Machine)
    requires WellFormed(g) && Sized(g, m)
  {
    forall j :: 0 <= j < g.Size() ==>
      (m.status[j] == Skipped <==> exists f :: FailedAt(g, m, f) && Depends(g.graph.dependencies, j, f))
  }

  /** Only a cancelled context keeps an admitted branch from starting, and then it reports no error. */
  ghost predicate UnstartedOnlyIfCancelled(g: Group, m: Machine)
    requires WellFormed(g) && Sized(g, m)
  {
    forall i :: 0 <= i < g.Size() ==>
      && (m.tasks[i].Sent? && !m.tasks[i].outcome.started ==> Cancelled(m) && m.tasks[i].outcome == NO_OUTCOME)
      && (m.status[i] == Finished && !m.outcomes[i].started ==> Cancelled(m) && m.outcomes[i] == NO_OUTCOME)
  }

  /** A branch works on the state its ancestors' outcomes determine. */
  ghost predicate InputsCurrent(g: Group, m: Machine)
    requires WellFormed(g) && Sized(g, m)
  {
    forall i :: 0 <= i < g.Size() ==>
      && (m.tasks[i].Spawned? ==> m.tasks[i].input == InputOf(g, m.outcomes, i))
      && (m.tasks[i].Executing? ==> m.tasks[i].input == InputOf(g, m.outcomes, i))
  }

  /** Fail-fast is the only thing that stops admission, and only after a failure. */
  ghost predicate StopExact(g: Group, m: Machine)
    requires WellFormed(g) && Sized(g, m)
  {
    m.stop <==> g.failFast && exists f :: FailedAt(g, m, f)
  }

  ghost predicate Inv(g: Group, m: Machine) {
    && WellFormed(g)
    && Sized(g, m)
    && Coherent(g, m)
    && AdmittedInOrder(g, m)
    && SkipExact(g, m)
    && UnstartedOnlyIfCancelled(g, m)
    && InputsCurrent(g, m)
    && StopExact(g, m)
    && (m.deadlineHit ==> g.hasTimeout)
    && Tally(m.status, Running) <= if g.limit < 0 then 0 else g.limit
  }

  lemma {:induction false} TallyUpdate(status: seq<Status>, i: nat, x: Status, s: Status)
    requires i < |status|
    ensures Tally(status[i := x], s) ==
      Tally(status, s) + (if x == s then 1 else 0) - (if status[i] == s then 1 else 0)
  {
    if i == 0 {
      assert status[i := x][1..] == status[1..];
    } else {
      assert status[i := x][1..] == status[1..][i - 1 := x];
      TallyUpdate(status[1..], i - 1, x, s);
    }
  }

  lemma {:induction false} TallySame(a: seq<Status>, b: seq<Status>, s: Status)
    requires |a| == |b|
    requires forall i :: 0 <= i < |a| ==> (a[i] == s <==> b[i] == s)
    ensures Tally(a, s) == Tally(b, s)
  {
    if a != [] {
      assert a[0] == s <==> b[0] == s;
      TallySame(a[1..], b[1..], s);
    }
  }

  lemma {:induction false} TallyZero(status: seq<Status>, s: Status)
    ensures Tally(status, s) == 0 <==> forall i :: 0 <= i < |status| ==> status[i] != s
  {
    if status != [] {
      TallyZero(status[1..], s);
      assert forall i :: 0 < i < |status| ==> status[i] == status[1..][i - 1];
    }
  }

  lemma InitialInv(g: Group)
    requires WellFormed(g)
    ensures Inv(g, Initial(g))
  {
    TallyZero(Initial(g).status, Running);
  }

  /** What an admitted child transitively needs is settled. */
  lemma {:induction false} NeedsSettled(g: Group, m: Machine, p: seq<nat>)
    requires WellFormed(g) && Sized(g, m) && AdmittedInOrder(g, m)
    requires IsPath(g.graph.dependencies, p)
    requires m.status[p[0]] == Running || m.status[p[0]] == Finished
    ensures Settled(g, m, p[|p| - 1])
    decreases |p|
  {
    assert p[1] in g.graph.dependencies[p[0]];
    if |p| > 2 {
      assert IsPath(g.graph.dependencies, p[1..]);
      NeedsSettled(g, m, p[1..]);
    }
  }

  lemma AncestorSettled(g: Group, m: Machine, i: nat, a: nat)
    requires WellFormed(g) && Sized(g, m) && AdmittedInOrder(g, m)
    requires i < g.Size() && Depends(g.graph.dependencies, i, a)
    requires m.status[i] == Running || m.status[i] == Finished
    ensures a < g.Size() && Settled(g, m, a)
  {
    var p :| IsPath(g.graph.dependencies, p) && p[0] == i && p[|p| - 1] == a;
    NeedsSettled(g, m, p);
  }

  /** Outcomes of settled children never change, so neither does a state read from them. */
  lemma InputStable(g: Group, i: nat, before: seq<Outcome>, later: seq<Outcome>)
    requires WellFormed(g) && i < g.Size() && |before| == |later| == g.Size()
    requires forall a :: 0 <= a < g.Size() && Depends(g.graph.dependencies, i, a) ==> before[a] == later[a]
    ensures InputOf(g, before, i) == InputOf(g, later, i)
  {
    AncestorsInRange(g, i);
    AbsorbAllDependsOn(Cloned(g.snapshot), g.owned, before, later, g.graph.ancestors[i]);
  }

  /** Failures, and so skips and the stop, depend only on what is booked. */
  lemma SameFailures(g: Group, m: Machine, m': Machine)
    requires WellFormed(g) && Sized(g, m) && Sized(g, m') && SkipExact(g, m) && StopExact(g, m)
    requires m'.stop == m.stop
    requires forall i :: 0 <= i < g.Size() ==>
      && (m'.status[i] == Skipped <==> m.status[i] == Skipped)
      && (m'.status[i] == Finished <==> m.status[i] == Finished)
      && m'.outcomes[i] == m.outcomes[i]
    ensures SkipExact(g, m') && StopExact(g, m')
  {
    assert forall f :: FailedAt(g, m, f) <==> FailedAt(g, m', f);
  }

  lemma AdmitKeepsOrder(g: Group, m: Machine, i: nat)
    requires Inv(g, m) && Enabled(g, m, Admit(i))
    ensures AdmittedInOrder(g, Apply(g, m, Admit(i)))
  {
    var m' := Apply(g, m, Admit(i));
    forall k, d | 0 <= k < g.Size() && (m'.status[k] == Running || m'.status[k] == Finished) &&
        d in g.graph.dependencies[k]
      ensures Settled(g, m', d)
    {
      assert k != i ==> Settled(g, m, d);
    }
  }

  lemma AdmitKeepsInv(g: Group, m: Machine, i: nat)
    requires Inv(g, m) && Enabled(g, m, Admit(i))
    ensures Inv(g, Apply(g, m, Admit(i)))
  {
    var m' := Apply(g, m, Admit(i));
    TallyUpdate(m.status, i, Running, Running);
    AdmitKeepsOrder(g, m, i);
    SameFailures(g, m, m');
  }

  lemma FinishKeepsOrder(g: Group, m: Machine, m': Machine)
    requires Inv(g, m) && Sized(g, m') && m'.status == m.status && m'.outcomes == m.outcomes
    ensures AdmittedInOrder(g, m')
  {
    forall k, d | 0 <= k < g.Size() && (m'.status[k] == Running || m'.status[k] == Finished) &&
        d in g.graph.dependencies[k]
      ensures Settled(g, m', d)
    {
      assert Settled(g, m, d);
    }
  }

  lemma FinishKeepsInputs(g: Group, m: Machine, e: Event)
    requires Inv(g, m) && Enabled(g, m, e) && !e.Admit? && !e.Receive?
    ensures InputsCurrent(g, Apply(g, m, e))
  {
    var m' := Apply(g, m, e);
    assert m'.outcomes == m.outcomes;
    forall i | 0 <= i < g.Size() && (m'.tasks[i].Spawned? || m'.tasks[i].Executing?)
      ensures m'.tasks[i].input == InputOf(g, m'.outcomes, i)
    {
      assert m'.tasks[i].input == m.tasks[i].input;
    }
  }

  lemma FinishKeepsCoherent(g: Group, m: Machine, e: Event)
    requires Inv(g, m) && Enabled(g, m, e) && !e.Admit? && !e.Receive?
    ensures Coherent(g, Apply(g, m, e))
  {
  }

  lemma FinishKeepsUnstarted(g: Group, m: Machine, e: Event)
    requires Inv(g, m) && Enabled(g, m, e) && !e.Admit? && !e.Receive?
    ensures UnstartedOnlyIfCancelled(g, Apply(g, m, e))
  {
  }

  lemma FinishKeepsInv(g: Group, m: Machine, e: Event)
    requires Inv(g, m) && Enabled(g, m, e) && !e.Admit? && !e.Receive?
    ensures Inv(g, Apply(g, m, e))
  {
    FinishKeepsOrder(g, m, Apply(g, m, e));
    FinishKeepsCoherent(g, m, e);
    FinishKeepsUnstarted(g, m, e);
    FinishKeepsInputs(g, m, e);
    SameFailures(g, m, Apply(g, m, e));
  }

  /** The received child was running, so nothing admitted needs it, itself included. */
  lemma DoomedAreUnadmitted(g: Group, m: Machine, i: nat, j: nat)
    requires Inv(g, m) && Enabled(g, m, Receive(i))
    requires j < g.Size() && Depends(g.graph.dependencies, j, i)
    ensures j != i && (m.status[j] == Pending || m.status[j] == Skipped)
  {
    if m.status[j] == Running || m.status[j] == Finished {
      AncestorSettled(g, m, j, i);
    }
  }

  lemma ReceiveStatus(g: Group, m: Machine, i: nat, j: nat)
    requires Inv(g, m) && Enabled(g, m, Receive(i)) && j < g.Size()
    ensures var m' := Apply(g, m, Receive(i));
      && m'.status[j] == (if j == i then Finished
                          else if m.tasks[i].outcome.failed && Doomed(g, m, i, j) then Skipped
                          else m.status[j])
      && m'.outcomes[j] == (if j == i then m.tasks[i].outcome
                            else if m.tasks[i].outcome.failed && Doomed(g, m, i, j) then SKIPPED_OUTCOME
                            else m.outcomes[j])
  {
    if Depends(g.graph.dependencies, i, i) {
      DoomedAreUnadmitted(g, m, i, i);
    }
  }

  lemma ReceiveKeepsSettled(g: Group, m: Machine, i: nat, d: nat)
    requires Inv(g, m) && Enabled(g, m, Receive(i)) && d < g.Size()
    ensures Settled(g, m, d) ==>
      Settled(g, Apply(g, m, Receive(i)), d) && Apply(g, m, Receive(i)).outcomes[d] == m.outcomes[d]
    ensures Terminal(m.status[d]) ==> Terminal(Apply(g, m, Receive(i)).status[d])
    ensures FailedAt(g, m, d) ==> FailedAt(g, Apply(g, m, Receive(i)), d)
    ensures FailedAt(g, Apply(g, m, Receive(i)), d) ==> FailedAt(g, m, d) || (d == i && m.tasks[i].outcome.failed)
  {
    ReceiveStatus(g, m, i, d);
  }

  lemma ReceiveKeepsOrder(g: Group, m: Machine, i: nat)
    requires Inv(g, m) && Enabled(g, m, Receive(i))
    ensures AdmittedInOrder(g, Apply(g, m, Receive(i)))
  {
    var m' := Apply(g, m, Receive(i));
    forall k | 0 <= k < g.Size() && (m'.status[k] == Running || m'.status[k] == Finished)
      ensures forall d :: d in g.graph.dependencies[k] ==> Settled(g, m', d)
      ensures forall a :: a in g.graph.after[k] ==> Terminal(m'.status[a])
    {
      ReceiveStatus(g, m, i, k);
      forall d | d in g.graph.dependencies[k]
        ensures Settled(g, m', d)
      {
        ReceiveKeepsSettled(g, m, i, d);
      }
      forall a | a in g.graph.after[k]
        ensures Terminal(m'.status[a])
      {
        ReceiveKeepsSettled(g, m, i, a);
      }
    }
  }

  lemma ReceiveKeepsSkips(g: Group, m: Machine, i: nat)
    requires Inv(g, m) && Enabled(g, m, Receive(i))
    ensures SkipExact(g, Apply(g, m, Receive(i)))
  {
    var m' := Apply(g, m, Receive(i));
    forall j | 0 <= j < g.Size()
      ensures m'.status[j] == Skipped <==> exists f :: FailedAt(g, m', f) && Depends(g.graph.dependencies, j, f)
    {
      ReceiveStatus(g, m, i, j);
      if m'.status[j] == Skipped {
        if m.status[j] == Skipped {
          var f :| FailedAt(g, m, f) && Depends(g.graph.dependencies, j, f);
          ReceiveKeepsSettled(g, m, i, f);
        } else {
          ReceiveStatus(g, m, i, i);
          assert FailedAt(g, m', i);
        }
      }
      if f :| FailedAt(g, m', f) && Depends(g.graph.dependencies, j, f) {
        ReceiveKeepsSettled(g, m, i, f);
        if FailedAt(g, m, f) {
          assert m.status[j] == Skipped;
        } else {
          DoomedAreUnadmitted(g, m, i, j);
        }
      }
    }
  }

  lemma ReceiveKeepsTally(g: Group, m: Machine, i: nat)
    requires Inv(g, m) && Enabled(g, m, Receive(i))
    ensures Tally(Apply(g, m, Receive(i)).status, Running) == Tally(m.status, Running) - 1
  {
    var m' := Apply(g, m, Receive(i));
    TallyUpdate(m.status, i, Finished, Running);
    forall j | 0 <= j < g.Size()
      ensures m'.status[j] == Running <==> m.status[i := Finished][j] == Running
    {
      ReceiveStatus(g, m, i, j);
    }
    TallySame(m'.status, m.status[i := Finished], Running);
  }

  lemma ReceiveKeepsInputs(g: Group, m: Machine, i: nat)
    requires Inv(g, m) && Enabled(g, m, Receive(i))
    ensures InputsCurrent(g, Apply(g, m, Receive(i)))
  {
    var m' := Apply(g, m, Receive(i));
    forall k | 0 <= k < g.Size() && (m'.tasks[k].Spawned? || m'.tasks[k].Executing?)
      ensures m'.tasks[k].input == InputOf(g, m'.outcomes, k)
    {
      assert m'.tasks[k] == m.tasks[k];
      forall a | 0 <= a < g.Size() && Depends(g.graph.dependencies, k, a)
        ensures m.outcomes[a] == m'.outcomes[a]
      {
        AncestorSettled(g, m, k, a);
        ReceiveKeepsSettled(g, m, i, a);
      }
      InputStable(g, k, m.outcomes, m'.outcomes);
    }
  }

  lemma ReceiveKeepsCoherent(g: Group, m: Machine, i: nat)
    requires Inv(g, m) && Enabled(g, m, Receive(i))
    ensures var m' := Apply(g, m, Receive(i));
      Coherent(g, m') && UnstartedOnlyIfCancelled(g, m') && StopExact(g, m')
  {
    var m' := Apply(g, m, Receive(i));
    forall j | 0 <= j < g.Size()
      ensures m'.status[j] == Running <==> !m'.tasks[j].Idle?
      ensures m'.status[j] == Skipped ==> m'.outcomes[j] == SKIPPED_OUTCOME
      ensures m'.status[j] == Pending || m'.status[j] == Running ==> m'.outcomes[j] == NO_OUTCOME
      ensures m'.tasks[j].Sent? && !m'.tasks[j].outcome.started ==> Cancelled(m') && m'.tasks[j].outcome == NO_OUTCOME
      ensures m'.status[j] == Finished && !m'.outcomes[j].started ==> Cancelled(m') && m'.outcomes[j] == NO_OUTCOME
    {
      ReceiveStatus(g, m, i, j);
    }
    if m.stop {
      var f :| FailedAt(g, m, f);
      ReceiveKeepsSettled(g, m, i, f);
    }
    if m.tasks[i].outcome.failed {
      ReceiveStatus(g, m, i, i);
      assert FailedAt(g, m', i);
    } else if f :| FailedAt(g, m', f) {
      ReceiveKeepsSettled(g, m, i, f);
    }
  }

  lemma StepKeepsInv(g: Group, m: Machine, e: Event)
    requires Inv(g, m) && Enabled(g, m, e)
    ensures Inv(g, Apply(g, m, e))
  {
    match e
    case Admit(i) => AdmitKeepsInv(g, m, i);
    case Receive(i) =>
      ReceiveKeepsOrder(g, m, i);
      ReceiveKeepsSkips(g, m, i);
      ReceiveKeepsTally(g, m, i);
      ReceiveKeepsInputs(g, m, i);
      ReceiveKeepsCoherent(g, m, i);
    case _ => FinishKeepsInv(g, m, e);
  }

  lemma {:induction false} ReachableInv(g: Group, events: seq<Event>, m: Machine)
    requires Reaches(g, events, m)
    ensures Inv(g, m)
    decreases |events|
  {
    if events == [] {
      InitialInv(g);
    } else {
      var front := events[..|events| - 1];
      ReachableInv(g, front, Run(g, front).value);
      StepKeepsInv(g, Run(g, front).value, events[|events| - 1]);
    }
  }
}
