/** A concurrent group from declaration to commit. */
module ConcurrentGroup {
  import opened ConcurrentGraph
  import opened GroupValidation
  import opened RunState
  import opened Scheduler
  import opened SchedulerProperties
  import opened SchedulerLoop

  /** Why a group reports an error; `Committed` is the one case in which it does not. Of failed branches the
      group joins the errors of those listed. */
  datatype Verdict = Committed | ParentEnded | TimedOut | BranchesFailed(joined: seq<nat>) | WriteConflict

  method AllBranchesCompleted(outcomes: seq<Outcome>) returns (all: bool)
    ensures all <==> AllCompleted(outcomes)
  {
    for i := 0 to |outcomes|
      invariant AllCompleted(outcomes[..i])
    {
      if !outcomes[i].started || outcomes[i].failed {
        return false;
      }
      assert outcomes[..i + 1] == outcomes[..i] + [outcomes[i]];
    }
    assert outcomes[..|outcomes|] == outcomes;
    return true;
  }

  /** A branch whose error the group reports: any that failed, but of a group that fails fast one that was
      cancelled only if all that failed were. `cancels` says which errors report cancellation. */
  predicate Reports(outcomes: seq<Outcome>, failFast: bool, cancels: seq<bool>, i: nat)
    requires |cancels| == |outcomes|
  {
    && i < |outcomes| && outcomes[i].failed
    && (failFast && cancels[i] ==> forall j :: 0 <= j < |outcomes| && outcomes[j].failed ==> cancels[j])
  }

  /** Exactly the positions below `n` with the property, in order. */
  ghost predicate Lists(positions: seq<nat>, n: nat, which: nat -> bool) {
    && (forall i: nat :: i in positions <==> i < n && which(i))
    && forall a, b :: 0 <= a < b < |positions| ==> positions[a] < positions[b]
  }

  lemma ListsNext(positions: seq<nat>, n: nat, which: nat -> bool)
    requires Lists(positions, n, which)
    ensures Lists(if which(n) then positions + [n] else positions, n + 1, which)
  {
    forall k | 0 <= k < |positions|
      ensures positions[k] < n
    {
      assert positions[k] in positions;
    }
    assert forall i :: i in positions + [n] <==> i in positions || i == n;
  }

  /** The errors of the branches that the group joins, by position. */
  method JoinedErrors(outcomes: seq<Outcome>, failFast: bool, cancels: seq<bool>) returns (joined: seq<nat>)
    requires |cancels| == |outcomes|
    ensures forall i: nat :: i in joined <==> Reports(outcomes, failFast, cancels, i)
    ensures forall a, b :: 0 <= a < b < |joined| ==> joined[a] < joined[b]
    ensures joined == [] <==> forall i :: 0 <= i < |outcomes| ==> !outcomes[i].failed
  {
    var primary: seq<nat>, canceled: seq<nat> := [], [];
    ghost var isPrimary := Splits(outcomes, failFast, cancels, false);
    ghost var isCanceled := Splits(outcomes, failFast, cancels, true);
    for i := 0 to |outcomes|
      invariant Lists(primary, i, isPrimary) && Lists(canceled, i, isCanceled)
    {
      ListsNext(primary, i, isPrimary);
      ListsNext(canceled, i, isCanceled);
      if outcomes[i].failed {
        if failFast && cancels[i] {
          canceled := canceled + [i];
        } else {
          primary := primary + [i];
        }
      }
    }
    joined := if |primary| > 0 then primary else canceled;
    JoinedAre(outcomes, failFast, cancels, primary, canceled);
  }

  /** The failed branches that the group counts as cancelled, or the others. */
  function Splits(outcomes: seq<Outcome>, failFast: bool, cancels: seq<bool>, canceled: bool): nat -> bool
    requires |cancels| == |outcomes|
  {
    (i: nat) => i < |outcomes| && outcomes[i].failed && (failFast && cancels[i] <==> canceled)
  }

  lemma JoinedAre(outcomes: seq<Outcome>, failFast: bool, cancels: seq<bool>, primary: seq<nat>, canceled: seq<nat>)
    requires |cancels| == |outcomes|
    requires Lists(primary, |outcomes|, Splits(outcomes, failFast, cancels, false))
    requires Lists(canceled, |outcomes|, Splits(outcomes, failFast, cancels, true))
    ensures
      var joined := if primary != [] then primary else canceled;
      && (forall i: nat :: i in joined <==> Reports(outcomes, failFast, cancels, i))
      && (joined == [] <==> forall i :: 0 <= i < |outcomes| ==> !outcomes[i].failed)
  {
    var joined := if primary != [] then primary else canceled;
    assert forall i: nat :: i < |outcomes| && outcomes[i].failed ==> i in primary || i in canceled;
    if primary != [] {
      assert primary[0] in primary;
    }
    if joined != [] {
      assert joined[0] in joined;
    }
    forall i: nat
      ensures i in joined <==> Reports(outcomes, failFast, cancels, i)
    {
    }
  }

  /** The error of a joined group, in the order the engine looks for it. */
  method ExecutionError(outcomes: seq<Outcome>, parentDone: bool, deadlineHit: bool, hasTimeout: bool,
                        failFast: bool, cancels: seq<bool>) returns (verdict: Verdict)
    requires |cancels| == |outcomes|
    ensures verdict == ParentEnded <==> parentDone
    ensures verdict == TimedOut <==> !parentDone && deadlineHit && hasTimeout && !AllCompleted(outcomes)
    ensures verdict.BranchesFailed? ==>
      && (forall i: nat :: i in verdict.joined <==> Reports(outcomes, failFast, cancels, i))
      && (forall a, b :: 0 <= a < b < |verdict.joined| ==> verdict.joined[a] < verdict.joined[b])
    ensures verdict.Committed? <==>
      && !parentDone
      && !(deadlineHit && hasTimeout && !AllCompleted(outcomes))
      && forall i :: 0 <= i < |outcomes| ==> !outcomes[i].failed
    ensures !verdict.WriteConflict?
  {
    var all := AllBranchesCompleted(outcomes);
    var joined := JoinedErrors(outcomes, failFast, cancels);
    verdict :=
      if parentDone then ParentEnded
      else if deadlineHit && hasTimeout && !all then TimedOut
      else if |joined| > 0 then BranchesFailed(joined)
      else Committed;
  }

  /** The declarations pass the cycle check of `GroupValidation.ValidateNeeds`. */
  ghost predicate Accepted(steps: seq<Declaration>) {
    exists ids :: IndexesIds(steps, ids) && Acyclic(DeclaredWaits(steps, ids))
  }

  /** Runs a group on a private snapshot and commits it only when it is clean and every variable has
      one writer; in every other case the state is exactly what it was. */
  method RunConcurrent(state: State, steps: seq<Declaration>, owned: seq<set<string>>, limit: int, failFast: bool,
                       hasTimeout: bool, cancels: seq<bool>)
      returns (verdict: Verdict, outcomes: seq<Outcome>, ghost g: Group, ghost events: seq<Event>, ghost final: Machine)
    requires |owned| == |steps| == |cancels|
    modifies state
    ensures WellFormed(g) && g.Size() == |steps| && g.snapshot == Cloned(old(state.Current())) && g.owned == owned
    ensures g.limit == limit && g.failFast == failFast && g.hasTimeout == hasTimeout
    ensures exists ids :: IndexesIds(steps, ids) && ListsBuilt(steps, ids, |steps|, g.graph)
    ensures Reaches(g, events, final) && Stuck(g, final) && outcomes == final.outcomes
    ensures !verdict.Committed? ==> state.Current() == old(state.Current())
    ensures verdict.Committed? ==>
      && Clean(g, final)
      && SingleWriters(outcomes)
      && state.Current() == RunState.Committed(old(state.Current()), owned, outcomes)
    ensures verdict == ParentEnded <==> final.parentDone
    ensures verdict == TimedOut <==>
      !final.parentDone && final.deadlineHit && hasTimeout &&
      exists i :: 0 <= i < |outcomes| && !(outcomes[i].started && !outcomes[i].failed)
    ensures verdict.BranchesFailed? ==>
      forall i: nat :: i in verdict.joined <==> Reports(outcomes, failFast, cancels, i)
    ensures verdict == WriteConflict <==> Clean(g, final) && !SingleWriters(outcomes)
    ensures Accepted(steps) && limit >= 1 ==>
      && (verdict.Committed? ==> AllCompleted(outcomes))
      && (!Cancelled(final) ==> forall i :: 0 <= i < g.Size() ==> Terminal(final.status[i]))
  {
    var graph, ids := NewGraph(steps);
    var group := Group(graph, limit, failFast, hasTimeout, Cloned(state.Current()), owned);
    g := group;
    var w;
    outcomes, w, events, final := RunConcurrentGraph(group);
    verdict := ExecutionError(outcomes, w.parentDone, w.deadlineHit, hasTimeout, failFast, cancels);
    if Accepted(steps) && limit >= 1 {
      ghost var declared :| IndexesIds(steps, declared) && Acyclic(DeclaredWaits(steps, declared));
      AcceptedGraphIsAcyclic(steps, declared, ids, graph);
      if verdict.Committed? {
        CleanMeansAllRan(g, events, final);
      }
    }
    if verdict.Committed? {
      var conflict := CommitBranches(state, owned, outcomes);
      if conflict.Some? {
        verdict := WriteConflict;
      }
    }
  }
}
