/** In which ways the branches of a concurrent group can take effect one after the other. */
module GroupPlans {
  import opened Collections
  import opened ConcurrentGraph
  import opened StepTree
  import opened Interpreter

  /** A branch takes effect next, and succeeds or not. */
  datatype Start = Start(branch: nat, succeeds: bool)

  function PlanFates(plan: seq<Start>): Fates {
    if plan == [] then map[]
    else PlanFates(plan[..|plan| - 1])[plan[|plan| - 1].branch := plan[|plan| - 1].succeeds]
  }

  /** The group can go on like this. */
  ghost predicate Feasible(group: Kind, plan: seq<Start>)
    requires group.Concurrent?
  {
    plan == [] ||
    (Feasible(group, plan[..|plan| - 1]) &&
     MayStart(group, PlanFates(plan[..|plan| - 1]), plan[|plan| - 1].branch))
  }

  function Branches(plan: seq<Start>): seq<nat> {
    seq(|plan|, i requires 0 <= i < |plan| => plan[i].branch)
  }

  lemma FatesNext(done: map<nat, Result>, k: nat, r: Result)
    ensures FatesOf(done[k := r]) == FatesOf(done)[k := r.err == OK]
  {
  }

  /** All branches of a plan are over after it, and no others. */
  lemma {:induction false} FatesHold(plan: seq<Start>, k: nat)
    ensures k in PlanFates(plan) <==> k in Branches(plan)
  {
    if plan != [] {
      var front, last := plan[..|plan| - 1], plan[|plan| - 1];
      FatesHold(front, k);
      assert Branches(plan) == Branches(front) + [last.branch];
    }
  }

  lemma {:induction false} FeasibleIsDistinct(group: Kind, plan: seq<Start>)
    requires group.Concurrent? && Feasible(group, plan)
    ensures Distinct(Branches(plan)) && forall k :: k in Branches(plan) ==> k < |group.body|
  {
    if plan != [] {
      var front, last := plan[..|plan| - 1], plan[|plan| - 1];
      FeasibleIsDistinct(group, front);
      FatesHold(front, last.branch);
      assert last.branch !in Branches(front) && last.branch < |group.body|;
      DistinctJoin(Branches(front), [last.branch]);
      assert Branches(plan) == Branches(front) + [last.branch];
    }
  }

  // ---------------------------------------------------------------------------------------
  // Every branch in turn

  predicate AllSucceed(plan: seq<Start>) {
    forall i :: 0 <= i < |plan| ==> plan[i].succeeds
  }

  lemma {:induction false} AllSucceeded(plan: seq<Start>)
    requires AllSucceed(plan)
    ensures forall k :: k in PlanFates(plan) ==> PlanFates(plan)[k]
  {
    if plan != [] {
      AllSucceeded(plan[..|plan| - 1]);
    }
  }

  /** Every branch takes effect, with success. */
  ghost predicate FullPlan(group: Kind, plan: seq<Start>)
    requires group.Concurrent?
  {
    && Feasible(group, plan) && AllSucceed(plan)
    && forall k: nat :: k < |group.body| ==> k in PlanFates(plan)
  }

  ghost function WaitEdges(steps: seq<Step>): seq<seq<nat>> {
    seq(|steps|, i requires 0 <= i < |steps| => NeedEdges(steps)[i] + AfterEdges(steps)[i])
  }

  /** With nothing failed, a branch that waits for none of the rest is ready. */
  lemma {:induction false} SomeReady(branches: seq<Step>, fates: Fates, rank: seq<nat>, i: nat) returns (k: nat)
    requires Ranks(WaitEdges(branches), rank) && i < |branches| && i !in fates
    requires forall j :: j in fates ==> fates[j]
    ensures Ready(branches, fates, k)
    decreases rank[i]
  {
    if d :| d in WaitEdges(branches)[i] && d !in fates {
      k := SomeReady(branches, fates, rank, d);
    } else {
      forall d | d in NeedEdges(branches)[i] || d in AfterEdges(branches)[i]
        ensures d in fates
      {
        assert d in WaitEdges(branches)[i];
      }
      k := i;
    }
  }

  lemma {:induction false} LeastReady(branches: seq<Step>, fates: Fates, k: nat) returns (least: nat)
    requires Ready(branches, fates, k)
    ensures least <= k && Ready(branches, fates, least)
    ensures forall j: nat :: j < least ==> !Ready(branches, fates, j)
    decreases k
  {
    if j: nat :| j < k && Ready(branches, fates, j) {
      least := LeastReady(branches, fates, j);
    } else {
      least := k;
    }
  }

  /** A plan without failures goes on until every branch has run. */
  lemma {:induction false} PlanExtends(group: Kind, rank: seq<nat>, plan: seq<Start>) returns (all: seq<Start>)
    requires group.Concurrent? && Ranks(WaitEdges(group.body), rank)
    requires Feasible(group, plan) && AllSucceed(plan)
    ensures FullPlan(group, all)
    decreases |group.body| - |plan|
  {
    FeasibleIsDistinct(group, plan);
    Pigeonhole(Branches(plan), |group.body|);
    if i: nat :| i < |group.body| && i !in PlanFates(plan) {
      FatesHold(plan, i);
      AllSucceeded(plan);
      var k := SomeReady(group.body, PlanFates(plan), rank, i);
      var least := LeastReady(group.body, PlanFates(plan), k);
      var more := plan + [Start(least, true)];
      assert more[..|more| - 1] == plan;
      all := PlanExtends(group, rank, more);
    } else {
      all := plan;
    }
  }

  lemma AcyclicHasFullPlan(group: Kind)
    requires group.Concurrent? && Acyclic(WaitEdges(group.body))
    ensures exists plan :: FullPlan(group, plan)
  {
    var rank :| Ranks(WaitEdges(group.body), rank);
    var plan := PlanExtends(group, rank, []);
  }

  /** Where a plan stands after its first `n` branches. */
  lemma {:induction false} FeasiblePrefix(group: Kind, plan: seq<Start>, n: nat)
    requires group.Concurrent? && Feasible(group, plan) && n <= |plan|
    ensures Feasible(group, plan[..n])
    ensures n < |plan| ==> MayStart(group, PlanFates(plan[..n]), plan[n].branch)
    decreases |plan|
  {
    if n < |plan| {
      var front := plan[..|plan| - 1];
      if n < |front| {
        FeasiblePrefix(group, front, n);
        assert front[..n] == plan[..n];
      }
    } else {
      assert plan[..n] == plan;
    }
  }
}
