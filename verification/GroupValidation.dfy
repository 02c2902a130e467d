/** The checks a workflow's concurrent group passes before it may run. */
module GroupValidation {
  import opened Collections
  import opened ConcurrentGraph

  datatype Fault =
    | TooFewSteps | LimitOutOfRange | TimeoutNotPositive
    | DuplicateId | DuplicateNeed | UnknownNeed | NeedsItself
    | DuplicateAfter | NeededAndAfter | UnknownAfter | AfterItself
    | Cycle

  /** Needs and after edges together: what a child waits for. */
  ghost function Waits(g: Graph): seq<seq<nat>>
    requires |g.dependencies| == |g.after|
  {
    seq(|g.dependencies|, i requires 0 <= i < |g.dependencies| => g.dependencies[i] + g.after[i])
  }

  // ---------------------------------------------------------------------------------------
  // Edge checks

  ghost predicate UniqueIds(steps: seq<Declaration>) {
    forall i, j :: 0 <= i < j < |steps| && steps[i].id != "" ==> steps[i].id != steps[j].id
  }

  ghost predicate Declares(steps: seq<Declaration>, id: string) {
    id != "" && exists k :: 0 <= k < |steps| && steps[k].id == id
  }

  /** Every name is a different, known sibling other than the child itself. */
  ghost predicate EdgesSound(steps: seq<Declaration>, index: nat)
    requires index < |steps|
  {
    && Distinct(steps[index].needs)
    && Distinct(steps[index].after)
    && (forall n :: n in steps[index].needs ==> Declares(steps, n) && n != steps[index].id)
    && (forall n :: n in steps[index].after ==>
          n !in steps[index].needs && Declares(steps, n) && n != steps[index].id)
  }

  /** The fault of the `k`-th need, none of those before it having one. */
  ghost predicate NeedFault(steps: seq<Declaration>, index: nat, k: nat, fault: Fault)
    requires index < |steps| && k < |steps[index].needs|
  {
    var needs, need := steps[index].needs, steps[index].needs[k];
    && Distinct(needs[..k]) && (forall n :: n in needs[..k] ==> Declares(steps, n) && n != steps[index].id)
    && (fault == DuplicateNeed <==> need in needs[..k])
    && (fault == UnknownNeed <==> need !in needs[..k] && !Declares(steps, need))
    && (fault == NeedsItself <==> need !in needs[..k] && Declares(steps, need) && need == steps[index].id)
    && fault in {DuplicateNeed, UnknownNeed, NeedsItself}
  }

  /** The same for the `k`-th `after`. */
  ghost predicate AfterFault(steps: seq<Declaration>, index: nat, k: nat, fault: Fault)
    requires index < |steps| && k < |steps[index].after|
  {
    var after, sibling, needed := steps[index].after, steps[index].after[k], steps[index].needs;
    var duplicate := sibling in after[..k];
    && Distinct(after[..k])
    && (forall n :: n in after[..k] ==> n !in needed && Declares(steps, n) && n != steps[index].id)
    && (fault == DuplicateAfter <==> duplicate)
    && (fault == NeededAndAfter <==> !duplicate && sibling in needed)
    && (fault == UnknownAfter <==> !duplicate && sibling !in needed && !Declares(steps, sibling))
    && (fault == AfterItself <==>
          !duplicate && sibling !in needed && Declares(steps, sibling) && sibling == steps[index].id)
    && fault in {DuplicateAfter, NeededAndAfter, UnknownAfter, AfterItself}
  }

  /** The fault reported is the first there is: ids before edges, child by child, needs before `after`. */
  ghost predicate FirstFault(steps: seq<Declaration>, fault: Fault) {
    match fault
    case DuplicateId => !UniqueIds(steps)
    case Cycle => AllSound(steps)
    case _ =>
      && UniqueIds(steps)
      && exists index: nat, k: nat ::
           && index < |steps| && (forall i :: 0 <= i < index ==> EdgesSound(steps, i))
           && ((k < |steps[index].needs| && NeedFault(steps, index, k, fault)) ||
               (k < |steps[index].after| && Distinct(steps[index].needs) &&
                (forall n :: n in steps[index].needs ==> Declares(steps, n) && n != steps[index].id) &&
                AfterFault(steps, index, k, fault)))
  }

  ghost predicate AllSound(steps: seq<Declaration>) {
    UniqueIds(steps) && forall i :: 0 <= i < |steps| ==> EdgesSound(steps, i)
  }

  method CheckIds(steps: seq<Declaration>) returns (fault: Option<Fault>, ids: map<string, nat>)
    ensures fault.None? <==> UniqueIds(steps)
    ensures fault.Some? ==> fault.value == DuplicateId
    ensures fault.None? ==> IndexesIds(steps, ids)
  {
    fault, ids := None, map[];
    for index := 0 to |steps|
      invariant UniqueIds(steps[..index]) && IndexesIds(steps[..index], ids)
    {
      assert steps[..index + 1] == steps[..index] + [steps[index]];
      if steps[index].id != "" {
        if steps[index].id in ids {
          assert steps[ids[steps[index].id]].id == steps[index].id;
          return Some(DuplicateId), ids;
        }
        ids := ids[steps[index].id := index];
      }
    }
    assert steps[..|steps|] == steps;
  }

  lemma KnownIsDeclared(steps: seq<Declaration>, ids: map<string, nat>, id: string)
    requires IndexesIds(steps, ids)
    ensures id in ids <==> Declares(steps, id)
  {
  }

  method CheckNeeds(steps: seq<Declaration>, ids: map<string, nat>, index: nat) returns (fault: Option<Fault>)
    requires index < |steps| && UniqueIds(steps) && IndexesIds(steps, ids)
    ensures fault.None? <==>
      && Distinct(steps[index].needs)
      && forall n :: n in steps[index].needs ==> Declares(steps, n) && n != steps[index].id
    ensures fault.Some? ==>
      exists k: nat :: k < |steps[index].needs| && NeedFault(steps, index, k, fault.value)
  {
    var needs := steps[index].needs;
    for k := 0 to |needs|
      invariant Distinct(needs[..k])
      invariant forall n :: n in needs[..k] ==> Declares(steps, n) && n != steps[index].id
    {
      assert needs[..k + 1] == needs[..k] + [needs[k]];
      KnownIsDeclared(steps, ids, needs[k]);
      if needs[k] in needs[..k] {
        assert NeedFault(steps, index, k, DuplicateNeed);
        return Some(DuplicateNeed);
      }
      if needs[k] !in ids {
        assert needs[k] in needs;
        assert NeedFault(steps, index, k, UnknownNeed);
        return Some(UnknownNeed);
      }
      if ids[needs[k]] == index {
        assert needs[k] in needs && needs[k] == steps[index].id;
        assert NeedFault(steps, index, k, NeedsItself);
        return Some(NeedsItself);
      }
      assert steps[ids[needs[k]]].id == needs[k];
    }
    assert needs[..|needs|] == needs;
    return None;
  }

  method CheckAfter(steps: seq<Declaration>, ids: map<string, nat>, index: nat) returns (fault: Option<Fault>)
    requires index < |steps| && UniqueIds(steps) && IndexesIds(steps, ids)
    ensures fault.None? <==>
      && Distinct(steps[index].after)
      && forall n :: n in steps[index].after ==>
           n !in steps[index].needs && Declares(steps, n) && n != steps[index].id
    ensures fault.Some? ==>
      exists k: nat :: k < |steps[index].after| && AfterFault(steps, index, k, fault.value)
  {
    var after := steps[index].after;
    for k := 0 to |after|
      invariant Distinct(after[..k])
      invariant forall n :: n in after[..k] ==>
        n !in steps[index].needs && Declares(steps, n) && n != steps[index].id
    {
      assert after[..k + 1] == after[..k] + [after[k]];
      KnownIsDeclared(steps, ids, after[k]);
      if after[k] in after[..k] {
        assert AfterFault(steps, index, k, DuplicateAfter);
        return Some(DuplicateAfter);
      }
      if after[k] in steps[index].needs {
        assert after[k] in after;
        assert AfterFault(steps, index, k, NeededAndAfter);
        return Some(NeededAndAfter);
      }
      if after[k] !in ids {
        assert after[k] in after;
        assert AfterFault(steps, index, k, UnknownAfter);
        return Some(UnknownAfter);
      }
      if ids[after[k]] == index {
        assert after[k] in after && after[k] == steps[index].id;
        assert AfterFault(steps, index, k, AfterItself);
        return Some(AfterItself);
      }
      assert steps[ids[after[k]]].id == after[k];
    }
    assert after[..|after|] == after;
    return None;
  }

  /** Both kinds of edges of one child, those of all before it being sound. */
  method CheckChild(steps: seq<Declaration>, ids: map<string, nat>, index: nat) returns (fault: Option<Fault>)
    requires index < |steps| && UniqueIds(steps) && IndexesIds(steps, ids)
    requires forall i :: 0 <= i < index ==> EdgesSound(steps, i)
    ensures fault.None? <==> EdgesSound(steps, index)
    ensures fault.Some? ==> FirstFault(steps, fault.value)
    ensures fault.Some? ==> fault.value !in {TooFewSteps, LimitOutOfRange, TimeoutNotPositive, Cycle}
  {
    fault := CheckNeeds(steps, ids, index);
    if fault.None? {
      fault := CheckAfter(steps, ids, index);
    }
  }

  // ---------------------------------------------------------------------------------------
  // Cycle check

  ghost predicate Counts(edges: seq<seq<nat>>, indegree: seq<int>, done: set<nat>) {
    && |indegree| == |edges|
    && forall i :: 0 <= i < |edges| ==> indegree[i] == Outside(edges[i], done)
  }

  /** `ready` and `visited` together are, once each, the children with nothing left to wait for. */
  ghost predicate Frontier(indegree: seq<int>, ready: seq<nat>, visited: seq<nat>) {
    && Distinct(visited + ready)
    && (forall i :: i in visited + ready ==> i < |indegree|)
    && forall i :: 0 <= i < |indegree| ==> (indegree[i] == 0 <==> i in visited + ready)
  }

  method Release(edges: seq<seq<nat>>, back: seq<seq<nat>>, indegree: seq<int>, ready: seq<nat>,
                 ghost visited: seq<nat>, ghost done: set<nat>, index: nat)
      returns (indegree': seq<int>, ready': seq<nat>)
    requires InRange(edges) && Transposed(edges, back) && index < |edges| && index !in done
    requires forall d :: d in back[index] ==> d < |edges|
    requires Counts(edges, indegree, done) && Frontier(indegree, ready, visited)
    ensures Counts(edges, indegree', done + {index}) && Frontier(indegree', ready', visited)
  {
    indegree', ready' := indegree, ready;
    var targets := back[index];
    for k := 0 to |targets|
      invariant |indegree'| == |edges|
      invariant forall i :: 0 <= i < |edges| ==> indegree'[i] == indegree[i] - multiset(targets[..k])[i]
      invariant forall i :: 0 <= i < |edges| ==> indegree'[i] >= 0
      invariant Frontier(indegree', ready', visited)
    {
      var d := targets[k];
      assert d in targets;
      assert targets[..k + 1] == targets[..k] + [d];
      assert targets == targets[..k + 1] + targets[k + 1..];
      OutsideAdd(edges[d], done, index);
      assert indegree'[d] >= 1 by {
        assert multiset(targets)[d] == multiset(edges[d])[index];
        assert multiset(targets)[d] >= multiset(targets[..k + 1])[d];
      }
      ghost var ready0, indegree0 := ready', indegree';
      assert d !in visited + ready';
      indegree' := indegree'[d := indegree'[d] - 1];
      if indegree'[d] == 0 {
        DistinctJoin(visited + ready', [d]);
        assert visited + (ready' + [d]) == visited + ready' + [d];
        ready' := ready' + [d];
      }
    }
    assert targets[..|targets|] == targets;
    forall i | 0 <= i < |edges|
      ensures indegree'[i] == Outside(edges[i], done + {index})
    {
      OutsideAdd(edges[i], done, index);
    }
  }

  /** How many edges each child waits for, and the children that wait for none. */
  method InitialFrontier(edges: seq<seq<nat>>) returns (indegree: seq<int>, ready: seq<nat>)
    ensures Counts(edges, indegree, {}) && Frontier(indegree, ready, [])
    ensures Ascending(ready)
  {
    indegree := seq(|edges|, i requires 0 <= i < |edges| => |edges[i]|);
    ready := [];
    forall i | 0 <= i < |edges|
      ensures indegree[i] == Outside(edges[i], {})
    {
      OutsideNone(edges[i]);
    }
    for index := 0 to |edges|
      invariant Distinct(ready) && Ascending(ready)
      invariant forall i :: i in ready ==> i < index
      invariant forall i :: 0 <= i < index ==> (indegree[i] == 0 <==> i in ready)
    {
      if indegree[index] == 0 {
        DistinctJoin(ready, [index]);
        assert forall i :: 0 <= i < |ready| ==> ready[i] in ready;
        ready := ready + [index];
      }
    }
    assert [] + ready == ready;
  }

  /** Peels off children with nothing left to wait for; all are peeled exactly when there is no cycle. */
  method VisitedCount(edges: seq<seq<nat>>, back: seq<seq<nat>>) returns (visited: nat)
    requires InRange(edges) && Transposed(edges, back) && InRange(back)
    ensures visited == |edges| <==> Acyclic(edges)
  {
    var indegree, ready := InitialFrontier(edges);
    visited := 0;
    ghost var order: seq<nat> := [];
    assert order + ready == ready;
    assert Elements(order) == {};
    while ready != []
      invariant visited == |order|
      invariant Counts(edges, indegree, Elements(order))
      invariant Frontier(indegree, ready, order)
      invariant InOrder(edges, order, 0)
      decreases |edges| - visited
    {
      var index := ready[0];
      assert order + ready == (order + [index]) + ready[1..];
      assert index in order + ready;
      ready := ready[1..];
      visited := visited + 1;
      ghost var done := Elements(order);
      OutsideZero(edges[index], done);
      InOrderAppend(edges, order, index, 0);
      assert (order + [index])[|order|] == index;
      assert index !in order by {
        var all := (order + [index]) + ready;
        assert forall k :: 0 <= k < |order| ==> all[k] == order[k] && all[k] != all[|order|];
      }
      order := order + [index];
      assert Elements(order) == done + {index};
      assert forall d :: d in back[index] ==> d < |back|;
      indegree, ready := Release(edges, back, indegree, ready, order, done, index);
      VisitedBound(order, ready, |edges|);
    }
    assert order + [] == order;
    Pigeonhole(order, |edges|);
    if visited == |edges| {
      OrderRanks(edges, order);
    } else if Acyclic(edges) {
      ghost var rank :| Ranks(edges, rank);
      ghost var i :| 0 <= i < |edges| && i !in order;
      NothingUnvisited(edges, rank, Elements(order), indegree, i);
    }
  }

  lemma VisitedBound(order: seq<nat>, ready: seq<nat>, n: nat)
    requires Distinct(order + ready) && forall i :: i in order + ready ==> i < n
    ensures |order| <= n
  {
    Pigeonhole(order + ready, n);
  }

  lemma OrderRanks(edges: seq<seq<nat>>, order: seq<nat>)
    requires InRange(edges) && InOrder(edges, order, 0) && Distinct(order)
    requires forall i :: 0 <= i < |edges| ==> i in order
    requires forall i :: i in order ==> i < |edges|
    ensures Acyclic(edges)
  {
    var rank := seq(|edges|, i requires 0 <= i < |edges| => Position(order, i));
    forall i, d | 0 <= i < |edges| && d in edges[i]
      ensures rank[d] < rank[i]
    {
      var k := Position(order, i);
      assert d in order[..k];
      var j :| 0 <= j < k && order[j] == d;
      assert Position(order, d) == j;
    }
    assert Ranks(edges, rank);
  }

  ghost function Position(order: seq<nat>, i: nat): (k: nat)
    requires i in order
    ensures k < |order| && order[k] == i
  {
    var k: nat :| k < |order| && order[k] == i;
    k
  }

  /** On a ranked graph no child can stay behind: it would wait for another one left behind, and so on. */
  lemma {:induction false} NothingUnvisited(edges: seq<seq<nat>>, rank: seq<nat>, done: set<nat>, indegree: seq<int>,
                                            i: nat)
    requires Ranks(edges, rank) && Counts(edges, indegree, done)
    requires forall k :: 0 <= k < |edges| ==> (indegree[k] == 0 <==> k in done)
    requires i < |edges|
    ensures i in done
    decreases rank[i]
  {
    if i !in done {
      OutsideZero(edges[i], done);
      var d :| d in edges[i] && d !in done;
      NothingUnvisited(edges, rank, done, indegree, d);
    }
  }

  // ---------------------------------------------------------------------------------------
  // The whole check

  /** The waits-for lists of a sound group, in declaration order. */
  ghost function DeclaredWaits(steps: seq<Declaration>, ids: map<string, nat>): seq<seq<nat>> {
    seq(|steps|, i requires 0 <= i < |steps| => Index(ids, steps[i].needs) + Index(ids, steps[i].after))
  }

  /** A group is accepted exactly when its edges are sound and its waits-for graph has no cycle. */
  method ValidateNeeds(steps: seq<Declaration>) returns (fault: Option<Fault>, ids: map<string, nat>)
    ensures fault.None? <==> AllSound(steps) && IndexesIds(steps, ids) && Acyclic(DeclaredWaits(steps, ids))
    ensures fault == Some(Cycle) ==> AllSound(steps) && IndexesIds(steps, ids)
    ensures fault.Some? ==> FirstFault(steps, fault.value)
    ensures fault.Some? ==> fault.value !in {TooFewSteps, LimitOutOfRange, TimeoutNotPositive}
  {
    fault, ids := CheckIds(steps);
    if fault.Some? {
      return;
    }
    var none := seq(|steps|, _ => []);
    var edges, back := none, none;
    for index := 0 to |steps|
      invariant |edges| == |steps|
      invariant forall i :: 0 <= i < index ==>
        EdgesSound(steps, i) && edges[i] == Index(ids, steps[i].needs) + Index(ids, steps[i].after)
      invariant forall i :: index <= i < |steps| ==> edges[i] == []
      invariant InRange(edges) && Transposed(edges, back) && InRange(back)
    {
      fault := CheckChild(steps, ids, index);
      if fault.Some? {
        return;
      }
      IndexInRange(steps, ids, steps[index].needs);
      IndexInRange(steps, ids, steps[index].after);
      var targets := Index(ids, steps[index].needs) + Index(ids, steps[index].after);
      edges, back := AddEdges(edges, back, index, targets);
    }
    assert edges == DeclaredWaits(steps, ids);
    var visited := VisitedCount(edges, back);
    fault := if visited == |steps| then None else Some(Cycle);
  }

  /** The safety limits are checked before the edges; a timeout is a number of nanoseconds. */
  method ValidateGroup(steps: seq<Declaration>, maxConcurrency: int, timeout: Option<int>)
      returns (fault: Option<Fault>, ids: map<string, nat>)
    ensures fault.None? <==>
      && |steps| >= 2
      && 1 <= maxConcurrency <= 100
      && (timeout.Some? ==> timeout.value > 0)
      && AllSound(steps) && IndexesIds(steps, ids) && Acyclic(DeclaredWaits(steps, ids))
    ensures fault == Some(TooFewSteps) <==> |steps| < 2
    ensures fault == Some(LimitOutOfRange) <==> |steps| >= 2 && !(1 <= maxConcurrency <= 100)
    ensures fault == Some(TimeoutNotPositive) <==>
      |steps| >= 2 && 1 <= maxConcurrency <= 100 && timeout.Some? && timeout.value <= 0
    ensures fault.Some? && fault.value !in {TooFewSteps, LimitOutOfRange, TimeoutNotPositive} ==>
      FirstFault(steps, fault.value)
  {
    fault, ids := None, map[];
    if |steps| < 2 {
      fault := Some(TooFewSteps);
    } else if maxConcurrency < 1 || maxConcurrency > 100 {
      fault := Some(LimitOutOfRange);
    } else if timeout.Some? && timeout.value <= 0 {
      fault := Some(TimeoutNotPositive);
    } else {
      fault, ids := ValidateNeeds(steps);
    }
  }

  /** Ranking the declared waits ranks the scheduler's graph, whose lists hold the same edges. */
  lemma IndexedTheSame(steps: seq<Declaration>, ids: map<string, nat>, ids': map<string, nat>)
    requires IndexesIds(steps, ids) && IndexesIds(steps, ids')
    ensures ids == ids'
  {
    assert forall id :: id in ids <==> Declares(steps, id);
    assert forall id :: id in ids' <==> Declares(steps, id);
    forall id | id in ids
      ensures ids[id] == ids'[id]
    {
    }
  }

  lemma RanksFewer(fewer: seq<seq<nat>>, edges: seq<seq<nat>>, rank: seq<nat>)
    requires Ranks(edges, rank) && |fewer| == |edges|
    requires forall i, d :: 0 <= i < |edges| && d in fewer[i] ==> d in edges[i]
    ensures Ranks(fewer, rank)
  {
  }

  lemma AcceptedGraphIsAcyclic(steps: seq<Declaration>, ids: map<string, nat>, ids': map<string, nat>, g: Graph)
    requires IndexesIds(steps, ids) && IndexesIds(steps, ids')
    requires ListsBuilt(steps, ids', |steps|, g) && Ranged(g)
    requires Acyclic(DeclaredWaits(steps, ids))
    ensures Acyclic(Waits(g)) && Acyclic(g.dependencies)
  {
    IndexedTheSame(steps, ids, ids');
    var declared := DeclaredWaits(steps, ids);
    var rank :| Ranks(declared, rank);
    forall i, d | 0 <= i < |steps| && d in Waits(g)[i]
      ensures d in declared[i]
    {
      SameMembers(g.dependencies[i], Index(ids, steps[i].needs));
    }
    RanksFewer(Waits(g), declared, rank);
    RanksFewer(g.dependencies, Waits(g), rank);
  }
}
