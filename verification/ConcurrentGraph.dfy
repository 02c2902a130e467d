/** The dependency graph of a concurrent group, built from the children's declarations. */
module ConcurrentGraph {
  import opened Collections

  /** What a child declares about its siblings. An empty `id` marks an anonymous child. */
  datatype Declaration = Declaration(id: string, needs: seq<string>, after: seq<string>)

  /** Adjacency lists by child position. `needs` edges are dependencies/dependents. */
  datatype Graph = Graph(
    dependencies: seq<seq<nat>>,
    dependents: seq<seq<nat>>,
    ancestors: seq<seq<nat>>,
    after: seq<seq<nat>>,
    afterDependents: seq<seq<nat>>)

  // ---------------------------------------------------------------------------------------
  // What the adjacency lists mean

  /** The position an id resolves to: the last child declaring it, never an anonymous one. */
  ghost predicate Resolves(steps: seq<Declaration>, id: string, index: nat) {
    && id != ""
    && index < |steps|
    && steps[index].id == id
    && forall later :: index < later < |steps| ==> steps[later].id != id
  }

  function Index(ids: map<string, nat>, names: seq<string>): seq<nat> {
    if names == [] then []
    else (if names[0] in ids then [ids[names[0]]] else []) + Index(ids, names[1..])
  }

  /** A list resolves to the positions of its known names, one for each. */
  lemma {:induction false} IndexHolds(ids: map<string, nat>, names: seq<string>, j: nat)
    ensures j in Index(ids, names) <==> exists k :: 0 <= k < |names| && names[k] in ids && ids[names[k]] == j
    ensures (forall k :: 0 <= k < |names| ==> names[k] in ids) ==>
      |Index(ids, names)| == |names| && forall k :: 0 <= k < |names| ==> Index(ids, names)[k] == ids[names[k]]
  {
    if names != [] {
      IndexHolds(ids, names[1..], j);
      assert forall k :: 0 < k < |names| ==> names[k] == names[1..][k - 1];
    }
  }

  ghost predicate IndexesIds(steps: seq<Declaration>, ids: map<string, nat>) {
    && (forall id :: id in ids ==> Resolves(steps, id, ids[id]))
    && (forall k :: 0 <= k < |steps| && steps[k].id != "" ==> steps[k].id in ids)
  }

  lemma IndexInRange(steps: seq<Declaration>, ids: map<string, nat>, names: seq<string>)
    requires IndexesIds(steps, ids)
    ensures forall k :: k in Index(ids, names) ==> k < |steps|
  {
    if names != [] {
      IndexInRange(steps, ids, names[1..]);
    }
  }

  /** Every list entry is a child position. */
  ghost predicate InRange(edges: seq<seq<nat>>) {
    forall i, k :: 0 <= i < |edges| && k in edges[i] ==> k < |edges|
  }

  /** `back` holds each edge of `edges` reversed, repeated edges as often as declared. */
  ghost predicate Transposed(edges: seq<seq<nat>>, back: seq<seq<nat>>) {
    && |back| == |edges|
    && forall i, d :: 0 <= i < |edges| && 0 <= d < |edges| ==> multiset(back[d])[i] == multiset(edges[i])[d]
  }

  /** A walk along `edges`, from `p[0]` to the last element, of at least one edge. */
  ghost predicate IsPath(edges: seq<seq<nat>>, p: seq<nat>) {
    && |p| >= 2
    && (forall k :: 0 <= k < |p| ==> p[k] < |edges|)
    && forall k :: 0 <= k < |p| - 1 ==> p[k + 1] in edges[p[k]]
  }

  /** `i` transitively depends on `j`. */
  ghost predicate Depends(edges: seq<seq<nat>>, i: nat, j: nat) {
    exists p :: IsPath(edges, p) && p[0] == i && p[|p| - 1] == j
  }

  /** A numbering that decreases along every edge. */
  ghost predicate Ranks(edges: seq<seq<nat>>, rank: seq<nat>) {
    && |rank| == |edges|
    && InRange(edges)
    && forall i, d :: 0 <= i < |edges| && d in edges[i] ==> rank[d] < rank[i]
  }

  /** There is such a numbering; `AcyclicIff` says when. */
  ghost predicate Acyclic(edges: seq<seq<nat>>) {
    exists rank :: Ranks(edges, rank)
  }

  lemma DependsEdge(edges: seq<seq<nat>>, i: nat, j: nat)
    requires InRange(edges) && i < |edges| && j in edges[i]
    ensures Depends(edges, i, j)
  {
    assert IsPath(edges, [i, j]);
  }

  lemma DependsInRange(edges: seq<seq<nat>>, i: nat, j: nat)
    requires Depends(edges, i, j)
    ensures i < |edges| && j < |edges|
  {
  }

  lemma DependsTransitive(edges: seq<seq<nat>>, i: nat, j: nat, k: nat)
    requires Depends(edges, i, j) && Depends(edges, j, k)
    ensures Depends(edges, i, k)
  {
    var p :| IsPath(edges, p) && p[0] == i && p[|p| - 1] == j;
    var q :| IsPath(edges, q) && q[0] == j && q[|q| - 1] == k;
    var r := p + q[1..];
    forall m | 0 <= m < |r| - 1
      ensures r[m + 1] in edges[r[m]]
    {
      if m < |p| - 1 {
      } else {
        assert r[m] == q[m - |p| + 1];
        assert r[m + 1] == q[m - |p| + 2];
      }
    }
    assert IsPath(edges, r);
  }

  /** A transitive dependency is a direct one or passes through a direct one. */
  lemma DependsSplit(edges: seq<seq<nat>>, i: nat, j: nat) returns (d: nat)
    requires Depends(edges, i, j)
    ensures i < |edges| && d in edges[i]
    ensures d == j || Depends(edges, d, j)
  {
    var p :| IsPath(edges, p) && p[0] == i && p[|p| - 1] == j;
    d := p[1];
    if |p| > 2 {
      assert IsPath(edges, p[1..]);
    }
  }

  lemma {:induction false} PathDescends(edges: seq<seq<nat>>, rank: seq<nat>, p: seq<nat>)
    requires Ranks(edges, rank) && IsPath(edges, p)
    ensures rank[p[|p| - 1]] < rank[p[0]]
    decreases |p|
  {
    assert p[1] in edges[p[0]];
    if |p| > 2 {
      assert IsPath(edges, p[1..]);
      PathDescends(edges, rank, p[1..]);
    }
  }

  /** With a ranking, no child transitively depends on itself. */
  lemma RankedHasNoCycle(edges: seq<seq<nat>>, rank: seq<nat>, i: nat, j: nat)
    requires Ranks(edges, rank) && Depends(edges, i, j)
    ensures rank[j] < rank[i]
  {
    var p :| IsPath(edges, p) && p[0] == i && p[|p| - 1] == j;
    PathDescends(edges, rank, p);
  }

  /** A set that holds the dependencies of `i` and of its own members holds everything `i` depends on. */
  lemma {:induction false} ClosedHoldsPath(edges: seq<seq<nat>>, s: set<nat>, p: seq<nat>)
    requires IsPath(edges, p)
    requires forall d :: d in edges[p[0]] ==> d in s
    requires forall x, d :: x in s && x < |edges| && d in edges[x] ==> d in s
    ensures p[|p| - 1] in s
    decreases |p|
  {
    assert p[1] in edges[p[0]];
    if |p| > 2 {
      assert IsPath(edges, p[1..]);
      ClosedHoldsPath(edges, s, p[1..]);
    }
  }

  // ---------------------------------------------------------------------------------------
  // Building the lists

  ghost predicate ListsBuilt(steps: seq<Declaration>, ids: map<string, nat>, upto: nat, g: Graph)
    requires upto <= |steps|
  {
    && |g.dependencies| == |g.dependents| == |g.after| == |g.afterDependents| == |steps|
    && (forall i :: 0 <= i < upto ==>
          && Ascending(g.dependencies[i])
          && multiset(g.dependencies[i]) == multiset(Index(ids, steps[i].needs))
          && g.after[i] == Index(ids, steps[i].after))
    && (forall i :: upto <= i < |steps| ==> g.dependencies[i] == [] && g.after[i] == [])
    && Transposed(g.dependencies, g.dependents)
    && Transposed(g.after, g.afterDependents)
  }

  /** Every entry of every list is a child position. */
  ghost predicate Ranged(g: Graph) {
    InRange(g.dependencies) && InRange(g.dependents) && InRange(g.after) && InRange(g.afterDependents)
  }

  /** `ancestors[i]` lists what `i` transitively needs, once each, and on an acyclic graph
      every entry stands after everything it needs itself. */
  ghost predicate AncestorsBuilt(edges: seq<seq<nat>>, ancestors: seq<seq<nat>>, upto: nat)
    requires upto <= |edges| == |ancestors|
  {
    forall i :: 0 <= i < upto ==>
      && (forall x :: x in ancestors[i] <==> Depends(edges, i, x))
      && Distinct(ancestors[i])
      && (Acyclic(edges) ==> Topological(edges, ancestors[i]))
  }

  ghost predicate Topological(edges: seq<seq<nat>>, order: seq<nat>) {
    forall k, x :: 0 <= k < |order| && Depends(edges, order[k], x) ==> x in order[..k]
  }

  /** What `i` transitively depends on. */
  ghost function Reach(edges: seq<seq<nat>>, i: nat): set<nat> {
    set j | j in Below(|edges|) && Depends(edges, i, j)
  }

  lemma ReachShrinks(edges: seq<seq<nat>>, i: nat, d: nat)
    requires InRange(edges) && i < |edges| && d in edges[i] && !Depends(edges, d, d)
    ensures |Reach(edges, d)| < |Reach(edges, i)|
  {
    DependsEdge(edges, i, d);
    forall j | j in Reach(edges, d)
      ensures j in Reach(edges, i)
    {
      DependsTransitive(edges, i, d, j);
    }
    SubsetSize(Reach(edges, d) + {d}, Reach(edges, i));
  }

  /** A graph can be ranked exactly if all its entries are in range and nothing depends on itself. */
  lemma AcyclicIff(edges: seq<seq<nat>>)
    ensures Acyclic(edges) <==> InRange(edges) && forall i: nat :: !Depends(edges, i, i)
  {
    if rank :| Ranks(edges, rank) {
      forall i: nat
        ensures !Depends(edges, i, i)
      {
        if Depends(edges, i, i) {
          RankedHasNoCycle(edges, rank, i, i);
        }
      }
    }
    if InRange(edges) && forall i: nat :: !Depends(edges, i, i) {
      var rank := seq(|edges|, i requires 0 <= i < |edges| => |Reach(edges, i)|);
      forall i, d | 0 <= i < |edges| && d in edges[i]
        ensures rank[d] < rank[i]
      {
        ReachShrinks(edges, i, d);
      }
      assert Ranks(edges, rank);
    }
  }

  lemma EdgeAdded(edges: seq<seq<nat>>, back: seq<seq<nat>>, i: nat, d: nat)
    requires Transposed(edges, back) && |edges| == |back| && i < |edges| && d < |edges|
    ensures Transposed(edges[i := edges[i] + [d]], back[d := back[d] + [i]])
  {
    var more, moreBack := edges[i := edges[i] + [d]], back[d := back[d] + [i]];
    forall k, t | 0 <= k < |edges| && 0 <= t < |edges|
      ensures multiset(moreBack[t])[k] == multiset(more[k])[t]
    {
      assert multiset(back[t])[k] == multiset(edges[k])[t];
    }
  }

  /** One entry of a dependency list: append the edge and its reverse. */
  method AddEdges(edges: seq<seq<nat>>, back: seq<seq<nat>>, index: nat, targets: seq<nat>)
      returns (edges': seq<seq<nat>>, back': seq<seq<nat>>)
    requires |edges| == |back| && index < |edges| && edges[index] == []
    requires forall t :: t in targets ==> t < |edges|
    requires Transposed(edges, back)
    ensures |edges'| == |edges| && edges' == edges[index := targets]
    ensures Transposed(edges', back')
    ensures InRange(back) ==> InRange(back')
  {
    edges', back' := edges, back;
    for k := 0 to |targets|
      invariant |edges'| == |edges| == |back'|
      invariant edges' == edges[index := targets[..k]]
      invariant Transposed(edges', back')
      invariant InRange(back) ==> InRange(back')
    {
      var d := targets[k];
      assert d in targets;
      EdgeAdded(edges', back', index, d);
      edges' := edges'[index := edges'[index] + [d]];
      back' := back'[d := back'[d] + [index]];
      assert targets[..k + 1] == targets[..k] + [d];
    }
    assert targets[..|targets|] == targets;
  }

  /** `found` lists, once each, the children a search met between `seen` and `seen'`. */
  ghost predicate Met(seen: seq<bool>, seen': seq<bool>, found: seq<nat>) {
    && |seen'| == |seen|
    && Distinct(found)
    && (forall x :: x in found ==> x < |seen| && !seen[x])
    && forall x :: 0 <= x < |seen| ==> (seen'[x] <==> seen[x] || x in found)
  }

  /** Everything in `found` is something `current` depends on, and its dependencies are all met. */
  ghost predicate Explored(edges: seq<seq<nat>>, current: nat, seen: seq<bool>, found: seq<nat>)
    requires InRange(edges) && |seen| == |edges|
  {
    && (forall x :: x in found ==> x < |edges| && Depends(edges, current, x))
    && forall x, d :: x in found && x < |edges| && d in edges[x] ==> seen[d]
  }

  /** From position `from` on, every entry of `order` stands after its direct dependencies. */
  ghost predicate InOrder(edges: seq<seq<nat>>, order: seq<nat>, from: nat) {
    forall k, d :: from <= k < |order| && order[k] < |edges| && d in edges[order[k]] ==> d in order[..k]
  }

  /** The children met but not listed are being visited: they rank no lower than `current`. */
  ghost predicate Open(rank: seq<nat>, current: nat, seen: seq<bool>, order: seq<nat>) {
    && current < |seen| == |rank|
    && forall x :: 0 <= x < |seen| && seen[x] && x !in order ==> rank[current] <= rank[x]
  }

  lemma MetThenVisited(seen0: seq<bool>, seen1: seq<bool>, seen2: seq<bool>, found0: seq<nat>, d: nat, found1: seq<nat>)
    requires Met(seen0, seen1, found0)
    requires d < |seen1| && !seen1[d]
    requires Met(seen1[d := true], seen2, found1)
    ensures Met(seen0, seen2, found0 + found1 + [d])
  {
    DistinctJoin(found0, found1);
    DistinctJoin(found0 + found1, [d]);
  }

  lemma ExploredThenVisited(edges: seq<seq<nat>>, current: nat, d: nat,
                            seen1: seq<bool>, seen2: seq<bool>, found0: seq<nat>, found1: seq<nat>)
    requires InRange(edges) && current < |edges| == |seen1| == |seen2|
    requires d in edges[current]
    requires Explored(edges, current, seen1, found0)
    requires Explored(edges, d, seen2, found1)
    requires forall x :: 0 <= x < |seen1| && seen1[x] ==> seen2[x]
    requires forall x :: x in edges[d] ==> seen2[x]
    ensures Explored(edges, current, seen2, found0 + found1 + [d])
  {
    DependsEdge(edges, current, d);
    forall x | x in found1
      ensures Depends(edges, current, x)
    {
      DependsTransitive(edges, current, d, x);
    }
  }

  lemma InOrderAppend(edges: seq<seq<nat>>, order: seq<nat>, d: nat, from: nat)
    requires InOrder(edges, order, from) && d < |edges|
    requires forall x :: x in edges[d] ==> x in order
    ensures InOrder(edges, order + [d], from)
  {
    forall k, x | from <= k < |order + [d]| && (order + [d])[k] < |edges| && x in edges[(order + [d])[k]]
      ensures x in (order + [d])[..k]
    {
      assert (order + [d])[..k] == order[..k];
      assert order[..|order|] == order;
    }
  }

  lemma InOrderExtend(edges: seq<seq<nat>>, order0: seq<nat>, found: seq<nat>, from: nat)
    requires from <= |order0|
    requires InOrder(edges, order0, from) && InOrder(edges, order0 + found, |order0|)
    ensures InOrder(edges, order0 + found, from)
  {
    forall k, x | from <= k < |order0| && order0[k] < |edges| && x in edges[order0[k]]
      ensures x in (order0 + found)[..k]
    {
      assert (order0 + found)[..k] == order0[..k];
    }
  }

  /** Post-order search along the dependency lists. `seen` marks children met in this search. */
  method Visit(edges: seq<seq<nat>>, current: nat, seen: seq<bool>, order: seq<nat>, ghost rank: Option<seq<nat>>)
      returns (seen': seq<bool>, order': seq<nat>, ghost found: seq<nat>)
    requires InRange(edges) && current < |edges| == |seen|
    requires rank.Some? ==> Ranks(edges, rank.value) && Open(rank.value, current, seen, order)
    ensures order' == order + found
    ensures Met(seen, seen', found)
    ensures Explored(edges, current, seen', found)
    ensures forall d :: d in edges[current] ==> seen'[d]
    ensures rank.Some? ==> InOrder(edges, order', |order|) && forall d :: d in edges[current] ==> d in order'
    ensures Unseen(seen') <= Unseen(seen)
    decreases Unseen(seen)
  {
    seen', order', found := seen, order, [];
    for k := 0 to |edges[current]|
      invariant order' == order + found
      invariant Met(seen, seen', found)
      invariant Explored(edges, current, seen', found)
      invariant forall d :: d in edges[current][..k] ==> d < |seen'| && seen'[d]
      invariant rank.Some? ==> Open(rank.value, current, seen', order') && InOrder(edges, order', |order|)
      invariant Unseen(seen') <= Unseen(seen)
    {
      var d := edges[current][k];
      assert edges[current][..k + 1] == edges[current][..k] + [d];
      assert d in edges[current];
      if !seen'[d] {
        ghost var seen1, order1, found0 := seen', order', found;
        UnseenUpdate(seen1, d);
        seen' := seen'[d := true];
        ghost var found1;
        seen', order', found1 := Visit(edges, d, seen', order', rank);
        MetThenVisited(seen, seen1, seen', found0, d, found1);
        ExploredThenVisited(edges, current, d, seen1, seen', found0, found1);
        if rank.Some? {
          InOrderExtend(edges, order1, found1, |order|);
          InOrderAppend(edges, order', d, |order|);
        }
        order' := order' + [d];
        found := found0 + found1 + [d];
      }
    }
    assert edges[current][..|edges[current]|] == edges[current];
  }

  /** Children a search has not met yet: its termination measure. */
  function Unseen(seen: seq<bool>): nat {
    if seen == [] then 0 else (if seen[0] then 0 else 1) + Unseen(seen[1..])
  }

  lemma {:induction false} UnseenUpdate(seen: seq<bool>, i: nat)
    requires i < |seen| && !seen[i]
    ensures Unseen(seen[i := true]) == Unseen(seen) - 1
  {
    if i > 0 {
      assert seen[i := true][1..] == seen[1..][i - 1 := true];
      UnseenUpdate(seen[1..], i - 1);
    } else {
      assert seen[i := true][1..] == seen[1..];
    }
  }

  method Ancestors(edges: seq<seq<nat>>, index: nat) returns (order: seq<nat>)
    requires InRange(edges) && index < |edges|
    ensures forall x :: x in order <==> Depends(edges, index, x)
    ensures Distinct(order)
    ensures Acyclic(edges) ==> Topological(edges, order)
  {
    ghost var rank := None;
    if Acyclic(edges) {
      ghost var r :| Ranks(edges, r);
      rank := Some(r);
    }
    var unseen := seq(|edges|, _ => false);
    var seen;
    ghost var found;
    seen, order, found := Visit(edges, index, unseen, [], rank);
    ghost var met := set x | x in order;
    forall x | Depends(edges, index, x)
      ensures x in order
    {
      var p :| IsPath(edges, p) && p[0] == index && p[|p| - 1] == x;
      ClosedHoldsPath(edges, met, p);
    }
    if Acyclic(edges) {
      forall k, x | 0 <= k < |order| && Depends(edges, order[k], x)
        ensures x in order[..k]
      {
        assert forall j :: 0 <= j < |order| ==> order[j] in order;
        TopologicalClosure(edges, order, k, x);
      }
    }
  }

  /** Standing after one's direct dependencies is enough to stand after the transitive ones. */
  lemma {:induction false} TopologicalClosure(edges: seq<seq<nat>>, order: seq<nat>, k: nat, x: nat)
    requires InRange(edges)
    requires forall j :: 0 <= j < |order| ==> order[j] < |edges|
    requires forall j, d :: 0 <= j < |order| && d in edges[order[j]] ==> d in order[..j]
    requires k < |order| && Depends(edges, order[k], x)
    ensures x in order[..k]
    decreases k
  {
    var d := DependsSplit(edges, order[k], x);
    assert d in order[..k];
    if d != x {
      var j :| 0 <= j < k && order[j] == d;
      TopologicalClosure(edges, order, j, x);
      assert x in order[..j];
      assert order[..j] <= order[..k];
    }
  }

  method IndexById(steps: seq<Declaration>) returns (ids: map<string, nat>)
    ensures IndexesIds(steps, ids)
  {
    ids := map[];
    for index := 0 to |steps|
      invariant IndexesIds(steps[..index], ids)
    {
      assert steps[..index + 1] == steps[..index] + [steps[index]];
      if steps[index].id != "" {
        ids := ids[steps[index].id := index];
      }
    }
    assert steps[..|steps|] == steps;
  }

  method AddStep(steps: seq<Declaration>, ids: map<string, nat>, index: nat, g: Graph) returns (g': Graph)
    requires index < |steps| && IndexesIds(steps, ids)
    requires ListsBuilt(steps, ids, index, g)
    requires Ranged(g)
    ensures ListsBuilt(steps, ids, index + 1, g')
    ensures Ranged(g')
    ensures g'.ancestors == g.ancestors
  {
    var needs := Index(ids, steps[index].needs);
    var after := Index(ids, steps[index].after);
    IndexInRange(steps, ids, steps[index].needs);
    IndexInRange(steps, ids, steps[index].after);
    var dependencies, dependents := AddEdges(g.dependencies, g.dependents, index, needs);
    var afters, afterDependents := AddEdges(g.after, g.afterDependents, index, after);
    var sorted := Sorted(needs);
    SameMembers(needs, sorted);
    g' := g.(dependencies := dependencies[index := sorted], dependents := dependents,
             after := afters, afterDependents := afterDependents);
    assert g'.dependencies == dependencies[index := sorted];
    ReorderedTransposed(dependencies, dependents, index, sorted);
  }

  lemma ReorderedTransposed(edges: seq<seq<nat>>, back: seq<seq<nat>>, index: nat, list: seq<nat>)
    requires Transposed(edges, back) && index < |edges| && multiset(list) == multiset(edges[index])
    ensures Transposed(edges[index := list], back)
  {
  }

  method NewGraph(steps: seq<Declaration>) returns (g: Graph, ids: map<string, nat>)
    ensures IndexesIds(steps, ids)
    ensures ListsBuilt(steps, ids, |steps|, g)
    ensures Ranged(g)
    ensures |g.ancestors| == |steps|
    ensures AncestorsBuilt(g.dependencies, g.ancestors, |steps|)
  {
    ids := IndexById(steps);
    var none := seq(|steps|, _ => []);
    g := Graph(none, none, none, none, none);
    for index := 0 to |steps|
      invariant ListsBuilt(steps, ids, index, g)
      invariant Ranged(g)
      invariant |g.ancestors| == |steps|
    {
      g := AddStep(steps, ids, index, g);
    }
    for index := 0 to |steps|
      invariant ListsBuilt(steps, ids, |steps|, g)
      invariant Ranged(g)
      invariant |g.ancestors| == |steps|
      invariant AncestorsBuilt(g.dependencies, g.ancestors, index)
    {
      var order := Ancestors(g.dependencies, index);
      g := g.(ancestors := g.ancestors[index := order]);
    }
  }
}
