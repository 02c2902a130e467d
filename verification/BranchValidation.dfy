/** Validating the branches of a group: each once, in an order in which what it needs comes first. */
module BranchValidation {
  import opened Collections
  import opened ConcurrentGraph
  import opened GroupValidation
  import opened StepTree
  import opened Interpreter
  import opened ReferenceScope

  /** Two resolutions of the same ids agree, and so do the edges built from them. */
  lemma SameResolution(decls: seq<Declaration>, a: map<string, nat>, b: map<string, nat>)
    requires IndexesIds(decls, a) && IndexesIds(decls, b)
    ensures a == b
  {
    forall id | id in a
      ensures id in b && b[id] == a[id]
    {
      assert decls[a[id]].id == id;
      assert Resolves(decls, id, b[id]);
    }
    forall id | id in b
      ensures id in a
    {
      assert decls[b[id]].id == id;
    }
  }

  ghost predicate SameEdges(a: seq<seq<nat>>, b: seq<seq<nat>>) {
    |a| == |b| && forall i :: 0 <= i < |a| ==> multiset(a[i]) == multiset(b[i])
  }

  lemma SameDependencies(a: seq<seq<nat>>, b: seq<seq<nat>>, i: nat, j: nat)
    requires SameEdges(a, b) && Depends(a, i, j)
    ensures Depends(b, i, j)
  {
    var p :| IsPath(a, p) && p[0] == i && p[|p| - 1] == j;
    forall k | 0 <= k < |p| - 1
      ensures p[k + 1] in b[p[k]]
    {
      SameMembers(a[p[k]], b[p[k]]);
    }
    assert IsPath(b, p);
  }

  lemma SameAcyclicity(a: seq<seq<nat>>, b: seq<seq<nat>>)
    requires SameEdges(a, b) && Acyclic(a)
    ensures Acyclic(b)
  {
    var rank :| Ranks(a, rank);
    forall i | 0 <= i < |b|
      ensures forall d :: d in b[i] <==> d in a[i]
    {
      SameMembers(a[i], b[i]);
    }
    assert Ranks(b, rank);
  }

  lemma BuiltEdges(branches: seq<Step>, ids: map<string, nat>, g: Graph)
    requires IndexesIds(Declarations(branches), ids) && ListsBuilt(Declarations(branches), ids, |branches|, g)
    ensures SameEdges(g.dependencies, NeedEdges(branches)) && SameEdges(NeedEdges(branches), g.dependencies)
  {
    SameResolution(Declarations(branches), ids, IdMap(Declarations(branches)));
  }

  lemma SortedFrontier(indegree: seq<int>, ready: seq<nat>, visited: seq<nat>)
    requires Frontier(indegree, ready, visited)
    ensures Frontier(indegree, Sorted(ready), visited)
  {
    var all := visited + ready;
    assert Distinct(ready) by {
      assert forall k :: 0 <= k < |ready| ==> ready[k] == all[|visited| + k];
    }
    assert Distinct(visited) by {
      assert forall k :: 0 <= k < |visited| ==> visited[k] == all[k];
    }
    SortedKeepsDistinct(ready);
    forall i, j | 0 <= i < |visited| && 0 <= j < |ready|
      ensures visited[i] != ready[j]
    {
      assert all[i] == visited[i] && all[|visited| + j] == ready[j];
    }
    DistinctJoin(visited, Sorted(ready));
    assert forall x :: x in visited + Sorted(ready) <==> x in visited + ready;
  }

  /** The ids of the first branches of a list. */
  ghost function Gathered(branches: seq<Step>, order: seq<nat>): set<string> {
    set a, id | a in order && a < |branches| && id in SelectedStep(branches[a]) :: id
  }

  lemma GatheredAncestors(branches: seq<Step>, ancestors: seq<nat>, index: nat)
    requires forall a: nat :: a in ancestors <==> Depends(NeedEdges(branches), index, a)
    ensures Gathered(branches, ancestors) == NeededIds(branches, index)
  {
    var all := NeededIds(branches, index);
    forall id | id in Gathered(branches, ancestors)
      ensures id in all
    {
      var a :| a in ancestors && a < |branches| && id in SelectedStep(branches[a]);
      assert Depends(NeedEdges(branches), index, a);
    }
    forall id | id in all
      ensures id in Gathered(branches, ancestors)
    {
      var a: nat :| a < |branches| && Depends(NeedEdges(branches), index, a) && id in SelectedStep(branches[a]);
      assert a in ancestors;
    }
  }

  /** The names that validating each branch adds to the variables it can see. */
  type Declared = seq<set<string>>

  /** The variables that what a branch transitively needs declares. */
  ghost function NeededVars(branches: seq<Step>, declares: Declared, index: nat): set<string>
    requires |declares| == |branches|
  {
    set a, x | 0 <= a < |branches| && Depends(NeedEdges(branches), index, a) && x in declares[a] :: x
  }

  /** The variables in the scope that validating a branch leaves. */
  ghost function LeftVars(branches: seq<Step>, declares: Declared, vars: set<string>, index: nat): set<string>
    requires |declares| == |branches| && index < |branches|
  {
    vars + NeededVars(branches, declares, index) + declares[index]
  }

  ghost function GatheredVars(branches: seq<Step>, declares: Declared, vars: set<string>, order: seq<nat>): set<string>
    requires |declares| == |branches|
  {
    set a, x | a in order && a < |branches| && x in LeftVars(branches, declares, vars, a) :: x
  }

  /** What the scopes of the ancestors add together is what they declare: their own ancestors are among them. */
  lemma GatheredVarsAreNeeded(branches: seq<Step>, declares: Declared, vars: set<string>, ancestors: seq<nat>,
                              index: nat)
    requires |declares| == |branches|
    requires forall a: nat :: a in ancestors <==> Depends(NeedEdges(branches), index, a)
    ensures vars + GatheredVars(branches, declares, vars, ancestors) == vars + NeededVars(branches, declares, index)
  {
    var gathered, needed := GatheredVars(branches, declares, vars, ancestors), NeededVars(branches, declares, index);
    forall x | x in gathered
      ensures x in vars || x in needed
    {
      var a :| a in ancestors && a < |branches| && x in LeftVars(branches, declares, vars, a);
      if x in NeededVars(branches, declares, a) {
        var b :| 0 <= b < |branches| && Depends(NeedEdges(branches), a, b) && x in declares[b];
        DependsTransitive(NeedEdges(branches), index, a, b);
      }
    }
    forall x | x in needed
      ensures x in gathered
    {
      var a :| 0 <= a < |branches| && Depends(NeedEdges(branches), index, a) && x in declares[a];
      assert a in ancestors && x in LeftVars(branches, declares, vars, a);
    }
  }

  lemma GatheredNext(branches: seq<Step>, declares: Declared, vars: set<string>, order: seq<nat>, a: nat)
    requires |declares| == |branches| && a < |branches|
    ensures Gathered(branches, order + [a]) == Gathered(branches, order) + SelectedStep(branches[a])
    ensures GatheredVars(branches, declares, vars, order + [a]) ==
      GatheredVars(branches, declares, vars, order) + LeftVars(branches, declares, vars, a)
  {
    assert forall x :: x in order + [a] <==> x in order || x == a;
  }

  lemma AncestorsAreNeeded(branches: seq<Step>, g: Graph, index: nat)
    requires |g.ancestors| == |g.dependencies| == |branches| && index < |branches|
    requires AncestorsBuilt(g.dependencies, g.ancestors, |branches|)
    requires SameEdges(g.dependencies, NeedEdges(branches)) && SameEdges(NeedEdges(branches), g.dependencies)
    ensures forall a: nat :: a in g.ancestors[index] <==> Depends(NeedEdges(branches), index, a)
  {
    forall a: nat
      ensures a in g.ancestors[index] <==> Depends(NeedEdges(branches), index, a)
    {
      if Depends(NeedEdges(branches), index, a) {
        SameDependencies(NeedEdges(branches), g.dependencies, index, a);
      }
      if a in g.ancestors[index] {
        SameDependencies(g.dependencies, NeedEdges(branches), index, a);
      }
    }
  }

  /** What a branch is validated against: the scope outside and, of all it transitively needs, the ids it
      publishes and the variables it declares. `validated` holds the variables each branch left. */
  method BranchInput(branches: seq<Step>, declares: Declared, g: Graph, scope: set<string>, vars: set<string>,
                     index: nat, validated: map<nat, set<string>>)
    returns (input: set<string>, inputVars: set<string>)
    requires |declares| == |branches|
    requires |g.ancestors| == |g.dependencies| == |branches| && index < |branches|
    requires AncestorsBuilt(g.dependencies, g.ancestors, |branches|)
    requires SameEdges(g.dependencies, NeedEdges(branches)) && SameEdges(NeedEdges(branches), g.dependencies)
    requires forall a :: a in g.ancestors[index] ==>
        a in validated && a < |branches| && validated[a] == LeftVars(branches, declares, vars, a)
    ensures input == BranchScope(branches, scope, index)
    ensures inputVars == vars + NeededVars(branches, declares, index)
  {
    var ancestors := g.ancestors[index];
    input, inputVars := scope, vars;
    for k := 0 to |ancestors|
      invariant input == AddSteps(scope, Gathered(branches, ancestors[..k]))
      invariant inputVars == vars + GatheredVars(branches, declares, vars, ancestors[..k])
    {
      var a := ancestors[k];
      assert a in ancestors && a in validated;
      assert ancestors[..k + 1] == ancestors[..k] + [a];
      GatheredNext(branches, declares, vars, ancestors[..k], a);
      inputVars := inputVars + validated[a];
      input := AddSteps(input, SelectedStep(branches[a]));
    }
    assert ancestors[..|ancestors|] == ancestors;
    AncestorsAreNeeded(branches, g, index);
    GatheredAncestors(branches, ancestors, index);
    GatheredVarsAreNeeded(branches, declares, vars, ancestors, index);
  }

  /** Once the dependencies of a branch are validated, so is everything it transitively needs. */
  lemma AncestorsDone(edges: seq<seq<nat>>, order: seq<nat>, index: nat, a: nat)
    requires InOrder(edges, order, 0) && Depends(edges, index, a)
    requires forall i :: i in order ==> i < |edges|
    requires index < |edges| && forall d :: d in edges[index] ==> d in order
    ensures a in order
  {
    var p :| IsPath(edges, p) && p[0] == index && p[|p| - 1] == a;
    forall x, d | x in Elements(order) && x < |edges| && d in edges[x]
      ensures d in Elements(order)
    {
      var k :| 0 <= k < |order| && order[k] == x;
      assert d in order[..k];
    }
    ClosedHoldsPath(edges, Elements(order), p);
  }

  ghost predicate Validated(branches: seq<Step>, declares: Declared, scope: set<string>, vars: set<string>,
                            inputs: map<nat, set<string>>, left: map<nat, set<string>>, order: seq<nat>)
    requires |declares| == |branches|
  {
    && inputs.Keys == left.Keys == Elements(order)
    && forall k :: k in inputs ==>
         && k < |branches| && inputs[k] == BranchScope(branches, scope, k)
         && left[k] == LeftVars(branches, declares, vars, k)
  }

  /** The branches validated so far, the ready ones, and what the others wait for. */
  ghost predicate Queue(edges: seq<seq<nat>>, remaining: seq<int>, ready: seq<nat>, order: seq<nat>) {
    Counts(edges, remaining, Elements(order)) && Frontier(remaining, ready, order) && InOrder(edges, order, 0)
  }

  /** Takes the first ready branch and releases what waits for it. */
  method Advance(g: Graph, remaining: seq<int>, ready: seq<nat>, ghost order: seq<nat>) returns (remaining': seq<int>,
      ready': seq<nat>)
    requires InRange(g.dependencies) && InRange(g.dependents) && Transposed(g.dependencies, g.dependents)
    requires ready != [] && Queue(g.dependencies, remaining, ready, order)
    ensures Queue(g.dependencies, remaining', ready', order + [ready[0]])
    ensures |order| < |g.dependencies|
  {
    var index := ready[0];
    NextInOrder(g.dependencies, remaining, ready, order);
    assert (order + [index])[|order|] == index;
    assert index in (order + [index]) + ready[1..];
    assert forall d :: d in g.dependents[index] ==> d < |g.dependents|;
    ghost var done := Elements(order);
    assert Elements(order + [index]) == done + {index};
    remaining', ready' := Release(g.dependencies, g.dependents, remaining, ready[1..], order + [index], done, index);
    SortedFrontier(remaining', ready', order + [index]);
    ready' := Sorted(ready');
    VisitedBound(order + [index], ready', |g.dependencies|);
  }

  /** Validates every branch whose needs have no cycle behind them, each once and after all it
      transitively needs; `inputs` holds the ids each was validated against, `left` the variables each left. */
  method ValidateConcurrent(branches: seq<Step>, declares: Declared, scope: set<string>, vars: set<string>)
    returns (inputs: map<nat, set<string>>, left: map<nat, set<string>>)
    requires |declares| == |branches|
    ensures inputs.Keys == left.Keys
    ensures forall k :: k in inputs ==>
      && k < |branches| && inputs[k] == BranchScope(branches, scope, k)
      && left[k] == LeftVars(branches, declares, vars, k)
    ensures Acyclic(NeedEdges(branches)) ==> forall k: nat :: k < |branches| ==> k in inputs
  {
    var decls := seq(|branches|, i requires 0 <= i < |branches| => branches[i].decl);
    var g, ids := NewGraph(decls);
    assert decls == Declarations(branches);
    BuiltEdges(branches, ids, g);
    var remaining, ready := InitialFrontier(g.dependencies);
    inputs, left := map[], map[];
    ghost var order: seq<nat> := [];
    assert Elements(order) == {};
    while ready != []
      invariant Validated(branches, declares, scope, vars, inputs, left, order)
      invariant Queue(g.dependencies, remaining, ready, order)
      decreases |branches| - |order|
    {
      var index := ready[0];
      ReadyHasAncestors(g, remaining, ready, order);
      var input, inputVars := BranchInput(branches, declares, g, scope, vars, index, left);
      inputs, left := inputs[index := input], left[index := inputVars + declares[index]];
      remaining, ready := Advance(g, remaining, ready, order);
      assert Elements(order + [index]) == Elements(order) + {index};
      order := order + [index];
    }
    if Acyclic(NeedEdges(branches)) {
      SameAcyclicity(NeedEdges(branches), g.dependencies);
      AllReached(g.dependencies, remaining, order);
    }
  }

  lemma ReadyHasAncestors(g: Graph, remaining: seq<int>, ready: seq<nat>, order: seq<nat>)
    requires |g.ancestors| == |g.dependencies| && AncestorsBuilt(g.dependencies, g.ancestors, |g.dependencies|)
    requires ready != [] && Queue(g.dependencies, remaining, ready, order)
    ensures ready[0] < |g.dependencies|
    ensures forall a :: a in g.ancestors[ready[0]] ==> a in Elements(order)
  {
    var index := ready[0];
    assert (order + ready)[|order|] == index && index in order + ready;
    OutsideZero(g.dependencies[index], Elements(order));
    assert forall i :: i in order ==> i in order + ready;
    forall a | a in g.ancestors[index]
      ensures a in Elements(order)
    {
      AncestorsDone(g.dependencies, order, index, a);
    }
  }

  lemma AllReached(edges: seq<seq<nat>>, remaining: seq<int>, order: seq<nat>)
    requires Acyclic(edges) && Queue(edges, remaining, [], order)
    ensures forall k: nat :: k < |edges| ==> k in Elements(order)
  {
    var rank :| Ranks(edges, rank);
    assert order + [] == order;
    forall k: nat | k < |edges|
      ensures k in Elements(order)
    {
      NothingUnvisited(edges, rank, Elements(order), remaining, k);
    }
  }

  /** The first ready branch joins those already validated. */
  lemma NextInOrder(edges: seq<seq<nat>>, remaining: seq<int>, ready: seq<nat>, order: seq<nat>)
    requires ready != [] && Counts(edges, remaining, Elements(order)) && Frontier(remaining, ready, order) &&
      InOrder(edges, order, 0)
    ensures Frontier(remaining, ready[1..], order + [ready[0]])
    ensures InOrder(edges, order + [ready[0]], 0)
    ensures ready[0] !in order
  {
    var index := ready[0];
    assert order + ready == (order + [index]) + ready[1..];
    assert index in order + ready;
    OutsideZero(edges[index], Elements(order));
    InOrderAppend(edges, order, index, 0);
    var all := order + ready;
    assert forall k :: 0 <= k < |order| ==> all[k] == order[k] && all[k] != all[|order|];
  }
}
