/** The scheduler's own loop: edge counters and a ready queue, shown to follow the interleavings of
    `Scheduler` step by step. */
module SchedulerLoop {
  import opened Collections
  import opened ConcurrentGraph
  import opened RunState
  import opened Scheduler
  import opened SchedulerProperties
  import GroupValidation

  /** What lies outside the loop: the branches' goroutines and the contexts. */
  datatype World = World(tasks: seq<Task>, parentDone: bool, deadlineHit: bool)

  ghost function Combined(status: seq<Status>, outcomes: seq<Outcome>, stop: bool, w: World): Machine {
    Machine(status, w.tasks, outcomes, stop, w.parentDone, w.deadlineHit)
  }

  // ---------------------------------------------------------------------------------------
  // The environment

  predicate MayHappen(g: Group, w: World, e: Event) {
    match e
    case CancelParent => !w.parentDone
    case Deadline => g.hasTimeout && !w.parentDone && !w.deadlineHit
    case Begin(i) => i < |w.tasks| && w.tasks[i].Spawned?
    case Finish(i, o) => i < |w.tasks| && w.tasks[i].Executing? && o.started && (o.state.None? ==> o.failed)
    case _ => false
  }

  function Happen(g: Group, stop: bool, w: World, e: Event): World
    requires MayHappen(g, w, e)
  {
    match e
    case CancelParent => w.(parentDone := true)
    case Deadline => w.(deadlineHit := true)
    case Begin(i) =>
      if stop || w.parentDone || w.deadlineHit then w.(tasks := w.tasks[i := Sent(NO_OUTCOME)])
      else w.(tasks := w.tasks[i := Executing(w.tasks[i].input)])
    case Finish(i, o) => w.(tasks := w.tasks[i := Sent(o)])
  }

  /** Any number of events outside the loop, in any order. */
  method Yield(g: Group, status: seq<Status>, outcomes: seq<Outcome>, stop: bool, w: World, ghost events: seq<Event>)
      returns (w': World, ghost events': seq<Event>)
    requires Reaches(g, events, Combined(status, outcomes, stop, w))
    ensures Reaches(g, events', Combined(status, outcomes, stop, w'))
    ensures (w.parentDone ==> w'.parentDone) && (w.deadlineHit ==> w'.deadlineHit)
  {
    w', events' := w, events;
    var more: nat := *;
    while more > 0
      invariant Reaches(g, events', Combined(status, outcomes, stop, w'))
      invariant (w.parentDone ==> w'.parentDone) && (w.deadlineHit ==> w'.deadlineHit)
    {
      var e: Event := *;
      if MayHappen(g, w', e) {
        RunStep(g, events', Combined(status, outcomes, stop, w'), e);
        w', events' := Happen(g, stop, w', e), events' + [e];
      }
      more := more - 1;
    }
  }

  /** Receiving a completion: some admitted branch gets to send one. */
  method Await(g: Group, status: seq<Status>, outcomes: seq<Outcome>, stop: bool, w: World, ghost events: seq<Event>)
      returns (index: nat, w': World, ghost events': seq<Event>)
    requires Reaches(g, events, Combined(status, outcomes, stop, w))
    requires Tally(status, Running) > 0
    ensures Reaches(g, events', Combined(status, outcomes, stop, w'))
    ensures index < |w'.tasks| && w'.tasks[index].Sent?
  {
    w', events' := Yield(g, status, outcomes, stop, w, events);
    TallyZero(status, Running);
    ReachableInv(g, events', Combined(status, outcomes, stop, w'));
    assert exists i: nat :: i < |w'.tasks| && !w'.tasks[i].Idle?;
    index :| index < |w'.tasks| && !w'.tasks[index].Idle?;
    if w'.tasks[index].Spawned? {
      RunStep(g, events', Combined(status, outcomes, stop, w'), Begin(index));
      w', events' := Happen(g, stop, w', Begin(index)), events' + [Begin(index)];
    }
    if w'.tasks[index].Executing? {
      var outcome: Outcome := *;
      if !outcome.started || (outcome.state.None? && !outcome.failed) {
        outcome := Outcome(None, true, true, false);
      }
      RunStep(g, events', Combined(status, outcomes, stop, w'), Finish(index, outcome));
      w', events' := Happen(g, stop, w', Finish(index, outcome)), events' + [Finish(index, outcome)];
    }
  }

  // ---------------------------------------------------------------------------------------
  // Counters and queue

  /** `remaining` counts the unresolved edges of every pending child. */
  ghost predicate CountsEdges(g: Group, status: seq<Status>, remaining: seq<int>, needsDone: set<nat>,
                              afterDone: set<nat>)
    requires WellFormed(g)
  {
    && |status| == |remaining| == g.Size()
    && forall j :: 0 <= j < g.Size() && status[j] == Pending ==>
         remaining[j] == Outside(g.graph.dependencies[j], needsDone) + Outside(g.graph.after[j], afterDone)
  }

  /** Among the pending children, the queue holds those with no unresolved edge. */
  ghost predicate Queued(status: seq<Status>, remaining: seq<int>, ready: seq<nat>) {
    && |status| == |remaining|
    && (forall j :: j in ready ==> j < |status|)
    && forall j :: 0 <= j < |status| && status[j] == Pending ==> (remaining[j] == 0 <==> j in ready)
  }

  ghost function Over(status: seq<Status>): set<nat> {
    set i: nat | i < |status| && Terminal(status[i])
  }

  ghost predicate Coupled(g: Group, m: Machine, remaining: seq<int>, ready: seq<nat>, running: int, terminal: int)
    requires WellFormed(g) && Sized(g, m)
  {
    && CountsEdges(g, m.status, remaining, Over(m.status), Over(m.status))
    && Queued(m.status, remaining, ready)
    && Ascending(ready)
    && running == Tally(m.status, Running)
    && terminal == Tally(m.status, Finished) + Tally(m.status, Skipped)
  }

  /** Resolves one edge to each listed child; a child whose last edge goes joins the queue. */
  method Resolve(status: seq<Status>, remaining: seq<int>, ready: seq<nat>, targets: seq<nat>)
      returns (remaining': seq<int>, ready': seq<nat>)
    requires Queued(status, remaining, ready)
    requires forall t :: t in targets ==> t < |status|
    requires forall j :: 0 <= j < |status| && status[j] == Pending ==> multiset(targets)[j] <= remaining[j]
    ensures Queued(status, remaining', ready')
    ensures forall j :: 0 <= j < |status| ==>
      remaining'[j] == remaining[j] - if status[j] == Pending then multiset(targets)[j] else 0
  {
    remaining', ready' := remaining, ready;
    for k := 0 to |targets|
      invariant Queued(status, remaining', ready')
      invariant forall j :: 0 <= j < |status| ==>
        remaining'[j] == remaining[j] - if status[j] == Pending then multiset(targets[..k])[j] else 0
    {
      var d := targets[k];
      assert d in targets;
      assert targets[..k + 1] == targets[..k] + [d];
      assert targets == targets[..k + 1] + targets[k + 1..];
      assert multiset(targets)[d] >= multiset(targets[..k])[d] + 1;
      if status[d] != Pending {
        continue;
      }
      remaining' := remaining'[d := remaining'[d] - 1];
      if remaining'[d] == 0 {
        ready' := ready' + [d];
      }
    }
    assert targets[..|targets|] == targets;
  }

  lemma {:induction false} OutsideAtLeast(s: seq<nat>, done: set<nat>, x: nat)
    requires x !in done
    ensures multiset(s)[x] <= Outside(s, done)
  {
    OutsideAdd(s, done, x);
  }

  lemma BackInRange(edges: seq<seq<nat>>, back: seq<seq<nat>>, i: nat)
    requires Transposed(edges, back) && i < |edges|
    requires forall j :: j in back[i] ==> j < |edges|
    ensures forall j :: 0 <= j < |edges| ==> (j in back[i] <==> i in edges[j])
  {
    forall j | 0 <= j < |edges|
      ensures j in back[i] <==> i in edges[j]
    {
      assert multiset(back[i])[j] == multiset(edges[j])[i];
      assert j in back[i] <==> j in multiset(back[i]);
      assert i in edges[j] <==> i in multiset(edges[j]);
    }
  }

  /** Entries of the reversed lists are child positions too. */
  ghost predicate BackRanges(g: Group)
    requires WellFormed(g)
  {
    InRange(g.graph.dependents) && InRange(g.graph.afterDependents)
  }

  method ResolveNeeds(g: Group, status: seq<Status>, remaining: seq<int>, ready: seq<nat>, index: nat,
                      ghost needsDone: set<nat>, ghost afterDone: set<nat>)
      returns (remaining': seq<int>, ready': seq<nat>)
    requires WellFormed(g) && BackRanges(g) && index < g.Size() && index !in needsDone
    requires CountsEdges(g, status, remaining, needsDone, afterDone) && Queued(status, remaining, ready)
    ensures CountsEdges(g, status, remaining', needsDone + {index}, afterDone) &&
        Queued(status, remaining', ready')
  {
    forall j | 0 <= j < |status| && status[j] == Pending
      ensures multiset(g.graph.dependents[index])[j] <= remaining[j]
      ensures Outside(g.graph.dependencies[j], needsDone + {index}) ==
        Outside(g.graph.dependencies[j], needsDone) - multiset(g.graph.dependents[index])[j]
    {
      OutsideAtLeast(g.graph.dependencies[j], needsDone, index);
      OutsideAdd(g.graph.dependencies[j], needsDone, index);
    }
    remaining', ready' := Resolve(status, remaining, ready, g.graph.dependents[index]);
  }

  method ResolveAfter(g: Group, status: seq<Status>, remaining: seq<int>, ready: seq<nat>, index: nat,
                      ghost needsDone: set<nat>, ghost afterDone: set<nat>)
      returns (remaining': seq<int>, ready': seq<nat>)
    requires WellFormed(g) && BackRanges(g) && index < g.Size() && index !in afterDone
    requires CountsEdges(g, status, remaining, needsDone, afterDone) && Queued(status, remaining, ready)
    ensures CountsEdges(g, status, remaining', needsDone, afterDone + {index}) && Queued(status, remaining', ready')
  {
    forall j | 0 <= j < |status| && status[j] == Pending
      ensures multiset(g.graph.afterDependents[index])[j] <= remaining[j]
      ensures Outside(g.graph.after[j], afterDone + {index}) ==
        Outside(g.graph.after[j], afterDone) - multiset(g.graph.afterDependents[index])[j]
    {
      OutsideAtLeast(g.graph.after[j], afterDone, index);
      OutsideAdd(g.graph.after[j], afterDone, index);
    }
    remaining', ready' := Resolve(status, remaining, ready, g.graph.afterDependents[index]);
  }

  // ---------------------------------------------------------------------------------------
  // Skipping

  /** A chain of needs from `p[0]` to the last element whose members, but for the last, are pending. */
  ghost predicate PendingPath(edges: seq<seq<nat>>, status: seq<Status>, p: seq<nat>) {
    && IsPath(edges, p)
    && |status| == |edges|
    && forall k :: 0 <= k < |p| - 1 ==> status[p[k]] == Pending
  }

  ghost predicate SkippedBy(edges: seq<seq<nat>>, status: seq<Status>, failed: nat, j: nat) {
    exists p :: PendingPath(edges, status, p) && p[0] == j && p[|p| - 1] == failed
  }

  lemma SkippedByNeed(edges: seq<seq<nat>>, status: seq<Status>, failed: nat, x: nat, y: nat)
    requires |status| == |edges| && InRange(edges) && failed < |edges|
    requires x == failed || SkippedBy(edges, status, failed, x)
    requires y < |edges| && status[y] == Pending && x in edges[y]
    ensures SkippedBy(edges, status, failed, y)
  {
    if x == failed {
      assert PendingPath(edges, status, [y, failed]);
    } else {
      var p :| PendingPath(edges, status, p) && p[0] == x && p[|p| - 1] == failed;
      var q := [y] + p;
      assert forall k :: 0 < k < |q| ==> q[k] == p[k - 1];
      assert PendingPath(edges, status, q);
    }
  }

  /** Every child that needs `x` has been dealt with or is waiting in the queue. */
  ghost predicate DependentsReached(edges: seq<seq<nat>>, status: seq<Status>, queue: seq<nat>, x: nat)
    requires |status| == |edges|
  {
    forall y: nat :: y < |edges| && x in edges[y] ==> status[y] != Pending || y in queue
  }

  lemma {:induction false} ClosureSkips(edges: seq<seq<nat>>, status: seq<Status>, status': seq<Status>, failed: nat,
                                        skipped: seq<nat>, p: seq<nat>)
    requires PendingPath(edges, status, p) && p[|p| - 1] == failed && |status'| == |status|
    requires DependentsReached(edges, status', [], failed)
    requires forall x: nat :: x in skipped ==> DependentsReached(edges, status', [], x)
    requires forall j :: 0 <= j < |status| && status[j] == Pending && status'[j] != Pending ==> j in skipped
    ensures p[0] in skipped
    decreases |p|
  {
    assert p[1] in edges[p[0]];
    if |p| > 2 {
      assert PendingPath(edges, status, p[1..]);
      ClosureSkips(edges, status, status', failed, skipped, p[1..]);
    }
  }

  /** The pending dependents of a skipped or the failed child are to be skipped. */
  lemma DependentsSkipped(g: Group, status: seq<Status>, failed: nat, x: nat)
    requires WellFormed(g) && BackRanges(g) && failed < g.Size() == |status| && x < g.Size()
    requires x == failed || SkippedBy(g.graph.dependencies, status, failed, x)
    ensures forall q: nat :: q in g.graph.dependents[x] ==>
      q < g.Size() && (status[q] == Pending ==> SkippedBy(g.graph.dependencies, status, failed, q))
  {
    BackInRange(g.graph.dependencies, g.graph.dependents, x);
    forall q: nat | q in g.graph.dependents[x] && status[q] == Pending
      ensures SkippedBy(g.graph.dependencies, status, failed, q)
    {
      SkippedByNeed(g.graph.dependencies, status, failed, x, q);
    }
  }

  /** The listed children were pending and are marked as skipped; nothing else changed. */
  ghost predicate Marked(n: nat, status: seq<Status>, outcomes: seq<Outcome>, status': seq<Status>,
                         outcomes': seq<Outcome>, skipped: seq<nat>) {
    && |status| == |outcomes| == |status'| == |outcomes'| == n
    && Distinct(skipped)
    && (forall j :: j in skipped ==> j < n && status[j] == Pending)
    && (forall j :: 0 <= j < n ==>
          && status'[j] == (if j in skipped then Skipped else status[j])
          && outcomes'[j] == (if j in skipped then SKIPPED_OUTCOME else outcomes[j]))
    && Tally(status', Skipped) == Tally(status, Skipped) + |skipped|
    && Tally(status', Running) == Tally(status, Running) && Tally(status', Finished) == Tally(status, Finished)
  }

  lemma MarkMore(n: nat, status: seq<Status>, outcomes: seq<Outcome>, status': seq<Status>, outcomes': seq<Outcome>,
                 skipped: seq<nat>, index: nat)
    requires Marked(n, status, outcomes, status', outcomes', skipped) && index < n && status'[index] == Pending
    ensures Marked(n, status, outcomes, status'[index := Skipped], outcomes'[index := SKIPPED_OUTCOME],
                   skipped + [index])
    ensures Tally(status'[index := Skipped], Pending) < Tally(status', Pending)
  {
    TallySkip(status', index);
    DistinctJoin(skipped, [index]);
  }

  lemma TallySkip(status: seq<Status>, index: nat)
    requires index < |status| && status[index] == Pending
    ensures var status' := status[index := Skipped];
      && Tally(status', Skipped) == Tally(status, Skipped) + 1
      && Tally(status', Pending) == Tally(status, Pending) - 1
      && Tally(status', Running) == Tally(status, Running)
      && Tally(status', Finished) == Tally(status, Finished)
  {
    TallyUpdate(status, index, Skipped, Skipped);
    TallyUpdate(status, index, Skipped, Pending);
    TallyUpdate(status, index, Skipped, Running);
    TallyUpdate(status, index, Skipped, Finished);
  }

  /** Breadth-first over the dependents of a failed child; children no longer pending stop the walk. */
  method SkipDescendants(g: Group, failed: nat, status: seq<Status>, outcomes: seq<Outcome>)
      returns (skipped: seq<nat>, status': seq<Status>, outcomes': seq<Outcome>)
    requires WellFormed(g) && BackRanges(g) && failed < g.Size() == |status| == |outcomes|
    ensures |status'| == |outcomes'| == g.Size()
    ensures Distinct(skipped)
    ensures forall j: nat :: j in skipped <==> SkippedBy(g.graph.dependencies, status, failed, j)
    ensures forall j :: j in skipped ==> j < g.Size() && status[j] == Pending
    ensures forall j :: 0 <= j < g.Size() ==>
      && status'[j] == (if j in skipped then Skipped else status[j])
      && outcomes'[j] == (if j in skipped then SKIPPED_OUTCOME else outcomes[j])
    ensures Tally(status', Skipped) == Tally(status, Skipped) + |skipped|
    ensures Tally(status', Running) == Tally(status, Running) && Tally(status', Finished) == Tally(status, Finished)
  {
    ghost var edges := g.graph.dependencies;
    skipped, status', outcomes' := [], status, outcomes;
    var queue := g.graph.dependents[failed];
    BackInRange(edges, g.graph.dependents, failed);
    DependentsSkipped(g, status, failed, failed);
    while queue != []
      invariant Marked(g.Size(), status, outcomes, status', outcomes', skipped)
      invariant forall j :: j in skipped ==> SkippedBy(edges, status, failed, j)
      invariant forall q: nat :: q in queue ==>
        q < g.Size() && (status[q] == Pending ==> SkippedBy(edges, status, failed, q))
      invariant DependentsReached(edges, status', queue, failed)
      invariant forall x: nat :: x in skipped ==> DependentsReached(edges, status', queue, x)
      decreases Tally(status', Pending), |queue|
    {
      var index := queue[0];
      ghost var queue0 := queue;
      queue := queue[1..];
      assert index in queue0;
      assert forall q: nat :: q in queue0 <==> q == index || q in queue;
      if status'[index] != Pending {
        continue;
      }
      MarkMore(g.Size(), status, outcomes, status', outcomes', skipped, index);
      status' := status'[index := Skipped];
      outcomes' := outcomes'[index := SKIPPED_OUTCOME];
      skipped := skipped + [index];
      BackInRange(edges, g.graph.dependents, index);
      DependentsSkipped(g, status, failed, index);
      assert forall q: nat :: q in queue + g.graph.dependents[index] ==> q in queue || q in g.graph.dependents[index];
      queue := queue + g.graph.dependents[index];
    }
    forall j: nat | SkippedBy(edges, status, failed, j)
      ensures j in skipped
    {
      var p :| PendingPath(edges, status, p) && p[0] == j && p[|p| - 1] == failed;
      ClosureSkips(edges, status, status', failed, skipped, p);
    }
  }

  // ---------------------------------------------------------------------------------------
  // One received completion

  lemma {:induction false} DoomedPathIsPending(g: Group, m: Machine, i: nat, p: seq<nat>)
    requires Inv(g, m) && Enabled(g, m, Receive(i))
    requires IsPath(g.graph.dependencies, p) && p[|p| - 1] == i
    requires m.status[p[0]] == Pending
    ensures forall k :: 0 <= k < |p| - 1 ==> m.status[p[k]] == Pending
    decreases |p|
  {
    assert p[1] in g.graph.dependencies[p[0]];
    if |p| > 2 {
      var rest := p[1..];
      assert IsPath(g.graph.dependencies, rest);
      assert Depends(g.graph.dependencies, p[1], i);
      DoomedAreUnadmitted(g, m, i, p[1]);
      if m.status[p[1]] == Skipped {
        var f :| FailedAt(g, m, f) && Depends(g.graph.dependencies, p[1], f);
        DependsEdge(g.graph.dependencies, p[0], p[1]);
        DependsTransitive(g.graph.dependencies, p[0], p[1], f);
        assert false;
      }
      DoomedPathIsPending(g, m, i, rest);
      assert forall k :: 0 < k < |p| - 1 ==> p[k] == rest[k - 1];
    }
  }

  /** In a reachable machine the walk over pending children finds all that transitively need the failed one. */
  lemma SkippedByIsDoomed(g: Group, m: Machine, i: nat, j: nat)
    requires Inv(g, m) && Enabled(g, m, Receive(i)) && j < g.Size()
    ensures SkippedBy(g.graph.dependencies, m.status[i := Finished], i, j) <==> Doomed(g, m, i, j)
  {
    var status1 := m.status[i := Finished];
    if SkippedBy(g.graph.dependencies, status1, i, j) {
      var p :| PendingPath(g.graph.dependencies, status1, p) && p[0] == j && p[|p| - 1] == i;
      assert status1[p[0]] == Pending;
    }
    if Doomed(g, m, i, j) {
      var p :| IsPath(g.graph.dependencies, p) && p[0] == j && p[|p| - 1] == i;
      DoomedPathIsPending(g, m, i, p);
      assert PendingPath(g.graph.dependencies, status1, p);
    }
  }

  /** A child left pending by a failure needs none of the children it took down. */
  lemma SurvivorsNeedNoneSkipped(g: Group, m: Machine, i: nat, skipped: seq<nat>, j: nat)
    requires Inv(g, m) && Enabled(g, m, Receive(i)) && j < g.Size()
    requires forall k: nat :: k in skipped <==> k < g.Size() && Doomed(g, m, i, k)
    requires m.status[j] == Pending && j !in skipped
    ensures Outside(g.graph.dependencies[j], Over(m.status)) ==
      Outside(g.graph.dependencies[j], Over(m.status) + Elements(skipped) + {i})
  {
    forall d | d in g.graph.dependencies[j]
      ensures d !in skipped && d != i
    {
      DependsEdge(g.graph.dependencies, j, d);
      if d in skipped {
        DependsTransitive(g.graph.dependencies, j, d, i);
      }
    }
    OutsideAgree(g.graph.dependencies[j], Over(m.status), Over(m.status) + Elements(skipped) + {i});
  }

  lemma SkippedAreDoomed(g: Group, m: Machine, i: nat, skipped: seq<nat>)
    requires Inv(g, m) && Enabled(g, m, Receive(i))
    requires forall j: nat :: j in skipped <==> SkippedBy(g.graph.dependencies, m.status[i := Finished], i, j)
    ensures forall j: nat :: j in skipped <==> j < g.Size() && Doomed(g, m, i, j)
  {
    forall j: nat
      ensures j in skipped <==> j < g.Size() && Doomed(g, m, i, j)
    {
      if j < g.Size() {
        SkippedByIsDoomed(g, m, i, j);
      }
    }
  }

  lemma CountsAfterSkip(g: Group, m: Machine, i: nat, skipped: seq<nat>, status': seq<Status>, remaining': seq<int>)
    requires Inv(g, m) && Enabled(g, m, Receive(i))
    requires forall j: nat :: j in skipped <==> j < g.Size() && Doomed(g, m, i, j)
    requires |status'| == g.Size()
    requires forall j :: 0 <= j < g.Size() ==>
        status'[j] == if j in skipped then Skipped else m.status[i := Finished][j]
    requires CountsEdges(g, status', remaining', Over(m.status), Over(m.status) + Elements(skipped) + {i})
    ensures CountsEdges(g, status', remaining', Over(status'), Over(status'))
  {
    assert Over(status') == Over(m.status) + Elements(skipped) + {i};
    forall j | 0 <= j < g.Size() && status'[j] == Pending
      ensures Outside(g.graph.dependencies[j], Over(m.status)) == Outside(g.graph.dependencies[j], Over(status'))
    {
      SurvivorsNeedNoneSkipped(g, m, i, skipped, j);
    }
  }

  /** Satisfies the `after` edges of the failed child and of those skipped with it. */
  method BookSkips(g: Group, ghost m: Machine, index: nat, skipped: seq<nat>, status: seq<Status>, remaining: seq<int>,
                   ready: seq<nat>)
      returns (remaining': seq<int>, ready': seq<nat>)
    requires Inv(g, m) && BackRanges(g) && Enabled(g, m, Receive(index)) && |status| == g.Size()
    requires Distinct(skipped) && forall j: nat :: j in skipped <==> j < g.Size() && Doomed(g, m, index, j)
    requires forall j :: 0 <= j < g.Size() ==>
        status[j] == if j in skipped then Skipped else m.status[index := Finished][j]
    requires CountsEdges(g, m.status, remaining, Over(m.status), Over(m.status)) && Queued(m.status, remaining, ready)
    ensures CountsEdges(g, status, remaining', Over(status), Over(status)) && Queued(status, remaining', ready')
  {
    ghost var over := Over(m.status);
    remaining', ready' := ResolveSkipped(g, status, remaining, ready, skipped, over);
    remaining', ready' := ResolveAfter(g, status, remaining', ready', index, over, over + Elements(skipped));
    CountsAfterSkip(g, m, index, skipped, status, remaining');
  }

  /** Books a failure: skips what needs the failed child, then satisfies the `after` edges of all of them. */
  method BookFailure(g: Group, ghost m: Machine, index: nat, status: seq<Status>, outcomes: seq<Outcome>,
                     remaining: seq<int>, ready: seq<nat>)
      returns (status': seq<Status>, outcomes': seq<Outcome>, remaining': seq<int>, ready': seq<nat>, skips: nat)
    requires Inv(g, m) && BackRanges(g) && Enabled(g, m, Receive(index))
    requires status == m.status[index := Finished] && |outcomes| == g.Size()
    requires CountsEdges(g, m.status, remaining, Over(m.status), Over(m.status)) && Queued(m.status, remaining, ready)
    ensures |status'| == |outcomes'| == g.Size()
    ensures forall j :: 0 <= j < g.Size() ==>
      && status'[j] == (if Doomed(g, m, index, j) then Skipped else status[j])
      && outcomes'[j] == (if Doomed(g, m, index, j) then SKIPPED_OUTCOME else outcomes[j])
    ensures CountsEdges(g, status', remaining', Over(status'), Over(status')) && Queued(status', remaining', ready')
    ensures Tally(status', Skipped) == Tally(status, Skipped) + skips
    ensures Tally(status', Running) == Tally(status, Running) && Tally(status', Finished) == Tally(status, Finished)
  {
    var skipped;
    skipped, status', outcomes' := SkipDescendants(g, index, status, outcomes);
    skips := |skipped|;
    SkippedAreDoomed(g, m, index, skipped);
    remaining', ready' := BookSkips(g, m, index, skipped, status', remaining, ready);
  }

  /** Books a success: satisfies the needs and the `after` edges of the finished child. */
  method BookSuccess(g: Group, ghost m: Machine, index: nat, status: seq<Status>, remaining: seq<int>, ready: seq<nat>)
      returns (remaining': seq<int>, ready': seq<nat>)
    requires Inv(g, m) && BackRanges(g) && Enabled(g, m, Receive(index))
    requires status == m.status[index := Finished]
    requires CountsEdges(g, m.status, remaining, Over(m.status), Over(m.status)) && Queued(m.status, remaining, ready)
    ensures CountsEdges(g, status, remaining', Over(status), Over(status)) && Queued(status, remaining', ready')
  {
    ghost var over := Over(m.status);
    remaining', ready' := ResolveNeeds(g, status, remaining, ready, index, over, over);
    remaining', ready' := ResolveAfter(g, status, remaining', ready', index, over + {index}, over);
    assert Over(status) == over + {index};
  }

  lemma TallyFinish(status: seq<Status>, index: nat)
    requires index < |status| && status[index] == Running
    ensures var status' := status[index := Finished];
      && Tally(status', Running) == Tally(status, Running) - 1
      && Tally(status', Finished) == Tally(status, Finished) + 1
      && Tally(status', Skipped) == Tally(status, Skipped)
  {
    TallyUpdate(status, index, Finished, Running);
    TallyUpdate(status, index, Finished, Finished);
    TallyUpdate(status, index, Finished, Skipped);
  }

  /** Books one completion: counters, queue, skips and the fail-fast stop. */
  method Complete(g: Group, ghost m: Machine, index: nat, outcome: Outcome, status: seq<Status>, outcomes: seq<Outcome>,
                  remaining: seq<int>, ready: seq<nat>, running: int, terminal: int, stop: bool)
      returns (status': seq<Status>, outcomes': seq<Outcome>, remaining': seq<int>, ready': seq<nat>,
               running': int, terminal': int, stop': bool)
    requires Inv(g, m) && BackRanges(g) && Enabled(g, m, Receive(index)) && outcome == m.tasks[index].outcome
    requires status == m.status && outcomes == m.outcomes && stop == m.stop
    requires Coupled(g, m, remaining, ready, running, terminal)
    ensures var m' := Apply(g, m, Receive(index));
      && status' == m'.status && outcomes' == m'.outcomes && stop' == m'.stop
      && Coupled(g, m', remaining', ready', running', terminal')
    ensures terminal' > terminal
  {
    assert status[index] == Running;
    running' := running - 1;
    terminal' := terminal + 1;
    TallyFinish(status, index);
    status' := status[index := Finished];
    outcomes' := outcomes[index := outcome];
    stop' := stop;
    ghost var m' := Apply(g, m, Receive(index));
    if outcome.failed {
      var skips;
      status', outcomes', remaining', ready', skips := BookFailure(g, m, index, status', outcomes', remaining, ready);
      terminal' := terminal' + skips;
      if g.failFast {
        stop' := true;
      }
    } else {
      remaining', ready' := BookSuccess(g, m, index, status', remaining, ready);
    }
    forall j | 0 <= j < g.Size()
      ensures status'[j] == m'.status[j] && outcomes'[j] == m'.outcomes[j]
    {
      ReceiveStatus(g, m, index, j);
    }
    assert status' == m'.status && outcomes' == m'.outcomes;
    SameMembers(ready', Sorted(ready'));
    ready' := Sorted(ready');
  }

  /** The skipped children's `after` edges are satisfied, each once. */
  method ResolveSkipped(g: Group, status: seq<Status>, remaining: seq<int>, ready: seq<nat>, skipped: seq<nat>,
                        ghost over: set<nat>)
      returns (remaining': seq<int>, ready': seq<nat>)
    requires WellFormed(g) && BackRanges(g)
    requires Distinct(skipped) && forall j :: j in skipped ==> j < g.Size() && j !in over
    requires CountsEdges(g, status, remaining, over, over) && Queued(status, remaining, ready)
    ensures CountsEdges(g, status, remaining', over, over + Elements(skipped)) && Queued(status, remaining', ready')
  {
    remaining', ready' := remaining, ready;
    assert over + Elements(skipped[..0]) == over;
    for k := 0 to |skipped|
      invariant CountsEdges(g, status, remaining', over, over + Elements(skipped[..k])) && Queued(status, remaining',
          ready')
    {
      assert skipped[k] !in skipped[..k];
      assert over + Elements(skipped[..k + 1]) == over + Elements(skipped[..k]) + {skipped[k]} by {
        assert skipped[..k + 1] == skipped[..k] + [skipped[k]];
      }
      remaining', ready' := ResolveAfter(g, status, remaining', ready', skipped[k], over,
                                         over + Elements(skipped[..k]));
    }
    assert skipped[..|skipped|] == skipped;
  }

  // ---------------------------------------------------------------------------------------
  // The loop

  /** A pending child has no unresolved edge exactly when it may be admitted. */
  lemma ZeroIsAdmissible(g: Group, m: Machine, remaining: seq<int>, k: nat)
    requires Inv(g, m) && k < g.Size() && m.status[k] == Pending
    requires CountsEdges(g, m.status, remaining, Over(m.status), Over(m.status))
    ensures remaining[k] == 0 <==> Admissible(g, m, k)
  {
    OutsideZero(g.graph.dependencies[k], Over(m.status));
    OutsideZero(g.graph.after[k], Over(m.status));
    if remaining[k] == 0 {
      forall d | d in g.graph.dependencies[k]
        ensures m.status[d] == Finished && !m.outcomes[d].failed
      {
        DependsEdge(g.graph.dependencies, k, d);
        assert d in Over(m.status);
        if m.status[d] == Skipped {
          var f :| FailedAt(g, m, f) && Depends(g.graph.dependencies, d, f);
          DependsTransitive(g.graph.dependencies, k, d, f);
        }
      }
      forall a | a in g.graph.after[k]
        ensures Terminal(m.status[a])
      {
        assert a in Over(m.status);
      }
    }
  }

  lemma HeadIsLeast(g: Group, m: Machine, remaining: seq<int>, ready: seq<nat>, running: int, terminal: int)
    requires Inv(g, m) && Coupled(g, m, remaining, ready, running, terminal)
    requires ready != [] && ready[0] < g.Size() && m.status[ready[0]] == Pending
    ensures Admissible(g, m, ready[0])
    ensures forall k :: 0 <= k < ready[0] ==> !Admissible(g, m, k)
  {
    assert ready[0] in ready;
    ZeroIsAdmissible(g, m, remaining, ready[0]);
    forall k | 0 <= k < ready[0]
      ensures !Admissible(g, m, k)
    {
      if m.status[k] == Pending {
        ZeroIsAdmissible(g, m, remaining, k);
      }
    }
  }

  lemma EmptyQueueAdmitsNone(g: Group, m: Machine, remaining: seq<int>, running: int, terminal: int)
    requires Inv(g, m) && Coupled(g, m, remaining, [], running, terminal)
    ensures forall k :: 0 <= k < g.Size() ==> !Admissible(g, m, k)
  {
    forall k | 0 <= k < g.Size()
      ensures !Admissible(g, m, k)
    {
      if m.status[k] == Pending {
        ZeroIsAdmissible(g, m, remaining, k);
      }
    }
  }

  lemma AdmitHead(g: Group, events: seq<Event>, m: Machine, remaining: seq<int>, ready: seq<nat>, running: int,
                  terminal: int)
    requires Reaches(g, events, m) && Coupled(g, m, remaining, ready, running, terminal)
    requires ready != [] && ready[0] < g.Size() && m.status[ready[0]] == Pending
    requires running < g.limit && !Cancelled(m)
    ensures Enabled(g, m, Admit(ready[0])) && Reaches(g, events + [Admit(ready[0])], Apply(g, m, Admit(ready[0])))
    ensures Coupled(g, Apply(g, m, Admit(ready[0])), remaining, ready[1..], running + 1, terminal)
  {
    ReachableInv(g, events, m);
    HeadIsLeast(g, m, remaining, ready, running, terminal);
    RunStep(g, events, m, Admit(ready[0]));
    assert [ready[0]] + ready[1..] == ready;
    CountsAfterAdmit(g, m, remaining, ready[1..], running, terminal, ready[0]);
  }

  lemma DropStale(g: Group, m: Machine, remaining: seq<int>, ready: seq<nat>, running: int, terminal: int)
    requires WellFormed(g) && Sized(g, m) && Coupled(g, m, remaining, ready, running, terminal)
    requires ready != [] && ready[0] < g.Size() && m.status[ready[0]] != Pending
    ensures Coupled(g, m, remaining, ready[1..], running, terminal)
  {
    assert forall j: nat :: j in ready <==> j == ready[0] || j in ready[1..];
  }

  /** Admits from the head of the queue while there is room and nothing stopped the group. */
  method AdmitReady(g: Group, status: seq<Status>, outcomes: seq<Outcome>, remaining: seq<int>, ready: seq<nat>,
                    running: int, ghost terminal: int, stop: bool, w: World, ghost events: seq<Event>)
      returns (status': seq<Status>, ready': seq<nat>, running': int, w': World, ghost events': seq<Event>)
    requires Reaches(g, events, Combined(status, outcomes, stop, w))
    requires Coupled(g, Combined(status, outcomes, stop, w), remaining, ready, running, terminal)
    ensures Reaches(g, events', Combined(status', outcomes, stop, w'))
    ensures Coupled(g, Combined(status', outcomes, stop, w'), remaining, ready', running', terminal)
    ensures running' < g.limit ==> ready' == [] || Cancelled(Combined(status', outcomes, stop, w'))
  {
    status', ready', running', w', events' := status, ready, running, w, events;
    while running' < g.limit && ready' != [] && !stop && !(w'.parentDone || w'.deadlineHit)
      invariant Reaches(g, events', Combined(status', outcomes, stop, w'))
      invariant Coupled(g, Combined(status', outcomes, stop, w'), remaining, ready', running', terminal)
      decreases |ready'|
    {
      ghost var m := Combined(status', outcomes, stop, w');
      var index := ready'[0];
      assert index in ready';
      if status'[index] != Pending {
        DropStale(g, m, remaining, ready', running', terminal);
        ready' := ready'[1..];
        continue;
      }
      AdmitHead(g, events', m, remaining, ready', running', terminal);
      ready' := ready'[1..];
      AncestorsInRange(g, index);
      var read := ConcurrentReadState(g.snapshot, g.owned, outcomes, g.graph.ancestors[index]);
      status' := status'[index := Running];
      running' := running' + 1;
      w' := w'.(tasks := w'.tasks[index := Spawned(read.Current())]);
      events' := events' + [Admit(index)];
      assert Combined(status', outcomes, stop, w') == Apply(g, m, Admit(index));
      w', events' := Yield(g, status', outcomes, stop, w', events');
    }
  }

  /** Admitting resolves no edge: only the admitted child leaves the pending ones. */
  lemma CountsAfterAdmit(g: Group, m: Machine, remaining: seq<int>, rest: seq<nat>, running: int, terminal: int, i: nat)
    requires Inv(g, m) && i < g.Size() && m.status[i] == Pending
    requires Coupled(g, m, remaining, [i] + rest, running, terminal)
    ensures var m' := m.(status := m.status[i := Running]);
      Coupled(g, m', remaining, rest, running + 1, terminal)
  {
    var status' := m.status[i := Running];
    TallyUpdate(m.status, i, Running, Running);
    TallyUpdate(m.status, i, Running, Finished);
    TallyUpdate(m.status, i, Running, Skipped);
    assert Over(status') == Over(m.status);
    assert ([i] + rest)[1..] == rest;
    assert forall j: nat :: j in [i] + rest <==> j == i || j in rest;
  }

  /** Counts every child's edges and queues those with none. */
  method Prepare(g: Group) returns (remaining: seq<int>, ready: seq<nat>)
    requires WellFormed(g)
    ensures Coupled(g, Initial(g), remaining, ready, 0, 0)
  {
    var n := |g.graph.dependencies|;
    remaining := seq(n, i requires 0 <= i < n => |g.graph.dependencies[i]| + |g.graph.after[i]|);
    ready := [];
    for index := 0 to n
      invariant Ascending(ready)
      invariant forall k :: 0 <= k < |ready| ==> ready[k] < index
      invariant forall j :: 0 <= j < index ==> (remaining[j] == 0 <==> j in ready)
    {
      if remaining[index] == 0 {
        ready := ready + [index];
      }
    }
    InitiallyCoupled(g, remaining, ready);
  }

  /** Waits for one completion and books it. */
  method ReceiveNext(g: Group, status: seq<Status>, outcomes: seq<Outcome>, remaining: seq<int>, ready: seq<nat>,
                     running: int, terminal: int, stop: bool, w: World, ghost events: seq<Event>)
      returns (status': seq<Status>, outcomes': seq<Outcome>, remaining': seq<int>, ready': seq<nat>,
               running': int, terminal': int, stop': bool, w': World, ghost events': seq<Event>)
    requires Reaches(g, events, Combined(status, outcomes, stop, w)) && BackRanges(g)
    requires Coupled(g, Combined(status, outcomes, stop, w), remaining, ready, running, terminal)
    requires running != 0
    ensures Reaches(g, events', Combined(status', outcomes', stop', w'))
    ensures Coupled(g, Combined(status', outcomes', stop', w'), remaining', ready', running', terminal')
    ensures terminal' > terminal
  {
    var index;
    index, w', events' := Await(g, status, outcomes, stop, w, events);
    ghost var m := Combined(status, outcomes, stop, w');
    ReachableInv(g, events', m);
    RunStep(g, events', m, Receive(index));
    events' := events' + [Receive(index)];
    var outcome := w'.tasks[index].outcome;
    w' := w'.(tasks := w'.tasks[index := Idle]);
    status', outcomes', remaining', ready', running', terminal', stop' :=
      Complete(g, m, index, outcome, status, outcomes, remaining, ready, running, terminal, stop);
    assert Combined(status', outcomes', stop', w') == Apply(g, m, Receive(index));
  }

  /** The whole loop. Its steps are events of the interleavings in `Scheduler`, so everything proved
      of those holds of it; it ends, for any graph, with every admitted branch joined. */
  method RunConcurrentGraph(g: Group) returns (outcomes: seq<Outcome>, w: World, ghost events: seq<Event>,
                                               ghost final: Machine)
    requires WellFormed(g) && BackRanges(g)
    ensures Reaches(g, events, final) && Stuck(g, final)
    ensures outcomes == final.outcomes && w.parentDone == final.parentDone && w.deadlineHit == final.deadlineHit
    ensures forall i :: 0 <= i < g.Size() ==> final.status[i] != Running
    ensures |outcomes| == g.Size() && NothingBehindFailure(g, outcomes)
    ensures forall i :: 0 <= i < g.Size() && outcomes[i].started ==>
      Began(g, events, i, false) && Event.Finish(i, outcomes[i]) in events
    ensures Acyclic(GroupValidation.Waits(g.graph)) && g.limit >= 1 && !Cancelled(final) ==>
      forall i :: 0 <= i < g.Size() ==> final.status[i] == Finished || final.status[i] == Skipped
  {
    var n := |g.graph.dependencies|;
    var remaining, ready := Prepare(g);
    var status := seq(n, _ => Pending);
    outcomes := seq(n, _ => NO_OUTCOME);
    w := World(seq(n, _ => Idle), false, false);
    var running, terminal, stop := 0, 0, false;
    events := [];
    assert Combined(status, outcomes, stop, w) == Initial(g);
    while terminal < n
      invariant Reaches(g, events, Combined(status, outcomes, stop, w))
      invariant Coupled(g, Combined(status, outcomes, stop, w), remaining, ready, running, terminal)
      decreases n - terminal
    {
      w, events := Yield(g, status, outcomes, stop, w, events);
      status, ready, running, w, events := AdmitReady(g, status, outcomes, remaining, ready, running, terminal, stop,
                                                      w, events);
      if running == 0 {
        break;
      }
      status, outcomes, remaining, ready, running, terminal, stop, w, events :=
        ReceiveNext(g, status, outcomes, remaining, ready, running, terminal, stop, w, events);
    }
    w, events := Yield(g, status, outcomes, stop, w, events);
    final := Combined(status, outcomes, stop, w);
    LoopExitIsStuck(g, events, final, remaining, ready, running, terminal);
    StuckHasJoined(g, events, final);
    NothingRanBehindFailure(g, events, final);
    forall i | 0 <= i < g.Size() && outcomes[i].started
      ensures Began(g, events, i, false) && Event.Finish(i, outcomes[i]) in events
    {
      StartsOnlyUncancelled(g, events, final, i);
    }
    if Acyclic(GroupValidation.Waits(g.graph)) && g.limit >= 1 && !Cancelled(final) {
      Progress(g, events, final);
    }
  }

  lemma InitiallyCoupled(g: Group, remaining: seq<int>, ready: seq<nat>)
    requires WellFormed(g) && |remaining| == g.Size() && Ascending(ready)
    requires forall i :: 0 <= i < g.Size() ==> remaining[i] == |g.graph.dependencies[i]| + |g.graph.after[i]|
    requires forall j :: j in ready ==> j < g.Size()
    requires forall j :: 0 <= j < g.Size() ==> (remaining[j] == 0 <==> j in ready)
    ensures Coupled(g, Initial(g), remaining, ready, 0, 0)
  {
    var m := Initial(g);
    assert Over(m.status) == {};
    TallyZero(m.status, Running);
    TallyZero(m.status, Finished);
    TallyZero(m.status, Skipped);
    forall j | 0 <= j < g.Size()
      ensures remaining[j] == Outside(g.graph.dependencies[j], {}) + Outside(g.graph.after[j], {})
    {
      OutsideNone(g.graph.dependencies[j]);
      OutsideNone(g.graph.after[j]);
    }
  }

  lemma {:induction false} TallySum(status: seq<Status>)
    ensures Tally(status, Pending) + Tally(status, Running) + Tally(status, Finished) +
      Tally(status, Skipped) == |status|
  {
    if status != [] {
      TallySum(status[1..]);
    }
  }

  lemma LoopExitIsStuck(g: Group, events: seq<Event>, m: Machine, remaining: seq<int>, ready: seq<nat>, running: int,
                        terminal: int)
    requires Reaches(g, events, m) && Coupled(g, m, remaining, ready, running, terminal)
    requires terminal >= g.Size() || (running == 0 && (running < g.limit ==> ready == [] || Cancelled(m)))
    ensures Stuck(g, m)
  {
    ReachableInv(g, events, m);
    NothingRuns(g, m, remaining, ready, running, terminal);
    if terminal >= g.Size() {
      NothingPends(g, m, remaining, ready, running, terminal);
    } else if ready == [] {
      EmptyQueueAdmitsNone(g, m, remaining, running, terminal);
    }
  }

  lemma NothingRuns(g: Group, m: Machine, remaining: seq<int>, ready: seq<nat>, running: int, terminal: int)
    requires Inv(g, m) && Coupled(g, m, remaining, ready, running, terminal) && (terminal >= g.Size() || running == 0)
    ensures forall i :: 0 <= i < g.Size() ==> m.status[i] != Running && m.tasks[i].Idle?
  {
    TallySum(m.status);
    TallyZero(m.status, Running);
  }

  lemma NothingPends(g: Group, m: Machine, remaining: seq<int>, ready: seq<nat>, running: int, terminal: int)
    requires Inv(g, m) && Coupled(g, m, remaining, ready, running, terminal) && terminal >= g.Size()
    ensures forall i :: 0 <= i < g.Size() ==> m.status[i] != Pending
  {
    TallySum(m.status);
    TallyZero(m.status, Pending);
  }
}
