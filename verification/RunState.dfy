/** The mutable state of a run, what a concurrent branch reads of it, and the commit of a group. */
module RunState {
  import opened Collections
  import opened Checks
  import opened ConcurrentGraph

  /** A workflow value; its shape never matters here. `Nil` is the value of an absent key. */
  datatype Value = Nil | Opaque(token: int)

  function Lookup(values: map<string, Value>, key: string): Value {
    if key in values then values[key] else Nil
  }

  function Restrict(values: map<string, Value>, keys: set<string>): map<string, Value> {
    map key | key in keys && key in values :: values[key]
  }

  lemma RestrictNone(base: map<string, Value>, values: map<string, Value>)
    ensures base + Restrict(values, {}) == base
  {
  }

  lemma RestrictMore(base: map<string, Value>, values: map<string, Value>, done: set<string>, key: string)
    requires key in values
    ensures base + Restrict(values, done + {key}) == (base + Restrict(values, done))[key := values[key]]
  {
  }

  lemma RestrictAll(values: map<string, Value>)
    ensures Restrict(values, values.Keys) == values
  {
  }

  /** The fields that branches read and commit. `written` is absent while writes go unrecorded. */
  datatype View = View(
    steps: map<string, Value>,
    vars: map<string, Value>,
    checks: seq<Finding>,
    checkWrites: seq<Finding>,
    written: Option<set<string>>)

  function Written(v: View): set<string> {
    if v.written.Some? then v.written.value else {}
  }

  /** What one branch left behind. */
  datatype Outcome = Outcome(state: Option<View>, started: bool, failed: bool, skipped: bool)

  const NO_OUTCOME := Outcome(None, false, false, false)

  class State {
    var steps: map<string, Value>
    var vars: map<string, Value>
    var checks: seq<Finding>
    var checkWrites: seq<Finding>
    var written: Option<set<string>>

    function Current(): View
      reads this
    {
      View(steps, vars, checks, checkWrites, written)
    }

    constructor Of(view: View)
      ensures Current() == view
    {
      steps, vars, checks, checkWrites, written := view.steps, view.vars, view.checks, view.checkWrites, view.written;
    }

    /** A private copy: values are shared by value, recorded writes start afresh. */
    constructor Clone(view: View)
      ensures Current() == Cloned(view)
    {
      steps, vars, checks, checkWrites, written := view.steps, view.vars, view.checks, [], None;
    }

    method CommitChecks(findings: seq<Finding>)
      modifies this`checks, this`checkWrites
      ensures checks == UpsertAll(old(checks), findings)
      ensures checkWrites == UpsertAll(old(checkWrites), findings)
    {
      for k := 0 to |findings|
        invariant checks == UpsertAll(old(checks), findings[..k])
        invariant checkWrites == UpsertAll(old(checkWrites), findings[..k])
      {
        assert findings[..k + 1][..k] == findings[..k];
        checks := UpsertCheck(checks, findings[k]);
        checkWrites := UpsertCheck(checkWrites, findings[k]);
      }
      assert findings[..|findings|] == findings;
    }

    /** Copies variables in, recording the writes when this state records them. */
    method WriteVariables(values: map<string, Value>)
      modifies this`vars, this`written
      ensures vars == old(vars) + values
      ensures written == AddWritten(old(written), values.Keys)
    {
      var done: set<string> := {};
      RestrictNone(vars, values);
      assert written.Some? ==> written.value + {} == written.value;
      while done != values.Keys
        invariant done <= values.Keys
        invariant vars == old(vars) + Restrict(values, done)
        invariant written == AddWritten(old(written), done)
        decreases values.Keys - done
      {
        assert values.Keys == done + (values.Keys - done);
        var key :| key in values.Keys - done;
        RestrictMore(old(vars), values, done, key);
        vars := vars[key := values[key]];
        if written.Some? {
          assert old(written.value) + (done + {key}) == written.value + {key};
          written := Some(written.value + {key});
        }
        done := done + {key};
      }
      RestrictAll(values);
    }

    /** Publishes a finished step: its findings, its outputs under its id, and its variables. */
    method CommitStepResult(id: string, outputs: Value, variables: map<string, Value>, findings: seq<Finding>)
      modifies this
      ensures Current() == StepCommitted(old(Current()), id, outputs, variables, findings)
    {
      CommitChecks(findings);
      steps := steps[id := outputs];
      WriteVariables(variables);
    }
  }

  function Cloned(v: View): View {
    v.(checkWrites := [], written := None)
  }

  function AddWritten(written: Option<set<string>>, keys: set<string>): Option<set<string>> {
    if written.Some? then Some(written.value + keys) else None
  }

  function StepCommitted(v: View, id: string, outputs: Value, variables: map<string, Value>,
                         findings: seq<Finding>): View {
    View(v.steps[id := outputs], v.vars + variables, UpsertAll(v.checks, findings),
         UpsertAll(v.checkWrites, findings), AddWritten(v.written, variables.Keys))
  }

  // ---------------------------------------------------------------------------------------
  // What a branch reads

  /** The variables a branch wrote, with the values it left in them. */
  function Writes(delta: View): (writes: map<string, Value>)
    ensures writes.Keys == Written(delta)
  {
    map key | key in Written(delta) :: Lookup(delta.vars, key)
  }

  /** Adopting a finished branch: its findings, the outputs of the steps it declares, its variable writes. */
  function Absorb(v: View, delta: View, owned: set<string>): View {
    View(v.steps + Restrict(delta.steps, owned), v.vars + Writes(delta), UpsertAll(v.checks, delta.checkWrites),
         UpsertAll(v.checkWrites, delta.checkWrites), v.written)
  }

  function AbsorbAll(v: View, owned: seq<set<string>>, outcomes: seq<Outcome>, from: seq<nat>): View
    requires |owned| == |outcomes|
    requires forall k :: 0 <= k < |from| ==> from[k] < |outcomes|
    decreases |from|
  {
    if from == [] then v
    else
      var before := AbsorbAll(v, owned, outcomes, from[..|from| - 1]);
      var o := outcomes[from[|from| - 1]];
      if o.state.None? || o.failed then before else Absorb(before, o.state.value, owned[from[|from| - 1]])
  }

  function ReadState(snapshot: View, owned: seq<set<string>>, outcomes: seq<Outcome>, ancestors: seq<nat>): View
    requires |owned| == |outcomes|
    requires forall k :: 0 <= k < |ancestors| ==> ancestors[k] < |outcomes|
  {
    AbsorbAll(Cloned(snapshot), owned, outcomes, ancestors).(checkWrites := [])
  }

  method ConcurrentReadState(snapshot: View, owned: seq<set<string>>, outcomes: seq<Outcome>, ancestors: seq<nat>)
      returns (state: State)
    requires |owned| == |outcomes|
    requires forall k :: 0 <= k < |ancestors| ==> ancestors[k] < |outcomes|
    ensures fresh(state)
    ensures state.Current() == ReadState(snapshot, owned, outcomes, ancestors)
  {
    state := new State.Clone(snapshot);
    for k := 0 to |ancestors|
      invariant fresh(state)
      invariant state.Current() == AbsorbAll(Cloned(snapshot), owned, outcomes, ancestors[..k])
      invariant state.written == None
    {
      var outcome := outcomes[ancestors[k]];
      assert ancestors[..k + 1][..k] == ancestors[..k];
      if outcome.state.None? || outcome.failed {
        continue;
      }
      var delta := outcome.state.value;
      state.CommitChecks(delta.checkWrites);
      state.steps := state.steps + Restrict(delta.steps, owned[ancestors[k]]);
      state.WriteVariables(Writes(delta));
    }
    assert ancestors[..|ancestors|] == ancestors;
    state.checkWrites := [];
  }

  /** Only the ancestors' outcomes matter: completion order and the other branches do not. */
  lemma {:induction false} AbsorbAllDependsOn(v: View, owned: seq<set<string>>, a: seq<Outcome>, b: seq<Outcome>,
                                              from: seq<nat>)
    requires |owned| == |a| == |b|
    requires forall k :: 0 <= k < |from| ==> from[k] < |a| && a[from[k]] == b[from[k]]
    ensures AbsorbAll(v, owned, a, from) == AbsorbAll(v, owned, b, from)
    decreases |from|
  {
    if from != [] {
      AbsorbAllDependsOn(v, owned, a, b, from[..|from| - 1]);
    }
  }

  /** A branch that leaves a value of `key` to those absorbing it. */
  ghost predicate Writer(outcome: Outcome, key: string) {
    outcome.state.Some? && !outcome.failed && key in Written(outcome.state.value)
  }

  /** The last writer in absorption order supplies the value; without one the value stays. */
  lemma {:induction false} LastWriterSupplies(v: View, owned: seq<set<string>>, outcomes: seq<Outcome>,
                                              from: seq<nat>, key: string)
      returns (last: Option<nat>)
    requires |owned| == |outcomes|
    requires forall k :: 0 <= k < |from| ==> from[k] < |outcomes|
    ensures last.None? <==> forall k :: 0 <= k < |from| ==> !Writer(outcomes[from[k]], key)
    ensures last.None? ==> Lookup(AbsorbAll(v, owned, outcomes, from).vars, key) == Lookup(v.vars, key)
    ensures last.Some? ==>
      && last.value < |from|
      && Writer(outcomes[from[last.value]], key)
      && (forall k :: last.value < k < |from| ==> !Writer(outcomes[from[k]], key))
      && key in AbsorbAll(v, owned, outcomes, from).vars
      && AbsorbAll(v, owned, outcomes, from).vars[key] == Lookup(outcomes[from[last.value]].state.value.vars, key)
    decreases |from|
  {
    if from == [] {
      last := None;
    } else {
      var front := from[..|from| - 1];
      last := LastWriterSupplies(v, owned, outcomes, front, key);
      if Writer(outcomes[from[|from| - 1]], key) {
        last := Some(|from| - 1);
      } else {
        assert forall k :: 0 <= k < |front| ==> from[k] == front[k];
      }
    }
  }

  lemma EarlierNeedsNoLater(edges: seq<seq<nat>>, order: seq<nat>, k: nat, m: nat)
    requires Distinct(order) && Topological(edges, order)
    requires k <= m < |order|
    ensures !Depends(edges, order[k], order[m])
  {
  }

  /** Among the ancestors that wrote a variable, a branch reads one that no other writer needs to wait for:
      along a chain of needs, the most downstream writer. */
  lemma MostDownstreamWriterWins(snapshot: View, owned: seq<set<string>>, outcomes: seq<Outcome>,
                                 edges: seq<seq<nat>>, ancestors: seq<nat>, key: string)
    requires |owned| == |outcomes|
    requires forall k :: 0 <= k < |ancestors| ==> ancestors[k] < |outcomes|
    requires Distinct(ancestors) && Topological(edges, ancestors)
    ensures (forall a :: a in ancestors ==> !Writer(outcomes[a], key)) ==>
      Lookup(ReadState(snapshot, owned, outcomes, ancestors).vars, key) == Lookup(snapshot.vars, key)
    ensures (exists a :: a in ancestors && Writer(outcomes[a], key)) ==>
      exists w :: w in ancestors && Writer(outcomes[w], key)
        && Lookup(ReadState(snapshot, owned, outcomes, ancestors).vars, key) ==
           Lookup(outcomes[w].state.value.vars, key)
        && forall a :: a in ancestors && Writer(outcomes[a], key) ==> !Depends(edges, a, w)
  {
    var last := LastWriterSupplies(Cloned(snapshot), owned, outcomes, ancestors, key);
    if last.Some? {
      var w := ancestors[last.value];
      forall a | a in ancestors && Writer(outcomes[a], key)
        ensures !Depends(edges, a, w)
      {
        var k :| 0 <= k < |ancestors| && ancestors[k] == a;
        EarlierNeedsNoLater(edges, ancestors, k, last.value);
      }
    } else {
      forall a | a in ancestors
        ensures !Writer(outcomes[a], key)
      {
        var k :| 0 <= k < |ancestors| && ancestors[k] == a;
      }
    }
  }

  // ---------------------------------------------------------------------------------------
  // Commit

  ghost predicate Publishes(outcome: Outcome) {
    outcome.started && outcome.state.Some?
  }

  ghost predicate WritesVariable(outcome: Outcome, key: string) {
    Publishes(outcome) && key in Written(outcome.state.value)
  }

  ghost predicate SingleWriters(outcomes: seq<Outcome>) {
    forall i, j, key :: 0 <= i < j < |outcomes| && WritesVariable(outcomes[i], key) ==>
      !WritesVariable(outcomes[j], key)
  }

  function Committed(v: View, owned: seq<set<string>>, outcomes: seq<Outcome>): View
    requires |owned| == |outcomes|
    decreases |outcomes|
  {
    if outcomes == [] then v
    else
      var n := |outcomes| - 1;
      var before := Committed(v, owned[..n], outcomes[..n]);
      if !outcomes[n].started || outcomes[n].state.None? then before
      else
        var delta := outcomes[n].state.value;
        Absorb(before, delta, owned[n]).(written := AddWritten(before.written, Written(delta)))
  }

  lemma CommittedNext(v: View, owned: seq<set<string>>, outcomes: seq<Outcome>, i: nat)
    requires |owned| == |outcomes| && i < |outcomes|
    ensures Committed(v, owned[..i + 1], outcomes[..i + 1]) ==
      var before := Committed(v, owned[..i], outcomes[..i]);
      if !outcomes[i].started || outcomes[i].state.None? then before
      else
        var delta := outcomes[i].state.value;
        Absorb(before, delta, owned[i]).(written := AddWritten(before.written, Written(delta)))
  {
    assert outcomes[..i + 1][..i] == outcomes[..i] && owned[..i + 1][..i] == owned[..i];
  }

  /** The first branch that writes a variable an earlier one wrote, if any. */
  method FindConflict(outcomes: seq<Outcome>) returns (conflict: Option<(nat, nat, string)>)
    ensures conflict.None? <==> SingleWriters(outcomes)
    ensures conflict.Some? ==>
      var (i, j, key) := conflict.value;
      i < j < |outcomes| && WritesVariable(outcomes[i], key) && WritesVariable(outcomes[j], key)
  {
    var writers: map<string, nat> := map[];
    for j := 0 to |outcomes|
      invariant SingleWriters(outcomes[..j])
      invariant forall key :: key in writers ==> writers[key] < j && WritesVariable(outcomes[writers[key]], key)
      invariant forall i, key :: 0 <= i < j && WritesVariable(outcomes[i], key) ==> key in writers
    {
      if !outcomes[j].started || outcomes[j].state.None? {
        continue;
      }
      var rest := Written(outcomes[j].state.value);
      ghost var earlier := writers;
      while rest != {}
        invariant rest <= Written(outcomes[j].state.value)
        invariant forall key :: key in rest ==> (key in writers <==> key in earlier)
        invariant forall key :: key in Written(outcomes[j].state.value) - rest ==>
          key !in earlier && key in writers && writers[key] == j
        invariant forall key :: key in earlier ==> key in writers && writers[key] == earlier[key]
        invariant forall key :: key in writers ==> key in earlier || (key in Written(outcomes[j].state.value) &&
                                                                      writers[key] == j)
        decreases |rest|
      {
        var key :| key in rest;
        if key in writers {
          assert key in earlier;
          conflict := Some((writers[key], j, key));
          return;
        }
        writers := writers[key := j];
        rest := rest - {key};
      }
    }
    assert outcomes[..|outcomes|] == outcomes;
    conflict := None;
  }

  /** All or nothing: two writers of one variable leave the state as it was. */
  method CommitBranches(state: State, owned: seq<set<string>>, outcomes: seq<Outcome>)
      returns (conflict: Option<(nat, nat, string)>)
    requires |owned| == |outcomes|
    modifies state
    ensures conflict.None? <==> SingleWriters(outcomes)
    ensures conflict.Some? ==>
      var (i, j, key) := conflict.value;
      i < j < |outcomes| && WritesVariable(outcomes[i], key) && WritesVariable(outcomes[j], key)
    ensures conflict.Some? ==> state.Current() == old(state.Current())
    ensures conflict.None? ==> state.Current() == Committed(old(state.Current()), owned, outcomes)
  {
    conflict := FindConflict(outcomes);
    if conflict.Some? {
      return;
    }
    for i := 0 to |outcomes|
      invariant state.Current() == Committed(old(state.Current()), owned[..i], outcomes[..i])
    {
      CommittedNext(old(state.Current()), owned, outcomes, i);
      if !outcomes[i].started || outcomes[i].state.None? {
        continue;
      }
      var delta := outcomes[i].state.value;
      state.CommitChecks(delta.checkWrites);
      state.steps := state.steps + Restrict(delta.steps, owned[i]);
      state.WriteVariables(Writes(delta));
    }
    assert outcomes[..|outcomes|] == outcomes && owned[..|outcomes|] == owned;
  }

  lemma {:induction false} UnwrittenStays(v: View, owned: seq<set<string>>, outcomes: seq<Outcome>, key: string)
    requires |owned| == |outcomes|
    requires forall i :: 0 <= i < |outcomes| ==> !WritesVariable(outcomes[i], key)
    ensures Lookup(Committed(v, owned, outcomes).vars, key) == Lookup(v.vars, key)
    decreases |outcomes|
  {
    if outcomes != [] {
      var n := |outcomes| - 1;
      UnwrittenStays(v, owned[..n], outcomes[..n], key);
    }
  }

  lemma {:induction false} WriterSupplies(v: View, owned: seq<set<string>>, outcomes: seq<Outcome>, key: string, i: nat)
    requires |owned| == |outcomes| && SingleWriters(outcomes) && i < |outcomes| && WritesVariable(outcomes[i], key)
    ensures key in Committed(v, owned, outcomes).vars
    ensures Committed(v, owned, outcomes).vars[key] == Lookup(outcomes[i].state.value.vars, key)
    decreases |outcomes|
  {
    var n := |outcomes| - 1;
    if i < n {
      var front := outcomes[..n];
      assert forall j :: 0 <= j < n ==> front[j] == outcomes[j];
      WriterSupplies(v, owned[..n], front, key, i);
    }
  }

  /** After a successful commit a variable holds its one writer's value, or what it held before. */
  lemma CommittedVariable(v: View, owned: seq<set<string>>, outcomes: seq<Outcome>, key: string)
    requires |owned| == |outcomes| && SingleWriters(outcomes)
    ensures forall i :: 0 <= i < |outcomes| && WritesVariable(outcomes[i], key) ==>
      key in Committed(v, owned, outcomes).vars
      && Committed(v, owned, outcomes).vars[key] == Lookup(outcomes[i].state.value.vars, key)
    ensures (forall i :: 0 <= i < |outcomes| ==> !WritesVariable(outcomes[i], key)) ==>
      Lookup(Committed(v, owned, outcomes).vars, key) == Lookup(v.vars, key)
  {
    forall i | 0 <= i < |outcomes| && WritesVariable(outcomes[i], key)
      ensures key in Committed(v, owned, outcomes).vars
      ensures Committed(v, owned, outcomes).vars[key] == Lookup(outcomes[i].state.value.vars, key)
    {
      WriterSupplies(v, owned, outcomes, key, i);
    }
    if forall i :: 0 <= i < |outcomes| ==> !WritesVariable(outcomes[i], key) {
      UnwrittenStays(v, owned, outcomes, key);
    }
  }

  /** After any commit a step id is published exactly if it was before or a published branch declares and ran it. */
  lemma {:induction false} CommittedSteps(v: View, owned: seq<set<string>>, outcomes: seq<Outcome>, id: string)
    requires |owned| == |outcomes|
    ensures id in Committed(v, owned, outcomes).steps <==>
      id in v.steps
      || exists i :: 0 <= i < |outcomes| && Publishes(outcomes[i]) && id in owned[i] &&
          id in outcomes[i].state.value.steps
    decreases |outcomes|
  {
    if outcomes != [] {
      var n := |outcomes| - 1;
      var front, mine := outcomes[..n], owned[..n];
      CommittedSteps(v, mine, front, id);
      if i :| 0 <= i < n && Publishes(front[i]) && id in mine[i] && id in front[i].state.value.steps {
        assert Publishes(outcomes[i]) && id in owned[i] && id in outcomes[i].state.value.steps;
      }
      if i :| 0 <= i < |outcomes| && Publishes(outcomes[i]) && id in owned[i] && id in outcomes[i].state.value.steps {
        if i < n {
          assert Publishes(front[i]) && id in mine[i] && id in front[i].state.value.steps;
        }
      }
    }
  }

  // ---------------------------------------------------------------------------------------
  // Step outputs and findings, by value

  /** A branch that leaves the output of a step it declares to those absorbing it. */
  predicate Supplies(outcome: Outcome, owned: set<string>, id: string) {
    outcome.state.Some? && !outcome.failed && id in owned && id in outcome.state.value.steps
  }

  /** What is read of a step is what the last ancestor that declares and ran it left, or what was there. */
  lemma {:induction false} LastSuppliesOutput(v: View, owned: seq<set<string>>, outcomes: seq<Outcome>,
                                              from: seq<nat>, id: string) returns (last: Option<nat>)
    requires |owned| == |outcomes|
    requires forall k :: 0 <= k < |from| ==> from[k] < |outcomes|
    ensures last.None? <==> forall k :: 0 <= k < |from| ==> !Supplies(outcomes[from[k]], owned[from[k]], id)
    ensures
      var all := AbsorbAll(v, owned, outcomes, from);
      && (id in all.steps <==> last.Some? || id in v.steps)
      && (last.None? && id in v.steps ==> all.steps[id] == v.steps[id])
      && (last.Some? ==>
            && last.value < |from| && Supplies(outcomes[from[last.value]], owned[from[last.value]], id)
            && (forall k :: last.value < k < |from| ==> !Supplies(outcomes[from[k]], owned[from[k]], id))
            && all.steps[id] == outcomes[from[last.value]].state.value.steps[id])
    decreases |from|
  {
    if from == [] {
      last := None;
    } else {
      var front := from[..|from| - 1];
      last := LastSuppliesOutput(v, owned, outcomes, front, id);
      if Supplies(outcomes[from[|from| - 1]], owned[from[|from| - 1]], id) {
        last := Some(|from| - 1);
      } else {
        assert forall k :: 0 <= k < |front| ==> from[k] == front[k];
      }
    }
  }

  /** No step is declared in two branches. */
  ghost predicate Apart(owned: seq<set<string>>) {
    forall i, j, id :: 0 <= i < j < |owned| && id in owned[i] ==> id !in owned[j]
  }

  /** A branch reads the outputs its ancestors left in the steps they declare, and of any other step what the
      snapshot holds. */
  lemma ReadOutput(snapshot: View, owned: seq<set<string>>, outcomes: seq<Outcome>, ancestors: seq<nat>, id: string)
    requires |owned| == |outcomes| && Apart(owned)
    requires forall k :: 0 <= k < |ancestors| ==> ancestors[k] < |outcomes|
    ensures
      var read := ReadState(snapshot, owned, outcomes, ancestors);
      && (forall a :: a in ancestors && Supplies(outcomes[a], owned[a], id) ==>
            id in read.steps && read.steps[id] == outcomes[a].state.value.steps[id])
      && ((forall a :: a in ancestors ==> !Supplies(outcomes[a], owned[a], id)) ==>
            (id in read.steps <==> id in snapshot.steps) &&
            (id in read.steps ==> read.steps[id] == snapshot.steps[id]))
  {
    var last := LastSuppliesOutput(Cloned(snapshot), owned, outcomes, ancestors, id);
    forall a | a in ancestors && Supplies(outcomes[a], owned[a], id)
      ensures last.Some? && ancestors[last.value] == a
    {
      var k :| 0 <= k < |ancestors| && ancestors[k] == a;
      assert last.Some?;
      var b := ancestors[last.value];
      assert id in owned[a] && id in owned[b];
    }
    if last.Some? {
      assert ancestors[last.value] in ancestors;
    }
  }

  ghost predicate Provides(outcome: Outcome, owned: set<string>, id: string) {
    Publishes(outcome) && id in owned && id in outcome.state.value.steps
  }

  lemma {:induction false} LastProvidesOutput(v: View, owned: seq<set<string>>, outcomes: seq<Outcome>, id: string)
    returns (last: Option<nat>)
    requires |owned| == |outcomes|
    ensures last.None? <==> forall k :: 0 <= k < |outcomes| ==> !Provides(outcomes[k], owned[k], id)
    ensures
      var all := Committed(v, owned, outcomes);
      && (id in all.steps <==> last.Some? || id in v.steps)
      && (last.None? && id in v.steps ==> all.steps[id] == v.steps[id])
      && (last.Some? ==>
            && last.value < |outcomes| && Provides(outcomes[last.value], owned[last.value], id)
            && all.steps[id] == outcomes[last.value].state.value.steps[id])
    decreases |outcomes|
  {
    if outcomes == [] {
      last := None;
    } else {
      var n := |outcomes| - 1;
      var front, mine := outcomes[..n], owned[..n];
      last := LastProvidesOutput(v, mine, front, id);
      assert forall k :: 0 <= k < n ==> front[k] == outcomes[k] && mine[k] == owned[k];
      if Provides(outcomes[n], owned[n], id) {
        last := Some(n);
      }
    }
  }

  /** After a commit a step that a published branch declares and ran holds what the branch left, and any other
      step what it held before. */
  lemma CommittedOutput(v: View, owned: seq<set<string>>, outcomes: seq<Outcome>, id: string)
    requires |owned| == |outcomes| && Apart(owned)
    ensures
      var all := Committed(v, owned, outcomes);
      && (forall i :: 0 <= i < |outcomes| && Provides(outcomes[i], owned[i], id) ==>
            id in all.steps && all.steps[id] == outcomes[i].state.value.steps[id])
      && ((forall i :: 0 <= i < |outcomes| ==> !Provides(outcomes[i], owned[i], id)) ==>
            (id in all.steps <==> id in v.steps) && (id in all.steps ==> all.steps[id] == v.steps[id]))
  {
    var last := LastProvidesOutput(v, owned, outcomes, id);
    forall i | 0 <= i < |outcomes| && Provides(outcomes[i], owned[i], id)
      ensures last == Some(i)
    {
      assert last.Some?;
      assert id in owned[i] && id in owned[last.value];
    }
  }

  /** The findings the published branches wrote, in declaration order, each branch's in the order it wrote. */
  function Findings(outcomes: seq<Outcome>): seq<Finding> {
    if outcomes == [] then []
    else
      var last := outcomes[|outcomes| - 1];
      Findings(outcomes[..|outcomes| - 1]) +
      if last.started && last.state.Some? then last.state.value.checkWrites else []
  }

  /** Committing replays all of them into both lists. */
  lemma {:induction false} CommittedFindings(v: View, owned: seq<set<string>>, outcomes: seq<Outcome>)
    requires |owned| == |outcomes|
    ensures
      var all := Committed(v, owned, outcomes);
      && all.checks == UpsertAll(v.checks, Findings(outcomes))
      && all.checkWrites == UpsertAll(v.checkWrites, Findings(outcomes))
    decreases |outcomes|
  {
    if outcomes != [] {
      var n := |outcomes| - 1;
      var front, mine, last := outcomes[..n], owned[..n], outcomes[n];
      var before := Committed(v, mine, front);
      CommittedFindings(v, mine, front);
      if last.started && last.state.Some? {
        var more := last.state.value.checkWrites;
        assert Findings(outcomes) == Findings(front) + more;
        UpsertAllJoin(v.checks, Findings(front), more);
        UpsertAllJoin(v.checkWrites, Findings(front), more);
        assert Committed(v, owned, outcomes).checks == UpsertAll(before.checks, more);
        assert Committed(v, owned, outcomes).checkWrites == UpsertAll(before.checkWrites, more);
      } else {
        assert Findings(outcomes) == Findings(front) + [] == Findings(front);
      }
    }
  }

  /** A commit records every variable a published branch wrote, where writes are recorded. */
  lemma {:induction false} CommittedWrites(v: View, owned: seq<set<string>>, outcomes: seq<Outcome>)
    requires |owned| == |outcomes|
    ensures
      var all := Committed(v, owned, outcomes);
      && (all.written.Some? <==> v.written.Some?)
      && (v.written.Some? ==> forall key :: key in all.written.value <==>
            key in v.written.value || exists i :: 0 <= i < |outcomes| && WritesVariable(outcomes[i], key))
    decreases |outcomes|
  {
    if outcomes != [] {
      var n := |outcomes| - 1;
      CommittedWrites(v, owned[..n], outcomes[..n]);
      WrittenMore(v, owned, outcomes);
    }
  }

  lemma WrittenMore(v: View, owned: seq<set<string>>, outcomes: seq<Outcome>)
    requires |owned| == |outcomes| > 0
    requires
      var n := |outcomes| - 1;
      var before := Committed(v, owned[..n], outcomes[..n]);
      && (before.written.Some? <==> v.written.Some?)
      && (v.written.Some? ==> forall key :: key in before.written.value <==>
            key in v.written.value || exists i :: 0 <= i < n && WritesVariable(outcomes[..n][i], key))
    ensures
      var all := Committed(v, owned, outcomes);
      && (all.written.Some? <==> v.written.Some?)
      && (v.written.Some? ==> forall key :: key in all.written.value <==>
            key in v.written.value || exists i :: 0 <= i < |outcomes| && WritesVariable(outcomes[i], key))
  {
    var n := |outcomes| - 1;
    var front := outcomes[..n];
    assert forall i :: 0 <= i < n ==> front[i] == outcomes[i];
    if v.written.Some? {
      var all := Committed(v, owned, outcomes);
      forall key
        ensures key in all.written.value <==>
          key in v.written.value || exists i :: 0 <= i < |outcomes| && WritesVariable(outcomes[i], key)
      {
        if i :| 0 <= i < n && WritesVariable(front[i], key) {
          assert WritesVariable(outcomes[i], key);
        }
        if i :| 0 <= i < |outcomes| && WritesVariable(outcomes[i], key) {
          assert i < n ==> WritesVariable(front[i], key);
        }
        assert WritesVariable(outcomes[n], key) ==> key in all.written.value;
      }
    }
  }

  function FindingsFrom(outcomes: seq<Outcome>, from: seq<nat>): seq<Finding>
    requires forall k :: 0 <= k < |from| ==> from[k] < |outcomes|
  {
    if from == [] then []
    else
      var last := outcomes[from[|from| - 1]];
      FindingsFrom(outcomes, from[..|from| - 1]) +
      if last.state.Some? && !last.failed then last.state.value.checkWrites else []
  }

  /** A branch reads the findings of its ancestors after those of the snapshot, and starts with no writes. */
  lemma {:induction false} ReadFindings(snapshot: View, owned: seq<set<string>>, outcomes: seq<Outcome>,
                                        ancestors: seq<nat>)
    requires |owned| == |outcomes|
    requires forall k :: 0 <= k < |ancestors| ==> ancestors[k] < |outcomes|
    ensures
      var read := ReadState(snapshot, owned, outcomes, ancestors);
      && read.checks == UpsertAll(snapshot.checks, FindingsFrom(outcomes, ancestors))
      && read.checkWrites == [] && read.written == None
    decreases |ancestors|
  {
    if ancestors != [] {
      var front, last := ancestors[..|ancestors| - 1], outcomes[ancestors[|ancestors| - 1]];
      ReadFindings(snapshot, owned, outcomes, front);
      var base := Cloned(snapshot);
      var before := AbsorbAll(base, owned, outcomes, front);
      if last.state.Some? && !last.failed {
        var more := last.state.value.checkWrites;
        assert FindingsFrom(outcomes, ancestors) == FindingsFrom(outcomes, front) + more;
        UpsertAllJoin(snapshot.checks, FindingsFrom(outcomes, front), more);
        assert AbsorbAll(base, owned, outcomes, ancestors).checks == UpsertAll(before.checks, more);
      } else {
        var none: seq<Finding> := [];
        assert FindingsFrom(outcomes, front) + none == FindingsFrom(outcomes, front);
      }
    }
  }

  /** Committing a step in a private copy that records its writes, and absorbing the copy, leaves what committing
      the step directly leaves. */
  lemma PrivateCommitIsDirect(v: View, id: string, outputs: Value, variables: map<string, Value>,
                              findings: seq<Finding>, owned: set<string>)
    requires id in owned
    ensures
      var private := StepCommitted(Cloned(v).(written := Some({})), id, outputs, variables, findings);
      var absorbed, direct := Absorb(v, private, owned), StepCommitted(v, id, outputs, variables, findings);
      && (forall x :: x in owned || x in v.steps ==> (x in absorbed.steps <==> x in direct.steps))
      && (forall x :: x in absorbed.steps ==> x in direct.steps && absorbed.steps[x] == direct.steps[x])
      && absorbed.vars == direct.vars
      && absorbed.checks == direct.checks && absorbed.checkWrites == direct.checkWrites
  {
    ReplayEqualsDirect(v.checks, findings);
    ReplayEqualsDirect(v.checkWrites, findings);
  }

  /** A step that commits supplies its outputs under its id, its variables over those before, and its findings,
      and leaves everything else. */
  lemma StepCommittedHolds(v: View, id: string, outputs: Value, variables: map<string, Value>, findings: seq<Finding>)
    ensures
      var w := StepCommitted(v, id, outputs, variables, findings);
      && (forall x :: x in w.steps <==> x == id || x in v.steps)
      && (forall x :: x in w.steps ==> w.steps[x] == if x == id then outputs else v.steps[x])
      && (forall x :: x in w.vars <==> x in variables || x in v.vars)
      && (forall x :: x in w.vars ==> w.vars[x] == if x in variables then variables[x] else v.vars[x])
      && (v.written.Some? ==> w.written == Some(v.written.value + variables.Keys))
      && (forall k :: 0 <= k < |findings| ==> Has(w.checks, findings[k].id) && Has(w.checkWrites, findings[k].id))
  {
    forall k | 0 <= k < |findings|
      ensures Has(UpsertAll(v.checks, findings), findings[k].id)
      ensures Has(UpsertAll(v.checkWrites, findings), findings[k].id)
    {
      UpsertAllHas(v.checks, findings, k);
      UpsertAllHas(v.checkWrites, findings, k);
    }
  }

  lemma {:induction false} UpsertAllHas(findings: seq<Finding>, writes: seq<Finding>, k: nat)
    requires k < |writes|
    ensures Has(UpsertAll(findings, writes), writes[k].id)
    decreases |writes|
  {
    var last := |writes| - 1;
    UpsertHas(UpsertAll(findings, writes[..last]), writes[last]);
    if k < last {
      UpsertAllHas(findings, writes[..last], k);
    }
  }
}
