/** Check findings: one per id in first-seen order, replayed from a child run into its parent. */
module Checks {

  datatype Finding = Finding(id: string, status: string, message: string, fix: string)

  function Upsert(findings: seq<Finding>, finding: Finding): seq<Finding> {
    if findings == [] then [finding]
    else if findings[0].id == finding.id then [finding] + findings[1..]
    else [findings[0]] + Upsert(findings[1..], finding)
  }

  function UpsertAll(findings: seq<Finding>, writes: seq<Finding>): seq<Finding>
    decreases |writes|
  {
    if writes == [] then findings
    else Upsert(UpsertAll(findings, writes[..|writes| - 1]), writes[|writes| - 1])
  }

  ghost predicate OnePerId(findings: seq<Finding>) {
    forall i, j :: 0 <= i < j < |findings| ==> findings[i].id != findings[j].id
  }

  ghost predicate Has(findings: seq<Finding>, id: string) {
    exists k :: 0 <= k < |findings| && findings[k].id == id
  }

  /** Replaces the finding with the same id where it stands, or appends. */
  method UpsertCheck(findings: seq<Finding>, finding: Finding) returns (updated: seq<Finding>)
    ensures updated == Upsert(findings, finding)
  {
    for index := 0 to |findings|
      invariant forall k :: 0 <= k < index ==> findings[k].id != finding.id
    {
      if findings[index].id == finding.id {
        ghost var k := UpsertReplaces(findings, finding);
        return findings[index := finding];
      }
    }
    UpsertAppends(findings, finding);
    updated := findings + [finding];
  }

  /** A finding with a new id goes to the end. */
  lemma {:induction false} UpsertAppends(findings: seq<Finding>, finding: Finding)
    requires !Has(findings, finding.id)
    ensures Upsert(findings, finding) == findings + [finding]
  {
    if findings != [] {
      assert findings[0].id != finding.id;
      forall k | 0 <= k < |findings[1..]|
        ensures findings[1..][k].id != finding.id
      {
        assert findings[1..][k] == findings[k + 1];
      }
      UpsertAppends(findings[1..], finding);
    }
  }

  /** Otherwise it takes the place of the first finding with its id. */
  lemma {:induction false} UpsertReplaces(findings: seq<Finding>, finding: Finding) returns (k: nat)
    requires Has(findings, finding.id)
    ensures k < |findings| && findings[k].id == finding.id
    ensures forall j :: 0 <= j < k ==> findings[j].id != finding.id
    ensures Upsert(findings, finding) == findings[k := finding]
  {
    if findings[0].id == finding.id {
      k := 0;
    } else {
      var m :| 0 <= m < |findings| && findings[m].id == finding.id;
      assert findings[1..][m - 1].id == finding.id;
      var r := UpsertReplaces(findings[1..], finding);
      k := r + 1;
      assert forall j :: 0 < j < k ==> findings[j] == findings[1..][j - 1];
    }
  }

  lemma UpsertHas(findings: seq<Finding>, finding: Finding)
    ensures Has(Upsert(findings, finding), finding.id)
    ensures forall id :: Has(findings, id) ==> Has(Upsert(findings, finding), id)
  {
    if Has(findings, finding.id) {
      var k := UpsertReplaces(findings, finding);
      assert forall j :: 0 <= j < |findings| ==> findings[k := finding][j].id == findings[j].id;
    } else {
      UpsertAppends(findings, finding);
      var r := findings + [finding];
      assert r[|findings|].id == finding.id;
      assert forall j :: 0 <= j < |findings| ==> r[j].id == findings[j].id;
    }
  }

  lemma {:induction false} UpsertKeepsOnePerId(findings: seq<Finding>, finding: Finding)
    requires OnePerId(findings)
    ensures OnePerId(Upsert(findings, finding))
  {
    if Has(findings, finding.id) {
      var k := UpsertReplaces(findings, finding);
    } else {
      UpsertAppends(findings, finding);
    }
  }

  /** Both lists a state keeps hold one finding per id, whatever is committed. */
  lemma {:induction false} UpsertAllKeepsOnePerId(findings: seq<Finding>, writes: seq<Finding>)
    requires OnePerId(findings)
    ensures OnePerId(UpsertAll(findings, writes))
    decreases |writes|
  {
    if writes != [] {
      UpsertAllKeepsOnePerId(findings, writes[..|writes| - 1]);
      UpsertKeepsOnePerId(UpsertAll(findings, writes[..|writes| - 1]), writes[|writes| - 1]);
    }
  }

  lemma {:induction false} UpsertAllJoin(findings: seq<Finding>, a: seq<Finding>, b: seq<Finding>)
    ensures UpsertAll(findings, a + b) == UpsertAll(UpsertAll(findings, a), b)
    decreases |b|
  {
    if b == [] {
      assert a + b == a;
    } else {
      assert (a + b)[..|a + b| - 1] == a + b[..|b| - 1];
      UpsertAllJoin(findings, a, b[..|b| - 1]);
    }
  }

  /** A later finding with the same id replaces the earlier one without a trace. */
  lemma {:induction false} UpsertOverwrites(findings: seq<Finding>, earlier: Finding, later: Finding)
    requires earlier.id == later.id
    ensures Upsert(Upsert(findings, earlier), later) == Upsert(findings, later)
  {
    if findings != [] && findings[0].id != earlier.id {
      UpsertOverwrites(findings[1..], earlier, later);
      assert ([findings[0]] + Upsert(findings[1..], earlier))[1..] == Upsert(findings[1..], earlier);
    }
  }

  /** Once an id is present, rewriting it commutes with writing another id. */
  lemma {:induction false} UpsertCommutes(findings: seq<Finding>, f: Finding, g: Finding)
    requires f.id != g.id && Has(findings, f.id)
    ensures Upsert(Upsert(findings, g), f) == Upsert(Upsert(findings, f), g)
  {
    if findings[0].id == f.id {
      assert ([findings[0]] + Upsert(findings[1..], g))[1..] == Upsert(findings[1..], g);
      assert ([f] + findings[1..])[1..] == findings[1..];
    } else if findings[0].id == g.id {
      var rest := findings[1..];
      assert ([g] + rest)[1..] == rest;
      assert ([findings[0]] + Upsert(rest, f))[1..] == Upsert(rest, f);
    } else {
      var k :| 0 <= k < |findings| && findings[k].id == f.id;
      assert findings[1..][k - 1].id == f.id;
      UpsertCommutes(findings[1..], f, g);
      assert ([findings[0]] + Upsert(findings[1..], f))[1..] == Upsert(findings[1..], f);
      assert ([findings[0]] + Upsert(findings[1..], g))[1..] == Upsert(findings[1..], g);
    }
  }

  lemma {:induction false} UpsertPastOthers(findings: seq<Finding>, f: Finding, others: seq<Finding>)
    requires Has(findings, f.id) && !Has(others, f.id)
    ensures Upsert(UpsertAll(findings, others), f) == UpsertAll(Upsert(findings, f), others)
    ensures Has(UpsertAll(findings, others), f.id)
    decreases |others|
  {
    if others != [] {
      var front, g := others[..|others| - 1], others[|others| - 1];
      assert forall k :: 0 <= k < |front| ==> front[k] == others[k];
      UpsertPastOthers(findings, f, front);
      UpsertCommutes(UpsertAll(findings, front), f, g);
      UpsertHas(UpsertAll(findings, front), g);
    }
  }

  /** Rewriting an entry of a write list is the same as one more write. */
  lemma RewriteIsOneMoreWrite(findings: seq<Finding>, writes: seq<Finding>, k: nat, f: Finding)
    requires OnePerId(writes) && k < |writes| && writes[k].id == f.id
    ensures UpsertAll(findings, writes[k := f]) == Upsert(UpsertAll(findings, writes), f)
  {
    var before, w, others := writes[..k], writes[k], writes[k + 1..];
    var base := UpsertAll(findings, before);
    assert writes == before + ([w] + others);
    assert writes[k := f] == before + ([f] + others);
    UpsertAllJoin(findings, before, [w] + others);
    UpsertAllJoin(findings, before, [f] + others);
    UpsertAllJoin(base, [w], others);
    UpsertAllJoin(base, [f], others);
    assert UpsertAll(base, [w]) == Upsert(base, w) by { assert [w][..0] == []; }
    assert UpsertAll(base, [f]) == Upsert(base, f) by { assert [f][..0] == []; }
    UpsertHas(base, w);
    UpsertPastOthers(Upsert(base, w), f, others);
    UpsertOverwrites(base, w, f);
  }

  /** Folding a child's recorded writes into any list gives what committing its findings there would. */
  lemma {:induction false} ReplayEqualsDirect(inherited: seq<Finding>, findings: seq<Finding>)
    ensures UpsertAll(inherited, UpsertAll([], findings)) == UpsertAll(inherited, findings)
    decreases |findings|
  {
    if findings != [] {
      var front, f := findings[..|findings| - 1], findings[|findings| - 1];
      var writes := UpsertAll([], front);
      ReplayEqualsDirect(inherited, front);
      UpsertAllKeepsOnePerId([], front);
      if Has(writes, f.id) {
        var k := UpsertReplaces(writes, f);
        RewriteIsOneMoreWrite(inherited, writes, k, f);
      } else {
        UpsertAppends(writes, f);
        UpsertAllJoin(inherited, writes, [f]);
        assert [f][..0] == [];
      }
    }
  }
}
