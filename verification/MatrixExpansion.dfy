/** The matrix recursion, which mutates one binding, enumerates every combination once and in order. */
module MatrixExpansion {
  import opened FanoutExpansion

  predicate DistinctNames(axes: seq<Axis>) {
    forall i, j :: 0 <= i < j < |axes| ==> axes[i].name != axes[j].name
  }

  predicate Named(axes: seq<Axis>) {
    forall j :: 0 <= j < |axes| ==> axes[j].name != ""
  }

  /** The first axis that cannot be bound, and why: it has no name, or that of an earlier one. */
  predicate BadAxis(axes: seq<Axis>, j: nat, reason: Reason) {
    && j < |axes|
    && (forall i :: 0 <= i < j ==> axes[i].name != "")
    && (forall i, k :: 0 <= i < k < j ==> axes[i].name != axes[k].name)
    && (reason == UnnamedAxis <==> axes[j].name == "")
    && (reason == DuplicateAxis <==> axes[j].name != "" && exists i :: 0 <= i < j && axes[i].name == axes[j].name)
  }

  /** The binding of a combination: each axis name with the value its digit picks. */
  function Bound(axes: seq<Axis>, d: seq<nat>): map<string, Value>
    requires IsCombination(axes, d)
  {
    if axes == [] then map[] else Bound(axes[1..], d[1..])[axes[0].name := axes[0].values[d[0]]]
  }

  lemma {:induction false} BoundAt(axes: seq<Axis>, d: seq<nat>, j: nat)
    requires IsCombination(axes, d) && DistinctNames(axes) && j < |axes|
    ensures axes[j].name in Bound(axes, d) && Bound(axes, d)[axes[j].name] == axes[j].values[d[j]]
  {
    if j > 0 {
      BoundAt(axes[1..], d[1..], j - 1);
    }
  }

  lemma {:induction false} BoundOnly(axes: seq<Axis>, d: seq<nat>, name: string)
    requires IsCombination(axes, d) && name in Bound(axes, d)
    ensures exists j :: 0 <= j < |axes| && axes[j].name == name
  {
    if name != axes[0].name {
      BoundOnly(axes[1..], d[1..], name);
      var j :| 0 <= j < |axes[1..]| && axes[1..][j].name == name;
      assert axes[j + 1].name == name;
    }
  }

  /** The bindings in the order of the recursion: for each value of the first axis, those of the rest. */
  function Table(axes: seq<Axis>, base: map<string, Value>): seq<map<string, Value>>
    decreases |axes|, 0
  {
    if axes == [] then [base] else Rows(axes, base, |axes[0].values|)
  }

  function Rows(axes: seq<Axis>, base: map<string, Value>, c: nat): seq<map<string, Value>>
    requires axes != [] && c <= |axes[0].values|
    decreases |axes| - 1, 1, c
  {
    if c == 0 then [] else Rows(axes, base, c - 1) + Table(axes[1..], base[axes[0].name := axes[0].values[c - 1]])
  }

  lemma {:induction false} TableLength(axes: seq<Axis>, base: map<string, Value>)
    ensures |Table(axes, base)| == Product(axes)
    decreases |axes|, 0
  {
    if axes != [] {
      RowsLength(axes, base, |axes[0].values|);
    }
  }

  lemma {:induction false} RowsLength(axes: seq<Axis>, base: map<string, Value>, c: nat)
    requires axes != [] && c <= |axes[0].values|
    ensures |Rows(axes, base, c)| == Times(c, Product(axes[1..]))
    decreases |axes| - 1, 1, c
  {
    if c > 0 {
      RowsLength(axes, base, c - 1);
      TableLength(axes[1..], base[axes[0].name := axes[0].values[c - 1]]);
    }
  }

  /** The entry with the number of a combination binds that combination. */
  lemma {:induction false} TableHolds(axes: seq<Axis>, base: map<string, Value>, d: seq<nat>)
    requires DistinctNames(axes) && IsCombination(axes, d)
    ensures Number(axes, d) < |Table(axes, base)| && Table(axes, base)[Number(axes, d)] == base + Bound(axes, d)
    decreases |axes|, 0
  {
    if axes == [] {
      assert base + map[] == base;
    } else {
      RowsHold(axes, base, |axes[0].values|, d);
    }
  }

  lemma {:induction false} RowsHold(axes: seq<Axis>, base: map<string, Value>, c: nat, d: seq<nat>)
    requires DistinctNames(axes) && axes != [] && c <= |axes[0].values| && IsCombination(axes, d) && d[0] < c
    ensures Number(axes, d) < |Rows(axes, base, c)| && Rows(axes, base, c)[Number(axes, d)] == base + Bound(axes, d)
    decreases |axes| - 1, 1, c
  {
    if d[0] < c - 1 {
      RowsHold(axes, base, c - 1, d);
    } else {
      RowsLength(axes, base, c - 1);
      TableHolds(axes[1..], base[axes[0].name := axes[0].values[c - 1]], d[1..]);
      PrependDigit(axes, base, d);
    }
  }

  /** Entry `k` of the table binds what the digits of `k` pick. */
  lemma TableAt(axes: seq<Axis>, base: map<string, Value>, k: nat)
    requires NoneEmpty(axes) && DistinctNames(axes) && k < Product(axes)
    ensures |Table(axes, base)| == Product(axes) && Table(axes, base)[k] == base + Bound(axes, Digits(axes, k))
  {
    TableLength(axes, base);
    NumberOfDigits(axes, k);
    TableHolds(axes, base, Digits(axes, k));
  }

  /** Iterations numbered from `start`. */
  function Numbered(bindings: seq<map<string, Value>>, start: nat): seq<Iteration> {
    seq(|bindings|, k requires 0 <= k < |bindings| => Iteration(start + k, Matrix(bindings[k])))
  }

  lemma NumberedJoin(a: seq<map<string, Value>>, b: seq<map<string, Value>>, start: nat)
    ensures Numbered(a + b, start) == Numbered(a, start) + Numbered(b, start + |a|)
  {
  }

  lemma PrependDigit(axes: seq<Axis>, base: map<string, Value>, d: seq<nat>)
    requires DistinctNames(axes) && axes != [] && IsCombination(axes, d)
    ensures base + Bound(axes, d) == base[axes[0].name := axes[0].values[d[0]]] + Bound(axes[1..], d[1..])
  {
    if axes[0].name in Bound(axes[1..], d[1..]) {
      BoundOnly(axes[1..], d[1..], axes[0].name);
    }
  }

  class Expander {
    var iterations: seq<Iteration>
    var binding: map<string, Value>

    constructor ()
      ensures iterations == [] && binding == map[]
    {
      iterations, binding := [], map[];
    }

    /** Appends every combination of the remaining axes and leaves the binding as it was. */
    method Expand(axes: seq<Axis>, axisIndex: nat)
      requires axisIndex <= |axes| && DistinctNames(axes)
      requires forall j :: axisIndex <= j < |axes| ==> axes[j].name !in binding
      modifies this
      ensures binding == old(binding)
      ensures iterations == old(iterations) + Numbered(Table(axes[axisIndex..], old(binding)), |old(iterations)|)
      decreases |axes| - axisIndex, 0
    {
      if axisIndex == |axes| {
        assert Numbered([binding], |iterations|) == [Iteration(|iterations|, Matrix(binding))];
        iterations := iterations + [Iteration(|iterations|, Matrix(binding))];
        return;
      }
      ghost var rest, base, its := axes[axisIndex..], binding, iterations;
      var axis := axes[axisIndex];
      for c := 0 to |axis.values|
        invariant binding - {axis.name} == base
        invariant iterations == its + Numbered(Rows(rest, base, c), |its|)
      {
        ExpandValue(axes, axisIndex, axis.values[c], base);
        NumberedJoin(Rows(rest, base, c), Table(rest[1..], base[axis.name := axis.values[c]]), |its|);
      }
      binding := binding - {axis.name};
    }

    method ExpandValue(axes: seq<Axis>, axisIndex: nat, value: Value, ghost base: map<string, Value>)
      requires axisIndex < |axes| && DistinctNames(axes)
      requires forall j :: axisIndex <= j < |axes| ==> axes[j].name !in base
      requires binding - {axes[axisIndex].name} == base
      modifies this
      ensures binding == base[axes[axisIndex].name := value]
      ensures iterations == old(iterations) +
        Numbered(Table(axes[axisIndex..][1..], base[axes[axisIndex].name := value]), |old(iterations)|)
      decreases |axes| - axisIndex - 1, 1
    {
      assert axes[axisIndex..][1..] == axes[axisIndex + 1..];
      binding := binding[axes[axisIndex].name := value];
      assert binding == base[axes[axisIndex].name := value];
      Expand(axes, axisIndex + 1);
    }
  }

  lemma ProductEnd(axes: seq<Axis>, j: nat)
    requires j < |axes|
    ensures Product(axes[..j + 1]) == Product(axes[..j]) * |axes[j].values|
  {
    ProductSplit(axes[..j + 1], j);
    assert axes[..j + 1][..j] == axes[..j] && axes[..j + 1][j + 1..] == [];
  }

  lemma PrefixProduct(axes: seq<Axis>, j: nat)
    requires NoneEmpty(axes) && j < |axes|
    ensures Product(axes[..j + 1]) == Product(axes[..j]) * |axes[j].values| <= Product(axes)
  {
    ProductEnd(axes, j);
    ProductSplit(axes, j);
    ProductPositive(axes[j + 1..]);
    Grows(Product(axes[..j]), |axes[j].values|, Product(axes[j + 1..]));
  }

  lemma Grows(a: nat, b: nat, c: nat)
    requires c >= 1
    ensures a * b <= a * (b * c)
  {
    Scale(1, c, a * b);
    assert a * (b * c) == c * (a * b);
  }

  /** Dividing the limit first decides the same as multiplying, without exceeding the limit. */
  lemma GuardIs(count: nat, n: nat, limit: nat)
    requires count >= 1
    ensures n > limit / count <==> count * n > limit
  {
    DivisionIs(limit, count);
    if n > limit / count {
      Scale(limit / count + 1, n, count);
    } else {
      Scale(n, limit / count, count);
    }
  }

  method WithinLimit(axes: seq<Axis>, maxIterations: nat) returns (ok: bool)
    requires NoneEmpty(axes) && maxIterations >= 1
    ensures ok <==> Product(axes) <= maxIterations
  {
    var count := 1;
    for j := 0 to |axes|
      invariant 1 <= count <= maxIterations && count == Product(axes[..j])
    {
      PrefixProduct(axes, j);
      GuardIs(count, |axes[j].values|, maxIterations);
      if |axes[j].values| > maxIterations / count {
        return false;
      }
      ProductPositive(axes[..j + 1]);
      count := count * |axes[j].values|;
    }
    assert axes[..|axes|] == axes;
    return true;
  }

  method CheckAxes(axes: seq<Axis>) returns (fault: Expansion, empty: bool)
    ensures fault.Expanded? <==> Named(axes) && DistinctNames(axes)
    ensures fault.Rejected? ==> fault.reason in {UnnamedAxis, DuplicateAxis}
    ensures fault.Rejected? ==> exists j :: BadAxis(axes, j, fault.reason)
    ensures fault.Expanded? ==> (empty <==> !NoneEmpty(axes))
  {
    var seen: set<string> := {};
    empty := false;
    for j := 0 to |axes|
      invariant Named(axes[..j]) && DistinctNames(axes[..j])
      invariant forall name :: name in seen <==> exists i :: 0 <= i < j && axes[i].name == name
      invariant empty <==> !NoneEmpty(axes[..j])
    {
      assert forall i :: 0 <= i < j ==> axes[i] == axes[..j][i];
      if axes[j].name == "" {
        assert BadAxis(axes, j, UnnamedAxis);
        return Rejected(UnnamedAxis), empty;
      }
      if |axes[j].values| == 0 {
        empty := true;
      }
      assert axes[..j + 1][j] == axes[j];
      if axes[j].name in seen {
        var i :| 0 <= i < j && axes[i].name == axes[j].name;
        assert BadAxis(axes, j, DuplicateAxis);
        return Rejected(DuplicateAxis), empty;
      }
      seen := seen + {axes[j].name};
      assert !empty ==> forall i :: 0 <= i < j ==> axes[i] == axes[..j][i];
    }
    assert axes[..|axes|] == axes;
    fault := Expanded([]);
  }

  lemma {:induction false} EmptyProduct(axes: seq<Axis>)
    requires !NoneEmpty(axes)
    ensures Product(axes) == 0
  {
    var j :| 0 <= j < |axes| && axes[j].values == [];
    ProductSplit(axes, j);
  }

  /** The iterations are the combinations in the order of the recursion. */
  predicate Enumerates(axes: seq<Axis>, iterations: seq<Iteration>) {
    iterations == Numbered(Table(axes, map[]), 0)
  }

  method MatrixContext(axes: seq<Axis>, maxIterations: int) returns (r: Expansion)
    ensures r == Rejected(BadLimit) <==> !(1 <= maxIterations <= 1_000_000)
    ensures r == Rejected(NoAxes) <==> 1 <= maxIterations <= 1_000_000 && axes == []
    ensures r.Rejected? && r.reason in {UnnamedAxis, DuplicateAxis} <==>
      1 <= maxIterations <= 1_000_000 && axes != [] && !(Named(axes) && DistinctNames(axes))
    ensures r.Rejected? && r.reason in {UnnamedAxis, DuplicateAxis} ==> exists j :: BadAxis(axes, j, r.reason)
    ensures r == Rejected(TooMany) <==>
      && 1 <= maxIterations <= 1_000_000 && axes != [] && Named(axes) && DistinctNames(axes)
      && Product(axes) > maxIterations
    ensures r.Expanded? ==> Enumerates(axes, r.iterations) && |r.iterations| == Product(axes)
  {
    if !LimitValid(maxIterations) {
      return Rejected(BadLimit);
    }
    if |axes| == 0 {
      return Rejected(NoAxes);
    }
    var fault, empty := CheckAxes(axes);
    if fault.Rejected? {
      return fault;
    }
    TableLength(axes, map[]);
    if empty {
      EmptyProduct(axes);
      return Expanded([]);
    }
    var within := WithinLimit(axes, maxIterations);
    if !within {
      return Rejected(TooMany);
    }
    var expander := new Expander();
    expander.Expand(axes, 0);
    assert axes[0..] == axes;
    return Expanded(expander.iterations);
  }

  /** Every choice of one value per axis is bound by exactly one iteration, the one its number names. */
  lemma EveryCombinationOnce(axes: seq<Axis>, iterations: seq<Iteration>, d: seq<nat>)
    requires NoneEmpty(axes) && DistinctNames(axes) && Enumerates(axes, iterations) && IsCombination(axes, d)
    ensures |iterations| == Product(axes)
    ensures var k := Number(axes, d);
      && k < |iterations|
      && iterations[k] == Iteration(k, Matrix(Bound(axes, d)))
      && forall i :: 0 <= i < |iterations| && Digits(axes, i) == d ==> i == k
  {
    DigitsOfNumber(axes, d);
    var k := Number(axes, d);
    TableAt(axes, map[], k);
    assert map[] + Bound(axes, d) == Bound(axes, d);
    forall i: nat | i < |iterations| && Digits(axes, i) == d
      ensures i == k
    {
      NumberOfDigits(axes, i);
    }
  }

  /** Iteration `k` binds axis `j` to value number `k` divided by the size of the later axes, modulo its
      own. */
  lemma MixedRadix(axes: seq<Axis>, iterations: seq<Iteration>, k: nat, j: nat)
    requires NoneEmpty(axes) && DistinctNames(axes) && Enumerates(axes, iterations)
    requires k < |iterations| && j < |axes|
    ensures |iterations| == Product(axes) && Product(axes[j + 1..]) >= 1
    ensures iterations[k].index == k && iterations[k].content.Matrix?
    ensures var binding := iterations[k].content.binding;
      axes[j].name in binding && binding[axes[j].name] == axes[j].values[(k / Product(axes[j +
          1..])) % |axes[j].values|]
  {
    TableLength(axes, map[]);
    TableAt(axes, map[], k);
    DigitAt(axes, k, j);
    BoundAt(axes, Digits(axes, k), j);
    assert map[] + Bound(axes, Digits(axes, k)) == Bound(axes, Digits(axes, k));
  }
}
