/** Expanding fan-out controls into iterations: batches, single items, and the Cartesian product of a
    matrix. */
module FanoutExpansion {

  const MAX_ITERATIONS := 1_000_000

  type Value = nat

  datatype Axis = Axis(name: string, values: seq<Value>)

  datatype Content = Batch(batch: nat, items: seq<Value>) | Item(position: nat,
                                                                 item: Value) | Matrix(binding: map<string, Value>)
  datatype Iteration = Iteration(index: nat, content: Content)

  datatype Reason = BadLimit | BadSize | TooMany | NoAxes | UnnamedAxis | DuplicateAxis
  datatype Expansion = Expanded(iterations: seq<Iteration>) | Rejected(reason: Reason)

  predicate LimitValid(maxIterations: int) {
    1 <= maxIterations <= MAX_ITERATIONS
  }

  /** `n` times `p`, by repeated addition. */
  function Times(n: nat, p: nat): nat {
    if n == 0 then 0 else Times(n - 1, p) + p
  }

  lemma {:induction false} TimesIs(n: nat, p: nat)
    ensures Times(n, p) == n * p
  {
    if n > 0 {
      TimesIs(n - 1, p);
      assert (n - 1) * p + p == n * p;
    }
  }

  lemma {:induction false} TimesGrows(a: nat, b: nat, p: nat)
    requires a <= b
    ensures Times(a, p) <= Times(b, p)
    decreases b
  {
    if a < b {
      TimesGrows(a, b - 1, p);
    }
  }

  // ---------------------------------------------------------------------------------------
  // Batches and items

  /** The items of the batches in order. */
  function Unbatched(iterations: seq<Iteration>): seq<Value> {
    if iterations == [] then []
    else
      var last := iterations[|iterations| - 1].content;
      Unbatched(iterations[..|iterations| - 1]) + if last.Batch? then last.items else []
  }

  /** Batches numbered in order, all full but perhaps the last, which is not empty. */
  predicate Batches(iterations: seq<Iteration>, size: nat) {
    forall k :: 0 <= k < |iterations| ==>
      && iterations[k].content.Batch?
      && iterations[k].index == k && iterations[k].content.batch == k
      && (if k + 1 < |iterations| then |iterations[k].content.items| == size
          else 1 <= |iterations[k].content.items| <= size)
  }

  function CeilingDivide(n: nat, size: nat): nat
    requires size >= 1
  {
    (n + size - 1) / size
  }

  lemma CeilingIs(n: nat, size: nat, count: nat)
    requires size >= 1
    ensures n / size + (if n % size != 0 then 1 else 0) == CeilingDivide(n, size)
  {
    var q, r := n / size, n % size;
    assert n == q * size + r;
    if r == 0 {
      QuotientIs(n + size - 1, size, q, size - 1);
    } else {
      assert n + size - 1 == (q + 1) * size + (r - 1);
      QuotientIs(n + size - 1, size, q + 1, r - 1);
    }
  }

  lemma Scale(a: nat, b: nat, p: nat)
    requires a <= b
    ensures a * p <= b * p
  {
    assert b * p == a * p + (b - a) * p;
  }

  lemma QuotientIs(n: nat, size: nat, q: nat, r: nat)
    requires r < size && n == q * size + r
    ensures n / size == q && n % size == r
  {
    var d := n / size;
    DivisionIs(n, size);
    if d < q {
      Scale(d + 1, q, size);
    } else if d > q {
      Scale(q + 1, d, size);
    }
  }

  lemma DivisionIs(n: nat, size: nat)
    requires size >= 1
    ensures n == (n / size) * size + n % size && n % size < size
  {
  }

  method Chunks(values: seq<Value>, size: nat) returns (iterations: seq<Iteration>)
    requires size >= 1
    ensures Batches(iterations, size)
    ensures Unbatched(iterations) == values
    ensures |iterations| == CeilingDivide(|values|, size)
  {
    iterations := [];
    var start := 0;
    while start < |values|
      invariant start == Times(|iterations|, size)
      invariant |iterations| > 0 ==> start - size < |values|
      invariant Batches(iterations, size)
      invariant start <= |values| ==> AllFull(iterations, size)
      invariant Unbatched(iterations) == values[..if start < |values| then start else |values|]
      decreases |values| - start
    {
      var end := if start + size < |values| then start + size else |values|;
      AppendBatch(iterations, size, values, start, end);
      iterations := iterations + [Iteration(|iterations|, Batch(|iterations|, values[start..end]))];
      start := start + size;
    }
    CountIsCeiling(|values|, size, |iterations|);
  }

  method BatchContext(values: seq<Value>, size: int, maxIterations: int) returns (r: Expansion)
    ensures r == Rejected(BadLimit) <==> !(1 <= maxIterations <= 1_000_000)
    ensures r == Rejected(BadSize) <==> 1 <= maxIterations <= 1_000_000 && size < 1
    ensures r == Rejected(TooMany) <==>
      1 <= maxIterations <= 1_000_000 && size >= 1 && CeilingDivide(|values|, size) > maxIterations
    ensures r.Rejected? ==> r.reason in {BadLimit, BadSize, TooMany}
    ensures r.Expanded? ==>
      && Batches(r.iterations, size)
      && Unbatched(r.iterations) == values
      && |r.iterations| == CeilingDivide(|values|, size)
  {
    if !LimitValid(maxIterations) {
      return Rejected(BadLimit);
    }
    if size < 1 {
      return Rejected(BadSize);
    }
    var count := |values| / size;
    if |values| % size != 0 {
      count := count + 1;
    }
    CeilingIs(|values|, size, count);
    if count > maxIterations {
      return Rejected(TooMany);
    }
    var iterations := Chunks(values, size);
    return Expanded(iterations);
  }

  predicate AllFull(iterations: seq<Iteration>, size: nat) {
    forall k :: 0 <= k < |iterations| ==> iterations[k].content.Batch? && |iterations[k].content.items| == size
  }

  lemma AppendBatch(iterations: seq<Iteration>, size: nat, values: seq<Value>, start: nat, end: nat)
    requires start < end <= |values| && end - start <= size
    requires Batches(iterations, size) && AllFull(iterations, size) && Unbatched(iterations) == values[..start]
    ensures var all := iterations + [Iteration(|iterations|, Batch(|iterations|, values[start..end]))];
      && Batches(all, size)
      && (end - start == size ==> AllFull(all, size))
      && Unbatched(all) == values[..end]
  {
    var all := iterations + [Iteration(|iterations|, Batch(|iterations|, values[start..end]))];
    assert all[..|all| - 1] == iterations;
    assert values[..end] == values[..start] + values[start..end];
  }

  lemma CountIsCeiling(n: nat, size: nat, count: nat)
    requires size >= 1 && Times(count, size) >= n && (count > 0 ==> Times(count, size) - size < n)
    ensures count == CeilingDivide(n, size)
  {
    TimesIs(count, size);
    var rest := n + size - 1 - count * size;
    QuotientIs(n + size - 1, size, count, rest);
  }

  method ForeachContext(values: seq<Value>, maxIterations: int) returns (r: Expansion)
    ensures r == Rejected(BadLimit) <==> !(1 <= maxIterations <= 1_000_000)
    ensures r == Rejected(TooMany) <==> 1 <= maxIterations <= 1_000_000 && |values| > maxIterations
    ensures r.Rejected? ==> r.reason in {BadLimit, TooMany}
    ensures r.Expanded? ==>
      |r.iterations| == |values| && forall k :: 0 <= k < |values| ==>
        r.iterations[k] == Iteration(k, Item(k, values[k]))
  {
    if !LimitValid(maxIterations) {
      return Rejected(BadLimit);
    }
    if |values| > maxIterations {
      return Rejected(TooMany);
    }
    var iterations: seq<Iteration> := [];
    for k := 0 to |values|
      invariant |iterations| == k && forall i :: 0 <= i < k ==> iterations[i] == Iteration(i, Item(i, values[i]))
    {
      iterations := iterations + [Iteration(k, Item(k, values[k]))];
    }
    return Expanded(iterations);
  }

  // ---------------------------------------------------------------------------------------
  // Mixed-radix numbers

  function Product(axes: seq<Axis>): nat {
    if axes == [] then 1 else Times(|axes[0].values|, Product(axes[1..]))
  }

  predicate NoneEmpty(axes: seq<Axis>) {
    forall j :: 0 <= j < |axes| ==> axes[j].values != []
  }

  lemma {:induction false} ProductPositive(axes: seq<Axis>)
    requires NoneEmpty(axes)
    ensures Product(axes) >= 1
  {
    if axes != [] {
      assert axes[0].values != [];
      ProductPositive(axes[1..]);
      TimesGrows(1, |axes[0].values|, Product(axes[1..]));
      assert Times(1, Product(axes[1..])) == Product(axes[1..]);
    }
  }

  /** Which value of each axis the combination of number `k` takes; the last axis changes fastest. */
  function Digits(axes: seq<Axis>, k: nat): (d: seq<nat>)
    requires NoneEmpty(axes) && k < Product(axes)
    ensures |d| == |axes| && forall j :: 0 <= j < |axes| ==> d[j] < |axes[j].values|
  {
    if axes == [] then []
    else
      ProductPositive(axes[1..]);
      DigitBound(k, |axes[0].values|, Product(axes[1..]));
      [k / Product(axes[1..])] + Digits(axes[1..], k % Product(axes[1..]))
  }

  lemma DigitBound(k: nat, n: nat, p: nat)
    requires p >= 1 && k < Times(n, p)
    ensures k / p < n
  {
    TimesIs(n, p);
    DivisionIs(k, p);
    if k / p >= n {
      Scale(n, k / p, p);
    }
  }

  predicate IsCombination(axes: seq<Axis>, d: seq<nat>) {
    |d| == |axes| && forall j :: 0 <= j < |axes| ==> d[j] < |axes[j].values|
  }

  function Number(axes: seq<Axis>, d: seq<nat>): (k: nat)
    requires IsCombination(axes, d)
    ensures k < Product(axes)
  {
    if axes == [] then 0
    else
      var rest := Number(axes[1..], d[1..]);
      TimesGrows(d[0] + 1, |axes[0].values|, Product(axes[1..]));
      Times(d[0], Product(axes[1..])) + rest
  }

  lemma Recompose(k: nat, p: nat)
    requires p >= 1
    ensures Times(k / p, p) + k % p == k
  {
    TimesIs(k / p, p);
    DivisionIs(k, p);
  }

  /** Numbers below the product and combinations correspond one to one. */
  lemma {:induction false} NumberOfDigits(axes: seq<Axis>, k: nat)
    requires NoneEmpty(axes) && k < Product(axes)
    ensures Number(axes, Digits(axes, k)) == k
  {
    if axes != [] {
      ProductPositive(axes[1..]);
      NumberOfDigits(axes[1..], k % Product(axes[1..]));
      Recompose(k, Product(axes[1..]));
      assert Digits(axes, k)[1..] == Digits(axes[1..], k % Product(axes[1..]));
    }
  }

  lemma {:induction false} DigitsOfNumber(axes: seq<Axis>, d: seq<nat>)
    requires NoneEmpty(axes) && IsCombination(axes, d)
    ensures Digits(axes, Number(axes, d)) == d
  {
    if axes != [] {
      ProductPositive(axes[1..]);
      var rest := Number(axes[1..], d[1..]);
      TimesIs(d[0], Product(axes[1..]));
      QuotientIs(Number(axes, d), Product(axes[1..]), d[0], rest);
      DigitsOfNumber(axes[1..], d[1..]);
      assert d == [d[0]] + d[1..];
    }
  }

  /** The digit on axis `j` is the number divided by the product of the later axes, modulo the axis. */
  lemma {:induction false} DigitAt(axes: seq<Axis>, k: nat, j: nat)
    requires NoneEmpty(axes) && k < Product(axes) && j < |axes|
    ensures Product(axes[j + 1..]) >= 1
    ensures Digits(axes, k)[j] == (k / Product(axes[j + 1..])) % |axes[j].values|
  {
    ProductPositive(axes[j + 1..]);
    var p := Product(axes[1..]);
    if j == 0 {
      DigitBound(k, |axes[0].values|, p);
      QuotientIs(k / p, |axes[0].values|, 0, k / p);
    } else {
      ProductPositive(axes[1..]);
      DigitAt(axes[1..], k % p, j - 1);
      assert axes[1..][j - 1 + 1..] == axes[j + 1..];
      ProductSplit(axes[1..], j - 1);
      ProductPositive(axes[1..][..j - 1]);
      ModThenDivide(k, Product(axes[j + 1..]), |axes[j].values|, Product(axes[1..][..j - 1]));
    }
  }

  lemma {:induction false} ProductSplit(axes: seq<Axis>, j: nat)
    requires j < |axes|
    ensures Product(axes) == Product(axes[..j]) * (|axes[j].values| * Product(axes[j + 1..]))
  {
    TimesIs(|axes[0].values|, Product(axes[1..]));
    if j == 0 {
      assert axes[..0] == [];
    } else {
      ProductSplit(axes[1..], j - 1);
      assert axes[1..][..j - 1] == axes[..j][1..] && axes[1..][j - 1 + 1..] == axes[j + 1..];
      TimesIs(|axes[0].values|, Product(axes[..j][1..]));
      Associates(|axes[0].values|, Product(axes[..j][1..]), |axes[j].values| * Product(axes[j + 1..]));
    }
  }

  lemma Associates(a: nat, b: nat, c: nat)
    ensures a * (b * c) == (a * b) * c
  {
  }

  lemma MultipleAdded(c: nat, n: nat, a: nat)
    requires n >= 1
    ensures (c * n + a) / n == c + a / n && (c * n + a) % n == a % n
  {
    DivisionIs(a, n);
    assert c * n + (a / n) * n == (c + a / n) * n;
    QuotientIs(c * n + a, n, c + a / n, a % n);
  }

  /** Reducing by a multiple of `n * p` first does not change the digit of weight `p`. */
  lemma ModThenDivide(k: nat, p: nat, n: nat, m: nat)
    requires p >= 1 && n >= 1 && m >= 1
    ensures m * (n * p) >= 1
    ensures ((k % (m * (n * p))) / p) % n == (k / p) % n
  {
    Scale(1, n, p);
    Scale(1, m, n * p);
    var whole := m * (n * p);
    var q, r := k / whole, k % whole;
    DivisionIs(k, whole);
    Regroup(q, m, n, p);
    MultipleAdded(q * m * n, p, r);
    MultipleAdded(q * m, n, r / p);
  }

  lemma Regroup(q: nat, m: nat, n: nat, p: nat)
    ensures q * (m * (n * p)) == q * m * n * p
  {
  }
}
