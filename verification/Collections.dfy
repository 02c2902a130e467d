/** Facts about sequences that several components share. */
module Collections {

  datatype Option<+T> = None | Some(value: T)

  ghost predicate Distinct<T>(s: seq<T>) {
    forall i, j :: 0 <= i < j < |s| ==> s[i] != s[j]
  }

  predicate Ascending(s: seq<nat>) {
    forall i, j :: 0 <= i < j < |s| ==> s[i] <= s[j]
  }

  /** The library sort used on the ready queue and on dependency lists. */
  function Sorted(s: seq<nat>): (r: seq<nat>)
    ensures Ascending(r)
    ensures multiset(r) == multiset(s)
  {
    if s == [] then []
    else
      assert s == [s[0]] + s[1..];
      InsertAdds(s[0], Sorted(s[1..]));
      InsertKeepsAscending(s[0], Sorted(s[1..]));
      Insert(s[0], Sorted(s[1..]))
  }

  function Insert(x: nat, s: seq<nat>): seq<nat> {
    if s == [] || x <= s[0] then [x] + s else [s[0]] + Insert(x, s[1..])
  }

  lemma {:induction false} InsertAdds(x: nat, s: seq<nat>)
    ensures multiset(Insert(x, s)) == multiset(s) + multiset{x}
  {
    if s != [] && s[0] < x {
      assert s == [s[0]] + s[1..];
      InsertAdds(x, s[1..]);
    }
  }

  lemma {:induction false} InsertKeepsAscending(x: nat, s: seq<nat>)
    requires Ascending(s)
    ensures Ascending(Insert(x, s))
  {
    if s != [] && s[0] < x {
      var rest := Insert(x, s[1..]);
      InsertKeepsAscending(x, s[1..]);
      InsertAdds(x, s[1..]);
      forall j | 0 <= j < |rest|
        ensures s[0] <= rest[j]
      {
        assert rest[j] in multiset(rest);
        assert rest[j] == x || rest[j] in multiset(s[1..]);
        assert rest[j] == x || rest[j] in s[1..];
      }
    }
  }

  lemma SameMembers<T>(a: seq<T>, b: seq<T>)
    requires multiset(a) == multiset(b)
    ensures |a| == |b|
    ensures forall x :: x in a <==> x in b
  {
    assert |multiset(a)| == |a|;
    assert forall x :: x in a <==> x in multiset(a);
    assert forall x :: x in b <==> x in multiset(b);
  }

  /** A sequence is free of repetitions exactly when its multiset is. */
  lemma {:induction false} DistinctByCount<T>(s: seq<T>)
    ensures Distinct(s) <==> forall x :: multiset(s)[x] <= 1
  {
    if s != [] {
      var rest := s[1..];
      assert s == [s[0]] + rest;
      DistinctByCount(rest);
      assert forall x :: multiset(s)[x] == multiset([s[0]])[x] + multiset(rest)[x];
      if Distinct(s) {
        assert Distinct(rest);
        assert s[0] !in rest;
        assert s[0] !in multiset(rest);
      } else {
        var i, j :| 0 <= i < j < |s| && s[i] == s[j];
        if i == 0 {
          assert s[0] == rest[j - 1];
          assert multiset(s)[s[0]] >= 2;
        } else {
          assert rest[i - 1] == rest[j - 1];
          assert !Distinct(rest);
        }
      }
    }
  }

  lemma DistinctJoin<T>(a: seq<T>, b: seq<T>)
    requires Distinct(a) && Distinct(b)
    requires forall x :: x in a ==> x !in b
    ensures Distinct(a + b)
  {
    forall i, j | 0 <= i < j < |a + b|
      ensures (a + b)[i] != (a + b)[j]
    {
      if i < |a| <= j {
        assert a[i] in a;
        assert b[j - |a|] in b;
      }
    }
  }

  lemma SortedKeepsDistinct(s: seq<nat>)
    requires Distinct(s)
    ensures Distinct(Sorted(s))
    ensures forall x :: x in Sorted(s) <==> x in s
  {
    DistinctByCount(s);
    DistinctByCount(Sorted(s));
    SameMembers(s, Sorted(s));
  }

  /** How many entries of `s` lie outside `done`; repeated entries count each time. */
  ghost function Outside(s: seq<nat>, done: set<nat>): nat {
    if s == [] then 0 else (if s[0] in done then 0 else 1) + Outside(s[1..], done)
  }

  lemma {:induction false} OutsideAdd(s: seq<nat>, done: set<nat>, x: nat)
    requires x !in done
    ensures Outside(s, done + {x}) == Outside(s, done) - multiset(s)[x]
  {
    if s != [] {
      assert s == [s[0]] + s[1..];
      OutsideAdd(s[1..], done, x);
    }
  }

  lemma {:induction false} OutsideZero(s: seq<nat>, done: set<nat>)
    ensures Outside(s, done) == 0 <==> forall x :: x in s ==> x in done
  {
    if s != [] {
      OutsideZero(s[1..], done);
      assert forall x :: x in s <==> x == s[0] || x in s[1..];
    }
  }

  lemma {:induction false} OutsideNone(s: seq<nat>)
    ensures Outside(s, {}) == |s|
  {
    if s != [] {
      OutsideNone(s[1..]);
    }
  }

  lemma {:induction false} OutsideAgree(s: seq<nat>, a: set<nat>, b: set<nat>)
    requires forall x :: x in s ==> (x in a <==> x in b)
    ensures Outside(s, a) == Outside(s, b)
  {
    if s != [] {
      OutsideAgree(s[1..], a, b);
    }
  }

  ghost function Elements<T>(s: seq<T>): set<T> {
    set x | x in s
  }

  lemma {:induction false} DistinctSize<T>(s: seq<T>)
    requires Distinct(s)
    ensures |Elements(s)| == |s|
  {
    if s != [] {
      DistinctSize(s[1..]);
      assert Elements(s) == Elements(s[1..]) + {s[0]};
    }
  }

  ghost function Below(n: nat): (s: set<nat>)
    ensures forall x: nat :: x in s <==> x < n
  {
    if n == 0 then {} else Below(n - 1) + {n - 1}
  }

  lemma {:induction false} BelowSize(n: nat)
    ensures |Below(n)| == n
  {
    if n > 0 {
      BelowSize(n - 1);
    }
  }

  lemma SubsetSize<T>(a: set<T>, b: set<T>)
    requires a <= b
    ensures |a| <= |b|
    ensures |a| == |b| ==> a == b
  {
    assert b == a + (b - a);
    assert |b| == |a| + |b - a|;
  }

  /** Distinct positions below `n` are all of them exactly when there are `n`. */
  lemma Pigeonhole(s: seq<nat>, n: nat)
    requires Distinct(s) && forall x :: x in s ==> x < n
    ensures |s| <= n
    ensures |s| == n <==> forall x :: 0 <= x < n ==> x in s
  {
    DistinctSize(s);
    BelowSize(n);
    assert forall x :: x in s <==> x in Elements(s);
    SubsetSize(Elements(s), Below(n));
    if forall x :: 0 <= x < n ==> x in s {
      assert Elements(s) == Below(n);
    }
    if |s| == n {
      assert forall x :: x in Below(n) <==> 0 <= x < n;
    }
  }
}
