/** Managed resources: the scopes that hold their cleanups, and the order they are released in. */
module CleanupScopes {

  /** A resource's cleanup, and whether releasing it reports an error. */
  datatype Cleanup = Cleanup(resource: nat, fails: bool)

  function Reversed<T>(s: seq<T>): seq<T> {
    if s == [] then [] else Reversed(s[1..]) + [s[0]]
  }

  lemma {:induction false} ReversedJoin<T>(a: seq<T>, b: seq<T>)
    ensures Reversed(a + b) == Reversed(b) + Reversed(a)
  {
    if a == [] {
      assert a + b == b;
    } else {
      assert (a + b)[1..] == a[1..] + b;
      ReversedJoin(a[1..], b);
    }
  }

  lemma {:induction false} ReversedKeepsAll<T>(s: seq<T>)
    ensures multiset(Reversed(s)) == multiset(s)
  {
    if s != [] {
      ReversedKeepsAll(s[1..]);
      assert s == [s[0]] + s[1..];
    }
  }

  /** The cleanups whose release failed. */
  function Failing(cleanups: seq<Cleanup>): seq<Cleanup> {
    if cleanups == [] then []
    else (if cleanups[0].fails then [cleanups[0]] else []) + Failing(cleanups[1..])
  }

  lemma {:induction false} FailingJoin(a: seq<Cleanup>, b: seq<Cleanup>)
    ensures Failing(a + b) == Failing(a) + Failing(b)
  {
    if a == [] {
      assert a + b == b;
    } else {
      assert (a + b)[1..] == a[1..] + b;
      FailingJoin(a[1..], b);
    }
  }

  /** Everything released so far, in the order it was released. */
  class Releases {
    var released: seq<Cleanup>

    constructor ()
      ensures released == []
    {
      released := [];
    }
  }

  class CleanupScope {
    var cleanups: seq<Cleanup>

    constructor ()
      ensures cleanups == []
    {
      cleanups := [];
    }

    method Register(cleanup: Cleanup)
      modifies this
      ensures cleanups == old(cleanups) + [cleanup]
    {
      cleanups := cleanups + [cleanup];
    }

    /** Hands everything pending to another scope, in order; without one it would be lost. */
    method Adopt(target: CleanupScope?)
      modifies this, target
      ensures target == this ==> cleanups == old(cleanups)
      ensures target != this ==> cleanups == []
      ensures target != null && target != this ==> target.cleanups == old(target.cleanups) + old(cleanups)
    {
      var pending := cleanups;
      cleanups := [];
      if |pending| == 0 || target == null {
        return;
      }
      target.cleanups := target.cleanups + pending;
    }

    /** Releases everything pending, the latest first; a failure does not keep the rest from it. */
    method Run(world: Releases) returns (errors: seq<Cleanup>)
      modifies this, world
      ensures cleanups == []
      ensures world.released == old(world.released) + Reversed(old(cleanups))
      ensures errors == Failing(Reversed(old(cleanups)))
    {
      var pending := cleanups;
      cleanups := [];
      errors := [];
      var index := |pending|;
      while index > 0
        invariant 0 <= index <= |pending| && cleanups == []
        invariant world.released == old(world.released) + Reversed(pending[index..])
        invariant errors == Failing(Reversed(pending[index..]))
      {
        index := index - 1;
        assert pending[index..] == [pending[index]] + pending[index + 1..];
        FailingJoin(Reversed(pending[index + 1..]), [pending[index]]);
        world.released := world.released + [pending[index]];
        if pending[index].fails {
          errors := errors + [pending[index]];
        }
      }
      assert pending[0..] == pending;
    }
  }

  /** After adoption the combined scope releases the adopted cleanups first, then its own, each group
      the latest first. */
  method AdoptThenRun(scope: CleanupScope, target: CleanupScope, world: Releases) returns (errors: seq<Cleanup>)
    requires scope != target
    modifies scope, target, world
    ensures scope.cleanups == [] && target.cleanups == []
    ensures world.released == old(world.released) + Reversed(old(scope.cleanups)) + Reversed(old(target.cleanups))
  {
    ReversedJoin(target.cleanups, scope.cleanups);
    scope.Adopt(target);
    errors := target.Run(world);
  }
}
