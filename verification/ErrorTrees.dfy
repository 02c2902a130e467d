/** Errors as trees of wrapped and joined errors, and when one carries nothing but cancellation. */
module ErrorTrees {
  import opened Collections
  import Interpreter

  datatype Mark = BackgroundStopped | BackgroundEnded | ServiceAborted

  /** `Reporting` stands for an error that reports cancellation through a method of its own; numbers
      tell errors of the same text apart. */
  datatype Error =
    | Canceled
    | DeadlineExceeded
    | Sentinel(mark: Mark)
    | Reporting(number: nat)
    | Plain(number: nat)
    | Wrap(number: nat, inner: Error)
    | Joined(parts: seq<Error>)

  /** Some error in the tree is the target, or reports to be it. */
  predicate Is(err: Error, target: Error)
    decreases err
  {
    || err == target
    || match err
       case Wrap(_, inner) => Is(inner, target)
       case Joined(parts) => AnyIs(parts, target)
       case Reporting(_) => target == Canceled
       case _ => false
  }

  predicate AnyIs(errs: seq<Error>, target: Error)
    decreases errs
  {
    errs != [] && (Is(errs[0], target) || AnyIs(errs[1..], target))
  }

  predicate CancellationOnly(err: Error)
    decreases err
  {
    match err
    case Joined(parts) => parts != [] && AllCancellationOnly(parts)
    case Wrap(_, inner) => CancellationOnly(inner)
    case _ => Is(err, Canceled)
  }

  predicate AllCancellationOnly(errs: seq<Error>)
    decreases errs
  {
    errs == [] || (CancellationOnly(errs[0]) && AllCancellationOnly(errs[1..]))
  }

  /** The errors that wrap nothing; a join of nothing is one. */
  function Leaves(err: Error): (leaves: seq<Error>)
    ensures leaves != []
    decreases err
  {
    match err
    case Wrap(_, inner) => Leaves(inner)
    case Joined(parts) => if parts == [] then [err] else AllLeaves(parts)
    case _ => [err]
  }

  function AllLeaves(errs: seq<Error>): (leaves: seq<Error>)
    ensures errs != [] ==> leaves != []
    decreases errs
  {
    if errs == [] then [] else Leaves(errs[0]) + AllLeaves(errs[1..])
  }

  predicate CancellationLeaf(leaf: Error) {
    leaf.Canceled? || leaf.Reporting?
  }

  predicate AllCancellation(leaves: seq<Error>) {
    forall k :: 0 <= k < |leaves| ==> CancellationLeaf(leaves[k])
  }

  lemma AllCancellationJoin(a: seq<Error>, b: seq<Error>)
    ensures AllCancellation(a + b) <==> AllCancellation(a) && AllCancellation(b)
  {
    if AllCancellation(a + b) {
      assert forall k :: 0 <= k < |a| ==> a[k] == (a + b)[k];
      assert forall k :: 0 <= k < |b| ==> b[k] == (a + b)[|a| + k];
    }
  }

  /** An error is cancellation only when every single leaf is. */
  lemma {:induction false} CancellationOnlyByLeaves(err: Error)
    ensures CancellationOnly(err) <==> AllCancellation(Leaves(err))
    decreases err
  {
    match err
    case Wrap(_, inner) => CancellationOnlyByLeaves(inner);
    case Joined(parts) =>
      AllCancellationOnlyByLeaves(parts);
      assert parts == [] ==> Leaves(err)[0] == err;
    case _ => assert Leaves(err)[0] == err;
  }

  lemma {:induction false} AllCancellationOnlyByLeaves(errs: seq<Error>)
    ensures AllCancellationOnly(errs) <==> AllCancellation(AllLeaves(errs))
    decreases errs
  {
    if errs != [] {
      CancellationOnlyByLeaves(errs[0]);
      AllCancellationOnlyByLeaves(errs[1..]);
      AllCancellationJoin(Leaves(errs[0]), AllLeaves(errs[1..]));
    }
  }

  /** Cancellation never hides one of the engine's own marks. */
  lemma {:induction false} CancellationHidesNoMark(err: Error, mark: Mark)
    requires CancellationOnly(err)
    ensures !Is(err, Sentinel(mark))
    decreases err
  {
    match err
    case Wrap(_, inner) => CancellationHidesNoMark(inner, mark);
    case Joined(parts) => AllHideNoMark(parts, mark);
    case _ =>
  }

  lemma {:induction false} AllHideNoMark(errs: seq<Error>, mark: Mark)
    requires AllCancellationOnly(errs)
    ensures !AnyIs(errs, Sentinel(mark))
    decreases errs
  {
    if errs != [] {
      CancellationHidesNoMark(errs[0], mark);
      AllHideNoMark(errs[1..], mark);
    }
  }

  lemma {:induction false} AnyIsAt(errs: seq<Error>, target: Error, k: nat)
    requires k < |errs| && Is(errs[k], target)
    ensures AnyIs(errs, target)
  {
    if k > 0 {
      AnyIsAt(errs[1..], target, k - 1);
    }
  }

  // ---------------------------------------------------------------------------------------
  // Joining

  /** Joins what is not absent; absent when nothing is left. */
  function JoinAll(errs: seq<Error>): Option<Error> {
    if errs == [] then None else Some(Joined(errs))
  }

  function Present(err: Option<Error>): seq<Error> {
    if err.None? then [] else [err.value]
  }

  /** The foreground error of a scope with the error of its services. */
  function JoinBackground(main: Option<Error>, background: Option<Error>): Option<Error> {
    if main.Some? && CancellationOnly(main.value) && background.Some? &&
        !CancellationOnly(background.value) then background
    else JoinAll(Present(main) + Present(background))
  }

  function LeavesOf(err: Option<Error>): seq<Error> {
    if err.None? then [] else Leaves(err.value)
  }

  /** Every failure of either side survives, and the result is cancellation only when all of it is. */
  lemma JoinBackgroundKeepsFailures(main: Option<Error>, background: Option<Error>)
    ensures var all := JoinBackground(main, background);
      && (all.None? <==> main.None? && background.None?)
      && (forall leaf :: (leaf in LeavesOf(main) || leaf in LeavesOf(background)) && !CancellationLeaf(leaf) ==>
          leaf in LeavesOf(all))
      && (all.Some? ==> (CancellationOnly(all.value) <==>
            (main.Some? ==> CancellationOnly(main.value)) && (background.Some? ==> CancellationOnly(background.value))))
  {
    JoinLeaves(main, background);
    if main.Some? {
      CancellationOnlyByLeaves(main.value);
      if CancellationOnly(main.value) {
        forall leaf | leaf in Leaves(main.value)
          ensures CancellationLeaf(leaf)
        {
        }
      }
    }
    var all := JoinBackground(main, background);
    if all.Some? {
      CancellationOnlyByLeaves(all.value);
      AllCancellationJoin(LeavesOf(main), LeavesOf(background));
    }
    if background.Some? {
      CancellationOnlyByLeaves(background.value);
    }
  }

  lemma {:induction false} AllLeavesJoin(a: seq<Error>, b: seq<Error>)
    ensures AllLeaves(a + b) == AllLeaves(a) + AllLeaves(b)
  {
    if a == [] {
      assert a + b == b;
    } else {
      assert (a + b)[1..] == a[1..] + b;
      AllLeavesJoin(a[1..], b);
    }
  }

  lemma PresentLeaves(err: Option<Error>)
    ensures AllLeaves(Present(err)) == LeavesOf(err)
  {
    if err.Some? {
      assert [err.value][1..] == [];
      assert Leaves(err.value) + [] == Leaves(err.value);
    }
  }

  lemma JoinLeaves(main: Option<Error>, background: Option<Error>)
    ensures LeavesOf(JoinAll(Present(main) + Present(background))) == LeavesOf(main) + LeavesOf(background)
  {
    AllLeavesJoin(Present(main), Present(background));
    PresentLeaves(main);
    PresentLeaves(background);
  }

  /** An error is a mark, a plain error or a deadline exactly if that is one of its leaves, and a cancellation if
      one of its leaves is or reports one. */
  lemma {:induction false} IsByLeaves(err: Error, target: Error)
    requires target.Sentinel? || target.Plain? || target.DeadlineExceeded? || target.Canceled?
    ensures Is(err, target) <==>
      target in Leaves(err) || (target.Canceled? && exists k :: 0 <= k < |Leaves(err)| && Leaves(err)[k].Reporting?)
    decreases err
  {
    match err
    case Wrap(_, inner) => IsByLeaves(inner, target);
    case Joined(parts) => AnyIsByLeaves(parts, target);
    case _ => assert Leaves(err)[0] == err;
  }

  lemma {:induction false} AnyIsByLeaves(errs: seq<Error>, target: Error)
    requires target.Sentinel? || target.Plain? || target.DeadlineExceeded? || target.Canceled?
    ensures AnyIs(errs, target) <==>
      target in AllLeaves(errs) ||
      (target.Canceled? && exists k :: 0 <= k < |AllLeaves(errs)| && AllLeaves(errs)[k].Reporting?)
    decreases errs
  {
    if errs != [] {
      IsByLeaves(errs[0], target);
      AnyIsByLeaves(errs[1..], target);
      var a, b := Leaves(errs[0]), AllLeaves(errs[1..]);
      assert AllLeaves(errs) == a + b;
      assert forall k :: 0 <= k < |b| ==> (a + b)[|a| + k] == b[k];
      assert forall k :: 0 <= k < |a| ==> (a + b)[k] == a[k];
    }
  }

  /** A failure is in the result as often as in the two sides together. */
  lemma JoinBackgroundCounts(main: Option<Error>, background: Option<Error>, leaf: Error)
    requires !CancellationLeaf(leaf)
    ensures multiset(LeavesOf(JoinBackground(main, background)))[leaf] ==
      multiset(LeavesOf(main))[leaf] + multiset(LeavesOf(background))[leaf]
  {
    JoinLeaves(main, background);
    if main.Some? && CancellationOnly(main.value) {
      CancellationOnlyByLeaves(main.value);
      assert leaf !in Leaves(main.value);
    }
  }

  /** An error carries all leaves of an error it is. */
  lemma {:induction false} IsHasLeaves(err: Error, target: Error, leaf: Error)
    requires Is(err, target) && leaf in Leaves(target) && !CancellationLeaf(leaf)
    ensures leaf in Leaves(err)
    decreases err
  {
    if err != target {
      match err
      case Wrap(_, inner) => IsHasLeaves(inner, target, leaf);
      case Joined(parts) => AnyIsHasLeaves(parts, target, leaf);
      case _ =>
    }
  }

  lemma {:induction false} AnyIsHasLeaves(errs: seq<Error>, target: Error, leaf: Error)
    requires AnyIs(errs, target) && leaf in Leaves(target) && !CancellationLeaf(leaf)
    ensures leaf in AllLeaves(errs)
    decreases errs
  {
    if Is(errs[0], target) {
      IsHasLeaves(errs[0], target, leaf);
    } else {
      AnyIsHasLeaves(errs[1..], target, leaf);
    }
  }

  // ---------------------------------------------------------------------------------------
  // What the interpreter keeps of an error

  predicate HasLeaf(leaves: seq<Error>, which: Error -> bool) {
    exists k :: 0 <= k < |leaves| && which(leaves[k])
  }

  function Summary(leaves: seq<Error>): Interpreter.Err {
    Interpreter.Err(HasLeaf(leaves, CancellationLeaf),
                    HasLeaf(leaves, (leaf: Error) => leaf == DeadlineExceeded),
                    HasLeaf(leaves, (leaf: Error) => !CancellationLeaf(leaf) && leaf != DeadlineExceeded))
  }

  function Abstract(err: Option<Error>): Interpreter.Err {
    Summary(LeavesOf(err))
  }

  lemma HasLeafJoin(a: seq<Error>, b: seq<Error>, which: Error -> bool)
    ensures HasLeaf(a + b, which) <==> HasLeaf(a, which) || HasLeaf(b, which)
  {
    if k :| 0 <= k < |a| && which(a[k]) {
      assert which((a + b)[k]);
    }
    if k :| 0 <= k < |b| && which(b[k]) {
      assert which((a + b)[|a| + k]);
    }
  }

  lemma SummaryJoin(a: seq<Error>, b: seq<Error>)
    ensures Summary(a + b) == Interpreter.Join(Summary(a), Summary(b))
  {
    HasLeafJoin(a, b, CancellationLeaf);
    HasLeafJoin(a, b, (leaf: Error) => leaf == DeadlineExceeded);
    HasLeafJoin(a, b, (leaf: Error) => !CancellationLeaf(leaf) && leaf != DeadlineExceeded);
  }

  lemma SummaryIsCancellation(err: Option<Error>)
    ensures Abstract(err) == Interpreter.OK <==> err.None?
    ensures Interpreter.CancellationOnly(Abstract(err)) <==> err.Some? && CancellationOnly(err.value)
  {
    if err.Some? {
      var leaves := Leaves(err.value);
      CancellationOnlyByLeaves(err.value);
      var other := (leaf: Error) => !CancellationLeaf(leaf) && leaf != DeadlineExceeded;
      assert CancellationLeaf(leaves[0]) || leaves[0] == DeadlineExceeded || other(leaves[0]);
      if !AllCancellation(leaves) {
        var k :| 0 <= k < |leaves| && !CancellationLeaf(leaves[k]);
        assert leaves[k] == DeadlineExceeded || other(leaves[k]);
      }
    }
  }

  /** The three flags the interpreter computes with are exact for joined scopes. */
  lemma JoinBackgroundAbstracts(main: Option<Error>, background: Option<Error>)
    ensures Abstract(JoinBackground(main, background)) ==
      Interpreter.JoinBackground(Abstract(main), Abstract(background))
  {
    SummaryIsCancellation(main);
    SummaryIsCancellation(background);
    JoinLeaves(main, background);
    SummaryJoin(LeavesOf(main), LeavesOf(background));
  }
}
