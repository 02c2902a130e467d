/** The pass loop of an attempt: what counts against its budget, and what becomes of the resources
    each pass creates. */
module AttemptLoop {
  import opened Collections
  import opened CleanupScopes
  import opened RunState

  datatype Until = Matched | Unmatched | UntilError
  datatype Retry = Again | Never | WhenError

  /** What one pass of the body does and meets. The fields after `failed` matter only when the loop
      comes to them. */
  datatype Pass = Pass(
    registered: seq<Cleanup>,  // resources the body registers
    after: View,               // the private state it leaves
    failed: bool,              // the body returned an error
    over: bool,                // the surrounding context ended during the body
    until: Until,              // the `until` condition over the private state
    overLater: bool,           // the context ended before the failure was judged
    retry: Retry,              // the `when` condition, or the default rule
    interrupted: bool)         // the wait before the next pass was cut short

  datatype Policy = Policy(maxAttempts: nat, hasUntil: bool)

  datatype Why = ContextOver | UntilFailed | ReleaseFailed | Exhausted | NotRetried | WaitInterrupted
  datatype AttemptOutcome = Succeeded(attempts: nat, polls: nat, result: View) | Failed(why: Why)

  datatype AttemptRecord = AttemptRecord(number: nat, failed: bool)

  predicate PassFailed(p: Pass) {
    p.failed || p.over
  }

  function FailedPasses(script: seq<Pass>): nat {
    if script == [] then 0
    else FailedPasses(script[..|script| - 1]) + if PassFailed(script[|script| - 1]) then 1 else 0
  }

  /** Everything the passes create, and everything that is released if each is discarded. */
  function Created(script: seq<Pass>): seq<Cleanup> {
    if script == [] then [] else Created(script[..|script| - 1]) + script[|script| - 1].registered
  }

  function Discarded(script: seq<Pass>): seq<Cleanup> {
    if script == [] then [] else Discarded(script[..|script| - 1]) + Reversed(script[|script| - 1].registered)
  }

  lemma {:induction false} DiscardedIsCreated(script: seq<Pass>)
    ensures multiset(Discarded(script)) == multiset(Created(script))
  {
    if script != [] {
      DiscardedIsCreated(script[..|script| - 1]);
      ReversedKeepsAll(script[|script| - 1].registered);
    }
  }

  predicate Wins(policy: Policy, p: Pass) {
    !PassFailed(p) && (policy.hasUntil ==> p.until == Matched)
  }

  /** The pass does not win, and nothing it meets ends the attempt but the failure budget. */
  predicate GoesOn(policy: Policy, p: Pass) {
    && !Wins(policy, p)
    && !p.interrupted
    && (PassFailed(p) ==> !p.over && !p.overLater && p.retry == Again)
    && (!PassFailed(p) ==> p.until == Unmatched && Failing(Reversed(p.registered)) == [])
  }

  /** The attempt ends with the last of these passes. */
  predicate Ends(policy: Policy, made: seq<Pass>)
    requires made != []
  {
    var p := made[|made| - 1];
    !GoesOn(policy, p) || (PassFailed(p) && FailedPasses(made) == policy.maxAttempts)
  }

  /** None of these passes ends the attempt, so that another follows. */
  predicate Continuing(policy: Policy, made: seq<Pass>) {
    made == [] || (Continuing(policy, made[..|made| - 1]) && !Ends(policy, made))
  }

  /** One pass of the body, in a private state and a scope of its own. */
  method RunBody(p: Pass, private: State, scope: CleanupScope)
    modifies private, scope
    ensures private.Current() == p.after
    ensures scope.cleanups == old(scope.cleanups) + p.registered
  {
    for k := 0 to |p.registered|
      invariant scope.cleanups == old(scope.cleanups) + p.registered[..k]
    {
      scope.Register(p.registered[k]);
    }
    assert p.registered[..|p.registered|] == p.registered;
    private.steps, private.vars, private.checks := p.after.steps, p.after.vars, p.after.checks;
    private.checkWrites, private.written := p.after.checkWrites, p.after.written;
  }

  /** A pass that succeeded short of readiness: it spends no part of the failure budget. */
  predicate Poll(policy: Policy, p: Pass) {
    !PassFailed(p) && policy.hasUntil && p.until == Unmatched && Failing(Reversed(p.registered)) == []
  }

  /** Why one pass ends the attempt, or that it does not, from what the pass met: `last` if the failure budget
      ends with it. */
  predicate Judged(policy: Policy, p: Pass, last: bool, end: Option<AttemptOutcome>) {
    var fails, ready := p.failed || p.over, policy.hasUntil ==> p.until == Matched;
    var clean := forall k :: 0 <= k < |p.registered| ==> !p.registered[k].fails;
    && (end == Some(Failed(ContextOver)) <==> fails && (p.over || p.overLater))
    && (end == Some(Failed(Exhausted)) <==> fails && !p.over && !p.overLater && last)
    && (end == Some(Failed(NotRetried)) <==> fails && !p.over && !p.overLater && !last && p.retry != Again)
    && (end == Some(Failed(UntilFailed)) <==> !fails && policy.hasUntil && p.until == UntilError)
    && (end == Some(Failed(ReleaseFailed)) <==> !fails && policy.hasUntil && p.until == Unmatched && !clean)
    && (end == Some(Failed(WaitInterrupted)) <==>
          && p.interrupted
          && if fails then !p.over && !p.overLater && !last && p.retry == Again
             else policy.hasUntil && p.until == Unmatched && clean)
    && (end.Some? && end.value.Succeeded? <==> !fails && ready)
    && (end.Some? && end.value.Succeeded? ==> end.value.result == p.after)
  }

  lemma {:induction false} NoneFailing(cleanups: seq<Cleanup>)
    ensures Failing(cleanups) == [] <==> forall k :: 0 <= k < |cleanups| ==> !cleanups[k].fails
  {
    if cleanups != [] {
      NoneFailing(cleanups[1..]);
      assert forall k :: 0 < k < |cleanups| ==> cleanups[k] == cleanups[1..][k - 1];
    }
  }

  lemma CleanWhenReleased(p: Pass)
    ensures Failing(Reversed(p.registered)) == [] <==>
      forall k :: 0 <= k < |p.registered| ==> !p.registered[k].fails
  {
    NoneFailing(Reversed(p.registered));
    ReversedKeepsAll(p.registered);
    var back := Reversed(p.registered);
    forall k | 0 <= k < |back|
      ensures back[k] in p.registered
    {
      assert back[k] in multiset(back);
    }
    forall k | 0 <= k < |p.registered|
      ensures p.registered[k] in back
    {
      assert p.registered[k] in multiset(p.registered);
    }
  }

  /** One pass and its judgement: `end` is absent when another pass follows. A pass that does not win
      releases its own resources, the latest first; the winning one hands them to the scope outside. */
  method ExecutePass(policy: Policy, p: Pass, attempt: nat, polls: nat, state: State, parent: CleanupScope,
                     world: Releases)
    returns (end: Option<AttemptOutcome>, added: seq<AttemptRecord>, morePolls: nat)
    modifies parent, world
    ensures end.None? <==> GoesOn(policy, p) && !(PassFailed(p) && attempt == policy.maxAttempts)
    ensures morePolls == polls + if !PassFailed(p) && policy.hasUntil then 1 else 0
    ensures end.Some? && end.value.Succeeded? <==> Wins(policy, p)
    ensures Wins(policy, p) ==> end.value == Succeeded(attempt, morePolls, p.after)
    ensures end == Some(Failed(Exhausted)) <==>
      PassFailed(p) && !p.over && !p.overLater && attempt == policy.maxAttempts
    ensures end == Some(Failed(ContextOver)) <==> PassFailed(p) && (p.over || p.overLater)
    ensures Judged(policy, p, attempt == policy.maxAttempts, end)
    ensures added == [] <==>
      && !p.failed && !p.over && policy.hasUntil && p.until == Unmatched
      && forall k :: 0 <= k < |p.registered| ==> !p.registered[k].fails
    ensures added == if Poll(policy, p) then [] else [AttemptRecord(attempt, PassFailed(p))]
    ensures world.released == old(world.released) + if Wins(policy, p) then [] else Reversed(p.registered)
    ensures parent.cleanups == old(parent.cleanups) + if Wins(policy, p) then p.registered else []
  {
    CleanWhenReleased(p);
    var scope := new CleanupScope();
    var private := new State.Clone(state.Current());
    private.written := Some({});
    RunBody(p, private, scope);
    assert scope.cleanups == p.registered;
    added, morePolls := [AttemptRecord(attempt, p.failed || p.over)], polls;
    if p.failed || p.over {
      var _ := scope.Run(world);
    } else {
      if !policy.hasUntil {
        scope.Adopt(parent);
        return Some(Succeeded(attempt, polls, private.Current())), added, polls;
      }
      morePolls := polls + 1;
      if p.until == UntilError {
        var _ := scope.Run(world);
        return Some(Failed(UntilFailed)), added, morePolls;
      }
      if p.until == Matched {
        scope.Adopt(parent);
        return Some(Succeeded(attempt, morePolls, private.Current())), added, morePolls;
      }
      var released := scope.Run(world);
      if released != [] {
        return Some(Failed(ReleaseFailed)), added, morePolls;
      }
      return if p.interrupted then Some(Failed(WaitInterrupted)) else None, [], morePolls;
    }
    if p.over || p.overLater {
      end := Some(Failed(ContextOver));
    } else if attempt == policy.maxAttempts {
      end := Some(Failed(Exhausted));
    } else if p.retry != Again {
      end := Some(Failed(NotRetried));
    } else {
      end := if p.interrupted then Some(Failed(WaitInterrupted)) else None;
    }
  }

  /** Attempts and polls against the passes made. */
  predicate Counted(policy: Policy, made: seq<Pass>, records: seq<AttemptRecord>, polls: nat) {
    && (forall k :: 0 <= k < |records| ==> records[k].number == k + 1)
    && FailedPasses(made) <= policy.maxAttempts
    && polls == if policy.hasUntil then |made| - FailedPasses(made) else 0
  }

  /** A failure that is judged while the context lasts. */
  predicate SpendsAttempt(p: Pass) {
    PassFailed(p) && !p.over && !p.overLater
  }

  predicate Accounts(policy: Policy, made: seq<Pass>, outcome: AttemptOutcome, records: seq<AttemptRecord>,
                     polls: nat) {
    && Counted(policy, made, records, polls)
    && (outcome == Failed(Exhausted) <==>
          made != [] && SpendsAttempt(made[|made| - 1]) && FailedPasses(made) == policy.maxAttempts)
    && (outcome.Succeeded? ==>
          && outcome.attempts == |records| && outcome.polls == polls
          && |made| == if policy.hasUntil then outcome.attempts - 1 + polls else outcome.attempts)
  }

  /** What it takes for a pass to be followed by another, in the terms of the pass. */
  predicate Repeats(policy: Policy, p: Pass, last: bool) {
    && !p.interrupted
    && if p.failed || p.over then !p.over && !p.overLater && !last && p.retry == Again
       else policy.hasUntil && p.until == Unmatched && forall k :: 0 <= k < |p.registered| ==> !p.registered[k].fails
  }

  function Spent(made: seq<Pass>, n: nat): nat
    requires n <= |made|
  {
    if n == 0 then 0 else Spent(made, n - 1) + if made[n - 1].failed || made[n - 1].over then 1 else 0
  }

  lemma {:induction false} SpentSame(made: seq<Pass>, all: seq<Pass>, n: nat)
    requires n <= |made| <= |all| && all[..|made|] == made
    ensures Spent(made, n) == Spent(all, n) == FailedPasses(all[..n])
  {
    if n > 0 {
      assert made[n - 1] == all[..|made|][n - 1] == all[n - 1];
      assert all[..n][..n - 1] == all[..n - 1];
      SpentSame(made, all, n - 1);
    }
  }

  /** Of the passes of an attempt every one but the last repeats: it succeeded short of readiness, or it failed,
      is to be retried, and did not spend the last of the budget. */
  lemma {:induction false} ContinuingRepeats(policy: Policy, made: seq<Pass>)
    ensures Continuing(policy, made) <==>
      forall k :: 0 <= k < |made| ==> Repeats(policy, made[k], Spent(made, k + 1) == policy.maxAttempts)
    decreases |made|
  {
    if made != [] {
      var n := |made| - 1;
      var front := made[..n];
      ContinuingRepeats(policy, front);
      forall k | 0 <= k <= n
        ensures k < n ==> Spent(front, k + 1) == Spent(made, k + 1) && front[k] == made[k]
      {
        if k < n {
          SpentSame(front, made, k + 1);
        }
      }
      assert made[..n + 1] == made;
      SpentSame(made, made, n + 1);
      CleanWhenReleased(made[n]);
    }
  }

  /** Every pass made but the last goes on to another; the outcome is that of the last. */
  predicate Made(policy: Policy, made: seq<Pass>, outcome: AttemptOutcome) {
    && (made != [] ==> Continuing(policy, made[..|made| - 1]))
    && (outcome.Succeeded? <==> made != [] && Wins(policy, made[|made| - 1]))
    && (outcome.Succeeded? ==> outcome.result == made[|made| - 1].after)
    && (made != [] && Ends(policy, made) ==>
          Judged(policy, made[|made| - 1], FailedPasses(made) == policy.maxAttempts, Some(outcome)))
  }

  /** Resources released and resources pending outside, before and after. A discarded pass releases its
      own before the next one starts; only the winning pass hands its resources on. */
  predicate Settled(made: seq<Pass>, outcome: AttemptOutcome, released0: seq<Cleanup>, released: seq<Cleanup>,
                    pending0: seq<Cleanup>, pending: seq<Cleanup>) {
    if outcome.Succeeded? && made != [] then
      && released == released0 + Discarded(made[..|made| - 1])
      && pending == pending0 + made[|made| - 1].registered
    else
      && released == released0 + Discarded(made)
      && pending == pending0
  }

  lemma DiscardedMore(made: seq<Pass>, p: Pass)
    ensures Discarded(made + [p]) == Discarded(made) + Reversed(p.registered)
    ensures (made + [p])[..|made|] == made
  {
    assert (made + [p])[..|made|] == made;
  }

  /** Nothing is lost and nothing is released twice. */
  lemma SettledConserves(made: seq<Pass>, outcome: AttemptOutcome, released0: seq<Cleanup>, released: seq<Cleanup>,
                         pending0: seq<Cleanup>, pending: seq<Cleanup>)
    requires Settled(made, outcome, released0, released, pending0, pending)
    ensures multiset(released) + multiset(pending) == multiset(released0) + multiset(pending0) + multiset(Created(made))
  {
    DiscardedIsCreated(made);
    if outcome.Succeeded? && made != [] {
      DiscardedIsCreated(made[..|made| - 1]);
    }
  }

  /** The passes so far, none of which ended the attempt. */
  ghost predicate Underway(policy: Policy, made: seq<Pass>, attempt: nat, records: seq<AttemptRecord>, polls: nat) {
    && attempt == 1 + FailedPasses(made) <= policy.maxAttempts
    && |records| == attempt - 1
    && Counted(policy, made, records, polls)
    && (!policy.hasUntil ==> |made| == FailedPasses(made))
    && Continuing(policy, made)
  }

  lemma UnderwayMore(policy: Policy, made: seq<Pass>, p: Pass, attempt: nat, records: seq<AttemptRecord>, polls: nat)
    requires Underway(policy, made, attempt, records, polls)
    requires GoesOn(policy, p) && !(PassFailed(p) && attempt == policy.maxAttempts)
    ensures Underway(policy, made + [p], if PassFailed(p) then attempt + 1 else attempt,
                     records + if Poll(policy, p) then [] else [AttemptRecord(attempt, PassFailed(p))],
                     polls + if !PassFailed(p) && policy.hasUntil then 1 else 0)
  {
    var all := made + [p];
    assert all[..|all| - 1] == made;
  }

  lemma UnderwayEnds(policy: Policy, made: seq<Pass>, p: Pass, attempt: nat, records: seq<AttemptRecord>, polls: nat,
                     outcome: AttemptOutcome)
    requires Underway(policy, made, attempt, records, polls)
    requires !GoesOn(policy, p) || (PassFailed(p) && attempt == policy.maxAttempts)
    requires outcome.Succeeded? <==> Wins(policy, p)
    requires Wins(policy, p) ==> outcome == Succeeded(attempt, polls + if policy.hasUntil then 1 else 0, p.after)
    requires Judged(policy, p, attempt == policy.maxAttempts, Some(outcome))
    requires outcome == Failed(Exhausted) <==> SpendsAttempt(p) && attempt == policy.maxAttempts
    ensures var all := made + [p];
      && Ends(policy, all)
      && Made(policy, all, outcome)
      && Accounts(policy, all, outcome,
                  records + if Poll(policy, p) then [] else [AttemptRecord(attempt, PassFailed(p))],
                  polls + if !PassFailed(p) && policy.hasUntil then 1 else 0)
  {
    var all := made + [p];
    assert all[..|all| - 1] == made;
  }

  /** The pass that follows those made, with everything it changes. */
  method ExecuteNext(policy: Policy, ghost made: seq<Pass>, p: Pass, attempt: nat, records: seq<AttemptRecord>,
                     polls: nat,
                     state: State, parent: CleanupScope, world: Releases)
    returns (end: Option<AttemptOutcome>, allRecords: seq<AttemptRecord>, allPolls: nat, next: nat)
    requires Underway(policy, made, attempt, records, polls)
    modifies parent, world
    ensures end.None? ==> Underway(policy, made + [p], next, allRecords, allPolls)
    ensures end.Some? ==>
      Ends(policy, made + [p]) && Made(policy, made + [p], end.value) &&
      Accounts(policy, made + [p], end.value, allRecords, allPolls)
    ensures Follows(p, end, old(world.released), world.released, old(parent.cleanups), parent.cleanups)
  {
    var added, morePolls;
    end, added, morePolls := ExecutePass(policy, p, attempt, polls, state, parent, world);
    allRecords, allPolls, next := records + added, morePolls, if PassFailed(p) then attempt + 1 else attempt;
    if end.Some? {
      UnderwayEnds(policy, made, p, attempt, records, polls, end.value);
    } else {
      UnderwayMore(policy, made, p, attempt, records, polls);
    }
  }

  predicate Follows(p: Pass, end: Option<AttemptOutcome>, released0: seq<Cleanup>, released: seq<Cleanup>,
                    pending0: seq<Cleanup>, pending: seq<Cleanup>) {
    if end.Some? && end.value.Succeeded? then released == released0 && pending == pending0 + p.registered
    else released == released0 + Reversed(p.registered) && pending == pending0
  }

  /** Released and pending after the passes made so far, and after one more. */
  lemma FollowsSettles(made: seq<Pass>, p: Pass, end: Option<AttemptOutcome>, released0: seq<Cleanup>,
                       released1: seq<Cleanup>,
                       released: seq<Cleanup>, pending0: seq<Cleanup>, pending: seq<Cleanup>)
    requires AllDiscarded(made, released0, released1, pending0, pending0)
    requires Follows(p, end, released1, released, pending0, pending)
    ensures end.Some? ==> Settled(made + [p], end.value, released0, released, pending0, pending)
    ensures end.None? ==> AllDiscarded(made + [p], released0, released, pending0, pending)
  {
    DiscardedMore(made, p);
    assert (made + [p])[|made|] == p;
  }

  /** The passes made are `script[..passes]`; running out of the script stands for a context that is
      over before the next pass starts. */
  method ExecuteAttempt(policy: Policy, script: seq<Pass>, state: State, parent: CleanupScope, world: Releases)
    returns (outcome: AttemptOutcome, records: seq<AttemptRecord>, polls: nat, passes: nat)
    requires policy.maxAttempts >= 1
    modifies parent, world
    ensures passes <= |script|
    ensures Made(policy, script[..passes], outcome)
    ensures (passes > 0 && Ends(policy, script[..passes])) || (passes == |script| && outcome == Failed(ContextOver))
    ensures Accounts(policy, script[..passes], outcome, records, polls)
    ensures Settled(script[..passes], outcome, old(world.released), world.released, old(parent.cleanups),
                    parent.cleanups)
  {
    var attempt := 1;
    records, polls, passes := [], 0, 0;
    ghost var made: seq<Pass> := [];
    ghost var released0, pending0 := world.released, parent.cleanups;
    NothingMade(policy, released0, pending0);
    while passes < |script|
      invariant passes <= |script| && made == script[..passes]
      invariant Underway(policy, made, attempt, records, polls)
      invariant AllDiscarded(made, released0, world.released, pending0, parent.cleanups)
    {
      ghost var p, released1 := script[passes], world.released;
      var end;
      end, records, polls, attempt := ExecuteNext(policy, made, script[passes], attempt, records, polls, state,
                                                  parent, world);
      FollowsSettles(made, p, end, released0, released1, world.released, pending0, parent.cleanups);
      made, passes := made + [p], passes + 1;
      assert made == script[..passes];
      if end.Some? {
        return end.value, records, polls, passes;
      }
    }
    RunsOut(policy, made, attempt, records, polls, released0, world.released, pending0, parent.cleanups);
    outcome := Failed(ContextOver);
  }

  /** Released and pending while every pass so far was discarded. */
  predicate AllDiscarded(made: seq<Pass>, released0: seq<Cleanup>, released: seq<Cleanup>, pending0: seq<Cleanup>,
                         pending: seq<Cleanup>) {
    released == released0 + Discarded(made) && pending == pending0
  }

  lemma NothingMade(policy: Policy, released: seq<Cleanup>, pending: seq<Cleanup>)
    requires policy.maxAttempts >= 1
    ensures Underway(policy, [], 1, [], 0) && AllDiscarded([], released, released, pending, pending)
  {
  }

  lemma RunsOut(policy: Policy, made: seq<Pass>, attempt: nat, records: seq<AttemptRecord>, polls: nat,
                released0: seq<Cleanup>, released: seq<Cleanup>, pending0: seq<Cleanup>, pending: seq<Cleanup>)
    requires Underway(policy, made, attempt, records, polls)
    requires AllDiscarded(made, released0, released, pending0, pending)
    ensures Made(policy, made, Failed(ContextOver)) && Accounts(policy, made, Failed(ContextOver), records, polls)
    ensures Settled(made, Failed(ContextOver), released0, released, pending0, pending)
  {
    if made != [] {
      var p := made[|made| - 1];
      assert !Ends(policy, made) && Continuing(policy, made[..|made| - 1]);
      assert GoesOn(policy, p) && !Wins(policy, p);
    }
  }
}
