/** Run statistics: counters kept up to date while steps are recorded, merged and rolled up. */
module RunStatistics {

  datatype Status = Succeeded | Failed | Skipped | Canceled | TimedOut

  datatype StepStats = StepStats(status: Status, attempts: seq<Status>, retryWait: nat, polls: nat, pollWait: nat)

  /** The counters: outcomes of steps, and what repeated work cost. */
  datatype Counter = OfStatus(status: Status) | Timeouts | Attempts | Retries | RetryWait | Polls | PollWait

  predicate IsCost(c: Counter) {
    !c.OfStatus?
  }

  function TimedOutAmong(attempts: seq<Status>): nat {
    if attempts == [] then 0 else (if attempts[0] == TimedOut then 1 else 0) + TimedOutAmong(attempts[1..])
  }

  /** What one step adds to a counter: a timed-out step with no timed-out attempt still counts as one,
      and timing out is failing. */
  function Share(s: StepStats, c: Counter): nat {
    match c
    case OfStatus(status) =>
      if status == TimedOut then 0
      else if s.status == status || (s.status == TimedOut && status == Failed) then 1 else 0
    case Timeouts => if s.status == TimedOut && TimedOutAmong(s.attempts) == 0 then 1 else TimedOutAmong(s.attempts)
    case Attempts => |s.attempts|
    case Retries => if |s.attempts| > 0 then |s.attempts| - 1 else 0
    case RetryWait => s.retryWait
    case Polls => s.polls
    case PollWait => s.pollWait
  }

  function Total(steps: seq<StepStats>, c: Counter): nat {
    if steps == [] then 0 else Share(steps[0], c) + Total(steps[1..], c)
  }

  lemma {:induction false} TotalJoin(a: seq<StepStats>, b: seq<StepStats>, c: Counter)
    ensures Total(a + b, c) == Total(a, c) + Total(b, c)
  {
    if a == [] {
      assert a + b == b;
    } else {
      assert (a + b)[1..] == a[1..] + b;
      TotalJoin(a[1..], b, c);
    }
  }

  /** Every recorded step is counted once, under one outcome. */
  lemma {:induction false} EveryStepCounted(steps: seq<StepStats>)
    ensures Total(steps, OfStatus(Succeeded)) + Total(steps, OfStatus(Failed)) +
            Total(steps, OfStatus(Skipped)) + Total(steps, OfStatus(Canceled)) == |steps|
  {
    if steps != [] {
      EveryStepCounted(steps[1..]);
    }
  }

  lemma {:induction false} TimedOutNext(attempts: seq<Status>, k: nat)
    requires k < |attempts|
    ensures TimedOutAmong(attempts[..k + 1]) == TimedOutAmong(attempts[..k]) + if attempts[k] == TimedOut then 1 else 0
  {
    if k == 0 {
      assert attempts[..1][1..] == [] && attempts[..0] == [];
    } else {
      assert attempts[..k + 1][1..] == attempts[1..][..k] && attempts[..k][1..] == attempts[1..][..k - 1];
      TimedOutNext(attempts[1..], k - 1);
    }
  }

  /** The attempts that timed out, or one for a step that timed out without any. */
  function TimeoutsOf(s: StepStats): nat {
    var among := |set k | 0 <= k < |s.attempts| && s.attempts[k] == TimedOut|;
    if among == 0 && s.status == TimedOut then 1 else among
  }

  lemma {:induction false} AmongIsCount(attempts: seq<Status>, n: nat)
    requires n <= |attempts|
    ensures |set k | 0 <= k < n && attempts[k] == TimedOut| == TimedOutAmong(attempts[..n])
  {
    var now := set k | 0 <= k < n && attempts[k] == TimedOut;
    if n == 0 {
      assert now == {};
    } else {
      AmongIsCount(attempts, n - 1);
      TimedOutNext(attempts, n - 1);
      var before := set k | 0 <= k < n - 1 && attempts[k] == TimedOut;
      if attempts[n - 1] == TimedOut {
        assert now == before + {n - 1};
      } else {
        assert now == before;
      }
    }
  }

  lemma TimeoutsAreShare(s: StepStats)
    ensures TimeoutsOf(s) == Share(s, Timeouts)
  {
    AmongIsCount(s.attempts, |s.attempts|);
    assert s.attempts[..|s.attempts|] == s.attempts;
  }

  method StepTimeoutCount(s: StepStats) returns (timedOut: nat)
    ensures timedOut == Share(s, Timeouts)
  {
    timedOut := 0;
    for k := 0 to |s.attempts|
      invariant timedOut == TimedOutAmong(s.attempts[..k])
    {
      TimedOutNext(s.attempts, k);
      if s.attempts[k] == TimedOut {
        timedOut := timedOut + 1;
      }
    }
    assert s.attempts[..|s.attempts|] == s.attempts;
    if s.status == TimedOut && timedOut == 0 {
      timedOut := 1;
    }
  }

  /** What an attempt adds to a counter, from its own share and that of its passes: of timeouts only the
      larger of the two. */
  function AttemptShare(own: nat, passes: nat, c: Counter): nat {
    if !IsCost(c) then own
    else if c != Timeouts then own + passes
    else if own < passes then passes else own
  }

  lemma MoreSteps(a: seq<StepStats>, b: seq<StepStats>)
    ensures forall c: Counter :: Total(a + b, c) == Total(a, c) + Total(b, c)
  {
    forall c: Counter
      ensures Total(a + b, c) == Total(a, c) + Total(b, c)
    {
      TotalJoin(a, b, c);
    }
  }

  lemma OneMore(steps: seq<StepStats>, s: StepStats)
    ensures forall c: Counter :: Total(steps + [s], c) == Total(steps, c) + Share(s, c)
  {
    MoreSteps(steps, [s]);
    assert [s][1..] == [];
    forall c: Counter
      ensures Total([s], c) == Share(s, c)
    {
      assert Total([s], c) == Share(s, c) + Total([s][1..], c);
    }
  }

  /** `nested` is what was rolled up from work whose steps are not listed here. */
  class RunStats {
    var steps: seq<StepStats>
    var succeeded: nat
    var failed: nat
    var skipped: nat
    var canceled: nat
    var timedOut: nat
    var attempts: nat
    var retries: nat
    var retryWait: nat
    var polls: nat
    var pollWait: nat
    ghost var nested: Counter -> nat

    function Value(c: Counter): nat
      reads this
    {
      match c
      case OfStatus(Succeeded) => succeeded
      case OfStatus(Failed) => failed
      case OfStatus(Skipped) => skipped
      case OfStatus(Canceled) => canceled
      case OfStatus(TimedOut) => 0
      case Timeouts => timedOut
      case Attempts => attempts
      case Retries => retries
      case RetryWait => retryWait
      case Polls => polls
      case PollWait => pollWait
    }

    /** Every counter is the total over the listed steps and, for costs, what was rolled up. */
    ghost predicate Valid()
      reads this
    {
      forall c: Counter :: Value(c) == Total(steps, c) + if IsCost(c) then nested(c) else 0
    }

    constructor ()
      ensures Valid() && steps == [] && forall c :: nested(c) == 0
    {
      steps := [];
      succeeded, failed, skipped, canceled := 0, 0, 0, 0;
      timedOut, attempts, retries, retryWait, polls, pollWait := 0, 0, 0, 0, 0, 0;
      nested := _ => 0;
    }

    method RecordStep(s: StepStats)
      requires Valid()
      modifies this
      ensures Valid() && steps == old(steps) + [s] && nested == old(nested)
      ensures attempts == old(attempts) + |s.attempts| && polls == old(polls) + s.polls
      ensures retries == old(retries) + (if |s.attempts| == 0 then 0 else |s.attempts| - 1)
      ensures retryWait == old(retryWait) + s.retryWait && pollWait == old(pollWait) + s.pollWait
      ensures succeeded == old(succeeded) + (if s.status == Succeeded then 1 else 0)
      ensures skipped == old(skipped) + (if s.status == Skipped then 1 else 0)
      ensures canceled == old(canceled) + (if s.status == Canceled then 1 else 0)
      ensures failed == old(failed) + (if s.status == Failed || s.status == TimedOut then 1 else 0)
      ensures timedOut == old(timedOut) + TimeoutsOf(s)
    {
      OneMore(steps, s);
      TimeoutsAreShare(s);
      CountOutcome(s);
      CountCosts(s);
      steps := steps + [s];
    }

    method CountOutcome(s: StepStats)
      modifies `succeeded, `failed, `skipped, `canceled
      ensures forall c: Counter :: Value(c) == old(Value(c)) + if IsCost(c) then 0 else Share(s, c)
      ensures succeeded == old(succeeded) + (if s.status == Succeeded then 1 else 0)
      ensures skipped == old(skipped) + (if s.status == Skipped then 1 else 0)
      ensures canceled == old(canceled) + (if s.status == Canceled then 1 else 0)
      ensures failed == old(failed) + (if s.status == Failed || s.status == TimedOut then 1 else 0)
    {
      match s.status {
        case Succeeded => succeeded := succeeded + 1;
        case Skipped => skipped := skipped + 1;
        case Canceled => canceled := canceled + 1;
        case _ => failed := failed + 1;
      }
    }

    method CountCosts(s: StepStats)
      modifies `timedOut, `attempts, `retries, `retryWait, `polls, `pollWait
      ensures forall c: Counter :: Value(c) == old(Value(c)) + if IsCost(c) then Share(s, c) else 0
      ensures attempts == old(attempts) + |s.attempts| && polls == old(polls) + s.polls
      ensures retries == old(retries) + (if |s.attempts| == 0 then 0 else |s.attempts| - 1)
      ensures retryWait == old(retryWait) + s.retryWait && pollWait == old(pollWait) + s.pollWait
      ensures timedOut == old(timedOut) + Share(s, Timeouts)
    {
      attempts := attempts + |s.attempts|;
      retries := retries + if |s.attempts| > 1 then |s.attempts| - 1 else 0;
      retryWait, polls, pollWait := retryWait + s.retryWait, polls + s.polls, pollWait + s.pollWait;
      var timeouts := StepTimeoutCount(s);
      timedOut := timedOut + timeouts;
    }

    method AddCosts(source: RunStats)
      requires source != this
      modifies `timedOut, `attempts, `retries, `retryWait, `polls, `pollWait
      ensures forall c: Counter :: Value(c) == old(Value(c)) + if IsCost(c) then source.Value(c) else 0
      ensures timedOut == old(timedOut) + source.timedOut && attempts == old(attempts) + source.attempts
      ensures retries == old(retries) + source.retries && retryWait == old(retryWait) + source.retryWait
      ensures polls == old(polls) + source.polls && pollWait == old(pollWait) + source.pollWait
    {
      timedOut, attempts, retries := timedOut + source.timedOut, attempts + source.attempts, retries + source.retries;
      retryWait, polls, pollWait := retryWait + source.retryWait, polls + source.polls, pollWait + source.pollWait;
    }

    method AddOutcomes(source: RunStats)
      requires source != this
      modifies `succeeded, `failed, `skipped, `canceled
      ensures forall c: Counter :: Value(c) == old(Value(c)) + if IsCost(c) then 0 else source.Value(c)
    {
      succeeded, failed := succeeded + source.succeeded, failed + source.failed;
      skipped, canceled := skipped + source.skipped, canceled + source.canceled;
    }

    /** Merging another run's statistics is recording its steps, with what it had rolled up. */
    method Merge(source: RunStats)
      requires Valid() && source.Valid() && source != this
      modifies this
      ensures Valid() && steps == old(steps) + source.steps
      ensures forall c: Counter :: nested(c) == old(nested)(c) + source.nested(c)
    {
      MoreSteps(steps, source.steps);
      AddCosts(source);
      AddOutcomes(source);
      steps := steps + source.steps;
      ghost var mine, theirs := nested, source.nested;
      nested := (c: Counter) => mine(c) + theirs(c);
    }

    /** A control's private steps are not listed, but what they cost is added. */
    method RollupNestedMetrics(source: RunStats)
      requires Valid() && source.Valid() && source != this
      modifies this
      ensures Valid() && steps == old(steps)
      ensures succeeded == old(succeeded) && failed == old(failed) && skipped == old(skipped)
      ensures canceled == old(canceled) && timedOut == old(timedOut) + source.timedOut
      ensures attempts == old(attempts) + source.attempts && retries == old(retries) + source.retries
      ensures retryWait == old(retryWait) + source.retryWait && polls == old(polls) + source.polls
      ensures pollWait == old(pollWait) + source.pollWait
      ensures forall c: Counter :: nested(c) == old(nested)(c) + Total(source.steps, c) + source.nested(c)
    {
      AddCosts(source);
      ghost var mine, theirs, listed := nested, source.nested, source.steps;
      nested := (c: Counter) => mine(c) + Total(listed, c) + theirs(c);
    }

    /** Takes back timeouts that were counted twice. */
    method Discount(twice: nat)
      requires Valid() && twice <= nested(Timeouts) && twice <= timedOut
      modifies `timedOut, `nested
      ensures Valid()
      ensures forall c: Counter :: Value(c) == old(Value(c)) - if c == Timeouts then twice else 0
    {
      timedOut := timedOut - twice;
      ghost var all := nested;
      nested := (c: Counter) => if c == Timeouts && twice <= all(c) then all(c) - twice else all(c);
    }

    /** Records a step with a private run and adds what the run cost. */
    method RecordControl(s: StepStats, source: RunStats)
      requires Valid() && source.Valid() && source != this
      modifies this
      ensures Valid() && steps == old(steps) + [s]
      ensures forall c: Counter :: Value(c) == old(Value(c)) + Share(s, c) + if IsCost(c) then source.Value(c) else 0
      ensures source.timedOut <= nested(Timeouts)
    {
      OneMore(steps, s);
      RecordStep(s);
      RollupNestedMetrics(source);
    }

    /** An attempt is recorded and its passes rolled up; a timed-out pass, which the attempt lists itself,
        is not counted again. */
    method RecordAttempt(s: StepStats, source: RunStats)
      requires Valid() && source.Valid() && source != this
      modifies this
      ensures Valid() && steps == old(steps) + [s]
      ensures forall c: Counter :: Value(c) == old(Value(c)) + AttemptShare(Share(s, c), source.Value(c), c)
      ensures
        var listed, reported := TimeoutsOf(s), old(source.timedOut);
        timedOut == old(timedOut) + if listed < reported then reported else listed
      ensures attempts == old(attempts) + |s.attempts| + old(source.attempts)
      ensures polls == old(polls) + s.polls + old(source.polls)
    {
      TimeoutsAreShare(s);
      RecordControl(s, source);
      var listed := StepTimeoutCount(s);
      assert Value(Timeouts) == old(Value(Timeouts)) + listed + source.timedOut;
      assert Value(Attempts) == attempts && Value(Polls) == polls;
      Discount(if listed < source.timedOut then listed else source.timedOut);
    }
  }
}
