/** `WithRetry`: the retry loop, timed, against an arbitrary function, cancellation time and race outcome. */
module Retry {
  import opened Wrappers
  import opened Backoff

  datatype CallResult = CallResult(err: Option<string>, took: nat)

  /** The business logic, as a function of the attempt number and the time at which the attempt begins. */
  type ProcessFunc = (nat, int) -> CallResult

  const CONTEXT_ERROR := "context canceled"

  /** A cancellable context.  `tie(k)` is the choice `select` makes after attempt `k` when both
      the cancellation and the timer are ready at the same instant. */
  datatype Context = Context(cancelAt: Option<int>, tie: nat -> bool) {
    predicate Cancelled(at: int) {
      cancelAt.Some? && cancelAt.value <= at
    }

    /** The instant at which the cancellation is noticed by a `select` entered at `now`. */
    function NoticedAt(now: int): int
      requires cancelAt.Some?
    {
      Max(cancelAt.value, now)
    }

    predicate DoneWins(k: nat, now: int, wait: int) {
      cancelAt.Some? &&
      var fires := now + Max(wait, 0);
      NoticedAt(now) < fires || (NoticedAt(now) == fires && tie(k))
    }
  }

  /** What `WithRetry` does: it returns, or it dereferences a nil error and panics. */
  datatype Outcome = Returned(attempts: nat, err: Option<string>) | Panicked

  datatype RetryEvent = Called(attempt: nat, at: int) | Slept(at: int, wait: int) | Interrupted(at: int)

  datatype Invocation = Invocation(cfg: RetryConfig, ctx: Context, fn: ProcessFunc, start: int) {
    function StartOf(k: nat): int
      requires k >= 1
      decreases k, 0
    {
      if k == 1 then start else ReturnOf(k - 1) + Max(Wait(cfg, k - 1), 0)
    }

    function Call(k: nat): CallResult
      requires k >= 1
      decreases k, 1
    {
      fn(k, StartOf(k))
    }

    function ReturnOf(k: nat): int
      requires k >= 1
      decreases k, 2
    {
      StartOf(k) + Call(k).took
    }

    predicate InterruptedAfter(k: nat)
      requires k >= 1
    {
      Call(k).err.Some? && k != cfg.maxAttempts && ctx.DoneWins(k, ReturnOf(k), Wait(cfg, k))
    }

    /** Attempt `k` is followed by attempt `k + 1`. */
    predicate Continues(k: nat)
      requires k >= 1
    {
      Call(k).err.Some? && k != cfg.maxAttempts && !InterruptedAfter(k)
    }

    /** The run makes exactly `n` attempts. */
    ghost predicate StopsAt(n: nat) {
      n >= 1 && !Continues(n) && forall k | 1 <= k < n :: Continues(k)
    }

    function EndOf(n: nat): int
      requires n >= 1
    {
      if InterruptedAfter(n) then ctx.NoticedAt(ReturnOf(n)) else ReturnOf(n)
    }

    /** Every effect of the run before attempt `k` begins. */
    function EventsBefore(k: nat): seq<RetryEvent>
      requires k >= 1
    {
      if k == 1 then []
      else EventsBefore(k - 1) + [Called(k - 1, StartOf(k - 1)), Slept(ReturnOf(k - 1), Wait(cfg, k - 1))]
    }

    function Events(n: nat): seq<RetryEvent>
      requires n >= 1
    {
      EventsBefore(n) + [Called(n, StartOf(n))] + if InterruptedAfter(n) then [Interrupted(EndOf(n))] else []
    }
  }

  // ---- the events of a run, one after the other ----

  /** What comes after what, and when: a failed call is followed by the whole wait or by its interruption, a wait by the
      next call. */
  ghost predicate Follows(inv: Invocation, e: RetryEvent, next: RetryEvent) {
    match (e, next)
    case (Called(k, at), Slept(from, wait)) =>
      && k >= 1 && inv.fn(k, at).err.Some? && k != inv.cfg.maxAttempts
      && from == at + inv.fn(k, at).took && wait == Wait(inv.cfg, k)
    case (Called(k, at), Interrupted(end)) =>
      && k >= 1 && inv.fn(k, at).err.Some? && k != inv.cfg.maxAttempts && inv.ctx.cancelAt.Some?
      && end == Max(inv.ctx.cancelAt.value, at + inv.fn(k, at).took)
      && end <= at + inv.fn(k, at).took + Max(Wait(inv.cfg, k), 0)
    case (Slept(from, wait), Called(_, at)) => at == from + Max(wait, 0)
    case _ => false
  }

  /** The first call at the start, every event where its predecessor puts it, and calls numbered from 1 in every other
      place. */
  ghost predicate Linked(inv: Invocation, events: seq<RetryEvent>) {
    && events != [] && events[0] == Called(1, inv.start)
    && (forall j | 0 < j < |events| :: Follows(inv, events[j - 1], events[j]))
    && (forall j | 0 <= j < |events| && events[j].Called? :: events[j].attempt == j / 2 + 1)
  }

  /** And the run ends when its last call returns or is given up. */
  ghost predicate Timeline(inv: Invocation, events: seq<RetryEvent>, end: int) {
    && Linked(inv, events)
    && !events[|events| - 1].Slept? && end == Over(inv, events[|events| - 1])
  }

  /** When an event is over. */
  function Over(inv: Invocation, e: RetryEvent): int {
    match e
    case Called(k, at) => at + inv.fn(k, at).took
    case Slept(at, wait) => at + Max(wait, 0)
    case Interrupted(at) => at
  }

  lemma LinkedAppend(inv: Invocation, events: seq<RetryEvent>, e: RetryEvent)
    requires Linked(inv, events) && Follows(inv, events[|events| - 1], e)
    requires e.Called? ==> e.attempt == |events| / 2 + 1
    ensures Linked(inv, events + [e])
  {
  }

  lemma {:induction false} LinkedBefore(inv: Invocation, k: nat)
    requires k >= 1 && forall i | 1 <= i < k :: inv.Continues(i)
    ensures var events := inv.EventsBefore(k) + [Called(k, inv.StartOf(k))];
            Linked(inv, events) && |events| == 2 * k - 1
  {
    if k > 1 {
      LinkedBefore(inv, k - 1);
      var events := inv.EventsBefore(k - 1) + [Called(k - 1, inv.StartOf(k - 1))];
      var slept, call := Slept(inv.ReturnOf(k - 1), Wait(inv.cfg, k - 1)), Called(k, inv.StartOf(k));
      assert inv.Continues(k - 1);
      assert inv.EventsBefore(k) + [call] == (events + [slept]) + [call];
      hide Linked;
      LinkedAppend(inv, events, slept);
      LinkedAppend(inv, events + [slept], call);
    }
  }

  lemma RunTimeline(inv: Invocation, n: nat)
    requires inv.StopsAt(n)
    ensures Timeline(inv, inv.Events(n), inv.EndOf(n))
  {
    var events := inv.EventsBefore(n) + [Called(n, inv.StartOf(n))];
    LinkedBefore(inv, n);
    if inv.InterruptedAfter(n) {
      hide Linked;
      LinkedAppend(inv, events, Interrupted(inv.EndOf(n)));
      assert inv.Events(n) == events + [Interrupted(inv.EndOf(n))];
    } else {
      hide Linked;
      assert inv.Events(n) == events;
    }
  }

  function TotalTook(fn: ProcessFunc, events: seq<RetryEvent>): nat {
    if events == [] then 0
    else
      var e := events[|events| - 1];
      TotalTook(fn, events[..|events| - 1]) + if e.Called? then fn(e.attempt, e.at).took else 0
  }

  function TotalSlept(events: seq<RetryEvent>): nat {
    if events == [] then 0
    else
      var e := events[|events| - 1];
      TotalSlept(events[..|events| - 1]) + if e.Slept? then Max(e.wait, 0) else 0
  }

  lemma {:induction false} TimeAddsUp(inv: Invocation, events: seq<RetryEvent>, m: nat)
    requires events != [] && events[0] == Called(1, inv.start) && 1 <= m <= |events|
    requires forall j | 0 < j < |events| :: Follows(inv, events[j - 1], events[j])
    requires forall j | 0 <= j < m :: !events[j].Interrupted?
    ensures Over(inv, events[m - 1]) - inv.start == TotalTook(inv.fn, events[..m]) + TotalSlept(events[..m])
    decreases m
  {
    assert events[..m][..m - 1] == events[..m - 1];
    if m == 1 {
      assert TotalTook(inv.fn, events[..0]) == 0 && TotalSlept(events[..0]) == 0;
    } else {
      TimeAddsUp(inv, events, m - 1);
      assert Follows(inv, events[m - 2], events[m - 1]);
    }
  }

  lemma {:induction false} SleepsAddUp(inv: Invocation, k: nat)
    requires k >= 1
    ensures TotalSlept(inv.EventsBefore(k)) == BackoffSum(inv.cfg, k)
  {
    if k > 1 {
      SleepsAddUp(inv, k - 1);
      var before, call := inv.EventsBefore(k - 1), Called(k - 1, inv.StartOf(k - 1));
      var sleep := Slept(inv.ReturnOf(k - 1), Wait(inv.cfg, k - 1));
      assert inv.EventsBefore(k) == before + [call] + [sleep];
      assert (before + [call] + [sleep])[..|before| + 1] == before + [call];
      assert (before + [call])[..|before|] == before;
    }
  }

  /** A run that is not cut short lasts exactly as long as its calls and the whole backoff between them. */
  lemma ExactDuration(inv: Invocation, n: nat)
    requires inv.StopsAt(n) && !inv.InterruptedAfter(n)
    ensures inv.EndOf(n) - inv.start == TotalTook(inv.fn, inv.Events(n)) + BackoffSum(inv.cfg, n)
  {
    var events, before := inv.Events(n), inv.EventsBefore(n);
    RunTimeline(inv, n);
    assert events == before + [Called(n, inv.StartOf(n))];
    forall j | 0 <= j < |events| ensures !events[j].Interrupted? {
      if j < |events| - 1 {
        assert Follows(inv, events[j], events[j + 1]);
      }
    }
    TimeAddsUp(inv, events, |events|);
    assert events[..|events|] == events && events[..|before|] == before;
    SleepsAddUp(inv, n);
  }

  /** The loop of retry.go.  The error is nil exactly when the last call succeeded and every earlier one failed;
      it is the context's own error when a backoff was cut short, and the last call's error otherwise. */
  method WithRetry(inv: Invocation) returns (outcome: Outcome, events: seq<RetryEvent>, end: int)
    ensures outcome.Panicked? <==> inv.cfg.maxAttempts < 1
    ensures outcome.Panicked? ==> events == [] && end == inv.start
    ensures outcome.Returned? ==>
              var n := outcome.attempts;
              && inv.StopsAt(n) && n <= inv.cfg.maxAttempts
              && outcome.err == (if inv.InterruptedAfter(n) then Some(CONTEXT_ERROR) else inv.Call(n).err)
              && events == inv.Events(n) && end == inv.EndOf(n)
              && Timeline(inv, events, end)
  {
    hide Timeline;
    var wait := inv.cfg.initialWait;
    var lastErr: Option<string> := None;
    var attempt := 1;
    events, end := [], inv.start;
    while attempt <= inv.cfg.maxAttempts
      invariant 1 <= attempt && (attempt <= inv.cfg.maxAttempts || attempt == 1)
      invariant forall k | 1 <= k < attempt :: inv.Continues(k)
      invariant end == inv.StartOf(attempt) && wait == Wait(inv.cfg, attempt)
      invariant events == inv.EventsBefore(attempt)
      invariant attempt == 1 ==> lastErr == None
      decreases inv.cfg.maxAttempts - attempt
    {
      var called := inv.fn(attempt, end);
      assert called == inv.Call(attempt);
      events := events + [Called(attempt, end)];
      end := end + called.took;
      lastErr := called.err;
      if lastErr == None {
        RunTimeline(inv, attempt);
        return Returned(attempt, None), events, end;
      }
      if attempt == inv.cfg.maxAttempts {
        break;
      }
      if inv.ctx.DoneWins(attempt, end, wait) {
        end := inv.ctx.NoticedAt(end);
        RunTimeline(inv, attempt);
        return Returned(attempt, Some(CONTEXT_ERROR)), events + [Interrupted(end)], end;
      }
      events := events + [Slept(end, wait)];
      end := end + Max(wait, 0);
      wait := NextWait(inv.cfg, wait);
      attempt := attempt + 1;
      assert end == inv.ReturnOf(attempt - 1) + Max(Wait(inv.cfg, attempt - 1), 0);
    }
    if lastErr == None {
      return Panicked, events, end;
    }
    RunTimeline(inv, attempt);
    return Returned(inv.cfg.maxAttempts, lastErr), events, end;
  }

  /** The declarative description determines the run, and it bounds it, for every configuration that does not panic. */
  lemma {:induction false} ExactlyOneRun(inv: Invocation, k: nat) returns (n: nat)
    requires 1 <= k <= inv.cfg.maxAttempts
    requires forall j | 1 <= j < k :: inv.Continues(j)
    ensures inv.StopsAt(n) && n <= inv.cfg.maxAttempts
    ensures forall m | inv.StopsAt(m) :: m == n
    decreases inv.cfg.maxAttempts - k
  {
    if inv.Continues(k) {
      n := ExactlyOneRun(inv, k + 1);
    } else {
      n := k;
    }
  }

  function Calls(events: seq<RetryEvent>): nat {
    if events == [] then 0 else Calls(events[..|events| - 1]) + if events[|events| - 1].Called? then 1 else 0
  }

  function Sleeps(events: seq<RetryEvent>): nat {
    if events == [] then 0 else Sleeps(events[..|events| - 1]) + if events[|events| - 1].Slept? then 1 else 0
  }

  lemma CountAppend(events: seq<RetryEvent>, e: RetryEvent)
    ensures Calls(events + [e]) == Calls(events) + (if e.Called? then 1 else 0)
    ensures Sleeps(events + [e]) == Sleeps(events) + (if e.Slept? then 1 else 0)
  {
    assert (events + [e])[..|events|] == events;
  }

  lemma {:induction false} CountsBefore(inv: Invocation, k: nat)
    requires k >= 1
    ensures Calls(inv.EventsBefore(k)) == Sleeps(inv.EventsBefore(k)) == k - 1
  {
    if k > 1 {
      CountsBefore(inv, k - 1);
      var before, call := inv.EventsBefore(k - 1), Called(k - 1, inv.StartOf(k - 1));
      var sleep := Slept(inv.ReturnOf(k - 1), Wait(inv.cfg, k - 1));
      CountAppend(before, call);
      CountAppend(before + [call], sleep);
      assert before + [call] + [sleep] == inv.EventsBefore(k);
    }
  }

  /** Calls made equal the reported attempts; completed sleeps are one fewer. */
  lemma Accounting(inv: Invocation, n: nat)
    requires n >= 1
    ensures Calls(inv.Events(n)) == n && Sleeps(inv.Events(n)) == n - 1
  {
    CountsBefore(inv, n);
    var before, call := inv.EventsBefore(n), Called(n, inv.StartOf(n));
    CountAppend(before, call);
    if inv.InterruptedAfter(n) {
      CountAppend(before + [call], Interrupted(inv.EndOf(n)));
    } else {
      assert inv.Events(n) == before + [call];
    }
  }

  /** Once the context is cancelled no attempt but the last can begin, if the wait after it is positive. */
  lemma LastAttemptAfterCancellation(inv: Invocation, n: nat, k: nat)
    requires inv.StopsAt(n) && 1 <= k <= n
    requires inv.ctx.Cancelled(inv.StartOf(k)) && Wait(inv.cfg, k) > 0
    ensures k == n
    ensures n < inv.cfg.maxAttempts && inv.Call(n).err.Some? ==>
              inv.InterruptedAfter(n) && inv.EndOf(n) == inv.ReturnOf(n)
  {
    assert inv.ctx.DoneWins(k, inv.ReturnOf(k), Wait(inv.cfg, k));
    assert k < n ==> inv.Continues(k);
  }

  // ---- time between two polls ----

  ghost predicate ReturnsWithin(inv: Invocation, timeout: nat) {
    forall k: nat | k >= 1 :: inv.Call(k).took <= timeout
  }

  lemma {:induction false} StartBound(inv: Invocation, timeout: nat, k: nat)
    requires ReturnsWithin(inv, timeout) && k >= 1
    ensures inv.StartOf(k) - inv.start <= (k - 1) * timeout + BackoffSum(inv.cfg, k)
  {
    if k > 1 {
      StartBound(inv, timeout, k - 1);
      assert inv.Call(k - 1).took <= timeout;
      assert (k - 1) * timeout == (k - 2) * timeout + timeout;
    }
  }

  lemma {:induction false} BackoffSumMonotone(cfg: RetryConfig, m: nat, n: nat)
    requires 1 <= m <= n
    ensures BackoffSum(cfg, m) <= BackoffSum(cfg, n)
    decreases n
  {
    if m < n {
      BackoffSumMonotone(cfg, m, n - 1);
    }
  }

  /** A whole run takes at most `maxAttempts` timeouts and the full backoff. */
  lemma DurationBound(inv: Invocation, timeout: nat, n: nat)
    requires ReturnsWithin(inv, timeout) && inv.StopsAt(n) && n <= inv.cfg.maxAttempts
    ensures inv.EndOf(n) - inv.start <= inv.cfg.maxAttempts * timeout + BackoffSum(inv.cfg, inv.cfg.maxAttempts)
  {
    var top: nat := inv.cfg.maxAttempts;
    StartBound(inv, timeout, n);
    assert inv.Call(n).took <= timeout;
    assert n * timeout == (n - 1) * timeout + timeout;
    assert n * timeout <= top * timeout by {
      assert (top - n) * timeout >= 0;
    }
    if inv.InterruptedAfter(n) {
      assert BackoffSum(inv.cfg, n + 1) == BackoffSum(inv.cfg, n) + Max(Wait(inv.cfg, n), 0);
      BackoffSumMonotone(inv.cfg, n + 1, top);
    } else {
      BackoffSumMonotone(inv.cfg, n, top);
    }
  }

  /** The bound in terms of the configuration alone, whatever the multiplier. */
  lemma PollGapBound(inv: Invocation, timeout: nat, n: nat)
    requires ReturnsWithin(inv, timeout) && inv.StopsAt(n) && n <= inv.cfg.maxAttempts
    requires inv.cfg.maxAttempts >= 2 && inv.cfg.initialWait >= 0 && inv.cfg.maxWait >= 0
    ensures inv.EndOf(n) - inv.start
            <= inv.cfg.maxAttempts * timeout + inv.cfg.initialWait + (inv.cfg.maxAttempts - 2) * inv.cfg.maxWait
  {
    DurationBound(inv, timeout, n);
    BackoffSumBound(inv.cfg, inv.cfg.maxAttempts);
  }
}
