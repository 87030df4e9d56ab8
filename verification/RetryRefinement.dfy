/** The timed retry engine refines the retry steps of the consume loop: from the first call to the result. */
module RetryRefinement {
  import opened Wrappers
  import opened Broker
  import opened ConsumeEvents
  import opened LoopRuns
  import opened OAuthConsumer
  import Backoff
  import opened Retry

  /** The shutdown signal, if it arrives after `lo` and no later than `hi`. */
  function SignalIn(ctx: Context, lo: int, hi: int): seq<Event> {
    if ctx.Cancelled(hi) && !ctx.Cancelled(lo) then [Shared(Signal)] else []
  }

  lemma RunSignal(q: Consumer, ctx: Context, lo: int, hi: int)
    requires !q.pc.Exited? && lo <= hi && q.cancelled == ctx.Cancelled(lo)
    ensures Run(Step, q, SignalIn(ctx, lo, hi)) == Some((q.(cancelled := ctx.Cancelled(hi)), []))
  {
    RunOne(Step, q, Shared(Signal));
  }

  /** What attempt `k` and everything after it look like to the loop. */
  function Trace(inv: Invocation, k: nat, n: nat): seq<Event>
    requires 1 <= k <= n
    decreases n - k
  {
    var called := SignalIn(inv.ctx, inv.StartOf(k), inv.ReturnOf(k));
    if inv.Call(k).err.None? then called + [Shared(AttemptOk)]
    else
      var failed := called + [Shared(AttemptFail(inv.Call(k).err.value))];
      if k < n then
        failed + SignalIn(inv.ctx, inv.ReturnOf(k), inv.StartOf(k + 1)) + [Shared(Elapse)] + Trace(inv, k + 1, n)
      else if inv.InterruptedAfter(k) then
        failed + SignalIn(inv.ctx, inv.ReturnOf(k), inv.EndOf(k)) + [Shared(Interrupt)]
      else
        failed
  }

  function ResultOf(inv: Invocation, n: nat): Result
    requires n >= 1
  {
    if inv.Call(n).err.None? then Ok
    else Failed(if inv.InterruptedAfter(n) then CONTEXT_ERROR else inv.Call(n).err.value, n)
  }

  function ActionsOf(inv: Invocation, m: Ref, n: nat): seq<Action>
    requires n >= 1
  {
    if inv.Call(n).err.None? then [Process(m)] else []
  }

  /** The business logic never succeeds once the context is done. */
  ghost predicate ChecksContext(inv: Invocation) {
    forall k: nat, at: int :: inv.ctx.Cancelled(at) ==> inv.fn(k, at).err.Some?
  }

  /** The consumer in the middle of the invocation at time `at`. */
  function During(q: Consumer, pc: Pc, ctx: Context, at: int): Consumer {
    q.(pc := pc, cancelled := ctx.Cancelled(at))
  }

  /** Where a failed call leads. */
  function AfterFailure(inv: Invocation, m: Ref, k: nat): Pc
    requires k >= 1 && inv.Call(k).err.Some?
  {
    if k == inv.cfg.maxAttempts then Resolved(m, Failed(inv.Call(k).err.value, k))
    else Waiting(m, k, inv.ctx.Cancelled(inv.ReturnOf(k)))
  }

  lemma SuccessRuns(inv: Invocation, q: Consumer, m: Ref, k: nat)
    requires ChecksContext(inv) && k >= 1 && inv.Call(k).err.None?
    ensures var s, e := inv.StartOf(k), inv.ReturnOf(k);
            Run(Step, During(q, Calling(m, k, inv.ctx.Cancelled(s)), inv.ctx, s),
                SignalIn(inv.ctx, s, e) + [Shared(AttemptOk)])
            == Some((During(q, Resolved(m, Ok), inv.ctx, e), [Process(m)]))
  {
    var s, e := inv.StartOf(k), inv.ReturnOf(k);
    var before := During(q, Calling(m, k, inv.ctx.Cancelled(s)), inv.ctx, s);
    var after := before.(cancelled := inv.ctx.Cancelled(e));
    RunSignal(before, inv.ctx, s, e);
    RunOne(Step, after, Shared(AttemptOk));
    assert [] + [Process(m)] == [Process(m)];
    RunSplit(Step, before, SignalIn(inv.ctx, s, e), after, [], [Shared(AttemptOk)],
             During(q, Resolved(m, Ok), inv.ctx, e), [Process(m)]);
  }

  lemma FailureRuns(inv: Invocation, q: Consumer, m: Ref, k: nat)
    requires inv.cfg == Backoff.DefaultRetryConfig() && k >= 1 && inv.Call(k).err.Some?
    ensures var s, e := inv.StartOf(k), inv.ReturnOf(k);
            Run(Step, During(q, Calling(m, k, inv.ctx.Cancelled(s)), inv.ctx, s),
                SignalIn(inv.ctx, s, e) + [Shared(AttemptFail(inv.Call(k).err.value))])
            == Some((During(q, AfterFailure(inv, m, k), inv.ctx, e), []))
  {
    var s, e, failed := inv.StartOf(k), inv.ReturnOf(k), Shared(AttemptFail(inv.Call(k).err.value));
    var before := During(q, Calling(m, k, inv.ctx.Cancelled(s)), inv.ctx, s);
    var after := before.(cancelled := inv.ctx.Cancelled(e));
    RunSignal(before, inv.ctx, s, e);
    RunOne(Step, after, failed);
    RunSplit(Step, before, SignalIn(inv.ctx, s, e), after, [], [failed],
             During(q, AfterFailure(inv, m, k), inv.ctx, e), []);
  }

  /** The backoff after a failed attempt that is followed by another. */
  lemma BackoffRuns(inv: Invocation, q: Consumer, m: Ref, k: nat)
    requires inv.cfg == Backoff.DefaultRetryConfig() && k >= 1 && inv.Continues(k)
    ensures var s, e := inv.ReturnOf(k), inv.StartOf(k + 1);
            Run(Step, During(q, Waiting(m, k, inv.ctx.Cancelled(s)), inv.ctx, s),
                SignalIn(inv.ctx, s, e) + [Shared(Elapse)])
            == Some((During(q, Calling(m, k + 1, inv.ctx.Cancelled(e)), inv.ctx, e), []))
  {
    var s, e := inv.ReturnOf(k), inv.StartOf(k + 1);
    var before := During(q, Waiting(m, k, inv.ctx.Cancelled(s)), inv.ctx, s);
    var after := before.(cancelled := inv.ctx.Cancelled(e));
    RunSignal(before, inv.ctx, s, e);
    RunOne(Step, after, Shared(Elapse));
    RunSplit(Step, before, SignalIn(inv.ctx, s, e), after, [], [Shared(Elapse)],
             During(q, Calling(m, k + 1, inv.ctx.Cancelled(e)), inv.ctx, e), []);
  }

  lemma InterruptRuns(inv: Invocation, q: Consumer, m: Ref, k: nat)
    requires k >= 1 && inv.InterruptedAfter(k)
    ensures var s, e := inv.ReturnOf(k), inv.EndOf(k);
            Run(Step, During(q, Waiting(m, k, inv.ctx.Cancelled(s)), inv.ctx, s),
                SignalIn(inv.ctx, s, e) + [Shared(Interrupt)])
            == Some((During(q, Resolved(m, Failed(CONTEXT_ERROR, k)), inv.ctx, e), []))
  {
    var s, e := inv.ReturnOf(k), inv.EndOf(k);
    var before := During(q, Waiting(m, k, inv.ctx.Cancelled(s)), inv.ctx, s);
    var after := before.(cancelled := inv.ctx.Cancelled(e));
    RunSignal(before, inv.ctx, s, e);
    RunOne(Step, after, Shared(Interrupt));
    RunSplit(Step, before, SignalIn(inv.ctx, s, e), after, [], [Shared(Interrupt)],
             During(q, Resolved(m, Failed(CONTEXT_ERROR, k)), inv.ctx, e), []);
  }

  lemma InterruptedCallRuns(inv: Invocation, q: Consumer, m: Ref, n: nat)
    requires inv.cfg == Backoff.DefaultRetryConfig() && ChecksContext(inv)
    requires 1 <= n && inv.InterruptedAfter(n)
    ensures Run(Step, During(q, Calling(m, n, inv.ctx.Cancelled(inv.StartOf(n))), inv.ctx, inv.StartOf(n)),
                Trace(inv, n, n))
            == Some((During(q, Resolved(m, ResultOf(inv, n)), inv.ctx, inv.EndOf(n)), []))
  {
    var s, e := inv.StartOf(n), inv.ReturnOf(n);
    var failed := SignalIn(inv.ctx, s, e) + [Shared(AttemptFail(inv.Call(n).err.value))];
    var cut := SignalIn(inv.ctx, e, inv.EndOf(n)) + [Shared(Interrupt)];
    FailureRuns(inv, q, m, n);
    InterruptRuns(inv, q, m, n);
    RunSplit(Step, During(q, Calling(m, n, inv.ctx.Cancelled(s)), inv.ctx, s), failed,
             During(q, Waiting(m, n, inv.ctx.Cancelled(e)), inv.ctx, e), [],
             cut, During(q, Resolved(m, ResultOf(inv, n)), inv.ctx, inv.EndOf(n)), []);
    assert Trace(inv, n, n) == failed + cut;
  }

  lemma LastCallRuns(inv: Invocation, q: Consumer, m: Ref, n: nat)
    requires inv.cfg == Backoff.DefaultRetryConfig() && ChecksContext(inv)
    requires 1 <= n && !inv.Continues(n)
    ensures Run(Step, During(q, Calling(m, n, inv.ctx.Cancelled(inv.StartOf(n))), inv.ctx, inv.StartOf(n)),
                Trace(inv, n, n))
            == Some((During(q, Resolved(m, ResultOf(inv, n)), inv.ctx, inv.EndOf(n)), ActionsOf(inv, m, n)))
  {
    if inv.InterruptedAfter(n) {
      InterruptedCallRuns(inv, q, m, n);
    } else if inv.Call(n).err.None? {
      SuccessRuns(inv, q, m, n);
    } else {
      FailureRuns(inv, q, m, n);
    }
  }

  /** Attempt `k` as the loop sees it, when another follows. */
  function RetriedTrace(inv: Invocation, k: nat): seq<Event>
    requires k >= 1 && inv.Call(k).err.Some?
  {
    (SignalIn(inv.ctx, inv.StartOf(k), inv.ReturnOf(k)) + [Shared(AttemptFail(inv.Call(k).err.value))])
    + (SignalIn(inv.ctx, inv.ReturnOf(k), inv.StartOf(k + 1)) + [Shared(Elapse)])
  }

  /** A call that is followed by another, up to the start of that one. */
  lemma RetriedCallRuns(inv: Invocation, q: Consumer, m: Ref, k: nat)
    requires inv.cfg == Backoff.DefaultRetryConfig() && ChecksContext(inv) && 1 <= k && inv.Continues(k)
    ensures var s, next := inv.StartOf(k), inv.StartOf(k + 1);
            Run(Step, During(q, Calling(m, k, inv.ctx.Cancelled(s)), inv.ctx, s), RetriedTrace(inv, k))
            == Some((During(q, Calling(m, k + 1, inv.ctx.Cancelled(next)), inv.ctx, next), []))
  {
    var s, e, next := inv.StartOf(k), inv.ReturnOf(k), inv.StartOf(k + 1);
    FailureRuns(inv, q, m, k);
    BackoffRuns(inv, q, m, k);
    hide Step, Run;
    RunSplit(Step, During(q, Calling(m, k, inv.ctx.Cancelled(s)), inv.ctx, s),
             SignalIn(inv.ctx, s, e) + [Shared(AttemptFail(inv.Call(k).err.value))],
             During(q, Waiting(m, k, inv.ctx.Cancelled(e)), inv.ctx, e), [],
             SignalIn(inv.ctx, e, next) + [Shared(Elapse)],
             During(q, Calling(m, k + 1, inv.ctx.Cancelled(next)), inv.ctx, next), []);
  }

  lemma TraceContinues(inv: Invocation, k: nat, n: nat)
    requires 1 <= k < n && inv.Continues(k)
    ensures Trace(inv, k, n) == RetriedTrace(inv, k) + Trace(inv, k + 1, n)
  {
    var called := SignalIn(inv.ctx, inv.StartOf(k), inv.ReturnOf(k));
    var failed := [Shared(AttemptFail(inv.Call(k).err.value))];
    var waited, elapsed := SignalIn(inv.ctx, inv.ReturnOf(k), inv.StartOf(k + 1)), [Shared(Elapse)];
    var rest := Trace(inv, k + 1, n);
    assert Trace(inv, k, n) == called + failed + waited + elapsed + rest;
    hide Trace;
    assert called + failed + waited + elapsed + rest == ((called + failed) + (waited + elapsed)) + rest;
  }

  /** The whole invocation, from attempt `k`, is a run of the loop that ends with the engine's result. */
  lemma {:induction false} InvocationRuns(inv: Invocation, q: Consumer, m: Ref, k: nat, n: nat)
    requires inv.cfg == Backoff.DefaultRetryConfig() && ChecksContext(inv)
    requires 1 <= k <= n && inv.StopsAt(n)
    ensures Run(Step, During(q, Calling(m, k, inv.ctx.Cancelled(inv.StartOf(k))), inv.ctx, inv.StartOf(k)),
                Trace(inv, k, n))
            == Some((During(q, Resolved(m, ResultOf(inv, n)), inv.ctx, inv.EndOf(n)), ActionsOf(inv, m, n)))
    decreases n - k
  {
    hide Step, Run, Trace, RetriedTrace, ResultOf, ActionsOf, SignalIn;
    if k == n {
      LastCallRuns(inv, q, m, n);
    } else {
      var s, next := inv.StartOf(k), inv.StartOf(k + 1);
      RetriedCallRuns(inv, q, m, k);
      InvocationRuns(inv, q, m, k + 1, n);
      RunSplit(Step, During(q, Calling(m, k, inv.ctx.Cancelled(s)), inv.ctx, s), RetriedTrace(inv, k),
               During(q, Calling(m, k + 1, inv.ctx.Cancelled(next)), inv.ctx, next), [],
               Trace(inv, k + 1, n), During(q, Resolved(m, ResultOf(inv, n)), inv.ctx, inv.EndOf(n)),
               ActionsOf(inv, m, n));
      TraceContinues(inv, k, n);
      assert [] + ActionsOf(inv, m, n) == ActionsOf(inv, m, n);
    }
  }
}
