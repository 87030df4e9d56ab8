/** A reference for the handling of messages when no shutdown signal comes: at most three attempts, written out, in
    terms of the business function alone. */
module PlainHandling {
  import opened Wrappers
  import opened Durations
  import opened Broker
  import opened ConsumeEvents
  import opened DeadLetters
  import Backoff
  import opened Retry
  import opened RetryRefinement

  /** A synchronous commit: whether it took effect, and how long the call took. */
  datatype CommitCall = CommitCall(applied: bool, took: nat)

  datatype Handled = Handled(result: Result, attempts: nat, end: int)

  /** The first attempt that succeeds decides, otherwise the third; the waits are half a second and a second. */
  function Attempts(work: ProcessFunc, start: int): Handled {
    var first := work(1, start);
    if first.err.None? then Handled(Ok, 1, start + first.took)
    else
      var again := start + first.took + 500 * MILLISECOND;
      var second := work(2, again);
      if second.err.None? then Handled(Ok, 2, again + second.took)
      else
        var last := again + second.took + 1_000 * MILLISECOND;
        var third := work(3, last);
        Handled(if third.err.None? then Ok else Failed(third.err.value, 3), 3, last + third.took)
  }

  /** The three attempts, for the engine's own function. */
  lemma EngineIsPlain(inv: Invocation, work: ProcessFunc, n: nat)
    requires inv.cfg == Backoff.DefaultRetryConfig() && inv.ctx.cancelAt == None && inv.StopsAt(n)
    requires forall k: nat, at: int :: inv.fn(k, at) == work(k, at)
    ensures Attempts(work, inv.start) == Handled(ResultOf(inv, n), n, inv.EndOf(n))
  {
    Backoff.DefaultWaits();
    var again, last := inv.StartOf(2), inv.StartOf(3);
    assert inv.Call(1) == work(1, inv.start) && again == inv.start + work(1, inv.start).took + 500 * MILLISECOND;
    assert inv.Call(2) == work(2, again) && last == again + work(2, again).took + 1_000 * MILLISECOND;
    assert inv.Call(3) == work(3, last) && inv.ReturnOf(3) == last + work(3, last).took;
    assert !inv.Continues(3) && (n > 1 ==> inv.Continues(1)) && (n > 2 ==> inv.Continues(2)) && n <= 3;
  }

  /** A message whose first attempt would begin after the signal gets one attempt that does nothing. */
  lemma LateIsGivenUp(inv: Invocation, n: nat)
    requires inv.cfg == Backoff.DefaultRetryConfig() && inv.ctx.Cancelled(inv.start) && inv.StopsAt(n)
    requires inv.fn(1, inv.start).err.Some? && inv.fn(1, inv.start).took == 0
    ensures n == 1 && ResultOf(inv, n) == Failed(CONTEXT_ERROR, 1) && inv.EndOf(n) == inv.start
  {
    Backoff.DefaultWaits();
    assert inv.Call(1) == inv.fn(1, inv.start);
    LastAttemptAfterCancellation(inv, n, 1);
  }

  /** What one polled message asks for and when its handling is over, if it begins at `start`. */
  function PlainMessage(d: Delivery, work: ProcessFunc, start: int, accepted: bool, commit: CommitCall)
    : (seq<Action>, int)
  {
    var m := Ref(TopicPartition(d.m.topic, d.m.partition), d.m.offset);
    var h := Attempts(work, start);
    var fate := if h.result.Ok? then Process(m) else DeadLetter(m, h.result.err, h.result.attempts, accepted);
    ([Fetch(m), fate, Commit(m, commit.applied)], h.end + commit.took)
  }

  lemma MessageIsPlain(d: Delivery, work: ProcessFunc, start: int, accepted: bool, commit: CommitCall)
    ensures var h := Attempts(work, start);
            PlainMessage(d, work, start, accepted, commit)
            == (MessageActions(d.Ref(), h.result, accepted, commit.applied), h.end + commit.took)
  {
    var (asked, _) := PlainMessage(d, work, start, accepted, commit);
    assert asked == [asked[0]] + [asked[1], asked[2]];
  }
}
