/** The SCRAM consumer's `main` as a program over mutable state, proved to run `ScramConsumer.Step`. */
module ScramLoop {
  import opened Wrappers
  import opened Backoff
  import opened Retry
  import opened Broker
  import opened ConsumeEvents
  import opened LoopRuns
  import opened ScramConsumer
  import opened Simulation
  import opened DeadLetters
  import opened PlainHandling
  import DlqPublisher
  import Tokens
  import O = OAuthConsumer
  import R = RetryRefinement
  import L = OAuthLoop

  function EraseLocal(events: seq<O.Event>): seq<LoopEvent> {
    if events == [] then []
    else (if EraseEvent(events[0]).Some? then [EraseEvent(events[0]).value] else []) + EraseLocal(events[1..])
  }

  /** One OAuth process by itself, tokens erased, is one SCRAM process by itself, asking for the same things. */
  lemma {:induction false} LocalRunSimulates(q: O.Consumer, events: seq<O.Event>, q': O.Consumer, actions: seq<Action>)
    requires Run(O.Step, q, events) == Some((q', actions))
    ensures Run(Step, EraseConsumer(q), EraseLocal(events)) == Some((EraseConsumer(q'), actions))
    decreases |events|
  {
    if events != [] {
      var (q1, a) := O.Step(q, events[0]).value;
      var (_, rest) := Run(O.Step, q1, events[1..]).value;
      StepSimulates(q, events[0], q1, a);
      LocalRunSimulates(q1, events[1..], q', rest);
      hide O.Step, Step;
      if EraseEvent(events[0]).Some? {
        var e := EraseEvent(events[0]).value;
        assert EraseLocal(events)[0] == e && EraseLocal(events)[1..] == EraseLocal(events[1..]);
      } else {
        assert EraseLocal(events) == EraseLocal(events[1..]) && [] + rest == rest;
      }
    }
  }

  /** Every message takes the path that the OAuth consumer's messages take: a SCRAM consumer has no token, but any
      will do to see it as an OAuth consumer. */
  lemma MessageRuns(q: Consumer, m: Ref, from: int, inv: Invocation, n: nat, accepted: bool, commit: CommitCall)
    requires q.pc == Received(m) && q.cancelled == inv.ctx.Cancelled(from) && from <= inv.start
    requires inv.cfg == DefaultRetryConfig() && R.ChecksContext(inv) && inv.StopsAt(n)
    ensures var r := R.ResultOf(inv, n);
            Run(Step, q, EraseLocal(L.HandlingEvents(from, inv, n, accepted, commit)))
            == Some((q.(pc := Head, cancelled := inv.ctx.Cancelled(inv.EndOf(n) + commit.took),
                        metrics := L.Measured(q.metrics, m.tp.topic, r)),
                     HandlingActions(m, r, accepted, commit.applied)))
  {
    var o := EmbedConsumer(q, Tokens.ZERO_TOKEN);
    var r := R.ResultOf(inv, n);
    L.MessageRuns(o, m, from, inv, n, accepted, commit);
    var o' := o.(pc := O.AtHead, cancelled := inv.ctx.Cancelled(inv.EndOf(n) + commit.took),
                 metrics := L.Measured(q.metrics, m.tp.topic, r));
    LocalRunSimulates(o, L.HandlingEvents(from, inv, n, accepted, commit), o',
                      HandlingActions(m, r, accepted, commit.applied));
    assert EraseConsumer(o) == q;
  }

  datatype Polled =
    | Nothing
    | Message(d: Delivery, work: ProcessFunc, accepted: bool, commit: CommitCall)
    | KafkaError(allBrokersDown: bool)
  {
    predicate Fatal() {
      KafkaError? && allBrokersDown
    }

    function Taken(): seq<Delivery> {
      if Message? then [d] else []
    }
  }

  /** What the event a poll returned at `now` asks for, and when the loop is done with it, if no signal comes. */
  function PlainDispatch(polled: Polled, now: int, delay: nat): (seq<Action>, int) {
    match polled
    case Nothing => ([], now)
    case Message(d, work, accepted, commit) => PlainMessage(d, work, now + delay, accepted, commit)
    case KafkaError(fatal) => (if fatal then [Die] else [], now)
  }

  /** What the first `n` inputs ask for, and when the loop is done with them, if no signal comes. */
  function PlainLoop(inputs: seq<Input>, n: nat, start: int, delay: nat): (seq<Action>, int)
    requires n <= |inputs|
  {
    if n == 0 then ([], start)
    else
      var (before, now) := PlainLoop(inputs, n - 1, start, delay);
      var (asked, end) := PlainDispatch(inputs[n - 1].polled, now + inputs[n - 1].took, delay);
      (before + (L.CallbackActions(inputs[n - 1].callbacks) + asked), end)
  }

  datatype Input = Input(callbacks: seq<L.Callback>, took: nat, polled: Polled)

  /** The messages of the first `n` inputs. */
  function Taken(inputs: seq<Input>, n: nat): seq<Delivery>
    requires n <= |inputs|
  {
    if n == 0 then [] else Taken(inputs, n - 1) + inputs[n - 1].polled.Taken()
  }

  class ScramProcess {
    const publisher: DlqPublisher.Publisher
    const ctx: Context
    const processingDelay: nat
    const processingTimeout: int
    var now: int
    var ready: bool
    var metrics: Metrics

    ghost predicate Valid()
      reads this, publisher
    {
      publisher.Valid() && publisher.open
    }

    /** The state of the step function at a given program point. */
    function View(pc: Pc): Consumer
      reads this
    {
      Consumer(pc, ctx.Cancelled(now), ready, metrics)
    }

    constructor (publisher: DlqPublisher.Publisher, ctx: Context, delay: nat, timeout: int, now: int)
      requires publisher.Valid() && publisher.open && !ctx.Cancelled(now)
      ensures Valid() && View(Head) == LAUNCHED && this.publisher == publisher && this.ctx == ctx
    {
      this.publisher, this.ctx := publisher, ctx;
      processingDelay, processingTimeout, this.now := delay, timeout, now;
      ready, metrics := true, NO_METRICS;
    }

    /** No signal comes, and no attempt times out before it begins. */
    predicate Undisturbed() {
      ctx.cancelAt == None && processingTimeout > 0
    }

    /** The invocation of the retry engine for a message received at `at`. */
    function InvocationAt(at: int, work: ProcessFunc): Invocation {
      Invocation(DefaultRetryConfig(), ctx, L.ProcessMessage(ctx, processingTimeout, work), at + processingDelay)
    }

    method ProcessWithRetries(work: ProcessFunc) returns (result: Result, n: nat)
      modifies this`now
      ensures var inv := InvocationAt(old(now), work);
              inv.StopsAt(n) && n <= 3 && result == R.ResultOf(inv, n) && now == inv.EndOf(n)
      ensures Undisturbed() ==> Handled(result, n, now) == Attempts(work, old(now) + processingDelay)
      ensures ctx.cancelAt == None && processingTimeout <= 0 ==> result == Failed(L.PROCESSING_TIMEOUT_ERROR, 3)
      ensures ctx.Cancelled(old(now) + processingDelay) ==>
                result == Failed(CONTEXT_ERROR, 1) && now == old(now) + processingDelay
    {
      now := now + processingDelay;
      var inv := Invocation(DefaultRetryConfig(), ctx, L.ProcessMessage(ctx, processingTimeout, work), now);
      var outcome, retried, end := WithRetry(inv);
      n := outcome.attempts;
      result := if outcome.err.None? then Ok else Failed(outcome.err.value, n);
      if Undisturbed() {
        EngineIsPlain(inv, work, n);
      } else if ctx.cancelAt == None {
        EngineIsPlain(inv, (k, at) => CallResult(Some(L.PROCESSING_TIMEOUT_ERROR), 0), n);
      } else if ctx.Cancelled(now) {
        LateIsGivenUp(inv, n);
      }
      now := end;
    }

    method CountAndPublish(d: Delivery, result: Result, accepted: bool)
      requires Valid()
      modifies this`metrics, publisher
      ensures Valid() && metrics == L.Measured(old(metrics), d.m.topic, result)
      ensures publisher.Accounts() == AfterMessage(old(publisher.Accounts()), publisher.topic, d, result, accepted)
    {
      metrics := metrics.(observed := Inc(metrics.observed, d.m.topic));
      if result.Failed? {
        metrics := metrics.(dlq := Inc(metrics.dlq, d.m.topic));
        metrics := metrics.(dlqTotal := Inc(metrics.dlqTotal, d.m.topic));
        publisher.Publish(d.m, result.err, result.attempts, d.timestamp, accepted);
      } else {
        metrics := metrics.(success := Inc(metrics.success, d.m.topic));
      }
    }

    /** From a received message to the loop head. */
    method HandleMessage(d: Delivery, work: ProcessFunc, accepted: bool, commit: CommitCall)
      returns (events: seq<LoopEvent>, actions: seq<Action>, result: Result, n: nat)
      requires Valid()
      modifies this`now, this`metrics, publisher
      ensures Valid()
      ensures Run(Step, old(View(Received(d.Ref()))), events) == Some((View(Head), actions))
      ensures actions == HandlingActions(d.Ref(), result, accepted, commit.applied)
      ensures var inv := InvocationAt(old(now), work);
              inv.StopsAt(n) && n <= 3 && result == R.ResultOf(inv, n) && now == inv.EndOf(n) + commit.took
      ensures publisher.Accounts() == AfterMessage(old(publisher.Accounts()), publisher.topic, d, result, accepted)
      ensures Undisturbed() ==>
                Handled(result, n, now - commit.took) == Attempts(work, old(now) + processingDelay)
      ensures ctx.cancelAt == None && processingTimeout <= 0 ==> result == Failed(L.PROCESSING_TIMEOUT_ERROR, 3)
      ensures ctx.Cancelled(old(now) + processingDelay) ==>
                result == Failed(CONTEXT_ERROR, 1) && now == old(now) + processingDelay + commit.took
      ensures |actions| == 2 && actions[1].Commit? && actions[1].applied == commit.applied
      ensures if result.Ok? then actions[0].Process?
              else actions[0].DeadLetter? && actions[0].err == result.err && actions[0].attempts == result.attempts
      ensures forall a | a in actions ::
                && (a.Process? || a.DeadLetter? || a.Commit?)
                && a.msg.tp.topic == d.m.topic && a.msg.tp.partition == d.m.partition && a.msg.offset == d.m.offset
    {
      hide Step, Run, EraseLocal, L.HandlingEvents, HandlingActions, AfterMessage, Attempts;
      ghost var q := View(Received(d.Ref()));
      var from := now;
      result, n := ProcessWithRetries(work);
      CountAndPublish(d, result, accepted);
      // a failed commit is only logged
      now := now + commit.took;
      MessageRuns(q, d.Ref(), from, InvocationAt(from, work), n, accepted, commit);
      events := EraseLocal(L.HandlingEvents(from, InvocationAt(from, work), n, accepted, commit));
      actions := HandlingActions(d.Ref(), result, accepted, commit.applied);
      HandlingIsAbout(d, result, accepted, commit.applied);
    }

    /** The rebalance callbacks of one poll, and the time it takes. */
    method Poll(callbacks: seq<L.Callback>, took: nat) returns (events: seq<LoopEvent>, actions: seq<Action>)
      requires !ctx.Cancelled(now)
      modifies this`now, this`ready
      ensures now == old(now) + took && actions == L.CallbackActions(callbacks)
      ensures Run(Step, old(View(Head)), events) == Some((View(Polling(0)), actions))
      ensures ready == if callbacks == [] then old(ready) else callbacks[|callbacks| - 1].OnAssigned?
    {
      hide Step, Run;
      ghost var q := View(Head);
      events, actions := [Enter(|callbacks|)], [];
      EnterRuns(q, |callbacks|);
      for i := 0 to |callbacks|
        invariant now == old(now) && actions == L.CallbackActions(callbacks[..i])
        invariant Run(Step, q, events) == Some((View(Polling(|callbacks| - i)), actions))
        invariant ready == if i == 0 then old(ready) else callbacks[i - 1].OnAssigned?
      {
        ghost var before := View(Polling(|callbacks| - i));
        CallbackRuns(q, events, before, actions, callbacks[i]);
        assert callbacks[..i + 1][..i] == callbacks[..i];
        ready := callbacks[i].OnAssigned?;
        events, actions := events + [CallbackEvent(callbacks[i])], actions + [L.CallbackAction(callbacks[i])];
      }
      assert callbacks[..|callbacks|] == callbacks;
      ghost var early := View(Polling(0));
      now := now + took;
      if ctx.Cancelled(now) {
        SignalSteps(early);
        RunStep(Step, q, events, early, actions, Signal, View(Polling(0)), Internal);
        events := events + [Signal];
      }
    }

    /** What the loop does with the event a poll returned. */
    method Dispatch(polled: Polled) returns (events: seq<LoopEvent>, actions: seq<Action>, exited: bool)
      requires Valid()
      modifies this`now, this`metrics, publisher
      ensures Valid()
      ensures exited <==> polled.Fatal()
      ensures Handles(Step, publisher.topic, old(View(Polling(0))), old(publisher.Accounts()), events, actions,
                      polled.Taken(), View(if exited then Down else Head), publisher.Accounts())
      ensures polled.Message? ==>
                var inv := InvocationAt(old(now), polled.work);
                exists n: nat :: inv.StopsAt(n) && n <= 3 && now == inv.EndOf(n) + polled.commit.took &&
                  actions == MessageActions(polled.d.Ref(), R.ResultOf(inv, n), polled.accepted, polled.commit.applied)
      ensures !polled.Message? ==> actions == if exited then [Die] else []
      ensures Undisturbed() ==> (actions, now) == PlainDispatch(polled, old(now), processingDelay)
    {
      hide Step, Run, Handles, AfterMessage, PlainMessage, Attempts;
      ghost var q, l := View(Polling(0)), publisher.Accounts();
      match polled {
        case Nothing =>
          events, actions, exited := [PollNothing], [], false;
          NothingRuns(q);
          HandlesQuietly(Step, publisher.topic, q, l, events, actions, View(Head));
        case Message(d, work, accepted, commit) =>
          ghost var received := View(Received(d.Ref()));
          MessageReceivedRuns(q, d.Ref());
          var handled, asked, result, n := HandleMessage(d, work, accepted, commit);
          RunSplit(Step, q, [PollMessage(d.Ref())], received, [Fetch(d.Ref())], handled, View(Head), asked);
          events, exited := [PollMessage(d.Ref())] + handled, false;
          actions := MessageActions(d.Ref(), result, accepted, commit.applied);
          HandlesOne(Step, publisher.topic, q, l, events, d, result, accepted, commit.applied, View(Head));
          MessageIsPlain(d, work, old(now) + processingDelay, accepted, commit);
        case KafkaError(fatal) =>
          events, exited := [PollError(fatal)], fatal;
          actions := if fatal then [Die] else [];
          ErrorRuns(q, fatal);
          HandlesQuietly(Step, publisher.topic, q, l, events, actions, View(if fatal then Down else Head));
      }
    }

    /** One iteration from the loop head, with the context not done. */
    method Iterate(input: Input) returns (events: seq<LoopEvent>, actions: seq<Action>, exited: bool)
      requires Valid() && !ctx.Cancelled(now)
      modifies this, publisher
      ensures Valid()
      ensures exited <==> input.polled.Fatal()
      ensures Handles(Step, publisher.topic, old(View(Head)), old(publisher.Accounts()), events, actions,
                      input.polled.Taken(), View(if exited then Down else Head), publisher.Accounts())
      ensures Undisturbed() ==>
                var (asked, end) := PlainDispatch(input.polled, old(now) + input.took, processingDelay);
                actions == L.CallbackActions(input.callbacks) + asked && now == end
    {
      hide Step, Run, Handles, PlainDispatch;
      ghost var q, l := View(Head), publisher.Accounts();
      var polled, wanted := Poll(input.callbacks, input.took);
      ghost var polling := View(Polling(0));
      L.CallbacksAreQuiet(input.callbacks);
      HandlesQuietly(Step, publisher.topic, q, l, polled, wanted, polling);
      var more, asked;
      more, asked, exited := Dispatch(input.polled);
      HandlesThen(Step, publisher.topic, q, l, polled, wanted, [], polling, l, more, asked, input.polled.Taken(),
                  View(if exited then Down else Head), publisher.Accounts());
      events, actions := polled + more, wanted + asked;
      assert [] + input.polled.Taken() == input.polled.Taken();
    }

    /** After a clean stop: the consumer leaves the group, then the publisher flushes and closes. */
    method Shutdown(reports: seq<(nat, bool)>) returns (events: seq<LoopEvent>, actions: seq<Action>)
      requires Valid() && ctx.Cancelled(now)
      modifies this`ready, publisher
      ensures publisher.Valid() && !publisher.open
      ensures publisher.Accounts() == old(publisher.Accounts()).Closed(reports)
      ensures Run(Step, old(View(Head)), events) == Some((View(Down), actions)) && actions == [Unassign, Die]
    {
      hide Step, Run;
      ShutdownRuns(View(Head));
      ready := false;
      publisher.Close(reports);
      events, actions := [Stop, CloseConsumer, ClosePublisher], [Unassign, Die];
    }

    /** The consume loop over any inputs: it ends at the loop head when they run out, and otherwise exits.  The
        publisher was given exactly the dead letters of the actions, in order; closing it settles them by the
        reports. */
    method ConsumeLoop(inputs: seq<Input>, reports: seq<(nat, bool)>)
      returns (events: seq<LoopEvent>, actions: seq<Action>, exited: bool, polls: nat)
      requires Valid()
      modifies this, publisher
      ensures publisher.Valid()
      ensures polls <= |inputs| && Fetched(actions) == Refs(Taken(inputs, polls))
      ensures forall k | 0 <= k < |Taken(inputs, polls)| ::
                var (r, m) := (Fetched(actions)[k], Taken(inputs, polls)[k].m);
                r.tp.topic == m.topic && r.tp.partition == m.partition && r.offset == m.offset
      ensures Led(Taken(inputs, polls), actions)
      ensures Undisturbed() ==> (actions, now) == PlainLoop(inputs, polls, old(now), processingDelay)
      ensures !exited ==> polls == |inputs| && publisher.open
      ensures exited ==> (polls > 0 && inputs[polls - 1].polled.Fatal()) || (ctx.Cancelled(now) && !publisher.open)
      ensures forall i | 0 <= i < polls - 1 :: !inputs[i].polled.Fatal()
      ensures Run(Step, old(View(Head)), events) == Some((View(if exited then Down else Head), actions))
      ensures var l := Entered(old(publisher.Accounts()), publisher.topic, Taken(inputs, polls), actions);
              publisher.Accounts() == if publisher.open then l else l.Closed(reports)
    {
      hide Step, Run, Handles, Led, Entered, PlainDispatch;
      ghost var q, l := View(Head), publisher.Accounts();
      events, actions, exited, polls := [], [], false, 0;
      HandlesNothing(Step, publisher.topic, q, l);
      for i := 0 to |inputs|
        invariant Valid() && !exited && polls == i
        invariant Handles(Step, publisher.topic, q, l, events, actions, Taken(inputs, i), View(Head),
                          publisher.Accounts())
        invariant forall j | 0 <= j < i :: !inputs[j].polled.Fatal()
        invariant Undisturbed() ==> (actions, now) == PlainLoop(inputs, i, old(now), processingDelay)
      {
        ghost var before, entered := View(Head), publisher.Accounts();
        if ctx.Cancelled(now) {
          var last, final := Shutdown(reports);
          HandlesQuietly(Step, publisher.topic, before, entered, last, final, View(Down));
          HandlesThen(Step, publisher.topic, q, l, events, actions, Taken(inputs, i), before, entered,
                      last, final, [], View(Down), entered);
          events, actions, exited := events + last, actions + final, true;
          assert Taken(inputs, i) + [] == Taken(inputs, i);
          HandlesMeans(Step, publisher.topic, q, l, events, actions, Taken(inputs, i), View(Down), entered);
          return;
        }
        var more, asked, out := Iterate(inputs[i]);
        HandlesThen(Step, publisher.topic, q, l, events, actions, Taken(inputs, i), before, entered, more, asked,
                    inputs[i].polled.Taken(), View(if out then Down else Head), publisher.Accounts());
        events, actions, exited, polls := events + more, actions + asked, out, i + 1;
        if exited {
          break;
        }
      }
      HandlesMeans(Step, publisher.topic, q, l, events, actions, Taken(inputs, polls),
                   View(if exited then Down else Head), publisher.Accounts());
    }
  }

  // ---- single steps of the loop, as runs ----

  lemma NothingRuns(q: Consumer)
    requires q.pc.Polling?
    ensures Run(Step, q, [PollNothing]) == Some((q.(pc := Head), []))
  {
    RunOne(Step, q, PollNothing);
  }

  lemma MessageReceivedRuns(q: Consumer, m: Ref)
    requires q.pc.Polling?
    ensures Run(Step, q, [PollMessage(m)]) == Some((q.(pc := Received(m)), [Fetch(m)]))
  {
    RunOne(Step, q, PollMessage(m));
  }

  lemma ErrorRuns(q: Consumer, fatal: bool)
    requires q.pc.Polling?
    ensures Run(Step, q, [PollError(fatal)])
            == Some((q.(pc := if fatal then Down else Head), if fatal then [Die] else []))
  {
    RunOne(Step, q, PollError(fatal));
  }

  lemma ShutdownSteps(q: Consumer)
    requires q.pc == Head && q.cancelled
    ensures var closed := q.(pc := Flushing, ready := false);
            && Step(q, Stop) == Some((q.(pc := Closing), Internal))
            && Step(q.(pc := Closing), CloseConsumer) == Some((closed, Unassign))
            && Step(closed, ClosePublisher) == Some((closed.(pc := Down), Die))
  {
  }

  lemma ShutdownRuns(q: Consumer)
    requires q.pc == Head && q.cancelled
    ensures Run(Step, q, [Stop, CloseConsumer, ClosePublisher])
            == Some((q.(pc := Down, ready := false), [Unassign, Die]))
  {
    hide Step, Run;
    var closed := q.(pc := Flushing, ready := false);
    ShutdownSteps(q);
    RunOne(Step, q, Stop);
    RunStep(Step, q, [Stop], q.(pc := Closing), [], CloseConsumer, closed, Unassign);
    RunStep(Step, q, [Stop] + [CloseConsumer], closed, [] + [Unassign], ClosePublisher, closed.(pc := Down), Die);
    assert [Stop] + [CloseConsumer] + [ClosePublisher] == [Stop, CloseConsumer, ClosePublisher];
    assert [] + [Unassign] + [Die] == [Unassign, Die];
  }

  function CallbackEvent(cb: L.Callback): LoopEvent {
    if cb.OnAssigned? then Assigned(cb.ps) else Revoked
  }

  lemma CallbackSteps(q: Consumer, cb: L.Callback)
    requires q.pc.Polling? && q.pc.callbacks > 0
    ensures Step(q, CallbackEvent(cb))
            == Some((q.(pc := Polling(q.pc.callbacks - 1), ready := cb.OnAssigned?), L.CallbackAction(cb)))
    ensures L.CallbackAction(cb) != Internal
  {
  }

  lemma CallbackRuns(q: Consumer, events: seq<LoopEvent>, q1: Consumer, actions: seq<Action>, cb: L.Callback)
    requires Run(Step, q, events) == Some((q1, actions)) && q1.pc.Polling? && q1.pc.callbacks > 0
    ensures Run(Step, q, events + [CallbackEvent(cb)])
            == Some((q1.(pc := Polling(q1.pc.callbacks - 1), ready := cb.OnAssigned?),
                     actions + [L.CallbackAction(cb)]))
  {
    hide Step, Run;
    CallbackSteps(q1, cb);
    RunStep(Step, q, events, q1, actions, CallbackEvent(cb),
            q1.(pc := Polling(q1.pc.callbacks - 1), ready := cb.OnAssigned?), L.CallbackAction(cb));
  }

  lemma SignalSteps(q: Consumer)
    requires !q.pc.Down?
    ensures Step(q, Signal) == Some((q.(cancelled := true), Internal))
  {
  }

  lemma EnterRuns(q: Consumer, n: nat)
    requires q.pc.Head? && !q.cancelled
    ensures Run(Step, q, [Enter(n)]) == Some((q.(pc := Polling(n)), []))
  {
    RunOne(Step, q, Enter(n));
  }
}
