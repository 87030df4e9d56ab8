/** The OAuth consumer's `main` as a program over mutable state.  Each method returns the loop events it went
    through and the actions it asked for, and its contract says that they are a run of `OAuthConsumer.Step`. */
module OAuthLoop {
  import opened Wrappers
  import opened Tokens
  import opened Durations
  import opened Backoff
  import opened Retry
  import opened Broker
  import opened ConsumeEvents
  import opened LoopRuns
  import opened OAuthConsumer
  import opened RetryRefinement
  import opened Keycloak
  import opened DeadLetters
  import opened PlainHandling
  import DlqPublisher
  import Dlq

  const PROCESSING_TIMEOUT_ERROR := "processing timeout"

  /** `processMessage`: the context is checked once, before the work. */
  function ProcessMessage(ctx: Context, timeout: int, work: ProcessFunc): ProcessFunc {
    (k: nat, at: int) =>
      if ctx.Cancelled(at) || timeout <= 0 then CallResult(Some(PROCESSING_TIMEOUT_ERROR), 0) else work(k, at)
  }

  datatype Callback = OnAssigned(ps: set<TopicPartition>) | OnRevoked

  /** What one `Poll` returns, with the outcomes of everything its handling calls. */
  datatype Polled =
    | Nothing
    | Received(d: Delivery, work: ProcessFunc, accepted: bool, commit: CommitCall)
    | TokenRefresh(x: Exchange, installed: bool)
    | KafkaError(allBrokersDown: bool)
  {
    predicate Fatal() {
      KafkaError? && allBrokersDown
    }

    function Taken(): seq<Delivery> {
      if Received? then [d] else []
    }
  }

  datatype Input = Input(callbacks: seq<Callback>, took: nat, polled: Polled)

  /** The messages of the first `n` inputs. */
  function Taken(inputs: seq<Input>, n: nat): seq<Delivery>
    requires n <= |inputs|
  {
    if n == 0 then [] else Taken(inputs, n - 1) + inputs[n - 1].polled.Taken()
  }

  // ---- the loop when no signal comes, in terms of its inputs alone ----

  /** What the event a poll returned at `now` asks for, and when the loop is done with it. */
  function PlainDispatch(polled: Polled, now: int, delay: nat): (seq<Action>, int) {
    match polled
    case Nothing => ([], now)
    case Received(d, work, accepted, commit) => PlainMessage(d, work, now + delay, accepted, commit)
    case TokenRefresh(x, _) => ([], now + x.baseTook + if x.baseOk then x.umaTook else 0)
    case KafkaError(fatal) => (if fatal then [Die] else [], now)
  }

  /** What the first `n` inputs ask for, and when the loop is done with them. */
  function PlainLoop(inputs: seq<Input>, n: nat, start: int, delay: nat): (seq<Action>, int)
    requires n <= |inputs|
  {
    if n == 0 then ([], start)
    else
      var (before, now) := PlainLoop(inputs, n - 1, start, delay);
      var (asked, end) := PlainDispatch(inputs[n - 1].polled, now + inputs[n - 1].took, delay);
      (before + (CallbackActions(inputs[n - 1].callbacks) + asked), end)
  }

  function CallbackAction(cb: Callback): Action {
    if cb.OnAssigned? then Assign(cb.ps) else Unassign
  }

  function CallbackActions(callbacks: seq<Callback>): seq<Action> {
    if callbacks == [] then []
    else CallbackActions(callbacks[..|callbacks| - 1]) + [CallbackAction(callbacks[|callbacks| - 1])]
  }

  lemma {:induction false} CallbacksAreQuiet(callbacks: seq<Callback>)
    ensures Quiet(CallbackActions(callbacks))
  {
    if callbacks != [] {
      CallbacksAreQuiet(callbacks[..|callbacks| - 1]);
    }
  }

  // ---- one message, as a run of the step function ----

  const OBSERVE_COUNT := [Shared(Observe), Shared(Count)]

  /** From the result, known at `at`, to the loop head; the signal may arrive during the commit. */
  function CountEvents(ctx: Context, at: int, r: Result, accepted: bool, commit: CommitCall): seq<Event> {
    OBSERVE_COUNT + (if r.Ok? then [] else [Shared(Publish(accepted))])
    + (SignalIn(ctx, at, at + commit.took) + [Shared(CommitOffset(commit.applied))])
  }

  function CountActions(m: Ref, r: Result, accepted: bool, applied: bool): seq<Action> {
    (if r.Ok? then [] else [DeadLetter(m, r.err, r.attempts, accepted)]) + [Commit(m, applied)]
  }

  /** The metrics after a message of `topic` ended with result `r`. */
  function Measured(metrics: Metrics, topic: string, r: Result): Metrics {
    CountResult(metrics.(observed := Inc(metrics.observed, topic)), topic, r)
  }

  /** A loop that has counted the result and is about to publish or to commit. */
  function Tallied(q: Consumer, m: Ref, r: Result): Consumer {
    q.(pc := if r.Ok? then ToCommit(m) else ToPublish(m, r.err, r.attempts),
       metrics := Measured(q.metrics, m.tp.topic, r))
  }

  lemma TallySteps(q: Consumer, m: Ref, r: Result)
    requires q.pc == Resolved(m, r)
    ensures var q1 := q.(pc := Timed(m, r), metrics := q.metrics.(observed := Inc(q.metrics.observed, m.tp.topic)));
            && Step(q, Shared(Observe)) == Some((q1, Internal))
            && Step(q1, Shared(Count)) == Some((Tallied(q, m, r), Internal))
  {
  }

  lemma TallyRuns(q: Consumer, m: Ref, r: Result)
    requires q.pc == Resolved(m, r)
    ensures Run(Step, q, OBSERVE_COUNT) == Some((Tallied(q, m, r), []))
  {
    hide Step, Run;
    var q1 := q.(pc := Timed(m, r), metrics := q.metrics.(observed := Inc(q.metrics.observed, m.tp.topic)));
    TallySteps(q, m, r);
    RunOne(Step, q, Shared(Observe));
    RunStep(Step, q, [Shared(Observe)], q1, [], Shared(Count), Tallied(q, m, r), Internal);
    assert [Shared(Observe)] + [Shared(Count)] == OBSERVE_COUNT;
  }

  lemma PublishStep(q: Consumer, m: Ref, err: string, n: nat, accepted: bool)
    requires q.pc == ToPublish(m, err, n)
    ensures Step(q, Shared(Publish(accepted))) == Some((q.(pc := ToCommit(m)), DeadLetter(m, err, n, accepted)))
  {
  }

  lemma PublishRuns(q: Consumer, m: Ref, err: string, n: nat, accepted: bool)
    requires q.pc == Resolved(m, Failed(err, n))
    ensures Run(Step, q, OBSERVE_COUNT + [Shared(Publish(accepted))])
            == Some((Tallied(q, m, Failed(err, n)).(pc := ToCommit(m)), [DeadLetter(m, err, n, accepted)]))
  {
    hide Step, Run;
    var letter := DeadLetter(m, err, n, accepted);
    TallyRuns(q, m, Failed(err, n));
    PublishStep(Tallied(q, m, Failed(err, n)), m, err, n, accepted);
    RunStep(Step, q, OBSERVE_COUNT, Tallied(q, m, Failed(err, n)), [], Shared(Publish(accepted)),
            Tallied(q, m, Failed(err, n)).(pc := ToCommit(m)), letter);
    assert [] + [letter] == [letter];
  }

  lemma CommitRuns(q: Consumer, events: seq<Event>, q1: Consumer, actions: seq<Action>, m: Ref, ctx: Context, at: int,
                   commit: CommitCall)
    requires Run(Step, q, events) == Some((q1, actions)) && q1.pc == ToCommit(m) && q1.cancelled == ctx.Cancelled(at)
    ensures Run(Step, q, events + (SignalIn(ctx, at, at + commit.took) + [Shared(CommitOffset(commit.applied))]))
            == Some((q1.(pc := AtHead, cancelled := ctx.Cancelled(at + commit.took)),
                     actions + [Commit(m, commit.applied)]))
  {
    var q2 := q1.(cancelled := ctx.Cancelled(at + commit.took));
    var asked := [Commit(m, commit.applied)];
    RunSignal(q1, ctx, at, at + commit.took);
    CommitStep(q2, m, commit.applied);
    hide Step, Run;
    RunStep(Step, q1, SignalIn(ctx, at, at + commit.took), q2, [], Shared(CommitOffset(commit.applied)),
            q2.(pc := AtHead), Commit(m, commit.applied));
    assert [] + asked == asked;
    RunSplit(Step, q, events, q1, actions, SignalIn(ctx, at, at + commit.took) + [Shared(CommitOffset(commit.applied))],
             q2.(pc := AtHead), asked);
  }

  lemma CommitStep(q: Consumer, m: Ref, applied: bool)
    requires q.pc == ToCommit(m)
    ensures Step(q, Shared(CommitOffset(applied))) == Some((q.(pc := AtHead), Commit(m, applied)))
  {
  }

  lemma CountRuns(q: Consumer, m: Ref, ctx: Context, at: int, r: Result, accepted: bool, commit: CommitCall)
    requires q.pc == Resolved(m, r) && q.cancelled == ctx.Cancelled(at)
    ensures Run(Step, q, CountEvents(ctx, at, r, accepted, commit))
            == Some((q.(pc := AtHead, cancelled := ctx.Cancelled(at + commit.took),
                        metrics := Measured(q.metrics, m.tp.topic, r)),
                     CountActions(m, r, accepted, commit.applied)))
  {
    hide Step, Run;
    if r.Ok? {
      TallyRuns(q, m, r);
      CommitRuns(q, OBSERVE_COUNT, Tallied(q, m, r), [], m, ctx, at, commit);
      assert OBSERVE_COUNT + [] == OBSERVE_COUNT;
      assert CountActions(m, r, accepted, commit.applied) == [] + [Commit(m, commit.applied)];
    } else {
      PublishRuns(q, m, r.err, r.attempts, accepted);
      CommitRuns(q, OBSERVE_COUNT + [Shared(Publish(accepted))], Tallied(q, m, r).(pc := ToCommit(m)),
                 [DeadLetter(m, r.err, r.attempts, accepted)], m, ctx, at, commit);
    }
  }

  function HandlingEvents(from: int, inv: Invocation, n: nat, accepted: bool, commit: CommitCall): seq<Event>
    requires n >= 1
  {
    (SignalIn(inv.ctx, from, inv.start) + [Shared(Begin)]) + Trace(inv, 1, n)
    + CountEvents(inv.ctx, inv.EndOf(n), ResultOf(inv, n), accepted, commit)
  }

  lemma BeginRuns(q: Consumer, m: Ref, from: int, inv: Invocation)
    requires q.pc == Delayed(m) && q.cancelled == inv.ctx.Cancelled(from) && from <= inv.start
    ensures Run(Step, q, SignalIn(inv.ctx, from, inv.start) + [Shared(Begin)])
            == Some((During(q, Calling(m, 1, inv.ctx.Cancelled(inv.start)), inv.ctx, inv.start), []))
  {
    var started := q.(cancelled := inv.ctx.Cancelled(inv.start));
    RunSignal(q, inv.ctx, from, inv.start);
    RunStep(Step, q, SignalIn(inv.ctx, from, inv.start), started, [], Shared(Begin),
            During(q, Calling(m, 1, inv.ctx.Cancelled(inv.start)), inv.ctx, inv.start), Internal);
  }

  /** Delay, retries, metrics, DLQ and commit: the path of every message. */
  lemma MessageRuns(q: Consumer, m: Ref, from: int, inv: Invocation, n: nat, accepted: bool, commit: CommitCall)
    requires q.pc == Delayed(m) && q.cancelled == inv.ctx.Cancelled(from) && from <= inv.start
    requires inv.cfg == DefaultRetryConfig() && ChecksContext(inv) && inv.StopsAt(n)
    ensures var r := ResultOf(inv, n);
            Run(Step, q, HandlingEvents(from, inv, n, accepted, commit))
            == Some((q.(pc := AtHead, cancelled := inv.ctx.Cancelled(inv.EndOf(n) + commit.took),
                        metrics := Measured(q.metrics, m.tp.topic, r)),
                     HandlingActions(m, r, accepted, commit.applied)))
  {
    hide Step, Run, Trace, CountEvents;
    var r := ResultOf(inv, n);
    var calling := During(q, Calling(m, 1, inv.ctx.Cancelled(inv.start)), inv.ctx, inv.start);
    var resolved := During(q, Resolved(m, r), inv.ctx, inv.EndOf(n));
    var begin := SignalIn(inv.ctx, from, inv.start) + [Shared(Begin)];
    var counted := CountEvents(inv.ctx, inv.EndOf(n), r, accepted, commit);
    var done := resolved.(pc := AtHead, cancelled := inv.ctx.Cancelled(inv.EndOf(n) + commit.took),
                          metrics := Measured(q.metrics, m.tp.topic, r));
    BeginRuns(q, m, from, inv);
    InvocationRuns(inv, q, m, 1, n);
    CountRuns(resolved, m, inv.ctx, inv.EndOf(n), r, accepted, commit);
    RunSplit(Step, q, begin, calling, [], Trace(inv, 1, n), resolved, ActionsOf(inv, m, n));
    RunSplit(Step, q, begin + Trace(inv, 1, n), resolved, [] + ActionsOf(inv, m, n), counted,
             done, CountActions(m, r, accepted, commit.applied));
    assert [] + ActionsOf(inv, m, n) + CountActions(m, r, accepted, commit.applied)
           == HandlingActions(m, r, accepted, commit.applied);
  }

  lemma CallbackRuns(q: Consumer, events: seq<Event>, q1: Consumer, actions: seq<Action>, cb: Callback)
    requires Run(Step, q, events) == Some((q1, actions)) && q1.pc.InPoll? && q1.pc.callbacks > 0
    ensures var e := if cb.OnAssigned? then Assigned(cb.ps) else Revoked;
            Run(Step, q, events + [Shared(e)])
            == Some((q1.(pc := InPoll(q1.pc.callbacks - 1), ready := cb.OnAssigned?), actions + [CallbackAction(cb)]))
  {
    var q2 := q1.(pc := InPoll(q1.pc.callbacks - 1), ready := cb.OnAssigned?);
    assert CallbackAction(cb) == if cb.OnAssigned? then Assign(cb.ps) else Unassign;
    if cb.OnAssigned? {
      RunStep(Step, q, events, q1, actions, Shared(Assigned(cb.ps)), q2, Assign(cb.ps));
    } else {
      RunStep(Step, q, events, q1, actions, Shared(Revoked), q2, Unassign);
    }
  }

  // ---- an on-demand refresh, as a run of the step function ----

  function OnDemandEvent(tok: Option<Token>, installed: bool): Event {
    if tok == None then OnDemandFailed else OnDemandOk(tok.value, installed)
  }

  function OnDemandEvents(ctx: Context, from: int, end: int, tok: Option<Token>, installed: bool): seq<Event> {
    [RefreshRequested] + SignalIn(ctx, from, end) + [OnDemandEvent(tok, installed)]
  }

  /** Back at the loop head; a token that was obtained is cached, and the consumer has it if the library took it. */
  function OnDemandEnd(q: Consumer, tok: Option<Token>, installed: bool): Consumer {
    var head := q.(pc := AtHead);
    if tok == None then head
    else head.(cache := tok.value, consumerToken := if installed then tok.value else q.consumerToken)
  }

  lemma OnDemandSteps(q: Consumer, tok: Option<Token>, installed: bool)
    ensures q.pc.InPoll? ==> Step(q, RefreshRequested) == Some((q.(pc := RefreshingOnDemand), Internal))
    ensures q.pc.RefreshingOnDemand? ==>
              Step(q, OnDemandEvent(tok, installed)) == Some((OnDemandEnd(q, tok, installed), Internal))
  {
    if tok.Some? {
      assert OnDemandEvent(tok, installed) == OnDemandOk(tok.value, installed);
    } else {
      assert OnDemandEvent(tok, installed) == OnDemandFailed;
    }
  }

  lemma OnDemandRuns(q: Consumer, ctx: Context, from: int, end: int, tok: Option<Token>, installed: bool)
    requires q.pc.InPoll? && q.cancelled == ctx.Cancelled(from) && from <= end
    ensures Run(Step, q, OnDemandEvents(ctx, from, end, tok, installed))
            == Some((OnDemandEnd(q, tok, installed).(cancelled := ctx.Cancelled(end)), []))
  {
    hide Step, Run;
    var fetching := q.(pc := RefreshingOnDemand);
    var fetched := fetching.(cancelled := ctx.Cancelled(end));
    OnDemandSteps(q, tok, installed);
    OnDemandSteps(fetched, tok, installed);
    RunOne(Step, q, RefreshRequested);
    RunSignal(fetching, ctx, from, end);
    RunSplit(Step, q, [RefreshRequested], fetching, [], SignalIn(ctx, from, end), fetched, []);
    var nothing: seq<Action> := [];
    assert nothing + nothing == nothing;
    assert OnDemandEnd(fetched, tok, installed) == OnDemandEnd(q, tok, installed).(cancelled := ctx.Cancelled(end));
    RunStep(Step, q, [RefreshRequested] + SignalIn(ctx, from, end), fetched, [], OnDemandEvent(tok, installed),
            OnDemandEnd(fetched, tok, installed), Internal);
  }

  class ConsumerProcess {
    const publisher: DlqPublisher.Publisher
    const keycloak: KeycloakClient
    const ctx: Context
    const processingDelay: nat
    const processingTimeout: int
    var now: int
    var ready: bool
    var metrics: Metrics
    var consumerToken: Token

    ghost predicate Valid()
      reads this, publisher, keycloak
    {
      publisher.Valid() && publisher.open && keycloak.current.Some?
    }

    /** The state of the step function at a given program point. */
    function View(pc: Pc): Consumer
      reads this, publisher, keycloak
      requires keycloak.current.Some?
    {
      Consumer(pc, ctx.Cancelled(now), ready, metrics, keycloak.current.value, consumerToken, publisher.token, Asleep)
    }

    constructor (publisher: DlqPublisher.Publisher, keycloak: KeycloakClient, ctx: Context, delay: nat, timeout: int,
                 now: int, tok: Token)
      requires publisher.Valid() && publisher.open && publisher.token == tok && keycloak.current == Some(tok)
               && !ctx.Cancelled(now)
      ensures Valid() && View(AtHead) == Launched(tok) && this.publisher == publisher && this.keycloak == keycloak
              && this.ctx == ctx
    {
      this.publisher, this.keycloak, this.ctx := publisher, keycloak, ctx;
      processingDelay, processingTimeout, this.now := delay, timeout, now;
      ready, metrics, consumerToken := true, NO_METRICS, tok;
    }

    /** No signal comes, and no attempt times out before it begins. */
    predicate Undisturbed() {
      ctx.cancelAt == None && processingTimeout > 0
    }

    /** Time passes; the shutdown signal may arrive meanwhile. */
    method AdvanceTo(t: int) returns (events: seq<Event>)
      requires now <= t && keycloak.current.Some?
      modifies this`now
      ensures now == t && events == SignalIn(ctx, old(now), t)
      ensures forall pc: Pc | !pc.Exited? :: Run(Step, old(View(pc)), events) == Some((View(pc), []))
    {
      events := SignalIn(ctx, now, t);
      ghost var from := now;
      now := t;
      forall pc: Pc | !pc.Exited? ensures Run(Step, old(View(pc)), events) == Some((View(pc), [])) {
        RunSignal(old(View(pc)), ctx, from, t);
      }
    }

    /** The invocation of the retry engine for a message received at `at`. */
    function InvocationAt(at: int, work: ProcessFunc): Invocation {
      Invocation(DefaultRetryConfig(), ctx, ProcessMessage(ctx, processingTimeout, work), at + processingDelay)
    }

    method ProcessWithRetries(work: ProcessFunc) returns (result: Result, n: nat)
      modifies this`now
      ensures var inv := InvocationAt(old(now), work);
              inv.StopsAt(n) && n <= 3 && result == ResultOf(inv, n) && now == inv.EndOf(n)
      ensures Undisturbed() ==> Handled(result, n, now) == Attempts(work, old(now) + processingDelay)
      ensures ctx.cancelAt == None && processingTimeout <= 0 ==> result == Failed(PROCESSING_TIMEOUT_ERROR, 3)
      ensures ctx.Cancelled(old(now) + processingDelay) ==>
                result == Failed(CONTEXT_ERROR, 1) && now == old(now) + processingDelay
    {
      now := now + processingDelay;
      var inv := Invocation(DefaultRetryConfig(), ctx, ProcessMessage(ctx, processingTimeout, work), now);
      var outcome, events, end := WithRetry(inv);
      n := outcome.attempts;
      result := if outcome.err.None? then Ok else Failed(outcome.err.value, n);
      if Undisturbed() {
        EngineIsPlain(inv, work, n);
      } else if ctx.cancelAt == None {
        EngineIsPlain(inv, (k, at) => CallResult(Some(PROCESSING_TIMEOUT_ERROR), 0), n);
      } else if ctx.Cancelled(now) {
        LateIsGivenUp(inv, n);
      }
      now := end;
    }

    method CountAndPublish(d: Delivery, result: Result, accepted: bool)
      requires Valid()
      modifies this`metrics, publisher
      ensures Valid() && publisher.token == old(publisher.token)
      ensures metrics == Measured(old(metrics), d.m.topic, result)
      ensures publisher.Accounts() == AfterMessage(old(publisher.Accounts()), publisher.topic, d, result, accepted)
    {
      metrics := metrics.(observed := Inc(metrics.observed, d.m.topic));
      if result.Failed? {
        metrics := metrics.(dlq := Inc(metrics.dlq, d.m.topic));
        metrics := metrics.(dlqTotal := Inc(metrics.dlqTotal, d.m.topic));
        publisher.Publish(d.m, result.err, result.attempts, d.timestamp, accepted);
      } else {
        metrics := metrics.(success := Inc(metrics.success, d.m.topic));
      }
    }

    /** From a received message to the loop head: delay, retries, metrics, success or DLQ, commit. */
    method HandleMessage(d: Delivery, work: ProcessFunc, accepted: bool, commit: CommitCall)
      returns (events: seq<Event>, actions: seq<Action>, result: Result, n: nat)
      requires Valid()
      modifies this`now, this`metrics, publisher
      ensures Valid() && publisher.token == old(publisher.token)
      ensures Run(Step, old(View(Delayed(d.Ref()))), events) == Some((View(AtHead), actions))
      ensures actions == HandlingActions(d.Ref(), result, accepted, commit.applied)
      ensures var inv := InvocationAt(old(now), work);
              inv.StopsAt(n) && n <= 3 && result == ResultOf(inv, n) && now == inv.EndOf(n) + commit.took
      ensures publisher.Accounts() == AfterMessage(old(publisher.Accounts()), publisher.topic, d, result, accepted)
      ensures Undisturbed() ==>
                Handled(result, n, now - commit.took) == Attempts(work, old(now) + processingDelay)
      ensures ctx.cancelAt == None && processingTimeout <= 0 ==> result == Failed(PROCESSING_TIMEOUT_ERROR, 3)
      ensures ctx.Cancelled(old(now) + processingDelay) ==>
                result == Failed(CONTEXT_ERROR, 1) && now == old(now) + processingDelay + commit.took
      ensures |actions| == 2 && actions[1].Commit? && actions[1].applied == commit.applied
      ensures if result.Ok? then actions[0].Process?
              else actions[0].DeadLetter? && actions[0].err == result.err && actions[0].attempts == result.attempts
      ensures forall a | a in actions ::
                && (a.Process? || a.DeadLetter? || a.Commit?)
                && a.msg.tp.topic == d.m.topic && a.msg.tp.partition == d.m.partition && a.msg.offset == d.m.offset
    {
      hide Step, Run, HandlingEvents, HandlingActions, AfterMessage;
      ghost var q := View(Delayed(d.Ref()));
      var from := now;
      result, n := ProcessWithRetries(work);
      CountAndPublish(d, result, accepted);
      // a failed commit is only logged
      now := now + commit.took;
      MessageRuns(q, d.Ref(), from, InvocationAt(from, work), n, accepted, commit);
      events := HandlingEvents(from, InvocationAt(from, work), n, accepted, commit);
      actions := HandlingActions(d.Ref(), result, accepted, commit.applied);
      HandlingIsAbout(d, result, accepted, commit.applied);
    }

    /** The rebalance callbacks that run inside one poll. */
    method RunCallbacks(callbacks: seq<Callback>) returns (events: seq<Event>, actions: seq<Action>)
      requires keycloak.current.Some?
      modifies this`ready
      ensures Run(Step, old(View(InPoll(|callbacks|))), events) == Some((View(InPoll(0)), actions))
      ensures actions == CallbackActions(callbacks)
      ensures ready == if callbacks == [] then old(ready) else callbacks[|callbacks| - 1].OnAssigned?
    {
      ghost var q := View(InPoll(|callbacks|));
      events, actions := [], [];
      for i := 0 to |callbacks|
        invariant Run(Step, q, events) == Some((View(InPoll(|callbacks| - i)), actions))
        invariant actions == CallbackActions(callbacks[..i])
        invariant ready == if i == 0 then old(ready) else callbacks[i - 1].OnAssigned?
      {
        ghost var before := View(InPoll(|callbacks| - i));
        CallbackRuns(q, events, before, actions, callbacks[i]);
        assert callbacks[..i + 1][..i] == callbacks[..i];
        hide Step, Run;
        match callbacks[i] {
          case OnAssigned(ps) =>
            ready := true;
            events, actions := events + [Shared(Assigned(ps))], actions + [Assign(ps)];
          case OnRevoked =>
            ready := false;
            events, actions := events + [Shared(Revoked)], actions + [Unassign];
        }
      }
      assert callbacks[..|callbacks|] == callbacks;
    }

    /** The on-demand refresh: the cache and the consumer's token change, the DLQ producer's does not. */
    method RefreshOnDemand(x: Exchange, installed: bool) returns (events: seq<Event>)
      requires Valid()
      modifies this`now, this`consumerToken, keycloak
      ensures Valid() && now == old(now) + x.Took()
      ensures Run(Step, old(View(InPoll(0))), events) == Some((View(AtHead), []))
      ensures consumerToken == if x.Succeeds() && installed then x.Issued(old(now)) else old(consumerToken)
      ensures keycloak.current.value == if x.Succeeds() then x.Issued(old(now)) else old(keycloak.current.value)
    {
      hide Step, Run;
      ghost var q := View(InPoll(0));
      var from := now;
      var tok, end := keycloak.DoRefresh(now, x);
      now := end;
      OnDemandRuns(q, ctx, from, end, tok, installed);
      if tok == None {
        return OnDemandEvents(ctx, from, end, tok, installed);
      }
      if installed {
        consumerToken := tok.value;
      }
      return OnDemandEvents(ctx, from, end, tok, installed);
    }

    /** The callback of the refresh goroutine, run while the consume loop is anywhere: each client takes the token or
        refuses it, independently of the other. */
    method OnRefresh(tok: Token, toConsumer: bool, toDlq: bool) returns (events: seq<Event>)
      requires Valid()
      modifies this`consumerToken, publisher`token
      ensures Valid() && events == [PushToConsumer(toConsumer), PushToDlq(toDlq)]
      ensures forall pc: Pc | !pc.Exited? ::
                Run(Step, old(View(pc)).(refresher := Refreshed(tok)), events) == Some((View(pc), []))
      ensures consumerToken == (if toConsumer then tok else old(consumerToken))
      ensures publisher.token == (if toDlq then tok else old(publisher.token))
    {
      hide Step, Run;
      if toConsumer {
        consumerToken := tok;
      }
      var failed := publisher.UpdateToken(tok, toDlq);
      // a refused token is only logged
      events := [PushToConsumer(toConsumer), PushToDlq(toDlq)];
      forall pc: Pc | !pc.Exited?
        ensures Run(Step, old(View(pc)).(refresher := Refreshed(tok)), events) == Some((View(pc), []))
      {
        PushRuns(old(View(pc)).(refresher := Refreshed(tok)), tok, toConsumer, toDlq);
      }
    }

    /** What the loop does with the event a poll returned. */
    method Dispatch(polled: Polled) returns (events: seq<Event>, actions: seq<Action>, exited: bool)
      requires Valid()
      modifies this`now, this`metrics, this`consumerToken, publisher, keycloak
      ensures Valid() && ready == old(ready)
      ensures exited <==> polled.Fatal()
      ensures Handles(Step, publisher.topic, old(View(InPoll(0))), old(publisher.Accounts()), events, actions,
                      polled.Taken(), View(if exited then Exited else AtHead), publisher.Accounts())
      ensures polled.Received? ==>
                var inv := InvocationAt(old(now), polled.work);
                exists n: nat :: inv.StopsAt(n) && n <= 3 && now == inv.EndOf(n) + polled.commit.took &&
                  actions == MessageActions(polled.d.Ref(), ResultOf(inv, n), polled.accepted, polled.commit.applied)
      ensures !polled.Received? ==> actions == if exited then [Die] else []
      ensures Undisturbed() ==> (actions, now) == PlainDispatch(polled, old(now), processingDelay)
    {
      hide Step, Run, Handles, AfterMessage, PlainMessage, Attempts;
      ghost var q, l := View(InPoll(0)), publisher.Accounts();
      match polled {
        case Nothing =>
          events, actions, exited := [Shared(PollNothing)], [], false;
          NothingRuns(q);
          HandlesQuietly(Step, publisher.topic, q, l, events, actions, View(AtHead));
        case Received(d, work, accepted, commit) =>
          ghost var delayed := View(Delayed(d.Ref()));
          ReceivedRuns(q, d.Ref());
          var handled, asked, result, n := HandleMessage(d, work, accepted, commit);
          RunSplit(Step, q, [Shared(PollMessage(d.Ref()))], delayed, [Fetch(d.Ref())], handled, View(AtHead), asked);
          events, exited := [Shared(PollMessage(d.Ref()))] + handled, false;
          actions := MessageActions(d.Ref(), result, accepted, commit.applied);
          HandlesOne(Step, publisher.topic, q, l, events, d, result, accepted, commit.applied, View(AtHead));
          MessageIsPlain(d, work, old(now) + processingDelay, accepted, commit);
        case TokenRefresh(x, installed) =>
          events := RefreshOnDemand(x, installed);
          actions, exited := [], false;
          HandlesQuietly(Step, publisher.topic, q, l, events, actions, View(AtHead));
        case KafkaError(fatal) =>
          events, exited := [Shared(PollError(fatal))], fatal;
          actions := if fatal then [Die] else [];
          ErrorRuns(q, fatal);
          HandlesQuietly(Step, publisher.topic, q, l, events, actions, View(if fatal then Exited else AtHead));
      }
    }

    /** One iteration from the loop head, with the context not done. */
    method Iterate(input: Input) returns (events: seq<Event>, actions: seq<Action>, exited: bool)
      requires Valid() && !ctx.Cancelled(now)
      modifies this, publisher, keycloak
      ensures Valid()
      ensures exited <==> input.polled.Fatal()
      ensures Handles(Step, publisher.topic, old(View(AtHead)), old(publisher.Accounts()), events, actions,
                      input.polled.Taken(), View(if exited then Exited else AtHead), publisher.Accounts())
      ensures Undisturbed() ==>
                var (asked, end) := PlainDispatch(input.polled, old(now) + input.took, processingDelay);
                actions == CallbackActions(input.callbacks) + asked && now == end
    {
      hide Step, Run, Handles, PlainDispatch;
      ghost var q, l := View(AtHead), publisher.Accounts();
      var n := |input.callbacks|;
      ghost var entered := View(InPoll(n));
      EnterRuns(q, n);
      var called, asked := RunCallbacks(input.callbacks);
      ghost var polling := View(InPoll(0));
      var waited := AdvanceTo(now + input.took);
      ghost var polled := View(InPoll(0));
      PollRuns(q, n, entered, called, polling, asked, waited, polled);
      CallbacksAreQuiet(input.callbacks);
      HandlesQuietly(Step, publisher.topic, q, l, [Shared(Enter(n))] + called + waited, asked, polled);
      var rest;
      events, rest, exited := Dispatch(input.polled);
      HandlesThen(Step, publisher.topic, q, l, [Shared(Enter(n))] + called + waited, asked, [], polled, l, events, rest,
                  input.polled.Taken(), View(if exited then Exited else AtHead), publisher.Accounts());
      events, actions := [Shared(Enter(n))] + called + waited + events, asked + rest;
      assert [] + input.polled.Taken() == input.polled.Taken();
    }

    /** After a clean stop the deferred calls: the consumer leaves the group, then the publisher flushes and closes. */
    method Shutdown(reports: seq<(nat, bool)>) returns (events: seq<Event>, actions: seq<Action>)
      requires Valid() && ctx.Cancelled(now)
      modifies this`ready, publisher
      ensures events == [Shared(Stop), Shared(CloseConsumer), Shared(ClosePublisher)] && actions == [Unassign, Die]
      ensures keycloak.current.Some? && publisher.Valid() && !publisher.open
      ensures publisher.Accounts() == old(publisher.Accounts()).Closed(reports)
      ensures Run(Step, old(View(AtHead)), events) == Some((View(Exited), actions))
    {
      hide Step, Run;
      ShutdownRuns(View(AtHead));
      ready := false;
      publisher.Close(reports);
      events, actions := [Shared(Stop), Shared(CloseConsumer), Shared(ClosePublisher)], [Unassign, Die];
    }

    /** The consume loop over any inputs: it ends at the loop head when they run out, and otherwise exits.  The
        publisher was given exactly the dead letters of the actions, in order; closing it settles them by the
        reports. */
    method ConsumeLoop(inputs: seq<Input>, reports: seq<(nat, bool)>)
      returns (events: seq<Event>, actions: seq<Action>, exited: bool, polls: nat)
      requires Valid()
      modifies this, publisher, keycloak
      ensures keycloak.current.Some? && publisher.Valid()
      ensures polls <= |inputs| && Fetched(actions) == Refs(Taken(inputs, polls))
      ensures forall k | 0 <= k < |Taken(inputs, polls)| ::
                var (r, m) := (Fetched(actions)[k], Taken(inputs, polls)[k].m);
                r.tp.topic == m.topic && r.tp.partition == m.partition && r.offset == m.offset
      ensures Led(Taken(inputs, polls), actions)
      ensures Undisturbed() ==> (actions, now) == PlainLoop(inputs, polls, old(now), processingDelay)
      ensures !exited ==> polls == |inputs| && publisher.open
      ensures exited ==> (polls > 0 && inputs[polls - 1].polled.Fatal()) || (ctx.Cancelled(now) && !publisher.open)
      ensures forall i | 0 <= i < polls - 1 :: !inputs[i].polled.Fatal()
      ensures Run(Step, old(View(AtHead)), events) == Some((View(if exited then Exited else AtHead), actions))
      ensures var l := Entered(old(publisher.Accounts()), publisher.topic, Taken(inputs, polls), actions);
              publisher.Accounts() == if publisher.open then l else l.Closed(reports)
    {
      hide Step, Run, Handles, Led, Entered, PlainDispatch;
      ghost var q, l := View(AtHead), publisher.Accounts();
      events, actions, exited, polls := [], [], false, 0;
      HandlesNothing(Step, publisher.topic, q, l);
      for i := 0 to |inputs|
        invariant Valid() && !exited && polls == i
        invariant Handles(Step, publisher.topic, q, l, events, actions, Taken(inputs, i), View(AtHead),
                          publisher.Accounts())
        invariant forall j | 0 <= j < i :: !inputs[j].polled.Fatal()
        invariant Undisturbed() ==> (actions, now) == PlainLoop(inputs, i, old(now), processingDelay)
      {
        ghost var before, entered := View(AtHead), publisher.Accounts();
        if ctx.Cancelled(now) {
          var last, final := Shutdown(reports);
          HandlesQuietly(Step, publisher.topic, before, entered, last, final, View(Exited));
          HandlesThen(Step, publisher.topic, q, l, events, actions, Taken(inputs, i), before, entered,
                      last, final, [], View(Exited), entered);
          events, actions, exited := events + last, actions + final, true;
          assert Taken(inputs, i) + [] == Taken(inputs, i);
          HandlesMeans(Step, publisher.topic, q, l, events, actions, Taken(inputs, i), View(Exited), entered);
          return;
        }
        var more, wanted, out := Iterate(inputs[i]);
        HandlesThen(Step, publisher.topic, q, l, events, actions, Taken(inputs, i), before, entered, more, wanted,
                    inputs[i].polled.Taken(), View(if out then Exited else AtHead), publisher.Accounts());
        events, actions, exited, polls := events + more, actions + wanted, out, i + 1;
        if exited {
          break;
        }
      }
      HandlesMeans(Step, publisher.topic, q, l, events, actions, Taken(inputs, polls),
                   View(if exited then Exited else AtHead), publisher.Accounts());
    }
  }

  // ---- single steps of the loop, as runs ----

  lemma PushSteps(q: Consumer, tok: Token, toConsumer: bool, toDlq: bool)
    requires !q.pc.Exited? && q.refresher == Refreshed(tok)
    ensures var taken := if toConsumer then tok else q.consumerToken;
            var q1 := q.(consumerToken := taken, refresher := ConsumerUpdated(tok));
            && Step(q, PushToConsumer(toConsumer)) == Some((q1, Internal))
            && Step(q1, PushToDlq(toDlq))
               == Some((q1.(dlqToken := if toDlq then tok else q.dlqToken, refresher := Asleep), Internal))
  {
  }

  lemma PushRuns(q: Consumer, tok: Token, toConsumer: bool, toDlq: bool)
    requires !q.pc.Exited? && q.refresher == Refreshed(tok)
    ensures Run(Step, q, [PushToConsumer(toConsumer), PushToDlq(toDlq)])
            == Some((q.(consumerToken := if toConsumer then tok else q.consumerToken,
                        dlqToken := if toDlq then tok else q.dlqToken, refresher := Asleep), []))
  {
    hide Step, Run;
    var q1 := q.(consumerToken := if toConsumer then tok else q.consumerToken, refresher := ConsumerUpdated(tok));
    PushSteps(q, tok, toConsumer, toDlq);
    RunOne(Step, q, PushToConsumer(toConsumer));
    RunStep(Step, q, [PushToConsumer(toConsumer)], q1, [], PushToDlq(toDlq),
            q1.(dlqToken := if toDlq then tok else q.dlqToken, refresher := Asleep), Internal);
    assert [PushToConsumer(toConsumer)] + [PushToDlq(toDlq)] == [PushToConsumer(toConsumer), PushToDlq(toDlq)];
  }

  lemma ShutdownSteps(q: Consumer)
    requires q.pc.AtHead? && q.cancelled
    ensures var closed := q.(pc := Flushing, ready := false);
            && Step(q, Shared(Stop)) == Some((q.(pc := Leaving), Internal))
            && Step(q.(pc := Leaving), Shared(CloseConsumer)) == Some((closed, Unassign))
            && Step(closed, Shared(ClosePublisher)) == Some((closed.(pc := Exited), Die))
  {
  }

  lemma ShutdownRuns(q: Consumer)
    requires q.pc.AtHead? && q.cancelled
    ensures Run(Step, q, [Shared(Stop), Shared(CloseConsumer), Shared(ClosePublisher)])
            == Some((q.(pc := Exited, ready := false), [Unassign, Die]))
  {
    hide Step, Run;
    var closed := q.(pc := Flushing, ready := false);
    ShutdownSteps(q);
    RunOne(Step, q, Shared(Stop));
    RunStep(Step, q, [Shared(Stop)], q.(pc := Leaving), [], Shared(CloseConsumer), closed, Unassign);
    RunStep(Step, q, [Shared(Stop)] + [Shared(CloseConsumer)], closed, [] + [Unassign], Shared(ClosePublisher),
            closed.(pc := Exited), Die);
    assert [Shared(Stop)] + [Shared(CloseConsumer)] + [Shared(ClosePublisher)]
        == [Shared(Stop), Shared(CloseConsumer), Shared(ClosePublisher)];
    assert [] + [Unassign] + [Die] == [Unassign, Die];
  }

  lemma NothingRuns(q: Consumer)
    requires q.pc.InPoll?
    ensures Run(Step, q, [Shared(PollNothing)]) == Some((q.(pc := AtHead), []))
  {
    RunOne(Step, q, Shared(PollNothing));
  }

  lemma ReceivedRuns(q: Consumer, m: Ref)
    requires q.pc.InPoll?
    ensures Run(Step, q, [Shared(PollMessage(m))]) == Some((q.(pc := Delayed(m)), [Fetch(m)]))
  {
    RunOne(Step, q, Shared(PollMessage(m)));
  }

  lemma ErrorRuns(q: Consumer, fatal: bool)
    requires q.pc.InPoll?
    ensures Run(Step, q, [Shared(PollError(fatal))])
            == Some((q.(pc := if fatal then Exited else AtHead), if fatal then [Die] else []))
  {
    RunOne(Step, q, Shared(PollError(fatal)));
  }

  lemma EnterRuns(q: Consumer, n: nat)
    requires q.pc.AtHead? && !q.cancelled
    ensures Run(Step, q, [Shared(Enter(n))]) == Some((q.(pc := InPoll(n)), []))
  {
    RunOne(Step, q, Shared(Enter(n)));
  }

  /** A poll: entered, its callbacks, its time. */
  lemma PollRuns(q: Consumer, n: nat, entered: Consumer, called: seq<Event>, polling: Consumer, asked: seq<Action>,
                 waited: seq<Event>, polled: Consumer)
    requires Run(Step, q, [Shared(Enter(n))]) == Some((entered, []))
    requires Run(Step, entered, called) == Some((polling, asked)) && Run(Step, polling, waited) == Some((polled, []))
    ensures Run(Step, q, [Shared(Enter(n))] + called + waited) == Some((polled, asked))
  {
    hide Step;
    RunSplit(Step, q, [Shared(Enter(n))], entered, [], called, polling, asked);
    RunSplit(Step, q, [Shared(Enter(n))] + called, polling, [] + asked, waited, polled, []);
    assert [] + asked + [] == asked;
  }

  // ---- the time between two polls, and from the shutdown signal to the loop head ----

  /** From receiving a message to being back at the loop head, if each attempt returns within its timeout. */
  lemma HandlingTime(inv: Invocation, received: int, delay: nat, timeout: nat, n: nat, commit: CommitCall)
    requires inv.cfg == DefaultRetryConfig() && inv.start == received + delay
    requires ReturnsWithin(inv, timeout) && inv.StopsAt(n) && n <= 3
    ensures inv.EndOf(n) + commit.took - received <= delay + 3 * timeout + 1500 * MILLISECOND + commit.took
  {
    DurationBound(inv, timeout, n);
    DefaultWaits();
  }

  const DEFAULT_PROCESSING_TIMEOUT := 30 * SECOND
  const MAX_POLL_INTERVAL := 300_000 * MILLISECOND

  /** With the default timeout and no delay: at most 91.5 s and the commit; well inside `max.poll.interval.ms` unless
      the commit itself takes 208.5 s. */
  lemma DefaultHandlingTime(inv: Invocation, n: nat, commit: CommitCall)
    requires inv.cfg == DefaultRetryConfig() && ReturnsWithin(inv, DEFAULT_PROCESSING_TIMEOUT)
    requires inv.StopsAt(n) && n <= 3
    ensures inv.EndOf(n) + commit.took - inv.start <= 91_500 * MILLISECOND + commit.took
    ensures commit.took < 208_500 * MILLISECOND ==> inv.EndOf(n) + commit.took - inv.start < MAX_POLL_INTERVAL
  {
    HandlingTime(inv, inv.start, 0, DEFAULT_PROCESSING_TIMEOUT, n, commit);
  }

  /** From the shutdown signal, or from receiving the message if the signal came during that poll, to being back at the
      loop head: at most the delay, one timeout and the commit, as no attempt follows a backoff that the signal cuts
      short. */
  lemma DrainTime(inv: Invocation, received: int, delay: nat, timeout: nat, n: nat, commit: CommitCall)
    requires inv.cfg == DefaultRetryConfig() && inv.start == received + delay
    requires ReturnsWithin(inv, timeout) && inv.StopsAt(n) && n <= 3
    requires inv.ctx.cancelAt.Some?
    ensures inv.EndOf(n) + commit.took - Max(received, inv.ctx.cancelAt.value) <= delay + timeout + commit.took
  {
    var signal := inv.ctx.cancelAt.value;
    assert inv.Call(n).took <= timeout;
    if n > 1 {
      DefaultWaits();
      assert inv.Continues(n - 1);
      assert inv.StartOf(n) <= signal;
    }
  }
}
