/** The tokens of an OAuth process, from the events of its run alone: what is cached, and what each client holds. */
module OAuthTokens {
  import opened Wrappers
  import opened Tokens
  import opened ConsumeEvents
  import opened LoopRuns
  import opened Broker
  import opened OAuthConsumer

  /** The token this event obtains, by either path, or by the refresh loop. */
  function Got(e: Event): seq<Token> {
    match e
    case LoopRefreshed(tok) => [tok]
    case OnDemandOk(tok, _) => [tok]
    case _ => []
  }

  function LoopGot(e: Event): seq<Token> {
    match e
    case LoopRefreshed(tok) => [tok]
    case _ => []
  }

  /** What a client takes at this event: the loop's `latest` token, or, the consumer only, an on-demand one. */
  function ConsumerTakes(e: Event, latest: Token): seq<Token> {
    match e
    case PushToConsumer(true) => [latest]
    case OnDemandOk(tok, true) => [tok]
    case _ => []
  }

  function DlqTakes(e: Event, latest: Token): seq<Token> {
    match e
    case PushToDlq(true) => [latest]
    case _ => []
  }

  function Last(tokens: seq<Token>, initial: Token): Token {
    if tokens == [] then initial else tokens[|tokens| - 1]
  }

  /** The tokens obtained, in order; by the loop; taken by the consumer; taken by the DLQ producer. */
  function Obtained(events: seq<Event>): seq<Token> {
    if events == [] then [] else Obtained(events[..|events| - 1]) + Got(events[|events| - 1])
  }

  function LoopTokens(events: seq<Event>): seq<Token> {
    if events == [] then [] else LoopTokens(events[..|events| - 1]) + LoopGot(events[|events| - 1])
  }

  function ConsumerTook(events: seq<Event>, initial: Token): seq<Token> {
    if events == [] then []
    else
      var front := events[..|events| - 1];
      ConsumerTook(front, initial) + ConsumerTakes(events[|events| - 1], Last(LoopTokens(front), initial))
  }

  function DlqTook(events: seq<Event>, initial: Token): seq<Token> {
    if events == [] then []
    else
      var front := events[..|events| - 1];
      DlqTook(front, initial) + DlqTakes(events[|events| - 1], Last(LoopTokens(front), initial))
  }

  ghost predicate Holds(q: Consumer, events: seq<Event>, initial: Token) {
    && q.cache == Last(Obtained(events), initial)
    && q.consumerToken == Last(ConsumerTook(events, initial), initial)
    && q.dlqToken == Last(DlqTook(events, initial), initial)
    && (Pushing(q) ==> q.refresher.tok == Last(LoopTokens(events), initial))
  }

  lemma ShareKeepsTokens(q: Consumer, e: LoopEvent, q': Consumer, a: Action)
    requires Step(q, Shared(e)) == Some((q', a))
    ensures q'.cache == q.cache && q'.consumerToken == q.consumerToken && q'.dlqToken == q.dlqToken
    ensures q'.refresher == q.refresher
  {
  }

  predicate Pushing(q: Consumer) {
    q.refresher.Refreshed? || q.refresher.ConsumerUpdated?
  }

  lemma TokenStep(q: Consumer, e: Event, q': Consumer, a: Action, latest: Token)
    requires Step(q, e) == Some((q', a)) && (Pushing(q) ==> q.refresher.tok == latest)
    ensures q'.cache == Last(Got(e), q.cache) && q'.consumerToken == Last(ConsumerTakes(e, latest), q.consumerToken)
    ensures q'.dlqToken == Last(DlqTakes(e, latest), q.dlqToken)
    ensures Pushing(q') ==> q'.refresher.tok == Last(LoopGot(e), latest)
  {
    if e.Shared? {
      ShareKeepsTokens(q, e.e, q', a);
      hide Step;
    }
  }

  lemma ListsGrow(events: seq<Event>, initial: Token, e: Event)
    ensures var latest := Last(LoopTokens(events), initial);
            && Obtained(events + [e]) == Obtained(events) + Got(e)
            && LoopTokens(events + [e]) == LoopTokens(events) + LoopGot(e)
            && ConsumerTook(events + [e], initial) == ConsumerTook(events, initial) + ConsumerTakes(e, latest)
            && DlqTook(events + [e], initial) == DlqTook(events, initial) + DlqTakes(e, latest)
  {
    hide Got, LoopGot, ConsumerTakes, DlqTakes, Last;
    assert (events + [e])[..|events|] == events;
  }

  lemma LastConcat(a: seq<Token>, b: seq<Token>, initial: Token)
    ensures Last(a + b, initial) == Last(b, Last(a, initial))
  {
  }

  lemma HoldsOneMore(q: Consumer, events: seq<Event>, initial: Token, e: Event, q': Consumer, a: Action)
    requires Holds(q, events, initial) && Step(q, e) == Some((q', a))
    ensures Holds(q', events + [e], initial)
  {
    hide Step, Got, LoopGot, ConsumerTakes, DlqTakes, Last, Obtained, LoopTokens, ConsumerTook, DlqTook;
    var latest := Last(LoopTokens(events), initial);
    TokenStep(q, e, q', a, latest);
    ListsGrow(events, initial, e);
    LastConcat(Obtained(events), Got(e), initial);
    LastConcat(LoopTokens(events), LoopGot(e), initial);
    LastConcat(ConsumerTook(events, initial), ConsumerTakes(e, latest), initial);
    LastConcat(DlqTook(events, initial), DlqTakes(e, latest), initial);
  }

  lemma {:induction false} RunOneLess(q: Consumer, events: seq<Event>, e: Event, q'': Consumer, actions: seq<Action>)
    returns (q': Consumer, a: Action)
    requires Run(Step, q, events + [e]) == Some((q'', actions))
    ensures Run(Step, q, events).Some? && Run(Step, q, events).value.0 == q' && Step(q', e) == Some((q'', a))
    decreases |events|
  {
    hide Step;
    if events == [] {
      RunOne(Step, q, e);
      q', a := q, Step(q, e).value.1;
      assert [] + [e] == [e];
    } else {
      assert (events + [e])[0] == events[0] && (events + [e])[1..] == events[1..] + [e];
      var (q1, _) := Step(q, events[0]).value;
      var (_, rest) := Run(Step, q1, events[1..] + [e]).value;
      q', a := RunOneLess(q1, events[1..], e, q'', rest);
    }
  }

  /** In every run of a process, however its two refresh paths interleave: the cache holds the token obtained last, the
      consumer the one it took last, and the DLQ producer the one it took last, which an on-demand token never is. */
  lemma {:induction false} EveryRunHolds(initial: Token, events: seq<Event>, q: Consumer, actions: seq<Action>)
    requires Run(Step, Launched(initial), events) == Some((q, actions))
    ensures Holds(q, events, initial)
    decreases |events|
  {
    if events != [] {
      var front, last := events[..|events| - 1], events[|events| - 1];
      assert events == front + [last];
      var before, a := RunOneLess(Launched(initial), front, last, q, actions);
      EveryRunHolds(initial, front, before, Run(Step, Launched(initial), front).value.1);
      HoldsOneMore(before, front, initial, last, q, a);
    }
  }
}
