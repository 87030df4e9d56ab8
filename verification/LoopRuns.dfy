/** Runs of one consume loop by itself, whichever variant it is. */
module LoopRuns {
  import opened Wrappers
  import opened Broker

  /** What a step asks of the broker and the client library. */
  function Asked(a: Action): seq<Action> {
    if a == Internal then [] else [a]
  }

  /** The state after all events, and everything the loop asked for on the way. */
  function Run<Q, E>(step: (Q, E) -> Option<(Q, Action)>, q: Q, events: seq<E>): Option<(Q, seq<Action>)>
    decreases |events|
  {
    if events == [] then Some((q, []))
    else
      match step(q, events[0])
      case None => None
      case Some((q', a)) =>
        match Run(step, q', events[1..])
        case None => None
        case Some((q'', rest)) => Some((q'', Asked(a) + rest))
  }

  lemma {:induction false} RunSplit<Q, E>(step: (Q, E) -> Option<(Q, Action)>, q: Q, before: seq<E>, q': Q,
                                          actions: seq<Action>, after: seq<E>, q'': Q, actions': seq<Action>)
    requires Run(step, q, before) == Some((q', actions)) && Run(step, q', after) == Some((q'', actions'))
    ensures Run(step, q, before + after) == Some((q'', actions + actions'))
    decreases |before|
  {
    if before == [] {
      assert before + after == after && actions + actions' == actions';
    } else {
      assert (before + after)[1..] == before[1..] + after;
      var (q1, a) := step(q, before[0]).value;
      var (_, rest) := Run(step, q1, before[1..]).value;
      RunSplit(step, q1, before[1..], q', rest, after, q'', actions');
      assert Asked(a) + (rest + actions') == (Asked(a) + rest) + actions';
    }
  }

  lemma RunOne<Q, E>(step: (Q, E) -> Option<(Q, Action)>, q: Q, e: E)
    ensures Run(step, q, [e]) == (match step(q, e) case None => None case Some((q', a)) => Some((q', Asked(a))))
  {
    assert [e][1..] == [];
    if step(q, e).Some? {
      var (q', a) := step(q, e).value;
      assert Run(step, q', []) == Some((q', []));
      assert Asked(a) + [] == Asked(a);
    }
  }

  /** A run with one more event. */
  lemma RunStep<Q, E>(step: (Q, E) -> Option<(Q, Action)>, q: Q, events: seq<E>, q1: Q, actions: seq<Action>, e: E,
                      q2: Q, a: Action)
    requires Run(step, q, events) == Some((q1, actions)) && step(q1, e) == Some((q2, a))
    ensures Run(step, q, events + [e]) == Some((q2, if a == Internal then actions else actions + [a]))
  {
    RunOne(step, q1, e);
    RunSplit(step, q, events, q1, actions, [e], q2, Asked(a));
    assert actions + [] == actions;
  }
}
