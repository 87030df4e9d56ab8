/** Runs of step functions: what every state machine of this project shares. */
module Machines {
  import opened Wrappers

  /** The state after all events, if each was possible when it came. */
  function Exec<S, E>(step: (S, E) -> Option<S>, s: S, events: seq<E>): Option<S>
    decreases |events|
  {
    if events == [] then Some(s)
    else
      match step(s, events[0])
      case None => None
      case Some(t) => Exec(step, t, events[1..])
  }

  lemma {:induction false} ExecSplit<S, E>(step: (S, E) -> Option<S>, s: S, before: seq<E>, after: seq<E>)
    ensures Exec(step, s, before + after)
            == (match Exec(step, s, before) case None => None case Some(t) => Exec(step, t, after))
    decreases |before|
  {
    if before == [] {
      assert before + after == after;
    } else {
      assert (before + after)[1..] == before[1..] + after;
      if step(s, before[0]).Some? {
        ExecSplit(step, step(s, before[0]).value, before[1..], after);
      }
    }
  }

  lemma ExecOne<S, E>(step: (S, E) -> Option<S>, s: S, e: E)
    ensures Exec(step, s, [e]) == step(s, e)
  {
    assert [e][1..] == [];
  }

  /** A run with one more event. */
  lemma ExecAppend<S, E>(step: (S, E) -> Option<S>, s: S, events: seq<E>, t: S, e: E)
    requires Exec(step, s, events) == Some(t)
    ensures Exec(step, s, events + [e]) == step(t, e)
  {
    ExecSplit(step, s, events, [e]);
    ExecOne(step, t, e);
  }

  lemma Extend<S, E>(step: (S, E) -> Option<S>, s: S, events: seq<E>, t: S, e: E) returns (events': seq<E>, t': S)
    requires Exec(step, s, events) == Some(t) && step(t, e).Some?
    ensures events' == events + [e] && Some(t') == step(t, e) && Exec(step, s, events') == Some(t')
  {
    ExecAppend(step, s, events, t, e);
    events', t' := events + [e], step(t, e).value;
  }
}
