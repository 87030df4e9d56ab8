/** The programs inside the group: any stretch of a program's run, performed by the broker while the others pause,
    is a run of the group, so what holds of every group run holds of the programs; and what a program's publisher was
    given is what the group's history says was given up. */
module ProgramInGroup {
  import opened Wrappers
  import opened Machines
  import opened LoopRuns
  import opened Broker
  import opened ConsumeEvents
  import opened DeadLetters
  import Dlq
  import O = OAuthConsumer
  import S = ScramConsumer
  import Sim = Simulation
  import T = ScramTheorems

  /** The broker and the client library do what a process asks, in order. */
  function PerformAll(w: World, c: nat, actions: seq<Action>): Option<World>
    requires c in w.sessions
    decreases |actions|
  {
    if actions == [] then Some(w)
    else
      match Perform(w, c, actions[0])
      case None => None
      case Some(w') => if c in w'.sessions then PerformAll(w', c, actions[1..]) else None
  }

  lemma PerformAsked(w: World, c: nat, a: Action, rest: seq<Action>)
    requires c in w.sessions
    ensures PerformAll(w, c, Asked(a) + rest)
            == (match Perform(w, c, a)
                case None => None
                case Some(w') => if c in w'.sessions then PerformAll(w', c, rest) else None)
  {
    if a == Internal {
      assert [] + rest == rest;
    } else {
      assert ([a] + rest)[1..] == rest;
    }
  }

  // ---- a program's run is a run of the group ----

  function InsideAll(c: nat, events: seq<O.Event>): seq<O.GroupEvent> {
    if events == [] then [] else [O.Inside(c, events[0])] + InsideAll(c, events[1..])
  }

  lemma {:induction false} StretchRuns(g: O.Group, c: nat, events: seq<O.Event>, q: O.Consumer, actions: seq<Action>,
                                       w: World)
    requires c in g.procs && c in g.world.sessions
    requires Run(O.Step, g.procs[c], events) == Some((q, actions)) && PerformAll(g.world, c, actions) == Some(w)
    ensures Exec(O.GroupStep, g, InsideAll(c, events)) == Some(O.Group(w, g.procs[c := q]))
    decreases |events|
  {
    hide O.Step, Perform;
    if events == [] {
      assert g.procs[c := q] == g.procs;
    } else {
      var (q1, a) := O.Step(g.procs[c], events[0]).value;
      var (_, rest) := Run(O.Step, q1, events[1..]).value;
      PerformAsked(g.world, c, a, rest);
      var next := O.Group(Perform(g.world, c, a).value, g.procs[c := q1]);
      StretchRuns(next, c, events[1..], q, rest, w);
      assert next.procs[c := q] == g.procs[c := q];
      assert InsideAll(c, events)[1..] == InsideAll(c, events[1..]);
    }
  }

  /** From any reachable state of the group, whatever an OAuth program then does keeps delivery and accounting. */
  lemma ProgramKeepsDelivery(g0: O.Group, before: seq<O.GroupEvent>, g: O.Group, c: nat, events: seq<O.Event>,
                             q: O.Consumer, actions: seq<Action>, w: World)
    requires O.Initial(g0) && Exec(O.GroupStep, g0, before) == Some(g) && c in g.procs && c in g.world.sessions
    requires Run(O.Step, g.procs[c], events) == Some((q, actions)) && PerformAll(g.world, c, actions) == Some(w)
    ensures T.AtLeastOnce(w) && Accounted(w)
  {
    StretchRuns(g, c, events, q, actions, w);
    ExecSplit(O.GroupStep, g0, before, InsideAll(c, events));
    Sim.OAuthDelivers(g0, before + InsideAll(c, events), O.Group(w, g.procs[c := q]));
  }

  function LoopAll(c: nat, events: seq<LoopEvent>): seq<GroupEvent> {
    if events == [] then [] else [Loop(c, events[0])] + LoopAll(c, events[1..])
  }

  lemma {:induction false} ScramStretchRuns(g: S.Group, c: nat, events: seq<LoopEvent>, q: S.Consumer,
                                            actions: seq<Action>, w: World)
    requires c in g.procs && c in g.world.sessions
    requires Run(S.Step, g.procs[c], events) == Some((q, actions)) && PerformAll(g.world, c, actions) == Some(w)
    ensures Exec(S.GroupStep, g, LoopAll(c, events)) == Some(S.Group(w, g.procs[c := q]))
    decreases |events|
  {
    hide S.Step, Perform;
    if events == [] {
      assert g.procs[c := q] == g.procs;
    } else {
      var (q1, a) := S.Step(g.procs[c], events[0]).value;
      var (_, rest) := Run(S.Step, q1, events[1..]).value;
      PerformAsked(g.world, c, a, rest);
      var next := S.Group(Perform(g.world, c, a).value, g.procs[c := q1]);
      ScramStretchRuns(next, c, events[1..], q, rest, w);
      assert next.procs[c := q] == g.procs[c := q];
      assert LoopAll(c, events)[1..] == LoopAll(c, events[1..]);
    }
  }

  /** The same for a SCRAM program. */
  lemma ScramProgramKeepsDelivery(g0: S.Group, before: seq<GroupEvent>, g: S.Group, c: nat, events: seq<LoopEvent>,
                                  q: S.Consumer, actions: seq<Action>, w: World)
    requires S.Initial(g0) && Exec(S.GroupStep, g0, before) == Some(g) && c in g.procs && c in g.world.sessions
    requires Run(S.Step, g.procs[c], events) == Some((q, actions)) && PerformAll(g.world, c, actions) == Some(w)
    ensures T.AtLeastOnce(w) && Accounted(w)
  {
    ScramStretchRuns(g, c, events, q, actions, w);
    ExecSplit(S.GroupStep, g0, before, LoopAll(c, events));
    T.EveryRunDelivers(g0, before + LoopAll(c, events), S.Group(w, g.procs[c := q]));
    T.EveryRunAccounts(g0, before + LoopAll(c, events), S.Group(w, g.procs[c := q]));
  }

  // ---- the publisher object and the history of the group ----

  /** The handlings that ended in a dead letter, in order. */
  function GivenUp(handled: seq<Handling>): seq<Handling> {
    if handled == [] then []
    else
      var last := handled[|handled| - 1];
      GivenUp(handled[..|handled| - 1]) + if last.how == Processed then [] else [last]
  }

  /** The letter is about the message that was given up, with its error and number of attempts. */
  ghost predicate Tells(topic: string, taken: seq<Delivery>, letter: Dlq.DlqMessage, x: Handling) {
    exists d | d in taken ::
      && d.m.topic == x.msg.tp.topic && d.m.partition == x.msg.tp.partition && d.m.offset == x.msg.offset
      && x.how.DeadLettered? && letter == d.Letter(topic, x.how.err, x.how.attempts)
  }

  /** What the history gained since `w`, and the letters, tell the same. */
  ghost predicate Mirrors(topic: string, taken: seq<Delivery>, letters: seq<Dlq.DlqMessage>, given: seq<Handling>) {
    |letters| == |given| && forall k | 0 <= k < |letters| :: Tells(topic, taken, letters[k], given[k])
  }

  lemma {:induction false} PerformAllSplit(w: World, c: nat, actions: seq<Action>, a: Action, w': World)
    returns (v: World)
    requires c in w.sessions && PerformAll(w, c, actions + [a]) == Some(w')
    ensures PerformAll(w, c, actions) == Some(v) && c in v.sessions && Perform(v, c, a) == Some(w')
    decreases |actions|
  {
    hide Perform;
    if actions == [] {
      v := w;
      assert ([] + [a])[0] == a && ([] + [a])[1..] == [];
    } else {
      assert (actions + [a])[0] == actions[0] && (actions + [a])[1..] == actions[1..] + [a];
      v := PerformAllSplit(Perform(w, c, actions[0]).value, c, actions[1..], a, w');
    }
  }

  lemma GivenUpAppend(handled: seq<Handling>, x: Handling)
    ensures GivenUp(handled + [x]) == GivenUp(handled) + if x.how == Processed then [] else [x]
  {
    assert (handled + [x])[..|handled|] == handled;
  }

  lemma GivenUpGrows(w: World, n: nat, c: nat, a: Action, w': World)
    requires n <= |w.handled| && w'.handled == w.handled + T.Appended(c, a)
    ensures GivenUp(w'.handled[n..]) == GivenUp(w.handled[n..])
              + if a.DeadLetter? then [Handling(c, a.msg, DeadLettered(a.err, a.attempts))] else []
  {
    assert w'.handled[n..] == w.handled[n..] + T.Appended(c, a);
    if T.Appended(c, a) == [] {
      assert w.handled[n..] + [] == w.handled[n..];
    } else {
      GivenUpAppend(w.handled[n..], T.Appended(c, a)[0]);
      hide GivenUp;
      assert T.Appended(c, a) == [T.Appended(c, a)[0]];
    }
  }

  lemma LetterTells(topic: string, taken: seq<Delivery>, c: nat, front: seq<Action>, a: Action)
    requires a.DeadLetter? && 0 < |Fetched(front)| <= |taken| && Names(a.msg, taken[|Fetched(front)| - 1].m)
    ensures var letters := LetterOf(topic, taken, |Fetched(front)|, a, {true, false});
            |letters| == 1 && Tells(topic, taken, letters[0], Handling(c, a.msg, DeadLettered(a.err, a.attempts)))
  {
    var n := |Fetched(front)|;
    assert taken[n - 1] in taken;
  }

  lemma MirrorsOneMore(topic: string, taken: seq<Delivery>, w: World, n: nat, c: nat, front: seq<Action>, a: Action,
                       w': World)
    requires n <= |w.handled| && w'.handled == w.handled + T.Appended(c, a)
    requires a.DeadLetter? ==> 0 < |Fetched(front)| <= |taken| && Names(a.msg, taken[|Fetched(front)| - 1].m)
    requires Mirrors(topic, taken, Letters(topic, taken, front, {true, false}), GivenUp(w.handled[n..]))
    ensures Mirrors(topic, taken, Letters(topic, taken, front + [a], {true, false}), GivenUp(w'.handled[n..]))
  {
    LettersAppend(topic, taken, front, a, {true, false});
    GivenUpGrows(w, n, c, a, w');
    if a.DeadLetter? {
      LetterTells(topic, taken, c, front, a);
    }
    hide Tells, Letters, Fetched, GivenUp;
  }

  lemma RefusalsGrow(topic: string, taken: seq<Delivery>, w: World, c: nat, front: seq<Action>, a: Action, w': World)
    requires c in w.sessions && Accounted(w) && Perform(w, c, a) == Some(w')
    requires a.DeadLetter? ==> 0 < |Fetched(front)| <= |taken|
    ensures |w'.refused| == |w.refused| + |LetterOf(topic, taken, |Fetched(front)|, a, {false})|
  {
    if a.DeadLetter? && !a.accepted {
      assert |w.handled| !in w.refused;
      assert w'.refused == w.refused + {|w.handled|};
    }
  }

  /** While the broker performs what a program asks, the publisher's accounts and the history of the group tell the
      same: the letters entered are, one by one and in order, about the messages given up, with their errors and
      attempts; and as many are refused. */
  lemma {:induction false} PublisherMirrorsHistory(w: World, c: nat, actions: seq<Action>, w': World, topic: string,
                                                   taken: seq<Delivery>)
    requires c in w.sessions && Accounted(w) && PerformAll(w, c, actions) == Some(w')
    requires Led(taken, actions)
    ensures Accounted(w') && |w.handled| <= |w'.handled|
    ensures Mirrors(topic, taken, Letters(topic, taken, actions, {true, false}), GivenUp(w'.handled[|w.handled|..]))
    ensures |w'.refused| == |w.refused| + |Letters(topic, taken, actions, {false})|
    decreases |actions|
  {
    if actions != [] {
      var front, a := actions[..|actions| - 1], actions[|actions| - 1];
      assert actions == front + [a];
      var v := PerformAllSplit(w, c, front, a, w');
      FetchedConcat(front, [a]);
      LedFront(taken, front, a);
      PublisherMirrorsHistory(w, c, front, v, topic, taken);
      PerformKeepsAccounts(v, c, a, w');
      T.PerformAppends(v, c, a, w');
      MirrorsOneMore(topic, taken, v, |w.handled|, c, front, a, w');
      RefusalsGrow(topic, taken, v, c, front, a, w');
      LettersAppend(topic, taken, front, a, {false});
      hide Perform, Letters, LetterOf, Fetched, Led, Mirrors, Accounted, GivenUp, PerformAll;
    }
  }
}
