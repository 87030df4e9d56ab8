/** What a consume loop writes to its publisher, read off the actions it asked for: the program's own publisher object
    and the broker's view of its actions describe the same dead letters. */
module DeadLetters {
  import opened Wrappers
  import opened Broker
  import opened ConsumeEvents
  import opened LoopRuns
  import Dlq
  import DlqPublisher

  type Ledger = DlqPublisher.Ledger

  datatype AnyDelivery = Delivery(m: Dlq.Message, timestamp: string) {
    function Ref(): Ref
      requires m.offset >= 0
    {
      Broker.Ref(TopicPartition(m.topic, m.partition), m.offset)
    }

    function Letter(topic: string, err: string, attempts: nat): Dlq.DlqMessage {
      Dlq.DeadLetter(topic, m, err, attempts, timestamp)
    }
  }

  /** A message as it was polled, with the time stamp its dead letter would carry.  Offsets of consumed messages are not
      negative. */
  type Delivery = d: AnyDelivery | d.m.offset >= 0 witness Delivery(Dlq.Message("", 0, 0, "", "", []), "")

  function Refs(ds: seq<Delivery>): seq<Ref> {
    seq(|ds|, k requires 0 <= k < |ds| => ds[k].Ref())
  }

  /** The dead letter of an action, when its verdict is wanted; it is about the message fetched last, the `n`-th. */
  function LetterOf(topic: string, taken: seq<Delivery>, n: nat, a: Action, wanted: set<bool>): seq<Dlq.DlqMessage> {
    if a.DeadLetter? && a.accepted in wanted && 0 < n <= |taken|
    then [taken[n - 1].Letter(topic, a.err, a.attempts)]
    else []
  }

  /** The dead letters among the actions whose verdict is wanted, in order. */
  function Letters(topic: string, taken: seq<Delivery>, actions: seq<Action>, wanted: set<bool>): seq<Dlq.DlqMessage>
    decreases |actions|
  {
    if actions == [] then []
    else
      var front := actions[..|actions| - 1];
      Letters(topic, taken, front, wanted) + LetterOf(topic, taken, |Fetched(front)|, actions[|actions| - 1], wanted)
  }

  /** The publisher's accounts after the dead letters of these actions. */
  function Entered(l: Ledger, topic: string, taken: seq<Delivery>, actions: seq<Action>): Ledger {
    l.(published := l.published + Letters(topic, taken, actions, {true, false}),
       queue := l.queue + Letters(topic, taken, actions, {true}),
       refused := l.refused + Letters(topic, taken, actions, {false}))
  }

  predicate Concerns(a: Action) {
    a.Fetch? || a.Process? || a.DeadLetter? || a.Commit?
  }

  /** The reference is to that very message. */
  predicate Names(r: Ref, m: Dlq.Message) {
    r.tp.topic == m.topic && r.tp.partition == m.partition && r.offset == m.offset
  }

  /** Every fetch, handling and commit is about the message taken last. */
  ghost predicate Led(taken: seq<Delivery>, actions: seq<Action>) {
    forall i | 0 <= i < |actions| :: LedAt(taken, actions, i)
  }

  predicate LedAt(taken: seq<Delivery>, actions: seq<Action>, i: nat)
    requires i < |actions|
  {
    Concerns(actions[i]) ==>
      var n := |Fetched(actions[..i + 1])|;
      0 < n <= |taken| && Names(actions[i].msg, taken[n - 1].m)
  }

  lemma LettersAppend(topic: string, taken: seq<Delivery>, actions: seq<Action>, a: Action, wanted: set<bool>)
    ensures Letters(topic, taken, actions + [a], wanted)
            == Letters(topic, taken, actions, wanted) + LetterOf(topic, taken, |Fetched(actions)|, a, wanted)
  {
    hide LetterOf, Fetched;
    assert (actions + [a])[..|actions|] == actions;
  }

  lemma {:induction false} LaterDeliveriesIrrelevant(topic: string, taken: seq<Delivery>, more: seq<Delivery>,
                                                     actions: seq<Action>, wanted: set<bool>)
    requires |Fetched(actions)| <= |taken|
    ensures Letters(topic, taken + more, actions, wanted) == Letters(topic, taken, actions, wanted)
    decreases |actions|
  {
    if actions != [] {
      var front, last := actions[..|actions| - 1], [actions[|actions| - 1]];
      assert actions == front + last;
      FetchedConcat(front, last);
      LaterDeliveriesIrrelevant(topic, taken, more, front, wanted);
    }
  }

  lemma LetterMoves(topic: string, taken: seq<Delivery>, more: seq<Delivery>, n: nat, a: Action, wanted: set<bool>)
    requires a.DeadLetter? ==> n > 0
    ensures LetterOf(topic, taken + more, |taken| + n, a, wanted) == LetterOf(topic, more, n, a, wanted)
  {
    if 0 < n <= |more| {
      assert (taken + more)[|taken| + n - 1] == more[n - 1];
    }
  }

  lemma LedFront(taken: seq<Delivery>, actions: seq<Action>, a: Action)
    requires Led(taken, actions + [a])
    ensures Led(taken, actions)
    ensures a.DeadLetter? ==> 0 < |Fetched(actions)| <= |taken| && Names(a.msg, taken[|Fetched(actions)| - 1].m)
  {
    hide Fetched, Names;
    var all := actions + [a];
    assert LedAt(taken, all, |actions|) && all[..|actions| + 1] == all && all[|actions|] == a;
    OneMoreFetched(actions, a);
    forall i | 0 <= i < |actions| ensures LedAt(taken, actions, i) {
      assert LedAt(taken, all, i) && all[..i + 1] == actions[..i + 1] && all[i] == actions[i];
    }
  }

  lemma OneMoreFetched(actions: seq<Action>, a: Action)
    ensures |Fetched(actions + [a])| == |Fetched(actions)| + if a.Fetch? then 1 else 0
  {
    FetchedConcat(actions, [a]);
    assert [a][1..] == [];
  }

  lemma {:induction false} LettersConcat(topic: string, taken: seq<Delivery>, actions: seq<Action>, more: seq<Delivery>,
                                         next: seq<Action>, wanted: set<bool>)
    requires |Fetched(actions)| == |taken| && Led(more, next)
    ensures Letters(topic, taken + more, actions + next, wanted)
            == Letters(topic, taken, actions, wanted) + Letters(topic, more, next, wanted)
    decreases |next|
  {
    hide LetterOf, Fetched, Led;
    if next == [] {
      assert actions + next == actions;
      LaterDeliveriesIrrelevant(topic, taken, more, actions, wanted);
    } else {
      hide Letters;
      var front, last := next[..|next| - 1], next[|next| - 1];
      assert actions + next == (actions + front) + [last] && next == front + [last];
      LedFront(more, front, last);
      LettersConcat(topic, taken, actions, more, front, wanted);
      LettersAppend(topic, taken + more, actions + front, last, wanted);
      LettersAppend(topic, more, front, last, wanted);
      FetchedConcat(actions, front);
      LetterMoves(topic, taken, more, |Fetched(front)|, last, wanted);
    }
  }

  lemma LedConcat(taken: seq<Delivery>, actions: seq<Action>, more: seq<Delivery>, next: seq<Action>)
    requires Led(taken, actions) && Led(more, next) && |Fetched(actions)| == |taken|
    ensures Led(taken + more, actions + next)
  {
    hide Fetched, Names;
    var all := actions + next;
    forall i | 0 <= i < |all| ensures LedAt(taken + more, all, i) {
      if i < |actions| {
        assert LedAt(taken, actions, i) && all[..i + 1] == actions[..i + 1];
      } else {
        var j := i - |actions|;
        assert LedAt(more, next, j) && all[..i + 1] == actions + next[..j + 1] && all[i] == next[j];
        FetchedConcat(actions, next[..j + 1]);
      }
    }
  }

  // ---- a stretch of a program: its run, the messages it took, and what it entered into the accounts ----

  /** From `q` and `l` to `q'` and `l'`: the events are a run that asks for the actions; the messages fetched are the
      ones taken; and the publisher was given exactly the dead letters of the actions, in order. */
  ghost predicate Handles<Q, E>(step: (Q, E) -> Option<(Q, Action)>, topic: string, q: Q, l: Ledger, events: seq<E>,
                                actions: seq<Action>, taken: seq<Delivery>, q': Q, l': Ledger) {
    && Run(step, q, events) == Some((q', actions))
    && Fetched(actions) == Refs(taken)
    && Led(taken, actions)
    && l' == Entered(l, topic, taken, actions)
  }

  lemma HandlesNothing<Q, E>(step: (Q, E) -> Option<(Q, Action)>, topic: string, q: Q, l: Ledger)
    ensures Handles(step, topic, q, l, [], [], [], q, l)
  {
  }

  lemma HandlesMeans<Q, E>(step: (Q, E) -> Option<(Q, Action)>, topic: string, q: Q, l: Ledger, events: seq<E>,
                           actions: seq<Action>, taken: seq<Delivery>, q': Q, l': Ledger)
    requires Handles(step, topic, q, l, events, actions, taken, q', l')
    ensures Run(step, q, events) == Some((q', actions)) && Fetched(actions) == Refs(taken)
    ensures Led(taken, actions) && l' == Entered(l, topic, taken, actions)
  {
  }

  /** Stretches compose. */
  lemma HandlesThen<Q, E>(step: (Q, E) -> Option<(Q, Action)>, topic: string, q: Q, l: Ledger, events: seq<E>,
                          actions: seq<Action>, taken: seq<Delivery>, q': Q, l': Ledger, events': seq<E>,
                          actions': seq<Action>, taken': seq<Delivery>, q'': Q, l'': Ledger)
    requires Handles(step, topic, q, l, events, actions, taken, q', l')
    requires Handles(step, topic, q', l', events', actions', taken', q'', l'')
    ensures Handles(step, topic, q, l, events + events', actions + actions', taken + taken', q'', l'')
  {
    hide Run, Letters, Entered, Led, Fetched;
    RunSplit(step, q, events, q', actions, events', q'', actions');
    FetchedConcat(actions, actions');
    assert Refs(taken + taken') == Refs(taken) + Refs(taken');
    LedConcat(taken, actions, taken', actions');
    forall wanted ensures Letters(topic, taken + taken', actions + actions', wanted)
                          == Letters(topic, taken, actions, wanted) + Letters(topic, taken', actions', wanted)
    {
      LettersConcat(topic, taken, actions, taken', actions', wanted);
    }
    EnteredTwice(l, topic, taken, actions, taken', actions');
  }

  lemma EnteredTwice(l: Ledger, topic: string, taken: seq<Delivery>, actions: seq<Action>, taken': seq<Delivery>,
                     actions': seq<Action>)
    requires forall wanted :: Letters(topic, taken + taken', actions + actions', wanted)
                              == Letters(topic, taken, actions, wanted) + Letters(topic, taken', actions', wanted)
    ensures Entered(Entered(l, topic, taken, actions), topic, taken', actions')
            == Entered(l, topic, taken + taken', actions + actions')
  {
    hide Letters;
  }

  /** Concerns no message. */
  predicate Quiet(actions: seq<Action>) {
    forall a | a in actions :: !Concerns(a)
  }

  lemma {:induction false} QuietChangesNothing(topic: string, actions: seq<Action>, l: Ledger)
    requires Quiet(actions)
    ensures Fetched(actions) == [] && Led([], actions) && Entered(l, topic, [], actions) == l
    decreases |actions|
  {
    assert forall i | 0 <= i < |actions| :: actions[i] in actions;
    if actions != [] {
      var front, last := actions[..|actions| - 1], [actions[|actions| - 1]];
      assert actions == front + last && last[1..] == [];
      QuietChangesNothing(topic, front, l);
      FetchedConcat(front, last);
      forall wanted ensures Letters(topic, [], actions, wanted) == Letters(topic, [], front, wanted) {
        LettersAppend(topic, [], front, last[0], wanted);
      }
    }
  }

  /** A stretch that only asks for quiet actions. */
  lemma HandlesQuietly<Q, E>(step: (Q, E) -> Option<(Q, Action)>, topic: string, q: Q, l: Ledger, events: seq<E>,
                             actions: seq<Action>, q': Q)
    requires Run(step, q, events) == Some((q', actions)) && Quiet(actions)
    ensures Handles(step, topic, q, l, events, actions, [], q', l)
  {
    QuietChangesNothing(topic, actions, l);
  }

  // ---- one message ----

  /** What the handling of a fetched message asks for: it is processed or given up, then committed either way. */
  function HandlingActions(m: Ref, r: Result, accepted: bool, applied: bool): seq<Action> {
    if r.Ok? then [Process(m), Commit(m, applied)] else [DeadLetter(m, r.err, r.attempts, accepted), Commit(m, applied)]
  }

  /** Field by field: which of the two, with what error, and about which message. */
  lemma HandlingIsAbout(d: Delivery, r: Result, accepted: bool, applied: bool)
    ensures var actions := HandlingActions(d.Ref(), r, accepted, applied);
            && |actions| == 2 && actions[1].Commit? && actions[1].applied == applied
            && (if r.Ok? then actions[0].Process?
                else actions[0].DeadLetter? && actions[0].err == r.err && actions[0].attempts == r.attempts)
            && forall a | a in actions ::
                 && (a.Process? || a.DeadLetter? || a.Commit?)
                 && a.msg.tp.topic == d.m.topic && a.msg.tp.partition == d.m.partition && a.msg.offset == d.m.offset
  {
  }

  /** The accounts after a message ended with result `r`. */
  function AfterMessage(l: Ledger, topic: string, d: Delivery, r: Result, accepted: bool): Ledger {
    if r.Ok? then l
    else
      var letter := d.Letter(topic, r.err, r.attempts);
      l.(published := l.published + [letter],
         queue := l.queue + if accepted then [letter] else [],
         refused := l.refused + if accepted then [] else [letter])
  }

  /** What one polled message asks for, from its fetch to its commit. */
  function MessageActions(m: Ref, r: Result, accepted: bool, applied: bool): seq<Action> {
    [Fetch(m)] + HandlingActions(m, r, accepted, applied)
  }

  lemma MessageFetchesOne(d: Delivery, r: Result, accepted: bool, applied: bool)
    ensures Fetched(MessageActions(d.Ref(), r, accepted, applied)) == [d.Ref()]
    ensures Led([d], MessageActions(d.Ref(), r, accepted, applied))
  {
    var m, actions := d.Ref(), MessageActions(d.Ref(), r, accepted, applied);
    OneFetch(m, [actions[1], actions[2]]);
    OneFetch(m, [actions[1]]);
    OneFetch(m, []);
    assert actions == [Fetch(m)] + [actions[1], actions[2]];
    assert actions[..1] == [Fetch(m)] + [] && actions[..2] == [Fetch(m)] + [actions[1]] && actions[..3] == actions;
  }

  lemma {:induction false} OneFetch(m: Ref, rest: seq<Action>)
    requires forall a | a in rest :: !a.Fetch?
    ensures Fetched([Fetch(m)] + rest) == [m]
  {
    assert ([Fetch(m)] + rest)[1..] == rest;
    NoFetch(rest);
  }

  lemma {:induction false} NoFetch(actions: seq<Action>)
    requires forall a | a in actions :: !a.Fetch?
    ensures Fetched(actions) == []
  {
    if actions != [] {
      NoFetch(actions[1..]);
    }
  }

  lemma NoLetter(topic: string, taken: seq<Delivery>, actions: seq<Action>, a: Action, wanted: set<bool>)
    requires !a.DeadLetter?
    ensures Letters(topic, taken, actions + [a], wanted) == Letters(topic, taken, actions, wanted)
  {
    LettersAppend(topic, taken, actions, a, wanted);
  }

  lemma MiddleLetter(topic: string, taken: seq<Delivery>, a: Action, b: Action, c: Action, wanted: set<bool>)
    requires !a.DeadLetter? && !c.DeadLetter?
    ensures Letters(topic, taken, [a, b, c], wanted) == LetterOf(topic, taken, |Fetched([a])|, b, wanted)
  {
    var one := [a];
    var two := one + [b];
    assert Letters(topic, taken, one, wanted) == [] by {
      NoLetter(topic, taken, [], a, wanted);
      assert one == [] + [a];
    }
    hide LetterOf, Fetched, Letters;
    LettersAppend(topic, taken, one, b, wanted);
    NoLetter(topic, taken, two, c, wanted);
    assert two + [c] == [a, b, c];
  }

  lemma MessageLetters(topic: string, d: Delivery, r: Result, accepted: bool, applied: bool, wanted: set<bool>)
    ensures Letters(topic, [d], MessageActions(d.Ref(), r, accepted, applied), wanted)
            == if r.Failed? && accepted in wanted then [d.Letter(topic, r.err, r.attempts)] else []
  {
    var fetch, commit := Fetch(d.Ref()), Commit(d.Ref(), applied);
    var end := HandlingActions(d.Ref(), r, accepted, applied)[0];
    assert MessageActions(d.Ref(), r, accepted, applied) == [fetch, end, commit];
    MiddleLetter(topic, [d], fetch, end, commit, wanted);
    assert Fetched([fetch]) == [d.Ref()] by {
      assert [fetch][1..] == [];
    }
    hide Letters, Fetched;
  }

  lemma MessageEntered(l: Ledger, topic: string, d: Delivery, r: Result, accepted: bool, applied: bool)
    ensures Entered(l, topic, [d], MessageActions(d.Ref(), r, accepted, applied))
            == AfterMessage(l, topic, d, r, accepted)
  {
    MessageLetters(topic, d, r, accepted, applied, {true, false});
    MessageLetters(topic, d, r, accepted, applied, {true});
    MessageLetters(topic, d, r, accepted, applied, {false});
    hide MessageActions, Letters;
    assert l.published + [] == l.published && l.queue + [] == l.queue && l.refused + [] == l.refused;
  }

  lemma HandlesOne<Q, E>(step: (Q, E) -> Option<(Q, Action)>, topic: string, q: Q, l: Ledger, events: seq<E>,
                         d: Delivery, r: Result, accepted: bool, applied: bool, q': Q)
    requires Run(step, q, events) == Some((q', MessageActions(d.Ref(), r, accepted, applied)))
    ensures Handles(step, topic, q, l, events, MessageActions(d.Ref(), r, accepted, applied), [d], q',
                    AfterMessage(l, topic, d, r, accepted))
  {
    MessageFetchesOne(d, r, accepted, applied);
    MessageEntered(l, topic, d, r, accepted, applied);
    hide MessageActions, Entered, AfterMessage, Fetched, Led, Run;
    assert Refs([d]) == [d.Ref()];
  }
}
