/** The OAuth consumer, with its tokens erased, behaves exactly like the SCRAM consumer: a stuttering simulation,
    its converse, and the safety theorems it carries over. */
module Simulation {
  import opened Wrappers
  import opened Machines
  import opened Broker
  import opened ConsumeEvents
  import opened Tokens
  import O = OAuthConsumer
  import S = ScramConsumer
  import Safety = ScramSafety
  import Theorems = ScramTheorems
  import Drain = ScramDrain
  import Loss = ScramLoss
  import Repeats = ScramRepeats

  function ErasePc(pc: O.Pc): S.Pc {
    match pc
    case AtHead => S.Head
    case InPoll(n) => S.Polling(n)
    case RefreshingOnDemand => S.Head
    case Delayed(m) => S.Received(m)
    case Calling(m, k, late) => S.Attempting(m, k, late)
    case Waiting(m, k, late) => S.BackingOff(m, k, late)
    case Resolved(m, r) => S.Finished(m, r)
    case Timed(m, r) => S.Observed(m, r)
    case ToPublish(m, err, n) => S.Publishing(m, err, n)
    case ToCommit(m) => S.Committing(m)
    case Leaving => S.Closing
    case Flushing => S.Flushing
    case Exited => S.Down
  }

  function EraseConsumer(q: O.Consumer): S.Consumer {
    S.Consumer(ErasePc(q.pc), q.cancelled, q.ready, q.metrics)
  }

  function Erase(g: O.Group): S.Group {
    S.Group(g.world, map c | c in g.procs :: EraseConsumer(g.procs[c]))
  }

  /** A token step is a stutter, except that a poll which returns a refresh request returns no message. */
  function EraseEvent(e: O.Event): Option<LoopEvent> {
    match e
    case Shared(le) => Some(le)
    case RefreshRequested => Some(PollNothing)
    case _ => None
  }

  function EraseGroupEvent(e: O.GroupEvent): seq<GroupEvent> {
    match e
    case Outside(o) => [Elsewhere(o)]
    case Launch(c, _) => [Start(c)]
    case Inside(c, le) => if EraseEvent(le).Some? then [Loop(c, EraseEvent(le).value)] else []
  }

  function EraseEvents(events: seq<O.GroupEvent>): seq<GroupEvent> {
    if events == [] then [] else EraseGroupEvent(events[0]) + EraseEvents(events[1..])
  }

  lemma SharedStepSimulates(q: O.Consumer, e: LoopEvent, q': O.Consumer, a: Action)
    requires O.ShareStep(q, e) == Some((q', a))
    ensures S.Step(EraseConsumer(q), e) == Some((EraseConsumer(q'), a))
  {
  }

  lemma StepSimulates(q: O.Consumer, e: O.Event, q': O.Consumer, a: Action)
    requires O.Step(q, e) == Some((q', a))
    ensures EraseEvent(e).Some? ==> S.Step(EraseConsumer(q), EraseEvent(e).value) == Some((EraseConsumer(q'), a))
    ensures EraseEvent(e).None? ==> EraseConsumer(q') == EraseConsumer(q) && a == Internal
  {
    if e.Shared? {
      SharedStepSimulates(q, e.e, q', a);
    }
  }

  lemma GroupStepSimulates(g: O.Group, e: O.GroupEvent, h: O.Group)
    requires O.GroupStep(g, e) == Some(h)
    ensures Exec(S.GroupStep, Erase(g), EraseGroupEvent(e)) == Some(Erase(h))
  {
    match e
    case Outside(o) =>
      ExecOne(S.GroupStep, Erase(g), Elsewhere(o));
    case Launch(c, tok) =>
      ExecOne(S.GroupStep, Erase(g), Start(c));
      assert Erase(h).procs == Erase(g).procs[c := S.LAUNCHED];
    case Inside(c, le) =>
      var (q, a) := O.Step(g.procs[c], le).value;
      StepSimulates(g.procs[c], le, q, a);
      assert Erase(h).procs == Erase(g).procs[c := EraseConsumer(q)];
      if EraseEvent(le).Some? {
        ExecOne(S.GroupStep, Erase(g), Loop(c, EraseEvent(le).value));
      } else {
        assert Erase(h).procs == Erase(g).procs;
      }
  }

  /** Every OAuth run is, token state erased, a SCRAM run with the same world: the same handlings, DLQ contents
      and commits, and the same metrics. */
  lemma {:induction false} RunSimulates(g: O.Group, events: seq<O.GroupEvent>, h: O.Group)
    requires Exec(O.GroupStep, g, events) == Some(h)
    ensures Exec(S.GroupStep, Erase(g), EraseEvents(events)) == Some(Erase(h))
    decreases |events|
  {
    if events != [] {
      var next := O.GroupStep(g, events[0]).value;
      GroupStepSimulates(g, events[0], next);
      RunSimulates(next, events[1..], h);
      ExecSplit(S.GroupStep, Erase(g), EraseGroupEvent(events[0]), EraseEvents(events[1..]));
    }
  }

  // ---- one step back: a loop that is not fetching a token can do what the SCRAM loop does ----

  lemma StepLifts(q: O.Consumer, e: LoopEvent, q': S.Consumer, a: Action)
    requires !q.pc.RefreshingOnDemand? && S.Step(EraseConsumer(q), e) == Some((q', a))
    ensures O.Step(q, O.Shared(e)).Some?
    ensures var (p, b) := O.Step(q, O.Shared(e)).value; EraseConsumer(p) == q' && b == a
  {
    if Handling(e) {
      HandleStepLifts(q, e, q', a);
    } else {
      OtherStepLifts(q, e, q', a);
    }
  }

  /** What happens between a received message and its commit, or after the loop. */
  predicate Handling(e: LoopEvent) {
    match e
    case Signal => false
    case Crash => false
    case Enter(_) => false
    case Stop => false
    case Assigned(_) => false
    case Revoked => false
    case PollNothing => false
    case PollMessage(_) => false
    case PollError(_) => false
    case _ => true
  }

  lemma HandleStepLifts(q: O.Consumer, e: LoopEvent, q': S.Consumer, a: Action)
    requires Handling(e) && S.Step(EraseConsumer(q), e) == Some((q', a))
    ensures O.Step(q, O.Shared(e)) == O.HandleStep(q, e) && O.HandleStep(q, e).Some?
    ensures var (p, b) := O.HandleStep(q, e).value; EraseConsumer(p) == q' && b == a
  {
  }

  lemma OtherStepLifts(q: O.Consumer, e: LoopEvent, q': S.Consumer, a: Action)
    requires !q.pc.RefreshingOnDemand? && !Handling(e) && S.Step(EraseConsumer(q), e) == Some((q', a))
    ensures O.Step(q, O.Shared(e)).Some?
    ensures var (p, b) := O.Step(q, O.Shared(e)).value; EraseConsumer(p) == q' && b == a
  {
    hide O.HandleStep;
  }

  // ---- the converse: the OAuth consumer can do everything the SCRAM consumer does ----

  function EmbedPc(pc: S.Pc): O.Pc {
    match pc
    case Head => O.AtHead
    case Polling(n) => O.InPoll(n)
    case Received(m) => O.Delayed(m)
    case Attempting(m, k, late) => O.Calling(m, k, late)
    case BackingOff(m, k, late) => O.Waiting(m, k, late)
    case Finished(m, r) => O.Resolved(m, r)
    case Observed(m, r) => O.Timed(m, r)
    case Publishing(m, err, n) => O.ToPublish(m, err, n)
    case Committing(m) => O.ToCommit(m)
    case Closing => O.Leaving
    case Flushing => O.Flushing
    case Down => O.Exited
  }

  function EmbedConsumer(q: S.Consumer, tok: Token): O.Consumer {
    O.Consumer(EmbedPc(q.pc), q.cancelled, q.ready, q.metrics, tok, tok, tok, O.Asleep)
  }

  function Embed(g: S.Group, tok: Token): O.Group {
    O.Group(g.world, map c | c in g.procs :: EmbedConsumer(g.procs[c], tok))
  }

  function EmbedEvent(e: GroupEvent, tok: Token): O.GroupEvent {
    match e
    case Elsewhere(o) => O.Outside(o)
    case Start(c) => O.Launch(c, tok)
    case Loop(c, le) => O.Inside(c, O.Shared(le))
  }

  function EmbedEvents(events: seq<GroupEvent>, tok: Token): seq<O.GroupEvent> {
    if events == [] then [] else [EmbedEvent(events[0], tok)] + EmbedEvents(events[1..], tok)
  }

  lemma SharedStepKeepsTokens(q: O.Consumer, e: LoopEvent, q': O.Consumer, a: Action)
    requires O.Step(q, O.Shared(e)) == Some((q', a)) && !q.pc.RefreshingOnDemand?
    ensures q'.cache == q.cache && q'.consumerToken == q.consumerToken && q'.dlqToken == q.dlqToken
    ensures q'.refresher == q.refresher && !q'.pc.RefreshingOnDemand?
  {
  }

  lemma StepEmbeds(q: S.Consumer, e: LoopEvent, q': S.Consumer, a: Action, tok: Token)
    requires S.Step(q, e) == Some((q', a))
    ensures O.Step(EmbedConsumer(q, tok), O.Shared(e)) == Some((EmbedConsumer(q', tok), a))
  {
    hide S.Step, O.Step;
    assert EraseConsumer(EmbedConsumer(q, tok)) == q;
    StepLifts(EmbedConsumer(q, tok), e, q', a);
    var (p, _) := O.Step(EmbedConsumer(q, tok), O.Shared(e)).value;
    SharedStepKeepsTokens(EmbedConsumer(q, tok), e, p, a);
    assert p == EmbedConsumer(EraseConsumer(p), tok);
  }

  lemma GroupStepEmbeds(g: S.Group, e: GroupEvent, h: S.Group, tok: Token)
    requires S.GroupStep(g, e) == Some(h)
    ensures O.GroupStep(Embed(g, tok), EmbedEvent(e, tok)) == Some(Embed(h, tok))
  {
    match e
    case Elsewhere(_) =>
    case Start(c) =>
      assert Embed(h, tok).procs == Embed(g, tok).procs[c := O.Launched(tok)];
    case Loop(c, le) =>
      var (q, a) := S.Step(g.procs[c], le).value;
      StepEmbeds(g.procs[c], le, q, a, tok);
      assert Embed(h, tok).procs == Embed(g, tok).procs[c := EmbedConsumer(q, tok)];
  }

  /** Every SCRAM run is the erasure of an OAuth run in which no token is ever refreshed. */
  lemma {:induction false} RunEmbeds(g: S.Group, events: seq<GroupEvent>, h: S.Group, tok: Token)
    requires Exec(S.GroupStep, g, events) == Some(h)
    ensures Exec(O.GroupStep, Embed(g, tok), EmbedEvents(events, tok)) == Some(Embed(h, tok))
    ensures Erase(Embed(h, tok)) == h
    decreases |events|
  {
    EraseEmbed(h, tok);
    if events != [] {
      var next := S.GroupStep(g, events[0]).value;
      GroupStepEmbeds(g, events[0], next, tok);
      RunEmbeds(next, events[1..], h, tok);
      assert EmbedEvents(events, tok)[1..] == EmbedEvents(events[1..], tok);
    }
  }

  lemma EraseEmbed(g: S.Group, tok: Token)
    ensures Erase(Embed(g, tok)) == g
  {
    forall c | c in g.procs ensures EraseConsumer(EmbedConsumer(g.procs[c], tok)) == g.procs[c] {
    }
    assert Erase(Embed(g, tok)).procs == g.procs;
  }

  // ---- the converse from any state: an OAuth group can follow every SCRAM run ----

  predicate OnlyInside(events: seq<O.GroupEvent>, c: nat) {
    forall e | e in events :: e.Inside? && e.c == c
  }

  /** A loop that is fetching a token first gives up; to the SCRAM loop it is at its head already. */
  lemma SettlesAtHead(g: O.Group, c: nat) returns (events: seq<O.GroupEvent>, h: O.Group)
    requires c in g.procs && c in g.world.sessions
    ensures Exec(O.GroupStep, g, events) == Some(h) && Erase(h) == Erase(g) && |events| <= 1 && OnlyInside(events, c)
    ensures c in h.procs && c in h.world.sessions && !h.procs[c].pc.RefreshingOnDemand?
  {
    if g.procs[c].pc.RefreshingOnDemand? {
      h := O.Group(g.world, g.procs[c := g.procs[c].(pc := O.AtHead)]);
      assert O.GroupStep(g, O.Inside(c, O.OnDemandFailed)) == Some(h);
      events := [O.Inside(c, O.OnDemandFailed)];
      ExecOne(O.GroupStep, g, O.Inside(c, O.OnDemandFailed));
      assert Erase(h).procs == Erase(g).procs;
    } else {
      events, h := [], g;
    }
  }

  lemma LoopStepLifts(g: O.Group, c: nat, e: LoopEvent, h: S.Group) returns (events: seq<O.GroupEvent>, k: O.Group)
    requires S.GroupStep(Erase(g), Loop(c, e)) == Some(h)
    ensures Exec(O.GroupStep, g, events) == Some(k) && Erase(k) == h && |events| <= 2 && OnlyInside(events, c)
  {
    var before, g' := SettlesAtHead(g, c);
    var (q', a) := S.Step(EraseConsumer(g'.procs[c]), e).value;
    StepLifts(g'.procs[c], e, q', a);
    hide S.Step, O.Step, Perform;
    var (p, _) := O.Step(g'.procs[c], O.Shared(e)).value;
    k := O.Group(Perform(g'.world, c, a).value, g'.procs[c := p]);
    events := before + [O.Inside(c, O.Shared(e))];
    ExecAppend(O.GroupStep, g, before, g', O.Inside(c, O.Shared(e)));
    assert Erase(k).procs == Erase(g').procs[c := q'];
  }

  lemma GroupStepLifts(g: O.Group, e: GroupEvent, h: S.Group) returns (events: seq<O.GroupEvent>, k: O.Group)
    requires S.GroupStep(Erase(g), e) == Some(h)
    ensures Exec(O.GroupStep, g, events) == Some(k) && Erase(k) == h && |events| <= 2
    ensures e.Loop? ==> OnlyInside(events, e.c)
  {
    match e
    case Elsewhere(o) =>
      k, events := g.(world := h.world), [O.Outside(o)];
      ExecOne(O.GroupStep, g, O.Outside(o));
    case Start(c) =>
      k, events := O.Group(h.world, g.procs[c := O.Launched(ZERO_TOKEN)]), [O.Launch(c, ZERO_TOKEN)];
      ExecOne(O.GroupStep, g, O.Launch(c, ZERO_TOKEN));
      assert Erase(k).procs == h.procs;
    case Loop(c, le) =>
      events, k := LoopStepLifts(g, c, le, h);
  }

  /** From any state of an OAuth group, whatever tokens it holds, every SCRAM run from the erased state is the erasure
      of an OAuth run: the two variants can do exactly the same. */
  lemma {:induction false} RunLifts(g: O.Group, events: seq<GroupEvent>, h: S.Group)
    returns (lifted: seq<O.GroupEvent>, k: O.Group)
    requires Exec(S.GroupStep, Erase(g), events) == Some(h)
    ensures Exec(O.GroupStep, g, lifted) == Some(k) && Erase(k) == h && |lifted| <= 2 * |events|
    ensures forall c | Drain.OnlyBy(events, c) :: OnlyInside(lifted, c)
    decreases |events|
  {
    hide S.GroupStep, O.GroupStep;
    if events == [] {
      lifted, k := [], g;
    } else {
      var next := S.GroupStep(Erase(g), events[0]).value;
      var first, g' := GroupStepLifts(g, events[0], next);
      var rest;
      rest, k := RunLifts(g', events[1..], h);
      lifted := first + rest;
      ExecSplit(O.GroupStep, g, first, rest);
      forall c | Drain.OnlyBy(events, c) ensures OnlyInside(lifted, c) {
        assert events[0].Loop? && events[0].c == c && Drain.OnlyBy(events[1..], c);
      }
    }
  }

  // ---- what carries over ----

  /** At-least-once delivery and exact accounting for every run of an OAuth group. */
  lemma OAuthDelivers(g: O.Group, events: seq<O.GroupEvent>, h: O.Group)
    requires O.Initial(g) && Exec(O.GroupStep, g, events) == Some(h)
    ensures Theorems.AtLeastOnce(h.world) && Accounted(h.world)
    ensures forall m :: Theorems.Missing(h.world, m) <==> Theorems.OnlyFailures(h.world, m)
  {
    RunSimulates(g, events, h);
    assert Erase(g).procs == map[];
    Theorems.EveryRunDelivers(Erase(g), EraseEvents(events), Erase(h));
    Theorems.EveryRunAccounts(Erase(g), EraseEvents(events), Erase(h));
  }

  // ---- the fate of every handling of an OAuth run, from its events ----

  function Reports(events: seq<O.GroupEvent>, ok: bool): seq<nat> {
    if events == [] then []
    else
      var e := events[0];
      (if e.Outside? && e.o.Report? && e.o.ok == ok then [e.o.index] else []) + Reports(events[1..], ok)
  }

  /** How each handling ended, in order: processed, or published with the producer's verdict. */
  function Endings(events: seq<O.GroupEvent>): seq<Option<bool>> {
    if events == [] then [] else Ending(events[0]) + Endings(events[1..])
  }

  function Ending(e: O.GroupEvent): seq<Option<bool>> {
    if !e.Inside? || !e.e.Shared? then []
    else if e.e.e.AttemptOk? then [None]
    else if e.e.e.Publish? then [Some(e.e.e.accepted)]
    else []
  }

  /** The process that ends with this step. */
  predicate Ends(g: O.Group, e: O.GroupEvent, h: O.Group) {
    e.Inside? && e.c in g.procs && e.c in h.procs && !g.procs[e.c].pc.Exited? && h.procs[e.c].pc.Exited?
  }

  /** What was queued by a process when it ended. */
  function Lost(g: O.Group, events: seq<O.GroupEvent>): set<nat>
    decreases |events|
  {
    if events == [] || O.GroupStep(g, events[0]) == None then {}
    else
      var next := O.GroupStep(g, events[0]).value;
      (if Ends(g, events[0], next) then Theorems.QueuedBy(g.world, events[0].c) else {}) + Lost(next, events[1..])
  }

  lemma {:induction false} ReportsErased(events: seq<O.GroupEvent>, ok: bool)
    ensures Theorems.Reports(EraseEvents(events), ok) == Reports(events, ok)
    decreases |events|
  {
    if events != [] {
      ReportsErased(events[1..], ok);
      var first, rest := EraseGroupEvent(events[0]), EraseEvents(events[1..]);
      if first == [] {
        assert first + rest == rest;
      } else {
        assert (first + rest)[0] == first[0] && (first + rest)[1..] == rest;
      }
    }
  }

  lemma {:induction false} EndingsErased(events: seq<O.GroupEvent>)
    ensures Theorems.Endings(EraseEvents(events)) == Endings(events)
    decreases |events|
  {
    if events != [] {
      EndingsErased(events[1..]);
      var first, rest := EraseGroupEvent(events[0]), EraseEvents(events[1..]);
      if first == [] {
        assert first + rest == rest && Ending(events[0]) == [];
      } else {
        assert (first + rest)[0] == first[0] && (first + rest)[1..] == rest;
      }
    }
  }

  lemma StepLost(g: O.Group, e: O.GroupEvent, h: O.Group)
    requires O.GroupStep(g, e) == Some(h)
    ensures EraseGroupEvent(e) == [] ==> !Ends(g, e, h)
    ensures EraseGroupEvent(e) != [] ==>
              && S.GroupStep(Erase(g), EraseGroupEvent(e)[0]) == Some(Erase(h)) && |EraseGroupEvent(e)| == 1
              && (Theorems.Ends(Erase(g), EraseGroupEvent(e)[0], Erase(h)) <==> Ends(g, e, h))
              && (e.Inside? ==> EraseGroupEvent(e)[0].Loop? && EraseGroupEvent(e)[0].c == e.c)
  {
    if EraseGroupEvent(e) != [] {
      hide S.GroupStep, O.GroupStep;
      GroupStepSimulates(g, e, h);
      assert EraseGroupEvent(e) == [EraseGroupEvent(e)[0]];
      ExecOne(S.GroupStep, Erase(g), EraseGroupEvent(e)[0]);
      EndsErased(g, e, h);
    } else {
      StutterEndsNothing(g, e, h);
    }
  }

  lemma EndsErased(g: O.Group, e: O.GroupEvent, h: O.Group)
    requires EraseGroupEvent(e) != []
    ensures Theorems.Ends(Erase(g), EraseGroupEvent(e)[0], Erase(h)) <==> Ends(g, e, h)
  {
  }

  lemma StutterEndsNothing(g: O.Group, e: O.GroupEvent, h: O.Group)
    requires O.GroupStep(g, e) == Some(h) && EraseGroupEvent(e) == []
    ensures !Ends(g, e, h)
  {
    var (q, a) := O.Step(g.procs[e.c], e.e).value;
    StepSimulates(g.procs[e.c], e.e, q, a);
    hide O.Step, S.Step;
    assert ErasePc(q.pc) == ErasePc(g.procs[e.c].pc);
  }

  lemma {:induction false} LostErased(g: O.Group, events: seq<O.GroupEvent>, h: O.Group)
    requires Exec(O.GroupStep, g, events) == Some(h)
    ensures Theorems.Lost(Erase(g), EraseEvents(events)) == Lost(g, events)
    decreases |events|
  {
    hide O.GroupStep, S.GroupStep;
    if events != [] {
      var next := O.GroupStep(g, events[0]).value;
      LostErased(next, events[1..], h);
      StepLost(g, events[0], next);
      var first, rest := EraseGroupEvent(events[0]), EraseEvents(events[1..]);
      if first == [] {
        GroupStepSimulates(g, events[0], next);
        assert first + rest == rest && Erase(next) == Erase(g);
      } else {
        assert (first + rest)[0] == first[0] && (first + rest)[1..] == rest;
      }
    }
  }

  /** The fate of every handling of an OAuth run, from its events alone: processed, refused, delivered and undelivered
      as its events say, and dropped exactly if it was queued by a process when that ended. */
  lemma OAuthFates(g: O.Group, events: seq<O.GroupEvent>, h: O.Group)
    requires O.Initial(g) && Exec(O.GroupStep, g, events) == Some(h)
    ensures h.world.delivered == Reports(events, true)
    ensures forall i :: i in h.world.undelivered <==> i in Reports(events, false)
    ensures h.world.dropped == Lost(g, events)
    ensures |h.world.handled| == |Endings(events)|
    ensures forall i | 0 <= i < |Endings(events)| ::
              && (h.world.handled[i].how == Processed <==> Endings(events)[i] == None)
              && (i in h.world.refused <==> Endings(events)[i] == Some(false))
  {
    RunSimulates(g, events, h);
    assert Erase(g).procs == map[];
    Theorems.EveryRunFates(Erase(g), EraseEvents(events), Erase(h));
    ReportsErased(events, true);
    ReportsErased(events, false);
    EndingsErased(events);
    LostErased(g, events, h);
  }

  lemma OAuthMetricsExact(g: O.Group, events: seq<O.GroupEvent>, h: O.Group, c: nat, topic: string)
    requires O.Initial(g) && Exec(O.GroupStep, g, events) == Some(h) && c in h.procs && h.procs[c].pc.AtHead?
    ensures var m := h.procs[c].metrics;
            && Get(m.success, topic) == Theorems.HandledBy(h.world.handled, c, topic, true)
            && Get(m.dlq, topic) == Get(m.dlqTotal, topic) == Theorems.HandledBy(h.world.handled, c, topic, false)
            && Get(m.observed, topic) == Get(m.success, topic) + Get(m.dlq, topic)
  {
    RunSimulates(g, events, h);
    assert Erase(g).procs == map[];
    Theorems.MetricsExactAtHead(Erase(g), EraseEvents(events), Erase(h), c, topic);
  }

  lemma OAuthCommitsNeverRegress(g: O.Group, before: seq<O.GroupEvent>, h: O.Group, after: seq<O.GroupEvent>,
                                 k: O.Group)
    requires O.Initial(g) && Exec(O.GroupStep, g, before) == Some(h) && Exec(O.GroupStep, h, after) == Some(k)
    ensures Safety.CommitsAdvance(h.world, k.world)
  {
    RunSimulates(g, before, h);
    RunSimulates(h, after, k);
    assert Erase(g).procs == map[];
    ExecSplit(S.GroupStep, Erase(g), EraseEvents(before), EraseEvents(after));
    Theorems.CommitsNeverRegress(Erase(g), EraseEvents(before), Erase(h), EraseEvents(after), Erase(k));
  }

  /** A message below the committed position is handled again only by an OAuth consumer that lost the partition. */
  lemma OAuthOwnersNeverRepeat(g0: O.Group, before: seq<O.GroupEvent>, g: O.Group, e: O.GroupEvent, h: O.Group)
    requires O.Initial(g0) && Exec(O.GroupStep, g0, before) == Some(g) && O.GroupStep(g, e) == Some(h)
    ensures Repeats.OwnersHandleOnce(g.world, h.world)
  {
    RunSimulates(g0, before, g);
    GroupStepSimulates(g, e, h);
    assert Erase(g0).procs == map[];
    if EraseGroupEvent(e) != [] {
      ExecOne(S.GroupStep, Erase(g), EraseGroupEvent(e)[0]);
      assert EraseGroupEvent(e) == [EraseGroupEvent(e)[0]];
      Repeats.OwnersNeverRepeat(Erase(g0), EraseEvents(before), Erase(g), EraseGroupEvent(e)[0], Erase(h));
    }
  }

  ghost predicate NothingSkipped(g: O.Group, tp: TopicPartition)
    requires tp in g.world.parts
  {
    forall events, h | Exec(O.GroupStep, g, events) == Some(h) ::
      Loss.HandledFrom(h.world, tp, Position(g.world.parts[tp]))
  }

  /** From any reachable state of an OAuth group too, nothing is skipped from where the partition would resume now, in
      any continuation, if and only if the partition has a committed position. */
  lemma OAuthNothingSkippedExactly(g0: O.Group, before: seq<O.GroupEvent>, g: O.Group, tp: TopicPartition)
    requires O.Initial(g0) && Exec(O.GroupStep, g0, before) == Some(g) && tp in g.world.parts
    ensures NothingSkipped(g, tp) <==> g.world.parts[tp].committed.Some?
  {
    RunSimulates(g0, before, g);
    assert Erase(g0).procs == map[];
    Loss.NothingSkippedExactly(Erase(g0), EraseEvents(before), Erase(g), tp);
    hide O.GroupStep, S.GroupStep, Loss.HandledFrom;
    if g.world.parts[tp].committed.Some? {
      forall events, h | Exec(O.GroupStep, g, events) == Some(h)
        ensures Loss.HandledFrom(h.world, tp, Position(g.world.parts[tp]))
      {
        RunSimulates(g, events, h);
      }
    } else {
      var events, h :| Exec(S.GroupStep, Erase(g), events) == Some(h)
                       && !Loss.HandledFrom(h.world, tp, Position(g.world.parts[tp]));
      var lifted, k := RunLifts(g, events, h);
    }
  }

  // ---- only the signal stops a process ----

  lemma {:induction false} SignalErased(events: seq<O.GroupEvent>, c: nat)
    ensures Loop(c, Signal) in EraseEvents(events) <==> O.Inside(c, O.Shared(Signal)) in events
    decreases |events|
  {
    if events != [] {
      SignalErased(events[1..], c);
      assert events == [events[0]] + events[1..];
      assert Loop(c, Signal) in EraseGroupEvent(events[0]) <==> O.Inside(c, O.Shared(Signal)) == events[0];
    }
  }

  lemma RefresherSignalled(q: O.Consumer, q': O.Consumer, a: Action)
    requires O.Step(q, O.RefresherStops) == Some((q', a))
    ensures q.cancelled
  {
  }

  /** In every OAuth run the consume loop leaves or cuts a backoff short, and the refresh loop ends, only after the
      process's signal, and the consume loop polls only before it. */
  lemma OAuthOnlySignalStops(g: O.Group, before: seq<O.GroupEvent>, h: O.Group, c: nat, e: O.Event, k: O.Group)
    requires O.Initial(g) && Exec(O.GroupStep, g, before) == Some(h) && O.GroupStep(h, O.Inside(c, e)) == Some(k)
    ensures e == O.Shared(Stop) || e == O.Shared(Interrupt) || e.RefresherStops? ==>
              O.Inside(c, O.Shared(Signal)) in before
    ensures e.Shared? && e.e.Enter? ==> O.Inside(c, O.Shared(Signal)) !in before
  {
    RunSimulates(g, before, h);
    assert Erase(g).procs == map[];
    Drain.RunSignalled(Erase(g), EraseEvents(before), Erase(h));
    SignalErased(before, c);
    assert Erase(h).procs[c].cancelled == h.procs[c].cancelled;
    var (q, a) := O.Step(h.procs[c], e).value;
    if e.Shared? {
      StepSimulates(h.procs[c], e, q, a);
      Drain.StepSignalled(EraseConsumer(h.procs[c]), e.e, EraseConsumer(q), a);
    } else if e.RefresherStops? {
      RefresherSignalled(h.procs[c], q, a);
    }
    hide O.Step, S.Step;
  }

  // ---- the drain ----

  /** How many more steps a cancelled loop can take, on-demand refreshes included. */
  function StepsLeft(q: O.Consumer): nat {
    if q.pc.RefreshingOnDemand? then 4 else Drain.StepsLeft(EraseConsumer(q))
  }

  /** A step of the consume loop itself: neither the signal nor a step of the refresh goroutine. */
  predicate OfLoop(e: O.Event) {
    match e
    case Shared(le) => le != Signal
    case RefreshRequested => true
    case OnDemandOk(_, _) => true
    case OnDemandFailed => true
    case _ => false
  }

  function LoopSteps(events: seq<O.GroupEvent>, c: nat): nat {
    if events == [] then 0
    else
      var own := events[0].Inside? && events[0].c == c && OfLoop(events[0].e);
      (if own then 1 else 0) + LoopSteps(events[1..], c)
  }

  lemma OwnStepDrains(q: O.Consumer, e: O.Event, q': O.Consumer, a: Action)
    requires O.Step(q, e) == Some((q', a)) && q.cancelled && Drain.RetryPcInv(EraseConsumer(q))
    ensures q'.cancelled && Drain.RetryPcInv(EraseConsumer(q'))
    ensures StepsLeft(q') + (if OfLoop(e) then 1 else 0) <= StepsLeft(q)
  {
    if EraseEvent(e).Some? {
      StepSimulates(q, e, q', a);
      Drain.StepKeepsRetryPc(EraseConsumer(q), EraseEvent(e).value, EraseConsumer(q'), a);
      if EraseEvent(e).value != Signal {
        Drain.StepDrains(EraseConsumer(q), EraseEvent(e).value, EraseConsumer(q'), a);
      }
      hide S.Step;
    }
  }

  lemma GroupStepDrains(g: O.Group, e: O.GroupEvent, h: O.Group, c: nat)
    requires O.GroupStep(g, e) == Some(h)
    requires c in g.procs && g.procs[c].cancelled && Drain.RetryPcInv(EraseConsumer(g.procs[c]))
    ensures c in h.procs && h.procs[c].cancelled && Drain.RetryPcInv(EraseConsumer(h.procs[c]))
    ensures StepsLeft(h.procs[c]) + LoopSteps([e], c) <= StepsLeft(g.procs[c])
  {
    assert [e][1..] == [] && LoopSteps([], c) == 0;
    if e.Inside? && e.c == c {
      var (q, a) := O.Step(g.procs[c], e.e).value;
      OwnStepDrains(g.procs[c], e.e, q, a);
    }
    hide O.Step, StepsLeft, OfLoop;
  }

  lemma {:induction false} StepsBounded(g: O.Group, events: seq<O.GroupEvent>, h: O.Group, c: nat)
    requires Exec(O.GroupStep, g, events) == Some(h)
    requires c in g.procs && g.procs[c].cancelled && Drain.RetryPcInv(EraseConsumer(g.procs[c]))
    ensures c in h.procs && LoopSteps(events, c) + StepsLeft(h.procs[c]) <= StepsLeft(g.procs[c])
    decreases |events|
  {
    if events != [] {
      var next := O.GroupStep(g, events[0]).value;
      hide O.GroupStep, StepsLeft;
      GroupStepDrains(g, events[0], next, c);
      StepsBounded(next, events[1..], h, c);
      assert [events[0]][1..] == [] && LoopSteps([], c) == 0;
    }
  }

  /** After cancellation an OAuth consumer completes at most one more message, begins at most one more attempt, and its
      loop takes a bounded number of steps, on-demand refreshes included. */
  lemma OAuthBoundedDrain(g: O.Group, before: seq<O.GroupEvent>, h: O.Group, after: seq<O.GroupEvent>, k: O.Group,
                          c: nat)
    requires O.Initial(g) && Exec(O.GroupStep, g, before) == Some(h) && Exec(O.GroupStep, h, after) == Some(k)
    requires c in h.procs && h.procs[c].cancelled
    ensures Drain.Tallied(EraseEvents(after), c).completions <= 1 && Drain.Tallied(EraseEvents(after), c).attempts <= 1
    ensures Drain.Tallied(EraseEvents(after), c).successes <= Drain.SuccessesLeft(EraseConsumer(h.procs[c]))
    ensures Drain.Tallied(EraseEvents(after), c).steps <= Drain.StepsLeft(EraseConsumer(h.procs[c]))
    ensures c in k.procs && LoopSteps(after, c) + StepsLeft(k.procs[c]) <= StepsLeft(h.procs[c])
  {
    RunSimulates(g, before, h);
    RunSimulates(h, after, k);
    assert Erase(g).procs == map[];
    Drain.RetryPcAlways(Erase(g), EraseEvents(before), Erase(h));
    Drain.BoundedDrain(Erase(h), EraseEvents(after), Erase(k), c);
    assert Drain.RetryPcInv(Erase(h).procs[c]);
    StepsBounded(h, after, k, c);
  }

  /** And it is never stuck: from every reachable state, also in the middle of an on-demand refresh, a cancelled OAuth
      consumer can run to its end by itself. */
  lemma OAuthDrainCompletes(g: O.Group, before: seq<O.GroupEvent>, h: O.Group, c: nat)
    returns (after: seq<O.GroupEvent>, k: O.Group)
    requires O.Initial(g) && Exec(O.GroupStep, g, before) == Some(h) && c in h.procs && h.procs[c].cancelled
    ensures Exec(O.GroupStep, h, after) == Some(k) && c in k.procs && k.procs[c].pc.Exited?
    ensures OnlyInside(after, c) && |after| <= 2 * Drain.StepsLeft(EraseConsumer(h.procs[c]))
  {
    hide S.GroupStep, O.GroupStep, Drain.StepsLeft, Drain.RetryPcInv, Exec;
    RunSimulates(g, before, h);
    ReachableDrains(g, before, h);
    after, k := CompletesFrom(h, c);
  }

  lemma CompletesFrom(h: O.Group, c: nat) returns (after: seq<O.GroupEvent>, k: O.Group)
    requires Erase(h).world.sessions.Keys == Erase(h).procs.Keys && c in h.procs && h.procs[c].cancelled
    requires Drain.RetryPcInv(Erase(h).procs[c])
    ensures Exec(O.GroupStep, h, after) == Some(k) && c in k.procs && k.procs[c].pc.Exited?
    ensures OnlyInside(after, c) && |after| <= 2 * Drain.StepsLeft(EraseConsumer(h.procs[c]))
  {
    hide S.GroupStep, O.GroupStep, Drain.StepsLeft, Drain.RetryPcInv, Exec;
    var events, end := Drain.DrainCompletes(Erase(h), c);
    after, k := RunLifts(h, events, end);
    assert c in Erase(k).procs && Erase(k).procs[c] == EraseConsumer(k.procs[c]);
  }

  lemma ReachableDrains(g: O.Group, before: seq<O.GroupEvent>, h: O.Group)
    requires O.Initial(g) && Exec(S.GroupStep, Erase(g), EraseEvents(before)) == Some(Erase(h))
    ensures forall c | c in Erase(h).procs :: Drain.RetryPcInv(Erase(h).procs[c])
    ensures Erase(h).world.sessions.Keys == Erase(h).procs.Keys
  {
    assert Erase(g).procs == map[];
    Drain.RetryPcAlways(Erase(g), EraseEvents(before), Erase(h));
    Theorems.RunAccounts(Erase(g), EraseEvents(before), Erase(h));
  }
}
