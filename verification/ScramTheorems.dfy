/** What the invariants say about whole runs of a SCRAM group. */
module ScramTheorems {
  import opened Wrappers
  import opened Machines
  import opened Broker
  import opened ConsumeEvents
  import opened ScramConsumer
  import opened ScramSafety

  lemma {:induction false} RunKeepsInv(g: Group, events: seq<GroupEvent>, h: Group)
    requires Inv(g) && Exec(GroupStep, g, events) == Some(h)
    ensures Inv(h) && CommitsAdvance(g.world, h.world)
    decreases |events|
  {
    if events != [] {
      var next := GroupStep(g, events[0]).value;
      StepKeepsInv(g, events[0], next);
      RunKeepsInv(next, events[1..], h);
    }
  }

  /** At-least-once: whatever is committed was handled, from the start of the session that first committed. */
  ghost predicate AtLeastOnce(w: World) {
    forall tp | tp in w.parts && w.parts[tp].committed.Some? ::
      && w.parts[tp].base.Some? && w.parts[tp].base.value <= w.parts[tp].committed.value <= w.parts[tp].logEnd
      && forall o: nat | w.parts[tp].base.value <= o < w.parts[tp].committed.value :: WasHandled(w, Ref(tp, o))
  }

  /** In every run, with any number of consumers, rebalances, evictions, failed commits and crashes. */
  lemma EveryRunDelivers(g: Group, events: seq<GroupEvent>, h: Group)
    requires Initial(g) && Exec(GroupStep, g, events) == Some(h)
    ensures AtLeastOnce(h.world) && Inv(h)
  {
    RunKeepsInv(g, events, h);
    forall tp | tp in h.world.parts && h.world.parts[tp].committed.Some?
      ensures CommittedHandled(h.world, tp)
    {
    }
  }

  /** Committed positions never move back, and the first commit's base never changes. */
  lemma CommitsNeverRegress(g: Group, before: seq<GroupEvent>, h: Group, after: seq<GroupEvent>, k: Group)
    requires Initial(g) && Exec(GroupStep, g, before) == Some(h) && Exec(GroupStep, g, before + after) == Some(k)
    ensures CommitsAdvance(h.world, k.world)
  {
    ExecSplit(GroupStep, g, before, after);
    RunKeepsInv(g, before, h);
    RunKeepsInv(h, after, k);
  }

  // ---- accounting ----

  ghost predicate QueuesAlive(g: Group) {
    && g.world.sessions.Keys == g.procs.Keys
    && forall i | i in g.world.queued :: g.world.queued[i] in g.procs && !g.procs[g.world.queued[i]].pc.Down?
  }

  lemma SessionsKeepAccounts(w: World, sessions: map<nat, map<TopicPartition, Session>>)
    requires Accounted(w)
    ensures Accounted(w.(sessions := sessions))
  {
    forall i: nat | i < |w.handled| ensures Classes(w.(sessions := sessions), i) == 1 {
      assert Classes(w, i) == 1;
    }
  }

  lemma StepDies(q: Consumer, e: LoopEvent, q': Consumer, a: Action)
    requires Step(q, e) == Some((q', a))
    ensures !q.pc.Down? && (q'.pc.Down? <==> a == Die)
  {
  }

  lemma PerformKeepsQueues(w: World, c: nat, a: Action, w': World)
    requires c in w.sessions && Perform(w, c, a) == Some(w')
    ensures w'.sessions.Keys == w.sessions.Keys
    ensures forall i | i in w'.queued :: w'.queued[i] == c || (i in w.queued && w'.queued[i] == w.queued[i])
    ensures a == Die ==> forall i | i in w'.queued :: w'.queued[i] != c
  {
  }

  lemma StepAccounts(g: Group, e: GroupEvent, h: Group)
    requires Accounted(g.world) && QueuesAlive(g) && GroupStep(g, e) == Some(h)
    ensures Accounted(h.world) && QueuesAlive(h)
  {
    match e
    case Elsewhere(o) => HappenKeepsAccounts(g.world, o, h.world);
    case Start(c) => SessionsKeepAccounts(g.world, h.world.sessions);
    case Loop(c, le) =>
      var (q, a) := Step(g.procs[c], le).value;
      PerformKeepsAccounts(g.world, c, a, h.world);
      PerformKeepsQueues(g.world, c, a, h.world);
      StepDies(g.procs[c], le, q, a);
  }

  lemma {:induction false} RunAccounts(g: Group, events: seq<GroupEvent>, h: Group)
    requires Accounted(g.world) && QueuesAlive(g) && Exec(GroupStep, g, events) == Some(h)
    ensures Accounted(h.world) && QueuesAlive(h)
    decreases |events|
  {
    if events != [] {
      var next := GroupStep(g, events[0]).value;
      StepAccounts(g, events[0], next);
      RunAccounts(next, events[1..], h);
    }
  }

  // ---- which class: what the events of a run say about every handling ----

  /** The handlings whose delivery was reported with the given outcome, in report order. */
  function Reports(events: seq<GroupEvent>, ok: bool): seq<nat> {
    if events == [] then [] else Reported(events[0], ok) + Reports(events[1..], ok)
  }

  function Reported(e: GroupEvent, ok: bool): seq<nat> {
    if e.Elsewhere? && e.o.Report? && e.o.ok == ok then [e.o.index] else []
  }

  function Indices(s: seq<nat>): set<nat> {
    set i | i in s
  }

  lemma ReportsSplit(events: seq<GroupEvent>, ok: bool)
    requires events != []
    ensures Reports(events, ok) == Reports([events[0]], ok) + Reports(events[1..], ok)
    ensures Indices(Reports(events, ok)) == Indices(Reports([events[0]], ok)) + Indices(Reports(events[1..], ok))
  {
    hide Reported;
    assert [events[0]][1..] == [] && Reported(events[0], ok) + [] == Reported(events[0], ok);
  }

  /** How each handling ended, in order: processed, or published with the producer's verdict. */
  function Endings(events: seq<GroupEvent>): seq<Option<bool>> {
    if events == [] then []
    else Ending(events[0]) + Endings(events[1..])
  }

  function Ending(e: GroupEvent): seq<Option<bool>> {
    if e.Loop? && e.e.AttemptOk? then [None]
    else if e.Loop? && e.e.Publish? then [Some(e.e.accepted)]
    else []
  }

  /** The process that ends with this step. */
  predicate Ends(g: Group, e: GroupEvent, h: Group) {
    e.Loop? && e.c in g.procs && e.c in h.procs && !g.procs[e.c].pc.Down? && h.procs[e.c].pc.Down?
  }

  function QueuedBy(w: World, c: nat): set<nat> {
    set i | i in w.queued && w.queued[i] == c
  }

  /** What was queued by a process when it ended. */
  function Lost(g: Group, events: seq<GroupEvent>): set<nat>
    decreases |events|
  {
    if events == [] || GroupStep(g, events[0]) == None then {}
    else
      var next := GroupStep(g, events[0]).value;
      (if Ends(g, events[0], next) then QueuedBy(g.world, events[0].c) else {}) + Lost(next, events[1..])
  }

  /** The handlings, counted from `base`, with the given ending. */
  function Refused(base: nat, endings: seq<Option<bool>>): set<nat> {
    set k | 0 <= k < |endings| && endings[k] == Some(false) :: base + k
  }

  ghost predicate EndedAs(handled: seq<Handling>, base: nat, endings: seq<Option<bool>>) {
    && |handled| == base + |endings|
    && forall k | 0 <= k < |endings| :: handled[base + k].how == Processed <==> endings[k] == None
  }

  lemma OutsideFates(g: Group, o: Outside, h: Group)
    requires GroupStep(g, Elsewhere(o)) == Some(h)
    ensures h.world.delivered == g.world.delivered + (if o.Report? && o.ok then [o.index] else [])
    ensures h.world.undelivered == g.world.undelivered + (if o.Report? && !o.ok then {o.index} else {})
    ensures h.world.dropped == g.world.dropped && h.world.handled == g.world.handled
    ensures h.world.refused == g.world.refused
  {
  }

  lemma PerformFates(w: World, c: nat, a: Action, w': World)
    requires c in w.sessions && Perform(w, c, a) == Some(w')
    ensures w'.delivered == w.delivered && w'.undelivered == w.undelivered
    ensures w'.dropped == w.dropped + if a == Die then QueuedBy(w, c) else {}
    ensures w'.refused == w.refused + if a.DeadLetter? && !a.accepted then {|w.handled|} else {}
  {
  }

  lemma StepEnds(q: Consumer, e: LoopEvent, q': Consumer, a: Action)
    requires Step(q, e) == Some((q', a))
    ensures e.AttemptOk? <==> a.Process?
    ensures e.Publish? <==> a.DeadLetter?
    ensures e.Publish? ==> a.accepted == e.accepted
  {
  }

  lemma LoopFates(g: Group, c: nat, le: LoopEvent, h: Group)
    requires GroupStep(g, Loop(c, le)) == Some(h)
    ensures h.world.delivered == g.world.delivered && h.world.undelivered == g.world.undelivered
    ensures h.world.dropped == g.world.dropped + if Ends(g, Loop(c, le), h) then QueuedBy(g.world, c) else {}
    ensures h.world.refused == g.world.refused + Refused(|g.world.handled|, Ending(Loop(c, le)))
    ensures g.world.handled <= h.world.handled && EndedAs(h.world.handled, |g.world.handled|, Ending(Loop(c, le)))
  {
    var (q, a) := Step(g.procs[c], le).value;
    PerformFates(g.world, c, a, h.world);
    PerformAppends(g.world, c, a, h.world);
    StepDies(g.procs[c], le, q, a);
    StepEnds(g.procs[c], le, q, a);
    hide Step, Perform;
    RefusedFew(|g.world.handled|);
  }

  lemma RefusedFew(base: nat)
    ensures Refused(base, []) == Refused(base, [None]) == Refused(base, [Some(true)]) == {}
    ensures Refused(base, [Some(false)]) == {base}
  {
    var refusal := [Some(false)];
    assert refusal[0] == Some(false) && base + 0 in Refused(base, refusal);
  }

  lemma RefusedConcat(base: nat, first: seq<Option<bool>>, rest: seq<Option<bool>>)
    ensures Refused(base, first + rest) == Refused(base, first) + Refused(base + |first|, rest)
  {
    forall i | i in Refused(base, first + rest) ensures i in Refused(base, first) + Refused(base + |first|, rest) {
      var k :| 0 <= k < |first + rest| && (first + rest)[k] == Some(false) && i == base + k;
      assert k < |first| ==> first[k] == Some(false);
      assert k >= |first| ==> rest[k - |first|] == Some(false) && i == base + |first| + (k - |first|);
    }
    forall i | i in Refused(base, first) + Refused(base + |first|, rest) ensures i in Refused(base, first + rest) {
      if i in Refused(base, first) {
        var k :| 0 <= k < |first| && first[k] == Some(false) && i == base + k;
        assert (first + rest)[k] == Some(false);
      } else {
        var k :| 0 <= k < |rest| && rest[k] == Some(false) && i == base + |first| + k;
        assert (first + rest)[|first| + k] == Some(false) && i == base + (|first| + k);
      }
    }
  }

  lemma EndedConcat(handled: seq<Handling>, base: nat, first: seq<Option<bool>>, handled': seq<Handling>,
                    rest: seq<Option<bool>>)
    requires EndedAs(handled, base, first) && handled <= handled' && EndedAs(handled', |handled|, rest)
    ensures EndedAs(handled', base, first + rest)
  {
    forall k | 0 <= k < |first + rest| ensures handled'[base + k].how == Processed <==> (first + rest)[k] == None {
      if k < |first| {
        assert handled'[base + k] == handled[base + k];
      } else {
        assert handled'[|handled| + (k - |first|)].how == Processed <==> rest[k - |first|] == None;
      }
    }
  }

  ghost predicate Fates(g: Group, events: seq<GroupEvent>, w: World) {
    && w.delivered == g.world.delivered + Reports(events, true)
    && w.undelivered == g.world.undelivered + Indices(Reports(events, false))
    && w.dropped == g.world.dropped + Lost(g, events)
    && w.refused == g.world.refused + Refused(|g.world.handled|, Endings(events))
    && g.world.handled <= w.handled && EndedAs(w.handled, |g.world.handled|, Endings(events))
  }

  lemma OneEvent(g: Group, e: GroupEvent, h: Group)
    requires GroupStep(g, e) == Some(h)
    ensures forall ok :: Reports([e], ok) == Reported(e, ok)
    ensures Endings([e]) == Ending(e)
    ensures Lost(g, [e]) == if Ends(g, e, h) then QueuedBy(g.world, e.c) else {}
  {
    assert [e][1..] == [];
  }

  lemma StepFates(g: Group, e: GroupEvent, h: Group)
    requires GroupStep(g, e) == Some(h)
    ensures Fates(g, [e], h.world)
  {
    OneEvent(g, e, h);
    RefusedFew(|g.world.handled|);
    match e
    case Elsewhere(o) => OutsideFates(g, o, h);
    case Start(_) =>
    case Loop(c, le) => LoopFates(g, c, le, h);
  }

  lemma FatesJoin(g: Group, events: seq<GroupEvent>, next: Group, w: World)
    requires events != [] && GroupStep(g, events[0]) == Some(next)
    requires Fates(g, [events[0]], next.world) && Fates(next, events[1..], w)
    ensures Fates(g, events, w)
  {
    hide Endings, Reports, Indices, Lost, GroupStep, Refused, EndedAs, Ends, Ending;
    var first, rest := Endings([events[0]]), Endings(events[1..]);
    ReportsSplit(events, true);
    ReportsSplit(events, false);
    EndingsSplit(events);
    LostSplit(g, events, next);
    RefusedConcat(|g.world.handled|, first, rest);
    EndedLength(next.world.handled, |g.world.handled|, first);
    EndedConcat(next.world.handled, |g.world.handled|, first, w.handled, rest);
  }

  lemma EndingsSplit(events: seq<GroupEvent>)
    requires events != []
    ensures Endings(events) == Endings([events[0]]) + Endings(events[1..])
  {
    hide Ending;
    assert [events[0]][1..] == [] && Ending(events[0]) + [] == Ending(events[0]);
  }

  lemma LostSplit(g: Group, events: seq<GroupEvent>, next: Group)
    requires events != [] && GroupStep(g, events[0]) == Some(next)
    ensures Lost(g, events) == Lost(g, [events[0]]) + Lost(next, events[1..])
  {
    assert [events[0]][1..] == [] && Lost(next, []) == {};
    hide GroupStep;
  }

  lemma EndedLength(handled: seq<Handling>, base: nat, endings: seq<Option<bool>>)
    requires EndedAs(handled, base, endings)
    ensures |handled| == base + |endings|
  {
  }

  lemma {:induction false} RunFates(g: Group, events: seq<GroupEvent>, h: Group)
    requires Exec(GroupStep, g, events) == Some(h)
    ensures Fates(g, events, h.world)
    decreases |events|
  {
    if events == [] {
      RefusedFew(|g.world.handled|);
    } else {
      var next := GroupStep(g, events[0]).value;
      hide GroupStep, Fates;
      RunFates(next, events[1..], h);
      StepFates(g, events[0], next);
      FatesJoin(g, events, next, h.world);
    }
  }

  /** The fate of every handling, from the events of the run alone: it was processed exactly if it ended in a successful
      attempt, refused exactly if the producer refused its publication, delivered and undelivered exactly as reported
      (the DLQ topic in report order), and dropped exactly if it was queued by a process when that ended. */
  lemma EveryRunFates(g: Group, events: seq<GroupEvent>, h: Group)
    requires Initial(g) && Exec(GroupStep, g, events) == Some(h)
    ensures h.world.delivered == Reports(events, true)
    ensures forall i :: i in h.world.undelivered <==> i in Reports(events, false)
    ensures h.world.dropped == Lost(g, events)
    ensures |h.world.handled| == |Endings(events)|
    ensures forall i | 0 <= i < |Endings(events)| ::
              && (h.world.handled[i].how == Processed <==> Endings(events)[i] == None)
              && (i in h.world.refused <==> Endings(events)[i] == Some(false))
  {
    RunFates(g, events, h);
    hide Lost, Reports, Endings;
  }

  /** Handled, yet neither processed successfully nor present in the DLQ topic. */
  ghost predicate Missing(w: World, m: Ref) {
    && WasHandled(w, m)
    && forall i: nat | i < |w.handled| && w.handled[i].msg == m :: w.handled[i].how != Processed && i !in w.delivered
  }

  /** Every handling of the message left a recorded failure, is still queued, or was in a queue that was lost. */
  ghost predicate OnlyFailures(w: World, m: Ref) {
    && WasHandled(w, m)
    && forall i: nat | i < |w.handled| && w.handled[i].msg == m ::
         i in w.queued || i in w.undelivered || i in w.refused || i in w.dropped
  }

  /** In every run each handling is in exactly one class, and a committed message is missing from both
      the successes and the DLQ exactly when all that happened to it is failures, queues and losses. */
  lemma EveryRunAccounts(g: Group, events: seq<GroupEvent>, h: Group)
    requires Initial(g) && Exec(GroupStep, g, events) == Some(h)
    ensures Accounted(h.world) && QueuesAlive(h)
    ensures forall m :: Missing(h.world, m) <==> OnlyFailures(h.world, m)
  {
    RunAccounts(g, events, h);
    forall m ensures Missing(h.world, m) <==> OnlyFailures(h.world, m) {
      forall i: nat | i < |h.world.handled| && h.world.handled[i].msg == m
        ensures (h.world.handled[i].how != Processed && i !in h.world.delivered)
                <==> (i in h.world.queued || i in h.world.undelivered || i in h.world.refused || i in h.world.dropped)
      {
        assert Classes(h.world, i) == 1;
      }
    }
  }

  // ---- metrics ----

  /** How many messages of a topic consumer `c` handled in the given way. */
  function HandledBy(handled: seq<Handling>, c: nat, topic: string, processed: bool): nat {
    if handled == [] then 0
    else
      var h := handled[|handled| - 1];
      HandledBy(handled[..|handled| - 1], c, topic, processed)
      + if h.consumer == c && h.msg.tp.topic == topic && (h.how == Processed <==> processed) then 1 else 0
  }

  lemma HandledByAppend(handled: seq<Handling>, h: Handling, c: nat, topic: string, processed: bool)
    ensures HandledBy(handled + [h], c, topic, processed) == HandledBy(handled, c, topic, processed)
            + if h.consumer == c && h.msg.tp.topic == topic && (h.how == Processed <==> processed) then 1 else 0
  {
    assert (handled + [h])[..|handled|] == handled;
  }

  function One(b: bool): nat {
    if b then 1 else 0
  }

  ghost predicate MetricsInv(handled: seq<Handling>, c: nat, q: Consumer, topic: string) {
    var here := InHand(q.pc).Some? && InHand(q.pc).value.tp.topic == topic;
    && Get(q.metrics.observed, topic)
       == Get(q.metrics.success, topic) + Get(q.metrics.dlq, topic) + One(here && q.pc.Observed?)
    && Get(q.metrics.success, topic) + One(here && (q.pc.Finished? || q.pc.Observed?) && q.pc.result.Ok?)
       == HandledBy(handled, c, topic, true)
    && Get(q.metrics.dlq, topic) == HandledBy(handled, c, topic, false) + One(here && q.pc.Publishing?)
    && Get(q.metrics.dlqTotal, topic) == Get(q.metrics.dlq, topic)
  }

  /** What an action adds to the history. */
  function Appended(c: nat, a: Action): seq<Handling> {
    match a
    case Process(m) => [Handling(c, m, Processed)]
    case DeadLetter(m, err, attempts, _) => [Handling(c, m, DeadLettered(err, attempts))]
    case _ => []
  }

  lemma SuccessKeepsMetrics(handled: seq<Handling>, c: nat, q: Consumer, topic: string)
    requires q.pc.Attempting? && MetricsInv(handled, c, q, topic)
    ensures MetricsInv(handled + [Handling(c, q.pc.msg, Processed)], c, q.(pc := Finished(q.pc.msg, Ok)), topic)
  {
    HandledByAppend(handled, Handling(c, q.pc.msg, Processed), c, topic, true);
    HandledByAppend(handled, Handling(c, q.pc.msg, Processed), c, topic, false);
  }

  lemma PublishKeepsMetrics(handled: seq<Handling>, c: nat, q: Consumer, topic: string)
    requires q.pc.Publishing? && MetricsInv(handled, c, q, topic)
    ensures MetricsInv(handled + [Handling(c, q.pc.msg, DeadLettered(q.pc.err, q.pc.attempts))], c,
                       q.(pc := Committing(q.pc.msg)), topic)
  {
    HandledByAppend(handled, Handling(c, q.pc.msg, DeadLettered(q.pc.err, q.pc.attempts)), c, topic, true);
    HandledByAppend(handled, Handling(c, q.pc.msg, DeadLettered(q.pc.err, q.pc.attempts)), c, topic, false);
  }

  lemma HandlingKeepsMetrics(handled: seq<Handling>, c: nat, q: Consumer, e: LoopEvent, q': Consumer, a: Action,
                             topic: string)
    requires e.AttemptOk? || e.Publish?
    requires Step(q, e) == Some((q', a)) && MetricsInv(handled, c, q, topic)
    ensures MetricsInv(handled + Appended(c, a), c, q', topic)
  {
    HandlingSteps(q, e, q', a);
    if e.AttemptOk? {
      SuccessKeepsMetrics(handled, c, q, topic);
    } else {
      PublishKeepsMetrics(handled, c, q, topic);
    }
  }

  lemma HandlingSteps(q: Consumer, e: LoopEvent, q': Consumer, a: Action)
    requires Step(q, e) == Some((q', a))
    ensures e.AttemptOk? ==> q.pc.Attempting? && q' == q.(pc := Finished(q.pc.msg, Ok)) && a == Process(q.pc.msg)
    ensures e.Publish? ==> q.pc.Publishing? && q' == q.(pc := Committing(q.pc.msg))
                           && a == DeadLetter(q.pc.msg, q.pc.err, q.pc.attempts, e.accepted)
  {
  }

  lemma CountingKeepsMetrics(handled: seq<Handling>, c: nat, q: Consumer, e: LoopEvent, q': Consumer, a: Action,
                             topic: string)
    requires e.Observe? || e.Count?
    requires Step(q, e) == Some((q', a)) && MetricsInv(handled, c, q, topic)
    ensures a == Internal && MetricsInv(handled, c, q', topic)
  {
  }

  lemma OtherwiseMetricsStay(handled: seq<Handling>, c: nat, q: Consumer, e: LoopEvent, q': Consumer, a: Action,
                             topic: string)
    requires !e.AttemptOk? && !e.Publish? && !e.Observe? && !e.Count?
    requires Step(q, e) == Some((q', a)) && !q'.pc.Down? && MetricsInv(handled, c, q, topic)
    ensures Appended(c, a) == [] && MetricsInv(handled, c, q', topic)
  {
    OtherStepsKeepCounts(q, e, q', a);
    hide Step;
  }

  /** The part of a program point that the metrics depend on. */
  function CountingPoint(pc: Pc): (bool, bool, Option<Ref>) {
    var resolved := (pc.Finished? || pc.Observed?) && pc.result.Ok?;
    (resolved, pc.Publishing?, if resolved || pc.Publishing? || pc.Observed? then InHand(pc) else None)
  }

  lemma OtherStepsKeepCounts(q: Consumer, e: LoopEvent, q': Consumer, a: Action)
    requires !e.AttemptOk? && !e.Publish? && !e.Observe? && !e.Count?
    requires Step(q, e) == Some((q', a)) && !q'.pc.Down?
    ensures q'.metrics == q.metrics && CountingPoint(q'.pc) == CountingPoint(q.pc) && q.pc.Observed? == q'.pc.Observed?
    ensures !a.Process? && !a.DeadLetter?
  {
  }

  lemma StepKeepsMetrics(handled: seq<Handling>, c: nat, q: Consumer, e: LoopEvent, q': Consumer, a: Action,
                         topic: string)
    requires Step(q, e) == Some((q', a)) && !q'.pc.Down? && MetricsInv(handled, c, q, topic)
    ensures MetricsInv(handled + Appended(c, a), c, q', topic)
  {
    assert handled + [] == handled;
    if e.Observe? || e.Count? {
      CountingKeepsMetrics(handled, c, q, e, q', a, topic);
    } else if !e.AttemptOk? && !e.Publish? {
      OtherwiseMetricsStay(handled, c, q, e, q', a, topic);
    } else {
      HandlingKeepsMetrics(handled, c, q, e, q', a, topic);
    }
  }

  ghost predicate AllMetrics(g: Group) {
    && (forall c | c in g.procs && !g.procs[c].pc.Down? ::
          forall topic :: MetricsInv(g.world.handled, c, g.procs[c], topic))
    && (forall h | h in g.world.handled :: h.consumer in g.procs)
    && g.world.sessions.Keys == g.procs.Keys
  }

  lemma {:induction false} NobodyElse(handled: seq<Handling>, c: nat, topic: string, processed: bool)
    requires forall h | h in handled :: h.consumer != c
    ensures HandledBy(handled, c, topic, processed) == 0
  {
    if handled != [] {
      NobodyElse(handled[..|handled| - 1], c, topic, processed);
    }
  }

  lemma PerformAppends(w: World, c: nat, a: Action, w': World)
    requires c in w.sessions && Perform(w, c, a) == Some(w')
    ensures w'.handled == w.handled + Appended(c, a) && w'.sessions.Keys == w.sessions.Keys
  {
  }

  lemma OthersKeepMetrics(handled: seq<Handling>, c: nat, a: Action, d: nat, q: Consumer, topic: string)
    requires d != c && MetricsInv(handled, d, q, topic)
    ensures MetricsInv(handled + Appended(c, a), d, q, topic)
  {
    if Appended(c, a) == [] {
      assert handled + Appended(c, a) == handled;
    } else {
      HandledByAppend(handled, Appended(c, a)[0], d, topic, true);
      HandledByAppend(handled, Appended(c, a)[0], d, topic, false);
    }
  }

  lemma LoopCounts(g: Group, c: nat, le: LoopEvent, h: Group)
    requires AllMetrics(g) && GroupStep(g, Loop(c, le)) == Some(h)
    ensures AllMetrics(h)
  {
    hide Step, Perform, MetricsInv, HandledBy;
    var (q, a) := Step(g.procs[c], le).value;
    PerformAppends(g.world, c, a, h.world);
    StepDies(g.procs[c], le, q, a);
    forall d | d in h.procs && !h.procs[d].pc.Down?
      ensures forall topic :: MetricsInv(h.world.handled, d, h.procs[d], topic)
    {
      forall topic ensures MetricsInv(h.world.handled, d, h.procs[d], topic) {
        assert MetricsInv(g.world.handled, d, g.procs[d], topic);
        if d == c {
          StepKeepsMetrics(g.world.handled, c, g.procs[c], le, q, a, topic);
        } else {
          OthersKeepMetrics(g.world.handled, c, a, d, g.procs[d], topic);
        }
      }
    }
  }

  lemma StepCounts(g: Group, e: GroupEvent, h: Group)
    requires AllMetrics(g) && GroupStep(g, e) == Some(h)
    ensures AllMetrics(h)
  {
    match e
    case Elsewhere(_) =>
    case Start(c) =>
      forall topic ensures MetricsInv(h.world.handled, c, h.procs[c], topic) {
        NobodyElse(h.world.handled, c, topic, true);
        NobodyElse(h.world.handled, c, topic, false);
      }
    case Loop(c, le) => LoopCounts(g, c, le, h);
  }

  lemma {:induction false} RunCounts(g: Group, events: seq<GroupEvent>, h: Group)
    requires AllMetrics(g) && Exec(GroupStep, g, events) == Some(h)
    ensures AllMetrics(h)
    decreases |events|
  {
    if events != [] {
      var next := GroupStep(g, events[0]).value;
      StepCounts(g, events[0], next);
      RunCounts(next, events[1..], h);
    }
  }

  /** At every loop head of every run the metrics are exact, per topic and per status. */
  lemma MetricsExactAtHead(g: Group, events: seq<GroupEvent>, h: Group, c: nat, topic: string)
    requires Initial(g) && Exec(GroupStep, g, events) == Some(h) && c in h.procs && h.procs[c].pc.Head?
    ensures var m := h.procs[c].metrics;
            && Get(m.success, topic) == HandledBy(h.world.handled, c, topic, true)
            && Get(m.dlq, topic) == Get(m.dlqTotal, topic) == HandledBy(h.world.handled, c, topic, false)
            && Get(m.observed, topic) == Get(m.success, topic) + Get(m.dlq, topic)
  {
    RunCounts(g, events, h);
    assert MetricsInv(h.world.handled, c, h.procs[c], topic);
  }
}
