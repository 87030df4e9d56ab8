/** Where the delivery guarantee starts: a partition without a committed position resumes at its end
    (`auto.offset.reset=latest`), so what arrives before the first commit can be skipped. */
module ScramLoss {
  import opened Wrappers
  import opened Machines
  import opened Broker
  import opened ConsumeEvents
  import opened ScramConsumer
  import opened ScramSafety
  import opened ScramTheorems

  // ---- with a committed position nothing is skipped ----

  /** From `from` up to the committed position everything was handled. */
  ghost predicate HandledFrom(w: World, tp: TopicPartition, from: nat) {
    tp in w.parts && w.parts[tp].committed.Some? ==>
      forall o: nat | from <= o < w.parts[tp].committed.value :: WasHandled(w, Ref(tp, o))
  }

  /** From where the next session would resume now, no continuation ever commits past an unhandled offset. */
  ghost predicate NothingSkipped(g: Group, tp: TopicPartition)
    requires tp in g.world.parts
  {
    forall events, h | Exec(GroupStep, g, events) == Some(h) :: HandledFrom(h.world, tp, Position(g.world.parts[tp]))
  }

  lemma CommittedSkipsNothing(g: Group, tp: TopicPartition, events: seq<GroupEvent>, h: Group)
    requires Inv(g) && tp in g.world.parts && g.world.parts[tp].committed.Some? && Exec(GroupStep, g, events) == Some(h)
    ensures HandledFrom(h.world, tp, Position(g.world.parts[tp]))
  {
    RunKeepsInv(g, events, h);
    assert CommittedHandled(g.world, tp) && CommittedHandled(h.world, tp);
  }

  // ---- handled messages are in the log ----

  ghost predicate HandledInLog(w: World) {
    forall h | h in w.handled :: h.msg.tp in w.parts && h.msg.offset < w.parts[h.msg.tp].logEnd
  }

  lemma PerformKeepsLogs(w: World, c: nat, a: Action, w': World)
    requires c in w.sessions && Perform(w, c, a) == Some(w')
    ensures w'.handled == w.handled + Appended(c, a)
    ensures forall tp | tp in w.parts :: tp in w'.parts && w.parts[tp].logEnd == w'.parts[tp].logEnd
  {
  }

  lemma StepKeepsLog(g: Group, e: GroupEvent, h: Group)
    requires Inv(g) && HandledInLog(g.world) && GroupStep(g, e) == Some(h)
    ensures HandledInLog(h.world)
  {
    match e
    case Elsewhere(o) => HappenKeeps(g.world, o, h.world);
    case Start(_) =>
    case Loop(c, le) =>
      var (q, a) := Step(g.procs[c], le).value;
      StepMoves(g.procs[c], le, q, a);
      PerformKeepsLogs(g.world, c, a, h.world);
      hide Step, Perform;
      assert ConsumerInv(g.world, c, g.procs[c]);
      if Appended(c, a) != [] {
        assert SessionInv(g.world, c, a.msg.tp, Pending(g.procs[c].pc));
      }
  }

  lemma {:induction false} RunKeepsLog(g: Group, events: seq<GroupEvent>, h: Group)
    requires Inv(g) && HandledInLog(g.world) && Exec(GroupStep, g, events) == Some(h)
    ensures HandledInLog(h.world)
    decreases |events|
  {
    if events != [] {
      var next := GroupStep(g, events[0]).value;
      StepKeepsLog(g, events[0], next);
      StepKeepsInv(g, events[0], next);
      RunKeepsLog(next, events[1..], h);
    }
  }

  // ---- without one there is a run that skips a message ----

  lemma {:induction false} NewProcess(ids: set<nat>) returns (c: nat)
    ensures forall d | d in ids :: d < c
  {
    if ids == {} {
      c := 0;
    } else {
      var d :| d in ids;
      c := NewProcess(ids - {d});
      c := if c <= d then d + 1 else c;
      assert forall e | e in ids :: e == d || e in ids - {d};
    }
  }

  lemma LoopStep(g: Group, events: seq<GroupEvent>, h: Group, c: nat, e: LoopEvent, q: Consumer, a: Action, w: World)
    returns (events': seq<GroupEvent>, h': Group)
    requires Exec(GroupStep, g, events) == Some(h) && c in h.procs && c in h.world.sessions
    requires Step(h.procs[c], e) == Some((q, a)) && Perform(h.world, c, a) == Some(w)
    ensures h' == Group(w, h.procs[c := q]) && Exec(GroupStep, g, events') == Some(h')
  {
    events', h' := Extend(GroupStep, g, events, h, Loop(c, e));
  }

  function Advance(w: World, c: nat, m: Ref): World
    requires c in w.sessions && m.tp in w.sessions[c]
  {
    var mine := w.sessions[c];
    w.(sessions := w.sessions[c := mine[m.tp := mine[m.tp].(next := m.offset + 1)]])
  }

  /** Receive one message and process it at the first attempt. */
  lemma ProcessOne(g: Group, events: seq<GroupEvent>, h: Group, c: nat, m: Ref)
    returns (events': seq<GroupEvent>, h': Group)
    requires Exec(GroupStep, g, events) == Some(h) && c in h.procs && c in h.world.sessions && m.tp in h.world.parts
    requires h.procs[c].pc == Polling(0) && !h.procs[c].cancelled && m.tp in h.world.sessions[c]
    requires h.world.sessions[c][m.tp].next == m.offset < h.world.parts[m.tp].logEnd
    ensures Exec(GroupStep, g, events') == Some(h') && h'.procs == h.procs[c := h.procs[c].(pc := Finished(m, Ok))]
    ensures h'.world == Advance(h.world, c, m).(handled := h.world.handled + [Handling(c, m, Processed)])
  {
    var q, w := h.procs[c], Advance(h.world, c, m);
    events', h' := LoopStep(g, events, h, c, PollMessage(m), q.(pc := Received(m)), Fetch(m), w);
    events', h' := LoopStep(g, events', h', c, Begin, q.(pc := Attempting(m, 1, false)), Internal, w);
    events', h' := LoopStep(g, events', h', c, AttemptOk, q.(pc := Finished(m, Ok)), Process(m),
      w.(handled := w.handled + [Handling(c, m, Processed)]));
    assert h'.procs == h.procs[c := q.(pc := Finished(m, Ok))];
  }

  lemma CountOne(g: Group, events: seq<GroupEvent>, h: Group, c: nat, m: Ref)
    returns (events': seq<GroupEvent>, h': Group)
    requires Exec(GroupStep, g, events) == Some(h) && c in h.procs && c in h.world.sessions
             && h.procs[c].pc == Finished(m, Ok)
    ensures Exec(GroupStep, g, events') == Some(h') && h'.world == h.world
    ensures h'.procs.Keys == h.procs.Keys && h'.procs[c].pc == Committing(m)
  {
    var q := h.procs[c];
    var q1 := q.(pc := Observed(m, Ok), metrics := q.metrics.(observed := Inc(q.metrics.observed, m.tp.topic)));
    var q2 := q1.(pc := Committing(m), metrics := CountResult(q1.metrics, m.tp.topic, Ok));
    events', h' := LoopStep(g, events, h, c, Observe, q1, Internal, h.world);
    events', h' := LoopStep(g, events', h', c, Count, q2, Internal, h.world);
  }

  lemma CommitSucceeds(g: Group, events: seq<GroupEvent>, h: Group, c: nat, m: Ref)
    returns (events': seq<GroupEvent>, h': Group)
    requires Exec(GroupStep, g, events) == Some(h) && c in h.procs && c in h.world.sessions
             && h.procs[c].pc == Finished(m, Ok)
    requires m.tp in h.world.sessions[c] && m.tp in h.world.parts
    requires h.world.parts[m.tp].owner == Some(c) && h.world.parts[m.tp].base == None
    ensures Exec(GroupStep, g, events') == Some(h') && h'.world.handled == h.world.handled && m.tp in h'.world.parts
    ensures h'.world.parts[m.tp]
            == h.world.parts[m.tp].(committed := Some(m.offset + 1), base := Some(h.world.sessions[c][m.tp].start))
  {
    events', h' := CountOne(g, events, h, c, m);
    var w := Perform(h.world, c, Commit(m, true)).value;
    events', h' := LoopStep(g, events', h', c, CommitOffset(true), h'.procs[c].(pc := Head), Commit(m, true), w);
  }

  lemma Arrive(g: Group, events: seq<GroupEvent>, h: Group, tp: TopicPartition)
    returns (events': seq<GroupEvent>, h': Group)
    requires Exec(GroupStep, g, events) == Some(h) && tp in h.world.parts
    ensures Exec(GroupStep, g, events') == Some(h') && h'.procs == h.procs
    ensures var p := h.world.parts[tp];
            h'.world == h.world.(parts := h.world.parts[tp := p.(logEnd := p.logEnd + 1)])
  {
    events', h' := Extend(GroupStep, g, events, h, Elsewhere(Append(tp)));
  }

  /** Start a consumer and let its first poll assign the partition. */
  lemma Join(g: Group, events: seq<GroupEvent>, h: Group, c: nat, tp: TopicPartition)
    returns (events': seq<GroupEvent>, h': Group)
    requires Exec(GroupStep, g, events) == Some(h) && c !in h.procs && c !in h.world.sessions
    requires tp in h.world.parts && h.world.parts[tp].owner == None
    ensures Exec(GroupStep, g, events') == Some(h') && h'.procs == h.procs[c := LAUNCHED.(pc := Polling(0))]
    ensures var p := h.world.parts[tp];
            && tp in h'.world.parts && h'.world.parts[tp] == p.(owner := Some(c))
            && h'.world.sessions == h.world.sessions[c := map[tp := Session(Position(p), Position(p))]]
    ensures h'.world.handled == h.world.handled
  {
    var w := h.world.(sessions := h.world.sessions[c := map[]]);
    events', h' := Extend(GroupStep, g, events, h, Start(c));
    events', h' := LoopStep(g, events', h', c, Enter(1), LAUNCHED.(pc := Polling(1)), Internal, w);
    var w' := AssignOne(w, c, tp);
    events', h' := LoopStep(g, events', h', c, Assigned({tp}), LAUNCHED.(pc := Polling(0)), Assign({tp}), w');
    assert h'.procs == h.procs[c := LAUNCHED.(pc := Polling(0))];
  }

  lemma AssignOne(w: World, c: nat, tp: TopicPartition) returns (w': World)
    requires c in w.sessions && tp in w.parts && w.parts[tp].owner == None
    ensures Perform(w, c, Assign({tp})) == Some(w') && w'.handled == w.handled
    ensures tp in w'.parts && w'.parts[tp] == w.parts[tp].(owner := Some(c))
    ensures w'.sessions == w.sessions[c := map[tp := Session(Position(w.parts[tp]), Position(w.parts[tp]))]]
  {
    w' := Perform(w, c, Assign({tp})).value;
    assert w'.sessions[c] == map[tp := Session(Position(w.parts[tp]), Position(w.parts[tp]))];
  }

  /** Whoever owns the partition can lose it. */
  lemma Orphan(g: Group, tp: TopicPartition) returns (events: seq<GroupEvent>, h: Group)
    requires tp in g.world.parts
    ensures Exec(GroupStep, g, events) == Some(h) && h.procs == g.procs
    ensures tp in h.world.parts && h.world.parts[tp] == g.world.parts[tp].(owner := None)
    ensures h.world.sessions == g.world.sessions && h.world.handled == g.world.handled
  {
    if g.world.parts[tp].owner.Some? {
      events, h := Extend(GroupStep, g, [], g, Elsewhere(Evict(g.world.parts[tp].owner.value)));
    } else {
      events, h := [], g;
    }
  }

  /** A message arrives while nobody owns the partition; a new consumer starts behind it, handles the next one and
      commits past both. */
  lemma GapRun(g: Group, tp: TopicPartition) returns (events: seq<GroupEvent>, h: Group)
    requires Inv(g) && HandledInLog(g.world) && tp in g.world.parts && g.world.parts[tp].committed == None
    ensures Exec(GroupStep, g, events) == Some(h) && tp in h.world.parts
    ensures var skipped := Position(g.world.parts[tp]);
            h.world.parts[tp].committed == Some(skipped + 2) && !WasHandled(h.world, Ref(tp, skipped))
  {
    hide Step, GroupStep, Perform, Happen;
    assert CommittedHandled(g.world, tp);
    var skipped := g.world.parts[tp].logEnd;
    var c := NewProcess(g.procs.Keys);
    events, h := Orphan(g, tp);
    events, h := Arrive(g, events, h, tp);
    events, h := Join(g, events, h, c, tp);
    events, h := Arrive(g, events, h, tp);
    events, h := ProcessOne(g, events, h, c, Ref(tp, skipped + 1));
    events, h := CommitSucceeds(g, events, h, c, Ref(tp, skipped + 1));
    assert h.world.handled == g.world.handled + [Handling(c, Ref(tp, skipped + 1), Processed)];
    assert !WasHandled(h.world, Ref(tp, skipped));
  }

  /** From any reachable state of a group: no continuation commits past an offset that nobody handled, counting from
      where the partition would resume now, if and only if the partition has a committed position. */
  lemma NothingSkippedExactly(g0: Group, before: seq<GroupEvent>, g: Group, tp: TopicPartition)
    requires Initial(g0) && Exec(GroupStep, g0, before) == Some(g) && tp in g.world.parts
    ensures NothingSkipped(g, tp) <==> g.world.parts[tp].committed.Some?
  {
    RunKeepsInv(g0, before, g);
    RunKeepsLog(g0, before, g);
    hide GroupStep, HandledFrom, Inv, HandledInLog, WasHandled;
    if g.world.parts[tp].committed.Some? {
      forall events, h | Exec(GroupStep, g, events) == Some(h)
        ensures HandledFrom(h.world, tp, Position(g.world.parts[tp]))
      {
        CommittedSkipsNothing(g, tp, events, h);
      }
    } else {
      var events, h := GapRun(g, tp);
      assert !HandledFrom(h.world, tp, Position(g.world.parts[tp])) by {
        SkippedUnhandled(h.world, tp, Position(g.world.parts[tp]));
      }
    }
  }

  lemma SkippedUnhandled(w: World, tp: TopicPartition, o: nat)
    requires tp in w.parts && w.parts[tp].committed == Some(o + 2) && !WasHandled(w, Ref(tp, o))
    ensures !HandledFrom(w, tp, o)
  {
  }

  const TP := TopicPartition("orders", 0)

  function OnePartition(): Group {
    Group(World(map[TP := Partition(0, None, None, None)], map[], [], map[], [], {}, {}, {}), map[])
  }

  /** For example: an empty partition, whose first message is never handled although offsets 0 and 1 are committed. */
  lemma GapBeforeFirstCommit() returns (events: seq<GroupEvent>, h: Group)
    ensures Initial(OnePartition()) && Exec(GroupStep, OnePartition(), events) == Some(h)
    ensures TP in h.world.parts && h.world.parts[TP].committed == Some(2) && !WasHandled(h.world, Ref(TP, 0))
  {
    events, h := GapRun(OnePartition(), TP);
  }
}
