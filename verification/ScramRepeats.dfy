/** When a message can be handled again although it is already committed: only by a process that lost the partition. */
module ScramRepeats {
  import opened Wrappers
  import opened Machines
  import opened Broker
  import opened ConsumeEvents
  import opened ScramConsumer
  import opened ScramSafety
  import opened ScramTheorems

  /** As long as `c` owns the partition of the message in its hand, that message is not committed. */
  ghost predicate Ahead(w: World, c: nat, pc: Pc) {
    InHand(pc).Some? ==>
      var m := InHand(pc).value;
      m.tp in w.parts && w.parts[m.tp].owner == Some(c) && w.parts[m.tp].committed.Some? ==>
        w.parts[m.tp].committed.value <= m.offset
  }

  ghost predicate AllAhead(g: Group) {
    forall c | c in g.procs :: Ahead(g.world, c, g.procs[c].pc)
  }

  lemma SelfStaysAhead(w: World, c: nat, q: Consumer, a: Action, q': Consumer, w': World)
    requires c in w.sessions && ConsumerInv(w, c, q) && Ahead(w, c, q.pc)
    requires Moves(q, a, q') && Perform(w, c, a) == Some(w')
    requires forall tp | tp in w.parts :: CommittedHandled(w, tp)
    ensures Ahead(w', c, q'.pc)
  {
    if a.Fetch? {
      assert LeaseInv(w, c, a.msg.tp);
    }
  }

  lemma LoopStaysAhead(g: Group, c: nat, e: LoopEvent, h: Group)
    requires Inv(g) && AllAhead(g) && GroupStep(g, Loop(c, e)) == Some(h)
    ensures AllAhead(h)
  {
    var (q, a) := Step(g.procs[c], e).value;
    StepMoves(g.procs[c], e, q, a);
    PerformFrames(g.world, c, a, h.world);
    assert ConsumerInv(g.world, c, g.procs[c]);
    SelfStaysAhead(g.world, c, g.procs[c], a, q, h.world);
    hide Step, Perform, Moves, ConsumerInv;
    forall d | d in h.procs && d != c ensures Ahead(h.world, d, h.procs[d].pc) {
      assert Ahead(g.world, d, g.procs[d].pc);
    }
  }

  lemma StepStaysAhead(g: Group, e: GroupEvent, h: Group)
    requires Inv(g) && AllAhead(g) && GroupStep(g, e) == Some(h)
    ensures AllAhead(h)
  {
    match e
    case Elsewhere(o) =>
      HappenKeeps(g.world, o, h.world);
      hide Happen;
      forall c | c in h.procs ensures Ahead(h.world, c, h.procs[c].pc) {
        assert Ahead(g.world, c, g.procs[c].pc);
      }
    case Start(_) =>
      forall c | c in h.procs ensures Ahead(h.world, c, h.procs[c].pc) {
        assert c in g.procs ==> Ahead(g.world, c, g.procs[c].pc);
      }
    case Loop(c, le) => LoopStaysAhead(g, c, le, h);
  }

  lemma {:induction false} RunStaysAhead(g: Group, events: seq<GroupEvent>, h: Group)
    requires Inv(g) && AllAhead(g) && Exec(GroupStep, g, events) == Some(h)
    ensures AllAhead(h)
    decreases |events|
  {
    if events != [] {
      var next := GroupStep(g, events[0]).value;
      StepStaysAhead(g, events[0], next);
      StepKeepsInv(g, events[0], next);
      RunStaysAhead(next, events[1..], h);
    }
  }

  /** Every message handled on the way from `w` to `w'` was still uncommitted, or its process had lost the partition. */
  ghost predicate OwnersHandleOnce(w: World, w': World) {
    forall k | |w.handled| <= k < |w'.handled| ::
      var x := w'.handled[k];
      x.msg.tp in w.parts && w.parts[x.msg.tp].owner == Some(x.consumer) && w.parts[x.msg.tp].committed.Some? ==>
        w.parts[x.msg.tp].committed.value <= x.msg.offset
  }

  /** In every run: a message below the committed position is handled again only by a process that lost the partition
      without having noticed. */
  lemma OwnersNeverRepeat(g0: Group, before: seq<GroupEvent>, g: Group, e: GroupEvent, h: Group)
    requires Initial(g0) && Exec(GroupStep, g0, before) == Some(g) && GroupStep(g, e) == Some(h)
    ensures OwnersHandleOnce(g.world, h.world)
  {
    RunKeepsInv(g0, before, g);
    RunStaysAhead(g0, before, g);
    match e
    case Elsewhere(o) => HappenKeeps(g.world, o, h.world);
    case Start(_) =>
    case Loop(c, le) =>
      var (q, a) := Step(g.procs[c], le).value;
      StepMoves(g.procs[c], le, q, a);
      PerformAppends(g.world, c, a, h.world);
      hide Step, Perform;
      assert Ahead(g.world, c, g.procs[c].pc);
  }

  // ---- owners ----

  /** Who owns a partition has it assigned, unless it ended and the coordinator has not noticed yet. */
  ghost predicate OwnersAssigned(g: Group) {
    forall tp, c | tp in g.world.parts && g.world.parts[tp].owner == Some(c) ::
      c in g.procs && c in g.world.sessions && (g.procs[c].pc.Down? || tp in g.world.sessions[c])
  }

  lemma PerformKeepsOwners(w: World, c: nat, a: Action, w': World)
    requires c in w.sessions && Perform(w, c, a) == Some(w')
    requires forall tp | tp in w.parts && w.parts[tp].owner == Some(c) :: tp in w.sessions[c]
    ensures w'.sessions.Keys == w.sessions.Keys
    ensures forall d | d in w.sessions && d != c :: w'.sessions[d] == w.sessions[d]
    ensures forall tp, d | tp in w'.parts && w'.parts[tp].owner == Some(d) && d != c ::
              tp in w.parts && w.parts[tp].owner == Some(d)
    ensures a != Die ==> forall tp | tp in w'.parts && w'.parts[tp].owner == Some(c) :: tp in w'.sessions[c]
  {
  }

  lemma StepKeepsOwners(g: Group, e: GroupEvent, h: Group)
    requires OwnersAssigned(g) && GroupStep(g, e) == Some(h)
    ensures OwnersAssigned(h)
  {
    match e
    case Elsewhere(o) => HappenKeeps(g.world, o, h.world);
    case Start(_) =>
    case Loop(c, le) => LoopKeepsOwners(g, c, le, h);
  }

  lemma LoopKeepsOwners(g: Group, c: nat, le: LoopEvent, h: Group)
    requires OwnersAssigned(g) && GroupStep(g, Loop(c, le)) == Some(h)
    ensures OwnersAssigned(h)
  {
    hide Step, Perform;
    var (q, a) := Step(g.procs[c], le).value;
    StepDies(g.procs[c], le, q, a);
    PerformKeepsOwners(g.world, c, a, h.world);
    assert h.procs == g.procs[c := q];
    hide GroupStep;
  }

  /** A process loses a partition only by a step of its own or by eviction: nobody else's assignment takes it away. */
  lemma OwnersKeep(g: Group, e: GroupEvent, h: Group, tp: TopicPartition, c: nat)
    requires GroupStep(g, e) == Some(h) && tp in g.world.parts && g.world.parts[tp].owner == Some(c)
    requires !(e.Loop? && e.c == c) && e != Elsewhere(Evict(c))
    ensures tp in h.world.parts && h.world.parts[tp].owner == Some(c)
  {
    if e.Loop? {
      var (q, a) := Step(g.procs[e.c], e.e).value;
      hide Step;
    }
  }

  lemma {:induction false} RunKeepsOwners(g: Group, events: seq<GroupEvent>, h: Group)
    requires OwnersAssigned(g) && Exec(GroupStep, g, events) == Some(h)
    ensures OwnersAssigned(h)
    decreases |events|
  {
    if events != [] {
      var next := GroupStep(g, events[0]).value;
      StepKeepsOwners(g, events[0], next);
      RunKeepsOwners(next, events[1..], h);
    }
  }

  /** In every run, whoever owns a partition has it assigned or has ended; what a process gives up, or is not assigned
      again, it does not own. */
  lemma EveryOwnerAssigned(g: Group, events: seq<GroupEvent>, h: Group)
    requires Initial(g) && Exec(GroupStep, g, events) == Some(h)
    ensures OwnersAssigned(h)
  {
    RunKeepsOwners(g, events, h);
  }
}
