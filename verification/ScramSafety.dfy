/** Safety of every run of a group of SCRAM consumers: delivery, accounting and metrics. */
module ScramSafety {
  import opened Wrappers
  import opened Broker
  import opened ConsumeEvents
  import opened ScramConsumer

  /** The message a loop has received and not yet committed. */
  function InHand(pc: Pc): Option<Ref> {
    match pc
    case Received(m) => Some(m)
    case Attempting(m, _, _) => Some(m)
    case BackingOff(m, _, _) => Some(m)
    case Finished(m, _) => Some(m)
    case Observed(m, _) => Some(m)
    case Publishing(m, _, _) => Some(m)
    case Committing(m) => Some(m)
    case _ => None
  }

  predicate AlreadyHandled(pc: Pc) {
    match pc
    case Finished(_, r) => r.Ok?
    case Observed(_, r) => r.Ok?
    case Committing(_) => true
    case _ => false
  }

  function Pending(pc: Pc): Option<Ref> {
    if AlreadyHandled(pc) then None else InHand(pc)
  }

  /** What ties one consumer's program point to its sessions. */
  ghost predicate ConsumerInv(w: World, c: nat, q: Consumer)
    requires c in w.sessions
  {
    && (forall tp | tp in w.sessions[c] :: SessionInv(w, c, tp, Pending(q.pc)) && LeaseInv(w, c, tp))
    && (InHand(q.pc).Some? ==>
          var m := InHand(q.pc).value;
          && m.tp in w.sessions[c] && w.sessions[c][m.tp].start <= m.offset && w.sessions[c][m.tp].next == m.offset + 1
          && (AlreadyHandled(q.pc) ==> WasHandled(w, m)))
    && (q.pc.Down? || q.pc.Flushing? || !q.ready ==> w.sessions[c] == map[])
  }

  ghost predicate Inv(g: Group) {
    && g.world.sessions.Keys == g.procs.Keys
    && (forall tp | tp in g.world.parts :: CommittedHandled(g.world, tp))
    && (forall c | c in g.procs :: ConsumerInv(g.world, c, g.procs[c]))
  }

  // ---- one step of one consumer ----

  predicate Idle(q: Consumer) {
    q.pc.Down? || q.pc.Flushing? || !q.ready
  }

  /** How each action moves the message in hand. */
  ghost predicate Moves(q: Consumer, a: Action, q': Consumer) {
    match a
    case Internal => InHand(q'.pc) == InHand(q.pc) && Pending(q'.pc) == Pending(q.pc) && Idle(q') == Idle(q)
    case Assign(_) => InHand(q.pc) == InHand(q'.pc) == None && !Idle(q')
    case Unassign => InHand(q.pc) == InHand(q'.pc) == None
    case Fetch(m) => InHand(q.pc) == None && Pending(q'.pc) == InHand(q'.pc) == Some(m) && Idle(q') == Idle(q)
    case Process(m) => Pending(q.pc) == Some(m) && InHand(q'.pc) == Some(m) && AlreadyHandled(q'.pc)
      && Idle(q') == Idle(q)
    case DeadLetter(m, _, _, _) => Pending(q.pc) == Some(m) && InHand(q'.pc) == Some(m) && AlreadyHandled(q'.pc)
      && Idle(q') == Idle(q)
    case Commit(m, _) => InHand(q.pc) == Some(m) && AlreadyHandled(q.pc) && InHand(q'.pc) == None && Idle(q') == Idle(q)
    case Die => InHand(q'.pc) == None
  }

  lemma StepMoves(q: Consumer, e: LoopEvent, q': Consumer, a: Action)
    requires Step(q, e) == Some((q', a))
    ensures Moves(q, a, q')
  {
  }

  lemma NewSessionInv(w: World, c: nat, ps: set<TopicPartition>, w': World, tp: TopicPartition, held: Option<Ref>)
    requires c in w.sessions && Perform(w, c, Assign(ps)) == Some(w') && tp in ps
    requires CommittedHandled(w, tp)
    ensures SessionInv(w', c, tp, held) && LeaseInv(w', c, tp)
  {
  }

  lemma CommitExtends(w: World, c: nat, m: Ref, w': World)
    requires c in w.sessions && Perform(w, c, Commit(m, true)) == Some(w')
    requires CommittedHandled(w, m.tp) && LeaseInv(w, c, m.tp) && SessionInv(w, c, m.tp, None)
    requires w.sessions[c][m.tp].start <= m.offset && w.sessions[c][m.tp].next == m.offset + 1
    ensures CommittedHandled(w', m.tp) && LeaseInv(w', c, m.tp)
    ensures w.parts[m.tp].committed.Some? ==> w.parts[m.tp].committed.value <= m.offset + 1
  {
    var p, p', s := w.parts[m.tp], w'.parts[m.tp], w.sessions[c][m.tp];
    forall o: nat | p'.base.value <= o < p'.committed.value ensures WasHandled(w', Ref(m.tp, o)) {
      assert WasHandled(w, Ref(m.tp, o));
    }
  }

  lemma AssignKeeps(w: World, c: nat, q: Consumer, a: Action, q': Consumer, w': World)
    requires a.Assign?
    requires c in w.sessions && ConsumerInv(w, c, q) && Moves(q, a, q') && Perform(w, c, a) == Some(w')
    requires forall tp | tp in w.parts :: CommittedHandled(w, tp)
    ensures ConsumerInv(w', c, q')
  {
    forall tp | tp in w'.sessions[c] ensures SessionInv(w', c, tp, None) && LeaseInv(w', c, tp) {
      NewSessionInv(w, c, a.ps, w', tp, None);
    }
  }

  lemma FetchKeeps(w: World, c: nat, q: Consumer, a: Action, q': Consumer, w': World)
    requires a.Fetch?
    requires c in w.sessions && ConsumerInv(w, c, q) && Moves(q, a, q') && Perform(w, c, a) == Some(w')
    requires forall tp | tp in w.parts :: CommittedHandled(w, tp)
    ensures ConsumerInv(w', c, q')
  {
    forall tp | tp in w'.sessions[c] ensures SessionInv(w', c, tp, Some(a.msg)) && LeaseInv(w', c, tp) {
      var s' := w'.sessions[c][tp];
      assert SessionInv(w, c, tp, None) && LeaseInv(w, c, tp);
      forall o: nat | s'.start <= o < s'.next ensures WasHandled(w', Ref(tp, o)) || a.msg == Ref(tp, o) {
        assert (tp == a.msg.tp && o == a.msg.offset) || WasHandled(w, Ref(tp, o));
      }
    }
  }

  lemma HandlingKeeps(w: World, c: nat, q: Consumer, a: Action, q': Consumer, w': World)
    requires a.Process? || a.DeadLetter?
    requires c in w.sessions && ConsumerInv(w, c, q) && Moves(q, a, q') && Perform(w, c, a) == Some(w')
    requires forall tp | tp in w.parts :: CommittedHandled(w, tp)
    ensures ConsumerInv(w', c, q')
  {
    PerformFrames(w, c, a, w');
    assert w'.handled[|w.handled|].msg == a.msg;
    forall tp | tp in w'.sessions[c] ensures SessionInv(w', c, tp, None) && LeaseInv(w', c, tp) {
      SessionKept(w, c, w', tp, Some(a.msg), None);
      assert LeaseInv(w, c, tp);
    }
  }

  lemma CommitKeeps(w: World, c: nat, q: Consumer, a: Action, q': Consumer, w': World)
    requires a.Commit?
    requires c in w.sessions && ConsumerInv(w, c, q) && Moves(q, a, q') && Perform(w, c, a) == Some(w')
    requires forall tp | tp in w.parts :: CommittedHandled(w, tp)
    ensures ConsumerInv(w', c, q')
  {
    PerformFrames(w, c, a, w');
    if a.applied {
      CommitExtends(w, c, a.msg, w');
    }
    forall tp | tp in w'.sessions[c] ensures SessionInv(w', c, tp, None) && LeaseInv(w', c, tp) {
      SessionKept(w, c, w', tp, None, None);
      assert LeaseInv(w, c, tp);
    }
  }

  lemma SelfKeeps(w: World, c: nat, q: Consumer, a: Action, q': Consumer, w': World)
    requires c in w.sessions && ConsumerInv(w, c, q) && Moves(q, a, q') && Perform(w, c, a) == Some(w')
    requires forall tp | tp in w.parts :: CommittedHandled(w, tp)
    ensures ConsumerInv(w', c, q')
  {
    match a
    case Assign(_) => AssignKeeps(w, c, q, a, q', w');
    case Fetch(_) => FetchKeeps(w, c, q, a, q', w');
    case Process(_) => HandlingKeeps(w, c, q, a, q', w');
    case DeadLetter(_, _, _, _) => HandlingKeeps(w, c, q, a, q', w');
    case Commit(_, _) => CommitKeeps(w, c, q, a, q', w');
    case Internal =>
    case Unassign =>
    case Die =>
  }

  /** A session that did not move keeps its invariant, also when the held message has just been handled. */
  lemma SessionKept(w: World, c: nat, w': World, tp: TopicPartition, held: Option<Ref>, held': Option<Ref>)
    requires c in w.sessions && Frame(w, w', c) && tp in w.sessions[c] && w'.sessions[c] == w.sessions[c]
    requires SessionInv(w, c, tp, held)
    requires held == held' || (held.Some? && WasHandled(w', held.value))
    ensures SessionInv(w', c, tp, held')
  {
    var s := w.sessions[c][tp];
    forall o: nat | s.start <= o < s.next ensures WasHandled(w', Ref(tp, o)) || held' == Some(Ref(tp, o)) {
      if WasHandled(w, Ref(tp, o)) {
        FrameKeepsHandled(w, w', c, Ref(tp, o));
      }
    }
  }

  lemma OtherKeeps(w: World, c: nat, w': World, d: nat, q: Consumer)
    requires Frame(w, w', c) && d != c && d in w.sessions && ConsumerInv(w, d, q)
    ensures ConsumerInv(w', d, q)
  {
    forall tp | tp in w.sessions[d] ensures SessionInv(w', d, tp, Pending(q.pc)) && LeaseInv(w', d, tp) {
      FrameKeepsOthers(w, w', c, d, tp, Pending(q.pc));
    }
    if InHand(q.pc).Some? && AlreadyHandled(q.pc) {
      FrameKeepsHandled(w, w', c, InHand(q.pc).value);
    }
  }

  lemma PartitionKeeps(w: World, c: nat, q: Consumer, a: Action, q': Consumer, w': World, tp: TopicPartition)
    requires c in w.sessions && ConsumerInv(w, c, q) && Moves(q, a, q') && Perform(w, c, a) == Some(w')
    requires tp in w.parts && CommittedHandled(w, tp)
    ensures tp in w'.parts && CommittedHandled(w', tp)
    ensures w.parts[tp].committed.Some? ==>
              w'.parts[tp].committed.Some? && w.parts[tp].committed.value <= w'.parts[tp].committed.value
              && w'.parts[tp].base == w.parts[tp].base
  {
    PerformFrames(w, c, a, w');
    if a.Commit? && a.applied && a.msg.tp == tp {
      CommitExtends(w, c, a.msg, w');
    } else {
      PositionKept(w, c, a, w', tp);
      CommittedKept(w, c, w', tp);
    }
  }

  lemma PositionKept(w: World, c: nat, a: Action, w': World, tp: TopicPartition)
    requires c in w.sessions && Perform(w, c, a) == Some(w') && tp in w.parts
    requires !(a.Commit? && a.applied && a.msg.tp == tp)
    ensures tp in w'.parts && w'.parts[tp].committed == w.parts[tp].committed && w'.parts[tp].base == w.parts[tp].base
    ensures w'.parts[tp].logEnd == w.parts[tp].logEnd
  {
  }

  lemma CommittedKept(w: World, c: nat, w': World, tp: TopicPartition)
    requires Frame(w, w', c) && tp in w.parts && CommittedHandled(w, tp)
    requires w'.parts[tp].committed == w.parts[tp].committed && w'.parts[tp].base == w.parts[tp].base
    ensures CommittedHandled(w', tp)
  {
    if w.parts[tp].committed.Some? {
      forall o: nat | w.parts[tp].base.value <= o < w.parts[tp].committed.value ensures WasHandled(w', Ref(tp, o)) {
        FrameKeepsHandled(w, w', c, Ref(tp, o));
      }
    }
  }

  /** A commit that takes effect catches up with the fetch position, also over earlier commits that failed:
      the next session resumes exactly there. */
  lemma CommitCatchesUp(g: Group, c: nat, h: Group)
    requires Inv(g) && GroupStep(g, Loop(c, CommitOffset(true))) == Some(h)
    ensures g.procs[c].pc.Committing? && h.procs[c].pc.Head?
    ensures var tp := g.procs[c].pc.msg.tp;
            && tp in h.world.sessions[c] && tp in h.world.parts && h.world.parts[tp].owner == Some(c)
            && h.world.parts[tp].committed == Some(h.world.sessions[c][tp].next)
            && Position(h.world.parts[tp]) == h.world.sessions[c][tp].next
  {
    CommitStep(g.procs[c]);
    hide Step;
    assert ConsumerInv(g.world, c, g.procs[c]);
  }

  lemma CommitStep(q: Consumer)
    requires Step(q, CommitOffset(true)).Some?
    ensures q.pc.Committing? && Step(q, CommitOffset(true)) == Some((q.(pc := Head), Commit(q.pc.msg, true)))
  {
  }

  ghost predicate CommitsAdvance(w: World, w': World) {
    forall tp | tp in w.parts ::
      && tp in w'.parts
      && (w.parts[tp].committed.Some? ==>
            && w'.parts[tp].committed.Some? && w.parts[tp].committed.value <= w'.parts[tp].committed.value
            && w'.parts[tp].base == w.parts[tp].base)
  }

  lemma LoopKeepsInv(g: Group, c: nat, e: LoopEvent, h: Group)
    requires Inv(g) && GroupStep(g, Loop(c, e)) == Some(h)
    ensures Inv(h) && CommitsAdvance(g.world, h.world)
  {
    var (q, a) := Step(g.procs[c], e).value;
    PerformFrames(g.world, c, a, h.world);
    StepMoves(g.procs[c], e, q, a);
    assert ConsumerInv(g.world, c, g.procs[c]);
    forall tp | tp in g.world.parts
      ensures CommittedHandled(h.world, tp) && (g.world.parts[tp].committed.Some? ==>
                h.world.parts[tp].committed.Some?
                  && g.world.parts[tp].committed.value <= h.world.parts[tp].committed.value
                && h.world.parts[tp].base == g.world.parts[tp].base)
    {
      PartitionKeeps(g.world, c, g.procs[c], a, q, h.world, tp);
    }
    forall d | d in h.procs ensures ConsumerInv(h.world, d, h.procs[d]) {
      if d == c {
        SelfKeeps(g.world, c, g.procs[c], a, q, h.world);
      } else {
        OtherKeeps(g.world, c, h.world, d, g.procs[d]);
      }
    }
  }

  /** What happens elsewhere moves no session and no position, and creates no lease. */
  lemma HappenKeeps(w: World, o: Outside, w': World)
    requires Happen(w, o) == Some(w')
    ensures w'.sessions == w.sessions && w'.handled == w.handled && w'.parts.Keys == w.parts.Keys
    ensures forall tp | tp in w.parts ::
              && w'.parts[tp].committed == w.parts[tp].committed && w'.parts[tp].base == w.parts[tp].base
              && w.parts[tp].logEnd <= w'.parts[tp].logEnd
    ensures forall tp | tp in w.parts && w'.parts[tp].owner.Some? :: w'.parts[tp].owner == w.parts[tp].owner
  {
  }

  /** Nobody's handling shrinks when something happens outside the loops, and no lease is created. */
  lemma ElsewhereKeepsInv(g: Group, o: Outside, h: Group)
    requires Inv(g) && GroupStep(g, Elsewhere(o)) == Some(h)
    ensures Inv(h) && CommitsAdvance(g.world, h.world)
  {
    HappenKeeps(g.world, o, h.world);
    hide Happen;
    assert forall m | WasHandled(g.world, m) :: WasHandled(h.world, m);
    forall c | c in h.procs ensures ConsumerInv(h.world, c, h.procs[c]) {
      assert ConsumerInv(g.world, c, g.procs[c]);
      forall tp | tp in g.world.sessions[c]
        ensures SessionInv(h.world, c, tp, Pending(g.procs[c].pc)) && LeaseInv(h.world, c, tp)
      {
        assert SessionInv(g.world, c, tp, Pending(g.procs[c].pc)) && LeaseInv(g.world, c, tp);
      }
    }
    forall tp | tp in h.world.parts ensures CommittedHandled(h.world, tp) {
      assert CommittedHandled(g.world, tp);
    }
  }

  lemma StartKeepsInv(g: Group, c: nat, h: Group)
    requires Inv(g) && GroupStep(g, Start(c)) == Some(h)
    ensures Inv(h) && CommitsAdvance(g.world, h.world)
  {
    assert forall m | WasHandled(g.world, m) :: WasHandled(h.world, m);
    forall d | d in h.procs ensures ConsumerInv(h.world, d, h.procs[d]) {
      if d != c {
        assert ConsumerInv(g.world, d, g.procs[d]);
        forall tp | tp in g.world.sessions[d]
          ensures SessionInv(h.world, d, tp, Pending(g.procs[d].pc)) && LeaseInv(h.world, d, tp)
        {
          assert SessionInv(g.world, d, tp, Pending(g.procs[d].pc)) && LeaseInv(g.world, d, tp);
        }
      }
    }
    forall tp | tp in h.world.parts ensures CommittedHandled(h.world, tp) {
      assert CommittedHandled(g.world, tp);
    }
  }

  lemma StepKeepsInv(g: Group, e: GroupEvent, h: Group)
    requires Inv(g) && GroupStep(g, e) == Some(h)
    ensures Inv(h) && CommitsAdvance(g.world, h.world)
  {
    match e
    case Elsewhere(o) => ElsewhereKeepsInv(g, o, h);
    case Start(c) => StartKeepsInv(g, c, h);
    case Loop(c, le) => LoopKeepsInv(g, c, le, h);
  }
}
