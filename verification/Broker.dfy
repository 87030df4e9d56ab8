/** The interface the consumers rely on: the broker's partitions, the client library's positions and the DLQ
    producer's queue of every process, and the history of what was handled.  Brokers and the group coordinator
    themselves are not modelled. */
module Broker {
  import opened Wrappers

  datatype TopicPartition = TopicPartition(topic: string, partition: int)

  datatype Ref = Ref(tp: TopicPartition, offset: nat)

  /** `base` is history: the position committed before the group's first run, if there was one, else where the session
      that made the first commit began. */
  datatype Partition = Partition(logEnd: nat, committed: Option<nat>, owner: Option<nat>, base: Option<nat>)

  /** A process's fetch state for one assigned partition: where it resumed and what comes next. */
  datatype Session = Session(start: nat, next: nat)

  datatype How = Processed | DeadLettered(err: string, attempts: nat)

  datatype Handling = Handling(consumer: nat, msg: Ref, how: How)

  /** Handlings are identified by their index in `handled`; the other DLQ fields hold such indices. */
  datatype World = World(
    parts: map<TopicPartition, Partition>,
    sessions: map<nat, map<TopicPartition, Session>>,
    handled: seq<Handling>,
    queued: map<nat, nat>,     // index -> the process whose producer queue holds it
    delivered: seq<nat>,       // the DLQ topic, in delivery order
    undelivered: set<nat>,     // reported as failed
    refused: set<nat>,         // Produce returned an error
    dropped: set<nat>)         // in the queue of a process that ended

  /** What a consume loop asks of the broker and of its client library. */
  datatype Action =
    | Internal
    | Assign(ps: set<TopicPartition>)
    | Unassign
    | Fetch(msg: Ref)
    | Process(msg: Ref)
    | DeadLetter(msg: Ref, err: string, attempts: nat, accepted: bool)
    | Commit(msg: Ref, applied: bool)
    | Die

  /** What happens outside every consume loop. */
  datatype Outside = Append(tp: TopicPartition) | Evict(c: nat) | Report(index: nat, ok: bool)

  /** Where a new session resumes: the committed position, else the log end (`auto.offset.reset=latest`). */
  function Position(p: Partition): nat {
    if p.committed.Some? then p.committed.value else p.logEnd
  }

  function Release(p: Partition, c: nat): Partition {
    if p.owner == Some(c) then p.(owner := None) else p
  }

  function ReleaseAll(w: World, c: nat): World {
    w.(parts := map tp | tp in w.parts :: Release(w.parts[tp], c))
  }

  /** A partition can be granted to `c` only if no other process owns it. */
  predicate Grantable(w: World, c: nat, ps: set<TopicPartition>) {
    forall tp | tp in ps :: tp in w.parts && (w.parts[tp].owner == None || w.parts[tp].owner == Some(c))
  }

  function Perform(w: World, c: nat, a: Action): Option<World>
    requires c in w.sessions
  {
    var mine := w.sessions[c];
    match a
    case Internal => Some(w)
    case Assign(ps) =>
      if !Grantable(w, c, ps) then None
      else
        Some(w.(parts := map tp | tp in w.parts ::
                  if tp in ps then w.parts[tp].(owner := Some(c)) else Release(w.parts[tp], c),
                sessions := w.sessions[c := map tp | tp in ps ::
                  Session(Position(w.parts[tp]), Position(w.parts[tp]))]))
    case Unassign =>
      Some(ReleaseAll(w, c).(sessions := w.sessions[c := map[]]))
    case Fetch(m) =>
      if m.tp in mine && m.tp in w.parts && mine[m.tp].next == m.offset < w.parts[m.tp].logEnd
      then Some(w.(sessions := w.sessions[c := mine[m.tp := mine[m.tp].(next := m.offset + 1)]]))
      else None
    case Process(m) =>
      Some(w.(handled := w.handled + [Handling(c, m, Processed)]))
    case DeadLetter(m, err, attempts, accepted) =>
      var w' := w.(handled := w.handled + [Handling(c, m, DeadLettered(err, attempts))]);
      Some(if accepted then w'.(queued := w.queued[|w.handled| := c]) else w'.(refused := w.refused + {|w.handled|}))
    case Commit(m, applied) =>
      if !applied then Some(w)
      else if m.tp in mine && m.tp in w.parts && w.parts[m.tp].owner == Some(c) then
        var p := w.parts[m.tp];
        var base := if p.base == None then Some(mine[m.tp].start) else p.base;
        Some(w.(parts := w.parts[m.tp := p.(committed := Some(m.offset + 1), base := base)]))
      else None
    case Die =>
      var mineQueued := set i | i in w.queued && w.queued[i] == c;
      Some(w.(sessions := w.sessions[c := map[]], queued := w.queued - mineQueued, dropped := w.dropped + mineQueued))
  }

  function Happen(w: World, o: Outside): Option<World> {
    match o
    case Append(tp) =>
      if tp in w.parts then Some(w.(parts := w.parts[tp := w.parts[tp].(logEnd := w.parts[tp].logEnd + 1)])) else None
    case Evict(c) => Some(ReleaseAll(w, c))
    case Report(i, ok) =>
      if i !in w.queued then None
      else
        var w' := w.(queued := w.queued - {i});
        Some(if ok then w'.(delivered := w.delivered + [i]) else w'.(undelivered := w.undelivered + {i}))
  }

  /** Before the first consumer: partitions of any length, committed anywhere or not at all; nothing is owned or
      handled. */
  ghost predicate Fresh(w: World) {
    && (forall tp | tp in w.parts ::
          var p := w.parts[tp];
          p.owner == None && p.base == p.committed && (p.committed.Some? ==> p.committed.value <= p.logEnd))
    && w.sessions == map[] && w.queued == map[]
    && w.handled == [] && w.delivered == [] && w.undelivered == w.refused == w.dropped == {}
  }

  ghost predicate WasHandled(w: World, m: Ref) {
    exists h :: h in w.handled && h.msg == m
  }

  // ---- invariants that need no knowledge of the consume loops ----

  /** From the base up to the committed position everything was handled. */
  ghost predicate CommittedHandled(w: World, tp: TopicPartition)
    requires tp in w.parts
  {
    var p := w.parts[tp];
    && (p.committed.Some? <==> p.base.Some?)
    && (p.committed.Some? ==>
          && p.base.value <= p.committed.value <= p.logEnd
          && forall o: nat | p.base.value <= o < p.committed.value :: WasHandled(w, Ref(tp, o)))
  }

  /** An owner's session brackets the committed position. */
  ghost predicate LeaseInv(w: World, c: nat, tp: TopicPartition)
    requires tp in w.parts && c in w.sessions && tp in w.sessions[c]
  {
    var p, s := w.parts[tp], w.sessions[c][tp];
    p.owner == Some(c) && p.committed.Some? && p.base.Some? ==> p.base.value <= s.start <= p.committed.value <= s.next
  }

  /** Within a session everything before the fetch position was handled, except a message `held` by the loop. */
  ghost predicate SessionInv(w: World, c: nat, tp: TopicPartition, held: Option<Ref>)
    requires c in w.sessions && tp in w.sessions[c]
  {
    var s := w.sessions[c][tp];
    && tp in w.parts && s.start <= s.next <= w.parts[tp].logEnd
    && forall o: nat | s.start <= o < s.next :: WasHandled(w, Ref(tp, o)) || held == Some(Ref(tp, o))
  }

  /** How a step of one process looks to everything else. */
  ghost predicate Frame(w: World, w': World, c: nat) {
    && w'.parts.Keys == w.parts.Keys && w'.sessions.Keys == w.sessions.Keys
    && w.handled <= w'.handled
    && (forall d | d in w.sessions && d != c :: w'.sessions[d] == w.sessions[d])
    && (forall tp | tp in w.parts ::
          && w.parts[tp].logEnd <= w'.parts[tp].logEnd
          && (forall d | d != c && w'.parts[tp].owner == Some(d) ::
                w'.parts[tp].(logEnd := 0) == w.parts[tp].(logEnd := 0)))
  }

  lemma PerformFrames(w: World, c: nat, a: Action, w': World)
    requires c in w.sessions && Perform(w, c, a) == Some(w')
    ensures Frame(w, w', c)
  {
  }

  lemma FrameKeepsHandled(w: World, w': World, c: nat, m: Ref)
    requires Frame(w, w', c) && WasHandled(w, m)
    ensures WasHandled(w', m)
  {
    var h :| h in w.handled && h.msg == m;
    assert h in w'.handled;
  }

  lemma FrameKeepsOthers(w: World, w': World, c: nat, d: nat, tp: TopicPartition, held: Option<Ref>)
    requires Frame(w, w', c) && d != c && d in w.sessions && tp in w.sessions[d]
    requires SessionInv(w, d, tp, held) && LeaseInv(w, d, tp)
    ensures SessionInv(w', d, tp, held) && LeaseInv(w', d, tp)
  {
    var s := w.sessions[d][tp];
    forall o: nat | s.start <= o < s.next ensures WasHandled(w', Ref(tp, o)) || held == Some(Ref(tp, o)) {
      if WasHandled(w, Ref(tp, o)) {
        FrameKeepsHandled(w, w', c, Ref(tp, o));
      }
    }
  }

  // ---- the fate of every handling ----

  predicate NoDuplicates(s: seq<nat>) {
    forall i, j | 0 <= i < j < |s| :: s[i] != s[j]
  }

  /** In how many of the six classes handling `i` is. */
  function Classes(w: World, i: nat): nat
    requires i < |w.handled|
  {
    (if w.handled[i].how == Processed then 1 else 0) + (if i in w.delivered then 1 else 0)
    + (if i in w.queued then 1 else 0)
    + (if i in w.undelivered then 1 else 0) + (if i in w.refused then 1 else 0) + (if i in w.dropped then 1 else 0)
  }

  ghost predicate Accounted(w: World) {
    && (forall i: nat | i < |w.handled| :: Classes(w, i) == 1)
    && (forall i: nat | i in w.delivered || i in w.queued || i in w.undelivered || i in w.refused || i in w.dropped ::
          i < |w.handled|)
    && NoDuplicates(w.delivered)
    && (forall i | i in w.queued :: i < |w.handled| && w.handled[i].consumer == w.queued[i])
  }

  lemma PerformKeepsAccounts(w: World, c: nat, a: Action, w': World)
    requires c in w.sessions && Accounted(w) && Perform(w, c, a) == Some(w')
    ensures Accounted(w')
  {
    forall i: nat | i < |w'.handled| ensures Classes(w', i) == 1 {
      if i < |w.handled| {
        assert Classes(w, i) == 1;
        assert w'.handled[i] == w.handled[i];
      }
    }
  }

  lemma HappenKeepsAccounts(w: World, o: Outside, w': World)
    requires Accounted(w) && Happen(w, o) == Some(w')
    ensures Accounted(w')
  {
    forall i: nat | i < |w'.handled| ensures Classes(w', i) == 1 {
      assert Classes(w, i) == 1;
    }
    if o.Report? {
      assert Classes(w, o.index) == 1;
    }
  }
}
