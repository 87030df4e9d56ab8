/** Shutdown: after the context is cancelled a loop exits within a bounded number of its own steps. */
module ScramDrain {
  import opened Wrappers
  import opened Machines
  import opened Broker
  import opened ConsumeEvents
  import opened ScramConsumer
  import opened ScramSafety
  import opened ScramTheorems

  /** How many more steps a cancelled loop can take. */
  function StepsLeft(q: Consumer): nat {
    match q.pc
    case Down => 0
    case Flushing => 1
    case Closing => 2
    case Head => 3
    case Committing(_) => 4
    case Publishing(_, _, _) => 5
    case Observed(_, _) => 6
    case Finished(_, _) => 7
    case BackingOff(_, _, late) => if late then 8 else 10
    case Attempting(_, _, _) => 9
    case Received(_) => 10
    case Polling(n) => 11 + n
  }

  function CompletionsLeft(q: Consumer): nat {
    if q.pc.Polling? || InHand(q.pc).Some? then 1 else 0
  }

  function AttemptsLeft(q: Consumer): nat {
    if q.pc.Polling? || q.pc.Received? || (q.pc.BackingOff? && !q.pc.late) then 1 else 0
  }

  /** Only an attempt that began before the signal can still succeed. */
  function SuccessesLeft(q: Consumer): nat {
    if q.pc.Attempting? && !q.pc.late then 1 else 0
  }

  /** The waits of the default configuration are positive, so a late backoff is always cut short. */
  ghost predicate RetryPcInv(q: Consumer) {
    match q.pc
    case Attempting(_, k, _) => 1 <= k <= 3
    case BackingOff(_, k, _) => 1 <= k <= 2
    case _ => true
  }

  lemma LateTimerLoses(k: nat)
    requires 1 <= k <= 2
    ensures !TimerMayWin(true, k)
  {
    Backoff.DefaultWaits();
  }

  lemma StepKeepsRetryPc(q: Consumer, e: LoopEvent, q': Consumer, a: Action)
    requires Step(q, e) == Some((q', a)) && RetryPcInv(q)
    ensures RetryPcInv(q')
  {
  }

  lemma StepDrains(q: Consumer, e: LoopEvent, q': Consumer, a: Action)
    requires Step(q, e) == Some((q', a)) && q.cancelled && RetryPcInv(q) && e != Signal
    ensures q'.cancelled && StepsLeft(q') < StepsLeft(q)
    ensures CompletionsLeft(q') + One(e.CommitOffset?) <= CompletionsLeft(q)
    ensures AttemptsLeft(q') + One(e.Begin? || e.Elapse?) <= AttemptsLeft(q)
    ensures SuccessesLeft(q') + One(a.Process?) <= SuccessesLeft(q)
  {
    if q.pc.BackingOff? {
      LateTimerLoses(q.pc.attempt);
    }
  }

  /** Occurrences in a run of consumer `c`'s own steps of four kinds. */
  datatype Tally = Tally(steps: nat, completions: nat, attempts: nat, successes: nat)

  function Tallied(events: seq<GroupEvent>, c: nat): Tally {
    if events == [] then Tally(0, 0, 0, 0)
    else
      var rest := Tallied(events[1..], c);
      match events[0]
      case Loop(d, e) =>
        if d == c && e != Signal
        then
          Tally(rest.steps + 1, rest.completions + One(e.CommitOffset?), rest.attempts + One(e.Begin? || e.Elapse?),
                rest.successes + One(e.AttemptOk?))
        else rest
      case _ => rest
  }

  lemma OwnStep(g: Group, e: GroupEvent, h: Group, c: nat)
    requires GroupStep(g, e) == Some(h) && c in g.procs && g.procs[c].cancelled && RetryPcInv(g.procs[c])
    ensures c in h.procs && h.procs[c].cancelled && RetryPcInv(h.procs[c])
    ensures var q, q' := g.procs[c], h.procs[c];
            if e.Loop? && e.c == c && e.e != Signal then
              && StepsLeft(q') < StepsLeft(q)
              && CompletionsLeft(q') + One(e.e.CommitOffset?) <= CompletionsLeft(q)
              && AttemptsLeft(q') + One(e.e.Begin? || e.e.Elapse?) <= AttemptsLeft(q)
              && SuccessesLeft(q') + One(e.e.AttemptOk?) <= SuccessesLeft(q)
            else q' == q
  {
    if e.Loop? && e.c == c {
      var (q, a) := Step(g.procs[c], e.e).value;
      StepKeepsRetryPc(g.procs[c], e.e, q, a);
      if e.e != Signal {
        StepDrains(g.procs[c], e.e, q, a);
        StepEnds(g.procs[c], e.e, q, a);
      }
    }
  }

  /** After cancellation, in any run: at most one more message completes, at most one further attempt begins, only an
      attempt already under way can succeed, and the loop takes at most `StepsLeft` steps. */
  lemma {:induction false} BoundedDrain(g: Group, events: seq<GroupEvent>, h: Group, c: nat)
    requires Exec(GroupStep, g, events) == Some(h) && c in g.procs && g.procs[c].cancelled && RetryPcInv(g.procs[c])
    ensures c in h.procs
    ensures Tallied(events, c).steps + StepsLeft(h.procs[c]) <= StepsLeft(g.procs[c])
    ensures Tallied(events, c).completions <= CompletionsLeft(g.procs[c]) <= 1
    ensures Tallied(events, c).attempts <= AttemptsLeft(g.procs[c]) <= 1
    ensures Tallied(events, c).successes <= SuccessesLeft(g.procs[c]) <= 1
    decreases |events|
  {
    if events != [] {
      var next := GroupStep(g, events[0]).value;
      OwnStep(g, events[0], next, c);
      BoundedDrain(next, events[1..], h, c);
    }
  }

  lemma {:induction false} RetryPcAlways(g: Group, events: seq<GroupEvent>, h: Group)
    requires Exec(GroupStep, g, events) == Some(h) && forall c | c in g.procs :: RetryPcInv(g.procs[c])
    ensures forall c | c in h.procs :: RetryPcInv(h.procs[c])
    decreases |events|
  {
    if events != [] {
      var next := GroupStep(g, events[0]).value;
      if events[0].Loop? {
        var (q, a) := Step(g.procs[events[0].c], events[0].e).value;
        StepKeepsRetryPc(g.procs[events[0].c], events[0].e, q, a);
      }
      RetryPcAlways(next, events[1..], h);
    }
  }

  // ---- only the signal cancels ----

  /** A loop is cancelled exactly if its signal has come. */
  ghost predicate SignalledExactly(events: seq<GroupEvent>, g: Group) {
    forall c | c in g.procs :: g.procs[c].cancelled <==> Loop(c, Signal) in events
  }

  ghost predicate OnlyStarted(events: seq<GroupEvent>, g: Group) {
    forall c, e | Loop(c, e) in events :: c in g.procs
  }

  lemma StepSignalled(q: Consumer, e: LoopEvent, q': Consumer, a: Action)
    requires Step(q, e) == Some((q', a))
    ensures q'.cancelled <==> q.cancelled || e == Signal
    ensures e.Stop? || e.Interrupt? ==> q.cancelled
    ensures e.Enter? ==> !q.cancelled
  {
  }

  lemma GroupStepSignalled(events: seq<GroupEvent>, g: Group, e: GroupEvent, h: Group)
    requires SignalledExactly(events, g) && OnlyStarted(events, g) && GroupStep(g, e) == Some(h)
    ensures SignalledExactly(events + [e], h) && OnlyStarted(events + [e], h)
  {
    if e.Loop? {
      var (q, a) := Step(g.procs[e.c], e.e).value;
      StepSignalled(g.procs[e.c], e.e, q, a);
      hide Step, Perform;
    }
  }

  lemma {:induction false} RunSignalled(g: Group, events: seq<GroupEvent>, h: Group)
    requires g.procs == map[] && Exec(GroupStep, g, events) == Some(h)
    ensures SignalledExactly(events, h) && OnlyStarted(events, h)
    decreases |events|
  {
    if events != [] {
      var front, last := events[..|events| - 1], events[|events| - 1];
      assert events == front + [last];
      ExecSplit(GroupStep, g, front, [last]);
      var before := Exec(GroupStep, g, front).value;
      ExecOne(GroupStep, before, last);
      RunSignalled(g, front, before);
      GroupStepSignalled(front, before, last, h);
    }
  }

  /** In every run a loop leaves, or cuts a backoff short, only after its signal, and polls only before it. */
  lemma OnlySignalStops(g: Group, before: seq<GroupEvent>, h: Group, c: nat, e: LoopEvent, k: Group)
    requires Initial(g) && Exec(GroupStep, g, before) == Some(h) && GroupStep(h, Loop(c, e)) == Some(k)
    ensures e.Stop? || e.Interrupt? ==> Loop(c, Signal) in before
    ensures e.Enter? ==> Loop(c, Signal) !in before
  {
    RunSignalled(g, before, h);
    var (q, a) := Step(h.procs[c], e).value;
    StepSignalled(h.procs[c], e, q, a);
  }

  /** The step a cancelled loop can always take when nothing else helps it. */
  function DrainEvent(pc: Pc): LoopEvent {
    match pc
    case Head => Stop
    case Polling(_) => PollNothing
    case Received(_) => Begin
    case Attempting(_, _, _) => AttemptFail("")
    case BackingOff(_, _, _) => Interrupt
    case Finished(_, _) => Observe
    case Observed(_, _) => Count
    case Publishing(_, _, _) => Publish(false)
    case Committing(_) => CommitOffset(false)
    case Closing => CloseConsumer
    case Flushing => ClosePublisher
    case Down => Crash
  }

  lemma DrainEventEnabled(g: Group, c: nat)
    requires g.world.sessions.Keys == g.procs.Keys && c in g.procs && g.procs[c].cancelled && !g.procs[c].pc.Down?
    ensures GroupStep(g, Loop(c, DrainEvent(g.procs[c].pc))).Some?
    ensures GroupStep(g, Loop(c, DrainEvent(g.procs[c].pc))).value.world.sessions.Keys == g.world.sessions.Keys
  {
    DrainStepEnabled(g.procs[c]);
    var (q, a) := Step(g.procs[c], DrainEvent(g.procs[c].pc)).value;
    AlwaysPerformed(g.world, c, a);
    hide Step, Perform, DrainEvent;
  }

  /** Actions that need nothing from the broker. */
  predicate Unconditional(a: Action) {
    !a.Assign? && !a.Fetch? && (a.Commit? ==> !a.applied)
  }

  lemma DrainStepEnabled(q: Consumer)
    requires q.cancelled && !q.pc.Down?
    ensures Step(q, DrainEvent(q.pc)).Some? && Unconditional(Step(q, DrainEvent(q.pc)).value.1)
  {
  }

  lemma AlwaysPerformed(w: World, c: nat, a: Action)
    requires c in w.sessions && Unconditional(a)
    ensures Perform(w, c, a).Some? && Perform(w, c, a).value.sessions.Keys == w.sessions.Keys
  {
  }

  predicate OnlyBy(events: seq<GroupEvent>, c: nat) {
    forall e | e in events :: e.Loop? && e.c == c
  }

  /** A cancelled loop is never stuck: from every state it can run to its end by itself. */
  lemma {:induction false} DrainCompletes(g: Group, c: nat) returns (events: seq<GroupEvent>, h: Group)
    requires g.world.sessions.Keys == g.procs.Keys && c in g.procs && g.procs[c].cancelled && RetryPcInv(g.procs[c])
    ensures Exec(GroupStep, g, events) == Some(h) && c in h.procs && h.procs[c].pc.Down?
    ensures |events| <= StepsLeft(g.procs[c]) && OnlyBy(events, c)
    decreases StepsLeft(g.procs[c])
  {
    if g.procs[c].pc.Down? {
      events, h := [], g;
    } else {
      var e := Loop(c, DrainEvent(g.procs[c].pc));
      DrainEventEnabled(g, c);
      var next := GroupStep(g, e).value;
      OwnStep(g, e, next, c);
      events, h := DrainCompletes(next, c);
      assert ([e] + events)[1..] == events;
      events := [e] + events;
    }
  }
}
