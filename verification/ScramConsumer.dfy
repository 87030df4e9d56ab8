/** The SCRAM consumer's loop as a step function, and a group of any number of such consumers. */
module ScramConsumer {
  import opened Wrappers
  import opened Broker
  import opened ConsumeEvents
  import Backoff
  import Retry

  /** `late` records that the context was already done when an attempt or a backoff began. */
  datatype Pc =
    | Head
    | Polling(callbacks: nat)
    | Received(msg: Ref)
    | Attempting(msg: Ref, attempt: nat, late: bool)
    | BackingOff(msg: Ref, attempt: nat, late: bool)
    | Finished(msg: Ref, result: Result)
    | Observed(msg: Ref, result: Result)
    | Publishing(msg: Ref, err: string, attempts: nat)
    | Committing(msg: Ref)
    | Closing | Flushing | Down

  datatype Consumer = Consumer(pc: Pc, cancelled: bool, ready: bool, metrics: Metrics)

  const LAUNCHED := Consumer(Head, false, true, NO_METRICS)

  /** A positive timer cannot win against a context that is already done. */
  predicate TimerMayWin(late: bool, attempt: nat) {
    late ==> attempt >= 1 && Backoff.Wait(Backoff.DefaultRetryConfig(), attempt) <= 0
  }

  function Step(q: Consumer, e: LoopEvent): Option<(Consumer, Action)> {
    match (q.pc, e)
    case (Down, _) => None
    case (_, Signal) => Some((q.(cancelled := true), Internal))
    case (_, Crash) => Some((q.(pc := Down), Die))
    case (Head, Enter(n)) => if q.cancelled then None else Some((q.(pc := Polling(n)), Internal))
    case (Head, Stop) => if q.cancelled then Some((q.(pc := Closing), Internal)) else None
    case (Polling(n), Assigned(ps)) =>
      if n == 0 then None else Some((q.(pc := Polling(n - 1), ready := true), Assign(ps)))
    case (Polling(n), Revoked) =>
      if n == 0 then None else Some((q.(pc := Polling(n - 1), ready := false), Unassign))
    case (Polling(_), PollNothing) => Some((q.(pc := Head), Internal))
    case (Polling(_), PollMessage(m)) => Some((q.(pc := Received(m)), Fetch(m)))
    case (Polling(_), PollError(fatal)) =>
      if fatal then Some((q.(pc := Down), Die)) else Some((q.(pc := Head), Internal))
    case (Received(m), Begin) => Some((q.(pc := Attempting(m, 1, q.cancelled)), Internal))
    case (Attempting(m, k, late), AttemptOk) =>
      if late then None else Some((q.(pc := Finished(m, Ok)), Process(m)))
    case (Attempting(m, k, _), AttemptFail(err)) =>
      if k == Backoff.DefaultRetryConfig().maxAttempts then Some((q.(pc := Finished(m, Failed(err, k))), Internal))
      else Some((q.(pc := BackingOff(m, k, q.cancelled)), Internal))
    case (BackingOff(m, k, late), Elapse) =>
      if TimerMayWin(late, k) then Some((q.(pc := Attempting(m, k + 1, q.cancelled)), Internal)) else None
    case (BackingOff(m, k, _), Interrupt) =>
      if q.cancelled then Some((q.(pc := Finished(m, Failed(Retry.CONTEXT_ERROR, k))), Internal)) else None
    case (Finished(m, r), Observe) =>
      Some((q.(pc := Observed(m, r), metrics := q.metrics.(observed := Inc(q.metrics.observed, m.tp.topic))), Internal))
    case (Observed(m, r), Count) =>
      var pc := if r.Ok? then Committing(m) else Publishing(m, r.err, r.attempts);
      Some((q.(pc := pc, metrics := CountResult(q.metrics, m.tp.topic, r)), Internal))
    case (Publishing(m, err, attempts), Publish(accepted)) =>
      Some((q.(pc := Committing(m)), DeadLetter(m, err, attempts, accepted)))
    case (Committing(m), CommitOffset(applied)) => Some((q.(pc := Head), Commit(m, applied)))
    // closing runs the revoke callback
    case (Closing, CloseConsumer) => Some((q.(pc := Flushing, ready := false), Unassign))
    case (Flushing, ClosePublisher) => Some((q.(pc := Down), Die))
    case _ => None
  }

  datatype Group = Group(world: World, procs: map<nat, Consumer>)

  function GroupStep(g: Group, e: GroupEvent): Option<Group> {
    match e
    case Elsewhere(o) =>
      (match Happen(g.world, o)
       case None => None
       case Some(w) => Some(g.(world := w)))
    case Start(c) =>
      if c in g.procs || c in g.world.sessions then None
      else Some(Group(g.world.(sessions := g.world.sessions[c := map[]]), g.procs[c := LAUNCHED]))
    case Loop(c, le) =>
      if c !in g.procs || c !in g.world.sessions then None
      else
        match Step(g.procs[c], le)
        case None => None
        case Some((q, a)) =>
          match Perform(g.world, c, a)
          case None => None
          case Some(w) => Some(Group(w, g.procs[c := q]))
  }

  ghost predicate Initial(g: Group) {
    Fresh(g.world) && g.procs == map[]
  }
}
