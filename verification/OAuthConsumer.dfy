/** The OAuth consumer's loop as a step function, with the tokens it holds and the goroutine that refreshes them,
    and a group of any number of such consumers. */
module OAuthConsumer {
  import opened Wrappers
  import opened Broker
  import opened ConsumeEvents
  import opened Tokens
  import Backoff
  import Retry

  datatype Pc =
    | AtHead
    | InPoll(callbacks: nat)
    | RefreshingOnDemand                 // librdkafka asked for a token; the loop fetches one inline
    | Delayed(msg: Ref)
    | Calling(msg: Ref, attempt: nat, late: bool)
    | Waiting(msg: Ref, attempt: nat, late: bool)
    | Resolved(msg: Ref, result: Result)
    | Timed(msg: Ref, result: Result)
    | ToPublish(msg: Ref, err: string, attempts: nat)
    | ToCommit(msg: Ref)
    | Leaving | Flushing | Exited

  /** The background refresh loop: between refreshes, or in the middle of `OnRefresh`. */
  datatype Refresher = Asleep | Refreshed(tok: Token) | ConsumerUpdated(tok: Token) | Ended

  datatype Consumer = Consumer(pc: Pc, cancelled: bool, ready: bool, metrics: Metrics,
                               cache: Token, consumerToken: Token, dlqToken: Token, refresher: Refresher)

  datatype Event =
    | Shared(e: LoopEvent)
    | RefreshRequested | OnDemandOk(tok: Token, installed: bool) | OnDemandFailed
    | LoopRefreshed(tok: Token) | LoopRefreshFailed | PushToConsumer(installed: bool) | PushToDlq(installed: bool)
    | RefresherStops

  function Launched(tok: Token): Consumer {
    Consumer(AtHead, false, true, NO_METRICS, tok, tok, tok, Asleep)
  }

  function ShareStep(q: Consumer, e: LoopEvent): Option<(Consumer, Action)> {
    match e
    case Signal => if q.pc.Exited? then None else Some((q.(cancelled := true), Internal))
    case Crash => if q.pc.Exited? then None else Some((q.(pc := Exited), Die))
    case Enter(n) => if q.pc.AtHead? && !q.cancelled then Some((q.(pc := InPoll(n)), Internal)) else None
    case Stop => if q.pc.AtHead? && q.cancelled then Some((q.(pc := Leaving), Internal)) else None
    case Assigned(ps) =>
      if q.pc.InPoll? && q.pc.callbacks > 0
      then Some((q.(pc := InPoll(q.pc.callbacks - 1), ready := true), Assign(ps)))
      else None
    case Revoked =>
      if q.pc.InPoll? && q.pc.callbacks > 0
      then Some((q.(pc := InPoll(q.pc.callbacks - 1), ready := false), Unassign))
      else None
    case PollNothing => if q.pc.InPoll? then Some((q.(pc := AtHead), Internal)) else None
    case PollMessage(m) => if q.pc.InPoll? then Some((q.(pc := Delayed(m)), Fetch(m))) else None
    case PollError(allBrokersDown) =>
      if !q.pc.InPoll? then None
      else if allBrokersDown then Some((q.(pc := Exited), Die))   // log.Fatal: no deferred call runs
      else Some((q.(pc := AtHead), Internal))
    case _ => HandleStep(q, e)
  }

  /** From a received message to its commit, and the deferred calls after the loop. */
  function HandleStep(q: Consumer, e: LoopEvent): Option<(Consumer, Action)> {
    var cfg := Backoff.DefaultRetryConfig();
    match (q.pc, e)
    case (Delayed(m), Begin) => Some((q.(pc := Calling(m, 1, q.cancelled)), Internal))
    case (Calling(m, _, late), AttemptOk) =>
      // processMessage refuses to start under a cancelled context
      if late then None else Some((q.(pc := Resolved(m, Ok)), Process(m)))
    case (Calling(m, k, _), AttemptFail(err)) =>
      Some((q.(pc := if k == cfg.maxAttempts then Resolved(m, Failed(err, k)) else Waiting(m, k, q.cancelled)),
            Internal))
    case (Waiting(m, k, late), Elapse) =>
      if late && (k >= 1 ==> Backoff.Wait(cfg, k) > 0) then None
      else Some((q.(pc := Calling(m, k + 1, q.cancelled)), Internal))
    case (Waiting(m, k, _), Interrupt) =>
      if q.cancelled then Some((q.(pc := Resolved(m, Failed(Retry.CONTEXT_ERROR, k))), Internal)) else None
    case (Resolved(m, r), Observe) =>
      Some((q.(pc := Timed(m, r), metrics := q.metrics.(observed := Inc(q.metrics.observed, m.tp.topic))), Internal))
    case (Timed(m, Failed(err, n)), Count) =>
      var metrics := q.metrics.(dlq := Inc(q.metrics.dlq, m.tp.topic), dlqTotal := Inc(q.metrics.dlqTotal, m.tp.topic));
      Some((q.(pc := ToPublish(m, err, n), metrics := metrics), Internal))
    case (Timed(m, Ok), Count) =>
      Some((q.(pc := ToCommit(m), metrics := q.metrics.(success := Inc(q.metrics.success, m.tp.topic))), Internal))
    case (ToPublish(m, err, n), Publish(accepted)) => Some((q.(pc := ToCommit(m)), DeadLetter(m, err, n, accepted)))
    case (ToCommit(m), CommitOffset(applied)) => Some((q.(pc := AtHead), Commit(m, applied)))
    // closing runs the revoke callback
    case (Leaving, CloseConsumer) => Some((q.(pc := Flushing, ready := false), Unassign))
    case (Flushing, ClosePublisher) => Some((q.(pc := Exited), Die))
    case _ => None
  }

  function Step(q: Consumer, e: Event): Option<(Consumer, Action)> {
    if q.pc.Exited? then None
    else
      match e
      case Shared(le) => ShareStep(q, le)
      case RefreshRequested => if q.pc.InPoll? then Some((q.(pc := RefreshingOnDemand), Internal)) else None
      case OnDemandFailed => if q.pc.RefreshingOnDemand? then Some((q.(pc := AtHead), Internal)) else None
      case OnDemandOk(tok, installed) =>
        if !q.pc.RefreshingOnDemand? then None
        else Some((q.(pc := AtHead, cache := tok, consumerToken := if installed then tok else q.consumerToken),
                   Internal))
      case LoopRefreshed(tok) =>
        if q.refresher.Asleep? then Some((q.(cache := tok, refresher := Refreshed(tok)), Internal)) else None
      case LoopRefreshFailed => if q.refresher.Asleep? then Some((q, Internal)) else None
      case PushToConsumer(installed) =>
        if !q.refresher.Refreshed? then None
        else
          var tok := q.refresher.tok;
          Some((q.(consumerToken := if installed then tok else q.consumerToken, refresher := ConsumerUpdated(tok)),
                Internal))
      case PushToDlq(installed) =>
        if !q.refresher.ConsumerUpdated? then None
        else Some((q.(dlqToken := if installed then q.refresher.tok else q.dlqToken, refresher := Asleep), Internal))
      case RefresherStops =>
        if q.refresher.Asleep? && q.cancelled then Some((q.(refresher := Ended), Internal)) else None
  }

  datatype Group = Group(world: World, procs: map<nat, Consumer>)

  /** A process starts only after its first token exchange succeeded. */
  datatype GroupEvent = Outside(o: Broker.Outside) | Launch(c: nat, tok: Token) | Inside(c: nat, e: Event)

  function GroupStep(g: Group, e: GroupEvent): Option<Group> {
    match e
    case Outside(o) =>
      (match Happen(g.world, o)
       case None => None
       case Some(w) => Some(g.(world := w)))
    case Launch(c, tok) =>
      if c in g.procs || c in g.world.sessions then None
      else Some(Group(g.world.(sessions := g.world.sessions[c := map[]]), g.procs[c := Launched(tok)]))
    case Inside(c, le) =>
      if c !in g.procs || c !in g.world.sessions then None
      else
        match Step(g.procs[c], le)
        case None => None
        case Some((q, a)) =>
          match Perform(g.world, c, a)
          case None => None
          case Some(w) => Some(Group(w, g.procs[c := q]))
  }

  ghost predicate Initial(g: Group) {
    Fresh(g.world) && g.procs == map[]
  }
}
