/** A timed machine in which the refresh loop and the consume loop's on-demand refresh interleave freely, until the
    process has drained after a shutdown signal.  The loop pushes to the consumer and to the DLQ producer; the on-demand
    path updates only the consumer (and the shared cache, from which the loop computes its next sleep).  The loop ends
    as soon as it sees the signal, while the consumer still finishes its message and flushes. */
module TokenDeadline {
  import opened Wrappers
  import opened Machines
  import opened Durations
  import opened Tokens

  /** Delays inside the program, the range of token lifetimes, and the longest time from the shutdown signal to the end
      of the process. */
  datatype Timing = Timing(pushLag: nat, sleepLag: nat, minLife: nat, maxLife: nat, drain: nat) {
    /** The latest end of a sleep, counted from when the token before it was issued; the cache may hold an on-demand
        token of the longest lifetime. */
    function LongestSleep(): nat {
      pushLag + sleepLag + Max(maxLife - REFRESH_BUFFER, 0)
    }

    /** The shortest-lived token outlasts the longest sleep, two requests and a push. */
    predicate Sound() {
      LongestSleep() + 2 * HTTP_TIMEOUT + pushLag < minLife
    }

    /** It also outlasts a drain that begins at the end of the longest sleep. */
    predicate Drains() {
      LongestSleep() + drain < minLife
    }
  }

  datatype LoopPc =
    | Computing(due: int)             // about to call sleepDuration
    | Sleeping(until: int)
    | FetchingBase(since: int)
    | Exchanging(since: int)
    | Storing(tok: Token, due: int)   // token received, lock not yet taken
    | Pushing(tok: Token, due: int)   // about to call OnRefresh
    | Cooling(until: int)
    | Ended                           // the context was done

  datatype DemandPc = Idle | DemandBase | DemandExchange | DemandStoring(tok: Token) | DemandPushing(tok: Token)

  /** `stopBy` is when the process is gone, once the shutdown signal has come.  The last three fields are history: the
      start-up token, the tokens issued to the loop, and which of its pushes the DLQ producer accepted. */
  datatype State = State(now: int, cache: Token, consumer: Token, dlq: Token, loop: LoopPc, demand: DemandPc,
                         stopBy: Option<int>, initial: Token, issued: seq<Token>, verdicts: seq<bool>)

  datatype Event =
    | Tick(dt: nat)
    | Cancel | LoopStops
    | Compute | Wake | BaseOk | ExchangeOk(access: string, life: nat) | Store
    | PushTokens(toConsumer: bool, toDlq: bool) | LoopFails | Cooled
    | DemandStart | DemandBaseOk | DemandExchangeOk(daccess: string, dlife: nat) | DemandStore | DemandPush
    | DemandFails

  /** The loop waits in a `select` on its timer and the context. */
  predicate Selecting(l: LoopPc) {
    l.Sleeping? || l.Cooling?
  }

  /** The loop lets the clock run so far before it acts; a `select` whose context is done does not wait. */
  predicate LoopWaits(l: LoopPc, t: int) {
    match l
    case Computing(due) => t <= due
    case Sleeping(until) => t <= until
    case FetchingBase(since) => t <= since + HTTP_TIMEOUT
    case Exchanging(since) => t <= since + HTTP_TIMEOUT
    case Storing(_, due) => t <= due
    case Pushing(_, due) => t <= due
    case Cooling(until) => t <= until
    case Ended => true
  }

  predicate MayPass(s: State, dt: nat) {
    && LoopWaits(s.loop, s.now + dt)
    && (s.stopBy.Some? ==> s.now + dt <= s.stopBy.value && (Selecting(s.loop) ==> dt == 0))
  }

  function SleepDuration(cache: Token, now: int): int {
    Max(cache.expiresAt - now - REFRESH_BUFFER, 0)
  }

  /** Start-up: one token is cached and installed in both clients. */
  function Start(c: Timing, now: int, tok: Token): State {
    State(now, tok, tok, tok, Computing(now + c.pushLag + c.sleepLag), Idle, None, tok, [], [])
  }

  function Step(c: Timing, s: State, e: Event): Option<State> {
    match e
    case Tick(dt) =>
      if MayPass(s, dt) then Some(s.(now := s.now + dt)) else None
    case Cancel =>
      if s.stopBy == None then Some(s.(stopBy := Some(s.now + c.drain))) else None
    case LoopStops =>
      if Selecting(s.loop) && s.stopBy.Some? then Some(s.(loop := Ended)) else None
    case Compute =>
      if s.loop.Computing? then Some(s.(loop := Sleeping(s.now + SleepDuration(s.cache, s.now)))) else None
    case Wake =>
      if s.loop.Sleeping? && s.now == s.loop.until then Some(s.(loop := FetchingBase(s.now))) else None
    case BaseOk =>
      if s.loop.FetchingBase? then Some(s.(loop := Exchanging(s.now))) else None
    case ExchangeOk(access, life) =>
      if s.loop.Exchanging? && c.minLife <= life <= c.maxLife
      then
        var tok := Token(access, s.now + life);
        Some(s.(loop := Storing(tok, s.now + c.pushLag), issued := s.issued + [tok]))
      else None
    case Store =>
      if s.loop.Storing? then Some(s.(cache := s.loop.tok, loop := Pushing(s.loop.tok, s.loop.due))) else None
    case PushTokens(toConsumer, toDlq) =>
      if s.loop.Pushing?
      then
        Some(s.(consumer := if toConsumer then s.loop.tok else s.consumer,
                dlq := if toDlq then s.loop.tok else s.dlq,
                loop := Computing(s.now + c.sleepLag), verdicts := s.verdicts + [toDlq]))
      else None
    case LoopFails =>
      if s.loop.FetchingBase? || s.loop.Exchanging? then Some(s.(loop := Cooling(s.now + FAILURE_PAUSE))) else None
    case Cooled =>
      if s.loop.Cooling? && s.now == s.loop.until then Some(s.(loop := Computing(s.now + c.sleepLag))) else None
    case DemandStart =>
      if s.demand.Idle? then Some(s.(demand := DemandBase)) else None
    case DemandBaseOk =>
      if s.demand.DemandBase? then Some(s.(demand := DemandExchange)) else None
    case DemandExchangeOk(access, life) =>
      if s.demand.DemandExchange? && c.minLife <= life <= c.maxLife
      then Some(s.(demand := DemandStoring(Token(access, s.now + life))))
      else None
    case DemandStore =>
      if s.demand.DemandStoring? then Some(s.(cache := s.demand.tok, demand := DemandPushing(s.demand.tok))) else None
    case DemandPush =>
      if s.demand.DemandPushing? then Some(s.(consumer := s.demand.tok, demand := Idle)) else None
    case DemandFails =>
      if s.demand.DemandBase? || s.demand.DemandExchange? then Some(s.(demand := Idle)) else None
  }

  function Machine(c: Timing): (State, Event) -> Option<State> {
    (s, e) => Step(c, s, e)
  }

  predicate Fits(c: Timing, now: int, tok: Token, due: int) {
    now <= due <= tok.expiresAt - c.minLife + c.pushLag && tok.expiresAt <= now + c.maxLife
  }

  /** How late the running round may still be, measured against the expiry of the DLQ producer's token. */
  ghost predicate OnTime(c: Timing, s: State, shutdown: bool) {
    var e := s.dlq.expiresAt;
    match s.loop
    case Computing(due) => due <= e - c.minLife + c.pushLag + c.sleepLag
    case Sleeping(until) =>
      until + 2 * HTTP_TIMEOUT + c.pushLag < e && (shutdown ==> until + c.drain < e)
    case FetchingBase(since) => since + 2 * HTTP_TIMEOUT + c.pushLag < e
    case Exchanging(since) => since + HTTP_TIMEOUT + c.pushLag < e
    case Storing(tok, due) => due < e && Fits(c, s.now, tok, due)
    case Pushing(tok, due) => due < e && Fits(c, s.now, tok, due)
    case Cooling(_) => false
    case Ended => s.stopBy.Some? && s.stopBy.value < e
  }

  /** `shutdown` is whether the signal may come. */
  ghost predicate Inv(c: Timing, s: State, shutdown: bool) {
    && LoopWaits(s.loop, s.now)
    && s.cache.expiresAt <= s.now + c.maxLife
    && (s.demand.DemandStoring? ==> s.demand.tok.expiresAt <= s.now + c.maxLife)
    && (s.stopBy.Some? ==> shutdown && s.now <= s.stopBy.value <= s.now + c.drain)
    && OnTime(c, s, shutdown)
  }

  /** The loop's own refreshes succeed, and the DLQ producer takes what it is given; anything else may happen. */
  predicate Succeeds(e: Event, shutdown: bool) {
    e != LoopFails && (e.PushTokens? ==> e.toDlq) && (e == Cancel ==> shutdown)
  }

  /** Steps of the on-demand path.  Nothing keeps it from refreshing after the signal, too. */
  predicate OnDemand(e: Event) {
    match e
    case DemandStart => true
    case DemandBaseOk => true
    case DemandExchangeOk(_, _) => true
    case DemandStore => true
    case DemandPush => true
    case DemandFails => true
    case _ => false
  }

  lemma OnDemandKeepsInv(c: Timing, s: State, e: Event, t: State, shutdown: bool)
    requires OnDemand(e) && Inv(c, s, shutdown) && Step(c, s, e) == Some(t)
    ensures Inv(c, t, shutdown)
  {
  }

  lemma LoopKeepsInv(c: Timing, s: State, e: Event, t: State, shutdown: bool)
    requires !OnDemand(e) && c.Sound() && (shutdown ==> c.Drains())
    requires Inv(c, s, shutdown) && Step(c, s, e) == Some(t) && Succeeds(e, shutdown)
    ensures Inv(c, t, shutdown)
  {
  }

  lemma StepKeepsInv(c: Timing, s: State, e: Event, t: State, shutdown: bool)
    requires c.Sound() && (shutdown ==> c.Drains())
    requires Inv(c, s, shutdown) && Step(c, s, e) == Some(t) && Succeeds(e, shutdown)
    ensures Inv(c, t, shutdown)
  {
    if OnDemand(e) {
      OnDemandKeepsInv(c, s, e, t, shutdown);
    } else {
      LoopKeepsInv(c, s, e, t, shutdown);
    }
  }

  /** While no loop refresh or push fails, the DLQ producer's token is unexpired at every instant of every run, to the
      end of the drain, whatever the on-demand path does. */
  lemma {:induction false} DlqTokenNeverLapses(c: Timing, s: State, events: seq<Event>, t: State, shutdown: bool)
    requires c.Sound() && (shutdown ==> c.Drains()) && Inv(c, s, shutdown)
    requires (forall e | e in events :: Succeeds(e, shutdown)) && Exec(Machine(c), s, events) == Some(t)
    ensures Inv(c, t, shutdown) && t.now < t.dlq.expiresAt
    decreases |events|
  {
    if events != [] {
      var next := Step(c, s, events[0]).value;
      StepKeepsInv(c, s, events[0], next, shutdown);
      DlqTokenNeverLapses(c, next, events[1..], t, shutdown);
    }
  }

  /** The last issued token whose push the DLQ producer accepted, else the initial one. */
  function LastAccepted(issued: seq<Token>, verdicts: seq<bool>, initial: Token): Token
    requires |verdicts| <= |issued|
    decreases |verdicts|
  {
    var n := |verdicts| - 1;
    if n < 0 then initial else if verdicts[n] then issued[n] else LastAccepted(issued, verdicts[..n], initial)
  }

  /** Every issued token has been pushed, except one that is still on its way. */
  ghost predicate FollowsLoop(s: State) {
    var underway := s.loop.Storing? || s.loop.Pushing?;
    && |s.issued| == |s.verdicts| + (if underway then 1 else 0)
    && (underway ==> s.loop.tok == s.issued[|s.issued| - 1])
    && s.dlq == LastAccepted(s.issued, s.verdicts, s.initial)
  }

  lemma {:induction false} LaterTokensIrrelevant(issued: seq<Token>, tok: Token, verdicts: seq<bool>, initial: Token)
    requires |verdicts| <= |issued|
    ensures LastAccepted(issued + [tok], verdicts, initial) == LastAccepted(issued, verdicts, initial)
    decreases |verdicts|
  {
    if verdicts != [] {
      LaterTokensIrrelevant(issued, tok, verdicts[..|verdicts| - 1], initial);
    }
  }

  lemma StepFollowsLoop(c: Timing, s: State, e: Event, t: State)
    requires FollowsLoop(s) && Step(c, s, e) == Some(t)
    ensures FollowsLoop(t) && t.initial == s.initial
  {
    if e.ExchangeOk? {
      LaterTokensIrrelevant(s.issued, t.loop.tok, s.verdicts, s.initial);
    } else if e.PushTokens? {
      assert t.verdicts[..|s.verdicts|] == s.verdicts;
    }
  }

  /** The DLQ producer holds the last loop-issued token it accepted, or the initial one, failures or not;
      an on-demand token never reaches it. */
  lemma {:induction false} DlqTokenFollowsLoop(c: Timing, s: State, events: seq<Event>, t: State)
    requires FollowsLoop(s) && Exec(Machine(c), s, events) == Some(t)
    ensures FollowsLoop(t) && t.initial == s.initial
    decreases |events|
  {
    if events != [] {
      var next := Step(c, s, events[0]).value;
      StepFollowsLoop(c, s, events[0], next);
      DlqTokenFollowsLoop(c, next, events[1..], t);
    }
  }

  // ---- how long the loop waits ----

  /** What can happen while the loop waits in a select. */
  predicate Meanwhile(e: Event) {
    e.Tick? || e == Cancel || OnDemand(e)
  }

  lemma {:induction false} WaitingStays(c: Timing, s: State, events: seq<Event>, t: State)
    requires Exec(Machine(c), s, events) == Some(t) && forall e | e in events :: Meanwhile(e)
    ensures t.loop == s.loop
    decreases |events|
  {
    if events != [] {
      var next := Step(c, s, events[0]).value;
      assert Meanwhile(events[0]) && forall e | e in events[1..] :: e in events;
      WaitingStays(c, next, events[1..], t);
    }
  }

  /** The loop wakes exactly 30 s before the expiry that was cached when it computed its sleep, or at once; and after a
      failure it goes on exactly 5 s later. */
  lemma WaitsExactly(c: Timing, s: State, first: Event, s1: State, events: seq<Event>, t: State)
    requires Step(c, s, first) == Some(s1) && Exec(Machine(c), s1, events) == Some(t)
    requires forall e | e in events :: Meanwhile(e)
    ensures first == Compute && Step(c, t, Wake).Some? ==> t.now == Max(s.now, s.cache.expiresAt - 30 * SECOND)
    ensures first == LoopFails && Step(c, t, Cooled).Some? ==> t.now == s.now + 5 * SECOND
  {
    WaitingStays(c, s1, events, t);
  }

  // ---- exactly when can the DLQ producer's token lapse? ----

  predicate Initial(c: Timing, now: int, tok: Token) {
    now + c.minLife <= tok.expiresAt <= now + c.maxLife
  }

  /** What goes wrong in a run, or may: how many refreshes of the loop fail, how many pushes the DLQ producer refuses,
      and whether the shutdown signal comes. */
  datatype Trouble = Trouble(failures: nat, refusals: nat, shutdown: bool)

  const NO_TROUBLE := Trouble(0, 0, false)

  function Failures(events: seq<Event>): nat {
    multiset(events)[LoopFails]
  }

  function Refusals(events: seq<Event>): nat {
    multiset(events)[PushTokens(true, false)] + multiset(events)[PushTokens(false, false)]
  }

  predicate Within(events: seq<Event>, b: Trouble) {
    Failures(events) <= b.failures && Refusals(events) <= b.refusals && (Cancel in events ==> b.shutdown)
  }

  /** With no more trouble than `b` the DLQ producer's token is unexpired at every instant of every run. */
  ghost predicate NeverLapses(c: Timing, b: Trouble) {
    forall now, tok, events | Initial(c, now, tok) && Within(events, b) ::
      var end := Exec(Machine(c), Start(c, now, tok), events);
      end.Some? ==> end.value.now < end.value.dlq.expiresAt
  }

  /** A run from `s` to `t` with exactly that trouble, and no on-demand refresh unless `demand`. */
  ghost predicate Reaches(c: Timing, s: State, events: seq<Event>, t: State, b: Trouble, demand: bool) {
    && Exec(Machine(c), s, events) == Some(t)
    && Failures(events) == b.failures && Refusals(events) == b.refusals && (Cancel in events <==> b.shutdown)
    && (demand || DemandStart !in events)
  }

  function After(b: Trouble, e: Event): Trouble {
    if e == LoopFails then b.(failures := b.failures + 1)
    else if e.PushTokens? && !e.toDlq then b.(refusals := b.refusals + 1)
    else if e == Cancel then b.(shutdown := true)
    else b
  }

  lemma Stay(c: Timing, s: State, demand: bool)
    ensures Reaches(c, s, [], s, NO_TROUBLE, demand)
  {
  }

  lemma Then(c: Timing, s: State, events: seq<Event>, t: State, b: Trouble, d: bool, e: Event)
    returns (events': seq<Event>, t': State)
    requires Reaches(c, s, events, t, b, d) && Step(c, t, e).Some? && (d || e != DemandStart)
    ensures Some(t') == Step(c, t, e) && Reaches(c, s, events', t', After(b, e), d)
  {
    events', t' := Extend(Machine(c), s, events, t, e);
    assert multiset(events') == multiset(events) + multiset{e};
  }

  /** A sleep at full length. */
  lemma Sleep(c: Timing, s: State, events: seq<Event>, t: State, b: Trouble, d: bool)
    returns (events': seq<Event>, t': State)
    requires Reaches(c, s, events, t, b, d) && t.loop.Computing? && t.stopBy == None
    ensures Reaches(c, s, events', t', b, d)
    ensures var wake := Max(t.now, t.cache.expiresAt - REFRESH_BUFFER);
            t' == t.(now := wake, loop := Sleeping(wake))
  {
    hide Reaches;
    events', t' := Then(c, s, events, t, b, d, Compute);
    events', t' := Then(c, s, events', t', b, d, Tick(SleepDuration(t.cache, t.now)));
  }

  /** Two requests, each as slow as its timeout allows. */
  lemma FetchSlowly(c: Timing, s: State, events: seq<Event>, t: State, b: Trouble, d: bool)
    returns (events': seq<Event>, t': State)
    requires Reaches(c, s, events, t, b, d) && t.loop == Sleeping(t.now) && t.stopBy == None
    ensures Reaches(c, s, events', t', b, d)
    ensures t' == t.(now := t.now + 2 * HTTP_TIMEOUT, loop := Exchanging(t.now + HTTP_TIMEOUT))
  {
    hide Reaches;
    events', t' := Then(c, s, events, t, b, d, Wake);
    events', t' := Then(c, s, events', t', b, d, Tick(HTTP_TIMEOUT));
    events', t' := Then(c, s, events', t', b, d, BaseOk);
    events', t' := Then(c, s, events', t', b, d, Tick(HTTP_TIMEOUT));
  }

  /** An on-demand refresh that ends before the next sleep is computed stores a token of full lifetime. */
  lemma RefreshOnDemand(c: Timing, s: State, events: seq<Event>, t: State, b: Trouble)
    returns (events': seq<Event>, t': State)
    requires Reaches(c, s, events, t, b, true) && t.demand.Idle? && c.minLife <= c.maxLife
    ensures Reaches(c, s, events', t', b, true)
    ensures var tok := Token("", t.now + c.maxLife);
            t' == t.(cache := tok, consumer := tok)
  {
    hide Reaches;
    events', t' := Then(c, s, events, t, b, true, DemandStart);
    events', t' := Then(c, s, events', t', b, true, DemandBaseOk);
    events', t' := Then(c, s, events', t', b, true, DemandExchangeOk("", c.maxLife));
    events', t' := Then(c, s, events', t', b, true, DemandStore);
    events', t' := Then(c, s, events', t', b, true, DemandPush);
  }

  /** The shutdown signal at the end of a sleep: the loop ends, and the process lives on as long as it may. */
  lemma DrainSlowly(c: Timing, s: State, events: seq<Event>, t: State, b: Trouble, d: bool)
    returns (events': seq<Event>, t': State)
    requires Reaches(c, s, events, t, b, d) && t.loop == Sleeping(t.now) && t.stopBy == None
    ensures Reaches(c, s, events', t', b.(shutdown := true), d)
    ensures t'.now == t.now + c.drain && t'.dlq == t.dlq && t'.loop == Ended
  {
    hide Reaches;
    events', t' := Then(c, s, events, t, b, d, Cancel);
    events', t' := Then(c, s, events', t', b.(shutdown := true), d, LoopStops);
    events', t' := Then(c, s, events', t', b.(shutdown := true), d, Tick(c.drain));
  }

  function Shortest(c: Timing): Token {
    Token("first", c.minLife)
  }

  /** An on-demand token of full lifetime makes the loop sleep as long as it can. */
  lemma SleepLongest(c: Timing) returns (events: seq<Event>, t: State)
    requires c.minLife <= c.maxLife
    ensures Reaches(c, Start(c, 0, Shortest(c)), events, t, NO_TROUBLE, true)
    ensures t.consumer.expiresAt == c.pushLag + c.sleepLag + c.maxLife
    ensures t.now == c.LongestSleep() && t.loop == Sleeping(t.now) && t.stopBy == None && t.dlq == Shortest(c)
  {
    hide Reaches;
    var s := Start(c, 0, Shortest(c));
    Stay(c, s, true);
    events, t := Then(c, s, [], s, NO_TROUBLE, true, Tick(c.pushLag + c.sleepLag));
    events, t := RefreshOnDemand(c, s, events, t, NO_TROUBLE);
    events, t := Sleep(c, s, events, t, NO_TROUBLE, true);
  }

  /** If the timing is not sound, an on-demand token makes the loop sleep too long, though nothing fails. */
  lemma UnsoundLapses(c: Timing) returns (events: seq<Event>, t: State)
    requires !c.Sound() && c.minLife <= c.maxLife
    ensures Reaches(c, Start(c, 0, Shortest(c)), events, t, NO_TROUBLE, true)
    ensures t.now >= t.dlq.expiresAt == c.minLife && t.now == c.LongestSleep() + 20 * SECOND + c.pushLag
    ensures t.consumer.expiresAt == c.pushLag + c.sleepLag + c.maxLife
  {
    hide Reaches;
    var s := Start(c, 0, Shortest(c));
    events, t := SleepLongest(c);
    events, t := FetchSlowly(c, s, events, t, NO_TROUBLE, true);
    events, t := Then(c, s, events, t, NO_TROUBLE, true, ExchangeOk("", c.maxLife));
    events, t := Then(c, s, events, t, NO_TROUBLE, true, Tick(c.pushLag));
  }

  /** If the drain is too long, a signal at the end of that sleep ends the loop, and nobody replaces the token. */
  lemma ShutdownLapses(c: Timing) returns (events: seq<Event>, t: State)
    requires !c.Drains() && c.minLife <= c.maxLife
    ensures Reaches(c, Start(c, 0, Shortest(c)), events, t, Trouble(0, 0, true), true)
    ensures t.now >= t.dlq.expiresAt == c.minLife
  {
    hide Reaches;
    events, t := SleepLongest(c);
    events, t := DrainSlowly(c, Start(c, 0, Shortest(c)), events, t, NO_TROUBLE, true);
  }

  /** A drain as long as the buffer is always too long, also without any on-demand refresh. */
  lemma LongDrainLapses(c: Timing) returns (events: seq<Event>, t: State)
    requires c.drain >= REFRESH_BUFFER && c.minLife <= c.maxLife
    ensures Reaches(c, Start(c, 0, Shortest(c)), events, t, Trouble(0, 0, true), false)
    ensures t.now >= t.dlq.expiresAt == c.minLife
  {
    hide Reaches;
    var s := Start(c, 0, Shortest(c));
    Stay(c, s, false);
    events, t := Sleep(c, s, [], s, NO_TROUBLE, false);
    events, t := DrainSlowly(c, s, events, t, NO_TROUBLE, false);
  }

  /** Whatever the timing, one failed refresh of the loop is enough, without any on-demand refresh: the failed attempt
      and the pause use up the buffer. */
  lemma OneFailureLapses(c: Timing) returns (events: seq<Event>, t: State)
    requires c.minLife <= c.maxLife
    ensures Reaches(c, Start(c, 0, Shortest(c)), events, t, Trouble(1, 0, false), false)
    ensures t.now > t.dlq.expiresAt == c.minLife && t.now == Max(c.minLife - 30 * SECOND, 0) + 45 * SECOND
  {
    hide Reaches;
    var s := Start(c, 0, Shortest(c));
    Stay(c, s, false);
    events, t := Sleep(c, s, [], s, NO_TROUBLE, false);
    events, t := FetchSlowly(c, s, events, t, NO_TROUBLE, false);
    events, t := Then(c, s, events, t, NO_TROUBLE, false, LoopFails);
    events, t := Then(c, s, events, t, Trouble(1, 0, false), false, Tick(FAILURE_PAUSE));
    events, t := Then(c, s, events, t, Trouble(1, 0, false), false, Cooled);
    events, t := Sleep(c, s, events, t, Trouble(1, 0, false), false);
    events, t := FetchSlowly(c, s, events, t, Trouble(1, 0, false), false);
  }

  /** Whatever the timing, one push that the DLQ producer refuses is enough: the code only logs it, and the next push
      comes a whole lifetime later. */
  lemma OneRefusalLapses(c: Timing) returns (events: seq<Event>, t: State)
    requires c.minLife <= c.maxLife
    ensures Reaches(c, Start(c, 0, Shortest(c)), events, t, Trouble(0, 1, false), false)
    ensures t.now >= t.dlq.expiresAt == c.minLife && t.consumer == t.cache
    ensures var pushed := Max(c.minLife - 30 * SECOND, 0) + 20 * SECOND;
            t.cache.expiresAt == pushed + c.maxLife && t.now == pushed + Max(c.maxLife - 30 * SECOND, 0) + 20 * SECOND
  {
    hide Reaches;
    var s := Start(c, 0, Shortest(c));
    Stay(c, s, false);
    events, t := Sleep(c, s, [], s, NO_TROUBLE, false);
    events, t := FetchSlowly(c, s, events, t, NO_TROUBLE, false);
    events, t := Then(c, s, events, t, NO_TROUBLE, false, ExchangeOk("", c.maxLife));
    events, t := Then(c, s, events, t, NO_TROUBLE, false, Store);
    events, t := Then(c, s, events, t, NO_TROUBLE, false, PushTokens(true, false));
    events, t := Sleep(c, s, events, t, Trouble(0, 1, false), false);
    events, t := FetchSlowly(c, s, events, t, Trouble(0, 1, false), false);
  }

  lemma LapseFound(c: Timing, b: Trouble, events: seq<Event>, t: State, met: Trouble, demand: bool)
    requires Reaches(c, Start(c, 0, Shortest(c)), events, t, met, demand) && t.now >= t.dlq.expiresAt
    requires met.failures <= b.failures && met.refusals <= b.refusals && (met.shutdown ==> b.shutdown)
    requires c.minLife <= c.maxLife
    ensures !NeverLapses(c, b)
  {
    assert Initial(c, 0, Shortest(c)) && Within(events, b);
    assert Exec(Machine(c), Start(c, 0, Shortest(c)), events) == Some(t);
  }

  /** The DLQ producer's token never lapses until the process is gone, on-demand refreshes or not, if and only if the
      timing is sound, neither a refresh of the loop nor a push to the DLQ producer may fail, and, should the shutdown
      signal come, the process drains in time. */
  lemma NeverLapsesExactly(c: Timing, b: Trouble)
    requires c.minLife <= c.maxLife
    ensures NeverLapses(c, b) <==> c.Sound() && b.failures == 0 && b.refusals == 0 && (b.shutdown ==> c.Drains())
  {
    hide Reaches;
    if !c.Sound() {
      var events, t := UnsoundLapses(c);
      LapseFound(c, b, events, t, NO_TROUBLE, true);
    } else if b.failures > 0 {
      var events, t := OneFailureLapses(c);
      LapseFound(c, b, events, t, Trouble(1, 0, false), false);
    } else if b.refusals > 0 {
      var events, t := OneRefusalLapses(c);
      LapseFound(c, b, events, t, Trouble(0, 1, false), false);
    } else if b.shutdown && !c.Drains() {
      var events, t := ShutdownLapses(c);
      LapseFound(c, b, events, t, Trouble(0, 0, true), true);
    } else {
      forall now, tok, events | Initial(c, now, tok) && Within(events, b)
        ensures var end := Exec(Machine(c), Start(c, now, tok), events);
                end.Some? ==> end.value.now < end.value.dlq.expiresAt
      {
        var end := Exec(Machine(c), Start(c, now, tok), events);
        if end.Some? {
          assert forall e | e in events :: Succeeds(e, b.shutdown);
          DlqTokenNeverLapses(c, Start(c, now, tok), events, end.value, b.shutdown);
        }
      }
    }
  }
}
