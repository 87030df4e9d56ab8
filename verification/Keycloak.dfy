/** The Keycloak client as one thread sees it: the cache, the sleep before a refresh, and the refresh loop.
    Step one is the client credentials grant (section 4.4 of RFC 6749); lifetimes are the `expires_in` seconds of
    section 5.1 of RFC 6749.
    Times are integers (nanoseconds); every HTTP exchange is an arbitrary outcome with a duration. */
module Keycloak {
  import opened Wrappers
  import opened Durations
  import opened Tokens
  import Retry

  /** One run of the two-step flow: client credentials first, then the UMA ticket. */
  datatype Exchange = Exchange(baseTook: nat, baseOk: bool, umaTook: nat, umaOk: bool, access: string, expiresIn: int) {
    predicate Succeeds() {
      baseOk && umaOk
    }

    function Took(): nat {
      baseTook + if baseOk then umaTook else 0
    }

    predicate Timely() {
      baseTook <= HTTP_TIMEOUT && umaTook <= HTTP_TIMEOUT
    }

    function Issued(start: int): Token {
      Token(access, start + Took() + expiresIn * SECOND)
    }
  }

  /** A token handed to `OnRefresh`, and when. */
  datatype Push = Push(tok: Token, at: int)

  /** Failed attempts followed by a successful one. */
  datatype Round = Round(failures: seq<Exchange>, success: Exchange) {
    ghost predicate WellFormed() {
      success.Succeeds() && forall x | x in failures :: !x.Succeeds()
    }

    function FailureTime(n: nat): nat
      requires n <= |failures|
    {
      if n == 0 then 0 else FailureTime(n - 1) + failures[n - 1].Took() + FAILURE_PAUSE
    }

    function Total(): nat {
      FailureTime(|failures|) + success.Took()
    }
  }

  /** When attempt `j` of a round begins: the loop wakes 30 s before expiry, or at once, and every failure costs its
      duration and the pause. */
  function AttemptAt(last: Push, r: Round, j: nat): int
    requires j <= |r.failures|
  {
    Max(last.at, last.tok.expiresAt - REFRESH_BUFFER) + r.FailureTime(j)
  }

  /** The push that ends a round begun after `last`. */
  function NextPush(last: Push, r: Round): Push {
    var begun := AttemptAt(last, r, |r.failures|);
    Push(r.success.Issued(begun), begun + r.success.Took())
  }

  function Pushes(last: Push, rounds: seq<Round>): seq<Push>
    decreases |rounds|
  {
    if rounds == [] then []
    else
      var next := NextPush(last, rounds[0]);
      [next] + Pushes(next, rounds[1..])
  }

  function Latest(first: Push, pushes: seq<Push>): Push {
    if pushes == [] then first else pushes[|pushes| - 1]
  }

  lemma {:induction false} PushesAppend(first: Push, rounds: seq<Round>, r: Round)
    ensures Pushes(first, rounds + [r]) == Pushes(first, rounds) + [NextPush(Latest(first, Pushes(first, rounds)), r)]
    decreases |rounds|
  {
    if rounds == [] {
      assert ([] + [r])[1..] == [] && ([] + [r])[0] == r;
    } else {
      var next := NextPush(first, rounds[0]);
      assert (rounds + [r])[0] == rounds[0] && (rounds + [r])[1..] == rounds[1..] + [r];
      PushesAppend(next, rounds[1..], r);
      assert Latest(first, Pushes(first, rounds)) == Latest(next, Pushes(next, rounds[1..]));
    }
  }

  // ---- where the shutdown can cut a round short ----

  /** The context of round `i`: `ties(i, k)` settles the `k`-th select of the round when both cases are ready. */
  function InRound(cancelAt: Option<int>, ties: (nat, nat) -> bool, i: nat): Retry.Context {
    Retry.Context(cancelAt, (k: nat) => ties(i, k))
  }

  /** The sleep before attempt `j` ends the loop; only the first sleep of a round takes time. */
  predicate CutShortBefore(ctx: Retry.Context, last: Push, r: Round, j: nat)
    requires j <= |r.failures|
  {
    var entered := if j == 0 then last.at else AttemptAt(last, r, j);
    ctx.DoneWins(2 * j, entered, AttemptAt(last, r, j) - entered)
  }

  /** The pause after failed attempt `j` ends the loop. */
  predicate CutShortAfter(ctx: Retry.Context, last: Push, r: Round, j: nat)
    requires j < |r.failures|
  {
    ctx.DoneWins(2 * j + 1, AttemptAt(last, r, j) + r.failures[j].Took(), FAILURE_PAUSE)
  }

  predicate CutShort(ctx: Retry.Context, last: Push, r: Round) {
    || (exists j | 0 <= j <= |r.failures| :: CutShortBefore(ctx, last, r, j))
    || (exists j | 0 <= j < |r.failures| :: CutShortAfter(ctx, last, r, j))
  }

  lemma CutShortAt(ctx: Retry.Context, last: Push, r: Round, j: nat)
    requires j <= |r.failures|
    requires CutShortBefore(ctx, last, r, j) || (j < |r.failures| && CutShortAfter(ctx, last, r, j))
    ensures CutShort(ctx, last, r)
  {
  }

  /** The first `n` attempts failed without the shutdown cutting in. */
  predicate Uncut(ctx: Retry.Context, last: Push, r: Round, n: nat)
    requires n <= |r.failures|
  {
    forall i | 0 <= i < n :: !CutShortBefore(ctx, last, r, i) && !CutShortAfter(ctx, last, r, i)
  }

  lemma UncutNothing(ctx: Retry.Context, last: Push, r: Round)
    ensures Uncut(ctx, last, r, 0)
  {
  }

  lemma UncutMore(ctx: Retry.Context, last: Push, r: Round, n: nat)
    requires n < |r.failures| && Uncut(ctx, last, r, n)
    requires !CutShortBefore(ctx, last, r, n) && !CutShortAfter(ctx, last, r, n)
    ensures Uncut(ctx, last, r, n + 1)
  {
  }

  lemma NotCutShort(ctx: Retry.Context, last: Push, r: Round)
    requires Uncut(ctx, last, r, |r.failures|) && !CutShortBefore(ctx, last, r, |r.failures|)
    ensures !CutShort(ctx, last, r)
  {
  }

  // ---- the same, as a matter of durations ----

  /** An attempt of the loop: when it began to wait for it, and when it began. */
  datatype Attempt = Attempt(since: int, at: int)

  /** No attempt that was waited for begins after the shutdown. */
  ghost predicate Heeded(cancelAt: Option<int>, attempts: seq<Attempt>) {
    forall a | a in attempts :: a.since < a.at && cancelAt.Some? ==> a.at <= cancelAt.value
  }

  /** The sum of the durations of some exchanges; the second request follows only the success of the first. */
  function TotalTook(xs: seq<Exchange>): nat {
    if xs == [] then 0
    else
      var x := xs[|xs| - 1];
      TotalTook(xs[..|xs| - 1]) + x.baseTook + if x.baseOk then x.umaTook else 0
  }

  /** When the last attempt of a round begins if nothing cuts it short: 30 s before expiry, or at once, and after every
      failure 5 s later than that attempt ended. */
  function LastAttempt(start: int, tok: Token, failures: seq<Exchange>): int {
    Max(start, tok.expiresAt - 30 * SECOND) + TotalTook(failures) + |failures| * (5 * SECOND)
  }

  /** A push after `last` comes as long after the last attempt of its round as the two requests take, and that attempt,
      if it was waited for, began no later than the shutdown. */
  predicate HeededRound(cancelAt: Option<int>, last: Push, r: Round, pushed: Push) {
    var begun := LastAttempt(last.at, last.tok, r.failures);
    && pushed.at == begun + r.success.baseTook + r.success.umaTook
    && (cancelAt.Some? && last.at < begun ==> begun <= cancelAt.value)
  }

  /** The attempt that follows `j` failures: the first is waited for from the start, the others for a pause. */
  function AttemptNumber(start: int, tok: Token, failures: seq<Exchange>, j: nat): Attempt
    requires j <= |failures|
  {
    var at := LastAttempt(start, tok, failures[..j]);
    Attempt(if j == 0 then start else at - 5 * SECOND, at)
  }

  /** The attempts a round began: at most one more than its failures, each at its time, none that was waited for after
      the shutdown. */
  ghost predicate Begun(cancelAt: Option<int>, last: Push, r: Round, attempts: seq<Attempt>) {
    && |attempts| <= |r.failures| + 1 && Heeded(cancelAt, attempts)
    && forall j | 0 <= j < |attempts| :: attempts[j] == AttemptNumber(last.at, last.tok, r.failures, j)
  }

  lemma BegunNothing(cancelAt: Option<int>, last: Push, r: Round)
    ensures Begun(cancelAt, last, r, [])
  {
  }

  lemma BegunMore(cancelAt: Option<int>, last: Push, r: Round, attempts: seq<Attempt>, since: int)
    requires Begun(cancelAt, last, r, attempts) && |attempts| <= |r.failures|
    requires var at := AttemptAt(last, r, |attempts|);
             && since == (if attempts == [] then last.at else at - FAILURE_PAUSE)
             && (since < at && cancelAt.Some? ==> at <= cancelAt.value)
    ensures Begun(cancelAt, last, r, attempts + [Attempt(since, AttemptAt(last, r, |attempts|))])
  {
    FailureTimeAddsUp(r, |attempts|);
  }

  /** Round `i`, begun after `last`, made those attempts and ended with that push, undisturbed. */
  ghost predicate RoundDone(cancelAt: Option<int>, ties: (nat, nat) -> bool, i: nat, last: Push, r: Round, pushed: Push,
                            attempts: seq<Attempt>) {
    && !CutShort(InRound(cancelAt, ties, i), last, r) && HeededRound(cancelAt, last, r, pushed)
    && Begun(cancelAt, last, r, attempts) && |attempts| == |r.failures| + 1
  }

  ghost predicate AllDone(cancelAt: Option<int>, ties: (nat, nat) -> bool, first: Push, rounds: seq<Round>,
                          pushes: seq<Push>, attempts: seq<seq<Attempt>>)
    requires |pushes| <= |rounds|
  {
    && |pushes| <= |attempts|
    && forall i | 0 <= i < |pushes| ::
         RoundDone(cancelAt, ties, i, Latest(first, pushes[..i]), rounds[i], pushes[i], attempts[i])
  }

  lemma OneMoreDone(cancelAt: Option<int>, ties: (nat, nat) -> bool, first: Push, rounds: seq<Round>, pushes: seq<Push>,
                    attempts: seq<seq<Attempt>>, pushed: Push, begun: seq<Attempt>)
    requires |pushes| < |rounds| && |attempts| == |pushes|
    requires AllDone(cancelAt, ties, first, rounds, pushes, attempts)
    requires RoundDone(cancelAt, ties, |pushes|, Latest(first, pushes), rounds[|pushes|], pushed, begun)
    ensures AllDone(cancelAt, ties, first, rounds, pushes + [pushed], attempts + [begun])
  {
    hide RoundDone;
    var all, tried := pushes + [pushed], attempts + [begun];
    forall i | 0 <= i < |all|
      ensures RoundDone(cancelAt, ties, i, Latest(first, all[..i]), rounds[i], all[i], tried[i])
    {
      if i < |pushes| {
        assert RoundDone(cancelAt, ties, i, Latest(first, pushes[..i]), rounds[i], pushes[i], attempts[i]);
        assert all[..i] == pushes[..i];
      } else {
        assert all[..i] == pushes;
      }
    }
  }

  lemma AttemptsAside(cancelAt: Option<int>, ties: (nat, nat) -> bool, first: Push, rounds: seq<Round>,
                      pushes: seq<Push>, attempts: seq<seq<Attempt>>, begun: seq<Attempt>)
    requires |pushes| <= |rounds| && AllDone(cancelAt, ties, first, rounds, pushes, attempts)
    ensures AllDone(cancelAt, ties, first, rounds, pushes, attempts + [begun])
  {
  }

  lemma {:induction false} FailureTimeAddsUp(r: Round, n: nat)
    requires n <= |r.failures|
    ensures r.FailureTime(n) == TotalTook(r.failures[..n]) + n * (5 * SECOND)
  {
    if n > 0 {
      FailureTimeAddsUp(r, n - 1);
      assert r.failures[..n][..n - 1] == r.failures[..n - 1];
    }
  }

  lemma {:induction false} FailureTimeGrows(r: Round, m: nat, n: nat)
    requires m <= n <= |r.failures|
    ensures r.FailureTime(m) + (if m < n then r.failures[m].Took() + FAILURE_PAUSE else 0) <= r.FailureTime(n)
    decreases n - m
  {
    if m < n {
      FailureTimeGrows(r, m + 1, n);
    }
  }

  /** A shutdown before the last attempt cuts the round short, if that attempt is waited for at all; one after it never
      does; and a push comes exactly so long after it as the two requests take. */
  lemma CutShortWhen(ctx: Retry.Context, last: Push, r: Round)
    requires r.WellFormed()
    ensures var begun := LastAttempt(last.at, last.tok, r.failures);
            && (ctx.cancelAt.Some? && ctx.cancelAt.value < begun && last.at < begun ==> CutShort(ctx, last, r))
            && (ctx.cancelAt == None || begun < ctx.cancelAt.value ==> !CutShort(ctx, last, r))
            && NextPush(last, r).at == begun + r.success.baseTook + r.success.umaTook
  {
    var n := |r.failures|;
    FailureTimeAddsUp(r, n);
    assert r.failures[..n] == r.failures;
    if ctx.cancelAt.Some? && ctx.cancelAt.value < AttemptAt(last, r, n) && last.at < AttemptAt(last, r, n) {
      assert if n == 0 then CutShortBefore(ctx, last, r, 0) else CutShortAfter(ctx, last, r, n - 1);
    }
    forall j | 0 <= j <= n ensures AttemptAt(last, r, j) <= AttemptAt(last, r, n) {
      FailureTimeGrows(r, j, n);
    }
    forall j | 0 <= j < n
      ensures AttemptAt(last, r, j) + r.failures[j].Took() + FAILURE_PAUSE <= AttemptAt(last, r, n)
    {
      FailureTimeGrows(r, j, n);
    }
  }

  class KeycloakClient {
    var current: Option<Token>

    constructor ()
      ensures current == None
    {
      current := None;
    }

    method Current() returns (tok: Token)
      ensures tok == if current.None? then ZERO_TOKEN else current.value
    {
      if current == None {
        return ZERO_TOKEN;
      }
      return current.value;
    }

    method DoRefresh(now: int, x: Exchange) returns (tok: Option<Token>, end: int)
      modifies this
      ensures end == now + x.Took()
      ensures tok.Some? <==> x.Succeeds()
      ensures tok.Some? ==> current == tok && tok.value == Token(x.access, end + x.expiresIn * SECOND)
      ensures tok.None? ==> current == old(current)
    {
      end := now + x.baseTook;
      if !x.baseOk {
        return None, end;
      }
      end := end + x.umaTook;
      if !x.umaOk {
        return None, end;
      }
      tok := Some(Token(x.access, end + x.expiresIn * SECOND));
      current := tok;
    }

    method SleepDuration(now: int) returns (d: int)
      ensures d >= 0
      ensures current.None? ==> d == 0
      ensures current.Some? ==> now + d == Max(now, current.value.expiresAt - REFRESH_BUFFER)
    {
      if current == None {
        return 0;
      }
      d := current.value.expiresAt - now - REFRESH_BUFFER;
      if d < 0 {
        return 0;
      }
    }

    /** Attempts until one succeeds; the sleep is recomputed after every failure.  The shutdown is noticed while the
        loop sleeps or pauses, never during a request. */
    method RefreshRound(start: int, r: Round, ctx: Retry.Context) returns (pushed: Option<Push>, attempts: seq<Attempt>)
      requires current.Some? && r.WellFormed()
      modifies this
      ensures pushed == None <==> CutShort(ctx, Push(old(current).value, start), r)
      ensures pushed == None ==> current == old(current)
      ensures pushed.Some? ==>
                pushed.value == NextPush(Push(old(current).value, start), r) && current == Some(pushed.value.tok)
      ensures Begun(ctx.cancelAt, Push(old(current).value, start), r, attempts)
      ensures pushed.Some? ==> |attempts| == |r.failures| + 1
      ensures var begun := LastAttempt(start, old(current).value, r.failures);
              && (ctx.cancelAt.Some? && ctx.cancelAt.value < begun && start < begun ==> pushed == None)
              && (ctx.cancelAt == None || begun < ctx.cancelAt.value ==> pushed.Some?)
              && (pushed.Some? ==> pushed.value.at == begun + r.success.baseTook + r.success.umaTook)
    {
      hide CutShort, Uncut, Begun, LastAttempt;
      ghost var last := Push(current.value, start);
      var now, since := start, start;
      attempts := [];
      CutShortWhen(ctx, last, r);
      UncutNothing(ctx, last, r);
      BegunNothing(ctx.cancelAt, last, r);
      for j := 0 to |r.failures|
        invariant current == Some(last.tok)
        invariant now == if j == 0 then start else AttemptAt(last, r, j)
        invariant since <= now && (since < now && ctx.cancelAt.Some? ==> now <= ctx.cancelAt.value)
        invariant j == 0 ==> since == now
        invariant Begun(ctx.cancelAt, last, r, attempts) && |attempts| == j
        invariant j > 0 ==> since == now - FAILURE_PAUSE
        invariant Uncut(ctx, last, r, j)
      {
        assert r.failures[j] in r.failures;
        var pause := SleepDuration(now);
        assert now + pause == AttemptAt(last, r, j);
        if ctx.DoneWins(2 * j, now, pause) {
          CutShortAt(ctx, last, r, j);
          return None, attempts;
        }
        BegunMore(ctx.cancelAt, last, r, attempts, since);
        attempts := attempts + [Attempt(since, now + pause)];
        var failed, end := DoRefresh(now + pause, r.failures[j]);
        assert failed.None?;
        if ctx.DoneWins(2 * j + 1, end, FAILURE_PAUSE) {
          CutShortAt(ctx, last, r, j);
          return None, attempts;
        }
        UncutMore(ctx, last, r, j);
        now, since := end + FAILURE_PAUSE, end;
      }
      var pause := SleepDuration(now);
      if ctx.DoneWins(2 * |r.failures|, now, pause) {
        CutShortAt(ctx, last, r, |r.failures|);
        return None, attempts;
      }
      NotCutShort(ctx, last, r);
      BegunMore(ctx.cancelAt, last, r, attempts, since);
      attempts := attempts + [Attempt(since, now + pause)];
      var tok, end := DoRefresh(now + pause, r.success);
      return Some(Push(tok.value, end)), attempts;
    }

    /** The background loop over the outcomes of its attempts, until they run out or the context is done: it pushes
        exactly the tokens of the rounds before the first that was cut short, and begins no attempt that it waited for
        after the shutdown. */
    method RefreshLoop(start: int, rounds: seq<Round>, cancelAt: Option<int>, ties: (nat, nat) -> bool)
      returns (pushes: seq<Push>, stopped: bool, attempts: seq<seq<Attempt>>)
      requires current.Some?
      requires forall r | r in rounds :: r.WellFormed()
      modifies this
      ensures |pushes| <= |rounds| && (stopped <==> |pushes| < |rounds|)
      ensures pushes == Pushes(Push(old(current).value, start), rounds[..|pushes|])
      ensures |attempts| == |pushes| + if stopped then 1 else 0
      ensures AllDone(cancelAt, ties, Push(old(current).value, start), rounds, pushes, attempts)
      ensures stopped ==>
                var last, r := Latest(Push(old(current).value, start), pushes), rounds[|pushes|];
                && CutShort(InRound(cancelAt, ties, |pushes|), last, r)
                && cancelAt.Some? && cancelAt.value <= LastAttempt(last.at, last.tok, r.failures)
                && Begun(cancelAt, last, r, attempts[|pushes|])
      ensures current == Some(Latest(Push(old(current).value, start), pushes).tok)
    {
      hide CutShort, AllDone, HeededRound, Begun, LastAttempt, Pushes;
      ghost var first := Push(current.value, start);
      var now := start;
      pushes, attempts := [], [];
      NothingDone(cancelAt, ties, first, rounds);
      for i := 0 to |rounds|
        invariant |pushes| == |attempts| == i && pushes == Pushes(first, rounds[..i])
        invariant current == Some(Latest(first, pushes).tok) && now == Latest(first, pushes).at
        invariant AllDone(cancelAt, ties, first, rounds, pushes, attempts)
      {
        assert rounds[i].WellFormed();
        var pushed, begun := RefreshRound(now, rounds[i], InRound(cancelAt, ties, i));
        if pushed == None {
          AttemptsAside(cancelAt, ties, first, rounds, pushes, attempts, begun);
          return pushes, true, attempts + [begun];
        }
        RoundHeeded(cancelAt, Latest(first, pushes), rounds[i], pushed.value);
        OneMoreDone(cancelAt, ties, first, rounds, pushes, attempts, pushed.value, begun);
        PushesAppend(first, rounds[..i], rounds[i]);
        assert rounds[..i] + [rounds[i]] == rounds[..i + 1];
        now := pushed.value.at;
        pushes, attempts := pushes + [pushed.value], attempts + [begun];
      }
      assert rounds[..|rounds|] == rounds;
      return pushes, false, attempts;
    }
  }

  lemma NothingDone(cancelAt: Option<int>, ties: (nat, nat) -> bool, first: Push, rounds: seq<Round>)
    ensures Pushes(first, rounds[..0]) == [] && AllDone(cancelAt, ties, first, rounds, [], [])
  {
  }

  lemma RoundHeeded(cancelAt: Option<int>, last: Push, r: Round, pushed: Push)
    requires var begun := LastAttempt(last.at, last.tok, r.failures);
             && pushed.at == begun + r.success.baseTook + r.success.umaTook
             && !(cancelAt.Some? && cancelAt.value < begun && last.at < begun)
    ensures HeededRound(cancelAt, last, r, pushed)
  {
  }

  // ---- when does the pushed token lapse? ----

  /** The token last pushed at or before `t`. */
  function InForce(last: Push, pushes: seq<Push>, t: int): Token
    decreases |pushes|
  {
    if pushes == [] || t < pushes[0].at then last.tok else InForce(pushes[0], pushes[1..], t)
  }

  function LastPush(last: Push, rounds: seq<Round>): Push
    decreases |rounds|
  {
    if rounds == [] then last else LastPush(NextPush(last, rounds[0]), rounds[1..])
  }

  predicate Unexpired(tok: Token, t: int) {
    t < tok.expiresAt
  }

  /** From `last` to `until` the token pushed most recently is unexpired at every instant; nobody else refreshes. */
  ghost predicate NeverLapses(last: Push, rounds: seq<Round>, until: int) {
    forall t | last.at <= t < until :: Unexpired(InForce(last, Pushes(last, rounds), t), t)
  }

  /** Each round fits in the buffer, or in what is left of the token it replaces when that is shorter. */
  ghost predicate RoundsFit(last: Push, rounds: seq<Round>)
    decreases |rounds|
  {
    rounds != [] ==>
      && rounds[0].Total() <= Min(Max(last.tok.expiresAt - last.at, 0), REFRESH_BUFFER)
      && RoundsFit(NextPush(last, rounds[0]), rounds[1..])
  }

  lemma {:induction false} PushesAdvance(last: Push, rounds: seq<Round>)
    ensures last.at <= LastPush(last, rounds).at
    decreases |rounds|
  {
    if rounds != [] {
      PushesAdvance(NextPush(last, rounds[0]), rounds[1..]);
    }
  }

  /** A token stays unexpired until the end of its time in force. */
  predicate Lasts(last: Push, until: int) {
    until <= Max(last.at, last.tok.expiresAt)
  }

  lemma LastsExactly(last: Push, until: int)
    ensures Lasts(last, until) <==> forall t | last.at <= t < until :: Unexpired(last.tok, t)
  {
    var t := Max(last.at, last.tok.expiresAt);
    assert !Lasts(last, until) ==> last.at <= t < until && !Unexpired(last.tok, t);
  }

  lemma FitsExactly(last: Push, r: Round)
    ensures Lasts(last, NextPush(last, r).at)
            <==> r.Total() <= Min(Max(last.tok.expiresAt - last.at, 0), REFRESH_BUFFER)
  {
  }

  /** Up to any instant after the last push, the token in force is unexpired throughout exactly when every round fits
      and the last token has not expired by then.  On-demand refreshes are absent here. */
  lemma {:induction false} NeverLapsesExactly(last: Push, rounds: seq<Round>, until: int)
    requires LastPush(last, rounds).at <= until
    ensures NeverLapses(last, rounds, until) <==> RoundsFit(last, rounds) && Lasts(LastPush(last, rounds), until)
    decreases |rounds|
  {
    if rounds == [] {
      LastsExactly(last, until);
      if NeverLapses(last, rounds, until) {
        forall t | last.at <= t < until ensures Unexpired(last.tok, t) {
          assert Unexpired(InForce(last, Pushes(last, rounds), t), t);
        }
      }
    } else {
      var next, rest := NextPush(last, rounds[0]), rounds[1..];
      var all := Pushes(last, rounds);
      NeverLapsesExactly(next, rest, until);
      PushesAdvance(next, rest);
      LastsExactly(last, next.at);
      FitsExactly(last, rounds[0]);
      assert all[0] == next && all[1..] == Pushes(next, rest);
      forall t
        ensures InForce(last, all, t) == if t < next.at then last.tok else InForce(next, Pushes(next, rest), t)
      {
      }
      if NeverLapses(last, rounds, until) {
        forall t | next.at <= t < until ensures Unexpired(InForce(next, Pushes(next, rest), t), t) {
          assert Unexpired(InForce(last, all, t), t);
        }
        forall t | last.at <= t < next.at ensures Unexpired(last.tok, t) {
          assert Unexpired(InForce(last, all, t), t);
        }
      }
      if NeverLapses(next, rest, until) && Lasts(last, next.at) {
        forall t | last.at <= t < until ensures Unexpired(InForce(last, all, t), t) {
          assert if t < next.at then Unexpired(last.tok, t) else Unexpired(InForce(next, Pushes(next, rest), t), t);
        }
      }
    }
  }

  ghost predicate FirstTry(r: Round) {
    r.failures == [] && r.success.Timely() && r.success.expiresIn * SECOND >= 2 * HTTP_TIMEOUT
  }

  /** If every attempt succeeds in time, the two requests fit in the buffer and no pushed token lapses, up to the latest
      end of the attempt that follows the last push. */
  lemma SuccessNeverLapses(last: Push, rounds: seq<Round>, until: int)
    requires last.at + 2 * HTTP_TIMEOUT <= last.tok.expiresAt
    requires forall r | r in rounds :: FirstTry(r)
    requires var end := LastPush(last, rounds);
             end.at <= until <= Max(end.at, end.tok.expiresAt - REFRESH_BUFFER) + 2 * HTTP_TIMEOUT
    ensures NeverLapses(last, rounds, until)
  {
    AllFit(last, rounds);
    NeverLapsesExactly(last, rounds, until);
  }

  lemma {:induction false} AllFit(last: Push, rounds: seq<Round>)
    requires last.at + 2 * HTTP_TIMEOUT <= last.tok.expiresAt
    requires forall r | r in rounds :: FirstTry(r)
    ensures RoundsFit(last, rounds)
    ensures var end := LastPush(last, rounds); end.at + 2 * HTTP_TIMEOUT <= end.tok.expiresAt
    decreases |rounds|
  {
    if rounds != [] {
      assert FirstTry(rounds[0]);
      AllFit(NextPush(last, rounds[0]), rounds[1..]);
    }
  }
}
