/** The producer: its ticking loop and its event handler are two goroutines that share only the client library and
    the metrics.  Messages are numbered by the loop; the library gives each accepted one exactly one report. */
module Producer {
  import opened Wrappers
  import opened Machines

  datatype LoopPc = AtTick | Numbered | Refused | LoopEnded
  datatype Report = Report(n: nat, ok: bool)
  datatype HandlerPc = Listening | Holding(report: Report) | HandlerEnded

  datatype State = State(
    i: nat, loop: LoopPc, handler: HandlerPc, cancelled: bool,
    queue: set<nat>, reports: seq<Report>,           // the client library: in flight, and the Events channel
    errors: nat, successes: nat, enqueued: nat,      // the metrics; latency is observed once per accepted message
    refused: set<nat>, delivered: set<nat>, failed: set<nat>)  // history

  datatype Event =
    | Signal
    | Tick | Produce(accepted: bool) | CountRefusal | LoopStops
    | Deliver(n: nat, ok: bool)                      // the library reports on a message
    | Take | CountReport | HandlerStops

  const LAUNCHED := State(0, AtTick, Listening, false, {}, [], 0, 0, 0, {}, {}, {})

  function Step(s: State, e: Event): Option<State> {
    match e
    case Signal => Some(s.(cancelled := true))
    case Tick => if s.loop.AtTick? then Some(s.(i := s.i + 1, loop := Numbered)) else None
    case Produce(accepted) =>
      if !s.loop.Numbered? then None
      else if accepted then Some(s.(queue := s.queue + {s.i}, enqueued := s.enqueued + 1, loop := AtTick))
      else Some(s.(refused := s.refused + {s.i}, loop := Refused))
    case CountRefusal => if s.loop.Refused? then Some(s.(errors := s.errors + 1, loop := AtTick)) else None
    case LoopStops => if s.loop.AtTick? && s.cancelled then Some(s.(loop := LoopEnded)) else None
    case Deliver(n, ok) =>
      if n in s.queue then Some(s.(queue := s.queue - {n}, reports := s.reports + [Report(n, ok)])) else None
    case Take =>
      if s.handler.Listening? && s.reports != []
      then Some(s.(handler := Holding(s.reports[0]), reports := s.reports[1..]))
      else None
    case CountReport =>
      if !s.handler.Holding? then None
      else if s.handler.report.ok
      then Some(s.(successes := s.successes + 1, delivered := s.delivered + {s.handler.report.n}, handler := Listening))
      else Some(s.(errors := s.errors + 1, failed := s.failed + {s.handler.report.n}, handler := Listening))
    case HandlerStops => if s.handler.Listening? && s.cancelled then Some(s.(handler := HandlerEnded)) else None
  }

  function One(b: bool): nat {
    if b then 1 else 0
  }

  predicate Reported(reports: seq<Report>, n: nat) {
    exists k :: 0 <= k < |reports| && reports[k].n == n
  }

  /** In how many places message number `n` is. */
  ghost function Places(s: State, n: nat): nat {
    One(n in s.refused) + One(n in s.queue) + One(Reported(s.reports, n))
      + One(s.handler.Holding? && s.handler.report.n == n)
    + One(n in s.delivered) + One(n in s.failed)
  }

  /** Messages whose report has not been counted yet. */
  function Outstanding(s: State): nat {
    |s.queue| + |s.reports| + One(s.handler.Holding?)
  }

  ghost predicate Numbers(s: State) {
    && (s.loop.Numbered? ==> s.i >= 1)
    && (forall n: nat {:trigger Places(s, n)} :: Places(s, n) == One(1 <= n <= s.i && !(s.loop.Numbered? && n == s.i)))
    && (forall j, k | 0 <= j < k < |s.reports| :: s.reports[j].n != s.reports[k].n)
  }

  ghost predicate Totals(s: State) {
    && s.i == |s.refused| + s.successes + |s.failed| + Outstanding(s) + One(s.loop.Numbered?)
    && s.errors + One(s.loop.Refused?) == |s.refused| + |s.failed|
    && s.successes == |s.delivered|
    && s.enqueued == s.successes + |s.failed| + Outstanding(s)
  }

  lemma OneMore(s: set<nat>, n: nat)
    requires n !in s
    ensures |s + {n}| == |s| + 1
  {
  }

  lemma NumbersKept(s: State, e: Event, t: State, n: nat)
    requires Numbers(s) && Step(s, e) == Some(t)
    ensures Places(t, n) == One(1 <= n <= t.i && !(t.loop.Numbered? && n == t.i))
  {
    assert Places(s, n) == One(1 <= n <= s.i && !(s.loop.Numbered? && n == s.i));
    match e
    case Deliver(m, ok) =>
      assert Places(s, m) <= 1;
      assert t.reports[|s.reports|].n == m;
      if Reported(s.reports, n) {
        var k :| 0 <= k < |s.reports| && s.reports[k].n == n;
        assert t.reports[k].n == n;
      }
    case Take =>
      if Reported(s.reports, n) {
        var k :| 0 <= k < |s.reports| && s.reports[k].n == n;
        if k > 0 {
          assert t.reports[k - 1].n == n;
        }
      }
      if Reported(t.reports, n) {
        var k :| 0 <= k < |t.reports| && t.reports[k].n == n;
        assert s.reports[k + 1].n == n;
      }
    case _ =>
  }

  lemma ProduceTotals(s: State, accepted: bool, t: State)
    requires Numbers(s) && Totals(s) && Step(s, Produce(accepted)) == Some(t)
    ensures Totals(t)
  {
    assert Places(s, s.i) == 0;
  }

  lemma DeliverTotals(s: State, n: nat, ok: bool, t: State)
    requires Totals(s) && Step(s, Deliver(n, ok)) == Some(t)
    ensures Totals(t)
  {
    OneMore(t.queue, n);
    assert t.queue + {n} == s.queue;
  }

  lemma ReportTotals(s: State, t: State)
    requires Numbers(s) && Totals(s) && Step(s, CountReport) == Some(t)
    ensures Totals(t)
  {
    var n := s.handler.report.n;
    HeldNowhereElse(s, n);
    if s.handler.report.ok {
      OneMore(s.delivered, n);
    } else {
      OneMore(s.failed, n);
    }
  }

  lemma HeldNowhereElse(s: State, n: nat)
    requires Numbers(s) && s.handler.Holding? && s.handler.report.n == n
    ensures n !in s.delivered && n !in s.failed
  {
    assert Places(s, n) <= 1;
  }

  lemma StepKeeps(s: State, e: Event, t: State)
    requires Numbers(s) && Totals(s) && Step(s, e) == Some(t)
    ensures Numbers(t) && Totals(t)
  {
    NumbersStay(s, e, t);
    match e
    case Produce(accepted) => ProduceTotals(s, accepted, t);
    case Deliver(n, ok) => DeliverTotals(s, n, ok, t);
    case CountReport => ReportTotals(s, t);
    case _ =>
  }

  lemma NumbersStay(s: State, e: Event, t: State)
    requires Numbers(s) && Step(s, e) == Some(t)
    ensures Numbers(t)
  {
    forall n: nat ensures Places(t, n) == One(1 <= n <= t.i && !(t.loop.Numbered? && n == t.i)) {
      NumbersKept(s, e, t, n);
    }
    if e.Deliver? {
      assert Places(s, e.n) <= 1;
    }
  }

  lemma {:induction false} RunKeeps(s: State, events: seq<Event>, t: State)
    requires Numbers(s) && Totals(s) && Exec(Step, s, events) == Some(t)
    ensures Numbers(t) && Totals(t)
    decreases |events|
  {
    if events != [] {
      var next := Step(s, events[0]).value;
      StepKeeps(s, events[0], next);
      RunKeeps(next, events[1..], t);
    }
  }

  /** However the two goroutines interleave: at every tick boundary the message number is the sum of errors,
      successes and outstanding reports, and each number from 1 to it is in exactly one place. */
  lemma ConservedAtTick(events: seq<Event>, t: State)
    requires Exec(Step, LAUNCHED, events) == Some(t) && (t.loop.AtTick? || t.loop.LoopEnded?)
    ensures t.i == t.errors + t.successes + Outstanding(t)
    ensures t.errors == |t.refused| + |t.failed| && t.enqueued == t.i - |t.refused|
    ensures forall n: nat :: Places(t, n) == One(1 <= n <= t.i)
  {
    assert forall n: nat :: Places(LAUNCHED, n) == 0;
    RunKeeps(LAUNCHED, events, t);
  }

  // ---- what the events of a run say became of every message ----

  /** The library's verdict on every numbered message, in order. */
  function Verdicts(events: seq<Event>): seq<bool> {
    if events == [] then []
    else Verdicts(events[..|events| - 1]) + match events[|events| - 1] case Produce(accepted) => [accepted] case _ => []
  }

  /** The report on a message that is delivered, failed, in hand or waiting in the channel. */
  ghost predicate ReportedAs(s: State, n: nat, ok: bool) {
    || (if ok then n in s.delivered else n in s.failed)
    || (s.handler.Holding? && s.handler.report == Report(n, ok))
    || Report(n, ok) in s.reports
  }

  ghost predicate Told(events: seq<Event>, s: State) {
    && |Verdicts(events)| == s.i - One(s.loop.Numbered?)
    && (forall n: nat | 1 <= n <= |Verdicts(events)| :: n in s.refused <==> !Verdicts(events)[n - 1])
    && (forall n | n in s.refused :: 1 <= n <= |Verdicts(events)|)
    && (forall n, ok :: ReportedAs(s, n, ok) <==> Deliver(n, ok) in events)
    && (s.cancelled <==> Signal in events)
    && (s.loop.LoopEnded? || s.handler.HandlerEnded? ==> Signal in events)
  }

  lemma VerdictsKept(events: seq<Event>, s: State, e: Event, t: State)
    requires Told(events, s) && Step(s, e) == Some(t) && (s.loop.Numbered? ==> s.i >= 1)
    ensures |Verdicts(events + [e])| == t.i - One(t.loop.Numbered?)
    ensures forall n: nat | 1 <= n <= |Verdicts(events + [e])| :: n in t.refused <==> !Verdicts(events + [e])[n - 1]
    ensures forall n | n in t.refused :: 1 <= n <= |Verdicts(events + [e])|
  {
    hide ReportedAs;
    assert (events + [e])[..|events|] == events;
  }

  lemma SignalKept(events: seq<Event>, s: State, e: Event, t: State)
    requires Told(events, s) && Step(s, e) == Some(t)
    ensures t.cancelled <==> Signal in events + [e]
    ensures t.loop.LoopEnded? || t.handler.HandlerEnded? ==> Signal in events + [e]
  {
    hide ReportedAs, Verdicts;
  }

  lemma ReportKept(events: seq<Event>, s: State, e: Event, t: State, n: nat, ok: bool)
    requires Told(events, s) && Step(s, e) == Some(t)
    ensures ReportedAs(t, n, ok) <==> Deliver(n, ok) in events + [e]
  {
    assert ReportedAs(s, n, ok) <==> Deliver(n, ok) in events;
    hide Verdicts;
    match e
    case Deliver(m, good) =>
      assert t.reports[|s.reports|] == Report(m, good);
      assert forall r :: r in t.reports <==> r in s.reports || r == Report(m, good);
    case Take =>
      assert s.reports == [s.reports[0]] + t.reports;
    case _ =>
  }

  /** In every run, from its events alone: a message was refused exactly if the library refused it, and its report,
      counted or still on its way, is the one the library gave; and no goroutine ends before the signal. */
  lemma {:induction false} EveryRunTold(events: seq<Event>, s: State)
    requires Exec(Step, LAUNCHED, events) == Some(s)
    ensures Told(events, s) && (s.loop.Numbered? ==> s.i >= 1)
    decreases |events|
  {
    if events == [] {
      assert forall n, ok :: !ReportedAs(LAUNCHED, n, ok);
    } else {
      var front, last := events[..|events| - 1], events[|events| - 1];
      assert events == front + [last];
      ExecSplit(Step, LAUNCHED, front, [last]);
      var before := Exec(Step, LAUNCHED, front).value;
      ExecOne(Step, before, last);
      EveryRunTold(front, before);
      VerdictsKept(front, before, last, s);
      SignalKept(front, before, last, s);
      forall n, ok ensures ReportedAs(s, n, ok) <==> Deliver(n, ok) in events {
        ReportKept(front, before, last, s, n, ok);
      }
    }
  }

  /** The metrics and the loop counter as mutable state, with the library's queue behind them. */
  class ProducerProcess {
    var i: nat
    var errors: nat
    var successes: nat
    var enqueued: nat
    var queue: set<nat>
    var reports: seq<Report>
    ghost var refused: set<nat>
    ghost var delivered: set<nat>
    ghost var failed: set<nat>

    ghost function View(loop: LoopPc, handler: HandlerPc, cancelled: bool): State
      reads this
    {
      State(i, loop, handler, cancelled, queue, reports, errors, successes, enqueued, refused, delivered, failed)
    }

    constructor ()
      ensures View(AtTick, Listening, false) == LAUNCHED
    {
      i, errors, successes, enqueued, queue, reports := 0, 0, 0, 0, {}, [];
      refused, delivered, failed := {}, {}, {};
    }

    /** The body of the ticker case, while the handler is anywhere. */
    method OnTick(accepted: bool, ghost handler: HandlerPc, ghost cancelled: bool) returns (events: seq<Event>)
      modifies this
      ensures Exec(Step, old(View(AtTick, handler, cancelled)), events) == Some(View(AtTick, handler, cancelled))
      ensures i == old(i) + 1 && reports == old(reports) && successes == old(successes)
      ensures if accepted then i in queue && errors == old(errors) else queue == old(queue) && errors == old(errors) + 1
    {
      ghost var s := View(AtTick, handler, cancelled);
      i := i + 1;
      ExecAppend(Step, s, [], s, Tick);
      assert [] + [Tick] == [Tick];
      ghost var numbered := View(Numbered, handler, cancelled);
      ExecAppend(Step, s, [Tick], numbered, Produce(accepted));
      if accepted {
        queue, enqueued := queue + {i}, enqueued + 1;
        events := [Tick] + [Produce(accepted)];
      } else {
        refused := refused + {i};
        ghost var refusal := View(Refused, handler, cancelled);
        errors := errors + 1;
        ExecAppend(Step, s, [Tick] + [Produce(accepted)], refusal, CountRefusal);
        events := [Tick] + [Produce(accepted)] + [CountRefusal];
      }
    }

    /** One delivery report in `handleEvents`, while the loop is anywhere. */
    method OnReport(ghost loop: LoopPc, ghost cancelled: bool) returns (events: seq<Event>)
      requires reports != []
      modifies this`reports, this`errors, this`successes, this`delivered, this`failed
      ensures Exec(Step, old(View(loop, Listening, cancelled)), events) == Some(View(loop, Listening, cancelled))
      ensures reports == old(reports)[1..]
      ensures successes == old(successes) + One(old(reports)[0].ok) && errors == old(errors) + One(!old(reports)[0].ok)
    {
      ghost var s := View(loop, Listening, cancelled);
      var report := reports[0];
      reports := reports[1..];
      ExecAppend(Step, s, [], s, Take);
      assert [] + [Take] == [Take];
      ghost var holding := View(loop, Holding(report), cancelled);
      if report.ok {
        successes := successes + 1;
        delivered := delivered + {report.n};
      } else {
        errors := errors + 1;
        failed := failed + {report.n};
      }
      ExecAppend(Step, s, [Take], holding, CountReport);
      events := [Take] + [CountReport];
    }
  }
}
