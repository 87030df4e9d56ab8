/** The load test: any number of workers fire requests and record their samples under the lock, until they see the stop
    event; the final report comes when all have ended. */
module LoadTest {
  import opened Wrappers
  import opened Machines
  import opened LoadStats

  /** A worker checks the stop event, waits for the rate limiter, fires, and waits for the lock. */
  datatype Pc = Checking | Limited | Firing | Recording(sample: Sample) | Ended

  /** Samples are recorded with their worker, in lock order; `answered` is history: the outcomes of its requests. */
  datatype State = State(workers: map<nat, Pc>, stop: bool, recorded: seq<(nat, Sample)>,
                         answered: map<nat, seq<Sample>>)

  datatype Event =
    | SetStop
    | Proceed(w: nat) | Acquire(w: nat) | Answer(w: nat, sample: Sample) | Record(w: nat) | Leave(w: nat)

  function Launched(ids: set<nat>): State {
    State(map w | w in ids :: Checking, false, [], map w | w in ids :: [])
  }

  predicate At(s: State, w: nat, pc: Pc) {
    w in s.workers && s.workers[w] == pc
  }

  function Step(s: State, e: Event): Option<State> {
    match e
    case SetStop => Some(s.(stop := true))
    case Proceed(w) => if At(s, w, Checking) && !s.stop then Some(s.(workers := s.workers[w := Limited])) else None
    case Acquire(w) => if At(s, w, Limited) then Some(s.(workers := s.workers[w := Firing])) else None
    case Answer(w, x) =>
      if At(s, w, Firing) && w in s.answered
      then Some(s.(workers := s.workers[w := Recording(x)], answered := s.answered[w := s.answered[w] + [x]]))
      else None
    case Record(w) =>
      if w in s.workers && s.workers[w].Recording?
      then Some(s.(workers := s.workers[w := Checking], recorded := s.recorded + [(w, s.workers[w].sample)]))
      else None
    case Leave(w) => if At(s, w, Checking) && s.stop then Some(s.(workers := s.workers[w := Ended])) else None
  }

  /** What one worker recorded. */
  function By(recorded: seq<(nat, Sample)>, w: nat): seq<Sample> {
    if recorded == [] then []
    else
      var (v, x) := recorded[|recorded| - 1];
      By(recorded[..|recorded| - 1], w) + if v == w then [x] else []
  }

  function InHand(pc: Pc): seq<Sample> {
    if pc.Recording? then [pc.sample] else []
  }

  /** Every request that was answered is recorded once, in order, except the one in its worker's hand. */
  ghost predicate Conserved(s: State, w: nat) {
    w in s.workers ==> w in s.answered && s.answered[w] == By(s.recorded, w) + InHand(s.workers[w])
  }

  lemma ByAppend(recorded: seq<(nat, Sample)>, v: nat, x: Sample, w: nat)
    ensures By(recorded + [(v, x)], w) == By(recorded, w) + if v == w then [x] else []
  {
    assert (recorded + [(v, x)])[..|recorded|] == recorded;
  }

  lemma StepConserves(s: State, e: Event, t: State, w: nat)
    requires Conserved(s, w) && Step(s, e) == Some(t)
    ensures Conserved(t, w)
  {
    if e.Record? {
      ByAppend(s.recorded, e.w, s.workers[e.w].sample, w);
    }
  }

  lemma {:induction false} RunConserves(s: State, events: seq<Event>, t: State)
    requires (forall w :: Conserved(s, w)) && Exec(Step, s, events) == Some(t)
    ensures (forall w :: Conserved(t, w)) && s.workers.Keys == t.workers.Keys
    decreases |events|
  {
    if events != [] {
      var next := Step(s, events[0]).value;
      forall w ensures Conserved(next, w) {
        StepConserves(s, events[0], next, w);
      }
      RunConserves(next, events[1..], t);
    }
  }

  /** The samples in lock order, whoever recorded them. */
  function Samples(recorded: seq<(nat, Sample)>): seq<Sample> {
    seq(|recorded|, k requires 0 <= k < |recorded| => recorded[k].1)
  }

  /** In every interleaving the figures are the counts of the recorded samples, and a worker that has ended has recorded
      exactly the outcomes of its requests, in order: the final report misses none and counts none twice. */
  lemma FinalReportComplete(ids: set<nat>, events: seq<Event>, t: State, w: nat)
    requires Exec(Step, Launched(ids), events) == Some(t) && w in ids
    ensures w in t.workers && w in t.answered
    ensures t.answered[w] == By(t.recorded, w) + InHand(t.workers[w])
    ensures t.workers[w].Ended? ==> By(t.recorded, w) == t.answered[w]
    ensures Describes(Fold(Samples(t.recorded)), Samples(t.recorded))
  {
    hide Describes, Fold;
    LaunchConserves(ids);
    RunConserves(Launched(ids), events, t);
    hide Step, By;
    assert Conserved(t, w);
    FoldDescribes(Samples(t.recorded));
  }

  lemma LaunchConserves(ids: set<nat>)
    ensures forall w :: Conserved(Launched(ids), w)
  {
  }

  // ---- the stop event ----

  /** How many more steps, and how many more requests, a worker can make once the stop event is set. */
  function StepsLeft(pc: Pc): nat {
    match pc
    case Limited => 4
    case Firing => 3
    case Recording(_) => 2
    case Checking => 1
    case Ended => 0
  }

  function RecordsLeft(pc: Pc): nat {
    if pc.Limited? || pc.Firing? || pc.Recording? then 1 else 0
  }

  predicate Of(e: Event, w: nat) {
    !e.SetStop? && e.w == w
  }

  function Steps(events: seq<Event>, w: nat): nat {
    if events == [] then 0 else (if Of(events[0], w) then 1 else 0) + Steps(events[1..], w)
  }

  /** After the stop event each worker records at most one more sample, the one of a request already under way or past
      its check, and takes at most four more steps; it has ended when it has used them up. */
  lemma {:induction false} StopDrains(s: State, events: seq<Event>, t: State, w: nat)
    requires s.stop && w in s.workers && Exec(Step, s, events) == Some(t)
    ensures t.stop && w in t.workers && s.recorded <= t.recorded
    ensures Steps(events, w) + StepsLeft(t.workers[w]) <= StepsLeft(s.workers[w]) <= 4
    ensures |By(t.recorded, w)| + RecordsLeft(t.workers[w]) <= |By(s.recorded, w)| + RecordsLeft(s.workers[w])
    ensures |By(t.recorded, w)| <= |By(s.recorded, w)| + 1
    decreases |events|
  {
    if events != [] {
      var e, next := events[0], Step(s, events[0]).value;
      if e.Record? {
        ByAppend(s.recorded, e.w, s.workers[e.w].sample, w);
      }
      StopDrains(next, events[1..], t, w);
    }
  }

  /** No worker ends before the stop event. */
  lemma {:induction false} EndsOnlyStopped(ids: set<nat>, events: seq<Event>, t: State, w: nat)
    requires Exec(Step, Launched(ids), events) == Some(t)
    ensures (t.stop <==> SetStop in events) && (w in t.workers && t.workers[w].Ended? ==> SetStop in events)
    decreases |events|
  {
    if events != [] {
      var front, last := events[..|events| - 1], events[|events| - 1];
      assert events == front + [last];
      ExecSplit(Step, Launched(ids), front, [last]);
      ExecOne(Step, Exec(Step, Launched(ids), front).value, last);
      EndsOnlyStopped(ids, front, Exec(Step, Launched(ids), front).value, w);
    }
  }

  /** And it is never stuck: every worker can end. */
  lemma {:induction false} StopCompletes(s: State, w: nat) returns (events: seq<Event>, t: State)
    requires s.stop && w in s.workers && w in s.answered
    ensures Exec(Step, s, events) == Some(t) && w in t.workers && t.workers[w].Ended?
            && |events| == StepsLeft(s.workers[w])
    decreases StepsLeft(s.workers[w])
  {
    if s.workers[w].Ended? {
      events, t := [], s;
    } else {
      var e := match s.workers[w]
        case Limited => Acquire(w)
        case Firing => Answer(w, Sample(0, 0.0))
        case Recording(_) => Record(w)
        case Checking => Leave(w)
        case Ended => SetStop;
      events, t := StopCompletes(Step(s, e).value, w);
      assert ([e] + events)[1..] == events;
      events := [e] + events;
    }
  }

  // ---- the worker as a program ----

  /** The samples of its first `n` requests. */
  function Fired(fire: nat -> Sample, n: nat): seq<Sample> {
    if n == 0 then [] else Fired(fire, n - 1) + [fire(n - 1)]
  }

  /** One more request, from the check that does not find the stop event to the recorded sample. */
  lemma FiresOnce(s0: State, events: seq<Event>, s: State, w: nat, x: Sample) returns (events': seq<Event>, t: State)
    requires Exec(Step, s0, events) == Some(s) && At(s, w, Checking) && !s.stop && w in s.answered
    ensures Exec(Step, s0, events') == Some(t)
    ensures t == s.(recorded := s.recorded + [(w, x)], answered := s.answered[w := s.answered[w] + [x]])
  {
    events', t := Extend(Step, s0, events, s, Proceed(w));
    events', t := Extend(Step, s0, events', t, Acquire(w));
    events', t := Extend(Step, s0, events', t, Answer(w, x));
    events', t := Extend(Step, s0, events', t, Record(w));
    assert t.workers == s.workers;
  }

  lemma SamplesAppend(recorded: seq<(nat, Sample)>, w: nat, x: Sample)
    ensures Samples(recorded + [(w, x)]) == Samples(recorded) + [x]
  {
  }

  /** From `s` to `t` worker `w` recorded `n` requests; `samples` is what the statistics object holds then. */
  ghost predicate Worked(s: State, events: seq<Event>, t: State, w: nat, fire: nat -> Sample, n: nat,
                         samples: seq<Sample>)
    requires w in s.answered
  {
    && Exec(Step, s, events) == Some(t)
    && samples == Samples(t.recorded)
    && w in t.answered && t.answered[w] == s.answered[w] + Fired(fire, n)
    && By(t.recorded, w) == By(s.recorded, w) + Fired(fire, n)
  }

  lemma WorkedNothing(s: State, w: nat, fire: nat -> Sample)
    requires w in s.answered
    ensures Worked(s, [], s, w, fire, 0, Samples(s.recorded))
  {
  }

  lemma WorkedMore(s: State, events: seq<Event>, t: State, w: nat, fire: nat -> Sample, n: nat, samples: seq<Sample>)
    returns (events': seq<Event>, t': State)
    requires w in s.answered && Worked(s, events, t, w, fire, n, samples) && At(t, w, Checking) && !t.stop
    ensures Worked(s, events', t', w, fire, n + 1, samples + [fire(n)]) && At(t', w, Checking) && !t'.stop
  {
    assert Fired(fire, n + 1) == Fired(fire, n) + [fire(n)];
    hide Step, Fired, By, Samples;
    events', t' := FiresOnce(s, events, t, w, fire(n));
    ByAppend(t.recorded, w, fire(n), w);
    SamplesAppend(t.recorded, w, fire(n));
    assert s.answered[w] + Fired(fire, n) + [fire(n)] == s.answered[w] + Fired(fire, n + 1);
    assert By(s.recorded, w) + Fired(fire, n) + [fire(n)] == By(s.recorded, w) + Fired(fire, n + 1);
  }

  /** The stop event is set before the next check. */
  lemma WorkedAndLeft(s: State, events: seq<Event>, t: State, w: nat, fire: nat -> Sample, n: nat, samples: seq<Sample>)
    returns (events': seq<Event>, t': State)
    requires w in s.answered && Worked(s, events, t, w, fire, n, samples) && At(t, w, Checking)
    ensures Worked(s, events', t', w, fire, n, samples) && At(t', w, Ended)
  {
    events', t' := Extend(Step, s, events, t, SetStop);
    events', t' := Extend(Step, s, events', t', Leave(w));
  }

  /** The loop of one worker while the others pause: `stop(k)` is what its `k`-th check of the stop event finds, set no
      later than at check number `latest`, and `fire(k)` the sample of its `k`-th request.  It is a run of the machine,
      and the statistics object holds what the machine recorded. */
  method Worker(stats: Stats, w: nat, stop: nat -> bool, fire: nat -> Sample, ghost latest: nat, ghost s: State)
    returns (n: nat, ghost events: seq<Event>, ghost t: State)
    requires stats.Valid() && stats.samples == Samples(s.recorded) && stop(latest)
    requires At(s, w, Checking) && !s.stop && w in s.answered
    modifies stats
    ensures stop(n) && forall k | 0 <= k < n :: !stop(k)
    ensures stats.Valid() && Worked(s, events, t, w, fire, n, stats.samples) && At(t, w, Ended)
  {
    hide Describes, Recorded, Worked;
    n, events, t := 0, [], s;
    WorkedNothing(s, w, fire);
    while !stop(n)
      invariant stats.Valid() && n <= latest && forall k | 0 <= k < n :: !stop(k)
      invariant Worked(s, events, t, w, fire, n, stats.samples) && At(t, w, Checking) && !t.stop
      decreases latest - n
    {
      var sample := fire(n);
      events, t := WorkedMore(s, events, t, w, fire, n, stats.samples);
      stats.Record(sample.code, sample.latency);
      n := n + 1;
    }
    events, t := WorkedAndLeft(s, events, t, w, fire, n, stats.samples);
  }
}
