/** The statistics monitor of the load generator.  Samples are recorded under a lock, so a run of any number of
    workers is the sequence of their samples in lock order. */
module LoadStats {
  import opened Wrappers
  import Backoff

  datatype Sample = Sample(code: int, latency: real)

  datatype Metrics = Metrics(success: nat, authFail: nat, error: nat, statusCodes: map<int, nat>, latencies: seq<real>)

  const EMPTY := Metrics(0, 0, 0, map[], [])

  function Lookup(codes: map<int, nat>, code: int): nat {
    if code in codes then codes[code] else 0
  }

  /** What the samples say, by counting them. */
  function Occurrences(samples: seq<Sample>, codes: set<int>): nat {
    if samples == [] then 0
    else Occurrences(samples[..|samples| - 1], codes) + if samples[|samples| - 1].code in codes then 1 else 0
  }

  ghost predicate Describes(m: Metrics, samples: seq<Sample>) {
    && m.success == Occurrences(samples, {200})
    && m.authFail == Occurrences(samples, {400, 401})
    && m.success + m.authFail + m.error == Sum(m.statusCodes) == |m.latencies| == |samples|
    && (forall code :: Lookup(m.statusCodes, code) == Occurrences(samples, {code}))
    && (forall k | 0 <= k < |samples| :: m.latencies[k] == samples[k].latency)
  }

  lemma HasKey(codes: map<int, nat>)
    requires codes != map[]
    ensures exists code :: code in codes
  {
    assert (forall code :: code !in codes) ==> codes == map[];
  }

  ghost function Sum(codes: map<int, nat>): nat
    decreases |codes|
  {
    if codes == map[] then 0
    else
      assert exists code :: code in codes by { HasKey(codes); }
      var code :| code in codes;
      codes[code] + Sum(codes - {code})
  }

  lemma {:induction false} SumWithout(codes: map<int, nat>, code: int)
    requires code in codes
    ensures Sum(codes) == codes[code] + Sum(codes - {code})
    decreases |codes|
  {
    var chosen :| chosen in codes.Keys && Sum(codes) == codes[chosen] + Sum(codes - {chosen});
    if chosen != code {
      SumWithout(codes - {chosen}, code);
      SumWithout(codes - {code}, chosen);
      assert codes - {chosen} - {code} == codes - {code} - {chosen};
    }
  }

  lemma SumUpdate(codes: map<int, nat>, code: int)
    ensures Sum(codes[code := Lookup(codes, code) + 1]) == Sum(codes) + 1
  {
    var codes' := codes[code := Lookup(codes, code) + 1];
    SumWithout(codes', code);
    assert codes' - {code} == codes - {code};
    if code in codes {
      SumWithout(codes, code);
    } else {
      assert codes - {code} == codes;
    }
  }

  lemma OccurrencesAppend(samples: seq<Sample>, s: Sample, codes: set<int>)
    ensures Occurrences(samples + [s], codes) == Occurrences(samples, codes) + if s.code in codes then 1 else 0
  {
    assert (samples + [s])[..|samples|] == samples;
  }

  /** Occurrences depend on the samples only, not on the order in which workers took the lock. */
  lemma {:induction false} OccurrencesConcat(a: seq<Sample>, b: seq<Sample>, codes: set<int>)
    ensures Occurrences(a + b, codes) == Occurrences(a, codes) + Occurrences(b, codes)
    decreases |b|
  {
    if b == [] {
      assert a + b == a;
    } else {
      var b', s := b[..|b| - 1], b[|b| - 1];
      assert a + b == (a + b') + [s];
      OccurrencesConcat(a, b', codes);
      OccurrencesAppend(a + b', s, codes);
    }
  }

  lemma {:induction false} OrderIrrelevant(a: seq<Sample>, b: seq<Sample>, codes: set<int>)
    requires multiset(a) == multiset(b)
    ensures Occurrences(a, codes) == Occurrences(b, codes) && |a| == |b|
    decreases |a|
  {
    hide Occurrences;
    assert |a| == |multiset(a)| == |multiset(b)| == |b|;
    if a == [] {
      assert b == a;
    } else {
      var s, a' := a[|a| - 1], a[..|a| - 1];
      assert a == a' + [s];
      var left, right := Taken(a', s, b);
      OrderIrrelevant(a', left + right, codes);
      OccurrencesAppend(a', s, codes);
      OccurrencesConcat(left, right, codes);
      OccurrencesConcat(left + [s], right, codes);
      OccurrencesAppend(left, s, codes);
    }
  }

  /** The last element of one order is somewhere in the other. */
  lemma Taken<T>(front: seq<T>, s: T, b: seq<T>) returns (left: seq<T>, right: seq<T>)
    requires multiset(front + [s]) == multiset(b)
    ensures b == left + [s] + right && multiset(front) == multiset(left + right)
  {
    assert s in multiset(b) by {
      assert (front + [s])[|front|] == s;
    }
    var k :| 0 <= k < |b| && b[k] == s;
    left, right := b[..k], b[k + 1..];
    assert b == left + [s] + right;
    TakenOnce(front, s, left, right);
  }

  lemma TakenOnce<T>(front: seq<T>, s: T, left: seq<T>, right: seq<T>)
    requires multiset(front + [s]) == multiset(left + [s] + right)
    ensures multiset(front) == multiset(left + right)
  {
    assert multiset(left + [s] + right) == multiset(left + right) + multiset{s};
    assert multiset(front + [s]) == multiset(front) + multiset{s};
    assert multiset(front) == multiset(front + [s]) - multiset{s};
  }

  /** The metrics after one more sample. */
  function Recorded(m: Metrics, s: Sample): Metrics {
    var m' := m.(statusCodes := m.statusCodes[s.code := Lookup(m.statusCodes, s.code) + 1],
                 latencies := m.latencies + [s.latency]);
    if s.code == 200 then m'.(success := m.success + 1)
    else if s.code == 401 || s.code == 400 then m'.(authFail := m.authFail + 1)
    else m'.(error := m.error + 1)
  }

  lemma RecordedDescribes(m: Metrics, samples: seq<Sample>, s: Sample)
    requires Describes(m, samples)
    ensures Describes(Recorded(m, s), samples + [s])
  {
    SumUpdate(m.statusCodes, s.code);
    OccurrencesAppend(samples, s, {200});
    OccurrencesAppend(samples, s, {400, 401});
    forall code ensures Lookup(Recorded(m, s).statusCodes, code) == Occurrences(samples + [s], {code}) {
      OccurrencesAppend(samples, s, {code});
    }
  }

  class Stats {
    var success: nat
    var authFail: nat
    var error: nat
    var statusCodes: map<int, nat>
    var latencies: seq<real>
    /** Every sample so far, in lock order. */
    ghost var samples: seq<Sample>

    function View(): Metrics
      reads this
    {
      Metrics(success, authFail, error, statusCodes, latencies)
    }

    ghost predicate Valid()
      reads this
    {
      Describes(View(), samples)
    }

    constructor ()
      ensures Valid() && samples == [] && View() == EMPTY
    {
      success, authFail, error, statusCodes, latencies, samples := 0, 0, 0, map[], [], [];
    }

    method Record(code: int, latency: real)
      requires Valid()
      modifies this
      ensures Valid() && samples == old(samples) + [Sample(code, latency)]
      ensures View() == Recorded(old(View()), Sample(code, latency))
    {
      RecordedDescribes(View(), samples, Sample(code, latency));
      statusCodes := statusCodes[code := Lookup(statusCodes, code) + 1];
      if code == 200 {
        success := success + 1;
      } else if code == 401 || code == 400 {
        authFail := authFail + 1;
      } else {
        error := error + 1;
      }
      latencies := latencies + [latency];
      samples := samples + [Sample(code, latency)];
    }

    /** The printed figures.  Before the first sample the printed total is 1. */
    method Report() returns (total: nat, ok: nat, authFails: nat, averageMs: real)
      requires Valid()
      ensures total == if samples == [] then 1 else success + authFail + error
      ensures ok == Occurrences(samples, {200}) && authFails == Occurrences(samples, {400, 401})
      ensures averageMs * (total as real) == Total(latencies) * 1000.0
    {
      total := if latencies == [] then 1 else |latencies|;
      ok, authFails := success, authFail;
      var acc := 0.0;
      for k := 0 to |latencies|
        invariant acc == Total(latencies[..k])
      {
        acc := acc + latencies[k];
        assert latencies[..k + 1][..k] == latencies[..k];
      }
      assert latencies[..|latencies|] == latencies;
      averageMs := if latencies == [] then 0.0 else acc / (|latencies| as real) * 1000.0;
    }
  }

  function Total(xs: seq<real>): real {
    if xs == [] then 0.0 else Total(xs[..|xs| - 1]) + xs[|xs| - 1]
  }

  /** The total is the sum: of one figure that figure, of two lists the sum of theirs. */
  lemma {:induction false} TotalAddsUp(a: seq<real>, b: seq<real>)
    ensures Total(a + b) == Total(a) + Total(b)
    ensures |b| == 1 ==> Total(b) == b[0]
    decreases |b|
  {
    if b == [] {
      assert a + b == a;
    } else {
      var front, last := b[..|b| - 1], b[|b| - 1];
      assert (a + b)[..|a + b| - 1] == a + front;
      TotalAddsUp(a, front);
    }
  }

  /** And the average lies between the smallest and the largest figure. */
  lemma {:induction false} TotalBetween(xs: seq<real>, low: real, high: real)
    requires forall x | x in xs :: low <= x <= high
    ensures low * (|xs| as real) <= Total(xs) <= high * (|xs| as real)
  {
    if xs != [] {
      var front := xs[..|xs| - 1];
      assert forall x | x in front :: x in xs;
      TotalBetween(front, low, high);
      assert (|xs| as real) == (|front| as real) + 1.0;
      assert xs[|xs| - 1] in xs;
    }
  }

  function Fold(samples: seq<Sample>): Metrics {
    if samples == [] then EMPTY else Recorded(Fold(samples[..|samples| - 1]), samples[|samples| - 1])
  }

  lemma {:induction false} FoldDescribes(samples: seq<Sample>)
    ensures Describes(Fold(samples), samples)
  {
    if samples != [] {
      var front, last := samples[..|samples| - 1], samples[|samples| - 1];
      FoldDescribes(front);
      RecordedDescribes(Fold(front), front, last);
      assert front + [last] == samples;
    }
  }

  /** Two interleavings of the same workers' samples end with the same figures. */
  lemma InterleavingIrrelevant(a: seq<Sample>, b: seq<Sample>)
    requires multiset(a) == multiset(b)
    ensures var x, y := Fold(a), Fold(b);
            && x.success == y.success && x.authFail == y.authFail && x.error == y.error
            && |x.latencies| == |y.latencies|
            && forall code :: Lookup(x.statusCodes, code) == Lookup(y.statusCodes, code)
  {
    FoldDescribes(a);
    FoldDescribes(b);
    OrderIrrelevant(a, b, {200});
    OrderIrrelevant(a, b, {400, 401});
    forall code ensures Lookup(Fold(a).statusCodes, code) == Lookup(Fold(b).statusCodes, code) {
      OrderIrrelevant(a, b, {code});
    }
  }

  // ---- the reporting loop ----

  function CeilDiv(a: int, b: int): int
    requires b > 0
  {
    (a + b - 1) / b
  }

  datatype Reporting = Completed(reports: nat, slept: int) | RangeError

  /** `for _ in range(0, duration, interval)`: sleep, then report.  A zero step is refused by `range`. */
  method ReportingLoop(duration: int, interval: int) returns (r: Reporting)
    ensures interval == 0 <==> r.RangeError?
    ensures r.Completed? ==> r.slept == r.reports * interval
    ensures interval > 0 ==> r.reports == if duration > 0 then CeilDiv(duration, interval) else 0
    ensures interval < 0 ==> r.reports == if duration < 0 then CeilDiv(-duration, -interval) else 0
    ensures interval > 0 && duration > 0 ==> duration <= r.slept < duration + interval
  {
    if interval == 0 {
      return RangeError;
    }
    var x, reports := 0, 0;
    while if interval > 0 then x < duration else x > duration
      invariant x == reports * interval
      invariant interval > 0 ==> x < Max(duration, 0) + interval && (duration <= 0 ==> x == 0)
      invariant interval < 0 ==> x > Min(duration, 0) + interval && (duration >= 0 ==> x == 0)
      decreases if interval > 0 then duration - x else x - duration
    {
      reports := reports + 1;
      assert reports * interval == (reports - 1) * interval + interval;
      x := x + interval;
    }
    if interval > 0 && duration > 0 {
      RoundUp(duration, interval, reports);
    } else if interval < 0 && duration < 0 {
      assert reports * -interval == -x;
      RoundUp(-duration, -interval, reports);
    }
    assert x == 0 ==> reports == 0 by {
      assert reports != 0 ==> reports * interval != 0;
    }
    return Completed(reports, x);
  }

  lemma RoundUp(a: int, b: int, n: nat)
    requires b > 0 && a <= n * b < a + b
    ensures n == CeilDiv(a, b)
  {
    var q := CeilDiv(a, b);
    assert a + b - 1 == q * b + (a + b - 1) % b;
    Backoff.CancelFactor(n, q + 1, b);
    Backoff.CancelFactor(q, n + 1, b);
  }
}
