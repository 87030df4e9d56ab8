/** The publisher object: its producer queue, the delivery reports it drains, its token and its shutdown. */
module DlqPublisher {
  import opened Wrappers
  import opened Dlq
  import opened Tokens

  /** `all` is shared out, without loss or duplication, between the five sequences. */
  ghost predicate SharedOut<T(!new)>(all: seq<T>, a: seq<T>, b: seq<T>, c: seq<T>, d: seq<T>, e: seq<T>) {
    forall x :: Count(all, x) == Count(a, x) + Count(b, x) + Count(c, x) + Count(d, x) + Count(e, x)
  }

  ghost function Count<T>(s: seq<T>, x: T): nat {
    multiset(s)[x]
  }

  lemma CountConcat<T(!new)>(s: seq<T>, t: seq<T>)
    ensures forall x :: Count(s + t, x) == Count(s, x) + Count(t, x)
  {
  }

  lemma CountWithout<T(!new)>(s: seq<T>, k: nat)
    requires k < |s|
    ensures forall x :: Count(s, x) == Count(s[..k] + s[k + 1..], x) + Count([s[k]], x)
  {
    assert s == s[..k] + [s[k]] + s[k + 1..];
    CountConcat(s[..k], [s[k]]);
    CountConcat(s[..k] + [s[k]], s[k + 1..]);
    CountConcat(s[..k], s[k + 1..]);
  }

  /** A delivery report moves one element from the first sequence to the second or the third. */
  lemma ReportKeepsShares<T(!new)>(all: seq<T>, a: seq<T>, b: seq<T>, c: seq<T>, d: seq<T>, e: seq<T>, k: nat)
    requires SharedOut(all, a, b, c, d, e) && k < |a|
    ensures SharedOut(all, a[..k] + a[k + 1..], b + [a[k]], c, d, e)
    ensures SharedOut(all, a[..k] + a[k + 1..], b, c + [a[k]], d, e)
  {
    CountWithout(a, k);
    CountConcat(b, [a[k]]);
    CountConcat(c, [a[k]]);
  }

  /** A publication adds the same element to the whole and to the first or the fourth sequence. */
  lemma PublishKeepsShares<T(!new)>(all: seq<T>, a: seq<T>, b: seq<T>, c: seq<T>, d: seq<T>, e: seq<T>, x: T)
    requires SharedOut(all, a, b, c, d, e)
    ensures SharedOut(all + [x], a + [x], b, c, d, e)
    ensures SharedOut(all + [x], a, b, c, d + [x], e)
  {
    CountConcat(all, [x]);
    CountConcat(a, [x]);
    CountConcat(d, [x]);
  }

  /** Closing turns what is queued into what is dropped. */
  lemma CloseKeepsShares<T(!new)>(all: seq<T>, a: seq<T>, b: seq<T>, c: seq<T>, d: seq<T>)
    requires SharedOut(all, a, b, c, d, [])
    ensures SharedOut(all, [], b, c, d, a)
  {
  }

  /** What has become of the messages of a publisher. */
  datatype Ledger = Ledger(published: seq<DlqMessage>, queue: seq<DlqMessage>, delivered: seq<DlqMessage>,
                           undelivered: seq<DlqMessage>, refused: seq<DlqMessage>, dropped: seq<DlqMessage>) {
    /** After the publisher was closed and these reports arrived in time. */
    function Closed(reports: seq<(nat, bool)>): Ledger {
      var f := Flush(queue, reports);
      this.(queue := [], dropped := f.left, delivered := delivered + f.delivered,
            undelivered := undelivered + f.undelivered)
    }
  }

  /** What is left of a queue after some delivery reports, and what they reported. */
  datatype Flushed<T> = Flushed(left: seq<T>, delivered: seq<T>, undelivered: seq<T>)

  /** Any position of the queue can be picked. */
  function Pick<T>(k: nat, queue: seq<T>): nat
    requires queue != []
  {
    Min(k, |queue| - 1)
  }

  /** Each report is about some message of the queue: which one, and whether it was delivered. */
  function Flush<T>(queue: seq<T>, reports: seq<(nat, bool)>): Flushed<T>
    decreases |reports|
  {
    if queue == [] || reports == [] then Flushed(queue, [], [])
    else
      var k := Pick(reports[0].0, queue);
      Reported(queue[k], reports[0].1, Flush(queue[..k] + queue[k + 1..], reports[1..]))
  }

  function Reported<T>(x: T, ok: bool, rest: Flushed<T>): Flushed<T> {
    if ok then rest.(delivered := [x] + rest.delivered) else rest.(undelivered := [x] + rest.undelivered)
  }

  ghost function Everything<T>(f: Flushed<T>): multiset<T> {
    multiset(f.left) + multiset(f.delivered) + multiset(f.undelivered)
  }

  lemma RemoveOne<T>(queue: seq<T>, k: nat)
    requires k < |queue|
    ensures multiset(queue) == multiset{queue[k]} + multiset(queue[..k] + queue[k + 1..])
  {
    assert queue == queue[..k] + [queue[k]] + queue[k + 1..];
  }

  lemma ReportedCounts<T>(x: T, ok: bool, rest: Flushed<T>)
    ensures var f := Reported(x, ok, rest);
            && Everything(f) == multiset{x} + Everything(rest)
            && |f.delivered| + |f.undelivered| == 1 + |rest.delivered| + |rest.undelivered|
            && (if ok then f.undelivered == rest.undelivered else f.delivered == rest.delivered)
  {
    assert multiset([x] + rest.delivered) == multiset{x} + multiset(rest.delivered);
    assert multiset([x] + rest.undelivered) == multiset{x} + multiset(rest.undelivered);
  }

  lemma FlushUnfolds<T>(queue: seq<T>, reports: seq<(nat, bool)>)
    requires queue != [] && reports != []
    ensures var k := Pick(reports[0].0, queue);
            Flush(queue, reports) == Reported(queue[k], reports[0].1, Flush(queue[..k] + queue[k + 1..], reports[1..]))
  {
  }

  lemma FlushEnds<T>(queue: seq<T>, reports: seq<(nat, bool)>)
    requires queue == [] || reports == []
    ensures Flush(queue, reports) == Flushed(queue, [], []) && Everything(Flush(queue, reports)) == multiset(queue)
  {
  }

  predicate AllDelivered(reports: seq<(nat, bool)>) {
    forall k | 0 <= k < |reports| :: reports[k].1
  }

  predicate NoneDelivered(reports: seq<(nat, bool)>) {
    forall k | 0 <= k < |reports| :: !reports[k].1
  }

  /** Flushing neither loses nor doubles a message: one leaves the queue with each report, until none is left. */
  lemma {:induction false} FlushConserves<T>(queue: seq<T>, reports: seq<(nat, bool)>)
    ensures var f := Flush(queue, reports);
            && multiset(queue) == Everything(f)
            && |f.delivered| + |f.undelivered| == Min(|reports|, |queue|)
            && (AllDelivered(reports) ==> f.undelivered == []) && (NoneDelivered(reports) ==> f.delivered == [])
    decreases |reports|
  {
    hide Flush, Reported, Everything;
    if queue == [] || reports == [] {
      FlushEnds(queue, reports);
    } else {
      var k := Pick(reports[0].0, queue);
      var queue' := queue[..k] + queue[k + 1..];
      assert AllDelivered(reports) ==> AllDelivered(reports[1..]);
      assert NoneDelivered(reports) ==> NoneDelivered(reports[1..]);
      FlushUnfolds(queue, reports);
      FlushConserves(queue', reports[1..]);
      RemoveOne(queue, k);
      ReportedCounts(queue[k], reports[0].1, Flush(queue', reports[1..]));
    }
  }

  lemma FlushSummary<T>(queue: seq<T>, reports: seq<(nat, bool)>)
    ensures var f := Flush(queue, reports);
            && |f.left| == |queue| - Min(|reports|, |queue|)
            && (AllDelivered(reports) ==> f.undelivered == []) && (NoneDelivered(reports) ==> f.delivered == [])
  {
    FlushConserves(queue, reports);
    hide Flush, AllDelivered, NoneDelivered;
    var f := Flush(queue, reports);
    assert |queue| == |multiset(queue)| == |Everything(f)| == |f.left| + |f.delivered| + |f.undelivered|;
  }

  /** So much was reported before `queue` was what is left. */
  ghost predicate Flushing<T>(f: Flushed<T>, delivered: seq<T>, undelivered: seq<T>, queue: seq<T>,
                              reports: seq<(nat, bool)>) {
    var rest := Flush(queue, reports);
    f == Flushed(rest.left, delivered + rest.delivered, undelivered + rest.undelivered)
  }

  lemma FlushBegins<T>(queue: seq<T>, reports: seq<(nat, bool)>)
    ensures Flushing(Flush(queue, reports), [], [], queue, reports[0..])
  {
    assert reports[0..] == reports;
  }

  lemma FlushDone<T>(f: Flushed<T>, delivered: seq<T>, undelivered: seq<T>, queue: seq<T>, reports: seq<(nat, bool)>)
    requires Flushing(f, delivered, undelivered, queue, reports) && (queue == [] || reports == [])
    ensures f == Flushed(queue, delivered, undelivered)
  {
  }

  lemma FlushOneMore<T>(f: Flushed<T>, delivered: seq<T>, undelivered: seq<T>, queue: seq<T>, reports: seq<(nat, bool)>)
    requires Flushing(f, delivered, undelivered, queue, reports) && queue != [] && reports != []
    ensures var k, ok := Pick(reports[0].0, queue), reports[0].1;
            Flushing(f, delivered + if ok then [queue[k]] else [], undelivered + if ok then [] else [queue[k]],
                     queue[..k] + queue[k + 1..], reports[1..])
  {
    var k := Pick(reports[0].0, queue);
    var rest := Flush(queue[..k] + queue[k + 1..], reports[1..]);
    assert delivered + ([queue[k]] + rest.delivered) == (delivered + [queue[k]]) + rest.delivered;
    assert undelivered + ([queue[k]] + rest.undelivered) == (undelivered + [queue[k]]) + rest.undelivered;
    assert delivered + [] == delivered && undelivered + [] == undelivered;
  }

  class Publisher {
    const topic: string
    /** Accepted by the producer, no delivery report yet. */
    var queue: seq<DlqMessage>
    var delivered: seq<DlqMessage>
    /** Delivery report with an error: only a log line remains. */
    var undelivered: seq<DlqMessage>
    /** `Produce` returned an error: only a log line remains. */
    var refused: seq<DlqMessage>
    /** Still queued when the producer was closed. */
    var dropped: seq<DlqMessage>
    var token: Token
    var open: bool
    /** Every message `Publish` was called for, in order. */
    ghost var published: seq<DlqMessage>

    /** Conservation: each published message has exactly one fate. */
    ghost predicate Valid()
      reads this
    {
      && SharedOut(published, queue, delivered, undelivered, refused, dropped)
      && (open ==> dropped == [])
      && (!open ==> queue == [])
    }

    ghost function Accounts(): Ledger
      reads this
    {
      Ledger(published, queue, delivered, undelivered, refused, dropped)
    }

    constructor (topic: string, initial: Token)
      ensures Valid() && open && this.topic == topic && token == initial
      ensures published == queue == delivered == undelivered == refused == []
    {
      this.topic := topic;
      token := initial;
      queue, delivered, undelivered, refused, dropped := [], [], [], [], [];
      open, published := true, [];
    }

    /** `accepted` is whether the producer's queue takes the message. */
    method Publish(m: Message, err: string, attempts: int, timestamp: string, accepted: bool)
      requires Valid() && open
      modifies this
      ensures Valid() && open && token == old(token)
      ensures published == old(published) + [DeadLetter(topic, m, err, attempts, timestamp)]
      ensures queue == old(queue) + if accepted then [DeadLetter(topic, m, err, attempts, timestamp)] else []
      ensures refused == old(refused) + if accepted then [] else [DeadLetter(topic, m, err, attempts, timestamp)]
      ensures delivered == old(delivered) && undelivered == old(undelivered)
    {
      hide SharedOut;
      var headers := m.headers + Provenance(m, err, attempts, timestamp);
      var dlqMsg := DlqMessage(topic, m.key, m.value, headers);
      PublishKeepsShares(published, queue, delivered, undelivered, refused, dropped, dlqMsg);
      published := published + [dlqMsg];
      if accepted {
        queue := queue + [dlqMsg];
      } else {
        refused := refused + [dlqMsg];
      }
    }

    /** One delivery report, for the message at position `k` of the queue. */
    method Drain(k: nat, ok: bool)
      requires Valid() && k < |queue|
      modifies this
      ensures Valid() && open == old(open) && token == old(token)
      ensures queue == old(queue[..k] + queue[k + 1..])
      ensures delivered == old(delivered) + if ok then [old(queue[k])] else []
      ensures undelivered == old(undelivered) + if ok then [] else [old(queue[k])]
      ensures refused == old(refused) && dropped == old(dropped) && published == old(published)
    {
      hide SharedOut;
      var m := queue[k];
      ReportKeepsShares(published, queue, delivered, undelivered, refused, dropped, k);
      queue := queue[..k] + queue[k + 1..];
      if ok {
        delivered := delivered + [m];
      } else {
        undelivered := undelivered + [m];
      }
    }

    method UpdateToken(tok: Token, ok: bool) returns (failed: bool)
      requires Valid()
      modifies this`token
      ensures Valid() && failed == !ok
      ensures token == if ok then tok else old(token)
    {
      if ok {
        token := tok;
      }
      return !ok;
    }

    /** Flush handles the reports that arrive in time; closing the producer drops the rest. */
    method Close(reports: seq<(nat, bool)>)
      requires Valid() && open
      modifies this
      ensures Valid() && !open && token == old(token)
      ensures Accounts() == old(Accounts()).Closed(reports)
      ensures dropped != [] ==> |reports| < |old(queue)|
      ensures AllDelivered(reports) ==> undelivered == old(undelivered)
      ensures NoneDelivered(reports) ==> delivered == old(delivered)
    {
      hide SharedOut, Flush, Flushing, Everything, AllDelivered, NoneDelivered;
      ghost var before, f := Accounts(), Flush(queue, reports);
      var n := 0;
      FlushBegins(queue, reports);
      FlushSummary(queue, reports);
      ghost var ok, failed := [], [];
      while n < |reports| && queue != []
        invariant 0 <= n <= |reports| && Valid() && open && token == old(token)
        invariant published == before.published && refused == before.refused
        invariant delivered == before.delivered + ok && undelivered == before.undelivered + failed
        invariant Flushing(f, ok, failed, queue, reports[n..])
      {
        var (k, arrived) := (Pick(reports[n].0, queue), reports[n].1);
        FlushOneMore(f, ok, failed, queue, reports[n..]);
        assert reports[n..][1..] == reports[n + 1..];
        ok, failed := ok + if arrived then [queue[k]] else [], failed + if arrived then [] else [queue[k]];
        Drain(k, arrived);
        n := n + 1;
      }
      FlushDone(f, ok, failed, queue, reports[n..]);
      CloseKeepsShares(published, queue, delivered, undelivered, refused);
      dropped, queue, open := queue, [], false;
    }
  }
}
