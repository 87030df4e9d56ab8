/** The dead letter queue publisher: header provenance over any number of hops, and the fate of every message. */
module Dlq {
  import opened Wrappers
  import opened Numerals

  datatype Header = Header(key: string, value: string)

  /** A consumed message. */
  datatype Message = Message(topic: string, partition: int, offset: int, key: string, value: string,
                             headers: seq<Header>)

  /** A message handed to the producer; the broker chooses its partition and offset. */
  datatype DlqMessage = DlqMessage(topic: string, key: string, value: string, headers: seq<Header>)

  const ERROR := "dlq.error"
  const ORIGINAL_TOPIC := "dlq.original.topic"
  const ORIGINAL_PARTITION := "dlq.original.partition"
  const ORIGINAL_OFFSET := "dlq.original.offset"
  const ATTEMPTS := "dlq.attempts"
  const TIMESTAMP := "dlq.timestamp"

  predicate IsDlqKey(key: string) {
    "dlq." <= key
  }

  function Provenance(m: Message, err: string, attempts: int, timestamp: string): seq<Header> {
    [ Header(ERROR, err),
      Header(ORIGINAL_TOPIC, m.topic),
      Header(ORIGINAL_PARTITION, Decimal(m.partition)),
      Header(ORIGINAL_OFFSET, Decimal(m.offset)),
      Header(ATTEMPTS, Decimal(attempts)),
      Header(TIMESTAMP, timestamp) ]
  }

  function DeadLetter(topic: string, m: Message, err: string, attempts: int, timestamp: string): DlqMessage {
    DlqMessage(topic, m.key, m.value, m.headers + Provenance(m, err, attempts, timestamp))
  }

  /** The first value under `key`, or the empty string. */
  function FirstHeader(headers: seq<Header>, key: string): string {
    if headers == [] then ""
    else if headers[0].key == key then headers[0].value
    else FirstHeader(headers[1..], key)
  }

  method ExtractHeader(m: Message, key: string) returns (value: string)
    ensures value == FirstHeader(m.headers, key)
    ensures (forall h | h in m.headers :: h.key != key) ==> value == ""
    ensures forall i |
              0 <= i < |m.headers| && m.headers[i].key == key && (forall j | 0 <= j < i :: m.headers[j].key != key) ::
              value == m.headers[i].value
  {
    for n := 0 to |m.headers|
      invariant forall j | 0 <= j < n :: m.headers[j].key != key
      invariant FirstHeader(m.headers, key) == FirstHeader(m.headers[n..], key)
    {
      if m.headers[n].key == key {
        return m.headers[n].value;
      }
      assert m.headers[n..][1..] == m.headers[n + 1..];
    }
    return "";
  }

  predicate Absent(headers: seq<Header>, key: string) {
    forall h | h in headers :: h.key != key
  }

  lemma {:induction false} FirstHeaderAppend(a: seq<Header>, b: seq<Header>, key: string)
    ensures FirstHeader(a + b, key) == if Absent(a, key) then FirstHeader(b, key) else FirstHeader(a, key)
  {
    if a == [] {
      assert a + b == b;
    } else {
      FirstHeaderAppend(a[1..], b, key);
      assert (a + b)[1..] == a[1..] + b;
      assert a == [a[0]] + a[1..];
    }
  }

  // ---- hops ----

  /** One failed consumption: why, after how many attempts, when, and where the broker stored the result. */
  datatype Hop = Hop(topic: string, err: string, attempts: int, timestamp: string, partition: int, offset: int)

  function Forward(m: Message, h: Hop): Message {
    var d := DeadLetter(h.topic, m, h.err, h.attempts, h.timestamp);
    Message(d.topic, h.partition, h.offset, d.key, d.value, d.headers)
  }

  function Chain(m: Message, hops: seq<Hop>): Message {
    if hops == [] then m else Forward(Chain(m, hops[..|hops| - 1]), hops[|hops| - 1])
  }

  /** Key and value survive, the original headers stay a prefix, and every hop adds six. */
  lemma {:induction false} ChainKeepsMessage(m: Message, hops: seq<Hop>)
    ensures var c := Chain(m, hops);
            && c.key == m.key && c.value == m.value && m.headers <= c.headers
            && |c.headers| == |m.headers| + 6 * |hops|
            && (hops != [] ==>
                  var h := hops[|hops| - 1]; c.topic == h.topic && c.partition == h.partition && c.offset == h.offset)
  {
    if hops != [] {
      ChainKeepsMessage(m, hops[..|hops| - 1]);
    }
  }

  lemma {:induction false} ChainKeepsHeader(m: Message, hops: seq<Hop>, key: string)
    requires !IsDlqKey(key)
    ensures FirstHeader(Chain(m, hops).headers, key) == FirstHeader(m.headers, key)
  {
    if hops != [] {
      var front, h := Chain(m, hops[..|hops| - 1]), hops[|hops| - 1];
      ChainKeepsHeader(m, hops[..|hops| - 1], key);
      var added := Provenance(front, h.err, h.attempts, h.timestamp);
      FirstHeaderAppend(front.headers, added, key);
      ProvenanceIsDlq(front, h, key);
      hide Provenance, IsDlqKey;
      NoSuchHeader(added, key);
      if Absent(front.headers, key) {
        NoSuchHeader(front.headers, key);
      }
    }
  }

  lemma ProvenanceIsDlq(m: Message, h: Hop, key: string)
    requires !IsDlqKey(key)
    ensures Absent(Provenance(m, h.err, h.attempts, h.timestamp), key)
  {
    assert forall x | x in Provenance(m, h.err, h.attempts, h.timestamp) :: IsDlqKey(x.key);
  }

  lemma {:induction false} NoSuchHeader(headers: seq<Header>, key: string)
    requires Absent(headers, key)
    ensures FirstHeader(headers, key) == ""
  {
    if headers != [] {
      NoSuchHeader(headers[1..], key);
    }
  }

  /** The provenance that hop `i` wrote is still where it wrote it and names the message that failed there. */
  ghost predicate RecordsHop(headers: seq<Header>, at: nat, m: Message, h: Hop) {
    && at + 6 <= |headers|
    && forall j | 0 <= j < 6 :: headers[at + j] == Provenance(m, h.err, h.attempts, h.timestamp)[j]
  }

  lemma {:induction false} ChainTrail(m: Message, hops: seq<Hop>, i: nat)
    requires i < |hops|
    ensures RecordsHop(Chain(m, hops).headers, |m.headers| + 6 * i, Chain(m, hops[..i]), hops[i])
  {
    var n := |hops| - 1;
    var front := Chain(m, hops[..n]);
    var at := |m.headers| + 6 * i;
    ChainKeepsMessage(m, hops[..n]);
    var added := Provenance(front, hops[n].err, hops[n].attempts, hops[n].timestamp);
    assert Chain(m, hops).headers == front.headers + added;
    if i < n {
      ChainTrail(m, hops[..n], i);
      assert hops[..n][..i] == hops[..i];
    }
  }

  /** What six headers record of one failure. */
  datatype Failure = Failure(error: string, topic: string, partition: int, offset: int, attempts: int,
                             timestamp: string)

  const KEYS := ["dlq.error", "dlq.original.topic", "dlq.original.partition", "dlq.original.offset", "dlq.attempts",
                 "dlq.timestamp"]

  /** Six headers read back, if they have the right keys in the right order. */
  function ReadHop(headers: seq<Header>, at: nat): Option<Failure>
    requires at + 6 <= |headers|
  {
    var h := headers[at..at + 6];
    if [h[0].key, h[1].key, h[2].key, h[3].key, h[4].key, h[5].key] != KEYS then None
    else
      match (ParseDecimal(h[2].value), ParseDecimal(h[3].value), ParseDecimal(h[4].value))
      case (Some(p), Some(o), Some(n)) => Some(Failure(h[0].value, h[1].value, p, o, n, h[5].value))
      case _ => None
  }

  /** Every hop's failure is recoverable from the final message: the error, the message that failed, the attempts made
      and the time. */
  lemma TrailRoundTrip(m: Message, hops: seq<Hop>, i: nat)
    requires i < |hops|
    ensures var at, failed, h := |m.headers| + 6 * i, Chain(m, hops[..i]), hops[i];
            && at + 6 <= |Chain(m, hops).headers|
            && ReadHop(Chain(m, hops).headers, at)
               == Some(Failure(h.err, failed.topic, failed.partition, failed.offset, h.attempts, h.timestamp))
  {
    hide Chain, ReadHop, Provenance;
    ChainTrail(m, hops, i);
    ReadBack(Chain(m, hops).headers, |m.headers| + 6 * i, Chain(m, hops[..i]), hops[i]);
  }

  lemma ReadBack(headers: seq<Header>, at: nat, m: Message, h: Hop)
    requires RecordsHop(headers, at, m, h)
    ensures ReadHop(headers, at) == Some(Failure(h.err, m.topic, m.partition, m.offset, h.attempts, h.timestamp))
  {
    var p := Provenance(m, h.err, h.attempts, h.timestamp);
    assert headers[at..at + 6] == p;
    DecimalRoundTrip(m.partition);
    DecimalRoundTrip(m.offset);
    DecimalRoundTrip(h.attempts);
  }

  /** A dead letter goes to the DLQ topic with the failed message's key and value; its headers are the message's own and
      six more, which tell the failure. */
  lemma LetterReadsBack(topic: string, m: Message, err: string, attempts: int, timestamp: string)
    ensures var letter, n := DeadLetter(topic, m, err, attempts, timestamp), |m.headers|;
            && letter.topic == topic && letter.key == m.key && letter.value == m.value
            && |letter.headers| == n + 6 && letter.headers[..n] == m.headers
            && ReadHop(letter.headers, n) == Some(Failure(err, m.topic, m.partition, m.offset, attempts, timestamp))
  {
    var letter := DeadLetter(topic, m, err, attempts, timestamp);
    ReadBack(letter.headers, |m.headers|, m, Hop(topic, err, attempts, timestamp, 0, 0));
  }

  lemma {:induction false} FirstProvenanceWins(m: Message, hops: seq<Hop>, key: string)
    requires hops != [] && IsDlqKey(key)
    requires forall h | h in m.headers :: !IsDlqKey(h.key)
    requires exists h :: h in Provenance(m, hops[0].err, hops[0].attempts, hops[0].timestamp) && h.key == key
    ensures FirstHeader(Chain(m, hops).headers, key)
            == FirstHeader(Provenance(m, hops[0].err, hops[0].attempts, hops[0].timestamp), key)
    ensures !Absent(Chain(m, hops).headers, key)
  {
    var n := |hops| - 1;
    var front := Chain(m, hops[..n]);
    var added := Provenance(front, hops[n].err, hops[n].attempts, hops[n].timestamp);
    FirstHeaderAppend(front.headers, added, key);
    if n == 0 {
      assert hops[..0] == [];
      var h :| h in added && h.key == key;
      assert h in front.headers + added;
    } else {
      FirstProvenanceWins(m, hops[..n], key);
      var h :| h in front.headers && h.key == key;
      assert h in front.headers + added;
    }
  }

  /** However often a message is dead-lettered, the first `dlq.original.*` headers lead back to its source. */
  lemma OriginRoundTrip(m: Message, hops: seq<Hop>)
    requires hops != []
    requires forall h | h in m.headers :: !IsDlqKey(h.key)
    ensures var headers := Chain(m, hops).headers;
            && FirstHeader(headers, ORIGINAL_TOPIC) == m.topic
            && ParseDecimal(FirstHeader(headers, ORIGINAL_PARTITION)) == Some(m.partition)
            && ParseDecimal(FirstHeader(headers, ORIGINAL_OFFSET)) == Some(m.offset)
  {
    var first := Provenance(m, hops[0].err, hops[0].attempts, hops[0].timestamp);
    assert first[1] in first && first[2] in first && first[3] in first;
    FirstProvenanceWins(m, hops, ORIGINAL_TOPIC);
    FirstProvenanceWins(m, hops, ORIGINAL_PARTITION);
    FirstProvenanceWins(m, hops, ORIGINAL_OFFSET);
    DecimalRoundTrip(m.partition);
    DecimalRoundTrip(m.offset);
    assert FirstHeader(first, ORIGINAL_TOPIC) == FirstHeader(first[1..], ORIGINAL_TOPIC);
    assert FirstHeader(first, ORIGINAL_PARTITION) == FirstHeader(first[1..][1..], ORIGINAL_PARTITION);
    assert FirstHeader(first, ORIGINAL_OFFSET) == FirstHeader(first[1..][1..], ORIGINAL_OFFSET)
        == FirstHeader(first[1..][1..][1..], ORIGINAL_OFFSET);
  }
}
