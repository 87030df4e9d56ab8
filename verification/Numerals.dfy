/** Decimal numerals as printed by `%d`, and the message identifier built from them. */
module Numerals {
  import opened Wrappers

  function Digit(d: nat): char
    requires d < 10
  {
    '0' + d as char
  }

  predicate IsDigit(c: char) {
    '0' <= c <= '9'
  }

  function Digits(n: nat): string {
    if n < 10 then [Digit(n)] else Digits(n / 10) + [Digit(n % 10)]
  }

  function Decimal(n: int): string {
    if n < 0 then "-" + Digits(-n) else Digits(n)
  }

  function ParseDigits(s: string): Option<nat> {
    if s == [] then None
    else
      var last := s[|s| - 1];
      if !IsDigit(last) then None
      else
        var d := (last - '0') as nat;
        if |s| == 1 then Some(d)
        else
          match ParseDigits(s[..|s| - 1])
          case None => None
          case Some(high) => Some(10 * high + d)
  }

  function ParseDecimal(s: string): Option<int> {
    if s != [] && s[0] == '-' then
      match ParseDigits(s[1..])
      case None => None
      case Some(n) => var m: int := n; Some(-m)
    else
      ParseDigits(s)
  }

  lemma {:induction false} DigitsRoundTrip(n: nat)
    ensures Digits(n) != [] && ParseDigits(Digits(n)) == Some(n)
    ensures forall c | c in Digits(n) :: IsDigit(c)
  {
    if n >= 10 {
      DigitsRoundTrip(n / 10);
      assert Digits(n)[..|Digits(n)| - 1] == Digits(n / 10);
    }
  }

  lemma DecimalRoundTrip(n: int)
    ensures ParseDecimal(Decimal(n)) == Some(n)
    ensures '/' !in Decimal(n)
  {
    if n < 0 {
      DigitsRoundTrip(-n);
      assert Decimal(n)[1..] == Digits(-n);
    } else {
      DigitsRoundTrip(n);
      assert IsDigit(Digits(n)[0]);
    }
  }

  /** Numerals are canonical: digits without a leading zero, except for zero itself, after a minus sign exactly for the
      negative numbers. */
  predicate Canonical(s: string) {
    s != [] && (forall c | c in s :: IsDigit(c)) && (s[0] == '0' ==> |s| == 1)
  }

  lemma {:induction false} DigitsCanonical(n: nat)
    ensures Canonical(Digits(n)) && (Digits(n)[0] == '0' ==> n == 0)
  {
    if n >= 10 {
      DigitsCanonical(n / 10);
    }
  }

  lemma DecimalCanonical(n: int)
    ensures n >= 0 ==> Canonical(Decimal(n))
    ensures n < 0 ==> Decimal(n)[0] == '-' && Canonical(Decimal(n)[1..]) && Decimal(n)[1] != '0'
  {
    DigitsCanonical(if n < 0 then -n else n);
  }

  /** So the numeral of a number is the only canonical one that parses to it. */
  lemma {:induction false} DigitsUnique(s: string)
    requires Canonical(s)
    ensures ParseDigits(s).Some? && Digits(ParseDigits(s).value) == s && (s[0] != '0' ==> ParseDigits(s).value > 0)
    decreases |s|
  {
    var front, last := s[..|s| - 1], s[|s| - 1];
    assert last in s && s == front + [last];
    if front != [] {
      assert Canonical(front) && front[0] == s[0] by {
        assert forall c | c in front :: c in s;
      }
      DigitsUnique(front);
      hide Canonical;
      var high, d: nat := ParseDigits(front).value, (last - '0') as nat;
      assert high > 0 && ParseDigits(s) == Some(10 * high + d);
      assert (10 * high + d) / 10 == high && (10 * high + d) % 10 == d;
    }
  }

  /** The name under which the consumer logs a message. */
  function MessageId(topic: string, partition: int, offset: int): string {
    topic + "/" + Decimal(partition) + "/" + Decimal(offset)
  }

  function SplitAtLast(s: string, c: char): Option<(string, string)> {
    if s == [] then None
    else
      var front, last := s[..|s| - 1], s[|s| - 1];
      if last == c then Some((front, ""))
      else
        match SplitAtLast(front, c)
        case None => None
        case Some((a, b)) => Some((a, b + [last]))
  }

  function ParseMessageId(id: string): Option<(string, int, int)> {
    match SplitAtLast(id, '/')
    case None => None
    case Some((rest, offset)) =>
      match SplitAtLast(rest, '/')
      case None => None
      case Some((topic, partition)) =>
        match (ParseDecimal(partition), ParseDecimal(offset))
        case (Some(p), Some(o)) => Some((topic, p, o))
        case _ => None
  }

  lemma {:induction false} SplitRecovers(a: string, c: char, b: string)
    requires c !in b
    ensures SplitAtLast(a + [c] + b, c) == Some((a, b))
  {
    var s := a + [c] + b;
    if b == [] {
      assert s[..|s| - 1] == a;
    } else {
      var b' := b[..|b| - 1];
      assert s[..|s| - 1] == a + [c] + b';
      SplitRecovers(a, c, b');
      assert b == b' + [s[|s| - 1]];
    }
  }

  /** It begins with the topic and a slash and ends with a slash and the offset. */
  lemma MessageIdShape(topic: string, partition: int, offset: int)
    ensures var id, end := MessageId(topic, partition, offset), "/" + Decimal(offset);
            topic + "/" <= id && |end| <= |id| && id[|id| - |end|..] == end
  {
    hide Decimal;
    var p, o := Decimal(partition), Decimal(offset);
    assert topic + "/" + p + "/" + o == (topic + "/") + (p + "/" + o) == (topic + "/" + p) + ("/" + o);
  }

  /** The identifier can be taken apart again, whatever the topic contains. */
  lemma MessageIdRoundTrip(topic: string, partition: int, offset: int)
    ensures ParseMessageId(MessageId(topic, partition, offset)) == Some((topic, partition, offset))
  {
    DecimalRoundTrip(partition);
    DecimalRoundTrip(offset);
    var front := topic + "/" + Decimal(partition);
    assert MessageId(topic, partition, offset) == front + ['/'] + Decimal(offset);
    SplitRecovers(front, '/', Decimal(offset));
    assert front == topic + ['/'] + Decimal(partition);
    SplitRecovers(topic, '/', Decimal(partition));
  }

  lemma MessageIdInjective(t: string, p: int, o: int, t': string, p': int, o': int)
    requires MessageId(t, p, o) == MessageId(t', p', o')
    ensures t == t' && p == p' && o == o'
  {
    MessageIdRoundTrip(t, p, o);
    MessageIdRoundTrip(t', p', o');
  }
}
