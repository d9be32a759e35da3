/** Public identifiers (ids.py): 48 bits of time and 80 random bits, written as
    26 Crockford base-32 digits. */
module Ulids {
  import opened Prelude

  const ALPHABET := "0123456789ABCDEFGHJKMNPQRSTVWXYZ"
  const TIME_LIMIT: nat := 0x1_0000_0000_0000
  const RANDOM_LIMIT: nat := 0x1_0000_0000_0000_0000_0000
  const LENGTH: nat := 26

  datatype UlidError = TimestampOutOfRange

  // ---- digits ----

  newtype Digit = d: int | 0 <= d < 32

  function Power(n: nat): (r: nat)
    ensures r > 0
  {
    if n == 0 then 1 else 32 * Power(n - 1)
  }

  /** What a row of digits stands for, most significant first. */
  function Number(ds: seq<Digit>): nat {
    if ds == [] then 0 else 32 * Number(ds[..|ds| - 1]) + ds[|ds| - 1] as nat
  }

  lemma NumberSplits(ds: seq<Digit>, d: Digit)
    ensures Number(ds + [d]) == 32 * Number(ds) + d as nat
  {
    assert (ds + [d])[..|ds + [d]| - 1] == ds;
  }

  lemma ShiftOut(d: nat, place: nat, rest: nat, last: nat)
    ensures 32 * (d * place + rest) + last == d * (32 * place) + (32 * rest + last)
  {
  }

  /** The leading digit counts at its place. */
  lemma {:induction false} NumberPrepend(d: Digit, ds: seq<Digit>)
    ensures Number([d] + ds) == d as nat * Power(|ds|) + Number(ds)
    decreases |ds|
  {
    if ds == [] {
      assert [d][..0] == [] && [d] + ds == [d];
    } else {
      var n := |ds| - 1;
      var head, last := ds[..n], ds[n];
      assert ds == head + [last] && [d] + ds == ([d] + head) + [last];
      NumberPrepend(d, head);
      NumberSplits(head, last);
      NumberSplits([d] + head, last);
      ShiftOut(d as nat, Power(n), Number(head), last as nat);
    }
  }

  lemma {:induction false} NumberIsBounded(ds: seq<Digit>)
    ensures Number(ds) < Power(|ds|)
  {
    if ds != [] { NumberIsBounded(ds[..|ds| - 1]); }
  }

  /** A number still to be written, with the digits already written after it. */
  function Whole(value: nat, written: seq<Digit>): nat
    decreases |written|
  {
    if written == [] then value else Whole(32 * value + written[0] as nat, written[1..])
  }

  /** Moving the last digit over loses nothing. */
  lemma DigitTaken(value: nat, written: seq<Digit>)
    ensures Whole(value / 32, [(value % 32) as Digit] + written) == Whole(value, written)
  {
    assert ([(value % 32) as Digit] + written)[1..] == written;
  }

  lemma QuotientFits(value: nat, places: nat)
    requires value < Power(places + 1)
    ensures value / 32 < Power(places)
  {
  }

  lemma ShiftIn(value: nat, d: nat, place: nat)
    ensures (32 * value + d) * place == value * (32 * place) + d * place
  {
  }

  lemma {:induction false} WholeIsNumber(value: nat, written: seq<Digit>)
    ensures Whole(value, written) == value * Power(|written|) + Number(written)
    decreases |written|
  {
    if written != [] {
      var d, rest := written[0] as nat, written[1..];
      assert written == [written[0]] + rest;
      NumberPrepend(written[0], rest);
      WholeIsNumber(32 * value + d, rest);
      ShiftIn(value, d, Power(|rest|));
    }
  }

  /** Dictionary order of digit rows of one length. */
  predicate Below(a: seq<Digit>, b: seq<Digit>)
    requires |a| == |b|
  {
    a != [] && (a[0] < b[0] || (a[0] == b[0] && Below(a[1..], b[1..])))
  }

  lemma LeadingDigitDecides(d: nat, e: nat, place: nat, x: nat, y: nat)
    requires x < place && y < place
    ensures d * place + x < e * place + y <==> d < e || (d == e && x < y)
  {
    if d < e {
      assert (d + 1) * place <= e * place;
    } else if d > e {
      assert (e + 1) * place <= d * place;
    }
  }

  lemma LeadingDigit(ds: seq<Digit>)
    requires ds != []
    ensures Number(ds) == ds[0] as nat * Power(|ds| - 1) + Number(ds[1..])
    ensures Number(ds[1..]) < Power(|ds| - 1)
  {
    assert ds == [ds[0]] + ds[1..];
    NumberPrepend(ds[0], ds[1..]);
    NumberIsBounded(ds[1..]);
  }

  lemma {:induction false} BelowIsSmaller(a: seq<Digit>, b: seq<Digit>)
    requires |a| == |b|
    ensures Below(a, b) <==> Number(a) < Number(b)
  {
    if a != [] {
      BelowIsSmaller(a[1..], b[1..]);
      LeadingDigit(a);
      LeadingDigit(b);
      LeadingDigitDecides(a[0] as nat, b[0] as nat, Power(|a| - 1), Number(a[1..]), Number(b[1..]));
    }
  }

  // ---- characters ----

  function CharOf(d: Digit): char {
    ALPHABET[d]
  }

  function Spelled(ds: seq<Digit>): (s: string)
    ensures |s| == |ds|
  {
    seq(|ds|, i requires 0 <= i < |ds| => CharOf(ds[i]))
  }

  lemma SpelledPrepend(d: Digit, ds: seq<Digit>)
    ensures Spelled([d] + ds) == [CharOf(d)] + Spelled(ds)
  {
  }

  /** Character order of strings. */
  predicate Less(a: string, b: string) {
    if a == [] then b != []
    else if b == [] then false
    else a[0] < b[0] || (a[0] == b[0] && Less(a[1..], b[1..]))
  }

  /** The alphabet ascends, so digits compare like their characters. */
  lemma DigitsCompare(a: Digit, b: Digit)
    ensures CharOf(a) < CharOf(b) <==> a < b
    ensures CharOf(a) == CharOf(b) <==> a == b
  {
    assert forall i, j | 0 <= i < j < 32 :: ALPHABET[i] < ALPHABET[j];
  }

  lemma {:induction false} SpellingKeepsOrder(a: seq<Digit>, b: seq<Digit>)
    requires |a| == |b|
    ensures Less(Spelled(a), Spelled(b)) <==> Below(a, b)
  {
    if a != [] {
      assert Spelled(a)[1..] == Spelled(a[1..]) && Spelled(b)[1..] == Spelled(b[1..]);
      SpellingKeepsOrder(a[1..], b[1..]);
      DigitsCompare(a[0], b[0]);
    }
  }

  // ---- identifiers ----

  function Packed(timestamp: nat, random: nat): nat {
    timestamp * RANDOM_LIMIT + random
  }

  /** 26 digits spell a number. */
  ghost predicate Writes(id: string, number: nat) {
    exists ds: seq<Digit> :: |ds| == LENGTH && id == Spelled(ds) && Number(ds) == number
  }

  /** The identifier spells, in 26 digits, exactly its time and random bits. */
  ghost predicate Encodes(id: string, timestamp: nat, random: nat) {
    Writes(id, Packed(timestamp, random))
  }

  /** 26 digits hold 130 bits: the 128-bit value fits. */
  lemma PackedFits(timestamp: nat, random: nat)
    requires timestamp < TIME_LIMIT && random < RANDOM_LIMIT
    ensures Packed(timestamp, random) < Power(LENGTH)
  {
    assert Power(5) == 0x200_0000;
    assert Power(10) == 0x200_0000 * 0x200_0000;
    assert Power(15) == 0x200_0000 * 0x200_0000 * 0x200_0000;
    assert Power(20) == 0x200_0000 * 0x200_0000 * 0x200_0000 * 0x200_0000;
    assert Power(25) == 0x200_0000 * 0x200_0000 * 0x200_0000 * 0x200_0000 * 0x200_0000;
    assert (timestamp + 1) * RANDOM_LIMIT <= TIME_LIMIT * RANDOM_LIMIT;
  }

  /** `new_ulid` for a given time and given random bits. */
  method NewUlid(timestamp: int, random: nat) returns (r: Result<string, UlidError>)
    requires random < RANDOM_LIMIT
    ensures r.Failure? <==> timestamp < 0 || timestamp >= TIME_LIMIT
    ensures r.Success? ==> |r.value| == LENGTH && Encodes(r.value, timestamp, random)
  {
    if timestamp < 0 || timestamp >= TIME_LIMIT { return Failure(TimestampOutOfRange); }
    PackedFits(timestamp, random);
    var id := WriteDigits(timestamp * RANDOM_LIMIT + random);
    r := Success(id);
  }

  /** The digit loop, last digit first. */
  method WriteDigits(number: nat) returns (id: string)
    requires number < Power(LENGTH)
    ensures |id| == LENGTH && Writes(id, number)
  {
    var value: nat := number;
    var encoded := new char[LENGTH](_ => '0');
    ghost var digits: seq<Digit> := [];
    for index := LENGTH downto 0
      invariant |digits| == LENGTH - index && encoded[index..] == Spelled(digits)
      invariant Whole(value, digits) == number && value < Power(index)
    {
      var digit := value % 32;
      DigitTaken(value, digits);
      QuotientFits(value, index);
      ghost var rest := encoded[index + 1..];
      encoded[index] := CharOf(digit as Digit);
      assert encoded[index..] == [CharOf(digit as Digit)] + rest;
      SpelledPrepend(digit as Digit, digits);
      digits := [digit as Digit] + digits;
      value := value / 32;
    }
    WholeIsNumber(value, digits);
    assert encoded[0..] == encoded[..];
    id := encoded[..];
  }

  /** Decoding loses nothing: an identifier determines its time and random bits
      and is determined by them. And identifiers sort by time first: an earlier
      millisecond comes first whatever the random bits. */
  lemma UlidsSortByTime(a: string, b: string, t: nat, x: nat, u: nat, y: nat)
    requires Encodes(a, t, x) && Encodes(b, u, y) && x < RANDOM_LIMIT && y < RANDOM_LIMIT
    ensures a == b <==> t == u && x == y
    ensures Less(a, b) <==> t < u || (t == u && x < y)
  {
    var ds: seq<Digit> :| |ds| == LENGTH && a == Spelled(ds) && Number(ds) == Packed(t, x);
    var es: seq<Digit> :| |es| == LENGTH && b == Spelled(es) && Number(es) == Packed(u, y);
    SpellingKeepsOrder(ds, es);
    SpellingKeepsOrder(es, ds);
    BelowIsSmaller(ds, es);
    BelowIsSmaller(es, ds);
    LeadingDigitDecides(t, u, RANDOM_LIMIT, x, y);
    LeadingDigitDecides(u, t, RANDOM_LIMIT, y, x);
    LessIsIrreflexive(a);
    EqualNumbers(ds, es);
  }

  lemma {:induction false} LessIsIrreflexive(a: string)
    ensures !Less(a, a)
  {
    if a != [] { LessIsIrreflexive(a[1..]); }
  }

  lemma {:induction false} EqualNumbers(ds: seq<Digit>, es: seq<Digit>)
    requires |ds| == |es|
    ensures Number(ds) == Number(es) <==> ds == es
  {
    if ds != [] {
      var n := |ds| - 1;
      EqualNumbers(ds[..n], es[..n]);
      assert ds == ds[..n] + [ds[n]] && es == es[..n] + [es[n]];
    }
  }
}
