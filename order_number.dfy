/** Order numbers of the form `ORD-<date>-<sequence>` (generateOrderNumber in
    app/Services/OrderService.php): the decimal rendering of the sequence, its
    zero padding to four places, and the bounded search for a number that is
    not yet taken. */
module OrderNumbers {
  import opened Wrappers

  /** How many further sequence numbers the search tries before it gives up. */
  const MaxProbes: nat := 100

  /** The width the sequence is padded to with leading zeros. */
  const SequenceWidth: nat := 4

  predicate IsDigit(c: char)
  {
    '0' <= c <= '9'
  }

  predicate AllDigits(s: string)
  {
    forall i :: 0 <= i < |s| ==> IsDigit(s[i])
  }

  function DigitChar(d: nat): (c: char)
    requires d < 10
  {
    ('0' as int + d) as char
  }

  function DigitValue(c: char): (d: nat)
    requires IsDigit(c)
  {
    c as int - '0' as int
  }

  /** The decimal rendering of a number, as PHP's string conversion of an
      integer gives it (no leading zeros, by `DecimalStringNoLeadingZero`). */
  function DecimalString(n: nat): (s: string)
    ensures |s| >= 1 && AllDigits(s)
    decreases n
  {
    if n < 10 then [DigitChar(n)] else DecimalString(n / 10) + [DigitChar(n % 10)]
  }

  /** The number a string of digits denotes, leading zeros counting for nothing. */
  function ParseDecimal(s: string): (n: nat)
    requires AllDigits(s)
    decreases |s|
  {
    if s == [] then 0 else ParseDecimal(s[..|s| - 1]) * 10 + DigitValue(s[|s| - 1])
  }

  function Zeros(k: nat): (z: string)
    ensures |z| == k && AllDigits(z)
  {
    seq(k, _ => '0')
  }

  /** `str_pad($s, $width, '0', STR_PAD_LEFT)`: prepends zeros up to the width
      and never truncates a longer string. */
  function PadLeft(s: string, width: nat): (p: string)
  {
    if |s| >= width then s else Zeros(width - |s|) + s
  }

  /** What `str_pad` with `STR_PAD_LEFT` gives: the string itself at the end,
      zeros before it, and the width reached unless the string is longer. */
  lemma PadLeftLayout(s: string, width: nat)
    ensures var p := PadLeft(s, width);
      && |p| == (if |s| >= width then |s| else width)
      && p[|p| - |s|..] == s
      && forall i :: 0 <= i < |p| - |s| ==> p[i] == '0'
  {
  }

  /** The layout of an order number: the prefix, the date, a dash and the
      sequence. */
  lemma CandidateLayout(date: string, n: nat)
    ensures var c := Candidate(date, n);
      && |c| == 5 + |date| + |Sequence(n)|
      && c[..4] == "ORD-" && c[4..4 + |date|] == date && c[4 + |date|] == '-'
      && c[5 + |date|..] == Sequence(n)
  {
  }

  /** The sequence part of an order number. */
  function Sequence(n: nat): (s: string)
    ensures |s| >= SequenceWidth && AllDigits(s)
  {
    PadLeft(DecimalString(n), SequenceWidth)
  }

  /** The number the generator proposes for sequence `n` on a given date. */
  function Candidate(date: string, n: nat): (c: string)
  {
    "ORD-" + date + "-" + Sequence(n)
  }

  /** Where the search starts: one past the id of the latest order, or 1 when
      there is none. */
  function StartId(latestId: Option<nat>): (start: nat)
    ensures start >= 1
    ensures latestId.Some? ==> start > latestId.value
  {
    match latestId
    case None => 1
    case Some(id) => id + 1
  }

  /** Every one of the sequence numbers the search may try is taken. */
  ghost predicate Exhausted(date: string, start: nat, existing: set<string>)
  {
    forall id :: start <= id < start + MaxProbes ==> Candidate(date, id) in existing
  }

  /** What the search returns: the first free candidate among the tries, or,
      when every try is taken, the first candidate with the unique suffix
      appended (returned without a further check). */
  ghost predicate Generated(number: string, date: string, start: nat, existing: set<string>, uniq: string)
  {
    if Exhausted(date, start, existing) then
      number == Candidate(date, start) + "-" + uniq
    else
      number !in existing &&
      exists id :: start <= id < start + MaxProbes && number == Candidate(date, id) &&
        forall j :: start <= j < id ==> Candidate(date, j) in existing
  }

  /** `generateOrderNumber`: the latest order's id, today's date and
      `uniqid()` are inputs, and `existing` is a snapshot of the order
      numbers already stored. */
  method GenerateOrderNumber(latestId: Option<nat>, date: string, existing: set<string>, uniq: string)
    returns (number: string)
    ensures Generated(number, date, StartId(latestId), existing, uniq)
  {
    var start := StartId(latestId);
    var nextId := start;
    number := Candidate(date, nextId);
    var count := 0;
    var original := number;
    while number in existing && count < MaxProbes
      invariant 0 <= count <= MaxProbes
      invariant nextId == start + count
      invariant number == Candidate(date, nextId)
      invariant forall j :: start <= j < nextId ==> Candidate(date, j) in existing
      decreases MaxProbes - count
    {
      nextId := nextId + 1;
      number := Candidate(date, nextId);
      count := count + 1;
    }
    if count >= MaxProbes {
      number := original + "-" + uniq;
    } else {
      assert !Exhausted(date, start, existing);
    }
  }

  /** When the first candidate is free it is the one returned. */
  lemma GeneratedFirstFree(number: string, date: string, start: nat, existing: set<string>, uniq: string)
    requires Candidate(date, start) !in existing
    requires Generated(number, date, start, existing, uniq)
    ensures number == Candidate(date, start)
  {
    assert !Exhausted(date, start, existing);
    var id :| start <= id < start + MaxProbes && number == Candidate(date, id) &&
      forall j :: start <= j < id ==> Candidate(date, j) in existing;
  }

  /** The search has one possible outcome for given inputs: the free
      candidate it returns is the first free one. */
  lemma GeneratedUnique(n1: string, n2: string, date: string, start: nat, existing: set<string>, uniq: string)
    requires Generated(n1, date, start, existing, uniq)
    requires Generated(n2, date, start, existing, uniq)
    ensures n1 == n2
  {
    if !Exhausted(date, start, existing) {
      var i1 :| start <= i1 < start + MaxProbes && n1 == Candidate(date, i1) &&
        forall j :: start <= j < i1 ==> Candidate(date, j) in existing;
      var i2 :| start <= i2 < start + MaxProbes && n2 == Candidate(date, i2) &&
        forall j :: start <= j < i2 ==> Candidate(date, j) in existing;
    }
  }

  /** Rendering then reading a number gives the number back. */
  lemma {:induction false} ParseDecimalString(n: nat)
    ensures ParseDecimal(DecimalString(n)) == n
    decreases n
  {
    var s := DecimalString(n);
    if n < 10 {
      assert s[..0] == [];
    } else {
      assert s[..|s| - 1] == DecimalString(n / 10);
      ParseDecimalString(n / 10);
    }
  }

  /** The rendering has no leading zero: a number of two or more digits
      starts with a non-zero digit. */
  lemma {:induction false} DecimalStringNoLeadingZero(n: nat)
    ensures n >= 10 ==> DecimalString(n)[0] != '0'
    decreases n
  {
    if n >= 10 {
      assert DecimalString(n)[0] == DecimalString(n / 10)[0];
      if n / 10 >= 10 {
        DecimalStringNoLeadingZero(n / 10);
      } else {
        assert DecimalString(n / 10)[0] == DigitChar(n / 10);
      }
    }
  }

  lemma {:induction false} ParseZeros(k: nat)
    ensures ParseDecimal(Zeros(k)) == 0
  {
    if k > 0 {
      assert Zeros(k)[..k - 1] == Zeros(k - 1);
      ParseZeros(k - 1);
    }
  }

  /** Leading zeros do not change the value. */
  lemma {:induction false} ParseLeadingZeros(k: nat, s: string)
    requires AllDigits(s)
    ensures AllDigits(Zeros(k) + s) && ParseDecimal(Zeros(k) + s) == ParseDecimal(s)
    decreases |s|
  {
    var z := Zeros(k) + s;
    if s == [] {
      assert z == Zeros(k);
      ParseZeros(k);
    } else {
      assert z[..|z| - 1] == Zeros(k) + s[..|s| - 1];
      ParseLeadingZeros(k, s[..|s| - 1]);
    }
  }

  /** The padded sequence reads back as the sequence number. */
  lemma SequenceRoundTrip(n: nat)
    ensures AllDigits(Sequence(n)) && ParseDecimal(Sequence(n)) == n
  {
    var s := DecimalString(n);
    ParseDecimalString(n);
    if |s| < SequenceWidth {
      ParseLeadingZeros(SequenceWidth - |s|, s);
    }
  }

  /** Different sequence numbers give different order numbers on the same
      date, so the search never tries the same number twice. */
  lemma CandidateInjective(date: string, a: nat, b: nat)
    requires Candidate(date, a) == Candidate(date, b)
    ensures a == b
  {
    var prefix := "ORD-" + date + "-";
    assert Candidate(date, a)[|prefix|..] == Sequence(a);
    assert Candidate(date, b)[|prefix|..] == Sequence(b);
    SequenceRoundTrip(a);
    SequenceRoundTrip(b);
  }

  function Pow10(k: nat): (p: nat)
  {
    if k == 0 then 1 else 10 * Pow10(k - 1)
  }

  /** A number below `10^k` has at most `k` digits. */
  lemma {:induction false} DecimalStringLength(n: nat, k: nat)
    requires k >= 1 && n < Pow10(k)
    ensures |DecimalString(n)| <= k
    decreases k
  {
    if n >= 10 {
      assert k >= 2;
      DecimalStringLength(n / 10, k - 1);
    }
  }

  /** For an eight-digit date and a sequence up to 9999, the order number
      has the shape `ORD-\d{8}-\d{4}` that the unit tests match. */
  lemma CandidateShape(date: string, n: nat)
    requires |date| == 8 && AllDigits(date)
    requires n <= 9999
    ensures var c := Candidate(date, n);
      |c| == 17 && c[..4] == "ORD-" && c[12] == '-' &&
      AllDigits(c[4..12]) && AllDigits(c[13..])
  {
    assert Pow10(4) == 10000;
    DecimalStringLength(n, 4);
    var c := Candidate(date, n);
    assert |Sequence(n)| == 4;
    assert c[4..12] == date;
    assert c[13..] == Sequence(n);
  }
}
