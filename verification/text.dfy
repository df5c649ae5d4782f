/**
 * Character-level building blocks shared by the JSON encoder and by Python's
 * `str()`: decimal and hexadecimal digits, and `sep.join(parts)`.
 */
module Text {

  predicate IsDigit(c: char) {
    '0' <= c <= '9'
  }

  predicate AllDigits(s: string) {
    forall i :: 0 <= i < |s| ==> IsDigit(s[i])
  }

  function DigitChar(d: nat): (c: char)
    requires d < 10
    ensures IsDigit(c) && c as int - '0' as int == d
  {
    ('0' as int + d) as char
  }

  /** The decimal digits of `n` without leading zeros, as Python's `str(n)` writes them. */
  function NatToDecimal(n: nat): (s: string)
    ensures |s| >= 1 && AllDigits(s)
    ensures s[0] == '0' <==> n == 0
    ensures s[0] == '0' ==> s == "0"
    decreases n
  {
    if n < 10 then [DigitChar(n)] else NatToDecimal(n / 10) + [DigitChar(n % 10)]
  }

  /** The number a string of decimal digits denotes: the reading side of NatToDecimal. */
  function DecimalValue(s: string): nat
    requires AllDigits(s)
  {
    if s == [] then 0 else 10 * DecimalValue(s[..|s| - 1]) + (s[|s| - 1] as int - '0' as int)
  }

  lemma {:induction false} DecimalRoundTrip(n: nat)
    ensures DecimalValue(NatToDecimal(n)) == n
    decreases n
  {
    if n >= 10 {
      var s := NatToDecimal(n);
      assert s[..|s| - 1] == NatToDecimal(n / 10);
      DecimalRoundTrip(n / 10);
    }
  }

  /** A numeral that starts with a non-zero digit, or is the single digit zero. */
  predicate NoLeadingZero(s: string) {
    |s| >= 1 && (s[0] == '0' ==> |s| == 1)
  }

  /** Digits read back are the digits written, when they have no leading zero. */
  lemma {:induction false} DecimalCanonical(s: string)
    requires AllDigits(s) && NoLeadingZero(s)
    ensures NatToDecimal(DecimalValue(s)) == s
    decreases |s|
  {
    if |s| > 1 {
      var p := s[..|s| - 1];
      assert p[0] == s[0];
      LeadingDigitPositive(p);
      DecimalCanonical(p);
      assert s == p + [s[|s| - 1]];
    }
  }

  lemma {:induction false} LeadingDigitPositive(s: string)
    requires AllDigits(s) && |s| >= 1 && s[0] != '0'
    ensures DecimalValue(s) >= 1
    decreases |s|
  {
    if |s| > 1 {
      var p := s[..|s| - 1];
      assert p[0] == s[0];
      LeadingDigitPositive(p);
    }
  }

  /** An optionally signed decimal numeral. */
  predicate IsDecimalNumeral(s: string) {
    && |s| >= 1
    && (s[0] == '-' ==> |s| >= 2 && AllDigits(s[1..]))
    && (s[0] != '-' ==> AllDigits(s))
  }

  /** The numeral Python writes: no leading zero, and no minus sign before zero. */
  predicate IsCanonicalNumeral(s: string) {
    && IsDecimalNumeral(s)
    && (s[0] == '-' ==> NoLeadingZero(s[1..]) && s[1] != '0')
    && (s[0] != '-' ==> NoLeadingZero(s))
  }

  /** The integer an optionally signed decimal numeral denotes. */
  function SignedDecimalValue(s: string): int
    requires IsDecimalNumeral(s)
  {
    if s[0] == '-' then -(DecimalValue(s[1..]) as int) else DecimalValue(s)
  }

  /**
   * Python's `str(i)` for an integer: a minus sign exactly before the digits
   * of a negative number, and no leading zero.
   */
  function IntToDecimal(i: int): (s: string)
    ensures IsCanonicalNumeral(s) && SignedDecimalValue(s) == i
    ensures s[0] == '-' <==> i < 0
    ensures forall c :: c in s ==> IsDigit(c) || c == '-'
  {
    if i < 0 then
      var digits := NatToDecimal(-i);
      DecimalRoundTrip(-i);
      assert ("-" + digits)[1..] == digits;
      "-" + digits
    else
      DecimalRoundTrip(i);
      NatToDecimal(i)
  }

  /** Every canonical numeral is the one `str` writes for its value: `str(int(s)) == s`. */
  lemma CanonicalNumeralUnique(s: string)
    requires IsCanonicalNumeral(s)
    ensures IntToDecimal(SignedDecimalValue(s)) == s
  {
    if s[0] == '-' {
      var digits := s[1..];
      LeadingDigitPositive(digits);
      DecimalCanonical(digits);
      assert s == "-" + digits;
    } else {
      DecimalCanonical(s);
    }
  }

  const HexDigits: string := "0123456789abcdef"

  /** Four lower-case hexadecimal digits, the `%04x` of a JSON `\u` escape. */
  function Hex4(n: nat): (s: string)
    requires n < 0x1_0000
    ensures |s| == 4 && forall c :: c in s ==> c in HexDigits
  {
    [HexDigits[n / 0x1000], HexDigits[n / 0x100 % 16], HexDigits[n / 0x10 % 16], HexDigits[n % 16]]
  }

  /** Two lower-case hexadecimal digits, the `%02x` of a Python `\x` escape. */
  function Hex2(n: nat): (s: string)
    requires n < 0x100
    ensures |s| == 2 && forall c :: c in s ==> c in HexDigits
  {
    [HexDigits[n / 16], HexDigits[n % 16]]
  }

  /** Python's `sep.join(parts)`. */
  function Join(parts: seq<string>, sep: string): string
  {
    if |parts| == 0 then ""
    else if |parts| == 1 then parts[0]
    else parts[0] + sep + Join(parts[1..], sep)
  }

  /** A character occurs in a join exactly when it occurs in a part, or in the separator between two parts. */
  lemma {:induction false} JoinChars(parts: seq<string>, sep: string, c: char)
    ensures c in Join(parts, sep) <==>
              (exists i :: 0 <= i < |parts| && c in parts[i]) || (|parts| > 1 && c in sep)
  {
    if |parts| > 1 {
      JoinChars(parts[1..], sep, c);
      if c in Join(parts[1..], sep) && c !in sep {
        var i :| 0 <= i < |parts[1..]| && c in parts[1..][i];
        assert c in parts[i + 1];
      }
      if exists i :: 0 <= i < |parts| && c in parts[i] {
        var i :| 0 <= i < |parts| && c in parts[i];
        if i > 0 {
          assert c in parts[1..][i - 1];
        }
      }
    }
  }

  /** How many times `c` occurs in `s`: Python's `s.count(c)`. */
  function Occurrences(s: string, c: char): nat
  {
    if s == [] then 0 else (if s[0] == c then 1 else 0) + Occurrences(s[1..], c)
  }

  lemma {:induction false} OccurrencesConcat(a: string, b: string, c: char)
    ensures Occurrences(a + b, c) == Occurrences(a, c) + Occurrences(b, c)
  {
    if a == [] {
      assert a + b == b;
    } else {
      assert (a + b)[0] == a[0] && (a + b)[1..] == a[1..] + b;
      OccurrencesConcat(a[1..], b, c);
    }
  }

  lemma {:induction false} OccurrencesAbsent(s: string, c: char)
    ensures Occurrences(s, c) == 0 <==> c !in s
  {
    if s != [] {
      OccurrencesAbsent(s[1..], c);
      assert s == [s[0]] + s[1..];
    }
  }

  /** The occurrences of `c` in all the parts together. */
  function OccurrencesIn(parts: seq<string>, c: char): nat
  {
    if parts == [] then 0 else Occurrences(parts[0], c) + OccurrencesIn(parts[1..], c)
  }

  function Sum(ns: seq<nat>): nat
  {
    if ns == [] then 0 else ns[0] + Sum(ns[1..])
  }

  /** Parts whose counts are `ns`, one by one, have `Sum(ns)` occurrences together. */
  lemma {:induction false} OccurrencesInSum(parts: seq<string>, ns: seq<nat>, c: char)
    requires |parts| == |ns|
    requires forall i :: 0 <= i < |parts| ==> Occurrences(parts[i], c) == ns[i]
    ensures OccurrencesIn(parts, c) == Sum(ns)
  {
    if parts != [] {
      OccurrencesInSum(parts[1..], ns[1..], c);
    }
  }

  /** Joining with a separator that lacks `c` adds no occurrence of `c`. */
  lemma {:induction false} JoinOccurrences(parts: seq<string>, sep: string, c: char)
    requires c !in sep
    ensures Occurrences(Join(parts, sep), c) == OccurrencesIn(parts, c)
  {
    if |parts| == 1 {
      assert parts[1..] == [];
    } else if |parts| > 1 {
      JoinOccurrences(parts[1..], sep, c);
      OccurrencesConcat(parts[0], sep, c);
      OccurrencesConcat(parts[0] + sep, Join(parts[1..], sep), c);
      OccurrencesAbsent(sep, c);
    }
  }
}
