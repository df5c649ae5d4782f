/**
 * The Python string conversions the client applies to configuration values:
 * `str(v)` (for the `cityid` cookie and the base URL in an f-string) and
 * `str.upper()` (for matching the HTTP method).
 */
module PyText {
  import opened Text
  import opened Json

  /** The quote `repr` puts around a string: double quotes only when that avoids escaping a single quote. */
  function ReprQuote(s: string): char
  {
    if '\'' in s && '"' !in s then '"' else '\''
  }

  function ReprEscapeChar(c: char, quote: char): string
  {
    if c == '\\' then "\\\\"
    else if c == quote then ['\\', quote]
    else if c == '\t' then "\\t"
    else if c == '\n' then "\\n"
    else if c == '\r' then "\\r"
    else if c as int < 0x20 || c as int == 0x7F then "\\x" + Hex2(c as int)
    else [c]
  }

  function ReprEscape(s: string, quote: char): string
  {
    if s == [] then "" else ReprEscapeChar(s[0], quote) + ReprEscape(s[1..], quote)
  }

  /** `repr(s)` of a string. */
  function StrRepr(s: string): string
  {
    var q := ReprQuote(s);
    [q] + ReprEscape(s, q) + [q]
  }

  /** `repr(v)`: the form a value takes inside a printed list or dict. */
  function PyRepr(v: Value): (s: string)
    ensures |s| >= 1
    ensures s[0] == '\'' || s[0] == '"' <==> v.Str?
    ensures s[0] == '[' <==> v.Array?
    ensures s[0] == '{' <==> v.Object?
    decreases v
  {
    match v
    case Null => "None"
    case Bool(b) => if b then "True" else "False"
    case Num(n) => IntToDecimal(n)
    case Str(s) => StrRepr(s)
    case Array(items) =>
      "[" + Join(seq(|items|, i requires 0 <= i < |items| => PyRepr(items[i])), ", ") + "]"
    case Object(fields) =>
      "{" + Join(seq(|fields|, i requires 0 <= i < |fields| => StrRepr(fields[i].0) + ": " + PyRepr(fields[i].1)), ", ") + "}"
  }

  /**
   * `str(v)`: a string is itself, every other value is its `repr`; an
   * integer is its canonical decimal numeral.
   */
  function PyStr(v: Value): (s: string)
    ensures v.Str? ==> s == v.s
    ensures v.Num? ==> IsCanonicalNumeral(s) && SignedDecimalValue(s) == v.n && (s[0] == '-' <==> v.n < 0)
  {
    if v.Str? then v.s else PyRepr(v)
  }

  /**
   * `c.upper()` for the characters whose upper case is ASCII: the letters a-z,
   * and the non-ASCII letters U+00DF, U+0131, U+017F and the Latin ligatures
   * U+FB00-U+FB06. Every other character is kept; Python maps some of those
   * to other non-ASCII characters, which leaves any comparison with an ASCII
   * word unchanged.
   */
  function UpperChar(c: char): (u: string)
    ensures |u| >= 1
  {
    var n := c as int;
    if 'a' <= c <= 'z' then [(n - 0x20) as char]
    else if n == 0xDF then "SS"
    else if n == 0x131 then "I"
    else if n == 0x17F then "S"
    else if n == 0xFB00 then "FF"
    else if n == 0xFB01 then "FI"
    else if n == 0xFB02 then "FL"
    else if n == 0xFB03 then "FFI"
    else if n == 0xFB04 then "FFL"
    else if n == 0xFB05 || n == 0xFB06 then "ST"
    else [c]
  }

  /** `s.upper()`, one character at a time: never shorter, and empty only for the empty string. */
  function Upper(s: string): (u: string)
    ensures |u| >= |s|
    ensures u == [] <==> s == []
  {
    if s == [] then "" else UpperChar(s[0]) + Upper(s[1..])
  }

  lemma {:induction false} UpperConcat(a: string, b: string)
    ensures Upper(a + b) == Upper(a) + Upper(b)
  {
    if a == [] {
      assert a + b == b;
    } else {
      assert (a + b)[0] == a[0] && (a + b)[1..] == a[1..] + b;
      UpperConcat(a[1..], b);
    }
  }

  /** Upper-casing works one character at a time. */
  lemma UpperStep(s: string)
    requires s != []
    ensures Upper(s) == UpperChar(s[0]) + Upper(s[1..])
    ensures |Upper(s)| >= 1
  {
  }

  /** A character whose upper case starts with a letter that no ligature starts with upper-cases to that letter alone. */
  lemma UpperCharHead(c: char, d: char)
    requires UpperChar(c)[0] == d
    requires 'A' <= d <= 'Z' && d != 'S' && d != 'F'
    ensures UpperChar(c) == [d]
    ensures c == d || c as int == d as int + 0x20 || (d == 'I' && c as int == 0x131)
  {
  }

  /** When the upper-cased text starts with a letter that no ligature starts with, so does the first character's. */
  lemma UpperHead(s: string, d: char, rest: string)
    requires Upper(s) == [d] + rest
    requires 'A' <= d <= 'Z' && d != 'S' && d != 'F'
    ensures s != [] && UpperChar(s[0]) == [d] && Upper(s[1..]) == rest
    ensures s[0] == d || s[0] as int == d as int + 0x20 || (d == 'I' && s[0] as int == 0x131)
  {
    assert Upper(s) != [];
    UpperStep(s);
    var u := UpperChar(s[0]);
    assert Upper(s)[0] == u[0] == d;
    UpperCharHead(s[0], d);
    assert rest == Upper(s)[1..] == Upper(s[1..]);
  }

  /** What `UpperChar` produces is already upper case. */
  lemma UpperCharFixed(c: char)
    ensures Upper(UpperChar(c)) == UpperChar(c)
  {
    var u := UpperChar(c);
    if |u| == 1 {
      assert Upper(u) == UpperChar(u[0]) + Upper([]);
    } else if |u| == 2 {
      assert Upper(u) == UpperChar(u[0]) + Upper(u[1..]);
      assert Upper(u[1..]) == UpperChar(u[1]) + Upper([]);
    } else {
      assert Upper(u) == UpperChar(u[0]) + Upper(u[1..]);
      assert Upper(u[1..]) == UpperChar(u[1]) + Upper(u[2..]);
      assert Upper(u[2..]) == UpperChar(u[2]) + Upper([]);
    }
  }

  /** Upper-casing twice is upper-casing once. */
  lemma {:induction false} UpperIdempotent(s: string)
    ensures Upper(Upper(s)) == Upper(s)
  {
    if s != [] {
      UpperConcat(UpperChar(s[0]), Upper(s[1..]));
      UpperCharFixed(s[0]);
      UpperIdempotent(s[1..]);
    }
  }
}
