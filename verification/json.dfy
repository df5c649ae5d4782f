/**
 * JSON values as `json.load` produces them from the configuration file, and
 * the compact text `json.dumps(value, separators=(',', ':'))` gives for them
 * (Python's default `ensure_ascii=True`: every character outside printable
 * ASCII is written as a `\u` escape).
 */
module Json {
  import opened Text

  datatype Value =
    | Null
    | Bool(b: bool)
    | Num(n: int)
    | Str(s: string)
    | Array(items: seq<Value>)
    | Object(fields: seq<(string, Value)>)

  /** Printable ASCII, space to tilde: the only characters `ensure_ascii` leaves unescaped. */
  predicate IsPrintableAscii(c: char) {
    0x20 <= c as int <= 0x7E
  }

  predicate AllPrintableAscii(s: string) {
    forall c :: c in s ==> IsPrintableAscii(c)
  }

  /** How the encoder writes one character of a string. */
  function EscapeChar(c: char): string
  {
    var n := c as int;
    if c == '"' then "\\\""
    else if c == '\\' then "\\\\"
    else if n == 0x08 then "\\b"
    else if n == 0x0C then "\\f"
    else if c == '\n' then "\\n"
    else if c == '\r' then "\\r"
    else if c == '\t' then "\\t"
    else if 0x20 <= n <= 0x7E then [c]
    else if n < 0x1_0000 then "\\u" + Hex4(n)
    else
      // a character beyond the Basic Multilingual Plane becomes a UTF-16 surrogate pair
      var v := n - 0x1_0000;
      "\\u" + Hex4(0xD800 + v / 0x400) + "\\u" + Hex4(0xDC00 + v % 0x400)
  }

  function Escape(s: string): string
  {
    if s == [] then "" else EscapeChar(s[0]) + Escape(s[1..])
  }

  /** A JSON string literal. */
  function Quote(s: string): string
  {
    "\"" + Escape(s) + "\""
  }

  /** `json.dumps(v, separators=(',', ':'))`: no space after commas or colons, fields in their given order. */
  function Dumps(v: Value): (s: string)
    ensures |s| >= 1
    ensures s[0] == '"' <==> v.Str?
    ensures s[0] == '[' <==> v.Array?
    ensures s[0] == '{' <==> v.Object?
    decreases v
  {
    match v
    case Null => "null"
    case Bool(b) => if b then "true" else "false"
    case Num(n) => IntToDecimal(n)
    case Str(s) => Quote(s)
    case Array(items) =>
      "[" + Join(seq(|items|, i requires 0 <= i < |items| => Dumps(items[i])), ",") + "]"
    case Object(fields) =>
      "{" + Join(seq(|fields|, i requires 0 <= i < |fields| => Quote(fields[i].0) + ":" + Dumps(fields[i].1)), ",") + "}"
  }

  /** The spaces in the value's strings, field names included. */
  function StringSpaces(v: Value): nat
    decreases v
  {
    match v
    case Str(s) => Occurrences(s, ' ')
    case Array(items) => Sum(seq(|items|, i requires 0 <= i < |items| => StringSpaces(items[i])))
    case Object(fields) =>
      Sum(seq(|fields|, i requires 0 <= i < |fields| => Occurrences(fields[i].0, ' ') + StringSpaces(fields[i].1)))
    case _ => 0
  }

  lemma EscapeCharShape(c: char)
    ensures AllPrintableAscii(EscapeChar(c))
    ensures Occurrences(EscapeChar(c), ' ') == if c == ' ' then 1 else 0
  {
    var n := c as int;
    var e := EscapeChar(c);
    if c == '"' {
      assert e == "\\\"";
    } else if c == '\\' {
      assert e == "\\\\";
    } else if n == 0x08 {
      assert e == "\\b";
    } else if n == 0x0C {
      assert e == "\\f";
    } else if c == '\n' {
      assert e == "\\n";
    } else if c == '\r' {
      assert e == "\\r";
    } else if c == '\t' {
      assert e == "\\t";
    } else if 0x20 <= n <= 0x7E {
      assert e == [c];
      assert e[1..] == [];
    } else if n < 0x1_0000 {
      HexShape(Hex4(n));
      assert e == "\\u" + Hex4(n);
    } else {
      var v := n - 0x1_0000;
      HexShape(Hex4(0xD800 + v / 0x400));
      HexShape(Hex4(0xDC00 + v % 0x400));
      assert e == "\\u" + Hex4(0xD800 + v / 0x400) + "\\u" + Hex4(0xDC00 + v % 0x400);
    }
    if c != ' ' {
      OccurrencesAbsent(e, ' ');
    }
  }

  lemma HexShape(h: string)
    requires forall c :: c in h ==> c in HexDigits
    ensures AllPrintableAscii(h) && ' ' !in h
  {
    forall c | c in h
      ensures IsPrintableAscii(c) && c != ' '
    {
      var i :| 0 <= i < |HexDigits| && HexDigits[i] == c;
    }
  }

  /** An escaped string is printable ASCII and has exactly the spaces of the original. */
  lemma {:induction false} EscapeShape(s: string)
    ensures AllPrintableAscii(Escape(s))
    ensures Occurrences(Escape(s), ' ') == Occurrences(s, ' ')
  {
    if s != [] {
      EscapeCharShape(s[0]);
      EscapeShape(s[1..]);
      OccurrencesConcat(EscapeChar(s[0]), Escape(s[1..]), ' ');
    }
  }

  /** A string literal is printable ASCII and has exactly the spaces of the string. */
  lemma QuoteShape(s: string)
    ensures AllPrintableAscii(Quote(s))
    ensures Occurrences(Quote(s), ' ') == Occurrences(s, ' ')
  {
    EscapeShape(s);
    OccurrencesConcat("\"", Escape(s), ' ');
    OccurrencesConcat("\"" + Escape(s), "\"", ' ');
  }

  /** Printable parts joined with commas stay printable, and have the spaces of the parts. */
  lemma CommaJoinShape(parts: seq<string>)
    requires forall i :: 0 <= i < |parts| ==> AllPrintableAscii(parts[i])
    ensures AllPrintableAscii(Join(parts, ","))
    ensures Occurrences(Join(parts, ","), ' ') == OccurrencesIn(parts, ' ')
  {
    forall c | c in Join(parts, ",")
      ensures IsPrintableAscii(c)
    {
      JoinChars(parts, ",", c);
    }
    JoinOccurrences(parts, ",", ' ');
  }

  /** Bracketing a text with two non-space delimiters adds no space. */
  lemma Bracketed(open: string, t: string, close: string)
    requires open in {"[", "{"} && close in {"]", "}"}
    requires AllPrintableAscii(t)
    ensures AllPrintableAscii(open + t + close)
    ensures Occurrences(open + t + close, ' ') == Occurrences(t, ' ')
  {
    OccurrencesConcat(open, t, ' ');
    OccurrencesConcat(open + t, close, ' ');
  }

  /** An array is printable, with the spaces of its items, when each item's text is. */
  lemma ArrayShape(items: seq<Value>)
    requires forall i :: 0 <= i < |items| ==>
               AllPrintableAscii(Dumps(items[i])) && Occurrences(Dumps(items[i]), ' ') == StringSpaces(items[i])
    ensures AllPrintableAscii(Dumps(Array(items)))
    ensures Occurrences(Dumps(Array(items)), ' ') == StringSpaces(Array(items))
  {
    var parts := seq(|items|, i requires 0 <= i < |items| => Dumps(items[i]));
    var counts := seq(|items|, i requires 0 <= i < |items| => StringSpaces(items[i]));
    CommaJoinShape(parts);
    OccurrencesInSum(parts, counts, ' ');
    Bracketed("[", Join(parts, ","), "]");
    assert Dumps(Array(items)) == "[" + Join(parts, ",") + "]";
  }

  /** One field `"name":value` is printable, with the spaces of its name and its value. */
  lemma FieldShape(name: string, value: Value)
    requires AllPrintableAscii(Dumps(value)) && Occurrences(Dumps(value), ' ') == StringSpaces(value)
    ensures AllPrintableAscii(Quote(name) + ":" + Dumps(value))
    ensures Occurrences(Quote(name) + ":" + Dumps(value), ' ') == Occurrences(name, ' ') + StringSpaces(value)
  {
    QuoteShape(name);
    OccurrencesConcat(Quote(name), ":", ' ');
    OccurrencesConcat(Quote(name) + ":", Dumps(value), ' ');
  }

  /** An object is printable, with the spaces of its names and values, when each value's text is. */
  lemma ObjectShape(fields: seq<(string, Value)>)
    requires forall i :: 0 <= i < |fields| ==>
               AllPrintableAscii(Dumps(fields[i].1)) && Occurrences(Dumps(fields[i].1), ' ') == StringSpaces(fields[i].1)
    ensures AllPrintableAscii(Dumps(Object(fields)))
    ensures Occurrences(Dumps(Object(fields)), ' ') == StringSpaces(Object(fields))
  {
    var parts := seq(|fields|, i requires 0 <= i < |fields| => Quote(fields[i].0) + ":" + Dumps(fields[i].1));
    var counts := seq(|fields|, i requires 0 <= i < |fields| => Occurrences(fields[i].0, ' ') + StringSpaces(fields[i].1));
    forall i | 0 <= i < |fields|
      ensures AllPrintableAscii(parts[i]) && Occurrences(parts[i], ' ') == counts[i]
    {
      FieldShape(fields[i].0, fields[i].1);
    }
    CommaJoinShape(parts);
    OccurrencesInSum(parts, counts, ' ');
    Bracketed("{", Join(parts, ","), "}");
    assert Dumps(Object(fields)) == "{" + Join(parts, ",") + "}";
  }

  /**
   * The encoder's output is printable ASCII throughout, so it has no tab and
   * no line break, and it has exactly as many spaces as the value's strings
   * have together: each string keeps its spaces, and no space is written
   * between tokens.
   */
  lemma {:induction false} DumpsShape(v: Value)
    ensures AllPrintableAscii(Dumps(v))
    ensures Occurrences(Dumps(v), ' ') == StringSpaces(v)
    decreases v
  {
    match v
    case Null =>
      OccurrencesAbsent(Dumps(v), ' ');
    case Bool(b) =>
      OccurrencesAbsent(Dumps(v), ' ');
    case Num(n) =>
      var t := IntToDecimal(n);
      forall c | c in t
        ensures IsPrintableAscii(c) && c != ' '
      {
      }
      OccurrencesAbsent(t, ' ');
    case Str(s) =>
      QuoteShape(s);
    case Array(items) =>
      forall i | 0 <= i < |items|
        ensures AllPrintableAscii(Dumps(items[i])) && Occurrences(Dumps(items[i]), ' ') == StringSpaces(items[i])
      {
        DumpsShape(items[i]);
      }
      ArrayShape(items);
    case Object(fields) =>
      forall i | 0 <= i < |fields|
        ensures AllPrintableAscii(Dumps(fields[i].1)) && Occurrences(Dumps(fields[i].1), ' ') == StringSpaces(fields[i].1)
      {
        DumpsShape(fields[i].1);
      }
      ObjectShape(fields);
  }
}
