/**
 * Python 3's `repr` of a string and of a pair of strings, which is how
 * lib/gitem/__main__.py prints each (name, address) pair of the "Emails"
 * listing. A string literal is quoted with `'` unless the text holds a `'` and
 * no `"`; backslash, the chosen quote, tab, newline and carriage return are
 * escaped, and the other Latin-1 control and non-printing characters become
 * `\xNN` with lower-case hexadecimal digits.
 *
 * The partner of the printer is a reader: `ScanLiteral` reads one literal
 * back and `ParsePair` reads a printed pair. The round trips below show that
 * the printed form loses nothing, so distinct pairs print as distinct lines.
 */
module Repr {
  import opened Values

  const HexDigits: string := "0123456789abcdef"

  /** The quote `repr` picks for `s`. */
  function QuoteFor(s: string): (q: char)
    ensures q == '"' <==> '\'' in s && '"' !in s
    ensures q == '\'' || q == '"'
  {
    if '\'' in s && '"' !in s then '"' else '\''
  }

  predicate IsQuote(q: char)
  {
    q == '\'' || q == '"'
  }

  /** The characters `repr` writes as `\xNN`: C0 controls, DEL, the C1 controls, no-break space and soft hyphen. */
  predicate HexEscaped(c: char)
  {
    (c as int < 0x20 && c != '\t' && c != '\n' && c != '\r') || (0x7f <= c as int <= 0xa0) || c as int == 0xad
  }

  function HexValue(d: char): (r: Option<int>)
    ensures r.Some? ==> 0 <= r.value < 16 && HexDigits[r.value] == d
  {
    if '0' <= d <= '9' then Some(d as int - '0' as int)
    else if 'a' <= d <= 'f' then Some(d as int - 'a' as int + 10)
    else None
  }

  lemma HexDigitValue(n: int)
    requires 0 <= n < 16
    ensures HexValue(HexDigits[n]) == Some(n)
  {
  }

  /** How one character of a string appears inside a literal quoted with `q`. */
  function EscapeChar(c: char, q: char): (r: string)
    requires IsQuote(q)
    ensures |r| >= 1 && (|r| == 1 <==> r == [c])
    ensures r == [c] <==> c != q && c != '\\' && c != '\t' && c != '\n' && c != '\r' && !HexEscaped(c)
    ensures q !in r[..1]
  {
    if c == q || c == '\\' then ['\\', c]
    else if c == '\t' then "\\t"
    else if c == '\n' then "\\n"
    else if c == '\r' then "\\r"
    else if HexEscaped(c) then ['\\', 'x', HexDigits[c as int / 16], HexDigits[c as int % 16]]
    else [c]
  }

  /** The text between the quotes of a literal for `s`. */
  function Escape(s: string, q: char): (r: string)
    requires IsQuote(q)
    ensures |r| >= |s|
    decreases |s|
  {
    if s == [] then [] else EscapeChar(s[0], q) + Escape(s[1..], q)
  }

  /** `repr(s)`. */
  function StrRepr(s: string): (r: string)
    ensures |r| >= 2 && r[0] == r[|r| - 1] == QuoteFor(s)
  {
    var q := QuoteFor(s);
    [q] + Escape(s, q) + [q]
  }

  /** `repr((name, address))`, that is `str((name, address))`. */
  function PairRepr(p: (string, string)): (r: string)
    ensures |r| >= 8 && r[0] == '(' && r[|r| - 1] == ')'
  {
    "(" + StrRepr(p.0) + ", " + StrRepr(p.1) + ")"
  }

  function Cons(c: char, o: Option<(string, string)>): Option<(string, string)>
  {
    if o.Some? then Some(([c] + o.value.0, o.value.1)) else None
  }

  /**
   * Reads the inside of a literal quoted with `q` up to its closing quote:
   * the text it denotes and what follows the closing quote.
   */
  function Scan(t: string, q: char): (r: Option<(string, string)>)
    requires IsQuote(q)
    decreases |t|
  {
    if t == [] then None
    else if t[0] == q then Some(([], t[1..]))
    else if t[0] != '\\' then Cons(t[0], Scan(t[1..], q))
    else if |t| < 2 then None
    else if t[1] == q || t[1] == '\\' then Cons(t[1], Scan(t[2..], q))
    else if t[1] == 't' then Cons('\t', Scan(t[2..], q))
    else if t[1] == 'n' then Cons('\n', Scan(t[2..], q))
    else if t[1] == 'r' then Cons('\r', Scan(t[2..], q))
    else if t[1] == 'x' && |t| >= 4 && HexValue(t[2]).Some? && HexValue(t[3]).Some? then
      Cons((16 * HexValue(t[2]).value + HexValue(t[3]).value) as char, Scan(t[4..], q))
    else None
  }

  /** Reads one quoted literal at the start of `t`: its text and the rest of `t`. */
  function ScanLiteral(t: string): (r: Option<(string, string)>)
    ensures r.Some? ==> |t| >= 2 && IsQuote(t[0])
  {
    if t != [] && IsQuote(t[0]) then Scan(t[1..], t[0]) else None
  }

  /** Reads back a printed pair. */
  function ParsePair(t: string): (r: Option<(string, string)>)
  {
    if t == [] || t[0] != '(' then None
    else
      match ScanLiteral(t[1..])
      case None => None
      case Some((a, rest)) =>
        if |rest| < 2 || rest[..2] != ", " then None
        else
          match ScanLiteral(rest[2..])
          case None => None
          case Some((b, tail)) => if tail == ")" then Some((a, b)) else None
  }

  lemma ScanHexChar(c: char, q: char, u: string)
    requires IsQuote(q) && HexEscaped(c)
    ensures Scan(['\\', 'x', HexDigits[c as int / 16], HexDigits[c as int % 16]] + u, q) == Cons(c, Scan(u, q))
  {
    var hi, lo := c as int / 16, c as int % 16;
    var t := ['\\', 'x', HexDigits[hi], HexDigits[lo]] + u;
    HexDigitValue(hi);
    HexDigitValue(lo);
    assert (16 * hi + lo) as char == c;
    assert t[4..] == u;
  }

  lemma ScanChar(c: char, q: char, u: string)
    requires IsQuote(q)
    ensures Scan(EscapeChar(c, q) + u, q) == Cons(c, Scan(u, q))
  {
    var t := EscapeChar(c, q) + u;
    if c == q || c == '\\' || c == '\t' || c == '\n' || c == '\r' {
      assert t[2..] == u;
    } else if HexEscaped(c) {
      ScanHexChar(c, q, u);
    } else {
      assert t[1..] == u;
    }
  }

  /** The inside of a literal reads back as its text, and the reader stops right after the closing quote. */
  lemma {:induction false} ScanEscaped(s: string, q: char, rest: string)
    requires IsQuote(q)
    ensures Scan(Escape(s, q) + [q] + rest, q) == Some((s, rest))
    decreases |s|
  {
    if s == [] {
      assert Escape(s, q) + [q] + rest == [q] + rest;
    } else {
      var tail := Escape(s[1..], q) + [q] + rest;
      assert Escape(s, q) + [q] + rest == EscapeChar(s[0], q) + tail;
      ScanChar(s[0], q, tail);
      ScanEscaped(s[1..], q, rest);
      assert [s[0]] + s[1..] == s;
    }
  }

  /** `repr` loses nothing: the reader recovers the string and leaves what follows the literal untouched. */
  lemma StrReprRoundTrip(s: string, rest: string)
    ensures ScanLiteral(StrRepr(s) + rest) == Some((s, rest))
  {
    var q := QuoteFor(s);
    var t := StrRepr(s) + rest;
    assert t[1..] == Escape(s, q) + [q] + rest;
    ScanEscaped(s, q, rest);
  }

  /** The pair reader takes a parenthesised, comma-separated pair of literals apart. */
  lemma ParseFramed(x: string, y: string, a: string, b: string)
    requires ScanLiteral(x + (", " + y + ")")) == Some((a, ", " + y + ")"))
    requires ScanLiteral(y + ")") == Some((b, ")"))
    ensures ParsePair("(" + x + ", " + y + ")") == Some((a, b))
  {
    var t := "(" + x + ", " + y + ")";
    var afterFirst := ", " + y + ")";
    assert t[1..] == x + afterFirst;
    assert afterFirst[..2] == ", " && afterFirst[2..] == y + ")";
  }

  /** A printed pair reads back as the pair. */
  lemma PairReprRoundTrip(p: (string, string))
    ensures ParsePair(PairRepr(p)) == Some(p)
  {
    StrReprRoundTrip(p.0, ", " + StrRepr(p.1) + ")");
    StrReprRoundTrip(p.1, ")");
    ParseFramed(StrRepr(p.0), StrRepr(p.1), p.0, p.1);
  }

  /** Distinct pairs print as distinct lines. */
  lemma PairReprInjective(p: (string, string), p': (string, string))
    requires PairRepr(p) == PairRepr(p')
    ensures p == p'
  {
    PairReprRoundTrip(p);
    PairReprRoundTrip(p');
  }

  /** The fixed examples: plain text in single quotes, an apostrophe switches to double quotes. */
  lemma ReprExamples()
    ensures StrRepr("ab") == "'ab'"
    ensures StrRepr("it's") == "\"it's\""
    ensures PairRepr(("a", "b")) == "('a', 'b')"
  {
    assert Escape("b", '\'') == "b";
    assert Escape("ab", '\'') == "ab";
    assert Escape("s", '"') == "s";
    assert Escape("'s", '"') == "'s";
    assert Escape("t's", '"') == "t's";
    assert Escape("it's", '"') == "it's";
    assert Escape("a", '\'') == "a";
  }
}
