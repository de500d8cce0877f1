/**
 * PostgreSQL string constants (section 4.1.2.1, "String Constants", of the
 * PostgreSQL documentation): text between single quotes, where a single quote
 * inside the text is written as two adjacent single quotes. This is the
 * reading with `standard_conforming_strings` on (the server default since
 * PostgreSQL 9.1); with it off, a backslash also escapes inside such a
 * constant, which this reader does not model.
 */
module SqlLiteral {
  import opened Wrappers

  const Quote: char := '\''

  /** Doubles every single quote, as `text.replace(/'/g, "''")` does. */
  function Escape(s: string): string {
    if s == [] then []
    else (if s[0] == Quote then [Quote, Quote] else [s[0]]) + Escape(s[1..])
  }

  /** The number of single quotes in `s`. */
  function QuoteCount(s: string): nat {
    if s == [] then 0 else (if s[0] == Quote then 1 else 0) + QuoteCount(s[1..])
  }

  /** Collapses every pair of adjacent single quotes back into one. */
  function Unescape(t: string): string
    decreases |t|
  {
    if t == [] then []
    else if |t| >= 2 && t[0] == Quote && t[1] == Quote then [Quote] + Unescape(t[2..])
    else [t[0]] + Unescape(t[1..])
  }

  /**
   * Reads the body of a string constant whose opening quote has already been
   * consumed: the text it denotes and whatever follows the closing quote, or
   * None when the constant is never closed.
   */
  function ReadBody(t: string): Option<(string, string)>
    decreases |t|
  {
    if t == [] then None
    else if t[0] == Quote then
      if |t| >= 2 && t[1] == Quote then
        match ReadBody(t[2..])
        case None => None
        case Some(r) => Some(([Quote] + r.0, r.1))
      else Some(([], t[1..]))
    else
      match ReadBody(t[1..])
      case None => None
      case Some(r) => Some(([t[0]] + r.0, r.1))
  }

  /** Reads one string constant at the start of `t`. */
  function ReadLiteral(t: string): Option<(string, string)> {
    if t != [] && t[0] == Quote then ReadBody(t[1..]) else None
  }

  /** Escaping lengthens the text by exactly one character per quote. */
  lemma {:induction false} EscapeLength(s: string)
    ensures |Escape(s)| == |s| + QuoteCount(s)
  {
    if s != [] {
      EscapeLength(s[1..]);
    }
  }

  /** Collapsing doubled quotes undoes escaping. */
  lemma {:induction false} UnescapeEscape(s: string)
    ensures Unescape(Escape(s)) == s
  {
    if s != [] {
      UnescapeEscape(s[1..]);
      var head := if s[0] == Quote then [Quote, Quote] else [s[0]];
      assert Escape(s) == head + Escape(s[1..]);
      if s[0] == Quote {
        assert (head + Escape(s[1..]))[2..] == Escape(s[1..]);
      } else {
        assert (head + Escape(s[1..]))[1..] == Escape(s[1..]);
      }
    }
  }

  /**
   * Escaped text followed by a closing quote is read back as exactly that
   * text; the reader stops at the closing quote, so the payload cannot end
   * the constant early. What follows must not itself start with a quote,
   * or the closing quote would read as an escaped one.
   */
  lemma {:induction false} ReadBodyEscaped(s: string, rest: string)
    requires rest == [] || rest[0] != Quote
    ensures ReadBody(Escape(s) + [Quote] + rest) == Some((s, rest))
  {
    if s == [] {
      assert Escape(s) + [Quote] + rest == [Quote] + rest;
      assert ([Quote] + rest)[1..] == rest;
    } else {
      ReadBodyEscaped(s[1..], rest);
      var tail := Escape(s[1..]) + [Quote] + rest;
      if s[0] == Quote {
        assert Escape(s) + [Quote] + rest == [Quote, Quote] + tail;
        assert ([Quote, Quote] + tail)[2..] == tail;
        assert [Quote] + s[1..] == s;
      } else {
        assert Escape(s) + [Quote] + rest == [s[0]] + tail;
        assert ([s[0]] + tail)[1..] == tail;
        assert [s[0]] + s[1..] == s;
      }
    }
  }

  /** A quoted, escaped text is read back as a single string constant denoting that text. */
  lemma {:induction false} LiteralRoundTrip(s: string, rest: string)
    requires rest == [] || rest[0] != Quote
    ensures ReadLiteral([Quote] + Escape(s) + [Quote] + rest) == Some((s, rest))
  {
    ReadBodyEscaped(s, rest);
    var body := Escape(s) + [Quote] + rest;
    assert [Quote] + Escape(s) + [Quote] + rest == [Quote] + body;
    assert ([Quote] + body)[1..] == body;
  }
}
