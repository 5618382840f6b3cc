/**
 * Putting a user-supplied value inside a quoted SQL string literal, as the
 * filter terms do with `value.replace(/'/g, "''")`: a quote inside a
 * literal is written as two quotes (ISO/IEC 9075, <character string literal>).
 */
module SqlLiteral {
  import opened Wrappers

  const Quote: char := '\''

  /** Every quote doubled, every other character kept, in order. */
  function Escape(s: string): string
  {
    if s == [] then []
    else (if s[0] == Quote then [Quote, Quote] else [s[0]]) + Escape(s[1..])
  }

  /** Escaping lengthens a value by its number of quotes. */
  lemma {:induction false} EscapeLength(s: string)
    ensures |Escape(s)| == |s| + multiset(s)[Quote]
  {
    if s != [] {
      EscapeLength(s[1..]);
      assert s == [s[0]] + s[1..];
    }
  }

  /** Escaping works character by character: it distributes over concatenation. */
  lemma {:induction false} EscapeAppend(a: string, b: string)
    ensures Escape(a + b) == Escape(a) + Escape(b)
  {
    if a != [] {
      assert (a + b)[1..] == a[1..] + b;
      EscapeAppend(a[1..], b);
    } else {
      assert a + b == b;
    }
  }

  /** A value without quotes is embedded unchanged. */
  lemma {:induction false} EscapeWithoutQuotes(s: string)
    requires Quote !in s
    ensures Escape(s) == s
  {
    if s != [] {
      EscapeWithoutQuotes(s[1..]);
    }
  }

  /** Collapses each `''` back to `'`, scanning from the left. */
  function Unescape(t: string): string
  {
    if t == [] then []
    else if |t| >= 2 && t[0] == Quote && t[1] == Quote then [Quote] + Unescape(t[2..])
    else [t[0]] + Unescape(t[1..])
  }

  /** Collapsing the doubled quotes restores the original value. */
  lemma {:induction false} UnescapeEscape(s: string)
    ensures Unescape(Escape(s)) == s
  {
    if s != [] {
      UnescapeEscape(s[1..]);
      var t := Escape(s);
      if s[0] == Quote {
        assert t[2..] == Escape(s[1..]);
      } else {
        assert t[1..] == Escape(s[1..]);
      }
    }
  }

  /**
   * Reads the body of a quoted literal whose opening quote has already been
   * consumed, the way an SQL lexer does: `''` stands for one quote and a lone
   * quote closes the literal. Gives the value and the text after the closing
   * quote, or None when the literal is never closed.
   */
  function ReadLiteral(t: string): Option<(string, string)>
  {
    if t == [] then None
    else if t[0] == Quote then
      if |t| >= 2 && t[1] == Quote then Prepend(Quote, ReadLiteral(t[2..]))
      else Some(([], t[1..]))
    else Prepend(t[0], ReadLiteral(t[1..]))
  }

  /** Puts `c` in front of the value read, if any. */
  function Prepend(c: char, read: Option<(string, string)>): Option<(string, string)>
  {
    match read
    case None => None
    case Some((v, rest)) => Some(([c] + v, rest))
  }

  lemma ReadLiteralPlain(c: char, u: string)
    requires c != Quote
    ensures ReadLiteral([c] + u) == Prepend(c, ReadLiteral(u))
  {
    assert ([c] + u)[1..] == u;
  }

  lemma ReadLiteralDoubled(u: string)
    ensures ReadLiteral([Quote, Quote] + u) == Prepend(Quote, ReadLiteral(u))
  {
    assert ([Quote, Quote] + u)[2..] == u;
  }

  /**
   * An escaped value followed by a closing quote reads back as exactly that
   * value, and the literal ends at that quote: no value can close the literal
   * early or run into the text after it (as long as that text does not itself
   * start with a quote).
   */
  lemma {:induction false} ReadEscaped(s: string, rest: string)
    requires rest == [] || rest[0] != Quote
    ensures ReadLiteral(Escape(s) + [Quote] + rest) == Some((s, rest))
  {
    if s == [] {
      assert Escape(s) + [Quote] + rest == [Quote] + rest;
      assert ([Quote] + rest)[1..] == rest;
    } else {
      var tail := Escape(s[1..]) + [Quote] + rest;
      ReadEscaped(s[1..], rest);
      EscapeFront(s, rest);
      if s[0] == Quote {
        ReadLiteralDoubled(tail);
      } else {
        ReadLiteralPlain(s[0], tail);
      }
      assert [s[0]] + s[1..] == s;
    }
  }

  lemma EscapeFront(s: string, rest: string)
    requires s != []
    ensures Escape(s) + [Quote] + rest
      == (if s[0] == Quote then [Quote, Quote] else [s[0]]) + (Escape(s[1..]) + [Quote] + rest)
  {
  }

  /** A literal read consumes at least its closing quote: value and rest are shorter than the text. */
  lemma {:induction false} ReadLiteralShorter(t: string)
    ensures ReadLiteral(t).Some? ==> |ReadLiteral(t).value.0| + |ReadLiteral(t).value.1| < |t|
  {
    if t != [] {
      if t[0] == Quote {
        if |t| >= 2 && t[1] == Quote {
          ReadLiteralShorter(t[2..]);
        }
      } else {
        ReadLiteralShorter(t[1..]);
      }
    }
  }

  /**
   * A value written between quotes without escaping reads back as itself,
   * with nothing left over, exactly when it holds no quote: its first quote
   * either closes the literal early or, doubled, stands for a single quote.
   */
  lemma {:induction false} UnescapedReadsBack(v: string)
    ensures ReadLiteral(v + [Quote]) == Some((v, "")) <==> Quote !in v
  {
    if Quote !in v {
      EscapeWithoutQuotes(v);
      ReadEscaped(v, "");
      assert Escape(v) + [Quote] + "" == v + [Quote];
    } else {
      QuotedValueMisread(v);
    }
  }

  lemma {:induction false} QuotedValueMisread(v: string)
    requires Quote in v
    ensures ReadLiteral(v + [Quote]) != Some((v, ""))
  {
    var t := v + [Quote];
    if v[0] != Quote {
      var u := v[1..] + [Quote];
      assert t == [v[0]] + u;
      ReadLiteralPlain(v[0], u);
      QuotedValueMisread(v[1..]);
      assert v == [v[0]] + v[1..];
    } else if |v| >= 2 && v[1] == Quote {
      var u := v[2..] + [Quote];
      assert t == [Quote, Quote] + u;
      ReadLiteralDoubled(u);
      ReadLiteralShorter(u);
    } else if |v| == 1 {
      assert t == [Quote, Quote];
      ReadLiteralDoubled([]);
    } else {
      assert t[0] == Quote && t[1] != Quote;
    }
  }
}
