/** Quoting a prompt into a SQL character-string literal, as the document
    chat page does before calling `SNOWFLAKE.CORTEX.COMPLETE`: every single
    quote is doubled (ISO/IEC 9075, section 5.3 <character string literal>,
    where `''` inside a literal stands for one quote). A literal is read
    here as the standard reads one quoted part: no backslash escapes, and
    no continuation into a further quoted part after a separator holding a
    newline (the COMPLETE statement goes on with `)`, so no such part
    follows there). */
module SqlQuote {
  import opened Wrappers
  import opened Text

  const Quote: char := '\''

  /** Python `s.replace("'", "''")`. */
  function Escape(s: string): (r: string)
    ensures |r| == |s| + Count(s, Quote)
  {
    if s == [] then [] else (if s[0] == Quote then [Quote, Quote] else [s[0]]) + Escape(s[1..])
  }

  /** Collapses each `''` pair back to one quote, scanning left to right. */
  function Unescape(t: string): string
    decreases |t|
  {
    if t == [] then []
    else if |t| >= 2 && t[0] == Quote && t[1] == Quote then [Quote] + Unescape(t[2..])
    else [t[0]] + Unescape(t[1..])
  }

  /** Every quote in `t` belongs to a `''` pair, reading left to right: the
      text can stand between the delimiters of a literal without ending it. */
  predicate Paired(t: string)
    decreases |t|
  {
    if t == [] then true
    else if t[0] == Quote then |t| >= 2 && t[1] == Quote && Paired(t[2..])
    else Paired(t[1..])
  }

  lemma EscapeCons(c: char, s: string)
    ensures Escape([c] + s) == (if c == Quote then [Quote, Quote] else [c]) + Escape(s)
  {
    assert ([c] + s)[1..] == s;
  }

  /** Un-doubling recovers the original prompt. */
  lemma {:induction false} UnescapeEscape(s: string)
    ensures Unescape(Escape(s)) == s
    decreases |s|
  {
    if s != [] {
      UnescapeEscape(s[1..]);
      var e := Escape(s);
      if s[0] == Quote {
        assert e[2..] == Escape(s[1..]);
      } else {
        assert e[1..] == Escape(s[1..]);
      }
      assert s == [s[0]] + s[1..];
    }
  }

  /** The escaped text has no unpaired quote. */
  lemma {:induction false} EscapeIsPaired(s: string)
    ensures Paired(Escape(s))
    decreases |s|
  {
    if s != [] {
      EscapeIsPaired(s[1..]);
      var e := Escape(s);
      if s[0] == Quote {
        assert e[2..] == Escape(s[1..]);
      } else {
        assert e[1..] == Escape(s[1..]);
      }
    }
  }

  /** Conversely every paired text is the escape of exactly one string, so
      escaping is a bijection onto the paired texts. */
  lemma {:induction false} EscapeUnescape(t: string)
    requires Paired(t)
    ensures Escape(Unescape(t)) == t
    decreases |t|
  {
    if t != [] {
      if t[0] == Quote {
        EscapeUnescape(t[2..]);
        EscapeCons(Quote, Unescape(t[2..]));
        assert t == [Quote, Quote] + t[2..];
      } else {
        EscapeUnescape(t[1..]);
        EscapeCons(t[0], Unescape(t[1..]));
        assert t == [t[0]] + t[1..];
      }
    }
  }

  /** What an ISO/IEC 9075 lexer does with one quoted part after its
      opening quote: collect the value up to the closing quote and return it
      with the text after that quote; `None` when the part is never closed.
      A following part that the standard would join on (one separated only
      by whitespace holding a newline) is left in the returned text. */
  function ReadLiteral(t: string): Option<(string, string)>
    decreases |t|
  {
    if t == [] then None
    else if t[0] == Quote then
      if |t| >= 2 && t[1] == Quote then
        match ReadLiteral(t[2..])
        case Some(p) => Some(([Quote] + p.0, p.1))
        case None => None
      else Some(([], t[1..]))
    else
      match ReadLiteral(t[1..])
      case Some(p) => Some(([t[0]] + p.0, p.1))
      case None => None
  }

  /** One ordinary character is copied into the value. */
  lemma ReadOrdinary(c: char, e: string)
    requires c != Quote
    ensures ReadLiteral([c] + e)
            == if ReadLiteral(e).Some? then Some(([c] + ReadLiteral(e).value.0, ReadLiteral(e).value.1)) else None
  {
    assert ([c] + e)[1..] == e;
  }

  /** A doubled quote stands for one quote of the value. */
  lemma ReadDoubledQuote(e: string)
    ensures ReadLiteral([Quote, Quote] + e)
            == if ReadLiteral(e).Some? then Some(([Quote] + ReadLiteral(e).value.0, ReadLiteral(e).value.1)) else None
  {
    assert ([Quote, Quote] + e)[2..] == e;
  }

  /** A quote not followed by another closes the literal. */
  lemma ReadClosingQuote(rest: string)
    requires rest == [] || rest[0] != Quote
    ensures ReadLiteral([Quote] + rest) == Some(([], rest))
  {
    assert ([Quote] + rest)[1..] == rest;
  }

  /** One more character in front of the prompt is one more character in
      front of the value read back. */
  lemma ReadEscapedStep(c: char, s: string, rest: string)
    requires ReadLiteral(Escape(s) + [Quote] + rest) == Some((s, rest))
    ensures ReadLiteral(Escape([c] + s) + [Quote] + rest) == Some(([c] + s, rest))
  {
    var e := Escape(s) + [Quote] + rest;
    EscapeCons(c, s);
    if c == Quote {
      assert Escape([c] + s) + [Quote] + rest == [Quote, Quote] + e;
      ReadDoubledQuote(e);
    } else {
      assert Escape([c] + s) + [Quote] + rest == [c] + e;
      ReadOrdinary(c, e);
    }
  }

  /** An escaped prompt followed by a closing quote is read back, as one
      quoted part, as exactly that prompt, and the lexer resumes right after
      the closing quote. */
  lemma {:induction false} ReadEscapedLiteral(s: string, rest: string)
    requires rest == [] || rest[0] != Quote
    ensures ReadLiteral(Escape(s) + [Quote] + rest) == Some((s, rest))
    decreases |s|
  {
    if s == [] {
      assert Escape(s) + [Quote] + rest == [Quote] + rest;
      ReadClosingQuote(rest);
    } else {
      ReadEscapedLiteral(s[1..], rest);
      ReadEscapedStep(s[0], s[1..], rest);
      assert [s[0]] + s[1..] == s;
    }
  }

  /** The model identifier the document chat page passes to COMPLETE. */
  const CompleteModel: string := "claude-3-5-sonnet"

  const SqlHead: string := "SELECT SNOWFLAKE.CORTEX.COMPLETE('" + CompleteModel + "', '"

  /** The statement `SELECT SNOWFLAKE.CORTEX.COMPLETE('claude-3-5-sonnet', '<prompt>')`
      with the prompt quoted by `Escape`. */
  function CompleteSql(prompt: string): (sql: string)
    ensures |sql| == |SqlHead| + |prompt| + Count(prompt, Quote) + 2
  {
    SqlHead + Escape(prompt) + "')"
  }

  /** Read as ISO/IEC 9075 defines a literal, the second literal of the
      statement carries the prompt unchanged and the statement ends right
      after it: under that reading no quote in the prompt closes the literal
      early. */
  lemma CompleteSqlCarriesPrompt(prompt: string)
    ensures CompleteSql(prompt)[..|SqlHead|] == SqlHead
    ensures ReadLiteral(CompleteSql(prompt)[|SqlHead|..]) == Some((prompt, ")"))
  {
    var sql := CompleteSql(prompt);
    assert sql[|SqlHead|..] == Escape(prompt) + [Quote] + ")";
    ReadEscapedLiteral(prompt, ")");
  }
}
