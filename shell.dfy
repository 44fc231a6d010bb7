/**
  Quoting of user text inside the shell commands that `write_file` sends: every
  single quote of the content is replaced by the four characters `'\''`, and the
  result is placed between single quotes.
 */
module Shell {
  import opened Wrappers

  /** Number of single quotes in `s`. */
  function Quotes(s: string): nat {
    if s == [] then 0 else (if s[0] == '\'' then 1 else 0) + Quotes(s[1..])
  }

  /** Python's `s.replace("'", "'\\''")`. */
  function Escape(s: string): string {
    if s == [] then [] else (if s[0] == '\'' then "'\\''" else [s[0]]) + Escape(s[1..])
  }

  /** Escaping works character by character. */
  lemma EscapeCons(c: char, s: string)
    ensures Escape([c] + s) == (if c == '\'' then "'\\''" else [c]) + Escape(s)
  {
    assert ([c] + s)[0] == c && ([c] + s)[1..] == s;
  }

  /** Escaping distributes over concatenation. */
  lemma {:induction false} EscapeAppend(a: string, b: string)
    ensures Escape(a + b) == Escape(a) + Escape(b)
  {
    if a == [] {
      assert a + b == b;
    } else {
      var h := if a[0] == '\'' then "'\\''" else [a[0]];
      assert (a + b)[0] == a[0] && (a + b)[1..] == a[1..] + b;
      assert Escape(a + b) == h + Escape(a[1..] + b);
      EscapeAppend(a[1..], b);
      assert h + (Escape(a[1..]) + Escape(b)) == (h + Escape(a[1..])) + Escape(b);
    }
  }

  /** Text without a single quote is left as it is. */
  lemma {:induction false} EscapeWithoutQuotes(s: string)
    requires '\'' !in s
    ensures Escape(s) == s
  {
    if s != [] {
      assert '\'' !in s[1..];
      EscapeWithoutQuotes(s[1..]);
      assert s == [s[0]] + s[1..];
    }
  }

  /** Each single quote grows the text by three characters; nothing else changes length. */
  lemma {:induction false} EscapeLength(s: string)
    ensures |Escape(s)| == |s| + 3 * Quotes(s)
  {
    if s != [] {
      EscapeLength(s[1..]);
    }
  }

  /**
    Characters that may end a word or start an expansion, a pattern or a comment
    when unquoted: blanks, operators, `$`, the backquote, the double quote, the
    pattern characters, and `#`, `~` and `=`, which are special at the start of a
    word or in an assignment. The reader rejects a word that contains one unquoted
    instead of modelling each of those rules.
   */
  predicate Special(c: char) {
    c in " \t\n|&;<>()$`\"*?[#~="
  }

  function Prepend(s: string, r: Option<string>): Option<string> {
    match r
    case None => None
    case Some(t) => Some(s + t)
  }

  /**
    The text a POSIX shell reads from `w` taken as one word (section 2.2 of the
    POSIX Shell Command Language: a backslash keeps the next character literal,
    except that a backslash-newline is a line continuation and is removed; single
    quotes keep everything up to the next single quote literal); `None` when `w`
    is not one plainly quoted word.
   */
  function Unquoted(w: string): Option<string>
    decreases |w|
  {
    if w == [] then Some([])
    else if w[0] == '\'' then InQuotes(w[1..])
    else if w[0] == '\\' then
      (if |w| < 2 then None
       else if w[1] == '\n' then Unquoted(w[2..])
       else Prepend([w[1]], Unquoted(w[2..])))
    else if Special(w[0]) then None
    else Prepend([w[0]], Unquoted(w[1..]))
  }

  /** Reading continued inside a single-quoted stretch. */
  function InQuotes(w: string): Option<string>
    decreases |w|
  {
    if w == [] then None
    else if w[0] == '\'' then Unquoted(w[1..])
    else Prepend([w[0]], InQuotes(w[1..]))
  }

  lemma PrependAssoc(a: string, b: string, r: Option<string>)
    ensures Prepend(a, Prepend(b, r)) == Prepend(a + b, r)
  {
    if r.Some? {
      assert a + (b + r.value) == (a + b) + r.value;
    }
  }

  /**
    Inside single quotes, `'\''` closes the quotes, adds a backslash-escaped quote
    and reopens them: it reads as one single quote.
   */
  lemma QuoteSequence(tail: string)
    ensures InQuotes("'\\''" + tail) == Prepend("'", InQuotes(tail))
  {
    var w := "'\\''" + tail;
    var v := "\\''" + tail;
    assert w[0] == '\'' && w[1..] == v;
    assert v[0] == '\\' && v[1] == '\'' && v[2..] == "'" + tail;
    assert ("'" + tail)[0] == '\'' && ("'" + tail)[1..] == tail;
    assert Unquoted("'" + tail) == InQuotes(tail);
    assert Unquoted(v) == Prepend("'", InQuotes(tail));
  }

  /** Inside single quotes, the escaped text reads back as the original text. */
  lemma {:induction false} InQuotesEscape(s: string, rest: string)
    ensures InQuotes(Escape(s) + rest) == Prepend(s, InQuotes(rest))
  {
    if s == [] {
      assert Escape(s) + rest == rest;
      assert InQuotes(rest).Some? ==> [] + InQuotes(rest).value == InQuotes(rest).value;
    } else {
      var tail := Escape(s[1..]) + rest;
      InQuotesEscape(s[1..], rest);
      if s[0] == '\'' {
        assert Escape(s) + rest == "'\\''" + tail;
        QuoteSequence(tail);
      } else {
        var w := [s[0]] + tail;
        assert Escape(s) + rest == w;
        assert w[1..] == tail;
      }
      PrependAssoc([s[0]], s[1..], InQuotes(rest));
      assert [s[0]] + s[1..] == s;
    }
  }

  /** The quoted literal `'<Escape(s)>'` is read by the shell as exactly `s`. */
  lemma SingleQuotedRoundTrip(s: string)
    ensures Unquoted("'" + Escape(s) + "'") == Some(s)
  {
    var w := "'" + Escape(s) + "'";
    assert w[1..] == Escape(s) + "'";
    InQuotesEscape(s, "'");
    assert InQuotes("'") == Some([]);
    assert s + [] == s;
  }
}
