/**
 The two string rewrites of the renamer: `escape_path`, the single-quote
 escape of the POSIX Shell Command Language (section 2.2.2 of IEEE Std
 1003.1, Single-Quotes), and `sanitize_path`, which first turns every `/`
 into `_` so that a tag value stays one path segment.

 To say what the escape is for, the module also models how a POSIX shell
 reads a word built from single-quoted strings and backslash escapes
 (sections 2.2.1 and 2.2.2), and proves that `'` + escape(s) + `'` reads
 back as `s`.
 */
module Shell {
  import opened Wrappers

  const Quote: char := '\''

  /** What `escape_path` puts in place of each quote: close the quoted string,
      a backslash-escaped quote, reopen the quoted string. */
  const EscapedQuote: string := "'\\''"

  /** `escape_path`: every `'` becomes `'\''`, every other character is kept. */
  function Escape(s: string): string
  {
    if s == [] then []
    else (if s[0] == Quote then EscapedQuote else [s[0]]) + Escape(s[1..])
  }

  /** The `[/]` -> `_` substitution of `sanitize_path`. */
  function ReplaceSlashes(s: string): (r: string)
    ensures |r| == |s|
    ensures forall i :: 0 <= i < |s| ==> r[i] == (if s[i] == '/' then '_' else s[i])
  {
    seq(|s|, i requires 0 <= i < |s| => if s[i] == '/' then '_' else s[i])
  }

  /** `sanitize_path`: slashes replaced, then quotes escaped. */
  function Sanitize(s: string): string
  {
    Escape(ReplaceSlashes(s))
  }

  // ---------------------------------------------------------------------------
  // Properties of the escape

  lemma {:induction false} EscapeAppend(a: string, b: string)
    ensures Escape(a + b) == Escape(a) + Escape(b)
  {
    if a != [] {
      assert (a + b)[0] == a[0] && (a + b)[1..] == a[1..] + b;
      EscapeAppend(a[1..], b);
      var head := if a[0] == Quote then EscapedQuote else [a[0]];
      calc {
        Escape(a + b);
        head + Escape(a[1..] + b);
        head + (Escape(a[1..]) + Escape(b));
        (head + Escape(a[1..])) + Escape(b);
        Escape(a) + Escape(b);
      }
    } else {
      assert a + b == b;
    }
  }

  /** Each quote grows by three characters; nothing else changes length. */
  lemma {:induction false} EscapeLength(s: string)
    ensures |Escape(s)| == |s| + 3 * multiset(s)[Quote]
  {
    if s != [] {
      assert s == [s[0]] + s[1..];
      assert multiset(s) == multiset([s[0]]) + multiset(s[1..]);
      EscapeLength(s[1..]);
    }
  }

  /** The escape leaves a string alone exactly when it has no quote. */
  lemma EscapeIdentity(s: string)
    ensures Escape(s) == s <==> Quote !in s
  {
    EscapeLength(s);
    assert Quote in s <==> Quote in multiset(s);
    if Quote !in s {
      EscapeUnchanged(s);
    }
  }

  lemma {:induction false} EscapeUnchanged(s: string)
    requires Quote !in s
    ensures Escape(s) == s
  {
    if s != [] {
      EscapeUnchanged(s[1..]);
    }
  }

  /** The escape adds backslashes (when there is a quote) and no other character. */
  lemma {:induction false} EscapeChars(s: string)
    ensures forall c :: c in Escape(s) <==> c in s || (c == '\\' && Quote in s)
  {
    if s != [] {
      EscapeChars(s[1..]);
      assert s == [s[0]] + s[1..];
    }
  }

  // ---------------------------------------------------------------------------
  // Reading a shell word back (quoting only: no expansions, no word splitting)

  function Prefixed(s: string, w: Option<string>): Option<string>
  {
    if w.Some? then Some(s + w.value) else None
  }

  /** The text a POSIX shell reads from `t`, outside any quotes: a backslash keeps
      the next character (a backslash-newline disappears), a quote opens a quoted
      string, any other character stands for itself. None when malformed. */
  function Unquote(t: string): Option<string>
    decreases |t|
  {
    if t == [] then Some([])
    else if t[0] == '\\' then
      if |t| == 1 then None
      else if t[1] == '\n' then Unquote(t[2..])
      else Prefixed([t[1]], Unquote(t[2..]))
    else if t[0] == Quote then Quoted(t[1..])
    else Prefixed([t[0]], Unquote(t[1..]))
  }

  /** The text read from `t` inside a single-quoted string: everything up to
      the next quote stands for itself. None when the quote is never closed. */
  function Quoted(t: string): Option<string>
    decreases |t|
  {
    if t == [] then None
    else if t[0] == Quote then Unquote(t[1..])
    else Prefixed([t[0]], Quoted(t[1..]))
  }

  /** Inside quotes, an escaped quote closes the string, adds a quote and reopens it. */
  lemma QuotedEscapedQuote(rest: string)
    ensures Quoted(EscapedQuote + rest) == Prefixed([Quote], Quoted(rest))
  {
    var u := EscapedQuote + rest;
    assert u[1..] == "\\'" + ("'" + rest);
    assert ("\\'" + ("'" + rest))[2..] == "'" + rest;
    assert ("'" + rest)[1..] == rest;
    assert Quoted(u) == Unquote(u[1..]);
    assert Unquote(u[1..]) == Prefixed([Quote], Unquote("'" + rest));
  }

  /** Inside quotes, a plain character stands for itself. */
  lemma QuotedPlain(c: char, rest: string)
    requires c != Quote
    ensures Quoted([c] + rest) == Prefixed([c], Quoted(rest))
  {
    assert ([c] + rest)[1..] == rest;
  }

  lemma {:induction false} QuotedEscape(s: string, t: string)
    ensures Quoted(Escape(s) + t) == Prefixed(s, Quoted(t))
  {
    if s != [] {
      QuotedEscape(s[1..], t);
      var rest := Escape(s[1..]) + t;
      var q := Quoted(t);
      if s[0] == Quote {
        assert Escape(s) + t == EscapedQuote + rest;
        QuotedEscapedQuote(rest);
      } else {
        assert Escape(s) + t == [s[0]] + rest;
        QuotedPlain(s[0], rest);
      }
      assert s == [s[0]] + s[1..];
      if q.Some? {
        assert [s[0]] + (s[1..] + q.value) == s + q.value;
      }
    } else {
      assert Escape(s) + t == t;
      if Quoted(t).Some? {
        assert s + Quoted(t).value == Quoted(t).value;
      }
    }
  }

  /** Outside quotes, text without quotes and backslashes stands for itself. */
  lemma {:induction false} UnquotePlain(x: string, rest: string)
    requires Quote !in x && '\\' !in x
    ensures Unquote(x + rest) == Prefixed(x, Unquote(rest))
  {
    if x != [] {
      assert (x + rest)[1..] == x[1..] + rest;
      UnquotePlain(x[1..], rest);
      assert x == [x[0]] + x[1..];
      var w := Unquote(rest);
      if w.Some? {
        assert [x[0]] + (x[1..] + w.value) == x + w.value;
      }
    } else {
      assert x + rest == rest;
      if Unquote(rest).Some? {
        assert x + Unquote(rest).value == Unquote(rest).value;
      }
    }
  }

  /** A word that opens a quote, closes it early with a stray quote inside,
      and ends on a quote leaves that last quote unclosed: it cannot be read. */
  lemma StrayQuote(a: string, b: string)
    requires Quote !in a && Quote !in b && '\\' !in b
    ensures Unquote("'" + a + "'" + b + "'") == None
  {
    var w := "'" + a + "'" + b + "'";
    assert w[1..] == Escape(a) + ("'" + (b + "'")) by {
      EscapeUnchanged(a);
    }
    QuotedEscape(a, "'" + (b + "'"));
    assert ("'" + (b + "'"))[1..] == b + "'";
    UnquotePlain(b, "'");
    assert "'"[1..] == [];
  }

  /** A single-quoted escaped path is read by the shell as the path itself. */
  lemma EscapeRoundTrip(s: string)
    ensures Unquote("'" + Escape(s) + "'") == Some(s)
  {
    QuotedEscape(s, "'");
    assert ("'" + Escape(s) + "'")[1..] == Escape(s) + "'";
    assert "'"[1..] == [];
    assert s + [] == s;
  }

  // ---------------------------------------------------------------------------
  // Properties of sanitize_path

  /** A sanitized value is one path segment. */
  lemma SanitizeNoSlash(s: string)
    ensures '/' !in Sanitize(s)
  {
    EscapeChars(ReplaceSlashes(s));
  }

  lemma SanitizeAppend(a: string, b: string)
    ensures Sanitize(a + b) == Sanitize(a) + Sanitize(b)
  {
    assert ReplaceSlashes(a + b) == ReplaceSlashes(a) + ReplaceSlashes(b);
    EscapeAppend(ReplaceSlashes(a), ReplaceSlashes(b));
  }

  /** A value without slashes and quotes passes through unchanged. */
  lemma SanitizePlain(s: string)
    requires '/' !in s && Quote !in s
    ensures Sanitize(s) == s
  {
    assert ReplaceSlashes(s) == s;
    EscapeUnchanged(s);
  }

  lemma SanitizeEmpty(s: string)
    ensures Sanitize(s) == [] <==> s == []
  {
    EscapeLength(ReplaceSlashes(s));
  }

  /** Quoted for the shell, a sanitized value reads back as the value with its
      slashes replaced. */
  lemma SanitizeRoundTrip(s: string)
    ensures Unquote("'" + Sanitize(s) + "'") == Some(ReplaceSlashes(s))
  {
    EscapeRoundTrip(ReplaceSlashes(s));
  }

  /** `sanitize_path` is not idempotent: its replacement `'\''` holds quotes. */
  lemma SanitizeNotIdempotent()
    ensures Sanitize(Sanitize("'")) != Sanitize("'")
  {
    EscapeIdentity(Sanitize("'"));
    assert Sanitize("'") == EscapedQuote by {
      assert ReplaceSlashes("'") == "'";
      assert Escape("'") == EscapedQuote + Escape([]);
    }
    assert Sanitize(Sanitize("'")) == Escape(EscapedQuote) by {
      assert ReplaceSlashes(EscapedQuote) == EscapedQuote;
    }
    assert EscapedQuote[0] == Quote;
  }
}
