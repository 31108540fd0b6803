/** Quoting of command arguments, checked against the shell's own rules for
    reading words. */
module ShellWords {
  import opened Basics

  // ----- the program -----

  predicate IsSafe(c: char) {
    || 'a' <= c <= 'z' || 'A' <= c <= 'Z' || '0' <= c <= '9'
    || c == '/' || c == '_' || c == '-' || c == '.' || c == ':'
  }

  predicate AllSafe(s: string) {
    forall k :: 0 <= k < |s| ==> IsSafe(s[k])
  }

  /** `replace('\'', "'\"'\"'")`. */
  function Escape(s: string): string {
    if s == [] then ""
    else (if s[0] == '\'' then "'\"'\"'" else [s[0]]) + Escape(s[1..])
  }

  /** `shell_quote`. */
  function ShellQuote(value: string): string {
    if value == [] then "''"
    else if AllSafe(value) then value
    else QuoteAlways(value)
  }

  /** `shell_quote_path`. */
  function QuoteAlways(value: string): string {
    "'" + Escape(value) + "'"
  }

  /** `shell_join`. */
  function ShellJoin(args: seq<string>): string {
    if args == [] then ""
    else if |args| == 1 then ShellQuote(args[0])
    else ShellQuote(args[0]) + " " + ShellJoin(args[1..])
  }

  // ----- the shell: sections 2.2 and 2.3 of the POSIX.1-2017 Shell Command Language -----

  datatype Mode = Blank | Word | Single | Double

  predicate IsBlank(c: char) { c == ' ' || c == '\t' }

  /** Characters that, unquoted, end a word, start an expansion or may otherwise
      mean something other than themselves (section 2.2). */
  predicate IsSpecial(c: char) {
    c in {'|', '&', ';', '<', '>', '(', ')', '$', '`', '\n', '*', '?', '[', '#', '~', '=', '%'}
  }

  /** Reads the rest of a line, in the given mode and with the word read so far;
      None if it is not a plain list of words. */
  function Scan(s: string, mode: Mode, word: string): Option<seq<string>> {
    if s == [] then
      match mode
      case Blank => Some([])
      case Word => Some([word])
      case _ => None
    else if mode == Single then
      if s[0] == '\'' then Scan(s[1..], Word, word) else Scan(s[1..], Single, word + [s[0]])
    else if mode == Double then
      if s[0] == '"' then Scan(s[1..], Word, word)
      else if s[0] == '$' || s[0] == '`' then None
      else if s[0] == '\\' && |s| > 1 && s[1] == '\n' then Scan(s[2..], Double, word)
      else if s[0] == '\\' && |s| > 1 && s[1] in {'$', '`', '"', '\\'} then Scan(s[2..], Double, word + [s[1]])
      else Scan(s[1..], Double, word + [s[0]])
    else if IsBlank(s[0]) then
      var rest := Scan(s[1..], Blank, "");
      if mode == Word && rest.Some? then Some([word] + rest.value) else rest
    else if s[0] == '\'' then Scan(s[1..], Single, word)
    else if s[0] == '"' then Scan(s[1..], Double, word)
    else if s[0] == '\\' then
      if |s| == 1 then None
      else if s[1] == '\n' then Scan(s[2..], mode, word)
      else Scan(s[2..], Word, word + [s[1]])
    else if IsSpecial(s[0]) then None
    else Scan(s[1..], Word, word + [s[0]])
  }

  function Words(line: string): Option<seq<string>> {
    Scan(line, Blank, "")
  }

  // ----- the shell reads back what was quoted -----

  lemma {:induction false} SafeScans(a: string, rest: string, mode: Mode, word: string)
    requires AllSafe(a) && mode in {Blank, Word} && (mode == Blank ==> a != [])
    ensures Scan(a + rest, mode, word) == Scan(rest, Word, word + a)
  {
    if a == [] {
      assert a + rest == rest && word + a == word;
    } else {
      var s := a + rest;
      assert s[0] == a[0] && s[1..] == a[1..] + rest;
      SafeScans(a[1..], rest, Word, word + [a[0]]);
      assert word + [a[0]] + a[1..] == word + a;
    }
  }

  /** An escaped quote: out of the single quotes, one quote in double quotes, and back. */
  lemma EscapedQuoteScans(rest: string, word: string)
    ensures Scan("'\"'\"'" + rest, Single, word) == Scan(rest, Single, word + ['\''])
  {
    var s := "'\"'\"'" + rest;
    assert s[1..] == "\"'\"'" + rest;
    assert s[1..][1..] == "'\"'" + rest;
    assert s[1..][1..][1..] == "\"'" + rest;
    assert s[1..][1..][1..][1..] == "'" + rest;
    assert s[1..][1..][1..][1..][1..] == rest;
    calc {
      Scan(s, Single, word);
      Scan(s[1..], Word, word);
      Scan(s[1..][1..], Double, word);
      Scan(s[1..][1..][1..], Double, word + ['\'']);
      Scan(s[1..][1..][1..][1..], Word, word + ['\'']);
      Scan(rest, Single, word + ['\'']);
    }
  }

  lemma {:induction false} EscapeScans(a: string, rest: string, word: string)
    ensures Scan(Escape(a) + rest, Single, word) == Scan(rest, Single, word + a)
  {
    if a == [] {
      assert Escape(a) + rest == rest && word + a == word;
    } else {
      var tail := Escape(a[1..]) + rest;
      if a[0] == '\'' {
        assert Escape(a) + rest == "'\"'\"'" + tail;
        EscapedQuoteScans(tail, word);
      } else {
        assert Escape(a) + rest == [a[0]] + tail;
        assert ([a[0]] + tail)[1..] == tail;
      }
      EscapeScans(a[1..], rest, word + [a[0]]);
      assert word + [a[0]] + a[1..] == word + a;
    }
  }

  lemma QuotedScans(a: string, rest: string)
    ensures Scan(QuoteAlways(a) + rest, Blank, "") == Scan(rest, Word, a)
  {
    var inner := Escape(a) + ("'" + rest);
    assert QuoteAlways(a) + rest == "'" + inner;
    assert ("'" + inner)[1..] == inner && ("'" + rest)[1..] == rest;
    EscapeScans(a, "'" + rest, "");
    assert "" + a == a;
  }

  /** A quoted argument is one word, whatever follows it. */
  lemma QuoteScans(a: string, rest: string)
    ensures Scan(ShellQuote(a) + rest, Blank, "") == Scan(rest, Word, a)
  {
    if a == [] {
      assert ShellQuote(a) == QuoteAlways(a);
      QuotedScans(a, rest);
    } else if AllSafe(a) {
      SafeScans(a, rest, Blank, "");
      assert "" + a == a;
    } else {
      QuotedScans(a, rest);
    }
  }

  /** A joined command line is read by the shell as exactly the arguments it was
      joined from, whatever characters they contain, empty ones included. */
  lemma {:induction false} JoinRoundTrip(args: seq<string>)
    ensures Words(ShellJoin(args)) == Some(args)
  {
    if args != [] {
      var a := args[0];
      if |args| == 1 {
        QuoteScans(a, "");
        assert ShellQuote(a) + "" == ShellQuote(a) && args == [a];
      } else {
        var rest := ShellJoin(args[1..]);
        QuoteScans(a, " " + rest);
        assert ShellQuote(a) + " " + rest == ShellQuote(a) + (" " + rest);
        assert (" " + rest)[1..] == rest;
        JoinRoundTrip(args[1..]);
        assert [a] + args[1..] == args;
      }
    }
  }

  /** A quoted path is one word: the path. */
  lemma PathRoundTrip(path: string)
    ensures Words(QuoteAlways(path)) == Some([path])
  {
    QuotedScans(path, "");
    assert QuoteAlways(path) + "" == QuoteAlways(path);
  }

  /** So different argument lists never become the same command line. */
  lemma JoinIsInjective(a: seq<string>, b: seq<string>)
    requires ShellJoin(a) == ShellJoin(b)
    ensures a == b
  {
    JoinRoundTrip(a);
    JoinRoundTrip(b);
  }
}
