/** Command lines for the remote shell: shellQuote and shellJoin of
    internal/libvirt/virsh_client.go, against the token recognition and quoting rules of the
    Shell Command Language (sections 2.2 and 2.3 of POSIX.1-2017, volume Shell & Utilities). */
module Shell {
  import opened Common

  // ----- The program -----

  /** strings.ReplaceAll(s, "'", `'\''`): close the quotes, an escaped quote, open them again. */
  function Escaped(s: string): string {
    if s == "" then "" else (if s[0] == '\'' then "'\\''" else [s[0]]) + Escaped(s[1..])
  }

  function ShellQuote(s: string): string {
    if s == "" then "''" else "'" + Escaped(s) + "'"
  }

  function Joined(args: seq<string>): string {
    if args == [] then ""
    else if |args| == 1 then ShellQuote(args[0])
    else ShellQuote(args[0]) + " " + Joined(args[1..])
  }

  method ShellJoin(args: seq<string>) returns (line: string)
    ensures line == Joined(args)
  {
    var quoted: seq<string> := [];
    for i := 0 to |args|
      invariant |quoted| == i && forall j | 0 <= j < i :: quoted[j] == ShellQuote(args[j])
    {
      quoted := quoted + [ShellQuote(args[i])];
    }
    line := "";
    for i := |quoted| downto 0
      invariant line == Joined(args[i..])
    {
      line := if i == |quoted| - 1 then quoted[i] else quoted[i] + " " + line;
      assert args[i..][1..] == args[i + 1..];
    }
  }

  // ----- The shell -----

  /** Where the reader is: between words, or after a backslash there; in a word outside quotes,
      or after a backslash there; in single quotes; in double quotes, or after a backslash there. */
  datatype Mode = Between | BetweenEscape | Plain | Escape | Single | Double | DoubleEscape

  predicate Blank(c: char) { c == ' ' || c == '\t' }

  /** Characters that end a word, start an expansion or a comment, or match file names when they
      are not quoted.  A line that has one of them unquoted is more than a list of words. */
  predicate Active(c: char) {
    c in {'|', '&', ';', '<', '>', '(', ')', '$', '`', '\n', '*', '?', '[', '#', '~', '='}
  }

  /** Read `s` in mode `m`, with `word` read so far of the current word: the words that follow,
      or None if the line is not a plain list of words. */
  function Words(m: Mode, word: string, s: string): Option<seq<string>>
    decreases |s|
  {
    if s == "" then
      match m
      case Between => Some([])
      case Plain => Some([word])
      case _ => None
    else if s[0] == '\0' then None
    else
      var c, rest := s[0], s[1..];
      if m.Single? then
        if c == '\'' then Words(Plain, word, rest) else Words(Single, word + [c], rest)
      else if m.Double? then
        if c == '"' then Words(Plain, word, rest)
        else if c == '\\' then Words(DoubleEscape, word, rest)
        else if c == '$' || c == '`' then None
        else Words(Double, word + [c], rest)
      else if m.DoubleEscape? then
        if c in {'$', '`', '"', '\\'} then Words(Double, word + [c], rest)
        else if c == '\n' then Words(Double, word, rest)
        else Words(Double, word + ['\\', c], rest)
      else if m.Escape? then
        if c == '\n' then Words(Plain, word, rest) else Words(Plain, word + [c], rest)
      else if m.BetweenEscape? then
        if c == '\n' then Words(Between, "", rest) else Words(Plain, word + [c], rest)
      else if Blank(c) && m.Between? then Words(Between, "", rest)
      else if Blank(c) then
        var more := Words(Between, "", rest);
        if more.None? then None else Some([word] + more.value)
      else if c == '\'' then Words(Single, word, rest)
      else if c == '"' then Words(Double, word, rest)
      else if c == '\\' then Words(if m.Between? then BetweenEscape else Escape, word, rest)
      else if Active(c) then None
      else Words(Plain, word + [c], rest)
  }

  function Tokenize(line: string): Option<seq<string>> { Words(Between, "", line) }

  // ----- Quoting keeps words whole -----

  predicate NulFree(s: string) { '\0' !in s }

  /** Inside single quotes, an escaped string followed by the closing quote reads back as itself. */
  lemma {:induction false} EscapedReadsBack(word: string, s: string, rest: string)
    requires NulFree(s)
    ensures Words(Single, word, Escaped(s) + "'" + rest) == Words(Plain, word + s, rest)
    decreases |s|
  {
    var line := Escaped(s) + "'" + rest;
    if s == "" {
      assert line == "'" + rest && line[1..] == rest && word + s == word;
    } else {
      var tail := Escaped(s[1..]) + "'" + rest;
      EscapedReadsBack(word + [s[0]], s[1..], rest);
      assert word + [s[0]] + s[1..] == word + s;
      if s[0] == '\'' {
        assert line == ['\'', '\\', '\'', '\''] + tail;
        QuoteTrick(word, tail);
      } else {
        assert line == [s[0]] + tail && line[1..] == tail;
      }
    }
  }

  /** Closing quote, escaped quote, opening quote: one quote character in the same word. */
  lemma QuoteTrick(word: string, tail: string)
    ensures Words(Single, word, ['\'', '\\', '\'', '\''] + tail) == Words(Single, word + ['\''], tail)
  {
    var l0 := ['\'', '\\', '\'', '\''] + tail;
    var l1 := ['\\', '\'', '\''] + tail;
    var l2 := ['\'', '\''] + tail;
    var l3 := ['\''] + tail;
    assert l0[1..] == l1 && l1[1..] == l2 && l2[1..] == l3 && l3[1..] == tail;
    assert Words(Single, word, l0) == Words(Plain, word, l1);
    assert Words(Plain, word, l1) == Words(Escape, word, l2);
    assert Words(Escape, word, l2) == Words(Plain, word + ['\''], l3);
  }

  lemma QuotedReadsBack(s: string, rest: string)
    requires NulFree(s)
    ensures Words(Between, "", ShellQuote(s) + rest) == Words(Plain, s, rest)
  {
    EscapedReadsBack("", s, rest);
    assert "" + s == s;
    var body := Escaped(s) + "'" + rest;
    assert ShellQuote(s) + rest == ['\''] + body by { hide Words; QuoteShape(s); }
    OpeningQuote(body);
  }

  lemma QuoteShape(s: string)
    ensures ShellQuote(s) == "'" + Escaped(s) + "'"
  {
  }

  lemma OpeningQuote(body: string)
    ensures Words(Between, "", ['\''] + body) == Words(Single, "", body)
  {
    var line := ['\''] + body;
    assert line[1..] == body;
  }

  /** The shell reads a joined command line back as exactly the arguments. */
  lemma {:induction false} JoinedReadsBack(args: seq<string>)
    requires forall i | 0 <= i < |args| :: NulFree(args[i])
    ensures Tokenize(Joined(args)) == Some(args)
  {
    if |args| == 1 {
      QuotedReadsBack(args[0], "");
      assert ShellQuote(args[0]) + "" == ShellQuote(args[0]);
      assert args == [args[0]];
    } else if |args| > 1 {
      var tail := Joined(args[1..]);
      JoinedReadsBack(args[1..]);
      var after := " " + tail;
      QuotedReadsBack(args[0], after);
      assert Joined(args) == ShellQuote(args[0]) + after;
      assert after[0] == ' ' && after[1..] == tail;
      assert Words(Plain, args[0], after) == Some([args[0]] + args[1..]);
      assert [args[0]] + args[1..] == args;
    }
  }

  /** Hence different argument lists give different command lines. */
  lemma JoinedIsInjective(a: seq<string>, b: seq<string>)
    requires forall i | 0 <= i < |a| :: NulFree(a[i])
    requires forall i | 0 <= i < |b| :: NulFree(b[i])
    requires Joined(a) == Joined(b)
    ensures a == b
  {
    JoinedReadsBack(a);
    JoinedReadsBack(b);
  }

  // ----- Exactly for arguments without NUL -----

  lemma {:induction false} NulStopsReading(m: Mode, word: string, s: string)
    requires '\0' in s
    ensures Words(m, word, s).None?
    decreases |s|
  {
    if s[0] != '\0' {
      var i :| 0 <= i < |s| && s[i] == '\0';
      assert s[1..][i - 1] == '\0';
      forall m', w {:trigger Words(m', w, s[1..])} | true
        ensures Words(m', w, s[1..]).None?
      {
        NulStopsReading(m', w, s[1..]);
      }
    }
  }

  lemma {:induction false} EscapedKeepsNul(s: string)
    requires '\0' in s
    ensures '\0' in Escaped(s)
  {
    if s[0] != '\0' {
      var i :| 0 <= i < |s| && s[i] == '\0';
      assert s[1..][i - 1] == '\0';
      EscapedKeepsNul(s[1..]);
    }
  }

  lemma {:induction false} JoinedKeepsNul(args: seq<string>, i: nat)
    requires i < |args| && !NulFree(args[i])
    ensures '\0' in Joined(args)
  {
    if i == 0 {
      EscapedKeepsNul(args[0]);
    } else {
      assert args[1..][i - 1] == args[i];
      JoinedKeepsNul(args[1..], i - 1);
    }
  }

  /** The round trip holds exactly for arguments without NUL, which no argument of a Unix
      command can contain. */
  lemma ReadsBackExactlyWithoutNul(args: seq<string>)
    ensures Tokenize(Joined(args)) == Some(args) <==> forall i | 0 <= i < |args| :: NulFree(args[i])
  {
    if forall i | 0 <= i < |args| :: NulFree(args[i]) {
      JoinedReadsBack(args);
    } else {
      var i :| 0 <= i < |args| && !NulFree(args[i]);
      JoinedKeepsNul(args, i);
      NulStopsReading(Between, "", Joined(args));
    }
  }
}
