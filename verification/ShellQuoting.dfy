/** Quoting an argument list into one remote command line, and reading it back
    by the token recognition and quoting of sections 2.2 and 2.3 of the POSIX
    Shell Command Language. */
module ShellQuoting {
  import opened Text

  predicate Alphanumeric(c: char) {
    'a' <= c <= 'z' || 'A' <= c <= 'Z' || '0' <= c <= '9'
  }

  /** The characters the transport trusts unquoted (unsafeRemoteRune). */
  predicate Safe(c: char) {
    Alphanumeric(c) || c in "_-=/,.:+@%^"
  }

  /** strings.ReplaceAll of every single quote. */
  function Escape(a: string): string {
    if a == [] then []
    else (if a[0] == '\'' then "'\\''" else [a[0]]) + Escape(a[1..])
  }

  predicate IsPlain(a: string) {
    a != [] && forall i :: 0 <= i < |a| ==> Safe(a[i])
  }

  function Quote(a: string): string {
    if IsPlain(a) then a else "'" + Escape(a) + "'"
  }

  function JoinQuoted(argv: seq<string>): string {
    if argv == [] then []
    else if |argv| == 1 then Quote(argv[0])
    else Quote(argv[0]) + " " + JoinQuoted(argv[1..])
  }

  /** The parts, and then strings.Join of them. */
  function JoinParts(parts: seq<string>): string {
    if parts == [] then [] else if |parts| == 1 then parts[0] else parts[0] + " " + JoinParts(parts[1..])
  }

  lemma {:induction false} PartsAreQuoted(argv: seq<string>, parts: seq<string>)
    requires |parts| == |argv| && forall i :: 0 <= i < |argv| ==> parts[i] == Quote(argv[i])
    ensures JoinParts(parts) == JoinQuoted(argv)
  {
    if |argv| > 1 { PartsAreQuoted(argv[1..], parts[1..]); }
  }

  /** sshRemoteJoin: a part per element, then one line. */
  method SshRemoteJoin(argv: seq<string>) returns (line: string)
    ensures line == JoinQuoted(argv)
  {
    var parts := new string[|argv|];
    for i := 0 to |argv|
      invariant forall j :: 0 <= j < i ==> parts[j] == Quote(argv[j])
    {
      var quoted := HasUnsafe(argv[i]);
      if argv[i] != "" && !quoted {
        parts[i] := argv[i];
        continue;
      }
      parts[i] := "'" + Escape(argv[i]) + "'";
    }
    PartsAreQuoted(argv, parts[..]);
    line := JoinParts(parts[..]);
  }

  /** strings.IndexFunc. */
  method HasUnsafe(a: string) returns (found: bool)
    ensures found <==> exists i :: 0 <= i < |a| && !Safe(a[i])
  {
    for i := 0 to |a|
      invariant forall j :: 0 <= j < i ==> Safe(a[j])
    {
      if !Safe(a[i]) { return true; }
    }
    found := false;
  }

  // ---- the remote shell -------------------------------------------------------------

  predicate Blank(c: char) {
    c == ' ' || c == '\t'
  }

  /** Outside quotes these start an operator, an expansion, a pattern or a
      comment: the line would not be a plain list of words. */
  predicate Special(c: char) {
    c in "|&;<>()$`\n*?[#~{}!"
  }

  datatype Mode = Between | InWord(word: string) | InSingle(word: string) | InDouble(word: string)

  /** The words of a line, quotes removed; None when it is not a plain list of
      words or a quote stays open. */
  function Lex(s: string, mode: Mode, done: seq<string>): Option<seq<string>>
    decreases |s|, if mode.Between? then 1 else 0
  {
    match mode
    case Between =>
      if s == [] then Some(done)
      else if Blank(s[0]) then Lex(s[1..], Between, done)
      else Lex(s, InWord([]), done)
    case InWord(w) =>
      if s == [] then Some(done + [w])
      else if Blank(s[0]) then Lex(s[1..], Between, done + [w])
      else if s[0] == '\'' then Lex(s[1..], InSingle(w), done)
      else if s[0] == '"' then Lex(s[1..], InDouble(w), done)
      else if s[0] == '\\' then
        (if |s| < 2 then None
         else if s[1] == '\n' then Lex(s[2..], InWord(w), done)
         else Lex(s[2..], InWord(w + [s[1]]), done))
      else if Special(s[0]) then None
      else Lex(s[1..], InWord(w + [s[0]]), done)
    case InSingle(w) =>
      if s == [] then None
      else if s[0] == '\'' then Lex(s[1..], InWord(w), done)
      else Lex(s[1..], InSingle(w + [s[0]]), done)
    case InDouble(w) =>
      if s == [] || s[0] == '$' || s[0] == '`' then None
      else if s[0] == '"' then Lex(s[1..], InWord(w), done)
      else if s[0] == '\\' && |s| >= 2 && s[1] in "$`\"\\" then Lex(s[2..], InDouble(w + [s[1]]), done)
      else if s[0] == '\\' && |s| >= 2 && s[1] == '\n' then Lex(s[2..], InDouble(w), done)
      else Lex(s[1..], InDouble(w + [s[0]]), done)
  }


  function Words(line: string): Option<seq<string>> {
    Lex(line, Between, [])
  }

  // ---- the round trip -----------------------------------------------------------------

  lemma SafeIsLiteral(c: char)
    requires Safe(c)
    ensures !Blank(c) && !Special(c) && c != '\'' && c != '"' && c != '\\'
  {
    if Alphanumeric(c) { LetterIsLiteral(c); } else { MarkIsLiteral(c); }
  }

  lemma LetterIsLiteral(c: char)
    requires Alphanumeric(c)
    ensures !Blank(c) && !Special(c) && c != '\'' && c != '"' && c != '\\'
  {
  }

  lemma MarkIsLiteral(c: char)
    requires c in "_-=/,.:+@%^"
    ensures !Blank(c) && !Special(c) && c != '\'' && c != '"' && c != '\\'
  {
  }

  lemma {:induction false} LexPlain(a: string, w: string, rest: string, done: seq<string>)
    requires forall i :: 0 <= i < |a| ==> Safe(a[i])
    ensures Lex(a + rest, InWord(w), done) == Lex(rest, InWord(w + a), done)
    decreases |a|
  {
    if a == [] {
      assert a + rest == rest && w + a == w;
    } else {
      SafeIsLiteral(a[0]);
      assert (a + rest)[0] == a[0] && (a + rest)[1..] == a[1..] + rest;
      LexPlain(a[1..], w + [a[0]], rest, done);
      assert w + [a[0]] + a[1..] == w + a;
    }
  }

  lemma {:induction false} LexEscaped(a: string, w: string, rest: string, done: seq<string>)
    ensures Lex(Escape(a) + "'" + rest, InSingle(w), done) == Lex(rest, InWord(w + a), done)
    decreases |a|
  {
    if a == [] {
      assert Escape(a) + "'" + rest == "'" + rest && ("'" + rest)[1..] == rest && w + a == w;
    } else {
      var more := Escape(a[1..]) + "'" + rest;
      LexEscaped(a[1..], w + [a[0]], rest, done);
      assert w + [a[0]] + a[1..] == w + a;
      if a[0] == '\'' {
        EscapedQuote(w, more, done);
        assert Escape(a) + "'" + rest == "'\\''" + more;
      } else {
        assert Escape(a) + "'" + rest == [a[0]] + more;
        assert ([a[0]] + more)[1..] == more;
      }
    }
  }

  /** Close, an escaped quote, and open again. */
  lemma EscapedQuote(w: string, more: string, done: seq<string>)
    ensures Lex("'\\''" + more, InSingle(w), done) == Lex(more, InSingle(w + ['\'']), done)
  {
    var s := "'\\''" + more;
    assert s[0] == '\'' && s[1] == '\\' && s[2] == '\'' && s[3] == '\'';
    assert s[1..][2..] == s[3..] && s[3..][1..] == more;
    assert Lex(s, InSingle(w), done) == Lex(s[1..], InWord(w), done);
    assert Lex(s[1..], InWord(w), done) == Lex(s[3..], InWord(w + ['\'']), done);
    assert Lex(s[3..], InWord(w + ['\'']), done) == Lex(more, InSingle(w + ['\'']), done);
  }

  lemma LexUnquoted(a: string, rest: string, done: seq<string>)
    requires IsPlain(a)
    ensures Lex(a + rest, Between, done) == Lex(rest, InWord(a), done)
  {
    SafeIsLiteral(a[0]);
    assert (a + rest)[0] == a[0];
    LexPlain(a, [], rest, done);
    assert [] + a == a;
  }

  lemma LexSingleQuoted(a: string, rest: string, done: seq<string>)
    ensures Lex("'" + (Escape(a) + "'" + rest), Between, done) == Lex(rest, InWord(a), done)
  {
    var body := Escape(a) + "'" + rest;
    var s := "'" + body;
    assert s[0] == '\'' && s[1..] == body;
    assert Lex(s, InWord([]), done) == Lex(body, InSingle([]), done);
    LexEscaped(a, [], rest, done);
    assert [] + a == a;
  }

  lemma LexQuoted(a: string, rest: string, done: seq<string>)
    ensures Lex(Quote(a) + rest, Between, done) == Lex(rest, InWord(a), done)
  {
    if IsPlain(a) {
      LexUnquoted(a, rest, done);
    } else {
      LexSingleQuoted(a, rest, done);
      QuoteAssoc(Escape(a), rest);
    }
  }

  lemma QuoteAssoc(body: string, rest: string)
    ensures "'" + body + "'" + rest == "'" + (body + "'" + rest)
  {
  }

  lemma LexSeparator(w: string, rest: string, done: seq<string>)
    ensures Lex(" " + rest, InWord(w), done) == Lex(rest, Between, done + [w])
  {
    assert (" " + rest)[0] == ' ' && (" " + rest)[1..] == rest;
  }

  lemma {:induction false} LexJoined(argv: seq<string>, done: seq<string>)
    ensures Lex(JoinQuoted(argv), Between, done) == Some(done + argv)
    decreases |argv|
  {
    if argv == [] {
      assert done + argv == done;
    } else if |argv| == 1 {
      LexLast(argv, done);
    } else {
      LexFirst(argv, done);
      LexJoined(argv[1..], done + [argv[0]]);
      assert done + [argv[0]] + argv[1..] == done + argv;
    }
  }

  lemma LexLast(argv: seq<string>, done: seq<string>)
    requires |argv| == 1
    ensures Lex(JoinQuoted(argv), Between, done) == Some(done + argv)
  {
    LexQuoted(argv[0], [], done);
    assert Quote(argv[0]) + [] == Quote(argv[0]) && argv == [argv[0]];
  }

  lemma LexFirst(argv: seq<string>, done: seq<string>)
    requires |argv| > 1
    ensures Lex(JoinQuoted(argv), Between, done) == Lex(JoinQuoted(argv[1..]), Between, done + [argv[0]])
  {
    var tail := JoinQuoted(argv[1..]);
    JoinedParts(argv);
    LexQuoted(argv[0], " " + tail, done);
    LexSeparator(argv[0], tail, done);
  }

  lemma JoinedParts(argv: seq<string>)
    requires |argv| > 1
    ensures JoinQuoted(argv) == Quote(argv[0]) + (" " + JoinQuoted(argv[1..]))
  {
    assert JoinQuoted(argv) == Quote(argv[0]) + " " + JoinQuoted(argv[1..]);
    SpaceAssoc(Quote(argv[0]), JoinQuoted(argv[1..]));
  }

  lemma SpaceAssoc(a: string, b: string)
    ensures a + " " + b == a + (" " + b)
  {
  }

  /** Every argument list survives the remote shell: splitting the joined line
      gives back exactly the elements, empty ones and embedded quotes included. */
  lemma QuotingRoundTrips(argv: seq<string>)
    ensures Words(JoinQuoted(argv)) == Some(argv)
  {
    LexJoined(argv, []);
    assert [] + argv == argv;
  }

  /** Different argument lists give different lines. */
  lemma QuotingIsInjective(a: seq<string>, b: seq<string>)
    requires JoinQuoted(a) == JoinQuoted(b)
    ensures a == b
  {
    QuotingRoundTrips(a);
    QuotingRoundTrips(b);
  }
}
