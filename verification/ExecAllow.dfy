// pulp-cell/execallow/execallow.go: the two rcon patterns of the exec gate, and what a POSIX shell
// makes of the strings that they accept.
module ExecAllow {

  // ---------- the patterns ----------

  datatype Regex =
    | Lit(text: string)
    | NotQuote
    | Cat(first: Regex, second: Regex)
    | Alt(left: Regex, right: Regex)
    | Star(inner: Regex)

  function Opt(r: Regex): Regex {
    Alt(r, Lit(""))
  }

  // The pattern, anchored at both ends, matches the string.
  ghost predicate Matches(r: Regex, s: string)
    decreases |s|, r
  {
    match r
    case Lit(text) => s == text
    case NotQuote => |s| == 1 && s[0] != '\''
    case Cat(a, b) => exists i :: 0 <= i <= |s| && Matches(a, s[..i]) && Matches(b, s[i..])
    case Alt(a, b) => Matches(a, s) || Matches(b, s)
    case Star(a) => s == "" || exists i :: 0 < i <= |s| && Matches(a, s[..i]) && Matches(r, s[i..])
  }

  const SPLICE := "'\\''"
  const SQ_ARG := Star(Alt(NotQuote, Lit(SPLICE)))
  const QUIET := Opt(Lit(" 2>/dev/null"))
  const CALL := Cat(Lit("rcon '"), Cat(SQ_ARG, Cat(Lit("'"), QUIET)))
  const BATCH := Cat(CALL, Star(Cat(Lit("; "), CALL)))
  const WORD := Cat(Lit(" '"), Cat(SQ_ARG, Lit("'")))
  const POLL := Cat(Lit("rcon"), Cat(WORD, Cat(Star(WORD), QUIET)))

  // ---------- what they accept ----------

  // A value in single quotes, each quote in it written as the splice.
  function Quoted(value: string): string {
    if value == "" then ""
    else (if value[0] == '\'' then SPLICE else [value[0]]) + Quoted(value[1..])
  }

  function Redirect(quiet: bool): string {
    if quiet then " 2>/dev/null" else ""
  }

  function RenderCall(value: string, quiet: bool): string {
    "rcon '" + (Quoted(value) + ("'" + Redirect(quiet)))
  }

  // One rcon command of a batch: its only argument, and whether its errors are thrown away.
  datatype Command = Command(value: string, quiet: bool)

  function RenderMore(batch: seq<Command>): string {
    if batch == [] then ""
    else ("; " + RenderCall(batch[0].value, batch[0].quiet)) + RenderMore(batch[1..])
  }

  function RenderBatch(batch: seq<Command>): string
    requires batch != []
  {
    RenderCall(batch[0].value, batch[0].quiet) + RenderMore(batch[1..])
  }

  function RenderWord(value: string): string {
    " '" + (Quoted(value) + "'")
  }

  function RenderWords(values: seq<string>): string {
    if values == [] then "" else RenderWord(values[0]) + RenderWords(values[1..])
  }

  function RenderPoll(values: seq<string>, quiet: bool): string
    requires values != []
  {
    "rcon" + (RenderWord(values[0]) + (RenderWords(values[1..]) + Redirect(quiet)))
  }

  // ---------- matching concatenations ----------

  lemma MatchesCat(a: Regex, b: Regex, s: string, t: string)
    requires Matches(a, s) && Matches(b, t)
    ensures Matches(Cat(a, b), s + t)
  {
    assert (s + t)[..|s|] == s && (s + t)[|s|..] == t;
  }

  lemma CatSplits(a: Regex, b: Regex, s: string) returns (x: string, y: string)
    requires Matches(Cat(a, b), s)
    ensures s == x + y && Matches(a, x) && Matches(b, y)
  {
    var i :| 0 <= i <= |s| && Matches(a, s[..i]) && Matches(b, s[i..]);
    x, y := s[..i], s[i..];
  }

  lemma MatchesStar(a: Regex, s: string, t: string)
    requires s != "" && Matches(a, s) && Matches(Star(a), t)
    ensures Matches(Star(a), s + t)
  {
    assert (s + t)[..|s|] == s && (s + t)[|s|..] == t;
  }

  lemma StarSplits(a: Regex, s: string) returns (x: string, y: string)
    requires s != "" && Matches(Star(a), s)
    ensures s == x + y && x != "" && Matches(a, x) && Matches(Star(a), y)
  {
    var i :| 0 < i <= |s| && Matches(a, s[..i]) && Matches(Star(a), s[i..]);
    x, y := s[..i], s[i..];
  }

  // ---------- the languages of the patterns ----------

  // The body of a quoted argument matches exactly when it is the quoting of some value.
  lemma {:induction false} QuotedMatches(value: string)
    ensures Matches(SQ_ARG, Quoted(value))
  {
    if value != "" {
      QuotedMatches(value[1..]);
      var unit := if value[0] == '\'' then SPLICE else [value[0]];
      assert Matches(Alt(NotQuote, Lit(SPLICE)), unit);
      MatchesStar(Alt(NotQuote, Lit(SPLICE)), unit, Quoted(value[1..]));
    }
  }

  lemma {:induction false} MatchedIsQuoted(s: string) returns (value: string)
    requires Matches(SQ_ARG, s)
    ensures s == Quoted(value)
    decreases |s|
  {
    if s == "" {
      value := "";
    } else {
      var x, y := StarSplits(Alt(NotQuote, Lit(SPLICE)), s);
      assert Matches(NotQuote, x) || Matches(Lit(SPLICE), x);
      var rest := MatchedIsQuoted(y);
      value := (if x == SPLICE then "'" else x) + rest;
      assert value[1..] == rest;
    }
  }

  lemma MatchedIsRedirect(s: string)
    ensures Matches(QUIET, s) <==> s == Redirect(s != "")
  {
    assert Matches(QUIET, s) <==> Matches(Lit(" 2>/dev/null"), s) || Matches(Lit(""), s);
  }

  lemma CallMatches(c: Command)
    ensures Matches(CALL, RenderCall(c.value, c.quiet))
  {
    QuotedMatches(c.value);
    MatchedIsRedirect(Redirect(c.quiet));
    MatchesCat(Lit("'"), QUIET, "'", Redirect(c.quiet));
    MatchesCat(SQ_ARG, Cat(Lit("'"), QUIET), Quoted(c.value), "'" + Redirect(c.quiet));
    MatchesCat(Lit("rcon '"), Cat(SQ_ARG, Cat(Lit("'"), QUIET)), "rcon '", Quoted(c.value) + ("'" + Redirect(c.quiet)));
  }

  lemma MatchedIsCall(s: string) returns (c: Command)
    requires Matches(CALL, s)
    ensures s == RenderCall(c.value, c.quiet)
  {
    var head, s1 := CatSplits(Lit("rcon '"), Cat(SQ_ARG, Cat(Lit("'"), QUIET)), s);
    var body, s2 := CatSplits(SQ_ARG, Cat(Lit("'"), QUIET), s1);
    var close, tail := CatSplits(Lit("'"), QUIET, s2);
    var value := MatchedIsQuoted(body);
    MatchedIsRedirect(tail);
    c := Command(value, tail != "");
  }

  lemma {:induction false} MoreMatches(batch: seq<Command>)
    ensures Matches(Star(Cat(Lit("; "), CALL)), RenderMore(batch))
  {
    if batch != [] {
      var call := RenderCall(batch[0].value, batch[0].quiet);
      MoreMatches(batch[1..]);
      CallMatches(batch[0]);
      MatchesCat(Lit("; "), CALL, "; ", call);
      MatchesStar(Cat(Lit("; "), CALL), "; " + call, RenderMore(batch[1..]));
    }
  }

  lemma {:induction false} MatchedIsMore(s: string) returns (batch: seq<Command>)
    requires Matches(Star(Cat(Lit("; "), CALL)), s)
    ensures s == RenderMore(batch)
    decreases |s|
  {
    if s == "" {
      batch := [];
    } else {
      var x, y := StarSplits(Cat(Lit("; "), CALL), s);
      var sep, call := CatSplits(Lit("; "), CALL, x);
      var c := MatchedIsCall(call);
      var rest := MatchedIsMore(y);
      batch := [c] + rest;
      assert batch[1..] == rest;
    }
  }

  // The batch pattern accepts exactly the renderings of batches.
  lemma BatchAcceptedIff(s: string)
    ensures Matches(BATCH, s) <==> exists batch: seq<Command> :: batch != [] && s == RenderBatch(batch)
  {
    if Matches(BATCH, s) {
      var call, more := CatSplits(CALL, Star(Cat(Lit("; "), CALL)), s);
      var c := MatchedIsCall(call);
      var rest := MatchedIsMore(more);
      assert ([c] + rest)[1..] == rest;
      assert s == RenderBatch([c] + rest);
    }
    if batch: seq<Command> :| batch != [] && s == RenderBatch(batch) {
      CallMatches(batch[0]);
      MoreMatches(batch[1..]);
      MatchesCat(CALL, Star(Cat(Lit("; "), CALL)), RenderCall(batch[0].value, batch[0].quiet), RenderMore(batch[1..]));
    }
  }

  lemma WordMatches(value: string)
    ensures Matches(WORD, RenderWord(value))
  {
    QuotedMatches(value);
    MatchesCat(SQ_ARG, Lit("'"), Quoted(value), "'");
    MatchesCat(Lit(" '"), Cat(SQ_ARG, Lit("'")), " '", Quoted(value) + "'");
  }

  lemma MatchedIsWord(s: string) returns (value: string)
    requires Matches(WORD, s)
    ensures s == RenderWord(value)
  {
    var open, s1 := CatSplits(Lit(" '"), Cat(SQ_ARG, Lit("'")), s);
    var body, close := CatSplits(SQ_ARG, Lit("'"), s1);
    value := MatchedIsQuoted(body);
  }

  lemma {:induction false} WordsMatch(values: seq<string>)
    ensures Matches(Star(WORD), RenderWords(values))
  {
    if values != [] {
      WordsMatch(values[1..]);
      WordMatches(values[0]);
      MatchesStar(WORD, RenderWord(values[0]), RenderWords(values[1..]));
    }
  }

  lemma {:induction false} MatchedIsWords(s: string) returns (values: seq<string>)
    requires Matches(Star(WORD), s)
    ensures s == RenderWords(values)
    decreases |s|
  {
    if s == "" {
      values := [];
    } else {
      var x, y := StarSplits(WORD, s);
      var value := MatchedIsWord(x);
      var rest := MatchedIsWords(y);
      values := [value] + rest;
      assert values[1..] == rest;
    }
  }

  // The poll pattern accepts exactly the renderings of polls.
  lemma PollAcceptedIff(s: string)
    ensures Matches(POLL, s) <==> exists values: seq<string>, quiet: bool :: values != [] && s == RenderPoll(values, quiet)
  {
    if Matches(POLL, s) {
      var head, s1 := CatSplits(Lit("rcon"), Cat(WORD, Cat(Star(WORD), QUIET)), s);
      var word, s2 := CatSplits(WORD, Cat(Star(WORD), QUIET), s1);
      var words, tail := CatSplits(Star(WORD), QUIET, s2);
      var value := MatchedIsWord(word);
      var rest := MatchedIsWords(words);
      assert ([value] + rest)[1..] == rest;
      MatchedIsRedirect(tail);
      assert s == RenderPoll([value] + rest, tail != "");
    }
    if values: seq<string>, quiet: bool :| values != [] && s == RenderPoll(values, quiet) {
      WordMatches(values[0]);
      WordsMatch(values[1..]);
      MatchedIsRedirect(Redirect(quiet));
      MatchesCat(Star(WORD), QUIET, RenderWords(values[1..]), Redirect(quiet));
      MatchesCat(WORD, Cat(Star(WORD), QUIET), RenderWord(values[0]), RenderWords(values[1..]) + Redirect(quiet));
      MatchesCat(Lit("rcon"), Cat(WORD, Cat(Star(WORD), QUIET)), "rcon",
                 RenderWord(values[0]) + (RenderWords(values[1..]) + Redirect(quiet)));
    }
  }
}
