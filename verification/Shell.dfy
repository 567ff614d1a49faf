// The part of the token recognition and quoting rules of the POSIX.1-2017 Shell Command Language
// (sections 2.2 and 2.3) that the rcon patterns of execallow.go can reach, and what they make of
// the strings that the patterns accept.
module Shell {
  import opened Text
  import opened ExecAllow

  // ---------- tokens ----------

  // The text of a word is what is left after quote removal.
  datatype Token = Word(text: string) | IoNumber(digits: string) | Semicolon | Greater

  // bare: the word so far is made of unquoted characters.
  datatype Mode = Between | InWord(text: string, bare: bool) | InQuote(text: string)

  // Characters that stand for themselves outside quotes.
  predicate Ordinary(c: char) {
    'a' <= c <= 'z' || 'A' <= c <= 'Z' || '0' <= c <= '9' ||
    c == '/' || c == '-' || c == '_' || c == '.' || c == ',' || c == ':' || c == '+' || c == '@'
  }

  predicate Breaks(c: char) {
    c == ' ' || c == '\t' || c == ';' || c == '>'
  }

  predicate IsNumber(s: string) {
    s != "" && forall c :: c in s ==> '0' <= c <= '9'
  }

  function Joined(tokens: seq<Token>, rest: Option<seq<Token>>): Option<seq<Token>> {
    if rest.None? then None else Some(tokens + rest.value)
  }

  // A word ends; digits right before a redirection are its file descriptor.
  function EndOf(text: string, bare: bool, next: char): Token {
    if bare && IsNumber(text) && next == '>' then IoNumber(text) else Word(text)
  }

  function Following(s: string): char {
    if |s| > 1 then s[1] else ' '
  }

  // What makes another operator of a greater-than sign.
  predicate Extends(c: char) {
    c == '>' || c == '&' || c == '|'
  }

  // The tokens of a string, or None if it leaves a quote open or uses more of the language.
  function Scan(mode: Mode, s: string): Option<seq<Token>>
    decreases |s|, if mode.InWord? then 1 else 0
  {
    match mode
    case Between =>
      if s == "" then Some([])
      else if s[0] == ' ' || s[0] == '\t' then Scan(Between, s[1..])
      else if s[0] == ';' then (if Following(s) == ';' then None else Joined([Semicolon], Scan(Between, s[1..])))
      else if s[0] == '>' then (if Extends(Following(s)) then None else Joined([Greater], Scan(Between, s[1..])))
      else if s[0] == '\'' then Scan(InQuote(""), s[1..])
      else if s[0] == '\\' then (if |s| < 2 || s[1] == '\n' then None else Scan(InWord([s[1]], false), s[2..]))
      else if Ordinary(s[0]) then Scan(InWord([s[0]], true), s[1..])
      else None
    case InWord(text, bare) =>
      if s == "" then Some([Word(text)])
      else if Breaks(s[0]) then Joined([EndOf(text, bare, s[0])], Scan(Between, s))
      else if s[0] == '\'' then Scan(InQuote(text), s[1..])
      else if s[0] == '\\' then (if |s| < 2 || s[1] == '\n' then None else Scan(InWord(text + [s[1]], false), s[2..]))
      else if Ordinary(s[0]) then Scan(InWord(text + [s[0]], bare), s[1..])
      else None
    case InQuote(text) =>
      if s == "" then None
      else if s[0] == '\'' then Scan(InWord(text, false), s[1..])
      else Scan(InQuote(text + [s[0]]), s[1..])
  }

  function Tokens(s: string): Option<seq<Token>> {
    Scan(Between, s)
  }

  // ---------- commands ----------

  // A simple command: its words, and the files that descriptors are redirected to.
  datatype Simple = Simple(words: seq<string>, redirects: seq<(string, string)>)

  function ParseFrom(sofar: Simple, tokens: seq<Token>): Option<seq<Simple>>
    decreases |tokens|
  {
    if tokens == [] then Some([sofar])
    else
      match tokens[0]
      case Word(text) => ParseFrom(sofar.(words := sofar.words + [text]), tokens[1..])
      case Semicolon =>
        var rest := ParseFrom(Simple([], []), tokens[1..]);
        if rest.None? then None else Some([sofar] + rest.value)
      case IoNumber(n) =>
        if |tokens| >= 3 && tokens[1] == Greater && tokens[2].Word?
        then ParseFrom(sofar.(redirects := sofar.redirects + [(n, tokens[2].text)]), tokens[3..])
        else None
      case Greater =>
        if |tokens| >= 2 && tokens[1].Word?
        then ParseFrom(sofar.(redirects := sofar.redirects + [("1", tokens[1].text)]), tokens[2..])
        else None
  }

  // The commands of a token list, read from its end; a redirection may name its descriptor.
  function Parse(tokens: seq<Token>): Option<seq<Simple>> {
    ParseFrom(Simple([], []), tokens)
  }

  function Commands(s: string): Option<seq<Simple>> {
    if Tokens(s).None? then None else Parse(Tokens(s).value)
  }

  lemma JoinedTwice(a: seq<Token>, b: seq<Token>, rest: Option<seq<Token>>)
    ensures Joined(a, Joined(b, rest)) == Joined(a + b, rest)
    ensures Joined([], rest) == rest
  {
    if rest.Some? {
      assert a + (b + rest.value) == (a + b) + rest.value && [] + rest.value == rest.value;
    }
  }

  // ---------- what the accepted strings say ----------

  const DROP_ERRORS := ("2", "/dev/null")

  function RedirectTokens(quiet: bool): seq<Token> {
    if quiet then [IoNumber("2"), Greater, Word("/dev/null")] else []
  }

  function CallTokens(c: Command): seq<Token> {
    [Word("rcon"), Word(c.value)] + RedirectTokens(c.quiet)
  }

  function MoreTokens(batch: seq<Command>): seq<Token> {
    if batch == [] then [] else [Semicolon] + CallTokens(batch[0]) + MoreTokens(batch[1..])
  }

  function WordTokens(values: seq<string>): seq<Token> {
    seq(|values|, i requires 0 <= i < |values| => Word(values[i]))
  }

  function Redirects(quiet: bool): seq<(string, string)> {
    if quiet then [DROP_ERRORS] else []
  }

  function Meaning(c: Command): Simple {
    Simple(["rcon", c.value], Redirects(c.quiet))
  }

  function Meanings(batch: seq<Command>): seq<Simple> {
    seq(|batch|, i requires 0 <= i < |batch| => Meaning(batch[i]))
  }

  // The splice leaves the quotes, adds one quote, and enters them again.
  lemma SpliceScans(text: string, rest: string)
    ensures Scan(InQuote(text), SPLICE + rest) == Scan(InQuote(text + ['\'']), rest)
  {
    var s, s1, s3 := SPLICE + rest, "\\''" + rest, "'" + rest;
    assert s[0] == '\'' && s[1..] == s1;
    assert Scan(InQuote(text), s) == Scan(InWord(text, false), s1);
    assert s1[0] == '\\' && s1[1] == '\'' && s1[2..] == s3;
    assert Scan(InWord(text, false), s1) == Scan(InWord(text + ['\''], false), s3);
    assert s3[0] == '\'' && s3[1..] == rest;
  }

  // A quoted value is read back, whatever it holds and whatever follows.
  lemma {:induction false} QuotedScans(text: string, value: string, rest: string)
    ensures Scan(InQuote(text), Quoted(value) + ("'" + rest)) == Scan(InWord(text + value, false), rest)
    decreases |value|
  {
    if value == "" {
      assert text + value == text;
      assert Quoted(value) + ("'" + rest) == ['\''] + rest;
    } else {
      var tail := Quoted(value[1..]) + ("'" + rest);
      QuotedScans(text + [value[0]], value[1..], rest);
      assert text + [value[0]] + value[1..] == text + value;
      if value[0] == '\'' {
        SpliceScans(text, tail);
        assert Quoted(value) + ("'" + rest) == SPLICE + tail;
      } else {
        assert Quoted(value) + ("'" + rest) == [value[0]] + tail;
      }
    }
  }

  // What comes right after a word here: nothing, a blank or a semicolon.
  predicate EndsWord(rest: string) {
    rest == "" || rest[0] == ' ' || rest[0] == ';'
  }

  lemma WordEnds(text: string, rest: string)
    requires EndsWord(rest)
    ensures Scan(InWord(text, false), rest) == Joined([Word(text)], Scan(Between, rest))
    ensures Scan(InWord(text, true), rest) == Joined([Word(text)], Scan(Between, rest))
  {
    assert [Word(text)] + [] == [Word(text)];
  }

  lemma WordScans(value: string, rest: string)
    requires EndsWord(rest)
    ensures Scan(Between, RenderWord(value) + rest) == Joined([Word(value)], Scan(Between, rest))
  {
    var s := RenderWord(value) + rest;
    QuotedScans("", value, rest);
    WordEnds(value, rest);
    assert "" + value == value;
    assert s[0] == ' ' && s[1..][0] == '\'' && s[1..][1..] == Quoted(value) + ("'" + rest);
  }

  // A name of ordinary characters is one word.
  lemma {:induction false} NameScans(text: string, name: string, rest: string)
    requires EndsWord(rest) && forall c :: c in name ==> Ordinary(c)
    ensures Scan(InWord(text, true), name + rest) == Joined([Word(text + name)], Scan(Between, rest))
    decreases |name|
  {
    if name == "" {
      assert name + rest == rest && text + name == text;
      WordEnds(text, rest);
    } else {
      assert name[0] in name && forall c :: c in name[1..] ==> c in name;
      NameScans(text + [name[0]], name[1..], rest);
      var s := name + rest;
      assert s[0] == name[0] && s[1..] == name[1..] + rest;
      assert text + [name[0]] + name[1..] == text + name;
    }
  }

  lemma RconScans(rest: string)
    requires EndsWord(rest)
    ensures Scan(Between, "rcon" + rest) == Joined([Word("rcon")], Scan(Between, rest))
  {
    var s := "rcon" + rest;
    NameScans("r", "con", rest);
    assert s[0] == 'r' && s[1..] == "con" + rest && "r" + "con" == "rcon";
  }

  lemma GreaterScans(rest: string)
    requires rest != "" && rest[0] == '/'
    ensures Scan(Between, ">" + rest) == Joined([Greater], Scan(Between, rest))
  {
    var s := ">" + rest;
    assert s[0] == '>' && s[1..] == rest && Following(s) == '/';
  }

  lemma DescriptorScans(rest: string)
    ensures Scan(Between, " 2" + (">" + rest)) == Joined([IoNumber("2")], Scan(Between, ">" + rest))
  {
    var s, s1, s2 := " 2" + (">" + rest), "2" + (">" + rest), ">" + rest;
    assert s[0] == ' ' && s[1..] == s1 && s1[0] == '2' && s1[1..] == s2 && s2[0] == '>';
    assert IsNumber("2");
    assert Scan(Between, s1) == Scan(InWord("2", true), s2);
  }

  lemma SinkScans(rest: string)
    requires EndsWord(rest)
    ensures Scan(Between, "/dev/null" + rest) == Joined([Word("/dev/null")], Scan(Between, rest))
  {
    var s := "/dev/null" + rest;
    NameScans("/", "dev/null", rest);
    assert s[0] == '/' && s[1..] == "dev/null" + rest && "/" + "dev/null" == "/dev/null";
  }

  lemma RedirectScans(quiet: bool, rest: string)
    requires rest == "" || rest[0] == ';'
    ensures EndsWord(Redirect(quiet) + rest)
    ensures Scan(Between, Redirect(quiet) + rest) == Joined(RedirectTokens(quiet), Scan(Between, rest))
  {
    hide Scan;
    if quiet {
      SinkScans(rest);
      GreaterScans("/dev/null" + rest);
      DescriptorScans("/dev/null" + rest);
      assert Redirect(quiet) + rest == " 2" + (">" + ("/dev/null" + rest));
      assert [Greater] + [Word("/dev/null")] == [Greater, Word("/dev/null")];
      assert [IoNumber("2")] + [Greater, Word("/dev/null")] == RedirectTokens(quiet);
      JoinedTwice([Greater], [Word("/dev/null")], Scan(Between, rest));
      JoinedTwice([IoNumber("2")], [Greater, Word("/dev/null")], Scan(Between, rest));
    } else {
      JoinedTwice([], [], Scan(Between, rest));
      assert Redirect(quiet) + rest == rest;
    }
  }

  lemma CallSplits(c: Command, rest: string)
    ensures RenderCall(c.value, c.quiet) + rest == "rcon" + (RenderWord(c.value) + (Redirect(c.quiet) + rest))
  {
    var q, r := Quoted(c.value), Redirect(c.quiet);
    assert "rcon '" == "rcon" + " '";
    calc {
      RenderCall(c.value, c.quiet) + rest;
      "rcon '" + (q + ("'" + r)) + rest;
      "rcon" + (" '" + (q + "'") + (r + rest));
    }
  }

  lemma CallScans(c: Command, rest: string)
    requires rest == "" || rest[0] == ';'
    ensures Scan(Between, RenderCall(c.value, c.quiet) + rest) == Joined(CallTokens(c), Scan(Between, rest))
  {
    var tail := Redirect(c.quiet) + rest;
    RedirectScans(c.quiet, rest);
    CallSplits(c, rest);
    WordScans(c.value, tail);
    assert (RenderWord(c.value) + tail)[0] == ' ';
    RconScans(RenderWord(c.value) + tail);
    hide Scan, RenderCall, RenderWord, Redirect, Joined;
    JoinedTwice([Word(c.value)], RedirectTokens(c.quiet), Scan(Between, rest));
    JoinedTwice([Word("rcon")], [Word(c.value)] + RedirectTokens(c.quiet), Scan(Between, rest));
    assert [Word("rcon")] + ([Word(c.value)] + RedirectTokens(c.quiet)) == CallTokens(c);
  }

  lemma SemicolonScans(rest: string)
    ensures Scan(Between, "; " + rest) == Joined([Semicolon], Scan(Between, rest))
  {
    var s, s1 := "; " + rest, " " + rest;
    assert s[0] == ';' && Following(s) == ' ' && s[1..] == s1 && s1[0] == ' ' && s1[1..] == rest;
  }

  lemma MoreSplits(batch: seq<Command>)
    requires batch != []
    ensures RenderMore(batch) == "; " + (RenderCall(batch[0].value, batch[0].quiet) + RenderMore(batch[1..]))
    ensures RenderMore(batch)[0] == ';'
  {
    hide RenderCall;
  }

  lemma {:induction false} MoreScans(batch: seq<Command>)
    ensures RenderMore(batch) == "" || RenderMore(batch)[0] == ';'
    ensures Scan(Between, RenderMore(batch)) == Some(MoreTokens(batch))
  {
    if batch != [] {
      var rest, call := RenderMore(batch[1..]), RenderCall(batch[0].value, batch[0].quiet);
      MoreScans(batch[1..]);
      CallScans(batch[0], rest);
      SemicolonScans(call + rest);
      MoreSplits(batch);
      hide Scan, RenderCall, RenderMore;
      assert [Semicolon] + (CallTokens(batch[0]) + MoreTokens(batch[1..])) == MoreTokens(batch);
    }
  }

  lemma {:induction false} WordsScan(values: seq<string>, tail: string)
    requires EndsWord(tail)
    ensures EndsWord(RenderWords(values) + tail)
    ensures Scan(Between, RenderWords(values) + tail) == Joined(WordTokens(values), Scan(Between, tail))
  {
    hide Scan;
    if values == [] {
      assert RenderWords(values) + tail == tail && WordTokens(values) == [];
      JoinedTwice([], [], Scan(Between, tail));
    } else {
      WordsScan(values[1..], tail);
      WordScans(values[0], RenderWords(values[1..]) + tail);
      assert RenderWords(values) + tail == RenderWord(values[0]) + (RenderWords(values[1..]) + tail);
      assert WordTokens(values) == [Word(values[0])] + WordTokens(values[1..]);
      JoinedTwice([Word(values[0])], WordTokens(values[1..]), Scan(Between, tail));
    }
  }

  // ---------- tokens to commands ----------

  lemma ParseQuiet(sofar: Simple, rest: seq<Token>)
    ensures ParseFrom(sofar, RedirectTokens(true) + rest) == ParseFrom(sofar.(redirects := sofar.redirects + [DROP_ERRORS]), rest)
  {
    var tokens := RedirectTokens(true) + rest;
    assert tokens[0] == IoNumber("2") && tokens[1] == Greater && tokens[2] == Word("/dev/null") && tokens[3..] == rest;
  }

  lemma ParseRedirect(words: seq<string>, quiet: bool, rest: seq<Token>)
    ensures ParseFrom(Simple(words, []), RedirectTokens(quiet) + rest) == ParseFrom(Simple(words, Redirects(quiet)), rest)
  {
    hide ParseFrom;
    if quiet {
      ParseQuiet(Simple(words, []), rest);
      assert [] + [DROP_ERRORS] == [DROP_ERRORS];
    } else {
      assert RedirectTokens(quiet) + rest == rest;
    }
  }

  lemma {:induction false} ParseWords(sofar: Simple, values: seq<string>, rest: seq<Token>)
    ensures ParseFrom(sofar, WordTokens(values) + rest) == ParseFrom(sofar.(words := sofar.words + values), rest)
    decreases |values|
  {
    var tokens := WordTokens(values) + rest;
    if values == [] {
      assert tokens == rest && sofar.words + values == sofar.words;
    } else {
      assert tokens[0] == Word(values[0]) && tokens[1..] == WordTokens(values[1..]) + rest;
      ParseWords(sofar.(words := sofar.words + [values[0]]), values[1..], rest);
      assert sofar.words + [values[0]] + values[1..] == sofar.words + values;
    }
  }

  lemma ParseCall(c: Command, rest: seq<Token>)
    ensures ParseFrom(Simple([], []), CallTokens(c) + rest) == ParseFrom(Meaning(c), rest)
  {
    hide ParseFrom;
    var words := ["rcon", c.value];
    assert CallTokens(c) + rest == WordTokens(words) + (RedirectTokens(c.quiet) + rest);
    ParseWords(Simple([], []), words, RedirectTokens(c.quiet) + rest);
    assert [] + words == words;
    ParseRedirect(words, c.quiet, rest);
  }

  lemma {:induction false} ParseMore(sofar: Simple, batch: seq<Command>)
    ensures ParseFrom(sofar, MoreTokens(batch)) == Some([sofar] + Meanings(batch))
    decreases |batch|
  {
    if batch != [] {
      var tokens := MoreTokens(batch);
      assert tokens[0] == Semicolon && tokens[1..] == CallTokens(batch[0]) + MoreTokens(batch[1..]);
      ParseCall(batch[0], MoreTokens(batch[1..]));
      ParseMore(Meaning(batch[0]), batch[1..]);
      assert Meanings(batch) == [Meaning(batch[0])] + Meanings(batch[1..]);
    } else {
      assert [sofar] + Meanings(batch) == [sofar];
    }
  }

  // ---------- the theorems ----------

  // A rendered batch reads as rcon commands of one argument each: the values that were quoted.
  lemma BatchReads(batch: seq<Command>)
    requires batch != []
    ensures Commands(RenderBatch(batch)) == Some(Meanings(batch))
  {
    hide Scan, ParseFrom;
    var more := RenderMore(batch[1..]);
    MoreScans(batch[1..]);
    CallScans(batch[0], more);
    ParseCall(batch[0], MoreTokens(batch[1..]));
    ParseMore(Meaning(batch[0]), batch[1..]);
    assert Meanings(batch) == [Meaning(batch[0])] + Meanings(batch[1..]);
  }

  lemma PollSplits(values: seq<string>, quiet: bool)
    requires values != []
    ensures RenderPoll(values, quiet) == "rcon" + (RenderWords(values) + Redirect(quiet))
  {
    hide RenderWord, Redirect;
    assert RenderWords(values) == RenderWord(values[0]) + RenderWords(values[1..]);
  }

  lemma NothingScans()
    ensures Scan(Between, "") == Some([])
  {
  }

  lemma RconFirst(values: seq<string>)
    ensures WordTokens(["rcon"] + values) == [Word("rcon")] + WordTokens(values)
  {
  }

  lemma PollScans(values: seq<string>, quiet: bool)
    requires values != []
    ensures Tokens(RenderPoll(values, quiet)) == Some(WordTokens(["rcon"] + values) + (RedirectTokens(quiet) + []))
  {
    hide Scan, Redirect, RenderWords, RenderPoll, WordTokens, RedirectTokens;
    var words, redirects := WordTokens(values), RedirectTokens(quiet);
    NothingScans();
    RedirectScans(quiet, "");
    WordsScan(values, Redirect(quiet));
    RconScans(RenderWords(values) + Redirect(quiet));
    PollSplits(values, quiet);
    assert Redirect(quiet) + "" == Redirect(quiet);
    RconFirst(values);
    assert [Word("rcon")] + (words + (redirects + [])) == [Word("rcon")] + words + (redirects + []);
  }

  // A rendered poll reads as one rcon command with one argument for each value.
  lemma PollReads(values: seq<string>, quiet: bool)
    requires values != []
    ensures Commands(RenderPoll(values, quiet)) == Some([Simple(["rcon"] + values, Redirects(quiet))])
  {
    PollScans(values, quiet);
    hide Scan;
    var words := ["rcon"] + values;
    ParseWords(Simple([], []), words, RedirectTokens(quiet) + []);
    assert [] + words == words;
    ParseRedirect(words, quiet, []);
  }

  predicate RunsRconOnly(c: Simple) {
    |c.words| >= 2 && c.words[0] == "rcon" && (c.redirects == [] || c.redirects == [DROP_ERRORS])
  }

  // Whatever string either pattern accepts, the shell reads it as rcon commands and nothing else;
  // and the string is the quoting of the arguments that it is read as.
  lemma AcceptedStringsRunRconOnly(s: string) returns (commands: seq<Simple>)
    requires Matches(BATCH, s) || Matches(POLL, s)
    ensures Commands(s) == Some(commands) && commands != [] && forall c :: c in commands ==> RunsRconOnly(c)
    ensures Matches(BATCH, s) ==>
              exists batch: seq<Command> :: batch != [] && s == RenderBatch(batch) && commands == Meanings(batch)
    ensures Matches(POLL, s) ==>
              exists values: seq<string>, quiet: bool ::
                values != [] && s == RenderPoll(values, quiet) && commands == [Simple(["rcon"] + values, Redirects(quiet))]
  {
    hide Commands, Matches;
    BatchAcceptedIff(s);
    PollAcceptedIff(s);
    if Matches(POLL, s) {
      var values: seq<string>, quiet: bool :| values != [] && s == RenderPoll(values, quiet);
      PollReads(values, quiet);
      commands := [Simple(["rcon"] + values, Redirects(quiet))];
    }
    if Matches(BATCH, s) {
      var batch: seq<Command> :| batch != [] && s == RenderBatch(batch);
      BatchReads(batch);
      commands := Meanings(batch);
    }
  }

  // Any values at all, quoted with the splice, are accepted and read back as they were.
  lemma QuotedValuesRoundTrip(batch: seq<Command>)
    requires batch != []
    ensures Matches(BATCH, RenderBatch(batch))
    ensures Commands(RenderBatch(batch)).Some? && |Commands(RenderBatch(batch)).value| == |batch|
    ensures forall i :: 0 <= i < |batch| ==>
              Commands(RenderBatch(batch)).value[i] == Simple(["rcon", batch[i].value], Redirects(batch[i].quiet))
  {
    hide Matches;
    BatchAcceptedIff(RenderBatch(batch));
    BatchReads(batch);
  }
}
