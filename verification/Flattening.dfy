/**
 FlattenArgv, the printer of argument vectors, and what printing, framing and tokenizing do to
 each other.
 */
module Flattening {
  import opened Common
  import opened Splitting
  import opened RingBuffer
  import opened CommandLine

  // Each token is non-empty and has no blank, newline or NUL in it.
  ghost predicate CleanTokens(toks: seq<string>) {
    forall i :: 0 <= i < |toks| ==> toks[i] != "" && Free(toks[i], {' ', '\t', '\r', '\n', '\0'})
  }

  // One to twenty-nine such tokens.
  ghost predicate CleanCommand(cmd: seq<string>) {
    1 <= |cmd| <= 29 && CleanTokens(cmd)
  }

  // The tokens with one space between neighbours.
  function Join(toks: seq<string>): string
    requires |toks| > 0
  {
    if |toks| == 1 then toks[0] else toks[0] + " " + Join(toks[1..])
  }

  lemma {:induction false} JoinConcat(a: seq<string>, b: seq<string>)
    requires |a| > 0 && |b| > 0
    ensures Join(a + b) == Join(a) + " " + Join(b)
  {
    if |a| == 1 {
      assert (a + b)[1..] == b;
    } else {
      assert (a + b)[1..] == a[1..] + b;
      JoinConcat(a[1..], b);
    }
  }

  // The tokens with one space after each.
  function Spaced(toks: seq<string>): string {
    if toks == [] then "" else Spaced(toks[..|toks| - 1]) + toks[|toks| - 1] + " "
  }

  lemma {:induction false} SpacedHead(t: string, toks: seq<string>)
    ensures Spaced([t] + toks) == t + " " + Spaced(toks)
    decreases |toks|
  {
    var all := [t] + toks;
    if toks == [] {
      assert all[..0] == [] && Spaced(all) == Spaced([]) + t + " ";
    } else {
      var n := |toks| - 1;
      SpacedHead(t, toks[..n]);
      assert all[..|all| - 1] == [t] + toks[..n];
    }
  }

  lemma {:induction false} SpacedIsJoin(toks: seq<string>)
    requires |toks| > 0
    ensures Spaced(toks) == Join(toks) + " "
    decreases |toks|
  {
    assert toks == [toks[0]] + toks[1..];
    SpacedHead(toks[0], toks[1..]);
    if |toks| > 1 {
      SpacedIsJoin(toks[1..]);
    }
  }

  // The buffer grows by each argument and a space; the last space becomes the final NUL. With no
  // argument at all the code writes before the start of the buffer.
  method FlattenArgv(argv: seq<string>) returns (s: string)
    requires |argv| > 0
    ensures s == Join(argv)
  {
    var buffer: string := "";
    var incLength := 0;
    for i := 0 to |argv|
      invariant buffer == Spaced(argv[..i]) && incLength == |buffer|
    {
      var length := |argv[i]|;
      assert argv[..i + 1][..i] == argv[..i];
      buffer := buffer[..incLength] + argv[i] + " ";
      incLength := incLength + length + 1;
    }
    assert argv[..|argv|] == argv;
    SpacedIsJoin(argv);
    s := buffer[..incLength - 1];
  }

  lemma {:induction false} TextIsFree(s: string)
    ensures Free(Text(s), FINALS)
  {
    if s != "" && s[0] !in FINALS {
      TextIsFree(s[1..]);
    }
  }

  // ----- Any blanks between the tokens -----

  // A gap between two tokens: one or more of these characters.
  ghost predicate Gaps(gaps: seq<string>, blanks: set<char>) {
    forall i :: 0 <= i < |gaps| ==> gaps[i] != "" && Only(gaps[i], blanks)
  }

  // The tokens with these gaps between neighbours.
  function Spread(toks: seq<string>, gaps: seq<string>): string
    requires |toks| == |gaps| + 1
  {
    if |toks| == 1 then toks[0] else toks[0] + gaps[0] + Spread(toks[1..], gaps[1..])
  }

  lemma {:induction false} SpreadOfSpaces(toks: seq<string>)
    requires |toks| > 0
    ensures Spread(toks, seq(|toks| - 1, _ => " ")) == Join(toks)
  {
    if |toks| > 1 {
      SpreadOfSpaces(toks[1..]);
      assert seq(|toks| - 1, _ => " ")[1..] == seq(|toks| - 2, _ => " ");
    }
  }

  lemma {:induction false} SpreadIsFree(toks: seq<string>, gaps: seq<string>, seps: set<char>, blanks: set<char>)
    requires |toks| == |gaps| + 1 && CleanTokens(toks) && Gaps(gaps, blanks)
    requires seps <= {' ', '\t', '\r', '\n', '\0'} && seps !! blanks
    ensures Free(Spread(toks, gaps), seps) && Spread(toks, gaps) != ""
  {
    if |toks| > 1 {
      SpreadIsFree(toks[1..], gaps[1..], seps, blanks);
      assert Free(gaps[0], seps);
    }
  }

  // Tokens with any blanks between them and after them.
  lemma {:induction false} RunsOfSpread(toks: seq<string>, gaps: seq<string>, trail: string)
    requires |toks| == |gaps| + 1 && CleanTokens(toks)
    requires Gaps(gaps, {' ', '\t', '\r'}) && Only(trail, {' ', '\t', '\r'})
    ensures Runs(Spread(toks, gaps) + trail, WHITESPACE) == toks
  {
    assert Free(toks[0], WHITESPACE);
    if |toks| == 1 {
      if trail == "" {
        assert toks[0] + trail == toks[0];
        RunsOfFree(toks[0], WHITESPACE);
      } else {
        RunsHead(toks[0], trail, "", WHITESPACE);
        assert toks[0] + trail + "" == toks[0] + trail;
      }
    } else {
      RunsOfSpread(toks[1..], gaps[1..], trail);
      RunsHead(toks[0], gaps[0], Spread(toks[1..], gaps[1..]) + trail, WHITESPACE);
      assert Spread(toks, gaps) + trail == toks[0] + gaps[0] + (Spread(toks[1..], gaps[1..]) + trail);
    }
  }

  lemma {:induction false} TextStopsAtFinal(s: string, rest: string)
    requires Free(s, {'\n', '\0'}) && (rest == "" || rest[0] in {'\n', '\0'})
    ensures Text(s + rest) == s
    decreases |s|
  {
    if s == "" {
      assert s + rest == rest;
    } else {
      assert (s + rest)[1..] == s[1..] + rest;
      TextStopsAtFinal(s[1..], rest);
    }
  }

  lemma LeadingBlanks(lead: string, s: string)
    requires Only(lead, {' ', '\t', '\r'})
    ensures Runs(lead + s, WHITESPACE) == Runs(s, WHITESPACE)
  {
    if lead == "" {
      assert lead + s == s;
    } else {
      RunsHead("", lead, s, WHITESPACE);
      assert "" + lead + s == lead + s;
    }
  }

  // The tokens of any line: spaces, tabs and carriage returns, in any number, stand before, between
  // and after them, and a line feed or a NUL ends the line, whatever follows. All other characters
  // stay in their tokens. A line is accepted exactly when it has no more than 29 tokens.
  lemma TokensOfLine(lead: string, toks: seq<string>, gaps: seq<string>, trail: string, rest: string)
    requires |toks| == |gaps| + 1 && CleanTokens(toks) && Gaps(gaps, {' ', '\t', '\r'})
    requires Only(lead, {' ', '\t', '\r'}) && Only(trail, {' ', '\t', '\r'})
    requires rest == "" || rest[0] == '\n' || rest[0] == '\0'
    ensures Tokens(lead + (Spread(toks, gaps) + trail) + rest) == toks
    ensures Parse(lead + (Spread(toks, gaps) + trail) + rest) == if |toks| <= 29 then Some(toks) else None
  {
    var line := lead + (Spread(toks, gaps) + trail);
    SpreadIsFree(toks, gaps, {'\n', '\0'}, {' ', '\t', '\r'});
    TextStopsAtFinal(line, rest);
    LeadingBlanks(lead, Spread(toks, gaps) + trail);
    RunsOfSpread(toks, gaps, trail);
  }

  // Tokenizing a printed vector gives the vector back, when it has no more than 29 arguments.
  lemma TokensOfJoin(toks: seq<string>)
    requires |toks| > 0 && CleanTokens(toks)
    ensures Tokens(Join(toks)) == toks
    ensures Parse(Join(toks)) == if |toks| <= 29 then Some(toks) else None
  {
    var gaps := seq(|toks| - 1, _ => " ");
    SpreadOfSpaces(toks);
    TokensOfLine("", toks, gaps, "", "");
    assert "" + (Spread(toks, gaps) + "") + "" == Join(toks);
  }

  lemma {:induction false} RunsKeepFree(run: string, s: string, seps: set<char>, others: set<char>)
    requires Free(run, others) && Free(s, others)
    ensures forall i :: 0 <= i < |RunsFrom(run, s, seps)| ==> Free(RunsFrom(run, s, seps)[i], others)
    decreases |s|
  {
    if s != "" {
      if s[0] in seps {
        RunsKeepFree("", s[1..], seps, others);
      } else {
        RunsKeepFree(run + [s[0]], s[1..], seps, others);
      }
    }
  }

  lemma TokensAreClean(line: string)
    ensures CleanTokens(Tokens(line))
  {
    TextIsFree(line);
    RunsAreClean("", Text(line), WHITESPACE);
    RunsKeepFree("", Text(line), WHITESPACE, FINALS);
  }

  // Printing the tokens of any line gives its single-space normal form: it has the same tokens,
  // and printing its tokens again changes nothing.
  lemma JoinIsNormalForm(line: string)
    requires Tokens(line) != []
    ensures Tokens(Join(Tokens(line))) == Tokens(line)
    ensures Parse(line) == Parse(Join(Tokens(line)))
  {
    TokensAreClean(line);
    TokensOfJoin(Tokens(line));
  }

  // ----- From command vectors to received bytes and back -----

  // The argument vectors that a queue of messages gives rise to.
  function ParseAll(messages: seq<string>): seq<seq<string>> {
    if messages == [] then []
    else
      var rest := ParseAll(messages[1..]);
      match Parse(messages[0]) case None => rest case Some(argv) => [argv] + rest
  }

  lemma {:induction false} ParseAllAppend(a: seq<string>, b: seq<string>)
    ensures ParseAll(a + b) == ParseAll(a) + ParseAll(b)
  {
    if a == [] {
      assert a + b == b;
    } else {
      assert (a + b)[1..] == a[1..] + b;
      ParseAllAppend(a[1..], b);
    }
  }

  // The argument vectors in a stream of received bytes.
  function CommandsIn(bytes: string): seq<seq<string>> {
    ParseAll(Lines(bytes))
  }

  lemma CommandsInConcat(a: string, b: string)
    requires Terminated(a)
    ensures CommandsIn(a + b) == CommandsIn(a) + CommandsIn(b)
  {
    RunsConcat(a, b, TERMINATORS);
    ParseAllAppend(Lines(a), Lines(b));
  }

  // The commands of a peer, with spaces and tabs between the words.
  ghost predicate Sendable(cmds: seq<seq<string>>, gaps: seq<seq<string>>) {
    && |cmds| == |gaps|
    && (forall i :: 0 <= i < |cmds| ==>
          CleanCommand(cmds[i]) && |cmds[i]| == |gaps[i]| + 1 && Gaps(gaps[i], {' ', '\t'}))
  }

  // The lines that it sends for them.
  ghost function LinesOf(cmds: seq<seq<string>>, gaps: seq<seq<string>>): seq<string>
    requires Sendable(cmds, gaps)
  {
    seq(|cmds|, i requires 0 <= i < |cmds| => Spread(cmds[i], gaps[i]))
  }

  // All that it sends, with each line ended in its own way.
  ghost function Wire(cmds: seq<seq<string>>, gaps: seq<seq<string>>, ends: seq<string>): string
    requires Sendable(cmds, gaps) && |cmds| == |ends|
  {
    Framed(LinesOf(cmds, gaps), ends)
  }

  lemma LineOfCommand(cmd: seq<string>, gaps: seq<string>)
    requires CleanCommand(cmd) && |cmd| == |gaps| + 1 && Gaps(gaps, {' ', '\t'})
    ensures MessageText(Spread(cmd, gaps)) && Parse(Spread(cmd, gaps)) == Some(cmd)
  {
    SpreadIsFree(cmd, gaps, {'\r', '\n', '\0'}, {' ', '\t'});
    TokensOfLine("", cmd, gaps, "", "");
    assert "" + (Spread(cmd, gaps) + "") + "" == Spread(cmd, gaps);
  }

  lemma {:induction false} ParseAllLines(cmds: seq<seq<string>>, gaps: seq<seq<string>>)
    requires Sendable(cmds, gaps)
    ensures ParseAll(LinesOf(cmds, gaps)) == cmds
    decreases |cmds|
  {
    if cmds != [] {
      assert Sendable(cmds[1..], gaps[1..]);
      ParseAllLines(cmds[1..], gaps[1..]);
      LineOfCommand(cmds[0], gaps[0]);
      assert LinesOf(cmds, gaps)[1..] == LinesOf(cmds[1..], gaps[1..]);
    }
  }

  // Received, framed and tokenized, the commands come back: all of them, once, in order.
  lemma WireRoundTrip(cmds: seq<seq<string>>, gaps: seq<seq<string>>, ends: seq<string>)
    requires Sendable(cmds, gaps) && |cmds| == |ends|
    requires forall i :: 0 <= i < |ends| ==> MessageEnd(ends[i])
    ensures CommandsIn(Wire(cmds, gaps, ends)) == cmds
  {
    forall i | 0 <= i < |cmds| ensures MessageText(LinesOf(cmds, gaps)[i]) {
      LineOfCommand(cmds[i], gaps[i]);
    }
    FramedReadsBack(LinesOf(cmds, gaps), ends);
    ParseAllLines(cmds, gaps);
  }
}
