/**
 Command lines: the in-place tokenizer that turns a message into an argument vector.
 */
module CommandLine {
  import opened Common
  import opened Splitting

  const MAX_ARGUMENTS := 30
  const WHITESPACE: set<char> := {' ', '\t', '\r'}
  const FINALS: set<char> := {'\n', '\0'}

  // The text before the first newline or NUL.
  function Text(str: string): string {
    if str == "" || str[0] in FINALS then "" else [str[0]] + Text(str[1..])
  }

  // The arguments of a message: the maximal runs of non-blanks in its text.
  function Tokens(str: string): seq<string> {
    Runs(Text(str), WHITESPACE)
  }

  // What the handlers are given: nothing when there are too many arguments.
  function Parse(str: string): Option<seq<string>> {
    if |Tokens(str)| < MAX_ARGUMENTS then Some(Tokens(str)) else None
  }

  // A character of a C string, which ends in NUL.
  function CharAt(str: string, pos: nat): char
    requires pos <= |str|
  {
    if pos < |str| then str[pos] else '\0'
  }

  // Arguments stored one after the other, each with its NUL.
  function Packed(toks: seq<string>): string {
    if toks == [] then "" else Packed(toks[..|toks| - 1]) + toks[|toks| - 1] + "\0"
  }

  lemma PackedSnoc(toks: seq<string>, t: string)
    ensures Packed(toks + [t]) == Packed(toks) + t + "\0"
  {
    assert (toks + [t])[..|toks|] == toks;
  }

  // Where argument k starts in the packed buffer.
  ghost function Start(toks: seq<string>, k: nat): nat
    requires k <= |toks|
  {
    |Packed(toks[..k])|
  }

  // Argument k starts where the first k arguments end, is followed by its NUL, and lies before
  // the start of argument k + 1.
  lemma {:induction false} PackedSlice(toks: seq<string>, k: nat)
    requires k < |toks|
    ensures var off := Start(toks, k);
            && off + |toks[k]| < |Packed(toks)|
            && Packed(toks)[off..off + |toks[k]|] == toks[k]
            && Packed(toks)[off + |toks[k]|] == '\0'
            && Start(toks, k + 1) == off + |toks[k]| + 1
    decreases |toks|
  {
    var n := |toks| - 1;
    var init := toks[..n];
    assert toks == init + [toks[n]];
    PackedSnoc(toks[..k], toks[k]);
    assert toks[..k + 1] == toks[..k] + [toks[k]];
    if k < n {
      PackedSlice(init, k);
      assert init[..k] == toks[..k];
    } else {
      assert toks[..k] == init;
    }
  }

  lemma {:induction false} TextStops(str: string, pos: nat)
    requires '\0' !in str && pos <= |Text(str)|
    ensures |Text(str)| <= |str|
    ensures pos < |Text(str)| ==> CharAt(str, pos) == Text(str)[pos] && Text(str)[pos] !in FINALS
    ensures pos == |Text(str)| ==> CharAt(str, pos) in FINALS
    decreases |str|
  {
    if str != "" && str[0] !in FINALS {
      assert '\0' !in str[1..];
      TextStops(str[1..], if pos == 0 then 0 else pos - 1);
    }
  }

  datatype State = StInitial | StWhitespace | StArgument | StFinal

  // Where the tokenizer stands in text: done are the finished arguments, cur is the one being
  // copied.
  ghost predicate Standing(text: string, state: State, pos: nat, done: seq<string>, cur: string)
  {
    if state == StFinal then
      cur == "" && Runs(text, WHITESPACE) == done && pos <= |text| + 1
    else
      && pos <= |text|
      && Runs(text, WHITESPACE) == done + RunsFrom(cur, text[pos..], WHITESPACE)
      && (state == StArgument <==> cur != "")
  }

  // Skipping a blank or the end between arguments, closing an argument, or copying a character.
  function Tokenized(state: State, ch: char, done: seq<string>, cur: string): (State, seq<string>, string)
  {
    if ch in FINALS then (StFinal, done + Emit(cur), "")
    else if ch in WHITESPACE then (if state == StArgument then StWhitespace else state, done + Emit(cur), "")
    else (StArgument, done, cur + [ch])
  }

  lemma StandingStep(text: string, state: State, pos: nat, ch: char, done: seq<string>, cur: string)
    requires state != StFinal && Standing(text, state, pos, done, cur)
    requires if pos < |text| then ch == text[pos] && ch !in FINALS else ch in FINALS
    ensures var (state', done', cur') := Tokenized(state, ch, done, cur);
            Standing(text, state', pos + 1, done', cur')
    ensures cur != "" ==> |Runs(text, WHITESPACE)| > |done|
  {
    if pos < |text| {
      assert text[pos..][0] == ch && text[pos..][1..] == text[pos + 1..];
      if ch in WHITESPACE {
        assert done + (Emit(cur) + RunsFrom("", text[pos + 1..], WHITESPACE))
            == (done + Emit(cur)) + RunsFrom("", text[pos + 1..], WHITESPACE);
      }
    } else {
      assert text[pos..] == "";
    }
    RunsFromNonEmpty(cur, text[pos..]);
  }

  lemma {:induction false} RunsFromNonEmpty(cur: string, s: string)
    ensures cur != "" ==> |RunsFrom(cur, s, WHITESPACE)| > 0
    decreases |s|
  {
    if s != "" && s[0] !in WHITESPACE {
      RunsFromNonEmpty(cur + [s[0]], s[1..]);
    }
  }

  lemma StartSnoc(toks: seq<string>, t: string, k: nat)
    requires k <= |toks| + 1
    ensures Start(toks + [t], k) == if k <= |toks| then Start(toks, k) else Start(toks, |toks|) + |t| + 1
  {
    if k <= |toks| {
      assert (toks + [t])[..k] == toks[..k];
    } else {
      assert (toks + [t])[..k] == toks + [t] && toks[..|toks|] == toks;
      PackedSnoc(toks, t);
    }
  }

  ghost predicate Offsets(argv: seq<Option<nat>>, done: seq<string>)
  {
    && |done| < |argv|
    && forall k :: 0 <= k <= |done| ==> argv[k] == Some(Start(done, k))
  }

  lemma OffsetsSnoc(argv: seq<Option<nat>>, done: seq<string>, t: string)
    requires Offsets(argv, done) && |done| + 1 < |argv|
    ensures Offsets(argv[|done| + 1 := Some(Start(done, |done|) + |t| + 1)], done + [t])
  {
    forall k | 0 <= k <= |done| + 1
      ensures argv[|done| + 1 := Some(Start(done, |done|) + |t| + 1)][k] == Some(Start(done + [t], k))
    {
      StartSnoc(done, t, k);
    }
  }

  // The buffers hold the finished arguments done and, after them, the beginning cur of the next.
  ghost predicate Stored(space: seq<char>, argv: seq<Option<nat>>, done: seq<string>, cur: string)
  {
    && Offsets(argv, done)
    && |Packed(done)| + |cur| <= |space|
    && space[..|Packed(done)| + |cur|] == Packed(done) + cur
  }

  lemma StoreChar(space: seq<char>, argv: seq<Option<nat>>, done: seq<string>, cur: string, ch: char)
    requires Stored(space, argv, done, cur) && |Packed(done)| + |cur| < |space|
    ensures Stored(space[|Packed(done)| + |cur| := ch], argv, done, cur + [ch])
    ensures argv[|done|] == Some(|Packed(done)|)
  {
    hide Packed;
    var i := |Packed(done)| + |cur|;
    assert space[i := ch][..i + 1] == space[..i] + [ch];
    assert done[..|done|] == done;
  }

  lemma CloseArgument(space: seq<char>, argv: seq<Option<nat>>, done: seq<string>, cur: string)
    requires Stored(space, argv, done, cur) && |Packed(done)| + |cur| < |space|
    requires |done| + 1 < |argv|
    ensures var i := |Packed(done)| + |cur|;
            && argv[|done|] == Some(|Packed(done)|)
            && |Packed(done + [cur])| == i + 1
            && Stored(space[i := '\0'], argv[|done| + 1 := Some(i + 1)], done + [cur], "")
  {
    var i := |Packed(done)| + |cur|;
    assert space[i := '\0'][..i + 1] == space[..i] + "\0";
    assert done[..|done|] == done;
    PackedSnoc(done, cur);
    OffsetsSnoc(argv, done, cur);
  }

  // Closes the argument being copied, when there is room for one more entry in argv.
  method EndArgument(argSpace: array<char>, argv: array<Option<nat>>, argc: nat, argpos: nat,
                     ghost done: seq<string>, ghost cur: string)
    returns (error: bool)
    requires argv.Length == MAX_ARGUMENTS && argc == |done| < MAX_ARGUMENTS && argpos == |cur|
    requires Stored(argSpace[..], argv[..], done, cur) && |Packed(done)| + |cur| < argSpace.Length
    modifies argSpace, argv
    ensures error <==> argc >= MAX_ARGUMENTS - 1
    ensures error ==> Stored(argSpace[..], argv[..], done, cur)
    ensures !error ==> Stored(argSpace[..], argv[..], done + [cur], "")
    ensures !error ==> |Packed(done + [cur])| == |Packed(done)| + |cur| + 1
  {
    if argc >= MAX_ARGUMENTS - 1 {
      return true;
    }
    CloseArgument(argSpace[..], argv[..], done, cur);
    var base := argv[argc].value;
    argSpace[base + argpos] := '\0';
    argv[argc + 1] := Some(base + argpos + 1);
    return false;
  }

  method CopyChar(ch: char, argSpace: array<char>, argv: array<Option<nat>>, argc: nat, argpos: nat,
                  ghost done: seq<string>, ghost cur: string)
    requires argc == |done| < argv.Length && argpos == |cur| && argSpace != argv as object
    requires Stored(argSpace[..], argv[..], done, cur) && |Packed(done)| + |cur| < argSpace.Length
    modifies argSpace
    ensures Stored(argSpace[..], argv[..], done, cur + [ch])
  {
    StoreChar(argSpace[..], argv[..], done, cur, ch);
    var base := argv[argc].value;
    argSpace[base + argpos] := ch;
  }

  // Tokenizes in place: arguments are copied into a buffer one byte longer than the message, and
  // argv holds their offsets, None standing for NULL.
  method ParseMessage(str: string)
    returns (error: bool, argc: nat, argSpace: array<char>, argv: array<Option<nat>>)
    requires '\0' !in str
    ensures argSpace.Length == |str| + 1 && argv.Length == 30
    ensures error <==> |Tokens(str)| > 29
    ensures error <==> Parse(str) == None
    ensures !error ==>
              var toks := Tokens(str);
              && argc == |toks| && |Packed(toks)| <= |str| + 1
              && argSpace[..|Packed(toks)|] == Packed(toks)
              && (forall k :: 0 <= k < argc ==> argv[k] == Some(Start(toks, k)))
              && argv[argc] == None
  {
    hide Text;
    var state, pos, argpos := StInitial, 0, 0;
    error, argc := false, 0;
    argSpace := new char[|str| + 1];
    argv := new Option<nat>[MAX_ARGUMENTS];
    argv[0] := Some(0);
    ghost var done: seq<string>, cur: string, text := [], "", Text(str);
    assert text[0..] == text;
    while state != StFinal && !error
      invariant argc == |done| < MAX_ARGUMENTS && argpos == |cur|
      invariant !error ==> Standing(text, state, pos, done, cur)
      invariant error ==> |Tokens(str)| >= MAX_ARGUMENTS
      invariant |Packed(done)| + |cur| <= pos <= |str| + 1
      invariant Stored(argSpace[..], argv[..], done, cur)
      decreases |str| + 1 - pos, !error
    {
      TextStops(str, pos);
      var ch := CharAt(str, pos);
      StandingStep(text, state, pos, ch, done, cur);
      pos := pos + 1;
      if state != StArgument && (ch in WHITESPACE || ch in FINALS) {
        assert done + Emit(cur) == done;
        state := if ch in FINALS then StFinal else state;
      } else if ch in FINALS || ch in WHITESPACE {
        error := EndArgument(argSpace, argv, argc, argpos, done, cur);
        if !error {
          argc, argpos := argc + 1, 0;
          done, cur := done + [cur], "";
        }
        state := if ch in FINALS then StFinal else StWhitespace;
      } else {
        CopyChar(ch, argSpace, argv, argc, argpos, done, cur);
        argpos := argpos + 1;
        cur := cur + [ch];
        state := StArgument;
      }
    }
    if !error {
      argv[argc] := None;
    }
  }
}
