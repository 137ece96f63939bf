/**
 The receive ring and message framing. The buffer behind it is a foreign library; it is modelled
 by the bytes it holds and the room it has.
 */
module RingBuffer {
  import opened Common
  import opened Splitting

  const TERMINATORS: set<char> := {'\r', '\n', '\0'}

  // Position of the first terminator, or the length.
  function FirstTerminator(s: string): (k: nat)
    ensures k <= |s|
    ensures k < |s| ==> s[k] in TERMINATORS
    ensures forall j :: 0 <= j < k ==> s[j] !in TERMINATORS
  {
    if s == "" || s[0] in TERMINATORS then 0 else 1 + FirstTerminator(s[1..])
  }

  // When reading a string from s stays inside the data. Otherwise the scan for a terminator,
  // whose counter is unsigned, runs past the end.
  predicate ReadDefined(s: string) {
    s == "" || FirstTerminator(s) < |s|
  }

  predicate Terminated(s: string) {
    s == "" || s[|s| - 1] in TERMINATORS
  }

  // Every read is defined when strings are read until nothing is left.
  predicate DrainDefined(s: string)
    decreases |s|
  {
    s == "" || (ReadDefined(s) && DrainDefined(s[FirstTerminator(s) + 1..]))
  }

  // The strings read until nothing is left, empty ones included.
  function Drain(s: string): seq<string>
    requires DrainDefined(s)
    decreases |s|
  {
    if s == "" then []
    else [s[..FirstTerminator(s)]] + Drain(s[FirstTerminator(s) + 1..])
  }

  function NonEmpty(ss: seq<string>): seq<string> {
    if ss == [] then [] else Emit(ss[0]) + NonEmpty(ss[1..])
  }

  // The messages in a block of received bytes.
  function Lines(s: string): seq<string> {
    Runs(s, TERMINATORS)
  }

  // Draining stays inside the data exactly when the data ends in a terminator.
  lemma {:induction false} DrainDefinedIffTerminated(s: string)
    ensures DrainDefined(s) <==> Terminated(s)
    decreases |s|
  {
    if s != "" && ReadDefined(s) {
      var rest := s[FirstTerminator(s) + 1..];
      DrainDefinedIffTerminated(rest);
      if rest != "" {
        assert rest[|rest| - 1] == s[|s| - 1];
      }
    }
  }

  // Draining yields the maximal non-empty runs between terminators, in order, once the empty
  // strings are dropped.
  lemma {:induction false} DrainYieldsLines(s: string)
    requires DrainDefined(s)
    ensures NonEmpty(Drain(s)) == Lines(s)
    decreases |s|
  {
    if s != "" {
      var k := FirstTerminator(s);
      DrainYieldsLines(s[k + 1..]);
      RunsHead(s[..k], [s[k]], s[k + 1..], TERMINATORS);
      assert s == s[..k] + [s[k]] + s[k + 1..];
    }
  }

  lemma LinesAreClean(s: string)
    ensures AllRuns(Lines(s), TERMINATORS)
    ensures Concat(Lines(s)) == Erase(s, TERMINATORS)
  {
    RunsAreClean("", s, TERMINATORS);
    RunsLoseOnlySeparators("", s, TERMINATORS);
  }

  // ----- Which characters end a message -----

  // Text without carriage return, line feed and NUL; tabs and spaces are allowed.
  ghost predicate MessageText(s: string) {
    s != "" && forall i :: 0 <= i < |s| ==> s[i] != '\r' && s[i] != '\n' && s[i] != '\0'
  }

  // What may end a message: carriage returns, line feeds and NULs, at least one.
  ghost predicate MessageEnd(s: string) {
    s != "" && forall i :: 0 <= i < |s| ==> s[i] == '\r' || s[i] == '\n' || s[i] == '\0'
  }

  // Messages one after the other, each ended in its own way.
  function Framed(messages: seq<string>, ends: seq<string>): string
    requires |messages| == |ends|
  {
    if messages == [] then "" else messages[0] + ends[0] + Framed(messages[1..], ends[1..])
  }

  // Messages are read back as they were sent, whatever they contain other than the three characters
  // that end them, and however many of these there are.
  lemma {:induction false} FramedReadsBack(messages: seq<string>, ends: seq<string>)
    requires |messages| == |ends|
    requires forall i :: 0 <= i < |messages| ==> MessageText(messages[i])
    requires forall i :: 0 <= i < |ends| ==> MessageEnd(ends[i])
    ensures Lines(Framed(messages, ends)) == messages
  {
    if messages != [] {
      assert MessageText(messages[0]) && MessageEnd(ends[0]);
      FramedReadsBack(messages[1..], ends[1..]);
      RunsHead(messages[0], ends[0], Framed(messages[1..], ends[1..]), TERMINATORS);
    }
  }

  // One message and one character: carriage return, line feed and NUL end it, and no other does.
  lemma OneMessage(s: string, c: char)
    requires MessageText(s)
    ensures c == '\r' || c == '\n' || c == '\0' ==> Lines(s + [c]) == [s]
    ensures c != '\r' && c != '\n' && c != '\0' ==> Lines(s + [c]) == [s + [c]]
  {
    if c == '\r' || c == '\n' || c == '\0' {
      RunsHead(s, [c], "", TERMINATORS);
      assert s + [c] + "" == s + [c];
    } else {
      RunsOfFree(s + [c], TERMINATORS);
    }
  }

  class Ring {
    const capacity: nat
    var data: string

    ghost predicate Valid()
      reads this
    {
      |data| <= capacity
    }

    constructor (size: nat)
      ensures Valid() && capacity == size && data == ""
    {
      capacity, data := size, "";
    }

    function MaxRead(): nat
      reads this
    {
      |data|
    }

    function MaxWrite(): nat
      requires Valid()
      reads this
    {
      capacity - |data|
    }

    // Appends as much of source as fits; -1 when something did not fit or source is empty.
    method Write(source: string) returns (r: int)
      requires Valid()
      modifies this
      ensures Valid()
      ensures |source| <= old(MaxWrite()) ==> data == old(data) + source
      ensures |source| > old(MaxWrite()) ==> data == old(data) + source[..old(MaxWrite())]
      ensures r == 0 <==> 0 < |source| <= old(MaxWrite())
      ensures r == 0 || r == -1
    {
      if |source| == 0 {
        return -1;
      }
      var written := if |source| <= MaxWrite() then |source| else MaxWrite();
      data := data + source[..written];
      r := if written < |source| then -1 else 0;
    }

    // Takes the bytes up to and including the first terminator and returns them without it.
    method ReadString() returns (r: Option<string>)
      requires Valid() && ReadDefined(data)
      modifies this
      ensures Valid()
      ensures old(data) == "" ==> r == None && data == ""
      ensures old(data) != "" ==>
                var k := FirstTerminator(old(data));
                r == Some(old(data)[..k]) && data == old(data)[k + 1..]
    {
      if data == "" {
        return None;
      }
      var p, n := 0, |data| - 1;
      while data[p] !in TERMINATORS
        invariant 0 <= p <= FirstTerminator(data) && n == |data| - 1 - p
        decreases FirstTerminator(data) - p
      {
        p := p + 1;
        n := n - 1;
      }
      assert p == FirstTerminator(data);
      var size := |data| - n;
      r := Some(data[..size - 1]);
      data := data[size..];
    }

    // Blanks the data; the amount of data stays the same.
    method Clear()
      requires Valid()
      modifies this
      ensures Valid() && data == seq(|old(data)|, _ => '\0')
    {
      data := seq(|data|, _ => '\0');
    }
  }
}
