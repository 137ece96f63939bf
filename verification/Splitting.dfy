/**
 Splitting text at separator characters. Message framing and argument parsing both cut their
 input into its maximal runs of non-separators.
 */
module Splitting {

  ghost predicate Free(s: string, seps: set<char>) {
    forall i :: 0 <= i < |s| ==> s[i] !in seps
  }

  ghost predicate Only(s: string, seps: set<char>) {
    forall i :: 0 <= i < |s| ==> s[i] in seps
  }

  function Emit(run: string): seq<string> {
    if run == "" then [] else [run]
  }

  // The runs of s, when the characters of run have been read just before s.
  function RunsFrom(run: string, s: string, seps: set<char>): seq<string>
    decreases |s|
  {
    if s == "" then Emit(run)
    else if s[0] in seps then Emit(run) + RunsFrom("", s[1..], seps)
    else RunsFrom(run + [s[0]], s[1..], seps)
  }

  function Runs(s: string, seps: set<char>): seq<string> {
    RunsFrom("", s, seps)
  }

  function Concat(ss: seq<string>): string {
    if ss == [] then "" else ss[0] + Concat(ss[1..])
  }

  function Erase(s: string, seps: set<char>): string {
    if s == "" then "" else (if s[0] in seps then "" else [s[0]]) + Erase(s[1..], seps)
  }

  ghost predicate AllRuns(ss: seq<string>, seps: set<char>) {
    forall i :: 0 <= i < |ss| ==> ss[i] != "" && Free(ss[i], seps)
  }

  lemma FreeAppend(a: string, c: char, seps: set<char>)
    requires Free(a, seps) && c !in seps
    ensures Free(a + [c], seps)
  {
  }

  // Every run is non-empty and has no separator in it.
  lemma {:induction false} RunsAreClean(run: string, s: string, seps: set<char>)
    requires Free(run, seps)
    ensures AllRuns(RunsFrom(run, s, seps), seps)
    decreases |s|
  {
    if s != "" {
      if s[0] in seps {
        RunsAreClean("", s[1..], seps);
      } else {
        FreeAppend(run, s[0], seps);
        RunsAreClean(run + [s[0]], s[1..], seps);
      }
    }
  }

  lemma ConcatEmit(run: string, ss: seq<string>)
    ensures Concat(Emit(run) + ss) == run + Concat(ss)
  {
    if run != "" {
      assert (Emit(run) + ss)[1..] == ss;
    } else {
      assert Emit(run) + ss == ss;
    }
  }

  // The runs are all of the text except its separators, in order.
  lemma {:induction false} RunsLoseOnlySeparators(run: string, s: string, seps: set<char>)
    ensures Concat(RunsFrom(run, s, seps)) == run + Erase(s, seps)
    decreases |s|
  {
    if s == "" {
      ConcatEmit(run, []);
      assert Emit(run) + [] == Emit(run);
    } else if s[0] in seps {
      RunsLoseOnlySeparators("", s[1..], seps);
      ConcatEmit(run, RunsFrom("", s[1..], seps));
    } else {
      RunsLoseOnlySeparators(run + [s[0]], s[1..], seps);
    }
  }

  // A separator cuts: what is before it and what is after it are split independently.
  lemma {:induction false} RunsCut(run: string, a: string, sep: char, b: string, seps: set<char>)
    requires sep in seps
    ensures RunsFrom(run, a + [sep] + b, seps) == RunsFrom(run, a, seps) + Runs(b, seps)
    decreases |a|
  {
    var s := a + [sep] + b;
    if a == "" {
      assert s[1..] == b;
    } else {
      assert s[0] == a[0] && s[1..] == a[1..] + [sep] + b;
      if a[0] in seps {
        RunsCut("", a[1..], sep, b, seps);
      } else {
        RunsCut(run + [a[0]], a[1..], sep, b, seps);
      }
    }
  }

  // A separator-free text is read into the current run.
  lemma {:induction false} RunsAbsorb(run: string, a: string, b: string, seps: set<char>)
    requires Free(a, seps)
    ensures RunsFrom(run, a + b, seps) == RunsFrom(run + a, b, seps)
    decreases |a|
  {
    if a == "" {
      assert a + b == b && run + a == run;
    } else {
      assert (a + b)[1..] == a[1..] + b;
      RunsAbsorb(run + [a[0]], a[1..], b, seps);
      assert run + [a[0]] + a[1..] == run + a;
    }
  }

  lemma RunsOfFree(a: string, seps: set<char>)
    requires Free(a, seps)
    ensures Runs(a, seps) == Emit(a)
  {
    RunsAbsorb("", a, "", seps);
    assert a + "" == a && "" + a == a;
  }

  // A run, then at least one separator, then the rest.
  lemma {:induction false} RunsHead(a: string, gap: string, b: string, seps: set<char>)
    requires Free(a, seps) && gap != "" && Only(gap, seps)
    ensures Runs(a + gap + b, seps) == Emit(a) + Runs(b, seps)
    decreases |gap|
  {
    RunsOfFree(a, seps);
    RunsCut("", a, gap[0], gap[1..] + b, seps);
    assert a + gap + b == a + [gap[0]] + (gap[1..] + b);
    if |gap| == 1 {
      assert gap[1..] + b == b;
    } else {
      RunsHead("", gap[1..], b, seps);
      assert "" + gap[1..] + b == gap[1..] + b;
    }
  }

  // Text that ends in a separator splits independently of what follows it.
  lemma RunsConcat(a: string, b: string, seps: set<char>)
    requires a == "" || a[|a| - 1] in seps
    ensures Runs(a + b, seps) == Runs(a, seps) + Runs(b, seps)
  {
    if a == "" {
      assert a + b == b;
    } else {
      var n := |a| - 1;
      RunsCut("", a[..n], a[n], b, seps);
      RunsCut("", a[..n], a[n], "", seps);
      assert a[..n] + [a[n]] + b == a + b;
      assert a[..n] + [a[n]] + "" == a;
    }
  }
}
