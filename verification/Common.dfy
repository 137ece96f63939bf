/** Small types and sequence facts shared by every module. */
module Common {

  datatype Option<+T> = None | Some(value: T)

  ghost predicate NoDup<T>(s: seq<T>) {
    forall i, j :: 0 <= i < j < |s| ==> s[i] != s[j]
  }

  ghost function Elements<T>(s: seq<T>): set<T> {
    set x | x in s
  }

  lemma ElementsCons<T>(x: T, s: seq<T>)
    ensures Elements([x] + s) == {x} + Elements(s)
  {
  }

  // The elements of s that are not in bad, in their order.
  ghost function Keep<T>(s: seq<T>, bad: set<T>): seq<T> {
    if s == [] then []
    else (if s[0] in bad then [] else [s[0]]) + Keep(s[1..], bad)
  }

  lemma {:induction false} KeepIsFilter<T>(s: seq<T>, bad: set<T>, x: T)
    ensures x in Keep(s, bad) <==> x in s && x !in bad
    ensures |Keep(s, bad)| <= |s|
  {
    if s != [] {
      KeepIsFilter(s[1..], bad, x);
      assert s == [s[0]] + s[1..];
    }
  }

  lemma {:induction false} KeepNoDup<T>(s: seq<T>, bad: set<T>)
    requires NoDup(s)
    ensures NoDup(Keep(s, bad))
  {
    if s != [] {
      NoDupTail(s);
      KeepNoDup(s[1..], bad);
      KeepIsFilter(s[1..], bad, s[0]);
    }
  }

  lemma {:induction false} KeepNone<T>(s: seq<T>, bad: set<T>)
    requires forall x :: x in s ==> x !in bad
    ensures Keep(s, bad) == s
  {
    if s != [] {
      assert s == [s[0]] + s[1..] && s[0] in s && forall x :: x in s[1..] ==> x in s;
      KeepNone(s[1..], bad);
    }
  }

  lemma {:induction false} KeepTwice<T>(s: seq<T>, bad: set<T>, more: set<T>)
    ensures Keep(Keep(s, bad), more) == Keep(s, bad + more)
  {
    if s != [] {
      KeepTwice(s[1..], bad, more);
      if s[0] !in bad {
        assert Keep(s, bad)[1..] == Keep(s[1..], bad);
      } else {
        assert Keep(s, bad) == Keep(s[1..], bad);
      }
    }
  }

  // Position of the first occurrence of x, or |s|.
  function IndexOf<T(==)>(s: seq<T>, x: T): (k: nat)
    ensures k <= |s|
    ensures k < |s| ==> s[k] == x
    ensures forall j :: 0 <= j < k ==> s[j] != x
  {
    if s == [] || s[0] == x then 0 else 1 + IndexOf(s[1..], x)
  }

  lemma IndexOfAbsent<T>(s: seq<T>, x: T)
    ensures x in s <==> IndexOf(s, x) < |s|
  {
  }

  // Unfolds Keep at position p of a longer list.
  lemma KeepStep<T>(s: seq<T>, p: nat, bad: set<T>)
    requires p < |s|
    ensures s[..p] + Keep(s[p..], bad)
         == s[..p] + (if s[p] in bad then [] else [s[p]]) + Keep(s[p + 1..], bad)
  {
    assert s[p..][0] == s[p] && s[p..][1..] == s[p + 1..];
  }

  lemma NoDupTail<T>(s: seq<T>)
    requires NoDup(s) && s != []
    ensures NoDup(s[1..]) && s[0] !in s[1..]
  {
    var t := s[1..];
    forall i, j | 0 <= i < j < |t| ensures t[i] != t[j] {
      assert t[i] == s[i + 1] && t[j] == s[j + 1];
    }
    forall i | 0 <= i < |t| ensures t[i] != s[0] {
      assert t[i] == s[i + 1];
    }
  }

  lemma SpliceSeq<T>(a: seq<T>, g: seq<T>, t: seq<T>, b: seq<T>, gs: seq<T>, ts: seq<T>, c: seq<T>)
    requires a + g == t + b && b + gs == ts + c
    ensures a + (g + gs) == (t + ts) + c
  {
    assert a + (g + gs) == (t + b) + gs;
    assert (t + b) + gs == t + (ts + c);
  }

  lemma SpliceMultiset<T>(a: seq<T>, g: seq<T>, t: seq<T>, b: seq<T>, gs: seq<T>, ts: seq<T>, c: seq<T>)
    requires multiset(a) + multiset(g) == multiset(t) + multiset(b)
    requires multiset(b) + multiset(gs) == multiset(ts) + multiset(c)
    ensures multiset(a) + multiset(g + gs) == multiset(t + ts) + multiset(c)
  {
    calc {
      multiset(a) + multiset(g + gs);
      (multiset(a) + multiset(g)) + multiset(gs);
      multiset(t) + (multiset(b) + multiset(gs));
      multiset(t + ts) + multiset(c);
    }
  }

  // The elements of s that are in good, in their order.
  ghost function Pick<T>(s: seq<T>, good: set<T>): seq<T> {
    if s == [] then []
    else (if s[0] in good then [s[0]] else []) + Pick(s[1..], good)
  }

  lemma {:induction false} PickMembers<T>(s: seq<T>, good: set<T>, x: T)
    ensures x in Pick(s, good) <==> x in s && x in good
  {
    if s != [] {
      PickMembers(s[1..], good, x);
      assert s == [s[0]] + s[1..];
    }
  }
}
