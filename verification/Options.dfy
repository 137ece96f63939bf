/**
 Options: the table of options and their scopes, what setting one does to a session or to a search,
 and the reading of a clause of options.
 */
module Options {
  import opened Common
  import opened StateCodes

  datatype Scope = SearchScope | SessionScope | ClientScope

  datatype OptionName =
    | ClientIdentity | CodState | ElapsedTime | FieldDelimiter | Logging | MemoryConsumption | OutputEnc
    | OutputHandler | Province | SearchConstraint | ServerIdentity | TerritorialCompetence | Timeout

  datatype OptionEntry = OptionEntry(keyword: string, name: OptionName, scopes: set<Scope>)

  const OPTIONS: seq<OptionEntry> := [
    OptionEntry("CLIENT_IDENTITY", ClientIdentity, {ClientScope}),
    OptionEntry("COD_STATE", CodState, {SearchScope, SessionScope}),
    OptionEntry("ELAPSED_TIME", ElapsedTime, {SearchScope, SessionScope, ClientScope}),
    OptionEntry("FIELD_DELIMITER", FieldDelimiter, {ClientScope}),
    OptionEntry("LOGGING", Logging, {ClientScope}),
    OptionEntry("MEMORY_CONSUMPTION", MemoryConsumption, {SearchScope, SessionScope, ClientScope}),
    OptionEntry("OUTPUT_ENC", OutputEnc, {ClientScope}),
    OptionEntry("OUTPUT_HANDLER", OutputHandler, {ClientScope}),
    OptionEntry("PROVINCE", Province, {SearchScope, SessionScope}),
    OptionEntry("SEARCH_CONSTRAINT", SearchConstraint, {SearchScope, SessionScope}),
    OptionEntry("SERVER_IDENTITY", ServerIdentity, {ClientScope}),
    OptionEntry("TERRITORIAL_COMPETENCE", TerritorialCompetence, {SearchScope, SessionScope}),
    OptionEntry("TIMEOUT", Timeout, {ClientScope})]

  // The first entry of a table with this keyword that has the scope, or -1.
  method GetOptionIndex(table: seq<OptionEntry>, cmd: string, scope: Scope) returns (r: int)
    ensures -1 <= r < |table|
    ensures r >= 0 ==> table[r].keyword == cmd && scope in table[r].scopes
    ensures forall j :: 0 <= j < (if r >= 0 then r else |table|) ==>
              table[j].keyword != cmd || scope !in table[j].scopes
  {
    for i := 0 to |table|
      invariant forall j :: 0 <= j < i ==> table[j].keyword != cmd || scope !in table[j].scopes
    {
      if cmd == table[i].keyword && scope in table[i].scopes {
        return i;
      }
    }
    return -1;
  }

  // What a session or a search keeps of the options set on it.
  datatype Opts = Opts(codState: int, province: Option<string>, territorial: bool)

  // Whether setting an option of a session or of a search succeeds.
  predicate Accepts(cmd: string, value: string) {
    || (cmd == "COD_STATE" && CodStateOf(value) != COD_STATE_UNSET)
    || cmd == "PROVINCE"
    || cmd == "SEARCH_CONSTRAINT"
    || (cmd == "TERRITORIAL_COMPETENCE" && value == "ENABLED")
  }

  // What setting an accepted option changes.
  function Update(o: Opts, cmd: string, value: string): Opts {
    if cmd == "COD_STATE" then o.(codState := CodStateOf(value))
    else if cmd == "PROVINCE" then o.(province := Some(value))
    else if cmd == "TERRITORIAL_COMPETENCE" then o.(territorial := true)
    else o
  }

  // Which settings succeed: any PROVINCE, any SEARCH_CONSTRAINT, the one word that switches on
  // TERRITORIAL_COMPETENCE, the digits of a code from 1 to 1023 modulo 2 to the 32, and nothing else.
  lemma AcceptsMeaning(cmd: string, value: string)
    ensures Accepts("PROVINCE", value) && Accepts("SEARCH_CONSTRAINT", value)
    ensures Accepts("TERRITORIAL_COMPETENCE", value) <==> value == "ENABLED"
    ensures Accepts("COD_STATE", value) <==>
              AllDigits(value) && Digits(0, value) <= 0x7fff_ffff_ffff_ffff
              && 1 <= Digits(0, value) % 0x1_0000_0000 <= 1023
    ensures cmd !in {"COD_STATE", "PROVINCE", "SEARCH_CONSTRAINT", "TERRITORIAL_COMPETENCE"} ==> !Accepts(cmd, value)
  {
    hide AllDigits, Digits, CodStateOf;
    CodStateMeaning(value);
    assert "PROVINCE"[0] == 'P' && "COD_STATE"[0] == 'C' && "SEARCH_CONSTRAINT"[0] == 'S';
    assert "TERRITORIAL_COMPETENCE"[0] == 'T';
  }

  // The keywords of a session or of a search, and what they name; the client's own are not found.
  lemma LookupMeaning(cmd: string, scope: Scope, i: int)
    requires 0 <= i < |OPTIONS| && OPTIONS[i].keyword == cmd && scope in OPTIONS[i].scopes && scope != ClientScope
    ensures OPTIONS[i].name in {CodState, ElapsedTime, MemoryConsumption, Province, SearchConstraint,
                                TerritorialCompetence}
    ensures OPTIONS[i].name == CodState <==> cmd == "COD_STATE"
    ensures OPTIONS[i].name == Province <==> cmd == "PROVINCE"
    ensures OPTIONS[i].name == SearchConstraint <==> cmd == "SEARCH_CONSTRAINT"
    ensures OPTIONS[i].name == TerritorialCompetence <==> cmd == "TERRITORIAL_COMPETENCE"
  {
    assert |OPTIONS| == 13;
    assert "PROVINCE"[0] == 'P' && "COD_STATE"[0] == 'C' && "SEARCH_CONSTRAINT"[0] == 'S';
    assert "TERRITORIAL_COMPETENCE"[0] == 'T' && "ELAPSED_TIME"[0] == 'E' && "MEMORY_CONSUMPTION"[0] == 'M';
  }

  lemma LookupFails(cmd: string, value: string, scope: Scope)
    requires scope != ClientScope
    requires forall j :: 0 <= j < |OPTIONS| ==> OPTIONS[j].keyword != cmd || scope !in OPTIONS[j].scopes
    ensures !Accepts(cmd, value)
  {
    assert OPTIONS[1].keyword == "COD_STATE" && OPTIONS[8].keyword == "PROVINCE";
    assert OPTIONS[9].keyword == "SEARCH_CONSTRAINT" && OPTIONS[11].keyword == "TERRITORIAL_COMPETENCE";
  }

  lemma UpdateKeepsCodState(o: Opts, cmd: string, value: string)
    requires CodStateOk(o.codState) && Accepts(cmd, value)
    ensures CodStateOk(Update(o, cmd, value).codState)
  {
    CodStateMeaning(value);
  }

  // ----- Clauses of options -----

  // The number of arguments that a clause takes, and the options that it leaves.
  function Slurp(argv: seq<string>, o: Opts): (int, Opts)
    decreases |argv|
  {
    if |argv| < 2 || !Accepts(argv[0], argv[1]) then (0, o)
    else
      var o' := Update(o, argv[0], argv[1]);
      if |argv| > 3 && argv[2] == "AND" then
        var (r, o'') := Slurp(argv[3..], o');
        (r + 3, o'')
      else (2, o')
  }

  datatype Pair = Pair(cmd: string, value: string)

  predicate AllAccepted(pairs: seq<Pair>) {
    forall i :: 0 <= i < |pairs| ==> Accepts(pairs[i].cmd, pairs[i].value)
  }

  // Options set one after the other, from left to right.
  function Fold(o: Opts, pairs: seq<Pair>): Opts
    decreases |pairs|
  {
    if pairs == [] then o else Fold(Update(o, pairs[0].cmd, pairs[0].value), pairs[1..])
  }

  // The first k options of a clause: each takes two words, and a third joins it to the next.
  function PairsOf(argv: seq<string>, k: nat): seq<Pair>
    requires 3 * k <= |argv| + 1
  {
    seq(k, i requires 0 <= i < k => Pair(argv[3 * i], argv[3 * i + 1]))
  }

  predicate Joined(argv: seq<string>, at: int) {
    0 <= at < |argv| - 1 && argv[at] == "AND"
  }

  predicate Refused(argv: seq<string>, at: int) {
    0 <= at && (|argv| - at < 2 || !Accepts(argv[at], argv[at + 1]))
  }

  // r words are the longest clause at the start of argv: after each option that AND joins to more
  // words the next one is tried, and the clause stops there or at the first one that is refused.
  predicate IsClause(argv: seq<string>, r: int) {
    var k := (r + 1) / 3;
    && 0 <= r <= |argv|
    && AllAccepted(PairsOf(argv, k))
    && (forall i :: 0 <= i < k - 1 ==> Joined(argv, 3 * i + 2))
    && (if r % 3 == 2 then !Joined(argv, r)
        else r % 3 == 0 && (r > 0 ==> Joined(argv, r - 1)) && Refused(argv, r))
  }

  lemma PairsOfTail(argv: seq<string>, k: nat)
    requires 0 < k && 3 * k <= |argv| + 1 && |argv| >= 3
    ensures PairsOf(argv, k) == [Pair(argv[0], argv[1])] + PairsOf(argv[3..], k - 1)
  {
  }

  lemma IsClauseStep(argv: seq<string>, r: int)
    requires |argv| > 3 && Accepts(argv[0], argv[1]) && argv[2] == "AND"
    requires IsClause(argv[3..], r)
    ensures IsClause(argv, r + 3)
  {
    var k := (r + 1) / 3;
    PairsOfTail(argv, k + 1);
    forall i | 0 <= i < k ensures Joined(argv, 3 * i + 2) {
      if i > 0 {
        assert Joined(argv[3..], 3 * (i - 1) + 2);
      }
    }
    assert Joined(argv[3..], r) <==> Joined(argv, r + 3);
    assert r > 0 ==> (Joined(argv[3..], r - 1) <==> Joined(argv, r + 2));
    assert Refused(argv[3..], r) <==> Refused(argv, r + 3);
  }

  // A clause is read up to its first option that is refused: what is taken is exactly one clause,
  // and its options have been set from left to right.
  lemma {:induction false} SlurpReadsClause(argv: seq<string>, o: Opts)
    ensures IsClause(argv, Slurp(argv, o).0)
    ensures Slurp(argv, o).1 == Fold(o, PairsOf(argv, (Slurp(argv, o).0 + 1) / 3))
    decreases |argv|
  {
    hide Accepts, Update;
    if |argv| < 2 || !Accepts(argv[0], argv[1]) {
      assert PairsOf(argv, 0) == [];
      assert Refused(argv, 0);
    } else {
      var o' := Update(o, argv[0], argv[1]);
      if |argv| > 3 && argv[2] == "AND" {
        SlurpReadsClause(argv[3..], o');
        var r := Slurp(argv[3..], o').0;
        IsClauseStep(argv, r);
        PairsOfTail(argv, (r + 1) / 3 + 1);
        assert PairsOf(argv, (r + 1) / 3 + 1)[1..] == PairsOf(argv[3..], (r + 1) / 3);
      } else {
        assert PairsOf(argv, 1) == [Pair(argv[0], argv[1])];
        assert !Joined(argv, 2);
        assert Fold(o, [Pair(argv[0], argv[1])]) == Fold(o', []);
      }
    }
  }

  // What a clause takes does not depend on the options already set.
  lemma {:induction false} SlurpTakesTheSame(argv: seq<string>, o: Opts, p: Opts)
    ensures Slurp(argv, o).0 == Slurp(argv, p).0
    decreases |argv|
  {
    if |argv| > 3 && Accepts(argv[0], argv[1]) && argv[2] == "AND" {
      SlurpTakesTheSame(argv[3..], Update(o, argv[0], argv[1]), Update(p, argv[0], argv[1]));
    }
  }

  // A clause never stops early: before its end every option is accepted and joined to the next.
  lemma ClauseGoesOn(argv: seq<string>, r: int, t: int)
    requires IsClause(argv, t) && 0 <= r < t && r % 3 != 1
    ensures if r % 3 == 2 then Joined(argv, r) else !Refused(argv, r)
  {
    var k := (t + 1) / 3;
    if r % 3 == 2 {
      assert 3 * ((r - 2) / 3) + 2 == r;
      assert r == t - 1 || (r - 2) / 3 < k - 1;
    } else {
      assert 3 * (r / 3) == r && r / 3 < k;
      assert PairsOf(argv, k)[r / 3] == Pair(argv[r], argv[r + 1]);
    }
  }

  // Only one number of words can be the clause at the start of argv.
  lemma ClauseIsUnique(argv: seq<string>, r: int, t: int)
    requires IsClause(argv, r) && IsClause(argv, t)
    ensures r == t
  {
    if r < t {
      ClauseGoesOn(argv, r, t);
    } else if t < r {
      ClauseGoesOn(argv, t, r);
    }
  }

  // The words of a clause.
  function Clause(pairs: seq<Pair>): seq<string>
    requires |pairs| > 0
  {
    [pairs[0].cmd, pairs[0].value] + if |pairs| == 1 then [] else ["AND"] + Clause(pairs[1..])
  }

  // A clause of accepted options is read back whole, whatever follows it other than AND and more.
  lemma {:induction false} ClauseRoundTrip(pairs: seq<Pair>, rest: seq<string>, o: Opts)
    requires |pairs| > 0 && AllAccepted(pairs) && !Joined(rest, 0)
    ensures Slurp(Clause(pairs) + rest, o) == (|Clause(pairs)|, Fold(o, pairs))
    ensures |Clause(pairs)| == 3 * |pairs| - 1
    decreases |pairs|
  {
    var argv := Clause(pairs) + rest;
    assert argv[0] == pairs[0].cmd && argv[1] == pairs[0].value;
    var o' := Update(o, pairs[0].cmd, pairs[0].value);
    if |pairs| == 1 {
      assert argv[2..] == rest;
      assert pairs[1..] == [] && Fold(o', []) == o';
    } else {
      ClauseRoundTrip(pairs[1..], rest, o');
      assert argv[2] == "AND" && argv[3..] == Clause(pairs[1..]) + rest;
    }
  }

  lemma {:induction false} FoldKeepsCodState(o: Opts, pairs: seq<Pair>)
    requires CodStateOk(o.codState) && AllAccepted(pairs)
    ensures CodStateOk(Fold(o, pairs).codState)
    decreases |pairs|
  {
    if pairs != [] {
      UpdateKeepsCodState(o, pairs[0].cmd, pairs[0].value);
      FoldKeepsCodState(Update(o, pairs[0].cmd, pairs[0].value), pairs[1..]);
    }
  }

  predicate Sets(pairs: seq<Pair>, cmd: string) {
    exists i :: 0 <= i < |pairs| && pairs[i].cmd == cmd
  }

  // The value that the last setting of cmd gives it, if there is one.
  function LastValue(pairs: seq<Pair>, cmd: string): Option<string>
    decreases |pairs|
  {
    if pairs == [] then None
    else
      var later := LastValue(pairs[1..], cmd);
      if later.Some? then later else if pairs[0].cmd == cmd then Some(pairs[0].value) else None
  }

  // Each option ends with the last value that the clause gives it, or as it was when the clause does
  // not set it; TERRITORIAL_COMPETENCE can only be switched on.
  lemma {:induction false} FoldMeaning(o: Opts, pairs: seq<Pair>)
    requires AllAccepted(pairs)
    ensures var r := Fold(o, pairs);
            && r.codState == (match LastValue(pairs, "COD_STATE")
                              case None => o.codState
                              case Some(value) => CodStateOf(value))
            && r.province == (match LastValue(pairs, "PROVINCE")
                              case None => o.province
                              case Some(value) => Some(value))
            && r.territorial == (o.territorial || Sets(pairs, "TERRITORIAL_COMPETENCE"))
    decreases |pairs|
  {
    if pairs != [] {
      FoldMeaning(Update(o, pairs[0].cmd, pairs[0].value), pairs[1..]);
      SetsTail(pairs, "TERRITORIAL_COMPETENCE");
    }
  }

  lemma {:induction false} LastValueIsSet(pairs: seq<Pair>, cmd: string)
    ensures LastValue(pairs, cmd).Some? <==> Sets(pairs, cmd)
    ensures LastValue(pairs, cmd).Some? ==>
              exists i :: 0 <= i < |pairs| && pairs[i] == Pair(cmd, LastValue(pairs, cmd).value)
                       && forall j :: i < j < |pairs| ==> pairs[j].cmd != cmd
    decreases |pairs|
  {
    if pairs != [] {
      LastValueIsSet(pairs[1..], cmd);
      SetsTail(pairs, cmd);
      if LastValue(pairs[1..], cmd).Some? {
        var i :| 0 <= i < |pairs[1..]| && pairs[1..][i] == Pair(cmd, LastValue(pairs[1..], cmd).value)
              && forall j :: i < j < |pairs[1..]| ==> pairs[1..][j].cmd != cmd;
        assert pairs[i + 1] == Pair(cmd, LastValue(pairs, cmd).value);
        forall j | i + 1 < j < |pairs| ensures pairs[j].cmd != cmd { assert pairs[j] == pairs[1..][j - 1]; }
      } else if pairs[0].cmd == cmd {
        assert pairs[0] == Pair(cmd, LastValue(pairs, cmd).value);
        forall j | 0 < j < |pairs| ensures pairs[j].cmd != cmd {
          assert pairs[j] == pairs[1..][j - 1];
        }
      }
    }
  }

  lemma SetsTail(pairs: seq<Pair>, cmd: string)
    requires pairs != []
    ensures Sets(pairs, cmd) <==> pairs[0].cmd == cmd || Sets(pairs[1..], cmd)
  {
    if Sets(pairs[1..], cmd) {
      var i :| 0 <= i < |pairs[1..]| && pairs[1..][i].cmd == cmd;
      assert pairs[i + 1].cmd == cmd;
    }
    if Sets(pairs, cmd) && pairs[0].cmd != cmd {
      var i :| 0 <= i < |pairs| && pairs[i].cmd == cmd;
      assert pairs[1..][i - 1].cmd == cmd;
    }
  }
}
