/**
 State codes: what the text of the COD_STATE option stands for, and the table of loaded entities
 that it indexes.
 */
module StateCodes {
  import opened Common
  import opened Clients

  const COD_STATE_UNSET := -1
  const COD_STATE_ITALY := 97
  const SCE_ENTITIES_MAX: nat := 1024

  predicate IsDigit(c: char) {
    '0' <= c <= '9'
  }

  predicate IsSpace(c: char) {
    c == ' ' || '\t' <= c <= '\r'
  }

  // The number that the leading digits of s stand for, read after the number acc.
  function Digits(acc: nat, s: string): nat
    decreases |s|
  {
    if s == "" || !IsDigit(s[0]) then acc else Digits(acc * 10 + (s[0] - '0') as int, s[1..])
  }

  // The C library's atoi: blanks, a sign, digits; saturated as a long, then cut to an int.
  function Atoi(s: string): (r: int)
    ensures -0x8000_0000 <= r <= INT_MAX
    decreases |s|
  {
    if s != "" && IsSpace(s[0]) then Atoi(s[1..])
    else if s != "" && s[0] == '-' then ToInt32(Maximum(0 - Digits(0, s[1..]), -LONG_MAX - 1))
    else if s != "" && s[0] == '+' then ToInt32(Minimum(Digits(0, s[1..]), LONG_MAX))
    else ToInt32(Minimum(Digits(0, s), LONG_MAX))
  }

  function Minimum(a: int, b: int): int { if a < b then a else b }

  function Maximum(a: int, b: int): int { if a > b then a else b }

  predicate AllDigits(s: string) {
    forall i :: 0 <= i < |s| ==> IsDigit(s[i])
  }

  predicate CodStateOk(codState: int) {
    codState == COD_STATE_UNSET || 0 < codState < SCE_ENTITIES_MAX
  }

  function CodStateOf(s: string): int {
    if AllDigits(s) && (0 < Atoi(s) < SCE_ENTITIES_MAX || Atoi(s) == COD_STATE_ITALY) then Atoi(s)
    else COD_STATE_UNSET
  }

  method ValidateCodState(s: string) returns (codState: int)
    ensures codState == CodStateOf(s) && CodStateOk(codState)
  {
    var p := 0;
    while p < |s|
      invariant 0 <= p <= |s| && forall i :: 0 <= i < p ==> IsDigit(s[i])
    {
      if !IsDigit(s[p]) {
        return COD_STATE_UNSET;
      }
      p := p + 1;
    }
    codState := Atoi(s);
    if !((codState > 0 && codState < SCE_ENTITIES_MAX) || codState == COD_STATE_ITALY) {
      codState := COD_STATE_UNSET;
    }
  }

  // What is accepted, and as what: decimal text only, read modulo 2 to the 32 as long as it fits
  // a long, and then only from 1 to 1023.
  lemma CodStateMeaning(s: string)
    ensures !AllDigits(s) ==> CodStateOf(s) == -1
    ensures AllDigits(s) && Digits(0, s) > 0x7fff_ffff_ffff_ffff ==> CodStateOf(s) == -1
    ensures AllDigits(s) && Digits(0, s) <= 0x7fff_ffff_ffff_ffff ==>
              var m := Digits(0, s) % 0x1_0000_0000;
              CodStateOf(s) == if 1 <= m <= 1023 then m else -1
  {
    hide Digits;
    if AllDigits(s) {
      assert Atoi(s) == ToInt32(Minimum(Digits(0, s), LONG_MAX));
      var v := Minimum(Digits(0, s), LONG_MAX);
      assert ToInt32(v) == if v % 0x1_0000_0000 < 0x8000_0000 then v % 0x1_0000_0000
                           else v % 0x1_0000_0000 - 0x1_0000_0000;
      assert LONG_MAX % 0x1_0000_0000 == 0xffff_ffff;
    }
  }

  // The decimal text of a number, most significant digit first.
  function Decimal(n: nat): string {
    if n < 10 then [('0' as int + n) as char] else Decimal(n / 10) + [('0' as int + n % 10) as char]
  }

  lemma {:induction false} DigitsSnoc(acc: nat, s: string, c: char)
    requires AllDigits(s) && IsDigit(c)
    ensures Digits(acc, s + [c]) == Digits(acc, s) * 10 + (c - '0') as int
    decreases |s|
  {
    if s == "" {
      assert (s + [c])[1..] == "";
    } else {
      assert (s + [c])[1..] == s[1..] + [c];
      DigitsSnoc(acc * 10 + (s[0] - '0') as int, s[1..], c);
    }
  }

  lemma {:induction false} DecimalReadsBack(n: nat)
    ensures AllDigits(Decimal(n)) && Digits(0, Decimal(n)) == n
  {
    if n >= 10 {
      DecimalReadsBack(n / 10);
      DigitsSnoc(0, Decimal(n / 10), ('0' as int + n % 10) as char);
    } else {
      var s := Decimal(n);
      assert s[1..] == "" && Digits(n, "") == n;
    }
  }

  // What follows the digits is not read.
  lemma {:induction false} DigitsStop(acc: nat, s: string, rest: string)
    requires AllDigits(s) && (rest == "" || !IsDigit(rest[0]))
    ensures Digits(acc, s + rest) == Digits(acc, s)
    decreases |s|
  {
    if s == "" {
      assert s + rest == rest;
    } else {
      assert (s + rest)[1..] == s[1..] + rest;
      DigitsStop(acc * 10 + (s[0] - '0') as int, s[1..], rest);
    }
  }

  // atoi reads every number that fits an int, after any blanks and one sign, up to the first
  // character that is not a digit.
  lemma {:induction false} AtoiReads(blanks: string, sign: string, n: nat, rest: string)
    requires forall i :: 0 <= i < |blanks| ==> blanks[i] == ' ' || 9 <= blanks[i] as int <= 13
    requires sign in {"", "+", "-"} && n <= 0x7fff_ffff
    requires rest == "" || !('0' <= rest[0] <= '9')
    ensures Atoi(blanks + sign + Decimal(n) + rest) == if sign == "-" then 0 - n else n
    decreases |blanks|
  {
    hide Digits, Decimal;
    var s := blanks + sign + Decimal(n) + rest;
    if blanks != "" {
      assert s[1..] == blanks[1..] + sign + Decimal(n) + rest;
      AtoiReads(blanks[1..], sign, n, rest);
    } else {
      DecimalReadsBack(n);
      DecimalStarts(n);
      DigitsStop(0, Decimal(n), rest);
      if sign == "" {
        assert s == Decimal(n) + rest && s[0] == Decimal(n)[0];
      } else {
        assert s[0] == sign[0] && s[1..] == Decimal(n) + rest;
      }
    }
  }

  lemma DecimalStarts(n: nat)
    ensures Decimal(n) != "" && IsDigit(Decimal(n)[0])
  {
    DecimalReadsBack(n);
  }

  // Every code from 1 to 1023 can be written and is read back as itself.
  lemma CodStateRoundTrip(codState: int)
    requires 1 <= codState <= 1023
    ensures CodStateOf(Decimal(codState)) == codState
  {
    DecimalReadsBack(codState);
    CodStateMeaning(Decimal(codState));
  }

  // Texts as a client writes them.
  lemma CodStatesAsWritten()
    ensures CodStateOf("97") == 97
    ensures CodStateOf("0") == CodStateOf("-1") == CodStateOf("1 ") == CodStateOf("") == -1
  {
    hide CodStateOf, Digits, AllDigits, Atoi, IsDigit;
    NinetySeven();
    NotCodes();
    CodStateRoundTrip(97);
    CodStateMeaning("0");
    CodStateMeaning("-1");
    CodStateMeaning("1 ");
    CodStateMeaning("");
  }

  lemma NinetySeven()
    ensures Decimal(97) == "97"
  {
    assert Decimal(9) == "9" && "9" + "7" == "97";
  }

  lemma NotCodes()
    ensures !AllDigits("-1") && !AllDigits("1 ")
    ensures Digits(0, "0") == 0 == Digits(0, "")
  {
    assert !IsDigit("-1"[0]) && !IsDigit("1 "[1]);
    assert "0"[1..] == "";
  }

  // A text far beyond the table that is accepted, as code 1.
  lemma WrappedCodeIsAccepted()
    ensures CodStateOf(Decimal(4294967297)) == 1
  {
    DecimalReadsBack(4294967297);
    CodStateMeaning(Decimal(4294967297));
  }

  // A loaded entity: a handle to its database.
  datatype Entity = Entity(db: nat)

  // The codes that the table can be asked for without reading outside of it.
  predicate InTable(codState: int) {
    0 <= codState < SCE_ENTITIES_MAX
  }

  // The loaded entities: those of the code 0 and of Italy are kept beside the table.
  datatype Entities = Entities(table: seq<Option<Entity>>, entity000: Option<Entity>, italy: Option<Entity>) {

    predicate Ok() { |table| == SCE_ENTITIES_MAX }

    function Get(codState: int): Option<Entity>
      requires Ok() && InTable(codState)
    {
      if codState == 0 then entity000 else if codState == COD_STATE_ITALY then italy else table[codState]
    }

    function Set(codState: int, entity: Entity): (r: Entities)
      requires Ok() && InTable(codState)
      ensures r.Ok() && r.Get(codState) == Some(entity)
      ensures forall k :: InTable(k) && k != codState ==> r.Get(k) == Get(k)
    {
      if codState == 0 then this.(entity000 := Some(entity))
      else if codState == COD_STATE_ITALY then this.(italy := Some(entity))
      else this.(table := table[codState := Some(entity)])
    }
  }

  const NO_ENTITIES := Entities(seq(SCE_ENTITIES_MAX, _ => None), None, None)

  class EntityTable {
    const table: array<Option<Entity>>
    var entity000: Option<Entity>
    var italy: Option<Entity>

    ghost function State(): Entities
      reads this, table
    {
      Entities(table[..], entity000, italy)
    }

    ghost predicate Valid()
      reads this, table
    {
      State().Ok()
    }

    constructor ()
      ensures Valid() && fresh(table) && State() == NO_ENTITIES
    {
      entity000, italy := None, None;
      table := new Option<Entity>[SCE_ENTITIES_MAX];
      new;
      for i := 0 to SCE_ENTITIES_MAX
        invariant forall j :: 0 <= j < i ==> table[j] == None
        invariant entity000 == None && italy == None
      {
        table[i] := None;
      }
      assert table[..] == NO_ENTITIES.table;
    }

    function Get(codState: int): (r: Option<Entity>)
      requires Valid() && InTable(codState)
      reads this, table
      ensures r == State().Get(codState)
    {
      if codState == 0 then entity000 else if codState == COD_STATE_ITALY then italy else table[codState]
    }

    method Set(codState: int, entity: Entity)
      requires Valid() && InTable(codState)
      modifies this, table
      ensures Valid() && State() == old(State()).Set(codState, entity)
    {
      if codState == 0 {
        entity000 := Some(entity);
      } else if codState == COD_STATE_ITALY {
        italy := Some(entity);
      } else {
        table[codState] := Some(entity);
      }
    }
  }
}
