/**
 What a command asks: from the words that a client writes to the question put to the data, from the
 question to the rows, and from the rows to the answer.
 */
module CommandMeaning {
  import opened Common
  import opened Flattening
  import opened StateCodes
  import opened Options
  import opened Results
  import opened Searches
  import opened Commands

  // ----- From words to questions -----

  // The words that set options: none, or WITH and a clause.
  function With(pairs: seq<Pair>): seq<string> {
    if pairs == [] then [] else ["WITH"] + Clause(pairs)
  }

  // The code that a command searches with: the last one that its words set, or that of the session.
  function CodeOf(options: Opts, pairs: seq<Pair>): int {
    match LastValue(pairs, "COD_STATE")
    case None => options.codState
    case Some(value) => CodStateOf(value)
  }

  // The province that a command searches with: FIND searches without one.
  function ProvinceOf(scope: Scope, pairs: seq<Pair>): Option<string> {
    if scope == SessionScope then None else LastValue(pairs, "PROVINCE")
  }

  // Whether a command searches with territorial competence: that of the session counts for FIND only.
  predicate TerritorialOf(options: Opts, scope: Scope, pairs: seq<Pair>) {
    Sets(pairs, "TERRITORIAL_COMPETENCE") || (scope == SessionScope && options.territorial)
  }

  // The command makes a search of this type, which puts this question or none; and its options are set
  // on the session when it is FIND.
  ghost predicate Puts(options: Opts, req: Request, scope: Scope, pairs: seq<Pair>, kind: SearchType,
                       query: Option<Query>)
    requires scope != ClientScope
  {
    var p := Prepare(options, req, scope);
    && p.Prepared? && p.options == (if scope == SessionScope then Fold(options, pairs) else options)
    && p.spec.Some? && p.spec.value.kind == kind && Route(p.spec.value) == query
  }

  // The words after the options neither start nor continue them.
  predicate Ends(pairs: seq<Pair>, rest: seq<string>) {
    |rest| > 1 ==> rest[0] != if pairs == [] then "WITH" else "AND"
  }

  lemma WithIsRead(head: seq<string>, pairs: seq<Pair>, rest: seq<string>)
    requires pairs != []
    ensures OptionWords(head + With(pairs) + rest, |head|) == Clause(pairs) + rest
    ensures HasWith(head + With(pairs) + rest, |head|)
  {
    var argv := head + With(pairs) + rest;
    assert argv[|head|] == "WITH" && argv[|head| + 1..] == Clause(pairs) + rest;
  }

  lemma ReadsWith(head: seq<string>, pairs: seq<Pair>, rest: seq<string>, o: Opts)
    requires AllAccepted(pairs) && Ends(pairs, rest)
    ensures var argv := head + With(pairs) + rest;
            && Skipped(argv, |head|) == |head| + |With(pairs)| && argv[|head| + |With(pairs)|..] == rest
            && Slurp(OptionWords(argv, |head|), o).1 == Fold(o, pairs)
  {
    hide Accepts, Update, Fold, Clause;
    var argv := head + With(pairs) + rest;
    if pairs == [] {
      assert argv == head + rest;
      NothingFolds(o);
    } else {
      WithIsRead(head, pairs, rest);
      ClauseRoundTrip(pairs, rest, o);
      ClauseRoundTrip(pairs, rest, NO_OPTIONS);
    }
  }

  // The search of a command before its BY clause is read.
  function Blank(options: Opts, scope: Scope, pairs: seq<Pair>, kind: SearchType): Spec {
    Spec(Opts(CodeOf(options, pairs), ProvinceOf(scope, pairs), TerritorialOf(options, scope, pairs)),
         None, None, 0, SCE_CODE_UNSET, kind)
  }

  // FIND and GET, from the words that name what is searched for to the BY clause.
  lemma ReadsCommand(options: Opts, req: Request, scope: Scope, pairs: seq<Pair>, kind: SearchType, rest: seq<string>)
    requires scope != ClientScope && HasQueue(kind) && AllAccepted(pairs) && Ends(pairs, rest)
    requires req.argv == HeadWords(kind) + With(pairs) + rest && |req.argv| >= 2
    ensures Prepare(options, req, scope)
         == Prepared(if scope == SessionScope then Fold(options, pairs) else options,
                     ByClause(rest, Blank(options, scope, pairs, kind), req.address))
  {
    hide Accepts, Update, Fold, ByClause, Join, Atoi, Slurp, Skipped, OptionWords, With, Clause;
    HeadReadsWords(req.argv, req.leftover, kind);
    assert HeadWords(kind) <= req.argv;
    var target := if scope == SessionScope then options else Fresh(options);
    ReadsWith(HeadWords(kind), pairs, rest, target);
    FoldMeaning(options, pairs);
    FoldMeaning(Fresh(options), pairs);
    LastValueIsSet(pairs, "PROVINCE");
    var created := if scope == SessionScope then Fresh(options) else Fold(target, pairs);
    var spec := Spec(created, None, None, 0, SCE_CODE_UNSET, kind);
    ByClauseIgnoresOptions(rest, spec, Blank(options, scope, pairs, kind).options, req.address);
    ByClauseIgnoresOptions(rest, Blank(options, scope, pairs, kind), created, req.address);
  }

  predicate IsField(field: string) {
    field in {"NAME", "ZIPCODE", "MAE_CODE", "SCE_CODE", "LOCATION_CODE"}
  }

  lemma ReadsBy(field: string, ws: seq<string>, spec: Spec, address: int)
    requires IsField(field) && ws != []
    ensures ByClause(["BY", field] + ws, spec, address)
         == Some(if field == "NAME" then spec.(name := Some(Join(ws)))
                 else if field == "ZIPCODE" then spec.(zipcode := Some(Join(ws)))
                 else if field == "MAE_CODE" then spec.(maeCode := Atoi(Join(ws)))
                 else spec.(sceCode := address))
    ensures forall pairs: seq<Pair> :: Ends(pairs, ["BY", field] + ws)
  {
    hide Join, Atoi;
    assert (["BY", field] + ws)[2..] == ws;
    assert "BY"[0] == 'B' && "WITH"[0] == 'W' && "AND"[0] == 'A';
    assert "NAME"[0] == 'N' && "ZIPCODE"[0] == 'Z' && "MAE_CODE"[0] == 'M' && "SCE_CODE"[0] == 'S';
  }

  // LOCATIONS BY NAME asks for the name that its words make with spaces between them.
  lemma LocationsByName(options: Opts, req: Request, scope: Scope, pairs: seq<Pair>, ws: seq<string>)
    requires scope != ClientScope && AllAccepted(pairs) && ws != []
    requires req.argv == ["LOCATIONS"] + With(pairs) + (["BY", "NAME"] + ws)
    ensures var codState := CodeOf(options, pairs);
            Puts(options, req, scope, pairs, Locations,
                 if codState == -1 || Join(ws) == "" then None
                 else Some(NameQuery(codState, Join(ws), ProvinceOf(scope, pairs))))
  {
    hide Join, Atoi, Prepare, ByClause, Fold, AllAccepted, With, CodeOf, ProvinceOf, TerritorialOf;
    ReadsBy("NAME", ws, Blank(options, scope, pairs, Locations), req.address);
    ReadsCommand(options, req, scope, pairs, Locations, ["BY", "NAME"] + ws);
  }

  // LOCATIONS BY ZIPCODE asks for the zip code that its words make.
  lemma LocationsByZipcode(options: Opts, req: Request, scope: Scope, pairs: seq<Pair>, ws: seq<string>)
    requires scope != ClientScope && AllAccepted(pairs) && ws != []
    requires req.argv == ["LOCATIONS"] + With(pairs) + (["BY", "ZIPCODE"] + ws)
    ensures var codState := CodeOf(options, pairs);
            Puts(options, req, scope, pairs, Locations,
                 if codState == -1 || Join(ws) == "" then None else Some(ZipcodeQuery(codState, Join(ws))))
  {
    hide Join, Atoi, Prepare, ByClause, Fold, AllAccepted, With, CodeOf, ProvinceOf, TerritorialOf;
    ReadsBy("ZIPCODE", ws, Blank(options, scope, pairs, Locations), req.address);
    ReadsCommand(options, req, scope, pairs, Locations, ["BY", "ZIPCODE"] + ws);
  }

  // LOCATIONS by either name of the code of a location asks about the address of the copied text.
  lemma LocationsByCode(options: Opts, req: Request, scope: Scope, pairs: seq<Pair>, field: string, ws: seq<string>)
    requires scope != ClientScope && AllAccepted(pairs) && ws != [] && field in {"SCE_CODE", "LOCATION_CODE"}
    requires req.argv == ["LOCATIONS"] + With(pairs) + (["BY", field] + ws)
    ensures var codState := CodeOf(options, pairs);
            Puts(options, req, scope, pairs, Locations,
                 if codState == -1 || req.address in {0, -1} then None else Some(SceCodeQuery(codState, req.address)))
  {
    hide Join, Atoi, Prepare, ByClause, Fold, AllAccepted, With, CodeOf, ProvinceOf, TerritorialOf;
    ReadsBy(field, ws, Blank(options, scope, pairs, Locations), req.address);
    ReadsCommand(options, req, scope, pairs, Locations, ["BY", field] + ws);
  }

  // CONSULAR DISTRICTS BY MAE_CODE asks for the number that its words are read as, in any state.
  lemma DistrictsByMaeCode(options: Opts, req: Request, scope: Scope, pairs: seq<Pair>, ws: seq<string>)
    requires scope != ClientScope && AllAccepted(pairs) && ws != []
    requires req.argv == ["CONSULAR", "DISTRICTS"] + With(pairs) + (["BY", "MAE_CODE"] + ws)
    ensures Puts(options, req, scope, pairs, ConsularDistricts,
                 if Atoi(Join(ws)) in {0, -1} then None else Some(DistrictQuery(Atoi(Join(ws)))))
  {
    hide Join, Atoi, Prepare, ByClause, Fold, AllAccepted, With, CodeOf, ProvinceOf, TerritorialOf;
    ReadsBy("MAE_CODE", ws, Blank(options, scope, pairs, ConsularDistricts), req.address);
    ReadsCommand(options, req, scope, pairs, ConsularDistricts, ["BY", "MAE_CODE"] + ws);
  }

  // By any other field neither type of search has a question to put.
  lemma OtherFieldsAskNothing(options: Opts, req: Request, scope: Scope, pairs: seq<Pair>, field: string,
                              ws: seq<string>)
    requires scope != ClientScope && AllAccepted(pairs) && ws != [] && IsField(field)
    ensures req.argv == ["LOCATIONS"] + With(pairs) + (["BY", "MAE_CODE"] + ws) ==>
              Puts(options, req, scope, pairs, Locations, None)
    ensures req.argv == ["CONSULAR", "DISTRICTS"] + With(pairs) + (["BY", field] + ws) && field != "MAE_CODE" ==>
              Puts(options, req, scope, pairs, ConsularDistricts, None)
  {
    hide Join, Atoi, Prepare, ByClause, Fold, AllAccepted, With, CodeOf, ProvinceOf, TerritorialOf;
    if req.argv == ["LOCATIONS"] + With(pairs) + (["BY", "MAE_CODE"] + ws) {
      ReadsBy("MAE_CODE", ws, Blank(options, scope, pairs, Locations), req.address);
      ReadsCommand(options, req, scope, pairs, Locations, ["BY", "MAE_CODE"] + ws);
    }
    if req.argv == ["CONSULAR", "DISTRICTS"] + With(pairs) + (["BY", field] + ws) && field != "MAE_CODE" {
      ReadsBy(field, ws, Blank(options, scope, pairs, ConsularDistricts), req.address);
      ReadsCommand(options, req, scope, pairs, ConsularDistricts, ["BY", field] + ws);
    }
  }

  lemma IgnoresBy(rest: seq<string>, spec: Spec, address: int)
    requires spec.kind == Consulates || spec.kind == ZcSpecimina
    ensures ByClause(rest, spec, address).Some?
    ensures var made := ByClause(rest, spec, address).value; made.kind == spec.kind && made.options == spec.options
  {
    hide Join, Atoi;
  }

  // CONSULATES asks for those of the state, outside Italy, whatever the words after the options are.
  lemma ConsulatesOfState(options: Opts, req: Request, scope: Scope, pairs: seq<Pair>, rest: seq<string>)
    requires scope != ClientScope && AllAccepted(pairs) && Ends(pairs, rest) && With(pairs) + rest != []
    requires req.argv == ["CONSULATES"] + With(pairs) + rest
    ensures var codState := CodeOf(options, pairs);
            Puts(options, req, scope, pairs, Consulates,
                 if codState in {-1, 97} then None
                 else Some(ConsulateQuery(codState, TerritorialOf(options, scope, pairs))))
  {
    hide Prepare, ByClause, Fold, AllAccepted, With, CodeOf, ProvinceOf, TerritorialOf, Ends;
    IgnoresBy(rest, Blank(options, scope, pairs, Consulates), req.address);
    ReadsCommand(options, req, scope, pairs, Consulates, rest);
  }

  // SPECIMINA OF ZIPCODES asks for them, in any state and whatever the words after the options are.
  lemma SpeciminaOfZipcodes(options: Opts, req: Request, scope: Scope, pairs: seq<Pair>, rest: seq<string>)
    requires scope != ClientScope && AllAccepted(pairs) && Ends(pairs, rest)
    requires req.argv == ["SPECIMINA", "OF", "ZIPCODES"] + With(pairs) + rest
    ensures Puts(options, req, scope, pairs, ZcSpecimina, Some(SpeciminaQuery))
  {
    hide Prepare, ByClause, Fold, AllAccepted, With, CodeOf, ProvinceOf, TerritorialOf, Ends;
    IgnoresBy(rest, Blank(options, scope, pairs, ZcSpecimina), req.address);
    ReadsCommand(options, req, scope, pairs, ZcSpecimina, rest);
  }

  // A command that says by which field: BY, one of five words, and at least one more.
  predicate SaysBy(rest: seq<string>) {
    |rest| >= 3 && rest[0] == "BY" && IsField(rest[1])
  }

  lemma NoBy(rest: seq<string>, spec: Spec, address: int)
    ensures spec.kind in {Locations, ConsularDistricts} ==> (ByClause(rest, spec, address).Some? <==> SaysBy(rest))
  {
    hide Join, Atoi;
  }

  // LOCATIONS and CONSULAR DISTRICTS make a search exactly when the words after the options say by
  // which field.
  lemma NeedsBy(options: Opts, req: Request, scope: Scope, pairs: seq<Pair>, kind: SearchType, rest: seq<string>)
    requires scope != ClientScope && AllAccepted(pairs) && Ends(pairs, rest) && With(pairs) + rest != []
    requires match kind
             case Locations => req.argv == ["LOCATIONS"] + With(pairs) + rest
             case ConsularDistricts => req.argv == ["CONSULAR", "DISTRICTS"] + With(pairs) + rest
             case _ => false
    ensures var p := Prepare(options, req, scope);
            && p.Prepared? && p.options == (if scope == SessionScope then Fold(options, pairs) else options)
            && (p.spec.Some? <==> SaysBy(rest))
  {
    hide Prepare, ByClause, Fold, AllAccepted, With, CodeOf, ProvinceOf, TerritorialOf, Ends;
    NoBy(rest, Blank(options, scope, pairs, kind), req.address);
    ReadsCommand(options, req, scope, pairs, kind, rest);
  }

  // CONSULAR without DISTRICTS sets no option, and makes a search exactly when the unassigned variable
  // holds a type that needs no BY.
  lemma ConsularAlone(options: Opts, req: Request, scope: Scope)
    requires scope != ClientScope && |req.argv| >= 2 && req.argv[0] == "CONSULAR" && req.argv[1] != "DISTRICTS"
    ensures var p := Prepare(options, req, scope);
            && p.Prepared? && p.options == options
            && (p.spec.Some? <==> req.leftover in {Consulates, ZcSpecimina})
            && (p.spec.Some? ==> p.spec.value.kind == req.leftover)
  {
    hide Join, Atoi, Accepts, Update;
    assert "CONSULAR"[0] == 'C' && "WITH"[0] == 'W' && "BY"[0] == 'B' && "LOCATIONS"[0] == 'L';
    assert |"CONSULAR"| == 8 && |"CONSULATES"| == 10;
    assert Slurp([], options) == (0, options);
  }

  // Nothing else is searched for.
  lemma NamesNothing(options: Opts, req: Request, scope: Scope)
    requires scope != ClientScope
    ensures Prepare(options, req, scope).NotASearch? <==>
              || |req.argv| < 2
              || req.argv[0] !in {"LOCATIONS", "CONSULATES", "CONSULAR", "SPECIMINA"}
              || (req.argv[0] == "SPECIMINA" && !(["SPECIMINA", "OF", "ZIPCODES"] <= req.argv))
  {
    hide Join, Atoi, Accepts, Update, ByClause, Slurp;
    assert "LOCATIONS"[0] == 'L' && "CONSULATES"[0] == 'C' && "CONSULAR"[0] == 'C' && "SPECIMINA"[0] == 'S';
  }

  // A whole command, word by word.
  lemma LocationsInProvince(options: Opts, req: Request, scope: Scope, codState: string, province: string,
                            ws: seq<string>)
    requires scope != ClientScope && ws != [] && Join(ws) != "" && CodStateOf(codState) != -1
    requires req.argv == ["LOCATIONS", "WITH", "COD_STATE", codState, "AND", "PROVINCE", province, "BY", "NAME"] + ws
    ensures var p := Prepare(options, req, scope);
            && p.Prepared? && p.spec.Some?
            && Route(p.spec.value)
            == Some(NameQuery(CodStateOf(codState), Join(ws), if scope == SessionScope then None else Some(province)))
            && p.options
            == if scope == SearchScope then options
               else Opts(CodStateOf(codState), Some(province), options.territorial)
  {
    hide Join, Atoi, Prepare, Route, CodStateOf;
    var pairs := [Pair("COD_STATE", codState), Pair("PROVINCE", province)];
    TwoOptions(options, codState, province);
    assert req.argv == ["LOCATIONS"] + With(pairs) + (["BY", "NAME"] + ws);
    LocationsByName(options, req, scope, pairs, ws);
  }

  lemma TwoOptions(options: Opts, codState: string, province: string)
    requires CodStateOf(codState) != -1
    ensures var pairs := [Pair("COD_STATE", codState), Pair("PROVINCE", province)];
            && AllAccepted(pairs)
            && With(pairs) == ["WITH", "COD_STATE", codState, "AND", "PROVINCE", province]
            && CodeOf(options, pairs) == CodStateOf(codState) && LastValue(pairs, "PROVINCE") == Some(province)
            && Fold(options, pairs) == Opts(CodStateOf(codState), Some(province), options.territorial)
  {
    hide CodStateOf;
    var first, second := Pair("COD_STATE", codState), Pair("PROVINCE", province);
    var pairs := [first, second];
    assert pairs[1..] == [second] && [second][1..] == [];
    assert "COD_STATE"[0] == 'C' && "PROVINCE"[0] == 'P' && "TERRITORIAL_COMPETENCE"[0] == 'T';
    assert Clause([second]) == ["PROVINCE", province];
    assert LastValue([second], "COD_STATE") == LastValue([], "COD_STATE") == None;
    assert LastValue([second], "PROVINCE") == Some(province) by { assert LastValue([], "PROVINCE") == None; }
    FoldMeaning(options, pairs);
  }

  // ----- From questions to rows -----

  // What one entity gives to a question, when it is loaded and the question goes well.
  function Given(entity: Option<Entity>, query: Query, data: Data): Option<seq<Row>> {
    match entity
    case None => None
    case Some(e) => if data.Ask(e, query).ok then Some(data.Ask(e, query).rows) else None
  }

  // Consulates are asked of the entity of the state when the search has territorial competence, and
  // else of that of code 0; without a state, and for Italy, there are none.
  lemma ConsulateRows(spec: Spec, w: World)
    requires w.Ok() && CodStateOk(spec.options.codState) && spec.kind == Consulates
    ensures var codState, territorial := spec.options.codState, spec.options.territorial;
            ResultOf(spec, w)
            == if codState in {-1, 97} then None
               else Given(if territorial then w.entities.table[codState] else w.entities.entity000,
                          ConsulateQuery(codState, territorial), w.data)
  {
    hide Data.Ask;
  }

  // Locations are asked of the entity of the state, which for Italy is kept outside of the table. A
  // question by name gives what was read even when it fails.
  lemma LocationRows(spec: Spec, w: World)
    requires w.Ok() && CodStateOk(spec.options.codState) && spec.kind == Locations
    ensures var codState := spec.options.codState;
            && (codState == -1 || spec.By() !in {ByName, ByZipcode, BySceCode} ==> ResultOf(spec, w) == None)
            && (codState != -1 ==>
                  var entity := if codState == 97 then w.entities.italy else w.entities.table[codState];
                  && (spec.By() == ByName ==>
                        ResultOf(spec, w)
                        == if entity.None? then None
                           else Some(w.data.Ask(entity.value,
                                                NameQuery(codState, spec.name.value, spec.options.province)).rows))
                  && (spec.By() == ByZipcode ==>
                        ResultOf(spec, w) == Given(entity, ZipcodeQuery(codState, spec.zipcode.value), w.data))
                  && (spec.By() == BySceCode ==>
                        ResultOf(spec, w) == Given(entity, SceCodeQuery(codState, spec.sceCode), w.data)))
  {
    hide Data.Ask;
  }

  // Districts are those of the list with the code; specimina the Italian ones, then those of the table.
  lemma OtherRows(spec: Spec, w: World)
    requires w.Ok() && CodStateOk(spec.options.codState)
    ensures spec.kind == ConsularDistricts ==>
              ResultOf(spec, w) == if spec.By() == ByMaeCode then Some(Matching(w.districts, spec.maeCode)) else None
    ensures spec.kind == ZcSpecimina ==>
              ResultOf(spec, w)
              == if w.data.italianSpecimina.ok then
                   Some(w.data.italianSpecimina.rows + Specimina(w.entities.table, w.data))
                 else None
    ensures spec.kind in {TypeUndefined, Municipality} ==> ResultOf(spec, w) == None
  {
    hide Data.Ask, Matching, Specimina;
  }

  // ----- From rows to answers -----

  // A result as it is printed when it is asked for: its lines, or one word when there are none.
  function Shown(rows: seq<Row>, line: Printer): seq<Answer> {
    if Lines(rows, line) == [] then [Undefined] else Lines(rows, line)
  }

  lemma PrintedIsShown(rows: seq<Row>, announce: bool, line: Printer)
    ensures Printed(rows, announce, line) + (if Lines(rows, line) == [] then [Undefined] else [])
         == (if announce then [Count(|rows|)] else []) + Shown(rows, line)
  {
    hide Lines;
  }

  // FIND answers how many rows it found and keeps them. It is undefined when it names nothing to search
  // for or lacks the field, and unavailable when the search fails; the session then keeps its search
  // only when nothing was named.
  lemma FindAnswers(desk: Desk, req: Request, w: World)
    requires DeskOk(desk) && w.Ok()
    ensures var p := Prepare(desk.options, req, SessionScope);
            p.Prepared? && p.spec.Some? ==> CodStateOk(p.spec.value.options.codState)
    ensures var p := Prepare(desk.options, req, SessionScope);
            Find(desk, req, w)
            == if p.NotASearch? then (desk, [Undefined])
            else if p.spec.None? then (Desk(p.options, None), [Undefined])
            else
              var rows := ResultOf(p.spec.value, w);
              if rows.None? then (Desk(p.options, None), [Unavailable])
              else (Desk(p.options, Some(Found(p.spec.value, rows.value))), [Count(|rows.value|)])
  {
    hide Prepare, ResultOf, CodStateOk;
    PreparedCodState(desk.options, req, SessionScope);
  }

  // GET answers the count and the rows at once, and fails with the same answers as FIND.
  lemma GetAnswers(desk: Desk, req: Request, w: World)
    requires DeskOk(desk) && w.Ok()
    ensures var p := Prepare(desk.options, req, SearchScope);
            p.Prepared? && p.spec.Some? ==> CodStateOk(p.spec.value.options.codState)
    ensures var p := Prepare(desk.options, req, SearchScope);
            Get(desk, req, w)
            == if p.NotASearch? then (desk, [Undefined])
            else if p.spec.None? then (Desk(p.options, None), [Undefined])
            else
              var rows := ResultOf(p.spec.value, w);
              if rows.None? then (Desk(p.options, None), [Unavailable])
              else (Desk(p.options, None), [Count(|rows.value|)] + Shown(rows.value, PrinterOf(p.spec.value, w.line)))
  {
    hide Prepare, ResultOf, CodStateOk, Lines, PrinterOf;
    PreparedCodState(desk.options, req, SearchScope);
    var p := Prepare(desk.options, req, SearchScope);
    if p.Prepared? && p.spec.Some? && ResultOf(p.spec.value, w).Some? {
      PrintedIsShown(ResultOf(p.spec.value, w).value, true, PrinterOf(p.spec.value, w.line));
    }
  }

  // FETCH answers the rows that FIND kept, once, without their count; without any it answers twice that
  // it is unavailable.
  lemma FetchAnswers(desk: Desk, line: Printer)
    ensures desk.search.None? ==> Fetch(desk, line) == (desk, [Unavailable, Unavailable])
    ensures desk.search.Some? ==>
              var found := desk.search.value;
              Fetch(desk, line) == (Desk(desk.options, None), Shown(found.rows, PrinterOf(found.spec, line)))
  {
    hide Lines, PrinterOf;
    if desk.search.Some? {
      var rows, printer := desk.search.value.rows, PrinterOf(desk.search.value.spec, line);
      PrintedIsShown(rows, false, printer);
      assert [] + Shown(rows, printer) == Shown(rows, printer);
    } else {
      assert [Unavailable] + [Unavailable] == [Unavailable, Unavailable];
    }
  }

  // SET takes exactly two words, and sets the option they give when it is accepted.
  lemma SetAnswers(desk: Desk, argv: seq<string>)
    ensures |argv| == 2 && Accepts(argv[0], argv[1]) ==>
              SetWords(desk, argv) == (Desk(Fold(desk.options, [Pair(argv[0], argv[1])]), desk.search), [Done])
    ensures |argv| != 2 || !Accepts(argv[0], argv[1]) ==> SetWords(desk, argv) == (desk, [Undefined])
  {
    hide Accepts, Update;
    if |argv| == 2 {
      assert [Pair(argv[0], argv[1])][1..] == [];
      NothingFolds(Update(desk.options, argv[0], argv[1]));
    }
  }

  // How each type of search is printed: locations through the encoding of the client unless they are
  // searched by code, districts through the encoding, and the others as they are, text or none, and
  // without the delimiter of the client.
  lemma Printing(spec: Spec, line: Printer)
    ensures spec.kind in {Consulates, ZcSpecimina} ==> PrinterOf(spec, line) == Always(" ")
    ensures spec.kind == Locations ==>
              PrinterOf(spec, line) == if spec.By() == BySceCode then Plain(line.delimiter) else line
    ensures spec.kind == ConsularDistricts ==> PrinterOf(spec, line) == line
  {
  }

  // ----- From words to answers -----

  // FIND CONSULATES counts the rows of the entity of the state, or of that of code 0, for every clause of
  // options and every state of the session.
  lemma ConsulatesAnswered(desk: Desk, req: Request, pairs: seq<Pair>, rest: seq<string>, w: World)
    requires DeskOk(desk) && w.Ok() && AllAccepted(pairs) && Ends(pairs, rest) && With(pairs) + rest != []
    requires req.argv == ["CONSULATES"] + With(pairs) + rest
    ensures CodStateOk(CodeOf(desk.options, pairs))
    ensures var codState := CodeOf(desk.options, pairs);
            var territorial := Sets(pairs, "TERRITORIAL_COMPETENCE") || desk.options.territorial;
            Find(desk, req, w).1
            == if codState in {-1, 97} then [Unavailable]
               else match Given(if territorial then w.entities.table[codState] else w.entities.entity000,
                                ConsulateQuery(codState, territorial), w.data)
                    case None => [Unavailable]
                    case Some(rows) => [Count(|rows|)]
  {
    hide Prepare, ByClause, Fold, AllAccepted, With, CodeOf, Ends, ResultOf, Find, Given;
    var spec := Blank(desk.options, SessionScope, pairs, Consulates);
    IgnoresBy(rest, spec, req.address);
    ReadsCommand(desk.options, req, SessionScope, pairs, Consulates, rest);
    PreparedCodState(desk.options, req, SessionScope);
    FindAnswers(desk, req, w);
    ConsulateRows(ByClause(rest, spec, req.address).value, w);
  }

  // GET LOCATIONS BY NAME answers the count and the lines of what the entity of the state gives to the
  // name, in the province if one was given.
  lemma NameAnswered(desk: Desk, req: Request, pairs: seq<Pair>, ws: seq<string>, w: World)
    requires DeskOk(desk) && w.Ok() && AllAccepted(pairs) && ws != []
    requires req.argv == ["LOCATIONS"] + With(pairs) + (["BY", "NAME"] + ws)
    ensures CodStateOk(CodeOf(desk.options, pairs))
    ensures var codState := CodeOf(desk.options, pairs);
            Get(desk, req, w).1
            == if codState == -1 || Join(ws) == "" then [Unavailable]
               else match if codState == 97 then w.entities.italy else w.entities.table[codState]
                    case None => [Unavailable]
                    case Some(entity) =>
                      var rows := w.data.Ask(entity, NameQuery(codState, Join(ws), LastValue(pairs, "PROVINCE"))).rows;
                      [Count(|rows|)] + Shown(rows, w.line)
  {
    hide Prepare, ByClause, Fold, AllAccepted, With, CodeOf, Ends, ResultOf, Get, Join, Atoi, Data.Ask, Shown;
    var spec := Blank(desk.options, SearchScope, pairs, Locations);
    ReadsBy("NAME", ws, spec, req.address);
    ReadsCommand(desk.options, req, SearchScope, pairs, Locations, ["BY", "NAME"] + ws);
    PreparedCodState(desk.options, req, SearchScope);
    GetAnswers(desk, req, w);
    LocationRows(spec.(name := Some(Join(ws))), w);
  }
}
