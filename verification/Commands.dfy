/**
 The commands that search: FIND, which keeps its result for FETCH, GET, which prints it at once, and
 SET, all of them on one session.
 */
module Commands {
  import opened Common
  import opened Flattening
  import opened StateCodes
  import opened Options
  import opened Results
  import opened Searches

  // ----- The interpretation of FIND and GET -----

  // The types of search that have results to count and to print.
  predicate HasQueue(kind: SearchType) {
    kind in {Locations, ConsularDistricts, Consulates, ZcSpecimina}
  }

  // How many words name what is searched for, and what that is.
  datatype Head = Head(used: nat, kind: SearchType)

  // After CONSULAR without DISTRICTS the type is whatever the variable for it happened to hold.
  function HeadOf(argv: seq<string>, leftover: SearchType): (r: Option<Head>)
    ensures r.Some? ==> r.value.used <= |argv|
  {
    if |argv| < 2 then None
    else if argv[0] == "LOCATIONS" then Some(Head(1, Locations))
    else if argv[0] == "CONSULATES" then Some(Head(1, Consulates))
    else if argv[0] == "CONSULAR" then
      if argv[1] == "DISTRICTS" then Some(Head(2, ConsularDistricts)) else Some(Head(0, leftover))
    else if argv[0] == "SPECIMINA" then
      if |argv| < 3 || argv[1] != "OF" || argv[2] != "ZIPCODES" then None else Some(Head(3, ZcSpecimina))
    else None
  }

  // The words that name what is searched for.
  function HeadWords(kind: SearchType): seq<string>
    requires HasQueue(kind)
  {
    match kind
    case Locations => ["LOCATIONS"]
    case Consulates => ["CONSULATES"]
    case ConsularDistricts => ["CONSULAR", "DISTRICTS"]
    case ZcSpecimina => ["SPECIMINA", "OF", "ZIPCODES"]
  }

  // A command starts with the words of a type of search, and with at least one more when that is a
  // single word; or with CONSULAR and another word; or it names nothing to search for.
  lemma HeadReadsWords(argv: seq<string>, leftover: SearchType, kind: SearchType)
    requires HasQueue(kind)
    ensures |argv| >= 2 && HeadWords(kind) <= argv ==>
              HeadOf(argv, leftover) == Some(Head(|HeadWords(kind)|, kind))
    ensures HeadOf(argv, leftover).Some? && HeadOf(argv, leftover).value.used > 0 ==>
              var head := HeadOf(argv, leftover).value;
              HasQueue(head.kind) && argv[..head.used] == HeadWords(head.kind)
    ensures HeadOf(argv, leftover).Some? && HeadOf(argv, leftover).value.used == 0 ==>
              argv[0] == "CONSULAR" && argv[1] != "DISTRICTS"
  {
    assert "LOCATIONS"[0] == 'L' && "CONSULATES"[6] == 'A' && "CONSULAR"[6] == 'A' && "SPECIMINA"[0] == 'S';
    assert |"CONSULATES"| == 10 && |"CONSULAR"| == 8;
    if |argv| >= 2 && HeadWords(kind) <= argv {
      assert argv[0] == HeadWords(kind)[0];
      if |HeadWords(kind)| > 1 { assert argv[1] == HeadWords(kind)[1]; }
      if |HeadWords(kind)| > 2 { assert argv[2] == HeadWords(kind)[2]; }
    }
  }

  predicate HasWith(argv: seq<string>, used: nat) {
    |argv| > used + 1 && argv[used] == "WITH"
  }

  // The words from which options are read.
  function OptionWords(argv: seq<string>, used: nat): seq<string> {
    if HasWith(argv, used) then argv[used + 1..] else []
  }

  const NO_OPTIONS := Opts(COD_STATE_UNSET, None, false)

  // The options that a clause sets, in order.
  function Accepted(argv: seq<string>): seq<Pair> {
    SlurpReadsClause(argv, NO_OPTIONS);
    PairsOf(argv, (Slurp(argv, NO_OPTIONS).0 + 1) / 3)
  }

  lemma SlurpFolds(argv: seq<string>, o: Opts)
    ensures Slurp(argv, o).1 == Fold(o, Accepted(argv)) && AllAccepted(Accepted(argv))
  {
    SlurpReadsClause(argv, o);
    SlurpReadsClause(argv, NO_OPTIONS);
    SlurpTakesTheSame(argv, o, NO_OPTIONS);
  }

  // How many words precede the BY clause.
  function Skipped(argv: seq<string>, used: nat): (r: nat)
    requires used <= |argv|
    ensures used <= r <= |argv|
  {
    SlurpReadsClause(OptionWords(argv, used), NO_OPTIONS);
    if HasWith(argv, used) then used + 1 + Slurp(OptionWords(argv, used), NO_OPTIONS).0 else used
  }

  // A command after its first word, with the two values that its words do not determine.
  datatype Request = Request(argv: seq<string>, leftover: SearchType, address: int)

  // The options that a whole command sets.
  function OptionsOf(req: Request): seq<Pair> {
    var head := HeadOf(req.argv, req.leftover);
    if head.None? then [] else Accepted(OptionWords(req.argv, head.value.used))
  }

  // What the BY clause adds to a search. The address is where the text of a code gets copied to.
  function ByClause(rest: seq<string>, spec: Spec, address: int): Option<Spec> {
    if |rest| > 2 && rest[0] == "BY" && rest[1] == "NAME" then Some(spec.(name := Some(Join(rest[2..]))))
    else if |rest| > 2 && rest[0] == "BY" && rest[1] == "ZIPCODE" then Some(spec.(zipcode := Some(Join(rest[2..]))))
    else if |rest| > 2 && rest[0] == "BY" && rest[1] == "MAE_CODE" then Some(spec.(maeCode := Atoi(Join(rest[2..]))))
    else if |rest| > 2 && rest[0] == "BY" && rest[1] in {"SCE_CODE", "LOCATION_CODE"} then
      Some(spec.(sceCode := address))
    else if spec.kind == Consulates || spec.kind == ZcSpecimina then Some(spec)
    else None
  }

  // A command that names nothing to search for, or the options that the session has after the
  // command was read together with the search, if it could be made.
  datatype Prepared = NotASearch | Prepared(options: Opts, spec: Option<Spec>)

  function Fresh(options: Opts): Opts { Opts(options.codState, None, false) }

  function Prepare(options: Opts, req: Request, scope: Scope): Prepared
    requires scope != ClientScope
  {
    match HeadOf(req.argv, req.leftover)
    case None => NotASearch
    case Some(head) =>
      var words := OptionWords(req.argv, head.used);
      var target := if scope == SessionScope then options else Fresh(options);
      var left := Slurp(words, target).1;
      var created := if scope == SessionScope then Fresh(options) else left;
      var spec := Spec(created, None, None, 0, SCE_CODE_UNSET, head.kind);
      var made := ByClause(req.argv[Skipped(req.argv, head.used)..], spec, req.address);
      if scope == SessionScope then
        Prepared(left, if made.None? then None else Some(Refresh(made.value, left)))
      else Prepared(options, made)
  }

  // The options of the session that a search made by FIND takes over.
  function Refresh(spec: Spec, options: Opts): Spec {
    spec.(options := spec.options.(codState := options.codState, territorial := options.territorial))
  }

  // The BY clause reads nothing from the options, and leaves them alone.
  lemma ByClauseIgnoresOptions(rest: seq<string>, spec: Spec, options: Opts, address: int)
    ensures ByClause(rest, spec, address).Some? <==> ByClause(rest, spec.(options := options), address).Some?
    ensures ByClause(rest, spec, address).Some? ==>
              && ByClause(rest, spec, address).value.options == spec.options
              && ByClause(rest, spec.(options := options), address).value
              == ByClause(rest, spec, address).value.(options := options)
  {
    hide Join, Atoi;
  }

  // FIND and GET read the same command alike: they take the same words as options, search for the
  // same thing by the same field, and with the same code. GET leaves the session as it was; FIND
  // leaves it with the accepted options set from left to right.
  lemma FindReadsLikeGet(options: Opts, req: Request)
    ensures var find, get := Prepare(options, req, SessionScope), Prepare(options, req, SearchScope);
            && (find.NotASearch? <==> get.NotASearch?)
            && (get.NotASearch? ==> OptionsOf(req) == [])
            && (get.Prepared? ==>
                  var pairs := OptionsOf(req);
                  && AllAccepted(pairs)
                  && get.options == options
                  && find.options == Fold(options, pairs)
                  && (find.spec.Some? <==> get.spec.Some?)
                  && (get.spec.Some? ==>
                        && get.spec.value.options == Fold(Fresh(options), pairs)
                        && find.spec.value == get.spec.value.(options := find.spec.value.options)
                        && find.spec.value.options.codState == get.spec.value.options.codState == find.options.codState
                        && find.spec.value.options.province == None
                        && find.spec.value.options.territorial == find.options.territorial))
  {
    hide Join, Atoi, Accepts, Update, Fold, ByClause, HasWith, Slurp;
    var head := HeadOf(req.argv, req.leftover);
    if head.Some? {
      var words := OptionWords(req.argv, head.value.used);
      SlurpFolds(words, options);
      SlurpFolds(words, Fresh(options));
      FoldMeaning(options, Accepted(words));
      FoldMeaning(Fresh(options), Accepted(words));
      var spec := Spec(Fresh(options), None, None, 0, SCE_CODE_UNSET, head.value.kind);
      ByClauseIgnoresOptions(req.argv[Skipped(req.argv, head.value.used)..], spec,
                             Slurp(words, Fresh(options)).1, req.address);
    }
  }

  // ----- Commands on a session -----

  // A search whose rows wait to be printed.
  datatype Found = Found(spec: Spec, rows: seq<Row>)

  // A session: its options and its search, if any.
  datatype Desk = Desk(options: Opts, search: Option<Found>)

  // What the data looks like while a command runs, and how its client has rows printed.
  datatype World = World(entities: Entities, districts: seq<Row>, data: Data, line: Printer) {

    predicate Ok() { entities.Ok() && entities.entity000.Some? }
  }

  ghost predicate DeskOk(desk: Desk) {
    CodStateOk(desk.options.codState) && (desk.search.Some? ==> HasQueue(desk.search.value.spec.kind))
  }

  function ResultOf(spec: Spec, w: World): Option<seq<Row>>
    requires w.Ok() && CodStateOk(spec.options.codState)
  {
    var query := Route(spec);
    if query.None? then None else Outcome(query.value, w.entities, w.districts, w.data)
  }

  lemma PreparedCodState(options: Opts, req: Request, scope: Scope)
    requires CodStateOk(options.codState) && scope != ClientScope
    ensures var p := Prepare(options, req, scope);
            p.Prepared? ==>
              CodStateOk(p.options.codState) && (p.spec.Some? ==> CodStateOk(p.spec.value.options.codState))
  {
    hide Prepare, Accepts, Update, Fold, ByClause, OptionsOf, CodStateOk;
    FindReadsLikeGet(options, req);
    if Prepare(options, req, scope).Prepared? {
      FoldKeepsCodState(options, OptionsOf(req));
    }
  }

  // Whatever CONSULAR without DISTRICTS leaves as the type, no search without results is made of it.
  lemma PreparedHasQueue(options: Opts, req: Request, scope: Scope)
    requires scope != ClientScope
    ensures var p := Prepare(options, req, scope);
            p.Prepared? && p.spec.Some? ==> HasQueue(p.spec.value.kind)
  {
    hide Join, Atoi, Accepts, Update, Slurp;
    assert "CONSULAR"[0] == 'C' && "WITH"[0] == 'W' && "BY"[0] == 'B';
  }

  // FIND and GET up to their answer: 0, -1 when the command is undefined, -2 when the search failed.
  function FindGet(desk: Desk, req: Request, scope: Scope, w: World): (Desk, int)
    requires DeskOk(desk) && w.Ok() && scope != ClientScope
  {
    PreparedCodState(desk.options, req, scope);
    match Prepare(desk.options, req, scope)
    case NotASearch => (desk, -1)
    case Prepared(options, None) => (Desk(options, None), -1)
    case Prepared(options, Some(spec)) =>
      var rows := ResultOf(spec, w);
      if rows.None? then (Desk(options, None), -2) else (Desk(options, Some(Found(spec, rows.value))), 0)
  }

  function Failure(code: int): seq<Answer> {
    if code == -2 then [Unavailable] else [Undefined]
  }

  function Find(desk: Desk, req: Request, w: World): (Desk, seq<Answer>)
    requires DeskOk(desk) && w.Ok()
  {
    var (after, code) := FindGet(desk, req, SessionScope, w);
    (after, if code == 0 then [Count(|after.search.value.rows|)] else Failure(code))
  }

  // Names go through the encoding of the client, zip codes and numbers do not; consulates, which are
  // one number, and zip code specimina are printed whatever their text is, and with a space in
  // place of the delimiter of the client.
  function PrinterOf(spec: Spec, line: Printer): Printer {
    if spec.kind == Consulates || spec.kind == ZcSpecimina then Always(" ")
    else if spec.kind == Locations && spec.By() == BySceCode then Plain(line.delimiter)
    else line
  }

  // Prints the search of the session, which then has none.
  function Show(desk: Desk, announce: bool, line: Printer): (Desk, seq<Answer>) {
    if desk.search.None? then (desk, [Unavailable])
    else
      var printer := PrinterOf(desk.search.value.spec, line);
      var rows := desk.search.value.rows;
      (desk.(search := None), Printed(rows, announce, printer) + if Lines(rows, printer) == [] then [Undefined] else [])
  }

  // What the handlers of GET and FETCH return: -1 when there was no search to print.
  function ShowCode(desk: Desk): int {
    if desk.search.None? then -1 else 0
  }

  // A handler that returns an error has the parser send one more answer.
  function Fetch(desk: Desk, line: Printer): (Desk, seq<Answer>) {
    var (after, out) := Show(desk, false, line);
    (after, if ShowCode(desk) != 0 then out + [Unavailable] else out)
  }

  function Get(desk: Desk, req: Request, w: World): (Desk, seq<Answer>)
    requires DeskOk(desk) && w.Ok()
  {
    var (after, code) := FindGet(desk, req, SearchScope, w);
    if code == 0 then Show(after, true, w.line) else (after, Failure(code))
  }

  function SetWords(desk: Desk, argv: seq<string>): (Desk, seq<Answer>) {
    if |argv| == 2 && Accepts(argv[0], argv[1]) then
      (desk.(options := Update(desk.options, argv[0], argv[1])), [Done])
    else (desk, [Undefined])
  }

  // After a GET that names something to search for, nothing is left for FETCH.
  lemma GetDropsTheSearch(desk: Desk, req: Request, w: World)
    requires DeskOk(desk) && w.Ok() && HeadOf(req.argv, req.leftover).Some?
    ensures Get(desk, req, w).0.search == None
  {
    hide ByClause, Outcome, Lines, OptionsOf, CodStateOk, Slurp;
  }

  // ----- Runs of commands -----

  datatype Command = FindCommand(req: Request) | GetCommand(req: Request) | FetchCommand | SetCommand(argv: seq<string>)

  // A command, and the world in which it runs.
  datatype Call = Call(command: Command, world: World)

  function Step(desk: Desk, call: Call): (Desk, seq<Answer>)
    requires DeskOk(desk) && call.world.Ok()
  {
    match call.command
    case FindCommand(req) => Find(desk, req, call.world)
    case GetCommand(req) => Get(desk, req, call.world)
    case FetchCommand => Fetch(desk, call.world.line)
    case SetCommand(argv) => SetWords(desk, argv)
  }

  // The options that a command sets on the session: GET and FETCH set none.
  function Effect(command: Command): seq<Pair> {
    match command
    case FindCommand(req) => OptionsOf(req)
    case SetCommand(argv) => if |argv| == 2 && Accepts(argv[0], argv[1]) then [Pair(argv[0], argv[1])] else []
    case _ => []
  }

  // A command leaves the session with the options it sets, each set from left to right, whether the
  // command then succeeds or fails.
  lemma StepFolds(desk: Desk, call: Call)
    requires DeskOk(desk) && call.world.Ok()
    ensures Step(desk, call).0.options == Fold(desk.options, Effect(call.command))
    ensures DeskOk(Step(desk, call).0)
  {
    hide Prepare, ByClause, Outcome, Lines, Route, CodStateOk, Accepts, Update;
    match call.command
    case FindCommand(req) =>
      FindReadsLikeGet(desk.options, req);
      PreparedCodState(desk.options, req, SessionScope);
      PreparedHasQueue(desk.options, req, SessionScope);
    case GetCommand(req) =>
      FindReadsLikeGet(desk.options, req);
    case FetchCommand =>
    case SetCommand(argv) =>
      if |argv| == 2 && Accepts(argv[0], argv[1]) {
        UpdateKeepsCodState(desk.options, argv[0], argv[1]);
        var next := Update(desk.options, argv[0], argv[1]);
        assert Fold(desk.options, [Pair(argv[0], argv[1])]) == Fold(next, []) == next;
      }
  }

  ghost predicate CallsOk(calls: seq<Call>) {
    forall i :: 0 <= i < |calls| ==> calls[i].world.Ok()
  }

  function Run(desk: Desk, calls: seq<Call>): Desk
    requires DeskOk(desk) && CallsOk(calls)
    decreases |calls|
  {
    if calls == [] then desk
    else
      StepFolds(desk, calls[0]);
      Run(Step(desk, calls[0]).0, calls[1..])
  }

  function Effects(calls: seq<Call>): seq<Pair>
    decreases |calls|
  {
    if calls == [] then [] else Effect(calls[0].command) + Effects(calls[1..])
  }

  lemma {:induction false} FoldAppend(o: Opts, pairs: seq<Pair>, more: seq<Pair>)
    ensures Fold(o, pairs + more) == Fold(Fold(o, pairs), more)
    decreases |pairs|
  {
    if pairs == [] {
      assert pairs + more == more;
    } else {
      assert (pairs + more)[1..] == pairs[1..] + more;
      FoldAppend(Update(o, pairs[0].cmd, pairs[0].value), pairs[1..], more);
    }
  }

  // Over any run, on data that may change between commands, the options of a session are those that
  // its FIND and SET commands set, in the order of the commands and of their words; and its code is
  // unset or one of the table, whatever the text of the commands.
  lemma {:induction false} RunFolds(desk: Desk, calls: seq<Call>)
    requires DeskOk(desk) && CallsOk(calls)
    ensures Run(desk, calls).options == Fold(desk.options, Effects(calls))
    ensures CodStateOk(Run(desk, calls).options.codState)
    decreases |calls|
  {
    hide Step, Effect, Fold;
    if calls == [] {
      NothingFolds(desk.options);
    } else {
      StepFolds(desk, calls[0]);
      FoldAppend(desk.options, Effect(calls[0].command), Effects(calls[1..]));
      RunFolds(Step(desk, calls[0]).0, calls[1..]);
    }
  }

  lemma NothingFolds(o: Opts)
    ensures Fold(o, []) == o
  {
  }
}
