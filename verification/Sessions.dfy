/**
 Sessions, updated in place by the commands that search.
 */
module Sessions {
  import opened Common
  import opened CursorQueue
  import opened Flattening
  import opened StateCodes
  import opened Options
  import opened Results
  import opened Searches
  import opened Commands

  ghost function WorldOf(entities: EntityTable, districts: Queue<Row>, data: Data, line: Printer): World
    reads entities, entities.table, districts
  {
    World(entities.State(), districts.items, data, line)
  }

  lemma TooFewWords(options: Opts, req: Request)
    requires |req.argv| < 1
    ensures Prepare(options, req, SessionScope) == NotASearch == Prepare(options, req, SearchScope)
  {
  }

  // Adds the BY clause to a search.
  method SetBy(search: Search, rest: seq<string>, address: int) returns (ok: bool)
    requires search.Valid()
    modifies search
    ensures search.Valid() && ok == ByClause(rest, old(search.State()), address).Some?
    ensures ok ==> search.State() == ByClause(rest, old(search.State()), address).value
  {
    hide Join, Atoi;
    ok := true;
    if |rest| > 2 && rest[0] == "BY" && rest[1] == "NAME" {
      var name := FlattenArgv(rest[2..]);
      search.SetName(name);
    } else if |rest| > 2 && rest[0] == "BY" && rest[1] == "ZIPCODE" {
      var zipcode := FlattenArgv(rest[2..]);
      search.SetZipcode(zipcode);
    } else if |rest| > 2 && rest[0] == "BY" && rest[1] == "MAE_CODE" {
      var maeCode := FlattenArgv(rest[2..]);
      search.SetMaeCode(maeCode);
    } else if |rest| > 2 && rest[0] == "BY" && (rest[1] == "SCE_CODE" || rest[1] == "LOCATION_CODE") {
      search.SetSceCode(address);
    } else if search.kind == Consulates || search.kind == ZcSpecimina {
    } else {
      ok := false;
    }
  }

  // The options of a session and what its search looks for.
  datatype Settings = Settings(options: Opts, spec: Option<Spec>) {

    predicate Has(scope: Scope) {
      scope != ClientScope && (scope == SearchScope ==> spec.Some?)
    }

    // The options that a scope stands for.
    function Of(scope: Scope): Opts
      requires Has(scope)
    {
      if scope == SearchScope then spec.value.options else options
    }

    function With(scope: Scope, o: Opts): Settings
      requires Has(scope)
    {
      if scope == SearchScope then Settings(options, Some(spec.value.(options := o))) else Settings(o, spec)
    }
  }

  class Session {
    var codState: int
    var province: Option<string>
    var territorial: bool
    var search: Search?

    ghost predicate Valid()
      reads this, search
    {
      CodStateOk(codState) && (search != null ==> search.Valid())
    }

    ghost function Options(): Opts
      reads this
    {
      Opts(codState, province, territorial)
    }

    // The rows of the current search, in the order in which they were found.
    ghost function Rows(): seq<Row>
      reads this, search, if search == null then {} else search.Queues()
    {
      if search == null || search.Selected().None? then [] else search.Selected().value.items
    }

    ghost function State(): Desk
      reads this, search, if search == null then {} else search.Queues()
    {
      Desk(Options(), if search == null then None else Some(Found(search.State(), Rows())))
    }

    constructor ()
      ensures Valid() && State() == Desk(NO_OPTIONS, None)
    {
      codState, province, territorial := COD_STATE_UNSET, None, false;
      search := null;
    }

    ghost function View(): Settings
      reads this, search
    {
      Settings(Options(), if search == null then None else Some(search.State()))
    }

    method OptionSet(cmd: string, value: string, scope: Scope) returns (r: int)
      requires Valid() && View().Has(scope)
      modifies this, search
      ensures Valid() && search == old(search)
      ensures r == if Accepts(cmd, value) then 0 else -1
      ensures r == 0 ==> View() == old(View()).With(scope, Update(old(View()).Of(scope), cmd, value))
      ensures r != 0 ==> View() == old(View())
    {
      var i := GetOptionIndex(OPTIONS, cmd, scope);
      if i < 0 {
        LookupFails(cmd, value, scope);
        return -1;
      }
      LookupMeaning(cmd, scope, i);
      match OPTIONS[i].name {
        case CodState =>
          var codState := ValidateCodState(value);
          if codState == COD_STATE_UNSET {
            return -1;
          }
          if scope == SessionScope {
            this.codState := codState;
          } else {
            search.SetCodState(codState);
          }
          return 0;
        case Province =>
          if scope == SessionScope {
            province := Some(value);
          } else {
            search.SetProvince(value);
          }
          return 0;
        case SearchConstraint =>
          return 0;
        case TerritorialCompetence =>
          if value != "ENABLED" {
            return -1;
          }
          if scope == SessionScope {
            territorial := true;
          } else {
            search.SetTerritorial(true);
          }
          return 0;
        case _ =>
          return -1;
      }
    }

    method SlurpAndSetOptions(argv: seq<string>, scope: Scope) returns (r: int)
      requires Valid() && View().Has(scope)
      modifies this, search
      ensures Valid() && search == old(search)
      ensures r == Slurp(argv, old(View()).Of(scope)).0
      ensures View() == old(View()).With(scope, Slurp(argv, old(View()).Of(scope)).1)
      decreases |argv|
    {
      hide Accepts, Update;
      if |argv| < 2 {
        return 0;
      }
      var done := OptionSet(argv[0], argv[1], scope);
      if done < 0 {
        return 0;
      }
      if |argv| > 3 && argv[2] == "AND" {
        r := SlurpAndSetOptions(argv[3..], scope);
        r := r + 3;
      } else {
        r := 2;
      }
    }

    method RefreshSearchOptions()
      requires Valid() && search != null
      modifies search
      ensures Valid() && View() == old(View()).(spec := Some(Refresh(old(search.State()), Options())))
    {
      search.SetCodState(codState);
      search.SetTerritorial(territorial);
    }

    // Sets the options of the WITH clause, if there is one; the result is the place of the BY clause.
    method ReadOptions(argv: seq<string>, used: nat, scope: Scope) returns (r: int)
      requires Valid() && View().Has(scope) && used <= |argv|
      modifies this, search
      ensures Valid() && search == old(search) && r == Skipped(argv, used)
      ensures View() == old(View()).With(scope, Slurp(OptionWords(argv, used), old(View()).Of(scope)).1)
    {
      hide Accepts, Update;
      var optionsArgc := 0;
      if |argv| > used + 1 && argv[used] == "WITH" {
        SlurpTakesTheSame(argv[used + 1..], View().Of(scope), NO_OPTIONS);
        optionsArgc := SlurpAndSetOptions(argv[used + 1..], scope);
        optionsArgc := optionsArgc + 1;
      }
      r := optionsArgc + used;
    }

    // FIND and GET up to the search, whose queues are still empty.
    method MakeSearch(req: Request, scope: Scope) returns (r: int)
      requires Valid() && scope != ClientScope
      modifies this
      ensures Valid()
      ensures var p := Prepare(old(Options()), req, scope);
              match p
              case NotASearch => r == -1 && State() == old(State()) && search == old(search)
              case Prepared(options, None) => r == -1 && State() == Desk(options, None)
              case Prepared(options, Some(spec)) =>
                && r == 0 && View() == Settings(options, Some(spec))
                && fresh(search) && fresh(search.Queues()) && Rows() == []
    {
      hide Accepts, Update, ByClause, Slurp, Join, Atoi, CodStateOk;
      var head := HeadOf(req.argv, req.leftover);
      if head.None? {
        return -1;
      }
      var used := head.value.used;
      search := new Search(codState);
      var optionsArgc := ReadOptions(req.argv, used, scope);
      search.SetType(head.value.kind);
      var ok := SetBy(search, req.argv[optionsArgc..], req.address);
      if !ok {
        search := null;
        return -1;
      }
      if scope == SessionScope {
        RefreshSearchOptions();
      }
      return 0;
    }

    method FindGet(req: Request, scope: Scope, entities: EntityTable, districts: Queue<Row>, data: Data, ghost w: World)
        returns (r: int)
      requires Valid() && DeskOk(State()) && scope != ClientScope
      requires entities.Valid() && entities.entity000.Some? && districts.Valid()
      requires w == WorldOf(entities, districts, data, w.line)
      modifies this, districts
      ensures Valid() && districts.Valid() && districts.items == old(districts.items)
      ensures (State(), r) == Commands.FindGet(old(State()), req, scope, w)
      ensures DeskOk(State()) && (r == 0 ==> fresh(search) && fresh(search.Queues()))
    {
      hide Prepare, Outcome, Route, CodStateOk;
      PreparedCodState(Options(), req, scope);
      r := MakeSearch(req, scope);
      if r < 0 {
        return r;
      }
      PreparedHasQueue(old(Options()), req, scope);
      r := search.Execute(entities, districts, data);
      if r < 0 {
        search := null;
        return -2;
      }
      ghost var p := Prepare(old(Options()), req, scope);
      assert p.Prepared? && p.spec.Some? && search.State() == p.spec.value && Options() == p.options;
      assert ResultOf(p.spec.value, w).Some?;
      assert [] + ResultOf(p.spec.value, w).value == ResultOf(p.spec.value, w).value;
      assert Rows() == ResultOf(p.spec.value, w).value;
      return 0;
    }

    // Prints the rows of the search and drops it; -1 when there is none.
    method PrintSearchResult(announce: bool, line: Printer) returns (r: int, out: seq<Answer>)
      requires Valid() && DeskOk(State())
      modifies this, if search == null then {} else search.Queues()
      ensures Valid()
      ensures (State(), out) == Show(old(State()), announce, line) && r == ShowCode(old(State()))
    {
      if search == null {
        return -1, [Unavailable];
      }
      var printer := line;
      if search.searchBy == BySceCode && search.kind == Locations {
        printer := Plain(line.delimiter);
      } else if search.kind == Consulates || search.kind == ZcSpecimina {
        printer := Always(" ");
      }
      var found;
      found, out := PrintRows(search.Selected().value, announce, printer);
      ghost var rows := old(Rows());
      assert printer == PrinterOf(old(search.State()), line);
      assert out == Printed(rows, announce, printer) && found == (Lines(rows, printer) != []);
      search := null;
      if !found {
        out := out + [Undefined];
      } else {
        assert out + [] == out;
      }
      return 0, out;
    }

    // The words of the request follow the name of the command.
    method Find(req: Request, entities: EntityTable, districts: Queue<Row>, data: Data, ghost w: World)
        returns (out: seq<Answer>)
      requires Valid() && DeskOk(State())
      requires entities.Valid() && entities.entity000.Some? && districts.Valid()
      requires w == WorldOf(entities, districts, data, w.line)
      modifies this, districts
      ensures Valid() && districts.Valid() && districts.items == old(districts.items)
      ensures (State(), out) == Commands.Find(old(State()), req, w)
      ensures DeskOk(State())
    {
      hide Prepare, Outcome, Route, CodStateOk;
      StepFolds(State(), Call(FindCommand(req), w));
      if |req.argv| < 1 {
        TooFewWords(Options(), req);
        return [Undefined];
      }
      var error := FindGet(req, SessionScope, entities, districts, data, w);
      if error == -2 {
        return [Unavailable];
      } else if error < 0 {
        return [Undefined];
      }
      var count := search.CountResults();
      if count < 0 {
        return [Unavailable];
      }
      return [Count(count)];
    }

    method Get(req: Request, entities: EntityTable, districts: Queue<Row>, data: Data, line: Printer, ghost w: World)
        returns (r: int, out: seq<Answer>)
      requires Valid() && DeskOk(State())
      requires entities.Valid() && entities.entity000.Some? && districts.Valid()
      requires w == WorldOf(entities, districts, data, line)
      modifies this, districts
      ensures Valid() && districts.Valid() && districts.items == old(districts.items)
      ensures (State(), out) == Commands.Get(old(State()), req, w) && r == 0
      ensures DeskOk(State())
    {
      hide Prepare, Outcome, Route, CodStateOk;
      StepFolds(State(), Call(GetCommand(req), w));
      if |req.argv| < 1 {
        TooFewWords(Options(), req);
        return 0, [Undefined];
      }
      var error := FindGet(req, SearchScope, entities, districts, data, w);
      if error == -2 {
        return 0, [Unavailable];
      } else if error < 0 {
        return 0, [Undefined];
      }
      r, out := PrintSearchResult(true, line);
    }

    method Fetch(line: Printer) returns (r: int, out: seq<Answer>)
      requires Valid() && DeskOk(State())
      modifies this, if search == null then {} else search.Queues()
      ensures Valid() && (State(), out) == Show(old(State()), false, line) && r == ShowCode(old(State()))
      ensures DeskOk(State())
    {
      r, out := PrintSearchResult(false, line);
    }

    // The words follow the name of the command, and are exactly two.
    method Set(argv: seq<string>) returns (out: seq<Answer>)
      requires Valid() && DeskOk(State())
      modifies this, search
      ensures Valid() && (State(), out) == SetWords(old(State()), argv)
      ensures DeskOk(State())
    {
      hide Accepts, Update;
      if |argv| != 2 {
        return [Undefined];
      }
      var r := SlurpAndSetOptions(argv, SessionScope);
      if r < 2 {
        return [Undefined];
      }
      return [Done];
    }

    // Runs a command: its own answers, and one more when it returns an error.
    method Perform(command: Command, entities: EntityTable, districts: Queue<Row>, data: Data, line: Printer,
                   ghost w: World)
        returns (out: seq<Answer>)
      requires Valid() && DeskOk(State())
      requires entities.Valid() && entities.entity000.Some? && districts.Valid()
      requires w == WorldOf(entities, districts, data, line)
      requires search != null ==> districts !in search.Queues()
      modifies this, districts, search, if search == null then {} else search.Queues()
      ensures Valid() && districts.Valid() && districts.items == old(districts.items)
      ensures (State(), out) == Step(old(State()), Call(command, w))
      ensures DeskOk(State())
    {
      hide Prepare, Outcome, Route, CodStateOk, Commands.Find, Commands.Get, Show, SetWords;
      StepFolds(State(), Call(command, w));
      var error := 0;
      match command {
        case FindCommand(req) => out := Find(req, entities, districts, data, w);
        case GetCommand(req) => error, out := Get(req, entities, districts, data, line, w);
        case FetchCommand => error, out := Fetch(line);
        case SetCommand(argv) => out := Set(argv);
      }
      if error != 0 {
        out := out + [Unavailable];
      }
    }
  }
}
