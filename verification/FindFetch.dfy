/**
 FIND and then FETCH against GET: when the two ways of searching answer alike.
 */
module FindFetch {
  import opened Common
  import opened Flattening
  import opened StateCodes
  import opened Options
  import opened Results
  import opened Searches
  import opened Commands

  // ----- What the two commands ask the data -----

  // A copied text is nowhere that stands for an unset code.
  predicate Real(req: Request) {
    req.address != 0 && req.address != SCE_CODE_UNSET
  }

  // The same words, with fixed values in place of those that the words do not determine.
  function Base(argv: seq<string>): Request {
    Request(argv, TypeUndefined, 1)
  }

  // The type of the search does not depend on an unassigned variable.
  predicate HasType(argv: seq<string>) {
    HeadOf(argv, TypeUndefined).Some? ==> HeadOf(argv, TypeUndefined).value.used > 0
  }

  lemma SameHead(argv: seq<string>, leftover: SearchType)
    requires HasType(argv)
    ensures HeadOf(argv, leftover) == HeadOf(argv, TypeUndefined)
  {
  }

  // p and q only differ in the address of a copied text.
  predicate SameButAddress(p: Spec, q: Spec) {
    && p == q.(sceCode := p.sceCode)
    && (p.sceCode == q.sceCode || (p.sceCode !in {0, SCE_CODE_UNSET} && q.sceCode !in {0, SCE_CODE_UNSET}))
  }

  lemma PrepareIgnoresAddress(options: Opts, req: Request, scope: Scope)
    requires HasType(req.argv) && Real(req) && scope != ClientScope
    ensures var p, q := Prepare(options, req, scope), Prepare(options, Base(req.argv), scope);
            && (p.NotASearch? <==> q.NotASearch?)
            && (p.Prepared? ==> p.options == q.options && (p.spec.Some? <==> q.spec.Some?))
            && (p.Prepared? && p.spec.Some? ==>
                  && SameButAddress(p.spec.value, q.spec.value)
                  && (p.spec.value.By() == BySceCode ==> p.spec.value.sceCode == req.address))
  {
    hide Join, Atoi, Accepts, Update, Slurp, Skipped, OptionWords;
    SameHead(req.argv, req.leftover);
  }

  // The question with another address.
  function Readdressed(query: Option<Query>, address: int): Option<Query> {
    match query
    case Some(SceCodeQuery(codState, _)) => Some(SceCodeQuery(codState, address))
    case _ => query
  }

  lemma RouteOfAddress(p: Spec, q: Spec)
    requires SameButAddress(p, q)
    ensures p.By() == q.By() && Route(p) == Readdressed(Route(q), p.sceCode)
    ensures Route(p).Some? && Route(p).value.SceCodeQuery? ==> p.By() == BySceCode
  {
  }

  // What two options do to the question: FIND ignores a PROVINCE, and its search keeps a
  // TERRITORIAL_COMPETENCE that the session already had.
  predicate OptionsAgree(options: Opts, argv: seq<string>, query: Option<Query>) {
    match query
    case Some(NameQuery(_, _, _)) => !Sets(OptionsOf(Base(argv)), "PROVINCE")
    case Some(ConsulateQuery(_, _)) => options.territorial ==> Sets(OptionsOf(Base(argv)), "TERRITORIAL_COMPETENCE")
    case _ => true
  }

  lemma OptionsDecide(options: Opts, argv: seq<string>)
    ensures var p, q := Prepare(options, Base(argv), SessionScope), Prepare(options, Base(argv), SearchScope);
            && (p.NotASearch? <==> q.NotASearch?)
            && (p.Prepared? ==> (p.spec.Some? <==> q.spec.Some?))
            && (p.Prepared? && p.spec.Some? ==>
                  && p.spec.value == q.spec.value.(options := p.spec.value.options)
                  && p.spec.value.options.codState == q.spec.value.options.codState
                  && (Route(p.spec.value).None? <==> Route(q.spec.value).None?)
                  && (Route(p.spec.value) == Route(q.spec.value) <==> OptionsAgree(options, argv, Route(p.spec.value))))
  {
    hide Prepare, Accepts, Update, Fold, ByClause, OptionsOf;
    FindReadsLikeGet(options, Base(argv));
    var pairs := OptionsOf(Base(argv));
    if Prepare(options, Base(argv), SearchScope).Prepared? {
      FoldMeaning(options, pairs);
      FoldMeaning(Fresh(options), pairs);
      LastValueIsSet(pairs, "PROVINCE");
    }
  }

  // The searches of a FIND and of a GET of the same words, each with its own copy of the text of a
  // code: of the same type, by the same field, and with questions that are equal if and only if the
  // options agree and a question by code is about the same address.
  lemma SameQuestion(options: Opts, find: Request, get: Request)
    requires find.argv == get.argv && Real(find) && Real(get) && HasType(find.argv)
    ensures var p, q := Prepare(options, find, SessionScope), Prepare(options, get, SearchScope);
            && (p.NotASearch? <==> q.NotASearch?)
            && (p.Prepared? ==> (p.spec.Some? <==> q.spec.Some?))
            && (p.Prepared? && p.spec.Some? ==>
                  var f, g := p.spec.value, q.spec.value;
                  && f == g.(options := f.options, sceCode := f.sceCode) && f.By() == g.By()
                  && f.options.codState == g.options.codState
                  && (Route(f).None? <==> Route(g).None?)
                  && (Route(f) == Route(g) <==>
                        && OptionsAgree(options, find.argv, Route(f))
                        && (Route(f).Some? && Route(f).value.SceCodeQuery? ==> find.address == get.address)))
  {
    hide Prepare, OptionsAgree, Route, Spec.By;
    PrepareIgnoresAddress(options, find, SessionScope);
    PrepareIgnoresAddress(options, get, SearchScope);
    OptionsDecide(options, find.argv);
    var p, q := Prepare(options, find, SessionScope), Prepare(options, get, SearchScope);
    if p.Prepared? && p.spec.Some? {
      var p0, q0 := Prepare(options, Base(find.argv), SessionScope).spec.value,
                    Prepare(options, Base(find.argv), SearchScope).spec.value;
      RouteOfAddress(p.spec.value, p0);
      RouteOfAddress(q.spec.value, q0);
      SameField(p0, q0);
      ReaddressedAlike(options, find.argv, Route(p0), Route(q0), p.spec.value.sceCode, q.spec.value.sceCode);
    }
  }

  lemma SameField(p: Spec, q: Spec)
    requires p == q.(options := p.options) && p.options.codState == q.options.codState
    ensures p.By() == q.By()
    ensures Route(p).Some? && Route(p).value.SceCodeQuery? ==> Route(p) == Route(q)
    ensures Route(q).Some? && Route(q).value.SceCodeQuery? ==> Route(p) == Route(q)
  {
  }

  lemma ReaddressedAlike(options: Opts, argv: seq<string>, p: Option<Query>, q: Option<Query>, a: int, b: int)
    requires p == q <==> OptionsAgree(options, argv, p)
    requires (p.Some? && p.value.SceCodeQuery?) || (q.Some? && q.value.SceCodeQuery?) ==> p == q
    ensures var f, g := Readdressed(p, a), Readdressed(q, b);
            f == g <==> OptionsAgree(options, argv, f) && (f.Some? && f.value.SceCodeQuery? ==> a == b)
  {
  }

  // A command for which the two questions differ.
  lemma FindIgnoresProvince(address: int)
    ensures var req := Request(["LOCATIONS", "WITH", "PROVINCE", "RM", "BY", "NAME", "ROMA"], TypeUndefined, address);
            var options := Opts(COD_STATE_ITALY, None, false);
            var find, get := Prepare(options, req, SessionScope), Prepare(options, req, SearchScope);
            && find.Prepared? && find.spec.Some? && get.Prepared? && get.spec.Some?
            && Route(find.spec.value) == Some(NameQuery(COD_STATE_ITALY, "ROMA", None))
            && Route(get.spec.value) == Some(NameQuery(COD_STATE_ITALY, "ROMA", Some("RM")))
  {
    var words := ["PROVINCE", "RM", "BY", "NAME", "ROMA"];
    var argv := ["LOCATIONS", "WITH", "PROVINCE", "RM", "BY", "NAME", "ROMA"];
    assert argv[2..] == words && argv[4..] == ["BY", "NAME", "ROMA"] && argv[4..][2..] == ["ROMA"];
    assert "BY"[0] == 'B' && "AND"[0] == 'A' && "PROVINCE"[0] == 'P' && "COD_STATE"[0] == 'C';
    assert OptionWords(argv, 1) == words;
    assert Slurp(words, NO_OPTIONS).0 == 2;
  }

  // ----- Answers -----

  // Two looks at the same data: only the choice of specimina, which the queries draw at random, may
  // differ between them.
  ghost predicate SameData(w: World, v: World) {
    && w.entities == v.entities && w.districts == v.districts && w.line == v.line
    && w.data.italianSpecimina == v.data.italianSpecimina
    && (forall e, query :: query != SpeciminaQuery ==> w.data.Ask(e, query) == v.data.Ask(e, query))
  }

  // FIND and then FETCH answer what GET answers from the same state of the session; and when FIND
  // fails, GET fails with the same answer.
  predicate Agrees(desk: Desk, find: Request, get: Request, w: World, v: World)
    requires DeskOk(desk) && w.Ok() && v.Ok()
  {
    var (desk1, count) := Find(desk, find, w);
    var (desk2, lines) := Fetch(desk1, w.line);
    var (desk3, both) := Get(desk, get, v);
    if count[0].Count? then both == count + lines && desk2.search == desk3.search == None else both == count
  }

  // Whether the two commands always answer alike: not when the type of the search is left to an
  // unassigned variable, not by the code of a location, whose text is copied to a new address each
  // time, not for specimina, which are drawn at random, and else when the two options agree.
  predicate AsksAlike(options: Opts, argv: seq<string>) {
    && HasType(argv)
    && match Prepare(options, Base(argv), SessionScope)
       case NotASearch => true
       case Prepared(_, None) => true
       case Prepared(_, Some(spec)) =>
         var query := Route(spec);
         && OptionsAgree(options, argv, query)
         && (query.Some? ==> !query.value.SceCodeQuery? && !query.value.SpeciminaQuery?)
  }

  lemma SameAnswer(spec: Spec, other: Spec, w: World, v: World)
    requires w.Ok() && v.Ok() && SameData(w, v) && Route(spec) == Route(other)
    requires CodStateOk(spec.options.codState) && CodStateOk(other.options.codState)
    requires Route(spec).Some? ==> !Route(spec).value.SpeciminaQuery?
    ensures ResultOf(spec, w) == ResultOf(other, v)
  {
    hide Route, Data.Ask, CodStateOk;
    if Route(spec).Some? {
      forall codState | codState in Asks(Route(spec).value) ensures InTable(codState) {
        RouteStaysInTable(spec, codState);
      }
      SameOutcome(Route(spec).value, w, v);
    }
  }

  lemma SameOutcome(query: Query, w: World, v: World)
    requires w.Ok() && v.Ok() && SameData(w, v) && !query.SpeciminaQuery?
    requires forall codState :: codState in Asks(query) ==> InTable(codState)
    ensures Outcome(query, w.entities, w.districts, w.data) == Outcome(query, v.entities, v.districts, v.data)
  {
    hide Data.Ask, Matching;
  }

  lemma AlikeAsksTheSame(options: Opts, find: Request, get: Request)
    requires find.argv == get.argv && Real(find) && Real(get) && AsksAlike(options, find.argv)
    ensures var p, q := Prepare(options, find, SessionScope), Prepare(options, get, SearchScope);
            && (p.NotASearch? <==> q.NotASearch?)
            && (p.Prepared? ==> (p.spec.Some? <==> q.spec.Some?))
            && (p.Prepared? && p.spec.Some? ==>
                  var f, g := p.spec.value, q.spec.value;
                  && f.kind == g.kind && f.By() == g.By() && Route(f) == Route(g)
                  && (Route(f).Some? ==> !Route(f).value.SpeciminaQuery?))
  {
    hide Prepare, OptionsAgree, Route, Spec.By;
    SameQuestion(options, find, get);
    PrepareIgnoresAddress(options, find, SessionScope);
    var p := Prepare(options, find, SessionScope);
    if p.Prepared? && p.spec.Some? {
      RouteOfAddress(p.spec.value, Prepare(options, Base(find.argv), SessionScope).spec.value);
    }
  }

  lemma AlikeAgrees(desk: Desk, find: Request, get: Request, w: World, v: World)
    requires DeskOk(desk) && w.Ok() && v.Ok() && SameData(w, v)
    requires find.argv == get.argv && Real(find) && Real(get) && AsksAlike(desk.options, find.argv)
    ensures Agrees(desk, find, get, w, v)
  {
    hide Prepare, ByClause, Outcome, Lines, Route, ResultOf, Spec.By, CodStateOk, AsksAlike, PrinterOf, Real;
    AlikeAsksTheSame(desk.options, find, get);
    PreparedCodState(desk.options, find, SessionScope);
    PreparedCodState(desk.options, get, SearchScope);
    var p, q := Prepare(desk.options, find, SessionScope), Prepare(desk.options, get, SearchScope);
    if p.Prepared? && p.spec.Some? {
      SameAnswer(p.spec.value, q.spec.value, w, v);
      SamePrinter(p.spec.value, q.spec.value, w.line);
    }
  }

  lemma SamePrinter(f: Spec, g: Spec, line: Printer)
    requires f.kind == g.kind && f.By() == g.By()
    ensures PrinterOf(f, line) == PrinterOf(g, line)
  {
  }

  // ----- Data on which the answers differ -----

  // One entity everywhere, which answers the first question with one row, and the second with none.
  function Telling(first: Query, second: Query): World {
    var e := Entity(0);
    World(Entities(seq(SCE_ENTITIES_MAX, _ => Some(e)), Some(e), Some(e)), [],
          Data(map[(e, second) := Answered([], true), (e, first) := Answered([Row(0, [], Some(""))], true)],
               Answered([], true)),
          Plain(""))
  }

  // The questions on which the answers can be told apart.
  predicate Tellable(first: Query, second: Query) {
    && first != second
    && match (first, second)
       case (NameQuery(c, _, _), NameQuery(d, _, _)) => InTable(c) && InTable(d)
       case (SceCodeQuery(c, _), SceCodeQuery(d, _)) => InTable(c) && InTable(d)
       case (ConsulateQuery(c, _), ConsulateQuery(d, _)) =>
         InTable(c) && InTable(d) && c != COD_STATE_ITALY && d != COD_STATE_ITALY
       case _ => false
  }

  lemma TellingAnswers(first: Query, second: Query)
    requires Tellable(first, second)
    ensures var w := Telling(first, second);
            && w.Ok()
            && Outcome(first, w.entities, w.districts, w.data) == Some([Row(0, [], Some(""))])
            && Outcome(second, w.entities, w.districts, w.data) == Some([])
  {
  }

  lemma CountsDiffer(desk: Desk, find: Request, get: Request, w: World, f: Spec, g: Spec)
    requires DeskOk(desk) && w.Ok()
    requires var p := Prepare(desk.options, find, SessionScope); p.Prepared? && p.spec == Some(f)
    requires var q := Prepare(desk.options, get, SearchScope); q.Prepared? && q.spec == Some(g)
    requires CodStateOk(f.options.codState) && CodStateOk(g.options.codState)
    requires ResultOf(f, w) == Some([Row(0, [], Some(""))]) && ResultOf(g, w) == Some([])
    ensures !Agrees(desk, find, get, w, w)
  {
    hide Prepare, Outcome, Route, CodStateOk, ResultOf, Lines;
    assert Find(desk, find, w).1 == [Count(1)];
    assert Get(desk, get, w).1[0] == Count(0);
    assert ([Count(1)] + Fetch(Find(desk, find, w).0, w.line).1)[0] == Count(1);
  }

  lemma ToldApart(desk: Desk, find: Request, get: Request) returns (w: World)
    requires DeskOk(desk) && find.argv == get.argv && Real(find) && Real(get) && HasType(find.argv)
    requires var p, q := Prepare(desk.options, find, SessionScope), Prepare(desk.options, get, SearchScope);
             && p.Prepared? && p.spec.Some? && q.Prepared? && q.spec.Some?
             && Route(p.spec.value).Some? && Route(q.spec.value).Some?
             && Route(p.spec.value) != Route(q.spec.value)
    ensures w.Ok() && !Agrees(desk, find, get, w, w)
  {
    hide Prepare, Outcome, CodStateOk, ResultOf, Lines, Telling, OptionsAgree, Agrees, Spec.By;
    var f := Prepare(desk.options, find, SessionScope).spec.value;
    var g := Prepare(desk.options, get, SearchScope).spec.value;
    SameQuestion(desk.options, find, get);
    PreparedCodState(desk.options, find, SessionScope);
    PreparedCodState(desk.options, get, SearchScope);
    DifferentQuestions(f, g);
    w := Telling(Route(f).value, Route(g).value);
    TellingAnswers(Route(f).value, Route(g).value);
    ResultIsOutcome(f, w);
    ResultIsOutcome(g, w);
    CountsDiffer(desk, find, get, w, f, g);
  }

  lemma ResultIsOutcome(spec: Spec, w: World)
    requires w.Ok() && CodStateOk(spec.options.codState) && Route(spec).Some?
    requires forall codState :: codState in Asks(Route(spec).value) ==> InTable(codState)
    ensures ResultOf(spec, w) == Outcome(Route(spec).value, w.entities, w.districts, w.data)
  {
    hide Outcome, Route;
  }

  lemma DifferentQuestions(f: Spec, g: Spec)
    requires CodStateOk(f.options.codState) && CodStateOk(g.options.codState)
    requires f == g.(options := f.options, sceCode := f.sceCode) && f.By() == g.By()
    requires f.options.codState == g.options.codState
    requires Route(f).Some? && Route(g).Some? && Route(f) != Route(g)
    ensures Tellable(Route(f).value, Route(g).value)
    ensures forall codState :: codState in Asks(Route(f).value) ==> InTable(codState)
    ensures forall codState :: codState in Asks(Route(g).value) ==> InTable(codState)
  {
  }

  // One entity in the whole table, which draws this specimen.
  function Drawing(specimen: string): World {
    var e := Entity(0);
    var table := seq(SCE_ENTITIES_MAX, i => if i == SCE_ENTITIES_MAX - 1 then Some(e) else None);
    World(Entities(table, Some(e), Some(e)), [],
          Data(map[(e, SpeciminaQuery) := Answered([Row(0, [], Some(specimen))], true)], Answered([], true)),
          Plain(""))
  }

  lemma {:induction false} NoneDrawn(table: seq<Option<Entity>>, data: Data)
    requires forall i :: 0 <= i < |table| ==> table[i] == None
    ensures Specimina(table, data) == []
    decreases |table|
  {
    if table != [] {
      NoneDrawn(table[..|table| - 1], data);
    }
  }

  lemma LastDraws(table: seq<Option<Entity>>, data: Data)
    requires table != [] && table[|table| - 1].Some?
    ensures Specimina(table, data)
         == Specimina(table[..|table| - 1], data) + data.Ask(table[|table| - 1].value, SpeciminaQuery).rows
  {
  }

  lemma DrawnIs(specimen: string)
    ensures var w := Drawing(specimen);
            && w.Ok()
            && Outcome(SpeciminaQuery, w.entities, w.districts, w.data) == Some([Row(0, [], Some(specimen))])
  {
    var w := Drawing(specimen);
    var n := SCE_ENTITIES_MAX - 1;
    var rows := [Row(0, [], Some(specimen))];
    NoneDrawn(w.entities.table[..n], w.data);
    assert w.entities.table[n] == Some(Entity(0)) && w.data.Ask(Entity(0), SpeciminaQuery).rows == rows;
    LastDraws(w.entities.table, w.data);
    assert [] + rows == rows;
  }

  lemma DrawingsAreSameData(a: string, b: string)
    ensures SameData(Drawing(a), Drawing(b))
  {
  }

  lemma LinesOfOne(specimen: string, line: Printer)
    requires line.Always?
    ensures Lines([Row(0, [], Some(specimen))], line) == [Line(specimen)]
  {
    var row := Row(0, [], Some(specimen));
    assert line.LineOf(row) == [Line("" + specimen)] && "" + specimen == specimen;
    NoLines(line);
    LinesStep([], [row], line);
    assert [row][..|[row]| - 1] == [];
    assert [] + Lines([row], line) == Lines([row], line);
  }

  // Two draws of different specimina.
  lemma DrawsDiffer(desk: Desk, req: Request)
    requires DeskOk(desk)
    requires var p, q := Prepare(desk.options, req, SessionScope), Prepare(desk.options, req, SearchScope);
             && p.Prepared? && p.spec.Some? && q.Prepared? && q.spec.Some?
             && Route(p.spec.value) == Route(q.spec.value) == Some(SpeciminaQuery)
    ensures Drawing("a").Ok() && Drawing("b").Ok()
    ensures !Agrees(desk, req, req, Drawing("a"), Drawing("b"))
  {
    hide Prepare, Outcome, CodStateOk, Lines, Drawing, Spec.By;
    DrawnIs("a");
    DrawnIs("b");
    var f := Prepare(desk.options, req, SessionScope).spec.value;
    var g := Prepare(desk.options, req, SearchScope).spec.value;
    PreparedCodState(desk.options, req, SessionScope);
    PreparedCodState(desk.options, req, SearchScope);
    LinesOfOne("a", PrinterOf(f, Drawing("a").line));
    LinesOfOne("b", PrinterOf(g, Drawing("b").line));
    assert Find(desk, req, Drawing("a")).1 == [Count(1)];
    assert ([Count(1)] + Fetch(Find(desk, req, Drawing("a")).0, Drawing("a").line).1)[1] == Line("a");
    assert Get(desk, req, Drawing("b")).1[1] == Line("b");
  }

  // After CONSULAR without DISTRICTS two values of the unassigned variable.
  lemma TypesDiffer(desk: Desk, argv: seq<string>)
    requires DeskOk(desk) && !HasType(argv)
    ensures Drawing("a").Ok()
    ensures !Agrees(desk, Request(argv, ZcSpecimina, 1), Base(argv), Drawing("a"), Drawing("a"))
  {
    hide Outcome, Lines, Drawing, Slurp, Join, Atoi;
    DrawnIs("a");
    assert "CONSULAR"[0] == 'C' && "WITH"[0] == 'W' && "BY"[0] == 'B';
    assert Find(desk, Request(argv, ZcSpecimina, 1), Drawing("a")).1[0].Count?;
    assert Get(desk, Base(argv), Drawing("a")).1 == [Undefined];
  }

  // Commands that do not ask alike, and data on which they answer differently.
  lemma UnlikeDisagrees(desk: Desk, argv: seq<string>) returns (find: Request, get: Request, w: World, v: World)
    requires DeskOk(desk) && !AsksAlike(desk.options, argv)
    ensures find.argv == get.argv == argv && Real(find) && Real(get)
    ensures w.Ok() && v.Ok() && SameData(w, v) && !Agrees(desk, find, get, w, v)
  {
    hide Prepare, Outcome, CodStateOk, Lines, OptionsAgree, Agrees, Spec.By, Route, HasType, Drawing;
    if !HasType(argv) {
      find, get, w, v := Request(argv, ZcSpecimina, 1), Base(argv), Drawing("a"), Drawing("a");
      TypesDiffer(desk, argv);
      DrawingsAreSameData("a", "a");
    } else {
      find, get := Base(argv), Base(argv);
      SameQuestion(desk.options, find, get);
      var query := Route(Prepare(desk.options, find, SessionScope).spec.value);
      if query.Some? && query.value.SceCodeQuery? {
        get := Request(argv, TypeUndefined, 2);
        SameQuestion(desk.options, find, get);
        w := ToldApart(desk, find, get);
        v := w;
      } else if query.Some? && query.value.SpeciminaQuery? {
        w, v := Drawing("a"), Drawing("b");
        AgreeOnDraws(desk.options, argv, query);
        DrawsDiffer(desk, find);
        DrawingsAreSameData("a", "b");
      } else {
        NoneAgrees(desk.options, argv, query);
        w := ToldApart(desk, find, get);
        v := w;
      }
    }
  }

  lemma AgreeOnDraws(options: Opts, argv: seq<string>, query: Option<Query>)
    requires query == Some(SpeciminaQuery)
    ensures OptionsAgree(options, argv, query)
  {
  }

  lemma NoneAgrees(options: Opts, argv: seq<string>, query: Option<Query>)
    requires !OptionsAgree(options, argv, query)
    ensures query.Some?
  {
  }

  // FIND and then FETCH answer what GET answers, for all data, all ways of printing and whatever the
  // words leave open, if and only if the two commands ask alike.
  lemma FindThenFetchIsGet(desk: Desk, argv: seq<string>)
    requires DeskOk(desk)
    ensures AsksAlike(desk.options, argv) <==>
              forall find: Request, get: Request, w: World, v: World ::
                find.argv == get.argv == argv && Real(find) && Real(get) && w.Ok() && v.Ok() && SameData(w, v) ==>
                  Agrees(desk, find, get, w, v)
  {
    hide AsksAlike, Agrees, DeskOk, SameData, World.Ok;
    if AsksAlike(desk.options, argv) {
      forall find: Request, get: Request, w: World, v: World
        | find.argv == get.argv == argv && Real(find) && Real(get) && w.Ok() && v.Ok() && SameData(w, v)
        ensures Agrees(desk, find, get, w, v)
      {
        AlikeAgrees(desk, find, get, w, v);
      }
    } else {
      var find, get, w, v := UnlikeDisagrees(desk, argv);
    }
  }
}
