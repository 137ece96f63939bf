/**
 A search: what it looks for, where it is routed, and how its result queues are filled.
 */
module Searches {
  import opened Common
  import opened CursorQueue
  import opened StateCodes
  import opened Options
  import opened Results

  datatype SearchType = TypeUndefined | Consulates | Locations | Municipality | ZcSpecimina | ConsularDistricts | Dump

  datatype SearchBy = ByUndefined | ByName | BySceCode | ByZipcode | ByMaeCode

  const MAE_CODE_UNSET := -1
  const SCE_CODE_UNSET := -1

  // What a search looks for.
  datatype Spec = Spec(options: Opts, name: Option<string>, zipcode: Option<string>, maeCode: int, sceCode: int,
                       kind: SearchType)
  {
    // The field searched by: the first one that is given, in this order.
    function By(): SearchBy {
      if name.Some? && |name.value| > 0 then ByName
      else if zipcode.Some? && |zipcode.value| > 0 then ByZipcode
      else if maeCode != 0 && maeCode != MAE_CODE_UNSET then ByMaeCode
      else if sceCode != 0 && sceCode != SCE_CODE_UNSET then BySceCode
      else ByUndefined
    }
  }

  // A field is searched by as soon as it is given, whatever is given of the fields that come after it.
  lemma FieldsInOrder(spec: Spec, name: string, zipcode: Option<string>, maeCode: int, sceCode: int)
    ensures name != "" ==> spec.(name := Some(name)).By() == ByName
    ensures spec.By() == ByZipcode ==> spec.(maeCode := maeCode, sceCode := sceCode).By() == ByZipcode
    ensures spec.By() == ByMaeCode ==> spec.(sceCode := sceCode).By() == ByMaeCode
    ensures spec.By() == ByMaeCode && zipcode.Some? && zipcode.value != "" ==>
              spec.(zipcode := zipcode).By() == ByZipcode
    ensures spec.By() == BySceCode && maeCode !in {0, -1} ==> spec.(maeCode := maeCode).By() == ByMaeCode
    ensures spec.(name := None, zipcode := None, maeCode := 0, sceCode := sceCode).By()
         == if sceCode in {0, -1} then ByUndefined else BySceCode
  {
  }

  // A question put to the data.
  datatype Query =
    | NameQuery(codState: int, name: string, province: Option<string>)
    | ZipcodeQuery(codState: int, zipcode: string)
    | SceCodeQuery(codState: int, sceCode: int)
    | DistrictQuery(maeCode: int)
    | ConsulateQuery(codState: int, territorial: bool)
    | SpeciminaQuery
    | DumpQuery(codState: int)

  // The question that a search stands for, if any.
  function Route(spec: Spec): Option<Query> {
    var codState := spec.options.codState;
    if spec.kind != ZcSpecimina && spec.kind != ConsularDistricts && codState == COD_STATE_UNSET then None
    else if spec.kind == Dump then Some(DumpQuery(codState))
    else if spec.By() == ByName && spec.kind == Locations then
      Some(NameQuery(codState, spec.name.value, spec.options.province))
    else if spec.By() == ByZipcode && spec.kind == Locations then Some(ZipcodeQuery(codState, spec.zipcode.value))
    else if spec.By() == BySceCode && spec.kind == Locations then Some(SceCodeQuery(codState, spec.sceCode))
    else if spec.By() == ByMaeCode && spec.kind == ConsularDistricts then Some(DistrictQuery(spec.maeCode))
    else if spec.kind == Consulates then
      // Italy has no consulates, and the data is not asked for any.
      if codState == COD_STATE_ITALY then None else Some(ConsulateQuery(codState, spec.options.territorial))
    else if spec.kind == ZcSpecimina then Some(SpeciminaQuery)
    else None
  }

  // The codes whose entity a question asks for.
  function Asks(query: Query): set<int> {
    match query
    case NameQuery(codState, _, _) => {codState}
    case ZipcodeQuery(codState, _) => {codState}
    case SceCodeQuery(codState, _) => {codState}
    case ConsulateQuery(codState, territorial) => if codState != COD_STATE_ITALY && territorial then {codState} else {}
    case DumpQuery(codState) => {codState}
    case DistrictQuery(_) => {}
    case SpeciminaQuery => {}
  }

  // No search, of any type and by any field, asks for the entity of a code outside of the table;
  // in particular none asks for the one of -1, which stands for an unset code.
  lemma RouteStaysInTable(spec: Spec, codState: int)
    requires CodStateOk(spec.options.codState)
    requires Route(spec).Some? && codState in Asks(Route(spec).value)
    ensures InTable(codState) && codState > 0
  {
  }

  // ----- Answers -----

  // What the data answers to a question: the rows found, and whether the query went well.
  datatype Answered = Answered(rows: seq<Row>, ok: bool)

  // The data behind the entities: what each database answers, and what the one of the Italian zip
  // codes does.
  datatype Data = Data(answers: map<(Entity, Query), Answered>, italianSpecimina: Answered) {

    function Ask(entity: Entity, query: Query): Answered {
      if (entity, query) in answers then answers[(entity, query)] else Answered([], false)
    }
  }

  // The rows that every entity of the table gives, in the order of their codes.
  function Specimina(table: seq<Option<Entity>>, data: Data): seq<Row>
    decreases |table|
  {
    if table == [] then []
    else
      var n := |table| - 1;
      Specimina(table[..n], data) + if table[n].Some? then data.Ask(table[n].value, SpeciminaQuery).rows else []
  }

  // Every loaded entity is asked once, in the order of the codes.
  lemma {:induction false} SpeciminaAppend(table: seq<Option<Entity>>, entity: Entity, more: seq<Option<Entity>>,
                                           data: Data)
    ensures Specimina([], data) == Specimina([None], data) == []
    ensures Specimina(table + [Some(entity)] + more, data)
         == Specimina(table, data) + data.Ask(entity, SpeciminaQuery).rows + Specimina(more, data)
    ensures Specimina(table + [None] + more, data) == Specimina(table, data) + Specimina(more, data)
    decreases |more|
  {
    hide Data.Ask;
    var loaded, missing := table + [Some(entity)] + more, table + [None] + more;
    var n := |loaded| - 1;
    if more == [] {
      assert loaded[..n] == table == missing[..n];
    } else {
      assert loaded[..n] == table + [Some(entity)] + more[..|more| - 1];
      assert missing[..n] == table + [None] + more[..|more| - 1];
      SpeciminaAppend(table, entity, more[..|more| - 1], data);
    }
  }

  function RowsIfOk(answered: Answered): Option<seq<Row>> {
    if answered.ok then Some(answered.rows) else None
  }

  function AskOf(entity: Option<Entity>, query: Query, data: Data): Option<seq<Row>> {
    if entity.None? then None else RowsIfOk(data.Ask(entity.value, query))
  }

  // The rows that a question gives, or nothing when it fails. A question by name gives what was
  // read before its failure.
  function Outcome(query: Query, entities: Entities, districts: seq<Row>, data: Data): Option<seq<Row>>
    requires entities.Ok() && forall codState :: codState in Asks(query) ==> InTable(codState)
  {
    match query
    case NameQuery(codState, _, _) =>
      if entities.Get(codState).None? then None else Some(data.Ask(entities.Get(codState).value, query).rows)
    case ZipcodeQuery(codState, _) => AskOf(entities.Get(codState), query, data)
    case SceCodeQuery(codState, _) => AskOf(entities.Get(codState), query, data)
    case DistrictQuery(maeCode) => Some(Matching(districts, maeCode))
    case ConsulateQuery(codState, territorial) =>
      if codState == COD_STATE_ITALY then None
      else AskOf(if territorial then entities.Get(codState) else entities.entity000, query, data)
    case SpeciminaQuery =>
      if data.italianSpecimina.ok then Some(data.italianSpecimina.rows + Specimina(entities.table, data)) else None
    case DumpQuery(_) => Some([])
  }

  method AskEntity(entity: Option<Entity>, query: Query, data: Data, q: Queue<Row>) returns (r: int)
    modifies q
    ensures r == if AskOf(entity, query, data).Some? then 0 else -1
    ensures r == 0 ==> q.items == old(q.items) + AskOf(entity, query, data).value
  {
    if entity.None? {
      return -1;
    }
    var answered := data.Ask(entity.value, query);
    PushRows(q, answered.rows);
    r := if answered.ok then 0 else -1;
  }

  method FindLocationsByName(entities: EntityTable, query: Query, data: Data, locations: Queue<Row>) returns (r: int)
    requires entities.Valid() && query.NameQuery? && InTable(query.codState)
    modifies locations
    ensures r == if entities.Get(query.codState).Some? then 0 else -1
    ensures r == 0 ==>
              locations.items == old(locations.items) + data.Ask(entities.Get(query.codState).value, query).rows
  {
    var entity := entities.Get(query.codState);
    if entity.None? {
      return -1;
    }
    PushRows(locations, data.Ask(entity.value, query).rows);
    return 0;
  }

  method FindConsulates(entities: EntityTable, query: Query, data: Data, consulates: Queue<Row>) returns (r: int)
    requires entities.Valid() && query.ConsulateQuery? && (query.territorial ==> InTable(query.codState))
    requires entities.entity000.Some?
    modifies consulates
    ensures r == if Outcome(query, entities.State(), [], data).Some? then 0 else -1
    ensures r == 0 ==> consulates.items == old(consulates.items) + Outcome(query, entities.State(), [], data).value
  {
    if query.codState == COD_STATE_ITALY {
      return -1;
    }
    if query.territorial {
      r := AskEntity(entities.Get(query.codState), query, data, consulates);
    } else {
      r := AskEntity(entities.entity000, query, data, consulates);
    }
  }

  method FindSpecimina(entities: EntityTable, data: Data, q: Queue<Row>) returns (r: int)
    requires entities.Valid()
    modifies q
    ensures r == if data.italianSpecimina.ok then 0 else -1
    ensures r == 0 ==> q.items == old(q.items) + data.italianSpecimina.rows + Specimina(entities.State().table, data)
  {
    PushRows(q, data.italianSpecimina.rows);
    if !data.italianSpecimina.ok {
      return -1;
    }
    for i := 0 to SCE_ENTITIES_MAX
      invariant q.items == old(q.items) + data.italianSpecimina.rows + Specimina(entities.table[..i], data)
    {
      assert entities.table[..i + 1][..i] == entities.table[..i];
      var entity := entities.table[i];
      if entity.Some? {
        PushRows(q, data.Ask(entity.value, SpeciminaQuery).rows);
      }
    }
    assert entities.table[..SCE_ENTITIES_MAX] == entities.State().table;
    return 0;
  }

  class Search {
    var codState: int
    var province: Option<string>
    var territorial: bool
    var name: Option<string>
    var zipcode: Option<string>
    var maeCode: int
    var sceCode: int
    var searchBy: SearchBy
    var kind: SearchType
    const locations: Queue<Row>
    const consulates: Queue<Row>
    const zipCodeSpecimina: Queue<Row>
    const consularDistricts: Queue<Row>

    ghost function State(): Spec
      reads this
    {
      Spec(Opts(codState, province, territorial), name, zipcode, maeCode, sceCode, kind)
    }

    // The field searched by is always the one that the fields call for.
    ghost predicate Valid()
      reads this
    {
      && searchBy == State().By() && CodStateOk(codState)
      && locations != consulates && locations != zipCodeSpecimina && locations != consularDistricts
      && consulates != zipCodeSpecimina && consulates != consularDistricts && zipCodeSpecimina != consularDistricts
    }

    ghost function Queues(): set<object> {
      {locations, consulates, zipCodeSpecimina, consularDistricts}
    }

    // The queue that holds the results of a search of this type.
    function Selected(): Option<Queue<Row>>
      reads this
    {
      match kind
      case Locations => Some(locations)
      case ConsularDistricts => Some(consularDistricts)
      case Consulates => Some(consulates)
      case ZcSpecimina => Some(zipCodeSpecimina)
      case _ => None
    }

    constructor (codState: int)
      requires CodStateOk(codState)
      ensures Valid() && fresh(Queues())
      ensures State() == Spec(Opts(codState, None, false), None, None, 0, SCE_CODE_UNSET, Locations)
      ensures forall q :: q in {locations, consulates, zipCodeSpecimina, consularDistricts} ==> q.items == []
    {
      locations := new Queue();
      consulates := new Queue();
      zipCodeSpecimina := new Queue();
      consularDistricts := new Queue();
      this.codState, province, territorial := codState, None, false;
      name, sceCode, zipcode, maeCode := None, SCE_CODE_UNSET, None, 0;
      kind := Locations;
      new;
      RefreshInternalState();
    }

    method RefreshInternalState()
      modifies this`searchBy
      ensures searchBy == State().By()
    {
      if name.Some? && |name.value| > 0 {
        searchBy := ByName;
      } else if zipcode.Some? && |zipcode.value| > 0 {
        searchBy := ByZipcode;
      } else if maeCode != 0 && maeCode != MAE_CODE_UNSET {
        searchBy := ByMaeCode;
      } else if sceCode != 0 && sceCode != SCE_CODE_UNSET {
        searchBy := BySceCode;
      } else {
        searchBy := ByUndefined;
      }
    }

    method SetCodState(codState: int)
      requires Valid() && CodStateOk(codState)
      modifies this
      ensures Valid() && State() == old(State()).(options := old(State()).options.(codState := codState))
    {
      this.codState := codState;
      RefreshInternalState();
    }

    method SetProvince(province: string)
      requires Valid()
      modifies this
      ensures Valid() && State() == old(State()).(options := old(State()).options.(province := Some(province)))
    {
      this.province := Some(province);
      RefreshInternalState();
    }

    method SetTerritorial(territorial: bool)
      requires Valid()
      modifies this
      ensures Valid() && State() == old(State()).(options := old(State()).options.(territorial := territorial))
    {
      this.territorial := territorial;
      RefreshInternalState();
    }

    method SetName(name: string)
      requires Valid()
      modifies this
      ensures Valid() && State() == old(State()).(name := Some(name))
    {
      this.name := Some(name);
      RefreshInternalState();
    }

    method SetZipcode(zipcode: string)
      requires Valid()
      modifies this
      ensures Valid() && State() == old(State()).(zipcode := Some(zipcode))
    {
      this.zipcode := Some(zipcode);
      RefreshInternalState();
    }

    method SetMaeCode(text: string)
      requires Valid()
      modifies this
      ensures Valid() && State() == old(State()).(maeCode := Atoi(text))
    {
      maeCode := Atoi(text);
      RefreshInternalState();
    }

    // The code stored is the address of a copy of the text, not the number it stands for.
    method SetSceCode(address: int)
      requires Valid()
      modifies this
      ensures Valid() && State() == old(State()).(sceCode := address)
    {
      sceCode := address;
      RefreshInternalState();
    }

    method SetType(kind: SearchType)
      requires Valid()
      modifies this
      ensures Valid() && State() == old(State()).(kind := kind)
    {
      this.kind := kind;
    }

    // Puts the question that the search stands for; the rows go to the queue of its type. The
    // entity table is never read outside of its bounds.
    method Execute(entities: EntityTable, districts: Queue<Row>, data: Data) returns (r: int)
      requires Valid() && entities.Valid() && entities.entity000.Some? && districts.Valid() && districts !in Queues()
      modifies Queues(), districts
      ensures districts.Valid() && districts.items == old(districts.items)
      ensures Route(State()).None? ==> r == -1
      ensures Route(State()).Some? ==>
                r == if Outcome(Route(State()).value, entities.State(), districts.items, data).Some? then 0 else -1
      ensures r == 0 && Selected().Some? ==>
                Selected().value.items == old(Selected().value.items)
                  + Outcome(Route(State()).value, entities.State(), districts.items, data).value
    {
      hide Matching, Specimina;
      if kind != ZcSpecimina && kind != ConsularDistricts && codState == COD_STATE_UNSET {
        return -1;
      }
      if kind == Dump {
        var _ := entities.Get(codState);
        return 0;
      }
      if searchBy == ByName && kind == Locations {
        r := FindLocationsByName(entities, NameQuery(codState, name.value, province), data, locations);
      } else if searchBy == ByZipcode && kind == Locations {
        r := AskEntity(entities.Get(codState), ZipcodeQuery(codState, zipcode.value), data, locations);
      } else if searchBy == BySceCode && kind == Locations {
        r := AskEntity(entities.Get(codState), SceCodeQuery(codState, sceCode), data, locations);
      } else if searchBy == ByMaeCode && kind == ConsularDistricts {
        FindDistricts(districts, maeCode, consularDistricts);
        r := 0;
      } else if kind == Consulates {
        r := FindConsulates(entities, ConsulateQuery(codState, territorial), data, consulates);
      } else if kind == ZcSpecimina {
        r := FindSpecimina(entities, data, zipCodeSpecimina);
      } else {
        r := -1;
      }
    }

    // The number of results of the type of this search, or -1.
    method CountResults() returns (r: int)
      ensures r == if Selected().Some? then |Selected().value.items| else -1
    {
      var q := Selected();
      r := if q.Some? then q.value.Length() else -1;
    }
  }
}
