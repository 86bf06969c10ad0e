/**
 * The log search page (frontend/app/log.js): the search button collects the
 * checked event types and the filter fields into query parameters, asks the
 * log service, and shows the events found, a "nothing found" notice or an
 * error; the button is locked while the search runs and always restored.
 */
module LogPage {
  import opened Base
  import opened Strings
  import opened Http
  import LogService

  const SearchLabel := "Buscar"
  const SearchingLabel := "Buscando..."
  const FailurePrefix := "Error al buscar logs: "
  const DayStart := "T00:00:00Z"
  const DayEnd := "T23:59:59Z"

  /** The button while a search is in flight. */
  const Searching := Control(true, SearchingLabel)

  /** The button at rest. */
  const Idle := Control(false, SearchLabel)

  // ---- Event types ----

  /** The three check boxes: create, modify and delete. */
  datatype Boxes = Boxes(createChecked: bool, modifyChecked: bool, deleteChecked: bool)

  /** The event type each box stands for, in the order the page visits them. */
  const TypeNames: seq<string> := ["CREATE", "UPDATE", "DELETE"]

  predicate Checked(b: Boxes, k: nat)
  {
    if k == 0 then b.createChecked else if k == 1 then b.modifyChecked else k == 2 && b.deleteChecked
  }

  /** The types of the checked boxes, in the fixed order create, update, delete. */
  function CheckedTypes(b: Boxes): (r: seq<string>)
    ensures IsSubsequence(r, TypeNames)
    ensures r == [] <==> !b.createChecked && !b.modifyChecked && !b.deleteChecked
    ensures forall k :: 0 <= k < |TypeNames| ==> (TypeNames[k] in r <==> Checked(b, k))
  {
    var r := (if b.createChecked then [TypeNames[0]] else [])
             + (if b.modifyChecked then [TypeNames[1]] else [])
             + (if b.deleteChecked then [TypeNames[2]] else []);
    CheckedTypesOrder(b, r);
    r
  }

  lemma CheckedTypesOrder(b: Boxes, r: seq<string>)
    requires r == (if b.createChecked then [TypeNames[0]] else [])
                  + (if b.modifyChecked then [TypeNames[1]] else [])
                  + (if b.deleteChecked then [TypeNames[2]] else [])
    ensures IsSubsequence(r, TypeNames)
  {
    var tail := if b.deleteChecked then [TypeNames[2]] else [];
    assert IsSubsequence(tail, TypeNames[2..]) by {
      if b.deleteChecked {
        assert TypeNames[2..] == [TypeNames[2]];
        SubsequenceOfSelf(tail);
      }
    }
    var mid := (if b.modifyChecked then [TypeNames[1]] else []) + tail;
    assert TypeNames[1..] == [TypeNames[1]] + TypeNames[2..];
    SubsequenceCons(TypeNames[1], tail, TypeNames[2..]);
    assert IsSubsequence(mid, TypeNames[1..]);
    assert TypeNames == [TypeNames[0]] + TypeNames[1..];
    SubsequenceCons(TypeNames[0], mid, TypeNames[1..]);
    assert r == (if b.createChecked then [TypeNames[0]] else []) + mid;
  }

  /** `tipos.push(...)` for each checked box in turn. */
  method CollectTypes(b: Boxes) returns (tipos: seq<string>)
    ensures tipos == CheckedTypes(b)
  {
    tipos := [];
    if b.createChecked {
      tipos := tipos + [TypeNames[0]];
    }
    if b.modifyChecked {
      tipos := tipos + [TypeNames[1]];
    }
    if b.deleteChecked {
      tipos := tipos + [TypeNames[2]];
    }
  }

  // ---- Query parameters ----

  datatype ParamName = Tipo | Documento | FechaInicio | FechaFin

  /** The parameter's name on the wire. */
  function Wire(n: ParamName): string
  {
    match n
    case Tipo => "tipo"
    case Documento => "documento"
    case FechaInicio => "fecha_inicio"
    case FechaFin => "fecha_fin"
  }

  datatype Param = Param(name: ParamName, value: string)

  /**
   * The value of the first parameter with that name; the page sends each name
   * at most once (`QueryParamsFacts`), so this is the value the service reads.
   */
  function Lookup(ps: seq<Param>, n: ParamName): (r: Option<string>)
    ensures r.Some? <==> exists i :: 0 <= i < |ps| && ps[i].name == n
  {
    if ps == [] then None
    else if ps[0].name == n then Some(ps[0].value)
    else
      var r := Lookup(ps[1..], n);
      assert r.Some? ==> exists i :: 0 <= i < |ps| && ps[i].name == n by {
        if r.Some? {
          var i :| 0 <= i < |ps[1..]| && ps[1..][i].name == n;
          assert ps[i + 1].name == n;
        }
      }
      r
  }

  /** One parameter when it has a value, none otherwise. */
  function Optional(n: ParamName, value: Option<string>): seq<Param>
  {
    if value.Some? then [Param(n, value.value)] else []
  }

  /** The parameters that have a value, in the order the page appends them. */
  function Pack(tipo: Option<string>, documento: Option<string>, inicio: Option<string>, fin: Option<string>): seq<Param>
  {
    Optional(Tipo, tipo) + (Optional(Documento, documento) + (Optional(FechaInicio, inicio) + Optional(FechaFin, fin)))
  }

  /** The value each parameter carries in a search, if it is sent at all. */
  function Expected(tipos: seq<string>, documento: string, dateFrom: string, dateTo: string, m: ParamName): Option<string>
  {
    match m
    case Tipo => if tipos != [] then Some(Join(tipos, ",")) else None
    case Documento => if documento != "" then Some(documento) else None
    case FechaInicio => if dateFrom != "" then Some(dateFrom + DayStart) else None
    case FechaFin => if dateTo != "" then Some(dateTo + DayEnd) else None
  }

  /** The parameters a search sends. */
  function QueryParams(tipos: seq<string>, documento: string, dateFrom: string, dateTo: string): seq<Param>
  {
    Pack(Expected(tipos, documento, dateFrom, dateTo, Tipo),
         Expected(tipos, documento, dateFrom, dateTo, Documento),
         Expected(tipos, documento, dateFrom, dateTo, FechaInicio),
         Expected(tipos, documento, dateFrom, dateTo, FechaFin))
  }

  /** The order in which the page appends the parameters. */
  function Rank(n: ParamName): nat
  {
    match n
    case Tipo => 0
    case Documento => 1
    case FechaInicio => 2
    case FechaFin => 3
  }

  predicate Ascending(ps: seq<Param>)
  {
    forall i, j :: 0 <= i < j < |ps| ==> Rank(ps[i].name) < Rank(ps[j].name)
  }

  lemma LookupOptional(rest: seq<Param>, n: ParamName, value: Option<string>, m: ParamName)
    ensures Lookup(Optional(n, value) + rest, m) == if value.Some? && m == n then value else Lookup(rest, m)
  {
    var ps := Optional(n, value) + rest;
    if value.Some? {
      assert ps[0] == Param(n, value.value);
      assert ps[1..] == rest;
    } else {
      assert ps == rest;
    }
  }

  lemma AscendingOptional(rest: seq<Param>, n: ParamName, value: Option<string>)
    requires Ascending(rest)
    requires forall k :: 0 <= k < |rest| ==> Rank(n) < Rank(rest[k].name)
    ensures Ascending(Optional(n, value) + rest)
    ensures forall k :: 0 <= k < |Optional(n, value) + rest| ==> Rank(n) <= Rank((Optional(n, value) + rest)[k].name)
  {
  }

  /** The packed parameters appear at most once each, in a fixed order. */
  lemma PackAscending(tipo: Option<string>, documento: Option<string>, inicio: Option<string>, fin: Option<string>)
    ensures Ascending(Pack(tipo, documento, inicio, fin))
  {
    var d := Optional(FechaFin, fin);
    var c := Optional(FechaInicio, inicio) + d;
    var b := Optional(Documento, documento) + c;
    assert d == d + [];
    AscendingOptional([], FechaFin, fin);
    AscendingOptional(d, FechaInicio, inicio);
    AscendingOptional(c, Documento, documento);
    AscendingOptional(b, Tipo, tipo);
  }

  /** Each packed name looks up exactly the value it was given. */
  lemma PackLookup(tipo: Option<string>, documento: Option<string>, inicio: Option<string>, fin: Option<string>, m: ParamName)
    ensures Lookup(Pack(tipo, documento, inicio, fin), m)
      == match m case Tipo => tipo case Documento => documento case FechaInicio => inicio case FechaFin => fin
  {
    var d := Optional(FechaFin, fin);
    var c := Optional(FechaInicio, inicio) + d;
    var b := Optional(Documento, documento) + c;
    assert d == d + [];
    LookupOptional([], FechaFin, fin, m);
    LookupOptional(d, FechaInicio, inicio, m);
    LookupOptional(c, Documento, documento, m);
    LookupOptional(b, Tipo, tipo, m);
  }

  /**
   * A search sends each parameter at most once, in a fixed order: `tipo` is
   * the comma-join of the type list and is sent only if the list is
   * non-empty, `documento` is sent only when non-empty, and each date is
   * sent, with the start or end of its day, only when filled in.
   */
  lemma QueryParamsFacts(tipos: seq<string>, documento: string, dateFrom: string, dateTo: string)
    ensures Ascending(QueryParams(tipos, documento, dateFrom, dateTo))
    ensures forall m :: Lookup(QueryParams(tipos, documento, dateFrom, dateTo), m) == Expected(tipos, documento, dateFrom, dateTo, m)
  {
    var t := Expected(tipos, documento, dateFrom, dateTo, Tipo);
    var d := Expected(tipos, documento, dateFrom, dateTo, Documento);
    var i := Expected(tipos, documento, dateFrom, dateTo, FechaInicio);
    var f := Expected(tipos, documento, dateFrom, dateTo, FechaFin);
    PackAscending(t, d, i, f);
    forall m ensures Lookup(QueryParams(tipos, documento, dateFrom, dateTo), m) == Expected(tipos, documento, dateFrom, dateTo, m) {
      PackLookup(t, d, i, f, m);
    }
  }

  /** `params.append(...)` for each filter that is filled in. */
  method BuildParams(tipos: seq<string>, documento: string, dateFrom: string, dateTo: string) returns (params: seq<Param>)
    ensures params == QueryParams(tipos, documento, dateFrom, dateTo)
  {
    params := [];
    if |tipos| > 0 {
      params := params + [Param(Tipo, Join(tipos, ","))];
    }
    if documento != "" {
      params := params + [Param(Documento, documento)];
    }
    if dateFrom != "" {
      params := params + [Param(FechaInicio, dateFrom + DayStart)];
    }
    if dateTo != "" {
      params := params + [Param(FechaFin, dateTo + DayEnd)];
    }
  }

  // ---- The page and the service together ----

  /** No surrounding whitespace and no comma: survives the join, split and strip. */
  predicate CleanPiece(s: string)
  {
    ',' !in s && (s == [] || (!IsSpace(s[0]) && !IsSpace(s[|s| - 1])))
  }

  /**
   * The service's `[t.strip() for t in tipo.split(',')]` recovers exactly the
   * list the page joined with commas.
   */
  lemma TypeListRoundTrip(tipos: seq<string>)
    requires tipos != []
    requires forall k :: 0 <= k < |tipos| ==> CleanPiece(tipos[k])
    ensures LogService.TypeList(Join(tipos, ",")) == tipos
  {
    SplitJoin(tipos, ',');
    forall k | 0 <= k < |tipos| ensures Strip(tipos[k]) == tipos[k] {
      StripClean(tipos[k]);
    }
  }

  lemma TypeNamesClean()
    ensures forall k :: 0 <= k < |TypeNames| ==> CleanPiece(TypeNames[k]) && TypeNames[k] != []
  {
  }

  /**
   * What the service makes of the parameters: the query it runs, or `None`
   * when a date does not parse (a request-validation error). `parse` reads an
   * ISO 8601 timestamp.
   */
  function Received(ps: seq<Param>, parse: string -> Option<int>): (r: Option<LogService.LogQuery>)
    ensures r.None? <==> (exists t :: Lookup(ps, FechaInicio) == Some(t) && parse(t).None?)
                         || (exists t :: Lookup(ps, FechaFin) == Some(t) && parse(t).None?)
  {
    var from := Lookup(ps, FechaInicio);
    var to := Lookup(ps, FechaFin);
    if (from.Some? && parse(from.value).None?) || (to.Some? && parse(to.value).None?) then None
    else Some(LogService.LogQuery(
      Lookup(ps, Tipo),
      Lookup(ps, Documento),
      if from.Some? then parse(from.value) else None,
      if to.Some? then parse(to.value) else None))
  }

  /**
   * A search from the page keeps exactly the events of a checked type (any
   * type when no box is checked), of the document typed (any when blank), and
   * within the chosen days, bounds included.
   */
  lemma SearchSelectsAsChecked(b: Boxes, documento: string, dateFrom: string, dateTo: string,
                               parse: string -> Option<int>, e: LogService.LogEntry)
    requires dateFrom != "" ==> parse(dateFrom + DayStart).Some?
    requires dateTo != "" ==> parse(dateTo + DayEnd).Some?
    ensures var q := Received(QueryParams(CheckedTypes(b), documento, dateFrom, dateTo), parse);
      q.Some?
      && (LogService.Selected(q.value, e) <==>
            (CheckedTypes(b) == [] || e.tipo in CheckedTypes(b))
            && (documento == "" || e.documento == documento)
            && (dateFrom != "" ==> e.fecha >= parse(dateFrom + DayStart).value)
            && (dateTo != "" ==> e.fecha <= parse(dateTo + DayEnd).value))
  {
    var tipos := CheckedTypes(b);
    TypeNamesClean();
    forall k | 0 <= k < |tipos| ensures CleanPiece(tipos[k]) && tipos[k] != [] {
      assert tipos[k] in TypeNames by { SubsequenceMembers(tipos, TypeNames); }
    }
    ReceivedQuery(tipos, documento, dateFrom, dateTo, parse);
    TypeParamSelects(tipos, e);
  }

  /** The query the service runs for the parameters of a search whose dates parse. */
  lemma ReceivedQuery(tipos: seq<string>, documento: string, dateFrom: string, dateTo: string,
                      parse: string -> Option<int>)
    requires dateFrom != "" ==> parse(dateFrom + DayStart).Some?
    requires dateTo != "" ==> parse(dateTo + DayEnd).Some?
    ensures Received(QueryParams(tipos, documento, dateFrom, dateTo), parse)
      == Some(LogService.LogQuery(
           Expected(tipos, documento, dateFrom, dateTo, Tipo),
           Expected(tipos, documento, dateFrom, dateTo, Documento),
           if dateFrom != "" then parse(dateFrom + DayStart) else None,
           if dateTo != "" then parse(dateTo + DayEnd) else None))
  {
    QueryParamsFacts(tipos, documento, dateFrom, dateTo);
  }

  /**
   * The `tipo` parameter of a list of clean, non-empty type names selects
   * exactly the events of a listed type, or every event when the list is empty.
   */
  lemma TypeParamSelects(tipos: seq<string>, e: LogService.LogEntry)
    requires forall k :: 0 <= k < |tipos| ==> CleanPiece(tipos[k]) && tipos[k] != []
    ensures var t := Expected(tipos, "", "", "", Tipo);
      (LogService.Given(t) ==> e.tipo in LogService.TypeList(t.value)) <==> (tipos == [] || e.tipo in tipos)
  {
    if tipos != [] {
      TypeListRoundTrip(tipos);
      JoinNonEmpty(tipos, ",");
    }
  }

  /** The join of a list whose first piece is non-empty is non-empty. */
  lemma JoinNonEmpty(parts: seq<string>, sep: string)
    requires parts != [] && parts[0] != []
    ensures Join(parts, sep) != []
  {
    if |parts| > 1 {
      assert Join(parts, sep)[0] == parts[0][0];
    }
  }

  // ---- Connection test and search results ----

  /** `testConnection`: the listing answered 2xx with a JSON body. */
  predicate Connected(resp: Response<seq<LogService.LogEntry>>)
  {
    resp.Reply? && IsOk(resp.status) && !resp.body.Unparseable?
  }

  /** What the results area shows. */
  datatype View =
    | Blank
    | ConnectionError
    | Loading
    | NoResults
    | Listed(count: nat, logs: seq<LogService.LogEntry>)
    | ErrorShown(message: string)
    /** The error box with the runtime's own message for rendering a body that is not a list. */
    | Crashed

  /**
   * The results area after a search: the transport error, the error `detail`
   * or a status text for a non-2xx reply, the parse error of a 2xx body,
   * "nothing found" for an empty list, and otherwise every event with their
   * count. A 2xx JSON body that is not a list fails while being rendered,
   * and that failure is caught and shown like the others.
   */
  function SearchView(resp: Response<seq<LogService.LogEntry>>): (v: View)
    ensures v.NoResults? <==> resp.Reply? && IsOk(resp.status) && resp.body == Payload([])
    ensures v.Listed? ==> resp.Reply? && IsOk(resp.status) && resp.body == Payload(v.logs)
                          && v.count == |v.logs| > 0
    ensures resp.Reply? && IsOk(resp.status) && resp.body.Payload? && resp.body.value != []
            ==> v == Listed(|resp.body.value|, resp.body.value)
    ensures resp.Failed? ==> v == ErrorShown(resp.reason)
    ensures resp.Reply? && IsOk(resp.status) && resp.body.Unparseable? ==> v == ErrorShown(resp.body.reason)
    ensures resp.Reply? && !IsOk(resp.status)
            ==> v == ErrorShown(DetailOr(resp.body, StatusText(FailurePrefix, resp.status)))
  {
    match resp
    case Failed(reason) => ErrorShown(reason)
    case Reply(status, _, body) =>
      if !IsOk(status) then ErrorShown(DetailOr(body, StatusText(FailurePrefix, status)))
      else
        match body
        case Unparseable(reason) => ErrorShown(reason)
        case Other(_) => Crashed
        case Payload(logs) => if |logs| == 0 then NoResults else Listed(|logs|, logs)
  }

  /** A search as it left the page: its parameters and the button's state. */
  datatype Query = Query(params: seq<Param>, trigger: Control)

  class LogSearchPage {
    var button: Control
    var results: View
    var sent: seq<Query>

    constructor ()
      ensures button == Idle && results == Blank && sent == []
    {
      button := Idle;
      results := Blank;
      sent := [];
    }

    /** The connection test run when the page loads: only a failure is shown. */
    method TestConnection(resp: Response<seq<LogService.LogEntry>>)
      modifies this`results
      ensures results == if Connected(resp) then old(results) else ConnectionError
    {
      if !Connected(resp) {
        results := ConnectionError;
      }
    }

    /**
     * The search button's handler: the query built from the boxes and the
     * fields leaves with the button locked, the results area shows
     * `SearchView` of the reply, and the button is restored whatever happened.
     */
    method Search(b: Boxes, documento: string, dateFrom: string, dateTo: string,
                  resp: Response<seq<LogService.LogEntry>>)
      modifies this
      ensures sent == old(sent) + [Query(QueryParams(CheckedTypes(b), documento, dateFrom, dateTo), Searching)]
      ensures results == SearchView(resp)
      ensures button == Idle
    {
      button := Searching;
      results := Loading;
      var tipos := CollectTypes(b);
      var params := BuildParams(tipos, documento, dateFrom, dateTo);
      sent := sent + [Query(params, button)];
      match resp {
        case Failed(reason) =>
          results := ErrorShown(reason);
        case Reply(status, _, body) =>
          if !IsOk(status) {
            results := ErrorShown(DetailOr(body, StatusText(FailurePrefix, status)));
          } else if body.Unparseable? {
            results := ErrorShown(body.reason);
          } else if body.Other? {
            results := Crashed;
          } else if |body.value| == 0 {
            results := NoResults;
          } else {
            results := Listed(|body.value|, body.value);
          }
      }
      button := Idle;
    }
  }
}
