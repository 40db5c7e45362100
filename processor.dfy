/** The processor's `export_*` functions, one per category, and its
    `export_all_data` over the three current categories. Each wrapper
    fetches through the client, runs `process_data` with the category's
    column coercions and saves the table, turning any exception into `""`. */
module Processor {
  import opened Basics
  import opened Json
  import Config
  import opened Utils
  import opened ApiClient

  /** The three coercion lambdas the wrappers use: `float(x) if x else 0`,
      `int(x) if x else None` and `pd.to_datetime(x) if x else None`. */
  datatype Coercion = FloatOrZero | IntOrNone | DatetimeOrNone

  /** What each coercion does to one cell (it may raise) and whether the
      column it produces is a text column. The float, integer and date
      conversions are library calls, so they are parameters here. */
  datatype Coercions = Coercions(apply: Coercion -> Value -> Result<Value, Exception>, resultIsText: Coercion -> bool)

  /** One entry of a wrapper's `transformations` dict. */
  datatype Step = Step(column: string, coercion: Coercion)

  /** The `transformations` dict of each wrapper, in its order;
      `export_department_data` passes none. */
  function Plan(c: Category): seq<Step>
  {
    match c
    case Departments => []
    case Employees => [Step("salary", FloatOrZero), Step("hire_date", DatetimeOrNone)]
    case Budget => [Step("amount", FloatOrZero), Step("fiscal_year", IntOrNone)]
    case EfficiencyMetrics => [Step("value", FloatOrZero), Step("target", FloatOrZero), Step("date", DatetimeOrNone)]
    case Projects => [Step("budget", FloatOrZero), Step("start_date", DatetimeOrNone), Step("end_date", DatetimeOrNone)]
    case Grants => [Step("value", FloatOrZero), Step("savings", FloatOrZero), Step("date", DatetimeOrNone)]
    case Contracts => [Step("value", FloatOrZero), Step("savings", FloatOrZero), Step("date", DatetimeOrNone)]
    case Leases => [Step("value", FloatOrZero), Step("savings", FloatOrZero), Step("date", DatetimeOrNone)]
  }

  /** The plan as the transformations `process_data` applies. */
  function Transforms(c: Category, impl: Coercions): (ts: seq<Transformation>)
    ensures |ts| == |Plan(c)|
    ensures forall k :: 0 <= k < |ts| ==>
      ts[k] == Transformation(Plan(c)[k].column, impl.apply(Plan(c)[k].coercion), impl.resultIsText(Plan(c)[k].coercion))
  {
    seq(|Plan(c)|, k requires 0 <= k < |Plan(c)| =>
      Transformation(Plan(c)[k].column, impl.apply(Plan(c)[k].coercion), impl.resultIsText(Plan(c)[k].coercion)))
  }

  /** Each wrapper's `transformations` dict names a column at most once, so
      its plan, and the transformations built from it, have pairwise
      different columns. */
  lemma PlanColumnsDistinct(c: Category, impl: Coercions)
    ensures forall j, k :: 0 <= j < k < |Plan(c)| ==> Plan(c)[j].column != Plan(c)[k].column
    ensures forall j, k :: 0 <= j < k < |Transforms(c, impl)| ==>
      Transforms(c, impl)[j].column != Transforms(c, impl)[k].column
  {
  }

  /** `filters or {}`. */
  function FiltersOrEmpty(filters: Option<map<string, string>>): map<string, string>
  {
    if filters.Some? then filters.value else map[]
  }

  /** What a wrapper returns: the saved path, or `""` when fetching,
      transforming or saving raised. There is no empty-data guard:
      `process_data` and `save_to_excel` handle an empty list themselves. */
  function WrapperOutcome(st: ClientState, cfg: Config.Settings, c: Category, filters: Option<map<string, string>>,
                          send: Request -> Transport, frameOf: seq<Json> -> Table, impl: Coercions,
                          env: WriteEnv): string
  {
    match Fetch(st, c, FiltersOrEmpty(filters), send)
    case Err(_) => ""
    case Ok(data) =>
      match Processed(data, frameOf, Transforms(c, impl))
      case Err(_) => ""
      case Ok(t) =>
        var saved := Save(cfg, t, FileStem(c), SheetName(c), None, None, env).result;
        if saved.Ok? then saved.value else ""
  }

  /** A failed fetch, an empty fetch and a raising transformation all give
      `""`; otherwise the save's path is returned. */
  lemma WrapperOutcomeCases(st: ClientState, cfg: Config.Settings, c: Category, filters: Option<map<string, string>>,
                            send: Request -> Transport, frameOf: seq<Json> -> Table, impl: Coercions, env: WriteEnv)
    ensures var fetched := Fetch(st, c, FiltersOrEmpty(filters), send);
      var r := WrapperOutcome(st, cfg, c, filters, send, frameOf, impl, env);
      && (fetched.Err? ==> r == "")
      && (fetched == Ok([]) ==> r == "")
      && (fetched.Ok? && Processed(fetched.value, frameOf, Transforms(c, impl)).Err? ==> r == "")
      && (fetched.Ok? && Processed(fetched.value, frameOf, Transforms(c, impl)).Ok? ==>
            var saved := Save(cfg, Processed(fetched.value, frameOf, Transforms(c, impl)).value,
                              FileStem(c), SheetName(c), None, None, env).result;
            r == if saved.Ok? then saved.value else "")
  {
    var fetched := Fetch(st, c, FiltersOrEmpty(filters), send);
    if fetched == Ok([]) {
      ProcessedEmpty(frameOf, Transforms(c, impl));
    }
  }

  /** The department wrapper, which passes no transformations, does what
      the client's own export of that category does. */
  lemma DepartmentsAgreeWithClient(st: ClientState, cfg: Config.Settings, filters: map<string, string>,
                                   send: Request -> Transport, frameOf: seq<Json> -> Table, impl: Coercions,
                                   env: WriteEnv)
    ensures WrapperOutcome(st, cfg, Departments, Some(filters), send, frameOf, impl, env)
            == ExportOutcome(st, cfg, Departments, filters, send, frameOf, env)
  {
    var fetched := Fetch(st, Departments, filters, send);
    if fetched.Ok? {
      ProcessedWithoutTransforms(fetched.value, frameOf);
      if fetched.value == [] {
        ProcessedEmpty(frameOf, []);
      }
    }
  }

  /** A column the plan does not name leaves `process_data` only truncated. */
  lemma UnplannedColumnsOnlyTruncated(c: Category, impl: Coercions, data: seq<Json>, frameOf: seq<Json> -> Table,
                                      t: Table, i: nat)
    requires data != [] && Processed(data, frameOf, Transforms(c, impl)) == Ok(t)
    requires i < |t.columns| && forall k :: 0 <= k < |Plan(c)| ==> Plan(c)[k].column != t.columns[i].name
    ensures |t.columns| == |frameOf(data).columns|
    ensures t.columns[i] == TruncateColumn(frameOf(data).columns[i])
  {
    ProcessedShape(data, frameOf, Transforms(c, impl), t);
  }

  /** A wrapper's result depends on the session only through requests to
      its category's URL. */
  lemma WrapperIsolated(st: ClientState, cfg: Config.Settings, c: Category, filters: Option<map<string, string>>,
                        send1: Request -> Transport, send2: Request -> Transport, frameOf: seq<Json> -> Table,
                        impl: Coercions, env: WriteEnv)
    requires forall r: Request :: r.url == BuildUrl(st.baseUrl, st.apiVersion, Endpoint(c)) ==> send1(r) == send2(r)
    ensures WrapperOutcome(st, cfg, c, filters, send1, frameOf, impl, env)
            == WrapperOutcome(st, cfg, c, filters, send2, frameOf, impl, env)
  {
    PerformSendsOneRequest(st, Endpoint(c), "GET", Some(FiltersOrEmpty(filters)), None, send1, send2);
  }

  /** A session that answers differently only for category `c` changes no
      other category's wrapper. */
  lemma OtherWrappersUnaffected(st: ClientState, cfg: Config.Settings, c: Category, d: Category,
                                filters: Option<map<string, string>>, send1: Request -> Transport,
                                send2: Request -> Transport, frameOf: seq<Json> -> Table, impl: Coercions,
                                env: WriteEnv)
    requires c != d
    requires forall r: Request :: r.url != BuildUrl(st.baseUrl, st.apiVersion, Endpoint(c)) ==> send1(r) == send2(r)
    ensures WrapperOutcome(st, cfg, d, filters, send1, frameOf, impl, env)
            == WrapperOutcome(st, cfg, d, filters, send2, frameOf, impl, env)
  {
    EndpointsDistinct(st, c, d);
    WrapperIsolated(st, cfg, d, filters, send1, send2, frameOf, impl, env);
  }

  /** One `export_*` function: fetch with `filters or {}`, process with the
      category's coercions, save under the category's file and sheet name;
      any exception gives `""`. */
  method ExportData(client: DogeApiClient, cfg: Config.Settings, c: Category, filters: Option<map<string, string>>,
                    send: Request -> Transport, frameOf: seq<Json> -> Table, impl: Coercions, env: WriteEnv)
    returns (path: string)
    ensures path == WrapperOutcome(client.State(), cfg, c, filters, send, frameOf, impl, env)
  {
    var data := Fetch(client.State(), c, FiltersOrEmpty(filters), send);
    if data.Err? {
      return "";
    }
    var processed := ProcessData(data.value, frameOf, Transforms(c, impl));
    if processed.Err? {
      return "";
    }
    var saved;
    ghost var tried;
    saved, tried := SaveToExcel(cfg, processed.value, FileStem(c), SheetName(c), None, None, env);
    path := if saved.Ok? then saved.value else "";
  }

  /** The keys of the processor's `export_all_data`. */
  const ProcessorKeys: set<string> := {"grants", "contracts", "leases"}

  /** The processor's `export_all_data`: the three current categories in
      turn, each with its own file system and clock. Every wrapper catches
      its own exceptions, so the surrounding `try` blocks never fire. */
  method ExportAllData(client: DogeApiClient, cfg: Config.Settings, filters: Option<map<string, string>>,
                       send: Request -> Transport, frameOf: seq<Json> -> Table, impl: Coercions,
                       envOf: Category -> WriteEnv)
    returns (results: map<string, string>)
    ensures results.Keys == ProcessorKeys
    ensures forall c: Category :: c == Grants || c == Contracts || c == Leases ==>
      results[ResultKey(c)] == WrapperOutcome(client.State(), cfg, c, filters, send, frameOf, impl, envOf(c))
  {
    ghost var st := client.State();
    ghost var outcome := (c: Category) => WrapperOutcome(st, cfg, c, filters, send, frameOf, impl, envOf(c));
    results := map[];
    var p := ExportData(client, cfg, Grants, filters, send, frameOf, impl, envOf(Grants));
    assert p == outcome(Grants);
    results := results[ResultKey(Grants) := p];
    p := ExportData(client, cfg, Contracts, filters, send, frameOf, impl, envOf(Contracts));
    assert p == outcome(Contracts);
    results := results[ResultKey(Contracts) := p];
    p := ExportData(client, cfg, Leases, filters, send, frameOf, impl, envOf(Leases));
    assert p == outcome(Leases);
    results := results[ResultKey(Leases) := p];
    StoredUnderThreeKeys(results, outcome);
  }

  /** The map the processor fills has exactly the three keys and each
      category's value under its key. */
  lemma StoredUnderThreeKeys(results: map<string, string>, outcome: Category -> string)
    requires results == map[][ResultKey(Grants) := outcome(Grants)][ResultKey(Contracts) := outcome(Contracts)]
                           [ResultKey(Leases) := outcome(Leases)]
    ensures results.Keys == ProcessorKeys
    ensures forall c :: c == Grants || c == Contracts || c == Leases ==> results[ResultKey(c)] == outcome(c)
  {
    ResultKeysDistinct();
  }
}
