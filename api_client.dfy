/** The DOGE API client: default resolution in the constructor, the URL it
    requests, the HTTP verb it accepts, how a transport outcome becomes
    records or an exception, the eight `get_*` endpoints, `export_to_excel`
    and the eight-category `export_all_data`.

    The HTTP session is the parameter `send`, which maps the one request
    `_make_request` issues to its final outcome (after the session's own
    retries). */
module ApiClient {
  import opened Basics
  import opened Strings
  import opened Json
  import Config
  import opened Utils

  // ---------------------------------------------------------------------
  // The request

  /** The two verbs `_make_request` sends. */
  datatype Verb = HttpGet | HttpPost

  /** What the session is asked to send: verb, URL, query parameters, JSON
      body (only a POST carries one), timeout and the headers the client
      added to the session. */
  datatype Request = Request(
    verb: Verb,
    url: string,
    params: Option<map<string, string>>,
    json: Option<Json>,
    timeout: int,
    headers: map<string, string>)

  /** A response the session received: its status, the text of the
      `HTTPError` that `raise_for_status` would raise for it, and the body
      as `response.json()` decodes it (or the decoding error's text). */
  datatype Response = Response(status: int, errorText: string, body: Result<Json, string>)

  /** How the one request ended. `ConnectionFailed` is
      `requests.exceptions.ConnectionError` (including a connect timeout),
      `TimedOut` any other `Timeout`, `OtherFailure` any other
      `RequestException` (a redirect loop, exhausted retries, ...). */
  datatype Transport =
    | Delivered(response: Response)
    | ConnectionFailed(detail: string)
    | TimedOut(detail: string)
    | OtherFailure(detail: string)

  /** The endpoint with a leading `/`. */
  function NormaliseEndpoint(endpoint: string): (r: string)
    ensures StartsWith(r, "/")
  {
    if StartsWith(endpoint, "/") then endpoint else "/" + endpoint
  }

  /** A leading `/` is added at most once, and only when missing. */
  lemma NormaliseEndpointKeeps(endpoint: string)
    ensures StartsWith(endpoint, "/") ==> NormaliseEndpoint(endpoint) == endpoint
    ensures !StartsWith(endpoint, "/") ==> NormaliseEndpoint(endpoint)[1..] == endpoint
    ensures NormaliseEndpoint(NormaliseEndpoint(endpoint)) == NormaliseEndpoint(endpoint)
  {
  }

  /** The full URL: `base/version/endpoint` when a version is set, else
      `base/endpoint`, the endpoint normalised first. */
  function BuildUrl(base: string, version: string, endpoint: string): string
  {
    var ep := NormaliseEndpoint(endpoint);
    if version != "" then base + "/" + version + ep else base + ep
  }

  /** The URL starts with the base URL and ends with the normalised
      endpoint; in between is `/version` or nothing. */
  lemma BuildUrlParts(base: string, version: string, endpoint: string)
    ensures var url := BuildUrl(base, version, endpoint);
      var ep := NormaliseEndpoint(endpoint);
      && StartsWith(url, base) && EndsWith(url, ep)
      && url[|base|..|url| - |ep|] == (if version != "" then "/" + version else "")
  {
    var url := BuildUrl(base, version, endpoint);
    var ep := NormaliseEndpoint(endpoint);
    var mid := if version != "" then "/" + version else "";
    assert url == base + mid + ep;
    assert url[..|base|] == base;
    assert url[|url| - |ep|..] == ep;
    assert url[|base|..|url| - |ep|] == mid;
  }

  /** Two endpoints on the same base and version give the same URL only
      when they normalise to the same path. */
  lemma BuildUrlInjective(base: string, version: string, e1: string, e2: string)
    requires BuildUrl(base, version, e1) == BuildUrl(base, version, e2)
    ensures NormaliseEndpoint(e1) == NormaliseEndpoint(e2)
  {
    var prefix := if version != "" then base + "/" + version else base;
    assert BuildUrl(base, version, e1) == prefix + NormaliseEndpoint(e1);
    assert BuildUrl(base, version, e2) == prefix + NormaliseEndpoint(e2);
    assert (prefix + NormaliseEndpoint(e1))[|prefix|..] == NormaliseEndpoint(e1);
    assert (prefix + NormaliseEndpoint(e2))[|prefix|..] == NormaliseEndpoint(e2);
  }

  /** The URL the client's test expects for `/test` on version `v1`. */
  lemma BuildUrlExample()
    ensures BuildUrl("https://test-api.doge.gov", "v1", "/test") == "https://test-api.doge.gov/v1/test"
    ensures BuildUrl("https://test-api.doge.gov", "", "test") == "https://test-api.doge.gov/test"
  {
    assert "/test"[..1] == "/";
    assert "test"[..1][0] == 't';
  }

  /** `method.upper()` compared with `GET` and `POST`; anything else is the
      ValueError `Unsupported HTTP method: <httpMethod>`. */
  function ParseVerb(httpMethod: string): Result<Verb, Exception>
  {
    if Upper(httpMethod) == "GET" then Ok(HttpGet)
    else if Upper(httpMethod) == "POST" then Ok(HttpPost)
    else Err(Exception(ValueError, "Unsupported HTTP method: " + httpMethod))
  }

  /** The match ignores case: a method and its upper-case form choose the
      same verb, and a rejected method is named in the error. */
  lemma ParseVerbIgnoresCase(httpMethod: string)
    ensures ParseVerb(httpMethod).Ok? <==> ParseVerb(Upper(httpMethod)).Ok?
    ensures ParseVerb(httpMethod).Ok? ==> ParseVerb(httpMethod) == ParseVerb(Upper(httpMethod))
    ensures ParseVerb(httpMethod).Err? ==>
      ParseVerb(httpMethod).error.kind == ValueError && EndsWith(ParseVerb(httpMethod).error.message, httpMethod)
  {
    UpperIdempotent(httpMethod);
    var msg := "Unsupported HTTP method: " + httpMethod;
    assert msg[|msg| - |httpMethod|..] == httpMethod;
  }

  /** `get` is accepted as GET. */
  lemma ParseVerbLowerGet()
    ensures ParseVerb("get") == Ok(HttpGet)
  {
    assert Upper("t") == "T";
    assert Upper("et") == UpperChar('e') + Upper("t");
    assert Upper("get") == UpperChar('g') + Upper("et");
  }

  /** `Post` is accepted as POST. */
  lemma ParseVerbMixedPost()
    ensures ParseVerb("Post") == Ok(HttpPost)
  {
    assert Upper("t") == "T";
    assert Upper("st") == UpperChar('s') + Upper("t");
    assert Upper("ost") == UpperChar('o') + Upper("st");
    assert Upper("Post") == UpperChar('P') + Upper("ost");
  }

  /** `DELETE` is rejected: its upper-case form starts with `D`. */
  lemma ParseVerbRejectsDelete()
    ensures ParseVerb("DELETE").Err?
  {
    assert Upper("DELETE") == UpperChar('D') + Upper("ELETE");
    assert Upper("DELETE")[0] == 'D';
  }

  // ---------------------------------------------------------------------
  // The response envelope

  /** `endpoint.strip("/").split("/")` and its last part when there are at
      least two parts. */
  function DataType(endpoint: string): Option<string>
  {
    var parts := Split(Strip(endpoint, {'/'}), '/');
    if |parts| >= 2 then Some(parts[|parts| - 1]) else None
  }

  /** A two-level endpoint names its last segment, as `/savings/grants`
      names `grants`. */
  lemma DataTypeOfTwoSegments(a: string, b: string)
    requires |a| > 0 && |b| > 0 && '/' !in a && '/' !in b
    ensures DataType("/" + a + "/" + b) == Some(b)
  {
    var inner := a + "/" + b;
    assert "/" + a + "/" + b == ['/'] + inner;
    assert inner[0] == a[0] && inner[|inner| - 1] == b[|b| - 1];
    StripOneLeading('/', inner, {'/'});
    SplitAfterFirstPiece(a, b, '/');
    SplitWithoutSeparator(b, '/');
    assert a + ['/'] + b == inner;
  }

  /** A one-level endpoint such as `/departments` names nothing, so the
      scan for the first list always decides. */
  lemma DataTypeOfOneSegment(a: string)
    requires '/' !in a
    ensures DataType("/" + a) == None
  {
    if |a| == 0 {
      assert "/" + a == ['/'] + "";
    } else {
      assert "/" + a == ['/'] + a;
      StripOneLeading('/', a, {'/'});
      SplitWithoutSeparator(a, '/');
    }
  }

  /** The records `_make_request` returns for a decoded body, or the
      exception that escapes it. On an object: the list `result[<data
      type>]`, else the first list among `result`'s values, else `result`
      itself when it is a list, else a list `data` when there is no
      `result`, else `[body]`. An array is returned as it is. The other
      bodies, and arrays holding the strings `result` or `data`, make the
      code fail: `in`, indexing or `.keys()` does not apply to them. */
  function Records(endpoint: string, body: Json): Result<seq<Json>, Exception>
  {
    match body
    case Object(ms) =>
      (match Get(ms, "result")
       case Some(Object(rs)) =>
         var named := DataType(endpoint);
         if named.Some? && Get(rs, named.value).Some? && Get(rs, named.value).value.Array? then
           Ok(Get(rs, named.value).value.items)
         else if FirstArray(rs).Some? then Ok(FirstArray(rs).value)
         else Ok([body])
       case Some(Array(items)) => Ok(items)
       case Some(_) => Ok([body])
       case None =>
         (match Get(ms, "data")
          case Some(Array(items)) => Ok(items)
          case _ => Ok([body])))
    case Array(items) =>
      if Str("result") in items || Str("data") in items then Err(Exception(TypeError, ""))
      else Ok(items)
    case Str(s) =>
      if Contains(s, "result") || Contains(s, "data") then Err(Exception(TypeError, ""))
      else Err(Exception(AttributeError, ""))
    case _ => Err(Exception(TypeError, ""))
  }

  /** When `result` is an object and the endpoint's data type names a list
      in it, that list is returned. */
  lemma RecordsNamedList(endpoint: string, ms: seq<Member>, rs: seq<Member>, items: seq<Json>)
    requires Get(ms, "result") == Some(Object(rs))
    requires DataType(endpoint).Some? && Get(rs, DataType(endpoint).value) == Some(Array(items))
    ensures Records(endpoint, Object(ms)) == Ok(items)
  {
  }

  /** `/savings/grants` returns `result["grants"]` even when another list
      comes first in `result`. */
  lemma RecordsGrantsExample(first: seq<Json>, grants: seq<Json>)
    ensures var body := Object([Member("result", Object([Member("other", Array(first)),
                                                          Member("grants", Array(grants))]))]);
      Records("/savings/grants", body) == Ok(grants)
  {
    var rs := [Member("other", Array(first)), Member("grants", Array(grants))];
    var ms := [Member("result", Object(rs))];
    assert Get(ms, "result") == Some(Object(rs));
    GrantsAfterOther(first, grants);
    GrantsDataType();
    RecordsNamedList("/savings/grants", ms, rs, grants);
  }

  lemma GrantsDataType()
    ensures DataType("/savings/grants") == Some("grants")
  {
    DataTypeOfTwoSegments("savings", "grants");
    assert "/" + "savings" + "/" + "grants" == "/savings/grants";
  }

  lemma GrantsAfterOther(first: seq<Json>, grants: seq<Json>)
    ensures Get([Member("other", Array(first)), Member("grants", Array(grants))], "grants") == Some(Array(grants))
  {
    var rs := [Member("other", Array(first)), Member("grants", Array(grants))];
    assert "other" != "grants" by {
      assert |"other"| == 5 && |"grants"| == 6;
    }
    assert rs[1..] == [Member("grants", Array(grants))];
  }

  /** Otherwise the first list in `result`, in key order, is returned; with
      no list at all the whole body is wrapped, not `result`. */
  lemma RecordsFirstList(endpoint: string, ms: seq<Member>, rs: seq<Member>)
    requires Get(ms, "result") == Some(Object(rs))
    requires DataType(endpoint).None? || Get(rs, DataType(endpoint).value).None?
             || !Get(rs, DataType(endpoint).value).value.Array?
    ensures FirstArray(rs).Some? ==> Records(endpoint, Object(ms)) == Ok(FirstArray(rs).value)
    ensures FirstArray(rs).None? ==> Records(endpoint, Object(ms)) == Ok([Object(ms)])
  {
  }

  /** A one-level endpoint always takes the scan. */
  lemma RecordsOneSegment(a: string, ms: seq<Member>, rs: seq<Member>)
    requires '/' !in a && Get(ms, "result") == Some(Object(rs))
    ensures Records("/" + a, Object(ms)) ==
      if FirstArray(rs).Some? then Ok(FirstArray(rs).value) else Ok([Object(ms)])
  {
    DataTypeOfOneSegment(a);
  }

  /** A list `result` and a bare array body come back unchanged. */
  lemma RecordsLists(endpoint: string, ms: seq<Member>, items: seq<Json>)
    requires Get(ms, "result") == Some(Array(items))
    ensures Records(endpoint, Object(ms)) == Ok(items)
    ensures Str("result") !in items && Str("data") !in items ==> Records(endpoint, Array(items)) == Ok(items)
  {
  }

  /** `data` is read only when there is no `result`: a list `data` is
      returned, and otherwise the body is wrapped. */
  lemma RecordsLegacyData(endpoint: string, ms: seq<Member>)
    requires Get(ms, "result").None?
    ensures Get(ms, "data").Some? && Get(ms, "data").value.Array? ==>
      Records(endpoint, Object(ms)) == Ok(Get(ms, "data").value.items)
    ensures !(Get(ms, "data").Some? && Get(ms, "data").value.Array?) ==>
      Records(endpoint, Object(ms)) == Ok([Object(ms)])
  {
  }

  /** A `result` that is neither an object nor a list wraps the body, even
      beside a list `data`: `{"result": 5, "data": [...]}` gives `[body]`. */
  lemma RecordsScalarResult(endpoint: string, ms: seq<Member>)
    requires Get(ms, "result").Some? && !Get(ms, "result").value.Object? && !Get(ms, "result").value.Array?
    ensures Records(endpoint, Object(ms)) == Ok([Object(ms)])
  {
  }

  /** An object body never fails, and what it gives is `[body]` or a list
      found at its top level or inside its `result`. */
  lemma RecordsOfObject(endpoint: string, ms: seq<Member>)
    ensures var r := Records(endpoint, Object(ms));
      && r.Ok?
      && (|| r.value == [Object(ms)]
          || (exists i :: 0 <= i < |ms| && ms[i].value == Array(r.value))
          || (exists rs: seq<Member>, j :: Get(ms, "result") == Some(Object(rs)) && 0 <= j < |rs| && rs[j].value == Array(r.value)))
  {
    match Get(ms, "result")
    case Some(Object(rs)) =>
      RecordsOfResultObject(endpoint, ms, rs);
    case Some(Array(items)) =>
      var i :| 0 <= i < |ms| && ms[i].key == "result" && ms[i].value == Array(items);
    case Some(_) =>
    case None =>
      if Get(ms, "data").Some? && Get(ms, "data").value.Array? {
        var i :| 0 <= i < |ms| && ms[i].key == "data" && ms[i].value == Get(ms, "data").value;
      }
  }

  /** When `result` is an object, the records are `[body]` or one of its
      list values. */
  lemma RecordsOfResultObject(endpoint: string, ms: seq<Member>, rs: seq<Member>)
    requires Get(ms, "result") == Some(Object(rs))
    ensures var r := Records(endpoint, Object(ms));
      && r.Ok?
      && (r.value == [Object(ms)] || exists j :: 0 <= j < |rs| && rs[j].value == Array(r.value))
  {
    var named := DataType(endpoint);
    if named.Some? && Get(rs, named.value).Some? && Get(rs, named.value).value.Array? {
      var j :| 0 <= j < |rs| && rs[j].key == named.value && rs[j].value == Get(rs, named.value).value;
      assert Records(endpoint, Object(ms)) == Ok(Get(rs, named.value).value.items);
    } else if FirstArray(rs).Some? {
      var j :| 0 <= j < |rs| && rs[j].value == Array(FirstArray(rs).value);
      assert Records(endpoint, Object(ms)) == Ok(FirstArray(rs).value);
    }
  }

  /** The bodies outside the envelope's shapes escape as TypeError or
      AttributeError. */
  lemma RecordsFailures(endpoint: string, body: Json)
    ensures body.Null? || body.Boolean? || body.Number? ==> Records(endpoint, body) == Err(Exception(TypeError, ""))
    ensures body.Str? ==> Records(endpoint, body).Err?
    ensures body.Array? ==> (Records(endpoint, body).Err? <==> Str("result") in body.items || Str("data") in body.items)
  {
  }

  // ---------------------------------------------------------------------
  // Exception translation

  /** What `_make_request` returns or raises once the request went out:
      an HTTP status from 400 to 599 is a ValueError, a body that is no JSON
      and a transport failure other than a connection error or a timeout
      are RuntimeErrors, and otherwise the records of the body. */
  function Outcome(url: string, timeout: int, endpoint: string, t: Transport): Result<seq<Json>, Exception>
  {
    match t
    case ConnectionFailed(d) =>
      Err(Exception(ConnectionError, "Connection error while accessing " + url + ": " + d))
    case TimedOut(d) =>
      Err(Exception(TimeoutError, "Request timed out after " + IntToString(timeout) + "s while accessing " + url + ": " + d))
    case OtherFailure(d) =>
      Err(Exception(RuntimeError, "API request failed for " + url + ": " + d))
    case Delivered(resp) =>
      if 400 <= resp.status < 600 then
        Err(Exception(ValueError, "HTTP error " + IntToString(resp.status) + " while accessing " + url + ": " + resp.errorText))
      else
        match resp.body
        case Err(d) => Err(Exception(RuntimeError, "API request failed for " + url + ": " + d))
        case Ok(body) => Records(endpoint, body)
  }

  /** Whether the transport outcome is a failure the client translates. */
  predicate TransportFailed(t: Transport)
  {
    !t.Delivered? || 400 <= t.response.status < 600 || t.response.body.Err?
  }

  /** Every translated failure raises the class its kind maps to, with a
      message that names the URL. */
  lemma FailuresNameUrl(url: string, timeout: int, endpoint: string, t: Transport)
    requires TransportFailed(t)
    ensures var r := Outcome(url, timeout, endpoint, t);
      && r.Err? && Contains(r.error.message, url)
      && r.error.kind == (match t
                          case ConnectionFailed(_) => ConnectionError
                          case TimedOut(_) => TimeoutError
                          case OtherFailure(_) => RuntimeError
                          case Delivered(resp) => if 400 <= resp.status < 600 then ValueError else RuntimeError)
  {
    match t
    case ConnectionFailed(d) =>
      ContainsMiddle("Connection error while accessing ", url, ": " + d);
      assert "Connection error while accessing " + url + ": " + d == "Connection error while accessing " + url + (": " + d);
    case TimedOut(d) =>
      var pre := "Request timed out after " + IntToString(timeout) + "s while accessing ";
      ContainsMiddle(pre, url, ": " + d);
      assert "Request timed out after " + IntToString(timeout) + "s while accessing " + url + ": " + d == pre + url + (": " + d);
    case OtherFailure(d) =>
      ContainsMiddle("API request failed for ", url, ": " + d);
      assert "API request failed for " + url + ": " + d == "API request failed for " + url + (": " + d);
    case Delivered(resp) =>
      if 400 <= resp.status < 600 {
        var pre := "HTTP error " + IntToString(resp.status) + " while accessing ";
        ContainsMiddle(pre, url, ": " + resp.errorText);
        assert "HTTP error " + IntToString(resp.status) + " while accessing " + url + ": " + resp.errorText
               == pre + url + (": " + resp.errorText);
      } else {
        var d := resp.body.error;
        ContainsMiddle("API request failed for ", url, ": " + d);
        assert "API request failed for " + url + ": " + d == "API request failed for " + url + (": " + d);
      }
  }

  /** The client's test: a RequestException's message begins with
      `API request failed`. */
  lemma OtherFailureMessage(url: string, timeout: int, endpoint: string, d: string)
    ensures var r := Outcome(url, timeout, endpoint, OtherFailure(d));
      r.Err? && StartsWith(r.error.message, "API request failed")
  {
    var m := "API request failed for " + url + ": " + d;
    assert m[..|"API request failed"|] == "API request failed";
  }

  /** A delivered, decodable response below 400 (or from 600) yields its
      records. */
  lemma DeliveredRecords(url: string, timeout: int, endpoint: string, status: int, text: string, body: Json)
    requires !(400 <= status < 600)
    ensures Outcome(url, timeout, endpoint, Delivered(Response(status, text, Ok(body)))) == Records(endpoint, body)
  {
  }

  // ---------------------------------------------------------------------
  // The client

  /** The client's resolved settings and the headers it added to its
      session. */
  datatype ClientState = ClientState(
    baseUrl: string,
    apiKey: Option<string>,
    apiVersion: string,
    timeout: int,
    maxRetries: int,
    headers: map<string, string>)

  /** Python truthiness of an optional string argument. */
  predicate Truthy(x: Option<string>)
  {
    x.Some? && x.value != ""
  }

  /** The request `_make_request` hands to the session for a verb. */
  function Outgoing(st: ClientState, verb: Verb, url: string, params: Option<map<string, string>>,
                    data: Option<Json>): Request
  {
    Request(verb, url, params, if verb == HttpPost then data else None, st.timeout, st.headers)
  }

  /** `_make_request`: the URL, then the verb check (before anything is
      sent), then the one request and the translation of its outcome. */
  function Perform(st: ClientState, endpoint: string, httpMethod: string, params: Option<map<string, string>>,
                   data: Option<Json>, send: Request -> Transport): Result<seq<Json>, Exception>
  {
    var url := BuildUrl(st.baseUrl, st.apiVersion, endpoint);
    match ParseVerb(httpMethod)
    case Err(e) => Err(e)
    case Ok(verb) => Outcome(url, st.timeout, NormaliseEndpoint(endpoint), send(Outgoing(st, verb, url, params, data)))
  }

  /** An unsupported method raises its ValueError whatever the session
      would have done: nothing is sent. */
  lemma UnsupportedMethodSendsNothing(st: ClientState, endpoint: string, httpMethod: string,
                                      params: Option<map<string, string>>, data: Option<Json>,
                                      send1: Request -> Transport, send2: Request -> Transport)
    requires ParseVerb(httpMethod).Err?
    ensures Perform(st, endpoint, httpMethod, params, data, send1) == Perform(st, endpoint, httpMethod, params, data, send2)
    ensures Perform(st, endpoint, httpMethod, params, data, send1)
            == Err(Exception(ValueError, "Unsupported HTTP method: " + httpMethod))
  {
  }

  /** The outcome depends on the session only through the one request it
      is sent, which goes to the built URL. */
  lemma PerformSendsOneRequest(st: ClientState, endpoint: string, httpMethod: string,
                               params: Option<map<string, string>>, data: Option<Json>,
                               send1: Request -> Transport, send2: Request -> Transport)
    requires forall r: Request :: r.url == BuildUrl(st.baseUrl, st.apiVersion, endpoint) ==> send1(r) == send2(r)
    ensures Perform(st, endpoint, httpMethod, params, data, send1) == Perform(st, endpoint, httpMethod, params, data, send2)
  {
  }

  /** The client's GET test: `/test` with a `data` list body returns that
      list. */
  lemma PerformGetExample(headers: map<string, string>, items: seq<Json>, send: Request -> Transport)
    requires send(Request(HttpGet, "https://test-api.doge.gov/v1/test", None, None, 5, headers))
             == Delivered(Response(200, "", Ok(Object([Member("data", Array(items))]))))
    ensures Perform(ClientState("https://test-api.doge.gov", Some("test-api-key"), "v1", 5, 2, headers),
                    "/test", "GET", None, None, send) == Ok(items)
  {
    var st := ClientState("https://test-api.doge.gov", Some("test-api-key"), "v1", 5, 2, headers);
    BuildUrlExample();
    var url := BuildUrl(st.baseUrl, st.apiVersion, "/test");
    assert ParseVerb("GET") == Ok(HttpGet) by {
      assert Upper("GET") == UpperChar('G') + Upper("ET");
    }
    assert Outgoing(st, HttpGet, url, None, None) == Request(HttpGet, "https://test-api.doge.gov/v1/test", None, None, 5, headers);
    var ms := [Member("data", Array(items))];
    assert "data" != "result" by {
      assert |"data"| == 4 && |"result"| == 6;
    }
    assert Get(ms, "result").None? && Get(ms, "data") == Some(Array(items));
    RecordsLegacyData("/test", ms);
    assert NormaliseEndpoint("/test") == "/test" by {
      assert "/test"[..1] == "/";
    }
    DeliveredRecords(url, 5, "/test", 200, "", Object(ms));
  }

  /** The eight data types the client exports. */
  datatype Category = Grants | Contracts | Leases | Departments | Employees | Budget | EfficiencyMetrics | Projects

  /** The endpoint each `get_*_data` requests. */
  function Endpoint(c: Category): string
  {
    match c
    case Grants => "/savings/grants"
    case Contracts => "/savings/contracts"
    case Leases => "/savings/leases"
    case Departments => "/departments"
    case Employees => "/employees"
    case Budget => "/budget"
    case EfficiencyMetrics => "/metrics/efficiency"
    case Projects => "/projects"
  }

  /** The key of the category in `export_all_data`'s result. */
  function ResultKey(c: Category): string
  {
    match c
    case Grants => "grants"
    case Contracts => "contracts"
    case Leases => "leases"
    case Departments => "departments"
    case Employees => "employees"
    case Budget => "budget"
    case EfficiencyMetrics => "efficiency_metrics"
    case Projects => "projects"
  }

  /** The base filename of the category's workbook. */
  function FileStem(c: Category): string
  {
    match c
    case Grants => "grants_savings"
    case Contracts => "contracts_savings"
    case Leases => "leases_savings"
    case Departments => "departments"
    case Employees => "employees"
    case Budget => "budget"
    case EfficiencyMetrics => "efficiency_metrics"
    case Projects => "projects"
  }

  /** The sheet name of the category's workbook. */
  function SheetName(c: Category): string
  {
    match c
    case Grants => "Grant Savings"
    case Contracts => "Contract Savings"
    case Leases => "Lease Savings"
    case Departments => "Departments"
    case Employees => "Employees"
    case Budget => "Budget"
    case EfficiencyMetrics => "Efficiency Metrics"
    case Projects => "Projects"
  }

  /** Every endpoint already has its leading `/`, and different categories
      request different URLs. */
  lemma EndpointsDistinct(st: ClientState, c: Category, d: Category)
    ensures NormaliseEndpoint(Endpoint(c)) == Endpoint(c)
    ensures c != d ==> Endpoint(c) != Endpoint(d)
    ensures c != d ==> BuildUrl(st.baseUrl, st.apiVersion, Endpoint(c)) != BuildUrl(st.baseUrl, st.apiVersion, Endpoint(d))
  {
    assert Endpoint(c)[..1] == "/";
    assert Endpoint(d)[..1] == "/";
    if c != d && BuildUrl(st.baseUrl, st.apiVersion, Endpoint(c)) == BuildUrl(st.baseUrl, st.apiVersion, Endpoint(d)) {
      BuildUrlInjective(st.baseUrl, st.apiVersion, Endpoint(c), Endpoint(d));
    }
  }

  /** Different categories are stored under different keys. */
  lemma ResultKeysDistinct()
    ensures forall c, d :: c != d ==> ResultKey(c) != ResultKey(d)
  {
    forall c, d | c != d
      ensures ResultKey(c) != ResultKey(d)
    {
      if |ResultKey(c)| == |ResultKey(d)| {
        assert ResultKey(c)[0] != ResultKey(d)[0];
      }
    }
  }

  /** The map `export_all_data` fills, one category after another, has
      exactly the eight keys and each category's value under its key. */
  lemma StoredUnderEightKeys(results: map<string, string>, outcome: Category -> string)
    requires results == FilledInOrder(outcome)
    ensures results.Keys == ClientKeys
    ensures forall c :: results[ResultKey(c)] == outcome(c)
  {
    FilledKeys(outcome);
    FilledValues(outcome);
  }

  /** The eight assignments of `export_all_data`, in order. */
  function FilledInOrder(outcome: Category -> string): map<string, string>
  {
    map[][ResultKey(Grants) := outcome(Grants)][ResultKey(Contracts) := outcome(Contracts)]
         [ResultKey(Leases) := outcome(Leases)][ResultKey(Departments) := outcome(Departments)]
         [ResultKey(Employees) := outcome(Employees)][ResultKey(Budget) := outcome(Budget)]
         [ResultKey(EfficiencyMetrics) := outcome(EfficiencyMetrics)][ResultKey(Projects) := outcome(Projects)]
  }

  lemma FilledKeys(outcome: Category -> string)
    ensures FilledInOrder(outcome).Keys == ClientKeys
  {
  }

  lemma FilledValues(outcome: Category -> string)
    ensures forall c :: FilledInOrder(outcome)[ResultKey(c)] == outcome(c)
  {
    ResultKeysDistinct();
  }

  /** `get_*_data(**filters)`: a GET of the category's endpoint with the
      filters as query parameters. */
  function Fetch(st: ClientState, c: Category, filters: map<string, string>, send: Request -> Transport)
    : Result<seq<Json>, Exception>
  {
    Perform(st, Endpoint(c), "GET", Some(filters), None, send)
  }

  /** The request `get_department_data(status="active")` sends. */
  lemma FetchExample(st: ClientState, send: Request -> Transport)
    ensures var filters := map["status" := "active"];
      var url := BuildUrl(st.baseUrl, st.apiVersion, "/departments");
      Fetch(st, Departments, filters, send)
      == Outcome(url, st.timeout, "/departments", send(Request(HttpGet, url, Some(filters), None, st.timeout, st.headers)))
  {
    assert Upper("GET") == UpperChar('G') + Upper("ET");
    assert "/departments"[..1] == "/";
  }

  /** `export_to_excel`: `""` for no data, else `process_data` without
      transformations, then `save_to_excel` with the configured directory
      and timestamp flag. */
  function Exported(cfg: Config.Settings, data: seq<Json>, filename: string, sheet: string,
                    frameOf: seq<Json> -> Table, env: WriteEnv): Result<string, Exception>
  {
    if data == [] then Ok("")
    else
      ProcessedWithoutTransforms(data, frameOf);
      Save(cfg, Processed(data, frameOf, []).value, filename, sheet, None, None, env).result
  }

  /** `process_data` without transformations never raises. */
  lemma ProcessedWithoutTransforms(data: seq<Json>, frameOf: seq<Json> -> Table)
    ensures Processed(data, frameOf, []).Ok?
  {
  }

  /** What one try block of `export_all_data` stores: the export's path,
      or `""` when fetching or exporting raised. */
  function ExportOutcome(st: ClientState, cfg: Config.Settings, c: Category, filters: map<string, string>,
                         send: Request -> Transport, frameOf: seq<Json> -> Table, env: WriteEnv): string
  {
    match Fetch(st, c, filters, send)
    case Err(_) => ""
    case Ok(data) =>
      match Exported(cfg, data, FileStem(c), SheetName(c), frameOf, env)
      case Err(_) => ""
      case Ok(path) => path
  }

  /** A failed fetch stores `""`, an empty fetch too, and a successful
      export its path. */
  lemma ExportOutcomeCases(st: ClientState, cfg: Config.Settings, c: Category, filters: map<string, string>,
                           send: Request -> Transport, frameOf: seq<Json> -> Table, env: WriteEnv)
    ensures Fetch(st, c, filters, send).Err? ==> ExportOutcome(st, cfg, c, filters, send, frameOf, env) == ""
    ensures Fetch(st, c, filters, send) == Ok([]) ==> ExportOutcome(st, cfg, c, filters, send, frameOf, env) == ""
    ensures Fetch(st, c, filters, send).Ok? ==>
      var e := Exported(cfg, Fetch(st, c, filters, send).value, FileStem(c), SheetName(c), frameOf, env);
      ExportOutcome(st, cfg, c, filters, send, frameOf, env) == if e.Ok? then e.value else ""
  {
  }

  /** One category's stored path depends only on the requests to its own
      URL and on its own save: whatever happens to another category leaves
      it as it is. */
  lemma ExportOutcomeIsolated(st: ClientState, cfg: Config.Settings, c: Category, filters: map<string, string>,
                              send1: Request -> Transport, send2: Request -> Transport,
                              frameOf: seq<Json> -> Table, env: WriteEnv)
    requires forall r: Request :: r.url == BuildUrl(st.baseUrl, st.apiVersion, Endpoint(c)) ==> send1(r) == send2(r)
    ensures ExportOutcome(st, cfg, c, filters, send1, frameOf, env) == ExportOutcome(st, cfg, c, filters, send2, frameOf, env)
  {
    PerformSendsOneRequest(st, Endpoint(c), "GET", Some(filters), None, send1, send2);
  }

  /** A session that answers differently only for category `c`'s URL
      changes no other category's outcome. */
  lemma OtherCategoriesUnaffected(st: ClientState, cfg: Config.Settings, c: Category, d: Category,
                                  filters: map<string, string>, send1: Request -> Transport,
                                  send2: Request -> Transport, frameOf: seq<Json> -> Table, env: WriteEnv)
    requires c != d
    requires forall r: Request :: r.url != BuildUrl(st.baseUrl, st.apiVersion, Endpoint(c)) ==> send1(r) == send2(r)
    ensures ExportOutcome(st, cfg, d, filters, send1, frameOf, env) == ExportOutcome(st, cfg, d, filters, send2, frameOf, env)
  {
    EndpointsDistinct(st, c, d);
    ExportOutcomeIsolated(st, cfg, d, filters, send1, send2, frameOf, env);
  }

  /** The eight keys of the client's `export_all_data`. */
  const ClientKeys: set<string> :=
    {"grants", "contracts", "leases", "departments", "employees", "budget", "efficiency_metrics", "projects"}

  class DogeApiClient {
    var baseUrl: string
    var apiKey: Option<string>
    var apiVersion: string
    var timeout: int
    var maxRetries: int
    var headers: map<string, string>

    /** Each argument that is missing or falsy falls back to its setting;
        the `X-Api-Key` header is added exactly when the resolved key is
        truthy. */
    constructor (cfg: Config.Settings, baseUrl: Option<string>, apiKey: Option<string>, apiVersion: Option<string>,
                 timeout: Option<int>, maxRetries: Option<int>)
      ensures this.baseUrl == if Truthy(baseUrl) then baseUrl.value else cfg.apiBaseUrl
      ensures this.apiKey == if Truthy(apiKey) then apiKey else cfg.apiKey
      ensures this.apiVersion == if Truthy(apiVersion) then apiVersion.value else cfg.apiVersion
      ensures this.timeout == if timeout.Some? && timeout.value != 0 then timeout.value else cfg.requestTimeout
      ensures this.maxRetries == if maxRetries.Some? && maxRetries.value != 0 then maxRetries.value
                                 else cfg.requestMaxRetries
      ensures "X-Api-Key" in headers <==> Truthy(this.apiKey)
      ensures "X-Api-Key" in headers ==> headers["X-Api-Key"] == this.apiKey.value
      ensures forall h :: h in headers ==> h == "X-Api-Key"
    {
      this.baseUrl := if Truthy(baseUrl) then baseUrl.value else cfg.apiBaseUrl;
      this.apiKey := if Truthy(apiKey) then apiKey else cfg.apiKey;
      this.apiVersion := if Truthy(apiVersion) then apiVersion.value else cfg.apiVersion;
      this.timeout := if timeout.Some? && timeout.value != 0 then timeout.value else cfg.requestTimeout;
      this.maxRetries := if maxRetries.Some? && maxRetries.value != 0 then maxRetries.value else cfg.requestMaxRetries;
      this.headers := map[];
      new;
      if Truthy(this.apiKey) {
        this.headers := this.headers["X-Api-Key" := this.apiKey.value];
      }
    }

    function State(): ClientState
      reads this
    {
      ClientState(baseUrl, apiKey, apiVersion, timeout, maxRetries, headers)
    }

    /** `export_to_excel`. */
    method ExportToExcel(cfg: Config.Settings, data: seq<Json>, filename: string, sheetName: string,
                         frameOf: seq<Json> -> Table, env: WriteEnv)
      returns (r: Result<string, Exception>)
      ensures r == Exported(cfg, data, filename, sheetName, frameOf, env)
    {
      if |data| == 0 {
        return Ok("");
      }
      ProcessedWithoutTransforms(data, frameOf);
      var processed := ProcessData(data, frameOf, []);
      var df := processed.value;
      ghost var tried;
      r, tried := SaveToExcel(cfg, df, filename, sheetName, None, None, env);
    }

    /** One try block of `export_all_data`: fetch, export, and `""` for any
        exception. */
    method ExportOne(cfg: Config.Settings, c: Category, filters: map<string, string>, send: Request -> Transport,
                     frameOf: seq<Json> -> Table, env: WriteEnv)
      returns (path: string)
      ensures path == ExportOutcome(State(), cfg, c, filters, send, frameOf, env)
    {
      var data := Fetch(State(), c, filters, send);
      if data.Err? {
        return "";
      }
      var r := ExportToExcel(cfg, data.value, FileStem(c), SheetName(c), frameOf, env);
      path := if r.Ok? then r.value else "";
    }

    /** `export_all_data(**filters)`: the eight categories in turn, each
        save with its own file system and clock `envOf(c)`. The result has
        exactly the eight keys, each holding its category's outcome. */
    method ExportAllData(cfg: Config.Settings, filters: map<string, string>, send: Request -> Transport,
                         frameOf: seq<Json> -> Table, envOf: Category -> WriteEnv)
      returns (results: map<string, string>)
      ensures results.Keys == ClientKeys
      ensures forall c: Category :: results[ResultKey(c)] == ExportOutcome(State(), cfg, c, filters, send, frameOf, envOf(c))
    {
      ghost var st := State();
      ghost var outcome := (c: Category) => ExportOutcome(st, cfg, c, filters, send, frameOf, envOf(c));
      results := map[];
      var p := ExportOne(cfg, Grants, filters, send, frameOf, envOf(Grants));
      assert p == outcome(Grants);
      results := results[ResultKey(Grants) := p];
      p := ExportOne(cfg, Contracts, filters, send, frameOf, envOf(Contracts));
      assert p == outcome(Contracts);
      results := results[ResultKey(Contracts) := p];
      p := ExportOne(cfg, Leases, filters, send, frameOf, envOf(Leases));
      assert p == outcome(Leases);
      results := results[ResultKey(Leases) := p];
      p := ExportOne(cfg, Departments, filters, send, frameOf, envOf(Departments));
      assert p == outcome(Departments);
      results := results[ResultKey(Departments) := p];
      p := ExportOne(cfg, Employees, filters, send, frameOf, envOf(Employees));
      assert p == outcome(Employees);
      results := results[ResultKey(Employees) := p];
      p := ExportOne(cfg, Budget, filters, send, frameOf, envOf(Budget));
      assert p == outcome(Budget);
      results := results[ResultKey(Budget) := p];
      p := ExportOne(cfg, EfficiencyMetrics, filters, send, frameOf, envOf(EfficiencyMetrics));
      assert p == outcome(EfficiencyMetrics);
      results := results[ResultKey(EfficiencyMetrics) := p];
      p := ExportOne(cfg, Projects, filters, send, frameOf, envOf(Projects));
      assert p == outcome(Projects);
      results := results[ResultKey(Projects) := p];
      StoredUnderEightKeys(results, outcome);
    }
  }

  /** With `OUTPUT_DIR` set to `test_output`, no timestamp and the engine
      `openpyxl`, `export_to_excel` of a non-empty table writes and returns
      `test_output/test_file.xlsx`. */
  lemma ExportedExample(cfg: Config.Settings, data: seq<Json>, frameOf: seq<Json> -> Table, env: WriteEnv)
    requires cfg.outputDir == "test_output" && !cfg.includeTimestamp && cfg.excelEngine == "openpyxl"
    requires data != [] && !Empty(frameOf(data)) && env.makeDirs("test_output").None?
    requires forall t: Table :: env.excelWrites(t, "test_output/test_file.xlsx", "Test Sheet", "openpyxl")
    ensures Exported(cfg, data, "test_file", "Test Sheet", frameOf, env) == Ok("test_output/test_file.xlsx")
  {
    PathExamples(cfg, env.timestamp);
    ProcessedWithoutTransforms(data, frameOf);
    ProcessedShape(data, frameOf, [], Processed(data, frameOf, []).value);
  }
}
