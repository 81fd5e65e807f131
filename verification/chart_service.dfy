/**
 * The records exchanged with the chart backend and the request builder of
 * the client's chart service. A call is modelled by the request it issues
 * (verb, URL under `/api`, body, timeout); transport, timing and the
 * observable plumbing are outside the model.
 */
module ChartService {
  import opened Wrappers
  import opened Text
  import opened Query

  /** A planet's degree is a JavaScript number that the client only copies. */
  type Degree = int

  datatype Planet = Planet(sign: string, degree: Degree)

  /** One key of the `planets` object as received, in the object's key order. */
  datatype PlanetEntry = PlanetEntry(key: string, planet: Planet)

  /** One line of a rendered planet list. */
  datatype PlanetRow = PlanetRow(name: string, sign: string, degree: Degree)

  /** The planet stored under `key`, if the object has that key. */
  function Lookup(entries: seq<PlanetEntry>, key: string): (r: Option<Planet>)
    ensures r.None? <==> forall i :: 0 <= i < |entries| ==> entries[i].key != key
    ensures r.Some? ==> exists i :: 0 <= i < |entries| && entries[i] == PlanetEntry(key, r.value)
    decreases |entries|
  {
    if |entries| == 0 then None
    else if entries[0].key == key then Some(entries[0].planet)
    else
      var r := Lookup(entries[1..], key);
      assert r.Some? ==> exists i :: 0 <= i < |entries| && entries[i] == PlanetEntry(key, r.value) by {
        if r.Some? {
          var j :| 0 <= j < |entries| - 1 && entries[1..][j] == PlanetEntry(key, r.value);
          assert entries[j + 1] == PlanetEntry(key, r.value);
        }
      }
      r
  }

  /**
   * A chart as the backend sends it. Fields the client reads defensively
   * (`chart.name || ''`, `(chart as any).notes`) are optional.
   */
  datatype Chart = Chart(
    id: string,
    name: Option<string>,
    birthDate: Option<string>,
    birthTime: Option<string>,
    birthLocation: Option<string>,
    sunSign: string,
    moonSign: string,
    risingSign: string,
    planets: Option<seq<PlanetEntry>>,
    notes: Option<string>,
    isPublic: Option<bool>)

  datatype CalculateChartRequest = CalculateChartRequest(
    birthDate: string,
    birthTime: string,
    birthLocation: string,
    notes: Option<string>)

  datatype UpdateChartRequest = UpdateChartRequest(
    name: Option<string>,
    birthDate: Option<string>,
    birthTime: Option<string>,
    birthLocation: Option<string>,
    notes: Option<string>,
    isPublic: Option<bool>)

  /** The update request `{}`: every field absent. */
  const EmptyUpdate := UpdateChartRequest(None, None, None, None, None, None)

  datatype SortOrder = Asc | Desc

  datatype ChartFilters = ChartFilters(
    page: Option<int>,
    limit: Option<int>,
    sunSign: Option<string>,
    moonSign: Option<string>,
    risingSign: Option<string>,
    sortBy: Option<string>,
    sortOrder: Option<SortOrder>,
    isPublic: Option<bool>)

  /** The empty filter object `{}`. */
  const NoFilters := ChartFilters(None, None, None, None, None, None, None, None)

  datatype Verb = Get | Post | Put | Delete

  datatype Body = CalculateBody(calculate: CalculateChartRequest) | UpdateBody(update: UpdateChartRequest)

  /** An HTTP request the client has issued. */
  datatype Request = Request(verb: Verb, url: string, body: Option<Body>, timeoutMs: int)

  /** The effect of a user action or a response on a component: its next state and the request it issued, if any. */
  datatype Step<S> = Step(next: S, sent: Option<Request>)

  /** A failed call; `serverError` is the backend's `error.error` message when there is one. */
  datatype Failure = Failure(serverError: Option<string>)

  /**
   * A single-chart response body: `Enveloped` is `{ data: chart }` with a
   * truthy `data`; `BareChart` is any body whose `data` is absent or falsy,
   * which the client keeps whole as the chart.
   */
  datatype ChartPayload = Enveloped(data: Chart) | BareChart(chart: Chart)

  const ApiUrl := "/api"
  const DefaultTimeoutMs := 5000

  /** The endpoint a request URL targets, or None when it is not under `/api/`. */
  function EndpointOf(url: string): Option<string> {
    if |url| >= 5 && url[..5] == "/api/" then Some(url[5..]) else None
  }

  /**
   * `request(verb, endpoint, body)`: every call targets `/api/` followed by
   * the endpoint unchanged, carries the body only for POST and PUT, and
   * uses the default timeout (no caller passes another one).
   */
  function Issue(verb: Verb, endpoint: string, body: Option<Body>): (r: Request)
    ensures EndpointOf(r.url) == Some(endpoint)
    ensures r.verb == verb
    ensures r.timeoutMs == 5000
    ensures verb == Get || verb == Delete ==> r.body.None?
    ensures verb == Post || verb == Put ==> r.body == body
  {
    var url := ApiUrl + "/" + endpoint;
    assert url[..5] == "/api/" && url[5..] == endpoint;
    match verb
    case Get => Request(Get, url, None, DefaultTimeoutMs)
    case Post => Request(Post, url, body, DefaultTimeoutMs)
    case Put => Request(Put, url, body, DefaultTimeoutMs)
    case Delete => Request(Delete, url, None, DefaultTimeoutMs)
  }

  /** A URL names an endpoint exactly when it is `/api/` followed by that endpoint. */
  lemma EndpointOfIff(url: string, endpoint: string)
    ensures EndpointOf(url) == Some(endpoint) <==> url == "/api/" + endpoint
  {
    if url == "/api/" + endpoint {
      assert url[..5] == "/api/" && url[5..] == endpoint;
    }
    if EndpointOf(url) == Some(endpoint) {
      assert url == url[..5] + url[5..];
    }
  }

  /** The message shown for a failure: the server's own when non-empty, else `fallback`. */
  function ErrorText(f: Failure, fallback: string): (msg: string)
    ensures f.serverError.Some? && f.serverError.value != "" ==> msg == f.serverError.value
    ensures f.serverError.None? || f.serverError.value == "" ==> msg == fallback
  {
    match f.serverError
    case Some(m) => if m != "" then m else fallback
    case None => fallback
  }

  /** `response.data ? response.data : response`: the envelope's chart, or the whole body. */
  function Unwrap(p: ChartPayload): (c: Chart)
    ensures p.Enveloped? ==> c == p.data
    ensures p.BareChart? ==> c == p.chart
  {
    match p
    case Enveloped(c) => c
    case BareChart(c) => c
  }

  function SortOrderText(o: SortOrder): string {
    match o
    case Asc => "asc"
    case Desc => "desc"
  }

  /** `${b}` for a boolean. */
  function BoolText(b: bool): string {
    if b then "true" else "false"
  }

  /** `sunSign` is truthy: present and non-empty. */
  predicate SunSignSet(f: ChartFilters) {
    f.sunSign.Some? && f.sunSign.value != ""
  }

  /** Filters whose free-text values a server reads back verbatim (the client does not percent-encode). */
  predicate PlainFilters(f: ChartFilters) {
    Plain(f.sunSign.GetOr("")) && Plain(f.sortBy.GetOr("createdAt"))
  }

  /** `s` ends with `t`. */
  predicate EndsWith(s: string, t: string) {
    |t| <= |s| && s[|s| - |t|..] == t
  }

  /** `url + "&key=value"`: one more parameter appended to a URL under construction. */
  function AppendParam(url: string, key: string, value: string): (r: string)
    ensures url + "&" <= r
    ensures EndsWith(r, "&" + Render(Param(key, value)))
  {
    url + "&" + key + "=" + value
  }

  /** Appending a parameter keeps every prefix of the URL under construction. */
  lemma AppendKeepsPrefix(p: string, url: string, key: string, value: string)
    requires p <= url
    ensures p <= AppendParam(url, key, value)
  {
    assert url <= AppendParam(url, key, value);
  }

  /**
   * `getChartsWithFilters`: the endpoint as the service concatenates it,
   * `charts?page=..&limit=..&sortBy=..&sortOrder=..`, then `&sunSign=..`
   * when sunSign is truthy, then `&isPublic=..` when isPublic is defined.
   */
  function FiltersEndpoint(f: ChartFilters): (e: string)
    ensures "charts?page=" + IntToDecimal(f.page.GetOr(1)) + "&" <= e
    ensures f.isPublic.Some? ==> EndsWith(e, "&" + Render(Param("isPublic", BoolText(f.isPublic.value))))
    ensures f.isPublic.None? && SunSignSet(f) ==> EndsWith(e, "&" + Render(Param("sunSign", f.sunSign.value)))
    ensures f.isPublic.None? && !SunSignSet(f) ==> EndsWith(e, "&" + Render(Param("sortOrder", SortOrderText(f.sortOrder.GetOr(Desc)))))
  {
    var page := f.page.GetOr(1);
    var limit := f.limit.GetOr(10);
    var sunSign := f.sunSign.GetOr("");
    var sortBy := f.sortBy.GetOr("createdAt");
    var sortOrder := f.sortOrder.GetOr(Desc);
    var start := "charts?page=" + IntToDecimal(page);
    var withLimit := AppendParam(start, "limit", IntToDecimal(limit));
    var withSortBy := AppendParam(withLimit, "sortBy", sortBy);
    AppendKeepsPrefix(start + "&", withLimit, "sortBy", sortBy);
    var base := AppendParam(withSortBy, "sortOrder", SortOrderText(sortOrder));
    AppendKeepsPrefix(start + "&", withSortBy, "sortOrder", SortOrderText(sortOrder));
    var withSun := if sunSign != "" then AppendParam(base, "sunSign", sunSign) else base;
    AppendKeepsPrefix(start + "&", base, "sunSign", sunSign);
    if f.isPublic.Some? then
      AppendKeepsPrefix(start + "&", withSun, "isPublic", BoolText(f.isPublic.value));
      AppendParam(withSun, "isPublic", BoolText(f.isPublic.value))
    else withSun
  }

  /** The four parameters every list query carries, with their defaults. */
  function FixedFilterParams(f: ChartFilters): (ps: seq<Param>)
    ensures |ps| == 4
    ensures ps[0] == Param("page", IntToDecimal(f.page.GetOr(1))) && ParseInt(ps[0].value) == f.page.GetOr(1)
    ensures ps[1] == Param("limit", IntToDecimal(f.limit.GetOr(10))) && ParseInt(ps[1].value) == f.limit.GetOr(10)
    ensures ps[2] == Param("sortBy", f.sortBy.GetOr("createdAt"))
    ensures ps[3] == Param("sortOrder", SortOrderText(f.sortOrder.GetOr(Desc)))
  {
    IntDecimalRoundTrip(f.page.GetOr(1));
    IntDecimalRoundTrip(f.limit.GetOr(10));
    [Param("page", IntToDecimal(f.page.GetOr(1))),
     Param("limit", IntToDecimal(f.limit.GetOr(10))),
     Param("sortBy", f.sortBy.GetOr("createdAt")),
     Param("sortOrder", SortOrderText(f.sortOrder.GetOr(Desc)))]
  }

  function SunSignParams(f: ChartFilters): seq<Param> {
    if SunSignSet(f) then [Param("sunSign", f.sunSign.value)] else []
  }

  function IsPublicParams(f: ChartFilters): seq<Param> {
    if f.isPublic.Some? then [Param("isPublic", BoolText(f.isPublic.value))] else []
  }

  /**
   * The parameters a list query carries, in order: page, limit, sortBy and
   * sortOrder (defaults only for absent fields), then sunSign only when it
   * is non-empty, then isPublic, last, only when it is set.
   */
  function FilterParams(f: ChartFilters): (ps: seq<Param>)
    ensures |ps| == 4 + (if SunSignSet(f) then 1 else 0) + (if f.isPublic.Some? then 1 else 0)
    ensures ps[..4] == FixedFilterParams(f)
    ensures SunSignSet(f) ==> ps[4] == Param("sunSign", f.sunSign.value)
    ensures f.isPublic.Some? ==> ps[|ps| - 1] == Param("isPublic", BoolText(f.isPublic.value))
  {
    FixedFilterParams(f) + SunSignParams(f) + IsPublicParams(f)
  }

  /** The optional parameters are present exactly when their fields are set. */
  lemma FilterParamsKeys(f: ChartFilters)
    ensures HasKey(FilterParams(f), "sunSign") <==> SunSignSet(f)
    ensures HasKey(FilterParams(f), "isPublic") <==> f.isPublic.Some?
  {
    SunSignKey(f);
    IsPublicKey(f);
  }

  lemma SunSignKey(f: ChartFilters)
    ensures HasKey(FilterParams(f), "sunSign") <==> SunSignSet(f)
  {
    var ps := FilterParams(f);
    var fixed := FixedFilterParams(f);
    assert forall i :: 0 <= i < 4 ==> ps[i] == fixed[i];
    if SunSignSet(f) {
      assert ps[4].key == "sunSign";
    } else {
      assert ps == fixed + IsPublicParams(f);
      forall i | 0 <= i < |ps|
        ensures ps[i].key != "sunSign"
      {
        if i >= 4 { assert ps[i].key == "isPublic"; }
      }
    }
  }

  lemma IsPublicKey(f: ChartFilters)
    ensures HasKey(FilterParams(f), "isPublic") <==> f.isPublic.Some?
  {
    var ps := FilterParams(f);
    var fixed := FixedFilterParams(f);
    assert forall i :: 0 <= i < 4 ==> ps[i] == fixed[i];
    if f.isPublic.Some? {
      assert ps[|ps| - 1].key == "isPublic";
    } else {
      assert ps == fixed + SunSignParams(f);
      forall i | 0 <= i < |ps|
        ensures ps[i].key != "isPublic"
      {
        if i >= 4 { assert ps[i].key == "sunSign"; }
      }
    }
  }

  /**
   * The fixed words of both list URLs are plain. The facts are proved in
   * three groups below, each small enough to stay within the verifier's
   * resource limit.
   */
  lemma FixedNamesPlain()
    ensures Plain("charts")
    ensures Plain("page") && Plain("limit") && Plain("sortBy") && Plain("sortOrder")
    ensures Plain("sunSign") && Plain("isPublic")
    ensures Plain("asc") && Plain("desc") && Plain("true") && Plain("false")
  {
    KeysPlain();
    OptionalKeysPlain();
    WordsPlain();
  }

  lemma KeysPlain()
    ensures Plain("charts") && Plain("page") && Plain("limit") && Plain("sortBy") && Plain("sortOrder")
  {
    assert Plain("charts");
    assert Plain("page");
    assert Plain("limit");
    assert Plain("sortBy");
  }

  lemma OptionalKeysPlain()
    ensures Plain("sunSign") && Plain("isPublic")
  {
    assert Plain("sunSign");
  }

  lemma WordsPlain()
    ensures Plain("asc") && Plain("desc") && Plain("true") && Plain("false")
  {
    assert Plain("asc");
    assert Plain("desc");
    assert Plain("true");
  }

  /** Every list parameter is delimiter-free when the filter's free text is. */
  lemma FilterParamsPlain(f: ChartFilters)
    requires PlainFilters(f)
    ensures AllPlain(FilterParams(f))
  {
    IntDecimalPlain(f.page.GetOr(1));
    IntDecimalPlain(f.limit.GetOr(10));
    FixedNamesPlain();
    var ps := FilterParams(f);
    var fixed := FixedFilterParams(f);
    assert ps == fixed + SunSignParams(f) + IsPublicParams(f);
    assert fixed[0] == Param("page", IntToDecimal(f.page.GetOr(1)));
    assert fixed[1] == Param("limit", IntToDecimal(f.limit.GetOr(10)));
    assert Plain(SortOrderText(f.sortOrder.GetOr(Desc)));
    assert Plain(BoolText(f.isPublic.GetOr(false)));
    forall i | 0 <= i < |ps|
      ensures Plain(ps[i].key) && Plain(ps[i].value)
    {
      if i < 4 {
        assert ps[i] == fixed[i];
      }
    }
  }

  /** `getAllChartsWithPagination(page = 1, limit = 10, sunSign = '')`, as concatenated. */
  function PaginationEndpoint(page: Option<int>, limit: Option<int>, sunSign: Option<string>): (e: string)
    ensures "charts?page=" + IntToDecimal(page.GetOr(1)) <= e
    ensures sunSign.GetOr("") != "" ==> EndsWith(e, "&" + Render(Param("sunSign", sunSign.value)))
    ensures sunSign.GetOr("") == "" ==> EndsWith(e, "&" + Render(Param("limit", IntToDecimal(limit.GetOr(10)))))
  {
    var url := AppendParam("charts?page=" + IntToDecimal(page.GetOr(1)), "limit", IntToDecimal(limit.GetOr(10)));
    if sunSign.GetOr("") != "" then AppendParam(url, "sunSign", sunSign.value) else url
  }

  /** The parameters of a paginated query: page and limit with their defaults, then a non-empty sunSign. */
  function PaginationParams(page: Option<int>, limit: Option<int>, sunSign: Option<string>): (ps: seq<Param>)
    ensures |ps| == if sunSign.GetOr("") != "" then 3 else 2
    ensures ps[0] == Param("page", IntToDecimal(page.GetOr(1))) && ParseInt(ps[0].value) == page.GetOr(1)
    ensures ps[1] == Param("limit", IntToDecimal(limit.GetOr(10))) && ParseInt(ps[1].value) == limit.GetOr(10)
    ensures sunSign.GetOr("") != "" ==> ps[2] == Param("sunSign", sunSign.value)
  {
    IntDecimalRoundTrip(page.GetOr(1));
    IntDecimalRoundTrip(limit.GetOr(10));
    var fixed := [Param("page", IntToDecimal(page.GetOr(1))), Param("limit", IntToDecimal(limit.GetOr(10)))];
    if sunSign.GetOr("") != "" then fixed + [Param("sunSign", sunSign.value)] else fixed
  }

  /** The paginated query carries a sunSign parameter exactly when one was given non-empty. */
  lemma PaginationParamsKeys(page: Option<int>, limit: Option<int>, sunSign: Option<string>)
    ensures HasKey(PaginationParams(page, limit, sunSign), "sunSign") <==> sunSign.GetOr("") != ""
  {
    var ps := PaginationParams(page, limit, sunSign);
    if sunSign.GetOr("") != "" {
      assert ps[2].key == "sunSign";
    } else {
      assert forall i :: 0 <= i < |ps| ==> ps[i].key == "page" || ps[i].key == "limit";
    }
  }

  function ChartEndpoint(id: string): string {
    "charts/" + id
  }

  function GetAllCharts(): (r: Request)
    ensures r.verb == Get && EndpointOf(r.url) == Some("charts")
  {
    Issue(Get, "charts", None)
  }

  function GetAllChartsWithPagination(page: Option<int>, limit: Option<int>, sunSign: Option<string>): (r: Request)
    ensures r.verb == Get && EndpointOf(r.url) == Some(PaginationEndpoint(page, limit, sunSign))
  {
    Issue(Get, PaginationEndpoint(page, limit, sunSign), None)
  }

  function GetChartsWithFilters(f: ChartFilters): (r: Request)
    ensures r.verb == Get && EndpointOf(r.url) == Some(FiltersEndpoint(f))
  {
    Issue(Get, FiltersEndpoint(f), None)
  }

  function GetChartById(id: string): (r: Request)
    ensures r.verb == Get && r.body.None?
  {
    Issue(Get, ChartEndpoint(id), None)
  }

  function CalculateChart(req: CalculateChartRequest): (r: Request)
    ensures r.verb == Post && r.body == Some(CalculateBody(req))
    ensures EndpointOf(r.url) == Some("charts/calculate")
  {
    Issue(Post, "charts/calculate", Some(CalculateBody(req)))
  }

  function UpdateChart(id: string, req: UpdateChartRequest): (r: Request)
    ensures r.verb == Put && r.body == Some(UpdateBody(req))
  {
    Issue(Put, ChartEndpoint(id), Some(UpdateBody(req)))
  }

  function DeleteChart(id: string): (r: Request)
    ensures r.verb == Delete && r.body.None?
  {
    Issue(Delete, ChartEndpoint(id), None)
  }

  function InitializeProject(): (r: Request)
    ensures r.verb == Get && EndpointOf(r.url) == Some("init")
  {
    Issue(Get, "init", None)
  }

  // ----- Properties of the request builders -----

  /** Every request URL is `/api/` followed by its endpoint, unchanged. */
  lemma RequestUrl(verb: Verb, endpoint: string, body: Option<Body>)
    ensures Issue(verb, endpoint, body).url == "/api/" + endpoint
  {
    EndpointOfIff(Issue(verb, endpoint, body).url, endpoint);
  }

  /** Get, update and delete of one chart all target `/api/charts/<id>`. */
  lemma ByIdEndpoints(id: string, req: UpdateChartRequest)
    ensures GetChartById(id).url == "/api/charts/" + id
    ensures UpdateChart(id, req).url == "/api/charts/" + id
    ensures DeleteChart(id).url == "/api/charts/" + id
  {
    RequestUrl(Get, ChartEndpoint(id), None);
    RequestUrl(Put, ChartEndpoint(id), Some(UpdateBody(req)));
    RequestUrl(Delete, ChartEndpoint(id), None);
    assert "/api/" + ("charts/" + id) == "/api/charts/" + id;
  }

  lemma {:induction false} JoinSnoc(parts: seq<string>, x: string, c: char)
    requires |parts| >= 1
    ensures Join(parts + [x], c) == Join(parts, c) + [c] + x
    decreases |parts|
  {
    if |parts| == 1 {
      assert (parts + [x])[1..] == [x];
    } else {
      assert (parts + [x])[1..] == parts[1..] + [x];
      JoinSnoc(parts[1..], x, c);
    }
  }

  /** Appending a parameter to a URL extends its parameter list by that parameter. */
  lemma AppendParamUrl(path: string, ps: seq<Param>, key: string, value: string)
    requires |ps| >= 1
    ensures AppendParam(Url(path, ps), key, value) == Url(path, ps + [Param(key, value)])
  {
    var p := Param(key, value);
    assert RenderAll(ps + [p]) == RenderAll(ps) + [Render(p)];
    JoinSnoc(RenderAll(ps), Render(p), '&');
  }

  /** The first parameter: `path?key=value`. */
  lemma FirstParamUrl(key: string, value: string)
    ensures "charts?" + key + "=" + value == Url("charts", [Param(key, value)])
  {
    assert RenderAll([Param(key, value)]) == [Render(Param(key, value))];
  }

  lemma IntDecimalPlain(n: int)
    ensures Plain(IntToDecimal(n))
  {
    var s := IntToDecimal(n);
    forall i | 0 <= i < |s|
      ensures s[i] != '&' && s[i] != '=' && s[i] != '?' && s[i] != '#' && s[i] != '%' && s[i] != '+'
    {
      assert IsDigit(s[i]) || s[i] == '-';
    }
  }

  /** The concatenated list endpoint is the `charts` URL of `FilterParams`. */
  lemma FiltersEndpointIsUrl(f: ChartFilters)
    ensures FiltersEndpoint(f) == Url("charts", FilterParams(f))
  {
    var page := IntToDecimal(f.page.GetOr(1));
    var p0 := Param("page", page);
    var p1 := Param("limit", IntToDecimal(f.limit.GetOr(10)));
    var p2 := Param("sortBy", f.sortBy.GetOr("createdAt"));
    var p3 := Param("sortOrder", SortOrderText(f.sortOrder.GetOr(Desc)));
    var u0 := "charts?page=" + page;
    FirstParamUrl("page", page);
    assert u0 == "charts?" + "page" + "=" + page;
    var u1 := AppendParam(u0, p1.key, p1.value);
    AppendParamUrl("charts", [p0], p1.key, p1.value);
    assert [p0] + [p1] == [p0, p1];
    var u2 := AppendParam(u1, p2.key, p2.value);
    AppendParamUrl("charts", [p0, p1], p2.key, p2.value);
    assert [p0, p1] + [p2] == [p0, p1, p2];
    var u3 := AppendParam(u2, p3.key, p3.value);
    AppendParamUrl("charts", [p0, p1, p2], p3.key, p3.value);
    assert [p0, p1, p2] + [p3] == [p0, p1, p2, p3];
    var fixed := [p0, p1, p2, p3];
    assert fixed == FixedFilterParams(f);
    assert u3 == Url("charts", fixed);
    var withSun := fixed + SunSignParams(f);
    var u4 := if SunSignSet(f) then AppendParam(u3, "sunSign", f.sunSign.value) else u3;
    if SunSignSet(f) {
      AppendParamUrl("charts", fixed, "sunSign", f.sunSign.value);
    } else {
      assert withSun == fixed;
    }
    assert u4 == Url("charts", withSun);
    var u5 := if f.isPublic.Some? then AppendParam(u4, "isPublic", BoolText(f.isPublic.value)) else u4;
    if f.isPublic.Some? {
      AppendParamUrl("charts", withSun, "isPublic", BoolText(f.isPublic.value));
    } else {
      assert withSun + IsPublicParams(f) == withSun;
    }
    assert FilterParams(f) == withSun + IsPublicParams(f);
    assert u5 == Url("charts", FilterParams(f));
    assert FiltersEndpoint(f) == u5;
  }

  /**
   * A server reading the list URL finds the path `charts` and exactly the
   * parameters of `FilterParams`, in that order.
   */
  lemma FiltersQueryRead(f: ChartFilters)
    requires PlainFilters(f)
    ensures ReadUrl(FiltersEndpoint(f)) == ("charts", FilterParams(f))
  {
    FiltersEndpointIsUrl(f);
    FilterParamsPlain(f);
    ReadUrlInverse("charts", FilterParams(f));
  }

  lemma DecimalOneAndTen()
    ensures IntToDecimal(1) == "1" && IntToDecimal(10) == "10"
  {
    assert NatToDecimal(10) == NatToDecimal(1) + [DigitChar(0)];
  }

  /** With no field set, the list query is the documented default one. */
  lemma FiltersDefaults()
    ensures FiltersEndpoint(NoFilters) == "charts?page=1&limit=10&sortBy=createdAt&sortOrder=desc"
  {
    DecimalOneAndTen();
    DefaultQueryText();
  }

  /**
   * The default list query, built one parameter at a time. Each append is
   * its own lemma below, so that no single proof exceeds the verifier's
   * resource limit.
   */
  lemma DefaultQueryText()
    ensures AppendParam(AppendParam(AppendParam("charts?page=1", "limit", "10"), "sortBy", "createdAt"), "sortOrder", "desc")
      == "charts?page=1&limit=10&sortBy=createdAt&sortOrder=desc"
  {
    AppendLimit();
    AppendSortBy();
    AppendSortOrder();
  }

  lemma AppendLimit()
    ensures AppendParam("charts?page=1", "limit", "10") == "charts?page=1&limit=10"
  {
  }

  lemma AppendSortBy()
    ensures AppendParam("charts?page=1&limit=10", "sortBy", "createdAt") == "charts?page=1&limit=10&sortBy=createdAt"
  {
  }

  lemma AppendSortOrder()
    ensures AppendParam("charts?page=1&limit=10&sortBy=createdAt", "sortOrder", "desc")
      == "charts?page=1&limit=10&sortBy=createdAt&sortOrder=desc"
  {
  }

  /**
   * Defaults apply only to absent fields: for every filter, whatever its
   * text, the first parameter a server reads is the page, an explicit one
   * (0 included) or 1 when absent. The page is rendered before any
   * free-text value, so no sunSign or sortBy can disturb it.
   */
  lemma FiltersExplicitPage(f: ChartFilters)
    ensures ReadUrl(FiltersEndpoint(f)).0 == "charts"
    ensures var ps := ReadUrl(FiltersEndpoint(f)).1;
      |ps| >= 1 && ps[0] == Param("page", IntToDecimal(f.page.GetOr(1))) && ParseInt(ps[0].value) == f.page.GetOr(1)
  {
    var d := IntToDecimal(f.page.GetOr(1));
    IntDecimalPlain(f.page.GetOr(1));
    KeysPlain();
    assert "charts" + "?" + Render(Param("page", d)) + "&" == "charts?page=" + d + "&";
    ReadUrlFirstParam(FiltersEndpoint(f), "charts", "page", d);
    IntDecimalRoundTrip(f.page.GetOr(1));
  }

  /** `sunSign` is sent if and only if it is non-empty, and then directly after `sortOrder`. */
  lemma FiltersSunSign(f: ChartFilters)
    requires PlainFilters(f)
    ensures var ps := ReadUrl(FiltersEndpoint(f)).1;
      && (HasKey(ps, "sunSign") <==> SunSignSet(f))
      && (SunSignSet(f) ==> |ps| >= 5 && ps[3].key == "sortOrder" && ps[4] == Param("sunSign", f.sunSign.value))
  {
    FiltersQueryRead(f);
    FilterParamsKeys(f);
    var ps := FilterParams(f);
    assert ps[3] == ps[..4][3] == FixedFilterParams(f)[3];
  }

  /** `isPublic` is sent if and only if it is defined, and then as the last parameter. */
  lemma FiltersIsPublic(f: ChartFilters)
    requires PlainFilters(f)
    ensures var ps := ReadUrl(FiltersEndpoint(f)).1;
      && (HasKey(ps, "isPublic") <==> f.isPublic.Some?)
      && (f.isPublic.Some? ==> |ps| >= 1 && ps[|ps| - 1] == Param("isPublic", BoolText(f.isPublic.value)))
  {
    FiltersQueryRead(f);
    FilterParamsKeys(f);
  }

  /** `moonSign` and `risingSign` never influence the list query. */
  lemma FiltersIgnoreMoonAndRising(f: ChartFilters, moon: Option<string>, rising: Option<string>)
    ensures FiltersEndpoint(f.(moonSign := moon, risingSign := rising)) == FiltersEndpoint(f)
  {
  }

  lemma PaginationEndpointIsUrl(page: Option<int>, limit: Option<int>, sunSign: Option<string>)
    ensures PaginationEndpoint(page, limit, sunSign) == Url("charts", PaginationParams(page, limit, sunSign))
  {
    var pageText := IntToDecimal(page.GetOr(1));
    var p0 := Param("page", pageText);
    var p1 := Param("limit", IntToDecimal(limit.GetOr(10)));
    FirstParamUrl("page", pageText);
    assert "charts?page=" + pageText == "charts?" + "page" + "=" + pageText;
    AppendParamUrl("charts", [p0], p1.key, p1.value);
    if sunSign.GetOr("") != "" {
      AppendParamUrl("charts", [p0, p1], "sunSign", sunSign.value);
    }
  }

  lemma PaginationParamsPlain(page: Option<int>, limit: Option<int>, sunSign: Option<string>)
    requires Plain(sunSign.GetOr(""))
    ensures AllPlain(PaginationParams(page, limit, sunSign))
  {
    IntDecimalPlain(page.GetOr(1));
    IntDecimalPlain(limit.GetOr(10));
    FixedNamesPlain();
    var ps := PaginationParams(page, limit, sunSign);
    assert ps[0] == Param("page", IntToDecimal(page.GetOr(1)));
    assert ps[1] == Param("limit", IntToDecimal(limit.GetOr(10)));
  }

  /**
   * A server reading the paginated URL finds page and limit (1 and 10 when
   * absent) and a sunSign parameter exactly when one was given non-empty.
   */
  lemma PaginationQueryRead(page: Option<int>, limit: Option<int>, sunSign: Option<string>)
    requires Plain(sunSign.GetOr(""))
    ensures ReadUrl(PaginationEndpoint(page, limit, sunSign)) == ("charts", PaginationParams(page, limit, sunSign))
    ensures HasKey(ReadUrl(PaginationEndpoint(page, limit, sunSign)).1, "sunSign") <==> sunSign.GetOr("") != ""
  {
    PaginationEndpointIsUrl(page, limit, sunSign);
    PaginationParamsPlain(page, limit, sunSign);
    FixedNamesPlain();
    ReadUrlInverse("charts", PaginationParams(page, limit, sunSign));
    PaginationParamsKeys(page, limit, sunSign);
  }

  /** With no argument, the paginated query is `charts?page=1&limit=10`. */
  lemma PaginationDefaults()
    ensures PaginationEndpoint(None, None, None) == "charts?page=1&limit=10"
  {
    DecimalOneAndTen();
  }
}
