/**
 * The chart browser page: filter and pagination state, the list request it
 * issues, and how it absorbs list responses and failures. Each user action
 * or completed call is a pure transition of `BrowserState`.
 */
module ChartBrowser {
  import opened Wrappers
  import opened ChartService

  datatype BrowserState = BrowserState(
    charts: seq<Chart>,
    totalCharts: int,
    isLoading: bool,
    error: Option<string>,
    filters: ChartFilters)

  /**
   * A list response body: `null`, a bare array of charts, or an envelope
   * `{ data: [...], total? }` (an array is truthy even when empty).
   */
  datatype ListResponse = NullBody | BareList(items: seq<Chart>) | Envelope(data: seq<Chart>, total: Option<int>)

  /** A list response normalised to `{ data, total }`. */
  datatype Listing = Listing(data: seq<Chart>, total: int)

  const InitialFilters := ChartFilters(Some(1), Some(10), Some(""), Some(""), Some(""), Some("name"), Some(Asc), None)
  const DefaultFilters := ChartFilters(Some(1), Some(10), Some(""), Some(""), Some(""), Some("createdAt"), Some(Desc), None)
  const Initial := BrowserState([], 0, false, None, InitialFilters)

  const LoadFailed := "Failed to load charts. Please try again."
  const DeleteFailed := "Failed to delete chart. Please try again."

  /** `currentPage`: the filter's page when it is truthy (set and non-zero), otherwise 1. */
  function CurrentPage(s: BrowserState): (p: int)
    ensures p != 0
    ensures s.filters.page.Some? && s.filters.page.value != 0 ==> p == s.filters.page.value
    ensures s.filters.page.None? || s.filters.page.value == 0 ==> p == 1
  {
    match s.filters.page
    case Some(n) => if n != 0 then n else 1
    case None => 1
  }

  /** The `currentPage` setter: stores the page in the filters. */
  function SetCurrentPage(s: BrowserState, v: int): (r: BrowserState)
    ensures r.filters.page == Some(v)
    ensures r.filters.(page := s.filters.page) == s.filters
    ensures r.(filters := s.filters) == s
  {
    s.(filters := s.filters.(page := Some(v)))
  }

  /** `Math.ceil(a / b)` for integers. */
  function CeilDiv(a: int, b: int): (q: int)
    requires b != 0
    ensures b > 0 ==> (q - 1) * b < a <= q * b
    ensures b < 0 ==> q * b <= a < (q - 1) * b
  {
    if b > 0 then
      var d := (-a) / b;
      assert -a == d * b + (-a) % b;
      -d
    else
      var d := a / (-b);
      assert a == d * (-b) + a % (-b);
      -d
  }

  /** `totalPages`: 1 when the limit is absent or 0, otherwise the ceiling of total over limit (for either sign of the limit). */
  function TotalPages(s: BrowserState): (n: int)
    ensures s.filters.limit.None? || s.filters.limit.value == 0 ==> n == 1
    ensures s.filters.limit.Some? && s.filters.limit.value > 0 ==>
      (n - 1) * s.filters.limit.value < s.totalCharts <= n * s.filters.limit.value
    ensures s.filters.limit.Some? && s.filters.limit.value < 0 ==>
      n * s.filters.limit.value <= s.totalCharts < (n - 1) * s.filters.limit.value
  {
    match s.filters.limit
    case Some(l) => if l != 0 then CeilDiv(s.totalCharts, l) else 1
    case None => 1
  }

  /** `loadCharts`: mark loading, clear the error, request the list for the current filters. */
  function LoadCharts(s: BrowserState): (r: Step<BrowserState>)
    ensures r.sent == Some(GetChartsWithFilters(s.filters))
    ensures r.next.isLoading && r.next.error.None?
    ensures r.next.charts == s.charts && r.next.totalCharts == s.totalCharts && r.next.filters == s.filters
  {
    Step(s.(isLoading := true, error := None), Some(GetChartsWithFilters(s.filters)))
  }

  /** `ngOnInit`: the page opens by loading the first page with the initial filters. */
  function OnInit(): (r: Step<BrowserState>)
    ensures r.sent == Some(GetChartsWithFilters(InitialFilters))
    ensures r.next == Initial.(isLoading := true, error := None)
  {
    LoadCharts(Initial)
  }

  /** The envelope test `response.data ? response : { data: response }`; None when `response` is null (the access throws). */
  function Normalize(resp: ListResponse): (r: Option<Listing>)
    ensures r.None? <==> resp.NullBody?
    ensures resp.BareList? ==> r == Some(Listing(resp.items, 0))
    ensures resp.Envelope? ==> r == Some(Listing(resp.data, resp.total.GetOr(0)))
  {
    match resp
    case NullBody => None
    case BareList(items) => Some(Listing(items, 0))
    case Envelope(data, total) => Some(Listing(data, total.GetOr(0)))
  }

  /** `handleError`: the server's message or the fallback; the list is left as it was. */
  function HandleError(s: BrowserState, f: Failure): (r: BrowserState)
    ensures r.charts == s.charts && r.totalCharts == s.totalCharts && r.filters == s.filters
    ensures !r.isLoading
    ensures r.error == Some(ErrorText(f, LoadFailed)) && r.error.value != ""
  {
    s.(error := Some(ErrorText(f, LoadFailed)), isLoading := false)
  }

  /**
   * `handleChartsResponse`: a normalised response replaces the list and the
   * total; a null body throws inside the handler's `try` and is reported
   * through `handleError` with the fallback message.
   */
  function HandleChartsResponse(s: BrowserState, resp: ListResponse): (r: BrowserState)
    ensures !r.isLoading && r.filters == s.filters
    ensures resp.NullBody? ==> r == HandleError(s, Failure(None))
    ensures resp.BareList? ==> r.charts == resp.items && r.totalCharts == 0 && r.error == s.error
    ensures resp.Envelope? ==> r.charts == resp.data && r.totalCharts == resp.total.GetOr(0) && r.error == s.error
  {
    match Normalize(resp)
    case None => HandleError(s, Failure(None))
    case Some(listing) => s.(charts := listing.data, totalCharts := listing.total, isLoading := false)
  }

  /** `onFilterChange`: back to page 1 with every other filter kept, then reload. */
  function OnFilterChange(s: BrowserState): (r: Step<BrowserState>)
    ensures r.next.filters == s.filters.(page := Some(1))
    ensures CurrentPage(r.next) == 1
    ensures r.sent == Some(GetChartsWithFilters(r.next.filters))
    ensures r.next == s.(filters := s.filters.(page := Some(1)), isLoading := true, error := None)
  {
    LoadCharts(SetCurrentPage(s, 1))
  }

  /** `resetFilters`: the default filters (newest first), then reload. */
  function ResetFilters(s: BrowserState): (r: Step<BrowserState>)
    ensures r.next.filters == DefaultFilters
    ensures r.sent == Some(GetChartsWithFilters(DefaultFilters))
    ensures r.next == s.(filters := DefaultFilters, isLoading := true, error := None)
  {
    LoadCharts(s.(filters := DefaultFilters))
  }

  /** `nextPage`: advance and reload only while the current page is below the page count. */
  function NextPage(s: BrowserState): (r: Step<BrowserState>)
    ensures r.sent.Some? <==> CurrentPage(s) < TotalPages(s)
    ensures r.sent.None? ==> r.next == s
    ensures r.sent.Some? ==> r.next.filters == s.filters.(page := Some(CurrentPage(s) + 1))
    ensures r.sent.Some? ==> r.sent == Some(GetChartsWithFilters(r.next.filters))
    ensures r.sent.Some? ==> r.next == s.(filters := s.filters.(page := Some(CurrentPage(s) + 1)), isLoading := true, error := None)
  {
    if CurrentPage(s) < TotalPages(s) then LoadCharts(SetCurrentPage(s, CurrentPage(s) + 1))
    else Step(s, None)
  }

  /** `previousPage`: step back and reload only while the current page is above 1. */
  function PreviousPage(s: BrowserState): (r: Step<BrowserState>)
    ensures r.sent.Some? <==> CurrentPage(s) > 1
    ensures r.sent.None? ==> r.next == s
    ensures r.sent.Some? ==> r.next.filters == s.filters.(page := Some(CurrentPage(s) - 1))
    ensures r.sent.Some? ==> r.sent == Some(GetChartsWithFilters(r.next.filters))
    ensures r.sent.Some? ==> r.next == s.(filters := s.filters.(page := Some(CurrentPage(s) - 1)), isLoading := true, error := None)
  {
    if CurrentPage(s) > 1 then LoadCharts(SetCurrentPage(s, CurrentPage(s) - 1))
    else Step(s, None)
  }

  /** `deleteChart`: `confirmed` is the answer to the confirmation dialog. */
  function DeleteChart(s: BrowserState, chartId: string, confirmed: bool): (r: Step<BrowserState>)
    ensures r.next == s
    ensures r.sent.Some? <==> confirmed
    ensures confirmed ==> r.sent == Some(ChartService.DeleteChart(chartId))
  {
    if !confirmed then Step(s, None) else Step(s, Some(ChartService.DeleteChart(chartId)))
  }

  /** A successful delete reloads the current page. */
  function OnDeleteSucceeded(s: BrowserState): (r: Step<BrowserState>)
    ensures r.sent == Some(GetChartsWithFilters(s.filters))
    ensures r.next == s.(isLoading := true, error := None)
  {
    LoadCharts(s)
  }

  /** A failed delete reports the error and changes nothing else. */
  function OnDeleteFailed(s: BrowserState, f: Failure): (r: BrowserState)
    ensures r == s.(error := Some(ErrorText(f, DeleteFailed)))
  {
    s.(error := Some(ErrorText(f, DeleteFailed)))
  }

  /** `retryLoadCharts`. */
  function RetryLoadCharts(s: BrowserState): (r: Step<BrowserState>)
    ensures r.sent == Some(GetChartsWithFilters(s.filters))
    ensures r.next == s.(isLoading := true, error := None)
  {
    LoadCharts(s)
  }

  // ----- The page-range invariant -----

  /** The current page lies in `[1, max(1, totalPages)]`. */
  predicate PageInRange(s: BrowserState) {
    1 <= CurrentPage(s) && (CurrentPage(s) == 1 || CurrentPage(s) <= TotalPages(s))
  }

  lemma InitialInRange()
    ensures PageInRange(Initial)
    ensures PageInRange(OnInit().next)
  {
  }

  /** Page navigation keeps the page in range, and every request it issues asks for an in-range page. */
  lemma NavigationKeepsRange(s: BrowserState)
    requires PageInRange(s)
    ensures PageInRange(NextPage(s).next) && PageInRange(PreviousPage(s).next)
    ensures NextPage(s).sent.Some? ==> CurrentPage(NextPage(s).next) == CurrentPage(s) + 1 <= TotalPages(s)
    ensures PreviousPage(s).sent.Some? ==> 1 <= CurrentPage(PreviousPage(s).next) == CurrentPage(s) - 1
  {
  }

  /** Filter changes, resets, reloads and failures keep the page in range. */
  lemma OtherActionsKeepRange(s: BrowserState, f: Failure, id: string, confirmed: bool)
    requires PageInRange(s)
    ensures PageInRange(OnFilterChange(s).next)
    ensures PageInRange(ResetFilters(s).next)
    ensures PageInRange(RetryLoadCharts(s).next)
    ensures PageInRange(OnDeleteSucceeded(s).next)
    ensures PageInRange(HandleError(s, f))
    ensures PageInRange(DeleteChart(s, id, confirmed).next)
    ensures PageInRange(OnDeleteFailed(s, f))
  {
  }

  /**
   * A response is not clamped against the page: a total that shrinks under
   * the current page (after a delete elsewhere, say) leaves it out of range.
   */
  lemma ShrinkingTotalLeavesRange()
    ensures var s := Initial.(filters := InitialFilters.(page := Some(3)), totalCharts := 25);
      PageInRange(s) && !PageInRange(HandleChartsResponse(s, Envelope([], Some(5))))
  {
  }

  /** Setting the page and reading it back agree, except that page 0 reads as 1. */
  lemma SetThenReadPage(s: BrowserState, v: int)
    ensures CurrentPage(SetCurrentPage(s, v)) == (if v != 0 then v else 1)
  {
  }

  /** A bare list is read as the envelope `{ data: response, total: 0 }`. */
  lemma BareListIsEnvelope(s: BrowserState, items: seq<Chart>)
    ensures HandleChartsResponse(s, BareList(items)) == HandleChartsResponse(s, Envelope(items, None))
    ensures HandleChartsResponse(s, BareList(items)) == HandleChartsResponse(s, Envelope(items, Some(0)))
  {
  }

  /** With limit 10: 25 charts make 3 pages, none make 0, and on page 3 `nextPage` does nothing. */
  lemma PagingScenario()
    ensures TotalPages(Initial.(totalCharts := 25)) == 3
    ensures TotalPages(Initial.(totalCharts := 0)) == 0
    ensures var s := Initial.(totalCharts := 25, filters := InitialFilters.(page := Some(3)));
      NextPage(s) == Step(s, None)
  {
  }

  /** A page 0 filter is read as page 1 both by the page counter and by navigation. */
  lemma ZeroPageReadsAsOne(s: BrowserState)
    requires s.filters.page == Some(0)
    ensures CurrentPage(s) == 1
    ensures PreviousPage(s).sent.None?
  {
  }
}
