# Astrology chart client — a Dafny model of its pure logic

The web client browses, calculates and edits astrology charts against a REST
backend. This project models the parts of it that are plain, sequential
logic, and proves what they do:

- **Chart service** (`ChartService`, with `Query` and `Text` underneath): how a
  call becomes a request under `/api/`, how the two list queries are
  concatenated from an optional-field filter record (defaults, conditional
  parameters, fixed order), and the per-chart endpoints. Each query builder
  is paired with an independent reader (`Query.ReadUrl` splits on `?`, `&`
  and `=`; `Text.ParseInt` reads page and limit back as integers). It is proved that a server reading the URL gets
  exactly the intended parameters, in order, as long as the free-text
  filter values hold none of `&`, `=`, `?`, `#`, `%` and `+`. The client
  does not percent-encode, so those characters would be misread.
- **Chart browser** (`ChartBrowser`): the `currentPage` / `totalPages`
  getters, guarded next/previous navigation, the page reset on a filter
  change, the filter reset, list-response normalisation, error handling and
  the delete confirmation guard. The page-range invariant
  `1 <= currentPage <= max(1, totalPages)` is preserved by every modelled
  action: next and previous page, a filter change, the filter reset, retry,
  the delete request, the reload after a delete, and the failure handlers.
  A response that shrinks the total can break it
  (`ShrinkingTotalLeavesRange`), and so can a limit edited in the template
  without a call to `onFilterChange`.
- **Chart editor** (`UpdateChart`): filling the form from a loaded chart
  (date cut at the first `T`, `''` for missing strings, `false` for a missing
  visibility flag), the original/current snapshot, reset, the birth-data
  change detector and the missing-id guard.
- **Chart calculator** (`ChartCalculator`): per-field error display, the
  submit guard, the request body (birth data only), and the fixed
  five-planet list.
- **Chart card** (`ChartCard`): the ids it emits and the planet-object
  flattening with capitalised names.

Every user action and every completed call is a pure function from a
component state to its next state. When the action issues an HTTP request,
it returns `Step(next, sent)`, and `sent` is the request value
(`ChartService.Request`: verb, URL, body, timeout). A completed call is a
separate function that takes the response or the `Failure` as a parameter.
JavaScript truthiness is written out: `x || d` and `if (x)` treat an absent
value, `0` and `''` as false. JavaScript numbers are `int`. An optional
field is `Option`.

Two behaviours of the code worth knowing:
- The calculator's `onSubmit` does not read the in-flight flag: if it is
  called on a valid form while a request is pending, it posts again
  (`SubmitWhileLoading`). Whether the page lets a second submit through
  depends on the template, which is not modelled.
- The calculate request never carries `notes`, although the request type
  allows it (`NotesNeverSent`).

## Model

| member | source | states |
|---|---|---|
| ChartService.Issue | frontend/src/app/services/chart.service.ts:63-83 | every request targets `/api/` + the endpoint, keeps the verb, sends a body only for POST and PUT, and uses the 5000 ms default timeout |
| ChartService.RequestUrl | frontend/src/app/services/chart.service.ts:69 | the request URL is exactly `/api/` followed by the endpoint, unchanged |
| ChartService.EndpointOfIff | frontend/src/app/services/chart.service.ts:69 | a URL names an endpoint if and only if it is `/api/` followed by that endpoint |
| ChartService.ErrorText | frontend/src/app/pages/chart-browser/chart-browser.component.ts:87 | the shown error is the server's non-empty message, otherwise the page's fixed fallback |
| ChartService.FiltersEndpoint | frontend/src/app/services/chart.service.ts:117-120 | the concatenated list endpoint starts `charts?page=<page>` and ends with `&isPublic=..` when isPublic is defined, else with `&sunSign=..` when sunSign is non-empty, else with `&sortOrder=..` |
| ChartService.FilterParams | frontend/src/app/services/chart.service.ts:108-120 | list parameters in order page, limit, sortBy, sortOrder (defaults 1, 10, createdAt, desc only for absent fields), then sunSign when non-empty, then isPublic last when defined; page and limit read back as the given numbers |
| ChartService.FilterParamsKeys | frontend/src/app/services/chart.service.ts:119-120 | a sunSign parameter exists iff sunSign is non-empty; an isPublic parameter exists iff isPublic is defined |
| ChartService.FiltersEndpointIsUrl | frontend/src/app/services/chart.service.ts:117-120 | the concatenated list endpoint equals the `charts` URL of the parameter list |
| ChartService.FiltersQueryRead | frontend/src/app/services/chart.service.ts:107-122 | a server reading the list URL finds path `charts` and exactly the parameter list, in order |
| ChartService.FiltersDefaults | frontend/src/app/services/chart.service.ts:108-117 | with no field set the endpoint is `charts?page=1&limit=10&sortBy=createdAt&sortOrder=desc` |
| ChartService.FiltersExplicitPage | frontend/src/app/services/chart.service.ts:109 | for any filters, whatever their text: the URL's path is `charts` and its first parameter is `page`, holding the explicit page (0 included) or 1 when absent, and it reads back as that number |
| ChartService.FiltersSunSign | frontend/src/app/services/chart.service.ts:117-119 | for filter text free of `&`, `=`, `?`, `#`, `%` and `+`: the URL carries sunSign iff it is non-empty, and then directly after sortOrder |
| ChartService.FiltersIsPublic | frontend/src/app/services/chart.service.ts:120 | for filter text free of `&`, `=`, `?`, `#`, `%` and `+`: the URL carries isPublic iff it is defined, and then as the last parameter |
| ChartService.FiltersIgnoreMoonAndRising | frontend/src/app/services/chart.service.ts:108-122 | moonSign and risingSign never change the list endpoint |
| ChartService.PaginationEndpoint | frontend/src/app/services/chart.service.ts:94-98 | the concatenated paginated endpoint starts `charts?page=<page>` and ends with `&sunSign=..` when sunSign is non-empty, else with `&limit=..` |
| ChartService.PaginationParams | frontend/src/app/services/chart.service.ts:94-98 | paginated parameters: page and limit (1 and 10 when absent), then sunSign only when non-empty |
| ChartService.PaginationParamsKeys | frontend/src/app/services/chart.service.ts:96-98 | the paginated parameters hold a sunSign iff a non-empty one was given |
| ChartService.PaginationQueryRead | frontend/src/app/services/chart.service.ts:94-99 | a server reading the paginated URL gets path `charts` and exactly those parameters |
| ChartService.PaginationDefaults | frontend/src/app/services/chart.service.ts:94-95 | with no argument the endpoint is `charts?page=1&limit=10` |
| ChartService.ByIdEndpoints | frontend/src/app/services/chart.service.ts:125-139 | get, update and delete of one chart all target `/api/charts/` + id |
| ChartService.GetAllCharts | frontend/src/app/services/chart.service.ts:85-87 | a GET of endpoint `charts` |
| ChartService.GetAllChartsWithPagination | frontend/src/app/services/chart.service.ts:94-100 | a GET of the paginated endpoint |
| ChartService.GetChartsWithFilters | frontend/src/app/services/chart.service.ts:107-123 | a GET of the filtered list endpoint |
| ChartService.GetChartById | frontend/src/app/services/chart.service.ts:125-127 | a GET without body |
| ChartService.CalculateChart | frontend/src/app/services/chart.service.ts:129-131 | a POST to `charts/calculate` carrying the request as body |
| ChartService.UpdateChart | frontend/src/app/services/chart.service.ts:133-135 | a PUT carrying the update as body |
| ChartService.DeleteChart | frontend/src/app/services/chart.service.ts:137-139 | a DELETE without body |
| ChartService.InitializeProject | frontend/src/app/services/chart.service.ts:141-143 | a GET of endpoint `init` |
| ChartService.Unwrap | frontend/src/app/pages/update-chart/update-chart.component.ts:59 | `response.data ? response.data : response`: an envelope with truthy `data` yields that chart, any other body is kept whole |
| ChartService.Lookup | frontend/src/app/pages/chart-calculator/chart-calculator.component.ts:82-86 | property access on the planets object: absent iff no entry has the key, else the planet of an entry with that key |
| Text.IntToDecimal | frontend/src/app/services/chart.service.ts:117 | `${n}` of an integer is canonical decimal: digits only after the first character, a leading minus exactly for negatives, no leading zero except in `0` itself |
| Text.IntDecimalRoundTrip | frontend/src/app/services/chart.service.ts:117 | reading a rendered integer back gives the integer |
| Text.Split | frontend/src/app/pages/update-chart/update-chart.component.ts:79 | `split` yields at least one part and no part holds the separator |
| Text.JoinSplit | frontend/src/app/pages/update-chart/update-chart.component.ts:79 | joining the parts of a split gives back the input |
| Text.SplitJoin | frontend/src/app/services/chart.service.ts:117-120 | splitting a join of separator-free parts gives back the parts |
| Text.SplitHead | frontend/src/app/pages/update-chart/update-chart.component.ts:79 | `split(c)[0]` is a prefix that is all of the input or stops right before the first `c` |
| Query.DecodeEncode | frontend/src/app/services/chart.service.ts:117-120 | decoding `k=v&...` of delimiter-free parameters gives the parameters back |
| Query.ReadUrlInverse | frontend/src/app/services/chart.service.ts:117-120 | reading `path?query` gives the path and the parameters back |
| ChartBrowser.CurrentPage | frontend/src/app/pages/chart-browser/chart-browser.component.ts:36-38 | the filter's page when set and non-zero, otherwise 1; never 0 |
| ChartBrowser.SetCurrentPage | frontend/src/app/pages/chart-browser/chart-browser.component.ts:40-44 | the setter stores the page and changes no other filter field and nothing else in the state |
| ChartBrowser.SetThenReadPage | frontend/src/app/pages/chart-browser/chart-browser.component.ts:40-44 | setting the page and reading it back agree, except that 0 reads as 1 |
| ChartBrowser.CeilDiv | frontend/src/app/pages/chart-browser/chart-browser.component.ts:48 | `Math.ceil(a/b)`: the least q with a <= q*b for positive b (mirrored for negative b) |
| ChartBrowser.TotalPages | frontend/src/app/pages/chart-browser/chart-browser.component.ts:46-49 | 1 when limit is absent or 0; otherwise `Math.ceil(total/limit)`, characterised by its bounds for a positive and for a negative limit |
| ChartBrowser.LoadCharts | frontend/src/app/pages/chart-browser/chart-browser.component.ts:57-69 | loading starts, the error clears, the list for the current filters is requested, list and total stay |
| ChartBrowser.OnInit | frontend/src/app/pages/chart-browser/chart-browser.component.ts:53-55 | opening the page requests the list for the initial filters; the state is the initial one with loading started and no error |
| ChartBrowser.HandleError | frontend/src/app/pages/chart-browser/chart-browser.component.ts:85-89 | list, total and filters untouched, loading ends, error is server message or fallback |
| ChartBrowser.Normalize | frontend/src/app/pages/chart-browser/chart-browser.component.ts:73-76 | a null body has no listing (the access throws); a bare list reads as `{data: list, total: 0}`; an envelope keeps its data and its total, 0 when absent |
| ChartBrowser.HandleChartsResponse | frontend/src/app/pages/chart-browser/chart-browser.component.ts:71-83 | an envelope sets charts to data and total to total or 0; a bare list sets charts and total 0; a null body goes to the error path; loading ends |
| ChartBrowser.BareListIsEnvelope | frontend/src/app/pages/chart-browser/chart-browser.component.ts:73-76 | a bare list is handled as the envelope `{data: list}` without total, and as one with total 0 |
| ChartBrowser.OnFilterChange | frontend/src/app/pages/chart-browser/chart-browser.component.ts:91-94 | page becomes 1, every other filter field is kept, loading starts, the error clears, list and total are kept, and the list is requested |
| ChartBrowser.ResetFilters | frontend/src/app/pages/chart-browser/chart-browser.component.ts:96-107 | filters become page 1, limit 10, empty signs, createdAt/desc; loading starts, the error clears, list and total are kept, and the list is requested |
| ChartBrowser.NextPage | frontend/src/app/pages/chart-browser/chart-browser.component.ts:109-114 | a request is issued iff currentPage < totalPages; then the page is page+1, loading starts, the error clears and nothing else changes; otherwise nothing changes |
| ChartBrowser.PreviousPage | frontend/src/app/pages/chart-browser/chart-browser.component.ts:116-121 | a request is issued iff currentPage > 1; then the page is page-1, loading starts, the error clears and nothing else changes; otherwise nothing changes |
| ChartBrowser.DeleteChart | frontend/src/app/pages/chart-browser/chart-browser.component.ts:123-128 | a DELETE is issued iff the confirmation was accepted; state is unchanged either way |
| ChartBrowser.OnDeleteSucceeded | frontend/src/app/pages/chart-browser/chart-browser.component.ts:129-131 | a successful delete reloads the current page: loading starts, the error clears, nothing else changes |
| ChartBrowser.OnDeleteFailed | frontend/src/app/pages/chart-browser/chart-browser.component.ts:132-135 | a failed delete only sets the error message |
| ChartBrowser.RetryLoadCharts | frontend/src/app/pages/chart-browser/chart-browser.component.ts:143-145 | retry requests the list for the current filters; loading starts, the error clears, nothing else changes |
| ChartBrowser.InitialInRange | frontend/src/app/pages/chart-browser/chart-browser.component.ts:23-31 | the initial filters satisfy the page-range invariant |
| ChartBrowser.NavigationKeepsRange | frontend/src/app/pages/chart-browser/chart-browser.component.ts:109-121 | next/previous keep the page in `[1, max(1, totalPages)]` and move it by exactly one when they act |
| ChartBrowser.OtherActionsKeepRange | frontend/src/app/pages/chart-browser/chart-browser.component.ts:85-107 | filter change, reset, retry, the reload after a delete, failures and the delete request keep the page in range |
| ChartBrowser.ShrinkingTotalLeavesRange | frontend/src/app/pages/chart-browser/chart-browser.component.ts:71-79 | a response is not clamped: a smaller total can leave the page above totalPages |
| ChartBrowser.PagingScenario | frontend/src/app/pages/chart-browser/chart-browser.component.ts:46-49 | limit 10: total 25 gives 3 pages, total 0 gives 0, and nextPage on page 3 is a no-op |
| ChartBrowser.ZeroPageReadsAsOne | frontend/src/app/pages/chart-browser/chart-browser.component.ts:36-38 | a page of 0 reads as page 1, so previousPage does nothing |
| UpdateChart.TextOr | frontend/src/app/pages/update-chart/update-chart.component.ts:78 | `value \|\| ''`: the value when present, else the empty string |
| UpdateChart.DatePart | frontend/src/app/pages/update-chart/update-chart.component.ts:79 | the form date is the prefix of the chart date before its first `T`, or `''` when absent |
| UpdateChart.DatePartOfTimestamp | frontend/src/app/pages/update-chart/update-chart.component.ts:79 | a `date` + `T` + `time` value keeps exactly the date |
| UpdateChart.FormFromChart | frontend/src/app/pages/update-chart/update-chart.component.ts:77-84 | missing strings become `''`, the date is cut at `T`, a missing isPublic becomes false |
| UpdateChart.InitializeForm | frontend/src/app/pages/update-chart/update-chart.component.ts:75-88 | with a chart: form filled, snapshot equal to it, nothing else changed; without: state unchanged |
| UpdateChart.OnRouteParams | frontend/src/app/pages/update-chart/update-chart.component.ts:41-48 | the route id is stored; a non-empty id also starts loading, clears the error and requests the chart; nothing else changes |
| UpdateChart.LoadChart | frontend/src/app/pages/update-chart/update-chart.component.ts:53-57 | loading starts, error clears, nothing else changes, the chart is requested by id |
| UpdateChart.OnChartLoaded | frontend/src/app/pages/update-chart/update-chart.component.ts:58-63 | the unwrapped chart is stored, the form and snapshot are filled from it, loading ends, nothing else changes |
| UpdateChart.OnLoadFailed | frontend/src/app/pages/update-chart/update-chart.component.ts:64-68 | error set to server message or fallback, loading ends |
| UpdateChart.UpdateChart | frontend/src/app/pages/update-chart/update-chart.component.ts:93-103 | empty id: error "Chart ID is missing" and no request; otherwise submitting starts, error and success message clear, nothing else changes (the snapshot included), and the form is sent as PUT |
| UpdateChart.OnUpdated | frontend/src/app/pages/update-chart/update-chart.component.ts:104-108 | the returned chart is stored, success shown, submitting ends, nothing else changes (form and snapshot included) |
| UpdateChart.OnUpdateFailed | frontend/src/app/pages/update-chart/update-chart.component.ts:115-119 | error set, submitting ends |
| UpdateChart.ResetForm | frontend/src/app/pages/update-chart/update-chart.component.ts:126-130 | the form returns to the snapshot, the change flag and success message are cleared, nothing else changes |
| UpdateChart.OnBirthInfoChange | frontend/src/app/pages/update-chart/update-chart.component.ts:135-140 | the change flag is set iff date, time or location differs from the snapshot |
| UpdateChart.ClearError | frontend/src/app/pages/update-chart/update-chart.component.ts:145-147 | only the error is cleared |
| UpdateChart.SnapshotMeansNoChange | frontend/src/app/pages/update-chart/update-chart.component.ts:86 | right after a load or a reset no birth data counts as changed |
| UpdateChart.NonBirthEditsIgnored | frontend/src/app/pages/update-chart/update-chart.component.ts:136-139 | name, notes and isPublic never influence the change flag |
| UpdateChart.BirthEditDetected | frontend/src/app/pages/update-chart/update-chart.component.ts:137 | a birth date differing from the snapshot raises the change flag |
| UpdateChart.UnloadedSnapshot | frontend/src/app/pages/update-chart/update-chart.component.ts:24-33 | before a load the snapshot is `{}`: the blank form reads as changed and reset empties it |
| UpdateChart.MissingIdGuard | frontend/src/app/pages/update-chart/update-chart.component.ts:94-97 | an empty id sets the error, sends nothing, leaves isSubmitting unchanged |
| UpdateChart.PayloadShapesAgree | frontend/src/app/pages/update-chart/update-chart.component.ts:59 | `{data: chart}` and the bare chart are handled identically |
| ChartCalculator.IsFieldInvalid | frontend/src/app/pages/chart-calculator/chart-calculator.component.ts:35-38 | a field is shown invalid iff it exists, fails its required check, and is dirty or touched |
| ChartCalculator.OnlyRequiredFieldsInvalid | frontend/src/app/pages/chart-calculator/chart-calculator.component.ts:26-38 | notes and unknown names are never shown invalid |
| ChartCalculator.SubmittedBody | frontend/src/app/pages/chart-calculator/chart-calculator.component.ts:48-52 | the body copies the three birth fields and has no notes |
| ChartCalculator.OnSubmit | frontend/src/app/pages/chart-calculator/chart-calculator.component.ts:40-54 | an invalid form changes nothing and sends nothing; a valid one starts loading and posts the birth data |
| ChartCalculator.EmptyFieldBlocksSubmit | frontend/src/app/pages/chart-calculator/chart-calculator.component.ts:41-43 | any empty or null required field blocks the submit entirely |
| ChartCalculator.FreshFormsBlockSubmit | frontend/src/app/pages/chart-calculator/chart-calculator.component.ts:26-33 | neither the initial form nor a reset one can be submitted |
| ChartCalculator.NotesNeverSent | frontend/src/app/pages/chart-calculator/chart-calculator.component.ts:48-52 | forms differing only in notes send the same request |
| ChartCalculator.SubmitWhileLoading | frontend/src/app/pages/chart-calculator/chart-calculator.component.ts:40-46 | the in-flight flag is not consulted by the submit guard |
| ChartCalculator.OnCalculated | frontend/src/app/pages/chart-calculator/chart-calculator.component.ts:55-60 | the unwrapped chart becomes the result, loading ends |
| ChartCalculator.OnCalculateFailed | frontend/src/app/pages/chart-calculator/chart-calculator.component.ts:61-65 | the previous result and the form are kept, loading ends, the error is set |
| ChartCalculator.FailureKeepsResult | frontend/src/app/pages/chart-calculator/chart-calculator.component.ts:61-65 | a failure after a success leaves that success's chart displayed |
| ChartCalculator.BodyRows | frontend/src/app/pages/chart-calculator/chart-calculator.component.ts:81-87 | one row per requested body in order, labelled with that body's label, copying its sign and degree; none when a body is missing |
| ChartCalculator.PlanetsList | frontend/src/app/pages/chart-calculator/chart-calculator.component.ts:78-88 | empty without result; else exactly the five rows Sun, Moon, Mercury, Venus, Mars, each labelled with its icon, a space and the name, with their signs and degrees |
| ChartCalculator.ClearResult | frontend/src/app/pages/chart-calculator/chart-calculator.component.ts:90-92 | only the result is cleared |
| ChartCalculator.ResetForm | frontend/src/app/pages/chart-calculator/chart-calculator.component.ts:94-98 | controls become null, pristine and untouched; result and error are cleared |
| ChartCard.OnEdit | frontend/src/app/components/chart-card/chart-card.component.ts:20-22 | the edit intent carries exactly the chart's id |
| ChartCard.OnDelete | frontend/src/app/components/chart-card/chart-card.component.ts:24-26 | the delete intent carries exactly the chart's id |
| ChartCard.CardDeleteRequest | frontend/src/app/components/chart-card/chart-card.component.ts:24-26 | a confirmed card delete sends DELETE `/api/charts/` + that chart's id; a declined one sends nothing |
| ChartCard.Capitalize | frontend/src/app/components/chart-card/chart-card.component.ts:51 | same length, first character upper-cased, the rest unchanged |
| ChartCard.Rows | frontend/src/app/components/chart-card/chart-card.component.ts:47-55 | one row per key in key order, capitalised name, sign and degree copied; none when a key is empty |
| ChartCard.PlanetsList | frontend/src/app/components/chart-card/chart-card.component.ts:42-56 | empty without planets, otherwise the flattened rows |
| ChartCard.BodyNamesCapitalised | frontend/src/app/components/chart-card/chart-card.component.ts:51 | the five body keys render as Sun, Moon, Mercury, Venus, Mars |
| ChartCard.CardAgreesWithCalculator | frontend/src/app/components/chart-card/chart-card.component.ts:42-56 | for planets sun..mars in order both lists have five rows with equal signs and degrees; the card names the row `Sun`..`Mars`, the calculator puts its icon and a space before that name |

## Left out

- HTTP transport, observables, the per-call timeout firing and network errors are not modelled. A call is the `Request` it issues, and its outcome is a handler's parameter.
- Out-of-order completion of overlapping list requests is left out because it is concurrency. Each response is applied to the state it is given.
- `formatDate` in all three components is left out because it depends on `Date` and locale formatting.
- Router navigation (`editChart`, `goBack`) and the two-second redirect after a successful update are left out as framework side effects. The route's id is the parameter of `UpdateChart.OnRouteParams`.
- The `confirm()` dialog is left out. Its answer is the `confirmed` parameter of `ChartBrowser.DeleteChart`.
- Angular validators, `FormBuilder` and template bindings are left out. A calculator control is its value plus its dirty and touched flags, and required means "neither null nor empty". Template edits to the browser filters are any `ChartFilters` value.
- Console logging is left out.
- The calculator's row icons are kept as the characters the source file holds. Those are emoji whose UTF-8 bytes were re-read in a single-byte code page, so they are not the emoji a reader expects.
- The route table (`app.routes.ts`) is left out because it is declarative framework configuration.
- ChartService.Issue: a caller-supplied timeout is not modelled. No caller passes one, so every request carries 5000 ms.
- ChartService.GetChartById: only string ids are modelled. The signature also accepts a number, but no caller passes one.
- ChartService.FiltersQueryRead: proved only for sunSign and sortBy values without `&`, `=`, `?`, `#`, `%` or `+`. The service does not percent-encode, so a server would split such a value, cut it at a `#` fragment, or decode `%XX` and `+`. The reference reader does none of that decoding.
- ChartService.PaginationQueryRead: proved only for a sunSign without `&`, `=`, `?`, `#`, `%` or `+`, for the same reason.
- ChartBrowser.TotalPages: totals and limits are integers. Fractional, NaN or infinite JavaScript numbers are not modelled.
- ChartBrowser.HandleChartsResponse: an object whose `data` is falsy is not modelled. The code would store that object itself as the chart list. A null body is modelled (the handler's `try` sends it to `handleError`).
- UpdateChart.OnChartLoaded: assumes a non-null payload that is chart-shaped whenever its `data` is falsy. A null body makes the handler throw outside any `try`. A non-chart object with falsy `data` would be stored as the chart. Neither is modelled.
- UpdateChart.OnUpdated: the same two payload assumptions as `UpdateChart.OnChartLoaded`.
- ChartCalculator.OnCalculated: the same two payload assumptions as `UpdateChart.OnChartLoaded`.
- ChartService.Lookup: a parsed JavaScript object cannot repeat a key, so the model's planet list is not checked for duplicate keys. Lookup returns the first match.
- Text.IntToDecimal: renders every integer in plain decimal. JavaScript prints integers of magnitude 1e21 or more in exponent form (`1e+21`), and integers beyond 2^53 are not exact. Page and limit values that large are not modelled.
- ChartCard.Capitalize: upper-casing maps only the ASCII letters `a`–`z`. Other characters are kept unchanged, including those whose JavaScript upper-case form differs.
- Planet degrees are integers that are only copied. The chart's sun, moon and rising signs are kept but never inspected.
