/**
 * The chart editor page: the edit form and its snapshot taken at load time,
 * the birth-data change detector, reset, and the update request with its
 * missing-id guard.
 */
module UpdateChart {
  import opened Wrappers
  import opened Text
  import opened ChartService

  datatype EditState = EditState(
    chart: Option<Chart>,
    chartId: string,
    isLoading: bool,
    isSubmitting: bool,
    error: Option<string>,
    successMessage: Option<string>,
    hasAstrologyChanges: bool,
    formData: UpdateChartRequest,
    originalFormData: UpdateChartRequest)

  /** The birth-data part of a form: what the backend recomputes the chart from. */
  datatype BirthInfo = BirthInfo(birthDate: Option<string>, birthTime: Option<string>, birthLocation: Option<string>)

  const BlankForm := UpdateChartRequest(Some(""), Some(""), Some(""), Some(""), Some(""), Some(false))
  /** Before any chart is loaded the snapshot `originalFormData` is `{}`. */
  const Initial := EditState(None, "", false, false, None, None, false, BlankForm, EmptyUpdate)

  const LoadFailed := "Failed to load chart. Please try again."
  const UpdateFailed := "Failed to update chart. Please try again."
  const MissingId := "Chart ID is missing"
  const Updated := "Chart updated successfully!"

  function BirthInfoOf(form: UpdateChartRequest): BirthInfo {
    BirthInfo(form.birthDate, form.birthTime, form.birthLocation)
  }

  /** `value || ''` for an optional string. */
  function TextOr(o: Option<string>): (t: string)
    ensures o.Some? ==> t == o.value
    ensures o.None? ==> t == ""
  {
    o.GetOr("")
  }

  /** `birthDate ? birthDate.split('T')[0] : ''`: the date before the first `T`. */
  function DatePart(d: Option<string>): (r: string)
    ensures r <= TextOr(d)
    ensures 'T' !in r
    ensures |r| < |TextOr(d)| ==> TextOr(d)[|r|] == 'T'
  {
    if d.Some? && d.value != "" then
      SplitHead(d.value, 'T');
      Split(d.value, 'T')[0]
    else ""
  }

  /** The form filled from a chart: missing strings become `''`, a missing `isPublic` false. */
  function FormFromChart(c: Chart): (form: UpdateChartRequest)
    ensures form.name == Some(TextOr(c.name))
    ensures form.birthDate == Some(DatePart(c.birthDate))
    ensures form.birthTime == Some(TextOr(c.birthTime))
    ensures form.birthLocation == Some(TextOr(c.birthLocation))
    ensures form.notes == Some(TextOr(c.notes))
    ensures form.isPublic == Some(c.isPublic.Some? && c.isPublic.value)
  {
    UpdateChartRequest(
      Some(TextOr(c.name)),
      Some(DatePart(c.birthDate)),
      Some(TextOr(c.birthTime)),
      Some(TextOr(c.birthLocation)),
      Some(TextOr(c.notes)),
      Some(c.isPublic.GetOr(false)))
  }

  /** `initializeForm`: with a chart loaded, fill the form and snapshot it; otherwise change nothing. */
  function InitializeForm(s: EditState): (r: EditState)
    ensures s.chart.None? ==> r == s
    ensures s.chart.Some? ==> r.formData == FormFromChart(s.chart.value) && r.originalFormData == r.formData
    ensures s.chart.Some? ==> r == s.(formData := FormFromChart(s.chart.value), originalFormData := FormFromChart(s.chart.value))
    ensures r.chart == s.chart && r.chartId == s.chartId && r.error == s.error
    ensures r.hasAstrologyChanges == s.hasAstrologyChanges && r.successMessage == s.successMessage
  {
    match s.chart
    case None => s
    case Some(c) =>
      var form := FormFromChart(c);
      s.(formData := form, originalFormData := form)
  }

  /** The route supplies the chart id; a non-empty one triggers a load. */
  function OnRouteParams(s: EditState, id: string): (r: Step<EditState>)
    ensures r.next.chartId == id
    ensures r.sent.Some? <==> id != ""
    ensures id != "" ==> r.sent == Some(GetChartById(id)) && r.next.isLoading
    ensures id != "" ==> r.next == s.(chartId := id, isLoading := true, error := None)
    ensures id == "" ==> r.next == s.(chartId := id)
  {
    var t := s.(chartId := id);
    if id != "" then LoadChart(t) else Step(t, None)
  }

  /** `loadChart`: mark loading, clear the error, request the chart by id. */
  function LoadChart(s: EditState): (r: Step<EditState>)
    ensures r.sent == Some(GetChartById(s.chartId))
    ensures r.next.isLoading && r.next.error.None?
    ensures r.next.formData == s.formData && r.next.originalFormData == s.originalFormData
    ensures r.next == s.(isLoading := true, error := None)
  {
    Step(s.(isLoading := true, error := None), Some(GetChartById(s.chartId)))
  }

  /** A loaded chart (enveloped or bare) becomes the chart, fills the form and ends loading. */
  function OnChartLoaded(s: EditState, p: ChartPayload): (r: EditState)
    ensures r.chart == Some(Unwrap(p))
    ensures r.formData == FormFromChart(Unwrap(p)) && r.originalFormData == r.formData
    ensures !r.isLoading
    ensures r == s.(chart := Some(Unwrap(p)), formData := FormFromChart(Unwrap(p)),
                    originalFormData := FormFromChart(Unwrap(p)), isLoading := false)
  {
    InitializeForm(s.(chart := Some(Unwrap(p)))).(isLoading := false)
  }

  function OnLoadFailed(s: EditState, f: Failure): (r: EditState)
    ensures r == s.(error := Some(ErrorText(f, LoadFailed)), isLoading := false)
  {
    s.(error := Some(ErrorText(f, LoadFailed)), isLoading := false)
  }

  /**
   * `updateChart`: without a chart id only the error is set and nothing is
   * sent; otherwise the form is sent as a PUT for that id.
   */
  function UpdateChart(s: EditState): (r: Step<EditState>)
    ensures s.chartId == "" ==> r.sent.None? && r.next == s.(error := Some(MissingId))
    ensures s.chartId != "" ==> r.sent == Some(ChartService.UpdateChart(s.chartId, s.formData))
    ensures s.chartId != "" ==> r.next.isSubmitting && r.next.error.None? && r.next.successMessage.None?
    ensures r.next.formData == s.formData && r.next.chart == s.chart
    ensures s.chartId != "" ==> r.next == s.(isSubmitting := true, error := None, successMessage := None)
  {
    if s.chartId == "" then Step(s.(error := Some(MissingId)), None)
    else Step(s.(isSubmitting := true, error := None, successMessage := None),
              Some(ChartService.UpdateChart(s.chartId, s.formData)))
  }

  /** A successful update stores the returned chart and confirms; the form itself is not refilled. */
  function OnUpdated(s: EditState, p: ChartPayload): (r: EditState)
    ensures r.chart == Some(Unwrap(p)) && r.successMessage == Some(Updated) && !r.isSubmitting
    ensures r.formData == s.formData && r.originalFormData == s.originalFormData
    ensures r == s.(chart := Some(Unwrap(p)), successMessage := Some(Updated), isSubmitting := false)
  {
    s.(chart := Some(Unwrap(p)), successMessage := Some(Updated), isSubmitting := false)
  }

  function OnUpdateFailed(s: EditState, f: Failure): (r: EditState)
    ensures r == s.(error := Some(ErrorText(f, UpdateFailed)), isSubmitting := false)
  {
    s.(error := Some(ErrorText(f, UpdateFailed)), isSubmitting := false)
  }

  /** `resetForm`: back to the snapshot, with the change flag and confirmation cleared. */
  function ResetForm(s: EditState): (r: EditState)
    ensures r.formData == s.originalFormData && r.originalFormData == s.originalFormData
    ensures !r.hasAstrologyChanges && r.successMessage.None?
    ensures r.chart == s.chart && r.chartId == s.chartId && r.error == s.error
    ensures r == s.(formData := s.originalFormData, hasAstrologyChanges := false, successMessage := None)
  {
    s.(formData := s.originalFormData, hasAstrologyChanges := false, successMessage := None)
  }

  /** `onBirthInfoChange`: flag whether any birth field differs from the snapshot. */
  function OnBirthInfoChange(s: EditState): (r: EditState)
    ensures r.hasAstrologyChanges <==> BirthInfoOf(s.formData) != BirthInfoOf(s.originalFormData)
    ensures r == s.(hasAstrologyChanges := r.hasAstrologyChanges)
  {
    s.(hasAstrologyChanges :=
      s.formData.birthDate != s.originalFormData.birthDate ||
      s.formData.birthTime != s.originalFormData.birthTime ||
      s.formData.birthLocation != s.originalFormData.birthLocation)
  }

  function ClearError(s: EditState): (r: EditState)
    ensures r.error.None? && r == s.(error := None)
  {
    s.(error := None)
  }

  // ----- Properties -----

  /** Right after a chart is loaded, or after a reset, no birth data counts as changed. */
  lemma SnapshotMeansNoChange(s: EditState, p: ChartPayload)
    ensures !OnBirthInfoChange(OnChartLoaded(s, p)).hasAstrologyChanges
    ensures !OnBirthInfoChange(ResetForm(s)).hasAstrologyChanges
  {
  }

  /** Editing only the name, the notes or the visibility never raises the change flag. */
  lemma NonBirthEditsIgnored(s: EditState, name: Option<string>, notes: Option<string>, isPublic: Option<bool>)
    ensures var t := s.(formData := s.formData.(name := name, notes := notes, isPublic := isPublic));
      OnBirthInfoChange(t).hasAstrologyChanges == OnBirthInfoChange(s).hasAstrologyChanges
  {
  }

  /** Editing one birth field away from the snapshot raises the change flag. */
  lemma BirthEditDetected(s: EditState, d: Option<string>)
    requires d != s.originalFormData.birthDate
    ensures OnBirthInfoChange(s.(formData := s.formData.(birthDate := d))).hasAstrologyChanges
  {
  }

  /**
   * Before any chart has loaded the snapshot is empty, so the blank form
   * already reads as changed, and a reset empties the form's fields.
   */
  lemma UnloadedSnapshot()
    ensures OnBirthInfoChange(Initial).hasAstrologyChanges
    ensures ResetForm(Initial).formData == EmptyUpdate
  {
  }

  /** With no chart id the update is refused: an error, no request, `isSubmitting` untouched. */
  lemma MissingIdGuard(s: EditState)
    requires s.chartId == ""
    ensures UpdateChart(s).sent.None?
    ensures UpdateChart(s).next.error == Some("Chart ID is missing")
    ensures UpdateChart(s).next.isSubmitting == s.isSubmitting
  {
  }

  /** A date followed by `T` and a time keeps only the date; a date alone is kept whole. */
  lemma DatePartOfTimestamp(date: string, time: string)
    requires 'T' !in date
    ensures DatePart(Some(date + "T" + time)) == date
    ensures DatePart(Some(date)) == date
  {
    assert date + "T" + time == date + ['T'] + time;
    SplitAtFirst(date, time, 'T');
    SplitNoSeparator(date, 'T');
  }

  /** Enveloped and bare payloads of the same chart load identically. */
  lemma PayloadShapesAgree(s: EditState, c: Chart)
    ensures OnChartLoaded(s, Enveloped(c)) == OnChartLoaded(s, BareChart(c))
    ensures OnUpdated(s, Enveloped(c)) == OnUpdated(s, BareChart(c))
  {
  }
}
