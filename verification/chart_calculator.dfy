/**
 * The chart calculator page: a birth-data form with three required fields,
 * the submit guard and the request body it sends, the result it keeps, and
 * the fixed five-planet list it renders.
 */
module ChartCalculator {
  import opened Wrappers
  import opened ChartService

  /** A form control: its value (`null` after a reset) and whether it was changed or visited. */
  datatype Control = Control(value: Option<string>, dirty: bool, touched: bool)

  datatype CalcForm = CalcForm(birthDate: Control, birthTime: Control, birthLocation: Control, notes: Control)

  datatype CalcState = CalcState(form: CalcForm, isLoading: bool, apiError: Option<string>, chartResult: Option<Chart>)

  const Blank := Control(Some(""), false, false)
  const InitialForm := CalcForm(Blank, Blank, Blank, Blank)
  const Initial := CalcState(InitialForm, false, None, None)

  const CalculateFailed := "Failed to calculate chart. Please try again."

  /** The keys of the five bodies the page shows, and their display labels, in display order. */
  const BodyKeys: seq<string> := ["sun", "moon", "mercury", "venus", "mars"]
  const BodyNames: seq<string> := ["Sun", "Moon", "Mercury", "Venus", "Mars"]

  /**
   * The icon in front of each label. The characters are those the source
   * file holds: emoji whose UTF-8 bytes were once re-read in a single-byte
   * encoding, so each icon is a short run of accented letters and symbols.
   */
  const BodyIcons: seq<string> := [
    "\U{E2}\U{2DC}\U{20AC}\U{EF}\U{B8}",
    "\U{11F}\U{178}\U{152}\U{2122}",
    "\U{E2}\U{2DC}\U{BF}\U{EF}\U{B8}",
    "\U{E2}\U{2122}\U{20AC}\U{EF}\U{B8}",
    "\U{E2}\U{2122}\U{201A}\U{EF}\U{B8}"]

  /** The row labels: icon, a space, the body's name. */
  const BodyLabels: seq<string> := [
    BodyIcons[0] + " " + BodyNames[0],
    BodyIcons[1] + " " + BodyNames[1],
    BodyIcons[2] + " " + BodyNames[2],
    BodyIcons[3] + " " + BodyNames[3],
    BodyIcons[4] + " " + BodyNames[4]]

  /** The required validator passes: the value is neither null nor empty. */
  predicate Filled(c: Control) {
    c.value.Some? && c.value.value != ""
  }

  /** The form is invalid when any of the three required fields is not filled; notes is optional. */
  predicate FormInvalid(form: CalcForm) {
    !Filled(form.birthDate) || !Filled(form.birthTime) || !Filled(form.birthLocation)
  }

  /** An error is shown under a control only once the user changed or visited it. */
  predicate Shown(c: Control) {
    c.dirty || c.touched
  }

  /**
   * `isFieldInvalid(name)`: the named control exists, fails its validator,
   * and was changed or visited. Notes has no validator; an unknown name has
   * no control.
   */
  function IsFieldInvalid(form: CalcForm, name: string): (b: bool)
    ensures name == "birthDate" ==> (b <==> !Filled(form.birthDate) && Shown(form.birthDate))
    ensures name == "birthTime" ==> (b <==> !Filled(form.birthTime) && Shown(form.birthTime))
    ensures name == "birthLocation" ==> (b <==> !Filled(form.birthLocation) && Shown(form.birthLocation))
    ensures b ==> name in {"birthDate", "birthTime", "birthLocation"}
  {
    if name == "birthDate" then !Filled(form.birthDate) && Shown(form.birthDate)
    else if name == "birthTime" then !Filled(form.birthTime) && Shown(form.birthTime)
    else if name == "birthLocation" then !Filled(form.birthLocation) && Shown(form.birthLocation)
    else false
  }

  /** The request body: the three birth fields only. */
  function SubmittedBody(form: CalcForm): (req: CalculateChartRequest)
    requires !FormInvalid(form)
    ensures req.birthDate == form.birthDate.value.value
    ensures req.birthTime == form.birthTime.value.value
    ensures req.birthLocation == form.birthLocation.value.value
    ensures req.notes.None?
  {
    CalculateChartRequest(form.birthDate.value.value, form.birthTime.value.value, form.birthLocation.value.value, None)
  }

  /**
   * `onSubmit`: an invalid form changes nothing and sends nothing; a valid
   * one starts loading, clears the error and posts the birth data. The
   * in-flight flag is not consulted.
   */
  function OnSubmit(s: CalcState): (r: Step<CalcState>)
    ensures FormInvalid(s.form) ==> r == Step(s, None)
    ensures !FormInvalid(s.form) ==> r.sent == Some(CalculateChart(SubmittedBody(s.form)))
    ensures !FormInvalid(s.form) ==> r.next == s.(isLoading := true, apiError := None)
    ensures r.next.chartResult == s.chartResult && r.next.form == s.form
  {
    if FormInvalid(s.form) then Step(s, None)
    else Step(s.(isLoading := true, apiError := None), Some(CalculateChart(SubmittedBody(s.form))))
  }

  /** A computed chart (enveloped or bare) becomes the result. */
  function OnCalculated(s: CalcState, p: ChartPayload): (r: CalcState)
    ensures r.chartResult == Some(Unwrap(p)) && !r.isLoading
    ensures r.form == s.form && r.apiError == s.apiError
  {
    s.(chartResult := Some(Unwrap(p)), isLoading := false)
  }

  /** A failed calculation reports the error and keeps any previous result. */
  function OnCalculateFailed(s: CalcState, f: Failure): (r: CalcState)
    ensures r.chartResult == s.chartResult && !r.isLoading
    ensures r.apiError == Some(ErrorText(f, CalculateFailed)) && r.apiError.value != ""
    ensures r.form == s.form
  {
    s.(isLoading := false, apiError := Some(ErrorText(f, CalculateFailed)))
  }

  /**
   * One row per requested key, labelled in order, copying that key's sign
   * and degree; None when a key is missing (reading `.sign` of an absent
   * planet throws).
   */
  function BodyRows(planets: seq<PlanetEntry>, keys: seq<string>, labels: seq<string>): (r: Option<seq<PlanetRow>>)
    requires |keys| == |labels|
    ensures r.Some? <==> forall i :: 0 <= i < |keys| ==> Lookup(planets, keys[i]).Some?
    ensures r.Some? ==> |r.value| == |keys|
    ensures r.Some? ==> forall i :: 0 <= i < |keys| ==>
      r.value[i].name == labels[i] && Lookup(planets, keys[i]) == Some(Planet(r.value[i].sign, r.value[i].degree))
    decreases |keys|
  {
    if |keys| == 0 then Some([])
    else
      match Lookup(planets, keys[0])
      case None => None
      case Some(p) =>
        match BodyRows(planets, keys[1..], labels[1..])
        case None => None
        case Some(rest) => Some([PlanetRow(labels[0], p.sign, p.degree)] + rest)
  }

  /**
   * `getPlanetsList`: empty without a result; otherwise Sun, Moon, Mercury,
   * Venus and Mars in that order, each label its icon, a space and the
   * name, with their signs and degrees. None stands
   * for the call throwing, when the result has no planets or lacks a body.
   */
  function PlanetsList(s: CalcState): (r: Option<seq<PlanetRow>>)
    ensures s.chartResult.None? ==> r == Some([])
    ensures s.chartResult.Some? && s.chartResult.value.planets.None? ==> r.None?
    ensures s.chartResult.Some? && s.chartResult.value.planets.Some? ==>
      (r.Some? <==> forall i :: 0 <= i < 5 ==> Lookup(s.chartResult.value.planets.value, BodyKeys[i]).Some?)
    ensures s.chartResult.Some? && r.Some? ==> |r.value| == 5 && forall i :: 0 <= i < 5 ==>
      r.value[i].name == BodyIcons[i] + " " + BodyNames[i]
      && Lookup(s.chartResult.value.planets.value, BodyKeys[i]) == Some(Planet(r.value[i].sign, r.value[i].degree))
  {
    match s.chartResult
    case None => Some([])
    case Some(c) =>
      match c.planets
      case None => None
      case Some(ps) => BodyRows(ps, BodyKeys, BodyLabels)
  }

  /** `clearResult`: drop the result only. */
  function ClearResult(s: CalcState): (r: CalcState)
    ensures r.chartResult.None?
    ensures r.form == s.form && r.apiError == s.apiError && r.isLoading == s.isLoading
  {
    s.(chartResult := None)
  }

  /** A control after `reset()`: null, pristine, untouched. */
  const Cleared := Control(None, false, false)

  /** `resetForm`: clear every control, the result and the error. */
  function ResetForm(s: CalcState): (r: CalcState)
    ensures r.chartResult.None? && r.apiError.None?
    ensures r.form == CalcForm(Cleared, Cleared, Cleared, Cleared)
    ensures r.isLoading == s.isLoading
  {
    s.(form := CalcForm(Cleared, Cleared, Cleared, Cleared), chartResult := None, apiError := None)
  }

  // ----- Properties -----

  /** Submitting with any required field empty or null sends nothing and changes nothing. */
  lemma EmptyFieldBlocksSubmit(s: CalcState)
    requires !Filled(s.form.birthDate) || !Filled(s.form.birthTime) || !Filled(s.form.birthLocation)
    ensures OnSubmit(s) == Step(s, None)
  {
  }

  /** Neither the untouched form nor a reset one can be submitted. */
  lemma FreshFormsBlockSubmit(s: CalcState)
    ensures OnSubmit(Initial).sent.None?
    ensures OnSubmit(ResetForm(s)).sent.None?
  {
  }

  /** Notes never reach the backend: two forms differing only in notes send the same request. */
  lemma NotesNeverSent(s: CalcState, notes: Control)
    ensures OnSubmit(s.(form := s.form.(notes := notes))).sent == OnSubmit(s).sent
  {
  }

  /**
   * `onSubmit` does not read the in-flight flag: called on a valid form while
   * a request is pending, it posts again. Whether the page can call it then
   * depends on the template, which is not part of this model.
   */
  lemma SubmitWhileLoading(s: CalcState)
    requires s.isLoading && !FormInvalid(s.form)
    ensures OnSubmit(s).sent.Some?
  {
  }

  /** A failure after a success keeps the earlier result on display. */
  lemma FailureKeepsResult(s: CalcState, p: ChartPayload, f: Failure)
    ensures OnCalculateFailed(OnCalculated(s, p), f).chartResult == Some(Unwrap(p))
  {
  }

  /** The notes control and unknown names are never reported invalid. */
  lemma OnlyRequiredFieldsInvalid(form: CalcForm, name: string)
    requires name !in {"birthDate", "birthTime", "birthLocation"}
    ensures !IsFieldInvalid(form, name)
  {
  }
}
