/**
 * The chart card: the edit and delete intents it emits and the planet list
 * it renders by flattening the `planets` object in key order.
 */
module ChartCard {
  import opened Wrappers
  import opened Text
  import opened ChartService
  import ChartBrowser
  import ChartCalculator

  datatype CardEvent = Edit(id: string) | Remove(id: string)

  /** `onEdit`: emit the chart's id on the edit output. */
  function OnEdit(chart: Chart): (e: CardEvent)
    ensures e.Edit? && e.id == chart.id
  {
    Edit(chart.id)
  }

  /** `onDelete`: emit the chart's id on the delete output. */
  function OnDelete(chart: Chart): (e: CardEvent)
    ensures e.Remove? && e.id == chart.id
  {
    Remove(chart.id)
  }

  /** `name[0].toUpperCase() + name.slice(1)` */
  function Capitalize(name: string): (r: string)
    requires |name| > 0
    ensures |r| == |name| && r[0] == ToUpper(name[0]) && r[1..] == name[1..]
  {
    [ToUpper(name[0])] + name[1..]
  }

  /**
   * One row per key in key order, named by the capitalised key, with the
   * planet's sign and degree. None when some key is empty: `name[0]` is
   * then undefined and upper-casing it throws.
   */
  function Rows(entries: seq<PlanetEntry>): (r: Option<seq<PlanetRow>>)
    ensures r.Some? <==> forall i :: 0 <= i < |entries| ==> entries[i].key != ""
    ensures r.Some? ==> |r.value| == |entries|
    ensures r.Some? ==> forall i :: 0 <= i < |entries| ==>
      && |r.value[i].name| == |entries[i].key|
      && r.value[i].name[0] == ToUpper(entries[i].key[0])
      && r.value[i].name[1..] == entries[i].key[1..]
      && r.value[i].sign == entries[i].planet.sign
      && r.value[i].degree == entries[i].planet.degree
    decreases |entries|
  {
    if |entries| == 0 then Some([])
    else if entries[0].key == "" then None
    else
      match Rows(entries[1..])
      case None => None
      case Some(rest) =>
        var e := entries[0];
        Some([PlanetRow(Capitalize(e.key), e.planet.sign, e.planet.degree)] + rest)
  }

  /** `getPlanetsList(chart)`: empty when the chart has no planets, else the flattened rows. */
  function PlanetsList(chart: Chart): (r: Option<seq<PlanetRow>>)
    ensures chart.planets.None? ==> r == Some([])
    ensures chart.planets.Some? ==> r == Rows(chart.planets.value)
  {
    match chart.planets
    case None => Some([])
    case Some(entries) => Rows(entries)
  }

  // ----- Properties -----

  /** Deleting from a card, once confirmed, sends DELETE `/api/charts/<that chart's id>`; declined, nothing. */
  lemma CardDeleteRequest(s: ChartBrowser.BrowserState, chart: Chart, confirmed: bool)
    ensures var step := ChartBrowser.DeleteChart(s, OnDelete(chart).id, confirmed);
      && step.next == s
      && (confirmed ==> step.sent.Some? && step.sent.value.verb == Delete && step.sent.value.url == "/api/charts/" + chart.id)
      && (!confirmed ==> step.sent.None?)
  {
    ByIdEndpoints(chart.id, EmptyUpdate);
  }

  /** Lower-case body names render as the capitalised names. */
  lemma BodyNamesCapitalised()
    ensures Capitalize("sun") == "Sun" && Capitalize("moon") == "Moon"
    ensures Capitalize("mercury") == "Mercury" && Capitalize("venus") == "Venus" && Capitalize("mars") == "Mars"
  {
  }

  /**
   * For a chart whose planets object holds exactly sun, moon, mercury, venus
   * and mars in that order, the card and the calculator list the same
   * bodies with the same signs and degrees. The names differ: the card shows
   * the capitalised key, the calculator puts its icon and a space in front
   * of that same name.
   */
  lemma CardAgreesWithCalculator(c: Chart, s: ChartCalculator.CalcState)
    requires c.planets.Some? && |c.planets.value| == 5
    requires forall i :: 0 <= i < 5 ==> c.planets.value[i].key == ChartCalculator.BodyKeys[i]
    requires s.chartResult == Some(c)
    ensures PlanetsList(c).Some? && ChartCalculator.PlanetsList(s).Some?
    ensures var card, calculated := PlanetsList(c).value, ChartCalculator.PlanetsList(s).value;
      |card| == |calculated| == 5 &&
      forall i :: 0 <= i < 5 ==>
        && card[i].sign == calculated[i].sign
        && card[i].degree == calculated[i].degree
        && card[i].name == ChartCalculator.BodyNames[i]
        && calculated[i].name == ChartCalculator.BodyIcons[i] + " " + card[i].name
  {
    var entries := c.planets.value;
    forall i | 0 <= i < 5
      ensures Lookup(entries, ChartCalculator.BodyKeys[i]) == Some(entries[i].planet)
    {
      LookupDistinct(entries, i);
    }
    var cardRows := PlanetsList(c);
    var calcRows := ChartCalculator.PlanetsList(s);
    assert cardRows.Some? by {
      assert forall i :: 0 <= i < 5 ==> ChartCalculator.BodyKeys[i] != "";
    }
    assert calcRows.Some?;
    var card, calculated := cardRows.value, calcRows.value;
    forall i | 0 <= i < 5
      ensures card[i].name == ChartCalculator.BodyNames[i]
    {
      CapitalisedName(card[i].name, i);
    }
  }

  /** A row name built from the i-th body key is the i-th body name. */
  lemma CapitalisedName(name: string, i: int)
    requires 0 <= i < 5
    requires var key := ChartCalculator.BodyKeys[i];
      |name| == |key| && name[0] == ToUpper(key[0]) && name[1..] == key[1..]
    ensures name == ChartCalculator.BodyNames[i]
  {
    var key := ChartCalculator.BodyKeys[i];
    assert name == [name[0]] + name[1..];
    assert name == Capitalize(key);
    BodyNamesCapitalised();
  }

  /** In a list whose first five keys are the distinct body keys, looking up the i-th key finds the i-th entry. */
  lemma LookupDistinct(entries: seq<PlanetEntry>, i: int)
    requires |entries| == 5 && 0 <= i < 5
    requires forall j :: 0 <= j < 5 ==> entries[j].key == ChartCalculator.BodyKeys[j]
    ensures Lookup(entries, ChartCalculator.BodyKeys[i]) == Some(entries[i].planet)
  {
    var keys := ChartCalculator.BodyKeys;
    assert forall j, k :: 0 <= j < 5 && 0 <= k < 5 && j != k ==> keys[j] != keys[k];
    var r := Lookup(entries, keys[i]);
    var k :| 0 <= k < |entries| && entries[k] == PlanetEntry(keys[i], r.value);
    assert k == i;
  }
}
