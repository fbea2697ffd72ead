/**
 * The dashboard controller of src/components/Dashboard.tsx as pure transitions
 * over an immutable state. Points are values here: an edit builds a new point
 * rather than mutating a shared one (module AsWrittenDashboard models the
 * sharing the source actually has).
 */
module Dashboard {
  import opened Optional
  import opened Chart
  import opened Decimal
  import opened RowStore

  /** The component's state hooks, plus the `email` prop it is rendered with. */
  datatype DashboardState = DashboardState(
    email: string,
    data: seq<ChartPoint>,
    loading: bool,
    hasExisting: bool,
    existingRow: Option<UserChartRow>,
    editingIndex: Option<nat>,
    tempValue: string)

  /** A handler either yields the next state or throws (in a state updater or in the next render). */
  datatype Step = Next(state: DashboardState) | Crashed

  /** The state a freshly mounted dashboard starts from, before its first fetch completes. */
  function Mount(email: string): (s: DashboardState)
    ensures s.email == email && s.data == DefaultData && |s.data| == WeekLength
    ensures !s.loading && !s.hasExisting && s.existingRow.None?
    ensures s.editingIndex.None? && s.tempValue == ""
  {
    DashboardState(email, DefaultData, false, false, None, None, "")
  }

  /** Reconciles one read of the table into the state; loading ends false in every case. */
  function Fetch(s: DashboardState, res: FetchResult): (r: DashboardState)
    ensures !r.loading
    ensures r.email == s.email && r.editingIndex == s.editingIndex && r.tempValue == s.tempValue
    ensures res.FetchError? ==> r.data == s.data && r.hasExisting == s.hasExisting && r.existingRow == s.existingRow
    ensures res.NotFound? ==> r.data == DefaultData && !r.hasExisting && r.existingRow.None?
    ensures res.Found? ==> r.hasExisting && r.existingRow == Some(res.row)
    ensures res.Found? && res.row.chartData.Points? ==> r.data == res.row.chartData.points
    ensures res.Found? && res.row.chartData.NotAnArray? ==> r.data == s.data
  {
    match res
    case FetchError =>
      s.(loading := false)
    case Found(row) =>
      var data := if row.chartData.Points? then row.chartData.points else s.data;
      s.(hasExisting := true, existingRow := Some(row), data := data, loading := false)
    case NotFound =>
      s.(hasExisting := false, existingRow := None, data := DefaultData, loading := false)
  }

  /** Opens the edit box on point `i`, pre-filled with that point's count as text. */
  function StartEdit(s: DashboardState, i: nat): (r: DashboardState)
    requires i < |s.data|
    ensures r.editingIndex == Some(i)
    ensures r.tempValue == ToDecimal(s.data[i].calls)
    ensures ParseDecimal(r.tempValue) == Some(s.data[i].calls)
    ensures r == s.(editingIndex := Some(i), tempValue := r.tempValue)
  {
    DecimalRoundTrip(s.data[i].calls);
    s.(editingIndex := Some(i), tempValue := ToDecimal(s.data[i].calls))
  }

  /** Typing into the edit box replaces its text and nothing else. */
  function EditText(s: DashboardState, text: string): (r: DashboardState)
    ensures r.tempValue == text
    ensures r == s.(tempValue := r.tempValue)
  {
    s.(tempValue := text)
  }

  /** `Number(tempValue || "0")`: empty text counts as zero; `other` reads non-decimal text. */
  function EditedValue(tempValue: string, other: string -> int): (v: int)
    ensures tempValue == "" ==> v == 0
    ensures ParseDecimal(tempValue).Some? ==> v == ParseDecimal(tempValue).value
    ensures tempValue != "" && ParseDecimal(tempValue).None? ==> v == other(tempValue)
  {
    LiteralsParse(other);
    JsNumber(if tempValue == "" then "0" else tempValue, other)
  }

  /**
   * Writes the parsed value into the point being edited and closes the edit box.
   * With no edit open it does nothing; an index past the end of the series makes
   * the update throw, because the copied array has no point there to mutate.
   */
  function ApplyEdit(s: DashboardState, other: string -> int): (r: Step)
    ensures s.editingIndex.None? ==> r == Next(s)
    ensures s.editingIndex.Some? && s.editingIndex.value >= |s.data| ==> r.Crashed?
    ensures s.editingIndex.Some? && s.editingIndex.value < |s.data| ==>
      && r.Next?
      && |r.state.data| == |s.data|
      && r.state.data[s.editingIndex.value].name == s.data[s.editingIndex.value].name
      && r.state.data[s.editingIndex.value].calls == EditedValue(s.tempValue, other)
      && (forall j :: 0 <= j < |s.data| && j != s.editingIndex.value ==> r.state.data[j] == s.data[j])
      && r.state == s.(data := r.state.data, editingIndex := None)
  {
    match s.editingIndex
    case None => Next(s)
    case Some(i) =>
      if i < |s.data| then
        var point := ChartPoint(s.data[i].name, EditedValue(s.tempValue, other));
        Next(s.(data := s.data[i := point], editingIndex := None))
      else
        Crashed
  }

  /** The Cancel button closes the edit box and keeps the series. */
  function Cancel(s: DashboardState): (r: DashboardState)
    ensures r.editingIndex.None?
    ensures r == s.(editingIndex := None)
  {
    s.(editingIndex := None)
  }

  /** "Reset to default" replaces the series with the default week and touches nothing else. */
  function Reset(s: DashboardState): (r: DashboardState)
    ensures r.data == DefaultData
    ensures r == s.(data := DefaultData)
  {
    s.(data := DefaultData)
  }

  /**
   * Re-installs the chart data of the row held from the last fetch. Without a row it
   * does nothing; a held row whose chart data is not an array is installed anyway,
   * and the next render's `data.map` throws.
   */
  function UseExisting(s: DashboardState): (r: Step)
    ensures s.existingRow.None? ==> r == Next(s)
    ensures s.existingRow.Some? && s.existingRow.value.chartData.Points? ==>
      r == Next(s.(data := s.existingRow.value.chartData.points))
    ensures s.existingRow.Some? && s.existingRow.value.chartData.NotAnArray? ==> r.Crashed?
  {
    match s.existingRow
    case None => Next(s)
    case Some(row) =>
      match row.chartData
      case Points(ps) => Next(s.(data := ps))
      case NotAnArray => Crashed
  }

  /** The object handed to the upsert. */
  datatype SavePayload = SavePayload(email: string, chartKey: string, chartData: ChartData)

  function Payload(s: DashboardState): (p: SavePayload)
    ensures p.email == s.email && p.chartKey == DefaultChartKey && p.chartData == Points(s.data)
  {
    SavePayload(s.email, DefaultChartKey, Points(s.data))
  }

  /**
   * Saves the series: `upsertOk` is the outcome of the upsert and `readOk` that
   * of the re-read it triggers. A failed upsert leaves the table and the series
   * alone; a successful one writes the payload under (email, chart key) and then
   * re-reads that key into the state, a read that can itself fail.
   */
  function Save(s: DashboardState, t: Table, upsertOk: bool, readOk: bool, newId: string, stamp: string): (r: (DashboardState, Table))
    ensures !r.0.loading
    ensures !upsertOk ==> r.1 == t && r.0 == s.(loading := false)
    ensures upsertOk ==> r.1 == Upsert(t, s.email, DefaultChartKey, Payload(s).chartData, newId, stamp)
    ensures upsertOk && readOk ==> r.0 == Fetch(s, Select(r.1, s.email, DefaultChartKey))
    ensures upsertOk && !readOk ==> r.0 == Fetch(s, FetchError)
  {
    if upsertOk then
      var p := Payload(s);
      var t' := Upsert(t, p.email, p.chartKey, p.chartData, newId, stamp);
      var res := if readOk then Select(t', s.email, DefaultChartKey) else FetchError;
      (Fetch(s, res), t')
    else
      (s.(loading := false), t)
  }

  /** A fetch that finds no row shows the default week. */
  lemma NoRowShowsDefaultWeek(s: DashboardState)
    ensures Fetch(s, NotFound).data == DefaultData && |Fetch(s, NotFound).data| == WeekLength
    ensures Fetch(s, NotFound).data[0] == ChartPoint("Mon", 120)
    ensures Fetch(s, NotFound).data[6] == ChartPoint("Sun", 90)
  {
  }

  /** Opening an edit and applying it untouched leaves the series exactly as it was. */
  lemma StartThenApplyKeepsData(s: DashboardState, i: nat, other: string -> int)
    requires i < |s.data|
    ensures ApplyEdit(StartEdit(s, i), other).Next?
    ensures ApplyEdit(StartEdit(s, i), other).state.data == s.data
    ensures ApplyEdit(StartEdit(s, i), other).state.editingIndex.None?
  {
    var e := StartEdit(s, i);
    var v := EditedValue(e.tempValue, other);
    assert v == s.data[i].calls;
    assert s.data[i := ChartPoint(s.data[i].name, v)] == s.data;
  }

  /** Typing "250" and applying sets the edited point's count to 250; an empty box sets it to 0. */
  lemma TypedValueIsApplied(s: DashboardState, i: nat, other: string -> int)
    requires i < |s.data|
    ensures ApplyEdit(EditText(StartEdit(s, i), "250"), other).state.data[i].calls == 250
    ensures ApplyEdit(EditText(StartEdit(s, i), ""), other).state.data[i].calls == 0
  {
    LiteralsParse(other);
  }

  /** Applying or cancelling with no edit open leaves the series unchanged. */
  lemma IdleEditKeepsData(s: DashboardState, other: string -> int)
    requires s.editingIndex.None?
    ensures ApplyEdit(s, other) == Next(s)
    ensures Cancel(s).data == s.data && Cancel(s) == s
  {
  }

  /** Resetting twice is the same as resetting once. */
  lemma ResetIdempotent(s: DashboardState)
    ensures Reset(Reset(s)) == Reset(s)
  {
  }

  /**
   * A successful save followed by its re-read gives back the saved series; the
   * state now holds the written row, and a further fetch of the same key changes
   * nothing. The table keeps one row per key.
   */
  lemma SaveThenFetchRoundTrip(s: DashboardState, t: Table, newId: string, stamp: string)
    ensures var (s', t') := Save(s, t, true, true, newId, stamp);
      && s'.data == s.data
      && s'.hasExisting
      && s'.existingRow.Some?
      && s'.existingRow.value.chartData == Points(s.data)
      && Matches(s'.existingRow.value, s.email, DefaultChartKey)
      && Fetch(s', Select(t', s.email, DefaultChartKey)) == s'
      && (UniqueKeys(t) ==> UniqueKeys(t') && MatchCount(t', s.email, DefaultChartKey) == 1)
  {
    var (s', t') := Save(s, t, true, true, newId, stamp);
    var k := FindRow(t', s.email, DefaultChartKey);
    assert Select(t', s.email, DefaultChartKey) == Found(t'[k.value]);
    if UniqueKeys(t) {
      UniqueKeyCountsOnce(t', s.email, DefaultChartKey);
    }
  }

  /** A failed save changes neither the table nor the series. */
  lemma FailedSaveKeepsState(s: DashboardState, t: Table, readOk: bool, newId: string, stamp: string)
    ensures Save(s, t, false, readOk, newId, stamp).1 == t
    ensures Save(s, t, false, readOk, newId, stamp).0.data == s.data
    ensures Save(s, t, false, readOk, newId, stamp).0.existingRow == s.existingRow
  {
  }

  /**
   * A successful upsert whose re-read fails leaves the table written but the
   * state as before: the held row, if any, is the one from before the save.
   */
  lemma SaveWithFailedReread(s: DashboardState, t: Table, newId: string, stamp: string)
    ensures var (s', t') := Save(s, t, true, false, newId, stamp);
      && Select(t', s.email, DefaultChartKey).Found?
      && Select(t', s.email, DefaultChartKey).row.chartData == Points(s.data)
      && s'.data == s.data
      && s'.existingRow == s.existingRow
      && s'.hasExisting == s.hasExisting
  {
    var t' := Save(s, t, true, false, newId, stamp).1;
    var k := FindRow(t', s.email, DefaultChartKey);
    assert Select(t', s.email, DefaultChartKey) == Found(t'[k.value]);
  }
}
