/**
 * The dashboard's series as the source actually holds it: arrays of references
 * to mutable point objects. `defaultData`, the series on screen and the chart
 * data of the held row can share point objects, and an applied edit mutates the
 * shared object in place after copying only the array.
 */
module AsWrittenDashboard {
  import opened Optional
  import opened Chart
  import opened Decimal
  import opened RowStore
  import Dashboard

  /** Chart data of the held row: an array of point references, or some non-array value. */
  datatype HeldData = HeldPoints(refs: seq<nat>) | HeldNotAnArray

  /**
   * `heap[r]` is the current content of point object `r`; `defaults` is the
   * module-level `defaultData` array, `data` the series on screen.
   */
  datatype HeapState = HeapState(
    heap: seq<ChartPoint>,
    defaults: seq<nat>,
    data: seq<nat>,
    held: Option<HeldData>,
    editingIndex: Option<nat>,
    tempValue: string)

  predicate RefsIn(refs: seq<nat>, heap: seq<ChartPoint>) {
    forall i :: 0 <= i < |refs| ==> refs[i] < |heap|
  }

  predicate Distinct(refs: seq<nat>) {
    forall i, j :: 0 <= i < |refs| && 0 <= j < |refs| && refs[i] == refs[j] ==> i == j
  }

  /** Every array refers to allocated objects. */
  predicate Valid(h: HeapState) {
    && RefsIn(h.defaults, h.heap)
    && RefsIn(h.data, h.heap)
    && (h.held.Some? && h.held.value.HeldPoints? ==> RefsIn(h.held.value.refs, h.heap))
  }

  /** The point values an array of references currently denotes. */
  function Values(heap: seq<ChartPoint>, refs: seq<nat>): (vs: seq<ChartPoint>)
    requires RefsIn(refs, heap)
    ensures |vs| == |refs|
    ensures forall i :: 0 <= i < |refs| ==> vs[i] == heap[refs[i]]
  {
    seq(|refs|, i requires 0 <= i < |refs| => heap[refs[i]])
  }

  /** The series on screen. */
  function Shown(h: HeapState): (vs: seq<ChartPoint>)
    requires Valid(h)
  {
    Values(h.heap, h.data)
  }

  function Range(lo: nat, hi: nat): (r: seq<nat>)
    requires lo <= hi
    ensures |r| == hi - lo
    ensures forall i :: 0 <= i < |r| ==> r[i] == lo + i
  {
    seq(hi - lo, i requires 0 <= i < hi - lo => lo + i)
  }

  /** Page load: the seven default objects, shown directly by the initial state hook. */
  function Initial(): (h: HeapState)
    ensures Valid(h) && Shown(h) == DefaultData && Values(h.heap, h.defaults) == DefaultData
    ensures h.data == h.defaults && Distinct(h.data)
    ensures WellFormed(h)
  {
    var refs := Range(0, |DefaultData|);
    var h := HeapState(DefaultData, refs, refs, None, None, "");
    assert Values(h.heap, h.data) == DefaultData;
    h
  }

  /** A fetched row: its parsed array is made of new objects, and that same array becomes the series. */
  function FetchFound(h: HeapState, chartData: ChartData): (r: HeapState)
    requires Valid(h)
    ensures Valid(r)
    ensures chartData.Points? ==> Shown(r) == chartData.points && Distinct(r.data)
    ensures chartData.Points? ==> r.held == Some(HeldPoints(r.data))
    ensures chartData.Points? ==> forall k :: 0 <= k < |r.data| ==> r.data[k] >= |h.heap|
    ensures |r.heap| >= |h.heap| && r.heap[..|h.heap|] == h.heap
    ensures r.defaults == h.defaults && Values(r.heap, r.defaults) == Values(h.heap, h.defaults)
    ensures r.editingIndex == h.editingIndex && r.tempValue == h.tempValue
    ensures chartData.NotAnArray? ==> r == h.(held := Some(HeldNotAnArray))
  {
    match chartData
    case Points(ps) =>
      var refs := Range(|h.heap|, |h.heap| + |ps|);
      var r := h.(heap := h.heap + ps, data := refs, held := Some(HeldPoints(refs)));
      assert Values(r.heap, r.data) == ps;
      assert Values(r.heap, h.defaults) == Values(h.heap, h.defaults);
      r
    case NotAnArray =>
      h.(held := Some(HeldNotAnArray))
  }

  /** No row: the series becomes the `defaultData` array itself, objects included. */
  function FetchNotFound(h: HeapState): (r: HeapState)
    requires Valid(h)
    ensures Valid(r) && r.data == h.defaults && r.held.None?
    ensures r == h.(held := None, data := h.defaults)
  {
    h.(held := None, data := h.defaults)
  }

  function StartEdit(h: HeapState, i: nat): (r: HeapState)
    requires Valid(h) && i < |h.data|
    ensures Valid(r) && r.data == h.data && r.heap == h.heap && r.editingIndex == Some(i)
    ensures r.tempValue == ToDecimal(Shown(h)[i].calls)
    ensures ParseDecimal(r.tempValue) == Some(Shown(h)[i].calls)
    ensures r == h.(editingIndex := Some(i), tempValue := r.tempValue)
  {
    DecimalRoundTrip(h.heap[h.data[i]].calls);
    h.(editingIndex := Some(i), tempValue := ToDecimal(h.heap[h.data[i]].calls))
  }

  function EditText(h: HeapState, text: string): (r: HeapState)
    requires Valid(h)
    ensures Valid(r) && r.tempValue == text
    ensures r == h.(tempValue := text)
  {
    h.(tempValue := text)
  }

  /**
   * `copy = [...d]; copy[i].calls = val`: the copied array holds the same
   * references, and the object at position i is overwritten in the heap.
   * None when the index is past the end (the update throws).
   */
  function ApplyEdit(h: HeapState, other: string -> int): (r: Option<HeapState>)
    requires Valid(h)
    ensures h.editingIndex.None? ==> r == Some(h)
    ensures h.editingIndex.Some? && h.editingIndex.value >= |h.data| ==> r.None?
    ensures r.Some? ==> Valid(r.value) && r.value.data == h.data && r.value.editingIndex.None?
    ensures r.Some? ==> r.value == h.(heap := r.value.heap, editingIndex := None)
    ensures h.editingIndex.Some? && h.editingIndex.value < |h.data| ==>
      r.Some? && r.value.heap == h.heap[h.data[h.editingIndex.value] :=
        ChartPoint(h.heap[h.data[h.editingIndex.value]].name, Dashboard.EditedValue(h.tempValue, other))]
  {
    match h.editingIndex
    case None => Some(h)
    case Some(i) =>
      if i < |h.data| then
        var obj := h.data[i];
        var point := ChartPoint(h.heap[obj].name, Dashboard.EditedValue(h.tempValue, other));
        Some(h.(heap := h.heap[obj := point], editingIndex := None))
      else
        None
  }

  function Reset(h: HeapState): (r: HeapState)
    requires Valid(h)
    ensures Valid(r) && r.data == h.defaults
    ensures r == h.(data := h.defaults)
  {
    h.(data := h.defaults)
  }

  /**
   * "Change email" unmounts the dashboard and the next confirmation mounts a new
   * one within the same page load. Its initial series is the module-level
   * `defaultData` array again, with whatever its objects hold by then.
   */
  function Remount(h: HeapState): (r: HeapState)
    requires Valid(h)
    ensures Valid(r) && r.data == h.defaults && r.heap == h.heap
    ensures r == h.(data := h.defaults, held := None, editingIndex := None, tempValue := "")
  {
    h.(data := h.defaults, held := None, editingIndex := None, tempValue := "")
  }

  /** None when the held row's chart data is not an array (the next render throws). */
  function UseExisting(h: HeapState): (r: Option<HeapState>)
    requires Valid(h)
    ensures h.held.None? ==> r == Some(h)
    ensures h.held.Some? && h.held.value.HeldNotAnArray? ==> r.None?
    ensures h.held.Some? && h.held.value.HeldPoints? ==>
      r.Some? && Valid(r.value) && r == Some(h.(data := h.held.value.refs))
  {
    match h.held
    case None => Some(h)
    case Some(HeldNotAnArray) => None
    case Some(HeldPoints(refs)) => Some(h.(data := refs))
  }

  /** Valid, and no array repeats an object: what every reachable state satisfies. */
  predicate WellFormed(h: HeapState) {
    && Valid(h)
    && Distinct(h.data)
    && Distinct(h.defaults)
    && (h.held.Some? && h.held.value.HeldPoints? ==> Distinct(h.held.value.refs))
  }

  /**
   * Every transition keeps well-formedness, and `Initial` establishes it, so the
   * distinctness `ApplyEditAgreesOnShownSeries` asks for holds in every state the
   * page can reach.
   */
  lemma WellFormedReachable(h: HeapState, chartData: ChartData, i: nat, text: string, other: string -> int)
    requires WellFormed(h)
    ensures WellFormed(FetchFound(h, chartData))
    ensures WellFormed(FetchNotFound(h))
    ensures i < |h.data| ==> WellFormed(StartEdit(h, i))
    ensures WellFormed(EditText(h, text))
    ensures ApplyEdit(h, other).Some? ==> WellFormed(ApplyEdit(h, other).value)
    ensures FreshApplyEdit(h, other).Some? ==> WellFormed(FreshApplyEdit(h, other).value)
    ensures WellFormed(Reset(h))
    ensures UseExisting(h).Some? ==> WellFormed(UseExisting(h).value)
    ensures WellFormed(Remount(h))
  {
  }

  /**
   * The corrected edit, `copy[i] = {...copy[i], calls: val}`: a new point object
   * is allocated for position i, and no existing object is written.
   */
  function FreshApplyEdit(h: HeapState, other: string -> int): (r: Option<HeapState>)
    requires Valid(h)
    ensures h.editingIndex.None? ==> r == Some(h)
    ensures h.editingIndex.Some? && h.editingIndex.value >= |h.data| ==> r.None?
    ensures r.Some? ==> Valid(r.value) && r.value.editingIndex.None?
    ensures r.Some? ==> |r.value.heap| >= |h.heap| && r.value.heap[..|h.heap|] == h.heap
    ensures r.Some? ==> r.value == h.(heap := r.value.heap, data := r.value.data, editingIndex := None)
    ensures h.editingIndex.Some? && h.editingIndex.value < |h.data| ==>
      && r.Some?
      && |r.value.heap| == |h.heap| + 1
      && r.value.data == h.data[h.editingIndex.value := |h.heap|]
      && r.value.heap[|h.heap|] == ChartPoint(h.heap[h.data[h.editingIndex.value]].name, Dashboard.EditedValue(h.tempValue, other))
  {
    match h.editingIndex
    case None => Some(h)
    case Some(i) =>
      if i < |h.data| then
        var point := ChartPoint(h.heap[h.data[i]].name, Dashboard.EditedValue(h.tempValue, other));
        var r := h.(heap := h.heap + [point], data := h.data[i := |h.heap|], editingIndex := None);
        assert r.heap[..|h.heap|] == h.heap;
        Some(r)
      else
        None
  }

  /**
   * The corrected edit changes the series on screen exactly as the value model
   * does, with no condition on shared objects, and leaves the values of
   * `defaultData` and of the held row as they were.
   */
  lemma FreshApplyEditLeaksNothing(h: HeapState, email: string, other: string -> int)
    requires Valid(h) && h.editingIndex.Some? && h.editingIndex.value < |h.data|
    ensures var v := Dashboard.DashboardState(email, Shown(h), false, false, None, h.editingIndex, h.tempValue);
      && FreshApplyEdit(h, other).Some?
      && Dashboard.ApplyEdit(v, other).Next?
      && Shown(FreshApplyEdit(h, other).value) == Dashboard.ApplyEdit(v, other).state.data
    ensures Values(FreshApplyEdit(h, other).value.heap, h.defaults) == Values(h.heap, h.defaults)
    ensures h.held.Some? && h.held.value.HeldPoints? ==>
      Values(FreshApplyEdit(h, other).value.heap, h.held.value.refs) == Values(h.heap, h.held.value.refs)
  {
    var r := FreshApplyEdit(h, other).value;
    var v := Dashboard.DashboardState(email, Shown(h), false, false, None, h.editingIndex, h.tempValue);
    var expected := Dashboard.ApplyEdit(v, other).state.data;
    forall j | 0 <= j < |h.data|
      ensures Shown(r)[j] == expected[j]
    {
      if j != h.editingIndex.value {
        assert r.heap[h.data[j]] == r.heap[..|h.heap|][h.data[j]];
      }
    }
    forall j | 0 <= j < |h.defaults|
      ensures Values(r.heap, h.defaults)[j] == Values(h.heap, h.defaults)[j]
    {
      assert r.heap[h.defaults[j]] == r.heap[..|h.heap|][h.defaults[j]];
    }
    if h.held.Some? && h.held.value.HeldPoints? {
      var refs := h.held.value.refs;
      forall j | 0 <= j < |refs|
        ensures Values(r.heap, refs)[j] == Values(h.heap, refs)[j]
      {
        assert r.heap[refs[j]] == r.heap[..|h.heap|][refs[j]];
      }
    }
  }

  /**
   * A heap state whose defaults are intact stands for a value-model state: same
   * series on screen, same held row contents, same edit state.
   */
  predicate Sim(h: HeapState, s: Dashboard.DashboardState) {
    && Valid(h)
    && Shown(h) == s.data
    && Values(h.heap, h.defaults) == DefaultData
    && (h.held.None? <==> s.existingRow.None?)
    && (h.held.Some? && s.existingRow.Some? ==>
          (h.held.value.HeldPoints? <==> s.existingRow.value.chartData.Points?))
    && (h.held.Some? && h.held.value.HeldPoints? && s.existingRow.Some? && s.existingRow.value.chartData.Points? ==>
          Values(h.heap, h.held.value.refs) == s.existingRow.value.chartData.points)
    && h.editingIndex == s.editingIndex
    && h.tempValue == s.tempValue
  }

  lemma SimInitial(email: string)
    ensures Sim(Initial(), Dashboard.Mount(email))
  {
  }

  /**
   * With the corrected edit, the heap model and the value model stay in step
   * through every handler: the lemmas below show that each transition of one
   * model, applied to related states, gives states that are again related.
   */
  lemma SimFetch(h: HeapState, s: Dashboard.DashboardState, row: UserChartRow)
    requires Sim(h, s)
    ensures Sim(FetchFound(h, row.chartData), Dashboard.Fetch(s, Found(row)))
    ensures Sim(FetchNotFound(h), Dashboard.Fetch(s, NotFound))
    ensures Sim(h, Dashboard.Fetch(s, FetchError))
  {
  }

  lemma SimEdit(h: HeapState, s: Dashboard.DashboardState, i: nat, text: string)
    requires Sim(h, s)
    ensures i < |h.data| ==> Sim(StartEdit(h, i), Dashboard.StartEdit(s, i))
    ensures Sim(EditText(h, text), Dashboard.EditText(s, text))
    ensures Sim(h.(editingIndex := None), Dashboard.Cancel(s))
  {
  }

  lemma SimApplyEdit(h: HeapState, s: Dashboard.DashboardState, other: string -> int)
    requires Sim(h, s)
    ensures FreshApplyEdit(h, other).Some? <==> Dashboard.ApplyEdit(s, other).Next?
    ensures FreshApplyEdit(h, other).Some? ==>
      Sim(FreshApplyEdit(h, other).value, Dashboard.ApplyEdit(s, other).state)
  {
    if h.editingIndex.Some? && h.editingIndex.value < |h.data| {
      FreshApplyEditLeaksNothing(h, s.email, other);
    }
  }

  /** Reset and a remount both show `defaultData`, whose values the corrected edit never changes. */
  lemma SimReset(h: HeapState, s: Dashboard.DashboardState, email: string)
    requires Sim(h, s)
    ensures Sim(Reset(h), Dashboard.Reset(s))
    ensures Sim(Remount(h), Dashboard.Mount(email))
  {
  }

  lemma SimUseExisting(h: HeapState, s: Dashboard.DashboardState)
    requires Sim(h, s)
    ensures UseExisting(h).Some? <==> Dashboard.UseExisting(s).Next?
    ensures UseExisting(h).Some? ==> Sim(UseExisting(h).value, Dashboard.UseExisting(s).state)
  {
  }

  /**
   * For an email with no stored row, editing Monday to 5 with the corrected edit
   * and then pressing "Reset to default" shows the default week again.
   */
  lemma FreshEditThenResetShowsDefaults(other: string -> int)
    ensures var h1 := EditText(StartEdit(FetchNotFound(Initial()), 0), "5");
      && FreshApplyEdit(h1, other).Some?
      && Shown(Reset(FreshApplyEdit(h1, other).value)) == DefaultData
  {
    var h1 := EditText(StartEdit(FetchNotFound(Initial()), 0), "5");
    FreshApplyEditLeaksNothing(h1, "a@b.com", other);
  }

  /**
   * On the series on screen, the in-place edit agrees with the value model:
   * when the shown array has no repeated object, exactly the edited position changes.
   */
  lemma ApplyEditAgreesOnShownSeries(h: HeapState, email: string, other: string -> int)
    requires Valid(h) && Distinct(h.data)
    requires h.editingIndex.Some? && h.editingIndex.value < |h.data|
    ensures var v := Dashboard.DashboardState(email, Shown(h), false, false, None, h.editingIndex, h.tempValue);
      && ApplyEdit(h, other).Some?
      && Dashboard.ApplyEdit(v, other).Next?
      && Shown(ApplyEdit(h, other).value) == Dashboard.ApplyEdit(v, other).state.data
  {
    var i := h.editingIndex.value;
    var v := Dashboard.DashboardState(email, Shown(h), false, false, None, h.editingIndex, h.tempValue);
    var after := Shown(ApplyEdit(h, other).value);
    var expected := Dashboard.ApplyEdit(v, other).state.data;
    forall j | 0 <= j < |h.data|
      ensures after[j] == expected[j]
    {
      if j != i {
        assert h.data[j] != h.data[i];
      }
    }
  }

  /** The edit also rewrites every other array that shares the edited object, `defaultData` among them. */
  lemma ApplyEditLeaksIntoDefaults(h: HeapState, j: nat, other: string -> int)
    requires Valid(h) && h.editingIndex.Some? && h.editingIndex.value < |h.data|
    requires j < |h.defaults| && h.defaults[j] == h.data[h.editingIndex.value]
    ensures ApplyEdit(h, other).Some?
    ensures Values(ApplyEdit(h, other).value.heap, h.defaults)[j].calls == Dashboard.EditedValue(h.tempValue, other)
  {
  }

  /**
   * For an email with no stored row, editing Monday to 5 and then pressing
   * "Reset to default" still shows 5 for Monday: the reset re-installs the `defaultData` array whose first object the
   * edit mutated. The value model shows 120 after the same steps.
   */
  lemma ResetAfterEditKeepsEdit(other: string -> int)
    ensures var h1 := EditText(StartEdit(FetchNotFound(Initial()), 0), "5");
      && ApplyEdit(h1, other).Some?
      && Shown(Reset(ApplyEdit(h1, other).value))[0] == ChartPoint("Mon", 5)
      && Shown(Reset(ApplyEdit(h1, other).value)) != DefaultData
    ensures var s1 := Dashboard.EditText(Dashboard.StartEdit(Dashboard.Fetch(Dashboard.Mount("a@b.com"), NotFound), 0), "5");
      && Dashboard.ApplyEdit(s1, other).Next?
      && Dashboard.Reset(Dashboard.ApplyEdit(s1, other).state).data[0] == ChartPoint("Mon", 120)
  {
    LiteralsParse(other);
    assert DigitsValue("5") == 5;
    var h1 := EditText(StartEdit(FetchNotFound(Initial()), 0), "5");
    assert Dashboard.EditedValue("5", other) == 5;
    var h2 := ApplyEdit(h1, other).value;
    assert Shown(Reset(h2))[0] == h2.heap[0];
  }

  /**
   * The leak crosses email sessions: for an email A with no stored row, edit
   * Monday to 5 and apply without saving, then change email and confirm an email
   * B with no stored row. B's dashboard shows Monday 5 on mount and after its
   * no-row fetch, and a save there would store 5 under B.
   */
  lemma EditCarriesIntoNextEmail(other: string -> int)
    ensures var h1 := EditText(StartEdit(FetchNotFound(Initial()), 0), "5");
      && ApplyEdit(h1, other).Some?
      && Shown(Remount(ApplyEdit(h1, other).value))[0] == ChartPoint("Mon", 5)
      && Shown(FetchNotFound(Remount(ApplyEdit(h1, other).value)))[0] == ChartPoint("Mon", 5)
  {
    ResetAfterEditKeepsEdit(other);
  }

  /**
   * After a fetch installs a stored series, editing its first point and then
   * re-installing the held row shows the edited value, not the fetched one: the
   * held row's array and the series share their objects.
   */
  lemma UseExistingAfterEditKeepsEdit(h: HeapState, ps: seq<ChartPoint>, other: string -> int)
    requires Valid(h) && |ps| > 0
    ensures var h1 := EditText(StartEdit(FetchFound(h, Points(ps)), 0), "5");
      && ApplyEdit(h1, other).Some?
      && UseExisting(ApplyEdit(h1, other).value).Some?
      && Shown(UseExisting(ApplyEdit(h1, other).value).value)[0] == ChartPoint(ps[0].name, 5)
  {
    assert DigitsValue("5") == 5;
    assert Dashboard.EditedValue("5", other) == 5;
  }
}
