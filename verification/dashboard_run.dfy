/**
 * The dashboard driven by a sequence of user and network events against the
 * table. Each fetch reads the table for the dashboard's own key; the network
 * may fail any read or upsert.
 */
module DashboardRun {
  import opened Optional
  import opened Chart
  import opened RowStore
  import opened Dashboard

  datatype Event =
    | FetchEvent(readOk: bool)
    | StartEditEvent(index: nat)
    | TypeEvent(text: string)
    | ApplyEvent
    | CancelEvent
    | ResetEvent
    | UseExistingEvent   // `onUseExisting` has no caller on the page; kept so the theorems cover it
    | SaveEvent(upsertOk: bool, readOk: bool, newId: string, stamp: string)

  datatype World = World(dash: DashboardState, table: Table)

  /** What one read of the table for the dashboard's key returns. */
  function Read(w: World, readOk: bool): (res: FetchResult)
    ensures !readOk ==> res.FetchError?
    ensures readOk ==> res == Select(w.table, w.dash.email, DefaultChartKey)
  {
    if readOk then Select(w.table, w.dash.email, DefaultChartKey) else FetchError
  }

  /**
   * One event; None when a handler throws. Edit buttons exist only for indices of
   * the rendered series, so a start-edit event beyond it finds no button and does nothing.
   */
  function StepWorld(w: World, e: Event, other: string -> int): (r: Option<World>)
    ensures r.None? ==> e.ApplyEvent? || e.UseExistingEvent?
    ensures e.StartEditEvent? && e.index >= |w.dash.data| ==> r == Some(w)
    ensures r.Some? && !e.SaveEvent? ==> r.value.table == w.table
    ensures r.Some? ==> r.value.dash.email == w.dash.email
  {
    match e
    case FetchEvent(ok) => Some(w.(dash := Fetch(w.dash, Read(w, ok))))
    case StartEditEvent(i) =>
      if i < |w.dash.data| then Some(w.(dash := StartEdit(w.dash, i))) else Some(w)
    case TypeEvent(text) => Some(w.(dash := EditText(w.dash, text)))
    case ApplyEvent =>
      (match ApplyEdit(w.dash, other)
       case Next(d) => Some(w.(dash := d))
       case Crashed => None)
    case CancelEvent => Some(w.(dash := Cancel(w.dash)))
    case ResetEvent => Some(w.(dash := Reset(w.dash)))
    case UseExistingEvent =>
      (match UseExisting(w.dash)
       case Next(d) => Some(w.(dash := d))
       case Crashed => None)
    case SaveEvent(ok, readOk, newId, stamp) =>
      var (d, t) := Save(w.dash, w.table, ok, readOk, newId, stamp);
      Some(World(d, t))
  }

  /** Runs events in order; None once any handler has thrown. */
  function Run(w: World, events: seq<Event>, other: string -> int): (r: Option<World>)
    decreases |events|
  {
    if |events| == 0 then Some(w)
    else match StepWorld(w, events[0], other)
      case None => None
      case Some(w') => Run(w', events[1..], other)
  }

  /** Every row stored under this email and the dashboard's chart key holds an array of exactly one week. */
  predicate WeekRows(t: Table, email: string) {
    forall i :: 0 <= i < |t| && Matches(t[i], email, DefaultChartKey) ==>
      t[i].chartData.Points? && |t[i].chartData.points| == WeekLength
  }

  /** The state invariant under which no handler can throw. */
  predicate Safe(w: World) {
    && WeekRows(w.table, w.dash.email)
    && |w.dash.data| == WeekLength
    && (w.dash.editingIndex.Some? ==> w.dash.editingIndex.value < |w.dash.data|)
    && (w.dash.hasExisting <==> w.dash.existingRow.Some?)
    && (w.dash.existingRow.Some? ==>
          w.dash.existingRow.value.chartData.Points? && |w.dash.existingRow.value.chartData.points| == WeekLength)
    && !w.dash.loading
  }

  lemma UpsertKeepsWeekRows(t: Table, email: string, data: seq<ChartPoint>, newId: string, stamp: string)
    requires WeekRows(t, email) && |data| == WeekLength
    ensures WeekRows(Upsert(t, email, DefaultChartKey, Points(data), newId, stamp), email)
  {
    var t' := Upsert(t, email, DefaultChartKey, Points(data), newId, stamp);
    match FindRow(t, email, DefaultChartKey)
    case Some(i) =>
      assert t' == t[i := t[i].(chartData := Points(data), updatedAt := stamp)];
    case None =>
      assert t' == t + [UserChartRow(newId, email, DefaultChartKey, Points(data), stamp, stamp)];
  }

  /** Every event keeps the invariant and none throws. */
  lemma StepKeepsSafe(w: World, e: Event, other: string -> int)
    requires Safe(w)
    ensures StepWorld(w, e, other).Some?
    ensures Safe(StepWorld(w, e, other).value)
  {
    match e
    case FetchEvent(ok) =>
      var res := Read(w, ok);
      if res.Found? {
        var i :| 0 <= i < |w.table| && w.table[i] == res.row;
      }
    case SaveEvent(ok, readOk, newId, stamp) =>
      if ok {
        var t' := Upsert(w.table, w.dash.email, DefaultChartKey, Points(w.dash.data), newId, stamp);
        UpsertKeepsWeekRows(w.table, w.dash.email, w.dash.data, newId, stamp);
        var res := Select(t', w.dash.email, DefaultChartKey);
        if readOk && res.Found? {
          var i :| 0 <= i < |t'| && t'[i] == res.row;
        }
      }
    case _ =>
  }

  /** From a safe world, no sequence of events makes the dashboard throw. */
  lemma {:induction false} RunNeverCrashes(w: World, events: seq<Event>, other: string -> int)
    requires Safe(w)
    ensures Run(w, events, other).Some?
    ensures Safe(Run(w, events, other).value)
    decreases |events|
  {
    if |events| > 0 {
      StepKeepsSafe(w, events[0], other);
      RunNeverCrashes(StepWorld(w, events[0], other).value, events[1..], other);
    }
  }

  /** A dashboard mounted over a table of week-long rows starts safe. */
  lemma MountIsSafe(email: string, t: Table)
    requires WeekRows(t, email)
    ensures Safe(World(Mount(email), t))
  {
  }

  /**
   * The invariant on stored rows is needed: if another writer stored a shorter
   * series, editing the fourth day, then fetching, then applying throws.
   */
  lemma ShortStoredRowCrashes(other: string -> int)
    ensures var row := UserChartRow("r1", "a@b.com", DefaultChartKey, Points([]), "t0", "t0");
      Run(World(Mount("a@b.com"), [row]), [StartEditEvent(3), FetchEvent(true), ApplyEvent], other).None?
  {
    var row := UserChartRow("r1", "a@b.com", DefaultChartKey, Points([]), "t0", "t0");
    var w0 := World(Mount("a@b.com"), [row]);
    var w1 := StepWorld(w0, StartEditEvent(3), other).value;
    assert Select(w1.table, "a@b.com", DefaultChartKey) == Found(row);
    var w2 := StepWorld(w1, FetchEvent(true), other).value;
    assert w2.dash.data == [];
    var evs := [StartEditEvent(3), FetchEvent(true), ApplyEvent];
    assert evs[1..] == [FetchEvent(true), ApplyEvent];
    assert evs[1..][1..] == [ApplyEvent];
  }
}
