/**
 * The hosted `user_chart_values` table as the dashboard sees it: a sequence of
 * rows, read by a two-column filter and written by an upsert whose conflict
 * target is the pair (email, chart_key).
 */
module RowStore {
  import opened Optional
  import opened Chart

  /** A persisted row (`UserChartRow` in src/types.ts); id and timestamps are server-chosen text. */
  datatype UserChartRow = UserChartRow(
    id: string,
    email: string,
    chartKey: string,
    chartData: ChartData,
    createdAt: string,
    updatedAt: string)

  type Table = seq<UserChartRow>

  /** What one read of the table hands back to the dashboard. */
  datatype FetchResult = FetchError | Found(row: UserChartRow) | NotFound

  predicate Matches(row: UserChartRow, email: string, key: string) {
    row.email == email && row.chartKey == key
  }

  /** At most one row per (email, chart_key): the uniqueness the upsert's conflict target relies on. */
  predicate UniqueKeys(t: Table) {
    forall i, j :: 0 <= i < |t| && 0 <= j < |t| && Matches(t[j], t[i].email, t[i].chartKey) ==> i == j
  }

  /** Position of the first row with the given key, if any. */
  function FindRow(t: Table, email: string, key: string): (r: Option<nat>)
    ensures r.Some? ==> r.value < |t| && Matches(t[r.value], email, key)
    ensures r.Some? ==> forall j :: 0 <= j < r.value ==> !Matches(t[j], email, key)
    ensures r.None? ==> forall j :: 0 <= j < |t| ==> !Matches(t[j], email, key)
    decreases |t|
  {
    if |t| == 0 then None
    else if Matches(t[0], email, key) then Some(0)
    else match FindRow(t[1..], email, key)
      case None => None
      case Some(k) => Some(k + 1)
  }

  /** FindRow picks exactly the first matching position. */
  lemma FindRowIsFirst(t: Table, email: string, key: string, i: nat)
    requires i < |t| && Matches(t[i], email, key)
    requires forall j :: 0 <= j < i ==> !Matches(t[j], email, key)
    ensures FindRow(t, email, key) == Some(i)
  {
  }

  /** The filtered read: rows with this email and chart key, at most one, zero tolerated. */
  function Select(t: Table, email: string, key: string): (r: FetchResult)
    ensures r != FetchError
    ensures r.Found? <==> exists i :: 0 <= i < |t| && Matches(t[i], email, key)
    ensures r.Found? ==> r.row in t && Matches(r.row, email, key)
    ensures r.Found? && UniqueKeys(t) ==> forall i :: 0 <= i < |t| && Matches(t[i], email, key) ==> t[i] == r.row
  {
    match FindRow(t, email, key)
    case Some(i) => Found(t[i])
    case None => NotFound
  }

  /**
   * Insert-or-update on (email, chart_key). An existing row keeps its id and
   * creation time and receives the new chart data; a new row takes the
   * server-chosen id. `stamp` stands for the server's clock.
   */
  function Upsert(t: Table, email: string, key: string, data: ChartData, newId: string, stamp: string): (t': Table)
    ensures |t'| == if FindRow(t, email, key).Some? then |t| else |t| + 1
    ensures forall i :: 0 <= i < |t| && !Matches(t[i], email, key) ==> t'[i] == t[i]
    ensures UniqueKeys(t) ==> UniqueKeys(t')
    ensures FindRow(t', email, key).Some? && t'[FindRow(t', email, key).value].chartData == data
  {
    match FindRow(t, email, key)
    case Some(i) =>
      var t' := t[i := t[i].(chartData := data, updatedAt := stamp)];
      assert FindRow(t', email, key) == Some(i) by {
        assert Matches(t'[i], email, key);
        forall j | 0 <= j < i ensures !Matches(t'[j], email, key) {
          assert t'[j] == t[j];
        }
        FindRowIsFirst(t', email, key, i);
      }
      t'
    case None =>
      var t' := t + [UserChartRow(newId, email, key, data, stamp, stamp)];
      assert FindRow(t', email, key) == Some(|t|) by {
        assert Matches(t'[|t|], email, key);
        forall j | 0 <= j < |t| ensures !Matches(t'[j], email, key) {
          assert t'[j] == t[j];
        }
        FindRowIsFirst(t', email, key, |t|);
      }
      t'
  }

  /** Number of rows carrying the given key. */
  function MatchCount(t: Table, email: string, key: string): (c: nat)
    decreases |t|
  {
    if |t| == 0 then 0
    else (if Matches(t[0], email, key) then 1 else 0) + MatchCount(t[1..], email, key)
  }

  lemma {:induction false} NoMatchNoCount(t: Table, email: string, key: string)
    requires forall i :: 0 <= i < |t| ==> !Matches(t[i], email, key)
    ensures MatchCount(t, email, key) == 0
    decreases |t|
  {
    if |t| > 0 {
      NoMatchNoCount(t[1..], email, key);
    }
  }

  lemma {:induction false} UniqueKeysSuffix(t: Table)
    requires UniqueKeys(t) && |t| > 0
    ensures UniqueKeys(t[1..])
  {
    var s := t[1..];
    forall i, j | 0 <= i < |s| && 0 <= j < |s| && Matches(s[j], s[i].email, s[i].chartKey)
      ensures i == j
    {
      assert s[i] == t[i + 1] && s[j] == t[j + 1];
    }
  }

  /** In a table with unique keys a present key is carried by exactly one row. */
  lemma {:induction false} UniqueKeyCountsOnce(t: Table, email: string, key: string)
    requires UniqueKeys(t)
    requires exists i :: 0 <= i < |t| && Matches(t[i], email, key)
    ensures MatchCount(t, email, key) == 1
    decreases |t|
  {
    if Matches(t[0], email, key) {
      forall i | 0 <= i < |t[1..]|
        ensures !Matches(t[1..][i], email, key)
      {
        assert t[1..][i] == t[i + 1];
      }
      NoMatchNoCount(t[1..], email, key);
    } else {
      var i :| 0 <= i < |t| && Matches(t[i], email, key);
      assert t[1..][i - 1] == t[i];
      UniqueKeysSuffix(t);
      UniqueKeyCountsOnce(t[1..], email, key);
    }
  }

  /** Saving twice under one key leaves exactly one row for that key, holding the second save's data. */
  lemma TwoUpsertsOneRow(t: Table, email: string, key: string, d1: ChartData, d2: ChartData,
                         id1: string, id2: string, stamp1: string, stamp2: string)
    requires UniqueKeys(t)
    ensures var t2 := Upsert(Upsert(t, email, key, d1, id1, stamp1), email, key, d2, id2, stamp2);
      && UniqueKeys(t2)
      && MatchCount(t2, email, key) == 1
      && Select(t2, email, key).Found?
      && Select(t2, email, key).row.chartData == d2
  {
    var t1 := Upsert(t, email, key, d1, id1, stamp1);
    var t2 := Upsert(t1, email, key, d2, id2, stamp2);
    UniqueKeyCountsOnce(t2, email, key);
  }
}
