# Call-analytics dashboard: a Dafny model

This project models the two small state machines of the call-analytics web app.

- The **dashboard controller** (`src/components/Dashboard.tsx`). It holds a weekly series of call counts. It loads a stored series for an email, edits single points in place, resets to a hard-coded week, and saves by upsert followed by a re-read.
- The **identity gate** (`src/App.tsx`). It collects an email, remembers it in the browser's `"ca_email"` cell, and shows the dashboard only for a confirmed email.

Every transition is a pure function over immutable state. Remote reads and writes are abstract inputs. The hosted table is a sequence of rows keyed by (email, chart_key). The browser cell is an `Option<string>`.

Modules:

- `Chart`: points, chart data (`Points(seq<ChartPoint>) | NotAnArray`, since `chart_data` is `any`), the chart key and the default week.
- `Decimal`: `String(n)` and `Number(text)` on decimal integers.
- `RowStore`: the `user_chart_values` table, the two-column read and the upsert.
- `Dashboard`: the controller with points as values. Handlers that can throw return `Step.Crashed`.
- `DashboardRun`: event sequences against the table. Proves that no handler throws while every stored row is one week long.
- `AsWrittenDashboard`: the series as arrays of references to mutable point objects, as the source holds it. It shows how an edit leaks into `defaultData` and into the held row.
- `IdentityGate`: startup, typing, confirm, change-email and the render gate.

Four behaviours of the code that are easy to misread:

- The `|| "0"` guard in `onApplyEdit` turns only the empty text into "0". Any other text goes to `Number`, which gives `NaN` for non-numeric text and 0 for whitespace-only text such as `" "`. The model fixes the value only for empty and decimal-integer text and leaves all other text, whitespace included, to an abstract reader.
- After "Change email", a reload confirms the stored email again at once. It does not merely pre-fill the form.
- `onUseExisting` installs the held row's chart data even when it is not an array. The next render's `data.map` then throws.
- Nothing on the page calls `onUseExisting`: the toolbar block where it could be wired (`Dashboard.tsx:207-211`) is empty. The model keeps it as an event so that its behaviour is stated, but the non-array crash and the held-row half of the aliasing leak cannot be reached from the page as written.

## Model

| member | source | states |
|---|---|---|
| Chart.DefaultDataIsAWeek | src/components/Dashboard.tsx:22-30 | the default series is seven points labelled Mon to Sun, with no label repeated |
| Decimal.ToDecimal | src/components/Dashboard.tsx:103 | `String(n)`: a minus sign exactly for negatives, then ASCII digits with no leading zero |
| Decimal.DecimalRoundTrip | src/components/Dashboard.tsx:103 | the text `String` writes for a count reads back as that same count |
| Decimal.JsNumber | src/components/Dashboard.tsx:108 | text that is an optional minus and digits reads as its integer value |
| Decimal.NumberOfStringIsIdentity | src/components/Dashboard.tsx:101-108 | `Number(String(n)) == n` for every integer, whatever non-decimal text reads as |
| Decimal.LiteralsParse | src/components/Dashboard.tsx:108 | "0" reads as 0 and "250" reads as 250 |
| RowStore.FindRow | src/components/Dashboard.tsx:44-50 | the result is the first row carrying (email, chart_key); None only when no row carries it |
| RowStore.Select | src/components/Dashboard.tsx:44-50 | the read finds a row exactly when one with that email and key exists; under unique keys it is that row; it never reports an error |
| RowStore.Upsert | src/components/Dashboard.tsx:87-89 | size grows by one only when the key was absent; rows with other keys are untouched; unique keys are preserved; the key then reads back with the written data |
| RowStore.UniqueKeyCountsOnce | src/components/Dashboard.tsx:87-89 | with unique keys, a present key is carried by exactly one row |
| RowStore.TwoUpsertsOneRow | src/components/Dashboard.tsx:79-96 | two saves under one key leave exactly one row for it, holding the second save's data |
| Dashboard.Mount | src/components/Dashboard.tsx:32-38 | a new dashboard shows the default week, holds no row, has no edit open and is not loading |
| Dashboard.Fetch | src/components/Dashboard.tsx:42-71 | on error, series and held row stay; with no row, the default week and no held row; with a row, it is held and its chart data replaces the series exactly when it is an array; loading ends false |
| Dashboard.NoRowShowsDefaultWeek | src/components/Dashboard.tsx:65-68 | a fetch with no row shows the seven default points, from Mon 120 to Sun 90 |
| Dashboard.StartEdit | src/components/Dashboard.tsx:101-104 | opens the edit on point i; the box text is `String` of that point's count and reads back as it; nothing else changes |
| Dashboard.EditText | src/components/Dashboard.tsx:181 | typing changes only the box text |
| Dashboard.EditedValue | src/components/Dashboard.tsx:108 | empty text gives 0, decimal text gives its value, other text is left to the abstract reader |
| Dashboard.ApplyEdit | src/components/Dashboard.tsx:106-115 | with no edit open it does nothing; past the end it throws; otherwise the same length, the edited point keeps its name and gets the value, every other point is unchanged, and the edit closes |
| Dashboard.StartThenApplyKeepsData | src/components/Dashboard.tsx:101-115 | opening an edit and applying it untouched leaves the series exactly as it was |
| Dashboard.TypedValueIsApplied | src/components/Dashboard.tsx:106-115 | applying "250" sets the point to 250; applying an empty box sets it to 0 |
| Dashboard.IdleEditKeepsData | src/components/Dashboard.tsx:106-107 | Apply with no edit open leaves the state unchanged |
| Dashboard.Cancel | src/components/Dashboard.tsx:186 | Cancel closes the edit and changes nothing else |
| Dashboard.Reset | src/components/Dashboard.tsx:199-203 | the series becomes the default week; the held row, flag and edit state are untouched |
| Dashboard.ResetIdempotent | src/components/Dashboard.tsx:199-203 | resetting twice equals resetting once |
| Dashboard.UseExisting | src/components/Dashboard.tsx:73-77 | without a held row, nothing changes; with an array, it becomes the series; a non-array crashes the next render |
| Dashboard.Payload | src/components/Dashboard.tsx:81-85 | the payload carries the dashboard's email, the fixed chart key and the current series |
| Dashboard.Save | src/components/Dashboard.tsx:79-99 | a failed upsert leaves table and series alone; a successful one writes the payload under (email, key) and re-reads that key, and that re-read may fail like any fetch; loading ends false |
| Dashboard.SaveThenFetchRoundTrip | src/components/Dashboard.tsx:79-96 | after a successful save and re-read, the series is what was saved and the held row carries it; another fetch changes nothing; the table keeps one row for the key |
| Dashboard.SaveWithFailedReread | src/components/Dashboard.tsx:94-96 | when the upsert succeeds but its re-read fails, the table holds the saved series while the state, held row included, stays as before |
| Dashboard.FailedSaveKeepsState | src/components/Dashboard.tsx:91-93 | a failed save changes neither the table nor the series nor the held row |
| DashboardRun.Read | src/components/Dashboard.tsx:44-53 | a failed read is an error; otherwise it is the two-column select on the table |
| DashboardRun.StepWorld | src/components/Dashboard.tsx:163-166 | only Apply and use-existing can throw; a start-edit past the end finds no button and changes nothing; only a save writes the table; the email never changes |
| DashboardRun.UpsertKeepsWeekRows | src/components/Dashboard.tsx:81-89 | saving a one-week series keeps every row under this email and chart key one week long |
| DashboardRun.StepKeepsSafe | src/components/Dashboard.tsx:42-115 | from a safe world no event throws, and safety is kept (week-long rows under the dashboard's own key, week-long series, edit index in range, flag matching held row) |
| DashboardRun.RunNeverCrashes | src/components/Dashboard.tsx:42-115 | no sequence of fetches, edits, resets, saves (and the uncalled use-existing) throws from a safe world |
| DashboardRun.MountIsSafe | src/components/Dashboard.tsx:32-38 | a dashboard mounted over week-long rows for its own key starts safe |
| DashboardRun.ShortStoredRowCrashes | src/components/Dashboard.tsx:106-113 | a shorter row written by another client makes edit, fetch, apply throw |
| AsWrittenDashboard.Values | src/components/Dashboard.tsx:110-111 | an array of references denotes the current contents of the objects it points to |
| AsWrittenDashboard.Initial | src/components/Dashboard.tsx:22-33 | on page load the series is the `defaultData` array itself and shows the default week, and no array repeats an object |
| AsWrittenDashboard.FetchFound | src/components/Dashboard.tsx:54-61 | a fetched array is made of objects allocated past the old heap, which is kept as it was; it is both the series and the held row's data; `defaultData` and the edit state are untouched; a non-array changes only the held row |
| AsWrittenDashboard.FetchNotFound | src/components/Dashboard.tsx:65-68 | with no row, the series becomes the `defaultData` array, objects included, the held row is dropped, and nothing else changes |
| AsWrittenDashboard.StartEdit | src/components/Dashboard.tsx:101-104 | the box text is `String` of the shown count of point i; only the edit index and box text change |
| AsWrittenDashboard.EditText | src/components/Dashboard.tsx:181 | typing changes only the box text |
| AsWrittenDashboard.ApplyEdit | src/components/Dashboard.tsx:106-115 | the array keeps its references, the referenced object is overwritten in the heap, the edit closes, and nothing else changes; past the end it throws |
| AsWrittenDashboard.FreshApplyEdit | src/components/Dashboard.tsx:106-115 | the corrected edit: in range it succeeds, allocates exactly one new point holding the edited name and value, points position i at it, and writes no existing object; only heap, series and edit index change; past the end it throws |
| AsWrittenDashboard.WellFormedReachable | src/components/Dashboard.tsx:54-115 | every transition, a remount included, keeps a state where no array repeats an object (page load gives one, by `Initial`) |
| AsWrittenDashboard.Reset | src/components/Dashboard.tsx:199-203 | the series becomes the `defaultData` array over the current heap, and nothing else changes |
| AsWrittenDashboard.UseExisting | src/components/Dashboard.tsx:73-77 | the held array becomes the series and nothing else changes; a non-array throws |
| AsWrittenDashboard.Remount | src/components/Dashboard.tsx:22-33 | a dashboard mounted again in the same page load starts from the `defaultData` array over the current heap, holds no row and has no edit open |
| AsWrittenDashboard.ApplyEditAgreesOnShownSeries | src/components/Dashboard.tsx:109-113 | on a series without repeated objects (every reachable state, by WellFormedReachable), the shown result equals the value model's edit |
| AsWrittenDashboard.ApplyEditLeaksIntoDefaults | src/components/Dashboard.tsx:110-111 | editing a point shared with `defaultData` rewrites that default point |
| AsWrittenDashboard.FreshApplyEditLeaksNothing | src/components/Dashboard.tsx:109-112 | the corrected edit shows the value model's series with no condition on shared objects and leaves the values of `defaultData` and of the held row unchanged |
| AsWrittenDashboard.FreshEditThenResetShowsDefaults | src/components/Dashboard.tsx:199-203 | for an email with no stored row, the corrected edit followed by Reset shows the default week |
| AsWrittenDashboard.ResetAfterEditKeepsEdit | src/components/Dashboard.tsx:106-115 | for an email with no stored row, editing Mon to 5 and resetting still shows Mon 5; the value model shows 120 |
| AsWrittenDashboard.EditCarriesIntoNextEmail | src/components/Dashboard.tsx:109-112 | an unsaved edit of Mon to 5 for one email with no row shows Mon 5 when the next email, also with no row, is confirmed |
| AsWrittenDashboard.SimInitial | src/components/Dashboard.tsx:22-33 | page load in the heap model corresponds to a fresh value-model dashboard |
| AsWrittenDashboard.SimFetch | src/components/Dashboard.tsx:54-71 | every fetch outcome keeps the two models in correspondence: same series shown, same held row contents, same edit state, `defaultData` intact |
| AsWrittenDashboard.SimEdit | src/components/Dashboard.tsx:101-104 | opening an edit, typing and cancelling keep the correspondence |
| AsWrittenDashboard.SimApplyEdit | src/components/Dashboard.tsx:106-115 | the corrected edit succeeds exactly when the value model's does, and keeps the correspondence |
| AsWrittenDashboard.SimReset | src/components/Dashboard.tsx:199-203 | with the corrected edit, reset and a remount for any email correspond to the value model's reset and fresh mount |
| AsWrittenDashboard.SimUseExisting | src/components/Dashboard.tsx:73-77 | re-installing the held row succeeds exactly when the value model's does, and keeps the correspondence |
| AsWrittenDashboard.UseExistingAfterEditKeepsEdit | src/components/Dashboard.tsx:73-77 | after a fetch and an edit, re-installing the held row shows the edited value |
| IdentityGate.Startup | src/App.tsx:8-14 | a stored non-empty email fills the box and is confirmed; an absent or empty one leaves nothing confirmed |
| IdentityGate.Confirm | src/App.tsx:16-21 | empty text changes nothing; otherwise the text is stored in the cell and confirmed |
| IdentityGate.ChangeEmailAction | src/App.tsx:23-25 | the confirmed email is cleared; the cell and the box text stay |
| IdentityGate.TypeText | src/App.tsx:41 | typing changes only the box text |
| IdentityGate.StepKeepsInvariant | src/App.tsx:16-25 | every event keeps "a confirmed email is non-empty and equals the cell" |
| IdentityGate.ConfirmedMatchesCell | src/App.tsx:8-25 | after page load and any events, a non-null confirmed email equals the cell |
| IdentityGate.View | src/App.tsx:35-63 | the dashboard is shown only for a confirmed, non-empty email and is given it; otherwise the form shows the box text |
| IdentityGate.GateShowsDashboardIffConfirmed | src/App.tsx:35-63 | the dashboard is shown exactly when an email is confirmed, and is given that email; otherwise the form shows the box text |
| IdentityGate.EmptyConfirmIsNoOp | src/App.tsx:18 | confirming an empty box changes neither the cell nor the confirmed email |
| IdentityGate.ChangeAndBackKeepsCell | src/App.tsx:16-25 | change email then confirm the same text restores the state; change email keeps the cell |
| IdentityGate.ReloadRestoresConfirmed | src/App.tsx:8-20 | after confirming, a reload confirms the same email again |
| IdentityGate.ReloadAfterChangeReconfirms | src/App.tsx:8-25 | a reload after "Change email" confirms the stored email again |

## Left out

- `src/lib/supabase.ts` is not part of this model. It covers client construction and the warning about missing settings.
- Network calls, `alert`, `console.*` and `localStorage` I/O are not modelled. Their outcomes are inputs: a read or upsert either succeeds or fails. The cell is an `Option<string>`.
- Async interleavings are not modelled. Each fetch and save completes atomically. In the source, `setLoading(false)` after a save runs while the re-read is still in flight. A fetch still in flight when "Change email" unmounts the dashboard (src/App.tsx:35) can only reach the old, unmounted instance, so it cannot change what the next email sees. Both are concurrency, not sequential logic.
- Recharts rendering and the JSX layout are not modelled. The one render fact kept is that `data.map` throws on a non-array. The save button's `disabled={loading}` is not modelled, because `loading` is false between events in a sequential model.
- Decimal.JsNumber: weaker than JavaScript's `Number`. Text other than an optional minus and ASCII digits is handed to an arbitrary `other` function, and its result stands in for `NaN`, fractions, exponents, padded text and the 0 that JavaScript gives for whitespace-only text.
- Dashboard.EditedValue: weaker than JavaScript for the same reason; only empty and decimal text have fixed values.
- Dashboard.SaveThenFetchRoundTrip: proved for integer counts only. In the source, applying non-numeric text stores `NaN` in the point; the upsert sends the payload as JSON, which writes `NaN` and `Infinity` as `null`, so the re-read returns `null` for that count, not the value saved. The model's integer stand-in for such values survives the table unchanged.
- Counts are unbounded integers. Double-precision rounding above 2^53 is not modelled. Neither is `String`'s switch to exponent notation at 1e21.
- The source checks only that fetched `chart_data` is an array, not what its elements are. The model reads every array as a series of points.
- The browser's `type="email" required` form validation is not modelled. Only the code's own empty-text guard is.
- The table schema is not shown. The model assumes that an upsert on an existing key keeps its `id` and `created_at` and stamps `updated_at`, and that an insert takes a server-chosen id.
- Remounting the dashboard after an email change starts a fresh `Dashboard.Mount`, which is the corrected behaviour. `AsWrittenDashboard` covers one mount plus `Remount`; in the source a remount after "Change email" in the same page load re-installs the mutated `defaultData` objects, and `AsWrittenDashboard.EditCarriesIntoNextEmail` shows it. A full page reload rebuilds `defaultData` and is not modelled as a heap transition.
- The `hasExisting` block of the toolbar (`Dashboard.tsx:207-211`) renders nothing, so it has no model.
- `onUseExisting` has no caller anywhere on the page. `Dashboard.UseExisting`, the use-existing event and `AsWrittenDashboard.UseExistingAfterEditKeepsEdit` state what it would do if wired; the model does not claim a user can reach it.

## Findings

| source | as written | input that shows it | evidently intended | confidence | as-written member | corrected member |
|---|---|---|---|---|---|---|
| src/components/Dashboard.tsx:109-112 | the edit copies the array but assigns `calls` on the point object it shares with `defaultData` and the held row | for an email with no stored row: page load, edit Mon, type "5", Apply, press "Reset to default": Mon still shows 5. Across emails: email A with no stored row, edit Mon to 5, Apply, no save, "Change email", confirm B with no stored row: B's dashboard shows Mon 5, and Save would store 5 under B (`AsWrittenDashboard.EditCarriesIntoNextEmail`) | reset shows the default week (Mon 120), and edits reach neither `defaultData` nor the held row | high; not executed | AsWrittenDashboard.ResetAfterEditKeepsEdit | AsWrittenDashboard.FreshApplyEditLeaksNothing |

The corrected edit allocates a new point for the edited position. The `Dashboard` module, which holds points as values, has the same observable behaviour: `AsWrittenDashboard.FreshApplyEditLeaksNothing` states the agreement for one edit, and the simulation lemmas `AsWrittenDashboard.SimInitial` through `AsWrittenDashboard.SimUseExisting` show that the heap model with the corrected edit and the value model stay in correspondence through every handler, reset and remount included. The rest of the model uses the value model.
