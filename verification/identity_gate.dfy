/**
 * The email gate of src/App.tsx: the text in the email box, the confirmed
 * email that scopes the dashboard, and the browser's persistent "ca_email" cell.
 */
module IdentityGate {
  import opened Optional

  /** The cell name under which the last confirmed email is remembered. */
  /** `cell` is the value stored under "ca_email"; None when nothing was ever stored. */
  datatype AppState = AppState(input: string, confirmed: Option<string>, cell: Option<string>)

  datatype Event = TypeEmail(text: string) | ConfirmEmail | ChangeEmail

  /** What the page shows: the entry form with its text, or the dashboard for an email. */
  datatype Screen = EntryForm(text: string) | DashboardFor(email: string)

  /** Page load: a stored, non-empty email fills the box and is confirmed at once. */
  function Startup(cell: Option<string>): (s: AppState)
    ensures s.cell == cell
    ensures cell.Some? && cell.value != "" ==> s.input == cell.value && s.confirmed == Some(cell.value)
    ensures cell.None? || cell.value == "" ==> s.input == "" && s.confirmed.None?
  {
    if cell.Some? && cell.value != "" then AppState(cell.value, Some(cell.value), cell)
    else AppState("", None, cell)
  }

  /** Submitting the form: empty text is ignored; otherwise it is stored and confirmed. */
  function Confirm(s: AppState): (r: AppState)
    ensures s.input == "" ==> r == s
    ensures s.input != "" ==> r.cell == Some(s.input) && r.confirmed == Some(s.input) && r.input == s.input
  {
    if s.input == "" then s else s.(cell := Some(s.input), confirmed := Some(s.input))
  }

  /** "Change email": back to the form; the stored cell and the typed text stay. */
  function ChangeEmailAction(s: AppState): (r: AppState)
    ensures r.confirmed.None?
    ensures r.cell == s.cell && r.input == s.input
  {
    s.(confirmed := None)
  }

  function TypeText(s: AppState, text: string): (r: AppState)
    ensures r.input == text && r.confirmed == s.confirmed && r.cell == s.cell
  {
    s.(input := text)
  }

  function Step(s: AppState, e: Event): (r: AppState) {
    match e
    case TypeEmail(text) => TypeText(s, text)
    case ConfirmEmail => Confirm(s)
    case ChangeEmail => ChangeEmailAction(s)
  }

  function Run(s: AppState, events: seq<Event>): (r: AppState)
    decreases |events|
  {
    if |events| == 0 then s else Run(Step(s, events[0]), events[1..])
  }

  /** The form is shown while the confirmed email is null or empty (a falsy test). */
  function View(s: AppState): (r: Screen)
    ensures r.DashboardFor? ==> s.confirmed == Some(r.email) && r.email != ""
    ensures r.EntryForm? ==> r.text == s.input && (s.confirmed.None? || s.confirmed.value == "")
  {
    if s.confirmed.None? || s.confirmed.value == "" then EntryForm(s.input)
    else DashboardFor(s.confirmed.value)
  }

  /** A confirmed email is never empty and is what the cell holds. */
  predicate GateInvariant(s: AppState) {
    s.confirmed.Some? ==> s.confirmed.value != "" && s.cell == s.confirmed
  }

  lemma StartupEstablishesInvariant(cell: Option<string>)
    ensures GateInvariant(Startup(cell))
  {
  }

  lemma StepKeepsInvariant(s: AppState, e: Event)
    requires GateInvariant(s)
    ensures GateInvariant(Step(s, e))
  {
  }

  /** Over any run from page load, a non-null confirmed email equals the stored cell. */
  lemma {:induction false} ConfirmedMatchesCell(cell: Option<string>, events: seq<Event>)
    ensures GateInvariant(Run(Startup(cell), events))
  {
    StartupEstablishesInvariant(cell);
    RunKeepsInvariant(Startup(cell), events);
  }

  lemma {:induction false} RunKeepsInvariant(s: AppState, events: seq<Event>)
    requires GateInvariant(s)
    ensures GateInvariant(Run(s, events))
    decreases |events|
  {
    if |events| > 0 {
      StepKeepsInvariant(s, events[0]);
      RunKeepsInvariant(Step(s, events[0]), events[1..]);
    }
  }

  /**
   * Under the invariant the falsy test is a null test: the dashboard is shown
   * exactly when an email is confirmed, and it is given that email.
   */
  lemma GateShowsDashboardIffConfirmed(s: AppState)
    requires GateInvariant(s)
    ensures View(s).DashboardFor? <==> s.confirmed.Some?
    ensures View(s).DashboardFor? ==> View(s).email == s.confirmed.value
    ensures View(s).EntryForm? ==> View(s).text == s.input
  {
  }

  /** The empty box confirms nothing and stores nothing. */
  lemma EmptyConfirmIsNoOp(s: AppState)
    requires s.input == ""
    ensures Confirm(s).cell == s.cell && Confirm(s).confirmed == s.confirmed
  {
  }

  /**
   * Changing email and confirming the same text again keeps the stored cell;
   * a reload after confirming brings the same email back, confirmed.
   */
  lemma ChangeAndBackKeepsCell(s: AppState)
    requires GateInvariant(s) && s.confirmed.Some? && s.input == s.confirmed.value
    ensures Confirm(ChangeEmailAction(s)) == s
    ensures ChangeEmailAction(s).cell == s.cell
  {
  }

  lemma ReloadRestoresConfirmed(s: AppState)
    requires s.input != ""
    ensures Startup(Confirm(s).cell).confirmed == Some(s.input)
    ensures Startup(Confirm(s).cell).input == s.input
  {
  }

  /** A reload after "Change email" confirms the stored email again rather than stopping at the form. */
  lemma ReloadAfterChangeReconfirms(s: AppState)
    requires GateInvariant(s) && s.confirmed.Some?
    ensures Startup(ChangeEmailAction(s).cell).confirmed == s.confirmed
  {
  }
}
