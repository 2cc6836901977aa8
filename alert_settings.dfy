/**
 * The alerts section of the settings page
 * (`components/settings/sections/Alerts.tsx`): its form schema, its
 * submit, which patches the alerts section alone, and the quiet-hours
 * editor, whose start and end fields fill in the other end when none is
 * set.
 */
module AlertSettings {
  import opened Wrappers
  import opened SettingsTypes
  import opened SettingsSchema
  import opened SettingsStore

  /** `alertsSchema`, the form's own copy of the alert rules. */
  predicate FormValid(a: Alerts) {
    && 100.0 <= a.thresholds.heelHigh <= 600.0
    && 100.0 <= a.thresholds.ankleHigh <= 600.0
    && 0.0 <= a.repeatEveryMin <= 60.0
    && match a.quietHours
       case QuietUnset => false
       case QuietNull => true
       case QuietSet(start, end) => IsClockText(start) && IsClockText(end)
  }

  /** The form accepts exactly what the store's schema accepts for this section. */
  lemma FormMatchesStore(a: Alerts)
    ensures FormValid(a) <==> ValidAlerts(a)
  {
  }

  /** `onSubmit`, reached only when the form schema accepts the data: the patch `{ alerts: data }`. */
  function Submit(data: Alerts): (u: Option<Update>)
    ensures u.Some? <==> FormValid(data)
    ensures u.Some? ==> u.value.alerts == Some(data) && u.value.(alerts := None) == NoChange
  {
    if FormValid(data) then Some(NoChange.(alerts := Some(data))) else None
  }

  /** A submitted form changes the alerts section and nothing else, and keeps valid settings valid. */
  lemma SubmitOnlyAlerts(current: Settings, data: Alerts)
    requires FormValid(data)
    ensures Merge(current, Submit(data).value) == current.(alerts := data)
    ensures Valid(current) ==> Valid(Merge(current, Submit(data).value))
  {
  }

  /** JavaScript's `a || b` on strings: the empty string gives way to the fallback. */
  function OrElse(a: string, fallback: string): string {
    if a != "" then a else fallback
  }

  /** `form.watch("quietHours")?.start || ""`, the start time shown. */
  function StartShown(q: QuietField): string {
    if q.QuietSet? then q.start else ""
  }

  /** `form.watch("quietHours")?.end || ""`, the end time shown. */
  function EndShown(q: QuietField): string {
    if q.QuietSet? then q.end else ""
  }

  /** The quiet hours after the start field is changed to `value`. */
  function StartEdited(q: QuietField, value: string): (r: QuietField)
    ensures r.QuietSet? && StartShown(r) == value
    ensures EndShown(r) == OrElse(EndShown(q), "07:00")
  {
    QuietSet(value, OrElse(if q.QuietSet? then q.end else "", "07:00"))
  }

  /** The quiet hours after the end field is changed to `value`. */
  function EndEdited(q: QuietField, value: string): (r: QuietField)
    ensures r.QuietSet? && EndShown(r) == value
    ensures StartShown(r) == OrElse(StartShown(q), "22:00")
  {
    QuietSet(OrElse(if q.QuietSet? then q.start else "", "22:00"), value)
  }

  /**
   * Editing one end with a well-formed time gives quiet hours the schema
   * accepts, as long as the other end was well formed or blank.
   */
  lemma EditsStayValid(q: QuietField, value: string)
    requires IsClockText(value)
    ensures EndShown(q) == "" || IsClockText(EndShown(q)) ==> ValidQuietHours(StartEdited(q, value))
    ensures StartShown(q) == "" || IsClockText(StartShown(q)) ==> ValidQuietHours(EndEdited(q, value))
  {
    ClockShapeOnly();
  }

  /** With no quiet hours yet, the first edit fills the other end with its default. */
  lemma FirstEdit(value: string)
    ensures StartEdited(QuietNull, value) == QuietSet(value, "07:00")
    ensures EndEdited(QuietNull, value) == QuietSet("22:00", value)
    ensures StartEdited(QuietUnset, value) == StartEdited(QuietNull, value)
  {
  }

  /** Editing the start then the end sets both, whatever was there before. */
  lemma EditBoth(q: QuietField, start: string, end: string)
    requires start != ""
    ensures EndEdited(StartEdited(q, start), end) == QuietSet(start, end)
  {
  }

  /** The quiet-hours field of the alerts form. */
  class QuietHoursEditor {
    var quietHours: QuietField

    constructor(current: Alerts)
      ensures quietHours == current.quietHours
    {
      quietHours := current.quietHours;
    }

    /** The start input's `onChange`. */
    method EditStart(value: string)
      modifies this
      ensures quietHours == StartEdited(old(quietHours), value)
    {
      var current := quietHours;
      var end := if current.QuietSet? then current.end else "";
      quietHours := QuietSet(value, if end != "" then end else "07:00");
    }

    /** The end input's `onChange`. */
    method EditEnd(value: string)
      modifies this
      ensures quietHours == EndEdited(old(quietHours), value)
    {
      var current := quietHours;
      var start := if current.QuietSet? then current.start else "";
      quietHours := QuietSet(if start != "" then start else "22:00", value);
    }

    /** The clear button: quiet hours become `null`, which the schema accepts. */
    method Clear()
      modifies this
      ensures quietHours == QuietNull && ValidQuietHours(quietHours)
    {
      quietHours := QuietNull;
    }
  }
}
