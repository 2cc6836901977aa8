/**
 * The settings store of `lib/settings/store.ts`: one `settings` value,
 * replaced by `setSettings`, `patch`, `reset` and `importJson`, and read
 * by `exportJson`.
 *
 * JSON text is not modelled: an import receives what `JSON.parse` made of
 * the text (a `Document`, or the parser's error message), and an export
 * yields the `Document` that `JSON.stringify` would write.
 */
module SettingsStore {
  import opened Wrappers
  import opened SettingsTypes
  import opened SettingsSchema

  /** `Partial<Settings>`: the sections a patch supplies; `None` for a key it leaves out. */
  datatype Update = Update(
    profile: Option<Profile>,
    alerts: Option<Alerts>,
    visualization: Option<Visualization>,
    device: Option<Device>,
    calibration: Option<Calibration>,
    history: Option<History>,
    accessibility: Option<Accessibility>)

  /** The empty patch `{}`. */
  const NoChange: Update := Update(None, None, None, None, None, None, None)

  function Pick<T>(supplied: Option<T>, current: T): T {
    if supplied.Some? then supplied.value else current
  }

  /** `{ ...current, ...updates }`: a supplied section replaces the whole section. */
  function Merge(current: Settings, u: Update): Settings {
    Settings(
      Pick(u.profile, current.profile),
      Pick(u.alerts, current.alerts),
      Pick(u.visualization, current.visualization),
      Pick(u.device, current.device),
      Pick(u.calibration, current.calibration),
      Pick(u.history, current.history),
      Pick(u.accessibility, current.accessibility))
  }

  /** A JSON value as `JSON.parse` may produce it for one key. */
  datatype Json =
    | JUndefined
    | JNull
    | JBool(b: bool)
    | JNumber(n: real)
    | JString(s: string)
    | JSettings(settings: Settings)  // an object with the shape of the settings record
    | JObject                        // any other object or array

  /** The two keys the import reads from a parsed settings file. */
  datatype Document = Document(version: Json, settings: Json)

  /** Why an import throws. */
  datatype ImportError =
    | NotJson(message: string)
    | UnsupportedVersion
    | SchemaRejected

  /**
   * The message of the error an import throws; `zodMessage` stands for
   * the text of the schema's own error.
   */
  function ErrorMessage(e: ImportError, zodMessage: string): string {
    "Invalid settings format: " +
    match e
    case NotJson(message) => message
    case UnsupportedVersion => "Unsupported settings version"
    case SchemaRejected => zodMessage
  }

  /**
   * What `importJson` stores, or the error it throws. The schema step is
   * `settingsSchema.parse`, which returns its input exactly when the input
   * is valid (`SettingsSchema.Parse`; `ImportAccepts` states the match).
   */
  function Imported(parsed: Result<Document, string>): (r: Result<Settings, ImportError>)
    ensures r.Success? ==> Valid(r.value)
  {
    match parsed
    case Failure(message) => Failure(NotJson(message))
    case Success(doc) =>
      if doc.version != JNumber(1.0) then Failure(UnsupportedVersion)
      else if !doc.settings.JSettings? then Failure(SchemaRejected)
      else if Valid(doc.settings.settings) then Success(doc.settings.settings)
      else Failure(SchemaRejected)
  }

  /** `{ version: 1, settings }`, the document `exportJson` writes. */
  function Exported(s: Settings): (d: Document)
    ensures d.version == JNumber(1.0)
  {
    Document(JNumber(1.0), JSettings(s))
  }

  class Store {
    /** The value the store starts from and `reset` restores: `DEFAULT_SETTINGS` in the source. */
    const defaults: Settings
    var settings: Settings

    /**
     * The store holds either the defaults, which are stored unvalidated,
     * or a value the schema accepted.
     */
    ghost predicate Consistent()
      reads this
    {
      settings == defaults || Valid(settings)
    }

    constructor(defaults: Settings)
      ensures this.defaults == defaults && settings == defaults
      ensures Consistent()
    {
      this.defaults := defaults;
      settings := defaults;
    }

    /** `setSettings`: stores its argument if the schema accepts it, and otherwise throws the issues. */
    method SetSettings(s: Settings) returns (r: Result<(), seq<string>>)
      requires Consistent()
      modifies this
      ensures Consistent()
      ensures r.Success? <==> Valid(s)
      ensures settings == if Valid(s) then s else old(settings)
      ensures r.Failure? ==> r.error == Issues(s)
    {
      var validated := Parse(s);
      if validated.Failure? {
        IssuesExactlyInvalid(s);
        return Failure(validated.error);
      }
      settings := validated.value;
      return Success(());
    }

    /** `patch`: merges the supplied sections, then validates as `setSettings` does. */
    method Patch(u: Update) returns (r: Result<(), seq<string>>)
      requires Consistent()
      modifies this
      ensures Consistent()
      ensures r.Success? <==> Valid(Merge(old(settings), u))
      ensures settings == if r.Success? then Merge(old(settings), u) else old(settings)
      ensures r.Success? ==> Valid(settings)
      ensures r.Failure? ==> r.error == Issues(Merge(old(settings), u))
    {
      var merged := Merge(settings, u);
      var validated := Parse(merged);
      if validated.Failure? {
        IssuesExactlyInvalid(merged);
        return Failure(validated.error);
      }
      settings := validated.value;
      return Success(());
    }

    /** `reset`: restores the defaults, without validating them. */
    method Reset()
      requires Consistent()
      modifies this
      ensures Consistent()
      ensures settings == defaults
    {
      settings := defaults;
    }

    /** `importJson`: stores the imported settings, or throws and leaves the state as it was. */
    method ImportJson(parsed: Result<Document, string>) returns (r: Result<(), ImportError>)
      requires Consistent()
      modifies this
      ensures Consistent()
      ensures r.Success? <==> Imported(parsed).Success?
      ensures r.Failure? ==> r.error == Imported(parsed).error
      ensures settings == if r.Success? then Imported(parsed).value else old(settings)
    {
      var imported := Imported(parsed);
      if imported.Failure? {
        return Failure(imported.error);
      }
      settings := imported.value;
      return Success(());
    }

    /** `exportJson`: the current settings under version 1. */
    function ExportJson(): (d: Document)
      reads this
      ensures d.settings == JSettings(settings)
      ensures Valid(settings) ==> Imported(Success(d)) == Success(settings)
    {
      Exported(settings)
    }
  }

  /** Exporting valid settings and importing the result restores them. */
  lemma ExportImportRoundTrip(s: Settings)
    requires Valid(s)
    ensures Imported(Success(Exported(s))) == Success(s)
  {
  }

  /**
   * An import succeeds exactly for a parsed document whose version is the
   * number 1 and whose settings have the record's shape and satisfy the
   * schema; the version is checked before the settings.
   */
  lemma ImportAccepts(parsed: Result<Document, string>)
    ensures Imported(parsed).Success? <==>
              parsed.Success? && parsed.value.version == JNumber(1.0)
              && parsed.value.settings.JSettings? && Valid(parsed.value.settings.settings)
    ensures Imported(parsed).Success? ==> Imported(parsed).value == parsed.value.settings.settings
    ensures parsed.Failure? ==> Imported(parsed) == Failure(NotJson(parsed.error))
    ensures parsed.Success? && parsed.value.version != JNumber(1.0) ==> Imported(parsed) == Failure(UnsupportedVersion)
    ensures parsed.Success? && parsed.value.version == JNumber(1.0) && parsed.value.settings.JSettings? ==>
              match Parse(parsed.value.settings.settings)
              case Success(validated) => Imported(parsed) == Success(validated)
              case Failure(_) => Imported(parsed) == Failure(SchemaRejected)
  {
  }

  /** Every import error's message carries the "Invalid settings format: " prefix. */
  lemma ErrorMessagePrefix(e: ImportError, zodMessage: string)
    ensures |ErrorMessage(e, zodMessage)| >= 25
    ensures ErrorMessage(e, zodMessage)[..25] == "Invalid settings format: "
  {
  }

  /** The empty patch changes nothing, and repeating a patch changes nothing more. */
  lemma MergeLaws(current: Settings, u: Update)
    ensures Merge(current, NoChange) == current
    ensures Merge(Merge(current, u), u) == Merge(current, u)
  {
  }

  /** A patch leaves every section it does not supply as it was, and takes every one it does. */
  lemma MergeSections(current: Settings, u: Update)
    ensures u.profile.None? ==> Merge(current, u).profile == current.profile
    ensures u.device.Some? ==> Merge(current, u).device == u.device.value
    ensures u.device.None? ==> Merge(current, u).device == current.device
    ensures u.alerts.None? ==> Merge(current, u).alerts == current.alerts
    ensures u.calibration.None? ==> Merge(current, u).calibration == current.calibration
  {
  }

  /**
   * From the defaults as written, every patch that does not supply the
   * device section is rejected, since the 500 ms interval stays.
   */
  lemma PatchFromDefaultsFails(u: Update)
    requires u.device.None?
    ensures !Valid(Merge(DefaultSettings, u))
  {
    DefaultsRejected();
  }

  /**
   * From valid settings, a patch is accepted exactly when every section it
   * supplies satisfies the schema on its own.
   */
  lemma PatchValidSections(current: Settings, u: Update)
    requires Valid(current)
    ensures Valid(Merge(current, u)) <==>
              && (u.profile.Some? ==> ValidProfile(u.profile.value))
              && (u.alerts.Some? ==> ValidAlerts(u.alerts.value))
              && (u.visualization.Some? ==> ValidVisualization(u.visualization.value))
              && (u.device.Some? ==> ValidDevice(u.device.value))
              && (u.calibration.Some? ==> ValidCalibration(u.calibration.value))
              && (u.history.Some? ==> ValidHistory(u.history.value))
              && (u.accessibility.Some? ==> ValidAccessibility(u.accessibility.value))
  {
  }
}
