/**
 * The device section of the settings page
 * (`components/settings/sections/Device.tsx`): its form schema, its submit,
 * which patches the device section alone, the sampling interval edited in
 * seconds but stored in milliseconds, and forgetting the paired device.
 *
 * A form number that is `NaN` (what `parseInt` gives for text without
 * leading digits) is `None`.
 */
module DeviceSettings {
  import opened Wrappers
  import opened JsText
  import opened SettingsTypes
  import opened SettingsSchema
  import opened SettingsStore

  /** The form's values: the stored device section, except that the interval may be `NaN`. */
  datatype DeviceForm = DeviceForm(preferredDeviceId: Option<string>, autoReconnect: bool, sampleIntervalMs: Option<real>)

  /** `deviceSchema`: `z.number()` rejects `NaN`, then 1000..60000 ms. */
  predicate FormValid(f: DeviceForm) {
    f.sampleIntervalMs.Some? && 1000.0 <= f.sampleIntervalMs.value <= 60000.0
  }

  /** The form starts from the stored device section. */
  function FormOf(d: Device): (f: DeviceForm)
    ensures FormValid(f) <==> ValidDevice(d)
  {
    DeviceForm(d.preferredDeviceId, d.autoReconnect, Some(d.sampleIntervalMs))
  }

  /** `onSubmit`, reached only when the form schema accepts the data: the patch `{ device: data }`. */
  function Submit(f: DeviceForm): (u: Option<Update>)
    ensures u.Some? <==> FormValid(f)
    ensures u.Some? ==> u.value.device.Some? && ValidDevice(u.value.device.value)
    ensures u.Some? ==> u.value.(device := None) == NoChange
    ensures u.Some? ==> FormOf(u.value.device.value) == f
  {
    if FormValid(f) then Some(NoChange.(device := Some(Device(f.preferredDeviceId, f.autoReconnect, f.sampleIntervalMs.value))))
    else None
  }

  /** A submitted form changes the device section and nothing else. */
  lemma SubmitOnlyDevice(current: Settings, f: DeviceForm)
    requires FormValid(f)
    ensures Merge(current, Submit(f).value) == current.(device := Submit(f).value.device.value)
    ensures Valid(current) ==> Valid(Merge(current, Submit(f).value))
  {
  }

  /**
   * Saving the device form is the one patch that the defaults as written
   * accept: every other section of them already satisfies the schema.
   */
  lemma SubmitRepairsDefaults(f: DeviceForm)
    requires FormValid(f)
    ensures Valid(Merge(DefaultSettings, Submit(f).value))
  {
    DefaultsRejected();
  }

  /** `form.watch("sampleIntervalMs") / 1000`, the seconds shown. */
  function SecondsShown(ms: Option<real>): (s: Option<real>)
    ensures s.Some? <==> ms.Some?
    ensures s.Some? ==> s.value * 1000.0 == ms.value
  {
    if ms.Some? then Some(ms.value / 1000.0) else None
  }

  /** `Number.parseInt(text) * 1000`, the milliseconds stored for typed seconds. */
  function EnteredMs(text: string): (ms: Option<real>)
    ensures ms.Some? <==> ParseInt(text).Some?
  {
    match ParseInt(text)
    case None => None
    case Some(seconds) => Some((seconds * 1000) as real)
  }

  /** Typing a whole number of seconds stores that many thousand milliseconds, and shows it again. */
  lemma WholeSecondsRoundTrip(seconds: int)
    ensures EnteredMs(IntString(seconds)) == Some((seconds * 1000) as real)
    ensures SecondsShown(EnteredMs(IntString(seconds))) == Some(seconds as real)
  {
    ParseIntString(seconds);
  }

  /** The input's 1..60 s range is the schema's 1000..60000 ms, for whole seconds. */
  lemma InputRangeIsSchemaRange(seconds: int)
    ensures 1 <= seconds <= 60 <==> FormValid(DeviceForm(None, true, EnteredMs(IntString(seconds))))
  {
    WholeSecondsRoundTrip(seconds);
  }

  /** A fraction is cut off, and a blank input stores `NaN`, which the form rejects. */
  lemma PartialInputs()
    ensures EnteredMs("12.5") == Some(12000.0)
    ensures EnteredMs("") == None
  {
    ParseIntStopsAtPoint();
    ParseIntEmpty();
  }

  /** The device form's fields. */
  class DeviceFormState {
    var preferredDeviceId: Option<string>
    var autoReconnect: bool
    var sampleIntervalMs: Option<real>

    function Values(): DeviceForm
      reads this
    {
      DeviceForm(preferredDeviceId, autoReconnect, sampleIntervalMs)
    }

    constructor(current: Device)
      ensures Values() == FormOf(current)
    {
      preferredDeviceId := current.preferredDeviceId;
      autoReconnect := current.autoReconnect;
      sampleIntervalMs := Some(current.sampleIntervalMs);
    }

    /** The interval input's `onChange`. */
    method EnterSeconds(text: string)
      modifies this
      ensures Values() == old(Values()).(sampleIntervalMs := EnteredMs(text))
    {
      var seconds := ParseInt(text);
      sampleIntervalMs := if seconds.Some? then Some((seconds.value * 1000) as real) else None;
    }

    /** `forgetDevice`: clears the preferred device and nothing else. */
    method ForgetDevice()
      modifies this
      ensures Values() == old(Values()).(preferredDeviceId := None)
    {
      preferredDeviceId := None;
    }
  }
}
