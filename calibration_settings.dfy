/**
 * The calibration section of the settings page
 * (`components/settings/sections/Calibration.tsx`): its form schema, its
 * submit, which patches the calibration section alone, and the three-step
 * calibration wizard.
 */
module CalibrationSettings {
  import opened Wrappers
  import opened SettingsTypes
  import opened SettingsSchema
  import opened SettingsStore

  /** `calibrationSchema`, the form's own copy of the ranges. */
  predicate FormValid(c: Calibration) {
    && 0.0 <= c.heelEnd <= 1.0
    && 0.0 <= c.ankleStart <= 1.0
    && 0.0 <= c.lateralGap <= 0.5
    && -100.0 <= c.zeroOffsetKPa <= 100.0
  }

  /** The form accepts exactly what the store's schema accepts for this section. */
  lemma FormMatchesStore(c: Calibration)
    ensures FormValid(c) <==> ValidCalibration(c)
  {
  }

  /**
   * `onSubmit`, reached only when the form schema accepts the data: the
   * patch `{ calibration: data }`.
   */
  function Submit(data: Calibration): (u: Option<Update>)
    ensures u.Some? <==> FormValid(data)
    ensures u.Some? ==> u.value.calibration == Some(data) && u.value.(calibration := None) == NoChange
  {
    if FormValid(data) then Some(NoChange.(calibration := Some(data))) else None
  }

  /** A submitted form changes the calibration section and nothing else, and keeps valid settings valid. */
  lemma SubmitOnlyCalibration(current: Settings, data: Calibration)
    requires FormValid(data)
    ensures Merge(current, Submit(data).value) == current.(calibration := data)
    ensures Valid(current) ==> Valid(Merge(current, Submit(data).value))
  {
  }

  /** The wizard's buttons. */
  datatype WizardAction = Start | Next | Finish

  /** The step after one button: start goes to 1, next saturates at 3, finish returns to 0. */
  function StepAfter(step: int, a: WizardAction): int {
    match a
    case Start => 1
    case Next => if step + 1 < 3 then step + 1 else 3
    case Finish => 0
  }

  /** The step after a sequence of buttons. */
  function Run(step: int, actions: seq<WizardAction>): int
    decreases |actions|
  {
    if actions == [] then step else Run(StepAfter(step, actions[0]), actions[1..])
  }

  /** One button keeps the step within 0..3. */
  lemma StepInRange(step: int, a: WizardAction)
    requires 0 <= step <= 3
    ensures 0 <= StepAfter(step, a) <= 3
    ensures a == Next ==> StepAfter(step, a) == if step < 3 then step + 1 else 3
  {
  }

  /** Whatever buttons are pressed, a step in 0..3 stays in 0..3. */
  lemma {:induction false} RunInRange(step: int, actions: seq<WizardAction>)
    requires 0 <= step <= 3
    ensures 0 <= Run(step, actions) <= 3
    decreases |actions|
  {
    if actions != [] {
      StepInRange(step, actions[0]);
      RunInRange(StepAfter(step, actions[0]), actions[1..]);
    }
  }

  /** Finishing always returns to step 0, whatever came before. */
  lemma {:induction false} FinishReturnsToStart(step: int, actions: seq<WizardAction>)
    ensures Run(step, actions + [Finish]) == 0
    decreases |actions|
  {
    if actions == [] {
      assert Run(StepAfter(step, Finish), []) == 0;
    } else {
      assert (actions + [Finish])[1..] == actions[1..] + [Finish];
      FinishReturnsToStart(StepAfter(step, actions[0]), actions[1..]);
    }
  }

  /**
   * The button the wizard renders at a step: "Start Calibration" at 0,
   * "Zero" at 1 and "Next" at 2 (both `nextStep`), "Finish Calibration" at 3.
   */
  predicate Shown(step: int, a: WizardAction) {
    match a
    case Start => step == 0
    case Next => step == 1 || step == 2
    case Finish => step == 3
  }

  /** The one button rendered at a step in 0..3. */
  function ButtonAt(step: int): (a: WizardAction)
    requires 0 <= step <= 3
    ensures Shown(step, a)
    ensures forall b :: Shown(step, b) ==> b == a
  {
    if step == 0 then Start else if step == 3 then Finish else Next
  }

  /** A sequence of presses, each on a button rendered at the step it is pressed in. */
  predicate ShownRun(step: int, actions: seq<WizardAction>)
    decreases |actions|
  {
    actions == [] || (Shown(step, actions[0]) && ShownRun(StepAfter(step, actions[0]), actions[1..]))
  }

  /** Pressing the rendered button always advances the wizard one step round the cycle 0, 1, 2, 3, 0. */
  lemma ShownStep(step: int, a: WizardAction)
    requires Shown(step, a)
    ensures StepAfter(step, a) == (step + 1) % 4
  {
  }

  /**
   * Through the rendered buttons alone, k presses from step 0..3 land k
   * steps further round the cycle; so `Math.min` never has to clamp.
   */
  lemma {:induction false} ShownRunCycles(step: int, actions: seq<WizardAction>)
    requires 0 <= step <= 3
    requires ShownRun(step, actions)
    ensures Run(step, actions) == (step + |actions|) % 4
    ensures forall k :: 0 <= k < |actions| ==> actions[k] == ButtonAt((step + k) % 4)
    decreases |actions|
  {
    if actions != [] {
      ShownStep(step, actions[0]);
      var next := StepAfter(step, actions[0]);
      ShownRunCycles(next, actions[1..]);
      forall k | 0 <= k < |actions|
        ensures actions[k] == ButtonAt((step + k) % 4)
      {
        if k > 0 {
          assert actions[k] == actions[1..][k - 1];
          assert (next + (k - 1)) % 4 == (step + k) % 4;
        }
      }
    }
  }

  /**
   * The intended walk: start, zero, next, finish visits steps 1, 2, 3 and
   * ends at 0, through rendered buttons only. A next pressed at step 3
   * would stay at 3, but step 3 renders no next button.
   */
  lemma Walkthrough()
    ensures Run(0, [Start]) == 1
    ensures Run(0, [Start, Next]) == 2
    ensures Run(0, [Start, Next, Next]) == 3
    ensures Run(0, [Start, Next, Next, Next]) == 3
    ensures Run(0, [Start, Next, Next, Finish]) == 0
    ensures ShownRun(0, [Start, Next, Next, Finish])
    ensures !ShownRun(0, [Start, Next, Next, Next])
  {
    assert [Start, Next][1..] == [Next];
    assert [Start, Next, Next][1..] == [Next, Next];
    assert [Next, Next][1..] == [Next];
    assert [Start, Next, Next, Next][1..] == [Next, Next, Next];
    assert [Next, Next, Next][1..] == [Next, Next];
    assert [Start, Next, Next, Finish][1..] == [Next, Next, Finish];
    assert [Next, Next, Finish][1..] == [Next, Finish];
    assert [Next, Finish][1..] == [Finish];
  }

  /** The wizard's `calibrationStep` state. */
  class Wizard {
    var step: int

    ghost predicate InRange()
      reads this
    {
      0 <= step <= 3
    }

    constructor()
      ensures step == 0 && InRange()
    {
      step := 0;
    }

    /** `startCalibration`. */
    method StartCalibration()
      requires InRange()
      modifies this
      ensures step == StepAfter(old(step), Start) && InRange()
    {
      step := 1;
    }

    /** `nextStep`: `Math.min(prev + 1, 3)`. */
    method NextStep()
      requires InRange()
      modifies this
      ensures step == StepAfter(old(step), Next) && InRange()
    {
      step := if step + 1 < 3 then step + 1 else 3;
    }

    /** `finishCalibration`. */
    method FinishCalibration()
      requires InRange()
      modifies this
      ensures step == StepAfter(old(step), Finish) && InRange()
    {
      step := 0;
    }
  }
}
