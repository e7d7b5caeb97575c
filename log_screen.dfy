/**
 * The save decision of the check-in screen (`onSave` in app/log.tsx): the
 * three parsed fields go through an ordered chain of guards, the first
 * failing guard raises its alert, and only input that passes every guard is
 * sent to `upsertDailyLog`; a failed save raises an alert, a successful one
 * navigates back.
 */
module LogScreen {
  import opened Wrappers
  import opened Readiness

  /**
   * The three fields after `Number(text)`: `Some(x)` for a finite number,
   * `None` for NaN or an infinity.
   */
  datatype Fields = Fields(sleep: Option<real>, intensity: Option<real>, soreness: Option<real>)

  /** The guards of `onSave`, in the order they run. */
  datatype InputError = InvalidInput | InvalidSleep | InvalidIntensity | InvalidSoreness

  /** How `upsertDailyLog` settles: a rejection with an `Error`, or with some other thrown value. */
  datatype SaveFailure = ThrownError(message: string) | ThrownOther

  /** An `Alert.alert(title, message)` call. */
  datatype Alert = Alert(title: string, message: string)

  /**
   * What one press of "save" does: the metrics passed to `upsertDailyLog`
   * (if it was called), the alert shown (if any), and whether the screen
   * navigated back.
   */
  datatype SaveOutcome = SaveOutcome(upserted: Option<Metrics>, alert: Option<Alert>, navigatedBack: bool)

  /** Position of a guard in the chain. */
  function GuardIndex(e: InputError): nat
  {
    match e
    case InvalidInput => 0
    case InvalidSleep => 1
    case InvalidIntensity => 2
    case InvalidSoreness => 3
  }

  predicate AllFinite(f: Fields)
  {
    f.sleep.Some? && f.intensity.Some? && f.soreness.Some?
  }

  /**
   * Whether the guard `e`, taken on its own, lets the fields through. The
   * range guards only speak about a finite value; the finiteness guard
   * covers the rest.
   */
  predicate Passes(e: InputError, f: Fields)
  {
    match e
    case InvalidInput => AllFinite(f)
    case InvalidSleep => f.sleep.None? || 0.0 <= f.sleep.value <= 24.0
    case InvalidIntensity => f.intensity.None? || 1.0 <= f.intensity.value <= 10.0
    case InvalidSoreness => f.soreness.None? || 1.0 <= f.soreness.value <= 10.0
  }

  /** The guard chain of `onSave`, lines 27-47: the first failing guard decides the error. */
  function Validate(f: Fields): (r: Result<Metrics, InputError>)
    ensures r.Ok? <==> (
      && AllFinite(f)
      && 0.0 <= f.sleep.value <= 24.0
      && 1.0 <= f.intensity.value <= 10.0
      && 1.0 <= f.soreness.value <= 10.0)
    ensures r.Ok? ==> r.value == Metrics(f.sleep.value, f.intensity.value, f.soreness.value)
  {
    if f.sleep.None? || f.intensity.None? || f.soreness.None? then Err(InvalidInput)
    else
      var m := Metrics(f.sleep.value, f.intensity.value, f.soreness.value);
      if m.sleep < 0.0 || m.sleep > 24.0 then Err(InvalidSleep)
      else if m.intensity < 1.0 || m.intensity > 10.0 then Err(InvalidIntensity)
      else if m.soreness < 1.0 || m.soreness > 10.0 then Err(InvalidSoreness)
      else Ok(m)
  }

  /**
   * The error reported is exactly the first guard, in chain order, that
   * fails; input passes exactly when every guard passes.
   */
  lemma ValidateReportsFirstFailingGuard(f: Fields, e: InputError)
    ensures Validate(f) == Err(e) <==>
      !Passes(e, f) && forall g :: GuardIndex(g) < GuardIndex(e) ==> Passes(g, f)
    ensures Validate(f).Ok? <==> forall g :: Passes(g, f)
  {
    if Validate(f).Ok? {
      assert forall g :: Passes(g, f) by {
        forall g ensures Passes(g, f) {
          match g
          case InvalidInput =>
          case InvalidSleep =>
          case InvalidIntensity =>
          case InvalidSoreness =>
        }
      }
    } else {
      var bad := Validate(f).error;
      assert !Passes(bad, f);
    }
    if !AllFinite(f) {
      assert !Passes(InvalidInput, f);
    } else if !Passes(InvalidSleep, f) {
      assert Validate(f) == Err(InvalidSleep);
    } else if !Passes(InvalidIntensity, f) {
      assert Validate(f) == Err(InvalidIntensity);
    } else if !Passes(InvalidSoreness, f) {
      assert Validate(f) == Err(InvalidSoreness);
    }
  }

  /** A non-finite field is reported as invalid input, whatever the other fields hold. */
  lemma NonFiniteIsInvalidInput(f: Fields)
    requires !AllFinite(f)
    ensures Validate(f) == Err(InvalidInput)
  {
  }

  /** The range ends themselves pass: 0 and 24 hours of sleep, 1 and 10 for the scales. */
  lemma RangeEndsAccepted()
    ensures Validate(Fields(Some(0.0), Some(1.0), Some(1.0))).Ok?
    ensures Validate(Fields(Some(24.0), Some(10.0), Some(10.0))).Ok?
    ensures Validate(Fields(Some(24.5), Some(10.0), Some(10.0))) == Err(InvalidSleep)
    ensures Validate(Fields(Some(8.0), Some(0.0), Some(11.0))) == Err(InvalidIntensity)
    ensures Validate(Fields(Some(8.0), Some(5.0), Some(0.5))) == Err(InvalidSoreness)
  {
  }

  /** What each guard's alert title calls invalid. */
  function Subject(e: InputError): string
  {
    match e
    case InvalidInput => "input"
    case InvalidSleep => "sleep"
    case InvalidIntensity => "intensity"
    case InvalidSoreness => "soreness"
  }

  /**
   * The alert each guard raises: the title names what is invalid, so distinct
   * guards raise distinct titles, and the message is never empty.
   */
  function ErrorAlert(e: InputError): (alert: Alert)
    ensures alert.title == "Invalid " + Subject(e)
    ensures alert.message != []
  {
    match e
    case InvalidInput => Alert("Invalid input", "Please enter numbers for all fields.")
    case InvalidSleep => Alert("Invalid sleep", "Sleep must be between 0 and 24 hours.")
    case InvalidIntensity => Alert("Invalid intensity", "Workout intensity must be between 1 and 10.")
    case InvalidSoreness => Alert("Invalid soreness", "Muscle soreness must be between 1 and 10.")
  }

  /** Different guards raise alerts with different titles, none of them the save-failure title. */
  lemma ErrorAlertsDistinguishGuards(e1: InputError, e2: InputError, failure: SaveFailure)
    ensures ErrorAlert(e1).title == ErrorAlert(e2).title <==> e1 == e2
    ensures ErrorAlert(e1).title != SaveFailedAlert(failure).title
  {
    var t1, t2 := ErrorAlert(e1).title, ErrorAlert(e2).title;
    if t1 == t2 {
      assert Subject(e1) == t1[8..] == t2[8..] == Subject(e2);
    }
    assert SaveFailedAlert(failure).title[0] == 'S' != t1[0];
  }

  /** The alert for a rejected save: the error's message, or a fixed text for anything else thrown. */
  function SaveFailedAlert(failure: SaveFailure): (alert: Alert)
    ensures alert.title == "Save failed"
    ensures failure.ThrownError? ==> alert.message == failure.message
    ensures failure.ThrownOther? ==> alert.message == "Unable to save log."
  {
    match failure
    case ThrownError(message) => Alert("Save failed", message)
    case ThrownOther => Alert("Save failed", "Unable to save log.")
  }

  /**
   * `onSave`, given the parsed fields and how `upsertDailyLog` would settle
   * if called (`None` for success). The save is attempted exactly when every
   * guard passes, with exactly the parsed values; the press ends in exactly
   * one of an alert and navigating back.
   */
  function OnSave(f: Fields, saveFailure: Option<SaveFailure>): (out: SaveOutcome)
    ensures out.upserted.Some? <==> Validate(f).Ok?
    ensures out.upserted.Some? ==>
      out.upserted.value == Metrics(f.sleep.value, f.intensity.value, f.soreness.value)
    ensures out.navigatedBack <==> out.upserted.Some? && saveFailure.None?
    ensures out.alert.Some? <==> !out.navigatedBack
    ensures Validate(f).Err? ==> out.alert == Some(ErrorAlert(Validate(f).error))
    ensures out.upserted.Some? && saveFailure.Some? ==> out.alert == Some(SaveFailedAlert(saveFailure.value))
  {
    match Validate(f)
    case Err(e) => SaveOutcome(None, Some(ErrorAlert(e)), false)
    case Ok(m) =>
      match saveFailure
      case Some(failure) => SaveOutcome(Some(m), Some(SaveFailedAlert(failure)), false)
      case None => SaveOutcome(Some(m), None, true)
  }

  /**
   * Whatever passes validation scores between 0 and 91: at least one point
   * of intensity and one of soreness always cost 9 points. Both ends occur.
   */
  lemma AcceptedScoreRange(f: Fields)
    requires Validate(f).Ok?
    ensures 0 <= CalculateReadiness(Validate(f).value) <= 91
    ensures CalculateReadiness(Metrics(8.0, 1.0, 1.0)) == 91
    ensures CalculateReadiness(Metrics(0.0, 10.0, 10.0)) == 0
  {
  }

  /** The screen's initial values ("8", "5", "3") save as they are and score 63. */
  lemma DefaultFieldsSave()
    ensures OnSave(Fields(Some(8.0), Some(5.0), Some(3.0)), None)
      == SaveOutcome(Some(Metrics(8.0, 5.0, 3.0)), None, true)
    ensures CalculateReadiness(Metrics(8.0, 5.0, 3.0)) == 63
  {
  }
}
