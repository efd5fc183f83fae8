/**
 * The app-wide sudden-movement detector and the alert it raises (App.js).
 *
 * The gyroscope and accelerometer listeners both call one check. When a
 * reading exceeds its threshold and no alert is pending, the check sets the
 * module-level `alertTriggered` flag, shows an alert dialog that starts its
 * own vibration interval and looping siren, and schedules the flag to be
 * cleared 2000 ms later. The two dialog buttons only stop that dialog's
 * vibration and siren; they never touch the flag.
 *
 * The timer is replaced by an explicit clock: `TimeStep(st, ms)` lets `ms`
 * milliseconds pass and fires the pending reset once its deadline is reached.
 */
module SuddenMovement {
  import opened Wrappers
  import opened Sensors

  const ThresholdAccel: real := 22.0
  const ThresholdGyro: real := 23.0
  const ResetDelayMs: nat := 2000

  /** Some axis of `v` is strictly above `threshold` in absolute value. */
  predicate AboveThreshold(v: Vec3, threshold: real) {
    Abs(v.x) > threshold || Abs(v.y) > threshold || Abs(v.z) > threshold
  }

  /** The movement condition of checkForSuddenMovement, without its `alertTriggered` guard. */
  predicate IsSuddenMovement(gyro: Vec3, accel: Vec3) {
    AboveThreshold(gyro, ThresholdGyro) || AboveThreshold(accel, ThresholdAccel)
  }

  /** The detection condition, stated axis by axis: strict `>` against 23.0 for the
      gyroscope and 22.0 for the accelerometer, so a value exactly at a threshold is quiet. */
  lemma SuddenMovementIffSomeAxis(gyro: Vec3, accel: Vec3)
    ensures IsSuddenMovement(gyro, accel) <==>
      exists i :: 0 <= i < 3 && (Abs(Axis(gyro, i)) > 23.0 || Abs(Axis(accel, i)) > 22.0)
  {
    if IsSuddenMovement(gyro, accel) {
      var i := if Abs(gyro.x) > 23.0 || Abs(accel.x) > 22.0 then 0
               else if Abs(gyro.y) > 23.0 || Abs(accel.y) > 22.0 then 1 else 2;
      assert Abs(Axis(gyro, i)) > 23.0 || Abs(Axis(accel, i)) > 22.0;
    } else {
      forall i | 0 <= i < 3
        ensures Abs(Axis(gyro, i)) <= 23.0 && Abs(Axis(accel, i)) <= 22.0
      {
      }
    }
  }

  // ----- the alert state machine, as values -----

  /** The two buttons of the alert dialog: "İyiyim" (I am fine) and "Yardım lazım" (I need help). */
  datatype Ack = ImFine | NeedHelp

  /** One invocation of handleAlert: its own vibration interval, its own siren,
      and the button pressed on its dialog, if any. */
  datatype AlertSession = AlertSession(vibrating: bool, sirenOn: bool, answer: Option<Ack>)

  /** A freshly shown dialog: vibration started after the dialog, siren started after that. */
  const Ringing: AlertSession := AlertSession(true, true, None)

  /** The clock, the module-level flag, the deadline of the pending reset timer,
      and every alert raised so far. */
  datatype AlertState = AlertState(now: int, alertTriggered: bool, resetAt: int, sessions: seq<AlertSession>)

  const Idle: AlertState := AlertState(0, false, 0, [])

  /** While the flag is set, exactly one reset is pending and it lies at most 2000 ms ahead. */
  predicate Inv(st: AlertState) {
    st.alertTriggered ==> st.now < st.resetAt <= st.now + ResetDelayMs
  }

  /** checkForSuddenMovement(gyro, accel). */
  function Check(st: AlertState, gyro: Vec3, accel: Vec3): AlertState {
    if !st.alertTriggered && IsSuddenMovement(gyro, accel) then
      st.(alertTriggered := true, resetAt := st.now + ResetDelayMs, sessions := st.sessions + [Ringing])
    else
      st
  }

  /** The gyroscope listener pairs its reading with a zero accelerometer reading. */
  function GyroStep(st: AlertState, gyro: Vec3): AlertState {
    Check(st, gyro, Zero)
  }

  /** The accelerometer listener pairs its reading with a zero gyroscope reading. */
  function AccelStep(st: AlertState, accel: Vec3): AlertState {
    Check(st, Zero, accel)
  }

  /** `ms` milliseconds pass; the pending reset fires once its deadline is reached. */
  function TimeStep(st: AlertState, ms: nat): AlertState {
    var now := st.now + ms;
    if st.alertTriggered && st.resetAt <= now then st.(now := now, alertTriggered := false)
    else st.(now := now)
  }

  /** A button of dialog `k` is pressed: that dialog's vibration and siren stop.
      A button of a dialog that was never shown cannot be pressed, so nothing happens. */
  function PressStep(st: AlertState, k: nat, ack: Ack): AlertState {
    if k < |st.sessions| then
      st.(sessions := st.sessions[k := AlertSession(false, false, Some(ack))])
    else
      st
  }

  datatype Event = GyroReading(gyro: Vec3) | AccelReading(accel: Vec3) | Elapse(ms: nat) | Press(alert: nat, ack: Ack)

  function Step(st: AlertState, e: Event): AlertState {
    match e
    case GyroReading(g) => GyroStep(st, g)
    case AccelReading(a) => AccelStep(st, a)
    case Elapse(ms) => TimeStep(st, ms)
    case Press(k, ack) => PressStep(st, k, ack)
  }

  function Run(st: AlertState, es: seq<Event>): AlertState
    decreases |es|
  {
    if es == [] then st else Run(Step(st, es[0]), es[1..])
  }

  /** Total time that passes during `es`. */
  function Elapsed(es: seq<Event>): nat
    decreases |es|
  {
    if es == [] then 0 else (if es[0].Elapse? then es[0].ms else 0) + Elapsed(es[1..])
  }

  predicate NoPressOf(es: seq<Event>, k: nat) {
    forall i :: 0 <= i < |es| ==> !(es[i].Press? && es[i].alert == k)
  }

  predicate OnlyPresses(es: seq<Event>) {
    forall i :: 0 <= i < |es| ==> es[i].Press?
  }

  /** No readings arrive: only button presses and elapsed time. */
  predicate PressesAndTime(es: seq<Event>) {
    forall i :: 0 <= i < |es| ==> es[i].Press? || es[i].Elapse?
  }

  // ----- properties of the state machine -----

  lemma StepKeepsInv(st: AlertState, e: Event)
    requires Inv(st)
    ensures Inv(Step(st, e))
    ensures Step(st, e).now == st.now + (if e.Elapse? then e.ms else 0)
    ensures |Step(st, e).sessions| >= |st.sessions|
  {
  }

  /** A trigger sets the flag, schedules its reset 2000 ms ahead and raises
      exactly one new alert, which vibrates and sounds; earlier alerts are untouched. */
  lemma TriggerRaisesOneAlert(st: AlertState, gyro: Vec3, accel: Vec3)
    requires !st.alertTriggered && IsSuddenMovement(gyro, accel)
    ensures var r := Check(st, gyro, accel);
      r.alertTriggered && r.resetAt == st.now + 2000 && r.now == st.now &&
      |r.sessions| == |st.sessions| + 1 && r.sessions[..|st.sessions|] == st.sessions &&
      r.sessions[|st.sessions|] == AlertSession(true, true, None)
  {
  }

  /** Each listener can trigger only on its own sensor's threshold. */
  lemma EachListenerUsesOwnThreshold(st: AlertState, v: Vec3)
    ensures GyroStep(st, v).alertTriggered <==> st.alertTriggered || AboveThreshold(v, 23.0)
    ensures AccelStep(st, v).alertTriggered <==> st.alertTriggered || AboveThreshold(v, 22.0)
    ensures |GyroStep(st, v).sessions| == |st.sessions| + (if !st.alertTriggered && AboveThreshold(v, 23.0) then 1 else 0)
    ensures |AccelStep(st, v).sessions| == |st.sessions| + (if !st.alertTriggered && AboveThreshold(v, 22.0) then 1 else 0)
  {
    assert !AboveThreshold(Zero, ThresholdAccel) && !AboveThreshold(Zero, ThresholdGyro);
  }

  /** A gyroscope reading of {0, 0, 25} raises an alert from the idle state (25 > 23). */
  lemma GyroZ25TriggersFromIdle()
    ensures var r := GyroStep(Idle, Vec3(0.0, 0.0, 25.0));
      r.alertTriggered && |r.sessions| == 1 && r.sessions[0].vibrating
  {
  }

  /** While the flag is set and its reset has not fired, no reading of any
      magnitude, no button and no elapsed time short of the deadline raises
      another alert. */
  lemma {:induction false} NoRetriggerBeforeReset(st: AlertState, es: seq<Event>)
    requires Inv(st) && st.alertTriggered
    requires Elapsed(es) < st.resetAt - st.now
    ensures Run(st, es).alertTriggered
    ensures Run(st, es).resetAt == st.resetAt
    ensures |Run(st, es).sessions| == |st.sessions|
    decreases |es|
  {
    if es != [] {
      var next := Step(st, es[0]);
      StepKeepsInv(st, es[0]);
      NoRetriggerBeforeReset(next, es[1..]);
    }
  }

  /** Button presses change neither the flag, nor its deadline, nor the clock. */
  lemma {:induction false} PressesKeepFlag(st: AlertState, es: seq<Event>)
    requires OnlyPresses(es)
    ensures Run(st, es).alertTriggered == st.alertTriggered
    ensures Run(st, es).resetAt == st.resetAt && Run(st, es).now == st.now
    ensures |Run(st, es).sessions| == |st.sessions|
    decreases |es|
  {
    if es != [] {
      assert es[0].Press?;
      assert OnlyPresses(es[1..]) by {
        forall i | 0 <= i < |es[1..]| ensures es[1..][i].Press? {
          assert es[1..][i] == es[i + 1];
        }
      }
      PressesKeepFlag(Step(st, es[0]), es[1..]);
    }
  }

  /** From a pending reset, presses and elapsed time that reach the deadline
      clear the flag; from a cleared flag they keep it cleared. */
  lemma {:induction false} ResetFiresAtDeadline(st: AlertState, es: seq<Event>)
    requires Inv(st)
    requires PressesAndTime(es)
    requires st.alertTriggered ==> Elapsed(es) >= st.resetAt - st.now
    ensures !Run(st, es).alertTriggered
    decreases |es|
  {
    if es != [] {
      var next := Step(st, es[0]);
      StepKeepsInv(st, es[0]);
      assert es[0].Press? || es[0].Elapse?;
      assert PressesAndTime(es[1..]) by {
        forall i | 0 <= i < |es[1..]| ensures es[1..][i].Press? || es[1..][i].Elapse? {
          assert es[1..][i] == es[i + 1];
        }
      }
      ResetFiresAtDeadline(next, es[1..]);
    }
  }

  /** The flag is cleared once 2000 ms have passed after the trigger, whatever
      buttons were pressed and however the presses and the waiting interleave,
      so a new trigger is possible again. */
  lemma ResetRegardlessOfAnswer(st: AlertState, gyro: Vec3, accel: Vec3, es: seq<Event>)
    requires Inv(st) && !st.alertTriggered && IsSuddenMovement(gyro, accel)
    requires PressesAndTime(es)
    requires Elapsed(es) >= ResetDelayMs
    ensures !Run(Check(st, gyro, accel), es).alertTriggered
  {
    ResetFiresAtDeadline(Check(st, gyro, accel), es);
  }

  /** After the reset has fired the detector is armed again: a reading above the
      threshold raises a new alert. */
  lemma RetriggerAfterReset(st: AlertState, gyro: Vec3, accel: Vec3, ms: nat)
    requires Inv(st) && st.alertTriggered && ms >= st.resetAt - st.now
    requires IsSuddenMovement(gyro, accel)
    ensures var r := Check(TimeStep(st, ms), gyro, accel);
      r.alertTriggered && |r.sessions| == |st.sessions| + 1
  {
  }

  /** A dialog keeps vibrating and sounding until one of its own buttons is
      pressed: later readings, alerts, elapsed time and presses on other
      dialogs leave it as it is. */
  lemma {:induction false} VibratesUntilPressed(st: AlertState, es: seq<Event>, k: nat)
    requires k < |st.sessions|
    requires NoPressOf(es, k)
    ensures k < |Run(st, es).sessions| && Run(st, es).sessions[k] == st.sessions[k]
    decreases |es|
  {
    if es != [] {
      var next := Step(st, es[0]);
      assert !(es[0].Press? && es[0].alert == k);
      assert next.sessions[k] == st.sessions[k];
      assert NoPressOf(es[1..], k) by {
        forall i | 0 <= i < |es[1..]| ensures !(es[1..][i].Press? && es[1..][i].alert == k) {
          assert es[1..][i] == es[i + 1];
        }
      }
      VibratesUntilPressed(next, es[1..], k);
    }
  }

  /** Either button stops vibration and siren of its own dialog, records the
      answer, and changes nothing else: not the flag, not the other dialogs. */
  lemma PressStopsOnlyItsAlert(st: AlertState, k: nat, ack: Ack)
    requires k < |st.sessions|
    ensures var r := PressStep(st, k, ack);
      !r.sessions[k].vibrating && !r.sessions[k].sirenOn && r.sessions[k].answer == Some(ack) &&
      r.alertTriggered == st.alertTriggered && r.resetAt == st.resetAt && r.now == st.now &&
      |r.sessions| == |st.sessions| &&
      forall j :: 0 <= j < |st.sessions| && j != k ==> r.sessions[j] == st.sessions[j]
  {
  }

  // ----- the module-level state, updated in place -----

  /** The module-level `alertTriggered` flag together with the clock, the pending
      reset and the shown dialogs. */
  class AlertMonitor {
    var now: int
    var alertTriggered: bool
    var resetAt: int
    var sessions: seq<AlertSession>

    function State(): AlertState
      reads this
    {
      AlertState(now, alertTriggered, resetAt, sessions)
    }

    constructor ()
      ensures State() == Idle
    {
      now, alertTriggered, resetAt, sessions := 0, false, 0, [];
    }

    /** handleAlert: show the dialog, start its vibration, start its siren. */
    method HandleAlert()
      modifies this`sessions
      ensures sessions == old(sessions) + [Ringing]
    {
      sessions := sessions + [AlertSession(false, false, None)];
      var k := |sessions| - 1;
      sessions := sessions[k := sessions[k].(vibrating := true)];
      sessions := sessions[k := sessions[k].(sirenOn := true)];
    }

    method CheckForSuddenMovement(gyro: Vec3, accel: Vec3) returns (triggered: bool)
      modifies this
      ensures State() == Check(old(State()), gyro, accel)
      ensures triggered <==> !old(alertTriggered) && IsSuddenMovement(gyro, accel)
    {
      triggered := !alertTriggered && IsSuddenMovement(gyro, accel);
      if triggered {
        alertTriggered := true;
        HandleAlert();
        resetAt := now + ResetDelayMs;
      }
    }

    method OnGyroscope(gyro: Vec3)
      modifies this
      ensures State() == GyroStep(old(State()), gyro)
    {
      var _ := CheckForSuddenMovement(gyro, Zero);
    }

    method OnAccelerometer(accel: Vec3)
      modifies this
      ensures State() == AccelStep(old(State()), accel)
    {
      var _ := CheckForSuddenMovement(Zero, accel);
    }

    /** The clock advances by `ms`; the reset timer fires when its deadline is reached. */
    method AdvanceClock(ms: nat)
      modifies this`now, this`alertTriggered
      ensures State() == TimeStep(old(State()), ms)
    {
      now := now + ms;
      if alertTriggered && resetAt <= now {
        alertTriggered := false;
      }
    }

    /** Either button of dialog `k`: stopVibration, then stopSiren. */
    method Press(k: nat, ack: Ack)
      requires k < |sessions|
      modifies this`sessions
      ensures State() == PressStep(old(State()), k, ack)
    {
      sessions := sessions[k := sessions[k].(vibrating := false)];
      sessions := sessions[k := sessions[k].(sirenOn := false)];
      sessions := sessions[k := sessions[k].(answer := Some(ack))];
    }
  }
}
