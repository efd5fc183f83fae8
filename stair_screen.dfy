/**
 * The stair-climbing screen (screens/StairScreen.js): two rolling buffers fed
 * by the sensor listeners, a one-second prediction timer that sends a
 * feature vector to the remote classifier once the combined window holds
 * exactly 128 rows, a readiness probe before each request, a climbing flag
 * set from the predicted label, a one-second duration counter, and the
 * report of the duration as 'upstairs' on teardown.
 *
 * The probe's responses and the classifier's answer are parameters.
 */
module StairScreen {
  import opened Wrappers
  import opened Sensors
  import opened SampleBuffers
  import opened Features
  import opened ActivityContext

  const MaxAttempts: nat := 10
  const RetryDelayMs: nat := 3000
  /** The predicted class the screen counts as climbing. */
  const ClimbingLabel: int := 5

  /** The outcome of waitUntilBackendIsReady: the attempt (from 0) whose probe
      answered OK and the delay waited before it, or the error thrown after the
      last failed attempt and its delay. */
  datatype Readiness = Ready(attempt: nat, waitedMs: nat) | BackendUnavailable(waitedMs: nat)

  /** waitUntilBackendIsReady. `probeOk(j)` says whether attempt j's probe
      returned an OK response (a thrown fetch counts as not OK). */
  method WaitUntilBackendIsReady(probeOk: nat -> bool) returns (r: Readiness)
    ensures r.Ready? <==> exists j :: 0 <= j < MaxAttempts && probeOk(j)
    ensures r.Ready? ==>
      && r.attempt < MaxAttempts && probeOk(r.attempt)
      && (forall j :: 0 <= j < r.attempt ==> !probeOk(j))
      && r.waitedMs == RetryDelayMs * r.attempt
    ensures r.BackendUnavailable? ==> r.waitedMs == RetryDelayMs * MaxAttempts
  {
    var attempts := 0;
    var waited := 0;
    while attempts < MaxAttempts
      invariant 0 <= attempts <= MaxAttempts
      invariant waited == RetryDelayMs * attempts
      invariant forall j :: 0 <= j < attempts ==> !probeOk(j)
    {
      if probeOk(attempts) {
        return Ready(attempts, waited);
      }
      attempts := attempts + 1;
      waited := waited + RetryDelayMs;
    }
    return BackendUnavailable(waited);
  }

  /** What predictViaAPI ends with: a prediction, or one of its two caught errors. */
  datatype PredictOutcome = Predicted(predicted: int) | NotReady | RequestFailed

  class StairTracker {
    var accel: seq<Vec3>
    var gyro: seq<Vec3>
    var climbing: bool
    var predictedClass: Option<int>
    var duration: nat

    ghost predicate Valid()
      reads this
    {
      |accel| <= SampleSize && |gyro| <= SampleSize
    }

    constructor ()
      ensures Valid()
      ensures accel == [] && gyro == [] && !climbing && predictedClass == None && duration == 0
    {
      accel, gyro, climbing, predictedClass, duration := [], [], false, None, 0;
    }

    method OnAccelerometer(s: Vec3)
      requires Valid()
      modifies this`accel
      ensures Valid()
      ensures accel == PushCapped(old(accel), s)
    {
      accel := accel + [s];
      if |accel| > SampleSize {
        accel := accel[1..];
      }
    }

    method OnGyroscope(s: Vec3)
      requires Valid()
      modifies this`gyro
      ensures Valid()
      ensures gyro == PushCapped(old(gyro), s)
    {
      gyro := gyro + [s];
      if |gyro| > SampleSize {
        gyro := gyro[1..];
      }
    }

    /** The prediction timer: the feature vector to send, if the combined window
        holds exactly 128 rows, which under the cap is the same as at least 128.
        The buffers are not cleared. */
    method PredictionTick(k: Kernels) returns (request: Option<seq<real>>)
      requires Valid()
      ensures request.Some? <==> |accel| == SampleSize
      ensures request.Some? <==> |accel| >= SampleSize
      ensures request.Some? ==> request.value == FeatureVector(k, Combine(accel, gyro))
    {
      var combined := Combine(accel, gyro);
      if |combined| == SampleSize {
        var features := ExtractFeatures(k, combined);
        request := Some(features);
      } else {
        request := None;
      }
    }

    /** predictViaAPI: probe, then post; `response` is the classifier's answer to
        the post, `None` when the post fails. On any error the climbing flag and
        the shown class stay as they were. */
    method PredictViaApi(probeOk: nat -> bool, response: Option<int>) returns (outcome: PredictOutcome)
      modifies this`climbing, this`predictedClass
      ensures outcome == NotReady <==> forall j :: 0 <= j < MaxAttempts ==> !probeOk(j)
      ensures outcome.Predicted? <==> (exists j :: 0 <= j < MaxAttempts && probeOk(j)) && response.Some?
      ensures outcome.Predicted? ==>
        && outcome.predicted == response.value
        && predictedClass == Some(outcome.predicted)
        && climbing == (outcome.predicted == ClimbingLabel)
      ensures !outcome.Predicted? ==> climbing == old(climbing) && predictedClass == old(predictedClass)
    {
      var ready := WaitUntilBackendIsReady(probeOk);
      if ready.BackendUnavailable? {
        return NotReady;
      }
      match response
      case None =>
        outcome := RequestFailed;
      case Some(prediction) =>
        predictedClass := Some(prediction);
        climbing := prediction == ClimbingLabel;
        outcome := Predicted(prediction);
    }

    /** The duration timer: one second more while climbing. */
    method DurationTick()
      modifies this`duration
      ensures duration == old(duration) + (if climbing then 1 else 0)
    {
      if climbing {
        duration := duration + 1;
      }
    }

    /** Teardown reports the accumulated duration as 'upstairs'. */
    method Teardown(provider: ActivityProvider)
      modifies provider`activityTimes, provider`posts
      ensures provider.activityTimes == AddTime(old(provider.activityTimes), Upstairs, duration)
      ensures provider.posts == if EmailKnown(provider.userEmail)
        then old(provider.posts) + [Post(provider.userEmail.value, provider.activityTimes)]
        else old(provider.posts)
    {
      provider.UpdateActivityTime(Upstairs, duration);
    }
  }

  /** Once the accelerometer buffer is full it stays full, so every later timer
      tick dispatches again. */
  lemma FullBufferStaysFull(buf: seq<Vec3>, samples: seq<Vec3>)
    requires |buf| == SampleSize
    ensures |PushAll(buf, samples)| == SampleSize
  {
    PushAllKeepsNewest(buf, samples);
  }
}
