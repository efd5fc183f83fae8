/**
 * The activity-probabilities screen (screens/CyclingScreen.js): the same two
 * rolling buffers as the stair screen, but a three-second timer that
 * dispatches once the combined window holds at least 128 rows and then
 * empties both buffers, and a result handler that replaces the shown
 * probabilities on success and always ends the loading state.
 */
module CyclingScreen {
  import opened Wrappers
  import opened Sensors
  import opened SampleBuffers
  import opened Features

  /** A copy of the rows, extended with all-zero rows until it has at least `n`. */
  method PadRows(rows: seq<Row>, n: nat) returns (padded: seq<Row>)
    ensures |padded| == if |rows| < n then n else |rows|
    ensures padded[..|rows|] == rows
    ensures forall i :: |rows| <= i < |padded| ==> padded[i] == Row(Zero, Zero)
  {
    padded := rows;
    while |padded| < n
      invariant |rows| <= |padded| <= if |rows| < n then n else |rows|
      invariant padded[..|rows|] == rows
      invariant forall i :: |rows| <= i < |padded| ==> padded[i] == Row(Zero, Zero)
    {
      padded := padded + [Row(Zero, Zero)];
    }
  }

  class CyclingTracker {
    var accel: seq<Vec3>
    var gyro: seq<Vec3>
    var probabilities: Option<map<string, real>>
    var loading: bool

    ghost predicate Valid()
      reads this
    {
      |accel| <= SampleSize && |gyro| <= SampleSize
    }

    constructor ()
      ensures Valid()
      ensures accel == [] && gyro == [] && probabilities == None && loading
    {
      accel, gyro, probabilities, loading := [], [], None, true;
    }

    method OnAccelerometer(s: Vec3)
      requires Valid()
      modifies this`accel
      ensures Valid()
      ensures accel == PushCapped(old(accel), s)
    {
      accel := accel + [s];
      if |accel| > SampleSize {
        accel := accel[1..];
      }
    }

    method OnGyroscope(s: Vec3)
      requires Valid()
      modifies this`gyro
      ensures Valid()
      ensures gyro == PushCapped(old(gyro), s)
    {
      gyro := gyro + [s];
      if |gyro| > SampleSize {
        gyro := gyro[1..];
      }
    }

    /** The prediction timer. It dispatches iff the combined window has at least
        128 rows, which under the cap means exactly 128; the padding loop then
        adds nothing, and both buffers are emptied after the dispatch. */
    method PredictionTick(k: Kernels) returns (request: Option<seq<real>>)
      requires Valid()
      modifies this`accel, this`gyro
      ensures Valid()
      ensures request.Some? <==> |old(accel)| >= SampleSize
      ensures request.Some? <==> |old(accel)| == SampleSize
      ensures request.Some? ==>
        && request.value == FeatureVector(k, Combine(old(accel), old(gyro)))
        && accel == [] && gyro == []
      ensures request.None? ==> accel == old(accel) && gyro == old(gyro)
    {
      var combined := Combine(accel, gyro);
      if |combined| >= SampleSize {
        var padded := PadRows(combined, SampleSize);
        assert padded == combined;
        var features := ExtractFeatures(k, padded);
        request := Some(features);
        accel := [];
        gyro := [];
      } else {
        request := None;
      }
    }

    /** predictProbabilities: `response` is the service's probabilities, `None`
        when the request fails. */
    method PredictProbabilities(response: Option<map<string, real>>)
      modifies this`probabilities, this`loading
      ensures probabilities == if response.Some? then response else old(probabilities)
      ensures !loading
    {
      if response.Some? {
        probabilities := response;
      }
      loading := false;
    }
  }
}
