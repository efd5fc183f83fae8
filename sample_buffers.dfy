/**
 * The rolling sensor buffers of the stair and cycling screens
 * (StairScreen.js and CyclingScreen.js share this code): each listener pushes
 * its reading and shifts out the oldest one once the buffer holds more than
 * 128, and the prediction timer pairs the two buffers by index.
 */
module SampleBuffers {
  import opened Sensors
  import opened Sequences

  const SampleSize: nat := 128

  /** Appends a reading and then drops the oldest one if the buffer exceeds 128. */
  function PushCapped(buf: seq<Vec3>, s: Vec3): seq<Vec3> {
    var pushed := buf + [s];
    if |pushed| > SampleSize then pushed[1..] else pushed
  }

  /** The buffer after the listener has received `samples` in order. */
  function PushAll(buf: seq<Vec3>, samples: seq<Vec3>): seq<Vec3>
    decreases |samples|
  {
    if samples == [] then buf else PushAll(PushCapped(buf, samples[0]), samples[1..])
  }

  /** One push keeps a buffer of at most 128 readings at most 128 long, holding the newest ones. */
  lemma PushCappedKeepsNewest(buf: seq<Vec3>, s: Vec3)
    requires |buf| <= SampleSize
    ensures PushCapped(buf, s) == LastN(buf + [s], SampleSize)
    ensures |PushCapped(buf, s)| <= SampleSize
  {
  }

  /** After any sequence of pushes the buffer holds at most 128 readings, namely
      the last min(n, 128) of everything it was given, in arrival order. */
  lemma {:induction false} PushAllKeepsNewest(buf: seq<Vec3>, samples: seq<Vec3>)
    requires |buf| <= SampleSize
    ensures PushAll(buf, samples) == LastN(buf + samples, SampleSize)
    ensures |PushAll(buf, samples)| <= SampleSize
    decreases |samples|
  {
    if samples != [] {
      var next := PushCapped(buf, samples[0]);
      PushCappedKeepsNewest(buf, samples[0]);
      PushAllKeepsNewest(next, samples[1..]);
      LastNAppend(buf + [samples[0]], samples[1..], SampleSize);
      assert buf + [samples[0]] + samples[1..] == buf + samples;
    } else {
      assert buf + samples == buf;
    }
  }

  /** One entry of `combined`: an accelerometer reading followed by a gyroscope
      reading, six values ax, ay, az, gx, gy, gz. */
  datatype Row = Row(accel: Vec3, gyro: Vec3)

  /** Value `c` (0..5) of a row, in the order ax, ay, az, gx, gy, gz. */
  function RowValue(r: Row, c: nat): real
    requires c < 6
  {
    if c < 3 then Axis(r.accel, c) else Axis(r.gyro, c - 3)
  }

  /** The gyroscope reading at index i, or zeros when there is none. */
  function GyroAt(gyro: seq<Vec3>, i: nat): Vec3 {
    if i < |gyro| then gyro[i] else Zero
  }

  /** Pairs each accelerometer reading with the gyroscope reading at the same index. */
  function Combine(accel: seq<Vec3>, gyro: seq<Vec3>): (rows: seq<Row>)
    ensures |rows| == |accel|
  {
    seq(|accel|, i requires 0 <= i < |accel| => Row(accel[i], GyroAt(gyro, i)))
  }

  /** Entry i of `combined` is accel[i]'s three values followed by gyro[i]'s, or by
      three zeros when the gyroscope buffer has no entry i. Gyroscope readings
      beyond the accelerometer buffer's length are dropped. */
  lemma CombinedValues(accel: seq<Vec3>, gyro: seq<Vec3>, i: nat, c: nat)
    requires i < |accel| && c < 6
    ensures c < 3 ==> RowValue(Combine(accel, gyro)[i], c) == Axis(accel[i], c)
    ensures 3 <= c && i < |gyro| ==> RowValue(Combine(accel, gyro)[i], c) == Axis(gyro[i], c - 3)
    ensures 3 <= c && i >= |gyro| ==> RowValue(Combine(accel, gyro)[i], c) == 0.0
  {
  }
}
