/**
 * The walking screen (screens/WalkingScreen.js): an accelerometer listener
 * that appends each reading's three values to a flat window kept at its last
 * 240 values, a local classifier run on the last 240 values reshaped into 80
 * triples, a walking flag set from the predicted class, a one-second
 * duration counter, and the report of the duration as 'walking' on teardown.
 *
 * The packaged model is a parameter `classify` from the reshaped input to the
 * predicted class (`None` when prediction throws).
 */
module WalkingScreen {
  import opened Wrappers
  import opened Sensors
  import opened Sequences
  import opened ActivityContext

  const WindowLength: nat := 240
  const TripleCount: nat := 80
  /** The predicted class the screen counts as walking. */
  const WalkingLabel: int := 5

  /** The window after one reading, and the values passed to predictLocally, if any. */
  datatype WindowUpdate = WindowUpdate(window: seq<real>, request: Option<seq<real>>)

  /** The accelerometer listener's window update: append the reading's three
      values, keep the last 240, and request a prediction on them once the
      appended window has reached 240 values. */
  function AppendSample(prev: seq<real>, s: Vec3): (u: WindowUpdate)
    ensures |u.window| <= WindowLength
    ensures u.request.Some? <==> |prev| + 3 >= WindowLength
    ensures u.request.Some? ==> u.request.value == u.window && |u.window| == WindowLength
    ensures |prev| % 3 == 0 && |prev| <= WindowLength ==> |u.window| % 3 == 0
  {
    var updated := prev + [s.x, s.y, s.z];
    var kept := LastN(updated, WindowLength);
    WindowUpdate(kept, if |updated| >= WindowLength then Some(kept) else None)
  }

  /** The readings' values, three per reading, in arrival order. */
  function Values(samples: seq<Vec3>): seq<real>
    decreases |samples|
  {
    if samples == [] then [] else [samples[0].x, samples[0].y, samples[0].z] + Values(samples[1..])
  }

  /** The window after the listener has received `samples`. */
  function Feed(window: seq<real>, samples: seq<Vec3>): seq<real>
    decreases |samples|
  {
    if samples == [] then window else Feed(AppendSample(window, samples[0]).window, samples[1..])
  }

  /** After any readings the window holds the last min(len, 240) values of
      everything received, in order. */
  lemma {:induction false} FeedKeepsLastValues(window: seq<real>, samples: seq<Vec3>)
    requires |window| <= WindowLength
    ensures Feed(window, samples) == LastN(window + Values(samples), WindowLength)
    decreases |samples|
  {
    if samples == [] {
      assert window + Values(samples) == window;
    } else {
      var s := samples[0];
      var triple := [s.x, s.y, s.z];
      var next := LastN(window + triple, WindowLength);
      assert Feed(window, samples) == Feed(next, samples[1..]);
      assert Values(samples) == triple + Values(samples[1..]);
      FeedKeepsLastValues(next, samples[1..]);
      LastNAppend(window + triple, Values(samples[1..]), WindowLength);
      assert window + triple + Values(samples[1..]) == window + Values(samples);
    }
  }

  /** Consecutive slices of three values; the last one shorter if the length is not a multiple of 3. */
  function Chunks(v: seq<real>): seq<seq<real>>
    decreases |v|
  {
    if |v| == 0 then [] else if |v| <= 3 then [v] else [v[..3]] + Chunks(v[3..])
  }

  function Flatten(t: seq<seq<real>>): seq<real>
    decreases |t|
  {
    if t == [] then [] else t[0] + Flatten(t[1..])
  }

  /** Reshaping loses nothing: flattening the triples gives back the input. */
  lemma {:induction false} FlattenChunks(v: seq<real>)
    ensures Flatten(Chunks(v)) == v
    decreases |v|
  {
    if |v| > 3 {
      FlattenChunks(v[3..]);
      assert v[..3] + v[3..] == v;
    } else if |v| > 0 {
      assert Chunks(v) == [v];
      assert Flatten([v]) == v + Flatten([]);
    }
  }

  /** A window of 240 values becomes 80 triples, triple j being values [3j, 3j + 3). */
  lemma {:induction false} ChunksAreTriples(v: seq<real>)
    requires |v| % 3 == 0
    ensures |Chunks(v)| == |v| / 3
    ensures forall j :: 0 <= j < |v| / 3 ==> Chunks(v)[j] == v[3 * j..3 * j + 3]
    decreases |v|
  {
    if |v| > 3 {
      var rest := v[3..];
      ChunksAreTriples(rest);
      forall j | 0 <= j < |v| / 3
        ensures Chunks(v)[j] == v[3 * j..3 * j + 3]
      {
        if j > 0 {
          assert Chunks(v)[j] == Chunks(rest)[j - 1];
          assert rest[3 * (j - 1)..3 * (j - 1) + 3] == v[3 * j..3 * j + 3];
        }
      }
    }
  }

  lemma WindowReshapesTo80Triples(v: seq<real>)
    requires |v| == WindowLength
    ensures |Chunks(v)| == TripleCount
    ensures forall j :: 0 <= j < TripleCount ==> |Chunks(v)[j]| == 3 && Chunks(v)[j] == v[3 * j..3 * j + 3]
  {
    ChunksAreTriples(v);
  }

  function DropFirst(v: seq<real>, i: nat): seq<real> {
    if i >= |v| then [] else v[i..]
  }

  /** The reshape loop of predictLocally. */
  method Reshape(values: seq<real>) returns (reshaped: seq<seq<real>>)
    ensures reshaped == Chunks(values)
  {
    reshaped := [];
    var i := 0;
    while i < |values|
      invariant reshaped + Chunks(DropFirst(values, i)) == Chunks(values)
    {
      var end := if i + 3 <= |values| then i + 3 else |values|;
      ghost var rest := values[i..];
      assert Chunks(rest) == [values[i..end]] + Chunks(DropFirst(values, i + 3)) by {
        if |rest| > 3 {
          assert rest[..3] == values[i..end];
          assert rest[3..] == DropFirst(values, i + 3);
        } else {
          assert Chunks(rest) == [rest] || rest == [];
          assert values[i..end] == rest;
          assert DropFirst(values, i + 3) == [];
        }
      }
      reshaped := reshaped + [values[i..end]];
      i := i + 3;
    }
  }

  /** The class predictLocally obtains, if it gets that far: only with a loaded
      model, an input of exactly 240 values and a prediction that does not throw. */
  function LocalPrediction(modelLoaded: bool, values: seq<real>, classify: seq<seq<real>> -> Option<int>): Option<int> {
    if modelLoaded && |values| == WindowLength then classify(Chunks(values)) else None
  }

  class WalkingTracker {
    var window: seq<real>
    var walking: bool
    var predictedClass: Option<int>
    var duration: nat
    var modelLoaded: bool

    ghost predicate Valid()
      reads this
    {
      |window| <= WindowLength && |window| % 3 == 0
    }

    constructor ()
      ensures Valid()
      ensures window == [] && !walking && predictedClass == None && duration == 0 && !modelLoaded
    {
      window, walking, predictedClass, duration, modelLoaded := [], false, None, 0, false;
    }

    /** loadModel: the model reference is set only when loading succeeds; a
        failure leaves it as it was. */
    method LoadModel(succeeded: bool)
      modifies this`modelLoaded
      ensures modelLoaded == (old(modelLoaded) || succeeded)
    {
      if succeeded {
        modelLoaded := true;
      }
    }

    /** predictLocally: nothing without a model or unless exactly 240 values arrive;
        otherwise reshape, classify, and set the walking flag from the class. */
    method PredictLocally(values: seq<real>, classify: seq<seq<real>> -> Option<int>)
      modifies this`walking, this`predictedClass
      ensures var p := LocalPrediction(modelLoaded, values, classify);
        if p.Some? then predictedClass == p && walking == (p.value == WalkingLabel)
        else walking == old(walking) && predictedClass == old(predictedClass)
    {
      if !modelLoaded || |values| != WindowLength {
        return;
      }
      var reshaped := Reshape(values);
      var prediction := classify(reshaped);
      if prediction.Some? {
        predictedClass := prediction;
        walking := prediction.value == WalkingLabel;
      }
    }

    /** The accelerometer listener. */
    method OnAccelerometer(s: Vec3, classify: seq<seq<real>> -> Option<int>)
      requires Valid()
      modifies this`window, this`walking, this`predictedClass
      ensures Valid()
      ensures window == AppendSample(old(window), s).window
      ensures var u := AppendSample(old(window), s);
        var p := if u.request.Some? then LocalPrediction(modelLoaded, u.request.value, classify) else None;
        if p.Some? then predictedClass == p && walking == (p.value == WalkingLabel)
        else walking == old(walking) && predictedClass == old(predictedClass)
    {
      var updated := window + [s.x, s.y, s.z];
      if |updated| >= WindowLength {
        PredictLocally(LastN(updated, WindowLength), classify);
      }
      window := LastN(updated, WindowLength);
    }

    /** The duration timer: one second more while walking. */
    method DurationTick()
      modifies this`duration
      ensures duration == old(duration) + (if walking then 1 else 0)
    {
      if walking {
        duration := duration + 1;
      }
    }

    /** Teardown reports the accumulated duration as 'walking'. */
    method Teardown(provider: ActivityProvider)
      modifies provider`activityTimes, provider`posts
      ensures provider.activityTimes == AddTime(old(provider.activityTimes), Walking, duration)
      ensures provider.posts == if EmailKnown(provider.userEmail)
        then old(provider.posts) + [Post(provider.userEmail.value, provider.activityTimes)]
        else old(provider.posts)
    {
      provider.UpdateActivityTime(Walking, duration);
    }
  }
}
