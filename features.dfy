/**
 * extractFeatures, defined separately in StairScreen.js and CyclingScreen.js
 * with identical behaviour:
 * split the window into its six channels, append seven statistics per channel
 * (mean, standard deviation, minimum, maximum, FFT peak, FFT power, entropy),
 * pad with zeros to 562 entries and cut to exactly 562.
 *
 * The floating-point statistics other than minimum and maximum (mean, std via
 * `Math.sqrt`, the `fft-js` transform, entropy via `Math.log2`) are not
 * interpreted: they are the fields of a `Kernels` value, arbitrary functions
 * of one channel, so that only the layout is stated about them.
 */
module Features {
  import opened Sequences
  import opened SampleBuffers

  const ChannelCount: nat := 6
  const StatsPerChannel: nat := 7
  const FeatureLength: nat := 562

  /** The statistics the model leaves uninterpreted. */
  datatype Kernels = Kernels(
    mean: seq<real> -> real,
    std: seq<real> -> real,
    fftPeak: seq<real> -> real,
    fftPower: seq<real> -> real,
    entropy: seq<real> -> real)

  /** The smallest value of a non-empty channel. */
  function MinOf(s: seq<real>): (m: real)
    requires |s| > 0
    ensures m in s
    ensures forall i :: 0 <= i < |s| ==> m <= s[i]
  {
    if |s| == 1 then s[0]
    else
      var rest := MinOf(s[1..]);
      assert forall i :: 1 <= i < |s| ==> s[i] == s[1..][i - 1];
      if s[0] <= rest then s[0] else rest
  }

  /** The largest value of a non-empty channel. */
  function MaxOf(s: seq<real>): (m: real)
    requires |s| > 0
    ensures m in s
    ensures forall i :: 0 <= i < |s| ==> s[i] <= m
  {
    if |s| == 1 then s[0]
    else
      var rest := MaxOf(s[1..]);
      assert forall i :: 1 <= i < |s| ==> s[i] == s[1..][i - 1];
      if s[0] >= rest then s[0] else rest
  }

  /** Channel `c` of the window: value `c` of every row, in row order. */
  function Channel(data: seq<Row>, c: nat): seq<real>
    requires c < ChannelCount
  {
    seq(|data|, i requires 0 <= i < |data| => RowValue(data[i], c))
  }

  /** The seven statistics of one channel, in the order the vector holds them:
      mean, deviation, minimum, maximum, FFT peak, FFT power, entropy. */
  function ChannelStats(k: Kernels, ch: seq<real>): seq<real>
    requires |ch| > 0
  {
    [k.mean(ch), k.std(ch), MinOf(ch), MaxOf(ch), k.fftPeak(ch), k.fftPower(ch), k.entropy(ch)]
  }

  /** The statistics of channels 0 .. n-1, one channel after the other. */
  function StatsOfChannels(k: Kernels, data: seq<Row>, n: nat): (r: seq<real>)
    requires |data| > 0 && n <= ChannelCount
    ensures |r| == StatsPerChannel * n
  {
    if n == 0 then [] else StatsOfChannels(k, data, n - 1) + ChannelStats(k, Channel(data, n - 1))
  }

  /** The first `n` entries of `f` extended with zeros. */
  function PadOrTruncate(s: seq<real>, n: nat): seq<real> {
    if |s| >= n then s[..n] else s + Zeros(n - |s|)
  }

  /** The feature vector extractFeatures returns. */
  function FeatureVector(k: Kernels, data: seq<Row>): seq<real>
    requires |data| > 0
  {
    PadOrTruncate(StatsOfChannels(k, data, ChannelCount), FeatureLength)
  }

  /** Padding or truncating yields exactly `n` entries: the input's first ones, then zeros. */
  lemma PadOrTruncateShape(s: seq<real>, n: nat)
    ensures |PadOrTruncate(s, n)| == n
    ensures forall i :: 0 <= i < n && i < |s| ==> PadOrTruncate(s, n)[i] == s[i]
    ensures forall i :: |s| <= i < n ==> PadOrTruncate(s, n)[i] == 0.0
  {
  }

  lemma {:induction false} StatsOfChannelsAt(k: Kernels, data: seq<Row>, n: nat, c: nat, j: nat)
    requires |data| > 0 && n <= ChannelCount
    requires c < n && j < StatsPerChannel
    ensures StatsOfChannels(k, data, n)[StatsPerChannel * c + j] == ChannelStats(k, Channel(data, c))[j]
  {
    var prev := StatsOfChannels(k, data, n - 1);
    if c < n - 1 {
      StatsOfChannelsAt(k, data, n - 1, c, j);
      assert StatsOfChannels(k, data, n)[StatsPerChannel * c + j] == prev[StatsPerChannel * c + j];
    } else {
      assert |prev| == StatsPerChannel * c;
    }
  }

  /** extractFeatures returns exactly 562 entries. Entry 7c + j is statistic j
      (mean, std, min, max, FFT peak, FFT power, entropy) of channel c
      (ax, ay, az, gx, gy, gz); every entry from 42 on is 0. */
  lemma FeatureVectorLayout(k: Kernels, data: seq<Row>)
    requires |data| > 0
    ensures |FeatureVector(k, data)| == FeatureLength
    ensures forall c, j :: 0 <= c < ChannelCount && 0 <= j < StatsPerChannel ==>
      FeatureVector(k, data)[StatsPerChannel * c + j] == ChannelStats(k, Channel(data, c))[j]
    ensures forall i :: ChannelCount * StatsPerChannel <= i < FeatureLength ==> FeatureVector(k, data)[i] == 0.0
  {
    var s := StatsOfChannels(k, data, ChannelCount);
    PadOrTruncateShape(s, FeatureLength);
    forall c, j | 0 <= c < ChannelCount && 0 <= j < StatsPerChannel
      ensures FeatureVector(k, data)[StatsPerChannel * c + j] == ChannelStats(k, Channel(data, c))[j]
    {
      StatsOfChannelsAt(k, data, ChannelCount, c, j);
    }
  }

  /** Per channel, the min entry is at most the max entry and both are values of that channel. */
  lemma MinMaxFeatures(k: Kernels, data: seq<Row>, c: nat)
    requires |data| > 0 && c < ChannelCount
    ensures var f := FeatureVector(k, data);
      f[StatsPerChannel * c + 2] <= f[StatsPerChannel * c + 3] &&
      f[StatsPerChannel * c + 2] in Channel(data, c) && f[StatsPerChannel * c + 3] in Channel(data, c)
  {
    FeatureVectorLayout(k, data);
    var ch := Channel(data, c);
    assert ChannelStats(k, ch)[2] == MinOf(ch) && ChannelStats(k, ch)[3] == MaxOf(ch);
    assert FeatureVector(k, data)[StatsPerChannel * c + 2] == MinOf(ch);
    assert FeatureVector(k, data)[StatsPerChannel * c + 3] == MaxOf(ch);
    assert ch[0] == RowValue(data[0], c);
  }

  /** Splits the rows into six channels by appending each row's values, one per channel. */
  method DeInterleave(data: seq<Row>) returns (channels: seq<seq<real>>)
    ensures |channels| == ChannelCount
    ensures forall c :: 0 <= c < ChannelCount ==> channels[c] == Channel(data, c)
  {
    channels := [[], [], [], [], [], []];
    var i := 0;
    while i < |data|
      invariant 0 <= i <= |data|
      invariant |channels| == ChannelCount
      invariant forall c :: 0 <= c < ChannelCount ==> channels[c] == Channel(data[..i], c)
    {
      var r := data[i];
      ghost var before := channels;
      channels := [channels[0] + [r.accel.x], channels[1] + [r.accel.y], channels[2] + [r.accel.z],
                   channels[3] + [r.gyro.x], channels[4] + [r.gyro.y], channels[5] + [r.gyro.z]];
      forall c | 0 <= c < ChannelCount
        ensures channels[c] == Channel(data[..i + 1], c)
      {
        assert channels[c] == before[c] + [RowValue(r, c)];
        assert data[..i + 1] == data[..i] + [r];
      }
      i := i + 1;
    }
    assert data[..i] == data;
  }

  /** extractFeatures, step by step as the source builds its `features` array. */
  method ExtractFeatures(k: Kernels, data: seq<Row>) returns (features: seq<real>)
    requires |data| > 0
    ensures features == FeatureVector(k, data)
  {
    var channels := DeInterleave(data);
    features := [];
    var c := 0;
    while c < ChannelCount
      invariant 0 <= c <= ChannelCount
      invariant features == StatsOfChannels(k, data, c)
    {
      features := features + ChannelStats(k, channels[c]);
      c := c + 1;
    }
    ghost var computed := features;
    while |features| < FeatureLength
      invariant |computed| <= |features| <= FeatureLength
      invariant features == computed + Zeros(|features| - |computed|)
    {
      features := features + [0.0];
    }
    features := features[..FeatureLength];
  }
}
