/** Sequence helpers shared by the sensor windows. */
module Sequences {

  /** The last `n` elements of `s`, or all of `s` when it is shorter: JavaScript's `slice(-n)`. */
  function LastN<T>(s: seq<T>, n: nat): (r: seq<T>)
    ensures |r| == if |s| <= n then |s| else n
    ensures forall i :: 0 <= i < |r| ==> r[i] == s[|s| - |r| + i]
  {
    if |s| <= n then s else s[|s| - n..]
  }

  /** Keeping the last `n` elements and then appending and keeping the last `n`
      again is the same as keeping the last `n` of everything. */
  lemma LastNAppend<T>(s: seq<T>, t: seq<T>, n: nat)
    ensures LastN(LastN(s, n) + t, n) == LastN(s + t, n)
  {
    if |s| > n {
      var k := |s| - n;
      var u := s[k..] + t;
      assert LastN(s, n) == s[k..];
      assert u == (s + t)[k..];
      if t == [] {
        assert s + t == s;
      } else {
        assert LastN(u, n) == u[|t|..];
        assert LastN(s + t, n) == (s + t)[k + |t|..];
        assert u[|t|..] == (s + t)[k + |t|..];
      }
    }
  }

  /** `n` zeros. */
  function Zeros(n: nat): (r: seq<real>)
    ensures |r| == n
    ensures forall i :: 0 <= i < n ==> r[i] == 0.0
  {
    seq(n, _ => 0.0)
  }
}
