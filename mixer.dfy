/** `mix_waves`: the element-wise sum of the voices' buffers, divided by its
    peak when the peak exceeds 1, or a fixed-length silent buffer when no
    voice sounds. */
module Mixer {
  import opened Numeric
  import opened Notes
  import opened Waveform

  /** All buffers have the length of the first (what `np.sum(waves, axis=0)`
      needs to build a two-dimensional array). */
  predicate Uniform(waves: seq<seq<real>>) {
    forall j :: 0 <= j < |waves| ==> |waves[j]| == |waves[0]|
  }

  /** What `mix_waves` can take: an empty list, or buffers of one common,
      non-zero length (numpy rejects ragged lists, and `np.max` an empty sum). */
  predicate Mixable(waves: seq<seq<real>>) {
    Uniform(waves) && (waves != [] ==> |waves[0]| > 0)
  }

  /** Every buffer has a sample at index `i`. */
  predicate HasColumn(waves: seq<seq<real>>, i: nat) {
    forall j :: 0 <= j < |waves| ==> i < |waves[j]|
  }

  /** Sum of sample `i` over all buffers. */
  function ColumnSum(waves: seq<seq<real>>, i: nat): real
    requires HasColumn(waves, i)
  {
    if waves == [] then 0.0 else waves[0][i] + ColumnSum(waves[1..], i)
  }

  /** `np.sum(waves, axis=0)`. */
  function SumWaves(waves: seq<seq<real>>): seq<real>
    requires waves != [] && Uniform(waves)
  {
    seq(|waves[0]|, i requires 0 <= i < |waves[0]| => ColumnSum(waves, i))
  }

  /** `np.max(np.abs(s))`, taken as 0 for an empty buffer. */
  function Peak(s: seq<real>): (p: real)
    ensures p >= 0.0
  {
    if s == [] then 0.0 else MaxReal(Abs(s[0]), Peak(s[1..]))
  }

  /** `int(sample_rate * (1 / min_freq))` with the table's lowest frequency. */
  function SilenceLength(): nat {
    (SampleRate as real * (1.0 / MinTableFreq)).Floor
  }

  /** `mix_waves(waves)`. */
  function MixWaves(waves: seq<seq<real>>): (r: seq<real>)
    requires Mixable(waves)
    ensures |r| == if waves == [] then SilenceLength() else |waves[0]|
  {
    if waves == [] then Zeros(SilenceLength()) else Normalize(SumWaves(waves))
  }

  /** `mixed / np.max(np.abs(mixed))` when that peak exceeds 1, else `mixed`. */
  function Normalize(s: seq<real>): (r: seq<real>)
    ensures |r| == |s|
  {
    if Peak(s) > 1.0 then Scale(s, Peak(s)) else s
  }

  /** `s / p`, element-wise. */
  function Scale(s: seq<real>, p: real): (r: seq<real>)
    requires p > 0.0
    ensures |r| == |s|
  {
    seq(|s|, i requires 0 <= i < |s| => s[i] / p)
  }

  /** The peak bounds every sample's magnitude. */
  lemma {:induction false} PeakBounds(s: seq<real>, i: nat)
    requires i < |s|
    ensures Abs(s[i]) <= Peak(s)
  {
    if i > 0 {
      PeakBounds(s[1..], i - 1);
    }
  }

  /** The peak of a non-empty buffer is the magnitude of one of its samples. */
  lemma {:induction false} PeakAttained(s: seq<real>) returns (k: nat)
    requires s != []
    ensures k < |s| && Abs(s[k]) == Peak(s)
  {
    if s[1..] == [] || Abs(s[0]) >= Peak(s[1..]) {
      k := 0;
    } else {
      var j := PeakAttained(s[1..]);
      k := j + 1;
    }
  }

  /** A bound on every sample's magnitude that one sample reaches is the peak. */
  lemma PeakUnique(s: seq<real>, b: real, k: nat)
    requires k < |s| && Abs(s[k]) == b
    requires forall i :: 0 <= i < |s| ==> Abs(s[i]) <= b
    ensures Peak(s) == b
  {
    PeakBounds(s, k);
    var j := PeakAttained(s);
  }

  /** With no voices the mixer returns 168 zeros: the length of one period of
      the table's lowest note, 261.63 Hz, at 44100 Hz. */
  lemma MixSilence()
    ensures MixWaves([]) == Zeros(168)
  {
  }

  /** Clipping safety: every mixed sample lies in [-1, 1]. */
  lemma MixClipSafe(waves: seq<seq<real>>)
    requires Mixable(waves)
    ensures forall i :: 0 <= i < |MixWaves(waves)| ==> Abs(MixWaves(waves)[i]) <= 1.0
  {
    var r := MixWaves(waves);
    if waves != [] {
      var mixed := SumWaves(waves);
      var peak := Peak(mixed);
      forall i | 0 <= i < |r|
        ensures Abs(r[i]) <= 1.0
      {
        PeakBounds(mixed, i);
        if peak > 1.0 {
          DivideByPeak(mixed[i], peak);
        }
      }
    }
  }

  /** |x / p| <= 1 and |x / p| == 1 exactly when |x| == p. */
  lemma DivideByPeak(x: real, p: real)
    requires p > 0.0 && Abs(x) <= p
    ensures Abs(x / p) <= 1.0
    ensures Abs(x / p) == 1.0 <==> Abs(x) == p
  {
    assert Abs(x / p) * p == Abs(x);
  }

  /** A quiet mix (peak at most 1) is the plain element-wise sum: it is not
      boosted. */
  lemma MixQuietIsSum(waves: seq<seq<real>>)
    requires Mixable(waves) && waves != []
    requires Peak(SumWaves(waves)) <= 1.0
    ensures MixWaves(waves) == SumWaves(waves)
  {
  }

  /** A loud mix is the sum scaled down uniformly: every sample is divided
      by the same factor, the sum's peak, so the balance between voices is
      kept. */
  lemma MixLoudIsScaledSum(waves: seq<seq<real>>)
    requires Mixable(waves) && waves != []
    requires Peak(SumWaves(waves)) > 1.0
    ensures forall i :: 0 <= i < |waves[0]| ==>
              MixWaves(waves)[i] == SumWaves(waves)[i] / Peak(SumWaves(waves))
  {
  }

  /** The peak after mixing is the peak of the sum, capped at 1: a loud mix
      peaks at exactly 1, a quiet one keeps its own peak. */
  lemma MixPeak(waves: seq<seq<real>>)
    requires Mixable(waves) && waves != []
    ensures Peak(MixWaves(waves)) == MinReal(Peak(SumWaves(waves)), 1.0)
  {
    var mixed := SumWaves(waves);
    var peak := Peak(mixed);
    var r := MixWaves(waves);
    var k := PeakAttained(mixed);
    if peak > 1.0 {
      forall i | 0 <= i < |r|
        ensures Abs(r[i]) <= 1.0
      {
        PeakBounds(mixed, i);
        DivideByPeak(mixed[i], peak);
      }
      DivideByPeak(mixed[k], peak);
      PeakUnique(r, 1.0, k);
    }
  }

  /** A single voice whose samples stay within [-1, 1] passes through the
      mixer unchanged. */
  lemma MixSingleVoice(w: seq<real>)
    requires |w| > 0
    requires forall i :: 0 <= i < |w| ==> Abs(w[i]) <= 1.0
    ensures MixWaves([w]) == w
  {
    var mixed := SumWaves([w]);
    forall i | 0 <= i < |w|
      ensures mixed[i] == w[i]
    {
      assert ColumnSum([w], i) == w[i] + ColumnSum([], i);
    }
    assert mixed == w;
    var k := PeakAttained(w);
    assert Peak(w) <= 1.0;
  }

  /** Taking buffer `j` out of the list takes its sample out of the sum. */
  lemma {:induction false} ColumnSumRemove(waves: seq<seq<real>>, j: nat, i: nat)
    requires j < |waves| && HasColumn(waves, i)
    ensures HasColumn(waves[..j] + waves[j + 1..], i)
    ensures ColumnSum(waves, i) == waves[j][i] + ColumnSum(waves[..j] + waves[j + 1..], i)
  {
    if j > 0 {
      var rest := waves[1..];
      ColumnSumRemove(rest, j - 1, i);
      assert waves[..j] + waves[j + 1..] == [waves[0]] + (rest[..j - 1] + rest[j..]);
    } else {
      assert waves[..j] + waves[j + 1..] == waves[1..];
    }
  }

  /** Removing element `j` removes one copy of it from the multiset. */
  lemma MultisetRemove(b: seq<seq<real>>, j: nat)
    requires j < |b|
    ensures multiset(b[..j] + b[j + 1..]) == multiset(b) - multiset{b[j]}
  {
    assert b == b[..j] + [b[j]] + b[j + 1..];
    assert multiset(b) == multiset(b[..j]) + multiset{b[j]} + multiset(b[j + 1..]);
  }

  /** Taking the first buffer of `a` and a copy of it out of `b` keeps two
      permutations permutations of each other. */
  lemma RemoveMatching(a: seq<seq<real>>, b: seq<seq<real>>, j: nat)
    requires a != [] && j < |b| && b[j] == a[0]
    requires multiset(a) == multiset(b)
    ensures multiset(a[1..]) == multiset(b[..j] + b[j + 1..])
  {
    MultisetRemove(b, j);
    assert a == [a[0]] + a[1..];
    assert multiset(a) == multiset{a[0]} + multiset(a[1..]);
  }

  /** A buffer that occurs in a list occurs at some index. */
  lemma IndexOf(b: seq<seq<real>>, x: seq<real>) returns (j: nat)
    requires x in multiset(b)
    ensures j < |b| && b[j] == x
  {
    assert x in b;
    j :| 0 <= j < |b| && b[j] == x;
  }

  /** The sum does not depend on the order of the buffers. */
  lemma {:induction false} ColumnSumPermutation(a: seq<seq<real>>, b: seq<seq<real>>, i: nat)
    requires multiset(a) == multiset(b)
    requires HasColumn(a, i) && HasColumn(b, i)
    ensures ColumnSum(a, i) == ColumnSum(b, i)
    decreases |a|
  {
    if a != [] {
      var j := IndexOf(b, a[0]);
      var bRest := b[..j] + b[j + 1..];
      RemoveMatching(a, b, j);
      ColumnSumRemove(b, j, i);
      assert HasColumn(a[1..], i);
      ColumnSumPermutation(a[1..], bRest, i);
    } else {
      assert |b| == |multiset(b)| == 0;
    }
  }

  /** Mixing does not depend on the order in which the voices are listed. */
  lemma MixOrderIndependent(a: seq<seq<real>>, b: seq<seq<real>>)
    requires multiset(a) == multiset(b)
    requires Mixable(a)
    ensures Mixable(b)
    ensures MixWaves(a) == MixWaves(b)
  {
    assert |a| == |multiset(a)| == |b|;
    if a != [] {
      forall m | 0 <= m < |b|
        ensures |b[m]| == |a[0]|
      {
        assert b[m] in multiset(a);
        var q :| 0 <= q < |a| && a[q] == b[m];
      }
      var sa := SumWaves(a);
      var sb := SumWaves(b);
      forall i | 0 <= i < |sa|
        ensures sa[i] == sb[i]
      {
        ColumnSumPermutation(a, b, i);
      }
      assert sa == sb;
    }
  }
}
