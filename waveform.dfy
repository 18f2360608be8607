/** `generate_wave`: one oscillator's buffer for one cycle. The buffer spans
    five periods of the adjusted frequency, sampled on numpy's half-open
    `linspace` grid, and is right-padded with silence up to `maxLength`. */
module Waveform {
  import opened Numeric
  import opened Notes

  const SampleRate: nat := 44100
  const Periods: real := 5.0

  /** `int(sample_rate * duration)` with `duration = periods / adjusted_freq`;
      `int` of a non-negative float is its floor. */
  function NaturalLength(adjustedFreq: real): nat
    requires adjustedFreq > 0.0
  {
    (SampleRate as real * (Periods / adjustedFreq)).Floor
  }

  /** The length of the returned buffer: the natural length, raised to
      `maxLength` by padding but never lowered. */
  function WaveLength(adjustedFreq: real, maxLength: int): nat
    requires adjustedFreq > 0.0
  {
    Max(NaturalLength(adjustedFreq), maxLength)
  }

  /** Point `i` of `np.linspace(0, duration, n, endpoint=False)`. */
  function SampleTime(i: nat, n: nat, duration: real): real
    requires i < n
  {
    (i as real) * (duration / (n as real))
  }

  /** One sample at phase `x = t * adjusted_freq` (in periods). `osc` stands
      for `x |-> sin(2 * pi * x)`, which the model does not define. */
  function Sample(shape: Shape, amplitude: real, x: real, osc: real -> real): real {
    match shape
    case Sine => amplitude * osc(x)
    case Square => amplitude * Sign(osc(x))
    case Triangle => TriangleSample(amplitude, x)
  }

  /** The triangle formula as written: the amplitude scales `2 * |2 * (x -
      floor(0.5 + x))|` but not the trailing `- 1`. */
  function TriangleSample(amplitude: real, x: real): real {
    amplitude * 2.0 * Abs(2.0 * (x - (0.5 + x).Floor as real)) - 1.0
  }

  /** The phase `t_i * adjusted_freq` of sample `i` of a natural buffer. */
  function Phase(i: nat, adjustedFreq: real): real
    requires adjustedFreq > 0.0 && i < NaturalLength(adjustedFreq)
  {
    SampleTime(i, NaturalLength(adjustedFreq), Periods / adjustedFreq) * adjustedFreq
  }

  /** The unpadded buffer: `NaturalLength` samples of five periods. */
  function NaturalWave(adjustedFreq: real, shape: Shape, amplitude: real, osc: real -> real): seq<real>
    requires adjustedFreq > 0.0
  {
    seq(NaturalLength(adjustedFreq), i requires 0 <= i < NaturalLength(adjustedFreq) =>
      Sample(shape, amplitude, Phase(i, adjustedFreq), osc))
  }

  /** `generate_wave(freq, wave_type, amplitude, max_length)` with the global
      pitch multiplier passed in as `freqAdjustment`. */
  function GenerateWave(freq: real, shape: Shape, amplitude: real, maxLength: int,
                        freqAdjustment: real, osc: real -> real): (w: seq<real>)
    requires freq > 0.0 && freqAdjustment > 0.0
    ensures |w| == WaveLength(freq * freqAdjustment, maxLength)
    ensures |w| >= maxLength && |w| >= NaturalLength(freq * freqAdjustment)
  {
    var wave := NaturalWave(freq * freqAdjustment, shape, amplitude, osc);
    if |wave| < maxLength then wave + Zeros(maxLength - |wave|) else wave
  }

  /** Padding only appends zeros on the right: the natural samples come
      first, untouched, and everything after them is silence. */
  lemma GenerateWavePadsRight(freq: real, shape: Shape, amplitude: real, maxLength: int,
                              freqAdjustment: real, osc: real -> real)
    requires freq > 0.0 && freqAdjustment > 0.0
    ensures var w := GenerateWave(freq, shape, amplitude, maxLength, freqAdjustment, osc);
            var n := NaturalLength(freq * freqAdjustment);
            n <= |w| &&
            w[..n] == NaturalWave(freq * freqAdjustment, shape, amplitude, osc) &&
            forall i :: n <= i < |w| ==> w[i] == 0.0
  {
  }

  /** The grid is half open: it starts at 0 and stays below `duration`, so
      the first sample of the next period is not repeated. */
  lemma TimeGridHalfOpen(i: nat, n: nat, duration: real)
    requires i < n && duration > 0.0
    ensures 0.0 <= SampleTime(i, n, duration) < duration
    ensures i == 0 ==> SampleTime(i, n, duration) == 0.0
  {
    var step := duration / (n as real);
    assert step > 0.0;
    assert (n as real) * step == duration;
    assert (i as real) * step < (n as real) * step by {
      assert (i as real) < (n as real);
    }
  }

  /** Sample `i` of the natural buffer sits at phase `5 * i / n` periods:
      the phase grid does not depend on the frequency. */
  lemma PhaseSpansFivePeriods(i: nat, adjustedFreq: real)
    requires adjustedFreq > 0.0 && i < NaturalLength(adjustedFreq)
    ensures var n := NaturalLength(adjustedFreq);
            Phase(i, adjustedFreq) == Periods * (i as real) / (n as real) &&
            0.0 <= Phase(i, adjustedFreq) < Periods
  {
    var n := NaturalLength(adjustedFreq);
    var d := Periods / adjustedFreq;
    assert d * adjustedFreq == Periods;
    calc {
      SampleTime(i, n, d) * adjustedFreq;
      (i as real) * (d / (n as real)) * adjustedFreq;
      (i as real) * ((d * adjustedFreq) / (n as real));
      Periods * (i as real) / (n as real);
    }
    assert Periods * (i as real) < Periods * (n as real);
  }

  /** `x - floor(0.5 + x)` lies in [-0.5, 0.5). */
  lemma RoundingResidue(x: real)
    ensures -0.5 <= x - (0.5 + x).Floor as real < 0.5
  {
  }

  /** For a non-negative amplitude a triangle sample lies in [-1, 2A - 1]:
      the amplitude scales only the rising part, not the trailing -1. */
  lemma TriangleSampleRange(amplitude: real, x: real, osc: real -> real)
    requires amplitude >= 0.0
    ensures -1.0 <= Sample(Triangle, amplitude, x, osc) <= 2.0 * amplitude - 1.0
  {
    var y := x - (0.5 + x).Floor as real;
    RoundingResidue(x);
    var u := Abs(2.0 * y);
    assert 0.0 <= u <= 1.0;
    assert amplitude * 2.0 * u <= amplitude * 2.0 by {
      assert amplitude * 2.0 * (1.0 - u) >= 0.0;
    }
    assert amplitude * 2.0 * u >= 0.0;
  }

  /** Every natural sample of a triangle voice lies in [-1, 2A - 1]. */
  lemma TriangleWaveRange(adjustedFreq: real, amplitude: real, osc: real -> real)
    requires adjustedFreq > 0.0 && amplitude >= 0.0
    ensures var w := NaturalWave(adjustedFreq, Triangle, amplitude, osc);
            forall i :: 0 <= i < |w| ==> -1.0 <= w[i] <= 2.0 * amplitude - 1.0
  {
    var w := NaturalWave(adjustedFreq, Triangle, amplitude, osc);
    forall i | 0 <= i < |w|
      ensures -1.0 <= w[i] <= 2.0 * amplitude - 1.0
    {
      TriangleSampleRange(amplitude, Phase(i, adjustedFreq), osc);
    }
  }

  /** At amplitude 0 a triangle voice is not silent: every natural sample is
      exactly -1. */
  lemma SilentTriangleIsMinusOne(adjustedFreq: real, osc: real -> real)
    requires adjustedFreq > 0.0
    ensures var w := NaturalWave(adjustedFreq, Triangle, 0.0, osc);
            forall i :: 0 <= i < |w| ==> w[i] == -1.0
  {
  }

  /** A square sample is -A, 0 or A. It is 0 at a zero of the sine, and for
      a non-zero amplitude only there. */
  lemma SquareSampleLevels(amplitude: real, x: real, osc: real -> real)
    ensures var s := Sample(Square, amplitude, x, osc);
            && (s == -amplitude || s == 0.0 || s == amplitude)
            && (osc(x) == 0.0 ==> s == 0.0)
            && (amplitude != 0.0 && s == 0.0 ==> osc(x) == 0.0)
  {
  }

  /** With an amplitude in [0, 1] (the only values the volume keys allow) and
      a sine bounded by 1, every sample of every shape, padding included,
      lies in [-1, 1]. */
  lemma VoiceSamplesBounded(freq: real, shape: Shape, amplitude: real, maxLength: int,
                            freqAdjustment: real, osc: real -> real)
    requires freq > 0.0 && freqAdjustment > 0.0
    requires 0.0 <= amplitude <= 1.0
    requires forall x :: -1.0 <= osc(x) <= 1.0
    ensures var w := GenerateWave(freq, shape, amplitude, maxLength, freqAdjustment, osc);
            forall i :: 0 <= i < |w| ==> -1.0 <= w[i] <= 1.0
  {
    var f := freq * freqAdjustment;
    var w := GenerateWave(freq, shape, amplitude, maxLength, freqAdjustment, osc);
    var n := NaturalLength(f);
    GenerateWavePadsRight(freq, shape, amplitude, maxLength, freqAdjustment, osc);
    forall i | 0 <= i < |w|
      ensures -1.0 <= w[i] <= 1.0
    {
      if i < n {
        assert w[i] == w[..n][i];
        SampleBounded(shape, amplitude, Phase(i, f), osc);
      }
    }
  }

  /** With an amplitude in [0, 1] and a sine bounded by 1, a sample of any
      shape lies in [-1, 1]. */
  lemma SampleBounded(shape: Shape, amplitude: real, x: real, osc: real -> real)
    requires 0.0 <= amplitude <= 1.0
    requires forall y :: -1.0 <= osc(y) <= 1.0
    ensures -1.0 <= Sample(shape, amplitude, x, osc) <= 1.0
  {
    match shape
    case Sine =>
      UnitProductBounded(amplitude, osc(x));
    case Square =>
      SquareSampleLevels(amplitude, x, osc);
    case Triangle =>
      TriangleSampleRange(amplitude, x, osc);
      assert 2.0 * amplitude - 1.0 <= 1.0;
  }

  /** A value in [-1, 1] scaled by a ≥ 0 lies in [-a, a]. */
  lemma ScaledUnitBounded(a: real, s: real)
    requires a >= 0.0 && -1.0 <= s <= 1.0
    ensures -a <= a * s <= a
  {
    assert a * (1.0 - s) >= 0.0;
    assert a * (1.0 + s) >= 0.0;
  }

  /** The product of a value in [0, 1] and a value in [-1, 1] lies in [-1, 1]. */
  lemma UnitProductBounded(a: real, s: real)
    requires 0.0 <= a <= 1.0 && -1.0 <= s <= 1.0
    ensures -1.0 <= a * s <= 1.0
  {
    ScaledUnitBounded(a, s);
  }

  /** A higher adjusted frequency never gives a longer natural buffer. */
  lemma NaturalLengthAntitone(low: real, high: real)
    requires 0.0 < low <= high
    ensures NaturalLength(high) <= NaturalLength(low)
  {
    assert Periods / high <= Periods / low by {
      assert Periods / high * high == Periods;
      assert Periods / low * low == Periods;
      assert Periods / low * high >= Periods / low * low;
    }
    var a := SampleRate as real * (Periods / high);
    var b := SampleRate as real * (Periods / low);
    assert a <= b;
  }
}
