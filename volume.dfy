/** Rounding and the two volume unit conversions of pulseaudio.hh.

    The source computes with C doubles; every operand it sees is an integer
    (a channel volume, a percentage, PA_VOLUME_NORM), so the model computes
    exactly over `real`. The casts `(int)` and `(pa_volume_t)` that follow
    each rounding are applied to an integral value and are therefore the
    identity here. */
module Volume {

  /** The ceiling of a real, written with Dafny's built-in floor. */
  function Ceil(y: real): (r: int)
    ensures r as real - 1.0 < y <= r as real
  {
    -((-y).Floor)
  }

  /** `n` is `x` rounded to the nearest integer, with halves going away
      from zero: an upward tie only for positive `x`, a downward tie only
      for negative `x`. */
  ghost predicate IsRoundHalfAway(x: real, n: int)
  {
    && x - 0.5 <= n as real <= x + 0.5
    && (n as real == x + 0.5 ==> x > 0.0)
    && (n as real == x - 0.5 ==> x < 0.0)
  }

  /** The file's own `round` helper. */
  function Round(x: real): (r: int)
    ensures IsRoundHalfAway(x, r)
  {
    if x > 0.0 then (x + 0.5).Floor else Ceil(x - 0.5)
  }

  /** The rounding relation has exactly one solution, so it is a complete
      specification of Round. */
  lemma RoundUnique(x: real, n: int)
    ensures IsRoundHalfAway(x, n) <==> n == Round(x)
  {
  }

  /** Rounding half away from zero is symmetric about zero. */
  lemma RoundOdd(x: real)
    ensures Round(-x) == -Round(x)
  {
    RoundUnique(-x, -Round(x));
  }

  /** Rounding never reverses the order of two values. */
  lemma RoundMonotone(x: real, y: real)
    requires x <= y
    ensures Round(x) <= Round(y)
  {
    if Round(x) > Round(y) {
      RoundUnique(x, Round(y));
    }
  }

  /** An integral value rounds to itself. */
  lemma RoundIntegral(n: int)
    ensures Round(n as real) == n
  {
    RoundUnique(n as real, n);
  }

  /** `fmax(a, 0)` on the non-NaN values that occur here. */
  function ClampAtZero(a: real): (r: real)
    ensures r >= 0.0 && r >= a
    ensures r == a || r == 0.0
  {
    if a > 0.0 then a else 0.0
  }

  /** The native volume written into every channel by set_sink_volume:
      `round(fmax(percent * NORM / 100, 0))`. */
  function NativeVolume(percent: int, norm: nat): (v: nat)
    ensures percent <= 0 ==> v == 0
    ensures percent >= 0 ==> IsRoundHalfAway(percent as real * norm as real / 100.0, v)
  {
    var scaled := percent as real * norm as real / 100.0;
    assert percent >= 0 ==> scaled >= 0.0;
    Round(ClampAtZero(scaled))
  }

  /** The `volume_percent` of a sink snapshot: `round(avg * 100 / NORM)`. */
  function VolumePercent(avg: nat, norm: nat): (p: nat)
    requires norm > 0
    ensures IsRoundHalfAway(avg as real * 100.0 / norm as real, p)
  {
    Round(avg as real * 100.0 / norm as real)
  }

  /** Dividing a rounding error `e` by `n / 100` shrinks it when `n` is at
      least 100, strictly so when `n` exceeds 100. */
  lemma ScaledError(e: real, n: real)
    requires n >= 100.0 && -0.5 <= e <= 0.5
    ensures -0.5 <= e * 100.0 / n <= 0.5
    ensures n > 100.0 ==> -0.5 < e * 100.0 / n < 0.5
  {
    var q := 100.0 / n;
    assert 0.0 < q <= 1.0;
    assert n > 100.0 ==> q < 1.0;
    assert e * 100.0 / n == e * q;
  }

  /** A percentage in the native unit, read back as a percentage, is the
      percentage that was set, as long as one percent is at least one
      native step (PA_VOLUME_NORM is 0x10000, far above 100). */
  lemma PercentRoundTrip(percent: nat, norm: nat)
    requires norm >= 100
    ensures VolumePercent(NativeVolume(percent, norm), norm) == percent
  {
    var n := norm as real;
    var p := percent as real;
    var a := p * n / 100.0;
    var v := NativeVolume(percent, norm);
    var y := v as real * 100.0 / n;
    // y lies as far from p as v lies from a, scaled by 100 / n.
    assert a * 100.0 / n == p;
    assert y - p == (v as real - a) * 100.0 / n;
    ScaledError(v as real - a, n);
    if norm == 100 {
      // One percent is one native step: the conversion is exact.
      assert a == p;
      RoundIntegral(percent);
    }
    RoundUnique(y, percent);
  }

  /** A negative percentage clamps to silence, which reads back as 0%. */
  lemma NegativePercentReadsZero(percent: int, norm: nat)
    requires percent < 0 && norm > 0
    ensures NativeVolume(percent, norm) == 0
    ensures VolumePercent(NativeVolume(percent, norm), norm) == 0
  {
    RoundIntegral(0);
  }
}
