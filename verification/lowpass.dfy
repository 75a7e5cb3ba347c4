/**
 Two-pole Butterworth low-pass designer (quality factor sqrt(2)) and the
 low-pass filter, which is a biquad carrying these coefficients.
 */
module LowPass {
  import opened Maths
  import opened Biquad

  /** The inputs for which the coefficient formulas are defined in exact arithmetic. */
  predicate Designable(m: Libm, samplingRate: real, cutoffHz: real) {
    samplingRate != 0.0 && m.tan(Pi * (cutoffHz / samplingRate)) != 0.0
  }

  /** 1 + q*ita + ita^2 is positive once q^2 == 2, so the formulas never divide by zero. */
  lemma {:induction false} DenominatorPositive(q: real, ita: real)
    requires q * q == 2.0
    ensures 1.0 + q * ita + ita * ita > 0.0
  {
    var t := ita + q / 2.0;
    assert t * t == ita * ita + q * ita + q * q / 4.0;
    assert 1.0 + q * ita + ita * ita == t * t + 0.5;
  }

  /**
   The designer's coefficients: zero gain at Nyquist (z = -1), unity gain at
   DC (z = 1) for the `+a1*y` recurrence, and the feed-forward part is b0*(1, 2, 1).
   */
  function Coefficients(m: Libm, samplingRate: real, cutoffHz: real): (c: Coefs)
    requires m.Valid() && Designable(m, samplingRate, cutoffHz)
    ensures c.b1 == 2.0 * c.b0 && c.b2 == c.b0
    ensures c.b0 - c.b1 + c.b2 == 0.0
    ensures c.b0 + c.b1 + c.b2 == 1.0 - c.a1 - c.a2
    ensures c.b0 > 0.0
  {
    ForRatio(m, cutoffHz / samplingRate)
  }

  /** The formulas, written in terms of ff = cutoff / sampling rate. */
  function ForRatio(m: Libm, ff: real): (c: Coefs)
    requires m.Valid() && m.tan(Pi * ff) != 0.0
    ensures c.b1 == 2.0 * c.b0 && c.b2 == c.b0
    ensures c.b0 + c.b1 + c.b2 == 1.0 - c.a1 - c.a2
    ensures c.b0 > 0.0
  {
    var ita := 1.0 / m.tan(Pi * ff);
    var q := m.sqrt2;
    DenominatorPositive(q, ita);
    var d := 1.0 + q * ita + ita * ita;
    var b0 := 1.0 / d;
    var b1 := 2.0 * b0;
    var b2 := b0;
    var a1 := 2.0 * (ita * ita - 1.0) * b0;
    var a2 := -(1.0 - q * ita + ita * ita) * b0;
    assert b0 * d == 1.0;
    assert 1.0 - a1 - a2 == 1.0 + (3.0 - q * ita - ita * ita) * b0;
    assert 4.0 * b0 == b0 * d + (3.0 - q * ita - ita * ita) * b0;
    Coefs(a1, a2, b0, b1, b2)
  }

  /** The coefficients depend on cutoff and sampling rate only through their ratio. */
  lemma {:induction false} CoefficientsDependOnRatio(m: Libm, samplingRate: real, cutoffHz: real, k: real)
    requires m.Valid() && Designable(m, samplingRate, cutoffHz) && k > 0.0
    ensures Designable(m, k * samplingRate, k * cutoffHz)
    ensures Coefficients(m, k * samplingRate, k * cutoffHz) == Coefficients(m, samplingRate, cutoffHz)
  {
    var r := cutoffHz / samplingRate;
    assert cutoffHz == samplingRate * r;
    assert k * cutoffHz == (k * samplingRate) * r;
    assert (k * cutoffHz) / (k * samplingRate) == r;
  }

  /**
   A low-pass filter as constructed or reset: the designer's coefficients with
   the history cleared. Processing is the biquad's, applied unchanged.
   */
  function New(m: Libm, samplingRate: real, cutoffHz: real): (f: Filter)
    requires m.Valid() && Designable(m, samplingRate, cutoffHz)
    ensures f.coefs == Coefficients(m, samplingRate, cutoffHz)
    ensures f.hist == ZeroHistory
  {
    Reset(Coefficients(m, samplingRate, cutoffHz))
  }

  /** `LowPass::process` forwards to the biquad's `process`. */
  method Process(f: Filter, input: seq<real>) returns (output: seq<real>, next: Filter)
    requires |input| >= 2
    ensures Run(f, input) == Processed(output, next)
  {
    output, next := Biquad.Process(f, input);
  }
}
