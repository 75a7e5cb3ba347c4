/**
 Band-pass designer following the Audio EQ Cookbook "BPF (constant 0 dB
 peak gain)" entry, with alpha = sin(w)*sinh(1/(2q)) in place of the
 cookbook's sin(w)/(2Q), and the band-pass filter built from it.
 */
module BandPass {
  import opened Maths
  import opened Biquad

  /** Normalised centre frequency w = 2*pi*hz / fs. */
  function Omega(samplingRate: real, hz: real): real
    requires samplingRate != 0.0
  {
    2.0 * Pi * hz / samplingRate
  }

  function Alpha(m: Libm, samplingRate: real, hz: real, q: real): real
    requires samplingRate != 0.0 && q != 0.0
  {
    m.sin(Omega(samplingRate, hz)) * m.sinh(1.0 / (2.0 * q))
  }

  /** The inputs for which the coefficient formulas are defined in exact arithmetic. */
  predicate Designable(m: Libm, samplingRate: real, hz: real, q: real) {
    samplingRate != 0.0 && q != 0.0 && 1.0 + Alpha(m, samplingRate, hz, q) != 0.0
  }

  /**
   The designer's coefficients: no DC path (b1 = 0, b2 = -b0), hence zero gain
   at both DC and Nyquist, and the feedback pole radius tied to b0 by a2 = 2*b0 - 1.
   */
  function Coefficients(m: Libm, samplingRate: real, hz: real, q: real): (c: Coefs)
    requires Designable(m, samplingRate, hz, q)
    ensures c.b1 == 0.0 && c.b2 == -c.b0
    ensures c.b0 + c.b1 + c.b2 == 0.0
    ensures c.b0 - c.b1 + c.b2 == 0.0
    ensures c.a2 == 2.0 * c.b0 - 1.0
  {
    var omega := Omega(samplingRate, hz);
    var alpha := Alpha(m, samplingRate, hz, q);
    var invA0 := 1.0 / (1.0 + alpha);
    var b0 := alpha * invA0;
    var b1 := 0.0;
    var b2 := -b0;
    var a1 := 2.0 * m.cos(omega) * invA0;
    var a2 := -(1.0 - alpha) * invA0;
    assert (1.0 + alpha) * invA0 == 1.0;
    Coefs(a1, a2, b0, b1, b2)
  }

  /**
   Coefficients of H(z) = (b0 + b1 z^-1 + b2 z^-2) / (a0 + a1 z^-1 + a2 z^-2)
   as the Audio EQ Cookbook writes them, before normalisation.
   */
  datatype Cookbook = Cookbook(b0: real, b1: real, b2: real, a0: real, a1: real, a2: real)

  /** The cookbook's BPF with constant 0 dB peak gain, for cos(w) and alpha. */
  function CookbookBandPass(cosOmega: real, alpha: real): Cookbook {
    Cookbook(alpha, 0.0, -alpha, 1.0 + alpha, -2.0 * cosOmega, 1.0 - alpha)
  }

  /**
   Divides through by a0 and flips the sign of the feedback terms, turning
   the cookbook's `- a1*y` difference equation into the biquad's `+ a1*y`.
   */
  function Normalize(k: Cookbook): Coefs
    requires k.a0 != 0.0
  {
    Coefs(-k.a1 / k.a0, -k.a2 / k.a0, k.b0 / k.a0, k.b1 / k.a0, k.b2 / k.a0)
  }

  /** The designer agrees with the cookbook entry, normalised, for the alpha it uses. */
  lemma {:induction false} MatchesCookbook(m: Libm, samplingRate: real, hz: real, q: real)
    requires Designable(m, samplingRate, hz, q)
    ensures Coefficients(m, samplingRate, hz, q)
         == Normalize(CookbookBandPass(m.cos(Omega(samplingRate, hz)), Alpha(m, samplingRate, hz, q)))
  {
    var alpha := Alpha(m, samplingRate, hz, q);
    var a0 := 1.0 + alpha;
    var w := Omega(samplingRate, hz);
    TimesReciprocal(alpha, a0);
    TimesReciprocal(2.0 * m.cos(w), a0);
    TimesReciprocal(-(1.0 - alpha), a0);
    TimesReciprocal(-alpha, a0);
  }

  lemma {:induction false} TimesReciprocal(t: real, d: real)
    requires d != 0.0
    ensures t * (1.0 / d) == t / d
  {
  }

  /** Number of octaves the heuristic spreads the bands over. */
  function Octaves(m: Libm, samplingRate: real): real {
    m.log2(samplingRate / (2.205 * 20.0))
  }

  /** Quality factor heuristic: sqrt(2) * bands / octaves, positive for a positive band count. */
  function ApproximateQ(m: Libm, samplingRate: real, numBands: int): (q: real)
    requires Octaves(m, samplingRate) != 0.0
    ensures m.sqrt2 > 0.0 && numBands > 0 && Octaves(m, samplingRate) > 0.0 ==> q > 0.0
    ensures m.sqrt2 != 0.0 && numBands != 0 ==> q != 0.0
  {
    var octaves := Octaves(m, samplingRate);
    var q := m.sqrt2 * numBands as real / octaves;
    assert q * octaves == m.sqrt2 * numBands as real;
    q
  }

  /** The heuristic is linear in the number of bands. */
  lemma {:induction false} ApproximateQLinear(m: Libm, samplingRate: real, numBands: int, k: int)
    requires Octaves(m, samplingRate) != 0.0
    ensures ApproximateQ(m, samplingRate, k * numBands) == k as real * ApproximateQ(m, samplingRate, numBands)
  {
    var o := Octaves(m, samplingRate);
    var s := m.sqrt2;
    assert (k * numBands) as real == k as real * numBands as real;
    assert s * (k as real * numBands as real) == k as real * (s * numBands as real);
    assert (k as real * (s * numBands as real)) / o == k as real * ((s * numBands as real) / o);
  }

  /**
   A band-pass filter as constructed or reset: the designer's coefficients
   with the history cleared. Processing is the biquad's, applied unchanged.
   */
  function New(m: Libm, samplingRate: real, hz: real, q: real): (f: Filter)
    requires Designable(m, samplingRate, hz, q)
    ensures f.coefs == Coefficients(m, samplingRate, hz, q)
    ensures f.hist == ZeroHistory
  {
    Reset(Coefficients(m, samplingRate, hz, q))
  }

  /** `BandPass::process` forwards to the biquad's `process`. */
  method Process(f: Filter, input: seq<real>) returns (output: seq<real>, next: Filter)
    requires |input| >= 2
    ensures Run(f, input) == Processed(output, next)
  {
    output, next := Biquad.Process(f, input);
  }
}
