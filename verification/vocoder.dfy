/**
 The vocoder: a bulk reference implementation that builds fresh filters for
 every band on every call, and a real-time implementation that keeps three
 band-pass filters and one low-pass filter per band across calls and is fed
 16-sample blocks. Both walk the same band frequencies with the same Q.
 */
module Vocoder {
  import opened Maths
  import opened Biquad
  import opened Bands
  import LowPass
  import BandPass

  /** Block length of the real-time path. */
  const RealtimeBlockSize: nat := 16

  /** Fixed at construction: envelope divisor, number of bands and sampling rate. */
  datatype Config = Config(distance: real, numBands: int, samplingRate: real)

  /** The band loop runs for 0 <= band < numBands, so a non-positive count means no bands. */
  function NumBands(cfg: Config): nat {
    if cfg.numBands > 0 then cfg.numBands else 0
  }

  /** What the quality factor needs to be defined. */
  predicate QDefined(m: Libm, cfg: Config) {
    m.Valid() && BandPass.Octaves(m, cfg.samplingRate) != 0.0
  }

  /** The single quality factor shared by every band. */
  function Q(m: Libm, cfg: Config): (q: real)
    requires QDefined(m, cfg)
    ensures cfg.numBands > 0 ==> q != 0.0
  {
    BandPass.ApproximateQ(m, cfg.samplingRate, cfg.numBands)
  }

  /** Semitone step between neighbouring bands: 12*sqrt(2)/q. */
  function Interval(m: Libm, cfg: Config): real
    requires QDefined(m, cfg) && cfg.numBands > 0
  {
    12.0 * m.sqrt2 / Q(m, cfg)
  }

  /** Natural-log size of one equal-tempered semitone: ln(2)/12. */
  function StepScale(m: Libm): real {
    m.log(2.0) / 12.0
  }

  /** Offset putting MIDI step 69 at 440 Hz. */
  function StepOffset(m: Libm): real {
    m.log(440.0) - StepScale(m) * 69.0
  }

  /** Frequency to (fractional) MIDI step. */
  function HzToStep(m: Libm, hz: real): real
    requires m.log(2.0) != 0.0
  {
    (m.log(hz) - StepOffset(m)) / StepScale(m)
  }

  /** MIDI step to frequency. */
  function StepToHz(m: Libm, step: real): real {
    m.exp(StepScale(m) * step + StepOffset(m))
  }

  /** Moves `hz` up by `interval` equal-tempered semitones on the MIDI step scale. */
  function NextHz(m: Libm, hz: real, interval: real): real
    requires m.log(2.0) != 0.0
  {
    StepToHz(m, HzToStep(m, hz) + interval)
  }

  /** Centre frequency of band `band`: half an interval above 20 Hz, then one interval per band. */
  function BandHz(m: Libm, cfg: Config, band: nat): real
    requires QDefined(m, cfg) && cfg.numBands > 0
  {
    if band == 0 then NextHz(m, 20.0, Interval(m, cfg) / 2.0)
    else NextHz(m, BandHz(m, cfg, band - 1), Interval(m, cfg))
  }

  /** The step scale inverts: when exp undoes log, reading back the step of a step's frequency gives the step. */
  lemma {:induction false} StepRoundTrip(m: Libm, step: real)
    requires m.log(2.0) != 0.0
    requires forall y :: m.log(m.exp(y)) == y
    ensures HzToStep(m, StepToHz(m, step)) == step
  {
    var k := StepScale(m);
    var c := StepOffset(m);
    assert m.log(m.exp(k * step + c)) == k * step + c;
    assert (k * step + c - c) / k == step;
  }

  /** `NextHz` raises the pitch by exactly `interval` semitones. */
  lemma {:induction false} NextHzSteps(m: Libm, hz: real, interval: real)
    requires m.log(2.0) != 0.0
    requires forall y :: m.log(m.exp(y)) == y
    ensures HzToStep(m, NextHz(m, hz, interval)) == HzToStep(m, hz) + interval
  {
    StepRoundTrip(m, HzToStep(m, hz) + interval);
  }

  lemma {:induction false} OneMoreInterval(i: real, band: nat)
    requires band > 0
    ensures (band - 1) as real * i + i == band as real * i
  {
    assert (band - 1) as real == band as real - 1.0;
  }

  /**
   Band frequencies are equally spaced in semitones: band b sits
   interval/2 + b*interval steps above 20 Hz.
   */
  lemma {:induction false} BandHzSteps(m: Libm, cfg: Config, band: nat)
    requires QDefined(m, cfg) && cfg.numBands > 0
    requires forall y :: m.log(m.exp(y)) == y
    ensures HzToStep(m, BandHz(m, cfg, band))
         == HzToStep(m, 20.0) + Interval(m, cfg) / 2.0 + band as real * Interval(m, cfg)
  {
    var i := Interval(m, cfg);
    if band == 0 {
      NextHzSteps(m, 20.0, i / 2.0);
    } else {
      BandHzSteps(m, cfg, band - 1);
      NextHzSteps(m, BandHz(m, cfg, band - 1), i);
      OneMoreInterval(i, band);
    }
  }

  /** Band `band`'s band-pass and envelope low-pass can both be designed. */
  predicate BandDesignable(m: Libm, cfg: Config, band: nat)
    requires QDefined(m, cfg) && cfg.numBands > 0 && cfg.distance != 0.0
  {
    && BandPass.Designable(m, cfg.samplingRate, BandHz(m, cfg, band), Q(m, cfg))
    && LowPass.Designable(m, cfg.samplingRate, BandHz(m, cfg, band) / cfg.distance)
  }

  /** Every band's filters can be designed: the configurations the vocoder is meant for. */
  predicate Designable(m: Libm, cfg: Config) {
    && QDefined(m, cfg)
    && cfg.distance != 0.0
    && forall band: nat :: band < NumBands(cfg) ==> BandDesignable(m, cfg, band)
  }

  /** The four filters of band `band` as freshly built: three identical band-passes and the envelope low-pass. */
  function FreshBand(m: Libm, cfg: Config, band: nat): (b: BandFilters)
    requires Designable(m, cfg) && band < NumBands(cfg)
    ensures b.signalBp == b.carrierBp == b.outputBp
    ensures b.signalBp.hist == ZeroHistory && b.envelopeLp.hist == ZeroHistory
  {
    assert BandDesignable(m, cfg, band);
    var hz := BandHz(m, cfg, band);
    var bp := BandPass.New(m, cfg.samplingRate, hz, Q(m, cfg));
    BandFilters(bp, bp, bp, LowPass.New(m, cfg.samplingRate, hz / cfg.distance))
  }

  /**
   The bulk chain for one band, each stage with a freshly constructed filter:
   BP(LP(|BP(signal)|) * BP(carrier)).
   */
  function BandOutput(m: Libm, cfg: Config, band: nat, signal: seq<real>, carrier: seq<real>): (r: seq<real>)
    requires Designable(m, cfg) && band < NumBands(cfg) && |signal| == |carrier|
    ensures |r| == |signal|
  {
    assert BandDesignable(m, cfg, band);
    var hz := BandHz(m, cfg, band);
    var q := Q(m, cfg);
    var signalFiltered := Run(BandPass.New(m, cfg.samplingRate, hz, q), signal).out;
    var carrierFiltered := Run(BandPass.New(m, cfg.samplingRate, hz, q), carrier).out;
    var envelope := Run(LowPass.New(m, cfg.samplingRate, hz / cfg.distance), Abs(signalFiltered)).out;
    Run(BandPass.New(m, cfg.samplingRate, hz, q), Mul(envelope, carrierFiltered)).out
  }

  /** The bulk result after the first `k` bands have been accumulated into silence. */
  function Bulk(m: Libm, cfg: Config, signal: seq<real>, carrier: seq<real>, k: nat): (r: seq<real>)
    requires Designable(m, cfg) && k <= NumBands(cfg) && |signal| == |carrier|
    ensures |r| == |signal|
  {
    if k == 0 then Zeros(|signal|)
    else Add(Bulk(m, cfg, signal, carrier, k - 1), BandOutput(m, cfg, k - 1, signal, carrier))
  }

  /** The anonymous `bandpass` helper: a copy of the input run through a fresh band-pass. */
  method BandpassCopy(m: Libm, samplingRate: real, input: seq<real>, hz: real, q: real) returns (result: seq<real>)
    requires BandPass.Designable(m, samplingRate, hz, q) && |input| >= 2
    ensures result == Run(BandPass.New(m, samplingRate, hz, q), input).out
  {
    var f := BandPass.New(m, samplingRate, hz, q);
    result, f := BandPass.Process(f, input);
  }

  /** The anonymous `lowpass` helper: a copy of the input run through a fresh low-pass. */
  method LowpassCopy(m: Libm, samplingRate: real, input: seq<real>, cutoff: real) returns (result: seq<real>)
    requires m.Valid() && LowPass.Designable(m, samplingRate, cutoff) && |input| >= 2
    ensures result == Run(LowPass.New(m, samplingRate, cutoff), input).out
  {
    var f := LowPass.New(m, samplingRate, cutoff);
    result, f := LowPass.Process(f, input);
  }

  /**
   The first band's frequency: half an interval above 20 Hz. Whenever exp
   undoes log, it sits exactly interval/2 semitones above 20 Hz.
   */
  method FirstBandHz(m: Libm, cfg: Config, interval: real) returns (hz: real)
    requires QDefined(m, cfg) && cfg.numBands > 0
    requires interval == Interval(m, cfg)
    ensures hz == BandHz(m, cfg, 0)
    ensures (forall y :: m.log(m.exp(y)) == y) ==> HzToStep(m, hz) == HzToStep(m, 20.0) + interval / 2.0
  {
    hz := NextHz(m, 20.0, interval / 2.0);
    assert (forall y :: m.log(m.exp(y)) == y) ==> HzToStep(m, hz) == HzToStep(m, 20.0) + interval / 2.0 by {
      if forall y :: m.log(m.exp(y)) == y {
        NextHzSteps(m, 20.0, interval / 2.0);
      }
    }
  }

  /**
   The frequency update at the end of each band loop iteration. Whenever exp
   undoes log, the next band sits exactly `interval` semitones higher.
   */
  method NextBandHz(m: Libm, cfg: Config, band: nat, bandHz: real, interval: real) returns (next: real)
    requires QDefined(m, cfg) && cfg.numBands > 0
    requires bandHz == BandHz(m, cfg, band) && interval == Interval(m, cfg)
    ensures next == BandHz(m, cfg, band + 1)
    ensures (forall y :: m.log(m.exp(y)) == y) ==> HzToStep(m, next) == HzToStep(m, bandHz) + interval
  {
    next := NextHz(m, bandHz, interval);
    assert (forall y :: m.log(m.exp(y)) == y) ==> HzToStep(m, next) == HzToStep(m, bandHz) + interval by {
      if forall y :: m.log(m.exp(y)) == y {
        NextHzSteps(m, bandHz, interval);
      }
    }
  }

  /** The body of the bulk band loop: one band's chain, each stage through a fresh filter. */
  method BulkBand(m: Libm, cfg: Config, band: nat, bandHz: real, q: real, signal: seq<real>, carrier: seq<real>)
    returns (banded: seq<real>)
    requires Designable(m, cfg) && band < NumBands(cfg)
    requires bandHz == BandHz(m, cfg, band) && q == Q(m, cfg)
    requires |signal| == |carrier| >= 2
    ensures banded == BandOutput(m, cfg, band, signal, carrier)
  {
    assert BandDesignable(m, cfg, band);
    var signalFiltered := BandpassCopy(m, cfg.samplingRate, signal, bandHz, q);
    var carrierFiltered := BandpassCopy(m, cfg.samplingRate, carrier, bandHz, q);
    signalFiltered := Abs(signalFiltered);
    var modEnvelope := LowpassCopy(m, cfg.samplingRate, signalFiltered, bandHz / cfg.distance);
    modEnvelope := Mul(modEnvelope, carrierFiltered);
    banded := BandpassCopy(m, cfg.samplingRate, modEnvelope, bandHz, q);
  }

  /** One pass of the bulk band loop: this band's output added in, and the frequency moved up one interval. */
  method AccumulateBand(m: Libm, cfg: Config, band: nat, bandHz: real, q: real, interval: real,
                        signal: seq<real>, carrier: seq<real>, sum: seq<real>)
    returns (sum': seq<real>, bandHz': real)
    requires Designable(m, cfg) && band < NumBands(cfg)
    requires bandHz == BandHz(m, cfg, band) && q == Q(m, cfg) && interval == Interval(m, cfg)
    requires |signal| == |carrier| >= 2
    requires sum == Bulk(m, cfg, signal, carrier, band)
    ensures sum' == Bulk(m, cfg, signal, carrier, band + 1)
    ensures bandHz' == BandHz(m, cfg, band + 1)
  {
    var banded := BulkBand(m, cfg, band, bandHz, q, signal, carrier);
    sum' := Add(sum, banded);
    bandHz' := NextBandHz(m, cfg, band, bandHz, interval);
  }

  /**
   `Vocoder::process`: equal-length signal and carrier in, a buffer of the same
   length out, the sum over bands of the per-band chain. The filters read the
   last two samples, so a non-empty band loop needs at least two samples.
   */
  method BulkProcess(m: Libm, cfg: Config, signal: seq<real>, carrier: seq<real>) returns (result: seq<real>)
    requires Designable(m, cfg)
    requires |signal| == |carrier|
    requires |signal| >= 2 || NumBands(cfg) == 0
    ensures |result| == |signal|
    ensures result == Bulk(m, cfg, signal, carrier, NumBands(cfg))
  {
    hide BandOutput, BandHz, BandDesignable;
    result := Zeros(|signal|);
    if cfg.numBands > 0 {
      var q := Q(m, cfg);
      var interval := Interval(m, cfg);
      var bandHz := FirstBandHz(m, cfg, interval);
      var band := 0;
      while band < cfg.numBands
        invariant 0 <= band <= cfg.numBands
        invariant bandHz == BandHz(m, cfg, band)
        invariant result == Bulk(m, cfg, signal, carrier, band)
      {
        result, bandHz := AccumulateBand(m, cfg, band, bandHz, q, interval, signal, carrier, result);
        band := band + 1;
      }
    }
  }

  /**
   Real-time vocoder state: a flat list of band-pass filters, three per band
   (signal, carrier, output), and one envelope low-pass per band.
   */
  datatype VocoderRT = VocoderRT(bandpass: seq<Filter>, lowpass: seq<Filter>)

  predicate Valid(v: VocoderRT) {
    |v.bandpass| == 3 * |v.lowpass|
  }

  /** Band `b`'s filters sit at 3b, 3b+1, 3b+2 of the band-pass list and at b of the low-pass list. */
  function Band(v: VocoderRT, b: nat): BandFilters
    requires Valid(v) && b < |v.lowpass|
  {
    BandFilters(v.bandpass[3 * b], v.bandpass[3 * b + 1], v.bandpass[3 * b + 2], v.lowpass[b])
  }

  /** The flat lists viewed band by band. */
  function BandsOf(v: VocoderRT): (bs: seq<BandFilters>)
    requires Valid(v)
    ensures |bs| == |v.lowpass|
  {
    BandsUpTo(v, |v.lowpass|)
  }

  /** The first `n` bands. */
  function BandsUpTo(v: VocoderRT, n: nat): (bs: seq<BandFilters>)
    requires Valid(v) && n <= |v.lowpass|
    ensures |bs| == n
  {
    if n == 0 then [] else BandsUpTo(v, n - 1) + [Band(v, n - 1)]
  }

  lemma {:induction false} BandsUpToIndex(v: VocoderRT, n: nat, j: nat)
    requires Valid(v) && j < n <= |v.lowpass|
    ensures BandsUpTo(v, n)[j] == Band(v, j)
  {
    if j < n - 1 {
      BandsUpToIndex(v, n - 1, j);
    }
  }

  /** Viewing the flat lists band by band loses nothing: the view is a bijection on valid states. */
  lemma {:induction false} BandsOfIndex(v: VocoderRT, j: nat)
    requires Valid(v) && j < |v.lowpass|
    ensures BandsOf(v)[j] == Band(v, j)
  {
    BandsUpToIndex(v, |v.lowpass|, j);
  }

  /** Two valid states with the same bands, band for band, have the same band view. */
  lemma {:induction false} BandsOfExtensional(v: VocoderRT, bs: seq<BandFilters>)
    requires Valid(v) && |bs| == |v.lowpass|
    requires forall j :: 0 <= j < |bs| ==> Band(v, j) == bs[j]
    ensures BandsOf(v) == bs
  {
    forall j | 0 <= j < |bs| ensures BandsOf(v)[j] == bs[j] {
      BandsOfIndex(v, j);
    }
  }

  /** Stores band `b`'s four filters back at their flat positions. */
  function SetBand(v: VocoderRT, b: nat, bf: BandFilters): (r: VocoderRT)
    requires Valid(v) && b < |v.lowpass|
    ensures Valid(r) && |r.lowpass| == |v.lowpass|
    ensures forall j :: 0 <= j < |v.lowpass| ==> Band(r, j) == if j == b then bf else Band(v, j)
  {
    VocoderRT(v.bandpass[3 * b + 0 := bf.signalBp][3 * b + 1 := bf.carrierBp][3 * b + 2 := bf.outputBp],
              v.lowpass[b := bf.envelopeLp])
  }

  /** The real-time vocoder as constructed: band b holds exactly the fresh filters of band b. */
  predicate IsFresh(m: Libm, cfg: Config, v: VocoderRT)
    requires Designable(m, cfg)
  {
    Valid(v) && |v.lowpass| == NumBands(cfg)
    && forall b :: 0 <= b < NumBands(cfg) ==> Band(v, b) == FreshBand(m, cfg, b)
  }

  /** Band `bf` appended after the existing bands: earlier bands keep their filters. */
  function AppendBand(v: VocoderRT, bf: BandFilters): (r: VocoderRT)
    requires Valid(v)
    ensures Valid(r) && |r.lowpass| == |v.lowpass| + 1
    ensures Band(r, |v.lowpass|) == bf
    ensures forall j :: 0 <= j < |v.lowpass| ==> Band(r, j) == Band(v, j)
  {
    VocoderRT(v.bandpass + [bf.signalBp, bf.carrierBp, bf.outputBp], v.lowpass + [bf.envelopeLp])
  }

  /** One pass of the constructor's band loop: the band's three band-passes and its low-pass, each designed once. */
  method BuildBand(m: Libm, cfg: Config, band: nat, bandHz: real, q: real) returns (bf: BandFilters)
    requires Designable(m, cfg) && band < NumBands(cfg)
    requires bandHz == BandHz(m, cfg, band) && q == Q(m, cfg)
    ensures bf == FreshBand(m, cfg, band)
  {
    assert BandDesignable(m, cfg, band);
    var signalBp := BandPass.New(m, cfg.samplingRate, bandHz, q);
    var carrierBp := BandPass.New(m, cfg.samplingRate, bandHz, q);
    var outputBp := BandPass.New(m, cfg.samplingRate, bandHz, q);
    var envelopeLp := LowPass.New(m, cfg.samplingRate, bandHz / cfg.distance);
    bf := BandFilters(signalBp, carrierBp, outputBp, envelopeLp);
  }

  /** The first `n` bands of `v` are the fresh bands 0 .. n-1. */
  predicate FreshUpTo(m: Libm, cfg: Config, v: VocoderRT, n: nat)
    requires Designable(m, cfg) && Valid(v) && n <= |v.lowpass| && n <= NumBands(cfg)
  {
    forall j :: 0 <= j < n ==> Band(v, j) == FreshBand(m, cfg, j)
  }

  /** Appending fresh band `n` after the fresh bands 0 .. n-1. */
  lemma {:induction false} FreshUpToNext(m: Libm, cfg: Config, v: VocoderRT, n: nat, bf: BandFilters)
    requires Designable(m, cfg) && Valid(v) && n == |v.lowpass| && n < NumBands(cfg)
    requires FreshUpTo(m, cfg, v, n) && bf == FreshBand(m, cfg, n)
    ensures FreshUpTo(m, cfg, AppendBand(v, bf), n + 1)
  {
    hide FreshBand;
  }

  /** `VocoderRT::VocoderRT`: builds the filters of every band once, at the bulk path's frequencies. */
  method NewRT(m: Libm, cfg: Config) returns (v: VocoderRT)
    requires Designable(m, cfg)
    ensures |v.bandpass| == 3 * NumBands(cfg) && |v.lowpass| == NumBands(cfg)
    ensures IsFresh(m, cfg, v)
  {
    hide FreshBand, BandHz, BandDesignable, AppendBand;
    v := VocoderRT([], []);
    if cfg.numBands > 0 {
      var q := Q(m, cfg);
      var interval := Interval(m, cfg);
      var bandHz := FirstBandHz(m, cfg, interval);
      var band := 0;
      while band < cfg.numBands
        invariant 0 <= band <= cfg.numBands
        invariant Valid(v) && |v.lowpass| == band
        invariant bandHz == BandHz(m, cfg, band)
        invariant FreshUpTo(m, cfg, v, band)
      {
        var bf := BuildBand(m, cfg, band, bandHz, q);
        FreshUpToNext(m, cfg, v, band, bf);
        v := AppendBand(v, bf);
        bandHz := NextBandHz(m, cfg, band, bandHz, interval);
        band := band + 1;
      }
    }
  }

  /** Accumulating one more band into the block. */
  lemma {:induction false} BankStep(bs: seq<BandFilters>, k: nat, signal: seq<real>, carrier: seq<real>)
    requires k < |bs| && |signal| == |carrier|
    ensures RunBands(bs[..k + 1], signal, carrier).out
         == Add(RunBands(bs[..k], signal, carrier).out, BandStep(bs[k], signal, carrier).out)
  {
    assert bs[..k + 1][..k] == bs[..k];
  }

  /** Once every band has been stepped, the state is the bank's. */
  lemma {:induction false} BankDone(v: VocoderRT, next: VocoderRT, signal: seq<real>, carrier: seq<real>)
    requires Valid(v) && Valid(next) && |next.lowpass| == |v.lowpass| && |signal| == |carrier|
    requires forall j :: 0 <= j < |v.lowpass| ==> Band(next, j) == BandStep(Band(v, j), signal, carrier).band
    ensures BandsOf(next) == RunBands(BandsOf(v), signal, carrier).bands
  {
    var r := RunBands(BandsOf(v), signal, carrier);
    forall j | 0 <= j < |v.lowpass| ensures Band(next, j) == r.bands[j] {
      RunBandsIndependent(BandsOf(v), signal, carrier, j);
      BandsOfIndex(v, j);
    }
    BandsOfExtensional(next, r.bands);
  }

  /**
   One band of `process_block`: the band's own four filters run over the
   block in the chain's order, the band's output and its updated filters out.
   */
  method ProcessBand(bf: BandFilters, signal: seq<real>, carrier: seq<real>) returns (banded: seq<real>, stepped: BandFilters)
    requires |signal| == RealtimeBlockSize && |carrier| == RealtimeBlockSize
    ensures BandStep(bf, signal, carrier) == BandResult(banded, stepped)
  {
    var signalBlock, bandpass0 := BandPass.Process(bf.signalBp, signal);
    var carrierBlock, bandpass1 := BandPass.Process(bf.carrierBp, carrier);
    signalBlock := Abs(signalBlock);
    var lowpass;
    signalBlock, lowpass := LowPass.Process(bf.envelopeLp, signalBlock);
    signalBlock := Mul(signalBlock, carrierBlock);
    var bandpass2;
    signalBlock, bandpass2 := BandPass.Process(bf.outputBp, signalBlock);
    stepped := BandFilters(bandpass0, bandpass1, bandpass2, lowpass);
    banded := signalBlock;
    BandChainMatchesStep(bf, signal, carrier);
  }

  /** Whether the first `band` bands of `cur` have been stepped over the block and the rest are untouched. */
  predicate SteppedUpTo(v: VocoderRT, cur: VocoderRT, band: nat, signal: seq<real>, carrier: seq<real>)
    requires Valid(v) && Valid(cur) && |cur.lowpass| == |v.lowpass| && band <= |v.lowpass|
    requires |signal| == |carrier|
  {
    && (forall j :: 0 <= j < band ==> Band(cur, j) == BandStep(Band(v, j), signal, carrier).band)
    && (forall j :: band <= j < |v.lowpass| ==> Band(cur, j) == Band(v, j))
  }

  /** Storing band `band`'s stepped filters extends the stepped prefix by one band. */
  lemma {:induction false} SteppedUpToNext(v: VocoderRT, cur: VocoderRT, band: nat, signal: seq<real>, carrier: seq<real>, stepped: BandFilters)
    requires Valid(v) && Valid(cur) && |cur.lowpass| == |v.lowpass| && band < |v.lowpass|
    requires |signal| == |carrier|
    requires SteppedUpTo(v, cur, band, signal, carrier)
    requires stepped == BandStep(Band(v, band), signal, carrier).band
    ensures SteppedUpTo(v, SetBand(cur, band, stepped), band + 1, signal, carrier)
  {
  }

  /**
   `VocoderRT::process_block`: one 16-sample block through every band, each
   band using and updating only its own four filters (with the filters'
   general `process`), the band outputs summed into a zeroed block.
   */
  method ProcessBlock(v: VocoderRT, signal: seq<real>, carrier: seq<real>) returns (output: seq<real>, next: VocoderRT)
    requires Valid(v)
    requires |signal| == RealtimeBlockSize && |carrier| == RealtimeBlockSize
    ensures Valid(next) && |next.lowpass| == |v.lowpass|
    ensures RunBands(BandsOf(v), signal, carrier) == BankResult(output, BandsOf(next))
  {
    var resultBlock := Zeros(RealtimeBlockSize);
    var numBands := |v.lowpass|;
    var cur := v;
    var band := 0;
    while band < numBands
      invariant 0 <= band <= numBands
      invariant Valid(cur) && |cur.lowpass| == numBands
      invariant resultBlock == RunBands(BandsOf(v)[..band], signal, carrier).out
      invariant SteppedUpTo(v, cur, band, signal, carrier)
    {
      var banded, stepped := ProcessBand(Band(cur, band), signal, carrier);
      resultBlock := Add(resultBlock, banded);
      BandsOfIndex(v, band);
      BankStep(BandsOf(v), band, signal, carrier);
      SteppedUpToNext(v, cur, band, signal, carrier, stepped);
      cur := SetBand(cur, band, stepped);
      band := band + 1;
    }
    BankDone(v, cur, signal, carrier);
    assert BandsOf(v)[..numBands] == BandsOf(v);
    output := resultBlock;
    next := cur;
  }

  /** Between two multiples of the block size there is room for a whole block. */
  lemma {:induction false} NextBlock(i: nat, count: nat)
    requires i % 16 == 0 && count % 16 == 0 && i < count
    ensures i + 16 <= count && (i + 16) % 16 == 0
  {
  }

  /** The same for the 32-sample chunks of the comparison, each of them two whole blocks. */
  lemma {:induction false} NextChunk(i: nat, count: nat)
    requires i % 32 == 0 && count % 32 == 0 && i < count
    ensures i + 32 <= count && (i + 32) % 32 == 0 && 32 % 16 == 0
  {
  }

  /** A whole number of chunks is a whole number of blocks. */
  lemma {:induction false} ChunksAreBlocks(count: nat)
    requires count % 32 == 0
    ensures count % 16 == 0
  {
  }

  /** One more piece, processed from the state the earlier pieces left, extends the whole-stream run. */
  lemma {:induction false} BlockStep(bs: seq<BandFilters>, signal: seq<real>, carrier: seq<real>, i: nat, j: nat,
                  output: seq<real>, mid: seq<BandFilters>, pieceOut: seq<real>, after: seq<BandFilters>)
    requires i <= j <= |signal| && j <= |carrier|
    requires RunBands(bs, signal[..i], carrier[..i]) == BankResult(output, mid)
    requires RunBands(mid, signal[i..j], carrier[i..j]) == BankResult(pieceOut, after)
    ensures RunBands(bs, signal[..j], carrier[..j]) == BankResult(output + pieceOut, after)
  {
    hide RunBands;
    var s1, s2, c1, c2 := signal[..i], signal[i..j], carrier[..i], carrier[i..j];
    assert s1 + s2 == signal[..j];
    assert c1 + c2 == carrier[..j];
    RunBandsAppend(bs, s1, c1, s2, c2);
  }

  /**
   `VocoderRT::process`: `count` samples, a multiple of the block size, read
   from the front of signal and carrier and processed block after block.
   The result is what every band produces over the whole `count` samples.
   */
  method Process(v: VocoderRT, signal: seq<real>, carrier: seq<real>, count: nat) returns (output: seq<real>, next: VocoderRT)
    requires Valid(v)
    requires count % RealtimeBlockSize == 0
    requires |signal| >= count && |carrier| >= count
    ensures |output| == count
    ensures Valid(next) && |next.lowpass| == |v.lowpass|
    ensures RunBands(BandsOf(v), signal[..count], carrier[..count]) == BankResult(output, BandsOf(next))
  {
    output := [];
    next := v;
    var i := 0;
    RunBandsEmpty(BandsOf(v));
    assert signal[..0] == [] && carrier[..0] == [];
    while i < count
      invariant 0 <= i <= count && i % RealtimeBlockSize == 0
      invariant |output| == i
      invariant Valid(next) && |next.lowpass| == |v.lowpass|
      invariant RunBands(BandsOf(v), signal[..i], carrier[..i]) == BankResult(output, BandsOf(next))
    {
      NextBlock(i, count);
      var s := signal[i..i + RealtimeBlockSize];
      var c := carrier[i..i + RealtimeBlockSize];
      var blockOut, after := ProcessBlock(next, s, c);
      BlockStep(BandsOf(v), signal, carrier, i, i + RealtimeBlockSize, output, BandsOf(next), blockOut, BandsOf(after));
      output := output + blockOut;
      next := after;
      i := i + RealtimeBlockSize;
    }
  }

  /** A band built fresh and run over the input produces the bulk chain's output for that band. */
  lemma {:induction false} FreshBandOutput(m: Libm, cfg: Config, band: nat, signal: seq<real>, carrier: seq<real>)
    requires Designable(m, cfg) && band < NumBands(cfg) && |signal| == |carrier|
    ensures BandStep(FreshBand(m, cfg, band), signal, carrier).out == BandOutput(m, cfg, band, signal, carrier)
  {
    BandChainMatchesStep(FreshBand(m, cfg, band), signal, carrier);
  }

  /** One more fresh band accumulated on both sides keeps the real-time and bulk sums equal. */
  lemma {:induction false} FreshBandStep(m: Libm, cfg: Config, v: VocoderRT, signal: seq<real>, carrier: seq<real>, k: nat)
    requires Designable(m, cfg) && IsFresh(m, cfg, v)
    requires |signal| == |carrier| && 0 < k <= NumBands(cfg)
    requires RunBands(BandsOf(v)[..k - 1], signal, carrier).out == Bulk(m, cfg, signal, carrier, k - 1)
    ensures RunBands(BandsOf(v)[..k], signal, carrier).out == Bulk(m, cfg, signal, carrier, k)
  {
    var bs := BandsOf(v);
    BankStep(bs, k - 1, signal, carrier);
    BandsOfIndex(v, k - 1);
    FreshBandOutput(m, cfg, k - 1, signal, carrier);
  }

  /** A freshly built bank accumulates exactly what the bulk path accumulates, band by band. */
  lemma {:induction false} FreshBandsMatchBulk(m: Libm, cfg: Config, v: VocoderRT, signal: seq<real>, carrier: seq<real>, k: nat)
    requires Designable(m, cfg) && IsFresh(m, cfg, v)
    requires |signal| == |carrier| && k <= NumBands(cfg)
    ensures RunBands(BandsOf(v)[..k], signal, carrier).out == Bulk(m, cfg, signal, carrier, k)
  {
    if k > 0 {
      FreshBandsMatchBulk(m, cfg, v, signal, carrier, k - 1);
      FreshBandStep(m, cfg, v, signal, carrier, k);
    }
  }

  /**
   The headline equivalence in exact arithmetic: a freshly built real-time
   vocoder, over any equal-length input, produces the bulk result.
   */
  lemma {:induction false} RealtimeMatchesBulk(m: Libm, cfg: Config, v: VocoderRT, signal: seq<real>, carrier: seq<real>)
    requires Designable(m, cfg) && IsFresh(m, cfg, v)
    requires |signal| == |carrier|
    ensures RunBands(BandsOf(v), signal, carrier).out == Bulk(m, cfg, signal, carrier, NumBands(cfg))
  {
    FreshBandsMatchBulk(m, cfg, v, signal, carrier, NumBands(cfg));
    assert BandsOf(v)[..NumBands(cfg)] == BandsOf(v);
  }

  /**
   Feeds the real-time vocoder its input in consecutive 32-sample pieces (two
   blocks each), concatenating the outputs.
   */
  method ProcessInChunks(v: VocoderRT, signal: seq<real>, carrier: seq<real>) returns (output: seq<real>, next: VocoderRT)
    requires Valid(v)
    requires |signal| == |carrier| && |signal| % 32 == 0
    ensures Valid(next) && |next.lowpass| == |v.lowpass|
    ensures RunBands(BandsOf(v), signal, carrier) == BankResult(output, BandsOf(next))
  {
    hide RunBands, BandsOf;
    var chunkSize := 32;
    RunBandsEmpty(BandsOf(v));
    assert signal[..0] == [] && carrier[..0] == [];
    output := [];
    next := v;
    var chunkStart := 0;
    while chunkStart < |signal|
      invariant 0 <= chunkStart <= |signal| && chunkStart % 32 == 0
      invariant Valid(next) && |next.lowpass| == |v.lowpass|
      invariant RunBands(BandsOf(v), signal[..chunkStart], carrier[..chunkStart])
             == BankResult(output, BandsOf(next))
    {
      NextChunk(chunkStart, |signal|);
      var s := signal[chunkStart..];
      var c := carrier[chunkStart..];
      var out, after := Process(next, s, c, chunkSize);
      assert s[..chunkSize] == signal[chunkStart..chunkStart + chunkSize];
      assert c[..chunkSize] == carrier[chunkStart..chunkStart + chunkSize];
      BlockStep(BandsOf(v), signal, carrier, chunkStart, chunkStart + chunkSize,
                output, BandsOf(next), out, BandsOf(after));
      output := output + out;
      next := after;
      chunkStart := chunkStart + chunkSize;
    }
    assert signal[..chunkStart] == signal && carrier[..chunkStart] == carrier;
  }

  // ---------------------------------------------------------------------------
  // Successive host callbacks
  // ---------------------------------------------------------------------------

  /** The samples of consecutive host buffers, in order. */
  function Concat(pieces: seq<seq<real>>): seq<real>
    decreases |pieces|
  {
    if |pieces| == 0 then [] else Concat(pieces[..|pieces| - 1]) + pieces[|pieces| - 1]
  }

  lemma {:induction false} ConcatSnoc(pieces: seq<seq<real>>, i: nat)
    requires i < |pieces|
    ensures Concat(pieces[..i + 1]) == Concat(pieces[..i]) + pieces[i]
  {
    assert pieces[..i + 1][..i] == pieces[..i];
  }

  /**
   What a host hands `process` over successive callbacks: a signal and a
   carrier buffer of the same length per call, each a whole number of blocks.
   */
  predicate HostBuffers(sp: seq<seq<real>>, cp: seq<seq<real>>) {
    && |sp| == |cp|
    && (forall i :: 0 <= i < |sp| ==> |sp[i]| == |cp[i]| && |sp[i]| % RealtimeBlockSize == 0)
  }

  /**
   `VocoderRT::process` called once per host buffer, buffers of different
   lengths allowed. The concatenated outputs are what the bank produces over
   the concatenated input, and the vocoder ends in the state that run leaves.
   */
  method ProcessCallbacks(v: VocoderRT, sp: seq<seq<real>>, cp: seq<seq<real>>) returns (output: seq<real>, next: VocoderRT)
    requires Valid(v) && HostBuffers(sp, cp)
    ensures Valid(next) && |next.lowpass| == |v.lowpass|
    ensures |Concat(sp)| == |Concat(cp)|
            && RunBands(BandsOf(v), Concat(sp), Concat(cp)) == BankResult(output, BandsOf(next))
  {
    hide RunBands, BandsOf;
    output := [];
    next := v;
    RunBandsEmpty(BandsOf(v));
    var i := 0;
    while i < |sp|
      invariant 0 <= i <= |sp|
      invariant Valid(next) && |next.lowpass| == |v.lowpass|
      invariant |Concat(sp[..i])| == |Concat(cp[..i])|
      invariant RunBands(BandsOf(v), Concat(sp[..i]), Concat(cp[..i])) == BankResult(output, BandsOf(next))
    {
      var out, after := Process(next, sp[i], cp[i], |sp[i]|);
      assert sp[i][..|sp[i]|] == sp[i] && cp[i][..|cp[i]|] == cp[i];
      RunBandsAppend(BandsOf(v), Concat(sp[..i]), Concat(cp[..i]), sp[i], cp[i]);
      ConcatSnoc(sp, i);
      ConcatSnoc(cp, i);
      output := output + out;
      next := after;
      i := i + 1;
    }
    assert sp[..|sp|] == sp && cp[..|cp|] == cp;
  }

  /**
   A freshly constructed real-time vocoder driven by any sequence of host
   callbacks, each a whole number of blocks, produces exactly the bulk result
   over everything it was given.
   */
  method CallbacksMatchBulk(m: Libm, cfg: Config, sp: seq<seq<real>>, cp: seq<seq<real>>) returns (output: seq<real>)
    requires Designable(m, cfg) && HostBuffers(sp, cp)
    ensures |Concat(sp)| == |Concat(cp)|
            && output == Bulk(m, cfg, Concat(sp), Concat(cp), NumBands(cfg))
  {
    hide Bulk, RunBands, BandsOf;
    var rt := NewRT(m, cfg);
    var after;
    output, after := ProcessCallbacks(rt, sp, cp);
    RealtimeMatchesBulk(m, cfg, rt, Concat(sp), Concat(cp));
  }

  /**
   The bulk/real-time comparison: bulk over the whole input, one real-time
   vocoder fed the whole input in one call, and another fed it in 32-sample
   chunks. All three outputs are equal.
   */
  method CompareBulkAndRealtime(m: Libm, cfg: Config, signal: seq<real>, carrier: seq<real>)
    returns (bulk: seq<real>, whole: seq<real>, chunked: seq<real>)
    requires Designable(m, cfg)
    requires |signal| == |carrier| && |signal| > 0 && |signal| % 32 == 0
    ensures |bulk| == |signal|
    ensures whole == bulk && chunked == bulk
  {
    hide Bulk, BandOutput, RunBands, BandsOf;
    bulk := BulkProcess(m, cfg, signal, carrier);

    var rt := NewRT(m, cfg);
    ChunksAreBlocks(|signal|);
    var rtAfter;
    whole, rtAfter := Process(rt, signal, carrier, |signal|);
    assert signal[..|signal|] == signal && carrier[..|carrier|] == carrier;
    RealtimeMatchesBulk(m, cfg, rt, signal, carrier);

    var chunkedRt := NewRT(m, cfg);
    var chunkedAfter;
    chunked, chunkedAfter := ProcessInChunks(chunkedRt, signal, carrier);
    RealtimeMatchesBulk(m, cfg, chunkedRt, signal, carrier);
  }
}
