/**
 The per-band signal chain shared by both vocoders, and a bank of bands run
 side by side and summed. Bands are independent: each owns four filters.
 */
module Bands {
  import opened Biquad

  /** |x| */
  function AbsVal(x: real): (r: real)
    ensures r >= 0.0 && (r == x || r == -x)
  {
    if x < 0.0 then -x else x
  }

  /** Rectification: every sample replaced by its magnitude. */
  function Abs(xs: seq<real>): (r: seq<real>)
    ensures |r| == |xs|
  {
    if |xs| == 0 then [] else [AbsVal(xs[0])] + Abs(xs[1..])
  }

  /** Sample-wise product of two equally long buffers. */
  function Mul(a: seq<real>, b: seq<real>): (r: seq<real>)
    requires |a| == |b|
    ensures |r| == |a|
  {
    if |a| == 0 then [] else [a[0] * b[0]] + Mul(a[1..], b[1..])
  }

  /** Sample-wise sum of two equally long buffers. */
  function Add(a: seq<real>, b: seq<real>): (r: seq<real>)
    requires |a| == |b|
    ensures |r| == |a|
  {
    if |a| == 0 then [] else [a[0] + b[0]] + Add(a[1..], b[1..])
  }

  /** A silent buffer. */
  function Zeros(n: nat): (r: seq<real>)
    ensures |r| == n
  {
    if n == 0 then [] else [0.0] + Zeros(n - 1)
  }

  /** The helpers are the pointwise operations their names say, sample by sample. */
  lemma {:induction false} AbsIndex(a: seq<real>, i: nat)
    requires i < |a|
    ensures Abs(a)[i] == AbsVal(a[i])
  {
    if i > 0 {
      AbsIndex(a[1..], i - 1);
    }
  }

  lemma {:induction false} MulIndex(a: seq<real>, b: seq<real>, i: nat)
    requires |a| == |b| && i < |a|
    ensures Mul(a, b)[i] == a[i] * b[i]
  {
    if i > 0 {
      MulIndex(a[1..], b[1..], i - 1);
      assert Mul(a, b)[i] == Mul(a[1..], b[1..])[i - 1];
    }
  }

  lemma {:induction false} AddIndex(a: seq<real>, b: seq<real>, i: nat)
    requires |a| == |b| && i < |a|
    ensures Add(a, b)[i] == a[i] + b[i]
  {
    if i > 0 {
      AddIndex(a[1..], b[1..], i - 1);
    }
  }

  lemma {:induction false} ZerosIndex(n: nat, i: nat)
    requires i < n
    ensures Zeros(n)[i] == 0.0
  {
    if i > 0 {
      ZerosIndex(n - 1, i - 1);
    }
  }

  lemma {:induction false} AbsCons(x: real, xs: seq<real>)
    ensures Abs([x] + xs) == [AbsVal(x)] + Abs(xs)
  {
    assert ([x] + xs)[0] == x && ([x] + xs)[1..] == xs;
  }

  lemma {:induction false} MulCons(x: real, xs: seq<real>, z: real, zs: seq<real>)
    requires |xs| == |zs|
    ensures Mul([x] + xs, [z] + zs) == [x * z] + Mul(xs, zs)
  {
    var a, b := [x] + xs, [z] + zs;
    assert a[0] == x && a[1..] == xs;
    assert b[0] == z && b[1..] == zs;
    MulUnfold(a, b);
    assert Mul(a[1..], b[1..]) == Mul(xs, zs);
    var p := a[0] * b[0];
    assert p == x * z;
    assert [p] == [x * z];
  }

  lemma {:induction false} MulUnfold(a: seq<real>, b: seq<real>)
    requires |a| == |b| > 0
    ensures Mul(a, b) == [a[0] * b[0]] + Mul(a[1..], b[1..])
  {
  }

  lemma {:induction false} AddCons(x: real, xs: seq<real>, z: real, zs: seq<real>)
    requires |xs| == |zs|
    ensures Add([x] + xs, [z] + zs) == [x + z] + Add(xs, zs)
  {
    assert ([x] + xs)[0] == x && ([x] + xs)[1..] == xs;
    assert ([z] + zs)[0] == z && ([z] + zs)[1..] == zs;
  }

  lemma {:induction false} AbsAppend(a1: seq<real>, a2: seq<real>)
    ensures Abs(a1 + a2) == Abs(a1) + Abs(a2)
  {
    if |a1| == 0 {
      assert a1 + a2 == a2;
    } else {
      var x, xs := a1[0], a1[1..];
      assert a1 == [x] + xs && a1 + a2 == [x] + (xs + a2);
      AbsAppend(xs, a2);
      AbsCons(x, xs);
      AbsCons(x, xs + a2);
    }
  }

  lemma {:induction false} MulAppend(a1: seq<real>, a2: seq<real>, b1: seq<real>, b2: seq<real>)
    requires |a1| == |b1| && |a2| == |b2|
    ensures Mul(a1 + a2, b1 + b2) == Mul(a1, b1) + Mul(a2, b2)
  {
    if |a1| == 0 {
      assert a1 + a2 == a2 && b1 + b2 == b2;
    } else {
      var x, xs := a1[0], a1[1..];
      var z, zs := b1[0], b1[1..];
      assert a1 == [x] + xs && a1 + a2 == [x] + (xs + a2);
      assert b1 == [z] + zs && b1 + b2 == [z] + (zs + b2);
      MulAppend(xs, a2, zs, b2);
      MulCons(x, xs, z, zs);
      MulCons(x, xs + a2, z, zs + b2);
    }
  }

  lemma {:induction false} AddAppend(a1: seq<real>, a2: seq<real>, b1: seq<real>, b2: seq<real>)
    requires |a1| == |b1| && |a2| == |b2|
    ensures Add(a1 + a2, b1 + b2) == Add(a1, b1) + Add(a2, b2)
  {
    if |a1| == 0 {
      assert a1 + a2 == a2 && b1 + b2 == b2;
    } else {
      var x, xs := a1[0], a1[1..];
      var z, zs := b1[0], b1[1..];
      assert a1 == [x] + xs && a1 + a2 == [x] + (xs + a2);
      assert b1 == [z] + zs && b1 + b2 == [z] + (zs + b2);
      AddAppend(xs, a2, zs, b2);
      AddCons(x, xs, z, zs);
      AddCons(x, xs + a2, z, zs + b2);
    }
  }

  lemma {:induction false} ZerosAppend(n1: nat, n2: nat)
    ensures Zeros(n1 + n2) == Zeros(n1) + Zeros(n2)
  {
    if n1 > 0 {
      ZerosAppend(n1 - 1, n2);
    }
  }

  /** The pointwise helpers act on each sample alone, so they split over concatenation. */
  lemma {:induction false} PointwiseAppend(a1: seq<real>, a2: seq<real>, b1: seq<real>, b2: seq<real>)
    requires |a1| == |b1| && |a2| == |b2|
    ensures Abs(a1 + a2) == Abs(a1) + Abs(a2)
    ensures Mul(a1 + a2, b1 + b2) == Mul(a1, b1) + Mul(a2, b2)
    ensures Add(a1 + a2, b1 + b2) == Add(a1, b1) + Add(a2, b2)
    ensures Zeros(|a1| + |a2|) == Zeros(|a1|) + Zeros(|a2|)
  {
    AbsAppend(a1, a2);
    MulAppend(a1, a2, b1, b2);
    AddAppend(a1, a2, b1, b2);
    ZerosAppend(|a1|, |a2|);
  }

  /**
   The four filters one band owns, in the order the real-time vocoder stores
   them: band-pass for the signal, for the carrier and for the recombined
   product, then the envelope low-pass.
   */
  datatype BandFilters = BandFilters(signalBp: Filter, carrierBp: Filter, outputBp: Filter, envelopeLp: Filter)

  datatype BandResult = BandResult(out: seq<real>, band: BandFilters)

  /**
   One sample through one band: the signal sample goes through the signal
   band-pass, is rectified and smoothed by the envelope low-pass; the carrier
   sample goes through the carrier band-pass; their product goes through the
   output band-pass.
   */
  function BandOut(b: BandFilters, x: real, z: real): real {
    var s := Out(b.signalBp.coefs, b.signalBp.hist, x);
    var c := Out(b.carrierBp.coefs, b.carrierBp.hist, z);
    var e := Out(b.envelopeLp.coefs, b.envelopeLp.hist, AbsVal(s));
    Out(b.outputBp.coefs, b.outputBp.hist, e * c)
  }

  /** The band's four filters after one sample: each has consumed its own input. */
  function BandNext(b: BandFilters, x: real, z: real): BandFilters {
    var s := Out(b.signalBp.coefs, b.signalBp.hist, x);
    var c := Out(b.carrierBp.coefs, b.carrierBp.hist, z);
    var e := Out(b.envelopeLp.coefs, b.envelopeLp.hist, AbsVal(s));
    BandFilters(Advance(b.signalBp, x), Advance(b.carrierBp, z), Advance(b.outputBp, e * c), Advance(b.envelopeLp, AbsVal(s)))
  }

  /** One band over whole buffers, sample by sample. */
  function BandStep(b: BandFilters, signal: seq<real>, carrier: seq<real>): (r: BandResult)
    requires |signal| == |carrier|
    ensures |r.out| == |signal|
    decreases |signal|
  {
    if |signal| == 0 then BandResult([], b)
    else
      var rest := BandStep(BandNext(b, signal[0], carrier[0]), signal[1..], carrier[1..]);
      BandResult([BandOut(b, signal[0], carrier[0])] + rest.out, rest.band)
  }

  lemma {:induction false} BandStepCons(b: BandFilters, x: real, xs: seq<real>, z: real, zs: seq<real>)
    requires |xs| == |zs|
    ensures var rest := BandStep(BandNext(b, x, z), xs, zs);
            BandStep(b, [x] + xs, [z] + zs) == BandResult([BandOut(b, x, z)] + rest.out, rest.band)
  {
    assert ([x] + xs)[0] == x && ([x] + xs)[1..] == xs;
    assert ([z] + zs)[0] == z && ([z] + zs)[1..] == zs;
  }

  /**
   One band as the implementation runs it, stage by stage over whole buffers:
   band-pass signal and carrier, rectify the signal, smooth it with the
   low-pass into an envelope, multiply it into the carrier and band-pass the
   product again.
   */
  function BandChain(b: BandFilters, signal: seq<real>, carrier: seq<real>): (r: BandResult)
    requires |signal| == |carrier|
  {
    var s := Run(b.signalBp, signal);
    var c := Run(b.carrierBp, carrier);
    var e := Run(b.envelopeLp, Abs(s.out));
    var p := Run(b.outputBp, Mul(e.out, c.out));
    BandResult(p.out, BandFilters(s.filter, c.filter, p.filter, e.filter))
  }

  lemma {:induction false} BandChainCons(b: BandFilters, x: real, xs: seq<real>, z: real, zs: seq<real>)
    requires |xs| == |zs|
    ensures var rest := BandChain(BandNext(b, x, z), xs, zs);
            BandChain(b, [x] + xs, [z] + zs) == BandResult([BandOut(b, x, z)] + rest.out, rest.band)
  {
    var s := Out(b.signalBp.coefs, b.signalBp.hist, x);
    var c := Out(b.carrierBp.coefs, b.carrierBp.hist, z);
    var e := Out(b.envelopeLp.coefs, b.envelopeLp.hist, AbsVal(s));
    var y := Out(b.outputBp.coefs, b.outputBp.hist, e * c);
    var next := BandNext(b, x, z);
    assert next == BandFilters(Advance(b.signalBp, x), Advance(b.carrierBp, z),
                               Advance(b.outputBp, e * c), Advance(b.envelopeLp, AbsVal(s)));
    RunCons(b.signalBp, x, xs);
    RunCons(b.carrierBp, z, zs);
    var rs := Run(next.signalBp, xs);
    var rc := Run(next.carrierBp, zs);
    assert Run(b.signalBp, [x] + xs) == Processed([s] + rs.out, rs.filter);
    assert Run(b.carrierBp, [z] + zs) == Processed([c] + rc.out, rc.filter);
    AbsCons(s, rs.out);
    RunCons(b.envelopeLp, AbsVal(s), Abs(rs.out));
    var re := Run(next.envelopeLp, Abs(rs.out));
    assert Run(b.envelopeLp, Abs([s] + rs.out)) == Processed([e] + re.out, re.filter);
    MulCons(e, re.out, c, rc.out);
    RunCons(b.outputBp, e * c, Mul(re.out, rc.out));
    var rp := Run(next.outputBp, Mul(re.out, rc.out));
    assert Run(b.outputBp, Mul([e] + re.out, [c] + rc.out)) == Processed([y] + rp.out, rp.filter);
    assert BandChain(next, xs, zs) == BandResult(rp.out, BandFilters(rs.filter, rc.filter, rp.filter, re.filter));
    assert BandOut(b, x, z) == y;
  }

  /** Running the four stages over whole buffers is the same as running all four per sample. */
  lemma {:induction false} BandChainMatchesStep(b: BandFilters, signal: seq<real>, carrier: seq<real>)
    requires |signal| == |carrier|
    ensures BandChain(b, signal, carrier) == BandStep(b, signal, carrier)
    decreases |signal|
  {
    if |signal| > 0 {
      var x, xs := signal[0], signal[1..];
      var z, zs := carrier[0], carrier[1..];
      assert signal == [x] + xs && carrier == [z] + zs;
      BandChainMatchesStep(BandNext(b, x, z), xs, zs);
      BandChainCons(b, x, xs, z, zs);
      BandStepCons(b, x, xs, z, zs);
    }
  }

  /** A band fed two consecutive pieces produces what it produces fed their concatenation. */
  lemma {:induction false} BandStepAppend(b: BandFilters, s1: seq<real>, c1: seq<real>, s2: seq<real>, c2: seq<real>)
    requires |s1| == |c1| && |s2| == |c2|
    ensures var r1 := BandStep(b, s1, c1);
            var r2 := BandStep(r1.band, s2, c2);
            BandStep(b, s1 + s2, c1 + c2) == BandResult(r1.out + r2.out, r2.band)
    decreases |s1|
  {
    if |s1| == 0 {
      assert s1 + s2 == s2 && c1 + c2 == c2;
    } else {
      var x, xs := s1[0], s1[1..];
      var z, zs := c1[0], c1[1..];
      assert s1 == [x] + xs && c1 == [z] + zs;
      assert s1 + s2 == [x] + (xs + s2) && c1 + c2 == [z] + (zs + c2);
      BandStepAppend(BandNext(b, x, z), xs, zs, s2, c2);
      BandStepCons(b, x, xs, z, zs);
      BandStepCons(b, x, xs + s2, z, zs + c2);
    }
  }

  datatype BankResult = BankResult(out: seq<real>, bands: seq<BandFilters>)

  /**
   All bands over the same input, accumulated in band order starting from
   silence. Band j's new filters come from band j's old filters alone.
   */
  function RunBands(bs: seq<BandFilters>, signal: seq<real>, carrier: seq<real>): (r: BankResult)
    requires |signal| == |carrier|
    ensures |r.out| == |signal| && |r.bands| == |bs|
    decreases |bs|
  {
    if |bs| == 0 then BankResult(Zeros(|signal|), [])
    else
      var prev := RunBands(bs[..|bs| - 1], signal, carrier);
      var last := BandStep(bs[|bs| - 1], signal, carrier);
      BankResult(Add(prev.out, last.out), prev.bands + [last.band])
  }

  /** Band j's new filters come from band j's old filters alone. */
  lemma {:induction false} RunBandsIndependent(bs: seq<BandFilters>, signal: seq<real>, carrier: seq<real>, j: nat)
    requires |signal| == |carrier| && j < |bs|
    ensures RunBands(bs, signal, carrier).bands[j] == BandStep(bs[j], signal, carrier).band
    decreases |bs|
  {
    var n := |bs|;
    if j < n - 1 {
      RunBandsIndependent(bs[..n - 1], signal, carrier, j);
    }
  }

  /** Over no samples the bank outputs nothing and every filter keeps its state. */
  lemma {:induction false} RunBandsEmpty(bs: seq<BandFilters>)
    ensures RunBands(bs, [], []) == BankResult([], bs)
    decreases |bs|
  {
    if |bs| > 0 {
      RunBandsEmpty(bs[..|bs| - 1]);
      assert bs[..|bs| - 1] + [bs[|bs| - 1]] == bs;
    }
  }

  /** Chunk invariance for the whole bank, from chunk invariance of every band. */
  lemma {:induction false} RunBandsAppend(bs: seq<BandFilters>, s1: seq<real>, c1: seq<real>, s2: seq<real>, c2: seq<real>)
    requires |s1| == |c1| && |s2| == |c2|
    ensures var r1 := RunBands(bs, s1, c1);
            var r2 := RunBands(r1.bands, s2, c2);
            RunBands(bs, s1 + s2, c1 + c2) == BankResult(r1.out + r2.out, r2.bands)
    decreases |bs|
  {
    var r1 := RunBands(bs, s1, c1);
    var r2 := RunBands(r1.bands, s2, c2);
    if |bs| == 0 {
      PointwiseAppend(s1, s2, c1, c2);
    } else {
      var n := |bs|;
      var p := bs[..n - 1];
      RunBandsAppend(p, s1, c1, s2, c2);
      var p1 := RunBands(p, s1, c1);
      var p2 := RunBands(p1.bands, s2, c2);
      var l1 := BandStep(bs[n - 1], s1, c1);
      var l2 := BandStep(l1.band, s2, c2);
      BandStepAppend(bs[n - 1], s1, c1, s2, c2);
      assert r1.bands == p1.bands + [l1.band];
      assert r1.bands[..n - 1] == p1.bands;
      assert r2 == BankResult(Add(p2.out, l2.out), p2.bands + [l2.band]);
      PointwiseAppend(p1.out, p2.out, l1.out, l2.out);
    }
  }
}
