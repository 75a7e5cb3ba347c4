/**
 Second-order (biquad) IIR filter with two samples of carried-over state.

 The filter computes
   y[n] = b0*x[n] + b1*x[n-1] + b2*x[n-2] + a1*y[n-1] + a2*y[n-2]
 (note the `+` on the feedback terms). The history keeps the two most recent
 inputs and outputs: `x0` is x[-2], `x1` is x[-1], and likewise `y0`, `y1`.

 `Run` is the streaming specification: it consumes samples one at a time and
 is defined for every length. `Process` and `ProcessBlock` are the two index
 schemes used by the implementation; both are proved to compute `Run`.
 */
module Biquad {

  /** The five coefficients of the transfer function. */
  datatype Coefs = Coefs(a1: real, a2: real, b0: real, b1: real, b2: real)

  /** Trailing state: x0 = x[-2], x1 = x[-1], y0 = y[-2], y1 = y[-1]. */
  datatype History = History(x0: real, x1: real, y0: real, y1: real)

  datatype Filter = Filter(coefs: Coefs, hist: History)

  /** Outputs of a call together with the filter state after it. */
  datatype Processed = Processed(out: seq<real>, filter: Filter)

  /** Length of the fixed-size block handled by `ProcessBlock`. */
  const BlockSize: nat := 16

  const ZeroCoefs := Coefs(0.0, 0.0, 0.0, 0.0, 0.0)
  const ZeroHistory := History(0.0, 0.0, 0.0, 0.0)

  /** Installs new coefficients and clears the trailing state. */
  function Reset(c: Coefs): (f: Filter)
    ensures f.coefs == c
    ensures f.hist.x0 == 0.0 && f.hist.x1 == 0.0 && f.hist.y0 == 0.0 && f.hist.y1 == 0.0
  {
    Filter(c, ZeroHistory)
  }

  /** The default-constructed filter: all coefficients and all history zero. */
  function Fresh(): (f: Filter)
    ensures f.coefs.a1 == 0.0 && f.coefs.a2 == 0.0
    ensures f.coefs.b0 == 0.0 && f.coefs.b1 == 0.0 && f.coefs.b2 == 0.0
    ensures f.hist == ZeroHistory
  {
    Reset(ZeroCoefs)
  }

  /** One output sample of the recurrence, given the current history. */
  function Out(c: Coefs, h: History, x: real): real {
    c.b0 * x + c.b1 * h.x1 + c.b2 * h.x0 + c.a1 * h.y1 + c.a2 * h.y0
  }

  /** The history after input `x` produced output `y`. */
  function Shift(h: History, x: real, y: real): History {
    History(h.x1, x, h.y1, y)
  }

  /** The filter after consuming one input sample. */
  function Advance(f: Filter, x: real): Filter {
    Filter(f.coefs, Shift(f.hist, x, Out(f.coefs, f.hist, x)))
  }

  /**
   Streaming specification: feed `xs` through `f` one sample at a time.
   The length is preserved, the coefficients are never touched, and the
   final history holds the last two inputs and outputs (falling back on
   the incoming history when fewer than two samples were fed).
   */
  function Run(f: Filter, xs: seq<real>): (r: Processed)
    ensures |r.out| == |xs|
    ensures r.filter.coefs == f.coefs
    decreases |xs|
  {
    if |xs| == 0 then Processed([], f)
    else
      var y := Out(f.coefs, f.hist, xs[0]);
      var rest := Run(Filter(f.coefs, Shift(f.hist, xs[0], y)), xs[1..]);
      Processed([y] + rest.out, rest.filter)
  }

  /**
   The state a run leaves: the last two inputs and outputs, falling back on
   the incoming history when fewer than two samples were fed.
   */
  lemma {:induction false} RunLastTwo(f: Filter, xs: seq<real>)
    ensures var r := Run(f, xs);
            && (|xs| == 0 ==> r.filter == f)
            && (|xs| == 1 ==> r.filter.hist == History(f.hist.x1, xs[0], f.hist.y1, r.out[0]))
            && (|xs| >= 2 ==> r.filter.hist == History(xs[|xs| - 2], xs[|xs| - 1], r.out[|xs| - 2], r.out[|xs| - 1]))
    decreases |xs|
  {
    if |xs| > 0 {
      RunLastTwo(Advance(f, xs[0]), xs[1..]);
    }
  }

  /** The first sample of a run: its output, then the rest from the advanced filter. */
  lemma {:induction false} RunCons(f: Filter, x: real, xs: seq<real>)
    ensures Run(f, [x] + xs)
         == Processed([Out(f.coefs, f.hist, x)] + Run(Advance(f, x), xs).out, Run(Advance(f, x), xs).filter)
  {
    assert ([x] + xs)[0] == x && ([x] + xs)[1..] == xs;
  }

  /** Running `a` and then `b` from where `a` left off. */
  function Chain(f: Filter, a: seq<real>, b: seq<real>): Processed {
    var ra := Run(f, a);
    var rb := Run(ra.filter, b);
    Processed(ra.out + rb.out, rb.filter)
  }

  /** Chunk invariance: the outputs and final state do not depend on how the stream is split. */
  lemma {:induction false} RunAppend(f: Filter, a: seq<real>, b: seq<real>)
    ensures Run(f, a + b) == Chain(f, a, b)
    decreases |a|
  {
    if |a| == 0 {
      assert a + b == b;
    } else {
      var y := Out(f.coefs, f.hist, a[0]);
      var f' := Filter(f.coefs, Shift(f.hist, a[0], y));
      assert (a + b)[0] == a[0];
      assert (a + b)[1..] == a[1..] + b;
      RunAppend(f', a[1..], b);
      assert [y] + (Run(f', a[1..]).out + Run(Run(f', a[1..]).filter, b).out)
          == ([y] + Run(f', a[1..]).out) + Run(Run(f', a[1..]).filter, b).out;
    }
  }

  /** Feeding `xs` in consecutive calls of `size` samples each (the last one possibly shorter). */
  function RunInBlocks(f: Filter, xs: seq<real>, size: nat): (r: Processed)
    requires size > 0
    decreases |xs|
  {
    if |xs| <= size then Run(f, xs)
    else
      var first := Run(f, xs[..size]);
      var rest := RunInBlocks(first.filter, xs[size..], size);
      Processed(first.out + rest.out, rest.filter)
  }

  /** Any block size gives the outputs and final state of one call over the whole stream. */
  lemma {:induction false} RunInBlocksMatchesRun(f: Filter, xs: seq<real>, size: nat)
    requires size > 0
    ensures RunInBlocks(f, xs, size) == Run(f, xs)
    decreases |xs|
  {
    if |xs| > size {
      RunInBlocksMatchesRun(Run(f, xs[..size]).filter, xs[size..], size);
      RunAppend(f, xs[..size], xs[size..]);
      assert xs[..size] + xs[size..] == xs;
    }
  }

  /** Appending one sample extends the output by one recurrence step. */
  lemma {:induction false} RunSnoc(f: Filter, xs: seq<real>, x: real)
    ensures var r := Run(f, xs);
            var y := Out(f.coefs, r.filter.hist, x);
            Run(f, xs + [x]) == Processed(r.out + [y], Filter(f.coefs, Shift(r.filter.hist, x, y)))
  {
    RunAppend(f, xs, [x]);
    var r := Run(f, xs);
    assert [x][1..] == [];
    var g := Advance(r.filter, x);
    assert Run(g, []) == Processed([], g);
  }

  /** One more sample of a prefix: the prefix's outputs extended by one recurrence step. */
  lemma {:induction false} RunStep(f: Filter, xs: seq<real>, i: nat)
    requires i < |xs|
    ensures var r := Run(f, xs[..i]);
            var y := Out(f.coefs, r.filter.hist, xs[i]);
            Run(f, xs[..i + 1]) == Processed(r.out + [y], Filter(f.coefs, Shift(r.filter.hist, xs[i], y)))
  {
    assert xs[..i] + [xs[i]] == xs[..i + 1];
    RunSnoc(f, xs[..i], xs[i]);
  }

  /** x[i-k] as the implementation reads it: from the history for i < k, else from the input. */
  function XBack(h: History, xs: seq<real>, i: nat, k: nat): real
    requires 1 <= k <= 2 && i < |xs| + k
  {
    if i >= k then xs[i - k] else [h.x0, h.x1][i + 2 - k]
  }

  /** y[i-k] as the implementation reads it. */
  function YBack(h: History, ys: seq<real>, i: nat, k: nat): real
    requires 1 <= k <= 2 && i < |ys| + k
  {
    if i >= k then ys[i - k] else [h.y0, h.y1][i + 2 - k]
  }

  /** Output `i` obeys the recurrence with the history standing in for negative indices. */
  ghost predicate Recurrence(f: Filter, xs: seq<real>, ys: seq<real>)
    requires |xs| == |ys|
  {
    forall i :: 0 <= i < |xs| ==>
      ys[i] == f.coefs.b0 * xs[i] + f.coefs.b1 * XBack(f.hist, xs, i, 1)
             + f.coefs.b2 * XBack(f.hist, xs, i, 2)
             + f.coefs.a1 * YBack(f.hist, ys, i, 1) + f.coefs.a2 * YBack(f.hist, ys, i, 2)
  }

  /** The history after `i` samples, read with the implementation's index scheme. */
  lemma {:induction false} RunHistory(f: Filter, xs: seq<real>, i: nat)
    requires i <= |xs|
    ensures var r := Run(f, xs[..i]);
            |r.out| == i &&
            r.filter.hist == History(XBack(f.hist, xs, i, 2), XBack(f.hist, xs, i, 1),
                                     YBack(f.hist, r.out, i, 2), YBack(f.hist, r.out, i, 1))
  {
    RunLastTwo(f, xs[..i]);
    if i >= 2 {
      assert xs[..i][i - 2] == xs[i - 2];
      assert xs[..i][i - 1] == xs[i - 1];
    } else if i == 1 {
      assert xs[..i][0] == xs[0];
    }
  }

  /** Output `i` of a run is one recurrence step from the history left by the first `i` samples. */
  lemma {:induction false} RunAt(f: Filter, xs: seq<real>, i: nat)
    requires i < |xs|
    ensures Run(f, xs).out[..i] == Run(f, xs[..i]).out
    ensures Run(f, xs).out[i] == Out(f.coefs, Run(f, xs[..i]).filter.hist, xs[i])
  {
    assert xs[..i] + [xs[i]] == xs[..i + 1];
    RunSnoc(f, xs[..i], xs[i]);
    RunAppend(f, xs[..i + 1], xs[i + 1..]);
    assert xs[..i + 1] + xs[i + 1..] == xs;
    var whole := Run(f, xs).out;
    var prefix := Run(f, xs[..i + 1]).out;
    assert whole[..i + 1] == prefix;
    assert whole[..i] == prefix[..i];
  }

  /** Every output of `Run` satisfies the recurrence written with explicit indices. */
  lemma {:induction false} RunRecurrence(f: Filter, xs: seq<real>)
    ensures Recurrence(f, xs, Run(f, xs).out)
  {
    var ys := Run(f, xs).out;
    forall i | 0 <= i < |xs|
      ensures ys[i] == f.coefs.b0 * xs[i] + f.coefs.b1 * XBack(f.hist, xs, i, 1)
                     + f.coefs.b2 * XBack(f.hist, xs, i, 2)
                     + f.coefs.a1 * YBack(f.hist, ys, i, 1) + f.coefs.a2 * YBack(f.hist, ys, i, 2)
    {
      RunAt(f, xs, i);
      RunHistory(f, xs, i);
      var r := Run(f, xs[..i]);
      assert YBack(f.hist, ys, i, 1) == YBack(f.hist, r.out, i, 1);
      assert YBack(f.hist, ys, i, 2) == YBack(f.hist, r.out, i, 2);
    }
  }

  /** With all-zero coefficients every output is zero, whatever the history. */
  lemma {:induction false} ZeroCoefsOutputZero(h: History, xs: seq<real>)
    ensures forall i :: 0 <= i < |xs| ==> Run(Filter(ZeroCoefs, h), xs).out[i] == 0.0
    decreases |xs|
  {
    if |xs| > 0 {
      ZeroCoefsOutputZero(Shift(h, xs[0], 0.0), xs[1..]);
    }
  }

  /** A default-constructed filter is not an identity: it outputs only zeros. */
  lemma {:induction false} FreshOutputsZero(xs: seq<real>)
    ensures forall i :: 0 <= i < |xs| ==> Run(Fresh(), xs).out[i] == 0.0
  {
    ZeroCoefsOutputZero(ZeroHistory, xs);
  }

  /**
   The implementation's general path: a temporary output buffer, reads of
   x[i-1], x[i-2], y[i-1], y[i-2] from the history for the first samples,
   then the last two inputs and outputs saved as the new history. The last
   two samples are read unconditionally, so at least two are required.
   */
  method Process(f: Filter, input: seq<real>) returns (output: seq<real>, next: Filter)
    requires |input| >= 2
    ensures |output| == |input|
    ensures Run(f, input) == Processed(output, next)
    ensures next.coefs == f.coefs
    ensures next.hist == History(input[|input| - 2], input[|input| - 1],
                                 output[|output| - 2], output[|output| - 1])
  {
    output := seq(|input|, _ => 0.0);
    var i := 0;
    while i < |input|
      invariant 0 <= i <= |input|
      invariant |output| == |input|
      invariant output[..i] == Run(f, input[..i]).out
    {
      var sample := ProcessSample(f, input, output, i);
      RunStep(f, input, i);
      assert output[..i] + [sample] == output[i := sample][..i + 1];
      output := output[i := sample];
      i := i + 1;
    }
    assert input[..|input|] == input;
    assert output[..|input|] == output;
    RunLastTwo(f, input);
    next := Filter(f.coefs, History(input[|input| - 2], input[|input| - 1],
                                    output[|output| - 2], output[|output| - 1]));
  }

  /**
   One sample of `process`: the first two samples read the stored history
   in place of the input and output before the buffer's start.
   */
  method ProcessSample(f: Filter, input: seq<real>, output: seq<real>, i: nat) returns (sample: real)
    requires i < |input| == |output|
    requires output[..i] == Run(f, input[..i]).out
    ensures sample == Out(f.coefs, Run(f, input[..i]).filter.hist, input[i])
  {
    var c := f.coefs;
    var mx := [f.hist.x0, f.hist.x1];
    var my := [f.hist.y0, f.hist.y1];
    sample := 0.0;
    sample := sample + c.b0 * input[i];
    sample := sample + c.b1 * (if i < 1 then mx[i + 1] else input[i - 1]);
    sample := sample + c.b2 * (if i < 2 then mx[i + 0] else input[i - 2]);
    sample := sample + c.a1 * (if i < 1 then my[i + 1] else output[i - 1]);
    sample := sample + c.a2 * (if i < 2 then my[i + 0] else output[i - 2]);
    RunHistory(f, input, i);
    ghost var h := Run(f, input[..i]).filter.hist;
    assert (if i < 1 then mx[i + 1] else input[i - 1]) == h.x1;
    assert (if i < 2 then mx[i + 0] else input[i - 2]) == h.x0;
    assert (if i < 1 then my[i + 1] else output[i - 1]) == h.y1 by {
      if i >= 1 { assert output[..i][i - 1] == output[i - 1]; }
    }
    assert (if i < 2 then my[i + 0] else output[i - 2]) == h.y0 by {
      if i >= 2 { assert output[..i][i - 2] == output[i - 2]; }
    }
  }

  /**
   The fixed-size path: the history is prepended to the block so that every
   sample reads x[i-1], x[i-2], y[i-1], y[i-2] from the same padded buffers.
   */
  method ProcessBlock(f: Filter, data: seq<real>) returns (output: seq<real>, next: Filter)
    requires |data| == BlockSize
    ensures |output| == BlockSize
    ensures Run(f, data) == Processed(output, next)
    ensures next.coefs == f.coefs
  {
    var c := f.coefs;
    var outBuf := [f.hist.y0, f.hist.y1] + seq(BlockSize, _ => 0.0);
    var inBuf := [f.hist.x0, f.hist.x1] + data;
    var i := 0;
    while i < BlockSize
      invariant 0 <= i <= BlockSize
      invariant |outBuf| == BlockSize + 2
      invariant outBuf[2..i + 2] == Run(f, data[..i]).out
      invariant Run(f, data[..i]).filter.hist == History(inBuf[i], inBuf[i + 1], outBuf[i], outBuf[i + 1])
    {
      var sample := BlockSample(c, inBuf, outBuf, i);
      RunStep(f, data, i);
      assert outBuf[2..i + 2] + [sample] == outBuf[i + 2 := sample][2..i + 3];
      outBuf := outBuf[i + 2 := sample];
      i := i + 1;
    }
    assert data[..BlockSize] == data;
    next := Filter(c, History(inBuf[BlockSize + 0], inBuf[BlockSize + 1],
                              outBuf[BlockSize + 0], outBuf[BlockSize + 1]));
    output := outBuf[2..];
  }

  /** One sample of `process_block`: x[i-1], x[i-2], y[i-1], y[i-2] all read from the padded buffers. */
  method BlockSample(c: Coefs, inBuf: seq<real>, outBuf: seq<real>, i: nat) returns (sample: real)
    requires i + 2 < |inBuf| && i + 2 < |outBuf|
    ensures sample == Out(c, History(inBuf[i], inBuf[i + 1], outBuf[i], outBuf[i + 1]), inBuf[i + 2])
  {
    sample := 0.0;
    sample := sample + c.b0 * inBuf[i + 2];
    sample := sample + c.b1 * inBuf[i + 1];
    sample := sample + c.b2 * inBuf[i + 0];
    sample := sample + c.a1 * outBuf[i + 1];
    sample := sample + c.a2 * outBuf[i + 0];
  }
}
