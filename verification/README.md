# rtvocoder core in Dafny

A model of the signal path and file and module plumbing of rtvocoder, a
channel vocoder that has a bulk reference implementation and a real-time
implementation. The model covers six parts:

- **Biquad** (`biquad.dfy`): the second-order filter `y[n] = b0 x[n] + b1
  x[n-1] + b2 x[n-2] + a1 y[n-1] + a2 y[n-2]`.
  - It carries the last two inputs and outputs between calls.
  - `Run` is a recursive, sample-by-sample specification.
  - The two C++ index schemes, `process` (any span of at least two samples)
    and `process_block` (exactly 16 samples), are methods proved equal to
    `Run`.
  - Processing is proved invariant under chunking.
- **LowPass and BandPass** (`lowpass.dfy`, `bandpass.dfy`): the coefficient
  designers.
  - The transcendental functions are left uninterpreted, in a `Libm` value
    (`maths.dfy`).
  - Proved: the exact relations among the five coefficients, agreement with
    the Audio EQ Cookbook band-pass, and the quality-factor heuristic.
- **Bands** (`bands.dfy`): the vocoder's per-band chain.
  - The chain: band-pass the signal and the carrier, rectify, low-pass the
    envelope, multiply, band-pass again, accumulate.
  - It is modelled sample by sample over a bank of bands.
  - Each whole-buffer filter call is proved equal to the sample-wise chain.
  - Chunk invariance of the bank is proved.
- **Vocoder** (`vocoder.dfy`): the bulk `Vocoder::process` and the
  real-time `VocoderRT`, meaning its constructor, `process` and
  `process_block`.
  - Headline theorem: in exact arithmetic, the real-time vocoder fed any
    sequence of 16-sample blocks produces exactly the bulk result.
  - This also holds when it is fed in 32-sample pieces, as the vocoder test
    does, and for any sequence of host calls whose lengths are multiples of
    16.
- **WavFile** (`wav.dfy`): `load_wav` and `save_wav` over byte sequences.
  - Loading follows the order of the checks and the exact error messages.
  - The proofs cover both directions:
    - save-then-load gives back the quantised samples;
    - load-then-save-then-load is the identity on accepted files;
    - encoding after decoding is the identity on every int16.
- **ModuleWrapper** (`module_wrapper.dfy`): the hot-swap slot.
  - Its transitions (`None`, `QueuedIn`, `QueuedOut`) are exchanged between
    `reload_module`, `process` and the communication thread.
  - Each action is modelled as one atomic step.
  - Properties:
    - the slot invariant holds along every run of events;
    - the audio side never destroys a module;
    - a handed-back module is freed only by the communication thread.

Samples, coefficients and frequencies are `real`. Integers are unbounded, and
the 16- and 32-bit fields of the WAV format are wrapped explicitly.

Facts about the code that shape the model:

- **Default filter.** The default-constructed filter has all-zero
  coefficients (lib/SecondOrderFilter.cc:10), so it outputs zeros
  (`Biquad.FreshOutputsZero`).
- **Minimum input to `process`.** `SecondOrderFilter::process` reads
  `input[size - 2]` after its loop, so it needs at least two samples.
- **Stale header.** lib/SecondOrderFilter.h is out of date with the .cc file
  (float `reset`, no `process_block`), so the model follows the .cc.
- **Slot states.** The model uses the code's names for the slot states:
  `None`, `QueuedIn` and `QueuedOut`. The queue state has no initialiser; the
  C++20 default constructor of `std::atomic` value-initialises it to `None`.
- **When reloading is refused.** `reload_module` is refused in both
  `QueuedIn` and `QueuedOut`.
- **What the slot holds.** The slot holds whatever module the loaded library
  creates, not necessarily a `VocoderRT`.
- **Who reloads.** `reload_module` has no caller in the repository. It is
  modelled as one more event that can happen at any time.
- **Activate and deactivate outside their pairing.** The communication
  thread is a `std::jthread`: moving a new thread into the handle joins the
  old one first, and `join` on a handle with no thread throws. So `activate`
  while the old thread still waits for the first callback never returns,
  `activate` while it serves returns (the thread leaves its loop once the
  flag is `Idle`), and `deactivate` before any `activate` or twice in a row
  throws. `ModuleWrapper.Activate` and `ModuleWrapper.Deactivate` model all
  three outcomes; runs of events stop at a call that does not return.

## Model

| member | source | states |
|---|---|---|
| Biquad.Reset | lib/SecondOrderFilter.cc:14-24 | `reset` installs exactly the given five coefficients and clears all four history values |
| Biquad.Fresh | lib/SecondOrderFilter.cc:10 | the default constructor leaves every coefficient and every history value at zero |
| Biquad.FreshOutputsZero | lib/SecondOrderFilter.cc:10 | a default-constructed filter outputs zero for every sample of any input: it is not an identity filter |
| Biquad.ZeroCoefsOutputZero | lib/SecondOrderFilter.cc:32-40 | with all-zero coefficients every output is zero, whatever history the filter carries |
| Biquad.Run | lib/SecondOrderFilter.cc:26-50 | streaming the input through the filter keeps its length and never changes the coefficients |
| Biquad.RunRecurrence | lib/SecondOrderFilter.cc:32-40 | every output satisfies the recurrence, with x[-1], x[-2], y[-1], y[-2] taken from m_x[1], m_x[0], m_y[1], m_y[0] for the first two samples |
| Biquad.RunAt | lib/SecondOrderFilter.cc:32-39 | output i depends only on inputs 0..i, and is the recurrence applied to the state after the first i samples |
| Biquad.RunLastTwo | lib/SecondOrderFilter.cc:43-46 | after a run of length at least 2 the history holds that run's last two inputs and outputs; shorter runs shift the incoming history |
| Biquad.RunAppend | lib/SecondOrderFilter.cc:26-50 | chunk invariance: running a then b gives the outputs and final state of running a + b |
| Biquad.RunInBlocksMatchesRun | lib/SecondOrderFilter.cc:26-50 | feeding the input in consecutive blocks of any one positive size equals a single pass |
| Biquad.RunSnoc | lib/SecondOrderFilter.cc:32-40 | one more sample appends one output, computed from the history left by the prefix |
| Biquad.Process | lib/SecondOrderFilter.cc:26-50 | `process` on at least two samples returns the streaming outputs and final state, same length, coefficients unchanged, history = last two inputs and outputs of the call |
| Biquad.ProcessSample | lib/SecondOrderFilter.cc:33-39 | the loop body's index scheme (history for i < 2, earlier buffer entries after) computes the streaming output for sample i |
| Biquad.ProcessBlock | lib/SecondOrderFilter.cc:52-84 | `process_block` on exactly 16 samples, with its two-sample-padded buffers, gives the same outputs and final state as the streaming run |
| Biquad.BlockSample | lib/SecondOrderFilter.cc:66-73 | the padded-buffer body computes the recurrence output from the two preceding padded entries |
| LowPass.DenominatorPositive | lib/LowPass.cc:20-21 | 1 + q·ita + ita² is positive when q² = 2, so b0 is always defined |
| LowPass.Coefficients | lib/LowPass.cc:18-25 | b1 = 2·b0, b2 = b0, zero gain at Nyquist (b0 - b1 + b2 = 0), unity gain at DC (b0 + b1 + b2 = 1 - a1 - a2), b0 > 0 |
| LowPass.ForRatio | lib/LowPass.cc:19-25 | the same relations for the formulas as a function of ff = cutoff / rate alone |
| LowPass.CoefficientsDependOnRatio | lib/LowPass.cc:18-25 | scaling sampling rate and cutoff by the same k > 0 gives the same coefficients |
| LowPass.New | lib/LowPass.cc:14-28 | constructing or resetting installs the designed coefficients with cleared history |
| LowPass.Process | lib/LowPass.h:14 | low-pass processing is exactly the biquad's streaming run with its filter |
| BandPass.Coefficients | lib/BandPass.cc:13-27 | b1 = 0, b2 = -b0, zero gain at DC and at Nyquist, and a2 = 2·b0 - 1 |
| BandPass.MatchesCookbook | lib/BandPass.cc:14-24 | the coefficients are the Audio EQ Cookbook BPF (0 dB peak) normalised by a0 with feedback signs flipped, for the alpha the code uses |
| BandPass.ApproximateQ | lib/BandPass.cc:29-32 | √2·n / log2(fs / 44.1) is positive for positive n and octaves, non-zero for non-zero n |
| BandPass.ApproximateQLinear | lib/BandPass.cc:29-32 | the quality factor is linear in the band count: q(fs, k·n) = k·q(fs, n) |
| BandPass.New | lib/BandPass.cc:13-27 | constructing or resetting installs the designed coefficients with cleared history |
| BandPass.Process | lib/BandPass.h:16 | band-pass processing is exactly the biquad's streaming run with its filter |
| Bands.AbsVal | lib/Vocoder.cc:34 | the rectified sample is non-negative and equals the sample or its negation |
| Bands.AbsIndex | lib/Vocoder.cc:32-36 | `abs` rectifies every element in place |
| Bands.MulIndex | lib/Vocoder.cc:38-43 | `mul` leaves a[i]·b[i] at every index |
| Bands.AddIndex | lib/Vocoder.cc:45-50 | `add` leaves a[i] + b[i] at every index |
| Bands.ZerosIndex | lib/Vocoder.cc:77 | the result buffer starts as all zeros |
| Bands.PointwiseAppend | lib/Vocoder.cc:32-50 | abs, mul, add and the zero buffer act on a concatenation piece by piece |
| Bands.BandStep | lib/Vocoder.cc:154-168 | one band's chain over equal-length signal and carrier yields one output per sample |
| Bands.BandChainMatchesStep | lib/Vocoder.cc:154-168 | running each of the four filters over the whole buffer in the order of the code equals the sample-by-sample chain |
| Bands.BandStepAppend | lib/Vocoder.cc:154-168 | one band's chain is chunk invariant: outputs and filter states of a + b are those of a then b |
| Bands.RunBands | lib/Vocoder.cc:144-169 | the bank keeps the number of bands and yields one output per sample |
| Bands.RunBandsIndependent | lib/Vocoder.cc:146-151 | band j's next filters depend only on band j's own filters |
| Bands.RunBandsEmpty | lib/Vocoder.cc:144-169 | an empty input produces nothing and leaves every filter unchanged |
| Bands.RunBandsAppend | lib/Vocoder.cc:144-169 | the whole bank is chunk invariant |
| Vocoder.Q | lib/Vocoder.cc:66-70 | the quality factor shared by every band is non-zero once there is a band |
| Vocoder.StepRoundTrip | lib/Vocoder.cc:54-57 | converting a MIDI step to hertz and back returns the step |
| Vocoder.NextHzSteps | lib/Vocoder.cc:52-62 | `next_hz` moves a frequency up by exactly `interval` steps |
| Vocoder.BandHzSteps | lib/Vocoder.cc:79-97 | band b sits at step(20 Hz) + interval/2 + b·interval |
| Vocoder.FreshBand | lib/Vocoder.cc:108-114 | the three band-passes of a band are identical, and every filter of a fresh band has cleared history |
| Vocoder.BandOutput | lib/Vocoder.cc:83-94 | one bulk band's contribution has the input's length |
| Vocoder.Bulk | lib/Vocoder.cc:77-98 | the sum over the first k bands has the input's length |
| Vocoder.BandpassCopy | lib/Vocoder.cc:18-23 | the `bandpass` helper filters a copy with a freshly built band-pass |
| Vocoder.LowpassCopy | lib/Vocoder.cc:25-30 | the `lowpass` helper filters a copy with a freshly built low-pass |
| Vocoder.FirstBandHz | lib/Vocoder.cc:79-80 | the first band lies exactly interval/2 semitones above 20 Hz whenever exp undoes log |
| Vocoder.NextBandHz | lib/Vocoder.cc:97 | each band lies exactly `interval` semitones above the previous one whenever exp undoes log |
| Vocoder.BulkProcess | lib/Vocoder.cc:74-101 | `Vocoder::process` returns, at the input's length, the ordered sum over all bands of the per-band chain |
| Vocoder.SetBand | lib/Vocoder.cc:148-151 | replacing one band's four filters leaves every other band unchanged |
| Vocoder.AppendBand | lib/Vocoder.cc:110-113 | adding a band appends three band-passes and one low-pass at indices 3b..3b+2 and b, other bands unchanged |
| Vocoder.NewRT | lib/Vocoder.cc:103-118 | the constructor builds 3·n band-passes and n low-passes, band b holding the fresh filters at band b's frequency |
| Vocoder.ProcessBand | lib/Vocoder.cc:154-168 | the per-band block body equals one band's sample-wise chain over the block |
| Vocoder.ProcessBlock | lib/Vocoder.cc:130-173 | `process_block` outputs the ordered sum over bands and steps each band using only its own four filters |
| Vocoder.Process | lib/Vocoder.cc:122-128 | `process` on a multiple of 16 samples equals the bank run over those samples, block after block |
| Vocoder.FreshBandOutput | lib/Vocoder.cc:83-94 | a fresh real-time band produces the bulk band's contribution |
| Vocoder.FreshBandsMatchBulk | lib/Vocoder.cc:81-98 | the first k fresh real-time bands sum to the bulk sum over the first k bands |
| Vocoder.RealtimeMatchesBulk | lib/Vocoder.cc:103-173 | a freshly constructed real-time vocoder produces exactly the bulk output over any input |
| Vocoder.ProcessInChunks | tests/test_vocoder.cc:44-51 | feeding the real-time vocoder 32-sample pieces equals one run over the whole input |
| Vocoder.ProcessCallbacks | lib/Vocoder.cc:122-128 | successive `process` calls on buffers of different lengths, each a multiple of 16, equal one bank run over the concatenated input |
| Vocoder.CallbacksMatchBulk | lib/Vocoder.cc:74-173 | a freshly constructed real-time vocoder driven by any sequence of such calls produces the bulk result over the concatenated input |
| Vocoder.CompareBulkAndRealtime | tests/test_vocoder.cc:13-58 | bulk, real-time in one call, and real-time in 32-sample pieces give identical outputs |
| WavFile.U16OfLe16 | lib/WAVFile.cc:27-35 | reading back a little-endian 16-bit field gives the value written |
| WavFile.Le16OfU16 | lib/WAVFile.cc:27-35 | writing back a read 16-bit field gives the same two bytes |
| WavFile.U32OfLe32 | lib/WAVFile.cc:21-35 | reading back a little-endian 32-bit field gives the value written |
| WavFile.Le32OfU32 | lib/WAVFile.cc:21-35 | writing back a read 32-bit field gives the same four bytes |
| WavFile.BitsRoundTrip | lib/WAVFile.cc:47 | the two's-complement view of an int16 and its 16-bit pattern are inverse |
| WavFile.HeaderRoundTrip | lib/WAVFile.cc:21-25 | an 8-byte chunk header reads back as written |
| WavFile.FmtRoundTrip | lib/WAVFile.cc:27-35 | a 16-byte fmt chunk reads back as written |
| WavFile.DecodeSample | lib/WAVFile.cc:102-106 | `-s / int16 min` lies in [-1, 32767/32768] and equals s / 32768 |
| WavFile.Clamp | lib/WAVFile.cc:117-120 | `std::clamp` lands in the range and leaves values inside it unchanged |
| WavFile.Truncate | lib/WAVFile.cc:116-121 | the float-to-int16 conversion rounds toward zero |
| WavFile.EncodeDecode | lib/WAVFile.cc:114-121 | encoding a decoded sample gives back the original int16, for every int16 |
| WavFile.QuantizationError | lib/WAVFile.cc:114-121 | for samples in range, decode(encode(x)) is within 1/32768 of x and on the same side of zero, toward zero |
| WavFile.Saturation | lib/WAVFile.cc:117-120 | out-of-range samples saturate at 32767 and -32768 |
| WavFile.DecodeAll | lib/WAVFile.cc:101-106 | every raw sample is decoded in place |
| WavFile.EncodeAll | lib/WAVFile.cc:113-121 | every float sample is encoded in place |
| WavFile.EncodeAllDecodeAll | lib/WAVFile.cc:101-121 | encoding the decoded buffer gives back the raw samples |
| WavFile.SampleBytes | lib/WAVFile.cc:157 | the samples are written as 2·n bytes |
| WavFile.ReadSamples | lib/WAVFile.cc:94-96 | 2·n data bytes are read as n samples |
| WavFile.ReadSampleBytes | lib/WAVFile.cc:94-96 | reading the written sample bytes gives back the samples |
| WavFile.Parse | lib/WAVFile.cc:58-108 | a successful load read a 44-byte header and every declared sample, its rate fits 32 bits, and every sample lies in [-1, 32767/32768] |
| WavFile.ParseWellFormed | lib/WAVFile.cc:58-108 | loading succeeds exactly on files with RIFF/WAVE tags, a 16-byte mono 16-bit PCM fmt chunk and an even-sized, complete data chunk, and then yields their rate and samples |
| WavFile.Load | lib/WAVFile.cc:51-56 | a file that cannot be opened fails with "Failed to open file"; otherwise its bytes are parsed |
| WavFile.LoadErrors | lib/WAVFile.cc:51-98 | every failure carries one of the eight error messages of `load_wav` |
| WavFile.TruncatedFails | lib/WAVFile.cc:58-98 | any file cut short of its declared samples fails to load |
| WavFile.TrailingBytesIgnored | lib/WAVFile.cc:93-98 | bytes after the declared samples do not change the result |
| WavFile.RiffSizeIgnored | lib/WAVFile.cc:59-62 | the RIFF size field is never checked: any value in it gives the same result |
| WavFile.SavedFmt | lib/WAVFile.cc:124-130 | the saved fmt chunk fits its 16- and 32-bit fields |
| WavFile.SavedDataHeader | lib/WAVFile.cc:136-138 | the saved data header fits its fields |
| WavFile.SavedRiffHeader | lib/WAVFile.cc:139-143 | the saved RIFF header fits its fields |
| WavFile.Serialize | lib/WAVFile.cc:152-157 | the saved file is the 44-byte header plus two bytes per sample |
| WavFile.Save | lib/WAVFile.cc:145-159 | `save_wav` writes the serialised bytes exactly when the file can be opened |
| WavFile.SavedLayout | lib/WAVFile.cc:152-157 | the six writes land at offsets 0, 8, 12, 20, 36 and 44 |
| WavFile.SavedHeaderFields | lib/WAVFile.cc:124-143 | fmt size 16, PCM mono 16-bit, block_align 2, byte_rate 2·fs, data size 2·n and RIFF size 36 + 2·n, each wrapped at 32 bits |
| WavFile.SavedWellFormed | lib/WAVFile.cc:111-160 | when 2·n fits 32 bits the saved file is one that loading accepts |
| WavFile.SaveThenLoad | lib/WAVFile.cc:111-160 | loading a saved file gives the rate mod 2^32 and the decoded int16 values that were written |
| WavFile.LoadThenSave | lib/WAVFile.cc:51-109 | saving what was loaded from an accepted file and loading it again gives the same result |
| ModuleWrapper.New | module/ModuleWrapper.h:30-46 | a new wrapper keeps the sampling rate, owns no module, has its queue in state `None`, the flag at `Idle`, the port at 0 and no thread, and satisfies the slot invariant |
| ModuleWrapper.ReloadModule | module/ModuleWrapper.cc:110-142 | reload succeeds iff the state is `None` and the library yields a maker of version 1 and a non-null module; a failure changes nothing; a success queues that module in `QueuedIn` and changes nothing else |
| ModuleWrapper.Process | module/ModuleWrapper.cc:39-60 | in `QueuedIn` active and queued modules are swapped and the state becomes `QueuedOut`, otherwise the slot is unchanged; with no active module the samples are copied, else the active module processes them; the port is latched and the flag set to `Run` |
| ModuleWrapper.Retire | module/ModuleWrapper.cc:92-97 | in `QueuedOut` the queued module is destroyed and the state returns to `None`; otherwise nothing changes |
| ModuleWrapper.CommStep | module/ModuleWrapper.cc:68-108 | the thread waits while `Idle`, goes on only if the flag is `Run` and the connection succeeds, and while serving retires handed-back modules until the flag leaves `Run` |
| ModuleWrapper.Activate | module/ModuleWrapper.cc:33-37 | `activate` sets the flag to `Idle` and leaves the slot alone; it never throws, blocks exactly when the old thread is still waiting for the first callback, and otherwise returns with a new waiting thread |
| ModuleWrapper.IdleKeepsThreadWaiting | module/ModuleWrapper.cc:71-74 | with the flag at `Idle` a waiting thread stays waiting however many steps it takes, which is why `activate` blocks on it |
| ModuleWrapper.ActivateReturnsIffOldThreadExits | module/ModuleWrapper.cc:33-37 | for a running thread, `activate` returns exactly when that thread, seeing `Idle`, exits on its next step |
| ModuleWrapper.Deactivate | module/ModuleWrapper.cc:62-66 | `deactivate` sets the flag to `Join` and leaves the slot alone; it never blocks, throws exactly when no thread is attached (never activated, or already joined), and otherwise returns with the thread joined |
| ModuleWrapper.JoinStopsThread | module/ModuleWrapper.cc:71-90 | with the flag at `Join` a waiting or serving thread exits on its next step without touching the slot |
| ModuleWrapper.ReloadKeepsInv | module/ModuleWrapper.cc:110-142 | reload preserves: `None` means an empty queue, `QueuedIn` a non-empty one |
| ModuleWrapper.ProcessKeepsInv | module/ModuleWrapper.cc:41-47 | the swap preserves the slot invariant |
| ModuleWrapper.CommStepKeepsInv | module/ModuleWrapper.cc:92-97 | the communication thread preserves the slot invariant |
| ModuleWrapper.ProcessKeepsModules | module/ModuleWrapper.cc:43-47 | the audio callback only permutes {active, queued}: it owns the same modules afterwards |
| ModuleWrapper.ReloadAddsModule | module/ModuleWrapper.cc:118-141 | a successful reload adds exactly the created module; a failed one changes nothing |
| ModuleWrapper.CommStepDestroysOnlyHandedBack | module/ModuleWrapper.cc:92-97 | the communication thread never touches the active module and destroys at most the handed-back one |
| ModuleWrapper.SwapHandsBackOldActive | module/ModuleWrapper.cc:40-47 | after a swap the queue holds the previously active module and the new module is active |
| ModuleWrapper.StepKeepsInv | module/ModuleWrapper.cc:33-142 | every action preserves the slot invariant |
| ModuleWrapper.InvAlways | module/ModuleWrapper.cc:33-142 | the slot invariant holds after any run of actions starting from a state that satisfies it |
| ModuleWrapper.AudioSideKeepsModules | module/ModuleWrapper.cc:33-66 | runs of audio callbacks, activations and deactivations never lose a module |
| ModuleWrapper.HandedBackStaysWithoutThread | module/ModuleWrapper.cc:89-115 | once the communication thread is gone, a handed-back module stays queued and every reload is refused until the next `activate` |

## Left out

- Floating point: samples and coefficients are exact reals. Float rounding, the float/double mix of the filters and the 1e-6 tolerance of the tests are not modelled.
- Transcendental functions (`tan`, `sin`, `cos`, `sinh`, `log2`, `log`, `exp`, `sqrt(2)`) are fields of a `Libm` value given as a parameter. The only facts assumed are `sqrt2 > 0`, `sqrt2² = 2` and `log 2 ≠ 0`. The step/frequency lemmas also take `log(exp(y)) = y` as a hypothesis.
- Division by zero in the designers (a zero rate, `1 + alpha = 0`, a zero `tan` or zero octaves) yields inf or NaN in C++. Here it is a precondition (`Designable`, `QDefined`) instead.
- Biquad.Process: requires at least two samples, because the C++ reads `input[size - 2]`. Chunk invariance is still proved for `Run` over any lengths.
- Vocoder.BulkProcess: requires at least two samples when there is a band, for the same reason.
- Vocoder.BandOutput, Vocoder.Bulk: state only the length. Their contents are tied to the real-time path by Vocoder.FreshBandOutput and Vocoder.RealtimeMatchesBulk.
- The frequency-response tests of the low-pass and band-pass filters are numerical and are not modelled.
- Threads, atomics, memory orderings, `jthread`, sleep-polling and the IPC client are not modelled. Each action of the module wrapper is one atomic step. A failed or successful connection is a parameter of the communication step, and message reading (which does nothing yet) is omitted.
- `dlopen`, `dlsym`, `dlclose` and `create_module` become a `Loader` value: no handle, no maker, or a maker with a version and a creation function.
- The loaded module's own `process` is a function parameter.
- ModuleWrapper.Process: the latched port is stored as the given integer. The float-to-`uint16_t` conversion of `*m_port_addr` is not modelled.
- ModuleWrapper.Activate: a blocked call is final in the model. Events on other threads during the wait are not modelled; an audio callback that sets the flag back to `Run` would let the waiting thread go on.
- The wrapper's destructor, which frees both slots, is not modelled.
- module/Module.cc, module/internal/Module.cc, module/ladspa_lib.cc, module/lv2_lib.cc, pipewire/, cmdline/ and lib/Utils.cc are not part of this model. They are plugin glue, server plumbing, the command line and float test helpers.
- File open, read and write are replaced by byte sequences: a file that cannot be opened is an absent sequence, and a file that can be written is a flag.
- Bytes are integers 0..255 rather than bit-vectors.
- The host is taken to be little-endian, as the struct-copying code assumes.
- WavFile.SaveThenLoad: `WAVData::sampling_rate` is a `size_t` truncated to 32 bits when saved. The round trip therefore gives back the rate modulo 2^32, and needs 2·n < 2^32 for the data size to survive.
