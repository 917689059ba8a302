/**
  The block routine as values: the true-5.1 content test, the opaque DSP
  stages, the six-channel scratch buffer each decoder produces, the post
  chain, the final mix, loudness boost and limiter, and the outcome of a
  whole block (new buffer, new engine state, new meters) for each route.
 */
module Pipeline {
  import opened AudioBuffers
  import opened Decoders
  import opened Modes

  /** The RMS threshold above which a surround channel counts as content. */
  const ContentThreshold: real := 0.00001

  /** hasTrue51Content: at least six inputs, and some channel 2..5 whose
      RMS level exceeds the threshold (compared as squares). */
  predicate HasTrue51Content(input: Block, numInputChannels: int)
  {
    numInputChannels >= 6 &&
    exists ch :: 2 <= ch < 6 && ch < |input| &&
      MeanSquare(input[ch]) > ContentThreshold * ContentThreshold
  }

  /** True 5.1 content needs six inputs and a non-silent sample on one of
      the channels C, LFE, Ls, Rs. */
  lemma True51NeedsSignal(input: Block, numInputChannels: int)
    requires HasTrue51Content(input, numInputChannels)
    ensures numInputChannels >= 6
    ensures exists ch, i :: 2 <= ch < 6 && ch < |input| && 0 <= i < |input[ch]| && input[ch][i] != 0.0
  {
    var ch :| 2 <= ch < 6 && ch < |input| && MeanSquare(input[ch]) > ContentThreshold * ContentThreshold;
    EnergyNeedsSignal(input[ch]);
    var i :| 0 <= i < |input[ch]| && input[ch][i] != 0.0;
  }

  /** Digital silence on C, LFE, Ls and Rs is never true 5.1 content. */
  lemma SilentSurroundsAreNotTrue51(input: Block, numInputChannels: int)
    requires forall ch, i :: 2 <= ch < 6 && ch < |input| && 0 <= i < |input[ch]| ==> input[ch][i] == 0.0
    ensures !HasTrue51Content(input, numInputChannels)
  {
    forall ch | 2 <= ch < 6 && ch < |input|
      ensures MeanSquare(input[ch]) == 0.0
    {
      SilenceHasNoEnergy(input[ch]);
    }
  }

  // ------------------------------------------------------------ opaque stages

  /** The library stages, each as the function it computes on this block
      (its internal filter, delay or gain state is part of that function).
      lowPass/highPass: the crossover; neo6LowPass/neo6HighPass: the 3 kHz
      split; dialogFilter: the 1.5 kHz band-pass; surroundDelay: the rear
      delay line; centerCompressor; outputLimiter. */
  datatype Dsp = Dsp(
    lowPass: Stereo -> Stereo,
    highPass: Stereo -> Stereo,
    neo6LowPass: Stereo -> Stereo,
    neo6HighPass: Stereo -> Stereo,
    dialogFilter: seq<real> -> seq<real>,
    surroundDelay: Stereo -> Stereo,
    centerCompressor: seq<real> -> seq<real>,
    outputLimiter: Block -> Block)

  /** An in-place processing context keeps the number of samples. */
  ghost predicate StereoStage(f: Stereo -> Stereo)
  {
    forall x: Stereo :: |f(x).left| == |x.left| && |f(x).right| == |x.right|
  }

  ghost predicate MonoStage(f: seq<real> -> seq<real>)
  {
    forall x: seq<real> :: |f(x)| == |x|
  }

  ghost predicate BlockStage(f: Block -> Block)
  {
    forall b: Block :: |f(b)| == |b| && forall ch :: 0 <= ch < |b| ==> |f(b)[ch]| == |b[ch]|
  }

  ghost predicate ValidDsp(dsp: Dsp)
  {
    && StereoStage(dsp.lowPass) && StereoStage(dsp.highPass)
    && StereoStage(dsp.neo6LowPass) && StereoStage(dsp.neo6HighPass)
    && MonoStage(dsp.dialogFilter) && StereoStage(dsp.surroundDelay)
    && MonoStage(dsp.centerCompressor) && BlockStage(dsp.outputLimiter)
  }

  // ------------------------------------------------------------ engine state

  /** The state the engine keeps across blocks and that this model
      interprets: the two Neo6 steering values and the four envelopes. */
  datatype EngineState = EngineState(steerLow: real, steerHigh: real, env: TransientState)

  /** Steering in [-1, 1], non-negative envelopes, and each fast
      follower within its slow one (true of the reset state). */
  predicate ValidState(s: EngineState)
  {
    -1.0 <= s.steerLow <= 1.0 && -1.0 <= s.steerHigh <= 1.0
    && StateNonNegative(s.env) && FastWithinSlow(s.env)
  }

  // ------------------------------------------------------------ decoders

  ghost predicate Rect(b: Block, n: nat)
  {
    forall ch :: 0 <= ch < |b| ==> |b[ch]| == n
  }

  predicate Balanced(x: Stereo) { |x.left| == |x.right| }

  /** The six-channel scratch buffer holding decoded frames; LFE stays 0. */
  function FramesBlock(fs: seq<Frame>): (b: Block)
    ensures |b| == 6 && Rect(b, |fs|)
    ensures forall n :: 0 <= n < |fs| ==>
      b[0][n] == fs[n].l && b[1][n] == fs[n].r && b[2][n] == fs[n].c &&
      b[3][n] == 0.0 && b[4][n] == fs[n].ls && b[5][n] == fs[n].rs
  {
    var k := |fs|;
    [seq(k, n requires 0 <= n < k => fs[n].l), seq(k, n requires 0 <= n < k => fs[n].r),
     seq(k, n requires 0 <= n < k => fs[n].c), seq(k, _ => 0.0),
     seq(k, n requires 0 <= n < k => fs[n].ls), seq(k, n requires 0 <= n < k => fs[n].rs)]
  }

  function MatrixFrames(hp: Stereo, p: Params): (fs: seq<Frame>)
    requires Balanced(hp)
    ensures |fs| == |hp.left|
  {
    seq(|hp.left|, n requires 0 <= n < |hp.left| => MatrixFrame(hp.left[n], hp.right[n], p))
  }

  function CoherentFrames(hp: Stereo, dialog: seq<real>, p: Params): (fs: seq<Frame>)
    requires Balanced(hp) && |dialog| == |hp.left|
    ensures |fs| == |hp.left|
  {
    seq(|hp.left|, n requires 0 <= n < |hp.left| => CoherentFrame(hp.left[n], hp.right[n], dialog[n], p))
  }

  /** The mono sum that feeds the dialog band-pass. */
  function MonoMid(hp: Stereo): (m: seq<real>)
    requires Balanced(hp)
    ensures |m| == |hp.left|
  {
    seq(|hp.left|, n requires 0 <= n < |hp.left| => 0.5 * (hp.left[n] + hp.right[n]))
  }

  function TransientFrames(s0: TransientState, hp: Stereo, p: Params): (fs: seq<Frame>)
    requires Balanced(hp)
    ensures |fs| == |hp.left|
  {
    seq(|hp.left|, n requires 0 <= n < |hp.left| =>
      TransientFrame(EnvelopesAfter(s0, hp.left, hp.right, n + 1), hp.left[n], hp.right[n], p))
  }

  function NeoFrames(s0: real, band: Stereo, surroundGain: real, centerWidth: real): (fs: seq<Frame>)
    requires Balanced(band)
    ensures |fs| == |band.left|
  {
    seq(|band.left|, n requires 0 <= n < |band.left| =>
      NeoFrame(SteerAfter(s0, band.left, band.right, n + 1), band.left[n], band.right[n], surroundGain, centerWidth))
  }

  /** The two Neo6 bands' contributions, added sample by sample. */
  function SumFrames(a: seq<Frame>, b: seq<Frame>): (fs: seq<Frame>)
    requires |a| == |b|
    ensures |fs| == |a|
    ensures forall n :: 0 <= n < |a| ==> fs[n] == AddFrame(a[n], b[n])
  {
    seq(|a|, n requires 0 <= n < |a| => AddFrame(a[n], b[n]))
  }

  /** The scratch buffer a decoder leaves, with the state it leaves. */
  datatype Decoded = Decoded(block: Block, state: EngineState)

  function DecodeWith(d: Decoder, hp: Stereo, p: Params, dsp: Dsp, s: EngineState): (r: Decoded)
    requires ValidDsp(dsp) && Balanced(hp)
    ensures |r.block| == 6 && Rect(r.block, |hp.left|)
  {
    match d
    case Neo6Decoder =>
      var low := dsp.neo6LowPass(hp);
      var high := dsp.neo6HighPass(hp);
      var cw := 1.0 - p.dialogExtract;
      var lowFrames := NeoFrames(s.steerLow, low, SurroundGain(p), cw);
      var highFrames := NeoFrames(s.steerHigh, high, SurroundGain(p), cw);
      Decoded(FramesBlock(SumFrames(lowFrames, highFrames)),
              s.(steerLow := SteerAfter(s.steerLow, low.left, low.right, |hp.left|),
                 steerHigh := SteerAfter(s.steerHigh, high.left, high.right, |hp.left|)))
    case MatrixDecoder =>
      Decoded(FramesBlock(MatrixFrames(hp, p)), s)
    case TransientDecoder =>
      Decoded(FramesBlock(TransientFrames(s.env, hp, p)),
              s.(env := EnvelopesAfter(s.env, hp.left, hp.right, |hp.left|)))
    case CoherentDecoder =>
      Decoded(FramesBlock(CoherentFrames(hp, dsp.dialogFilter(MonoMid(hp)), p)), s)
  }

  /** Each decoder keeps the engine-state invariant. */
  lemma DecodeKeepsValidState(d: Decoder, hp: Stereo, p: Params, dsp: Dsp, s: EngineState)
    requires ValidDsp(dsp) && Balanced(hp) && ValidState(s)
    ensures ValidState(DecodeWith(d, hp, p, dsp, s).state)
  {
    var n := |hp.left|;
    match d
    case Neo6Decoder =>
      var low := dsp.neo6LowPass(hp);
      var high := dsp.neo6HighPass(hp);
      SteerStaysInRange(s.steerLow, low.left, low.right, n);
      SteerStaysInRange(s.steerHigh, high.left, high.right, n);
    case TransientDecoder =>
      EnvelopesStayNonNegative(s.env, hp.left, hp.right, n);
      FastStaysWithinSlow(s.env, hp.left, hp.right, n);
    case MatrixDecoder =>
    case CoherentDecoder =>
  }

  /** The steering values are two independent states: the low band moves
      only steerLow and the high band only steerHigh; no other decoder moves
      either, and only Transient moves the envelopes. */
  lemma DecoderStateFootprint(d: Decoder, hp: Stereo, p: Params, dsp: Dsp, s: EngineState, s': EngineState)
    requires ValidDsp(dsp) && Balanced(hp)
    ensures d != Neo6Decoder ==> (DecodeWith(d, hp, p, dsp, s).state.steerLow == s.steerLow
                                  && DecodeWith(d, hp, p, dsp, s).state.steerHigh == s.steerHigh)
    ensures d != TransientDecoder ==> DecodeWith(d, hp, p, dsp, s).state.env == s.env
    ensures s.steerHigh == s'.steerHigh ==>
      DecodeWith(d, hp, p, dsp, s).state.steerHigh == DecodeWith(d, hp, p, dsp, s').state.steerHigh
    ensures s.steerLow == s'.steerLow ==>
      DecodeWith(d, hp, p, dsp, s).state.steerLow == DecodeWith(d, hp, p, dsp, s').state.steerLow
  {
  }

  /** Coherent: front and surround of each side add up to the treble-band
      input, because the front and surround weights sum to 1. */
  lemma CoherentSplitsEachSide(hp: Stereo, p: Params, dsp: Dsp, s: EngineState, n: nat)
    requires ValidDsp(dsp) && Balanced(hp) && n < |hp.left|
    ensures var b := DecodeWith(CoherentDecoder, hp, p, dsp, s).block;
      b[0][n] + b[4][n] == hp.left[n] && b[1][n] + b[5][n] == hp.right[n]
  {
    var dialog := dsp.dialogFilter(MonoMid(hp));
    var f := CoherentFrames(hp, dialog, p)[n];
    assert f == CoherentFrame(hp.left[n], hp.right[n], dialog[n], p);
  }

  /** From any valid engine state the Transient decoder produces the fixed
      sustained mix on every sample: the transient/sustained split of the
      envelope followers never takes effect. */
  lemma TransientDecodeIsSustainedMix(hp: Stereo, p: Params, dsp: Dsp, s: EngineState, n: nat)
    requires ValidDsp(dsp) && Balanced(hp) && ValidState(s) && n < |hp.left|
    ensures var b := DecodeWith(TransientDecoder, hp, p, dsp, s).block;
      var f := SustainedFrame(hp.left[n], hp.right[n], p);
      b[0][n] == f.l && b[1][n] == f.r && b[2][n] == f.c && b[4][n] == f.ls && b[5][n] == f.rs
  {
    var env := EnvelopesAfter(s.env, hp.left, hp.right, n + 1);
    FastStaysWithinSlow(s.env, hp.left, hp.right, n + 1);
    TransientNeverDetected(env, hp.left[n], hp.right[n], p);
    assert TransientFrames(s.env, hp, p)[n] == TransientFrame(env, hp.left[n], hp.right[n], p);
  }

  // ------------------------------------------------------------ post chain

  /** Rear delay on Ls/Rs, then (when centerComp > 0.01) the compressor on C. */
  function PostChain(decoded: Block, p: Params, dsp: Dsp): (b: Block)
    requires ValidDsp(dsp) && |decoded| == 6
    ensures |b| == 6
    ensures forall n :: Rect(decoded, n) ==> Rect(b, n)
  {
    var delayed := dsp.surroundDelay(Stereo(decoded[4], decoded[5]));
    var centre := if p.compAmount > 0.01 then dsp.centerCompressor(decoded[2]) else decoded[2];
    [decoded[0], decoded[1], centre, decoded[3], delayed.left, delayed.right]
  }

  /** The final mix: bass band back onto L/R, the mono bass times the LFE
      gain on LFE, C/Ls/Rs from the scratch buffer; channels from 6 on keep
      their input. */
  function Mix(input: Block, post: Block, lp: Stereo, lfeGain: real): (b: Block)
    requires |input| >= 6 && |post| == 6 && Balanced(lp)
    requires Rect(input, |lp.left|) && Rect(post, |lp.left|)
    ensures |b| == |input| && Rect(b, |lp.left|)
    ensures forall i :: 0 <= i < |lp.left| ==>
      b[0][i] == post[0][i] + lp.left[i] && b[1][i] == post[1][i] + lp.right[i] &&
      b[2][i] == post[2][i] && b[3][i] == 0.5 * (lp.left[i] + lp.right[i]) * lfeGain &&
      b[4][i] == post[4][i] && b[5][i] == post[5][i]
    ensures forall ch :: 6 <= ch < |input| ==> b[ch] == input[ch]
  {
    [AddRows(post[0], lp.left), AddRows(post[1], lp.right), post[2], LfeRow(lp, lfeGain), post[4], post[5]]
      + input[6..]
  }

  /** Two channels added sample by sample. */
  function AddRows(a: seq<real>, b: seq<real>): (s: seq<real>)
    requires |a| == |b|
    ensures |s| == |a|
    ensures forall i :: 0 <= i < |a| ==> s[i] == a[i] + b[i]
  {
    seq(|a|, i requires 0 <= i < |a| => a[i] + b[i])
  }

  /** The LFE channel: the mono sum of the bass band times the LFE gain. */
  function LfeRow(lp: Stereo, lfeGain: real): (s: seq<real>)
    requires Balanced(lp)
    ensures |s| == |lp.left|
    ensures forall i :: 0 <= i < |s| ==> s[i] == 0.5 * (lp.left[i] + lp.right[i]) * lfeGain
  {
    seq(|lp.left|, i requires 0 <= i < |lp.left| => 0.5 * (lp.left[i] + lp.right[i]) * lfeGain)
  }

  /** The upmix branch up to (not including) loudness boost and limiter. */
  function Upmix(d: Decoder, input: Block, p: Params, dsp: Dsp, s: EngineState): (r: Decoded)
    requires ValidDsp(dsp) && |input| >= 6 && Rect(input, |input[0]|)
    ensures |r.block| == |input| && Rect(r.block, |input[0]|)
  {
    var front := Stereo(input[0], input[1]);
    var lp := dsp.lowPass(front);
    var hp := dsp.highPass(front);
    var decoded := DecodeWith(d, hp, p, dsp, s);
    Decoded(Mix(input, PostChain(decoded.block, p, dsp), lp, p.lfeGain), decoded.state)
  }

  /** Downmix: C, LFE, Ls, Rs cleared, L/R copied from the raw input,
      everything else untouched. */
  function Downmix(input: Block): (b: Block)
    requires |input| >= 6
    ensures |b| == |input|
    ensures forall ch :: 2 <= ch < 6 ==>
      (|b[ch]| == |input[ch]| && forall i :: 0 <= i < |b[ch]| ==> b[ch][i] == 0.0)
    ensures forall ch :: 0 <= ch < |input| && (ch < 2 || ch >= 6) ==> b[ch] == input[ch]
  {
    seq(|input|, ch requires 0 <= ch < |input| =>
      if 2 <= ch < 6 then seq(|input[ch]|, _ => 0.0) else input[ch])
  }

  /** Loudness boost (when active) and the output limiter. */
  function Finish(b: Block, p: Params, dsp: Dsp): Block
  {
    dsp.outputLimiter(if p.boostActive then Scale(b, p.boostGain) else b)
  }

  /** The six meters: the peak magnitude of channels 0..5. */
  function PeakMeters(b: Block): (m: seq<real>)
    requires |b| >= 6
    ensures |m| == 6
    ensures forall k :: 0 <= k < 6 ==> m[k] == Peak(b[k])
  {
    [Peak(b[0]), Peak(b[1]), Peak(b[2]), Peak(b[3]), Peak(b[4]), Peak(b[5])]
  }

  // ------------------------------------------------------------ whole block

  /** What a block does: the new buffer, the new engine state, and the new
      meter values (None: the meters are left as they were). */
  datatype Outcome = Outcome(buffer: Block, state: EngineState, meters: Option<seq<real>>)

  function Max(a: int, b: int): int { if a < b then b else a }

  /** What processBlock demands of its call: a buffer with one channel per
      input or output, all of one length, and real channels 0..5 whenever
      the pass-through mode meters them. */
  ghost predicate BlockCallOk(input: Block, numInputChannels: int, numOutputChannels: int, p: Params, dsp: Dsp)
  {
    && 0 <= numInputChannels && 0 <= numOutputChannels
    && |input| == Max(numInputChannels, numOutputChannels)
    && (|input| > 0 ==> Rect(input, |input[0]|))
    && (p.currentMode == ModePassThrough.Ordinal() ==> |input| >= 6)
    && ValidDsp(dsp)
  }

  function ProcessBlockOutcome(input: Block, numInputChannels: int, numOutputChannels: int,
                               p: Params, dsp: Dsp, s: EngineState): Outcome
    requires BlockCallOk(input, numInputChannels, numOutputChannels, p, dsp)
  {
    var route := RouteBlock(HasTrue51Content(input, numInputChannels),
                            numInputChannels, numOutputChannels, p.currentMode);
    match route
    case True51PassThrough => Outcome(input, s, Some(PeakMeters(input)))
    case PassThroughMode => Outcome(input, s, Some(PeakMeters(input)))
    case OutputTooNarrow => Outcome(input, s, None)
    case DirectDownmix =>
      var out := Finish(Downmix(input), p, dsp);
      Outcome(out, s, Some(PeakMeters(out)))
    case Upmix(d) =>
      var r := Upmix(d, input, p, dsp, s);
      var out := Finish(r.block, p, dsp);
      Outcome(out, r.state, Some(PeakMeters(out)))
  }

  /** True 5.1 content on a layout with at least six outputs passes the
      buffer through untouched and meters each channel's peak. */
  lemma True51PassesThroughUntouched(input: Block, numInputChannels: int, numOutputChannels: int,
                                     p: Params, dsp: Dsp, s: EngineState)
    requires BlockCallOk(input, numInputChannels, numOutputChannels, p, dsp)
    requires HasTrue51Content(input, numInputChannels) && numOutputChannels >= 6
    ensures var o := ProcessBlockOutcome(input, numInputChannels, numOutputChannels, p, dsp, s);
      o.buffer == input && o.state == s && o.meters == Some(PeakMeters(input))
      && forall k, i :: 0 <= k < 6 && 0 <= i < |input[k]| ==> Abs(input[k][i]) <= o.meters.value[k]
  {
    forall k | 0 <= k < 6
      ensures forall i :: 0 <= i < |input[k]| ==> Abs(input[k][i]) <= Peak(input[k])
    {
      PeakIsMaximum(input[k]);
    }
  }

  /** Pass-through mode leaves the buffer and the state untouched and
      meters the input. */
  lemma PassThroughModeUntouched(input: Block, numInputChannels: int, numOutputChannels: int,
                                 p: Params, dsp: Dsp, s: EngineState)
    requires BlockCallOk(input, numInputChannels, numOutputChannels, p, dsp)
    requires p.currentMode == ModePassThrough.Ordinal()
    ensures var o := ProcessBlockOutcome(input, numInputChannels, numOutputChannels, p, dsp, s);
      o.buffer == input && o.state == s && o.meters == Some(PeakMeters(input))
  {
  }

  /** Outside pass-through, fewer than six outputs is a silent no-op: buffer,
      state and meters are all left as they were. */
  lemma NarrowOutputLeavesEverything(input: Block, numInputChannels: int, numOutputChannels: int,
                                     p: Params, dsp: Dsp, s: EngineState)
    requires BlockCallOk(input, numInputChannels, numOutputChannels, p, dsp)
    requires p.currentMode != ModePassThrough.Ordinal() && numOutputChannels < 6
    ensures ProcessBlockOutcome(input, numInputChannels, numOutputChannels, p, dsp, s) == Outcome(input, s, None)
  {
  }

  /** Downmix mode (without true 5.1 content): before boost and limiter,
      C, LFE, Ls, Rs are exactly zero and L/R are the raw input, and the
      engine state does not move. */
  lemma DownmixIsolation(input: Block, numInputChannels: int, numOutputChannels: int,
                         p: Params, dsp: Dsp, s: EngineState)
    requires BlockCallOk(input, numInputChannels, numOutputChannels, p, dsp)
    requires p.currentMode == ModeDownmix.Ordinal() && numOutputChannels >= 6
    requires !HasTrue51Content(input, numInputChannels)
    ensures var o := ProcessBlockOutcome(input, numInputChannels, numOutputChannels, p, dsp, s);
      && o.buffer == Finish(Downmix(input), p, dsp) && o.state == s
      && Downmix(input)[0] == input[0] && Downmix(input)[1] == input[1]
      && forall ch, i :: 2 <= ch < 6 && 0 <= i < |input[ch]| ==> Downmix(input)[ch][i] == 0.0
  {
  }

  /** Every block keeps the engine-state invariant. */
  lemma ProcessBlockKeepsValidState(input: Block, numInputChannels: int, numOutputChannels: int,
                                    p: Params, dsp: Dsp, s: EngineState)
    requires BlockCallOk(input, numInputChannels, numOutputChannels, p, dsp) && ValidState(s)
    ensures ValidState(ProcessBlockOutcome(input, numInputChannels, numOutputChannels, p, dsp, s).state)
  {
    var route := RouteBlock(HasTrue51Content(input, numInputChannels),
                            numInputChannels, numOutputChannels, p.currentMode);
    if route.Upmix? {
      DecodeKeepsValidState(route.decoder, dsp.highPass(Stereo(input[0], input[1])), p, dsp, s);
    }
  }

  /** Meters that are published are non-negative. */
  lemma MetersNonNegative(input: Block, numInputChannels: int, numOutputChannels: int,
                          p: Params, dsp: Dsp, s: EngineState)
    requires BlockCallOk(input, numInputChannels, numOutputChannels, p, dsp)
    ensures var o := ProcessBlockOutcome(input, numInputChannels, numOutputChannels, p, dsp, s);
      o.meters.Some? ==> |o.meters.value| == 6 && forall k :: 0 <= k < 6 ==> o.meters.value[k] >= 0.0
  {
  }
}
