/**
  CoherentUpmixAudioProcessor: the persistent engine state (Neo6 steering
  values, transient envelope followers, six meter values) and the block
  routine that routes, decodes, mixes and meters a buffer in place.
 */
module Processor {
  import opened AudioBuffers
  import opened Decoders
  import opened Modes
  import opened Pipeline

  /** The five decoded channels of sample `n` of a six-channel scratch buffer. */
  function FrameAt(a: array2<real>, n: nat): Frame
    requires a.Length0 == 6 && n < a.Length1
    reads a
  {
    Frame(a[0, n], a[1, n], a[2, n], a[4, n], a[5, n])
  }

  /** The decoded frames of a six-channel scratch buffer, sample by sample. */
  function FramesOf(a: array2<real>): (fs: seq<Frame>)
    requires a.Length0 == 6
    reads a
    ensures |fs| == a.Length1
    ensures forall n :: 0 <= n < a.Length1 ==> fs[n] == FrameAt(a, n)
  {
    seq(a.Length1, n requires 0 <= n < a.Length1 reads a => FrameAt(a, n))
  }

  /** The frames of a cleared scratch buffer. */
  function Silence(n: nat): (fs: seq<Frame>)
    ensures |fs| == n
    ensures forall k :: 0 <= k < n ==> fs[k] == Frame(0.0, 0.0, 0.0, 0.0, 0.0)
  {
    seq(n, _ => Frame(0.0, 0.0, 0.0, 0.0, 0.0))
  }

  /** Adding frames onto silence gives those frames. */
  lemma SilencePlus(fs: seq<Frame>)
    ensures SumFrames(Silence(|fs|), fs) == fs
  {
    assert forall k :: 0 <= k < |fs| ==> AddFrame(Silence(|fs|)[k], fs[k]) == fs[k];
  }

  /** A scratch buffer that holds `fs` frame by frame, with a silent LFE
      channel, is FramesBlock(fs). */
  lemma FramesContents(a: array2<real>, fs: seq<Frame>)
    requires a.Length0 == 6 && a.Length1 == |fs|
    requires forall n :: 0 <= n < |fs| ==> FrameAt(a, n) == fs[n] && a[3, n] == 0.0
    ensures Contents(a) == FramesBlock(fs)
  {
    var b := FramesBlock(fs);
    forall ch, j | 0 <= ch < 6 && 0 <= j < |fs|
      ensures a[ch, j] == b[ch][j]
    {
      assert FrameAt(a, j) == fs[j];
    }
    ContentsPointwise(a, b);
  }

  /** The same, from the buffer's frames and a silent LFE row. */
  lemma FramesWithSilentLfe(a: array2<real>, fs: seq<Frame>, lfe: seq<real>)
    requires a.Length0 == 6 && FramesOf(a) == fs && Row(a, 3) == lfe
    requires forall n :: 0 <= n < |lfe| ==> lfe[n] == 0.0
    ensures Contents(a) == FramesBlock(fs)
  {
    forall n | 0 <= n < |fs|
      ensures FrameAt(a, n) == fs[n] && a[3, n] == 0.0
    {
      assert FramesOf(a)[n] == fs[n] && Row(a, 3)[n] == lfe[n];
    }
    FramesContents(a, fs);
  }

  /** The peak magnitude of channels 0..5, as the meters take them. */
  method MeasurePeaks(buffer: array2<real>) returns (m: seq<real>)
    requires buffer.Length0 >= 6
    ensures m == PeakMeters(Contents(buffer))
  {
    var left := GetMagnitude(buffer, 0);
    var right := GetMagnitude(buffer, 1);
    var center := GetMagnitude(buffer, 2);
    var lfe := GetMagnitude(buffer, 3);
    var ls := GetMagnitude(buffer, 4);
    var rs := GetMagnitude(buffer, 5);
    m := [left, right, center, lfe, ls, rs];
    ghost var b := Contents(buffer);
    assert b[0] == Row(buffer, 0) && b[1] == Row(buffer, 1) && b[2] == Row(buffer, 2);
    assert b[3] == Row(buffer, 3) && b[4] == Row(buffer, 4) && b[5] == Row(buffer, 5);
  }

  /** The pass-through copy of channels 0 .. end - 1 onto themselves,
      which leaves the buffer as it was. */
  method CopyThrough(buffer: array2<real>, end: int)
    requires end <= buffer.Length0
    modifies buffer
    ensures Contents(buffer) == old(Contents(buffer))
  {
    ghost var input := Contents(buffer);
    var ch := 0;
    while ch < end
      invariant 0 <= ch <= Max(end, 0)
      invariant Contents(buffer) == input
    {
      CopyChannel(buffer, ch, ch);
      ContentsPointwise(buffer, input);
      ch := ch + 1;
    }
  }

  /** The loudness boost (when active) and the output limiter, in place. */
  method FinishBlock(buffer: array2<real>, p: Params, dsp: Dsp)
    requires ValidDsp(dsp)
    modifies buffer
    ensures Contents(buffer) == Finish(old(Contents(buffer)), p, dsp)
  {
    if p.boostActive {
      ApplyGain(buffer, p.boostGain);
    }
    var limited := dsp.outputLimiter(Contents(buffer));
    WriteBlock(buffer, limited);
  }

  /** A freshly cleared scratch buffer. */
  ghost predicate IsCleared(a: array2<real>)
    reads a
  {
    forall ch, n :: 0 <= ch < a.Length0 && 0 <= n < a.Length1 ==> a[ch, n] == 0.0
  }

  /** The gains of a smoothed steering value: a positive steer feeds the
      centre, a negative one the surrounds; the centre width bleeds part of
      the centre gain back to the front pair. */
  method SteerGains(smoothSteer: real, centerWidth: real) returns (cGain: real, sGain: real, lrGain: real)
    ensures Gains(cGain, sGain, lrGain) == NeoGains(smoothSteer, centerWidth)
  {
    cGain, sGain, lrGain := 0.0, 0.0, 1.0;
    if smoothSteer > 0.0 {
      cGain := smoothSteer; lrGain := 1.0 - smoothSteer; sGain := 0.0;
    } else {
      sGain := -smoothSteer; lrGain := 1.0 - sGain; cGain := 0.0;
    }
    if centerWidth > 0.0 && cGain > 0.0 {
      var bleed := cGain * centerWidth;
      cGain := cGain - bleed;
      lrGain := lrGain + bleed;
    }
  }

  /** The instantaneous steering estimate of a sample, from its mid and side
      magnitudes. */
  method SteerEstimate(l: real, r: real) returns (targetSteer: real)
    ensures targetSteer == TargetSteer(l, r)
  {
    var sum := (l + r) * 0.707;
    var diff := (l - r) * 0.707;
    var absSum := Abs(sum);
    var absDiff := Abs(diff) + SteerEpsilon;
    targetSteer := (absSum - absDiff) / (absSum + absDiff);
  }

  /** The body of the processNeo6Band loop for one sample: the steering
      estimate, the one-pole smoothing, the centre/surround/front gains with
      the centre-width bleed, and the sample's contribution to L, R, C, Ls, Rs. */
  method Neo6Sample(steer: real, l: real, r: real, surroundGain: real, centerWidth: real)
    returns (smoothSteer: real, contribution: Frame)
    ensures smoothSteer == SteerStep(steer, l, r)
    ensures contribution == NeoFrame(smoothSteer, l, r, surroundGain, centerWidth)
  {
    var targetSteer := SteerEstimate(l, r);

    smoothSteer := steer * SteerAlpha + targetSteer * (1.0 - SteerAlpha);

    var cGain, sGain, lrGain := SteerGains(smoothSteer, centerWidth);
    contribution := NeoContribution(l, r, Gains(cGain, sGain, lrGain), surroundGain);
  }

  /** The transient ratio of one channel: 4 (fast - slow), clamped to [0, 1]. */
  method TransientRatio(e: Envelope) returns (ratio: real)
    ensures ratio == Ratio(e)
  {
    ratio := e.fast - e.slow;
    if ratio < 0.0 { ratio := 0.0; }
    ratio := ratio * 4.0;
    if ratio > 1.0 { ratio := 1.0; }
  }

  /** The second half of the transient loop body for one sample: the
      clamped transient ratios of the already advanced followers, the
      transient/sustained weights and the sample's L, R, C, Ls, Rs. */
  method TransientSample(env: TransientState, l: real, r: real, p: Params) returns (f: Frame)
    ensures f == TransientFrame(env, l, r, p)
  {
    var ratioL := TransientRatio(env.left);
    var ratioR := TransientRatio(env.right);

    var transWeightL, susWeightL := ratioL, 1.0 - ratioL;
    var transWeightR, susWeightR := ratioR, 1.0 - ratioR;
    assert (transWeightL, susWeightL) == Weights(env.left);
    assert (transWeightR, susWeightR) == Weights(env.right);

    f := TransientMix(l, r, (transWeightL, susWeightL), (transWeightR, susWeightR), p);
  }

  /** Column `n` of a scratch buffer gets frame `f` on L, R, C, Ls, Rs. */
  method SetFrameAt(a: array2<real>, n: nat, f: Frame)
    requires a.Length0 == 6 && n < a.Length1
    modifies a
    ensures FrameAt(a, n) == f
    ensures forall k :: 0 <= k < a.Length1 && k != n ==> FrameAt(a, k) == old(FrameAt(a, k))
    ensures forall k :: 0 <= k < a.Length1 ==> a[3, k] == old(a[3, k])
  {
    a[2, n] := f.c;
    a[4, n] := f.ls;
    a[5, n] := f.rs;
    a[0, n] := f.l;
    a[1, n] := f.r;
  }

  /** Frame `f` added onto column `n` of a scratch buffer. */
  method AddFrameAt(a: array2<real>, n: nat, f: Frame)
    requires a.Length0 == 6 && n < a.Length1
    modifies a
    ensures FrameAt(a, n) == AddFrame(old(FrameAt(a, n)), f)
    ensures forall k :: 0 <= k < a.Length1 && k != n ==> FrameAt(a, k) == old(FrameAt(a, k))
    ensures forall k :: 0 <= k < a.Length1 ==> a[3, k] == old(a[3, k])
  {
    a[2, n] := a[2, n] + f.c;
    a[4, n] := a[4, n] + f.ls;
    a[5, n] := a[5, n] + f.rs;
    a[0, n] := a[0, n] + f.l;
    a[1, n] := a[1, n] + f.r;
  }

  /** L, R, C, Ls, Rs of `src` added onto those of `dst`; LFE untouched. */
  method AddFrames(dst: array2<real>, src: array2<real>)
    requires dst != src && dst.Length0 == 6 && src.Length0 == 6 && dst.Length1 == src.Length1
    modifies dst
    ensures FramesOf(dst) == SumFrames(old(FramesOf(dst)), FramesOf(src))
    ensures Row(dst, 3) == old(Row(dst, 3))
  {
    ghost var before := FramesOf(dst);
    ghost var added := FramesOf(src);
    ghost var lfe := Row(dst, 3);
    var n := 0;
    while n < dst.Length1
      invariant 0 <= n <= dst.Length1
      invariant forall k :: 0 <= k < dst.Length1 ==>
        FrameAt(dst, k) == (if k < n then AddFrame(before[k], added[k]) else before[k])
      invariant forall k :: 0 <= k < dst.Length1 ==> dst[3, k] == lfe[k]
    {
      AddFrameAt(dst, n, FrameAt(src, n));
      n := n + 1;
    }
    assert FramesOf(dst) == SumFrames(before, added);
    assert Row(dst, 3) == lfe;
  }

  /** Column `n` of channels 0..5 gets `column`; everything else is kept. */
  method WriteColumn(a: array2<real>, n: nat, column: seq<real>)
    requires 6 <= a.Length0 && n < a.Length1 && |column| == 6
    modifies a
    ensures forall ch, k :: 0 <= ch < a.Length0 && 0 <= k < a.Length1 ==>
      a[ch, k] == if k == n && ch < 6 then column[ch] else old(a[ch, k])
  {
    a[3, n] := column[3];
    a[0, n] := column[0];
    a[1, n] := column[1];
    a[2, n] := column[2];
    a[4, n] := column[4];
    a[5, n] := column[5];
  }

  class CoherentUpmixAudioProcessor {
    // The six meter values (peak magnitudes despite their names).
    var rmsLevelLeft: real
    var rmsLevelRight: real
    var rmsLevelCenter: real
    var rmsLevelLFE: real
    var rmsLevelLs: real
    var rmsLevelRs: real

    // Neo6 steering state of the low and the high sub-band.
    var steerStateLow: real
    var steerStateHigh: real

    // Transient envelope followers.
    var fastEnvL: real
    var slowEnvL: real
    var fastEnvR: real
    var slowEnvR: real

    function State(): EngineState
      reads this
    {
      EngineState(steerStateLow, steerStateHigh,
                  TransientState(Envelope(fastEnvL, slowEnvL), Envelope(fastEnvR, slowEnvR)))
    }

    function Meters(): seq<real>
      reads this
    {
      [rmsLevelLeft, rmsLevelRight, rmsLevelCenter, rmsLevelLFE, rmsLevelLs, rmsLevelRs]
    }

    /** Steering in [-1, 1], envelopes and meters non-negative. */
    ghost predicate Valid()
      reads this
    {
      && ValidState(State())
      && rmsLevelLeft >= 0.0 && rmsLevelRight >= 0.0 && rmsLevelCenter >= 0.0
      && rmsLevelLFE >= 0.0 && rmsLevelLs >= 0.0 && rmsLevelRs >= 0.0
    }

    /** Every state field and every meter starts at 0. */
    constructor ()
      ensures State() == EngineState(0.0, 0.0, TransientState(Envelope(0.0, 0.0), Envelope(0.0, 0.0)))
      ensures Meters() == [0.0, 0.0, 0.0, 0.0, 0.0, 0.0]
      ensures Valid()
    {
      rmsLevelLeft, rmsLevelRight, rmsLevelCenter := 0.0, 0.0, 0.0;
      rmsLevelLFE, rmsLevelLs, rmsLevelRs := 0.0, 0.0, 0.0;
      steerStateLow, steerStateHigh := 0.0, 0.0;
      fastEnvL, slowEnvL, fastEnvR, slowEnvR := 0.0, 0.0, 0.0, 0.0;
    }

    /** The state reset of prepareToPlay: the four envelope followers go
        back to 0; the steering states and the meters are left as they are. */
    method PrepareToPlay()
      requires Valid()
      modifies this
      ensures Valid()
      ensures State() == old(State()).(env := TransientState(Envelope(0.0, 0.0), Envelope(0.0, 0.0)))
      ensures Meters() == old(Meters())
    {
      fastEnvL := 0.0; slowEnvL := 0.0;
      fastEnvR := 0.0; slowEnvR := 0.0;
    }

    /** Publishes six meter values. */
    method PublishMeters(m: seq<real>)
      requires |m| == 6
      modifies this
      ensures Meters() == m
      ensures State() == old(State())
    {
      rmsLevelLeft, rmsLevelRight, rmsLevelCenter := m[0], m[1], m[2];
      rmsLevelLFE, rmsLevelLs, rmsLevelRs := m[3], m[4], m[5];
    }

    /** hasTrue51Content: the RMS test on channels 2 .. min(6, inputs) - 1,
        stopping at the first channel above the threshold. */
    method DetectTrue51Content(buffer: array2<real>, numInputChannels: int) returns (has: bool)
      requires numInputChannels <= buffer.Length0
      ensures has == HasTrue51Content(Contents(buffer), numInputChannels)
    {
      has := false;
      if numInputChannels >= 6 {
        var threshold := ContentThreshold;
        var end := if 6 < numInputChannels then 6 else numInputChannels;
        var ch := 2;
        while ch < end
          invariant 2 <= ch <= end
          invariant !has
          invariant forall c :: 2 <= c < ch ==> MeanSquare(Contents(buffer)[c]) <= threshold * threshold
        {
          var level := GetMeanSquareLevel(buffer, ch);
          if level > threshold * threshold {
            assert MeanSquare(Contents(buffer)[ch]) > ContentThreshold * ContentThreshold;
            has := true;
            break;
          }
          ch := ch + 1;
        }
      }
    }

    /** processNeo6Band: steers one sub-band sample by sample and ADDS its
        contribution to L, R, C, Ls, Rs of `out`; the steering state is
        passed in and its updated value returned (a reference parameter). */
    method ProcessNeo6Band(inL: seq<real>, inR: seq<real>, numSamples: nat, out: array2<real>,
                           surroundGain: real, centerWidth: real, steerState: real)
      returns (steerOut: real)
      requires |inL| == numSamples && |inR| == numSamples
      requires out.Length0 == 6 && out.Length1 == numSamples
      modifies out
      ensures steerOut == SteerAfter(steerState, inL, inR, numSamples)
      ensures FramesOf(out) == SumFrames(old(FramesOf(out)), NeoFrames(steerState, Stereo(inL, inR), surroundGain, centerWidth))
      ensures Row(out, 3) == old(Row(out, 3))
    {
      ghost var before := FramesOf(out);
      ghost var lfe := Row(out, 3);
      ghost var frames := NeoFrames(steerState, Stereo(inL, inR), surroundGain, centerWidth);
      steerOut := steerState;
      var n := 0;
      while n < numSamples
        invariant 0 <= n <= numSamples
        invariant steerOut == SteerAfter(steerState, inL, inR, n)
        invariant forall k :: 0 <= k < numSamples ==>
          FrameAt(out, k) == (if k < n then AddFrame(before[k], frames[k]) else before[k])
        invariant forall k :: 0 <= k < numSamples ==> out[3, k] == lfe[k]
      {
        var contribution;
        steerOut, contribution := Neo6Sample(steerOut, inL[n], inR[n], surroundGain, centerWidth);
        assert contribution == frames[n];
        AddFrameAt(out, n, contribution);
        n := n + 1;
      }
      assert FramesOf(out) == SumFrames(before, frames);
      assert Row(out, 3) == lfe;
    }

    /** The high band's steering into a cleared buffer of its own, then
        added onto `out`. */
    method ProcessNeo6BandSeparately(inL: seq<real>, inR: seq<real>, numSamples: nat, out: array2<real>,
                                     surroundGain: real, centerWidth: real, steerState: real)
      returns (steerOut: real)
      requires |inL| == numSamples && |inR| == numSamples
      requires out.Length0 == 6 && out.Length1 == numSamples
      modifies out
      ensures steerOut == SteerAfter(steerState, inL, inR, numSamples)
      ensures FramesOf(out) == SumFrames(old(FramesOf(out)), NeoFrames(steerState, Stereo(inL, inR), surroundGain, centerWidth))
      ensures Row(out, 3) == old(Row(out, 3))
    {
      var bandOut := new real[6, numSamples]((_, _) => 0.0);
      assert FramesOf(bandOut) == Silence(numSamples);
      steerOut := ProcessNeo6Band(inL, inR, numSamples, bandOut, surroundGain, centerWidth, steerState);
      SilencePlus(NeoFrames(steerState, Stereo(inL, inR), surroundGain, centerWidth));
      AddFrames(out, bandOut);
    }

    /** The Neo6 branch: the 3 kHz split, the low band steered into the
        scratch buffer with steerStateLow, the high band steered into its
        own cleared buffer with steerStateHigh and then added on. */
    method DecodeNeo6(tmp: array2<real>, hp: Stereo, p: Params, dsp: Dsp)
      requires ValidDsp(dsp) && Balanced(hp)
      requires tmp.Length0 == 6 && tmp.Length1 == |hp.left| && IsCleared(tmp)
      modifies this, tmp
      ensures var d := DecodeWith(Neo6Decoder, hp, p, dsp, old(State()));
        Contents(tmp) == d.block && State() == d.state
      ensures Meters() == old(Meters())
    {
      var numSamples := |hp.left|;
      ghost var s0 := State();
      var bandLow := dsp.neo6LowPass(hp);
      var bandHigh := dsp.neo6HighPass(hp);
      var cw := 1.0 - p.dialogExtract;
      ghost var lowFrames := NeoFrames(s0.steerLow, bandLow, SurroundGain(p), cw);
      ghost var highFrames := NeoFrames(s0.steerHigh, bandHigh, SurroundGain(p), cw);

      assert bandLow == Stereo(bandLow.left, bandLow.right);
      assert bandHigh == Stereo(bandHigh.left, bandHigh.right);
      assert FramesOf(tmp) == Silence(numSamples);
      ghost var lfe := Row(tmp, 3);

      steerStateLow := ProcessNeo6Band(bandLow.left, bandLow.right, numSamples, tmp,
                                       SurroundGain(p), cw, steerStateLow);
      SilencePlus(lowFrames);
      steerStateHigh := ProcessNeo6BandSeparately(bandHigh.left, bandHigh.right, numSamples, tmp,
                                                  SurroundGain(p), cw, steerStateHigh);
      FramesWithSilentLfe(tmp, SumFrames(lowFrames, highFrames), lfe);
      assert State() == s0.(steerLow := SteerAfter(s0.steerLow, bandLow.left, bandLow.right, numSamples),
                            steerHigh := SteerAfter(s0.steerHigh, bandHigh.left, bandHigh.right, numSamples));
    }

    /** The Matrix (ProLogic II) branch. */
    method DecodeMatrix(tmp: array2<real>, hpL: seq<real>, hpR: seq<real>, p: Params)
      requires |hpL| == |hpR| && tmp.Length0 == 6 && tmp.Length1 == |hpL| && IsCleared(tmp)
      modifies tmp
      ensures Contents(tmp) == FramesBlock(MatrixFrames(Stereo(hpL, hpR), p))
    {
      var numSamples := |hpL|;
      var surroundGain := SurroundGain(p);
      var centerWidth := 1.0 - p.dialogExtract;
      var matrixSurroundBoost := MatrixSurroundBoost;
      ghost var frames := MatrixFrames(Stereo(hpL, hpR), p);
      var n := 0;
      while n < numSamples
        invariant 0 <= n <= numSamples
        invariant forall k :: 0 <= k < n ==> FrameAt(tmp, k) == frames[k]
        invariant forall k :: 0 <= k < numSamples ==> tmp[3, k] == 0.0
      {
        var l := hpL[n];
        var r := hpR[n];
        var sum := (l + r) * 0.707;
        var diff := (l - r) * 0.707;

        var surrL := (diff * 0.7) + (l * 0.3);
        var surrR := (-diff * 0.7) + (r * 0.3);

        var subtractionFactor := (1.0 - centerWidth) * 0.8;
        var f := Frame(l - (sum * subtractionFactor), r - (sum * subtractionFactor), sum,
                       surrL * surroundGain * matrixSurroundBoost, surrR * surroundGain * matrixSurroundBoost);
        assert f == frames[n];
        SetFrameAt(tmp, n, f);
        n := n + 1;
      }
      FramesContents(tmp, frames);
    }

    /** The four envelope followers advanced over one sample (L and R):
        each rises to the magnitude at once, the fast one otherwise decays
        and the slow one releases towards the magnitude. */
    method FollowEnvelopes(l: real, r: real)
      modifies this
      ensures State() == old(State()).(env := TransientStep(old(State()).env, l, r))
      ensures Meters() == old(Meters())
    {
      var att := FastDecay;
      var rel := SlowRelease;
      var absL := Abs(l);
      var absR := Abs(r);

      if absL > fastEnvL { fastEnvL := absL; } else { fastEnvL := fastEnvL * att; }
      if absL > slowEnvL { slowEnvL := absL; } else { slowEnvL := (slowEnvL * rel) + (absL * (1.0 - rel)); }
      if absR > fastEnvR { fastEnvR := absR; } else { fastEnvR := fastEnvR * att; }
      if absR > slowEnvR { slowEnvR := absR; } else { slowEnvR := (slowEnvR * rel) + (absR * (1.0 - rel)); }
    }

    /** The Transient branch: the four envelope followers advance sample by
        sample and split each channel into transient and sustained parts. */
    method DecodeTransient(tmp: array2<real>, hpL: seq<real>, hpR: seq<real>, p: Params)
      requires |hpL| == |hpR| && tmp.Length0 == 6 && tmp.Length1 == |hpL| && IsCleared(tmp)
      modifies this, tmp
      ensures Contents(tmp) == FramesBlock(TransientFrames(old(State()).env, Stereo(hpL, hpR), p))
      ensures State() == old(State()).(env := EnvelopesAfter(old(State()).env, hpL, hpR, |hpL|))
      ensures Meters() == old(Meters())
    {
      ghost var frames := TransientFrames(State().env, Stereo(hpL, hpR), p);
      TransientLoop(tmp, hpL, hpR, p);
      FramesContents(tmp, frames);
    }

    /** The sample loop of the Transient branch. */
    method TransientLoop(tmp: array2<real>, hpL: seq<real>, hpR: seq<real>, p: Params)
      requires |hpL| == |hpR| && tmp.Length0 == 6 && tmp.Length1 == |hpL| && IsCleared(tmp)
      modifies this, tmp
      ensures forall k :: 0 <= k < |hpL| ==>
        FrameAt(tmp, k) == TransientFrames(old(State()).env, Stereo(hpL, hpR), p)[k] && tmp[3, k] == 0.0
      ensures State() == old(State()).(env := EnvelopesAfter(old(State()).env, hpL, hpR, |hpL|))
      ensures Meters() == old(Meters())
    {
      var numSamples := |hpL|;
      ghost var env0 := State().env;
      ghost var frames := TransientFrames(env0, Stereo(hpL, hpR), p);
      var n := 0;
      while n < numSamples
        invariant 0 <= n <= numSamples
        invariant State().env == EnvelopesAfter(env0, hpL, hpR, n)
        invariant unchanged(`steerStateLow, `steerStateHigh, `rmsLevelLeft, `rmsLevelRight, `rmsLevelCenter)
        invariant unchanged(`rmsLevelLFE, `rmsLevelLs, `rmsLevelRs)
        invariant forall k :: 0 <= k < n ==> FrameAt(tmp, k) == frames[k]
        invariant forall k :: 0 <= k < numSamples ==> tmp[3, k] == 0.0
      {
        var l := hpL[n];
        var r := hpR[n];

        FollowEnvelopes(l, r);

        var f := TransientSample(State().env, l, r, p);
        assert f == frames[n];
        SetFrameAt(tmp, n, f);
        n := n + 1;
      }
    }

    /** The Coherent (default) branch: the mono mid through the dialog
        band-pass, then the fixed front/centre/surround weights. */
    method DecodeCoherent(tmp: array2<real>, hp: Stereo, p: Params, dsp: Dsp)
      requires ValidDsp(dsp) && Balanced(hp)
      requires tmp.Length0 == 6 && tmp.Length1 == |hp.left| && IsCleared(tmp)
      modifies tmp
      ensures Contents(tmp) == FramesBlock(CoherentFrames(hp, dsp.dialogFilter(MonoMid(hp)), p))
    {
      var numSamples := |hp.left|;
      var dialogBuffer := new real[numSamples];
      var i := 0;
      while i < numSamples
        modifies dialogBuffer
        invariant 0 <= i <= numSamples
        invariant forall k :: 0 <= k < i ==> dialogBuffer[k] == 0.5 * (hp.left[k] + hp.right[k])
      {
        dialogBuffer[i] := 0.5 * (hp.left[i] + hp.right[i]);
        i := i + 1;
      }
      assert dialogBuffer[..] == MonoMid(hp);
      var dR := dsp.dialogFilter(dialogBuffer[..]);

      var frontWeight := FrontWeight(p);
      var centerGain := CenterGain(p);
      var dialogBoost := DialogBoost(p);
      ghost var frames := CoherentFrames(hp, dR, p);
      var n := 0;
      while n < numSamples
        invariant 0 <= n <= numSamples
        invariant forall k :: 0 <= k < n ==> FrameAt(tmp, k) == frames[k]
        invariant forall k :: 0 <= k < numSamples ==> tmp[3, k] == 0.0
      {
        var l := hp.left[n];
        var r := hp.right[n];
        var monoMid := 0.5 * (l + r);

        var f := Frame(l * frontWeight, r * frontWeight, (centerGain * monoMid) + (dR[n] * dialogBoost),
                       l * p.surroundBalance, r * p.surroundBalance);
        assert f == frames[n];
        SetFrameAt(tmp, n, f);
        n := n + 1;
      }
      FramesContents(tmp, frames);
    }

    /** The rear delay on Ls/Rs and, when centerComp > 0.01, the centre
        compressor, both in place on the scratch buffer. */
    method ApplyPostChain(tmp: array2<real>, p: Params, dsp: Dsp)
      requires ValidDsp(dsp) && tmp.Length0 == 6
      modifies tmp
      ensures Contents(tmp) == PostChain(old(Contents(tmp)), p, dsp)
    {
      ghost var before := Contents(tmp);
      ghost var after := PostChain(before, p, dsp);
      var delayed := dsp.surroundDelay(Stereo(Row(tmp, 4), Row(tmp, 5)));
      assert Row(tmp, 4) == before[4] && Row(tmp, 5) == before[5];
      WriteRow(tmp, 4, delayed.left);
      WriteRow(tmp, 5, delayed.right);
      assert forall ch, j :: 0 <= ch < 6 && ch != 2 && 0 <= j < tmp.Length1 ==> tmp[ch, j] == after[ch][j];
      if p.compAmount > 0.01 {
        assert Row(tmp, 2) == before[2];
        var compressed := dsp.centerCompressor(Row(tmp, 2));
        WriteRow(tmp, 2, compressed);
      }
      ContentsPointwise(tmp, after);
    }

    /** The final mix loop: the bass band goes back onto L/R and, mono and
        scaled by the LFE gain, onto LFE; C/Ls/Rs come from the scratch buffer. */
    method FinalMix(buffer: array2<real>, tmp: array2<real>, lp: Stereo, lfeGain: real)
      requires buffer != tmp && buffer.Length0 >= 6 && tmp.Length0 == 6
      requires Balanced(lp) && |lp.left| == buffer.Length1 == tmp.Length1
      modifies buffer
      ensures Contents(buffer) == Mix(old(Contents(buffer)), Contents(tmp), lp, lfeGain)
    {
      ghost var before := Contents(buffer);
      ghost var post := Contents(tmp);
      ghost var mixed := Mix(before, post, lp, lfeGain);
      assert mixed[0] == AddRows(post[0], lp.left) && mixed[1] == AddRows(post[1], lp.right);
      assert mixed[2] == post[2] && mixed[3] == LfeRow(lp, lfeGain);
      assert mixed[4] == post[4] && mixed[5] == post[5];
      var numSamples := buffer.Length1;
      var n := 0;
      while n < numSamples
        invariant 0 <= n <= numSamples
        invariant forall ch, k :: 0 <= ch < buffer.Length0 && 0 <= k < numSamples ==>
          buffer[ch, k] == if ch < 6 && k < n then mixed[ch][k] else before[ch][k]
      {
        var monoBass := 0.5 * (lp.left[n] + lp.right[n]);
        var column := [tmp[0, n] + lp.left[n], tmp[1, n] + lp.right[n], tmp[2, n],
                       monoBass * lfeGain, tmp[4, n], tmp[5, n]];
        assert post[0][n] == tmp[0, n] && post[1][n] == tmp[1, n] && post[2][n] == tmp[2, n];
        assert post[4][n] == tmp[4, n] && post[5][n] == tmp[5, n];
        assert forall c :: 0 <= c < 6 ==> column[c] == mixed[c][n];
        WriteColumn(buffer, n, column);
        n := n + 1;
      }
      ContentsPointwise(buffer, mixed);
    }

    /** The Downmix branch: C, LFE, Ls, Rs cleared, L/R copied from the raw
        copy of the input. */
    method RenderDownmix(buffer: array2<real>)
      requires buffer.Length0 >= 6
      modifies buffer
      ensures Contents(buffer) == Downmix(old(Contents(buffer)))
    {
      var rawCopy := Contents(buffer);
      ClearChannel(buffer, 2);
      ClearChannel(buffer, 3);
      ClearChannel(buffer, 4);
      ClearChannel(buffer, 5);
      WriteRow(buffer, 0, rawCopy[0]);
      WriteRow(buffer, 1, rawCopy[1]);
      ContentsPointwise(buffer, Downmix(rawCopy));
    }

    /** The decoder the mode selects, writing into the cleared scratch buffer. */
    method Decode(tmp: array2<real>, d: Decoder, hp: Stereo, p: Params, dsp: Dsp)
      requires ValidDsp(dsp) && Balanced(hp)
      requires tmp.Length0 == 6 && tmp.Length1 == |hp.left| && IsCleared(tmp)
      modifies this, tmp
      ensures var r := DecodeWith(d, hp, p, dsp, old(State()));
        Contents(tmp) == r.block && State() == r.state
      ensures Meters() == old(Meters())
    {
      assert hp == Stereo(hp.left, hp.right);
      match d
      case Neo6Decoder => DecodeNeo6(tmp, hp, p, dsp);
      case MatrixDecoder => DecodeMatrix(tmp, hp.left, hp.right, p);
      case TransientDecoder => DecodeTransient(tmp, hp.left, hp.right, p);
      case CoherentDecoder => DecodeCoherent(tmp, hp, p, dsp);
    }

    /** The upmix branch up to the loudness boost: crossover, the decoder
        the mode selects, the post chain and the final mix. */
    method RenderUpmix(buffer: array2<real>, d: Decoder, p: Params, dsp: Dsp)
      requires ValidDsp(dsp) && buffer.Length0 >= 6
      modifies this, buffer
      ensures var r := Pipeline.Upmix(d, old(Contents(buffer)), p, dsp, old(State()));
        Contents(buffer) == r.block && State() == r.state
      ensures Meters() == old(Meters())
    {
      var numSamples := buffer.Length1;
      ghost var input := Contents(buffer);
      ghost var s0 := State();
      var front := Stereo(Row(buffer, 0), Row(buffer, 1));
      assert front == Stereo(input[0], input[1]);
      var lp := dsp.lowPass(front);
      var hp := dsp.highPass(front);
      assert hp == Stereo(hp.left, hp.right);
      ghost var dec := DecodeWith(d, hp, p, dsp, s0);

      var tmp := new real[6, numSamples]((_, _) => 0.0);
      Decode(tmp, d, hp, p, dsp);
      assert Contents(buffer) == input;

      ghost var post := PostChain(dec.block, p, dsp);
      ApplyPostChain(tmp, p, dsp);
      assert Contents(tmp) == post;
      FinalMix(buffer, tmp, lp, p.lfeGain);
      assert Contents(buffer) == Mix(input, post, lp, p.lfeGain);
    }

    /** The rendering part of a block with six or more outputs outside
        pass-through: the downmix or the upmix the mode selects, then the
        loudness boost and the limiter. */
    method RenderAndFinish(buffer: array2<real>, p: Params, dsp: Dsp)
      requires ValidDsp(dsp) && buffer.Length0 >= 6
      modifies this, buffer
      ensures var input := old(Contents(buffer));
        if p.currentMode == ModeDownmix.Ordinal() then
          Contents(buffer) == Finish(Downmix(input), p, dsp) && State() == old(State())
        else
          var r := Pipeline.Upmix(DecoderFor(p.currentMode), input, p, dsp, old(State()));
          Contents(buffer) == Finish(r.block, p, dsp) && State() == r.state
      ensures Meters() == old(Meters())
    {
      if p.currentMode == ModeDownmix.Ordinal() {
        RenderDownmix(buffer);
      } else {
        RenderUpmix(buffer, DecoderFor(p.currentMode), p, dsp);
      }
      FinishBlock(buffer, p, dsp);
    }

    /** The two routes that leave the buffer as it was and only meter it:
        true 5.1 content, and pass-through (whose channel copy is onto
        the same channel). */
    method ProcessUntouched(buffer: array2<real>, hasTrue51Content: bool,
                            numInputChannels: int, numOutputChannels: int, p: Params, dsp: Dsp)
      requires Valid()
      requires BlockCallOk(Contents(buffer), numInputChannels, numOutputChannels, p, dsp)
      requires hasTrue51Content == HasTrue51Content(Contents(buffer), numInputChannels)
      requires var route := RouteBlock(hasTrue51Content, numInputChannels, numOutputChannels, p.currentMode);
        route == True51PassThrough || route == PassThroughMode
      modifies this, buffer
      ensures Valid()
      ensures var o := ProcessBlockOutcome(old(Contents(buffer)), numInputChannels, numOutputChannels,
                                           p, dsp, old(State()));
        && Contents(buffer) == o.buffer && State() == o.state && o.meters == Some(Meters())
    {
      if !(hasTrue51Content && numOutputChannels >= 6) {
        var end := if numInputChannels < numOutputChannels then numInputChannels else numOutputChannels;
        CopyThrough(buffer, end);
      }
      var peaks := MeasurePeaks(buffer);
      PublishMeters(peaks);
    }

    /** A block that reaches the downmix or an upmix decoder: rendering,
        boost and limiter, then the meters. */
    method ProcessRendered(buffer: array2<real>, numInputChannels: int, numOutputChannels: int,
                           p: Params, dsp: Dsp)
      requires ValidState(State())
      requires BlockCallOk(Contents(buffer), numInputChannels, numOutputChannels, p, dsp)
      requires var route := RouteBlock(HasTrue51Content(Contents(buffer), numInputChannels),
                                       numInputChannels, numOutputChannels, p.currentMode);
        route == DirectDownmix || route.Upmix?
      modifies this, buffer
      ensures Valid()
      ensures var o := ProcessBlockOutcome(old(Contents(buffer)), numInputChannels, numOutputChannels,
                                           p, dsp, old(State()));
        && Contents(buffer) == o.buffer && State() == o.state && o.meters == Some(Meters())
    {
      ghost var input := Contents(buffer);
      ghost var s0 := State();
      ghost var o := ProcessBlockOutcome(input, numInputChannels, numOutputChannels, p, dsp, s0);
      ProcessBlockKeepsValidState(input, numInputChannels, numOutputChannels, p, dsp, s0);
      RenderAndFinish(buffer, p, dsp);
      assert Contents(buffer) == o.buffer && State() == o.state;
      var peaks := MeasurePeaks(buffer);
      PublishMeters(peaks);
    }

    /** processBlock: one call of the audio callback. */
    method ProcessBlock(buffer: array2<real>, numInputChannels: int, numOutputChannels: int,
                        p: Params, dsp: Dsp)
      requires Valid()
      requires BlockCallOk(Contents(buffer), numInputChannels, numOutputChannels, p, dsp)
      modifies this, buffer
      ensures Valid()
      ensures var o := ProcessBlockOutcome(old(Contents(buffer)), numInputChannels, numOutputChannels,
                                           p, dsp, old(State()));
        && Contents(buffer) == o.buffer && State() == o.state
        && Meters() == (if o.meters.Some? then o.meters.value else old(Meters()))
    {
      var hasTrue51Content := DetectTrue51Content(buffer, numInputChannels);
      var currentMode := p.currentMode;
      if (hasTrue51Content && numOutputChannels >= 6)
         || currentMode == ModePassThrough.Ordinal()
         || (numInputChannels == 6 && hasTrue51Content && numOutputChannels == 6) {
        ProcessUntouched(buffer, hasTrue51Content, numInputChannels, numOutputChannels, p, dsp);
      } else if numOutputChannels >= 6 {
        ProcessRendered(buffer, numInputChannels, numOutputChannels, p, dsp);
      } else {
        NarrowOutputLeavesEverything(Contents(buffer), numInputChannels, numOutputChannels, p, dsp, State());
      }
    }
  }
}
