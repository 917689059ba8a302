/**
  The per-sample formulas of the four upmix decoders, as functions of the
  treble-band samples, the block's control values and (for Transient and
  Neo6) the persistent state, together with the state updates and the
  bounds they keep.
 */
module Decoders {
  import opened AudioBuffers

  /** A stereo pair of channels. */
  datatype Stereo = Stereo(left: seq<real>, right: seq<real>)

  /** One sample of the five decoded channels L, R, C, Ls, Rs
      (the LFE channel is not written by any decoder). */
  datatype Frame = Frame(l: real, r: real, c: real, ls: real, rs: real)

  /** The control values read once per block. `lfeGain` and `boostGain`
      are the linear gains of the LFE amount and of +6 dB. */
  datatype Params = Params(
    surroundBalance: real,
    dialogExtract: real,
    compAmount: real,
    lfeGain: real,
    boostActive: bool,
    boostGain: real,
    currentMode: int)

  function SurroundGain(p: Params): real { 0.8 * p.surroundBalance }
  function FrontWeight(p: Params): real { 1.0 - p.surroundBalance }
  function CenterGain(p: Params): real { 0.5 * FrontWeight(p) }
  function DialogBoost(p: Params): real { p.dialogExtract * 2.5 }

  /** The left/right mirror image of a frame. */
  function Mirror(f: Frame): Frame { Frame(f.r, f.l, f.c, f.rs, f.ls) }

  function AddFrame(a: Frame, b: Frame): Frame
  {
    Frame(a.l + b.l, a.r + b.r, a.c + b.c, a.ls + b.ls, a.rs + b.rs)
  }

  // ---------------------------------------------------------------- Coherent

  /** Coherent decode of one sample; `d` is the dialog band-pass output. */
  function CoherentFrame(l: real, r: real, d: real, p: Params): (f: Frame)
    ensures f.l + f.ls == l && f.r + f.rs == r
  {
    var monoMid := 0.5 * (l + r);
    Frame(l * FrontWeight(p), r * FrontWeight(p),
          CenterGain(p) * monoMid + d * DialogBoost(p),
          l * p.surroundBalance, r * p.surroundBalance)
  }

  /** Exchanging the input channels exchanges the outputs. */
  lemma CoherentMirror(l: real, r: real, d: real, p: Params)
    ensures CoherentFrame(r, l, d, p) == Mirror(CoherentFrame(l, r, d, p))
  {
  }

  // ---------------------------------------------------------------- Matrix

  const MatrixSurroundBoost: real := 1.6

  /** Matrix (ProLogic II style) decode of one sample: the centre is the
      scaled mid, the same share of it is taken from both fronts, and the
      surround pair sums to the 0.3 direct leak of the two inputs. */
  function MatrixFrame(l: real, r: real, p: Params): (f: Frame)
    ensures f.c == (l + r) * 0.707
    ensures f.l - f.r == l - r
    ensures f.ls + f.rs == (l + r) * 0.3 * SurroundGain(p) * MatrixSurroundBoost
  {
    var centerWidth := 1.0 - p.dialogExtract;
    var sum := (l + r) * 0.707;
    var diff := (l - r) * 0.707;
    var surrL := diff * 0.7 + l * 0.3;
    var surrR := -diff * 0.7 + r * 0.3;
    var subtractionFactor := (1.0 - centerWidth) * 0.8;
    Frame(l - sum * subtractionFactor, r - sum * subtractionFactor, sum,
          surrL * SurroundGain(p) * MatrixSurroundBoost,
          surrR * SurroundGain(p) * MatrixSurroundBoost)
  }

  /** Mono content (identical L and R) does not silence the surrounds:
      the 0.3 direct leakage puts 0.384 * surroundBalance of the sample on
      each of them, and the centre gets 1.414 times the sample. */
  lemma MatrixMonoLeaksToSurrounds(x: real, p: Params)
    ensures MatrixFrame(x, x, p).c == 1.414 * x
    ensures MatrixFrame(x, x, p).ls == MatrixFrame(x, x, p).rs == 0.384 * p.surroundBalance * x
    ensures p.surroundBalance != 0.0 && x != 0.0 ==> MatrixFrame(x, x, p).ls != 0.0
  {
  }

  /** Fully out-of-phase content leaves the centre silent. */
  lemma MatrixAntiPhaseSilencesCentre(x: real, p: Params)
    ensures MatrixFrame(x, -x, p).c == 0.0
    ensures MatrixFrame(x, -x, p).l == x && MatrixFrame(x, -x, p).r == -x
  {
  }

  lemma MatrixMirror(l: real, r: real, p: Params)
    ensures MatrixFrame(r, l, p) == Mirror(MatrixFrame(l, r, p))
  {
  }

  // ---------------------------------------------------------------- Transient

  const FastDecay: real := 0.9
  const SlowRelease: real := 0.999

  /** The fast and the slow envelope follower of one channel. */
  datatype Envelope = Envelope(fast: real, slow: real)

  /** The four envelope followers (fastEnvL/slowEnvL, fastEnvR/slowEnvR). */
  datatype TransientState = TransientState(left: Envelope, right: Envelope)

  predicate NonNegative(e: Envelope) { 0.0 <= e.fast && 0.0 <= e.slow }

  /** One step of both followers of a channel on sample `x`: each rises to
      |x| at once; the fast one otherwise decays by 0.9 and the slow one
      releases towards |x| with coefficient 0.999. */
  function Follow(e: Envelope, x: real): (e': Envelope)
    ensures NonNegative(e) ==> NonNegative(e')
    ensures e'.slow >= Abs(x)
    ensures e'.fast >= Abs(x) || e'.fast == e.fast * FastDecay
  {
    var a := Abs(x);
    Envelope(if a > e.fast then a else e.fast * FastDecay,
             if a > e.slow then a else e.slow * SlowRelease + a * (1.0 - SlowRelease))
  }

  /** The transient ratio of a channel: 4 (fast - slow), clamped to [0, 1]. */
  function Ratio(e: Envelope): (ratio: real)
    ensures 0.0 <= ratio <= 1.0
    ensures e.fast <= e.slow ==> ratio == 0.0
    ensures e.fast - e.slow >= 0.25 ==> ratio == 1.0
  {
    var d := e.fast - e.slow;
    var clampedBelow := if d < 0.0 then 0.0 else d;
    var scaled := clampedBelow * 4.0;
    if scaled > 1.0 then 1.0 else scaled
  }

  /** The transient and sustained weights of a channel: both in [0, 1],
      summing to 1. */
  function Weights(e: Envelope): (w: (real, real))
    ensures 0.0 <= w.0 <= 1.0 && 0.0 <= w.1 <= 1.0
    ensures w.0 + w.1 == 1.0
  {
    (Ratio(e), 1.0 - Ratio(e))
  }

  function TransientStep(s: TransientState, l: real, r: real): TransientState
  {
    TransientState(Follow(s.left, l), Follow(s.right, r))
  }

  /** The followers after the first `n` samples of the block. */
  function EnvelopesAfter(s0: TransientState, hpL: seq<real>, hpR: seq<real>, n: nat): TransientState
    requires n <= |hpL| && n <= |hpR|
    decreases n
  {
    if n == 0 then s0 else TransientStep(EnvelopesAfter(s0, hpL, hpR, n - 1), hpL[n - 1], hpR[n - 1])
  }

  /** Transient decode of one sample with the followers `s` already
      advanced over that sample. */
  function TransientFrame(s: TransientState, l: real, r: real, p: Params): Frame
  {
    TransientMix(l, r, Weights(s.left), Weights(s.right), p)
  }

  /** The transient mix of one sample, given each side's (transient,
      sustained) weights. */
  function TransientMix(l: real, r: real, weightsL: (real, real), weightsR: (real, real), p: Params): Frame
  {
    var (transWeightL, susWeightL) := weightsL;
    var (transWeightR, susWeightR) := weightsR;
    var monoSum := (l + r) * 0.5;
    var c0 := monoSum * ((susWeightL + susWeightR) * 0.5) * CenterGain(p);
    var c := if p.dialogExtract > 0.0 then c0 + monoSum * p.dialogExtract else c0;
    Frame(l * (transWeightL + susWeightL * FrontWeight(p)),
          r * (transWeightR + susWeightR * FrontWeight(p)),
          c,
          l * susWeightL * p.surroundBalance * 1.5,
          r * susWeightR * p.surroundBalance * 1.5)
  }

  predicate StateNonNegative(s: TransientState)
  {
    NonNegative(s.left) && NonNegative(s.right)
  }

  /** Followers that start non-negative stay non-negative over a block, and
      after each sample the slow followers are at least that sample's
      magnitude. */
  lemma {:induction false} EnvelopesStayNonNegative(s0: TransientState, hpL: seq<real>, hpR: seq<real>, n: nat)
    requires n <= |hpL| && n <= |hpR|
    requires StateNonNegative(s0)
    ensures StateNonNegative(EnvelopesAfter(s0, hpL, hpR, n))
    ensures n > 0 ==> (EnvelopesAfter(s0, hpL, hpR, n).left.slow >= Abs(hpL[n - 1])
                       && EnvelopesAfter(s0, hpL, hpR, n).right.slow >= Abs(hpR[n - 1]))
    decreases n
  {
    if n > 0 {
      EnvelopesStayNonNegative(s0, hpL, hpR, n - 1);
    }
  }

  /** The fast follower of each channel is not above its slow follower. */
  predicate FastWithinSlow(s: TransientState)
  {
    s.left.fast <= s.left.slow && s.right.fast <= s.right.slow
  }

  /** One follower step keeps the fast follower within the slow one: both
      attack instantly, and otherwise the fast one decays faster. */
  lemma FollowKeepsFastWithinSlow(e: Envelope, x: real)
    requires NonNegative(e) && e.fast <= e.slow
    ensures Follow(e, x).fast <= Follow(e, x).slow
  {
    var a := Abs(x);
    if a <= e.fast {
      MulMonotone(e.slow, e.fast, FastDecay);
    }
  }

  /** Over a block, followers that start with the fast one within the slow
      one (as the reset state does) keep it so. */
  lemma {:induction false} FastStaysWithinSlow(s0: TransientState, hpL: seq<real>, hpR: seq<real>, n: nat)
    requires n <= |hpL| && n <= |hpR|
    requires StateNonNegative(s0) && FastWithinSlow(s0)
    ensures FastWithinSlow(EnvelopesAfter(s0, hpL, hpR, n))
    decreases n
  {
    if n > 0 {
      var prev := EnvelopesAfter(s0, hpL, hpR, n - 1);
      FastStaysWithinSlow(s0, hpL, hpR, n - 1);
      EnvelopesStayNonNegative(s0, hpL, hpR, n - 1);
      FollowKeepsFastWithinSlow(prev.left, hpL[n - 1]);
      FollowKeepsFastWithinSlow(prev.right, hpR[n - 1]);
    }
  }

  /** The mix of a fully sustained sample (both ratios 0). */
  function SustainedFrame(l: real, r: real, p: Params): (f: Frame)
    ensures f.l == l * FrontWeight(p) && f.r == r * FrontWeight(p)
    ensures f.ls == l * p.surroundBalance * 1.5 && f.rs == r * p.surroundBalance * 1.5
  {
    TransientMix(l, r, (0.0, 1.0), (0.0, 1.0), p)
  }

  /** With the fast followers within the slow ones both ratios are 0, so
      a sample decodes as the fixed sustained mix: no transient is ever
      detected. */
  lemma TransientNeverDetected(s: TransientState, l: real, r: real, p: Params)
    requires FastWithinSlow(s)
    ensures Ratio(s.left) == 0.0 && Ratio(s.right) == 0.0
    ensures TransientFrame(s, l, r, p) == SustainedFrame(l, r, p)
  {
  }

  /** In transient mode a sustained (ratio 0) sample keeps the
      surround-balance share of each channel in the surrounds, and a fully
      transient (ratio 1) one stays entirely in the front pair. */
  lemma TransientExtremes(s: TransientState, l: real, r: real, p: Params)
    ensures Ratio(s.left) == 1.0 ==> TransientFrame(s, l, r, p).l == l && TransientFrame(s, l, r, p).ls == 0.0
    ensures Ratio(s.left) == 0.0 ==> (TransientFrame(s, l, r, p).l == l * FrontWeight(p)
                                      && TransientFrame(s, l, r, p).ls == l * p.surroundBalance * 1.5)
  {
  }

  // ---------------------------------------------------------------- Neo6

  const SteerAlpha: real := 0.9995
  const SteerEpsilon: real := 0.0001

  /** The instantaneous steering estimate of a sample: in [-1, 1) because
      the difference magnitude carries an additive epsilon. */
  function TargetSteer(l: real, r: real): (t: real)
    ensures -1.0 <= t < 1.0
  {
    var sum := (l + r) * 0.707;
    var diff := (l - r) * 0.707;
    var absSum := Abs(sum);
    var absDiff := Abs(diff) + SteerEpsilon;
    TargetSteerOf(absSum, absDiff)
  }

  function TargetSteerOf(absSum: real, absDiff: real): (t: real)
    requires 0.0 <= absSum && 0.0 < absDiff
    ensures -1.0 <= t < 1.0
    ensures absSum > absDiff ==> t > 0.0
    ensures absSum < absDiff ==> t < 0.0
  {
    QuotientBounds(absSum, absDiff);
    (absSum - absDiff) / (absSum + absDiff)
  }

  lemma QuotientBounds(absSum: real, absDiff: real)
    requires 0.0 <= absSum && 0.0 < absDiff
    ensures var q := (absSum - absDiff) / (absSum + absDiff);
      -1.0 <= q < 1.0 && (absSum > absDiff ==> q > 0.0) && (absSum < absDiff ==> q < 0.0)
  {
    var total := absSum + absDiff;
    var q := (absSum - absDiff) / total;
    assert q * total == absSum - absDiff;
    if q >= 1.0 { MulMonotone(q, 1.0, total); }
    if q < -1.0 { MulMonotone(-1.0, q, total); }
    if absSum > absDiff && q <= 0.0 { MulMonotone(0.0, q, total); }
    if absSum < absDiff && q >= 0.0 { MulMonotone(q, 0.0, total); }
  }

  lemma BleedBounded(c: real, centerWidth: real)
    requires 0.0 < c
    ensures centerWidth <= 1.0 ==> c * centerWidth <= c
    ensures 0.0 < centerWidth ==> 0.0 < c * centerWidth
  {
    if centerWidth <= 1.0 { MulMonotone(1.0, centerWidth, c); }
  }

  lemma MulAssociates(a: real, b: real, c: real)
    ensures a * (b * c) == (a * b) * c
  {
  }

  lemma MulMonotone(a: real, b: real, c: real)
    requires a >= b && c > 0.0
    ensures a * c >= b * c
  {
  }

  /** The one-pole smoothing of the steering state. */
  function SteerStep(steer: real, l: real, r: real): (s': real)
    ensures -1.0 <= steer <= 1.0 ==> -1.0 <= s' <= 1.0
    ensures s' - TargetSteer(l, r) == SteerAlpha * (steer - TargetSteer(l, r))
  {
    steer * SteerAlpha + TargetSteer(l, r) * (1.0 - SteerAlpha)
  }

  /** The steering state after the first `n` samples of a band. */
  function SteerAfter(s0: real, inL: seq<real>, inR: seq<real>, n: nat): real
    requires n <= |inL| && n <= |inR|
    decreases n
  {
    if n == 0 then s0 else SteerStep(SteerAfter(s0, inL, inR, n - 1), inL[n - 1], inR[n - 1])
  }

  /** A steering state that starts in [-1, 1] stays there. */
  lemma {:induction false} SteerStaysInRange(s0: real, inL: seq<real>, inR: seq<real>, n: nat)
    requires n <= |inL| && n <= |inR|
    requires -1.0 <= s0 <= 1.0
    ensures -1.0 <= SteerAfter(s0, inL, inR, n) <= 1.0
    decreases n
  {
    if n > 0 {
      SteerStaysInRange(s0, inL, inR, n - 1);
    }
  }

  function Power(x: real, n: nat): real
    decreases n
  {
    if n == 0 then 1.0 else x * Power(x, n - 1)
  }

  /** On a band whose every sample has the same steering estimate `t`
      (samples of constant magnitude and phase relation, such as a DC
      offset, or any out-of-phase signal), the distance of the steering
      state to `t` shrinks by the factor 0.9995 per sample. */
  lemma {:induction false} SteerConvergesGeometrically(s0: real, inL: seq<real>, inR: seq<real>, t: real, n: nat)
    requires n <= |inL| && n <= |inR|
    requires forall i :: 0 <= i < n ==> TargetSteer(inL[i], inR[i]) == t
    ensures SteerAfter(s0, inL, inR, n) - t == Power(SteerAlpha, n) * (s0 - t)
    decreases n
  {
    if n > 0 {
      SteerConvergesGeometrically(s0, inL, inR, t, n - 1);
      var prev := SteerAfter(s0, inL, inR, n - 1);
      var pw := Power(SteerAlpha, n - 1);
      assert prev - t == pw * (s0 - t);
      assert SteerAfter(s0, inL, inR, n) - t == SteerAlpha * (prev - t);
      MulAssociates(SteerAlpha, pw, s0 - t);
    }
  }

  /** In-phase content steers towards the centre: identical L and R louder
      than the epsilon give a positive estimate. An out-of-phase pair,
      silence included, has no mid at all and gives exactly -1. */
  lemma SteerDirection(x: real)
    ensures Abs(x) * 1.414 > SteerEpsilon ==> TargetSteer(x, x) > 0.0
    ensures TargetSteer(x, -x) == -1.0
    ensures TargetSteer(x, -x) == TargetSteer(-x, x)
  {
    assert Abs((x + x) * 0.707) == Abs(x) * 1.414;
    assert Abs((x - x) * 0.707) == 0.0;
    assert Abs((x + -x) * 0.707) == 0.0;
    assert Abs((x - -x) * 0.707) == Abs(x) * 1.414;
    assert Abs((-x - x) * 0.707) == Abs(x) * 1.414;
    assert Abs((-x + x) * 0.707) == 0.0;
  }

  /** An out-of-phase band (R = -L on every sample) drives the steering
      state towards -1, its distance shrinking by 0.9995 per sample. */
  lemma OutOfPhaseSteersToSurrounds(s0: real, inL: seq<real>, inR: seq<real>, n: nat)
    requires n <= |inL| && n <= |inR|
    requires forall i :: 0 <= i < n ==> inR[i] == -inL[i]
    ensures SteerAfter(s0, inL, inR, n) + 1.0 == Power(SteerAlpha, n) * (s0 + 1.0)
  {
    forall i | 0 <= i < n
      ensures TargetSteer(inL[i], inR[i]) == -1.0
    {
      SteerDirection(inL[i]);
    }
    SteerConvergesGeometrically(s0, inL, inR, -1.0, n);
  }

  /** The estimate of an in-phase pair of magnitude `a` (the mid is 1.414 a,
      the side only the epsilon), as a function of `a`. */
  function InPhaseEstimate(a: real): (t: real)
    requires 0.0 <= a
    ensures -1.0 <= t < 1.0
    ensures a * 1.414 > SteerEpsilon ==> t > 0.0
  {
    TargetSteerOf(a * 1.414, SteerEpsilon)
  }

  /** A louder in-phase pair has a larger estimate. */
  lemma InPhaseEstimateMonotone(a: real, b: real)
    requires 0.0 <= b <= a
    ensures InPhaseEstimate(b) <= InPhaseEstimate(a)
  {
    var A, B, e := a * 1.414, b * 1.414, SteerEpsilon;
    assert B <= A;
    assert (A - e) * (B + e) - (B - e) * (A + e) == 2.0 * e * (A - B);
    assert (B - e) * (A + e) <= (A - e) * (B + e);
    QuotientMonotone(A - e, A + e, B - e, B + e);
  }

  lemma QuotientMonotone(p: real, q: real, p': real, q': real)
    requires 0.0 < q && 0.0 < q' && p' * q <= p * q'
    ensures p' / q' <= p / q
  {
    assert p' / q' == (p' * q) / (q * q');
    assert p / q == (p * q') / (q * q');
  }

  /** Every in-phase sample (R = L) of magnitude at least `d` has an
      estimate of at least InPhaseEstimate(d), which is positive once
      1.414 d exceeds the epsilon. */
  lemma InPhaseEstimateAtLeast(x: real, d: real)
    requires 0.0 <= d <= Abs(x)
    ensures TargetSteer(x, x) == InPhaseEstimate(Abs(x))
    ensures InPhaseEstimate(d) <= TargetSteer(x, x)
    ensures d * 1.414 > SteerEpsilon ==> InPhaseEstimate(d) > 0.0
  {
    assert Abs((x + x) * 0.707) == Abs(x) * 1.414;
    assert Abs((x - x) * 0.707) == 0.0;
    InPhaseEstimateMonotone(Abs(x), d);
  }

  /** On a band whose every estimate is at least `t`, the steering state's
      excess over `t` is at least 0.9995^n times its initial excess: the
      state rises towards `t` or above it at that rate. */
  lemma {:induction false} SteerStaysAbove(s0: real, inL: seq<real>, inR: seq<real>, t: real, n: nat)
    requires n <= |inL| && n <= |inR|
    requires forall i :: 0 <= i < n ==> TargetSteer(inL[i], inR[i]) >= t
    ensures SteerAfter(s0, inL, inR, n) - t >= Power(SteerAlpha, n) * (s0 - t)
    decreases n
  {
    if n > 0 {
      SteerStaysAbove(s0, inL, inR, t, n - 1);
      var prev := SteerAfter(s0, inL, inR, n - 1);
      var target := TargetSteer(inL[n - 1], inR[n - 1]);
      var pw := Power(SteerAlpha, n - 1);
      assert SteerAfter(s0, inL, inR, n) - t
          == SteerAlpha * (prev - t) + (1.0 - SteerAlpha) * (target - t);
      assert (1.0 - SteerAlpha) * (target - t) >= 0.0;
      assert SteerAlpha * (prev - t) >= SteerAlpha * (pw * (s0 - t));
      MulAssociates(SteerAlpha, pw, s0 - t);
    }
  }

  /** An in-phase band (R = L) whose samples all have magnitude at least
      `d` drives the steering state up towards the centre: the state's
      excess over InPhaseEstimate(d) is at least 0.9995^n times its initial
      excess, so it ends above any value below that estimate after enough
      samples, and (by SteerStaysInRange) never above 1. */
  lemma InPhaseSteersToCentre(s0: real, inL: seq<real>, inR: seq<real>, d: real, n: nat)
    requires n <= |inL| && n <= |inR| && 0.0 <= d
    requires forall i :: 0 <= i < n ==> inR[i] == inL[i] && Abs(inL[i]) >= d
    ensures d * 1.414 > SteerEpsilon ==> InPhaseEstimate(d) > 0.0
    ensures SteerAfter(s0, inL, inR, n) - InPhaseEstimate(d)
         >= Power(SteerAlpha, n) * (s0 - InPhaseEstimate(d))
  {
    forall i | 0 <= i < n
      ensures TargetSteer(inL[i], inR[i]) >= InPhaseEstimate(d)
    {
      InPhaseEstimateAtLeast(inL[i], d);
    }
    SteerStaysAbove(s0, inL, inR, InPhaseEstimate(d), n);
  }

  /** The centre, surround and front gains of a steering value. */
  datatype Gains = Gains(c: real, s: real, lr: real)

  /** A positive steer routes to the centre, a negative one to the
      surrounds; the centre width then bleeds part of the centre gain back
      to the front pair. */
  function NeoGains(smoothSteer: real, centerWidth: real): (g: Gains)
    ensures g.c + g.s + g.lr == 1.0
    ensures smoothSteer > 0.0 ==> g.s == 0.0 && g.c + g.lr == 1.0
    ensures smoothSteer <= 0.0 ==> g.c == 0.0 && g.s + g.lr == 1.0 && g.s == -smoothSteer
    ensures -1.0 <= smoothSteer <= 1.0 && 0.0 <= centerWidth <= 1.0 ==>
      0.0 <= g.c && 0.0 <= g.s && 0.0 <= g.lr
  {
    var g0 := if smoothSteer > 0.0 then Gains(smoothSteer, 0.0, 1.0 - smoothSteer)
              else Gains(0.0, -smoothSteer, 1.0 - -smoothSteer);
    if centerWidth > 0.0 && g0.c > 0.0 then Bleed(g0, centerWidth) else g0
  }

  /** The centre-width bleed: the fraction centerWidth of the centre gain
      moves to the front pair, so the total gain is kept. */
  function Bleed(g: Gains, centerWidth: real): (b: Gains)
    requires 0.0 < g.c && 0.0 < centerWidth
    ensures b.s == g.s && b.c + b.lr == g.c + g.lr
    ensures b.c < g.c && b.lr > g.lr
    ensures centerWidth <= 1.0 ==> 0.0 <= b.c
  {
    var bleed := g.c * centerWidth;
    BleedBounded(g.c, centerWidth);
    Gains(g.c - bleed, g.s, g.lr + bleed)
  }

  /** The contribution of one band sample with the steering state already
      advanced over that sample. */
  function NeoFrame(steer: real, l: real, r: real, surroundGain: real, centerWidth: real): Frame
  {
    NeoContribution(l, r, NeoGains(steer, centerWidth), surroundGain)
  }

  /** The contribution of one band sample under the gains `g`: front pair
      scaled by the front gain, the mid to the centre, the side with
      opposite signs to the surrounds. */
  function NeoContribution(l: real, r: real, g: Gains, surroundGain: real): Frame
  {
    var sum := (l + r) * 0.707;
    var diff := (l - r) * 0.707;
    Frame(l * g.lr, r * g.lr, sum * g.c, diff * g.s * surroundGain, -diff * g.s * surroundGain)
  }

  lemma NeoMirror(steer: real, l: real, r: real, surroundGain: real, centerWidth: real)
    ensures TargetSteer(r, l) == TargetSteer(l, r)
    ensures NeoFrame(steer, r, l, surroundGain, centerWidth)
         == Mirror(NeoFrame(steer, l, r, surroundGain, centerWidth))
  {
    assert Abs((r - l) * 0.707) == Abs((l - r) * 0.707);
  }
}
