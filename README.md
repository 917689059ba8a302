# CoherentUpmix processor core, modelled in Dafny

This project models the audio engine of the CoherentUpmix plugin
(`CoherentUpmixAudioProcessor`), a JUCE effect that turns a stereo signal
into 5.1 (L, R, C, LFE, Ls, Rs). Each call of the audio callback
(`processBlock`) does the following, and the model does the same:

- It runs an RMS test on channels 2..5 to decide whether the input is
  already real 5.1 content. If it is, and the output has at least six
  channels, the buffer passes through untouched and is only metered.
- It handles the "5.1 Pass-Through" mode. There the first
  min(inputs, outputs) channels are each copied onto themselves, and the
  buffer is metered.
- With fewer than six outputs it does nothing at all.
- Otherwise it splits the front pair into a bass band and a treble band
  (the crossover runs in every mode from here on). Then:
  - In Exact Downmix mode, C/LFE/Ls/Rs are cleared and L/R keep the raw,
    unfiltered input. Neither band is used.
  - In every other mode, the treble band is decoded into a six-channel
    scratch buffer by one of four decoders:
    - Coherent;
    - Neo:6, which steers two sub-bands with persistent one-pole steering
      states;
    - Matrix (ProLogic II style);
    - Modern Transient, which uses four persistent envelope followers.

    On this upmix path only, the rear delay and the optional centre
    compressor are applied to the scratch buffer. Then the bass is mixed
    back onto L/R and the mono bass is put onto LFE.
- In both the downmix and the upmix case it applies the optional +6 dB
  boost, then the output limiter.
- It publishes six peak meters.

Modules:

- `AudioBuffers` models the `juce::AudioBuffer` operations the routine
  uses, on a channel-by-sample `array2<real>`.
- `BusLayout` models the accepted bus layouts.
- `Modes` holds the mode enumeration and the routing decision.
- `Decoders` holds the per-sample formulas and the persistent-state
  updates.
- `Pipeline` states what a whole block does, as values, in
  `ProcessBlockOutcome`.
- `Processor` holds the class `CoherentUpmixAudioProcessor`. Its fields
  are the engine state: the six meter values, `steerStateLow`,
  `steerStateHigh` and the four envelope followers. Its methods change the
  buffer and the fields in place, sample loop by sample loop. Each method
  is proved against the `Pipeline` function for its step.
  `ProcessBlock`'s postcondition is that the new buffer, the new state and
  the new meters are exactly those of `ProcessBlockOutcome`.

Samples are mathematical reals. The JUCE DSP stages are opaque functions
in the `Dsp` record:

- the crossover low and high pass;
- the Neo:6 3 kHz split;
- the dialog band-pass;
- the rear delay line;
- the centre compressor;
- the output limiter.

The only thing assumed about these stages is that they keep the number of
samples. The linear LFE gain and the +6 dB boost gain are given reals in
`Params`.

Where the code behaves differently from what its comments and names lead
one to expect, the model follows the code. The statements below hold in
exact arithmetic, which is what the model proves (see the float line under
"## Left out"):

- **Matrix mode and mono input.** One might expect identical L and R to
  leave Ls/Rs near silent. The code adds a 0.3 direct leak of each input
  channel to its surround (Source/PluginProcessor.cpp:301-302). So mono
  input `x` puts `0.384 * surroundBalance * x` on each surround.
  `MatrixMonoLeaksToSurrounds` proves this.
- **Transient mode.** One might expect a step from silence to make the
  transient ratio rise towards 1. In the code, both the fast and the slow
  follower jump to `|x|` as soon as `|x|` exceeds them
  (Source/PluginProcessor.cpp:324-327). From the reset state the fast
  follower therefore never exceeds the slow one, and in exact arithmetic
  the ratio of lines 329-333 is always 0. `FastStaysWithinSlow`, `TransientNeverDetected` and
  `TransientDecodeIsSustainedMix` prove this. The fast-within-slow
  property is part of `ValidState`, which every block keeps. So the
  Transient decoder always produces its fixed "sustained" mix.
- **Neo:6 steering.** One might expect a sustained in-phase (mono) tone
  to drive the steer to +1. In the code, the steering estimate of every
  sample is strictly below 1, because the difference magnitude carries a
  0.0001 epsilon (`TargetSteer`). In detail:
  - For an in-phase pair the estimate grows with the sample's magnitude
    (`InPhaseEstimateAtLeast`). So an in-phase band whose samples all have
    magnitude at least `d` drives the steer up towards the positive value
    `InPhaseEstimate(d)`, where `1.414 d` exceeds the epsilon. The state's
    shortfall below that value shrinks at least by the factor 0.9995 per
    sample (`InPhaseSteersToCentre`), and the state never goes above 1
    (`SteerStaysInRange`).
  - A band whose every sample has the same estimate, such as a DC offset,
    converges geometrically to that estimate by the factor 0.9995 per
    sample (`SteerConvergesGeometrically`).
  - An out-of-phase band (R = −L) has the estimate exactly −1 on every
    sample, silence included. Its steer therefore converges to −1
    (`SteerDirection`, `OutOfPhaseSteersToSurrounds`).

## Model

| member | source | states |
|---|---|---|
| BusLayout.IsBusesLayoutSupported | Source/PluginProcessor.cpp:109-120 | the layout test itself: a disabled bus is refused, then the three pairs are tried in turn (its properties are the four lemmas below) |
| BusLayout.ChannelOrderIrrelevant | Source/PluginProcessor.cpp:115 | channel sets are sets of channel types: stereo's channels listed right-then-left are stereo and accepted |
| BusLayout.SupportedLayouts | Source/PluginProcessor.cpp:109-120 | a layout is accepted exactly when it is stereo→stereo, stereo→5.1 or 5.1→5.1 |
| BusLayout.SupportedChannelCounts | Source/PluginProcessor.cpp:109-120 | an accepted layout has no disabled bus, 2 or 6 channels on each bus, and never fewer outputs than inputs |
| BusLayout.SurroundToStereoRefused | Source/PluginProcessor.cpp:115-119 | 5.1 in, stereo out is refused |
| BusLayout.StereoToStereoHasTwoChannels | Source/PluginProcessor.cpp:115 | stereo→stereo is accepted with only two channels, so it cannot meet pass-through mode's six-channel precondition |
| Modes.ProcessingMode.Ordinal | Source/PluginProcessor.h:17-25 | every mode's number is below 6; the values 0..5 come from the enumeration |
| Modes.ProcessingMode.ChoiceName | Source/PluginProcessor.cpp:38-44 | the choice-list entry that selects a mode (ModeChoices holds the list; ModeNumbering proves each mode's number indexes its own entry) |
| Modes.ModeOfIndex | Source/PluginProcessor.h:17-25 | an integer names a mode exactly when it is in 0..5, and the mode it names has that number |
| Modes.ModeNumbering | Source/PluginProcessor.h:17-25 | mode numbers follow the choice-list order, are distinct, and give back the mode |
| Modes.RouteBlock | Source/PluginProcessor.cpp:149-180 | the true-5.1 return happens exactly when there is content and at least six outputs; downmix and upmix only happen with six or more outputs |
| Modes.PassThroughOnlyInPassThroughMode | Source/PluginProcessor.cpp:149-162 | the pass-through branch is taken exactly in pass-through mode without true-5.1 return; its second disjunct is dead |
| Modes.NarrowOutputIsNoOp | Source/PluginProcessor.cpp:179-180 | outside pass-through mode, fewer than six outputs is exactly the no-op route; with six or more outputs and no true 5.1 content the route is downmix or upmix |
| Modes.DecoderFor | Source/PluginProcessor.cpp:256-351 | the decoder chosen by the mode number (its dispatch is stated by UpmixDecoderDispatch) |
| Modes.UpmixDecoderDispatch | Source/PluginProcessor.cpp:256-351 | the decoder follows the mode number; every other value, including out-of-range ones, falls to Coherent |
| AudioBuffers.Peak | Source/PluginProcessor.cpp:151-156 | the peak magnitude getMagnitude returns, never negative (PeakIsMaximum proves it is the largest sample magnitude) |
| AudioBuffers.SumOfSquares | Source/PluginProcessor.cpp:139 | the sum of squared samples behind getRMSLevel, never negative (EnergyNeedsSignal relates it to the samples) |
| AudioBuffers.MeanSquare | Source/PluginProcessor.cpp:139 | the square of getRMSLevel, 0 for an empty channel, never negative (SilenceHasNoEnergy, EnergyNeedsSignal) |
| AudioBuffers.PeakIsMaximum | Source/PluginProcessor.cpp:414-419 | the peak bounds every sample's magnitude and is attained by a sample |
| AudioBuffers.GetMagnitude | Source/PluginProcessor.cpp:151-156 | the loop returns the channel's peak magnitude |
| AudioBuffers.GetMeanSquareLevel | Source/PluginProcessor.cpp:139 | the loop returns the channel's mean square, the square of its RMS level |
| AudioBuffers.SilenceHasNoEnergy | Source/PluginProcessor.cpp:139 | a silent channel has mean square 0 |
| AudioBuffers.EnergyNeedsSignal | Source/PluginProcessor.cpp:139 | a channel with energy has a non-zero sample |
| AudioBuffers.CopyChannel | Source/PluginProcessor.cpp:166 | copyFrom: the destination channel becomes the source channel, all else is kept |
| AudioBuffers.ClearChannel | Source/PluginProcessor.cpp:221-224 | clear: one channel becomes 0, all else is kept |
| AudioBuffers.WriteRow | Source/PluginProcessor.cpp:228-229 | copy: one channel becomes the given samples, all else is kept |
| AudioBuffers.Scale | Source/PluginProcessor.cpp:407-408 | every sample times the gain, shape kept |
| AudioBuffers.ApplyGain | Source/PluginProcessor.cpp:407-408 | applyGain: the buffer becomes its scaled copy |
| AudioBuffers.WriteBlock | Source/PluginProcessor.cpp:410-412 | the in-place limiter context writes the limited block back |
| Decoders.CoherentFrame | Source/PluginProcessor.cpp:365-376 | front plus surround of each side gives back that side's treble input |
| Decoders.CoherentMirror | Source/PluginProcessor.cpp:365-376 | swapping L and R swaps the outputs |
| Decoders.MatrixFrame | Source/PluginProcessor.cpp:292-309 | the centre is the scaled mid, L − R is kept because both fronts lose the same centre share, and Ls + Rs is the 0.3 direct leak of L + R |
| Decoders.MatrixMonoLeaksToSurrounds | Source/PluginProcessor.cpp:292-309 | mono x: C = 1.414x, Ls = Rs = 0.384·surroundBalance·x, non-zero when both factors are |
| Decoders.MatrixAntiPhaseSilencesCentre | Source/PluginProcessor.cpp:292-309 | out-of-phase input leaves C silent and L/R untouched |
| Decoders.MatrixMirror | Source/PluginProcessor.cpp:292-309 | swapping L and R swaps the outputs |
| Decoders.SurroundGain | Source/PluginProcessor.cpp:251 | the surround gain, 0.8 × surroundBalance (definition) |
| Decoders.FrontWeight | Source/PluginProcessor.cpp:252 | the front weight, 1 − surroundBalance (definition) |
| Decoders.CenterGain | Source/PluginProcessor.cpp:253 | the centre gain, half the front weight (definition) |
| Decoders.DialogBoost | Source/PluginProcessor.cpp:254 | the dialog boost, 2.5 × dialogExtract (definition) |
| Decoders.Follow | Source/PluginProcessor.cpp:321-327 | a follower step keeps followers non-negative and leaves the slow follower at least at the sample's magnitude |
| Decoders.TransientStep | Source/PluginProcessor.cpp:321-327 | both channels' followers take one Follow step (its properties are FollowKeepsFastWithinSlow and EnvelopesStayNonNegative) |
| Decoders.EnvelopesAfter | Source/PluginProcessor.cpp:316-327 | the followers after the first n samples of the block (the state the loop carries) |
| Decoders.Ratio | Source/PluginProcessor.cpp:329-333 | the ratio lies in [0,1], is 0 when fast ≤ slow and 1 when fast − slow ≥ 0.25 |
| Decoders.Weights | Source/PluginProcessor.cpp:335-336 | transient and sustained weights lie in [0,1] and sum to 1 |
| Decoders.EnvelopesStayNonNegative | Source/PluginProcessor.cpp:316-327 | over a block the followers stay non-negative and the slow ones follow each sample's magnitude |
| Decoders.FollowKeepsFastWithinSlow | Source/PluginProcessor.cpp:324-327 | one step keeps the fast follower within the slow one |
| Decoders.FastStaysWithinSlow | Source/PluginProcessor.cpp:316-327 | over a whole block the fast followers never exceed the slow ones |
| Decoders.TransientMix | Source/PluginProcessor.cpp:338-347 | one Transient sample under given weights (its cases are TransientExtremes and SustainedFrame) |
| Decoders.SustainedFrame | Source/PluginProcessor.cpp:338-347 | with both ratios 0, L/R get the front weight and Ls/Rs 1.5·surroundBalance of their channel |
| Decoders.TransientFrame | Source/PluginProcessor.cpp:329-347 | one Transient sample from the advanced followers' weights (TransientNeverDetected and TransientExtremes state its cases) |
| Decoders.TransientNeverDetected | Source/PluginProcessor.cpp:329-347 | with fast within slow both ratios are 0, so the sample decodes as the sustained mix |
| Decoders.TransientExtremes | Source/PluginProcessor.cpp:335-347 | ratio 1 keeps a channel in the front pair; ratio 0 sends the surround-balance share to the surround |
| Decoders.TargetSteer | Source/PluginProcessor.cpp:457-461 | the steering estimate lies in [−1, 1) |
| Decoders.TargetSteerOf | Source/PluginProcessor.cpp:459-461 | the estimate is positive when the sum dominates and negative when the difference does |
| Decoders.SteerStep | Source/PluginProcessor.cpp:463 | the smoothing keeps the state in [−1,1] and shrinks its distance to the estimate by 0.9995 |
| Decoders.SteerAfter | Source/PluginProcessor.cpp:452-464 | the steering state after the first n samples of a band (the by-reference state the loop carries) |
| Decoders.SteerStaysInRange | Source/PluginProcessor.cpp:452-464 | a steering state in [−1,1] stays there over a band |
| Decoders.SteerConvergesGeometrically | Source/PluginProcessor.cpp:452-464 | under a constant estimate t, the state's distance to t is 0.9995ⁿ times its initial distance |
| Decoders.SteerDirection | Source/PluginProcessor.cpp:455-461 | in-phase input above the epsilon gives a positive estimate; out-of-phase input, silence included, gives exactly −1, whichever channel is inverted |
| Decoders.OutOfPhaseSteersToSurrounds | Source/PluginProcessor.cpp:452-464 | on a band with R = −L the steering state's distance to −1 is 0.9995ⁿ times its initial distance |
| Decoders.InPhaseEstimate | Source/PluginProcessor.cpp:457-461 | the estimate of an in-phase pair of magnitude a: in [−1, 1), and positive once 1.414 a exceeds the epsilon |
| Decoders.InPhaseEstimateMonotone | Source/PluginProcessor.cpp:457-461 | a louder in-phase pair never has a smaller estimate |
| Decoders.InPhaseEstimateAtLeast | Source/PluginProcessor.cpp:455-461 | an in-phase sample (R = L) of magnitude at least d has an estimate of at least InPhaseEstimate(d) |
| Decoders.SteerStaysAbove | Source/PluginProcessor.cpp:452-464 | if every estimate of a band is at least t, the state's excess over t is at least 0.9995ⁿ times its initial excess |
| Decoders.InPhaseSteersToCentre | Source/PluginProcessor.cpp:452-464 | on an in-phase band of magnitude at least d, the state rises towards the positive InPhaseEstimate(d): its shortfall is at most 0.9995ⁿ times the initial one |
| Decoders.NeoGains | Source/PluginProcessor.cpp:466-474 | C + S + LR = 1; positive steer gives no surround, other steer gives no centre and S = −steer; all gains are non-negative in range |
| Decoders.Bleed | Source/PluginProcessor.cpp:470-474 | the bleed moves centre gain to the front pair and keeps the total |
| Decoders.NeoContribution | Source/PluginProcessor.cpp:476-480 | one band sample under given gains: fronts by the front gain, mid to C, side with opposite signs to Ls/Rs (NeoMirror states its symmetry) |
| Decoders.NeoFrame | Source/PluginProcessor.cpp:463-480 | one band sample with the gains of the advanced steering state |
| Decoders.NeoMirror | Source/PluginProcessor.cpp:455-481 | swapping L and R keeps the estimate and swaps the outputs |
| Pipeline.ValidState | Source/PluginProcessor.h:96-103 | the engine invariant: steering states in [−1, 1], followers non-negative, each fast one within its slow one (kept by DecodeKeepsValidState and ProcessBlockKeepsValidState) |
| Pipeline.HasTrue51Content | Source/PluginProcessor.cpp:133-145 | the content test: six inputs and a channel 2..5 whose mean square exceeds the squared threshold (its consequences are the two lemmas below) |
| Pipeline.True51NeedsSignal | Source/PluginProcessor.cpp:133-145 | true 5.1 content needs six inputs and a non-zero sample on C, LFE, Ls or Rs |
| Pipeline.SilentSurroundsAreNotTrue51 | Source/PluginProcessor.cpp:133-145 | silence on channels 2..5 is never true 5.1 content |
| Pipeline.FramesBlock | Source/PluginProcessor.cpp:239-248 | decoded frames fill L, R, C, Ls, Rs of the scratch buffer; LFE stays 0 |
| Pipeline.MatrixFrames | Source/PluginProcessor.cpp:292-309 | the Matrix sample loop: one MatrixFrame per sample (DecodeMatrix is proved against it) |
| Pipeline.CoherentFrames | Source/PluginProcessor.cpp:365-376 | the Coherent sample loop: one CoherentFrame per sample (CoherentSplitsEachSide; DecodeCoherent is proved against it) |
| Pipeline.TransientFrames | Source/PluginProcessor.cpp:316-348 | the Transient sample loop: each sample's frame from the followers advanced over it (TransientDecodeIsSustainedMix; TransientLoop is proved against it) |
| Pipeline.NeoFrames | Source/PluginProcessor.cpp:453-481 | one band's Neo:6 loop: each sample's contribution from the steering state advanced over it (ProcessNeo6Band is proved against it) |
| Pipeline.SumFrames | Source/PluginProcessor.cpp:282-285 | the two Neo:6 bands are added sample by sample |
| Pipeline.MonoMid | Source/PluginProcessor.cpp:355-357 | the mono sum fed to the dialog band-pass, as long as the band |
| Pipeline.DecodeWith | Source/PluginProcessor.cpp:256-377 | each decoder yields a six-channel block as long as the input |
| Pipeline.DecodeKeepsValidState | Source/PluginProcessor.cpp:256-349 | every decoder keeps the engine-state invariant |
| Pipeline.DecoderStateFootprint | Source/PluginProcessor.cpp:273-280 | only Neo:6 moves the steering states, each band only its own state, and only Transient moves the followers |
| Pipeline.CoherentSplitsEachSide | Source/PluginProcessor.cpp:365-376 | in the decoded block, front plus surround of each side equals the treble input |
| Pipeline.TransientDecodeIsSustainedMix | Source/PluginProcessor.cpp:316-348 | from any valid state, every Transient-decoded sample is the fixed sustained mix |
| Pipeline.PostChain | Source/PluginProcessor.cpp:379-393 | the rear delay and the optional compressor keep the six-channel shape |
| Pipeline.Mix | Source/PluginProcessor.cpp:395-404 | L/R = scratch + bass, LFE = mono bass × LFE gain, C/Ls/Rs from scratch, channels from 6 on kept |
| Pipeline.AddRows | Source/PluginProcessor.cpp:399-400 | sample-wise sum of two channels |
| Pipeline.LfeRow | Source/PluginProcessor.cpp:397-398 | LFE is the mono bass times the LFE gain |
| Pipeline.Upmix | Source/PluginProcessor.cpp:190-405 | the upmix branch keeps the buffer's shape |
| Pipeline.Downmix | Source/PluginProcessor.cpp:219-230 | C, LFE, Ls, Rs become 0; L, R and channels from 6 on are the raw input |
| Pipeline.Finish | Source/PluginProcessor.cpp:407-412 | the +6 dB gain when the boost is active, then the limiter (FinishBlock computes it in place) |
| Pipeline.PeakMeters | Source/PluginProcessor.cpp:414-419 | the six meters are the peaks of channels 0..5 |
| Pipeline.BlockCallOk | Source/PluginProcessor.cpp:122-176 | processBlock's call conditions: one channel per bus channel, all of one length, and at least six channels in pass-through mode, which meters channels 0..5 unchecked (see Left out) |
| Pipeline.ProcessBlockOutcome | Source/PluginProcessor.cpp:122-420 | a whole block's new buffer, engine state and meters, route by route (its properties are the lemmas below; ProcessBlock computes it) |
| Pipeline.True51PassesThroughUntouched | Source/PluginProcessor.cpp:149-159 | true 5.1 content leaves buffer and state as they were, and the meters bound every sample |
| Pipeline.PassThroughModeUntouched | Source/PluginProcessor.cpp:162-176 | pass-through mode leaves buffer and state as they were and meters the input |
| Pipeline.NarrowOutputLeavesEverything | Source/PluginProcessor.cpp:179-180 | outside pass-through, fewer than six outputs leaves buffer, state and meters as they were |
| Pipeline.DownmixIsolation | Source/PluginProcessor.cpp:219-230 | downmix output, before boost and limiter, is the raw L/R with silent C/LFE/Ls/Rs, and the state does not move |
| Pipeline.ProcessBlockKeepsValidState | Source/PluginProcessor.cpp:122-420 | every block keeps steering in range, followers non-negative and fast within slow |
| Pipeline.MetersNonNegative | Source/PluginProcessor.cpp:414-419 | published meters are six non-negative values |
| Processor.FramesContents | Source/PluginProcessor.cpp:239-248 | a scratch buffer that holds the frames and a silent LFE is FramesBlock of them |
| Processor.FramesWithSilentLfe | Source/PluginProcessor.cpp:239-248 | the same, stated through the buffer's frame sequence |
| Processor.MeasurePeaks | Source/PluginProcessor.cpp:414-419 | the six getMagnitude calls give PeakMeters of the buffer |
| Processor.CopyThrough | Source/PluginProcessor.cpp:165-166 | copying each channel onto itself leaves the buffer as it was |
| Processor.FinishBlock | Source/PluginProcessor.cpp:407-412 | boost (when active) and limiter give Finish of the buffer |
| Processor.SteerGains | Source/PluginProcessor.cpp:466-474 | the imperative gain selection computes NeoGains |
| Processor.SteerEstimate | Source/PluginProcessor.cpp:457-461 | the estimate computed is TargetSteer |
| Processor.Neo6Sample | Source/PluginProcessor.cpp:455-481 | one sample's new steering state and contribution |
| Processor.TransientRatio | Source/PluginProcessor.cpp:329-333 | the clamp sequence computes Ratio |
| Processor.TransientSample | Source/PluginProcessor.cpp:329-347 | one sample's Transient frame from the advanced followers |
| Processor.SetFrameAt | Source/PluginProcessor.cpp:299-308 | one sample's frame written to column n of L, R, C, Ls, Rs; every other column and LFE kept |
| Processor.AddFrameAt | Source/PluginProcessor.cpp:476-480 | one sample's frame added onto column n; every other column and LFE kept |
| Processor.WriteColumn | Source/PluginProcessor.cpp:397-403 | column n of channels 0..5 becomes the mixed sample; everything else kept |
| Processor.AddFrames | Source/PluginProcessor.cpp:282-285 | adds L, R, C, Ls, Rs of one buffer onto another, keeping LFE |
| Processor.CoherentUpmixAudioProcessor.constructor | Source/PluginProcessor.h:64-103 | the meters (h:64-69), the steering states (h:96-97) and the followers (h:100-103) all start at 0, which is a valid state; the DSP members declared between them are the opaque stages |
| Processor.CoherentUpmixAudioProcessor.PrepareToPlay | Source/PluginProcessor.cpp:103-104 | the four followers are reset to 0; steering and meters are kept |
| Processor.CoherentUpmixAudioProcessor.PublishMeters | Source/PluginProcessor.cpp:414-419 | the six meter fields take the given values; the engine state is kept |
| Processor.CoherentUpmixAudioProcessor.DetectTrue51Content | Source/PluginProcessor.cpp:133-145 | the early-exit channel loop computes HasTrue51Content |
| Processor.CoherentUpmixAudioProcessor.ProcessNeo6Band | Source/PluginProcessor.cpp:446-482 | returns SteerAfter of the band, adds NeoFrames onto L, R, C, Ls, Rs, and leaves LFE alone |
| Processor.CoherentUpmixAudioProcessor.ProcessNeo6BandSeparately | Source/PluginProcessor.cpp:276-285 | the high band through its own cleared buffer adds the same as processing it in place |
| Processor.CoherentUpmixAudioProcessor.DecodeNeo6 | Source/PluginProcessor.cpp:256-286 | the scratch buffer and both steering states become the Neo:6 case of DecodeWith |
| Processor.CoherentUpmixAudioProcessor.DecodeMatrix | Source/PluginProcessor.cpp:287-310 | the scratch buffer becomes FramesBlock of MatrixFrames |
| Processor.CoherentUpmixAudioProcessor.FollowEnvelopes | Source/PluginProcessor.cpp:321-327 | the followers take one TransientStep; nothing else moves |
| Processor.CoherentUpmixAudioProcessor.TransientLoop | Source/PluginProcessor.cpp:316-348 | each scratch column holds its TransientFrames entry and the followers end at EnvelopesAfter |
| Processor.CoherentUpmixAudioProcessor.DecodeTransient | Source/PluginProcessor.cpp:311-349 | the scratch buffer and the followers become the Transient case of DecodeWith |
| Processor.CoherentUpmixAudioProcessor.DecodeCoherent | Source/PluginProcessor.cpp:350-377 | the dialog buffer is the mono mid and the scratch buffer becomes FramesBlock of CoherentFrames |
| Processor.CoherentUpmixAudioProcessor.Decode | Source/PluginProcessor.cpp:256-377 | the decoder dispatch yields DecodeWith |
| Processor.CoherentUpmixAudioProcessor.ApplyPostChain | Source/PluginProcessor.cpp:379-393 | the scratch buffer becomes PostChain of itself |
| Processor.CoherentUpmixAudioProcessor.FinalMix | Source/PluginProcessor.cpp:395-404 | the buffer becomes Mix of itself, the post-chain scratch buffer and the bass band |
| Processor.CoherentUpmixAudioProcessor.RenderDownmix | Source/PluginProcessor.cpp:219-230 | the buffer becomes Downmix of itself |
| Processor.CoherentUpmixAudioProcessor.RenderUpmix | Source/PluginProcessor.cpp:190-405 | buffer and state become Pipeline.Upmix of the mode's decoder |
| Processor.CoherentUpmixAudioProcessor.RenderAndFinish | Source/PluginProcessor.cpp:219-412 | downmix or upmix, then boost and limiter |
| Processor.CoherentUpmixAudioProcessor.ProcessUntouched | Source/PluginProcessor.cpp:149-176 | the true-5.1 and pass-through routes realise ProcessBlockOutcome |
| Processor.CoherentUpmixAudioProcessor.ProcessRendered | Source/PluginProcessor.cpp:178-419 | the downmix and upmix routes realise ProcessBlockOutcome and keep the object valid |
| Processor.CoherentUpmixAudioProcessor.ProcessBlock | Source/PluginProcessor.cpp:122-420 | buffer, engine state and meters become exactly ProcessBlockOutcome; meters are untouched on the no-op route; validity is kept |

## Left out

- The JUCE stages are opaque, shape-preserving functions; their
  coefficients and internal state are not modelled. These are the
  Linkwitz-Riley crossover and 3 kHz split, the IIR dialog band-pass, the
  delay line, the compressor and the limiter. In particular:
  - the crossover filters also run, and advance their state, in Downmix
    mode, where their output is discarded;
  - the per-block parameter setting that belongs to these stages is folded
    into them: crossover frequency, delay length (which uses the sample
    rate), compressor threshold and ratio.
- decibelsToGain and pow: the linear LFE gain and the +6 dB gain are given
  reals.
- HasTrue51Content: the test `getRMSLevel > 1e-5` is modelled as
  `mean square > 1e-10`. Both sides are squared because sqrt is not
  modelled. The two tests agree on reals.
- Float rounding, denormals (ScopedNoDenormals) and the 32-bit float
  format: samples are reals, so float rounding is not captured. In
  particular:
  - `FastStaysWithinSlow` and `TransientNeverDetected` hold in exact
    arithmetic. In float32 the slow follower's release at
    Source/PluginProcessor.cpp:325 can round one unit in the last place
    below `|x|`. The fast follower then exceeds it, and the transient ratio
    is a few units in the last place above 0.
  - Likewise, "strictly below 1" for the steering estimate is a statement
    about reals.
- The atomic stores of the meters are plain field writes; the editor
  thread that reads them is not modelled.
- The float-to-int cast of the mode parameter: `currentMode` is an integer
  in `Params`.
- The parameter layout, state save/restore, the editor, and the trivial
  AudioProcessor overrides. These are glue code.
- The per-block allocation of the copy buffers and of the scratch buffer.
  The model allocates the scratch buffers but uses values for the
  lowpass/highpass/raw copies.
- ProcessBlock: it requires a buffer with at least six channels whenever
  the mode is pass-through. The code then meters channels 2..5 without
  checking that they exist. The stereo→stereo layout, which
  isBusesLayoutSupported accepts, cannot meet this precondition
  (`BusLayout.StereoToStereoHasTwoChannels`). For that layout the code
  reads past the last channel, and the model does not cover it.
- releaseResources and the rest of prepareToPlay (filter preparation)
  belong to the opaque stages. Only the envelope reset is modelled.
