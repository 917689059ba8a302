/**
  The bus-layout contract of the processor: which main input / main output
  channel sets it accepts. A channel set is the set of its speaker
  positions (a bitmask of channel types), so it has no order and no
  repeats, and two channel sets are equal when they hold the same types.
 */
module BusLayout {

  datatype ChannelType =
    | Left | Right | Centre | LFE | LeftSurround | RightSurround
    | LeftCentre | RightCentre | CentreSurround | LeftSurroundRear | RightSurroundRear
    | Discrete(index: nat)

  /** An audio channel set; the empty set is a disabled bus. */
  datatype ChannelSet = ChannelSet(channels: set<ChannelType>) {
    predicate IsDisabled() { |channels| == 0 }
    function Size(): nat { |channels| }
  }

  function StereoSet(): ChannelSet { ChannelSet({Left, Right}) }

  function Surround51Set(): ChannelSet
  {
    ChannelSet({Left, Right, Centre, LFE, LeftSurround, RightSurround})
  }

  /** isBusesLayoutSupported: a disabled bus is refused, then the three
      accepted pairs are tried in turn, and everything else is refused. */
  predicate IsBusesLayoutSupported(input: ChannelSet, output: ChannelSet)
  {
    if input.IsDisabled() || output.IsDisabled() then false
    else if input == StereoSet() && output == StereoSet() then true
    else if input == StereoSet() && output == Surround51Set() then true
    else if input == Surround51Set() && output == Surround51Set() then true
    else false
  }

  /** Exactly stereo to stereo, stereo to 5.1 and 5.1 to 5.1 are accepted. */
  lemma SupportedLayouts(input: ChannelSet, output: ChannelSet)
    ensures IsBusesLayoutSupported(input, output) <==>
      (input, output) in {(StereoSet(), StereoSet()), (StereoSet(), Surround51Set()),
                          (Surround51Set(), Surround51Set())}
  {
  }

  /** An accepted layout has 2 or 6 inputs, 2 or 6 outputs, never fewer
      outputs than inputs, and no disabled bus. */
  lemma SupportedChannelCounts(input: ChannelSet, output: ChannelSet)
    requires IsBusesLayoutSupported(input, output)
    ensures !input.IsDisabled() && !output.IsDisabled()
    ensures input.Size() in {2, 6} && output.Size() in {2, 6}
    ensures input.Size() <= output.Size()
  {
  }

  /** 5.1 in, stereo out (a downmix layout) is refused. */
  lemma SurroundToStereoRefused()
    ensures !IsBusesLayoutSupported(Surround51Set(), StereoSet())
  {
  }

  /** Stereo to stereo is accepted although it has fewer than six channels
      on either bus. */
  lemma StereoToStereoHasTwoChannels()
    ensures IsBusesLayoutSupported(StereoSet(), StereoSet())
    ensures StereoSet().Size() == 2
  {
  }

  /** The channel set is a set: listing stereo's channels the other way
      round gives stereo, which is accepted. */
  lemma ChannelOrderIrrelevant()
    ensures ChannelSet({Right, Left}) == StereoSet()
    ensures IsBusesLayoutSupported(ChannelSet({Right, Left}), StereoSet())
  {
  }
}
