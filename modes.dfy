/**
  The processing modes and the routing decision taken at the top of every
  block: true-5.1 pass-through, pass-through mode, the silent no-op of a
  layout with fewer than six outputs, the direct downmix, or one of the
  upmix decoders.
 */
module Modes {

  /** The processing-mode enumeration; its numbering is the order of the
      "Algorithm Mode" choice list. */
  datatype ProcessingMode =
    | ModeCoherent | ModeNeo6 | ModeProLogicII | ModeTransient | ModeDownmix | ModePassThrough
  {
    function Ordinal(): (i: nat)
      ensures i < 6
    {
      match this
      case ModeCoherent => 0
      case ModeNeo6 => 1
      case ModeProLogicII => 2
      case ModeTransient => 3
      case ModeDownmix => 4
      case ModePassThrough => 5
    }

    /** The entry of the choice list this mode is selected by. */
    function ChoiceName(): string
    {
      match this
      case ModeCoherent => "Coherent Upmix"
      case ModeNeo6 => "Neo:6 Mode"
      case ModeProLogicII => "Matrix Mode (PLII)"
      case ModeTransient => "Modern Transient"
      case ModeDownmix => "Exact Downmix"
      case ModePassThrough => "5.1 Pass-Through"
    }
  }

  /** The "Algorithm Mode" choice list, in the order the parameter offers it. */
  const ModeChoices: seq<string> :=
    ["Coherent Upmix", "Neo:6 Mode", "Matrix Mode (PLII)", "Modern Transient",
     "Exact Downmix", "5.1 Pass-Through"]

  /** The mode an integer parameter value names, if any. */
  function ModeOfIndex(i: int): (m: Option<ProcessingMode>)
    ensures m.Some? <==> 0 <= i < 6
    ensures m.Some? ==> m.value.Ordinal() == i
  {
    if i == 0 then Some(ModeCoherent)
    else if i == 1 then Some(ModeNeo6)
    else if i == 2 then Some(ModeProLogicII)
    else if i == 3 then Some(ModeTransient)
    else if i == 4 then Some(ModeDownmix)
    else if i == 5 then Some(ModePassThrough)
    else None
  }

  datatype Option<T> = None | Some(value: T)

  /** Mode numbers are 0..5 in choice-list order, each mode has its own
      number, and the number gives back the mode. */
  lemma ModeNumbering(m: ProcessingMode, m': ProcessingMode)
    ensures ModeChoices[m.Ordinal()] == m.ChoiceName()
    ensures m.Ordinal() == m'.Ordinal() ==> m == m'
    ensures ModeOfIndex(m.Ordinal()) == Some(m)
  {
  }

  /** The four upmix decoders that fill the six-channel scratch buffer. */
  datatype Decoder = Neo6Decoder | MatrixDecoder | TransientDecoder | CoherentDecoder

  /** The five outcomes of the routing decision. */
  datatype Route =
    | True51PassThrough   // real content on C/LFE/Ls/Rs: meters only
    | PassThroughMode     // pass-through mode: self copy, meters only
    | OutputTooNarrow     // fewer than six outputs: nothing happens
    | DirectDownmix       // Downmix mode
    | Upmix(decoder: Decoder)

  /** The decoder dispatch of the upmix branch: any mode number other than
      Neo6, ProLogicII and Transient falls to the Coherent decoder. */
  function DecoderFor(currentMode: int): Decoder
  {
    if currentMode == ModeNeo6.Ordinal() then Neo6Decoder
    else if currentMode == ModeProLogicII.Ordinal() then MatrixDecoder
    else if currentMode == ModeTransient.Ordinal() then TransientDecoder
    else CoherentDecoder
  }

  /** The routing decision of processBlock, with its conditions in the order
      the block routine tests them (including the second disjunct of the
      pass-through test). */
  function RouteBlock(hasTrue51Content: bool, numInputChannels: int, numOutputChannels: int,
                      currentMode: int): (r: Route)
    ensures r == True51PassThrough <==> hasTrue51Content && numOutputChannels >= 6
    ensures r.Upmix? || r == DirectDownmix ==> numOutputChannels >= 6
  {
    if hasTrue51Content && numOutputChannels >= 6 then True51PassThrough
    else if currentMode == ModePassThrough.Ordinal()
         || (numInputChannels == 6 && hasTrue51Content && numOutputChannels == 6) then PassThroughMode
    else if numOutputChannels < 6 then OutputTooNarrow
    else if currentMode == ModeDownmix.Ordinal() then DirectDownmix
    else Upmix(DecoderFor(currentMode))
  }

  /** The pass-through branch is reached only in pass-through mode: its
      second disjunct implies the true-5.1 condition that returned first. */
  lemma PassThroughOnlyInPassThroughMode(hasTrue51Content: bool, numInputChannels: int,
                                         numOutputChannels: int, currentMode: int)
    ensures RouteBlock(hasTrue51Content, numInputChannels, numOutputChannels, currentMode) == PassThroughMode
      <==> currentMode == ModePassThrough.Ordinal() && !(hasTrue51Content && numOutputChannels >= 6)
  {
  }

  /** Outside pass-through, fewer than six outputs is a no-op, and six or
      more outputs is always a downmix or an upmix. */
  lemma NarrowOutputIsNoOp(hasTrue51Content: bool, numInputChannels: int,
                           numOutputChannels: int, currentMode: int)
    requires currentMode != ModePassThrough.Ordinal()
    ensures var r := RouteBlock(hasTrue51Content, numInputChannels, numOutputChannels, currentMode);
      (r == OutputTooNarrow <==> numOutputChannels < 6)
      && (numOutputChannels >= 6 && !hasTrue51Content ==> r == DirectDownmix || r.Upmix?)
  {
  }

  /** The upmix decoder follows the mode number; every value outside
      Neo6, ProLogicII, Transient (including out-of-range numbers) decodes
      as Coherent. */
  lemma UpmixDecoderDispatch(hasTrue51Content: bool, numInputChannels: int,
                             numOutputChannels: int, currentMode: int)
    requires RouteBlock(hasTrue51Content, numInputChannels, numOutputChannels, currentMode).Upmix?
    ensures var d := RouteBlock(hasTrue51Content, numInputChannels, numOutputChannels, currentMode).decoder;
      && (d == Neo6Decoder <==> currentMode == 1)
      && (d == MatrixDecoder <==> currentMode == 2)
      && (d == TransientDecoder <==> currentMode == 3)
      && (d == CoherentDecoder <==> currentMode !in {1, 2, 3})
      && currentMode != 4 && currentMode != 5
  {
  }
}
