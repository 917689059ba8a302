/**
  The multichannel sample buffer the processor works on (juce::AudioBuffer),
  as a channel-by-sample `array2<real>`, together with the buffer-level
  operations the block routine uses: reading a channel, copying a channel
  onto another, clearing, applying a gain, and the two level measurements
  (mean square for the content test, peak magnitude for the meters).
 */
module AudioBuffers {

  /** A whole block as values: one sequence of samples per channel. */
  type Block = seq<seq<real>>

  function Abs(x: real): real { if x < 0.0 then -x else x }

  function MaxReal(a: real, b: real): real { if a < b then b else a }

  /** Every channel of `b` has `samples` samples and there are `channels` of them. */
  ghost predicate IsShape(b: Block, channels: nat, samples: nat)
  {
    |b| == channels && forall ch :: 0 <= ch < |b| ==> |b[ch]| == samples
  }

  /** The samples of channel `ch` (a read pointer), as a value. */
  function Row(a: array2<real>, ch: nat): (s: seq<real>)
    requires ch < a.Length0
    reads a
    ensures |s| == a.Length1
    ensures forall j :: 0 <= j < a.Length1 ==> s[j] == a[ch, j]
  {
    seq(a.Length1, j requires 0 <= j < a.Length1 reads a => a[ch, j])
  }

  /** The whole buffer as a value (what juce::AudioBuffer::makeCopyOf takes). */
  function Contents(a: array2<real>): (b: Block)
    reads a
    ensures |b| == a.Length0
    ensures forall ch :: 0 <= ch < a.Length0 ==> b[ch] == Row(a, ch)
  {
    seq(a.Length0, ch requires 0 <= ch < a.Length0 reads a => Row(a, ch))
  }

  /** Two buffers agree as values when they agree sample by sample. */
  lemma ContentsPointwise(a: array2<real>, b: Block)
    requires IsShape(b, a.Length0, a.Length1)
    requires forall ch, j :: 0 <= ch < a.Length0 && 0 <= j < a.Length1 ==> a[ch, j] == b[ch][j]
    ensures Contents(a) == b
  {
    forall ch | 0 <= ch < a.Length0
      ensures Contents(a)[ch] == b[ch]
    {
      assert Row(a, ch) == b[ch];
    }
  }

  /** Peak magnitude of a channel: the largest absolute sample, 0 for no samples. */
  function Peak(s: seq<real>): (m: real)
    ensures 0.0 <= m
    decreases |s|
  {
    if |s| == 0 then 0.0 else MaxReal(Peak(s[..|s| - 1]), Abs(s[|s| - 1]))
  }

  /** The peak bounds every sample's magnitude and is attained by one of them. */
  lemma {:induction false} PeakIsMaximum(s: seq<real>)
    ensures forall i :: 0 <= i < |s| ==> Abs(s[i]) <= Peak(s)
    ensures |s| > 0 ==> exists i :: 0 <= i < |s| && Abs(s[i]) == Peak(s)
    decreases |s|
  {
    if |s| > 0 {
      var p := s[..|s| - 1];
      PeakIsMaximum(p);
      assert forall i :: 0 <= i < |p| ==> s[i] == p[i];
      if |p| > 0 && Peak(p) >= Abs(s[|s| - 1]) {
        var i :| 0 <= i < |p| && Abs(p[i]) == Peak(p);
        assert Abs(s[i]) == Peak(s);
      }
    }
  }

  /** Sum of the squared samples of a channel. */
  function SumOfSquares(s: seq<real>): (t: real)
    ensures 0.0 <= t
    decreases |s|
  {
    if |s| == 0 then 0.0 else SumOfSquares(s[..|s| - 1]) + s[|s| - 1] * s[|s| - 1]
  }

  /** Mean square level of a channel, 0 for no samples (the square of getRMSLevel). */
  function MeanSquare(s: seq<real>): (ms: real)
    ensures 0.0 <= ms
  {
    if |s| == 0 then 0.0 else SumOfSquares(s) / (|s| as real)
  }

  /** A channel of digital silence has no energy. */
  lemma {:induction false} SilenceHasNoEnergy(s: seq<real>)
    requires forall i :: 0 <= i < |s| ==> s[i] == 0.0
    ensures SumOfSquares(s) == 0.0
    ensures MeanSquare(s) == 0.0
    decreases |s|
  {
    if |s| > 0 {
      SilenceHasNoEnergy(s[..|s| - 1]);
    }
  }

  /** A channel with energy has a non-zero sample. */
  lemma {:induction false} EnergyNeedsSignal(s: seq<real>)
    requires SumOfSquares(s) > 0.0
    ensures exists i :: 0 <= i < |s| && s[i] != 0.0
    decreases |s|
  {
    if |s| > 0 && s[|s| - 1] == 0.0 {
      var p := s[..|s| - 1];
      assert SumOfSquares(s) == SumOfSquares(p);
      EnergyNeedsSignal(p);
      var i :| 0 <= i < |p| && p[i] != 0.0;
      assert s[i] == p[i];
    }
  }

  /** buffer.getMagnitude (ch, 0, numSamples): the peak magnitude of one channel. */
  method GetMagnitude(a: array2<real>, ch: nat) returns (m: real)
    requires ch < a.Length0
    ensures m == Peak(Row(a, ch))
  {
    ghost var s := Row(a, ch);
    m := 0.0;
    var j := 0;
    while j < a.Length1
      invariant 0 <= j <= a.Length1
      invariant m == Peak(s[..j])
    {
      assert s[..j + 1][..j] == s[..j];
      m := MaxReal(m, Abs(a[ch, j]));
      j := j + 1;
    }
    assert s[..a.Length1] == s;
  }

  /** The square of buffer.getRMSLevel (ch, 0, numSamples). */
  method GetMeanSquareLevel(a: array2<real>, ch: nat) returns (ms: real)
    requires ch < a.Length0
    ensures ms == MeanSquare(Row(a, ch))
  {
    ghost var s := Row(a, ch);
    if a.Length1 == 0 {
      return 0.0;
    }
    var sum := 0.0;
    var j := 0;
    while j < a.Length1
      invariant 0 <= j <= a.Length1
      invariant sum == SumOfSquares(s[..j])
    {
      assert s[..j + 1][..j] == s[..j];
      sum := sum + a[ch, j] * a[ch, j];
      j := j + 1;
    }
    assert s[..a.Length1] == s;
    ms := sum / (a.Length1 as real);
  }

  /** buffer.copyFrom (dst, 0, buffer, src, 0, numSamples). */
  method CopyChannel(a: array2<real>, dst: nat, src: nat)
    requires dst < a.Length0 && src < a.Length0
    modifies a
    ensures forall ch, j :: 0 <= ch < a.Length0 && 0 <= j < a.Length1 ==>
      a[ch, j] == if ch == dst then old(a[src, j]) else old(a[ch, j])
  {
    var j := 0;
    while j < a.Length1
      invariant 0 <= j <= a.Length1
      invariant forall ch, k :: 0 <= ch < a.Length0 && 0 <= k < a.Length1 ==>
        a[ch, k] == if ch == dst && k < j then old(a[src, k]) else old(a[ch, k])
    {
      a[dst, j] := a[src, j];
      j := j + 1;
    }
  }

  /** FloatVectorOperations::clear on one channel. */
  method ClearChannel(a: array2<real>, c: nat)
    requires c < a.Length0
    modifies a
    ensures forall ch, j :: 0 <= ch < a.Length0 && 0 <= j < a.Length1 ==>
      a[ch, j] == if ch == c then 0.0 else old(a[ch, j])
  {
    var j := 0;
    while j < a.Length1
      invariant 0 <= j <= a.Length1
      invariant forall ch, k :: 0 <= ch < a.Length0 && 0 <= k < a.Length1 ==>
        a[ch, k] == if ch == c && k < j then 0.0 else old(a[ch, k])
    {
      a[c, j] := 0.0;
      j := j + 1;
    }
  }

  /** Every sample of `b` multiplied by `g`. */
  function Scale(b: Block, g: real): (r: Block)
    ensures |r| == |b|
    ensures forall ch :: 0 <= ch < |b| ==> |r[ch]| == |b[ch]|
    ensures forall ch, j :: 0 <= ch < |b| && 0 <= j < |b[ch]| ==> r[ch][j] == b[ch][j] * g
  {
    seq(|b|, ch requires 0 <= ch < |b| => seq(|b[ch]|, j requires 0 <= j < |b[ch]| => b[ch][j] * g))
  }

  /** buffer.applyGain (g): every sample of every channel scaled by `g`. */
  method ApplyGain(a: array2<real>, g: real)
    modifies a
    ensures Contents(a) == Scale(old(Contents(a)), g)
  {
    ghost var before := Contents(a);
    var ch := 0;
    while ch < a.Length0
      invariant 0 <= ch <= a.Length0
      invariant forall c, k :: 0 <= c < a.Length0 && 0 <= k < a.Length1 ==>
        a[c, k] == if c < ch then before[c][k] * g else before[c][k]
    {
      var j := 0;
      while j < a.Length1
        invariant 0 <= j <= a.Length1
        invariant forall c, k :: 0 <= c < a.Length0 && 0 <= k < a.Length1 ==>
          a[c, k] == if c < ch || (c == ch && k < j) then before[c][k] * g else before[c][k]
      {
        a[ch, j] := a[ch, j] * g;
        j := j + 1;
      }
      ch := ch + 1;
    }
    ContentsPointwise(a, Scale(before, g));
  }

  /** Overwrites the buffer with a block of the same shape
      (an in-place processing context writing its result back). */
  method WriteBlock(a: array2<real>, b: Block)
    requires IsShape(b, a.Length0, a.Length1)
    modifies a
    ensures Contents(a) == b
  {
    var ch := 0;
    while ch < a.Length0
      invariant 0 <= ch <= a.Length0
      invariant forall c, k :: 0 <= c < ch && 0 <= k < a.Length1 ==> a[c, k] == b[c][k]
    {
      var j := 0;
      while j < a.Length1
        invariant 0 <= j <= a.Length1
        invariant forall c, k :: 0 <= c < ch && 0 <= k < a.Length1 ==> a[c, k] == b[c][k]
        invariant forall k :: 0 <= k < j ==> a[ch, k] == b[ch][k]
      {
        a[ch, j] := b[ch][j];
        j := j + 1;
      }
      ch := ch + 1;
    }
    ContentsPointwise(a, b);
  }

  /** Overwrites one channel with `s` (FloatVectorOperations::copy). */
  method WriteRow(a: array2<real>, c: nat, s: seq<real>)
    requires c < a.Length0 && |s| == a.Length1
    modifies a
    ensures forall ch, j :: 0 <= ch < a.Length0 && 0 <= j < a.Length1 ==>
      a[ch, j] == if ch == c then s[j] else old(a[ch, j])
  {
    var j := 0;
    while j < a.Length1
      invariant 0 <= j <= a.Length1
      invariant forall ch, k :: 0 <= ch < a.Length0 && 0 <= k < a.Length1 ==>
        a[ch, k] == if ch == c && k < j then s[k] else old(a[ch, k])
    {
      a[c, j] := s[j];
      j := j + 1;
    }
  }
}
