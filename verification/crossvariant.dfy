/**
 * Where the three implementations of the engine agree and where they do
 * not: the component-based React front end (`EncodingUtils`, `BitBox`,
 * `CharacterGroup`), the single-file React front end (`ReactApp`) and the
 * plain-DOM front end (`PlainApp`).
 */
module CrossVariant {
  import opened LineCode
  import opened StateFold
  import EncodingUtils
  import BitBox
  import CharacterGroup
  import ReactApp
  import PlainApp

  // ---------------------------------------------------------------------
  // Text to binary and the per-character snapshots.

  /** Both React conversions produce the same records. */
  lemma TextConversionsAgree(text: seq<CodeUnit>)
    ensures ReactApp.TextToBinary(text) == EncodingUtils.TextToBinary(text)
  {
    var a, b := ReactApp.TextToBinary(text), EncodingUtils.TextToBinary(text);
    assert forall i :: 0 <= i < |text| ==> a[i] == b[i];
  }

  /**
   * "Negate, then add one" and "0 to 1, else 0" are different updates, but
   * from CMI state 0 they produce the same snapshots for every input.
   */
  lemma StateSnapshotsAgree(units: seq<BinaryUnit>, enc: Encoding)
    ensures ReactApp.GetEncodingStates(units, enc) == EncodingUtils.CalculateEncodingStates(units, enc)
  {
    var bins := BinariesOf(units);
    var a := ReactApp.GetEncodingStates(units, enc);
    var b := EncodingUtils.CalculateEncodingStates(units, enc);
    forall i | 0 <= i < |units|
      ensures a[i] == b[i]
    {
      SnapshotsAsFold(OneMinus, enc, bins, EncodingUtils.Start, i);
      SnapshotsAsFold(Toggle, enc, bins, EncodingUtils.Start, i);
      FoldToggleRulesAgree(enc, EncodingUtils.Start, Concat(bins[..i]));
    }
  }

  /** The update rules differ outside {0, 1}: the single-file one is not a toggle there. */
  lemma ToggleRulesDifferOutsideZeroOne()
    ensures CmiNext(OneMinus, -1) == 2 && CmiNext(Toggle, -1) == 0
  {
  }

  /** The plain-DOM loop's state is the negating fold of the joined stream from (+1, +1). */
  lemma PlainStateIsNegatingFold(enc: Encoding, bits: string, i: nat)
    requires i < |bits|
    ensures PlainApp.StateAt(enc, bits, i) == Annotate(Negate, enc, bits, 0, PlainApp.Start)[i].state
  {
    AnnotateAsFold(Negate, enc, bits, 0, PlainApp.Start, i);
    if Stateless(enc) {
      FoldStateless(Negate, enc, PlainApp.Start, bits[..i]);
    } else if enc == AMI {
      FoldAmi(Negate, 1, 1, bits[..i]);
    } else {
      FoldCmiNegate(1, 1, bits[..i]);
    }
  }

  // ---------------------------------------------------------------------
  // AMI polarity along the whole stream.

  lemma {:induction false} ConcatAppend(a: seq<string>, b: seq<string>)
    ensures Concat(a + b) == Concat(a) + Concat(b)
    decreases |b|
  {
    if b == [] {
      assert a + b == a;
    } else {
      var n := |b| - 1;
      assert (a + b)[..|a + b| - 1] == a + b[..n];
      ConcatAppend(a, b[..n]);
    }
  }

  /** Bit `k` of character `i` is bit `|Concat(bins[..i])| + k` of the joined stream. */
  lemma StreamPosition(bins: seq<string>, i: nat, k: nat)
    requires i < |bins| && k <= |bins[i]|
    ensures var off := |Concat(bins[..i])|;
      off + k <= |Concat(bins)| && Concat(bins)[..off + k] == Concat(bins[..i]) + bins[i][..k]
  {
    assert bins == bins[..i + 1] + bins[i + 1..];
    ConcatAppend(bins[..i + 1], bins[i + 1..]);
    ConcatPrefixStep(bins, i);
    var c := Concat(bins[..i]);
    assert Concat(bins) == c + bins[i] + Concat(bins[i + 1..]);
    assert (c + bins[i] + Concat(bins[i + 1..]))[..|c| + k] == c + bins[i][..k];
  }

  /**
   * Whatever CMI rule a front end uses within a character, a group started
   * with the polarity (-1)^(ones in the earlier characters) records for bit
   * `k` of character `i` the polarity (-1)^(ones before that bit in the
   * joined stream).
   */
  lemma AmiPolarityWithinCharacter(rule: CmiRule, bins: seq<string>, i: nat, k: nat, base: int, s: State)
    requires i < |bins| && k < |bins[i]|
    requires s.amiPolarity == Sign(Ones(Concat(bins[..i])))
    ensures |Concat(bins[..i])| + k < |Concat(bins)|
    ensures Annotate(rule, AMI, bins[i], base, s)[k].state.amiPolarity ==
      Sign(Ones(Concat(bins)[..|Concat(bins[..i])| + k]))
  {
    var c := Concat(bins[..i]);
    var pre := bins[i][..k];
    StreamPosition(bins, i, k + 1);
    StreamPosition(bins, i, k);
    assert Concat(bins)[..|c| + k] == c + pre;
    OnesAppend(c, pre);
    SignAdd(Ones(c), Ones(pre));
    AnnotateAsFold(rule, AMI, bins[i], base, s, k);
    FoldAmi(rule, s.amiPolarity, s.cmiState, pre);
  }

  /**
   * Under AMI all three front ends give every bit of the stream the same
   * polarity: the plain-DOM loop at stream position `|Concat(bins[..i])| + k`,
   * the component-based and the single-file React groups at bit `k` of
   * character `i`.
   */
  lemma AmiPolarityAgrees(units: seq<BinaryUnit>, i: nat, k: nat)
    requires i < |units| && k < |units[i].binary|
    ensures |Concat(BinariesOf(units)[..i])| + k < |Concat(BinariesOf(units))|
    ensures var bins := BinariesOf(units);
      var s := EncodingUtils.CalculateEncodingStates(units, AMI)[i];
      CharacterGroup.ProcessBits(bins[i], i, AMI, s.amiPolarity, s.cmiState)[k].state.amiPolarity
        == PlainApp.StateAt(AMI, Concat(bins), |Concat(bins[..i])| + k).amiPolarity
    ensures var bins := BinariesOf(units);
      var s := ReactApp.GetEncodingStates(units, AMI)[i];
      ReactApp.InlineCharacterGroup(bins[i], i, AMI, s.amiPolarity, s.cmiState)[k].state.amiPolarity
        == PlainApp.StateAt(AMI, Concat(bins), |Concat(bins[..i])| + k).amiPolarity
  {
    ComponentAmiPolarity(units, i, k);
    InlineAmiPolarity(units, i, k);
  }

  lemma ComponentAmiPolarity(units: seq<BinaryUnit>, i: nat, k: nat)
    requires i < |units| && k < |units[i].binary|
    ensures |Concat(BinariesOf(units)[..i])| + k < |Concat(BinariesOf(units))|
    ensures var bins := BinariesOf(units);
      var s := EncodingUtils.CalculateEncodingStates(units, AMI)[i];
      CharacterGroup.ProcessBits(bins[i], i, AMI, s.amiPolarity, s.cmiState)[k].state.amiPolarity
        == PlainApp.StateAt(AMI, Concat(bins), |Concat(bins[..i])| + k).amiPolarity
  {
    var bins := BinariesOf(units);
    var s := EncodingUtils.CalculateEncodingStates(units, AMI)[i];
    var t := State(s.amiPolarity, s.cmiState);
    assert CharacterGroup.ProcessBits(bins[i], i, AMI, s.amiPolarity, s.cmiState)
      == Annotate(ThreeCycle, AMI, bins[i], i * BitsPerChar, t);
    AmiPolarityWithinCharacter(ThreeCycle, bins, i, k, i * BitsPerChar, t);
  }

  lemma InlineAmiPolarity(units: seq<BinaryUnit>, i: nat, k: nat)
    requires i < |units| && k < |units[i].binary|
    ensures |Concat(BinariesOf(units)[..i])| + k < |Concat(BinariesOf(units))|
    ensures var bins := BinariesOf(units);
      var s := ReactApp.GetEncodingStates(units, AMI)[i];
      ReactApp.InlineCharacterGroup(bins[i], i, AMI, s.amiPolarity, s.cmiState)[k].state.amiPolarity
        == PlainApp.StateAt(AMI, Concat(bins), |Concat(bins[..i])| + k).amiPolarity
  {
    var bins := BinariesOf(units);
    var s := ReactApp.GetEncodingStates(units, AMI)[i];
    var t := State(s.amiPolarity, s.cmiState);
    assert ReactApp.InlineCharacterGroup(bins[i], i, AMI, s.amiPolarity, s.cmiState)
      == Annotate(OneMinus, AMI, bins[i], i * 8, t);
    AmiPolarityWithinCharacter(OneMinus, bins, i, k, i * 8, t);
  }

  // ---------------------------------------------------------------------
  // The drawings.

  /** The single-file `drawPulse` draws the same runs as `generatePulse`, but every mid-bit marker spans the full box. */
  lemma DrawPulseMatchesGeneratePulse(enc: Encoding, bit: char, polarity: int, state: int)
    requires IsBit(bit)
    ensures var p := ReactApp.DrawPulse(enc, bit, polarity, state);
      var q := BitBox.GeneratePulse(enc, bit, polarity, state);
      && p.segments == q.segments
      && |p.transitions| == |q.transitions|
      && (HasCenterMarker(p) <==> HasCenterMarker(q))
  {
    var p := ReactApp.DrawPulse(enc, bit, polarity, state);
    var q := BitBox.GeneratePulse(enc, bit, polarity, state);
    if |q.transitions| == 1 {
      assert p.transitions[0].at == Center && q.transitions[0].at == Center;
    }
  }

  /** Only the marker heights differ: RZ's half-height marker, for one, is drawn full height by `drawPulse`. */
  lemma DrawPulseMarkerHeightDiffers()
    ensures BitBox.GeneratePulse(RZ, '1', 1, 0).transitions == [Transition(Center, 50, 75)]
    ensures ReactApp.DrawPulse(RZ, '1', 1, 0).transitions == [Transition(Center, 0, 100)]
  {
  }

  /** For characters other than '0' and '1' the two NRZ drawings part: `drawPulse` tests for '0', `generatePulse` for '1'. */
  lemma NrzOtherCharsDiffer()
    ensures ReactApp.DrawPulse(NRZ, 'x', 1, 0).segments[0].voltage == -1
    ensures BitBox.GeneratePulse(NRZ, 'x', 1, 0).segments[0].voltage == 1
  {
  }

  /** NRZ: the plain-DOM front end draws every bit at the opposite level. */
  lemma NrzInverted(bit: char, s: State)
    requires IsBit(bit)
    ensures var p := PlainApp.DrawPulseLines(bit, NRZ, s);
      var q := BitBox.GeneratePulse(NRZ, bit, s.amiPolarity, s.cmiState);
      |p.segments| == |q.segments| == 1 && p.segments[0].voltage == -q.segments[0].voltage
  {
  }

  /** RZ: the pulse half is inverted, the return-to-zero half agrees. */
  lemma RzPulseHalfInverted(bit: char, s: State)
    requires IsBit(bit)
    ensures var p := PlainApp.DrawPulseLines(bit, RZ, s);
      var q := BitBox.GeneratePulse(RZ, bit, s.amiPolarity, s.cmiState);
      && |p.segments| == |q.segments| == 2
      && p.segments[0].voltage == -q.segments[0].voltage
      && p.segments[1] == q.segments[1] == Segment(50, 100, 0)
  {
  }

  /** Manchester and AMI: all three front ends draw the same runs. */
  lemma ManchesterAndAmiAgree(enc: Encoding, bit: char, s: State)
    requires enc == Manchester || enc == AMI
    ensures PlainApp.DrawPulseLines(bit, enc, s).segments ==
      BitBox.GeneratePulse(enc, bit, s.amiPolarity, s.cmiState).segments
  {
  }

  /**
   * CMI: a '1' is drawn at the level passed in by both, but a '0' is +1 then
   * -1 in the plain-DOM front end and 0 then +1 in the bit box.
   */
  lemma CmiDrawingsCompared(s: State)
    ensures PlainApp.DrawPulseLines('1', CMI, s).segments ==
      BitBox.GeneratePulse(CMI, '1', s.amiPolarity, s.cmiState).segments
    ensures PlainApp.DrawPulseLines('0', CMI, s).segments == [Segment(0, 50, 1), Segment(50, 100, -1)]
    ensures BitBox.GeneratePulse(CMI, '0', s.amiPolarity, s.cmiState).segments == [Segment(0, 50, 0), Segment(50, 100, 1)]
  {
  }

  /** CMI: the first '1' of a stream is drawn at +1 by the plain-DOM front end and at 0 by the React ones. */
  lemma CmiFirstOneDiffers()
    ensures PlainApp.DrawPulseLines('1', CMI, PlainApp.Start).segments == [Segment(0, 100, 1)]
    ensures BitBox.GeneratePulse(CMI, '1', EncodingUtils.Start.amiPolarity, EncodingUtils.Start.cmiState).segments
      == [Segment(0, 100, 0)]
  {
  }

  /** No front end draws anything for an unknown encoding. */
  lemma UnknownDrawsNothing(bit: char, s: State)
    ensures PlainApp.DrawPulseLines(bit, Unknown, s) == NoPulse
    ensures ReactApp.DrawPulse(Unknown, bit, s.amiPolarity, s.cmiState) == NoPulse
    ensures BitBox.GeneratePulse(Unknown, bit, s.amiPolarity, s.cmiState) == NoPulse
  {
  }
}
