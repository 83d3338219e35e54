/**
 * The single-file React front end: its own text conversion, bit count,
 * per-character state snapshots, inline character group and `drawPulse`.
 * Its CMI update is "negate, then add one".
 */
module ReactApp {
  import opened LineCode
  import opened Base2
  import opened StateFold
  import EncodingUtils

  /** The inline `textToBinary`. */
  function TextToBinary(text: seq<CodeUnit>): (r: seq<BinaryUnit>)
    ensures |r| == |text|
    ensures forall i :: 0 <= i < |r| ==>
      r[i].character == text[i] && r[i].ascii == text[i] &&
      |r[i].binary| >= BitsPerChar && FromBase2(r[i].binary) == text[i]
  {
    assert forall i :: 0 <= i < |text| ==> FromBase2(PadStart(ToBase2(text[i]), 8)) == text[i] by {
      forall i | 0 <= i < |text| ensures FromBase2(PadStart(ToBase2(text[i]), 8)) == text[i] {
        PaddedRoundTrip(text[i], 8);
      }
    }
    seq(|text|, i requires 0 <= i < |text| =>
      BinaryUnit(text[i], text[i], PadStart(ToBase2(text[i]), 8)))
  }

  /** `totalBits`: eight bits per character, whatever the binary strings' lengths. */
  function TotalBits(units: seq<BinaryUnit>): nat {
    |units| * 8
  }

  /** The bit count shown equals the bits actually drawn exactly when every code unit is below 256. */
  lemma TotalBitsMatchesStream(text: seq<CodeUnit>)
    ensures var units := TextToBinary(text);
      TotalBits(units) <= |Concat(BinariesOf(units))|
    ensures var units := TextToBinary(text);
      TotalBits(units) == |Concat(BinariesOf(units))| <==> forall i :: 0 <= i < |text| ==> text[i] < 256
  {
    var units := TextToBinary(text);
    var bins := BinariesOf(units);
    ConcatLength(bins);
    forall i | 0 <= i < |text|
      ensures |bins[i]| == BitsPerChar <==> text[i] < 256
    {
      assert units[i] == EncodingUtils.CharToBinary(text[i]);
    }
  }

  /** `getEncodingStates`. */
  function GetEncodingStates(units: seq<BinaryUnit>, enc: Encoding): (r: seq<State>)
    ensures |r| == |units|
    ensures |r| > 0 ==> r[0] == EncodingUtils.Start
    ensures forall i :: 0 <= i < |r| - 1 ==> r[i + 1] == Fold(OneMinus, enc, r[i], units[i].binary)
    ensures forall i :: 0 <= i < |r| ==>
      EncodingUtils.SnapshotShape(enc, r[i], EncodingUtils.OnesBefore(units, i))
  {
    var bins := BinariesOf(units);
    var r := Snapshots(OneMinus, enc, bins, EncodingUtils.Start);
    assert forall i :: 0 <= i < |r| ==> EncodingUtils.SnapshotShape(enc, r[i], Ones(Concat(bins[..i]))) by {
      forall i | 0 <= i < |r| ensures EncodingUtils.SnapshotShape(enc, r[i], Ones(Concat(bins[..i]))) {
        EncodingUtils.SnapshotClosedForm(OneMinus, enc, bins, i);
      }
    }
    r
  }

  /** The inline `CharacterGroup`'s per-bit records. */
  function InlineCharacterGroup(binaryString: string, charIndex: nat, enc: Encoding,
                                amiStartPolarity: int, cmiStartState: int): (r: seq<BitState>)
    ensures |r| == |binaryString|
    ensures forall k :: 0 <= k < |r| ==>
      r[k].bit == binaryString[k] && r[k].globalIndex == charIndex * 8 + k
    ensures |r| > 0 ==> r[0].state == State(amiStartPolarity, cmiStartState)
    ensures forall k :: 0 <= k < |r| - 1 ==> r[k + 1].state == Step(OneMinus, enc, r[k].state, binaryString[k])
  {
    Annotate(OneMinus, enc, binaryString, charIndex * 8, State(amiStartPolarity, cmiStartState))
  }

  /**
   * The state after a character's last bit, as the inline group advances
   * it, is the snapshot `getEncodingStates` hands to the next character.
   */
  lemma GroupHandsOverState(units: seq<BinaryUnit>, enc: Encoding, i: nat)
    requires i + 1 < |units| && |units[i].binary| > 0
    ensures var states := GetEncodingStates(units, enc);
      var b := units[i].binary;
      var r := InlineCharacterGroup(b, i, enc, states[i].amiPolarity, states[i].cmiState);
      Step(OneMinus, enc, r[|r| - 1].state, b[|b| - 1]) == states[i + 1]
  {
    var states := GetEncodingStates(units, enc);
    AnnotateFinal(OneMinus, enc, units[i].binary, i * 8, states[i]);
  }

  /** `drawPulse`: every mid-bit vertical spans the whole box height. */
  function DrawPulse(enc: Encoding, value: char, polarity: int, state: int): (p: Pulse)
    ensures enc == Unknown <==> p == NoPulse
    ensures enc != Unknown ==> Tiles(p.segments)
    ensures forall i :: 0 <= i < |p.transitions| ==> p.transitions[i] == Transition(Center, 0, 100)
    ensures enc == NRZ ==> StartVoltage(p) == EndVoltage(p) == Some(if value == '0' then 1 else -1)
    ensures enc == RZ ==> StartVoltage(p) == Some(if value == '0' then 1 else -1) && EndVoltage(p) == Some(0)
    ensures enc == Manchester ==>
      StartVoltage(p) == Some(if value == '1' then 1 else -1) && EndVoltage(p) == Some(if value == '1' then -1 else 1)
    ensures enc == AMI ==> StartVoltage(p) == EndVoltage(p) == Some(if value == '1' then polarity else 0)
    ensures enc == CMI && value == '1' ==> StartVoltage(p) == EndVoltage(p) == Some(state)
    ensures enc == CMI && value != '1' ==> StartVoltage(p) == Some(0) && EndVoltage(p) == Some(1)
    ensures enc == Manchester || enc == RZ || (enc == CMI && value != '1') ==>
      |p.segments| == 2 && p.segments[0].right == 50 && |p.transitions| == 1
    ensures enc == NRZ || enc == AMI || (enc == CMI && value == '1') ==>
      |p.segments| == 1 && p.transitions == []
  {
    var full := [Transition(Center, 0, 100)];
    match enc
    case NRZ =>
      Pulse([Segment(0, 100, if value == '0' then 1 else -1)], [])
    case RZ =>
      Pulse([Segment(0, 50, if value == '0' then 1 else -1), Segment(50, 100, 0)], full)
    case Manchester =>
      if value == '1' then Pulse([Segment(0, 50, 1), Segment(50, 100, -1)], full)
      else Pulse([Segment(0, 50, -1), Segment(50, 100, 1)], full)
    case AMI =>
      Pulse([Segment(0, 100, if value == '1' then polarity else 0)], [])
    case CMI =>
      if value == '1' then Pulse([Segment(0, 100, state)], [])
      else Pulse([Segment(0, 50, 0), Segment(50, 100, 1)], full)
    case Unknown =>
      NoPulse
  }

  /** The `BitBox`es of one character group. */
  function GroupPulses(enc: Encoding, bits: seq<BitState>): (r: seq<Pulse>)
    ensures |r| == |bits|
    ensures enc == Unknown ==> forall k :: 0 <= k < |r| ==> r[k] == NoPulse
    ensures enc != Unknown ==> forall k :: 0 <= k < |r| ==> Tiles(r[k].segments)
    ensures forall k :: 0 <= k < |r| ==>
      r[k] == DrawPulse(enc, bits[k].bit, bits[k].state.amiPolarity, bits[k].state.cmiState)
  {
    seq(|bits|, k requires 0 <= k < |bits| =>
      DrawPulse(enc, bits[k].bit, bits[k].state.amiPolarity, bits[k].state.cmiState))
  }

  /**
   * The pulses the inline `CharacterGroup` draws for one character: bit `k`
   * is drawn from the group's starting state folded over the bits before it.
   */
  function CharacterPulses(enc: Encoding, binaryString: string, charIndex: nat, s: State): (r: seq<Pulse>)
    ensures |r| == |binaryString|
    ensures forall k :: 0 <= k < |r| ==>
      var t := Fold(OneMinus, enc, s, binaryString[..k]);
      r[k] == DrawPulse(enc, binaryString[k], t.amiPolarity, t.cmiState)
  {
    var bits := InlineCharacterGroup(binaryString, charIndex, enc, s.amiPolarity, s.cmiState);
    forall k | 0 <= k < |binaryString|
      ensures bits[k].state == Fold(OneMinus, enc, s, binaryString[..k])
    {
      AnnotateAsFold(OneMinus, enc, binaryString, charIndex * 8, State(s.amiPolarity, s.cmiState), k);
    }
    GroupPulses(enc, bits)
  }

  /** The whole visualisation: for each character, the pulse of each of its bits. */
  function Render(text: seq<CodeUnit>, enc: Encoding): (groups: seq<seq<Pulse>>)
    ensures |groups| == |text|
    ensures forall i :: 0 <= i < |text| ==> |groups[i]| == |EncodingUtils.CharToBinary(text[i]).binary| >= BitsPerChar
    ensures forall i :: 0 <= i < |text| ==> |groups[i]| == |TextToBinary(text)[i].binary|
    ensures var units := TextToBinary(text);
      var states := GetEncodingStates(units, enc);
      forall i, k :: 0 <= i < |text| && 0 <= k < |units[i].binary| ==>
        var s := Fold(OneMinus, enc, states[i], units[i].binary[..k]);
        groups[i][k] == DrawPulse(enc, units[i].binary[k], s.amiPolarity, s.cmiState)
  {
    var units := TextToBinary(text);
    var states := GetEncodingStates(units, enc);
    forall i | 0 <= i < |text| ensures units[i].binary == EncodingUtils.CharToBinary(text[i]).binary {
      EncodingUtils.CharToBinaryPads(text[i]);
    }
    seq(|text|, i requires 0 <= i < |text| => CharacterPulses(enc, units[i].binary, i, states[i]))
  }
}
