/**
 * The plain-DOM front end: converts the text to binary strings, joins them
 * into one bit stream and draws each bit with the state before its own
 * update. Both its AMI polarity and its CMI level start at +1 and are
 * negated on a '1'.
 */
module PlainApp {
  import opened LineCode
  import opened Base2
  import opened StateFold
  import EncodingUtils

  /** The state the drawing loop starts from: both AMI polarity and CMI level +1. */
  const Start: State := State(1, 1)

  /** The padding loop: prepend '0' while shorter than eight characters. */
  method PadToEight(digits: string) returns (binary: string)
    ensures binary == PadStart(digits, 8)
  {
    binary := digits;
    PrependZero(0, digits);
    while |binary| < 8
      invariant |binary| == |digits| || |digits| < |binary| <= 8
      invariant binary == Zeros(|binary| - |digits|) + digits
      decreases 8 - |binary|
    {
      PrependZero(|binary| - |digits|, digits);
      binary := ['0'] + binary;
    }
    PaddedToEight(digits, binary);
  }

  lemma PrependZero(n: nat, digits: string)
    ensures ['0'] + (Zeros(n) + digits) == Zeros(n + 1) + digits
    ensures Zeros(0) + digits == digits
  {
  }

  lemma PaddedToEight(digits: string, binary: string)
    requires |binary| >= 8
    requires |binary| == |digits| || |digits| < |binary| <= 8
    requires binary == Zeros(|binary| - |digits|) + digits
    ensures binary == PadStart(digits, 8)
  {
  }

  /** The ASCII-to-binary step of `convertToPulseCode`. */
  method ConvertToBinaryArray(codes: seq<CodeUnit>) returns (binaryArray: seq<string>)
    ensures |binaryArray| == |codes|
    ensures forall i :: 0 <= i < |codes| ==> binaryArray[i] == EncodingUtils.CharToBinary(codes[i]).binary
  {
    binaryArray := [];
    var i := 0;
    while i < |codes|
      invariant i <= |codes|
      invariant |binaryArray| == i
      invariant forall j :: 0 <= j < i ==> binaryArray[j] == PadStart(ToBase2(codes[j]), 8)
    {
      var b := PadToEight(ToBase2(codes[i]));
      binaryArray := binaryArray + [b];
      i := i + 1;
    }
    forall j | 0 <= j < |codes|
      ensures binaryArray[j] == EncodingUtils.CharToBinary(codes[j]).binary
    {
      EncodingUtils.CharToBinaryPads(codes[j]);
    }
  }

  /** `totalBits`: the length of the joined bit stream. */
  function TotalBits(binaryArray: seq<string>): (n: nat)
    ensures (forall i :: 0 <= i < |binaryArray| ==> |binaryArray[i]| >= BitsPerChar) ==>
      n >= BitsPerChar * |binaryArray| &&
      (n == BitsPerChar * |binaryArray| <==> forall i :: 0 <= i < |binaryArray| ==> |binaryArray[i]| == BitsPerChar)
  {
    ConcatLength(binaryArray);
    |Concat(binaryArray)|
  }

  // ---------------------------------------------------------------------
  // The five drawing functions and their dispatch.

  function DrawNRZ(bit: char): (p: Pulse)
    ensures Tiles(p.segments) && p.transitions == []
    ensures StartVoltage(p) == EndVoltage(p) == Some(if bit == '1' then 1 else -1)
    ensures |p.segments| == 1
  {
    Pulse([Segment(0, 100, if bit == '1' then 1 else -1)], [])
  }

  function DrawRZ(bit: char): (p: Pulse)
    ensures Tiles(p.segments) && p.transitions == [Transition(Center, 0, 100)]
    ensures StartVoltage(p) == Some(if bit == '1' then 1 else -1) && EndVoltage(p) == Some(0)
    ensures |p.segments| == 2 && p.segments[0].right == 50
  {
    Pulse([Segment(0, 50, if bit == '1' then 1 else -1), Segment(50, 100, 0)], [Transition(Center, 0, 100)])
  }

  function DrawManchester(bit: char): (p: Pulse)
    ensures Tiles(p.segments) && p.transitions == [Transition(Center, 0, 100)]
    ensures StartVoltage(p) == Some(if bit == '1' then 1 else -1) && EndVoltage(p) == Some(if bit == '1' then -1 else 1)
    ensures |p.segments| == 2 && p.segments[0].right == 50
  {
    if bit == '1' then
      Pulse([Segment(0, 50, 1), Segment(50, 100, -1)], [Transition(Center, 0, 100)])
    else
      Pulse([Segment(0, 50, -1), Segment(50, 100, 1)], [Transition(Center, 0, 100)])
  }

  function DrawAMI(bit: char, lastPolarity: int): (p: Pulse)
    ensures Tiles(p.segments) && p.transitions == []
    ensures StartVoltage(p) == EndVoltage(p) == Some(if bit == '1' then lastPolarity else 0)
    ensures |p.segments| == 1
  {
    if bit == '1' then Pulse([Segment(0, 100, lastPolarity)], [])
    else Pulse([Segment(0, 100, 0)], [])
  }

  function DrawCMI(bit: char, lastOne: int): (p: Pulse)
    ensures Tiles(p.segments)
    ensures bit != '1' <==> p.transitions == [Transition(Center, 0, 100)]
    ensures bit == '1' ==> StartVoltage(p) == EndVoltage(p) == Some(lastOne)
    ensures bit == '1' ==> |p.segments| == 1 && p.transitions == []
    ensures bit != '1' ==> |p.segments| == 2 && p.segments[0].right == 50
    ensures bit != '1' ==> StartVoltage(p) == Some(1) && EndVoltage(p) == Some(-1)
  {
    if bit == '1' then Pulse([Segment(0, 100, lastOne)], [])
    else Pulse([Segment(0, 50, 1), Segment(50, 100, -1)], [Transition(Center, 0, 100)])
  }

  /** `drawPulseLines`: the switch has no default, so an unknown encoding draws nothing. */
  function DrawPulseLines(bit: char, enc: Encoding, s: State): (p: Pulse)
    ensures enc == Unknown <==> p == NoPulse
  {
    match enc
    case NRZ => DrawNRZ(bit)
    case RZ => DrawRZ(bit)
    case Manchester => DrawManchester(bit)
    case AMI => DrawAMI(bit, s.amiPolarity)
    case CMI => DrawCMI(bit, s.cmiState)
    case Unknown => NoPulse
  }

  /** One drawn bit: its record (bit, index, state before the bit) and its pulse. */
  datatype DrawnBit = DrawnBit(entry: BitState, pulse: Pulse)

  /** The state the loop passes to bit `i` of `bits`. */
  function StateAt(enc: Encoding, bits: string, i: nat): (s: State)
    requires i <= |bits|
    ensures s.amiPolarity == 1 || s.amiPolarity == -1
    ensures s.cmiState == 1 || s.cmiState == -1
    ensures enc != AMI ==> s.amiPolarity == 1
    ensures enc != CMI ==> s.cmiState == 1
    ensures i == 0 ==> s == Start
  {
    var sign := Sign(Ones(bits[..i]));
    State(if enc == AMI then sign else 1, if enc == CMI then sign else 1)
  }

  /** Advancing past bit `i` is one negating step of the fold. */
  lemma StateAtStep(enc: Encoding, bits: string, i: nat)
    requires i < |bits|
    ensures StateAt(enc, bits, i + 1) == Step(Negate, enc, StateAt(enc, bits, i), bits[i])
  {
    OnesPrefixStep(bits, i);
  }

  /** What the loop records for bit `i` of `bits`. */
  function DrawnAt(enc: Encoding, bits: string, i: nat): DrawnBit
    requires i < |bits|
  {
    var s := StateAt(enc, bits, i);
    DrawnBit(BitState(bits[i], i, s), DrawPulseLines(bits[i], enc, s))
  }

  /**
   * `generatePulseVisualization`: walks the joined bit stream once, drawing
   * each bit with the state before its own update and never resetting the
   * state between characters.
   */
  method GeneratePulseVisualization(binaryArray: seq<string>, enc: Encoding) returns (drawn: seq<DrawnBit>)
    ensures |drawn| == |Concat(binaryArray)|
    ensures forall i :: 0 <= i < |drawn| ==>
      drawn[i].entry == BitState(Concat(binaryArray)[i], i, StateAt(enc, Concat(binaryArray), i))
    ensures forall i :: 0 <= i < |drawn| ==>
      drawn[i].pulse == DrawPulseLines(drawn[i].entry.bit, enc, drawn[i].entry.state)
    ensures forall i :: 0 <= i < |drawn| ==> drawn[i] == DrawnAt(enc, Concat(binaryArray), i)
  {
    var binaryString := Concat(binaryArray);
    var amiLastPolarity := 1;
    var cmiLastOne := 1;
    drawn := [];
    var i := 0;
    while i < |binaryString|
      invariant i <= |binaryString|
      invariant |drawn| == i
      invariant State(amiLastPolarity, cmiLastOne) == StateAt(enc, binaryString, i)
      invariant forall j :: 0 <= j < i ==> drawn[j] == DrawnAt(enc, binaryString, j)
    {
      var bit := binaryString[i];
      var s := State(amiLastPolarity, cmiLastOne);
      drawn := drawn + [DrawnBit(BitState(bit, i, s), DrawPulseLines(bit, enc, s))];
      StateAtStep(enc, binaryString, i);
      if enc == AMI && bit == '1' {
        amiLastPolarity := amiLastPolarity * -1;
      }
      if enc == CMI && bit == '1' {
        cmiLastOne := cmiLastOne * -1;
      }
      i := i + 1;
    }
  }

  lemma SameBinaries(text: seq<CodeUnit>, binaryArray: seq<string>)
    requires |binaryArray| == |text|
    requires forall i :: 0 <= i < |text| ==> binaryArray[i] == EncodingUtils.CharToBinary(text[i]).binary
    ensures binaryArray == BinariesOf(EncodingUtils.TextToBinary(text))
  {
  }

  /** The joined stream has eight bits per character exactly when every code unit is below 256. */
  lemma StreamLength(text: seq<CodeUnit>, binaryArray: seq<string>)
    requires |binaryArray| == |text|
    requires forall i :: 0 <= i < |text| ==> binaryArray[i] == EncodingUtils.CharToBinary(text[i]).binary
    ensures |Concat(binaryArray)| >= BitsPerChar * |text|
    ensures |Concat(binaryArray)| == BitsPerChar * |text| <==> forall i :: 0 <= i < |text| ==> text[i] < 256
  {
    ConcatLength(binaryArray);
  }

  /** `convertToPulseCode`: fallback text, binary strings, then the drawing loop. */
  method ConvertToPulseCode(value: seq<CodeUnit>, enc: Encoding) returns (drawn: seq<DrawnBit>, totalBits: nat)
    ensures totalBits == |drawn|
    ensures |drawn| >= BitsPerChar * |WithFallback(value)| > 0
    ensures totalBits == BitsPerChar * |WithFallback(value)| <==>
      forall i :: 0 <= i < |WithFallback(value)| ==> WithFallback(value)[i] < 256
    ensures var bits := Concat(BinariesOf(EncodingUtils.TextToBinary(WithFallback(value))));
      |drawn| == |bits| && forall i :: 0 <= i < |drawn| ==> drawn[i] == DrawnAt(enc, bits, i)
  {
    var text := WithFallback(value);
    var binaryArray := ConvertToBinaryArray(text);
    SameBinaries(text, binaryArray);
    StreamLength(text, binaryArray);
    drawn := GeneratePulseVisualization(binaryArray, enc);
    totalBits := TotalBits(binaryArray);
  }
}
