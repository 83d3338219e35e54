/**
 * The React bit box: which horizontal runs and vertical markers are drawn
 * for one bit, and when an edge connector to the next bit is added.
 */
module BitBox {
  import opened LineCode

  /**
   * `VOLTAGE_PERCENT`: the height, in % from the top of the box, at which a
   * vertical marker starts or ends for a level. The horizontal runs are placed
   * by a different table (0%, 50%, 100%), so the markers stop short of them.
   */
  function VoltagePercent(v: Level): (p: nat)
    ensures 25 <= p <= 75
  {
    if v == 1 then 25 else if v == 0 then 50 else 75
  }

  /** Higher voltages are drawn higher up, that is at a smaller percentage. */
  lemma VoltagePercentDecreasing(a: Level, b: Level)
    ensures a < b <==> VoltagePercent(a) > VoltagePercent(b)
  {
  }

  function Min(a: int, b: int): int { if a <= b then a else b }
  function Max(a: int, b: int): int { if a <= b then b else a }

  /**
   * `createVerticalTransition`: a vertical marker from the drawn height of
   * one level to that of the other, whichever way round they are given.
   */
  function VerticalTransition(from: Level, to: Level, at: Position): (t: Transition)
    ensures t.at == at
    ensures t.top <= t.bottom
    ensures t.top == VoltagePercent(Max(from, to)) && t.bottom == VoltagePercent(Min(from, to))
    ensures t.top == t.bottom <==> from == to
  {
    var a, b := VoltagePercent(from), VoltagePercent(to);
    VoltagePercentDecreasing(from, to);
    VoltagePercentDecreasing(to, from);
    Transition(at, Min(a, b), Max(a, b))
  }

  lemma VerticalTransitionSymmetric(from: Level, to: Level, at: Position)
    ensures VerticalTransition(from, to, at) == VerticalTransition(to, from, at)
  {
  }

  /** `hasMidTransition`. */
  predicate HasMidTransition(enc: Encoding, bit: char) {
    enc == Manchester || enc == RZ || (enc == CMI && bit == '0')
  }

  /** `generatePulse`: the runs and markers of one bit, given the state before the bit. */
  function GeneratePulse(enc: Encoding, bit: char, amiPolarity: int, cmiState: int): (p: Pulse)
    ensures enc == Unknown <==> p == NoPulse
    ensures enc != Unknown ==> Tiles(p.segments)
    ensures |p.transitions| <= 1
    ensures forall i :: 0 <= i < |p.transitions| ==> p.transitions[i].at == Center
    ensures -1 <= amiPolarity <= 1 && -1 <= cmiState <= 1 ==> OnLevels(p)
    ensures enc == NRZ ==> StartVoltage(p) == EndVoltage(p) == Some(if bit == '1' then -1 else 1)
    ensures enc == RZ ==> StartVoltage(p) == Some(if bit == '1' then -1 else 1) && EndVoltage(p) == Some(0)
    ensures enc == Manchester ==>
      StartVoltage(p) == Some(if bit == '1' then 1 else -1) && EndVoltage(p) == Some(if bit == '1' then -1 else 1)
    ensures enc == AMI ==> StartVoltage(p) == EndVoltage(p) == Some(if bit == '1' then amiPolarity else 0)
    ensures enc == CMI && bit == '1' ==> StartVoltage(p) == EndVoltage(p) == Some(cmiState)
    ensures enc == CMI && bit != '1' ==> StartVoltage(p) == Some(0) && EndVoltage(p) == Some(1)
    ensures enc == Manchester || enc == RZ || (enc == CMI && bit != '1') ==>
      |p.segments| == 2 && p.segments[0].right == 50 && |p.transitions| == 1
    ensures enc == NRZ || enc == AMI || (enc == CMI && bit == '1') ==>
      |p.segments| == 1 && p.transitions == []
  {
    var isOne := bit == '1';
    match enc
    case NRZ =>
      Pulse([Segment(0, 100, if isOne then -1 else 1)], [])
    case RZ =>
      var v: Level := if isOne then -1 else 1;
      Pulse([Segment(0, 50, v), Segment(50, 100, 0)], [VerticalTransition(v, 0, Center)])
    case Manchester =>
      if isOne then
        Pulse([Segment(0, 50, 1), Segment(50, 100, -1)], [VerticalTransition(1, -1, Center)])
      else
        Pulse([Segment(0, 50, -1), Segment(50, 100, 1)], [VerticalTransition(-1, 1, Center)])
    case AMI =>
      Pulse([Segment(0, 100, if isOne then amiPolarity else 0)], [])
    case CMI =>
      if isOne then
        Pulse([Segment(0, 100, cmiState)], [])
      else
        Pulse([Segment(0, 50, 0), Segment(50, 100, 1)], [VerticalTransition(0, 1, Center)])
    case Unknown =>
      NoPulse
  }

  /** The edge connector condition of the bit box. */
  predicate NeedsConnector(connectBits: bool, endVoltage: Level, nextStartVoltage: Option<Level>) {
    connectBits && nextStartVoltage.Some? && endVoltage != nextStartVoltage.value
  }

  /** What the bit box draws: the pulse plus an optional edge connector, and whether the mid-bit marker shows. */
  datatype View = View(pulse: Pulse, midMarker: bool)

  /**
   * The markers of a pulse with the edge connector appended when it is
   * needed. Only the connector is drawn on the edge.
   */
  function WithConnector(p: Pulse, endVoltage: Level, nextStartVoltage: Option<Level>, connectBits: bool): (q: Pulse)
    requires forall i :: 0 <= i < |p.transitions| ==> p.transitions[i].at == Center
    ensures q.segments == p.segments
    ensures |q.transitions| == |p.transitions| + (if NeedsConnector(connectBits, endVoltage, nextStartVoltage) then 1 else 0)
    ensures q.transitions[..|p.transitions|] == p.transitions
    ensures (exists i :: 0 <= i < |q.transitions| && q.transitions[i].at == Edge)
      <==> NeedsConnector(connectBits, endVoltage, nextStartVoltage)
    ensures forall i :: 0 <= i < |q.transitions| && q.transitions[i].at == Edge ==>
      nextStartVoltage.Some? && q.transitions[i] == VerticalTransition(endVoltage, nextStartVoltage.value, Edge)
    ensures forall i :: 0 <= i < |q.transitions| && q.transitions[i].at == Edge ==>
      q.transitions[i].top < q.transitions[i].bottom
  {
    var needs := NeedsConnector(connectBits, endVoltage, nextStartVoltage);
    var connector := if needs then [VerticalTransition(endVoltage, nextStartVoltage.value, Edge)] else [];
    var all := p.transitions + connector;
    assert all[..|p.transitions|] == p.transitions;
    assert forall i :: 0 <= i < |all| && all[i].at == Edge ==> needs && i == |p.transitions|;
    assert needs ==> all[|p.transitions|] == connector[0];
    Pulse(p.segments, all)
  }

  /** `BitBox`'s segment list. */
  function BitBoxView(enc: Encoding, bit: char, amiPolarity: int, cmiState: int,
                      endVoltage: Level, nextStartVoltage: Option<Level>,
                      connectBits: bool, showMidBitMarkers: bool): (v: View)
    ensures v.pulse.segments == GeneratePulse(enc, bit, amiPolarity, cmiState).segments
    ensures v.midMarker <==> showMidBitMarkers && HasMidTransition(enc, bit)
    ensures (exists i :: 0 <= i < |v.pulse.transitions| && v.pulse.transitions[i].at == Edge)
      <==> NeedsConnector(connectBits, endVoltage, nextStartVoltage)
    ensures forall i :: 0 <= i < |v.pulse.transitions| && v.pulse.transitions[i].at == Edge ==>
      v.pulse.transitions[i].top < v.pulse.transitions[i].bottom
    ensures var q := GeneratePulse(enc, bit, amiPolarity, cmiState);
      && |v.pulse.transitions| == |q.transitions| + (if NeedsConnector(connectBits, endVoltage, nextStartVoltage) then 1 else 0)
      && v.pulse.transitions[..|q.transitions|] == q.transitions
    ensures forall i :: 0 <= i < |v.pulse.transitions| && v.pulse.transitions[i].at == Edge ==>
      nextStartVoltage.Some? && v.pulse.transitions[i] == VerticalTransition(endVoltage, nextStartVoltage.value, Edge)
  {
    var p := GeneratePulse(enc, bit, amiPolarity, cmiState);
    var q := WithConnector(p, endVoltage, nextStartVoltage, connectBits);
    assert q.segments == p.segments && q.transitions[..|p.transitions|] == p.transitions;
    View(q, showMidBitMarkers && HasMidTransition(enc, bit))
  }

  // ---------------------------------------------------------------------
  // What the drawing means.

  /**
   * For a binary digit, `hasMidTransition` holds exactly when `generatePulse`
   * draws a mid-bit marker, and exactly when the level changes within the slot.
   */
  lemma MidTransitionMatchesPulse(enc: Encoding, bit: char, amiPolarity: int, cmiState: int)
    requires IsBit(bit) && enc != Unknown
    ensures var p := GeneratePulse(enc, bit, amiPolarity, cmiState);
      && (HasMidTransition(enc, bit) <==> HasCenterMarker(p))
      && (HasMidTransition(enc, bit) <==> StartVoltage(p) != EndVoltage(p))
  {
    var p := GeneratePulse(enc, bit, amiPolarity, cmiState);
    if HasMidTransition(enc, bit) {
      assert p.transitions[0].at == Center;
    }
  }

  /** For a non-binary character the CMI pulse is split but `hasMidTransition` says no. */
  lemma MidTransitionMissesOtherChars(cmiState: int)
    ensures !HasMidTransition(CMI, 'x')
    ensures HasCenterMarker(GeneratePulse(CMI, 'x', 0, cmiState))
  {
    assert GeneratePulse(CMI, 'x', 0, cmiState).transitions[0].at == Center;
  }

  /** The mid-bit marker runs between the marker heights of the two levels of the runs it separates. */
  lemma CenterMarkerSpans(enc: Encoding, bit: char, amiPolarity: int, cmiState: int)
    requires IsBit(bit) && HasMidTransition(enc, bit)
    ensures var p := GeneratePulse(enc, bit, amiPolarity, cmiState);
      |p.segments| == 2 && |p.transitions| == 1 &&
      p.transitions[0] == VerticalTransition(p.segments[0].voltage, p.segments[1].voltage, Center)
  {
  }

  /** NRZ, RZ and Manchester ignore the state; AMI reads only the polarity and CMI only the level. */
  lemma PulseReadsOnlyItsState(enc: Encoding, bit: char, a1: int, c1: int, a2: int, c2: int)
    ensures Stateless(enc) ==> GeneratePulse(enc, bit, a1, c1) == GeneratePulse(enc, bit, a2, c2)
    ensures enc == AMI ==> GeneratePulse(enc, bit, a1, c1) == GeneratePulse(enc, bit, a1, c2)
    ensures enc == CMI ==> GeneratePulse(enc, bit, a1, c1) == GeneratePulse(enc, bit, a2, c1)
    ensures bit == '0' && enc != CMI ==> GeneratePulse(enc, bit, a1, c1) == GeneratePulse(enc, bit, a2, c2)
  {
  }

  /** The drawing tells the two bit values apart, provided the AMI polarity is not zero. */
  lemma PulseDistinguishesBits(enc: Encoding, amiPolarity: int, cmiState: int)
    requires enc != Unknown
    requires enc == AMI ==> amiPolarity != 0
    ensures GeneratePulse(enc, '0', amiPolarity, cmiState) != GeneratePulse(enc, '1', amiPolarity, cmiState)
  {
    var p0 := GeneratePulse(enc, '0', amiPolarity, cmiState);
    var p1 := GeneratePulse(enc, '1', amiPolarity, cmiState);
    if enc == CMI {
      assert |p0.segments| != |p1.segments|;
    } else {
      assert p0.segments[0].voltage != p1.segments[0].voltage;
    }
  }

  /** Equal voltages on either side of a boundary never get a connector. */
  lemma NoConnectorForEqualVoltages(enc: Encoding, bit: char, amiPolarity: int, cmiState: int,
                                     v: Level, connectBits: bool, showMidBitMarkers: bool)
    ensures var view := BitBoxView(enc, bit, amiPolarity, cmiState, v, Some(v), connectBits, showMidBitMarkers);
      view.pulse == GeneratePulse(enc, bit, amiPolarity, cmiState)
  {
  }
}
