/**
 * Shared vocabulary of the pulse-code engine: UTF-16 code units, the
 * encoding selector, voltage levels, the drawing primitives a bit box is
 * made of, and the running encoder state that is threaded through a bit
 * stream.
 */
module LineCode {

  /** One UTF-16 code unit, as `charCodeAt` returns it. */
  type CodeUnit = n: nat | n < 0x1_0000

  /** A voltage level that has a screen position: +1 (+5V), 0 (0V) or -1 (-5V). */
  type Level = v: int | -1 <= v <= 1

  /** Number of bits the renderers assume per character (`BITS_PER_CHAR`). */
  const BitsPerChar: nat := 8

  /** The text both front ends fall back to when the input is empty: "Hello". */
  const DefaultText: seq<CodeUnit> := [72, 101, 108, 108, 111]

  datatype Option<T> = None | Some(value: T)

  /** `value || "Hello"`: both front ends replace an empty input by the default text. */
  function WithFallback(value: seq<CodeUnit>): (text: seq<CodeUnit>)
    ensures text != []
    ensures value != [] ==> text == value
    ensures value == [] ==> text == DefaultText
  {
    if value == [] then DefaultText else value
  }

  /**
   * The encoding selector. The source switches on strings; every string
   * other than the five names lands on `Unknown`.
   */
  datatype Encoding = NRZ | RZ | Manchester | AMI | CMI | Unknown

  /** The selector string of each known encoding (`ENCODING_TYPES`). */
  function NameOf(e: Encoding): string
    requires e != Unknown
  {
    match e
    case NRZ => "NRZ"
    case RZ => "RZ"
    case Manchester => "Manchester"
    case AMI => "AMI"
    case CMI => "CMI"
  }

  /** Reads a selector string; anything that is not one of the five names is `Unknown`. */
  function EncodingOf(name: string): (e: Encoding)
    ensures e != Unknown ==> NameOf(e) == name
    ensures e == Unknown ==> forall k: Encoding :: k != Unknown ==> NameOf(k) != name
  {
    if name == "NRZ" then NRZ
    else if name == "RZ" then RZ
    else if name == "Manchester" then Manchester
    else if name == "AMI" then AMI
    else if name == "CMI" then CMI
    else Unknown
  }

  /** Encodings whose drawing never consults the running state. */
  predicate Stateless(e: Encoding) {
    e != AMI && e != CMI
  }

  /**
   * The running state: AMI polarity and CMI level. Both are plain numbers
   * in the source, so they are `int` here; the folds keep them in range.
   */
  datatype State = State(amiPolarity: int, cmiState: int)

  /** What the per-bit annotators record for each bit: the state BEFORE the bit is applied. */
  datatype BitState = BitState(bit: char, globalIndex: int, state: State)

  /** One character's conversion record `{ char, ascii, binary }`. */
  datatype BinaryUnit = BinaryUnit(character: CodeUnit, ascii: nat, binary: string)

  /** A horizontal run from `left`% to `right`% of the bit slot at `voltage`. */
  datatype Segment = Segment(left: nat, right: nat, voltage: int)

  /** Where a vertical marker stands: mid-bit, or on the right edge of the box. */
  datatype Position = Center | Edge

  /** A vertical marker spanning `top`% to `bottom`% of the box height. */
  datatype Transition = Transition(at: Position, top: int, bottom: int)

  /** Everything drawn for one bit: horizontal runs in order, then vertical markers in order. */
  datatype Pulse = Pulse(segments: seq<Segment>, transitions: seq<Transition>)

  const NoPulse: Pulse := Pulse([], [])

  predicate IsBit(c: char) {
    c == '0' || c == '1'
  }

  predicate IsBinary(s: string) {
    forall i :: 0 <= i < |s| ==> IsBit(s[i])
  }

  /** Number of '1' characters in `s`. */
  function Ones(s: string): (n: nat)
    ensures n <= |s|
  {
    if s == [] then 0 else (if s[0] == '1' then 1 else 0) + Ones(s[1..])
  }

  /** (-1) raised to the power `n`. */
  function Sign(n: nat): int {
    if n % 2 == 0 then 1 else -1
  }

  /** The `binary` fields of a list of conversion records, in order. */
  function BinariesOf(units: seq<BinaryUnit>): (bins: seq<string>)
    ensures |bins| == |units|
    ensures forall i :: 0 <= i < |units| ==> bins[i] == units[i].binary
  {
    seq(|units|, i requires 0 <= i < |units| => units[i].binary)
  }

  /** `array.join('')` on a list of strings. */
  function Concat(bins: seq<string>): string {
    if bins == [] then [] else Concat(bins[..|bins| - 1]) + bins[|bins| - 1]
  }

  /** The horizontal runs cover [0,100] from left to right without gap or overlap. */
  predicate Tiles(segs: seq<Segment>) {
    && |segs| > 0
    && segs[0].left == 0
    && segs[|segs| - 1].right == 100
    && (forall i :: 0 <= i < |segs| ==> segs[i].left < segs[i].right)
    && (forall i :: 0 <= i < |segs| - 1 ==> segs[i].right == segs[i + 1].left)
  }

  /** The voltage at the start of the slot, if anything is drawn. */
  function StartVoltage(p: Pulse): Option<int> {
    if p.segments == [] then None else Some(p.segments[0].voltage)
  }

  /** The voltage at the end of the slot, if anything is drawn. */
  function EndVoltage(p: Pulse): Option<int> {
    if p.segments == [] then None else Some(p.segments[|p.segments| - 1].voltage)
  }

  /** Every horizontal run sits on one of the three drawable levels. */
  predicate OnLevels(p: Pulse) {
    forall i :: 0 <= i < |p.segments| ==> -1 <= p.segments[i].voltage <= 1
  }

  /** A mid-bit vertical marker is drawn. */
  predicate HasCenterMarker(p: Pulse) {
    exists i :: 0 <= i < |p.transitions| && p.transitions[i].at == Center
  }

  // ---------------------------------------------------------------------
  // Facts about the helpers above.

  lemma {:induction false} OnesAppend(a: string, b: string)
    ensures Ones(a + b) == Ones(a) + Ones(b)
    decreases |a|
  {
    if a == [] {
      assert a + b == b;
    } else {
      assert (a + b)[1..] == a[1..] + b;
      OnesAppend(a[1..], b);
    }
  }

  /** Extending a prefix by one character adds one exactly when that character is '1'. */
  lemma OnesPrefixStep(s: string, i: nat)
    requires i < |s|
    ensures Ones(s[..i + 1]) == Ones(s[..i]) + (if s[i] == '1' then 1 else 0)
  {
    assert s[..i + 1] == s[..i] + [s[i]];
    OnesAppend(s[..i], [s[i]]);
  }

  lemma SignAdd(a: nat, b: nat)
    ensures Sign(a + b) == Sign(a) * Sign(b)
  {
  }

  lemma {:induction false} ConcatLength(bins: seq<string>)
    ensures (forall i :: 0 <= i < |bins| ==> |bins[i]| >= BitsPerChar) ==> |Concat(bins)| >= BitsPerChar * |bins|
    ensures (forall i :: 0 <= i < |bins| ==> |bins[i]| >= BitsPerChar) ==>
      (|Concat(bins)| == BitsPerChar * |bins| <==> forall i :: 0 <= i < |bins| ==> |bins[i]| == BitsPerChar)
    decreases |bins|
  {
    if bins != [] {
      var init := bins[..|bins| - 1];
      ConcatLength(init);
      assert forall i :: 0 <= i < |init| ==> init[i] == bins[i];
    }
  }

  lemma ConcatPrefixStep(bins: seq<string>, i: nat)
    requires i < |bins|
    ensures Concat(bins[..i + 1]) == Concat(bins[..i]) + bins[i]
  {
    assert bins[..i + 1][..i] == bins[..i];
  }
}
