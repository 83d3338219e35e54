/**
 * The shared encoding utilities of the React front end: text to binary
 * records, one state snapshot per character, and the two per-bit update
 * helpers.
 */
module EncodingUtils {
  import opened LineCode
  import opened Base2
  import opened StateFold

  /** The state every conversion starts from. */
  const Start: State := State(1, 0)

  /** `charToBinary`: the code unit written in base 2, padded with '0' to at least eight digits. */
  function CharToBinary(c: CodeUnit): (u: BinaryUnit)
    ensures u.character == c && u.ascii == c
    ensures IsBinary(u.binary)
    ensures |u.binary| >= BitsPerChar
    ensures |u.binary| == BitsPerChar <==> c < 256
    ensures FromBase2(u.binary) == c
  {
    var digits := ToBase2(c);
    ToBase2Length(c, BitsPerChar);
    assert Pow2(BitsPerChar) == 256;
    PaddedRoundTrip(c, BitsPerChar);
    var b := PadStart(digits, BitsPerChar);
    assert forall i :: 0 <= i < |b| ==> IsBit(b[i]) by {
      forall i | 0 <= i < |b|
        ensures IsBit(b[i])
      {
        if i >= |b| - |digits| {
          assert b[i] == b[|b| - |digits|..][i - (|b| - |digits|)];
        }
      }
    }
    BinaryUnit(c, c, b)
  }

  /** The binary field is exactly the padded base-2 text. */
  lemma CharToBinaryPads(c: CodeUnit)
    ensures CharToBinary(c).binary == PadStart(ToBase2(c), 8)
  {
  }

  /** `textToBinary`: one record per code unit, in order. */
  function TextToBinary(text: seq<CodeUnit>): (r: seq<BinaryUnit>)
    ensures |r| == |text|
    ensures forall i :: 0 <= i < |text| ==> r[i] == CharToBinary(text[i])
  {
    if text == [] then [] else [CharToBinary(text[0])] + TextToBinary(text[1..])
  }

  /** Number of '1' bits in the first `i` characters. */
  function OnesBefore(units: seq<BinaryUnit>, i: nat): nat
    requires i <= |units|
  {
    Ones(Concat(BinariesOf(units)[..i]))
  }

  /**
   * `calculateEncodingStates`: the state before each character, starting
   * from polarity 1 and CMI state 0 and carried across characters.
   */
  function CalculateEncodingStates(units: seq<BinaryUnit>, enc: Encoding): (r: seq<State>)
    ensures |r| == |units|
    ensures |r| > 0 ==> r[0] == Start
    ensures forall i :: 0 <= i < |r| - 1 ==> r[i + 1] == Fold(Toggle, enc, r[i], units[i].binary)
    ensures Stateless(enc) ==> forall i :: 0 <= i < |r| ==> r[i] == Start
    ensures enc == AMI ==> forall i :: 0 <= i < |r| ==> r[i] == State(Sign(OnesBefore(units, i)), 0)
    ensures enc == CMI ==> forall i :: 0 <= i < |r| ==> r[i] == State(1, OnesBefore(units, i) % 2)
  {
    var bins := BinariesOf(units);
    var r := Snapshots(Toggle, enc, bins, Start);
    assert forall i :: 0 <= i < |r| ==> SnapshotShape(enc, r[i], Ones(Concat(bins[..i]))) by {
      forall i | 0 <= i < |r| ensures SnapshotShape(enc, r[i], Ones(Concat(bins[..i]))) {
        SnapshotClosedForm(Toggle, enc, bins, i);
      }
    }
    r
  }

  /** What a snapshot looks like after `n` ones under each kind of encoding. */
  predicate SnapshotShape(enc: Encoding, s: State, n: nat) {
    && (Stateless(enc) ==> s == Start)
    && (enc == AMI ==> s == State(Sign(n), 0))
    && (enc == CMI ==> s == State(1, n % 2))
  }

  /** Closed form of snapshot `i` for both toggling CMI rules. */
  lemma SnapshotClosedForm(rule: CmiRule, enc: Encoding, bins: seq<string>, i: nat)
    requires rule == Toggle || rule == OneMinus
    requires i < |bins|
    ensures SnapshotShape(enc, Snapshots(rule, enc, bins, Start)[i], Ones(Concat(bins[..i])))
  {
    var bits := Concat(bins[..i]);
    SnapshotsAsFold(rule, enc, bins, Start, i);
    if Stateless(enc) {
      FoldStateless(rule, enc, Start, bits);
    } else if enc == AMI {
      FoldAmi(rule, 1, 0, bits);
    } else {
      FoldCmiParity(rule, 1, 0, bits);
    }
  }

  /** `getNextAmiPolarity`. */
  function NextAmiPolarity(polarity: int, bit: char): (p: int)
    ensures p == polarity || p == -polarity
    ensures (polarity == 1 || polarity == -1) ==> (p == 1 || p == -1)
  {
    if bit == '1' then polarity * -1 else polarity
  }

  /** `getNextCmiState`. */
  function NextCmiState(c: int, bit: char): (r: int)
    ensures bit == '1' ==> r == 0 || r == 1
    ensures bit == '1' ==> (r == 1 <==> c == 0)
    ensures bit != '1' ==> r == c
  {
    if bit == '1' then (if c == 0 then 1 else 0) else c
  }

  /** A '1' flips the polarity and a second '1' flips it back; a '0' leaves it. */
  lemma AmiInvolution(polarity: int)
    ensures NextAmiPolarity(NextAmiPolarity(polarity, '1'), '1') == polarity
    ensures NextAmiPolarity(polarity, '1') == -polarity
    ensures NextAmiPolarity(polarity, '0') == polarity
  {
  }

  /** The per-bit update inside `calculateEncodingStates` is the two helpers applied to their own field. */
  lemma StepIsHelpers(enc: Encoding, s: State, bit: char)
    ensures Step(Toggle, enc, s, bit) == State(
      if enc == AMI then NextAmiPolarity(s.amiPolarity, bit) else s.amiPolarity,
      if enc == CMI then NextCmiState(s.cmiState, bit) else s.cmiState)
  {
  }
}
