/**
 * The React character group's `processBits`: one record per bit of one
 * character, each carrying the state before that bit, with the
 * three-valued CMI update.
 */
module CharacterGroup {
  import opened LineCode
  import opened StateFold
  import EncodingUtils
  import BitBox

  /** `processBits`. */
  function ProcessBits(binaryString: string, charIndex: nat, enc: Encoding,
                       amiStartPolarity: int, cmiStartState: int): (r: seq<BitState>)
    ensures |r| == |binaryString|
    ensures forall k :: 0 <= k < |r| ==>
      r[k].bit == binaryString[k] && r[k].globalIndex == charIndex * BitsPerChar + k
    ensures |r| > 0 ==> r[0].state == State(amiStartPolarity, cmiStartState)
    ensures forall k :: 0 <= k < |r| - 1 ==> r[k + 1].state == Step(ThreeCycle, enc, r[k].state, binaryString[k])
    ensures forall k :: 0 <= k < |r| - 1 && binaryString[k] != '1' ==> r[k + 1].state == r[k].state
    ensures Stateless(enc) ==> forall k :: 0 <= k < |r| ==> r[k].state == State(amiStartPolarity, cmiStartState)
  {
    var s := State(amiStartPolarity, cmiStartState);
    var r := Annotate(ThreeCycle, enc, binaryString, charIndex * BitsPerChar, s);
    assert Stateless(enc) ==> forall k :: 0 <= k < |r| ==> r[k].state == s by {
      if Stateless(enc) {
        forall k | 0 <= k < |r| ensures r[k].state == s {
          AnnotateAsFold(ThreeCycle, enc, binaryString, charIndex * BitsPerChar, s, k);
          FoldStateless(ThreeCycle, enc, s, binaryString[..k]);
        }
      }
    }
    r
  }

  /** No '1' bit stands strictly between positions `i` and `j`. */
  predicate NoOneBetween(bits: string, i: nat, j: nat)
    requires i <= j <= |bits|
  {
    forall m :: i < m < j ==> bits[m] != '1'
  }

  lemma {:induction false} OnesOfZeros(bits: string, i: nat, j: nat)
    requires i <= j <= |bits|
    requires forall m :: i <= m < j ==> bits[m] != '1'
    ensures Ones(bits[..j]) == Ones(bits[..i])
    decreases j - i
  {
    if i < j {
      OnesOfZeros(bits, i, j - 1);
      OnesPrefixStep(bits, j - 1);
    }
  }

  /** Under AMI the polarities seen at two consecutive '1' bits are opposite. */
  lemma AmiAlternatesAtOnes(binaryString: string, charIndex: nat, p: int, c: int, i: nat, j: nat)
    requires i < j < |binaryString|
    requires binaryString[i] == '1' && binaryString[j] == '1'
    requires NoOneBetween(binaryString, i, j)
    ensures var r := ProcessBits(binaryString, charIndex, AMI, p, c);
      r[j].state.amiPolarity == -r[i].state.amiPolarity
  {
    AmiPolarityAt(binaryString, charIndex, p, c, i);
    AmiPolarityAt(binaryString, charIndex, p, c, j);
    OnesPrefixStep(binaryString, i);
    OnesOfZeros(binaryString, i + 1, j);
    SignAdd(Ones(binaryString[..i]), 1);
  }

  /** Under AMI the bit after `n` ones sees the start polarity times (-1)^n; the CMI level is untouched. */
  lemma AmiPolarityAt(binaryString: string, charIndex: nat, p: int, c: int, k: nat)
    requires k < |binaryString|
    ensures ProcessBits(binaryString, charIndex, AMI, p, c)[k].state ==
      State(p * Sign(Ones(binaryString[..k])), c)
  {
    AnnotateAsFold(ThreeCycle, AMI, binaryString, charIndex * BitsPerChar, State(p, c), k);
    FoldAmi(ThreeCycle, p, c, binaryString[..k]);
  }

  /**
   * From CMI state 0, the bit after `n` ones sees 0, 1, -1, 1, -1, ...:
   * 0 before the first '1', then 1 after an odd count and -1 after an even one.
   * A start level of 1 (what the snapshots hand over after an odd count) is
   * the same sequence one '1' further on, so its first '1' already gives -1.
   */
  lemma CmiLevelsAt(binaryString: string, charIndex: nat, p: int, c: int, k: nat)
    requires c == 0 || c == 1
    requires k < |binaryString|
    ensures ProcessBits(binaryString, charIndex, CMI, p, c)[k].state ==
      State(p, ThreeCycleLevel(c + Ones(binaryString[..k])))
  {
    AnnotateAsFold(ThreeCycle, CMI, binaryString, charIndex * BitsPerChar, State(p, c), k);
    assert ThreeCycleLevel(c) == c;
    FoldThreeCycle(p, c, binaryString[..k]);
  }

  /** Under AMI every bit box of a '0' draws one flat run at level 0 across the slot, whatever the state. */
  lemma AmiZerosDrawnFlat(binaryString: string, charIndex: nat, p: int, c: int)
    ensures var r := ProcessBits(binaryString, charIndex, AMI, p, c);
      forall k :: 0 <= k < |r| && r[k].bit != '1' ==>
        BitBox.GeneratePulse(AMI, r[k].bit, r[k].state.amiPolarity, r[k].state.cmiState) == Pulse([Segment(0, 100, 0)], [])
  {
  }

  /**
   * What the bit boxes of one character draw under AMI for two consecutive
   * '1's: one flat run each, at opposite levels, each +1 or -1.
   */
  lemma AmiDrawnLevels(binaryString: string, charIndex: nat, p: int, c: int, i: nat, j: nat)
    requires p == 1 || p == -1
    requires i < j < |binaryString|
    requires binaryString[i] == '1' && binaryString[j] == '1'
    requires NoOneBetween(binaryString, i, j)
    ensures var r := ProcessBits(binaryString, charIndex, AMI, p, c);
      var di := BitBox.GeneratePulse(AMI, r[i].bit, r[i].state.amiPolarity, r[i].state.cmiState);
      var dj := BitBox.GeneratePulse(AMI, r[j].bit, r[j].state.amiPolarity, r[j].state.cmiState);
      && (r[i].state.amiPolarity == 1 || r[i].state.amiPolarity == -1)
      && di == Pulse([Segment(0, 100, r[i].state.amiPolarity)], [])
      && dj == Pulse([Segment(0, 100, -r[i].state.amiPolarity)], [])
  {
    AmiAlternatesAtOnes(binaryString, charIndex, p, c, i, j);
    AmiPolarityAt(binaryString, charIndex, p, c, i);
  }

  /**
   * The three-valued update agrees with `getNextCmiState` on 0 but not on 1:
   * after two ones it yields -1 where the toggle yields 0, and a group handed
   * level 1 draws its first '1' after a '1' at -1.
   */
  lemma CmiDivergesFromToggle()
    ensures CmiNext(ThreeCycle, 0) == EncodingUtils.NextCmiState(0, '1') == 1
    ensures CmiNext(ThreeCycle, 1) == -1 && EncodingUtils.NextCmiState(1, '1') == 0
    ensures forall n: nat :: ThreeCycleLevel(n) == n % 2 <==> n < 2 || n % 2 == 1
    ensures var r := ProcessBits("111", 0, CMI, 1, 0);
      r[0].state.cmiState == 0 && r[1].state.cmiState == 1 && r[2].state.cmiState == -1
    ensures ProcessBits("111", 0, CMI, 1, 1)[1].state.cmiState == -1
  {
    CmiLevelsAt("111", 0, 1, 0, 1);
    CmiLevelsAt("111", 0, 1, 0, 2);
    CmiLevelsAt("111", 0, 1, 1, 1);
    assert "111"[..1] == "1" && "111"[..2] == "11";
    assert Ones("11") == 2;
  }

  /**
   * The index is `charIndex * 8 + k` whatever the length of the string, so
   * the ninth bit of a character whose code unit needs nine digits gets the
   * same global index as the first bit of the next character.
   */
  lemma GlobalIndexCollidesBeyondEightBits(a: string, b: string, charIndex: nat, enc: Encoding,
                                           p: int, c: int, p': int, c': int)
    requires |a| > BitsPerChar && |b| > 0
    ensures ProcessBits(a, charIndex, enc, p, c)[BitsPerChar].globalIndex ==
      ProcessBits(b, charIndex + 1, enc, p', c')[0].globalIndex
  {
  }
}
