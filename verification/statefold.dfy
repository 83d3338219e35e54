/**
 * The running encoder state and how a bit stream folds it. Every variant
 * negates the AMI polarity on a '1' under AMI; they disagree only on how a
 * '1' under CMI moves the CMI state, which `CmiRule` names.
 */
module StateFold {
  import opened LineCode

  /** How a '1' under CMI moves the CMI state. */
  datatype CmiRule =
    | Toggle      // 0 becomes 1, anything else becomes 0
    | OneMinus    // negate, then add one
    | ThreeCycle  // 0 becomes 1, 1 becomes -1, anything else becomes 1
    | Negate      // negate

  function CmiNext(rule: CmiRule, c: int): (r: int)
    ensures rule == Toggle ==> (r == 0 || r == 1) && (r == 1 <==> c == 0)
    ensures rule == OneMinus ==> r + c == 1
    ensures rule == ThreeCycle ==> (r == 1 || r == -1) && (r == -1 <==> c == 1)
    ensures rule == Negate ==> r + c == 0
    ensures (c == 0 || c == 1) && (rule == Toggle || rule == OneMinus) ==> r == 1 - c
  {
    match rule
    case Toggle => if c == 0 then 1 else 0
    case OneMinus => -c + 1
    case ThreeCycle => if c == 0 then 1 else if c == 1 then -1 else 1
    case Negate => -c
  }

  /** One bit's update of the running state. */
  function Step(rule: CmiRule, enc: Encoding, s: State, bit: char): (t: State)
    ensures bit != '1' ==> t == s
    ensures enc != AMI ==> t.amiPolarity == s.amiPolarity
    ensures enc != CMI ==> t.cmiState == s.cmiState
    ensures bit == '1' && enc == AMI ==> t.amiPolarity == -s.amiPolarity
    ensures bit == '1' && enc == CMI ==> t.cmiState == CmiNext(rule, s.cmiState)
  {
    if bit == '1' then
      State(if enc == AMI then -s.amiPolarity else s.amiPolarity,
            if enc == CMI then CmiNext(rule, s.cmiState) else s.cmiState)
    else s
  }

  /** The state after every bit of `bits`, in order. */
  function Fold(rule: CmiRule, enc: Encoding, s: State, bits: string): (t: State)
    ensures Ones(bits) == 0 ==> t == s
    ensures enc != AMI ==> t.amiPolarity == s.amiPolarity
    ensures enc != CMI ==> t.cmiState == s.cmiState
    ensures t.amiPolarity == s.amiPolarity || t.amiPolarity == -s.amiPolarity
    decreases |bits|
  {
    if bits == [] then s else Fold(rule, enc, Step(rule, enc, s, bits[0]), bits[1..])
  }

  /**
   * One snapshot per character: the state before that character's bits are
   * folded in. The state is never reset between characters.
   */
  function Snapshots(rule: CmiRule, enc: Encoding, bins: seq<string>, s: State): (r: seq<State>)
    ensures |r| == |bins|
    ensures |r| > 0 ==> r[0] == s
    ensures forall i :: 0 <= i < |r| - 1 ==> r[i + 1] == Fold(rule, enc, r[i], bins[i])
    decreases |bins|
  {
    if bins == [] then []
    else [s] + Snapshots(rule, enc, bins[1..], Fold(rule, enc, s, bins[0]))
  }

  /**
   * One record per bit, carrying the bit, its global index `base + k`, and
   * the state before the bit's own update.
   */
  function Annotate(rule: CmiRule, enc: Encoding, bits: string, base: int, s: State): (r: seq<BitState>)
    ensures |r| == |bits|
    ensures forall k :: 0 <= k < |r| ==> r[k].bit == bits[k] && r[k].globalIndex == base + k
    ensures |r| > 0 ==> r[0].state == s
    ensures forall k :: 0 <= k < |r| - 1 ==> r[k + 1].state == Step(rule, enc, r[k].state, bits[k])
    decreases |bits|
  {
    if bits == [] then []
    else [BitState(bits[0], base, s)] + Annotate(rule, enc, bits[1..], base + 1, Step(rule, enc, s, bits[0]))
  }

  // ---------------------------------------------------------------------
  // The fold over concatenations and prefixes.

  lemma {:induction false} FoldAppend(rule: CmiRule, enc: Encoding, s: State, a: string, b: string)
    ensures Fold(rule, enc, s, a + b) == Fold(rule, enc, Fold(rule, enc, s, a), b)
    decreases |a|
  {
    if a == [] {
      assert a + b == b;
    } else {
      assert (a + b)[1..] == a[1..] + b;
      FoldAppend(rule, enc, Step(rule, enc, s, a[0]), a[1..], b);
    }
  }

  lemma FoldPrefixStep(rule: CmiRule, enc: Encoding, s: State, bits: string, k: nat)
    requires k < |bits|
    ensures Fold(rule, enc, s, bits[..k + 1]) == Step(rule, enc, Fold(rule, enc, s, bits[..k]), bits[k])
  {
    assert bits[..k + 1] == bits[..k] + [bits[k]];
    FoldAppend(rule, enc, s, bits[..k], [bits[k]]);
  }

  /** Snapshot `i` is the state after the concatenation of the first `i` characters. */
  lemma {:induction false} SnapshotsAsFold(rule: CmiRule, enc: Encoding, bins: seq<string>, s: State, i: nat)
    requires i < |bins|
    ensures Snapshots(rule, enc, bins, s)[i] == Fold(rule, enc, s, Concat(bins[..i]))
    decreases i
  {
    if i == 0 {
      assert bins[..0] == [];
    } else {
      var r := Snapshots(rule, enc, bins, s);
      SnapshotsAsFold(rule, enc, bins, s, i - 1);
      ConcatPrefixStep(bins, i - 1);
      FoldAppend(rule, enc, s, Concat(bins[..i - 1]), bins[i - 1]);
    }
  }

  /** Record `k` carries the state after the first `k` bits. */
  lemma {:induction false} AnnotateAsFold(rule: CmiRule, enc: Encoding, bits: string, base: int, s: State, k: nat)
    requires k < |bits|
    ensures Annotate(rule, enc, bits, base, s)[k].state == Fold(rule, enc, s, bits[..k])
    decreases k
  {
    if k == 0 {
      assert bits[..0] == [];
    } else {
      AnnotateAsFold(rule, enc, bits, base, s, k - 1);
      FoldPrefixStep(rule, enc, s, bits, k - 1);
    }
  }

  /** Applying the last record's bit to its state gives the state after the whole string. */
  lemma AnnotateFinal(rule: CmiRule, enc: Encoding, bits: string, base: int, s: State)
    requires |bits| > 0
    ensures var r := Annotate(rule, enc, bits, base, s);
      Step(rule, enc, r[|r| - 1].state, bits[|bits| - 1]) == Fold(rule, enc, s, bits)
  {
    var n := |bits| - 1;
    AnnotateAsFold(rule, enc, bits, base, s, n);
    FoldPrefixStep(rule, enc, s, bits, n);
    assert bits[..n + 1] == bits;
  }

  // ---------------------------------------------------------------------
  // Closed forms of the fold.

  /** Stateless encodings never move the state. */
  lemma {:induction false} FoldStateless(rule: CmiRule, enc: Encoding, s: State, bits: string)
    requires Stateless(enc)
    ensures Fold(rule, enc, s, bits) == s
    decreases |bits|
  {
    if bits != [] {
      FoldStateless(rule, enc, s, bits[1..]);
    }
  }

  /** Under AMI the polarity is multiplied by (-1)^(number of ones) and the CMI state is untouched. */
  lemma {:induction false} FoldAmi(rule: CmiRule, p: int, c: int, bits: string)
    ensures Fold(rule, AMI, State(p, c), bits) == State(p * Sign(Ones(bits)), c)
    decreases |bits|
  {
    if bits != [] {
      var t := Step(rule, AMI, State(p, c), bits[0]);
      var q := if bits[0] == '1' then -p else p;
      assert t == State(q, c);
      FoldAmi(rule, q, c, bits[1..]);
      SignAdd(if bits[0] == '1' then 1 else 0, Ones(bits[1..]));
    }
  }

  /** Under CMI the AMI polarity is untouched. */
  lemma {:induction false} FoldCmiKeepsPolarity(rule: CmiRule, s: State, bits: string)
    ensures Fold(rule, CMI, s, bits).amiPolarity == s.amiPolarity
    decreases |bits|
  {
    if bits != [] {
      FoldCmiKeepsPolarity(rule, Step(rule, CMI, s, bits[0]), bits[1..]);
    }
  }

  /** A toggling rule started on 0 or 1 leaves the CMI state at (start + ones) mod 2. */
  lemma {:induction false} FoldCmiParity(rule: CmiRule, p: int, c: int, bits: string)
    requires rule == Toggle || rule == OneMinus
    requires c == 0 || c == 1
    ensures Fold(rule, CMI, State(p, c), bits) == State(p, (c + Ones(bits)) % 2)
    decreases |bits|
  {
    if bits != [] {
      var c' := if bits[0] == '1' then 1 - c else c;
      assert Step(rule, CMI, State(p, c), bits[0]) == State(p, c');
      FoldCmiParity(rule, p, c', bits[1..]);
    }
  }

  /** Negation multiplies the CMI state by (-1)^(number of ones). */
  lemma {:induction false} FoldCmiNegate(p: int, c: int, bits: string)
    ensures Fold(Negate, CMI, State(p, c), bits) == State(p, c * Sign(Ones(bits)))
    decreases |bits|
  {
    if bits != [] {
      var c' := if bits[0] == '1' then -c else c;
      assert Step(Negate, CMI, State(p, c), bits[0]) == State(p, c');
      FoldCmiNegate(p, c', bits[1..]);
      SignAdd(if bits[0] == '1' then 1 else 0, Ones(bits[1..]));
    }
  }

  /** The CMI state the three-valued rule reaches from 0 after `n` ones: 0, 1, -1, 1, -1, ... */
  function ThreeCycleLevel(n: nat): int {
    if n == 0 then 0 else if n % 2 == 1 then 1 else -1
  }

  lemma {:induction false} FoldThreeCycle(p: int, n: nat, bits: string)
    ensures Fold(ThreeCycle, CMI, State(p, ThreeCycleLevel(n)), bits) == State(p, ThreeCycleLevel(n + Ones(bits)))
    decreases |bits|
  {
    if bits != [] {
      var n' := n + (if bits[0] == '1' then 1 else 0);
      assert Step(ThreeCycle, CMI, State(p, ThreeCycleLevel(n)), bits[0]) == State(p, ThreeCycleLevel(n'));
      FoldThreeCycle(p, n', bits[1..]);
    }
  }

  /** The two toggling rules agree on every state in {0, 1}, which both keep. */
  lemma {:induction false} FoldToggleRulesAgree(enc: Encoding, s: State, bits: string)
    requires s.cmiState == 0 || s.cmiState == 1
    ensures Fold(Toggle, enc, s, bits) == Fold(OneMinus, enc, s, bits)
    decreases |bits|
  {
    if bits != [] {
      assert Step(Toggle, enc, s, bits[0]) == Step(OneMinus, enc, s, bits[0]);
      FoldToggleRulesAgree(enc, Step(Toggle, enc, s, bits[0]), bits[1..]);
    }
  }
}
