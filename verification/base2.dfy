/**
 * Base-2 text of a non-negative integer, as JavaScript's
 * `Number.prototype.toString(2)` writes it, left padding with '0' as
 * `String.prototype.padStart` does it, and the inverse reading.
 */
module Base2 {
  import opened LineCode

  function Digit(b: nat): char
    requires b < 2
  {
    if b == 0 then '0' else '1'
  }

  /** The value of one digit when reading back: '1' is one, anything else zero. */
  function DigitValue(c: char): nat {
    if c == '1' then 1 else 0
  }

  function Pow2(k: nat): (p: nat)
    ensures p >= 1
  {
    if k == 0 then 1 else 2 * Pow2(k - 1)
  }

  /** `n.toString(2)`: most significant digit first, no leading zero except for "0" itself. */
  function ToBase2(n: nat): (s: string)
    ensures |s| >= 1 && IsBinary(s)
    ensures |s| > 1 ==> s[0] == '1'
    decreases n
  {
    if n < 2 then [Digit(n)] else ToBase2(n / 2) + [Digit(n % 2)]
  }

  /** Reads a digit string as a base-2 number, most significant digit first. */
  function FromBase2(s: string): nat {
    if s == [] then 0 else 2 * FromBase2(s[..|s| - 1]) + DigitValue(s[|s| - 1])
  }

  function Zeros(k: nat): (z: string)
    ensures |z| == k
    ensures forall i :: 0 <= i < k ==> z[i] == '0'
  {
    if k == 0 then [] else ['0'] + Zeros(k - 1)
  }

  /** `s.padStart(width, '0')`: zeros on the left until `width`, never truncating. */
  function PadStart(s: string, width: nat): (r: string)
    ensures |r| == if |s| >= width then |s| else width
    ensures r[|r| - |s|..] == s
    ensures forall i :: 0 <= i < |r| - |s| ==> r[i] == '0'
  {
    if |s| >= width then s else Zeros(width - |s|) + s
  }

  lemma {:induction false} FromBase2ToBase2(n: nat)
    ensures FromBase2(ToBase2(n)) == n
    decreases n
  {
    if n >= 2 {
      var s := ToBase2(n);
      assert s[..|s| - 1] == ToBase2(n / 2);
      FromBase2ToBase2(n / 2);
    }
  }

  lemma {:induction false} FromBase2Zeros(k: nat)
    ensures FromBase2(Zeros(k)) == 0
    decreases k
  {
    if k > 0 {
      var z := Zeros(k);
      assert z[..k - 1] == Zeros(k - 1);
      FromBase2Zeros(k - 1);
    }
  }

  /** Leading zeros do not change the value read back. */
  lemma {:induction false} FromBase2LeadingZeros(k: nat, s: string)
    ensures FromBase2(Zeros(k) + s) == FromBase2(s)
    decreases |s|
  {
    if s == [] {
      assert Zeros(k) + s == Zeros(k);
      FromBase2Zeros(k);
    } else {
      var t := Zeros(k) + s;
      assert t[..|t| - 1] == Zeros(k) + s[..|s| - 1];
      FromBase2LeadingZeros(k, s[..|s| - 1]);
    }
  }

  /** `n` needs at most `k` base-2 digits exactly when it is below 2^k. */
  lemma {:induction false} ToBase2Length(n: nat, k: nat)
    requires k >= 1
    ensures |ToBase2(n)| <= k <==> n < Pow2(k)
    decreases n
  {
    if n >= 2 {
      if k == 1 {
        assert Pow2(1) == 2;
      } else {
        ToBase2Length(n / 2, k - 1);
      }
    } else {
      assert Pow2(k) >= 2 by { assert Pow2(k) == 2 * Pow2(k - 1); }
    }
  }

  /** Padding `n.toString(2)` to at least `width` digits keeps its value. */
  lemma PaddedRoundTrip(n: nat, width: nat)
    ensures FromBase2(PadStart(ToBase2(n), width)) == n
  {
    var s := ToBase2(n);
    if |s| < width {
      FromBase2LeadingZeros(width - |s|, s);
    }
    FromBase2ToBase2(n);
  }
}
