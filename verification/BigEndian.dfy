// The integers of a JSON Web Key: shortest big-endian byte strings.

module BigEndian {
  import opened Base64

  function Pow256(k: nat): (p: nat)
    ensures p > 0
  {
    if k == 0 then 1 else 256 * Pow256(k - 1)
  }

  function Number(b: seq<byte>): nat {
    if b == [] then 0 else b[0] * Pow256(|b| - 1) + Number(b[1..])
  }

  /** Section 2 of RFC 7518: no leading zero octet, and zero itself is one zero octet. */
  predicate Minimal(b: seq<byte>) {
    |b| > 0 && (b[0] == 0 ==> |b| == 1)
  }

  lemma {:induction false} NumberBounded(b: seq<byte>)
    ensures Number(b) < Pow256(|b|)
  {
    if b != [] {
      NumberBounded(b[1..]);
      LeadBounded(b[0], Number(b[1..]), Pow256(|b| - 1));
    }
  }

  lemma LeadBounded(x: byte, r: nat, p: nat)
    requires r < p
    ensures x * p + r < 256 * p
  {
    MulMonotone(x + 1, 256, p);
  }

  lemma MulMonotone(a: nat, b: nat, p: nat)
    requires a <= b
    ensures a * p <= b * p
  {
  }

  lemma {:induction false} PowMonotone(j: nat, k: nat)
    requires j <= k
    ensures Pow256(j) <= Pow256(k)
    decreases k
  {
    if j < k {
      PowMonotone(j, k - 1);
    }
  }

  /** A minimal string of more than one octet is worth at least its leading power. */
  lemma MinimalBelow(b: seq<byte>)
    requires Minimal(b) && |b| > 1
    ensures Pow256(|b| - 1) <= Number(b)
  {
    MulMonotone(1, b[0], Pow256(|b| - 1));
  }

  lemma SameLength(a: seq<byte>, b: seq<byte>)
    requires Minimal(a) && Minimal(b) && Number(a) == Number(b) && |a| <= |b|
    ensures |a| == |b|
  {
    if |a| < |b| {
      MinimalBelow(b);
      NumberBounded(a);
      PowMonotone(|a|, |b| - 1);
      assert false;
    }
  }

  lemma {:induction false} SameDigits(a: seq<byte>, b: seq<byte>)
    requires |a| == |b| && Number(a) == Number(b)
    ensures a == b
  {
    if a != [] {
      var p := Pow256(|a| - 1);
      NumberBounded(a[1..]);
      NumberBounded(b[1..]);
      LeadingDigit(a[0], Number(a[1..]), b[0], Number(b[1..]), p);
      SameDigits(a[1..], b[1..]);
      assert a == [a[0]] + a[1..] && b == [b[0]] + b[1..];
    }
  }

  lemma LeadingDigit(x: nat, r: nat, y: nat, s: nat, p: nat)
    requires r < p && s < p && x * p + r == y * p + s
    ensures x == y && r == s
  {
    if x < y {
      MulMonotone(x + 1, y, p);
      assert false;
    } else if y < x {
      MulMonotone(y + 1, x, p);
      assert false;
    }
  }

  /** A number has only one minimal encoding. */
  lemma MinimalIsUnique(a: seq<byte>, b: seq<byte>)
    requires Minimal(a) && Minimal(b) && Number(a) == Number(b)
    ensures a == b
  {
    if |a| <= |b| {
      SameLength(a, b);
    } else {
      SameLength(b, a);
    }
    SameDigits(a, b);
  }

  /** Decodes to the number it was given, and is the one minimal string that does. A negative
      number, which no public exponent is, prints as zero. */
  method BigIntBytes(n: int) returns (b: seq<byte>)
    ensures Number(b) == if n >= 0 then n else 0
    ensures Minimal(b)
    ensures forall other: seq<byte> :: Minimal(other) && Number(other) == Number(b) ==> other == b
  {
    b := [];
    var rest := n;
    while rest > 0
      invariant n > 0 ==> rest >= 0
      invariant n <= 0 ==> rest == n && b == []
      invariant n > 0 ==> n == rest * Pow256(|b|) + Number(b)
      invariant rest <= 0 && n > 0 ==> |b| > 0 && b[0] != 0
    {
      ghost var p := Pow256(|b|);
      var low: byte := rest % 256;
      assert ([low] + b)[1..] == b;
      assert rest * p == (rest / 256) * (256 * p) + low * p by {
        assert rest == 256 * (rest / 256) + low;
      }
      b := [low] + b;
      rest := rest / 256;
    }
    if |b| == 0 {
      b := [0];
      assert [0][1..] == [];
    }
    forall other: seq<byte> | Minimal(other) && Number(other) == Number(b) ensures other == b {
      MinimalIsUnique(other, b);
    }
  }
}
