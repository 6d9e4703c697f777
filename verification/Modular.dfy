/** Arithmetic of the scalar field: integers taken modulo a prime `q`.

    Scalars are the canonical integers in [0, q). Proofs work on plain integers up to the
    congruence `Cong`, so that an algebraic identity is an identity over the integers and only
    the last step talks about remainders.
*/
module Modular {

  predicate Divides(d: int, n: int)
    requires d != 0
  {
    n % d == 0
  }

  ghost predicate IsPrime(q: int) {
    1 < q && forall d :: 1 < d < q ==> !Divides(d, q)
  }

  /** The orders this project speaks about. Party indices are non-zero bytes, so every prime above
      255 keeps them distinct and non-zero; the order of secp256k1 is one such prime. */
  ghost predicate FieldOrder(q: int) {
    255 < q && IsPrime(q)
  }

  predicate InField(q: int, x: int) {
    0 <= x < q
  }

  /** A product. The proofs about long sums keep it folded, and only the algebra multiplies out. */
  function Times(x: int, y: int): int {
    x * y
  }

  lemma OneTimes(x: int)
    ensures Times(1, x) == x && Times(x, 1) == x
  {
  }

  predicate Cong(q: int, x: int, y: int)
    requires 0 < q
  {
    (x - y) % q == 0
  }

  // ---- remainders -----------------------------------------------------------------------------

  lemma MultipleHasNoRemainder(q: int, k: int)
    requires 0 < q
    ensures (k * q) % q == 0
  {
    var d, r := (k * q) / q, (k * q) % q;
    assert (k - d) * q == r;
    assert k - d >= 1 ==> (k - d) * q >= q;
    assert k - d <= -1 ==> (k - d) * q <= -q;
  }

  lemma CongFromMultiple(q: int, x: int, y: int, k: int)
    requires 0 < q && x - y == k * q
    ensures Cong(q, x, y)
  {
    MultipleHasNoRemainder(q, k);
  }

  lemma Quotient(q: int, x: int, y: int) returns (k: int)
    requires 0 < q && Cong(q, x, y)
    ensures x - y == k * q
  {
    k := (x - y) / q;
  }

  lemma CongRefl(q: int, x: int)
    requires 0 < q
    ensures Cong(q, x, x)
  {
  }

  lemma CongSym(q: int, x: int, y: int)
    requires 0 < q && Cong(q, x, y)
    ensures Cong(q, y, x)
  {
    var k := Quotient(q, x, y);
    CongFromMultiple(q, y, x, -k);
  }

  lemma CongTrans(q: int, x: int, y: int, z: int)
    requires 0 < q && Cong(q, x, y) && Cong(q, y, z)
    ensures Cong(q, x, z)
  {
    var k := Quotient(q, x, y);
    var m := Quotient(q, y, z);
    CongFromMultiple(q, x, z, k + m);
  }

  lemma CongAdd(q: int, x: int, y: int, u: int, v: int)
    requires 0 < q && Cong(q, x, y) && Cong(q, u, v)
    ensures Cong(q, x + u, y + v)
  {
    var k := Quotient(q, x, y);
    var m := Quotient(q, u, v);
    CongFromMultiple(q, x + u, y + v, k + m);
  }

  lemma CongSub(q: int, x: int, y: int, u: int, v: int)
    requires 0 < q && Cong(q, x, y) && Cong(q, u, v)
    ensures Cong(q, x - u, y - v)
  {
    var k := Quotient(q, x, y);
    var m := Quotient(q, u, v);
    CongFromMultiple(q, x - u, y - v, k - m);
  }

  lemma CongScale(q: int, c: int, x: int, y: int)
    requires 0 < q && Cong(q, x, y)
    ensures Cong(q, c * x, c * y)
  {
    var k := Quotient(q, x, y);
    CongFromMultiple(q, c * x, c * y, c * k);
  }

  lemma CongMul(q: int, x: int, y: int, u: int, v: int)
    requires 0 < q && Cong(q, x, y) && Cong(q, u, v)
    ensures Cong(q, x * u, y * v)
  {
    CongScale(q, u, x, y);
    CongScale(q, y, u, v);
    CongTrans(q, u * x, u * y, y * v);
  }

  /** Reducing changes nothing up to congruence. */
  lemma CongReduce(q: int, x: int)
    requires 0 < q
    ensures InField(q, x % q) && Cong(q, x % q, x) && Cong(q, x, x % q)
  {
    CongFromMultiple(q, x % q, x, -(x / q));
    CongFromMultiple(q, x, x % q, x / q);
  }

  lemma SmallMultipleIsZero(q: int, n: int)
    requires 0 < q && n % q == 0 && -q < n < q
    ensures n == 0
  {
    var k := n / q;
    assert n == k * q;
    assert k >= 1 ==> k * q >= q;
    assert k <= -1 ==> k * q <= -q;
  }

  /** Two congruent scalars are the same scalar. */
  lemma CanonicalEqual(q: int, x: int, y: int)
    requires 0 < q && InField(q, x) && InField(q, y) && Cong(q, x, y)
    ensures x == y
  {
    SmallMultipleIsZero(q, x - y);
  }

  /** Congruence is equality of remainders. */
  lemma CongIsEqualRemainders(q: int, x: int, y: int)
    requires 0 < q
    ensures Cong(q, x, y) <==> x % q == y % q
  {
    CongReduce(q, x);
    CongReduce(q, y);
    if Cong(q, x, y) {
      CongTrans(q, x % q, x, y);
      CongTrans(q, x % q, y, y % q);
      CanonicalEqual(q, x % q, y % q);
    }
    if x % q == y % q {
      CongTrans(q, x, x % q, y);
    }
  }

  // ---- inverses -------------------------------------------------------------------------------

  /** An inverse of `a`, found by dividing `q` by `a` and inverting the remainder. */
  function InverseOf(q: int, a: int): (r: int)
    requires FieldOrder(q) && 0 < a < q
    ensures Cong(q, a * r, 1)
    decreases a
  {
    if a == 1 then
      CongRefl(q, 1);
      1
    else
      assert !Divides(a, q);
      var k, rem := q / a, q % a;
      assert q == k * a + rem;
      var inv := InverseOf(q, rem);
      InverseStep(q, a, k, rem, inv);
      -k * inv
  }

  lemma InverseStep(q: int, a: int, k: int, rem: int, inv: int)
    requires 0 < q && q == k * a + rem && Cong(q, rem * inv, 1)
    ensures Cong(q, a * (-k * inv), 1)
  {
    var m := Quotient(q, rem * inv, 1);
    assert a * (-k * inv) == -(k * a) * inv;
    assert -(k * a) * inv == (rem - q) * inv == rem * inv - inv * q;
    CongFromMultiple(q, a * (-k * inv), 1, m - inv);
  }

  /** The canonical inverse of a scalar that is not zero: what `Scalar::invert` yields. */
  function Inverse(q: int, d: int): (r: int)
    requires FieldOrder(q) && d % q != 0
    ensures InField(q, r) && Cong(q, d * r, 1)
  {
    var raw := InverseOf(q, d % q);
    CongReduce(q, d);
    CongReduce(q, raw);
    CongMul(q, d, d % q, raw % q, raw);
    CongTrans(q, d * (raw % q), (d % q) * raw, 1);
    raw % q
  }

  /** A factor that is not zero can be cancelled. */
  lemma Cancel(q: int, d: int, x: int, y: int)
    requires FieldOrder(q) && d % q != 0 && Cong(q, d * x, d * y)
    ensures Cong(q, x, y)
  {
    var inv := Inverse(q, d);
    CongScale(q, inv, d * x, d * y);
    assert inv * (d * x) == (d * inv) * x;
    assert inv * (d * y) == (d * inv) * y;
    CongRefl(q, x);
    CongRefl(q, y);
    CongMul(q, d * inv, 1, x, x);
    CongMul(q, d * inv, 1, y, y);
    CongSym(q, (d * inv) * x, x);
    CongTrans(q, x, (d * inv) * x, (d * inv) * y);
    CongTrans(q, x, (d * inv) * y, y);
  }

  /** Euclid's lemma: a product of scalars that are not zero is not zero. */
  lemma ProductIsNotZero(q: int, x: int, y: int)
    requires FieldOrder(q) && x % q != 0 && y % q != 0
    ensures (x * y) % q != 0
  {
    if (x * y) % q == 0 {
      assert Cong(q, x * y, x * 0);
      Cancel(q, x, y, 0);
    }
  }

  lemma DifferenceIsNotZero(q: int, x: int, y: int)
    requires 0 < q && InField(q, x) && InField(q, y) && x != y
    ensures (x - y) % q != 0
  {
    if (x - y) % q == 0 {
      SmallMultipleIsZero(q, x - y);
    }
  }

  lemma NonZeroScalar(q: int, x: int)
    requires 0 < q && 0 < x < q
    ensures x % q != 0
  {
  }
}
