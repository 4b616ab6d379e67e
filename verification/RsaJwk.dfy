/**
 Integers in the private JWK of an RSA key: bytes to numbers and back (section
 2 of RFC 7518), fixed-width fields, and the CRT exponents (section 3.2 of RFC
 8017) that OpenSSH does not store.
 */
module RsaJwk {
  import opened Basics
  import opened BigEndian

  // ----- Bytes to numbers -----

  /** Fold the bytes from the left. */
  function ToBigInt(b: bytes, n: nat := 0): nat {
    if b == [] then n else ToBigInt(b[1..], n * 256 + b[0] as nat)
  }

  lemma {:induction false} ToBigIntFolds(b: bytes, n: nat)
    ensures ToBigInt(b, n) == n * Pow(|b|) + Value(b)
    decreases |b|
  {
    if b != [] {
      ToBigIntFolds(b[1..], n * 256 + b[0] as nat);
      LeadingByte(b);
      Distribute(n, b[0] as nat, Pow(|b| - 1));
    }
  }

  lemma Distribute(n: nat, x: nat, p: nat)
    ensures (n * 256 + x) * p == n * (256 * p) + x * p
  {
  }

  // ----- Numbers to bytes, by way of hexadecimal digits -----

  predicate Nibbles(h: seq<nat>) {
    forall i | 0 <= i < |h| :: h[i] < 16
  }

  function Hex(n: nat): (h: seq<nat>)
    ensures Nibbles(h) && |h| > 0
  {
    if n < 16 then [n] else Hex(n / 16) + [n % 16]
  }

  function Pairs(h: seq<nat>): (b: bytes)
    requires Nibbles(h) && |h| % 2 == 0
    ensures |b| == |h| / 2
  {
    if h == [] then [] else Pairs(h[..|h| - 2]) + [(h[|h| - 2] * 16 + h[|h| - 1]) as byte]
  }

  function Even(h: seq<nat>): (r: seq<nat>)
    requires Nibbles(h)
    ensures Nibbles(r) && |r| % 2 == 0
  {
    if |h| % 2 == 0 then h else [0] + h
  }

  function FromBigInt(n: nat): bytes {
    Pairs(Even(Hex(n)))
  }

  function HexValue(h: seq<nat>): nat {
    if h == [] then 0 else 16 * HexValue(h[..|h| - 1]) + h[|h| - 1]
  }

  lemma {:induction false} HexDenotes(n: nat)
    ensures HexValue(Hex(n)) == n
    ensures Hex(n)[0] == 0 ==> n == 0 && |Hex(n)| == 1
  {
    var h := Hex(n);
    if n < 16 {
      assert h[..0] == [];
    } else {
      HexDenotes(n / 16);
      assert h[..|h| - 1] == Hex(n / 16);
    }
  }

  lemma {:induction false} HexPadding(h: seq<nat>)
    ensures HexValue([0] + h) == HexValue(h)
  {
    var p := [0] + h;
    if h == [] {
      assert p[..0] == [];
    } else {
      HexPadding(h[..|h| - 1]);
      assert p[..|p| - 1] == [0] + h[..|h| - 1];
    }
  }

  lemma {:induction false} PairsDenote(h: seq<nat>)
    requires Nibbles(h) && |h| % 2 == 0
    ensures Value(Pairs(h)) == HexValue(h)
    ensures h != [] ==> Pairs(h)[0] as nat == h[0] * 16 + h[1]
  {
    if h != [] {
      var front := h[..|h| - 2];
      PairsDenote(front);
      var b := Pairs(h);
      assert b[..|b| - 1] == Pairs(front);
      assert h[..|h| - 1][..|h| - 2] == front;
      assert HexValue(h[..|h| - 1]) == 16 * HexValue(front) + h[|h| - 2];
    }
  }

  /** The number comes back as its shortest big-endian form; zero is one zero byte. */
  lemma FromBigIntDenotes(n: nat)
    ensures Value(FromBigInt(n)) == n && Shortest(FromBigInt(n)) && FromBigInt(n) != []
    ensures ToBigInt(FromBigInt(n)) == n
  {
    HexDenotes(n);
    HexPadding(Hex(n));
    PairsDenote(Even(Hex(n)));
    ToBigIntFolds(FromBigInt(n), 0);
  }

  /** Converting bytes to a number and back strips leading zeros and nothing else. */
  lemma BigIntRoundTrip(b: bytes)
    requires b != []
    ensures FromBigInt(ToBigInt(b)) == Strip(b)
  {
    var n := ToBigInt(b);
    ToBigIntFolds(b, 0);
    FromBigIntDenotes(n);
    StripKeepsValue(b);
    if n > 0 {
      ShortestUnique(FromBigInt(n), Strip(b));
    } else {
      ZeroForm(FromBigInt(n));
      ZeroForm(Strip(b));
    }
  }

  lemma ZeroForm(b: bytes)
    requires Value(b) == 0 && Shortest(b) && b != []
    ensures b == [0]
  {
  }

  // ----- Fixed width -----

  /** Left-pad or trim to an exact length. */
  method FixedWidth(b: bytes, length: nat) returns (r: array<byte>)
    ensures fresh(r) && r[..] == Fixed(b, length)
  {
    r := new byte[length](_ => 0);
    var shift := length - |b|;
    for i := 0 to length
      invariant forall j | 0 <= j < i :: r[j] == Fixed(b, length)[j]
      invariant forall j | i <= j < length :: r[j] == 0
    {
      if i >= shift {
        r[i] := b[i - shift];
      }
    }
  }

  // ----- The private JWK -----

  datatype RsaKey = RsaKey(n: bytes, e: bytes, d: bytes, p: bytes, q: bytes, iqmp: bytes)

  datatype PrivateJwk = PrivateJwk(n: bytes, e: bytes, d: bytes, p: bytes, q: bytes, dp: bytes, dq: bytes, qi: bytes)

  datatype RangeError = DivisionByZero

  /** Remainder of a non-negative number; its sign is that of the dividend. */
  function Remainder(a: nat, m: int): Result<nat, RangeError> {
    if m == 0 then Failure(DivisionByZero) else if m > 0 then Success(a % m) else Success(a % -m)
  }

  function Jwk(key: RsaKey): Result<PrivateJwk, RangeError> {
    var d, p, q := ToBigInt(key.d), ToBigInt(key.p), ToBigInt(key.q);
    var dp :- Remainder(d, p - 1);
    var dq :- Remainder(d, q - 1);
    Success(PrivateJwk(key.n, key.e, key.d, key.p, key.q, FromBigInt(dp), FromBigInt(dq), key.iqmp))
  }

  predicate Congruent(x: int, y: int, m: int)
    requires m > 0
  {
    (x - y) % m == 0
  }

  ghost predicate CommonMultiple(x: int, a: int, b: int)
    requires a > 0 && b > 0
  {
    x % a == 0 && x % b == 0
  }

  ghost predicate IsLcm(l: int, a: int, b: int)
    requires a > 0 && b > 0
  {
    l > 0 && CommonMultiple(l, a, b) && forall x | 0 < x < l :: !CommonMultiple(x, a, b)
  }

  /** The least common multiple, searched for from `k` on; the product bounds the search. */
  ghost function LeastFrom(k: int, a: int, b: int): (l: int)
    requires a > 0 && b > 0 && 0 < k <= a * b
    requires forall x | 0 < x < k :: !CommonMultiple(x, a, b)
    ensures IsLcm(l, a, b)
    decreases a * b - k
  {
    MultipleModulo(a, b);
    MultipleModulo(b, a);
    if CommonMultiple(k, a, b) then k else LeastFrom(k + 1, a, b)
  }

  ghost function Lcm(a: int, b: int): (l: int)
    requires a > 0 && b > 0
    ensures IsLcm(l, a, b)
  {
    LeastFrom(1, a, b)
  }

  lemma MultipleModulo(m: int, k: int)
    requires m > 0
    ensures (m * k) % m == 0
  {
    var x := m * k;
    assert m * (x / m) + x % m == x;
    assert m * (k - x / m) == x % m;
    SmallMultiple(m, k - x / m);
  }

  /** Adding a multiple keeps divisibility. */
  lemma AddMultiple(x: int, m: int, k: int)
    requires m > 0
    ensures (x + m * k) % m == 0 <==> x % m == 0
  {
    if x % m == 0 {
      assert x == m * (x / m);
      assert x + m * k == m * (x / m + k);
      MultipleModulo(m, x / m + k);
    }
    if (x + m * k) % m == 0 {
      var y := x + m * k;
      assert y == m * (y / m);
      assert x == m * (y / m - k);
      MultipleModulo(m, y / m - k);
    }
  }

  lemma ReduceBy(x: int, l: int, a: int)
    requires l > 0 && a > 0 && l % a == 0
    ensures (x % l) % a == 0 <==> x % a == 0
  {
    var q, r, k := x / l, x % l, l / a;
    assert x == r + l * q && l == a * k;
    Associate(a, k, q);
    AddMultiple(r, a, k * q);
  }

  lemma Associate(a: int, k: int, q: int)
    ensures a * k * q == a * (k * q)
  {
  }

  /** Being congruent modulo the least common multiple is being congruent modulo both numbers. */
  lemma CongruentLcm(x: int, l: int, a: int, b: int)
    requires a > 0 && b > 0 && IsLcm(l, a, b)
    ensures Congruent(x, 1, l) <==> Congruent(x, 1, a) && Congruent(x, 1, b)
  {
    ReduceBy(x - 1, l, a);
    ReduceBy(x - 1, l, b);
    LcmReduced(x - 1, l, a, b);
  }

  lemma LcmReduced(x: int, l: int, a: int, b: int)
    requires a > 0 && b > 0 && IsLcm(l, a, b)
    ensures x % l == 0 <==> CommonMultiple(x % l, a, b)
  {
  }

  /** Reducing the exponent does not change its products modulo `m`. */
  lemma ReducedExponent(e: nat, d: nat, m: int)
    requires m > 0
    ensures Congruent(e * (d % m), 1, m) <==> Congruent(e * d, 1, m)
  {
    var k := d / m;
    assert d == m * k + d % m;
    assert e * d - 1 == (e * (d % m) - 1) + m * (e * k) by {
      assert e * (m * k) == m * (e * k);
      assert e * d == e * (m * k) + e * (d % m);
    }
    AddMultiple(e * (d % m) - 1, m, e * k);
  }

  /** The JWK is refused exactly when a factor is one. */
  lemma JwkExactly(key: RsaKey)
    ensures Jwk(key).Failure? <==> Value(key.p) == 1 || Value(key.q) == 1
  {
    ToBigIntFolds(key.p, 0);
    ToBigIntFolds(key.q, 0);
  }

  /**
   The exponents emitted are the reduced ones, and they invert `e` modulo p - 1
   and q - 1 exactly when `d` inverts `e` modulo the least common multiple.
   */
  lemma CrtExponents(key: RsaKey)
    requires Value(key.p) > 1 && Value(key.q) > 1
    ensures Jwk(key).Success?
    ensures var (e, d, p1, q1) := (Value(key.e), Value(key.d), Value(key.p) - 1, Value(key.q) - 1);
            var (dp, dq) := (Value(Jwk(key).value.dp), Value(Jwk(key).value.dq));
            && dp == d % p1 && dq == d % q1
            && (Congruent(e * d, 1, Lcm(p1, q1)) <==> Congruent(e * dp, 1, p1) && Congruent(e * dq, 1, q1))
  {
    hide *;
    var e, d, p1, q1 := Value(key.e), Value(key.d), Value(key.p) - 1, Value(key.q) - 1;
    JwkExponents(key);
    ReducedExponent(e, d, p1);
    ReducedExponent(e, d, q1);
    CongruentLcm(e * d, Lcm(p1, q1), p1, q1);
  }

  lemma JwkExponents(key: RsaKey)
    requires Value(key.p) > 1 && Value(key.q) > 1
    ensures Jwk(key).Success?
    ensures Value(Jwk(key).value.dp) == Value(key.d) % (Value(key.p) - 1)
    ensures Value(Jwk(key).value.dq) == Value(key.d) % (Value(key.q) - 1)
  {
    hide ToBigInt, FromBigInt, Value, Pow;
    ToBigIntFolds(key.d, 0);
    ToBigIntFolds(key.p, 0);
    ToBigIntFolds(key.q, 0);
    FromBigIntDenotes(Value(key.d) % (Value(key.p) - 1));
    FromBigIntDenotes(Value(key.d) % (Value(key.q) - 1));
  }
}
