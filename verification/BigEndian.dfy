/** Unsigned big-endian magnitudes: their values, their shortest forms, and fixed widths. */
module BigEndian {
  import opened Basics

  function Pow(n: nat): (p: nat)
    ensures p > 0
  {
    if n == 0 then 1 else 256 * Pow(n - 1)
  }

  /** The number a byte string denotes. */
  function Value(b: bytes): nat {
    if b == [] then 0 else 256 * Value(b[..|b| - 1]) + b[|b| - 1] as nat
  }

  /** Drop leading zero bytes, keeping one byte of a zero. */
  function Strip(b: bytes): bytes {
    if |b| <= 1 || b[0] != 0 then b else Strip(b[1..])
  }

  /** No byte could be dropped. */
  predicate Shortest(b: bytes) {
    |b| <= 1 || b[0] != 0
  }

  function Zeros(n: nat): bytes {
    seq(n, _ => 0)
  }

  lemma {:induction false} ValueAppend(a: bytes, b: bytes)
    ensures Value(a + b) == Value(a) * Pow(|b|) + Value(b)
  {
    if b == [] {
      assert a + b == a;
    } else {
      var n := |b| - 1;
      ValueAppend(a, b[..n]);
      assert (a + b)[..|a + b| - 1] == a + b[..n];
      assert 256 * (Value(a) * Pow(n)) == Value(a) * Pow(n + 1);
    }
  }

  lemma {:induction false} ValueBelow(b: bytes)
    ensures Value(b) < Pow(|b|)
  {
    if b != [] {
      ValueBelow(b[..|b| - 1]);
    }
  }

  lemma ValueOfOne(x: byte)
    ensures Value([x]) == x as nat
  {
  }

  lemma LeadingByte(b: bytes)
    requires b != []
    ensures Value(b) == b[0] as nat * Pow(|b| - 1) + Value(b[1..])
  {
    assert b == [b[0]] + b[1..];
    ValueAppend([b[0]], b[1..]);
    ValueOfOne(b[0]);
  }

  lemma {:induction false} StripKeepsValue(b: bytes)
    ensures Value(Strip(b)) == Value(b) && Shortest(Strip(b)) && |Strip(b)| <= |b|
    ensures b != [] ==> Strip(b) != []
  {
    if |b| > 1 && b[0] == 0 {
      LeadingByte(b);
      StripKeepsValue(b[1..]);
    }
  }

  /** Byte strings of one length are told apart by their values. */
  lemma {:induction false} SameLengthInjective(a: bytes, b: bytes)
    requires |a| == |b| && Value(a) == Value(b)
    ensures a == b
  {
    if a != [] {
      var n := |a| - 1;
      assert a[n] as nat == Value(a) % 256 && b[n] as nat == Value(b) % 256;
      SameLengthInjective(a[..n], b[..n]);
      assert a == a[..n] + [a[n]] && b == b[..n] + [b[n]];
    }
  }

  lemma ShortestAtLeast(b: bytes)
    requires Shortest(b) && Value(b) > 0
    ensures b != [] && Value(b) >= Pow(|b| - 1)
  {
    LeadingByte(b);
    if |b| == 1 {
      assert Value(b[1..]) == 0;
    } else {
      MulAtLeast(b[0] as nat, Pow(|b| - 1));
    }
  }

  lemma MulAtLeast(a: nat, p: nat)
    requires a >= 1
    ensures a * p >= p
  {
  }

  lemma NotLonger(a: bytes, b: bytes)
    requires Value(a) == Value(b) && b != [] && Value(b) >= Pow(|b| - 1)
    ensures |b| <= |a|
  {
  }

  /** A positive number has exactly one shortest form. */
  lemma ShortestUnique(a: bytes, b: bytes)
    requires Shortest(a) && Shortest(b) && Value(a) == Value(b) > 0
    ensures a == b
  {
    ShortestAtLeast(a);
    ShortestAtLeast(b);
    NotLonger(a, b);
    NotLonger(b, a);
    SameLengthInjective(a, b);
  }

  lemma {:induction false} ZerosValue(n: nat)
    ensures Value(Zeros(n)) == 0
  {
    if n > 0 {
      ZerosValue(n - 1);
      assert Zeros(n)[..n - 1] == Zeros(n - 1);
    }
  }

  // ----- Fixed width -----

  /** Left-pad with zeros or keep the last bytes. */
  function Fixed(b: bytes, length: nat): (r: bytes)
    ensures |r| == length
  {
    if |b| >= length then b[|b| - length..] else Zeros(length - |b|) + b
  }

  /** The result is the value modulo the width, so it is kept exactly when it fits. */
  lemma FixedValue(b: bytes, length: nat)
    ensures Value(Fixed(b, length)) == Value(b) % Pow(length)
    ensures Value(Fixed(b, length)) == Value(b) <==> Value(b) < Pow(length)
  {
    hide Pow, Value, Zeros;
    var r := Fixed(b, length);
    ValueBelow(r);
    if |b| >= length {
      var head := b[..|b| - length];
      assert b == head + r;
      ValueAppend(head, r);
      QuotientRemainder(Value(head), Pow(length), Value(r));
    } else {
      ValueAppend(Zeros(length - |b|), b);
      ZerosValue(length - |b|);
      QuotientRemainder(0, Pow(length), Value(r));
    }
    if Value(b) < Pow(length) {
      QuotientRemainder(0, Pow(length), Value(b));
    }
  }

  lemma QuotientRemainder(q: nat, m: nat, r: nat)
    requires r < m
    ensures (q * m + r) % m == r && (q * m + r) / m == q
  {
    var x := q * m + r;
    var k := x / m - q;
    assert m * (x / m) + x % m == x;
    assert m * k == m * (x / m) - m * q;
    SmallMultiple(m, k);
  }

  lemma SmallMultiple(m: int, k: int)
    requires -m < m * k < m
    ensures k == 0
  {
  }
}
