/** The text the client keys its buffer by, and why it names one request and attempt. */
module RequestKey {

  function Digit(d: nat): char
    requires d < 10
  {
    "0123456789"[d]
  }

  function Decimal(n: nat): string {
    if n < 10 then [Digit(n)] else Decimal(n / 10) + [Digit(n % 10)]
  }

  function RequestKey(requestId: string, attempt: nat): string {
    requestId + ":" + Decimal(attempt)
  }

  function DigitValue(c: char): nat {
    if '0' <= c <= '9' then (c as int) - ('0' as int) else 0
  }

  function Value(s: string): nat {
    if s == "" then 0 else 10 * Value(s[..|s| - 1]) + DigitValue(s[|s| - 1])
  }

  lemma {:induction false} DecimalValue(n: nat)
    ensures Value(Decimal(n)) == n && |Decimal(n)| > 0
    ensures forall i | 0 <= i < |Decimal(n)| :: Decimal(n)[i] != ':'
  {
    if n < 10 {
      assert Decimal(n)[..0] == "";
    } else {
      DecimalValue(n / 10);
      var s := Decimal(n);
      assert s[..|s| - 1] == Decimal(n / 10);
    }
  }

  lemma SameSuffix(a: string, da: string, b: string, db: string)
    requires a + ":" + da == b + ":" + db && |da| <= |db|
    requires forall i | 0 <= i < |db| :: db[i] != ':'
    ensures a == b && da == db
  {
    var s := a + ":" + da;
    assert s[|a|] == ':';
    assert |a| == |b|;
    assert s[..|a|] == a && s[..|b|] == b;
    assert s[|a| + 1..] == da && s[|b| + 1..] == db;
  }

  /** Distinct (request, attempt) pairs have distinct keys, whatever text the request id is. */
  lemma RequestKeyInjective(a: string, m: nat, b: string, n: nat)
    requires RequestKey(a, m) == RequestKey(b, n)
    ensures a == b && m == n
  {
    DecimalValue(m);
    DecimalValue(n);
    if |Decimal(m)| <= |Decimal(n)| {
      SameSuffix(a, Decimal(m), b, Decimal(n));
    } else {
      SameSuffix(b, Decimal(n), a, Decimal(m));
    }
  }
}
