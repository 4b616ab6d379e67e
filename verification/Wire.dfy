/** Length-prefixed fields: how they are written, and how they are read from the front of a byte string. */
module Wire {
  import opened Basics

  const WORD: nat := 0x1_0000_0000

  /** Four big-endian bytes; larger numbers wrap around. */
  function U32(n: nat): (b: bytes)
    ensures |b| == 4
  {
    var w0 := n % WORD;
    var w1 := w0 / 0x100;
    var w2 := w1 / 0x100;
    var w3 := w2 / 0x100;
    [w3 as byte, (w2 % 0x100) as byte, (w1 % 0x100) as byte, (w0 % 0x100) as byte]
  }

  function FromU32(b: bytes): nat
    requires |b| == 4
  {
    b[0] as nat * 0x100_0000 + b[1] as nat * 0x1_0000 + b[2] as nat * 0x100 + b[3] as nat
  }

  lemma U32RoundTrip(n: nat)
    ensures FromU32(U32(n)) == n % WORD
  {
  }

  lemma FromU32RoundTrip(b: bytes)
    requires |b| == 4
    ensures FromU32(b) < WORD && U32(FromU32(b)) == b
  {
    var w0 := FromU32(b);
    var w1 := b[0] as nat * 0x1_0000 + b[1] as nat * 0x100 + b[2] as nat;
    var w2 := b[0] as nat * 0x100 + b[1] as nat;
    assert w0 % WORD == w0;
    assert w0 / 0x100 == w1 && w1 / 0x100 == w2 && w2 / 0x100 == b[0] as nat;
    assert U32(w0)[0] == b[0] && U32(w0)[1] == b[1] && U32(w0)[2] == b[2] && U32(w0)[3] == b[3];
  }

  /** A length prefix and that many bytes. */
  function Blob(b: bytes): bytes {
    U32(|b|) + b
  }

  // ----- Reading from the front; `None` is the end of the data -----

  function Take(data: bytes, n: nat): (r: Option<(bytes, bytes)>)
    ensures r.Some? <==> n <= |data|
    ensures r.Some? ==> |r.value.0| == n && r.value.0 + r.value.1 == data
  {
    if n <= |data| then Some((data[..n], data[n..])) else None
  }

  function TakeU8(data: bytes): Option<(byte, bytes)> {
    if 1 <= |data| then Some((data[0], data[1..])) else None
  }

  function TakeU32(data: bytes): Option<(nat, bytes)> {
    if 4 <= |data| then Some((FromU32(data[..4]), data[4..])) else None
  }

  function TakeBlob(data: bytes): Option<(bytes, bytes)> {
    match TakeU32(data)
    case None => None
    case Some((n, rest)) => Take(rest, n)
  }

  lemma TakeWritten(b: bytes, rest: bytes)
    ensures Take(b + rest, |b|) == Some((b, rest))
  {
  }

  lemma TakeU8Written(v: byte, rest: bytes)
    ensures TakeU8([v] + rest) == Some((v, rest))
  {
  }

  lemma TakeU32Written(n: nat, rest: bytes)
    ensures TakeU32(U32(n) + rest) == Some((n % WORD, rest))
  {
  }

  lemma TakeBlobWritten(b: bytes, rest: bytes)
    requires |b| < WORD
    ensures TakeBlob(Blob(b) + rest) == Some((b, rest))
  {
    assert Blob(b) + rest == U32(|b|) + (b + rest);
    TakeU32Written(|b|, b + rest);
    TakeWritten(b, rest);
  }

  /** What was read is what is written, so a field has one encoding. */
  lemma TakenWasWritten(data: bytes)
    ensures TakeU8(data).Some? ==> data == [TakeU8(data).value.0] + TakeU8(data).value.1
    ensures TakeU32(data).Some? ==>
              TakeU32(data).value.0 < WORD && data == U32(TakeU32(data).value.0) + TakeU32(data).value.1
    ensures TakeBlob(data).Some? ==>
              |TakeBlob(data).value.0| < WORD && data == Blob(TakeBlob(data).value.0) + TakeBlob(data).value.1
  {
    if TakeU32(data).Some? {
      FromU32RoundTrip(data[..4]);
      assert data == data[..4] + data[4..];
    }
    hide U32, FromU32;
    if TakeBlob(data).Some? {
      var (n, rest) := TakeU32(data).value;
      var (b, tail) := TakeBlob(data).value;
      assert U32(n) + (b + tail) == U32(n) + b + tail;
    }
  }
}
