/**
 UTF-8 as the Unicode Standard's table of well-formed byte sequences has it,
 and lossy decoding, which puts U+FFFD for each maximal ill-formed part.
 Decoded text is kept as the UTF-8 of its characters.
 */
module Utf8 {
  import opened Basics

  const REPLACEMENT: bytes := [0xEF, 0xBF, 0xBD]
  const BYTE_ORDER_MARK: bytes := [0xEF, 0xBB, 0xBF]

  predicate Continuation(b: byte) {
    0x80 <= b <= 0xBF
  }

  /** How many bytes the lead byte announces; 0 if it cannot lead. */
  function Announced(lead: byte): (n: nat)
    ensures n <= 4
  {
    if lead <= 0x7F then 1
    else if 0xC2 <= lead <= 0xDF then 2
    else if 0xE0 <= lead <= 0xEF then 3
    else if 0xF0 <= lead <= 0xF4 then 4
    else 0
  }

  /** Which second bytes may follow a lead byte. */
  predicate MayFollow(lead: byte, second: byte) {
    Continuation(second) &&
    (lead == 0xE0 ==> 0xA0 <= second) &&
    (lead == 0xED ==> second <= 0x9F) &&
    (lead == 0xF0 ==> 0x90 <= second) &&
    (lead == 0xF4 ==> second <= 0x8F)
  }

  /** The length of the longest front part that could begin a character. */
  function Begun(b: bytes): (n: nat)
    ensures n <= |b|
    ensures b != [] && n > 0 ==> n <= Announced(b[0])
  {
    if b == [] || Announced(b[0]) == 0 then 0
    else if Announced(b[0]) == 1 || |b| == 1 || !MayFollow(b[0], b[1]) then 1
    else if Announced(b[0]) == 2 || |b| == 2 || !Continuation(b[2]) then 2
    else if Announced(b[0]) == 3 || |b| == 3 || !Continuation(b[3]) then 3
    else 4
  }

  /** The length of the first character, or 0 if the front is ill-formed. */
  function First(b: bytes): (n: nat)
    ensures n <= |b|
  {
    if b != [] && Begun(b) == Announced(b[0]) then Begun(b) else 0
  }

  predicate Valid(b: bytes) {
    b == [] || (First(b) > 0 && Valid(b[First(b)..]))
  }

  function Lossy(b: bytes): bytes {
    if b == [] then []
    else if First(b) > 0 then b[..First(b)] + Lossy(b[First(b)..])
    else if Begun(b) > 0 then REPLACEMENT + Lossy(b[Begun(b)..])
    else REPLACEMENT + Lossy(b[1..])
  }

  /** Decoding for text fields drops a leading byte order mark. */
  function Text(b: bytes): bytes {
    if BYTE_ORDER_MARK <= b then Lossy(b[3..]) else Lossy(b)
  }

  lemma {:induction false} ValidPrepends(c: bytes, b: bytes)
    requires First(c) == |c| > 0 && Valid(b)
    ensures Valid(c + b)
  {
  }

  /** Lossy decoding always gives well-formed text. */
  lemma {:induction false} LossyIsValid(b: bytes)
    ensures Valid(Lossy(b))
    decreases |b|
  {
    assert First(REPLACEMENT) == 3;
    if b != [] {
      var n := First(b);
      if n > 0 {
        LossyIsValid(b[n..]);
        FirstOfFirst(b);
        ValidPrepends(b[..n], Lossy(b[n..]));
      } else if Begun(b) > 0 {
        LossyIsValid(b[Begun(b)..]);
        ValidPrepends(REPLACEMENT, Lossy(b[Begun(b)..]));
      } else {
        LossyIsValid(b[1..]);
        ValidPrepends(REPLACEMENT, Lossy(b[1..]));
      }
    }
  }

  lemma FirstOfFirst(b: bytes)
    requires First(b) > 0
    ensures First(b[..First(b)]) == First(b)
  {
  }

  lemma {:induction false} ValidIsKept(b: bytes)
    requires Valid(b)
    ensures Lossy(b) == b
  {
    if b != [] {
      ValidIsKept(b[First(b)..]);
      assert b == b[..First(b)] + b[First(b)..];
    }
  }

  /** Lossy decoding keeps exactly the well-formed byte strings. */
  lemma LossyKeepsExactly(b: bytes)
    ensures Lossy(b) == b <==> Valid(b)
  {
  }

  /** A text field is kept exactly when it is well formed and does not start with a byte order mark. */
  lemma TextKeepsExactly(b: bytes)
    ensures Text(b) == b <==> Valid(b) && !(BYTE_ORDER_MARK <= b)
  {
    if BYTE_ORDER_MARK <= b {
      if Text(b) == b {
        LossyIsValid(b[3..]);
        assert First(b) == 3;
        ValidIsKept(b[3..]);
        assert false;
      }
    } else {
      LossyKeepsExactly(b);
    }
  }

  lemma {:induction false} ValidAscii(b: bytes)
    requires forall i | 0 <= i < |b| :: b[i] <= 0x7F
    ensures Valid(b)
  {
    if b != [] {
      ValidAscii(b[1..]);
    }
  }
}
