/**
 SSH wire fields (section 5 of RFC 4251): the writer and the reader, and the
 multiple-precision integers they exchange.
 */
module SshEncoding {
  import opened Basics
  import opened BigEndian
  import opened Wire
  import Utf8

  const END_OF_BUFFER: string := "unexpected end of SSH buffer"

  // ----- Multiple-precision integers -----

  /** The content of an mpint field for a magnitude. */
  function Mpint(magnitude: bytes): bytes {
    var m := Strip(magnitude);
    if |m| > 0 && m[0] >= 0x80 then [0] + m else m
  }

  /** Two's complement value. */
  function Signed(c: bytes): int {
    if c != [] && c[0] >= 0x80 then Value(c) - Pow(|c|) else Value(c)
  }

  /** No unnecessary leading 0 or 255; zero has no bytes at all. */
  predicate Minimal(c: bytes) {
    && (|c| > 0 && c[0] == 0 ==> |c| > 1 && c[1] >= 0x80)
    && (|c| > 1 && c[0] == 255 ==> c[1] < 0x80)
  }

  lemma StripShortest(b: bytes)
    requires Shortest(b)
    ensures Strip(b) == b
  {
  }

  /** Reading an mpint gives back the magnitude without its leading zeros, of the same value. */
  lemma MpintRoundTrip(magnitude: bytes)
    ensures Strip(Mpint(magnitude)) == Strip(magnitude)
    ensures Value(Strip(Mpint(magnitude))) == Value(magnitude)
    ensures |Mpint(magnitude)| <= |magnitude| + 1
  {
    StripKeepsValue(magnitude);
    var m := Strip(magnitude);
    StripShortest(m);
    assert ([0] + m)[1..] == m;
  }

  lemma PaddedValue(m: bytes)
    ensures Value([0] + m) == Value(m)
  {
    ValueAppend([0], m);
    ValueOfOne(0);
  }

  lemma MpintValue(magnitude: bytes)
    ensures Signed(Mpint(magnitude)) == Value(magnitude)
  {
    StripKeepsValue(magnitude);
    PaddedValue(Strip(magnitude));
  }

  /** The content is minimal except for the one-byte zero. */
  lemma MpintMinimal(magnitude: bytes)
    ensures Minimal(Mpint(magnitude)) <==> Value(magnitude) > 0 || magnitude == []
  {
    StripKeepsValue(magnitude);
    var m := Strip(magnitude);
    if m != [] {
      LeadingByte(m);
      if m[0] != 0 {
        MulAtLeast(m[0] as nat, Pow(|m| - 1));
      } else {
        assert Value(m[1..]) == 0;
      }
    }
  }

  /** A minimal content of a positive value has no sign bit. */
  lemma PositiveIsUnsigned(c: bytes)
    requires Signed(c) > 0
    ensures c != [] && c[0] < 0x80
  {
    ValueBelow(c);
  }

  /** For a positive number the content written is the only minimal one. */
  lemma MpintUnique(magnitude: bytes, c: bytes)
    requires Value(magnitude) > 0 && Minimal(c) && Signed(c) == Value(magnitude)
    ensures c == Mpint(magnitude)
  {
    PositiveIsUnsigned(c);
    var m := Strip(magnitude);
    StripKeepsValue(magnitude);
    if c[0] == 0 {
      assert c == [0] + c[1..];
      PaddedValue(c[1..]);
      ShortestUnique(m, c[1..]);
    } else {
      ShortestUnique(m, c);
    }
  }

  // ----- Sequences of fields -----

  datatype Field =
    | ByteField(octet: byte)
    | WordField(word: nat)
    | RawField(raw: bytes)
    | StringField(content: bytes)
    | MpintField(magnitude: bytes)
  {
    /** Lengths and words fit 32 bits. */
    predicate Fits() {
      match this
      case ByteField(_) => true
      case WordField(w) => w < WORD
      case RawField(_) => true
      case StringField(b) => |b| < WORD
      case MpintField(m) => |m| + 1 < WORD
    }

    function Encode(): bytes {
      match this
      case ByteField(v) => [v]
      case WordField(w) => U32(w)
      case RawField(b) => b
      case StringField(b) => Blob(b)
      case MpintField(m) => Blob(Mpint(m))
    }

    /** What the matching read returns: the field, an mpint without its leading zeros. */
    function Returned(): Field {
      match this
      case MpintField(m) => MpintField(Strip(m))
      case _ => this
    }
  }

  datatype Call = CallByte | CallWord | CallRaw(n: nat) | CallString | CallMpint

  function CallFor(f: Field): Call {
    match f
    case ByteField(_) => CallByte
    case WordField(_) => CallWord
    case RawField(b) => CallRaw(|b|)
    case StringField(_) => CallString
    case MpintField(_) => CallMpint
  }

  function ReadOne(c: Call, data: bytes): Option<(Field, bytes)> {
    match c
    case CallByte => (match TakeU8(data) case None => None case Some((v, rest)) => Some((ByteField(v), rest)))
    case CallWord => (match TakeU32(data) case None => None case Some((w, rest)) => Some((WordField(w), rest)))
    case CallRaw(n) => (match Take(data, n) case None => None case Some((b, rest)) => Some((RawField(b), rest)))
    case CallString => (match TakeBlob(data) case None => None case Some((b, rest)) => Some((StringField(b), rest)))
    case CallMpint => (match TakeBlob(data) case None => None case Some((b, rest)) => Some((MpintField(Strip(b)), rest)))
  }

  function EncodeAll(fields: seq<Field>): bytes {
    if fields == [] then [] else fields[0].Encode() + EncodeAll(fields[1..])
  }

  function Calls(fields: seq<Field>): seq<Call> {
    seq(|fields|, i requires 0 <= i < |fields| => CallFor(fields[i]))
  }

  function AllReturned(fields: seq<Field>): seq<Field> {
    seq(|fields|, i requires 0 <= i < |fields| => fields[i].Returned())
  }

  function ReadAll(calls: seq<Call>, data: bytes): Option<(seq<Field>, bytes)> {
    if calls == [] then Some(([], data))
    else
      match ReadOne(calls[0], data)
      case None => None
      case Some((field, rest)) =>
        match ReadAll(calls[1..], rest)
        case None => None
        case Some((fields, tail)) => Some(([field] + fields, tail))
  }

  lemma ReadOneWritten(f: Field, rest: bytes)
    requires f.Fits()
    ensures ReadOne(CallFor(f), f.Encode() + rest) == Some((f.Returned(), rest))
  {
    match f
    case ByteField(v) => TakeU8Written(v, rest);
    case WordField(w) => TakeU32Written(w, rest);
    case RawField(b) => TakeWritten(b, rest);
    case StringField(b) => TakeBlobWritten(b, rest);
    case MpintField(m) =>
      MpintRoundTrip(m);
      TakeBlobWritten(Mpint(m), rest);
  }

  /** Any sequence of fields is read back by the matching reads, leaving exactly what followed it. */
  lemma {:induction false} FieldsRoundTrip(fields: seq<Field>, rest: bytes)
    requires forall f <- fields :: f.Fits()
    ensures ReadAll(Calls(fields), EncodeAll(fields) + rest) == Some((AllReturned(fields), rest))
  {
    hide ReadOne, CallFor, Field.Encode, Field.Returned, Field.Fits;
    if fields == [] {
      assert EncodeAll(fields) + rest == rest;
    } else {
      var tail := EncodeAll(fields[1..]) + rest;
      assert EncodeAll(fields) + rest == fields[0].Encode() + tail;
      ReadOneWritten(fields[0], tail);
      FieldsRoundTrip(fields[1..], rest);
      assert Calls(fields)[1..] == Calls(fields[1..]);
      assert AllReturned(fields) == [fields[0].Returned()] + AllReturned(fields[1..]);
    }
  }

  // ----- Writer -----

  function Flatten(chunks: seq<bytes>): bytes {
    if chunks == [] then [] else Flatten(chunks[..|chunks| - 1]) + chunks[|chunks| - 1]
  }

  class Writer {
    var chunks: seq<bytes>

    function Contents(): bytes
      reads this
    {
      Flatten(chunks)
    }

    constructor ()
      ensures Contents() == []
    {
      chunks := [];
    }

    method Push(chunk: bytes)
      modifies this
      ensures Contents() == old(Contents()) + chunk
    {
      chunks := chunks + [chunk];
      assert chunks[..|chunks| - 1] == old(chunks);
    }

    method Byte(v: byte)
      modifies this
      ensures Contents() == old(Contents()) + ByteField(v).Encode()
    {
      Push([v]);
    }

    method Word(v: nat)
      modifies this
      ensures Contents() == old(Contents()) + WordField(v).Encode()
    {
      Push(U32(v));
    }

    method Raw(b: bytes)
      modifies this
      ensures Contents() == old(Contents()) + RawField(b).Encode()
    {
      Push(b);
    }

    method Text(b: bytes)
      modifies this
      ensures Contents() == old(Contents()) + StringField(b).Encode()
    {
      Word(|b|);
      Push(b);
      assert old(Contents()) + U32(|b|) + b == old(Contents()) + Blob(b);
    }

    method Integer(magnitude: bytes)
      modifies this
      ensures Contents() == old(Contents()) + MpintField(magnitude).Encode()
    {
      var m := Strip(magnitude);
      var needsPad := |m| > 0 && m[0] >= 0x80;
      Text(if needsPad then [0] + m else m);
    }

    method Finish() returns (r: bytes)
      ensures r == Contents()
    {
      r := [];
      for i := 0 to |chunks|
        invariant r == Flatten(chunks[..i])
      {
        r := r + chunks[i];
        assert chunks[..i + 1][..i] == chunks[..i];
      }
      assert chunks[..|chunks|] == chunks;
    }
  }

  // ----- Reader -----

  class Reader {
    const buf: bytes
    var off: nat

    ghost predicate Valid()
      reads this
    {
      off <= |buf|
    }

    ghost function Rest(): bytes
      requires Valid()
      reads this
    {
      buf[off..]
    }

    constructor (buf: bytes)
      ensures Valid() && Rest() == buf
    {
      this.buf := buf;
      off := 0;
    }

    function Remaining(): (n: nat)
      requires Valid()
      reads this
      ensures n == |Rest()|
    {
      |buf| - off
    }

    /** Advance by `n` bytes, giving the offset before; nothing moves on failure. */
    method Take(n: int) returns (r: Result<nat, string>)
      requires Valid()
      modifies this
      ensures Valid()
      ensures if 0 <= n <= |old(Rest())| then r == Success(old(off)) && off == old(off) + n
              else r == Failure(END_OF_BUFFER) && off == old(off)
    {
      if n < 0 || off + n > |buf| {
        return Failure(END_OF_BUFFER);
      }
      r := Success(off);
      off := off + n;
    }

    method Byte() returns (r: Result<byte, string>)
      requires Valid()
      modifies this
      ensures Valid()
      ensures match TakeU8(old(Rest()))
              case Some((v, rest)) => r == Success(v) && Rest() == rest
              case None => r == Failure(END_OF_BUFFER) && Rest() == old(Rest())
    {
      var start :- Take(1);
      r := Success(buf[start]);
    }

    method Word() returns (r: Result<nat, string>)
      requires Valid()
      modifies this
      ensures Valid()
      ensures match TakeU32(old(Rest()))
              case Some((w, rest)) => r == Success(w) && Rest() == rest
              case None => r == Failure(END_OF_BUFFER) && Rest() == old(Rest())
    {
      var start :- Take(4);
      assert buf[start..start + 4] == old(Rest())[..4] && buf[start + 4..] == old(Rest())[4..];
      r := Success(FromU32(buf[start..start + 4]));
    }

    method Raw(n: int) returns (r: Result<bytes, string>)
      requires Valid()
      modifies this
      ensures Valid()
      ensures if n < 0 || |old(Rest())| < n then r == Failure(END_OF_BUFFER) && Rest() == old(Rest())
              else r.Success? && Wire.Take(old(Rest()), n) == Some((r.value, Rest()))
    {
      var start :- Take(n);
      assert buf[start..start + n] == old(Rest())[..n] && buf[start + n..] == old(Rest())[n..];
      r := Success(buf[start..start + n]);
    }

    /** A length prefix and that many bytes; a failure may leave the cursor after the prefix. */
    method Text() returns (r: Result<bytes, string>)
      requires Valid()
      modifies this
      ensures Valid()
      ensures match TakeBlob(old(Rest()))
              case Some((b, rest)) => r == Success(b) && Rest() == rest
              case None => r == Failure(END_OF_BUFFER)
    {
      var n :- Word();
      r := Raw(n);
    }

    /** A string decoded as UTF-8 text. */
    method Decoded() returns (r: Result<bytes, string>)
      requires Valid()
      modifies this
      ensures Valid()
      ensures match TakeBlob(old(Rest()))
              case Some((b, rest)) => r == Success(Utf8.Text(b)) && Rest() == rest
              case None => r == Failure(END_OF_BUFFER)
    {
      var b :- Text();
      r := Success(Utf8.Text(b));
    }

    method Integer() returns (r: Result<bytes, string>)
      requires Valid()
      modifies this
      ensures Valid()
      ensures match TakeBlob(old(Rest()))
              case Some((b, rest)) => r == Success(Strip(b)) && Rest() == rest
              case None => r == Failure(END_OF_BUFFER)
    {
      var b :- Text();
      r := Success(Strip(b));
    }
  }
}
