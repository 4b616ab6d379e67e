/**
 The context extension a local client sends ahead of its requests: encoder,
 decoder, and that the decoder accepts exactly the packets it should.
 */
module ContextCodec {
  import opened Basics
  import opened BrokerTypes
  import opened Wire
  import Utf8

  const EXTENSION_NAME: bytes := [
    0x63, 0x6F, 0x6E, 0x74, 0x65, 0x78, 0x74, 0x40, 0x61, 0x67, 0x65, 0x6E, 0x74, 0x2D, 0x77, 0x69, 0x74, 0x6E, 0x65,
    0x73, 0x73]
  const VERSION: byte := 1
  const EXTENSION: byte := 27
  const MAX_REASON_SIZE: nat := 512
  const MAX_COMMAND_ARGUMENTS: nat := 128
  const MAX_COMMAND_SIZE: nat := 16 * 1024
  const MAX_PACKET_SIZE: nat := 17483

  datatype ContextError = Malformed | UnsupportedVersion | InvalidGroupId | InvalidReason | InvalidCommand

  // ----- Text -----

  function CodePoint(c: bytes): nat
    requires 0 < |c| <= 4
  {
    var tail := i requires 0 <= i < |c| => if c[i] >= 0x80 then (c[i] - 0x80) as nat else 0;
    if |c| == 1 then c[0] as nat
    else if |c| == 2 then (if c[0] >= 0xC0 then (c[0] - 0xC0) as nat else 0) * 0x40 + tail(1)
    else if |c| == 3 then (if c[0] >= 0xE0 then (c[0] - 0xE0) as nat else 0) * 0x1000 + tail(1) * 0x40 + tail(2)
    else (if c[0] >= 0xF0 then (c[0] - 0xF0) as nat else 0) * 0x4_0000 + tail(1) * 0x1000 + tail(2) * 0x40 + tail(3)
  }

  predicate Control(p: nat) {
    p <= 0x1F || 0x7F <= p <= 0x9F
  }

  /** The White_Space property of Unicode. */
  predicate Whitespace(p: nat) {
    0x09 <= p <= 0x0D || p == 0x20 || p == 0x85 || p == 0xA0 || p == 0x1680 || 0x2000 <= p <= 0x200A ||
    p == 0x2028 || p == 0x2029 || p == 0x202F || p == 0x205F || p == 0x3000
  }

  /** Well-formed text of printable characters and plain spaces. */
  predicate Printable(b: bytes) {
    b == [] ||
    var n := Utf8.First(b);
    && 0 < n <= 4
    && (CodePoint(b[..n]) == 0x20 || (!Control(CodePoint(b[..n])) && !Whitespace(CodePoint(b[..n]))))
    && Printable(b[n..])
  }

  predicate GoodReason(b: bytes) {
    0 < |b| <= MAX_REASON_SIZE && Utf8.Valid(b) && Printable(b)
  }

  // ----- Group ids -----

  const ID_LIMIT: nat := 0x1_00000000_00000000_00000000_00000000

  function HexChar(d: nat): byte
    requires d < 16
  {
    if d < 10 then (0x30 + d) as byte else (0x61 + d - 10) as byte
  }

  function HexDigit(c: byte): Option<nat> {
    if 0x30 <= c <= 0x39 then Some((c - 0x30) as nat)
    else if 0x61 <= c <= 0x66 then Some((c - 0x61) as nat + 10)
    else if 0x41 <= c <= 0x46 then Some((c - 0x41) as nat + 10)
    else None
  }

  /** The lowest `n` hexadecimal digits of a number. */
  function HexText(id: nat, n: nat): (t: bytes)
    ensures |t| == n
  {
    if n == 0 then [] else HexText(id / 16, n - 1) + [HexChar(id % 16)]
  }

  /** The simple form of a group id: 32 lower-case digits. */
  function SimpleId(id: nat): (t: bytes)
    ensures |t| == 32
  {
    HexText(id, 32)
  }

  function ParseHex(t: bytes): Option<nat> {
    if t == [] then Some(0)
    else
      match (ParseHex(t[..|t| - 1]), HexDigit(t[|t| - 1]))
      case (Some(high), Some(low)) => Some(16 * high + low)
      case _ => None
  }

  function ParseHyphenated(t: bytes): Option<nat>
    requires |t| == 36
  {
    if t[8] == 0x2D && t[13] == 0x2D && t[18] == 0x2D && t[23] == 0x2D
    then ParseHex(t[..8] + t[9..13] + t[14..18] + t[19..23] + t[24..])
    else None
  }

  const URN: bytes := [0x75, 0x72, 0x6E, 0x3A, 0x75, 0x75, 0x69, 0x64, 0x3A]

  /** The simple, hyphenated, braced and URN forms. */
  function ParseId(t: bytes): Option<nat> {
    if |t| == 32 then ParseHex(t)
    else if |t| == 36 then ParseHyphenated(t)
    else if |t| == 38 && t[0] == 0x7B && t[37] == 0x7D then ParseHyphenated(t[1..37])
    else if |t| == 45 && URN <= t then ParseHyphenated(t[9..])
    else None
  }

  function Pow16(n: nat): nat {
    if n == 0 then 1 else 16 * Pow16(n - 1)
  }

  lemma {:induction false} HexRoundTrip(id: nat, n: nat)
    requires id < Pow16(n)
    ensures ParseHex(HexText(id, n)) == Some(id)
    ensures forall i | 0 <= i < n :: HexText(id, n)[i] <= 0x7F
  {
    if n > 0 {
      HexRoundTrip(id / 16, n - 1);
      var t := HexText(id, n);
      assert t[..|t| - 1] == HexText(id / 16, n - 1);
      assert HexDigit(HexChar(id % 16)) == Some(id % 16);
    }
  }

  lemma IdRoundTrip(id: nat)
    requires id < ID_LIMIT
    ensures ParseId(SimpleId(id)) == Some(id) && Utf8.Valid(SimpleId(id))
  {
    LimitIsPower();
    HexRoundTrip(id, 32);
    Utf8.ValidAscii(SimpleId(id));
  }

  lemma LimitIsPower()
    ensures Pow16(32) == ID_LIMIT
  {
    assert Pow16(8) == 0x1_0000_0000;
    assert Pow16(16) == 0x1_0000_0000 * 0x1_0000_0000;
    assert Pow16(24) == Pow16(16) * 0x1_0000_0000;
  }

  // ----- Packets -----

  function TotalSize(command: seq<bytes>): nat {
    if command == [] then 0 else |command[0]| + TotalSize(command[1..])
  }

  predicate GoodCommand(command: seq<bytes>) {
    1 <= |command| <= MAX_COMMAND_ARGUMENTS && TotalSize(command) <= MAX_COMMAND_SIZE
  }

  function Arguments(command: seq<bytes>): bytes {
    if command == [] then [] else Blob(command[0]) + Arguments(command[1..])
  }

  /** The packet's contents, with whatever follows them. */
  function Contents(group: bytes, reason: bytes, command: seq<bytes>, rest: bytes): bytes {
    [EXTENSION] + (Blob(EXTENSION_NAME) + ([VERSION] + (Blob(group) + (Blob(reason) +
      (U32(|command|) + (Arguments(command) + rest))))))
  }

  function Packet(group: bytes, reason: bytes, command: seq<bytes>): bytes {
    Blob(Contents(group, reason, command, []))
  }

  function EncodePacket(c: RequestContext): Result<bytes, ContextError> {
    if !GoodReason(c.reason) then Failure(InvalidReason)
    else if !GoodCommand(c.command) then Failure(InvalidCommand)
    else Success(Packet(SimpleId(c.groupId), c.reason, c.command))
  }

  // ----- Decoding -----

  /** `count` arguments whose sizes add up to no more than the limit, given what was taken before. */
  function TakeArguments(data: bytes, count: nat, size: nat): Result<(seq<bytes>, bytes), ContextError> {
    if count == 0 then Success(([], data))
    else
      var argument :- Need(TakeBlob(data), Malformed);
      if size + |argument.0| > MAX_COMMAND_SIZE then Failure(InvalidCommand)
      else
        var others :- TakeArguments(argument.1, count - 1, size + |argument.0|);
        Success(([argument.0] + others.0, others.1))
  }

  function LossyAll(command: seq<bytes>): seq<bytes> {
    seq(|command|, i requires 0 <= i < |command| => Utf8.Lossy(command[i]))
  }

  /** Everything after the version byte: the group id's text, the reason and the raw arguments. */
  function DecodeFields(data: bytes): Result<(bytes, bytes, seq<bytes>), ContextError> {
    var group :- Need(TakeBlob(data), Malformed);
    if !Utf8.Valid(group.0) || ParseId(group.0).None? then Failure(InvalidGroupId)
    else
      var reason :- Need(TakeBlob(group.1), Malformed);
      if !GoodReason(reason.0) then Failure(InvalidReason)
      else
        var count :- Need(TakeU32(reason.1), Malformed);
        if !(1 <= count.0 <= MAX_COMMAND_ARGUMENTS) then Failure(InvalidCommand)
        else
          var command :- TakeArguments(count.1, count.0, 0);
          if command.1 != [] then Failure(Malformed) else Success((group.0, reason.0, command.0))
  }

  /** The fields of a context packet, or `None` for any other packet. */
  function DecodeContents(data: bytes): Result<Option<(bytes, bytes, seq<bytes>)>, ContextError> {
    var kind :- Need(TakeU8(data), Malformed);
    if kind.0 != EXTENSION then Success(None)
    else
      var name :- Need(TakeBlob(kind.1), Malformed);
      if name.0 != EXTENSION_NAME then Success(None)
      else
        var version :- Need(TakeU8(name.1), Malformed);
        if version.0 != VERSION then Failure(UnsupportedVersion)
        else
          var fields :- DecodeFields(version.1);
          Success(Some(fields))
  }

  predicate Framed(packet: bytes) {
    |packet| >= 4 && FromU32(packet[..4]) == |packet| - 4
  }

  function DecodePacket(packet: bytes): Result<Option<RequestContext>, ContextError> {
    if !Framed(packet) then Success(None)
    else
      var fields :- DecodeContents(packet[4..]);
      match fields
      case None => Success(None)
      case Some((group, reason, command)) =>
        match ParseId(group)
        case None => Failure(InvalidGroupId)
        case Some(id) => Success(Some(RequestContext(id, reason, LossyAll(command))))
  }

  // ----- Sizes -----

  lemma PacketSize(group: bytes, reason: bytes, command: seq<bytes>, rest: bytes)
    ensures |Contents(group, reason, command, rest)|
         == 39 + |group| + |reason| + 4 * |command| + TotalSize(command) + |rest|
  {
  }

  /** Every packet the encoder makes is small, so no length in it is truncated. */
  lemma EncodedSize(c: RequestContext)
    requires EncodePacket(c).Success?
    ensures |EncodePacket(c).value| <= MAX_PACKET_SIZE
  {
    hide GoodReason, GoodCommand, Contents, Utf8.Valid, Printable;
    GoodSizes(c);
    PacketSize(SimpleId(c.groupId), c.reason, c.command, []);
  }

  lemma GoodSizes(c: RequestContext)
    ensures GoodReason(c.reason) ==> |c.reason| <= MAX_REASON_SIZE
    ensures GoodCommand(c.command) ==>
              1 <= |c.command| <= MAX_COMMAND_ARGUMENTS && TotalSize(c.command) <= MAX_COMMAND_SIZE
  {
  }

  // ----- Every good packet is decoded -----

  lemma {:induction false} ArgumentsTaken(command: seq<bytes>, rest: bytes, size: nat)
    requires size + TotalSize(command) <= MAX_COMMAND_SIZE
    ensures TakeArguments(Arguments(command) + rest, |command|, size) == Success((command, rest))
    decreases |command|
  {
    if command == [] {
      assert Arguments(command) + rest == rest;
    } else {
      var a, others := command[0], command[1..];
      assert Arguments(command) + rest == Blob(a) + (Arguments(others) + rest);
      TakeBlobWritten(a, Arguments(others) + rest);
      ArgumentsTaken(others, rest, size + |a|);
      assert [a] + others == command;
    }
  }

  /** The fields a packet may carry. */
  predicate GoodFields(group: bytes, reason: bytes, command: seq<bytes>) {
    && |group| < WORD && Utf8.Valid(group) && ParseId(group).Some?
    && GoodReason(reason) && GoodCommand(command)
  }

  lemma FieldsTaken(group: bytes, reason: bytes, command: seq<bytes>, rest: bytes)
    requires GoodFields(group, reason, command)
    ensures DecodeFields(Blob(group) + (Blob(reason) + (U32(|command|) + (Arguments(command) + rest))))
         == if rest == [] then Success((group, reason, command)) else Failure(Malformed)
  {
    hide TakeBlob, Blob, U32, TakeU32, TakeArguments, Arguments, ParseId, Utf8.Valid, GoodReason, GoodCommand;
    GoodSizes(RequestContext(0, reason, command));
    var tail := Arguments(command) + rest;
    TakeBlobWritten(group, Blob(reason) + (U32(|command|) + tail));
    TakeBlobWritten(reason, U32(|command|) + tail);
    TakeU32Written(|command|, tail);
    ArgumentsTaken(command, rest, 0);
  }

  /** Good fields are decoded; anything after them makes the packet malformed. */
  lemma FieldsDecode(group: bytes, reason: bytes, command: seq<bytes>, rest: bytes)
    requires GoodFields(group, reason, command)
    ensures DecodeContents(Contents(group, reason, command, rest))
         == if rest == [] then Success(Some((group, reason, command))) else Failure(Malformed)
  {
    hide TakeBlob, Blob, U32, TakeU8, Arguments, DecodeFields, GoodFields;
    var fields := Blob(group) + (Blob(reason) + (U32(|command|) + (Arguments(command) + rest)));
    FieldsTaken(group, reason, command, rest);
    ContentsSplit(group, reason, command, rest);
    TakeU8Written(EXTENSION, Blob(EXTENSION_NAME) + ([VERSION] + fields));
    TakeBlobWritten(EXTENSION_NAME, [VERSION] + fields);
    TakeU8Written(VERSION, fields);
  }

  lemma ContentsSplit(group: bytes, reason: bytes, command: seq<bytes>, rest: bytes)
    ensures Contents(group, reason, command, rest) == [EXTENSION] + (Blob(EXTENSION_NAME) + ([VERSION] +
              (Blob(group) + (Blob(reason) + (U32(|command|) + (Arguments(command) + rest))))))
  {
  }

  lemma FramedBlob(contents: bytes)
    requires |contents| < WORD
    ensures Framed(Blob(contents)) && Blob(contents)[4..] == contents
  {
  }

  /** A packet with good fields decodes to them, its arguments as lossy text. */
  lemma PacketDecodes(group: bytes, reason: bytes, command: seq<bytes>)
    requires GoodFields(group, reason, command) && |Contents(group, reason, command, [])| < WORD
    ensures DecodePacket(Packet(group, reason, command))
         == Success(Some(RequestContext(ParseId(group).value, reason, LossyAll(command))))
  {
    FieldsDecode(group, reason, command, []);
    hide DecodeContents, Contents, Framed;
    FramedBlob(Contents(group, reason, command, []));
  }

  /** What a context must satisfy as the program holds it: a 128-bit id and well-formed text. */
  predicate WellTyped(c: RequestContext) {
    c.groupId < ID_LIMIT && Utf8.Valid(c.reason) && forall a <- c.command :: Utf8.Valid(a)
  }

  lemma LossyAllKeeps(command: seq<bytes>)
    requires forall a <- command :: Utf8.Valid(a)
    ensures LossyAll(command) == command
  {
    forall i | 0 <= i < |command|
      ensures Utf8.Lossy(command[i]) == command[i]
    {
      Utf8.LossyKeepsExactly(command[i]);
    }
  }

  lemma EncodedFields(c: RequestContext)
    requires c.groupId < ID_LIMIT && EncodePacket(c).Success?
    ensures var group := SimpleId(c.groupId);
            && GoodFields(group, c.reason, c.command) && ParseId(group) == Some(c.groupId)
            && |Contents(group, c.reason, c.command, [])| + 4 <= MAX_PACKET_SIZE
            && EncodePacket(c).value == Packet(group, c.reason, c.command)
  {
    IdRoundTrip(c.groupId);
    EncodedSize(c);
  }

  /** Every context that encodes decodes back to itself. */
  lemma EncodeDecodes(c: RequestContext)
    requires WellTyped(c) && EncodePacket(c).Success?
    ensures DecodePacket(EncodePacket(c).value) == Success(Some(c))
  {
    EncodedFields(c);
    hide EncodePacket, DecodePacket, Packet, GoodFields, SimpleId, LossyAll, Contents;
    PacketDecodes(SimpleId(c.groupId), c.reason, c.command);
    LossyAllKeeps(c.command);
  }

  /** So no two contexts share a packet, and argument boundaries survive. */
  lemma EncodeInjective(a: RequestContext, b: RequestContext)
    requires WellTyped(a) && WellTyped(b) && EncodePacket(a).Success? && EncodePacket(a) == EncodePacket(b)
    ensures a == b
  {
    hide EncodePacket, DecodePacket, WellTyped;
    EncodeDecodes(a);
    EncodeDecodes(b);
  }

  /** Bytes after the contents make the packet malformed, once the outer length is adjusted. */
  lemma TrailingIsMalformed(c: RequestContext, extra: bytes)
    requires c.groupId < ID_LIMIT && EncodePacket(c).Success? && extra != []
    requires |EncodePacket(c).value| + |extra| < WORD
    ensures DecodePacket(Blob(EncodePacket(c).value[4..] + extra)) == Failure(Malformed)
  {
    EncodedFields(c);
    var group := SimpleId(c.groupId);
    FramedBlob(Contents(group, c.reason, c.command, []));
    FieldsDecode(group, c.reason, c.command, extra);
    assert Contents(group, c.reason, c.command, []) + extra == Contents(group, c.reason, c.command, extra) by {
      ContentsAppend(group, c.reason, c.command, extra);
    }
    hide DecodeContents, Contents, Framed, GoodFields;
    FramedBlob(Contents(group, c.reason, c.command, extra));
  }

  lemma ContentsAppend(group: bytes, reason: bytes, command: seq<bytes>, rest: bytes)
    ensures Contents(group, reason, command, []) + rest == Contents(group, reason, command, rest)
  {
  }

  /** An incomplete packet is not taken for a context at all. */
  lemma TruncatedIsIgnored(c: RequestContext, n: nat)
    requires EncodePacket(c).Success? && n < |EncodePacket(c).value|
    ensures DecodePacket(EncodePacket(c).value[..n]) == Success(None)
  {
    hide EncodePacket, DecodeContents, U32, FromU32;
    var p := EncodePacket(c).value;
    EncodedSize(c);
    PacketFrame(c);
    U32RoundTrip(|p| - 4);
    if n >= 4 {
      assert p[..n][..4] == p[..4];
    }
  }

  lemma PacketFrame(c: RequestContext)
    requires EncodePacket(c).Success?
    ensures var p := EncodePacket(c).value; |p| >= 4 && p[..4] == U32(|p| - 4)
  {
  }

  // ----- Nothing else is -----

  lemma ArgumentsCons(a: bytes, others: seq<bytes>, rest: bytes)
    ensures Arguments([a] + others) + rest == Blob(a) + (Arguments(others) + rest)
    ensures TotalSize([a] + others) == |a| + TotalSize(others)
  {
  }

  lemma {:induction false} ArgumentsWereWritten(data: bytes, count: nat, size: nat)
    requires size <= MAX_COMMAND_SIZE && TakeArguments(data, count, size).Success?
    ensures var (command, rest) := TakeArguments(data, count, size).value;
            |command| == count && size + TotalSize(command) <= MAX_COMMAND_SIZE && data == Arguments(command) + rest
    decreases count
  {
    hide TakeBlob, Blob;
    if count == 0 {
      assert [] + data == data;
    } else {
      var a := TakeBlob(data).value;
      TakenWasWritten(data);
      ArgumentsWereWritten(a.1, count - 1, size + |a.0|);
      var others := TakeArguments(a.1, count - 1, size + |a.0|).value;
      ArgumentsCons(a.0, others.0, others.1);
    }
  }

  lemma FieldsWereWritten(data: bytes)
    requires DecodeFields(data).Success?
    ensures var (group, reason, command) := DecodeFields(data).value;
            && GoodFields(group, reason, command)
            && data == Blob(group) + (Blob(reason) + (U32(|command|) + (Arguments(command) + [])))
  {
    hide TakeBlob, Blob, U32, TakeU32, TakeArguments, Arguments, ParseId, Utf8.Valid, GoodReason;
    TakenWasWritten(data);
    var group := TakeBlob(data).value;
    TakenWasWritten(group.1);
    var reason := TakeBlob(group.1).value;
    TakenWasWritten(reason.1);
    var count := TakeU32(reason.1).value;
    ArgumentsWereWritten(count.1, count.0, 0);
  }

  /** Whatever decodes as a context is a packet with good fields, and the context is read off them. */
  lemma DecodedWasPacket(packet: bytes) returns (group: bytes, command: seq<bytes>)
    requires DecodePacket(packet).Success? && DecodePacket(packet).value.Some?
    ensures var c := DecodePacket(packet).value.value;
            && GoodFields(group, c.reason, command) && packet == Packet(group, c.reason, command)
            && ParseId(group) == Some(c.groupId) && c.command == LossyAll(command)
  {
    hide Blob, U32, FromU32, ParseId, DecodeContents, GoodFields, Contents;
    var data := packet[4..];
    FromU32RoundTrip(packet[..4]);
    assert packet == packet[..4] + data;
    ContentsWereWritten(data);
    var fields := DecodeContents(data).value.value;
    group, command := fields.0, fields.2;
    BlobOf(data);
  }

  lemma ContentsWereWritten(data: bytes)
    requires DecodeContents(data).Success? && DecodeContents(data).value.Some?
    ensures var (group, reason, command) := DecodeContents(data).value.value;
            GoodFields(group, reason, command) && data == Contents(group, reason, command, [])
  {
    hide TakeBlob, Blob, U32, TakeU8, Arguments, DecodeFields, GoodFields;
    TakenWasWritten(data);
    var kind := TakeU8(data).value;
    TakenWasWritten(kind.1);
    var name := TakeBlob(kind.1).value;
    TakenWasWritten(name.1);
    var version := TakeU8(name.1).value;
    FieldsWereWritten(version.1);
  }

  lemma BlobOf(data: bytes)
    ensures Blob(data) == U32(|data|) + data
  {
  }

  // ----- The code -----

  lemma {:induction false} ArgumentsSnoc(command: seq<bytes>, a: bytes)
    ensures Arguments(command + [a]) == Arguments(command) + Blob(a)
  {
    var longer := command + [a];
    if command == [] {
      assert longer[1..] == [];
    } else {
      assert longer[1..] == command[1..] + [a];
      ArgumentsSnoc(command[1..], a);
    }
  }

  /** The sum of the argument sizes, as the encoder adds them up. */
  method SumSizes(command: seq<bytes>) returns (size: nat)
    ensures size == TotalSize(command)
  {
    size := 0;
    for i := 0 to |command|
      invariant size + TotalSize(command[i..]) == TotalSize(command)
    {
      size := size + |command[i]|;
      assert command[i..][1..] == command[i + 1..];
    }
  }

  /** Encode a complete frame, patching the length in at the end. */
  method Encode(c: RequestContext) returns (r: Result<bytes, ContextError>)
    ensures r == EncodePacket(c)
  {
    if !GoodReason(c.reason) {
      return Failure(InvalidReason);
    }
    var size := SumSizes(c.command);
    if !(1 <= |c.command| <= MAX_COMMAND_ARGUMENTS) || size > MAX_COMMAND_SIZE {
      return Failure(InvalidCommand);
    }
    hide Blob, U32, GoodReason, SimpleId, Contents;
    var group := SimpleId(c.groupId);
    var packet: bytes := [0, 0, 0, 0];
    packet := packet + [EXTENSION];
    packet := packet + Blob(EXTENSION_NAME);
    packet := packet + [VERSION];
    packet := packet + Blob(group);
    packet := packet + Blob(c.reason);
    packet := packet + U32(|c.command|);
    ghost var head := packet;
    for i := 0 to |c.command|
      invariant packet == head + Arguments(c.command[..i])
    {
      packet := packet + Blob(c.command[i]);
      assert c.command[..i + 1] == c.command[..i] + [c.command[i]];
      ArgumentsSnoc(c.command[..i], c.command[i]);
    }
    assert c.command[..|c.command|] == c.command;
    hide Arguments;
    ContentsFlat([0, 0, 0, 0], group, c.reason, c.command);
    packet := Patched(packet);
    BlobOf(Contents(group, c.reason, c.command, []));
    r := Success(packet);
  }

  function Patched(packet: bytes): bytes
    requires |packet| >= 4
  {
    U32(|packet| - 4) + packet[4..]
  }

  lemma ContentsFlat(front: bytes, group: bytes, reason: bytes, command: seq<bytes>)
    ensures front + [EXTENSION] + Blob(EXTENSION_NAME) + [VERSION] + Blob(group) + Blob(reason) + U32(|command|)
            + Arguments(command) == front + Contents(group, reason, command, [])
  {
    ContentsSplit(group, reason, command, []);
    hide Blob, U32, Arguments, Contents;
    Regroup(front, [EXTENSION], Blob(EXTENSION_NAME), [VERSION], Blob(group), Blob(reason), U32(|command|),
            Arguments(command));
  }

  lemma Regroup(z: bytes, a: bytes, b: bytes, c: bytes, d: bytes, e: bytes, f: bytes, g: bytes)
    ensures z + a + b + c + d + e + f + g == z + (a + (b + (c + (d + (e + (f + (g + [])))))))
  {
  }

  class Decoder {
    const data: bytes
    var offset: nat

    ghost predicate Valid()
      reads this
    {
      offset <= |data|
    }

    ghost function Rest(): bytes
      requires Valid()
      reads this
    {
      data[offset..]
    }

    constructor (data: bytes)
      ensures Valid() && Rest() == data
    {
      this.data := data;
      offset := 0;
    }

    method Take(size: nat) returns (r: Result<bytes, ContextError>)
      requires Valid()
      modifies this
      ensures Valid()
      ensures match Wire.Take(old(Rest()), size)
              case Some((value, rest)) => r == Success(value) && Rest() == rest
              case None => r == Failure(Malformed) && Rest() == old(Rest())
    {
      var end := offset + size;
      if end > |data| {
        return Failure(Malformed);
      }
      r := Success(data[offset..end]);
      assert data[offset..end] == Rest()[..size] && data[end..] == Rest()[size..];
      offset := end;
    }

    method TakeByte() returns (r: Result<byte, ContextError>)
      requires Valid()
      modifies this
      ensures Valid()
      ensures match TakeU8(old(Rest()))
              case Some((value, rest)) => r == Success(value) && Rest() == rest
              case None => r == Failure(Malformed)
    {
      var b :- Take(1);
      r := Success(b[0]);
    }

    method TakeWord() returns (r: Result<nat, ContextError>)
      requires Valid()
      modifies this
      ensures Valid()
      ensures match TakeU32(old(Rest()))
              case Some((value, rest)) => r == Success(value) && Rest() == rest
              case None => r == Failure(Malformed)
    {
      var b :- Take(4);
      r := Success(FromU32(b));
    }

    method TakeString() returns (r: Result<bytes, ContextError>)
      requires Valid()
      modifies this
      ensures Valid()
      ensures match TakeBlob(old(Rest()))
              case Some((value, rest)) => r == Success(value) && Rest() == rest
              case None => r == Failure(Malformed)
    {
      var length :- TakeWord();
      r := Take(length);
    }
  }

  /** What is read in all, given what was read first. */
  ghost function Before(read: seq<bytes>, rest: Result<(seq<bytes>, bytes), ContextError>)
    : Result<(seq<bytes>, bytes), ContextError>
  {
    if rest.Success? then Success((read + rest.value.0, rest.value.1)) else rest
  }

  lemma BeforeNothing(rest: Result<(seq<bytes>, bytes), ContextError>)
    ensures Before([], rest) == rest
  {
    if rest.Success? {
      assert [] + rest.value.0 == rest.value.0;
    }
  }

  lemma TakeOne(read: seq<bytes>, data: bytes, count: nat, size: nat)
    requires count > 0
    ensures Before(read, TakeArguments(data, count, size)) ==
              match TakeBlob(data)
              case None => Failure(Malformed)
              case Some((a, rest)) =>
                if size + |a| > MAX_COMMAND_SIZE then Failure(InvalidCommand)
                else Before(read + [a], TakeArguments(rest, count - 1, size + |a|))
  {
    if TakeArguments(data, count, size).Success? {
      var (a, rest) := TakeBlob(data).value;
      var others := TakeArguments(rest, count - 1, size + |a|).value.0;
      assert read + ([a] + others) == read + [a] + others;
    }
  }

  method DecodeArguments(decoder: Decoder, count: nat) returns (r: Result<seq<bytes>, ContextError>)
    requires decoder.Valid()
    modifies decoder
    ensures decoder.Valid()
    ensures match TakeArguments(old(decoder.Rest()), count, 0)
            case Success((raw, rest)) => r == Success(LossyAll(raw)) && decoder.Rest() == rest
            case Failure(error) => r == Failure(error)
  {
    hide TakeBlob, Utf8.Lossy;
    var command: seq<bytes> := [];
    var size: nat := 0;
    ghost var raw: seq<bytes> := [];
    BeforeNothing(TakeArguments(decoder.Rest(), count, 0));
    for i := 0 to count
      invariant decoder.Valid()
      invariant command == LossyAll(raw)
      invariant TakeArguments(old(decoder.Rest()), count, 0) == Before(raw, TakeArguments(decoder.Rest(), count - i, size))
    {
      hide TakeArguments;
      TakeOne(raw, decoder.Rest(), count - i, size);
      var argument :- decoder.TakeString();
      size := size + |argument|;
      if size > MAX_COMMAND_SIZE {
        return Failure(InvalidCommand);
      }
      command := command + [Utf8.Lossy(argument)];
      raw := raw + [argument];
    }
    assert raw + [] == raw;
    r := Success(command);
  }

  /** Decode a context extension, leaving other packets alone. */
  method Decode(packet: bytes) returns (r: Result<Option<RequestContext>, ContextError>)
    ensures r == DecodePacket(packet)
  {
    hide TakeBlob, TakeU8, TakeU32, TakeArguments, ParseId, Utf8.Valid, GoodReason, LossyAll;
    if |packet| < 4 || FromU32(packet[..4]) != |packet| - 4 {
      return Success(None);
    }
    var decoder := new Decoder(packet[4..]);
    var kind :- decoder.TakeByte();
    if kind != EXTENSION {
      return Success(None);
    }
    var name :- decoder.TakeString();
    if name != EXTENSION_NAME {
      return Success(None);
    }
    var version :- decoder.TakeByte();
    if version != VERSION {
      return Failure(UnsupportedVersion);
    }
    r := DecodeRest(decoder);
  }

  function ContextOf(fields: (bytes, bytes, seq<bytes>)): Result<Option<RequestContext>, ContextError> {
    match ParseId(fields.0)
    case None => Failure(InvalidGroupId)
    case Some(id) => Success(Some(RequestContext(id, fields.1, LossyAll(fields.2))))
  }

  method DecodeRest(decoder: Decoder) returns (r: Result<Option<RequestContext>, ContextError>)
    requires decoder.Valid()
    modifies decoder
    ensures match DecodeFields(old(decoder.Rest()))
            case Failure(error) => r == Failure(error)
            case Success(fields) => r == ContextOf(fields)
  {
    hide TakeBlob, TakeU32, TakeArguments, ParseId, Utf8.Valid, GoodReason, LossyAll, Decoder.Rest;
    var group :- decoder.TakeString();
    if !Utf8.Valid(group) || ParseId(group).None? {
      return Failure(InvalidGroupId);
    }
    var reason :- decoder.TakeString();
    if !GoodReason(reason) {
      return Failure(InvalidReason);
    }
    var count :- decoder.TakeWord();
    if !(1 <= count <= MAX_COMMAND_ARGUMENTS) {
      return Failure(InvalidCommand);
    }
    var command :- DecodeArguments(decoder, count);
    var finished := decoder.offset == |decoder.data|;
    AtEnd(decoder);
    if !finished {
      return Failure(Malformed);
    }
    r := Success(Some(RequestContext(ParseId(group).value, reason, command)));
  }

  lemma AtEnd(decoder: Decoder)
    requires decoder.Valid()
    ensures decoder.Rest() == [] <==> decoder.offset == |decoder.data|
  {
  }
}
