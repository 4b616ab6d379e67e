/**
 The unencrypted `openssh-key-v1` private key container (OpenSSH PROTOCOL.key):
 its layout, the parser, and that the parser accepts exactly the layouts.
 */
module OpenSshKey {
  import opened Basics
  import opened BigEndian
  import opened Wire
  import opened SshEncoding
  import Utf8

  function Ascii(s: string): bytes
    requires forall i | 0 <= i < |s| :: s[i] < 128 as char
  {
    seq(|s|, i requires 0 <= i < |s| => s[i] as byte)
  }

  const MAGIC: bytes := Ascii("openssh-key-v1\0")
  const NONE: bytes := Ascii("none")
  const ED25519: bytes := Ascii("ssh-ed25519")
  const RSA: bytes := Ascii("ssh-rsa")
  const ECDSA: bytes := Ascii("ecdsa-sha2-nistp256")

  datatype ParsedKey =
    | KeyEd25519(comment: bytes, publicBlob: bytes, publicKey: bytes, seed: bytes)
    | KeyRsa(comment: bytes, publicBlob: bytes, n: bytes, e: bytes, d: bytes, p: bytes, q: bytes, iqmp: bytes)
    | KeyEcdsa(comment: bytes, publicBlob: bytes, curve: bytes, point: bytes, d: bytes)

  datatype ParseError =
    | BadMagic
    | Encrypted(cipher: bytes, kdf: bytes)
    | WrongKeyCount(count: nat)
    | CheckMismatch
    | BadPadding
    | UnsupportedType(name: bytes)
    | Malformed
  {
    /** Well formed, but not handled; every other error means an invalid format. */
    predicate Unsupported() {
      Encrypted? || UnsupportedType?
    }
  }

  // ----- Layout -----

  /** Key material as it lies in the private section; integers are raw field contents. */
  datatype Body =
    | BodyEd25519(publicKey: bytes, secret: bytes)
    | BodyRsa(n: bytes, e: bytes, d: bytes, iqmp: bytes, p: bytes, q: bytes)
    | BodyEcdsa(curve: bytes, point: bytes, d: bytes)

  datatype Layout = Layout(
    cipher: bytes,
    kdf: bytes,
    kdfOptions: bytes,
    publicBlob: bytes,
    check: nat,
    name: bytes,
    body: Body,
    comment: bytes,
    padding: nat,
    trailing: bytes)

  function Padding(n: nat): bytes {
    seq(n, i requires 0 <= i < n => ((i + 1) % 256) as byte)
  }

  function Tail(l: Layout): bytes {
    Blob(l.comment) + Padding(l.padding)
  }

  function BodyBytes(body: Body, tail: bytes): bytes {
    match body
    case BodyEd25519(publicKey, secret) => Blob(publicKey) + (Blob(secret) + tail)
    case BodyRsa(n, e, d, iqmp, p, q) =>
      Blob(n) + (Blob(e) + (Blob(d) + (Blob(iqmp) + (Blob(p) + (Blob(q) + tail)))))
    case BodyEcdsa(curve, point, d) => Blob(curve) + (Blob(point) + (Blob(d) + tail))
  }

  function PrivateBytes(l: Layout): bytes {
    U32(l.check) + (U32(l.check) + (Blob(l.name) + BodyBytes(l.body, Tail(l))))
  }

  function Bytes(l: Layout): bytes {
    MAGIC + (Blob(l.cipher) + (Blob(l.kdf) + (Blob(l.kdfOptions) + (U32(1) +
      (Blob(l.publicBlob) + (Blob(PrivateBytes(l)) + l.trailing))))))
  }

  function NameOf(body: Body): bytes {
    match body
    case BodyEd25519(_, _) => ED25519
    case BodyRsa(_, _, _, _, _, _) => RSA
    case BodyEcdsa(_, _, _) => ECDSA
  }

  predicate BodyFits(body: Body) {
    match body
    case BodyEd25519(publicKey, secret) => |publicKey| < WORD && |secret| < WORD
    case BodyRsa(n, e, d, iqmp, p, q) =>
      |n| < WORD && |e| < WORD && |d| < WORD && |iqmp| < WORD && |p| < WORD && |q| < WORD
    case BodyEcdsa(curve, point, d) => |curve| < WORD && |point| < WORD && |d| < WORD
  }

  /** Unencrypted, of the type its body says, and short enough for its length prefixes. */
  predicate WellFormed(l: Layout) {
    && Utf8.Text(l.cipher) == NONE && Utf8.Text(l.kdf) == NONE && Utf8.Text(l.name) == NameOf(l.body)
    && l.check < WORD && BodyFits(l.body)
    && |l.cipher| < WORD && |l.kdf| < WORD && |l.kdfOptions| < WORD && |l.publicBlob| < WORD
    && |l.name| < WORD && |l.comment| < WORD && |PrivateBytes(l)| < WORD
  }

  function KeyOf(l: Layout): ParsedKey {
    var comment := Utf8.Text(l.comment);
    match l.body
    case BodyEd25519(publicKey, secret) =>
      KeyEd25519(comment, l.publicBlob, publicKey, secret[..if |secret| < 32 then |secret| else 32])
    case BodyRsa(n, e, d, iqmp, p, q) =>
      KeyRsa(comment, l.publicBlob, Strip(n), Strip(e), Strip(d), Strip(p), Strip(q), Strip(iqmp))
    case BodyEcdsa(curve, point, d) => KeyEcdsa(comment, l.publicBlob, Utf8.Text(curve), point, Strip(d))
  }

  // ----- Parsing -----

  /** The comment and the length of the padding, which must count up from one. */
  function ParseTail(data: bytes): Result<(bytes, nat), ParseError> {
    var comment :- Need(TakeBlob(data), Malformed);
    var padding := |comment.1|;
    if comment.1 == Padding(padding) then Success((comment.0, padding)) else Failure(BadPadding)
  }

  function ParseEd25519(data: bytes): Result<(Body, bytes), ParseError> {
    var publicKey :- Need(TakeBlob(data), Malformed);
    var secret :- Need(TakeBlob(publicKey.1), Malformed);
    Success((BodyEd25519(publicKey.0, secret.0), secret.1))
  }

  function ParseRsa(data: bytes): Result<(Body, bytes), ParseError> {
    var n :- Need(TakeBlob(data), Malformed);
    var e :- Need(TakeBlob(n.1), Malformed);
    var d :- Need(TakeBlob(e.1), Malformed);
    var iqmp :- Need(TakeBlob(d.1), Malformed);
    var p :- Need(TakeBlob(iqmp.1), Malformed);
    var q :- Need(TakeBlob(p.1), Malformed);
    Success((BodyRsa(n.0, e.0, d.0, iqmp.0, p.0, q.0), q.1))
  }

  function ParseEcdsa(data: bytes): Result<(Body, bytes), ParseError> {
    var curve :- Need(TakeBlob(data), Malformed);
    var point :- Need(TakeBlob(curve.1), Malformed);
    var d :- Need(TakeBlob(point.1), Malformed);
    Success((BodyEcdsa(curve.0, point.0, d.0), d.1))
  }

  /** The key material of a type, and what follows it. */
  function ParseBody(name: bytes, data: bytes): Result<(Body, bytes), ParseError> {
    if name == ED25519 then ParseEd25519(data)
    else if name == RSA then ParseRsa(data)
    else if name == ECDSA then ParseEcdsa(data)
    else Failure(UnsupportedType(name))
  }

  /** The private section: check number, type name, body, comment and padding length. */
  function ParsePrivate(data: bytes): Result<(nat, bytes, Body, bytes, nat), ParseError> {
    var check1 :- Need(TakeU32(data), Malformed);
    var check2 :- Need(TakeU32(check1.1), Malformed);
    if check1.0 != check2.0 then Failure(CheckMismatch)
    else
      var name :- Need(TakeBlob(check2.1), Malformed);
      var body :- ParseBody(Utf8.Text(name.0), name.1);
      var tail :- ParseTail(body.1);
      Success((check1.0, name.0, body.0, tail.0, tail.1))
  }

  function ParseLayout(raw: bytes): Result<Layout, ParseError> {
    if !(MAGIC <= raw) then Failure(BadMagic)
    else
      var cipher :- Need(TakeBlob(raw[|MAGIC|..]), Malformed);
      var kdf :- Need(TakeBlob(cipher.1), Malformed);
      var kdfOptions :- Need(TakeBlob(kdf.1), Malformed);
      var keys :- Need(TakeU32(kdfOptions.1), Malformed);
      if Utf8.Text(cipher.0) != NONE || Utf8.Text(kdf.0) != NONE then
        Failure(Encrypted(Utf8.Text(cipher.0), Utf8.Text(kdf.0)))
      else if keys.0 != 1 then Failure(WrongKeyCount(keys.0))
      else
        var publicBlob :- Need(TakeBlob(keys.1), Malformed);
        var section :- Need(TakeBlob(publicBlob.1), Malformed);
        var p :- ParsePrivate(section.0);
        Success(Layout(cipher.0, kdf.0, kdfOptions.0, publicBlob.0, p.0, p.1, p.2, p.3, p.4, section.1))
  }

  function Parse(raw: bytes): Result<ParsedKey, ParseError> {
    var l :- ParseLayout(raw);
    Success(KeyOf(l))
  }

  // ----- Every layout is accepted -----

  lemma NamesDiffer()
    ensures ED25519 != RSA && RSA != ECDSA && ED25519 != ECDSA
  {
    assert |ED25519| == 11 && |RSA| == 7 && |ECDSA| == 19;
  }

  lemma BodyParses(body: Body, tail: bytes)
    requires BodyFits(body)
    ensures ParseBody(NameOf(body), BodyBytes(body, tail)) == Success((body, tail))
  {
    hide TakeBlob, Blob, Ascii;
    NamesDiffer();
    match body
    case BodyEd25519(publicKey, secret) =>
      TakeBlobWritten(publicKey, Blob(secret) + tail);
      TakeBlobWritten(secret, tail);
    case BodyRsa(n, e, d, iqmp, p, q) =>
      TakeBlobWritten(n, Blob(e) + (Blob(d) + (Blob(iqmp) + (Blob(p) + (Blob(q) + tail)))));
      TakeBlobWritten(e, Blob(d) + (Blob(iqmp) + (Blob(p) + (Blob(q) + tail))));
      TakeBlobWritten(d, Blob(iqmp) + (Blob(p) + (Blob(q) + tail)));
      TakeBlobWritten(iqmp, Blob(p) + (Blob(q) + tail));
      TakeBlobWritten(p, Blob(q) + tail);
      TakeBlobWritten(q, tail);
    case BodyEcdsa(curve, point, d) =>
      TakeBlobWritten(curve, Blob(point) + (Blob(d) + tail));
      TakeBlobWritten(point, Blob(d) + tail);
      TakeBlobWritten(d, tail);
  }

  lemma PrivateParses(l: Layout)
    requires WellFormed(l)
    ensures ParsePrivate(PrivateBytes(l)) == Success((l.check, l.name, l.body, l.comment, l.padding))
  {
    hide TakeBlob, Blob, U32, TakeU32, ParseBody, BodyBytes, NameOf, Padding;
    var body := BodyBytes(l.body, Tail(l));
    TakeU32Written(l.check, U32(l.check) + (Blob(l.name) + body));
    TakeU32Written(l.check, Blob(l.name) + body);
    TakeBlobWritten(l.name, body);
    BodyParses(l.body, Tail(l));
    TakeBlobWritten(l.comment, Padding(l.padding));
    PaddingSize(l.padding);
  }

  lemma PaddingSize(n: nat)
    ensures |Padding(n)| == n
  {
  }

  /** Every well-formed layout is parsed, into the key it lays out. */
  lemma ParsesLayout(l: Layout)
    requires WellFormed(l)
    ensures ParseLayout(Bytes(l)) == Success(l) && Parse(Bytes(l)) == Success(KeyOf(l))
  {
    hide TakeBlob, Blob, U32, TakeU32, ParsePrivate, PrivateBytes;
    var section := Blob(PrivateBytes(l)) + l.trailing;
    TakeBlobWritten(l.cipher, Blob(l.kdf) + (Blob(l.kdfOptions) + (U32(1) + (Blob(l.publicBlob) + section))));
    TakeBlobWritten(l.kdf, Blob(l.kdfOptions) + (U32(1) + (Blob(l.publicBlob) + section)));
    TakeBlobWritten(l.kdfOptions, U32(1) + (Blob(l.publicBlob) + section));
    TakeU32Written(1, Blob(l.publicBlob) + section);
    TakeBlobWritten(l.publicBlob, section);
    TakeBlobWritten(PrivateBytes(l), l.trailing);
    PrivateParses(l);
    assert Bytes(l)[|MAGIC|..] ==
           Blob(l.cipher) + (Blob(l.kdf) + (Blob(l.kdfOptions) + (U32(1) + (Blob(l.publicBlob) + section))));
  }

  // ----- Nothing else is accepted -----

  lemma BodyParsed(name: bytes, data: bytes)
    requires ParseBody(name, data).Success?
    ensures var (body, tail) := ParseBody(name, data).value;
            BodyFits(body) && name == NameOf(body) && data == BodyBytes(body, tail)
  {
    hide TakeBlob, Blob;
    TakenWasWritten(data);
    var a := TakeBlob(data).value;
    TakenWasWritten(a.1);
    var b := TakeBlob(a.1).value;
    if name != ED25519 {
      TakenWasWritten(b.1);
      var c := TakeBlob(b.1).value;
      if name == RSA {
        TakenWasWritten(c.1);
        var d := TakeBlob(c.1).value;
        TakenWasWritten(d.1);
        TakenWasWritten(TakeBlob(d.1).value.1);
      }
    }
  }

  lemma PrivateParsed(data: bytes)
    requires ParsePrivate(data).Success?
    ensures var (check, name, body, comment, padding) := ParsePrivate(data).value;
            && check < WORD && |name| < WORD && |comment| < WORD && BodyFits(body)
            && Utf8.Text(name) == NameOf(body)
            && data == U32(check) + (U32(check) + (Blob(name) + BodyBytes(body, Blob(comment) + Padding(padding))))
  {
    hide TakeBlob, Blob, U32, TakeU32, ParseBody, BodyBytes, NameOf, Padding;
    TakenWasWritten(data);
    var check1 := TakeU32(data).value;
    TakenWasWritten(check1.1);
    var check2 := TakeU32(check1.1).value;
    TakenWasWritten(check2.1);
    var name := TakeBlob(check2.1).value;
    BodyParsed(Utf8.Text(name.0), name.1);
    var body := ParseBody(Utf8.Text(name.0), name.1).value;
    TakenWasWritten(body.1);
  }

  /** Whatever is accepted is a well-formed layout, and the key is the one it lays out. */
  lemma ParsedIsLayout(raw: bytes)
    requires Parse(raw).Success?
    ensures var l := ParseLayout(raw).value;
            WellFormed(l) && Bytes(l) == raw && Parse(raw).value == KeyOf(l)
  {
    hide TakeBlob, Blob, U32, TakeU32, ParsePrivate;
    var l := ParseLayout(raw).value;
    var data := raw[|MAGIC|..];
    assert raw == MAGIC + data;
    TakenWasWritten(data);
    var cipher := TakeBlob(data).value;
    TakenWasWritten(cipher.1);
    var kdf := TakeBlob(cipher.1).value;
    TakenWasWritten(kdf.1);
    var kdfOptions := TakeBlob(kdf.1).value;
    TakenWasWritten(kdfOptions.1);
    var keys := TakeU32(kdfOptions.1).value;
    TakenWasWritten(keys.1);
    var publicBlob := TakeBlob(keys.1).value;
    TakenWasWritten(publicBlob.1);
    var section := TakeBlob(publicBlob.1).value;
    PrivateParsed(section.0);
    assert PrivateBytes(l) == section.0;
  }

  // ----- What is refused as unsupported -----

  /** A header whose cipher or key derivation is not "none" is refused as encrypted, whatever follows it. */
  lemma EncryptedIsUnsupported(cipher: bytes, kdf: bytes, kdfOptions: bytes, keys: nat, rest: bytes)
    requires |cipher| < WORD && |kdf| < WORD && |kdfOptions| < WORD
    requires Utf8.Text(cipher) != NONE || Utf8.Text(kdf) != NONE
    ensures var raw := MAGIC + (Blob(cipher) + (Blob(kdf) + (Blob(kdfOptions) + (U32(keys) + rest))));
            Parse(raw) == Failure(Encrypted(Utf8.Text(cipher), Utf8.Text(kdf))) && Parse(raw).error.Unsupported()
  {
    hide TakeBlob, Blob, U32, TakeU32, ParsePrivate;
    var data := Blob(cipher) + (Blob(kdf) + (Blob(kdfOptions) + (U32(keys) + rest)));
    TakeBlobWritten(cipher, Blob(kdf) + (Blob(kdfOptions) + (U32(keys) + rest)));
    TakeBlobWritten(kdf, Blob(kdfOptions) + (U32(keys) + rest));
    TakeBlobWritten(kdfOptions, U32(keys) + rest);
    TakeU32Written(keys, rest);
    assert (MAGIC + data)[|MAGIC|..] == data;
  }

  /** A private section that names another key type is refused as unsupported. */
  lemma UnknownTypeIsUnsupported(check: nat, name: bytes, rest: bytes)
    requires check < WORD && |name| < WORD
    requires Utf8.Text(name) != ED25519 && Utf8.Text(name) != RSA && Utf8.Text(name) != ECDSA
    ensures var r := ParsePrivate(U32(check) + (U32(check) + (Blob(name) + rest)));
            r == Failure(UnsupportedType(Utf8.Text(name))) && r.error.Unsupported()
  {
    hide TakeBlob, Blob, U32, TakeU32;
    TakeU32Written(check, U32(check) + (Blob(name) + rest));
    TakeU32Written(check, Blob(name) + rest);
    TakeBlobWritten(name, rest);
  }

  // ----- Keys -----

  /** Magnitudes without leading zeros and text without a byte order mark. */
  predicate Canonical(key: ParsedKey) {
    && Utf8.Text(key.comment) == key.comment
    && match key
       case KeyEd25519(_, _, _, seed) => |seed| == 32
       case KeyRsa(_, _, n, e, d, p, q, iqmp) =>
         Shortest(n) && Shortest(e) && Shortest(d) && Shortest(p) && Shortest(q) && Shortest(iqmp)
       case KeyEcdsa(_, _, curve, _, d) => Utf8.Text(curve) == curve && Shortest(d)
  }

  function BodyOf(key: ParsedKey): Body {
    match key
    case KeyEd25519(_, _, publicKey, seed) => BodyEd25519(publicKey, seed + publicKey)
    case KeyRsa(_, _, n, e, d, p, q, iqmp) => BodyRsa(Mpint(n), Mpint(e), Mpint(d), Mpint(iqmp), Mpint(p), Mpint(q))
    case KeyEcdsa(_, _, curve, point, d) => BodyEcdsa(curve, point, Mpint(d))
  }

  /** The container OpenSSH writes for a key. */
  function Reference(key: ParsedKey, check: nat, padding: nat): Layout {
    Layout(NONE, NONE, [], key.publicBlob, check, NameOf(BodyOf(key)), BodyOf(key), key.comment, padding, [])
  }

  lemma NamesAreText(name: bytes)
    requires name == NONE || name == ED25519 || name == RSA || name == ECDSA
    ensures Utf8.Text(name) == name && |name| < 20
  {
    assert |NONE| == 4 && |ED25519| == 11 && |RSA| == 7 && |ECDSA| == 19;
    Utf8.ValidAscii(name);
    assert name[0] != 0xEF;
    Utf8.TextKeepsExactly(name);
  }

  /** A byte order mark before the cipher name is not seen: the file is a different one and holds the same key. */
  lemma MarkedCipherParses(l: Layout)
    requires WellFormed(l) && l.cipher == NONE
    ensures var marked := l.(cipher := Utf8.BYTE_ORDER_MARK + NONE);
            && WellFormed(marked) && Bytes(marked) != Bytes(l)
            && Parse(Bytes(marked)) == Parse(Bytes(l)) == Success(KeyOf(l))
  {
    hide Bytes, Parse, ParseLayout, BodyBytes, BodyFits, NameOf, Utf8.Text, Ascii, KeyOf;
    var marked := l.(cipher := Utf8.BYTE_ORDER_MARK + NONE);
    MarkIsDropped();
    assert PrivateBytes(marked) == PrivateBytes(l);
    hide PrivateBytes;
    ParsesLayout(l);
    ParsesLayout(marked);
    SameKey(l, marked.cipher);
  }

  lemma SameKey(l: Layout, cipher: bytes)
    ensures KeyOf(l.(cipher := cipher)) == KeyOf(l)
  {
  }

  lemma MarkIsDropped()
    ensures Utf8.Text(Utf8.BYTE_ORDER_MARK + NONE) == NONE
    ensures |NONE| == 4
  {
    NamesAreText(NONE);
    assert NONE[0] != 0xEF;
    var cipher := Utf8.BYTE_ORDER_MARK + NONE;
    assert cipher[3..] == NONE;
    hide Utf8.Lossy;
  }

  lemma BodyKey(key: ParsedKey, check: nat, padding: nat)
    requires Canonical(key)
    ensures KeyOf(Reference(key, check, padding)) == key
  {
  }

  /** Writing a key as OpenSSH does and parsing it gives the key back, whatever the check number and padding. */
  lemma ReferenceRoundTrip(key: ParsedKey, check: nat, padding: nat)
    requires Canonical(key) && check < WORD && BodyFits(BodyOf(key))
    requires |key.publicBlob| < WORD && |key.comment| < WORD && |PrivateBytes(Reference(key, check, padding))| < WORD
    ensures Parse(Bytes(Reference(key, check, padding))) == Success(key)
  {
    var l := Reference(key, check, padding);
    NamesAreText(NONE);
    NamesAreText(l.name);
    hide Utf8.Text, PrivateBytes, Bytes, Parse, ParseLayout;
    assert WellFormed(l);
    ParsesLayout(l);
    BodyKey(key, check, padding);
  }

  // ----- The parser's code -----

  /** Read the rest of the section and compare it with 1, 2, 3, and so on. */
  method VerifyPadding(r: Reader) returns (ok: bool)
    requires r.Valid()
    modifies r
    ensures ok <==> old(r.Rest()) == Padding(|old(r.Rest())|)
  {
    ghost var rest := r.Rest();
    var read := r.Raw(r.Remaining());
    assert rest[..|rest|] == rest;
    var padding := read.value;
    for i := 0 to |padding|
      invariant forall j | 0 <= j < i :: padding[j] == Padding(|rest|)[j]
    {
      if padding[i] as int != (i + 1) % 256 {
        return false;
      }
    }
    return true;
  }

  method DecodePrivate(publicBlob: bytes, data: bytes) returns (r: Result<ParsedKey, ParseError>)
    ensures match ParsePrivate(data)
            case Failure(error) => r == Failure(error)
            case Success(p) => r == Success(KeyOf(Layout(NONE, NONE, [], publicBlob, p.0, p.1, p.2, p.3, p.4, [])))
  {
    hide TakeBlob, TakeU32, Padding, Strip, Utf8.Text;
    var priv := new Reader(data);
    var check1 := priv.Word();
    if check1.Failure? {
      return Failure(Malformed);
    }
    var check2 := priv.Word();
    if check2.Failure? {
      return Failure(Malformed);
    }
    if check1.value != check2.value {
      return Failure(CheckMismatch);
    }
    var name := priv.Decoded();
    if name.Failure? {
      return Failure(Malformed);
    }
    r := DecodeBody(publicBlob, name.value, priv);
  }

  /** The material of each key type, its comment and the padding. */
  method DecodeBody(publicBlob: bytes, name: bytes, priv: Reader) returns (r: Result<ParsedKey, ParseError>)
    requires priv.Valid()
    modifies priv
    ensures r == KeyFrom(publicBlob, ParseBody(name, old(priv.Rest())))
  {
    hide ParseTail, KeyOf, ParseEd25519, ParseRsa, ParseEcdsa;
    if name == ED25519 {
      r := DecodeEd25519(publicBlob, priv);
    } else if name == RSA {
      r := DecodeRsa(publicBlob, priv);
    } else if name == ECDSA {
      r := DecodeEcdsa(publicBlob, priv);
    } else {
      r := Failure(UnsupportedType(name));
    }
  }

  function KeyFrom(publicBlob: bytes, parsed: Result<(Body, bytes), ParseError>): Result<ParsedKey, ParseError> {
    var body :- parsed;
    var tail :- ParseTail(body.1);
    Success(KeyOf(Layout(NONE, NONE, [], publicBlob, 0, NONE, body.0, tail.0, tail.1, [])))
  }

  method DecodeTail(priv: Reader) returns (r: Result<bytes, ParseError>)
    requires priv.Valid()
    modifies priv
    ensures match ParseTail(old(priv.Rest()))
            case Failure(error) => r == Failure(error)
            case Success(tail) => r == Success(Utf8.Text(tail.0))
  {
    hide TakeBlob, Padding, Utf8.Text;
    var comment := priv.Decoded();
    if comment.Failure? {
      return Failure(Malformed);
    }
    var ok := VerifyPadding(priv);
    r := if ok then Success(comment.value) else Failure(BadPadding);
  }

  method DecodeEd25519(publicBlob: bytes, priv: Reader) returns (r: Result<ParsedKey, ParseError>)
    requires priv.Valid()
    modifies priv
    ensures r == KeyFrom(publicBlob, ParseEd25519(old(priv.Rest())))
  {
    hide TakeBlob, ParseTail, Utf8.Text, Reader.Rest;
    var publicKey := priv.Text();
    if publicKey.Failure? {
      return Failure(Malformed);
    }
    var secret := priv.Text();
    if secret.Failure? {
      return Failure(Malformed);
    }
    var comment :- DecodeTail(priv);
    var seed := secret.value[..if |secret.value| < 32 then |secret.value| else 32];
    r := Success(KeyEd25519(comment, publicBlob, publicKey.value, seed));
  }

  method DecodeEcdsa(publicBlob: bytes, priv: Reader) returns (r: Result<ParsedKey, ParseError>)
    requires priv.Valid()
    modifies priv
    ensures r == KeyFrom(publicBlob, ParseEcdsa(old(priv.Rest())))
  {
    hide TakeBlob, ParseTail, Utf8.Text, Strip, Reader.Rest;
    var curve := priv.Decoded();
    if curve.Failure? {
      return Failure(Malformed);
    }
    var point := priv.Text();
    if point.Failure? {
      return Failure(Malformed);
    }
    var d := priv.Integer();
    if d.Failure? {
      return Failure(Malformed);
    }
    var comment :- DecodeTail(priv);
    r := Success(KeyEcdsa(comment, publicBlob, curve.value, point.value, d.value));
  }

  method DecodeRsa(publicBlob: bytes, priv: Reader) returns (r: Result<ParsedKey, ParseError>)
    requires priv.Valid()
    modifies priv
    ensures r == KeyFrom(publicBlob, ParseRsa(old(priv.Rest())))
  {
    hide TakeBlob, ParseTail, Utf8.Text, Strip, Reader.Rest;
    var n := priv.Integer();
    if n.Failure? {
      return Failure(Malformed);
    }
    var e := priv.Integer();
    if e.Failure? {
      return Failure(Malformed);
    }
    var d := priv.Integer();
    if d.Failure? {
      return Failure(Malformed);
    }
    var iqmp := priv.Integer();
    if iqmp.Failure? {
      return Failure(Malformed);
    }
    var p := priv.Integer();
    if p.Failure? {
      return Failure(Malformed);
    }
    var q := priv.Integer();
    if q.Failure? {
      return Failure(Malformed);
    }
    var comment :- DecodeTail(priv);
    r := Success(KeyRsa(comment, publicBlob, n.value, e.value, d.value, p.value, q.value, iqmp.value));
  }

  /** The container parser; every byte string gives a key or an error. */
  method DecodeContainer(raw: bytes) returns (r: Result<ParsedKey, ParseError>)
    ensures r == Parse(raw)
  {
    hide TakeBlob, TakeU32, Utf8.Text, ParsePrivate;
    if !(MAGIC <= raw) {
      return Failure(BadMagic);
    }
    var header := new Reader(raw[|MAGIC|..]);
    var cipher := header.Decoded();
    if cipher.Failure? {
      return Failure(Malformed);
    }
    var kdf := header.Decoded();
    if kdf.Failure? {
      return Failure(Malformed);
    }
    var kdfOptions := header.Text();
    if kdfOptions.Failure? {
      return Failure(Malformed);
    }
    var keys := header.Word();
    if keys.Failure? {
      return Failure(Malformed);
    }
    if cipher.value != NONE || kdf.value != NONE {
      return Failure(Encrypted(cipher.value, kdf.value));
    }
    if keys.value != 1 {
      return Failure(WrongKeyCount(keys.value));
    }
    var publicBlob := header.Text();
    if publicBlob.Failure? {
      return Failure(Malformed);
    }
    var section := header.Text();
    if section.Failure? {
      return Failure(Malformed);
    }
    r := DecodePrivate(publicBlob.value, section.value);
  }
}
