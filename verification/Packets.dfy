/** The packet layout of a message (msg/outer.go, msg/inner.go, msg/preheader.go, msg/header.go, msg/first.go). */
module Packets {
  import opened Bytes

  datatype PacketError =
    | Eof                  // the reader ended inside a field
    | InvalidType          // unknown outer or inner header type
    | NotPreHeader | InvalidVersion | InvalidCiphersuite | WrongHeaderPubLength
    | NotEncryptedHeader | NotCryptoSetup | WrongCryptoSetup | NotEncryptedPacket
    | NotData | NotPaddingPacket | NotSignaturePacket | WrongSignatureLength | InvalidSignature
    | NotHmacPacket | HmacsDiffer | WrongCount
    | ContentTooLong | WrongHeaderLength | WrongMessageSize

  // outer header types
  const PRE_HEADER: Byte := 1
  const ENCRYPTED_HEADER: Byte := 2
  const CRYPTO_SETUP: Byte := 4
  const HMAC_PACKET: Byte := 8
  const ENCRYPTED_PACKET: Byte := 16

  // inner header types
  const PADDING_TYPE: Byte := 1
  const DATA_TYPE: Byte := 2
  const DATA_SIGN_TYPE: Byte := 6
  const SIGNATURE_TYPE: Byte := 8

  // sizes
  const ENCODED_MSG_SIZE := 65536
  const UNENCODED_MSG_SIZE := 49152
  const PRE_HEADER_SIZE := 73
  const ENCRYPTED_HEADER_SIZE := 7201
  const CRYPTO_SETUP_SIZE := 23
  const ENCRYPTED_PACKET_SIZE := 12
  const SIGNATURE_SIZE := 76
  const HMAC_SIZE := 71
  const INNER_HEADER_SIZE := 5
  const MAX_CONTENT_LENGTH := UNENCODED_MSG_SIZE - PRE_HEADER_SIZE - ENCRYPTED_HEADER_SIZE - CRYPTO_SETUP_SIZE
                              - ENCRYPTED_PACKET_SIZE - SIGNATURE_SIZE - INNER_HEADER_SIZE - HMAC_SIZE
  const LENGTH_ENCRYPTED_HEADER := 7168
  const BLOCK_SIZE := 16
  const MAC_LEN := 64
  const SIG_LEN := 64

  const TWO16 := 0x1_0000
  const TWO32 := 0x1_0000_0000

  // --- outer headers

  datatype Outer = Outer(typ: Byte, plen: nat, count: nat, inner: Bytes)

  /** The length field is a uint16: longer contents would be truncated in the field. */
  function NewOuter(typ: Byte, count: nat, inner: Bytes): Outer {
    Outer(typ, |inner| % TWO16, count, inner)
  }

  function WriteOuter(oh: Outer, withInner: bool): Bytes {
    [oh.typ] + BigEndian(oh.plen, 2) + BigEndian(oh.count, 4) + (if withInner then oh.inner else [])
  }

  predicate OuterType(t: Byte) {
    t == PRE_HEADER || t == ENCRYPTED_HEADER || t == CRYPTO_SETUP || t == HMAC_PACKET || t == ENCRYPTED_PACKET
  }

  /** Reads one outer packet and returns what follows it. */
  function ReadOuter(b: Bytes): Result<(Outer, Bytes), PacketError> {
    if |b| < 1 then Err(Eof)
    else if !OuterType(b[0]) then Err(InvalidType)
    else if |b| < 7 then Err(Eof)
    else
      var plen := FromBigEndian(b[1..3]);
      if |b| < 7 + plen then Err(Eof)
      else Ok((Outer(b[0], plen, FromBigEndian(b[3..7]), b[7..7 + plen]), b[7 + plen..]))
  }

  /** What fits the fields of an outer header. */
  predicate WellFormed(oh: Outer) {
    OuterType(oh.typ) && oh.plen == |oh.inner| < TWO16 && oh.count < TWO32
  }

  lemma Pow256Small()
    ensures Pow256(2) == TWO16 && Pow256(4) == TWO32
  {
    assert Pow256(1) == 256 * Pow256(0);
    assert Pow256(2) == 256 * Pow256(1);
    assert Pow256(3) == 256 * Pow256(2);
    assert Pow256(4) == 256 * Pow256(3);
  }

  lemma ReadOuterWritten(oh: Outer, rest: Bytes)
    requires WellFormed(oh)
    ensures ReadOuter(WriteOuter(oh, true) + rest) == Ok((oh, rest))
  {
    hide BigEndian, FromBigEndian;
    Pow256Small();
    BigEndianRoundTrip(oh.plen, 2);
    BigEndianRoundTrip(oh.count, 4);
    var b := WriteOuter(oh, true) + rest;
    assert b[0] == oh.typ;
    assert b[1..3] == BigEndian(oh.plen, 2);
    assert b[3..7] == BigEndian(oh.count, 4);
    assert b[7..7 + oh.plen] == oh.inner;
    assert b[7 + oh.plen..] == rest;
  }

  lemma {:induction false} FromBigEndianBound(b: Bytes)
    ensures FromBigEndian(b) < Pow256(|b|)
    ensures BigEndian(FromBigEndian(b), |b|) == b
  {
    if b != [] {
      var front, last := b[..|b| - 1], b[|b| - 1];
      FromBigEndianBound(front);
      var v := FromBigEndian(b);
      assert v / 256 == FromBigEndian(front) && v % 256 == last;
      assert b == front + [last];
    }
  }

  /** Whatever is read is exactly what writing it again produces: reading loses nothing. */
  lemma ReadOuterConsumes(b: Bytes)
    requires ReadOuter(b).Ok?
    ensures var (oh, rest) := ReadOuter(b).value;
            WellFormed(oh) && b == WriteOuter(oh, true) + rest
  {
    Pow256Small();
    FromBigEndianBound(b[1..3]);
    FromBigEndianBound(b[3..7]);
    var (oh, rest) := ReadOuter(b).value;
    assert b == [b[0]] + b[1..3] + b[3..7] + b[7..7 + oh.plen] + rest;
  }

  // --- inner headers

  datatype Inner = Inner(typ: Byte, plen: nat, more: Byte, skip: Byte, content: Bytes)

  function NewInner(typ: Byte, more: bool, content: Bytes): Inner {
    Inner(typ, |content| % TWO16, if more then 1 else 0, 0, content)
  }

  function WriteInner(ih: Inner): Bytes {
    [ih.typ] + BigEndian(ih.plen, 2) + [ih.more] + [ih.skip] + ih.content
  }

  predicate InnerType(t: Byte) {
    t == PADDING_TYPE || t == DATA_TYPE || t == DATA_SIGN_TYPE || t == SIGNATURE_TYPE
  }

  /** Reads the first inner packet of a plaintext; what follows it is ignored. */
  function ReadInner(b: Bytes): Result<Inner, PacketError> {
    if |b| < 1 then Err(Eof)
    else if !InnerType(b[0]) then Err(InvalidType)
    else if |b| < 5 then Err(Eof)
    else
      var plen := FromBigEndian(b[1..3]);
      if |b| < 5 + plen then Err(Eof)
      else Ok(Inner(b[0], plen, b[3], b[4], b[5..5 + plen]))
  }

  lemma ReadInnerWritten(ih: Inner, rest: Bytes)
    requires InnerType(ih.typ) && ih.plen == |ih.content| < TWO16
    ensures ReadInner(WriteInner(ih) + rest) == Ok(ih)
  {
    Pow256Small();
    BigEndianRoundTrip(ih.plen, 2);
    var b := WriteInner(ih) + rest;
    assert b[1..3] == BigEndian(ih.plen, 2);
    assert b[5..5 + ih.plen] == ih.content;
  }

  // --- pre-header

  const VERSION: nat := 1

  /** "CURVE25519 XSALSA20 POLY1305" */
  const CIPHERSUITE: Bytes := [67, 85, 82, 86, 69, 50, 53, 53, 49, 57, 32, 88, 83, 65, 76, 83, 65, 50, 48, 32,
                               80, 79, 76, 89, 49, 51, 48, 53]

  function WritePreHeader(suite: Bytes, headerPub: Bytes): Bytes {
    BigEndian(VERSION, 2) + BigEndian(|suite| % TWO16, 2) + suite + BigEndian(|headerPub| % TWO16, 2) + headerPub
  }

  /** readPreHeader and the length check at the start of Decrypt: returns the header key. */
  function ReadPreHeader(suite: Bytes, b: Bytes): Result<Bytes, PacketError> {
    if |b| < 2 then Err(Eof)
    else if FromBigEndian(b[..2]) != VERSION then Err(InvalidVersion)
    else if |b| < 4 then Err(Eof)
    else if FromBigEndian(b[2..4]) != |suite| then Err(InvalidCiphersuite)
    else if |b| < 4 + |suite| then Err(Eof)
    else if b[4..4 + |suite|] != suite then Err(InvalidCiphersuite)
    else
      var r := b[4 + |suite|..];
      if |r| < 2 then Err(Eof)
      else
        var len := FromBigEndian(r[..2]);
        if |r| < 2 + len then Err(Eof)
        else if len != 32 then Err(WrongHeaderPubLength)
        else Ok(r[2..34])
  }

  lemma ReadPreHeaderWritten(suite: Bytes, headerPub: Bytes)
    requires |headerPub| == 32 && |suite| < TWO16
    ensures ReadPreHeader(suite, WritePreHeader(suite, headerPub)) == Ok(headerPub)
    ensures |WritePreHeader(suite, headerPub)| == 38 + |suite|
    ensures FromBigEndian(WritePreHeader(suite, headerPub)[..2]) == VERSION
  {
    hide BigEndian, FromBigEndian;
    Pow256Small();
    BigEndianRoundTrip(VERSION, 2);
    BigEndianRoundTrip(|suite|, 2);
    BigEndianRoundTrip(32, 2);
    var b := WritePreHeader(suite, headerPub);
    assert b[..2] == BigEndian(VERSION, 2);
    assert b[2..4] == BigEndian(|suite|, 2);
    assert b[4..4 + |suite|] == suite;
    var r := b[4 + |suite|..];
    assert r == BigEndian(32, 2) + headerPub;
    assert r[..2] == BigEndian(32, 2);
    assert r[2..34] == headerPub;
  }

  /** ReadFirstOuterHeader: the version, the pre-header and what follows. */
  function ReadFirst(b: Bytes): Result<(nat, Bytes, Bytes), PacketError> {
    if |b| < 1 then Err(Eof)
    else if b[0] != PRE_HEADER then Err(NotPreHeader)
    else if |b| < 7 then Err(Eof)
    else if FromBigEndian(b[3..7]) != 0 then Err(WrongCount)
    else
      var plen := FromBigEndian(b[1..3]);
      if |b| < 7 + plen || plen < 2 then Err(Eof)
      else Ok((FromBigEndian(b[7..9]), b[7..7 + plen], b[7 + plen..]))
  }

  lemma ReadFirstWritten(pre: Bytes, rest: Bytes)
    requires 2 <= |pre| < TWO16
    ensures ReadFirst(WriteOuter(NewOuter(PRE_HEADER, 0, pre), true) + rest) == Ok((FromBigEndian(pre[..2]), pre, rest))
  {
    var oh := NewOuter(PRE_HEADER, 0, pre);
    var b := WriteOuter(oh, true) + rest;
    ReadOuterWritten(oh, rest);
    assert b[7..9] == b[7..7 + |pre|][..2];
  }

  // --- the encrypted header packet

  function WriteHeaderPacket(nonce: Bytes, sealedHeader: Bytes): Bytes {
    nonce + BigEndian(|sealedHeader| % TWO16, 2) + sealedHeader
  }

  /** The framing part of readHeader: nonce and sealed header. */
  function ReadHeaderPacket(b: Bytes): Result<(Bytes, Bytes), PacketError> {
    if |b| < 26 then Err(Eof)
    else
      var len := FromBigEndian(b[24..26]);
      if |b| < 26 + len then Err(Eof) else Ok((b[..24], b[26..26 + len]))
  }

  lemma ReadHeaderPacketWritten(nonce: Bytes, sealedHeader: Bytes)
    requires |nonce| == 24 && |sealedHeader| == LENGTH_ENCRYPTED_HEADER
    ensures ReadHeaderPacket(WriteHeaderPacket(nonce, sealedHeader)) == Ok((nonce, sealedHeader))
    ensures |WriteHeaderPacket(nonce, sealedHeader)| == ENCRYPTED_HEADER_SIZE - 7
  {
    Pow256Small();
    BigEndianRoundTrip(|sealedHeader|, 2);
    var b := WriteHeaderPacket(nonce, sealedHeader);
    assert b[24..26] == BigEndian(|sealedHeader|, 2);
    assert b[..24] == nonce && b[26..26 + |sealedHeader|] == sealedHeader;
  }
}
