/** Whole messages: the fixed size, the way back, and the code that writes and reads the packets
    step by step (msg/encrypt.go, msg/decrypt.go, msg/first.go, msg/msg.go). */
module WireFormat {
  import opened Bytes
  import opened Packets
  import opened MessageBody

  /** Length of the base64 encoding (section 4 of RFC 4648). */
  function Base64Len(n: nat): nat {
    (n + 2) / 3 * 4
  }

  /** The envelope around a body: the one-time header key and the sealed header. */
  datatype Envelope = Envelope(headerPub: Bytes, nonce: Bytes, sealedHeader: Bytes)

  function RawMessage(pr: Primitives, ks: Keys, env: Envelope, body: Body): Bytes {
    WriteOuter(NewOuter(PRE_HEADER, 0, WritePreHeader(CIPHERSUITE, env.headerPub)), true)
    + WriteOuter(NewOuter(ENCRYPTED_HEADER, 1, WriteHeaderPacket(env.nonce, env.sealedHeader)), true)
    + WriteBody(pr, ks, body, 2)
  }

  /** Encrypt's output before base64, with its checks in order. */
  function WriteMessage(pr: Primitives, ks: Keys, env: Envelope, body: Body): Result<Bytes, PacketError> {
    if |env.sealedHeader| % TWO16 != LENGTH_ENCRYPTED_HEADER then Err(WrongHeaderLength)
    else if |body.content| > MAX_CONTENT_LENGTH then Err(ContentTooLong)
    else
      var raw := RawMessage(pr, ks, env, body);
      if Base64Len(|raw|) != ENCODED_MSG_SIZE then Err(WrongMessageSize) else Ok(raw)
  }

  /** What the code can rely on: key, nonce and IV sizes, and padding of the requested length. */
  predicate Shaped(env: Envelope, body: Body) {
    && |env.headerPub| == 32 && |env.nonce| == 24 && |env.sealedHeader| < TWO16
    && |body.iv| == BLOCK_SIZE
    && (|body.content| <= MAX_CONTENT_LENGTH ==> |body.pad| == PadLen(|body.content|, body.signer.Some?))
  }

  lemma BodySize(pr: Primitives, ks: Keys, body: Body, count: nat)
    requires Sized(pr) && Fits(body)
    ensures |WriteBody(pr, ks, body, count)|
         == CRYPTO_SETUP_SIZE + ENCRYPTED_PACKET_SIZE + MAX_CONTENT_LENGTH + SIGNATURE_SIZE + INNER_HEADER_SIZE
            + HMAC_SIZE
  {
    var mac := MacPacket(pr, ks, body, count).inner;
    assert |mac| == MAC_LEN;
    if body.signer.Some? {
      assert |pr.sign(body.signer.value, pr.sha512(body.content))| == SIG_LEN;
    }
    TailSize(pr, body);
  }

  lemma TailSize(pr: Primitives, body: Body)
    requires Sized(pr) && Fits(body)
    ensures |TailPlain(pr, body.content, body.signer, body.pad)| + |body.content|
         == MAX_CONTENT_LENGTH + SIGNATURE_SIZE - 7 + INNER_HEADER_SIZE
  {
  }

  /** Encrypt accepts a content exactly when it is at most MaxContentLength long and the sealed header
      has its fixed length, and then every message is 49152 bytes, 65536 base64 characters and no
      base64 padding, signed or not. */
  lemma MessageHasFixedSize(pr: Primitives, ks: Keys, env: Envelope, body: Body)
    requires Sized(pr) && Shaped(env, body)
    ensures WriteMessage(pr, ks, env, body).Ok? <==>
              |env.sealedHeader| == 7168 && |body.content| <= 41691
    ensures WriteMessage(pr, ks, env, body).Ok? ==>
              var raw := WriteMessage(pr, ks, env, body).value;
              |raw| == 49152 && |raw| % 3 == 0 && Base64Len(|raw|) == 65536
    ensures |env.sealedHeader| == 7168 && |body.content| > 41691 ==>
              WriteMessage(pr, ks, env, body) == Err(ContentTooLong)
    ensures |env.sealedHeader| != 7168 ==> WriteMessage(pr, ks, env, body) == Err(WrongHeaderLength)
  {
    if |env.sealedHeader| == LENGTH_ENCRYPTED_HEADER && |body.content| <= MAX_CONTENT_LENGTH {
      hide WriteBody, WritePreHeader, WriteHeaderPacket;
      BodySize(pr, ks, body, 2);
      ReadPreHeaderWritten(CIPHERSUITE, env.headerPub);
      ReadHeaderPacketWritten(env.nonce, env.sealedHeader);
      assert |RawMessage(pr, ks, env, body)| == UNENCODED_MSG_SIZE;
    }
  }

  /** Decrypt up to the sealed header: the envelope and the bytes of the body. */
  function OpenEnvelope(raw: Bytes): Result<(Envelope, Bytes), PacketError> {
    match ReadFirst(raw)
    case Err(e) => Err(e)
    case Ok((_, pre, b1)) =>
      match ReadPreHeader(CIPHERSUITE, pre)
      case Err(e) => Err(e)
      case Ok(headerPub) =>
        match ReadPacket(b1, ENCRYPTED_HEADER, 1, NotEncryptedHeader)
        case Err(e) => Err(e)
        case Ok((oh, b2)) =>
          match ReadHeaderPacket(oh.inner)
          case Err(e) => Err(e)
          case Ok((nonce, sealedHeader)) => Ok((Envelope(headerPub, nonce, sealedHeader), b2))
  }

  /** Every accepted message can be taken apart again: the envelope and exactly the content come back. */
  lemma MessageRoundTrip(pr: Primitives, ks: Keys, env: Envelope, body: Body, pub: Bytes)
    requires Sized(pr) && Shaped(env, body) && WriteMessage(pr, ks, env, body).Ok?
    requires body.signer.Some? ==>
               pr.verify(pub, pr.sha512(body.content), pr.sign(body.signer.value, pr.sha512(body.content)))
    ensures var raw := WriteMessage(pr, ks, env, body).value;
            && OpenEnvelope(raw) == Ok((env, WriteBody(pr, ks, body, 2)))
            && var p := ParseBody(pr, ks, pub, WriteBody(pr, ks, body, 2), 2);
               && p.written == body.content && p.result.Ok? && p.macInput == SentMacInput(pr, ks, body, 2)
               && (p.result.value.Some? <==> body.signer.Some?)
  {
    MessageHasFixedSize(pr, ks, env, body);
    BodyRoundTrip(pr, ks, body, pub, 2, []);
    assert WriteBody(pr, ks, body, 2) + [] == WriteBody(pr, ks, body, 2);
    EnvelopeRoundTrip(pr, ks, env, body);
  }

  lemma EnvelopeRoundTrip(pr: Primitives, ks: Keys, env: Envelope, body: Body)
    requires |env.headerPub| == 32 && |env.nonce| == 24 && |env.sealedHeader| == LENGTH_ENCRYPTED_HEADER
    ensures OpenEnvelope(RawMessage(pr, ks, env, body)) == Ok((env, WriteBody(pr, ks, body, 2)))
  {
    hide WriteBody, WritePreHeader, WriteHeaderPacket, WriteOuter, ReadFirst, ReadOuter, ReadPreHeader,
         ReadHeaderPacket;
    ReadPreHeaderWritten(CIPHERSUITE, env.headerPub);
    ReadHeaderPacketWritten(env.nonce, env.sealedHeader);
    var pre := WritePreHeader(CIPHERSUITE, env.headerPub);
    var hdr := NewOuter(ENCRYPTED_HEADER, 1, WriteHeaderPacket(env.nonce, env.sealedHeader));
    var b2 := WriteBody(pr, ks, body, 2);
    var b1 := WriteOuter(hdr, true) + b2;
    assert RawMessage(pr, ks, env, body) == WriteOuter(NewOuter(PRE_HEADER, 0, pre), true) + b1;
    ReadFirstWritten(pre, b1);
    ReadOuterWritten(hdr, b2);
  }

  // --- the same, step by step

  /** A key stream with its position. */
  class CtrStream {
    const pr: Primitives
    const key: Bytes
    const iv: Bytes
    var offset: nat

    constructor (pr: Primitives, key: Bytes, iv: Bytes)
      ensures this.pr == pr && this.key == key && this.iv == iv && offset == 0
    {
      this.pr, this.key, this.iv, this.offset := pr, key, iv, 0;
    }

    /** XORKeyStream: combines the data with the stream and moves on. */
    method XorKeyStream(data: Bytes) returns (r: Bytes)
      modifies this
      ensures r == Crypt(pr, key, iv, old(offset), data)
      ensures offset == old(offset) + |data|
    {
      r := [];
      for i := 0 to |data|
        invariant r == Crypt(pr, key, iv, old(offset), data)[..i]
        invariant offset == old(offset) + i
      {
        r := r + [Xor(data[i], pr.keystream(key, iv, offset))];
        offset := offset + 1;
      }
    }
  }

  /** Bytes written so far, to the output or to the HMAC. */
  class Sink {
    var bytes: Bytes

    constructor ()
      ensures bytes == []
    {
      bytes := [];
    }

    method WriteOuterHeader(oh: Outer, withInner: bool)
      modifies this
      ensures bytes == old(bytes) + WriteOuter(oh, withInner)
    {
      bytes := bytes + [oh.typ];
      bytes := bytes + BigEndian(oh.plen, 2);
      bytes := bytes + BigEndian(oh.count, 4);
      if withInner {
        bytes := bytes + oh.inner;
      }
    }

    method Write(b: Bytes)
      modifies this
      ensures bytes == old(bytes) + b
    {
      bytes := bytes + b;
    }
  }

  /** A packet goes out and into the HMAC. */
  method SendPacket(wc: Sink, mac: Sink, oh: Outer)
    requires wc != mac
    modifies wc, mac
    ensures wc.bytes == old(wc.bytes) + WriteOuter(oh, true)
    ensures mac.bytes == old(mac.bytes) + WriteOuter(oh, true)
  {
    wc.WriteOuterHeader(oh, true);
    mac.WriteOuterHeader(oh, true);
  }

  /** The signature packet, if any, and the padding packet, in one buffer. */
  method WriteTail(pr: Primitives, body: Body) returns (buf: Bytes)
    ensures buf == TailPlain(pr, body.content, body.signer, body.pad)
  {
    buf := [];
    if body.signer.Some? {
      buf := WriteInner(NewInner(SIGNATURE_TYPE, true, pr.sign(body.signer.value, pr.sha512(body.content))));
    }
    buf := buf + WriteInner(NewInner(PADDING_TYPE, false, body.pad));
  }

  /** Encrypt from the crypto setup packet on. */
  method EncryptBody(pr: Primitives, ks: Keys, body: Body, start: nat, wc: Sink) returns (macInput: Bytes)
    modifies wc
    ensures wc.bytes == old(wc.bytes) + WriteBody(pr, ks, body, start)
    ensures macInput == SentMacInput(pr, ks, body, start)
  {
    hide WriteOuter, Crypt, WriteInner, TailPlain;
    var count := start;
    var mac := new Sink();
    SendPacket(wc, mac, NewOuter(CRYPTO_SETUP, count, body.iv));
    count := count + 1;

    // encrypted packet with the content
    var innerType := if body.signer.Some? then DATA_SIGN_TYPE else DATA_TYPE;
    var stream := new CtrStream(pr, ks.crypto, body.iv);
    var buf := stream.XorKeyStream(WriteInner(NewInner(innerType, false, body.content)));
    SendPacket(wc, mac, NewOuter(ENCRYPTED_PACKET, count, buf));
    count := count + 1;

    // signature and padding
    buf := WriteTail(pr, body);
    buf := stream.XorKeyStream(buf);
    SendPacket(wc, mac, NewOuter(ENCRYPTED_PACKET, count, buf));
    count := count + 1;

    // HMAC packet
    var oh := NewOuter(HMAC_PACKET, count, []);
    oh := oh.(plen := MAC_LEN);
    mac.WriteOuterHeader(oh, false);
    macInput := mac.bytes;
    assert macInput == SentMacInput(pr, ks, body, start);
    oh := oh.(inner := pr.mac(ks.hmac, mac.bytes));
    wc.WriteOuterHeader(oh, true);
    assert wc.bytes == old(wc.bytes) + WriteBody(pr, ks, body, start);
  }

  /** A reader with its position. */
  class Reader {
    const data: Bytes
    var pos: nat

    ghost predicate Valid()
      reads this
    {
      pos <= |data|
    }

    ghost function Rest(): Bytes
      requires Valid()
      reads this
    {
      data[pos..]
    }

    constructor (data: Bytes)
      ensures Valid() && Rest() == data
    {
      this.data, this.pos := data, 0;
    }

    /** io.ReadFull: all n bytes or an error. */
    method ReadFull(n: nat) returns (r: Result<Bytes, PacketError>)
      requires Valid()
      modifies this
      ensures Valid()
      ensures n <= |old(Rest())| ==> r == Ok(old(Rest())[..n]) && Rest() == old(Rest())[n..]
      ensures n > |old(Rest())| ==> r == Err(Eof)
    {
      if pos + n > |data| {
        pos := |data|;
        return Err(Eof);
      }
      assert data[pos..pos + n] == data[pos..][..n] && data[pos + n..] == data[pos..][n..];
      r := Ok(data[pos..pos + n]);
      pos := pos + n;
    }

    /** readOuterHeader. */
    method ReadOuterHeader() returns (r: Result<Outer, PacketError>)
      requires Valid()
      modifies this
      ensures Valid()
      ensures match ReadOuter(old(Rest()))
              case Ok((oh, rest)) => r == Ok(oh) && Rest() == rest
              case Err(e) => r == Err(e)
    {
      ghost var b := Rest();
      var t := ReadFull(1);
      if t.Err? {
        return Err(t.error);
      }
      var typ := t.value[0];
      if !OuterType(typ) {
        return Err(InvalidType);
      }
      var l := ReadFull(2);
      if l.Err? {
        return Err(l.error);
      }
      assert |b| >= 3 && l.value == b[1..3];
      var c := ReadFull(4);
      if c.Err? {
        return Err(c.error);
      }
      assert |b| >= 7 && c.value == b[3..7];
      var inner := ReadFull(FromBigEndian(l.value));
      if inner.Err? {
        return Err(inner.error);
      }
      assert inner.value == b[7..7 + FromBigEndian(l.value)] && Rest() == b[7 + FromBigEndian(l.value)..];
      r := Ok(Outer(typ, FromBigEndian(l.value), FromBigEndian(c.value), inner.value));
    }

    /** One packet of the expected type and count. */
    method NextPacket(typ: Byte, count: nat, wrongType: PacketError) returns (r: Result<Outer, PacketError>)
      requires Valid()
      modifies this
      ensures Valid()
      ensures match ReadPacket(old(Rest()), typ, count, wrongType)
              case Ok((oh, rest)) => r == Ok(oh) && Rest() == rest
              case Err(e) => r == Err(e)
    {
      r := ReadOuterHeader();
      if r.Ok? && r.value.typ != typ {
        return Err(wrongType);
      }
      if r.Ok? && r.value.count != count {
        return Err(WrongCount);
      }
    }
  }

  /** Decrypts the data packet: the content and whether a signature follows. */
  method OpenData(ks: Keys, stream: CtrStream, data: Outer) returns (r: Result<(Bytes, bool), PacketError>)
    requires stream.key == ks.crypto && stream.offset == 0
    modifies stream
    ensures r == ReadData(stream.pr, ks, stream.iv, data)
    ensures stream.offset == |data.inner|
  {
    var plaintext := stream.XorKeyStream(data.inner);
    var ih := ReadInner(plaintext);
    if ih.Err? {
      return Err(ih.error);
    }
    if ih.value.typ != DATA_TYPE && ih.value.typ != DATA_SIGN_TYPE {
      return Err(NotData);
    }
    r := Ok((ih.value.content, ih.value.typ == DATA_SIGN_TYPE));
  }

  /** Decrypts the packet after the data: a signature, or padding. */
  method OpenTail(ks: Keys, stream: CtrStream, tail: Outer, withSig: bool)
    returns (r: Result<Option<Bytes>, PacketError>)
    requires stream.key == ks.crypto
    modifies stream
    ensures r == ReadTail(stream.pr, ks, stream.iv, old(stream.offset), tail, withSig)
  {
    var plaintext := stream.XorKeyStream(tail.inner);
    var ih := ReadInner(plaintext);
    if ih.Err? {
      return Err(ih.error);
    }
    if withSig {
      if ih.value.typ != SIGNATURE_TYPE {
        return Err(NotSignaturePacket);
      }
      if |ih.value.content| != SIG_LEN {
        return Err(WrongSignatureLength);
      }
      return Ok(Some(ih.value.content));
    }
    if ih.value.typ != PADDING_TYPE {
      return Err(NotPaddingPacket);
    }
    r := Ok(None);
  }

  /** Decrypt from the crypto setup packet on. */
  method DecryptBody(pr: Primitives, ks: Keys, pub: Bytes, reader: Reader, start: nat, writer: Sink)
    returns (r: Result<Option<Bytes>, PacketError>, macInput: Bytes)
    requires reader.Valid()
    modifies reader, writer
    ensures var p := ParseBody(pr, ks, pub, old(reader.Rest()), start);
            r == p.result && macInput == p.macInput && writer.bytes == old(writer.bytes) + p.written
  {
    hide ReadPacket, ReadData, ParseRest, WriteOuter;
    macInput := [];
    var count := start;
    var setup := reader.NextPacket(CRYPTO_SETUP, count, NotCryptoSetup);
    if setup.Err? {
      r := Err(setup.error);
      return;
    }
    count := count + 1;
    if setup.value.plen != BLOCK_SIZE {
      r := Err(WrongCryptoSetup);
      return;
    }
    var mac := new Sink();
    mac.WriteOuterHeader(setup.value, true);

    // actual decryption
    var data := reader.NextPacket(ENCRYPTED_PACKET, count, NotEncryptedPacket);
    if data.Err? {
      r := Err(data.error);
      return;
    }
    count := count + 1;
    var stream := new CtrStream(pr, ks.crypto, setup.value.inner);
    var content := OpenData(ks, stream, data.value);
    if content.Err? {
      r := Err(content.error);
      return;
    }
    writer.Write(content.value.0);
    mac.WriteOuterHeader(data.value, true);

    r, macInput := DecryptRest(pub, ks, reader, stream, mac, setup.value, data.value, content.value, count);
  }

  /** Decrypt after the data packet: signature or padding, then the HMAC. */
  method DecryptRest(pub: Bytes, ks: Keys, reader: Reader, stream: CtrStream, mac: Sink,
                     ghost setup: Outer, ghost data: Outer, content: (Bytes, bool), start: nat)
    returns (r: Result<Option<Bytes>, PacketError>, macInput: Bytes)
    requires reader.Valid()
    requires stream.key == ks.crypto && stream.iv == setup.inner && stream.offset == |data.inner|
    requires mac.bytes == WriteOuter(setup, true) + WriteOuter(data, true)
    modifies reader, stream, mac
    ensures var p := ParseRest(stream.pr, ks, pub, setup, data, content.0, content.1, old(reader.Rest()), start);
            r == p.result && macInput == p.macInput && p.written == content.0
  {
    hide ReadPacket, ReadTail, WriteOuter;
    macInput := [];
    var count := start;
    var tail := reader.NextPacket(ENCRYPTED_PACKET, count, NotEncryptedPacket);
    if tail.Err? {
      r := Err(tail.error);
      return;
    }
    count := count + 1;
    mac.WriteOuterHeader(tail.value, true);
    var sig := OpenTail(ks, stream, tail.value, content.1);
    if sig.Err? {
      r := Err(sig.error);
      return;
    }
    if sig.value.Some? && !stream.pr.verify(pub, stream.pr.sha512(content.0), sig.value.value) {
      r := Err(InvalidSignature);
      return;
    }

    // HMAC
    var last := reader.NextPacket(HMAC_PACKET, count, NotHmacPacket);
    if last.Err? {
      r := Err(last.error);
      return;
    }
    mac.WriteOuterHeader(last.value, false);
    macInput := mac.bytes;
    r := if stream.pr.mac(ks.hmac, mac.bytes) != last.value.inner then Err(HmacsDiffer) else Ok(sig.value);
  }
}
