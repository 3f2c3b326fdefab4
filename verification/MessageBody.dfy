/** The body of a message: writing it (msg/encrypt.go) and reading it back (msg/decrypt.go). */
module MessageBody {
  import opened Bytes
  import opened Packets

  /** The symmetric primitives and signatures, left uninterpreted. */
  datatype Primitives = Primitives(
    keystream: (Bytes, Bytes, nat) -> Byte,     // AES-256-CTR keystream byte for key, IV and offset
    mac: (Bytes, Bytes) -> Bytes,               // HMAC-SHA512
    sha512: Bytes -> Bytes,
    sign: (Bytes, Bytes) -> Bytes,              // Ed25519
    verify: (Bytes, Bytes, Bytes) -> bool
  )

  ghost predicate Sized(pr: Primitives) {
    && (forall k, b :: |pr.mac(k, b)| == MAC_LEN)
    && (forall k, b :: |pr.sign(k, b)| == SIG_LEN)
  }

  /** The keys derived from the message key. */
  datatype Keys = Keys(crypto: Bytes, hmac: Bytes)

  // --- the key stream

  function Pow2(n: nat): (p: nat)
    ensures p > 0
  {
    if n == 0 then 1 else 2 * Pow2(n - 1)
  }

  function XorBits(a: nat, b: nat, n: nat): (x: nat)
    ensures x < Pow2(n)
  {
    if n == 0 then 0 else 2 * XorBits(a / 2, b / 2, n - 1) + (if a % 2 == b % 2 then 0 else 1)
  }

  lemma Halves(y: nat, bit: nat)
    requires bit < 2
    ensures (2 * y + bit) / 2 == y && (2 * y + bit) % 2 == bit
  {
  }

  lemma {:induction false} XorBitsTwice(a: nat, b: nat, n: nat)
    requires a < Pow2(n)
    ensures XorBits(XorBits(a, b, n), b, n) == a
  {
    if n > 0 {
      XorBitsTwice(a / 2, b / 2, n - 1);
      var bit := if a % 2 == b % 2 then 0 else 1;
      Halves(XorBits(a / 2, b / 2, n - 1), bit);
    }
  }

  /** Bit by bit, the result is one exactly where the two differ. */
  lemma {:induction false} XorBit(a: nat, b: nat, n: nat, i: nat)
    requires i < n
    ensures XorBits(a, b, n) / Pow2(i) % 2 == if a / Pow2(i) % 2 == b / Pow2(i) % 2 then 0 else 1
  {
    var bit := if a % 2 == b % 2 then 0 else 1;
    Halves(XorBits(a / 2, b / 2, n - 1), bit);
    if i == 0 {
      assert Pow2(0) == 1;
    } else {
      XorBit(a / 2, b / 2, n - 1, i - 1);
      HalveTwice(a, Pow2(i - 1));
      HalveTwice(b, Pow2(i - 1));
      HalveTwice(XorBits(a, b, n), Pow2(i - 1));
    }
  }

  lemma HalveTwice(v: nat, d: nat)
    requires d > 0
    ensures v / 2 / d == v / (2 * d)
  {
    var q, r := v / 2 / d, v / 2 % d;
    assert v / 2 == q * d + r;
    assert v == q * (2 * d) + (r * 2 + v % 2);
    QuotientIs(v, 2 * d, q, r * 2 + v % 2);
  }

  /** XORing with the key stream is bitwise exclusive or. */
  lemma XorIsBitwise(a: Byte, b: Byte, i: nat)
    requires i < 8
    ensures Xor(a, b) / Pow2(i) % 2 == if a / Pow2(i) % 2 == b / Pow2(i) % 2 then 0 else 1
  {
    XorBit(a, b, 8, i);
  }

  function Xor(a: Byte, b: Byte): Byte {
    assert Pow2(8) == 2 * Pow2(7) == 4 * Pow2(6) == 8 * Pow2(5) == 16 * Pow2(4) == 32 * Pow2(3) == 64 * Pow2(2);
    XorBits(a, b, 8)
  }

  lemma XorTwice(a: Byte, b: Byte)
    ensures Xor(Xor(a, b), b) == a
  {
    assert Pow2(8) == 2 * Pow2(7) == 4 * Pow2(6) == 8 * Pow2(5) == 16 * Pow2(4) == 32 * Pow2(3) == 64 * Pow2(2);
    XorBitsTwice(a, b, 8);
  }

  /** The data combined with the key stream from the given offset on. */
  function Crypt(pr: Primitives, key: Bytes, iv: Bytes, offset: nat, data: Bytes): (r: Bytes)
    ensures |r| == |data|
  {
    seq(|data|, i requires 0 <= i < |data| => Xor(data[i], pr.keystream(key, iv, offset + i)))
  }

  lemma CryptTwice(pr: Primitives, key: Bytes, iv: Bytes, offset: nat, data: Bytes)
    ensures Crypt(pr, key, iv, offset, Crypt(pr, key, iv, offset, data)) == data
  {
    var once := Crypt(pr, key, iv, offset, data);
    forall i | 0 <= i < |data| ensures Crypt(pr, key, iv, offset, once)[i] == data[i] {
      XorTwice(data[i], pr.keystream(key, iv, offset + i));
    }
  }

  /** Byte i of the result has the bits of the data's byte i, inverted where byte offset + i of the key
      stream has ones. */
  lemma CryptedBits(pr: Primitives, key: Bytes, iv: Bytes, offset: nat, data: Bytes, i: nat, bit: nat)
    requires i < |data| && bit < 8
    ensures var x, k := data[i], pr.keystream(key, iv, offset + i);
            Crypt(pr, key, iv, offset, data)[i] / Pow2(bit) % 2
            == if x / Pow2(bit) % 2 == k / Pow2(bit) % 2 then 0 else 1
  {
    XorIsBitwise(data[i], pr.keystream(key, iv, offset + i), bit);
  }

  /** Crypting piece by piece goes through one key stream. */
  lemma CryptedInParts(pr: Primitives, key: Bytes, iv: Bytes, offset: nat, x: Bytes, y: Bytes)
    ensures Crypt(pr, key, iv, offset, x + y) == Crypt(pr, key, iv, offset, x) + Crypt(pr, key, iv, offset + |x|, y)
  {
    var whole := Crypt(pr, key, iv, offset, x + y);
    var parts := Crypt(pr, key, iv, offset, x) + Crypt(pr, key, iv, offset + |x|, y);
    forall i | 0 <= i < |x + y| ensures whole[i] == parts[i] {
      if i >= |x| {
        assert parts[i] == Crypt(pr, key, iv, offset + |x|, y)[i - |x|];
      }
    }
  }

  // --- writing

  /** How much random padding fills the message up to its fixed size. */
  function PadLen(contentLen: nat, withSig: bool): int {
    if withSig then MAX_CONTENT_LENGTH - contentLen
    else MAX_CONTENT_LENGTH + SIGNATURE_SIZE - ENCRYPTED_PACKET_SIZE + INNER_HEADER_SIZE - contentLen
  }

  function DataPlain(content: Bytes, withSig: bool): Bytes {
    WriteInner(NewInner(if withSig then DATA_SIGN_TYPE else DATA_TYPE, false, content))
  }

  function TailPlain(pr: Primitives, content: Bytes, signer: Option<Bytes>, pad: Bytes): Bytes {
    (if signer.Some? then WriteInner(NewInner(SIGNATURE_TYPE, true, pr.sign(signer.value, pr.sha512(content)))) else [])
    + WriteInner(NewInner(PADDING_TYPE, false, pad))
  }

  /** A message body: IV, content, signing key if any, and padding. */
  datatype Body = Body(iv: Bytes, content: Bytes, signer: Option<Bytes>, pad: Bytes)

  predicate Fits(body: Body) {
    && |body.iv| == BLOCK_SIZE
    && |body.content| <= MAX_CONTENT_LENGTH
    && |body.pad| == PadLen(|body.content|, body.signer.Some?)
  }

  function SetupPacket(body: Body, count: nat): Outer {
    NewOuter(CRYPTO_SETUP, count, body.iv)
  }

  function DataPacket(pr: Primitives, ks: Keys, body: Body, count: nat): Outer {
    NewOuter(ENCRYPTED_PACKET, count + 1, Crypt(pr, ks.crypto, body.iv, 0, DataPlain(body.content, body.signer.Some?)))
  }

  function TailPacket(pr: Primitives, ks: Keys, body: Body, count: nat): Outer {
    NewOuter(ENCRYPTED_PACKET, count + 2,
             Crypt(pr, ks.crypto, body.iv, |DataPlain(body.content, body.signer.Some?)|,
                   TailPlain(pr, body.content, body.signer, body.pad)))
  }

  function AuthBytes(setup: Outer, data: Outer, tail: Outer, last: Outer): Bytes {
    WriteOuter(setup, true) + WriteOuter(data, true) + WriteOuter(tail, true) + WriteOuter(last, false)
  }

  /** What the sender feeds to the HMAC. */
  function SentMacInput(pr: Primitives, ks: Keys, body: Body, count: nat): Bytes {
    AuthBytes(SetupPacket(body, count), DataPacket(pr, ks, body, count), TailPacket(pr, ks, body, count),
              Outer(HMAC_PACKET, MAC_LEN, count + 3, []))
  }

  function MacPacket(pr: Primitives, ks: Keys, body: Body, count: nat): Outer {
    Outer(HMAC_PACKET, MAC_LEN, count + 3, pr.mac(ks.hmac, SentMacInput(pr, ks, body, count)))
  }

  function WriteBody(pr: Primitives, ks: Keys, body: Body, count: nat): Bytes {
    WriteOuter(SetupPacket(body, count), true)
    + WriteOuter(DataPacket(pr, ks, body, count), true)
    + WriteOuter(TailPacket(pr, ks, body, count), true)
    + WriteOuter(MacPacket(pr, ks, body, count), true)
  }

  // --- reading

  /** What reading a body did: what reached the writer (before the HMAC was checked), what was fed
      to the HMAC, and the result with the signature, if any. */
  datatype Parsed = Parsed(written: Bytes, macInput: Bytes, result: Result<Option<Bytes>, PacketError>)

  function ReadPacket(b: Bytes, typ: Byte, count: nat, wrongType: PacketError): Result<(Outer, Bytes), PacketError> {
    match ReadOuter(b)
    case Err(e) => Err(e)
    case Ok((oh, rest)) =>
      if oh.typ != typ then Err(wrongType) else if oh.count != count then Err(WrongCount) else Ok((oh, rest))
  }

  /** The content of the data packet and whether a signature must follow. */
  function ReadData(pr: Primitives, ks: Keys, iv: Bytes, data: Outer): Result<(Bytes, bool), PacketError> {
    match ReadInner(Crypt(pr, ks.crypto, iv, 0, data.inner))
    case Err(e) => Err(e)
    case Ok(ih) => if ih.typ != DATA_TYPE && ih.typ != DATA_SIGN_TYPE then Err(NotData)
                   else Ok((ih.content, ih.typ == DATA_SIGN_TYPE))
  }

  /** The signature, if one must follow; otherwise the packet must be padding. */
  function ReadTail(pr: Primitives, ks: Keys, iv: Bytes, offset: nat, tail: Outer, withSig: bool)
    : Result<Option<Bytes>, PacketError>
  {
    match ReadInner(Crypt(pr, ks.crypto, iv, offset, tail.inner))
    case Err(e) => Err(e)
    case Ok(ih) =>
      if withSig then
        if ih.typ != SIGNATURE_TYPE then Err(NotSignaturePacket)
        else if |ih.content| != SIG_LEN then Err(WrongSignatureLength)
        else Ok(Some(ih.content))
      else if ih.typ != PADDING_TYPE then Err(NotPaddingPacket)
      else Ok(None)
  }

  predicate SignatureHolds(pr: Primitives, pub: Bytes, content: Bytes, sig: Option<Bytes>) {
    sig.Some? ==> pr.verify(pub, pr.sha512(content), sig.value)
  }

  /** The packets after the header, read with the keys of one message. */
  function ParseBody(pr: Primitives, ks: Keys, pub: Bytes, b: Bytes, count: nat): Parsed {
    match ReadPacket(b, CRYPTO_SETUP, count, NotCryptoSetup)
    case Err(e) => Parsed([], [], Err(e))
    case Ok((setup, b1)) =>
      if setup.plen != BLOCK_SIZE then Parsed([], [], Err(WrongCryptoSetup)) else
      match ReadPacket(b1, ENCRYPTED_PACKET, count + 1, NotEncryptedPacket)
      case Err(e) => Parsed([], [], Err(e))
      case Ok((data, b2)) =>
        match ReadData(pr, ks, setup.inner, data)
        case Err(e) => Parsed([], [], Err(e))
        case Ok((content, withSig)) =>
          ParseRest(pr, ks, pub, setup, data, content, withSig, b2, count + 2)
  }

  /** The packets after the data: signature or padding, then the HMAC. */
  function ParseRest(pr: Primitives, ks: Keys, pub: Bytes, setup: Outer, data: Outer, content: Bytes, withSig: bool,
                     b: Bytes, count: nat): Parsed
  {
    match ReadPacket(b, ENCRYPTED_PACKET, count, NotEncryptedPacket)
    case Err(e) => Parsed(content, [], Err(e))
    case Ok((tail, b1)) =>
      match ReadTail(pr, ks, setup.inner, |data.inner|, tail, withSig)
      case Err(e) => Parsed(content, [], Err(e))
      case Ok(sig) =>
        if !SignatureHolds(pr, pub, content, sig) then Parsed(content, [], Err(InvalidSignature)) else
        match ReadPacket(b1, HMAC_PACKET, count + 1, NotHmacPacket)
        case Err(e) => Parsed(content, [], Err(e))
        case Ok((last, _)) =>
          var input := AuthBytes(setup, data, tail, last);
          Parsed(content, input, if pr.mac(ks.hmac, input) != last.inner then Err(HmacsDiffer) else Ok(sig))
  }

  // --- the round trip

  lemma PacketsAreWellFormed(pr: Primitives, ks: Keys, body: Body, count: nat)
    requires Sized(pr) && Fits(body) && count + 3 < TWO32
    ensures WellFormed(SetupPacket(body, count))
    ensures WellFormed(DataPacket(pr, ks, body, count)) && |DataPacket(pr, ks, body, count).inner| == 5 + |body.content|
    ensures WellFormed(TailPacket(pr, ks, body, count))
    ensures WellFormed(MacPacket(pr, ks, body, count))
  {
  }

  lemma ReadDataWritten(pr: Primitives, ks: Keys, body: Body, count: nat)
    requires Sized(pr) && Fits(body) && count + 3 < TWO32
    ensures ReadData(pr, ks, body.iv, DataPacket(pr, ks, body, count)) == Ok((body.content, body.signer.Some?))
  {
    var plain := DataPlain(body.content, body.signer.Some?);
    CryptTwice(pr, ks.crypto, body.iv, 0, plain);
    ReadInnerWritten(NewInner(if body.signer.Some? then DATA_SIGN_TYPE else DATA_TYPE, false, body.content), []);
    assert plain + [] == plain;
  }

  lemma ReadTailPlain(pr: Primitives, body: Body)
    requires Sized(pr) && Fits(body)
    ensures ReadInner(TailPlain(pr, body.content, body.signer, body.pad))
         == Ok(if body.signer.Some?
               then NewInner(SIGNATURE_TYPE, true, pr.sign(body.signer.value, pr.sha512(body.content)))
               else NewInner(PADDING_TYPE, false, body.pad))
  {
    hide WriteInner, ReadInner;
    var padding := NewInner(PADDING_TYPE, false, body.pad);
    if body.signer.Some? {
      ReadInnerWritten(NewInner(SIGNATURE_TYPE, true, pr.sign(body.signer.value, pr.sha512(body.content))),
                       WriteInner(padding));
    } else {
      ReadInnerWritten(padding, []);
      assert [] + WriteInner(padding) == WriteInner(padding) + [];
    }
  }

  lemma ReadTailWritten(pr: Primitives, ks: Keys, body: Body, count: nat)
    requires Sized(pr) && Fits(body) && count + 3 < TWO32
    ensures ReadTail(pr, ks, body.iv, |DataPacket(pr, ks, body, count).inner|, TailPacket(pr, ks, body, count),
                     body.signer.Some?)
         == Ok(if body.signer.Some? then Some(pr.sign(body.signer.value, pr.sha512(body.content))) else None)
  {
    hide ReadInner, TailPlain, DataPlain;
    CryptTwice(pr, ks.crypto, body.iv, |DataPlain(body.content, body.signer.Some?)|,
               TailPlain(pr, body.content, body.signer, body.pad));
    ReadTailPlain(pr, body);
  }

  /** Reading back a written body yields exactly the content and the signature, with the same bytes fed
      to the HMAC on both sides; whatever follows the body is not looked at. */
  lemma BodyRoundTrip(pr: Primitives, ks: Keys, body: Body, pub: Bytes, count: nat, rest: Bytes)
    requires Sized(pr) && Fits(body) && count + 3 < TWO32
    requires body.signer.Some? ==>
               pr.verify(pub, pr.sha512(body.content), pr.sign(body.signer.value, pr.sha512(body.content)))
    ensures ParseBody(pr, ks, pub, WriteBody(pr, ks, body, count) + rest, count)
         == Parsed(body.content, SentMacInput(pr, ks, body, count),
                   Ok(if body.signer.Some? then Some(pr.sign(body.signer.value, pr.sha512(body.content))) else None))
  {
    hide DataPacket, TailPacket, MacPacket, WriteOuter, ReadOuter, ReadData, ReadTail, Fits, Sized, AuthBytes,
         SentMacInput;
    PacketsAreWellFormed(pr, ks, body, count);
    ReadDataWritten(pr, ks, body, count);
    ReadTailWritten(pr, ks, body, count);
    var setup, data := SetupPacket(body, count), DataPacket(pr, ks, body, count);
    var tail, last := TailPacket(pr, ks, body, count), MacPacket(pr, ks, body, count);
    LastPackets(pr, ks, body, count);
    var b3 := WriteOuter(last, true) + rest;
    var b2 := WriteOuter(tail, true) + b3;
    var b1 := WriteOuter(data, true) + b2;
    var b := WriteOuter(setup, true) + b1;
    assert WriteBody(pr, ks, body, count) + rest == b;
    ReadOuterWritten(setup, b1);
    ReadOuterWritten(data, b2);
    ReadOuterWritten(tail, b3);
    ReadOuterWritten(last, rest);
  }

  lemma LastPackets(pr: Primitives, ks: Keys, body: Body, count: nat)
    requires Fits(body)
    ensures DataPacket(pr, ks, body, count).typ == ENCRYPTED_PACKET
    ensures DataPacket(pr, ks, body, count).count == count + 1
    ensures TailPacket(pr, ks, body, count).typ == ENCRYPTED_PACKET
    ensures TailPacket(pr, ks, body, count).count == count + 2
    ensures SetupPacket(body, count).plen == BLOCK_SIZE
    ensures var last := MacPacket(pr, ks, body, count);
            && last.typ == HMAC_PACKET && last.count == count + 3
            && last.inner == pr.mac(ks.hmac, SentMacInput(pr, ks, body, count))
            && SentMacInput(pr, ks, body, count)
               == AuthBytes(SetupPacket(body, count), DataPacket(pr, ks, body, count), TailPacket(pr, ks, body, count),
                            last)
  {
  }

  // --- the HMAC binds the content

  lemma PrefixDetermines(o: Outer, x: Bytes, o': Outer, x': Bytes)
    requires WellFormed(o) && WellFormed(o')
    requires WriteOuter(o, true) + x == WriteOuter(o', true) + x'
    ensures o == o' && x == x'
  {
    ReadOuterWritten(o, x);
    ReadOuterWritten(o', x');
  }

  lemma AuthBytesDetermine(s: Outer, d: Outer, t: Outer, l: Outer, s': Outer, d': Outer, t': Outer, l': Outer)
    requires WellFormed(s) && WellFormed(d) && WellFormed(t) && WellFormed(s') && WellFormed(d') && WellFormed(t')
    requires AuthBytes(s, d, t, l) == AuthBytes(s', d', t', l')
    ensures s == s' && d == d' && t == t'
  {
    hide WriteOuter;
    var x3, y3 := WriteOuter(l, false), WriteOuter(l', false);
    var x2, y2 := WriteOuter(t, true) + x3, WriteOuter(t', true) + y3;
    var x1, y1 := WriteOuter(d, true) + x2, WriteOuter(d', true) + y2;
    assert AuthBytes(s, d, t, l) == WriteOuter(s, true) + x1;
    assert AuthBytes(s', d', t', l') == WriteOuter(s', true) + y1;
    PrefixDetermines(s, x1, s', y1);
    PrefixDetermines(d, x2, d', y2);
    PrefixDetermines(t, x3, t', y3);
  }

  /** What an accepted body consists of. */
  lemma AcceptedBody(pr: Primitives, ks: Keys, pub: Bytes, b: Bytes, count: nat)
    returns (setup: Outer, data: Outer, tail: Outer, last: Outer, withSig: bool)
    requires ParseBody(pr, ks, pub, b, count).result.Ok?
    ensures WellFormed(setup) && WellFormed(data) && WellFormed(tail)
    ensures ParseBody(pr, ks, pub, b, count).macInput == AuthBytes(setup, data, tail, last)
    ensures last.inner == pr.mac(ks.hmac, AuthBytes(setup, data, tail, last))
    ensures ReadData(pr, ks, setup.inner, data) == Ok((ParseBody(pr, ks, pub, b, count).written, withSig))
    ensures ReadTail(pr, ks, setup.inner, |data.inner|, tail, withSig) == ParseBody(pr, ks, pub, b, count).result
  {
    hide ReadOuter, ReadData, ReadTail, AuthBytes, WellFormed;
    var b1, b2, b3;
    setup, b1 := ReadOuter(b).value.0, ReadOuter(b).value.1;
    data, b2 := ReadOuter(b1).value.0, ReadOuter(b1).value.1;
    tail, b3 := ReadOuter(b2).value.0, ReadOuter(b2).value.1;
    last := ReadOuter(b3).value.0;
    withSig := ReadData(pr, ks, setup.inner, data).value.1;
    ReadOuterConsumes(b);
    ReadOuterConsumes(b1);
    ReadOuterConsumes(b2);
  }

  /** Two byte strings accepted under the same keys with the same bytes fed to the HMAC give the same
      content and the same signature.  Hence different accepted contents mean different HMAC inputs. */
  lemma HmacBindsContent(pr: Primitives, ks: Keys, pub: Bytes, b: Bytes, b': Bytes, count: nat)
    requires ParseBody(pr, ks, pub, b, count).result.Ok? && ParseBody(pr, ks, pub, b', count).result.Ok?
    requires ParseBody(pr, ks, pub, b, count).macInput == ParseBody(pr, ks, pub, b', count).macInput
    ensures ParseBody(pr, ks, pub, b, count) == ParseBody(pr, ks, pub, b', count)
  {
    hide ParseBody, ReadData, ReadTail, AuthBytes, WellFormed;
    var s, d, t, l, g := AcceptedBody(pr, ks, pub, b, count);
    var s', d', t', l', g' := AcceptedBody(pr, ks, pub, b', count);
    AuthBytesDetermine(s, d, t, l, s', d', t', l');
  }
}
