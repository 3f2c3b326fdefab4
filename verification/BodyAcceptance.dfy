/** Exactly which bytes Decrypt accepts as the body of a message, and what it says about the others
    (msg/decrypt.go, msg/outer.go, msg/inner.go). */
module BodyAcceptance {
  import opened Bytes
  import opened Packets
  import opened MessageBody

  // --- the layout, byte by byte

  lemma TwoBytes(v: nat)
    requires v < 65536
    ensures BigEndian(v, 2) == [v / 256, v % 256]
  {
    assert BigEndian(v / 256, 1) == BigEndian(v / 256 / 256, 0) + [v / 256 % 256];
  }

  lemma FourBytes(v: nat)
    requires v < 0x1_0000_0000
    ensures BigEndian(v, 4) == [v / 256 / 256 / 256, v / 256 / 256 % 256, v / 256 % 256, v % 256]
  {
    TwoBytes(v / 256 / 256);
    assert BigEndian(v / 256, 3) == BigEndian(v / 256 / 256, 2) + [v / 256 % 256];
  }

  /** A packet: its type, its length in two bytes and its count in four, high bytes first, and its content. */
  lemma OuterLayout(oh: Outer)
    requires WellFormed(oh)
    ensures var n, k := |oh.inner|, oh.count;
            && n / 256 < 256 && k / 256 / 256 / 256 < 256
            && WriteOuter(oh, false) ==
               [oh.typ, n / 256, n % 256, k / 256 / 256 / 256, k / 256 / 256 % 256, k / 256 % 256, k % 256]
            && WriteOuter(oh, true) == WriteOuter(oh, false) + oh.inner
  {
    TwoBytes(|oh.inner|);
    FourBytes(oh.count);
  }

  /** A plaintext that starts with an inner packet of type t and content x. */
  ghost predicate StartsInner(plain: Bytes, t: int, x: Bytes) {
    && |plain| >= 5 && plain[0] == t && |x| == plain[1] as int * 256 + plain[2]
    && 5 + |x| <= |plain| && x == plain[5..5 + |x|]
  }

  /** An inner packet: its type, its length in two bytes, whether more follows, zero, and its content. */
  lemma InnerLayout(t: Byte, more: bool, x: Bytes)
    requires |x| < 65536
    ensures |x| / 256 < 256
    ensures WriteInner(NewInner(t, more, x)) == [t, |x| / 256, |x| % 256, if more then 1 else 0, 0] + x
    ensures forall rest :: StartsInner(WriteInner(NewInner(t, more, x)) + rest, t, x)
  {
    hide BigEndian;
    TwoBytes(|x|);
    var w := WriteInner(NewInner(t, more, x));
    var five: Bytes := [t, |x| / 256, |x| % 256, if more then 1 else 0, 0];
    assert w == five + x;
    forall rest ensures StartsInner(w + rest, t, x) {
      StartsWithFive(five, x, rest);
    }
  }

  lemma StartsWithFive(five: Bytes, x: Bytes, rest: Bytes)
    requires |five| == 5 && |x| == five[1] as int * 256 + five[2]
    ensures StartsInner(five + x + rest, five[0], x)
  {
    var b := five + x + rest;
    assert b[..5] == five && b[5..5 + |x|] == x;
    assert b[1] == five[1] && b[2] == five[2];
  }

  lemma ReadsInner(plain: Bytes)
    ensures forall t: Byte, x :: InnerType(t) ==>
              (StartsInner(plain, t, x) <==>
                 ReadInner(plain).Ok? && ReadInner(plain).value.typ == t && ReadInner(plain).value.content == x)
  {
    if |plain| >= 5 {
      assert plain[1..3] == [plain[1], plain[2]];
      assert plain[1..3][..1] == [plain[1]] && [plain[1]][..0] == [];
      assert FromBigEndian(plain[1..3]) == FromBigEndian([plain[1]]) * 256 + plain[2];
      assert FromBigEndian([plain[1]]) == FromBigEndian([]) * 256 + plain[1];
    }
  }

  // --- what the four packets have to be

  /** Crypto setup, data, signature or padding, and HMAC: well-formed, of the right types and in order. */
  predicate InOrder(setup: Outer, data: Outer, tail: Outer, last: Outer, count: nat) {
    && WellFormed(setup) && setup.typ == 4 && setup.count == count && |setup.inner| == 16
    && WellFormed(data) && data.typ == 16 && data.count == count + 1
    && WellFormed(tail) && tail.typ == 16 && tail.count == count + 2
    && WellFormed(last) && last.typ == 8 && last.count == count + 3
  }

  /** The data packet decrypts to the content, and the packet after it to its signature, or to padding if the
      data is not signed. */
  ghost predicate Decrypts(pr: Primitives, ks: Keys, setup: Outer, data: Outer, tail: Outer, content: Bytes,
                           sig: Option<Bytes>)
  {
    var first := Crypt(pr, ks.crypto, setup.inner, 0, data.inner);
    var second := Crypt(pr, ks.crypto, setup.inner, |data.inner|, tail.inner);
    if sig.Some? then StartsInner(first, 6, content) && StartsInner(second, 8, sig.value) && |sig.value| == 64
    else StartsInner(first, 2, content) && exists pad :: StartsInner(second, 1, pad)
  }

  function Joined(setup: Outer, data: Outer, tail: Outer, last: Outer, rest: Bytes): Bytes {
    WriteOuter(setup, true) + (WriteOuter(data, true) + (WriteOuter(tail, true) + (WriteOuter(last, true) + rest)))
  }

  function MacInput(setup: Outer, data: Outer, tail: Outer, last: Outer): Bytes {
    WriteOuter(setup, true) + WriteOuter(data, true) + WriteOuter(tail, true) + WriteOuter(last, false)
  }

  // --- the parser on such packets

  lemma DataIs(pr: Primitives, ks: Keys, setup: Outer, data: Outer, tail: Outer, content: Bytes, sig: Option<Bytes>)
    ensures Decrypts(pr, ks, setup, data, tail, content, sig) <==>
            && ReadData(pr, ks, setup.inner, data) == Ok((content, sig.Some?))
            && ReadTail(pr, ks, setup.inner, |data.inner|, tail, sig.Some?) == Ok(sig)
  {
    hide ReadInner, Crypt;
    var first := Crypt(pr, ks.crypto, setup.inner, 0, data.inner);
    var second := Crypt(pr, ks.crypto, setup.inner, |data.inner|, tail.inner);
    ReadsInner(first);
    ReadsInner(second);
    assert StartsInner(first, DATA_TYPE, content) <==> StartsInner(first, 2, content);
    assert StartsInner(first, DATA_SIGN_TYPE, content) <==> StartsInner(first, 6, content);
    if sig.Some? {
      assert StartsInner(second, SIGNATURE_TYPE, sig.value) <==> StartsInner(second, 8, sig.value);
    } else {
      PaddingIs(second);
    }
  }

  lemma PaddingIs(plain: Bytes)
    ensures (exists pad :: StartsInner(plain, 1, pad)) <==> ReadInner(plain).Ok? && ReadInner(plain).value.typ == 1
  {
    ReadsInner(plain);
    if ReadInner(plain).Ok? && ReadInner(plain).value.typ == 1 {
      assert StartsInner(plain, PADDING_TYPE, ReadInner(plain).value.content);
    }
    if pad :| StartsInner(plain, 1, pad) {
      assert StartsInner(plain, PADDING_TYPE, pad);
    }
  }

  lemma ReadsPacket(oh: Outer, rest: Bytes, wrongType: PacketError)
    requires WellFormed(oh)
    ensures ReadPacket(WriteOuter(oh, true) + rest, oh.typ, oh.count, wrongType) == Ok((oh, rest))
  {
    hide WriteOuter, ReadOuter;
    ReadOuterWritten(oh, rest);
  }

  /** On packets in order that decrypt to content and signature: the content is written, an invalid signature
      and then a wrong HMAC are reported as such, and nothing else stands in the way. */
  lemma ParsedPackets(pr: Primitives, ks: Keys, pub: Bytes, count: nat, setup: Outer, data: Outer, tail: Outer,
                      last: Outer, rest: Bytes, content: Bytes, sig: Option<Bytes>)
    requires InOrder(setup, data, tail, last, count) && Decrypts(pr, ks, setup, data, tail, content, sig)
    ensures var p := ParseBody(pr, ks, pub, Joined(setup, data, tail, last, rest), count);
            && p.written == content
            && p.result == if sig.Some? && !pr.verify(pub, pr.sha512(content), sig.value) then Err(InvalidSignature)
                           else if last.inner != pr.mac(ks.hmac, MacInput(setup, data, tail, last))
                           then Err(HmacsDiffer)
                           else Ok(sig)
  {
    hide ReadPacket, WriteOuter, ReadData, ReadTail, Decrypts;
    DataIs(pr, ks, setup, data, tail, content, sig);
    var b3 := WriteOuter(last, true) + rest;
    var b2 := WriteOuter(tail, true) + b3;
    var b1 := WriteOuter(data, true) + b2;
    ReadsPacket(setup, b1, NotCryptoSetup);
    ReadsPacket(data, b2, NotEncryptedPacket);
    ReadsPacket(tail, b3, NotEncryptedPacket);
    ReadsPacket(last, rest, NotHmacPacket);
  }

  lemma MisreadsPacket(oh: Outer, rest: Bytes, typ: Byte, count: nat, wrongType: PacketError)
    requires WellFormed(oh)
    ensures oh.typ != typ ==> ReadPacket(WriteOuter(oh, true) + rest, typ, count, wrongType) == Err(wrongType)
    ensures oh.typ == typ && oh.count != count ==>
              ReadPacket(WriteOuter(oh, true) + rest, typ, count, wrongType) == Err(WrongCount)
  {
    hide WriteOuter, ReadOuter;
    ReadOuterWritten(oh, rest);
  }

  /** The first packet that is of another type, or else has another count, is reported; the content reaches the
      writer once the data packet has been decrypted. */
  lemma MisplacedPackets(pr: Primitives, ks: Keys, pub: Bytes, count: nat, setup: Outer, data: Outer, tail: Outer,
                         last: Outer, rest: Bytes, content: Bytes, sig: Option<Bytes>)
    requires WellFormed(setup) && WellFormed(data) && WellFormed(tail) && WellFormed(last)
    requires Decrypts(pr, ks, setup, data, tail, content, sig)
    requires sig.Some? ==> pr.verify(pub, pr.sha512(content), sig.value)
    ensures var p := ParseBody(pr, ks, pub, Joined(setup, data, tail, last, rest), count);
            !InOrder(setup, data, tail, last, count) ==>
              && p.result == Err(
                   if setup.typ != 4 then NotCryptoSetup
                   else if setup.count != count then WrongCount
                   else if |setup.inner| != 16 then WrongCryptoSetup
                   else if data.typ != 16 then NotEncryptedPacket
                   else if data.count != count + 1 then WrongCount
                   else if tail.typ != 16 then NotEncryptedPacket
                   else if tail.count != count + 2 then WrongCount
                   else if last.typ != 8 then NotHmacPacket
                   else WrongCount)
              && p.written == if setup.typ == 4 && setup.count == count && |setup.inner| == 16 &&
                                 data.typ == 16 && data.count == count + 1 then content else []
  {
    hide ReadPacket, WriteOuter, ReadData, ReadTail, Decrypts, WellFormed;
    SetupLength(setup);
    DataIs(pr, ks, setup, data, tail, content, sig);
    var b3 := WriteOuter(last, true) + rest;
    var b2 := WriteOuter(tail, true) + b3;
    var b1 := WriteOuter(data, true) + b2;
    ReadsPacket(setup, b1, NotCryptoSetup);
    ReadsPacket(data, b2, NotEncryptedPacket);
    ReadsPacket(tail, b3, NotEncryptedPacket);
    ReadsPacket(last, rest, NotHmacPacket);
    MisreadsPacket(setup, b1, 4, count, NotCryptoSetup);
    MisreadsPacket(data, b2, 16, count + 1, NotEncryptedPacket);
    MisreadsPacket(tail, b3, 16, count + 2, NotEncryptedPacket);
    MisreadsPacket(last, rest, 8, count + 3, NotHmacPacket);
  }

  // --- what accepted bytes consist of

  lemma TakesPacket(b: Bytes, typ: Byte, count: nat, wrongType: PacketError)
    requires ReadPacket(b, typ, count, wrongType).Ok?
    ensures var (oh, rest) := ReadPacket(b, typ, count, wrongType).value;
            WellFormed(oh) && oh.typ == typ && oh.count == count && b == WriteOuter(oh, true) + rest
  {
    hide ReadOuter, WriteOuter;
    ReadOuterConsumes(b);
  }

  /** The four packets of an accepted body. */
  lemma TakenApart(pr: Primitives, ks: Keys, pub: Bytes, b: Bytes, count: nat)
    returns (setup: Outer, data: Outer, tail: Outer, last: Outer, rest: Bytes)
    requires ParseBody(pr, ks, pub, b, count).result.Ok?
    ensures InOrder(setup, data, tail, last, count) && b == Joined(setup, data, tail, last, rest)
    ensures var p := ParseBody(pr, ks, pub, b, count); Decrypts(pr, ks, setup, data, tail, p.written, p.result.value)
  {
    hide ReadPacket, WriteOuter, ReadData, ReadTail, Decrypts, WellFormed, AuthBytes;
    var b1, b2, b3;
    var s := ReadPacket(b, CRYPTO_SETUP, count, NotCryptoSetup).value;
    setup, b1 := s.0, s.1;
    TakesPacket(b, CRYPTO_SETUP, count, NotCryptoSetup);
    var d := ReadPacket(b1, ENCRYPTED_PACKET, count + 1, NotEncryptedPacket).value;
    data, b2 := d.0, d.1;
    TakesPacket(b1, ENCRYPTED_PACKET, count + 1, NotEncryptedPacket);
    var t := ReadPacket(b2, ENCRYPTED_PACKET, count + 2, NotEncryptedPacket).value;
    tail, b3 := t.0, t.1;
    TakesPacket(b2, ENCRYPTED_PACKET, count + 2, NotEncryptedPacket);
    var l := ReadPacket(b3, HMAC_PACKET, count + 3, NotHmacPacket).value;
    last, rest := l.0, l.1;
    TakesPacket(b3, HMAC_PACKET, count + 3, NotHmacPacket);
    SetupLength(setup);
    var p := ParseBody(pr, ks, pub, b, count);
    SigMatches(pr, ks, setup, data, tail);
    DataIs(pr, ks, setup, data, tail, p.written, p.result.value);
  }

  lemma SetupLength(setup: Outer)
    requires WellFormed(setup)
    ensures setup.plen == |setup.inner|
  {
  }

  lemma SigMatches(pr: Primitives, ks: Keys, setup: Outer, data: Outer, tail: Outer)
    ensures var d := ReadData(pr, ks, setup.inner, data);
            d.Ok? ==> var t := ReadTail(pr, ks, setup.inner, |data.inner|, tail, d.value.1);
                      t.Ok? ==> (t.value.Some? <==> d.value.1)
  {
    hide ReadInner, Crypt;
  }

  /** The body is accepted with this content and signature: the bytes start with four packets in order that
      decrypt to them, the signature verifies if there is one, and the HMAC over the first three packets and
      the header of the last is what the last holds. */
  ghost predicate Accepts(pr: Primitives, ks: Keys, pub: Bytes, b: Bytes, count: nat, content: Bytes,
                          sig: Option<Bytes>)
  {
    exists setup, data, tail, last, rest ::
      && b == Joined(setup, data, tail, last, rest)
      && InOrder(setup, data, tail, last, count) && Decrypts(pr, ks, setup, data, tail, content, sig)
      && (sig.Some? ==> pr.verify(pub, pr.sha512(content), sig.value))
      && last.inner == pr.mac(ks.hmac, MacInput(setup, data, tail, last))
  }

  /** Decrypt accepts exactly these bytes. */
  lemma AcceptedIff(pr: Primitives, ks: Keys, pub: Bytes, b: Bytes, count: nat, content: Bytes, sig: Option<Bytes>)
    ensures ParseBody(pr, ks, pub, b, count).result == Ok(sig) &&
            ParseBody(pr, ks, pub, b, count).written == content <==>
            Accepts(pr, ks, pub, b, count, content, sig)
  {
    hide ParseBody, Joined, InOrder, Decrypts, MacInput;
    if Accepts(pr, ks, pub, b, count, content, sig) {
      var setup, data, tail, last, rest :|
        b == Joined(setup, data, tail, last, rest)
        && InOrder(setup, data, tail, last, count) && Decrypts(pr, ks, setup, data, tail, content, sig)
        && (sig.Some? ==> pr.verify(pub, pr.sha512(content), sig.value))
        && last.inner == pr.mac(ks.hmac, MacInput(setup, data, tail, last));
      ParsedPackets(pr, ks, pub, count, setup, data, tail, last, rest, content, sig);
    }
    if ParseBody(pr, ks, pub, b, count).result == Ok(sig) && ParseBody(pr, ks, pub, b, count).written == content {
      var setup, data, tail, last, rest := TakenApart(pr, ks, pub, b, count);
      ParsedPackets(pr, ks, pub, count, setup, data, tail, last, rest, content, sig);
    }
  }

  /** A signature that is returned has been verified against the content that was written. */
  lemma SignatureIsVerified(pr: Primitives, ks: Keys, pub: Bytes, b: Bytes, count: nat, sig: Bytes)
    requires ParseBody(pr, ks, pub, b, count).result == Ok(Some(sig))
    ensures pr.verify(pub, pr.sha512(ParseBody(pr, ks, pub, b, count).written), sig) && |sig| == 64
  {
    hide ParseBody, Joined, InOrder, MacInput;
    AcceptedIff(pr, ks, pub, b, count, ParseBody(pr, ks, pub, b, count).written, Some(sig));
  }

  /** A body whose data is marked as signed is never accepted as unsigned, and the other way round. */
  lemma SignedStaysSigned(pr: Primitives, ks: Keys, pub: Bytes, count: nat, setup: Outer, data: Outer, rest: Bytes)
    requires WellFormed(setup) && WellFormed(data)
    requires ParseBody(pr, ks, pub, WriteOuter(setup, true) + (WriteOuter(data, true) + rest), count).result.Ok?
    ensures var p := ParseBody(pr, ks, pub, WriteOuter(setup, true) + (WriteOuter(data, true) + rest), count);
            var first := Crypt(pr, ks.crypto, setup.inner, 0, data.inner);
            && |first| >= 1
            && (p.result.value.Some? <==> first[0] == 6) && (p.result.value.None? <==> first[0] == 2)
  {
    hide ParseBody, WriteOuter, MacInput, Crypt;
    var b1 := WriteOuter(data, true) + rest;
    var b := WriteOuter(setup, true) + b1;
    var s, d, t, l, r := TakenApart(pr, ks, pub, b, count);
    PrefixDetermines(setup, b1, s, WriteOuter(d, true) + (WriteOuter(t, true) + (WriteOuter(l, true) + r)));
    PrefixDetermines(data, rest, d, WriteOuter(t, true) + (WriteOuter(l, true) + r));
  }
}
