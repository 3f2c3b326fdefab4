/** Whole messages byte by byte, and exactly which bytes Decrypt accepts before the body
    (msg/encrypt.go, msg/decrypt.go, msg/first.go, msg/preheader.go, msg/header.go, msg/msg.go). */
module MessageLayout {
  import opened Bytes
  import opened Packets
  import opened MessageBody
  import opened BodyAcceptance
  import opened WireFormat

  lemma CiphersuiteIs()
    ensures |CIPHERSUITE| == 28
    ensures forall i :: 0 <= i < 28 ==> CIPHERSUITE[i] == "CURVE25519 XSALSA20 POLY1305"[i] as int
  {
  }

  /** How a pre-header starts: version 1, the ciphersuite and the header key, with their lengths. */
  function PreHeader(headerPub: Bytes): Bytes {
    [0, 1, 0, 28] + CIPHERSUITE + [0, 32] + headerPub
  }

  /** How an encrypted header starts: the nonce, and the sealed header with its length. */
  function SealedHeader(nonce: Bytes, sealedHeader: Bytes): Bytes
    requires |sealedHeader| < 65536
  {
    nonce + [|sealedHeader| / 256, |sealedHeader| % 256] + sealedHeader
  }

  lemma PreHeaderIs(headerPub: Bytes)
    requires |headerPub| == 32
    ensures WritePreHeader(CIPHERSUITE, headerPub) == PreHeader(headerPub)
  {
    CiphersuiteIs();
    TwoBytes(1);
    TwoBytes(28);
    TwoBytes(32);
    assert BigEndian(28, 2) == [0, 28];
    assert BigEndian(1, 2) + BigEndian(28, 2) == [0, 1, 0, 28];
  }

  /** A whole message: the pre-header packet, the header packet and the body, whose first count is 2. */
  lemma Layout(pr: Primitives, ks: Keys, env: Envelope, body: Body)
    requires |env.headerPub| == 32 && |env.nonce| == 24 && |env.sealedHeader| == 7168
    ensures RawMessage(pr, ks, env, body)
         == [1, 0, 66, 0, 0, 0, 0] + ([0, 1, 0, 28] + CIPHERSUITE + [0, 32] + env.headerPub)
            + ([2, 28, 26, 0, 0, 0, 1] + (env.nonce + [28, 0] + env.sealedHeader))
            + WriteBody(pr, ks, body, 2)
  {
    hide WriteBody, WriteOuter, BigEndian, WritePreHeader;
    CiphersuiteIs();
    PreHeaderIs(env.headerPub);
    TwoBytes(7168);
    OuterLayout(NewOuter(1, 0, PreHeader(env.headerPub)));
    OuterLayout(NewOuter(2, 1, SealedHeader(env.nonce, env.sealedHeader)));
    assert WriteHeaderPacket(env.nonce, env.sealedHeader) == SealedHeader(env.nonce, env.sealedHeader);
  }

  // --- what is accepted

  lemma TwoByteValue(b: Bytes)
    requires |b| == 2
    ensures FromBigEndian(b) == b[0] as int * 256 + b[1]
  {
    assert b[..1] == [b[0]] && [b[0]][..0] == [];
    assert FromBigEndian([b[0]]) == FromBigEndian([]) * 256 + b[0];
  }

  lemma ReadsPreHeader(pre: Bytes, headerPub: Bytes)
    ensures ReadPreHeader(CIPHERSUITE, pre) == Ok(headerPub) <==> |headerPub| == 32 && PreHeader(headerPub) <= pre
  {
    hide FromBigEndian;
    CiphersuiteIs();
    if |pre| >= 34 {
      TwoByteValue(pre[..2]);
      TwoByteValue(pre[2..4]);
      var r := pre[32..];
      TwoByteValue(r[..2]);
      if |pre| >= 66 {
        assert pre[..66] == pre[..2] + pre[2..4] + pre[4..32] + r[..2] + r[2..34];
      }
      if |headerPub| == 32 && PreHeader(headerPub) <= pre {
        var p := PreHeader(headerPub);
        assert pre[..66] == p;
        assert pre[4..32] == p[4..32] == CIPHERSUITE;
        assert r[..2] == p[32..34] && r[2..34] == p[34..66] == headerPub;
      }
    }
  }

  lemma ReadsHeaderPacket(b: Bytes, nonce: Bytes, sealedHeader: Bytes)
    ensures ReadHeaderPacket(b) == Ok((nonce, sealedHeader)) <==>
              |nonce| == 24 && |sealedHeader| < 65536 && SealedHeader(nonce, sealedHeader) <= b
  {
    hide FromBigEndian;
    if |b| >= 26 {
      TwoByteValue(b[24..26]);
      var n := b[24] as int * 256 + b[25];
      if |b| >= 26 + n {
        assert b[..26 + n] == b[..24] + [b[24], b[25]] + b[26..26 + n];
      }
      if |nonce| == 24 && |sealedHeader| < 65536 && SealedHeader(nonce, sealedHeader) <= b {
        var p := SealedHeader(nonce, sealedHeader);
        assert b[..24] == p[..24] == nonce;
        assert b[24] == p[24] && b[25] == p[25];
        assert b[26..26 + |sealedHeader|] == p[26..] == sealedHeader;
      }
    }
  }

  lemma ReadsFirst(raw: Bytes, pre: Bytes, b1: Bytes)
    ensures ReadFirst(raw).Ok? && ReadFirst(raw).value.1 == pre && ReadFirst(raw).value.2 == b1 <==>
              2 <= |pre| < 65536 && raw == WriteOuter(NewOuter(1, 0, pre), true) + b1
  {
    hide BigEndian, FromBigEndian, WriteOuter;
    if 2 <= |pre| < 65536 && raw == WriteOuter(NewOuter(1, 0, pre), true) + b1 {
      ReadFirstWritten(pre, b1);
    }
    if ReadFirst(raw).Ok? {
      ReadOuterConsumes(raw);
    }
  }

  lemma ReadsHeader(b1: Bytes, inner: Bytes, rest: Bytes)
    ensures ReadPacket(b1, 2, 1, NotEncryptedHeader).Ok? &&
            ReadPacket(b1, 2, 1, NotEncryptedHeader).value.0.inner == inner &&
            ReadPacket(b1, 2, 1, NotEncryptedHeader).value.1 == rest <==>
              |inner| < 65536 && b1 == WriteOuter(NewOuter(2, 1, inner), true) + rest
  {
    hide WriteOuter, ReadPacket;
    if |inner| < 65536 && b1 == WriteOuter(NewOuter(2, 1, inner), true) + rest {
      ReadsPacket(NewOuter(2, 1, inner), rest, NotEncryptedHeader);
    }
    if ReadPacket(b1, 2, 1, NotEncryptedHeader).Ok? {
      TakesPacket(b1, 2, 1, NotEncryptedHeader);
    }
  }

  /** Two packets, counted from 0: a pre-header with the header key and a header with nonce and sealed header. */
  predicate Enveloped(raw: Bytes, env: Envelope, rest: Bytes, pre: Bytes, inner: Bytes) {
    && |env.headerPub| == 32 && |env.nonce| == 24 && |env.sealedHeader| < 65536 && |pre| < 65536 && |inner| < 65536
    && PreHeader(env.headerPub) <= pre && SealedHeader(env.nonce, env.sealedHeader) <= inner
    && raw == WriteOuter(NewOuter(1, 0, pre), true) + (WriteOuter(NewOuter(2, 1, inner), true) + rest)
  }

  /** Decrypt takes exactly these bytes apart into this envelope and this rest. */
  lemma EnvelopeIff(raw: Bytes, env: Envelope, rest: Bytes)
    ensures OpenEnvelope(raw) == Ok((env, rest)) <==> exists pre, inner :: Enveloped(raw, env, rest, pre, inner)
  {
    hide ReadFirst, ReadPreHeader, ReadPacket, ReadHeaderPacket, WriteOuter, PreHeader, SealedHeader;
    if pre, inner :| Enveloped(raw, env, rest, pre, inner) {
      PreHeaderLength(env.headerPub);
      ReadsFirst(raw, pre, WriteOuter(NewOuter(2, 1, inner), true) + rest);
      ReadsPreHeader(pre, env.headerPub);
      ReadsHeader(WriteOuter(NewOuter(2, 1, inner), true) + rest, inner, rest);
      ReadsHeaderPacket(inner, env.nonce, env.sealedHeader);
    }
    if OpenEnvelope(raw) == Ok((env, rest)) {
      var pre, b1 := ReadFirst(raw).value.1, ReadFirst(raw).value.2;
      var inner := ReadPacket(b1, ENCRYPTED_HEADER, 1, NotEncryptedHeader).value.0.inner;
      ReadsFirst(raw, pre, b1);
      ReadsPreHeader(pre, env.headerPub);
      ReadsHeader(b1, inner, rest);
      ReadsHeaderPacket(inner, env.nonce, env.sealedHeader);
      assert Enveloped(raw, env, rest, pre, inner);
    }
  }

  lemma PreHeaderLength(headerPub: Bytes)
    ensures |PreHeader(headerPub)| >= 2
  {
  }
}
