/** Padding of the message header to one size (msg/header.go, msg/padding/padding.go, util/digits/digits.go). */
module HeaderPadding {
  import opened Bytes
  import opened MessageBody

  const WIGGLE_ROOM := 1316
  const MAX_IDENTITY := 254
  const KEY_ENTRY := 247        // JSON length of a key entry
  const NIL := 4                // JSON length of null
  const MAX_NYM_ADDRESS := 1568
  const MAX_UID_MESSAGE := 2004
  const KEYCHAIN_HASH := 204
  const TWO64 := 0x1_0000_0000_0000_0000

  type Uint64 = x: nat | x < TWO64

  // --- decimal lengths

  /** digits.Count */
  function Count(u: Uint64): (d: nat)
    ensures 1 <= d <= 20
  {
    if u < 10 then 1
    else if u < 100 then 2
    else if u < 1000 then 3
    else if u < 10000 then 4
    else if u < 100000 then 5
    else if u < 1000000 then 6
    else if u < 10000000 then 7
    else if u < 100000000 then 8
    else if u < 1000000000 then 9
    else if u < 10000000000 then 10
    else if u < 100000000000 then 11
    else if u < 1000000000000 then 12
    else if u < 10000000000000 then 13
    else if u < 100000000000000 then 14
    else if u < 1000000000000000 then 15
    else if u < 10000000000000000 then 16
    else if u < 100000000000000000 then 17
    else if u < 1000000000000000000 then 18
    else if u < 10000000000000000000 then 19
    else 20
  }

  /** The decimal representation, as JSON has it. */
  function Decimal(u: nat): Bytes {
    if u < 10 then [48 + u] else Decimal(u / 10) + [48 + u % 10]
  }

  /** Count is the length of the decimal representation. */
  lemma {:induction false} CountIsDecimalLength(u: Uint64)
    ensures Count(u) == |Decimal(u)|
  {
    if u >= 10 {
      CountIsDecimalLength(u / 10);
      CountStep(u);
    }
  }

  lemma CountStep(u: Uint64)
    requires u >= 10
    ensures Count(u) == 1 + Count(u / 10)
  {
  }

  // --- padding bytes

  datatype HeaderError = WrongKeychainHash | IdentityTooLong | NymAddressTooLong | UidTooLong | NoRandomness

  /** padding.Generate: `rand` is what the random source delivers before it fails. */
  method Generate(pr: Primitives, length: nat, rand: Bytes) returns (r: Result<Bytes, HeaderError>)
    ensures r.Ok? <==> |rand| >= if length <= 32 then length else 32
    ensures r.Err? ==> r.error == NoRandomness
    ensures r.Ok? ==> |r.value| == length
    ensures r.Ok? && length <= 32 ==> r.value == rand[..length]
    ensures r.Ok? && length > 32 ==> r.value == Crypt(pr, rand[..32], Zeros(16), 0, Zeros(length))
  {
    if length <= 32 {
      if |rand| < length {
        return Err(NoRandomness);
      }
      return Ok(rand[..length]);
    }
    if |rand| < 32 {
      return Err(NoRandomness);
    }
    var key := rand[..32];
    var size := (1 + length / 16) * 16;
    var padding := new Byte[size](_ => 0);
    for i := 0 to size
      invariant forall j :: i <= j < size ==> padding[j] == 0
      invariant forall j :: 0 <= j < i ==> padding[j] == Xor(0, pr.keystream(key, Zeros(16), j))
    {
      padding[i] := Xor(padding[i], pr.keystream(key, Zeros(16), i));
    }
    r := Ok(padding[0..length]);
  }

  function HexDigit(d: nat): (c: Byte)
    requires d < 16
    ensures 48 <= c <= 57 || 97 <= c <= 102
  {
    if d < 10 then 48 + d else 87 + d
  }

  function HexEncode(b: Bytes): (h: Bytes)
    ensures |h| == 2 * |b|
    ensures forall i :: 0 <= i < |h| ==> IsHex(h[i])
  {
    if b == [] then [] else [HexDigit(b[0] / 16), HexDigit(b[0] % 16)] + HexEncode(b[1..])
  }

  predicate IsHex(c: Byte) {
    48 <= c <= 57 || 97 <= c <= 102
  }

  /** The digit's value. */
  function HexValue(c: Byte): nat
    requires IsHex(c)
  {
    if c <= 57 then c - 48 else c - 87
  }

  /** Two digits for each byte, the upper half first. */
  lemma {:induction false} HexAt(b: Bytes, i: nat)
    requires i < |b|
    ensures var h := HexEncode(b);
            IsHex(h[2 * i]) && IsHex(h[2 * i + 1]) && HexValue(h[2 * i]) * 16 + HexValue(h[2 * i + 1]) == b[i]
  {
    if i > 0 {
      HexAt(b[1..], i - 1);
      assert HexEncode(b)[2 * i] == HexEncode(b[1..])[2 * (i - 1)];
      assert HexEncode(b)[2 * i + 1] == HexEncode(b[1..])[2 * (i - 1) + 1];
    }
  }

  // --- the header

  /** The fields of variable length; every other field of the header has a fixed length. */
  datatype Header = Header(
    senderIdentity: Bytes,
    next: Option<Bytes>,             // NextSenderSessionPub, a key entry
    seen: Option<Bytes>,             // NextRecipientSessionPubSeen, a key entry
    nymAddress: Bytes,
    maxDelay: Uint64,
    sessionCount: Uint64,
    messageCount: Uint64,
    senderUid: Bytes,
    lastKeychainHash: Bytes,
    padding: Bytes
  )

  /** A key entry takes 247 bytes of JSON, null takes 4. */
  function OptionalLength(k: Option<Bytes>): nat {
    if k.Some? then 247 else 4
  }

  /** What the fields take in the JSON text. */
  function FieldLengths(h: Header): nat {
    |h.senderIdentity| + OptionalLength(h.next) + OptionalLength(h.seen) + |h.nymAddress|
    + |Decimal(h.maxDelay)| + |Decimal(h.sessionCount)| + |Decimal(h.messageCount)|
    + |h.senderUid| + |h.lastKeychainHash| + |h.padding|
  }

  /** Every field fits. */
  predicate Fitting(identity: Bytes, nymAddress: Bytes, senderUid: Bytes, lastKeychainHash: Bytes) {
    |lastKeychainHash| == 204 && |identity| <= 254 && |nymAddress| <= 1568 && |senderUid| <= 2004
  }

  /** newHeader: whatever the identity, addresses, counters and optional keys, the fields of every header
      take the same space in total; the padding is hexadecimal digits of the key stream under a random key, and
      the other fields are as given. */
  method NewHeader(pr: Primitives, identity: Bytes, next: Option<Bytes>, seen: Option<Bytes>, nymAddress: Bytes,
                   sessionCount: Uint64, messageCount: Uint64, senderUid: Bytes, lastKeychainHash: Bytes, rand: Bytes)
    returns (r: Result<Header, HeaderError>)
    ensures r.Ok? ==> FieldLengths(r.value) == 5900
    ensures r.Ok? ==>
              r.value == Header(identity, next, seen, nymAddress, 0, sessionCount, messageCount, senderUid,
                                lastKeychainHash, r.value.padding)
    ensures r.Ok? ==> |r.value.padding| >= 1316
    ensures r.Ok? ==> forall i :: 0 <= i < |r.value.padding| ==> IsHex(r.value.padding[i])
    ensures r.Ok? ==>
              && |rand| >= 32
              && var bytes := Crypt(pr, rand[..32], Zeros(16), 0, Zeros((|r.value.padding| + 1) / 2));
                 r.value.padding <= HexEncode(bytes)
    ensures r.Ok? <==> Fitting(identity, nymAddress, senderUid, lastKeychainHash) && |rand| >= 32
    ensures r.Err? ==>
              r.error == if |lastKeychainHash| != 204 then WrongKeychainHash
                         else if |identity| > 254 then IdentityTooLong
                         else if |nymAddress| > 1568 then NymAddressTooLong
                         else if |senderUid| > 2004 then UidTooLong
                         else NoRandomness
  {
    if |lastKeychainHash| != KEYCHAIN_HASH {
      return Err(WrongKeychainHash);
    }
    var padLen := WIGGLE_ROOM;
    if |identity| > MAX_IDENTITY {
      return Err(IdentityTooLong);
    }
    padLen := padLen + (MAX_IDENTITY - |identity|);
    if next.None? {
      padLen := padLen + (KEY_ENTRY - NIL);
    }
    if seen.None? {
      padLen := padLen + (KEY_ENTRY - NIL);
    }
    if |nymAddress| > MAX_NYM_ADDRESS {
      return Err(NymAddressTooLong);
    }
    padLen := padLen + (MAX_NYM_ADDRESS - |nymAddress|);
    CountIsDecimalLength(0);
    CountIsDecimalLength(sessionCount);
    CountIsDecimalLength(messageCount);
    padLen := padLen + (20 - Count(0));
    padLen := padLen + (20 - Count(sessionCount));
    padLen := padLen + (20 - Count(messageCount));
    if |senderUid| > MAX_UID_MESSAGE {
      return Err(UidTooLong);
    }
    padLen := padLen + (MAX_UID_MESSAGE - |senderUid|);
    assert padLen >= WIGGLE_ROOM;
    var randLen := padLen / 2 + padLen % 2;
    var pad := Generate(pr, randLen, rand);
    if pad.Err? {
      return Err(pad.error);
    }
    var p := HexEncode(pad.value);
    if padLen % 2 == 1 {
      p := p[..|p| - 1];
    }
    assert |p| == padLen && randLen == (padLen + 1) / 2;
    r := Ok(Header(identity, next, seen, nymAddress, 0, sessionCount, messageCount, senderUid, lastKeychainHash, p));
  }
}
