/** Key agreement and message key derivation (msg/keys.go). */
module MessageKeys {
  import opened Bytes

  datatype Party = Alice | Bob

  function Other(p: Party): Party {
    if p.Alice? then Bob else Alice
  }

  /** The Curve25519 key pairs of a conversation.  A name stands for the key pair and for the
      SHA-512 hash of its public key, so hashes of different public keys are taken to differ. */
  datatype Key =
    | Identity(owner: Party)   // long-term key of a UID message
    | KeyInit(owner: Party)    // key of the party's published KeyInit message
    | Ephemeral(n: nat)        // n-th freshly generated session key
    | HeaderKey(n: nat)        // one-time header key of the n-th message

  /** The primitives, left uninterpreted. */
  datatype Crypto = Crypto(
    pub: Key -> Bytes,             // public key bytes
    dh: (Key, Bytes) -> Bytes,     // X25519 of a private key with a public key
    hkdf: Bytes -> Bytes,          // first 32 bytes of HKDF-SHA512
    sha512: Bytes -> Bytes,
    hmac: (Bytes, Bytes) -> Bytes  // HMAC-SHA512
  )

  /** X25519 agreement commutes (section 6.1 of RFC 7748). */
  ghost predicate Lawful(c: Crypto) {
    forall j, k :: c.dh(j, c.pub(k)) == c.dh(k, c.pub(j))
  }

  // --- root keys

  predicate CheckKeys(kh: Key, k1: Key, k2: Key, k3: Key, k4: Key) {
    kh != k1 && kh != k2 && kh != k3 && kh != k4 &&
    k1 != k2 && k1 != k3 && k1 != k4 &&
    k2 != k3 && k2 != k4 &&
    k3 != k4
  }

  function DeriveRootKey(c: Crypto, t1: Bytes, t2: Bytes, t3: Bytes, previous: Option<Bytes>): Bytes {
    c.hkdf(t1 + t2 + t3 + (if previous.Some? then previous.value else Zeros(64)))
  }

  /** Root key as computed by the side that owns `session` and `id`. */
  function SenderRoot(c: Crypto, session: Key, id: Key, peerTemp: Key, peerId: Key, previous: Option<Bytes>): Bytes {
    DeriveRootKey(c,
                  c.dh(id, c.pub(peerTemp)),
                  c.dh(session, c.pub(peerTemp)),
                  c.dh(session, c.pub(peerId)),
                  previous)
  }

  /** Root key as computed by the side that owns `temp` and `id`. */
  function RecipientRoot(c: Crypto, peerSession: Key, peerId: Key, temp: Key, id: Key, previous: Option<Bytes>): Bytes {
    DeriveRootKey(c,
                  c.dh(temp, c.pub(peerId)),
                  c.dh(temp, c.pub(peerSession)),
                  c.dh(id, c.pub(peerSession)),
                  previous)
  }

  /** Both sides of an agreement compute the same root key. */
  lemma RootKeysAgree(c: Crypto, session: Key, senderId: Key, temp: Key, recipientId: Key, previous: Option<Bytes>)
    requires Lawful(c)
    ensures SenderRoot(c, session, senderId, temp, recipientId, previous)
         == RecipientRoot(c, session, senderId, temp, recipientId, previous)
  {
    assert c.dh(senderId, c.pub(temp)) == c.dh(temp, c.pub(senderId));
    assert c.dh(session, c.pub(temp)) == c.dh(temp, c.pub(session));
    assert c.dh(session, c.pub(recipientId)) == c.dh(recipientId, c.pub(session));
  }

  // --- message keys

  const MESSAGE: Bytes := [77, 69, 83, 83, 65, 71, 69]  // "MESSAGE"
  const CHAIN: Bytes := [67, 72, 65, 73, 78]            // "CHAIN"

  function Trunc32(b: Bytes): Bytes {
    if |b| <= 32 then b else b[..32]
  }

  /** SHA-512 of both identities in sorted order, so both parties compute the same value. */
  function IdentityFix(c: Crypto, sender: Bytes, recipient: Bytes): Bytes {
    c.sha512(if Less(sender, recipient) then sender + recipient else recipient + sender)
  }

  lemma IdentityFixSymmetric(c: Crypto, a: Bytes, b: Bytes)
    ensures IdentityFix(c, a, b) == IdentityFix(c, b, a)
  {
    LessTrichotomy(a, b);
  }

  function KeyInput(c: Crypto, towards: Key, fix: Bytes): Bytes {
    MESSAGE + c.sha512(c.pub(towards)) + fix
  }

  /** The chain key after n steps. */
  function Chain(c: Crypto, root: Bytes, n: nat): Bytes {
    if n == 0 then root else Trunc32(c.hmac(Chain(c, root, n - 1), CHAIN))
  }

  /** The i-th message key for messages addressed to the owner of `towards`. */
  function MessageKey(c: Crypto, root: Bytes, towards: Key, fix: Bytes, i: nat): Bytes {
    c.hmac(Chain(c, root, i), KeyInput(c, towards, fix))
  }

  /** The first n message keys of one direction: the stream that both stores hold prefixes of. */
  function Stream(c: Crypto, root: Bytes, towards: Key, fix: Bytes, n: nat): (s: seq<Bytes>)
    ensures |s| == n
    ensures forall i :: 0 <= i < n ==> s[i] == MessageKey(c, root, towards, fix, i)
  {
    seq(n, i requires 0 <= i => MessageKey(c, root, towards, fix, i))
  }

  lemma {:induction false} ChainSplits(c: Crypto, root: Bytes, m: nat, n: nat)
    ensures Chain(c, Chain(c, root, m), n) == Chain(c, root, m + n)
  {
    if n > 0 {
      ChainSplits(c, root, m, n - 1);
    }
  }

  /** Generating m keys and then n more from the stored chain key is generating m + n at once. */
  lemma {:induction false} TopUpContinuesStream(c: Crypto, root: Bytes, towards: Key, fix: Bytes, m: nat, n: nat)
    ensures Stream(c, root, towards, fix, m) + Stream(c, Chain(c, root, m), towards, fix, n)
         == Stream(c, root, towards, fix, m + n)
    ensures Chain(c, Chain(c, root, m), n) == Chain(c, root, m + n)
  {
    var whole := Stream(c, root, towards, fix, m + n);
    var parts := Stream(c, root, towards, fix, m) + Stream(c, Chain(c, root, m), towards, fix, n);
    forall i | 0 <= i < m + n ensures parts[i] == whole[i] {
      if i >= m {
        ChainSplits(c, root, m, i - m);
      }
    }
    ChainSplits(c, root, m, n);
  }
}
