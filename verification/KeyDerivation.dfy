/** What the derived keys are, said in terms of the primitives alone (msg/keys.go, msg/encrypt.go, msg/decrypt.go). */
module KeyDerivation {
  import opened Bytes
  import opened MessageKeys
  import opened KeyStore
  import opened Sessions

  /** HMAC-SHA512 has 64 bytes (section 2 of RFC 2104). */
  ghost predicate SizedHmac(c: Crypto) {
    forall k, x :: |c.hmac(k, x)| == 64
  }

  // --- message keys

  /** The chain: from the root key on, each chain key is the first half of the HMAC of "CHAIN" under the one
      before it. */
  ghost predicate Steps(c: Crypto, ks: seq<Bytes>, root: Bytes, n: nat)
    requires SizedHmac(c)
  {
    && |ks| == n + 1 && ks[0] == root
    && forall i :: 0 <= i < n ==> ks[i + 1] == c.hmac(ks[i], [67, 72, 65, 73, 78])[..32]
  }

  /** The key of one message towards the owner of a key: the HMAC of "MESSAGE", the hash of that public key
      and the hash of the two identities in order. */
  function KeyUnder(c: Crypto, chainKey: Bytes, towards: Key, a: Bytes, b: Bytes): Bytes {
    c.hmac(chainKey,
           [77, 69, 83, 83, 65, 71, 69] + c.sha512(c.pub(towards)) + c.sha512(if Less(a, b) then a + b else b + a))
  }

  function Slotted(st: Store, id: SessionId): StoredSession {
    if id in st.sessions then st.sessions[id] else StoredSession([], [], [], [])
  }

  lemma {:induction false} ChainSteps(c: Crypto, root: Bytes, n: nat) returns (ks: seq<Bytes>)
    requires SizedHmac(c)
    ensures Steps(c, ks, root, n) && forall i :: 0 <= i <= n ==> ks[i] == Chain(c, root, i)
  {
    if n == 0 {
      ks := [root];
    } else {
      var front := ChainSteps(c, root, n - 1);
      ks := front + [c.hmac(front[n - 1], [67, 72, 65, 73, 78])[..32]];
    }
  }

  /** What generateMessageKeys stores: the next n keys of each direction along one chain that starts from the
      given root or chain key, towards the peer for sending and towards us for receiving, and the chain key
      after them; the keys stored before, the root key hash and the other sessions stay. */
  lemma GeneratedKeys(c: Crypto, st: Store, me: Uid, peer: Uid, mine: Key, peers: Key, root: Bytes, n: nat)
    returns (ks: seq<Bytes>)
    requires SizedHmac(c) && n >= 1
    ensures Steps(c, ks, root, n)
    ensures var id := SessionId(me.key, peer.key, mine, peers);
            var st' := Generate(c, st, me, peer, mine, peers, root, n);
            && id in st'.sessions && st' == st.(sessions := st'.sessions)
            && (forall jd :: jd != id ==> (jd in st'.sessions <==> jd in st.sessions))
            && (forall jd :: jd in st.sessions && jd != id ==> st'.sessions[jd] == st.sessions[jd])
            && var x, x' := Slotted(st, id), st'.sessions[id];
               && x'.chainKey == ks[n]
               && x'.rootKeyHash == (if id in st.sessions then x.rootKeyHash else c.sha512(root))
               && |x'.send| == |x.send| + n && |x'.recv| == |x.recv| + n
               && x.send <= x'.send && x.recv <= x'.recv
               && (forall i :: 0 <= i < n ==>
                     x'.send[|x.send| + i] == Some(KeyUnder(c, ks[i], peers, me.identity, peer.identity)))
               && (forall i :: 0 <= i < n ==>
                     x'.recv[|x.recv| + i] == Some(KeyUnder(c, ks[i], mine, me.identity, peer.identity)))
  {
    ks := ChainSteps(c, root, n);
    hide Chain, Steps, SizedHmac;
    var fix := IdentityFix(c, me.identity, peer.identity);
    forall i, towards | 0 <= i < n
      ensures MessageKey(c, root, towards, fix, i) == KeyUnder(c, ks[i], towards, me.identity, peer.identity)
    {
      assert ks[i] == Chain(c, root, i);
    }
  }

  // --- root keys

  function OrZeros(previous: Option<Bytes>): Bytes {
    if previous.Some? then previous.value else Zeros(64)
  }

  lemma PartsDetermine(t1: Bytes, t2: Bytes, t3: Bytes, p: Bytes, u1: Bytes, u2: Bytes, u3: Bytes, q: Bytes)
    requires |t1| == |t2| == |t3| == |u1| == |u2| == |u3| == 32
    ensures t1 + t2 + t3 + p == u1 + u2 + u3 + q <==> t1 == u1 && t2 == u2 && t3 == u3 && p == q
  {
    var x, y := t1 + t2 + t3 + p, u1 + u2 + u3 + q;
    assert x[..32] == t1 && x[32..64] == t2 && x[64..96] == t3 && x[96..] == p;
    assert y[..32] == u1 && y[32..64] == u2 && y[64..96] == u3 && y[96..] == q;
  }

  /** Where HKDF does not collide, two root keys are equal if and only if all three agreements and the hash
      of the previous root key (64 zeros if there is none) are. */
  lemma RootKeyBinds(c: Crypto, t1: Bytes, t2: Bytes, t3: Bytes, p: Option<Bytes>,
                     u1: Bytes, u2: Bytes, u3: Bytes, q: Option<Bytes>)
    requires |t1| == |t2| == |t3| == |u1| == |u2| == |u3| == 32
    requires var x, y := t1 + t2 + t3 + OrZeros(p), u1 + u2 + u3 + OrZeros(q); c.hkdf(x) == c.hkdf(y) ==> x == y
    ensures DeriveRootKey(c, t1, t2, t3, p) == DeriveRootKey(c, u1, u2, u3, q) <==>
              t1 == u1 && t2 == u2 && t3 == u3 && OrZeros(p) == OrZeros(q)
  {
    PartsDetermine(t1, t2, t3, OrZeros(p), u1, u2, u3, OrZeros(q));
  }

  /** The bytes a root key is derived from, with the owner of `session` and `id` as initiator. */
  function RootInput(c: Crypto, session: Key, id: Key, temp: Key, peerId: Key, previous: Option<Bytes>): Bytes {
    c.dh(id, c.pub(temp)) + c.dh(session, c.pub(temp)) + c.dh(session, c.pub(peerId)) + OrZeros(previous)
  }

  ghost predicate SizedAgreements(c: Crypto) {
    forall j, k :: |c.dh(j, c.pub(k))| == 32
  }

  /** The root key of a session binds the initiator's identity with the recipient's key, the two session keys,
      the initiator's key with the recipient's identity, and the previous root key. */
  lemma SenderRootBinds(c: Crypto, s: Key, i: Key, t: Key, j: Key, p: Option<Bytes>,
                        s': Key, i': Key, t': Key, j': Key, p': Option<Bytes>)
    requires SizedAgreements(c)
    requires var x, y := RootInput(c, s, i, t, j, p), RootInput(c, s', i', t', j', p');
             c.hkdf(x) == c.hkdf(y) ==> x == y
    ensures SenderRoot(c, s, i, t, j, p) == SenderRoot(c, s', i', t', j', p') <==>
              && c.dh(i, c.pub(t)) == c.dh(i', c.pub(t')) && c.dh(s, c.pub(t)) == c.dh(s', c.pub(t'))
              && c.dh(s, c.pub(j)) == c.dh(s', c.pub(j')) && OrZeros(p) == OrZeros(p')
  {
    RootKeyBinds(c, c.dh(i, c.pub(t)), c.dh(s, c.pub(t)), c.dh(s, c.pub(j)), p,
                 c.dh(i', c.pub(t')), c.dh(s', c.pub(t')), c.dh(s', c.pub(j')), p');
  }

  // --- reflected keys

  predicate AllDifferent(ks: seq<Key>) {
    forall i, j :: 0 <= i < j < |ks| ==> ks[i] != ks[j]
  }

  /** An agreement is refused exactly when two of its five keys are the same. */
  lemma ReflectionRefused(c: Crypto, st: Store, hdr: Key, me: Uid, peer: Uid, session: Key, temp: Key,
                          previous: Option<Bytes>, n: nat)
    ensures AgreeAsSender(c, st, hdr, me, peer, session, temp, previous, n).Ok? <==>
              AllDifferent([hdr, me.key, session, peer.key, temp])
    ensures AgreeAsRecipient(c, st, hdr, me, peer, session, temp, previous, n).Ok? <==>
              AllDifferent([hdr, peer.key, session, me.key, temp])
    ensures !AllDifferent([hdr, me.key, session, peer.key, temp]) ==>
              AgreeAsSender(c, st, hdr, me, peer, session, temp, previous, n) == Err(Reflection)
    ensures !AllDifferent([hdr, peer.key, session, me.key, temp]) ==>
              AgreeAsRecipient(c, st, hdr, me, peer, session, temp, previous, n) == Err(Reflection)
  {
    hide Generate;
    FiveKeys(hdr, me.key, session, peer.key, temp);
    FiveKeys(hdr, peer.key, session, me.key, temp);
  }

  lemma FiveKeys(k0: Key, k1: Key, k2: Key, k3: Key, k4: Key)
    ensures CheckKeys(k0, k1, k2, k3, k4) <==> AllDifferent([k0, k1, k2, k3, k4])
  {
    var ks := [k0, k1, k2, k3, k4];
    assert ks[0] == k0 && ks[1] == k1 && ks[2] == k2 && ks[3] == k3 && ks[4] == k4;
  }
}
