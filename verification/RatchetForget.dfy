/** The private part of a session key is deleted once a message under it has been processed. */
module RatchetForget {
  import opened Bytes
  import opened MessageKeys
  import opened KeyStore
  import opened Sessions
  import opened Ratchet
  import opened RatchetInvariant
  import opened RatchetSteps
  import opened RatchetReceiving
  import opened RatchetRuns
  import opened RatchetTheorems

  // --- one call, for every store and header

  /** All marks except possibly those of the given keys are as before. */
  ghost predicate SameMarks(st: Store, st': Store, except: set<Key>) {
    forall k :: k !in except ==>
      (k in st'.sessionKeys <==> k in st.sessionKeys) &&
      (k in st.sessionKeys ==> st'.sessionKeys[k] == st.sessionKeys[k])
  }

  /** The key is not held with its private part. */
  predicate Forgotten(st: Store, k: Key) {
    k in st.sessionKeys ==> !st.sessionKeys[k]
  }

  lemma SenderMarks(c: Crypto, st: Store, hdr: Key, me: Uid, peer: Uid, session: Key, temp: Key,
                    previous: Option<Bytes>, n: nat)
    ensures var r := AgreeAsSender(c, st, hdr, me, peer, session, temp, previous, n);
            r.Ok? ==> r.value.sessionKeys == st.sessionKeys && r.value.states == st.states
  {
  }

  lemma RecipientMarks(c: Crypto, st: Store, hdr: Key, me: Uid, peer: Uid, session: Key, temp: Key,
                       previous: Option<Bytes>, n: nat)
    ensures var r := AgreeAsRecipient(c, st, hdr, me, peer, session, temp, previous, n);
            r.Ok? ==> r.value.sessionKeys == st.sessionKeys && r.value.states == st.states
  {
  }

  lemma KnownMarks(c: Crypto, st: Store, me: Uid, hdr: Key, h: MsgHeader, ss: State, n: nat, newKey: Key)
    ensures var st' := KnownSession(c, st, me, hdr, h, ss, n, newKey).store;
            st'.sessionKeys == st.sessionKeys || st'.sessionKeys == st.sessionKeys[newKey := true]
  {
    hide AgreeAsSender, AgreeAsRecipient;
    var previous := RootHash(st, Id(me, h.sender, h.recipientTemp, h.sessionPub));
    if h.next.Some? {
      SenderMarks(c, Announce(st, me, h.sender, ss, newKey), hdr, me, h.sender, newKey, h.next.value, previous, n);
      if ss.next.Some? {
        RecipientMarks(c, st, hdr, me, h.sender, h.next.value, ss.next.value, previous, n);
      }
    }
  }

  lemma AcceptMarks(c: Crypto, st: Store, me: Uid, hdr: Key, h: MsgHeader, n: nat, newKey: Key)
    ensures SameMarks(st, AcceptKeyInit(c, st, me, hdr, h, n, newKey).store, {newKey})
  {
    hide AgreeAsSender, AgreeAsRecipient;
    RecipientMarks(c, st, hdr, me, h.sender, h.sessionPub, h.recipientTemp, None, n);
    var r := AgreeAsRecipient(c, st, hdr, me, h.sender, h.sessionPub, h.recipientTemp, None, n);
    if r.Ok? {
      var st1 := WithSessionKey(r.value, newKey);
      var previous := RootHash(st1, Id(me, h.sender, h.recipientTemp, h.sessionPub));
      if h.next.Some? && previous.Some? {
        SenderMarks(c, st1, hdr, me, h.sender, newKey, h.next.value, previous, n);
      }
    }
  }

  /** When the session of a header is known and its session part succeeds, the private part of the key it was
      sent to is gone; no other key's mark changes, apart from that of a key generated in the call. */
  lemma UsedKeyForgotten(c: Crypto, st: Store, me: Uid, hdr: Key, h: MsgHeader, n: nat, newKey: Key)
    requires SessionId(me.key, h.sender.key, h.recipientTemp, h.sessionPub) in st.sessions
    requires UpdateSession(c, st, me, hdr, h, n, newKey).result.Ok?
    ensures var st' := UpdateSession(c, st, me, hdr, h, n, newKey).store;
            && Forgotten(st', h.recipientTemp)
            && (h.recipientTemp in st.sessionKeys ==> h.recipientTemp in st'.sessionKeys)
            && SameMarks(st, st', {newKey, h.recipientTemp})
  {
    hide KnownSession;
    var ss := StateOf(st, me.key, h.sender.key);
    KnownMarks(c, st, me, hdr, h, ss.value, n, newKey);
  }

  /** In all other cases only a key generated in the call may be added. */
  lemma UpdateMarks(c: Crypto, st: Store, me: Uid, hdr: Key, h: MsgHeader, n: nat, newKey: Key)
    ensures SameMarks(st, UpdateSession(c, st, me, hdr, h, n, newKey).store, {newKey, h.recipientTemp})
  {
    hide KnownSession, AcceptKeyInit;
    AcceptMarks(c, st, me, hdr, h, n, newKey);
    var ss := StateOf(st, me.key, h.sender.key);
    if ss.Some? {
      KnownMarks(c, st, me, hdr, h, ss.value, n, newKey);
    }
  }

  lemma DecryptMarks(c: Crypto, st: Store, me: Uid, hdr: Key, h: MsgHeader, numOfKeys: nat, newKey: Key,
                     opens: Bytes -> bool)
    ensures Decrypt(c, st, me, hdr, h, numOfKeys, newKey, opens).store.sessionKeys
         == UpdateSession(c, st, me, hdr, h, WithDefault(numOfKeys), newKey).store.sessionKeys
    ensures Decrypt(c, st, me, hdr, h, numOfKeys, newKey, opens).result.Ok? ==>
              UpdateSession(c, st, me, hdr, h, WithDefault(numOfKeys), newKey).result.Ok?
  {
    hide UpdateSession, Chain, Stream, RoundUp;
  }

  lemma StartMarks(c: Crypto, st: Store, me: Uid, peer: Uid, n: nat, announce: bool, hdr: Key, newKey: Key)
    ensures SameMarks(st, StartOrAnnounce(c, st, me, peer, n, announce, hdr, newKey).store, {newKey})
  {
    hide AgreeAsSender;
    if peer.identity in st.publicEntries {
      SenderMarks(c, WithSessionKey(st, newKey), hdr, me, peer, newKey, st.publicEntries[peer.identity], None, n);
    }
  }

  lemma UseKeyMarks(c: Crypto, st: Store, me: Uid, peer: Uid, ss: State, n: nat, rest: Progress)
    ensures UseKey(c, st, me, peer, ss, n, rest).store.sessionKeys == st.sessionKeys
  {
    hide Chain, Stream;
  }

  lemma EncryptMarks(c: Crypto, st: Store, me: Uid, peer: Uid, numOfKeys: nat, announce: bool, hdr: Key, newKey: Key,
                     rest: Progress)
    ensures SameMarks(st, Encrypt(c, st, me, peer, numOfKeys, announce, hdr, newKey, rest).store, {newKey})
  {
    hide StartOrAnnounce, UseKey;
    var n := WithDefault(numOfKeys);
    StartMarks(c, st, me, peer, n, announce, hdr, newKey);
    var st1 := StartOrAnnounce(c, st, me, peer, n, announce, hdr, newKey).store;
    var ss := StateOf(st1, me.key, peer.key);
    if ss.Some? {
      UseKeyMarks(c, st1, me, peer, ss.value, n, rest);
    }
  }

  // --- over runs

  /** Every decrypted message was sent to a key that its recipient no longer holds. */
  ghost predicate AllForgotten(s: Sys) {
    forall m :: m in s.done && m.header.recipientTemp.Ephemeral? ==>
      m.header.recipientTemp in StoreOf(s, m.to).sessionKeys && Forgotten(StoreOf(s, m.to), m.header.recipientTemp)
  }

  lemma DoneIsKnown(cfg: Config, s: Sys, os: Origins, m: Message)
    requires Inv(cfg, s, os) && m in s.done
    ensures m.header.recipientTemp != Ephemeral(s.clock)
  {
    hide PartyOk, MessageOk, Chained, OriginsOk;
    MessageKeysKnown(cfg, s, os, m);
  }

  lemma DeliveredKeyKnown(cfg: Config, s: Sys, os: Origins, m: Message)
    requires Inv(cfg, s, os) && m in s.net && m.header.recipientTemp.Ephemeral?
    ensures Sid(m.to, m.header.recipientTemp, m.header.sessionPub) in StoreOf(s, m.to).sessions
    ensures m.header.recipientTemp in StoreOf(s, m.to).sessionKeys
    ensures m.header.sender == UidOf(cfg, Other(m.to))
  {
    hide StateOk, RecvOk, Coupled, PeerHolds, StartsOk, Chained, OriginsOk, StoredOk;
    assert MessageOk(cfg, s, os, m) && PartyOk(cfg, s, os, m.to);
    SessionIsOk(cfg, s, os, m.to, Sid(m.to, m.header.recipientTemp, m.header.sessionPub));
  }

  lemma EncryptForgets(cfg: Config, s: Sys, os: Origins, e: Event)
    requires Inv(cfg, s, os) && e.Encrypts? && AllForgotten(s)
    ensures AllForgotten(Step(cfg, s, e))
  {
    hide Inv, Encrypt;
    EncryptMarks(cfg.c, StoreOf(s, e.p), UidOf(cfg, e.p), UidOf(cfg, Other(e.p)), e.numOfKeys, e.announce,
                 HeaderKey(s.clock), Ephemeral(s.clock), e.rest);
    forall m | m in s.done ensures m.header.recipientTemp != Ephemeral(s.clock) {
      DoneIsKnown(cfg, s, os, m);
    }
  }

  lemma DeliveryForgets(cfg: Config, s: Sys, os: Origins, e: Event)
    requires Inv(cfg, s, os) && e.Delivers? && e.m in s.net && AllForgotten(s)
    ensures AllForgotten(Step(cfg, s, e))
  {
    hide Inv, Decrypt, UpdateSession;
    var c, st, me, h, n := cfg.c, StoreOf(s, e.m.to), UidOf(cfg, e.m.to), e.m.header, WithDefault(e.numOfKeys);
    DecryptMarks(c, st, me, e.m.hdr, h, e.numOfKeys, Ephemeral(s.clock), Opens(e));
    UpdateMarks(c, st, me, e.m.hdr, h, n, Ephemeral(s.clock));
    if h.recipientTemp.Ephemeral? {
      DeliveredKeyKnown(cfg, s, os, e.m);
      if UpdateSession(c, st, me, e.m.hdr, h, n, Ephemeral(s.clock)).result.Ok? {
        UsedKeyForgotten(c, st, me, e.m.hdr, h, n, Ephemeral(s.clock));
      }
    }
    forall m | m in s.done ensures m.header.recipientTemp != Ephemeral(s.clock) {
      DoneIsKnown(cfg, s, os, m);
    }
    if UpdateSession(c, st, me, e.m.hdr, h, n, Ephemeral(s.clock)).result.Err? {
      FailedUpdateKeeps(c, st, me, e.m.hdr, h, n, Ephemeral(s.clock));
    }
  }

  /** A session part that fails forgets nothing and brings nothing back. */
  lemma FailedUpdateKeeps(c: Crypto, st: Store, me: Uid, hdr: Key, h: MsgHeader, n: nat, newKey: Key)
    requires UpdateSession(c, st, me, hdr, h, n, newKey).result.Err?
    ensures SameMarks(st, UpdateSession(c, st, me, hdr, h, n, newKey).store, {newKey})
  {
    hide KnownSession, AcceptKeyInit;
    AcceptMarks(c, st, me, hdr, h, n, newKey);
    var ss := StateOf(st, me.key, h.sender.key);
    if ss.Some? {
      KnownMarks(c, st, me, hdr, h, ss.value, n, newKey);
    }
  }

  lemma {:induction false} RunForgets(cfg: Config, s: Sys, os: Origins, events: seq<Event>)
    requires ValidConfig(cfg) && Inv(cfg, s, os) && IsRun(cfg, s, events) && AllForgotten(s)
    ensures AllForgotten(After(cfg, s, events))
    decreases |events|
  {
    hide Inv, Step, AllForgotten;
    if events != [] {
      var e := events[0];
      var os' := StepInv(cfg, s, os, e);
      if e.Encrypts? {
        EncryptForgets(cfg, s, os, e);
      } else {
        DeliveryForgets(cfg, s, os, e);
      }
      RunForgets(cfg, Step(cfg, s, e), os', events[1..]);
    }
  }

  /** In every reached state, the recipient of a decrypted message holds the session key it was sent to without
      its private part. */
  lemma DecryptedKeysForgotten(cfg: Config, s: Sys, m: Message)
    requires Reached(cfg, s) && m in s.done && m.header.recipientTemp.Ephemeral?
    ensures m.header.recipientTemp in StoreOf(s, m.to).sessionKeys
    ensures !StoreOf(s, m.to).sessionKeys[m.header.recipientTemp]
  {
    hide Inv, Step, IsRun, After;
    var s0, events :| Initial(cfg, s0) && IsRun(cfg, s0, events) && After(cfg, s0, events) == s;
    InitialInv(cfg, s0);
    RunForgets(cfg, s0, map[], events);
  }
}
