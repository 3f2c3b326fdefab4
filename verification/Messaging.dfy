/** Encrypt, Decrypt and the key derivation as the code runs them, changing a MemStore step by step
    (msg/encrypt.go, msg/decrypt.go, msg/keys.go, msg/session.go). */
module Messaging {
  import opened Bytes
  import opened MessageKeys
  import opened KeyStore
  import opened Sessions

  /** Generates the next numOfKeys message keys of a session and stores them.  With recipientKeys the
      caller is the recipient and the two directions are stored in reverse. */
  method GenerateMessageKeys(c: Crypto, sender: Uid, recipient: Uid, rootKey: Bytes, recipientKeys: bool,
                             senderSession: Key, recipientPub: Key, numOfKeys: nat, ks: MemStore)
    modifies ks
    ensures ks.Contents() ==
              if recipientKeys
              then Generate(c, old(ks.Contents()), recipient, sender, recipientPub, senderSession, rootKey, numOfKeys)
              else Generate(c, old(ks.Contents()), sender, recipient, senderSession, recipientPub, rootKey, numOfKeys)
  {
    var identities := if Less(sender.identity, recipient.identity)
                      then sender.identity + recipient.identity else recipient.identity + sender.identity;
    var identityFix := c.sha512(identities);
    var send: seq<Bytes>, recv: seq<Bytes> := [], [];
    var chainKey := rootKey;
    for i := 0 to numOfKeys
      invariant chainKey == Chain(c, rootKey, i)
      invariant send == Stream(c, rootKey, recipientPub, identityFix, i)
      invariant recv == Stream(c, rootKey, senderSession, identityFix, i)
    {
      send := send + [c.hmac(chainKey, MESSAGE + c.sha512(c.pub(recipientPub)) + identityFix)];
      recv := recv + [c.hmac(chainKey, MESSAGE + c.sha512(c.pub(senderSession)) + identityFix)];
      chainKey := Trunc32(c.hmac(chainKey, CHAIN));
    }
    var rootKeyHash := c.sha512(rootKey);
    if numOfKeys == 0 {
      chainKey := Zeros(32);  // wiped together with the root key it still shares memory with
    }
    var r;
    if recipientKeys {
      send, recv := recv, send;
      IdentityFixSymmetric(c, sender.identity, recipient.identity);
      r := ks.StoreSession(SessionId(recipient.key, sender.key, recipientPub, senderSession), rootKeyHash, chainKey,
                           send, recv);
    } else {
      r := ks.StoreSession(SessionId(sender.key, recipient.key, senderSession, recipientPub), rootKeyHash, chainKey,
                           send, recv);
    }
  }

  method RootKeyAgreementSender(c: Crypto, hdr: Key, sender: Uid, recipient: Uid, senderSession: Key, recipientKI: Key,
                                previousRootKeyHash: Option<Bytes>, numOfKeys: nat, ks: MemStore)
    returns (r: Result<(), Error>)
    modifies ks
    ensures match AgreeAsSender(c, old(ks.Contents()), hdr, sender, recipient, senderSession, recipientKI,
                                previousRootKeyHash, numOfKeys)
            case Ok(st) => r == Ok(()) && ks.Contents() == st
            case Err(e) => r == Err(e) && ks.Contents() == old(ks.Contents())
  {
    if !CheckKeys(hdr, sender.key, senderSession, recipient.key, recipientKI) {
      return Err(Reflection);
    }
    var t1 := c.dh(sender.key, c.pub(recipientKI));
    var t2 := c.dh(senderSession, c.pub(recipientKI));
    var t3 := c.dh(senderSession, c.pub(recipient.key));
    var rootKey := DeriveRootKey(c, t1, t2, t3, previousRootKeyHash);
    GenerateMessageKeys(c, sender, recipient, rootKey, false, senderSession, recipientKI, numOfKeys, ks);
    r := Ok(());
  }

  method RootKeyAgreementRecipient(c: Crypto, hdr: Key, sender: Uid, recipient: Uid, senderSession: Key,
                                   recipientKI: Key, previousRootKeyHash: Option<Bytes>, numOfKeys: nat, ks: MemStore)
    returns (r: Result<(), Error>)
    modifies ks
    ensures match AgreeAsRecipient(c, old(ks.Contents()), hdr, recipient, sender, senderSession, recipientKI,
                                   previousRootKeyHash, numOfKeys)
            case Ok(st) => r == Ok(()) && ks.Contents() == st
            case Err(e) => r == Err(e) && ks.Contents() == old(ks.Contents())
  {
    if !CheckKeys(hdr, sender.key, senderSession, recipient.key, recipientKI) {
      return Err(Reflection);
    }
    var t1 := c.dh(recipientKI, c.pub(sender.key));
    var t2 := c.dh(recipientKI, c.pub(senderSession));
    var t3 := c.dh(recipient.key, c.pub(senderSession));
    var rootKey := DeriveRootKey(c, t1, t2, t3, previousRootKeyHash);
    GenerateMessageKeys(c, sender, recipient, rootKey, true, senderSession, recipientKI, numOfKeys, ks);
    r := Ok(());
  }

  /** setNextSenderSessionPub */
  method SetNextSenderSessionPub(ks: MemStore, me: Uid, peer: Uid, ss: State, newKey: Key) returns (ss': State)
    modifies ks
    ensures ss' == ss.(next := Some(newKey))
    ensures ks.Contents() == Announce(old(ks.Contents()), me, peer, ss, newKey)
  {
    ks.AddSessionKey(newKey);
    ss' := ss.(next := Some(newKey));
    ks.SetSessionState(me.key, peer.key, ss');
  }

  /** Encrypt, first part: get the session state, start a session, or announce a next key. */
  method StartOrAnnounceSession(c: Crypto, ks: MemStore, me: Uid, peer: Uid, n: nat, announce: bool, hdr: Key,
                                newKey: Key)
    returns (r: Result<State, Error>)
    modifies ks
    ensures var o := StartOrAnnounce(c, old(ks.Contents()), me, peer, n, announce, hdr, newKey);
            && ks.Contents() == o.store
            && (o.result.Err? ==> r == Err(o.result.error))
            && (o.result.Ok? ==> r.Ok? && StateOf(ks.Contents(), me.key, peer.key) == Some(r.value))
  {
    hide AgreeAsSender, Generate;
    var found := ks.GetSessionState(me.key, peer.key);
    if found.None? {
      if peer.identity !in ks.publicEntries {
        return Err(NoKeyEntry);
      }
      var temp := ks.publicEntries[peer.identity];
      ks.AddSessionKey(newKey);
      var a := RootKeyAgreementSender(c, hdr, me, peer, newKey, temp, None, n, ks);
      if a.Err? {
        return Err(a.error);
      }
      var ss := State(0, 0, temp, newKey, None, None, true);
      ks.SetSessionState(me.key, peer.key, ss);
      return Ok(ss);
    }
    var ss := found.value;
    if ss.next.None? && announce {
      ss := SetNextSenderSessionPub(ks, me, peer, ss, newKey);
    }
    r := Ok(ss);
  }

  /** Encrypt: make sure the current index has a key. */
  method EnsureSendKeys(c: Crypto, ks: MemStore, me: Uid, peer: Uid, ss: State, n: nat) returns (r: Result<(), Error>)
    modifies ks
    ensures match ExtendSend(c, old(ks.Contents()), me, peer, ss, n)
            case Ok(st) => r == Ok(()) && ks.Contents() == st
            case Err(e) => r == Err(e) && ks.Contents() == old(ks.Contents())
  {
    hide Generate;
    var id := SessionId(me.key, peer.key, ss.sessionPub, ss.recipientTemp);
    var count := ks.NumMessageKeys(id);
    if count.Err? {
      return Err(count.error);
    }
    if ss.messageCount >= count.value {
      GenerateMessageKeys(c, me, peer, ks.sessions[id].chainKey, false, ss.sessionPub, ss.recipientTemp, n, ks);
    }
    r := Ok(());
  }

  /** Encrypt, after the packets are written: delete the key and count the message. */
  method FinishEncrypt(ks: MemStore, me: Uid, peer: Uid, ss: State) returns (r: Result<(), Error>)
    modifies ks
    ensures match CommitSend(old(ks.Contents()), me, peer, ss)
            case Ok(st) => r == Ok(()) && ks.Contents() == st
            case Err(e) => r == Err(e) && ks.Contents() == old(ks.Contents())
  {
    hide Deleted;
    r := ks.DelMessageKey(SessionId(me.key, peer.key, ss.sessionPub, ss.recipientTemp), true, ss.messageCount);
    if r.Err? {
      return;
    }
    ks.SetSessionState(me.key, peer.key, ss.(messageCount := ss.messageCount + 1));
  }

  /** Encrypt from the message key on: key, packets, and the bookkeeping after they are written. */
  method UseMessageKey(c: Crypto, ks: MemStore, me: Uid, peer: Uid, ss: State, n: nat, rest: Progress)
    returns (r: Result<(MsgHeader, Bytes), Error>)
    modifies ks
    ensures Outcome(ks.Contents(), r) == UseKey(c, old(ks.Contents()), me, peer, ss, n, rest)
  {
    hide ExtendSend, CommitSend, KeyAt;
    var h := MsgHeader(me, ss.recipientTemp, ss.sessionPub, ss.next, ss.seen, ss.sessionCount, ss.messageCount);
    var e := EnsureSendKeys(c, ks, me, peer, ss, n);
    if e.Err? {
      return Err(e.error);
    }
    var key := ks.GetMessageKey(SessionId(me.key, peer.key, ss.sessionPub, ss.recipientTemp), true, ss.messageCount);
    if key.Err? {
      return Err(key.error);
    }
    if rest.BodyFails? {
      return Err(BodyRejected);
    }
    var f := FinishEncrypt(ks, me, peer, ss);
    if f.Err? {
      return Err(f.error);
    }
    r := Ok((h, key.value));
  }

  /** Encrypt: session, header, message key, and the bookkeeping after the packets are written. */
  method EncryptMessage(c: Crypto, ks: MemStore, me: Uid, peer: Uid, numOfKeys: nat, announce: bool, hdr: Key,
                        newKey: Key, rest: Progress) returns (r: Result<(MsgHeader, Bytes), Error>)
    modifies ks
    ensures Outcome(ks.Contents(), r) ==
            Encrypt(c, old(ks.Contents()), me, peer, numOfKeys, announce, hdr, newKey, rest)
  {
    hide StartOrAnnounce, UseKey, StateOf;
    var n := if numOfKeys == 0 then NUM_OF_FUTURE_KEYS else numOfKeys;
    var start := StartOrAnnounceSession(c, ks, me, peer, n, announce, hdr, newKey);
    if start.Err? {
      return Err(start.error);
    }
    if rest.HeaderFails? {
      return Err(HeaderRejected);
    }
    r := UseMessageKey(c, ks, me, peer, start.value, n, rest);
  }

  /** Decrypt on an unknown session: try to start it from a KeyInit message. */
  method StartFromKeyInit(c: Crypto, ks: MemStore, me: Uid, hdr: Key, h: MsgHeader, n: nat, newKey: Key)
    returns (r: Result<(), Error>)
    modifies ks
    ensures Outcome(ks.Contents(), r) == AcceptKeyInit(c, old(ks.Contents()), me, hdr, h, n, newKey)
  {
    hide AgreeAsSender, AgreeAsRecipient, Generate;
    if h.recipientTemp !in ks.privateEntries {
      return Ok(());
    }
    var ss := ks.GetSessionState(me.key, h.sender.key);
    var a := RootKeyAgreementRecipient(c, hdr, h.sender, me, h.sessionPub, h.recipientTemp, None, n, ks);
    if a.Err? {
      return Err(a.error);
    }
    if ss.None? || (ss.value.keyInit && Less(h.sender.identity, me.identity)) {
      ks.AddSessionKey(newKey);
      if h.next.Some? {
        var id := SessionId(me.key, h.sender.key, h.recipientTemp, h.sessionPub);
        if id !in ks.sessions {
          return Err(NoSession);
        }
        var b := RootKeyAgreementSender(c, hdr, me, h.sender, newKey, h.next.value, Some(ks.sessions[id].rootKeyHash),
                                        n, ks);
        if b.Err? {
          return Err(b.error);
        }
      }
      ks.SetSessionState(me.key, h.sender.key, State(0, 0, h.sessionPub, h.recipientTemp, Some(newKey), h.next, false));
    }
    r := Ok(());
  }

  /** Decrypt: the other side announced a key and we have not.  Prepare the upcoming session, but do
      not switch to it yet. */
  method PrepareNextSession(c: Crypto, ks: MemStore, me: Uid, hdr: Key, h: MsgHeader, state: State, n: nat, newKey: Key)
    returns (r: Result<(), Error>)
    requires h.next.Some?
    modifies ks
    ensures Outcome(ks.Contents(), r) == Prepare(c, old(ks.Contents()), me, hdr, h, state, h.next.value, n, newKey)
  {
    hide AgreeAsSender, Generate;
    var id := SessionId(me.key, h.sender.key, h.recipientTemp, h.sessionPub);
    var ss := SetNextSenderSessionPub(ks, me, h.sender, state, newKey);
    if id !in ks.sessions {
      return Err(NoSession);
    }
    var a := RootKeyAgreementSender(c, hdr, me, h.sender, newKey, h.next.value, Some(ks.sessions[id].rootKeyHash), n,
                                    ks);
    if a.Err? {
      return Err(a.error);
    }
    if ss.seen.None? {
      ss := ss.(seen := h.next);
      ks.SetSessionState(me.key, h.sender.key, ss);
    }
    r := Ok(());
  }

  /** Decrypt: the other side has seen our announced key.  Switch to the next session. */
  method SwitchToNextSession(c: Crypto, ks: MemStore, me: Uid, hdr: Key, h: MsgHeader, state: State, n: nat)
    returns (r: Result<(), Error>)
    requires h.next.Some? && state.next.Some?
    modifies ks
    ensures Outcome(ks.Contents(), r) == Switch(c, old(ks.Contents()), me, hdr, h, state, h.next.value, n)
  {
    hide AgreeAsRecipient, Generate;
    var id := SessionId(me.key, h.sender.key, h.recipientTemp, h.sessionPub);
    var mine := state.next.value;
    if mine !in ks.sessionKeys {
      return Err(NoKeyEntry);
    }
    if !ks.sessionKeys[mine] {
      return Err(NoPrivateKey);
    }
    if id !in ks.sessions {
      return Err(NoSession);
    }
    var a := RootKeyAgreementRecipient(c, hdr, h.sender, me, h.next.value, mine, Some(ks.sessions[id].rootKeyHash), n,
                                       ks);
    if a.Err? {
      return Err(a.error);
    }
    var ss := State(state.sessionCount + state.messageCount, 0, h.next.value, mine, None, None, false);
    ks.SetSessionState(me.key, h.sender.key, ss);
    r := Ok(());
  }

  /** Decrypt on a known session: prepare, switch or follow. */
  method UpdateKnownSession(c: Crypto, ks: MemStore, me: Uid, hdr: Key, h: MsgHeader, state: State, n: nat, newKey: Key)
    returns (r: Result<(), Error>)
    modifies ks
    ensures Outcome(ks.Contents(), r) == KnownSession(c, old(ks.Contents()), me, hdr, h, state, n, newKey)
  {
    hide Prepare, Switch;
    var ss := state;
    if h.recipientTemp == ss.sessionPub && h.sessionPub == ss.recipientTemp {
      if h.next.Some? {
        if ss.next.None? {
          r := PrepareNextSession(c, ks, me, hdr, h, ss, n, newKey);
          return;
        } else if h.seen.Some? && h.seen.value == ss.next.value {
          r := SwitchToNextSession(c, ks, me, hdr, h, ss, n);
          return;
        }
      }
    } else if ss.next.Some? && ss.seen.Some? && ss.next.value == h.recipientTemp && ss.seen.value == h.sessionPub {
      // the other side has switched: follow
      ss := State(ss.sessionCount + ss.messageCount, 0, h.sessionPub, h.recipientTemp, None, None, false);
      ks.SetSessionState(me.key, h.sender.key, ss);
    }
    r := Ok(());
  }

  /** Decrypt: make sure the message's index has a key. */
  method EnsureMessageKeys(c: Crypto, ks: MemStore, me: Uid, h: MsgHeader, n: nat) returns (r: Result<(), Error>)
    requires n >= 1
    modifies ks
    ensures match ExtendRecv(c, old(ks.Contents()), me, h, n)
            case Ok(st) => r == Ok(()) && ks.Contents() == st
            case Err(e) => r == Err(e) && ks.Contents() == old(ks.Contents())
  {
    hide Generate;
    var id := SessionId(me.key, h.sender.key, h.recipientTemp, h.sessionPub);
    var count := ks.NumMessageKeys(id);
    if count.Err? {
      return Err(count.error);
    }
    if h.messageCount >= count.value {
      var chainKey := ks.sessions[id].chainKey;
      // bound the work one header can ask for
      var numOfKeys := h.messageCount / n;
      if h.messageCount % n > 0 {
        numOfKeys := numOfKeys + 1;
      }
      numOfKeys := numOfKeys * n % TWO64;
      if numOfKeys > MAX_MSG_SIZE / MAX_CONTENT_LENGTH + NUM_OF_FUTURE_KEYS {
        return Err(TooManyKeys);
      }
      var ss := ks.GetSessionState(me.key, h.sender.key);
      if ss.None? {
        return Err(NilState);
      }
      if h.recipientTemp != ss.value.sessionPub && h.recipientTemp !in ks.privateEntries &&
         h.recipientTemp !in ks.sessionKeys {
        return Err(NoKeyEntry);
      }
      GenerateMessageKeys(c, h.sender, me, chainKey, true, h.sessionPub, h.recipientTemp, numOfKeys, ks);
    }
    r := Ok(());
  }

  /** Decrypt, first part: bring the session up to date with the header. */
  method UpdateFromHeader(c: Crypto, ks: MemStore, me: Uid, hdr: Key, h: MsgHeader, n: nat, newKey: Key)
    returns (r: Result<(), Error>)
    modifies ks
    ensures Outcome(ks.Contents(), r) == UpdateSession(c, old(ks.Contents()), me, hdr, h, n, newKey)
  {
    hide AcceptKeyInit, KnownSession;
    if SessionId(me.key, h.sender.key, h.recipientTemp, h.sessionPub) !in ks.sessions {
      r := StartFromKeyInit(c, ks, me, hdr, h, n, newKey);
    } else {
      var ss := ks.GetSessionState(me.key, h.sender.key);
      if ss.None? {
        return Err(NilState);
      }
      r := UpdateKnownSession(c, ks, me, hdr, h, ss.value, n, newKey);
      if r.Ok? {
        // a message for this session key has arrived: its private part is no longer needed
        ks.DelPrivSessionKey(h.recipientTemp);
        r := Ok(());
      }
    }
  }

  /** Decrypt: session, message key, packets, and deletion of the key. */
  method DecryptMessage(c: Crypto, ks: MemStore, me: Uid, hdr: Key, h: MsgHeader, numOfKeys: nat, newKey: Key,
                        opens: Bytes -> bool) returns (r: Result<Bytes, Error>)
    modifies ks
    ensures Outcome(ks.Contents(), r) == Decrypt(c, old(ks.Contents()), me, hdr, h, numOfKeys, newKey, opens)
  {
    hide UpdateSession, ExtendRecv, Deleted, KeyAt;
    var n := if numOfKeys == 0 then NUM_OF_FUTURE_KEYS else numOfKeys;
    var a := UpdateFromHeader(c, ks, me, hdr, h, n, newKey);
    if a.Err? {
      return Err(a.error);
    }
    var e := EnsureMessageKeys(c, ks, me, h, n);
    if e.Err? {
      return Err(e.error);
    }
    var id := SessionId(me.key, h.sender.key, h.recipientTemp, h.sessionPub);
    var key := ks.GetMessageKey(id, false, h.messageCount);
    if key.Err? {
      return Err(key.error);
    }
    if !opens(key.value) {
      return Err(BodyRejected);
    }
    var d := ks.DelMessageKey(id, false, h.messageCount);
    if d.Err? {
      return Err(d.error);
    }
    r := Ok(key.value);
  }
}
