/** The ratchet and the packet format together: what is delivered is what was written. */
module EndToEnd {
  import opened Bytes
  import opened MessageKeys
  import opened KeyStore
  import opened Sessions
  import opened Ratchet
  import opened RatchetRuns
  import opened RatchetTheorems
  import opened RatchetRefresh
  import HP = HeaderPadding
  import MB = MessageBody
  import PK = Packets
  import WF = WireFormat

  /** deriveSymmetricKeys: the crypto key and the HMAC key of a message key. */
  type Derivation = Bytes -> MB.Keys

  /** Decrypt looks at the packets only with the message key it found. */
  lemma OpensOnlyWithKey(c: Crypto, st: Store, me: Uid, hdr: Key, h: MsgHeader, n: nat, newKey: Key,
                         opens: Bytes -> bool, opens': Bytes -> bool, k: Bytes)
    requires Decrypt(c, st, me, hdr, h, n, newKey, opens).result == Ok(k) && opens'(k)
    ensures Decrypt(c, st, me, hdr, h, n, newKey, opens') == Decrypt(c, st, me, hdr, h, n, newKey, opens)
  {
    hide UpdateSession, ExtendRecv, KeyAt, Deleted;
  }

  /** What Decrypt makes of the body's packets under a message key. */
  function Reading(pr: MB.Primitives, derive: Derivation, pub: Bytes, packets: Bytes, k: Bytes): MB.Parsed {
    MB.ParseBody(pr, derive(k), pub, packets, 2)
  }

  function OpensPackets(pr: MB.Primitives, derive: Derivation, pub: Bytes, packets: Bytes): Bytes -> bool {
    k => Reading(pr, derive, pub, packets, k).result.Ok?
  }

  /** Decrypt with the real packets. */
  function DecryptPackets(cfg: Config, s: Sys, m: Message, numOfKeys: nat, pr: MB.Primitives, derive: Derivation,
                          pub: Bytes, packets: Bytes): Outcome<Bytes>
  {
    Decrypt(cfg.c, StoreOf(s, m.to), UidOf(cfg, m.to), m.hdr, m.header, numOfKeys, Ephemeral(s.clock),
            OpensPackets(pr, derive, pub, packets))
  }

  function Signature(pr: MB.Primitives, body: MB.Body): Option<Bytes> {
    if body.signer.Some? then Some(pr.sign(body.signer.value, pr.sha512(body.content))) else None
  }

  /** A body that Encrypt writes, whose signature the recipient can verify. */
  ghost predicate Sendable(pr: MB.Primitives, body: MB.Body, pub: Bytes) {
    && MB.Sized(pr) && MB.Fits(body)
    && (body.signer.Some? ==>
          pr.verify(pub, pr.sha512(body.content), pr.sign(body.signer.value, pr.sha512(body.content))))
  }

  lemma PacketsOpen(pr: MB.Primitives, derive: Derivation, body: MB.Body, pub: Bytes, k: Bytes)
    requires Sendable(pr, body, pub)
    ensures var read := Reading(pr, derive, pub, MB.WriteBody(pr, derive(k), body, 2), k);
            read.written == body.content && read.result == Ok(Signature(pr, body))
    ensures OpensPackets(pr, derive, pub, MB.WriteBody(pr, derive(k), body, 2))(k)
  {
    hide MB.WriteBody, MB.ParseBody, MB.Fits, MB.Sized;
    MB.BodyRoundTrip(pr, derive(k), body, pub, 2, []);
    assert MB.WriteBody(pr, derive(k), body, 2) + [] == MB.WriteBody(pr, derive(k), body, 2);
  }

  lemma PacketsUnfold(cfg: Config, s: Sys, e: Event, pr: MB.Primitives, derive: Derivation, pub: Bytes, packets: Bytes)
    requires e.Delivers?
    ensures DecryptPackets(cfg, s, e.m, e.numOfKeys, pr, derive, pub, packets).result
         == Decrypt(cfg.c, StoreOf(s, e.m.to), UidOf(cfg, e.m.to), e.m.hdr, e.m.header, e.numOfKeys, Ephemeral(s.clock),
                    OpensPackets(pr, derive, pub, packets)).result
    ensures DecryptOutcome(cfg, s, e).result
         == Decrypt(cfg.c, StoreOf(s, e.m.to), UidOf(cfg, e.m.to), e.m.hdr, e.m.header, e.numOfKeys, Ephemeral(s.clock),
                    Opens(e)).result
  {
    hide Decrypt, OpensPackets, Opens, StoreOf, UidOf;
  }

  lemma PacketsDecrypt(cfg: Config, s: Sys, e: Event, pr: MB.Primitives, derive: Derivation, pub: Bytes, packets: Bytes)
    requires e.Delivers? && DecryptOutcome(cfg, s, e).result == Ok(e.m.key)
    requires OpensPackets(pr, derive, pub, packets)(e.m.key)
    ensures DecryptPackets(cfg, s, e.m, e.numOfKeys, pr, derive, pub, packets).result == Ok(e.m.key)
  {
    hide *;
    PacketsUnfold(cfg, s, e, pr, derive, pub, packets);
    OpensOnlyWithKey(cfg.c, StoreOf(s, e.m.to), UidOf(cfg, e.m.to), e.m.hdr, e.m.header, e.numOfKeys,
                     Ephemeral(s.clock), Opens(e), OpensPackets(pr, derive, pub, packets), e.m.key);
  }

  /** In every reached state, delivering a sent message for the first time, within the top-up limit,
      with its packets as written: Decrypt succeeds and hands exactly the sender's content to the
      writer, with the sender's signature if it was signed. */
  lemma ContentArrives(cfg: Config, s: Sys, e: Event, pr: MB.Primitives, derive: Derivation, body: MB.Body, pub: Bytes)
    requires Reached(cfg, s) && e.Delivers? && e.intact && Enabled(s, e)
    requires e.m !in s.done && Reachable(s, e.m, e.numOfKeys)
    requires Sendable(pr, body, pub)
    ensures var packets := MB.WriteBody(pr, derive(e.m.key), body, 2);
            var read := Reading(pr, derive, pub, packets, e.m.key);
            && DecryptPackets(cfg, s, e.m, e.numOfKeys, pr, derive, pub, packets).result == Ok(e.m.key)
            && read.written == body.content && read.result == Ok(Signature(pr, body))
  {
    hide Reached, DecryptOutcome, DecryptPackets, OpensPackets, MB.WriteBody, Reading, Sendable, Reachable;
    DeliveryIsExact(cfg, s, e);
    PacketsOpen(pr, derive, body, pub, e.m.key);
    PacketsDecrypt(cfg, s, e, pr, derive, pub, MB.WriteBody(pr, derive(e.m.key), body, 2));
  }

  // --- from writing to reading

  /** What Encrypt is given for the header besides the session state. */
  datatype HeaderInput = HeaderInput(nymAddress: Bytes, senderUid: Bytes, lastKeychainHash: Bytes, rand: Bytes)

  /** When HeaderPadding.NewHeader accepts the header. */
  predicate HeaderFits(cfg: Config, p: Party, x: HeaderInput) {
    HP.Fitting(Name(cfg, p), x.nymAddress, x.senderUid, x.lastKeychainHash) && |x.rand| >= 32
  }

  /** How far Encrypt gets with these inputs. */
  function ProgressWith(cfg: Config, p: Party, x: HeaderInput, env: WF.Envelope, body: MB.Body): Progress {
    if !HeaderFits(cfg, p, x) || |env.sealedHeader| != PK.LENGTH_ENCRYPTED_HEADER then HeaderFails
    else if |body.content| > PK.MAX_CONTENT_LENGTH then BodyFails
    else AllFine
  }

  /** In every reached state Encrypt succeeds exactly when a session can be started or exists, the header
      fits and the content is at most MaxContentLength long; and then the message is written, at its
      fixed size, under the keys of the message key it used. */
  lemma EncryptWrites(cfg: Config, s: Sys, e: Event, x: HeaderInput, pr: MB.Primitives, derive: Derivation,
                      env: WF.Envelope, body: MB.Body)
    requires Reached(cfg, s) && e.Encrypts? && Enabled(s, e) && e.rest == ProgressWith(cfg, e.p, x, env, body)
    requires MB.Sized(pr) && WF.Shaped(env, body)
    ensures EncryptOutcome(cfg, s, e).result.Ok? <==>
            && CanStart(cfg, s, e.p) && HeaderFits(cfg, e.p, x)
            && |env.sealedHeader| == PK.LENGTH_ENCRYPTED_HEADER
            && |body.content| <= PK.MAX_CONTENT_LENGTH
    ensures EncryptOutcome(cfg, s, e).result.Ok? ==>
              var raw := WF.WriteMessage(pr, derive(EncryptOutcome(cfg, s, e).result.value.1), env, body);
              raw.Ok? && |raw.value| == PK.UNENCODED_MSG_SIZE
  {
    hide Reached, EncryptOutcome, MB.Sized, WF.Shaped, WF.WriteMessage, HeaderFits, CanStart;
    EncryptionIsExact(cfg, s, e);
    if EncryptOutcome(cfg, s, e).result.Ok? {
      WF.MessageHasFixedSize(pr, derive(EncryptOutcome(cfg, s, e).result.value.1), env, body);
    }
  }

  lemma {:induction false} NetGrows(cfg: Config, s: Sys, events: seq<Event>)
    ensures s.net <= After(cfg, s, events).net
    decreases |events|
  {
    hide EncryptOutcome, DecryptOutcome;
    if events != [] {
      NetGrows(cfg, Step(cfg, s, events[0]), events[1..]);
    }
  }

  lemma ReachedFurther(cfg: Config, s: Sys, events: seq<Event>)
    requires Reached(cfg, s) && IsRun(cfg, s, events)
    ensures Reached(cfg, After(cfg, s, events))
  {
    hide IsRun, After;
    var s0, before :| Initial(cfg, s0) && IsRun(cfg, s0, before) && After(cfg, s0, before) == s;
    RunsCompose(cfg, s0, before, events);
  }

  function SentMessageOf(cfg: Config, s: Sys, e: Event): Message
    requires e.Encrypts? && EncryptOutcome(cfg, s, e).result.Ok?
  {
    Message(Other(e.p), HeaderKey(s.clock), EncryptOutcome(cfg, s, e).result.value.0,
            EncryptOutcome(cfg, s, e).result.value.1)
  }

  lemma SentIsInNet(cfg: Config, s: Sys, e: Event)
    requires e.Encrypts? && EncryptOutcome(cfg, s, e).result.Ok?
    ensures SentMessageOf(cfg, s, e) in Step(cfg, s, e).net
  {
    hide EncryptOutcome;
  }

  /** A message written by a successful Encrypt, anything happening in between, and then delivered for the
      first time within the top-up limit: the bytes are taken apart into their envelope and packets, Decrypt
      finds the sender's message key, and the recipient gets exactly the sender's content. */
  lemma WrittenContentArrives(cfg: Config, s: Sys, e: Event, x: HeaderInput, env: WF.Envelope, body: MB.Body,
                              events: seq<Event>, numOfKeys: nat, pr: MB.Primitives, derive: Derivation, pub: Bytes)
    requires Reached(cfg, s) && e.Encrypts? && Enabled(s, e) && e.rest == ProgressWith(cfg, e.p, x, env, body)
    requires EncryptOutcome(cfg, s, e).result.Ok?
    requires IsRun(cfg, Step(cfg, s, e), events)
    requires var s2, m := After(cfg, Step(cfg, s, e), events), SentMessageOf(cfg, s, e);
             m !in s2.done && Reachable(s2, m, numOfKeys) && s2.clock < TWO64 / 2 && numOfKeys < TWO64
    requires WF.Shaped(env, body) && Sendable(pr, body, pub)
    ensures var s2, m := After(cfg, Step(cfg, s, e), events), SentMessageOf(cfg, s, e);
            var raw := WF.WriteMessage(pr, derive(m.key), env, body);
            && raw.Ok?
            && WF.OpenEnvelope(raw.value) == Ok((env, MB.WriteBody(pr, derive(m.key), body, 2)))
            && var packets := MB.WriteBody(pr, derive(m.key), body, 2);
               && DecryptPackets(cfg, s2, m, numOfKeys, pr, derive, pub, packets).result == Ok(m.key)
               && Reading(pr, derive, pub, packets, m.key).written == body.content
               && Reading(pr, derive, pub, packets, m.key).result == Ok(Signature(pr, body))
  {
    hide *;
    var s1, m := Step(cfg, s, e), SentMessageOf(cfg, s, e);
    var s2 := After(cfg, s1, events);
    WrittenApart(cfg, s, e, x, env, body, pr, derive, pub);
    OneStep(cfg, s, e, events);
    ReachedFurther(cfg, s, [e] + events);
    SentIsInNet(cfg, s, e);
    NetGrows(cfg, s1, events);
    DeliveredContent(cfg, s2, m, numOfKeys, pr, derive, body, pub);
  }

  lemma OneStep(cfg: Config, s: Sys, e: Event, events: seq<Event>)
    requires Enabled(s, e) && IsRun(cfg, Step(cfg, s, e), events)
    ensures IsRun(cfg, s, [e] + events) && After(cfg, s, [e] + events) == After(cfg, Step(cfg, s, e), events)
  {
    hide Step, Enabled;
    assert ([e] + events)[1..] == events;
  }

  lemma WrittenApart(cfg: Config, s: Sys, e: Event, x: HeaderInput, env: WF.Envelope, body: MB.Body,
                     pr: MB.Primitives, derive: Derivation, pub: Bytes)
    requires Reached(cfg, s) && e.Encrypts? && Enabled(s, e) && e.rest == ProgressWith(cfg, e.p, x, env, body)
    requires EncryptOutcome(cfg, s, e).result.Ok? && WF.Shaped(env, body) && Sendable(pr, body, pub)
    ensures var k := SentMessageOf(cfg, s, e).key;
            var raw := WF.WriteMessage(pr, derive(k), env, body);
            raw.Ok? && WF.OpenEnvelope(raw.value) == Ok((env, MB.WriteBody(pr, derive(k), body, 2)))
  {
    hide Reached, EncryptOutcome, MB.Sized, WF.Shaped, WF.WriteMessage, WF.OpenEnvelope, MB.WriteBody, MB.ParseBody;
    EncryptWrites(cfg, s, e, x, pr, derive, env, body);
    WF.MessageRoundTrip(pr, derive(SentMessageOf(cfg, s, e).key), env, body, pub);
  }

  lemma DeliveredContent(cfg: Config, s: Sys, m: Message, numOfKeys: nat, pr: MB.Primitives, derive: Derivation,
                         body: MB.Body, pub: Bytes)
    requires Reached(cfg, s) && m in s.net && m !in s.done && Reachable(s, m, numOfKeys)
    requires s.clock < TWO64 / 2 && numOfKeys < TWO64 && Sendable(pr, body, pub)
    ensures var packets := MB.WriteBody(pr, derive(m.key), body, 2);
            && DecryptPackets(cfg, s, m, numOfKeys, pr, derive, pub, packets).result == Ok(m.key)
            && Reading(pr, derive, pub, packets, m.key).written == body.content
            && Reading(pr, derive, pub, packets, m.key).result == Ok(Signature(pr, body))
  {
    hide Reached, DecryptPackets, Reading, MB.WriteBody, Reachable, Sendable;
    ContentArrives(cfg, s, Delivers(m, numOfKeys, true), pr, derive, body, pub);
  }
}
