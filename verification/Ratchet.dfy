/** Two honest parties, each with its own key store, exchanging messages over a network that may
    delay, reorder, duplicate and lose them. */
module Ratchet {
  import opened Bytes
  import opened MessageKeys
  import opened KeyStore
  import opened Sessions

  /** The primitives and the two identities. */
  datatype Config = Config(c: Crypto, alice: Bytes, bob: Bytes)

  ghost predicate ValidConfig(cfg: Config) {
    Lawful(cfg.c) && cfg.alice != cfg.bob
  }

  function Name(cfg: Config, p: Party): Bytes {
    if p.Alice? then cfg.alice else cfg.bob
  }

  function UidOf(cfg: Config, p: Party): Uid {
    Uid(Name(cfg, p), Identity(p))
  }

  /** A message in flight: one-time header key, header, and the message key its body is under. */
  datatype Message = Message(to: Party, hdr: Key, header: MsgHeader, key: Bytes)

  /** `net` holds everything ever sent: delivering any of it, any number of times and in any order,
      covers delay, reordering, duplication and loss.  `done` records successful decryptions,
      `since` the successful encryptions since the party last started or took over a session. */
  datatype Sys = Sys(
    alice: Store, bob: Store,
    net: set<Message>, done: set<Message>,
    sinceAlice: nat, sinceBob: nat,
    clock: nat
  )

  function StoreOf(s: Sys, p: Party): Store {
    if p.Alice? then s.alice else s.bob
  }

  function With(s: Sys, p: Party, st: Store): Sys {
    if p.Alice? then s.(alice := st) else s.(bob := st)
  }

  function Since(s: Sys, p: Party): nat {
    if p.Alice? then s.sinceAlice else s.sinceBob
  }

  function WithSince(s: Sys, p: Party, n: nat): Sys {
    if p.Alice? then s.(sinceAlice := n) else s.(sinceBob := n)
  }

  function Current(s: Sys, p: Party): Option<State> {
    StateOf(StoreOf(s, p), Identity(p), Identity(Other(p)))
  }

  function Sid(p: Party, mine: Key, peers: Key): SessionId {
    SessionId(Identity(p), Identity(Other(p)), mine, peers)
  }

  // --- runs

  datatype Event =
    | Encrypts(p: Party, numOfKeys: nat, announce: bool, rest: Progress)
    | Delivers(m: Message, numOfKeys: nat, intact: bool)

  /** The party was given its first state, or gave up its own KeyInit session for the other side's. */
  predicate Restarted(before: Option<State>, after: Option<State>) {
    after.Some? && (before.None? || (before.value.keyInit && after.value.sessionPub.KeyInit?))
  }

  function EncryptOutcome(cfg: Config, s: Sys, e: Event): Outcome<(MsgHeader, Bytes)>
    requires e.Encrypts?
  {
    Encrypt(cfg.c, StoreOf(s, e.p), UidOf(cfg, e.p), UidOf(cfg, Other(e.p)), e.numOfKeys, e.announce,
            HeaderKey(s.clock), Ephemeral(s.clock), e.rest)
  }

  /** The packets verify under the sender's message key if they arrive intact, and under no other. */
  function Opens(e: Event): Bytes -> bool
    requires e.Delivers?
  {
    k => e.intact && k == e.m.key
  }

  function DecryptOutcome(cfg: Config, s: Sys, e: Event): Outcome<Bytes>
    requires e.Delivers?
  {
    Decrypt(cfg.c, StoreOf(s, e.m.to), UidOf(cfg, e.m.to), e.m.hdr, e.m.header, e.numOfKeys,
            Ephemeral(s.clock), Opens(e))
  }

  function Step(cfg: Config, s: Sys, e: Event): Sys {
    match e
    case Encrypts(p, _, _, _) =>
      var o := EncryptOutcome(cfg, s, e);
      var s1 := With(s, p, o.store).(clock := s.clock + 1);
      var base := if Restarted(Current(s, p), Current(s1, p)) then 0 else Since(s, p);
      if o.result.Err? then WithSince(s1, p, base) else
      var m := Message(Other(p), HeaderKey(s.clock), o.result.value.0, o.result.value.1);
      WithSince(s1, p, base + 1).(net := s.net + {m})
    case Delivers(m, _, _) =>
      var o := DecryptOutcome(cfg, s, e);
      var s1 := With(s, m.to, o.store).(clock := s.clock + 1);
      var base := if Restarted(Current(s, m.to), Current(s1, m.to)) then 0 else Since(s, m.to);
      var s2 := WithSince(s1, m.to, base);
      if o.result.Err? then s2 else s2.(done := s.done + {m})
  }

  /** Only sent messages are delivered, numbers of keys are uint64, and fewer than 2^63 events
      have taken place. */
  predicate Enabled(s: Sys, e: Event) {
    && (e.Delivers? ==> e.m in s.net)
    && e.numOfKeys < TWO64
    && s.clock < TWO64 / 2
  }

  predicate Initial(cfg: Config, s: Sys) {
    && s.net == {} && s.done == {}
    && s.sinceAlice == 0 && s.sinceBob == 0
    && InitialStore(cfg, Alice, s.alice) && InitialStore(cfg, Bob, s.bob)
  }

  predicate InitialStore(cfg: Config, p: Party, st: Store) {
    && st.states == map[] && st.sessions == map[] && st.sessionKeys == map[]
    && st.privateEntries == {KeyInit(p)}
    && (Name(cfg, Other(p)) in st.publicEntries ==> st.publicEntries[Name(cfg, Other(p))] == KeyInit(Other(p)))
  }

  /** All runs: any sequence of enabled events from an initial state. */
  predicate IsRun(cfg: Config, s: Sys, events: seq<Event>)
    decreases |events|
  {
    events == [] || (Enabled(s, events[0]) && IsRun(cfg, Step(cfg, s, events[0]), events[1..]))
  }

  function After(cfg: Config, s: Sys, events: seq<Event>): Sys
    decreases |events|
  {
    if events == [] then s else After(cfg, Step(cfg, s, events[0]), events[1..])
  }
}
