# Mute, verified core

Mute is a secure messaging system: two parties exchange fixed-size encrypted messages whose keys come from
a ratchet of short sessions, a local control engine moves messages through an out queue and an in queue,
key servers publish hash chains, and clients read signed configuration maps and show text in a terminal.
This project models the parts of it that carry the correctness of the whole and proves what they promise.

| file | what it holds |
|---|---|
| `Bytes.dfy` | bytes, Go's string order, big-endian numbers, result types |
| `MessageKeys.dfy`, `KeyStore.dfy` | root keys, chains and message key streams; the in-memory key store |
| `KeyDerivation.dfy` | what the derived keys are in terms of the primitives alone; reflected keys |
| `Sessions.dfy`, `Messaging.dfy` | `Encrypt` and `Decrypt` as functions on the store, and step by step on a `MemStore` object, proved equal |
| `SessionEffects.dfy` | what single calls do to the stored sessions, for every store and header |
| `Ratchet*.dfy`, `TopUp.dfy` | two parties over an unreliable network, the invariant of all runs, the theorems about runs (deliveries, states, refreshes, which keys are equal, which are forgotten); the key top-up for arbitrary headers |
| `Packets.dfy`, `MessageBody.dfy`, `WireFormat.dfy`, `HeaderPadding.dfy` | the packet format: writers, parsers, sizes, padding |
| `BodyAcceptance.dfy`, `MessageLayout.dfy` | the bytes of a message one by one, and exactly which bytes are accepted |
| `EndToEnd.dfy` | ratchet, header and packets together |
| `MsgTables.dfy`, `MsgFates.dfy`, `MsgDb.dfy` | the message tables, the transactions on them, and what becomes of each message and row |
| `SendQueue.dfy`, `MsgSending.dfy`, `ReceiveQueue.dfy` | the loops that drain the queues |
| `HashChain.dfy`, `SortedMap.dfy`, `Utf8.dfy`, `TextBuffer.dfy` | hash chain validation, signed maps, UTF-8 and the text buffer |

Every operation is a function on values (`Sessions.Encrypt`, `MsgTables.Removed`, ...); where the program
changes things in place there is also a class or a loop whose `ensures` ties it to that function, and the
theorems are about the function.  The table under "Model" lists the theorems and, of these methods, the ones
with a loop, several branches or several tables to change; the others, such as `MemStore.SetSessionState` or
`MsgDB.SetOutQueue`, are single statements.

## What is proved

**The ratchet.** A run is any sequence of encryptions by either party and deliveries of any message ever
sent, to its recipient, in any order and any number of times, so delay, loss, reordering and duplication are
all covered. Over every run: `DeliveryIsExact` gives the result of every delivery (a first delivery yields
exactly the sender's message key if and only if its index is stored or within the top-up limit and its
packets are intact, a second is refused, nothing else can happen); `MirrorOrOneApart` relates the two session
states; `StoresShareOneStream` relates the two key stores; `SmallerStartPrevails` settles concurrent starts;
`SlotsServeOnce` says that no key is used twice; `CountersAddUp` accounts for the counters.
`WrittenContentArrives` carries this through the packet format, from the content that Encrypt is given to the
content that Decrypt hands over.

**Keys.** `GeneratedKeys` says what is stored without reference to the functions that compute it: along one
chain from the root key, each chain key the first 32 bytes of the HMAC of "CHAIN" under the one before, each
message key the HMAC of "MESSAGE", a public key's hash and the identities' hash. `RootKeyBinds`: two root keys
are equal if and only if the three agreements and the previous root key hash are. Over every run, as far as
the primitives do not collide on the values that occur, equal root key hashes mean the same pair of session
keys and, except for the first, the same predecessor (`RootHashesBind`), different slots hold different keys
(`SlotsHoldDifferentKeys`), and no two messages are under the same key (`MessagesHaveDifferentKeys`). The
private part of a session key is gone once a message under it has been processed (`UsedKeyForgotten`), so in
every reached state the recipient of a decrypted message can no longer use the session key that it was sent to,
unless that is its published KeyInit key (`DecryptedKeysForgotten`).

**Accepted bytes.** `EnvelopeIff` and `AcceptedIff` state exactly which byte strings Decrypt accepts: two
packets with header key and sealed header, then four packets of the right types and counts that decrypt to
content and signature or padding, with a signature that verifies if there is one and the right HMAC. In
particular a signature that is returned has been verified (`SignatureIsVerified`), and signed data is never
taken for unsigned (`SignedStaysSigned`). For four well-formed packets with readable plaintexts,
`MisplacedPackets` and `ParsedPackets` give the error of whatever else is wrong with them.

**A refresh that cannot happen.** doc/messages.md, section 2.3, describes how a session is refreshed once
both parties have announced a new key. The code (msg/decrypt.go:249-316) only answers an announcement when it
has not announced a key itself. `RefreshIffNotCrossed`: from any reached state in which both sides have a
session state, some continuation refreshes the session if and only if they have not crossed announcements,
that is, unless both are on the same session and have announced a key without having seen the other's. While
both are still on sessions they started themselves, announcements do not cross, and the session can be
refreshed even if both have announced (`RacingAnnouncementsRefresh`). Crossed announcements take no more than
three events from a fresh start (`CrossedAnnouncementsHappen`), because a party that takes over a session
announces a key at once, and then every continuation stays on the old session (`CrossedAnnouncementsStall`).
Messages keep flowing either way.

**A top-up that misses its key.** The number of keys to generate is rounded up in 64-bit arithmetic
(msg/decrypt.go:361-369). `TopUpReaches` says exactly when a top-up that passes the limit provides the
requested key. It does not in two cases: the rounding wraps around, or no key is stored yet and the index is a
multiple of the batch. `LargestIndexIsMissing` shows the first with the largest index: with the default batch
of 50 the number wraps to 34, so 34 keys are generated and the requested one is not among them; with a batch
of 64 it wraps to exactly zero, no key is generated, and because `chainKey` is the same buffer as `rootKey`
until the first step (msg/keys.go:111-129), zeros are stored as the chain key (`TopUpChain`).
`MultipleIsMissing` shows the second, with a store that only a direct `StoreSession` with empty lists
produces: neither Encrypt nor Decrypt leaves a session without keys, whatever the header (`CallsKeepKeys`).
Neither case happens in a run of two honest parties. The limit of 301 keys is on the top-up; starting a session from a KeyInit message generates `NumOfKeys` keys without it.

**Queues.** In every run of transactions from an empty database each outgoing message is in exactly one of
the stages pending, queued and sent (`StagesInEveryRun`); `AddOutQueue` itself does not check this and keeps
it exactly when the message is pending (`QueueingOk`). The loops terminate, and their outcome is stated for
every answer of the programs they call, with what was delivered for each message (`MsgSend`) and how every
fetched row was accounted for (`RowsConservedOverRuns`). `procOutQueue` takes an empty ciphertext for the end
of the queue (ctrlengine/msg.go:286-289): a msgSend that returns without error has settled every message of a
nym if and only if none of the nym's rows was empty before the call and no encryption made in the call
answered with nothing; the latter is certain when `mutecrypt encrypt` never gives an empty output
(`FilledWorld`). `EmptyEncryptionSticks` is a database for which it does not. Over any run of transactions and
msgSend calls a message is delivered at most once (`DeliveredOnce`). The errors are exact too: `procOutQueue`,
msgSend and `procInQueue` come with the list of the calls they made, each on something that was in the queue
or encrypted in the call, and return an error if and only if the last of these failed or a nym is unknown;
when no program fails they return without error (`MsgSending.FaultlessCalls`,
`ReceiveQueue.FaultlessCalls`). Row by row, `MsgFates.dfy` says what each transaction can do to a message, a
queue row, a nym or a contact; a message's parties, text and delay never change (`ContentStays`).

**The rest.** Every accepted content gives a message of 65536 characters and comes back unchanged; header
fields and padding have one total length; two validated hash chains with the same head are the same; the
signed bytes of a map determine it and do not depend on the order of iteration; the text buffer's three
coordinate systems are consistent for all bytes, and writing it gives back the input exactly for valid UTF-8
without leading combining runes.

## Assumptions

- Cryptography is a record of uninterpreted functions. X25519 agreement commutes (section 6.1 of RFC 7748);
  the only other facts used are output sizes of X25519, SHA-512, HMAC-SHA512 and Ed25519. For hash chains,
  SHA-256 is assumed not to collide, and not to give all zeros, on the blocks of the two chains compared. The
  theorems on different keys (`RatchetKeys.dfy`) assume the absence of collisions only on the agreements, root
  keys and chains of the run in question, as a premise of each statement (`Apart`).
- A key's name stands for the key pair and for the SHA-512 hash of its public key; session keys and one-time
  header keys are fresh. `CalcKey` and `CalcStateKey` are kept as the tuples they hash.
- Two honest parties with different identities and fixed identity and KeyInit keys, messages with status OK,
  fewer than 2^63 events, key numbers below 2^64. `NumOfKeys == 0` selects the default, as in the code.
- What the programs called by the control engine answer, random numbers and the clock are parameters: every
  statement holds for all of them. Database transactions are atomic; foreign keys are enforced
  (encdb/encdb.go:155-156). Failures of the database itself are not modelled.

## Model

| member | source | states |
|---|---|---|
| Bytes.LessIsLexicographic | msg/keys.go:101-106 | the order of identities is bytewise lexicographic |
| Bytes.BigEndianDigit | msg/outer.go:58-74 | numbers are written high bytes first |
| MessageKeys.RootKeysAgree | msg/encrypt.go:27-86 | the initiator's and the recipient's root key agreement give the same key |
| MessageKeys.IdentityFixSymmetric | msg/keys.go:86-110 | both parties bind the same sorted identity pair into their keys |
| MessageKeys.ChainSplits | msg/keys.go:112-140 | continuing a chain from a stored chain key is continuing the original chain |
| MessageKeys.TopUpContinuesStream | msg/keys.go:86-158 | generating keys in any two batches equals generating them at once, and leaves the same chain key |
| KeyDerivation.GeneratedKeys | msg/keys.go:86-158 | what generateMessageKeys stores, in terms of HMAC and SHA-512 alone: one chain stepped by "CHAIN", one key per direction and step under "MESSAGE", public key hash and sorted identities, and the chain key after them; older keys and other sessions stay |
| KeyDerivation.RootKeyBinds | msg/keys.go:57-78 | where HKDF does not collide, root keys are equal if and only if the three agreements and the previous root key hash (zeros if none) are |
| KeyDerivation.SenderRootBinds | msg/encrypt.go:27-86 | the root key binds identity with session key, session key with session key, session key with identity, and the previous root key hash |
| KeyDerivation.ReflectionRefused | msg/keys.go:19-53 | an agreement is refused exactly when two of its five keys are the same |
| KeyStore.CountsEveryKey | msg/session/memstore/memstore.go:134-140 | over any sequence of top-ups and deletions, the number of message keys grows by exactly each stored batch, and deleting keys leaves it: it counts every key ever generated |
| KeyStore.SlotsKept | msg/session/memstore/memstore.go:82-107 | over any such sequence, a slot keeps its key exactly until it is deleted itself, and the root key hash stays |
| KeyStore.DeletedStaysDeleted | msg/session/memstore/memstore.go:221-240 | a deleted slot is reported as used after any sequence of later top-ups and deletions |
| KeyStore.MemStore.StoreSession | msg/session/memstore/memstore.go:82-107 | a new session is stored as given, a known one keeps its root key hash and is appended to; unequal lengths are refused |
| KeyStore.MemStore.GetMessageKey | msg/session/memstore/memstore.go:143-182 | the key of a slot, or the error for an unknown session, an index out of bounds or a used key |
| KeyStore.MemStore.DelMessageKey | msg/session/memstore/memstore.go:221-240 | exactly the one slot is wiped; errors leave the store as it was |
| Messaging.GenerateMessageKeys | msg/keys.go:86-158 | the loop stores the next keys of the two streams, oriented for the caller, and the chain key after them; with no keys to generate it stores zeros as chain key |
| Messaging.RootKeyAgreementSender | msg/encrypt.go:27-86 | refuses reflected keys, otherwise stores the session derived from the three agreements and the previous root key hash |
| Messaging.RootKeyAgreementRecipient | msg/decrypt.go:24-84 | the same from the recipient's keys |
| Messaging.EncryptMessage | msg/encrypt.go:106-441 | the store and the result of Encrypt, error exits included, as the function the theorems are about |
| Messaging.StartFromKeyInit | msg/decrypt.go:172-236 | a session named by one of our KeyInit keys is stored, and taken over if there is no state or the sender's start wins the tie |
| Messaging.UpdateKnownSession | msg/decrypt.go:237-340 | which of the branches for a known session is taken, and its effect |
| Messaging.EnsureMessageKeys | msg/decrypt.go:347-398 | the top-up: when it is done, refused or unnecessary, and what it stores |
| Messaging.DecryptMessage | msg/decrypt.go:102-582 | the store and the result of Decrypt, error exits included, as the function the theorems are about |
| RatchetRuns.EncryptKeepsInv | msg/encrypt.go:106-441 | every Encrypt keeps the invariant and fails only for a missing KeyInit key or a rejected header or body |
| RatchetRuns.DecryptKeepsInv | msg/decrypt.go:102-582 | every delivery keeps the invariant and has exactly the stated result |
| RatchetTheorems.ReachedInv | msg/decrypt.go:172-405 | the invariant holds in every state of every run |
| RatchetTheorems.DeliveryIsExact | msg/decrypt.go:172-405 | in every run a delivery yields the sender's message key, or is refused for exactly one of: decrypted before, index beyond the top-up limit, packets not intact |
| RatchetTheorems.EncryptionIsExact | msg/encrypt.go:154-293 | in every run an encryption succeeds unless the KeyInit key is missing or the header or body is rejected, with the error for each |
| RatchetTheorems.MirrorOrOneApart | msg/decrypt.go:240-340 | unless both are still on the session they started, the two states are mirror images, with seen keys the other's announced ones, or one switch apart, and the one behind has the other's session stored and recorded as its next pair |
| RatchetTheorems.SmallerStartPrevails | msg/decrypt.go:178-233 | after concurrent starts, once the larger identity has stored the other's start, both states name the session of the smaller identity until they switch |
| RatchetTheorems.StoresShareOneStream | msg/keys.go:86-158 | both stores hold parts of one stream per direction; what one sends with is what the other receives with |
| RatchetTheorems.SentSlotsDiffer | msg/encrypt.go:288-293 | no two encryptions of a run use the same slot |
| RatchetTheorems.OpenedOnce | msg/decrypt.go:400-405 | no message is decrypted twice in a run |
| RatchetTheorems.SlotsServeOnce | msg/session/memstore/memstore.go:143-182 | every slot serves at most one encryption and one decryption over a run, and only sent messages are decrypted |
| RatchetKeys.RootHashesBind | msg/keys.go:57-78 | in every run without collisions, sessions with the same root key hash are the same pair of keys, and each one not started by a KeyInit message is chained to exactly one other |
| RatchetKeys.ChainKeysDiffer | msg/keys.go:112-140 | along the chains of a run without collisions no chain key occurs twice |
| RatchetKeys.SlotsHoldDifferentKeys | msg/keys.go:86-158 | in every run without collisions, two slots hold the same key only if they are the sending and the receiving end of one session, direction and index |
| RatchetKeys.MessagesHaveDifferentKeys | msg/encrypt.go:288-293 | in every run without collisions, no two messages are under the same message key |
| RatchetForget.UsedKeyForgotten | msg/decrypt.go:341-344 | for every store and header of a known session: when the session part succeeds, the private part of the key the message was sent to is gone, and no other key's mark changes except a key generated in the call |
| RatchetForget.DecryptedKeysForgotten | msg/decrypt.go:341-344 | in every run, the recipient of a decrypted message holds the session key it was sent to without its private part, unless that is its KeyInit key |
| SessionEffects.EncryptEffect | msg/encrypt.go:216-293 | for every store: the header shows the state, one batch of keys (50 by default) is generated exactly when the message has none, only the message's slot is emptied and only on success, no other session changes |
| SessionEffects.StartEffect | msg/encrypt.go:154-199 | the first message stores one batch in one new session between a fresh key and the peer's KeyInit key, and uses its first send key |
| SessionEffects.UpdateGains | msg/decrypt.go:172-340 | for every store and header, the session part of Decrypt only adds keys, in whole batches, and changes no root key hash |
| SessionEffects.DecryptEffect | msg/decrypt.go:347-405 | for every store and header, a successful Decrypt empties the slot of the key that opened the packets and no other |
| SessionEffects.FailedDecryptKeeps | msg/decrypt.go:347-405 | a failed Decrypt empties no slot |
| RatchetStates.StateAfterDelivery | msg/decrypt.go:172-345 | the recipient's state after any delivery in any reachable state |
| RatchetStates.StateAfterEncryption | msg/encrypt.go:154-214 | the sender's state after any encryption in any reachable state |
| RatchetStates.SentHeader | msg/encrypt.go:216-229 | each field of the header of every sent message: identity, current keys, announced and seen keys, and both counters before the message is counted |
| RatchetStates.CountersAddUp | msg/encrypt.go:433-438 | session count plus message count is the number of encryptions since the last start or adoption |
| RatchetStates.CrossedAnnouncementsStall | msg/decrypt.go:249-316 | once both are on the same session and have announced without seeing the other's key, no continuation refreshes the session |
| RatchetStates.CrossedAnnouncementsHappen | msg/decrypt.go:191-233 | three events from a fresh start lead there |
| RatchetStates.AnsweredAnnouncementRefreshes | msg/decrypt.go:279-315 | if the peer has recorded our announced key, its next message refreshes the session |
| RatchetRefresh.RefreshIffNotCrossed | msg/decrypt.go:237-340 | in every reached state with both session states present, some continuation brings both sides to a new session if and only if they have not crossed announcements |
| RatchetRefresh.RacingAnnouncementsRefresh | msg/decrypt.go:189-233 | a run of four events in which both start and announce: neither has seen the other's key, yet the session can be refreshed |
| TopUp.TopUpIsBounded | msg/decrypt.go:347-398 | no header makes the top-up generate more than 301 keys; it generates none if the index has a key and otherwise the rounded-up number; everything stored before stays |
| TopUp.RoundsToMultiple | msg/decrypt.go:361-369 | the number of keys asked for is the least multiple of the batch not below the index, modulo 2^64 |
| TopUp.TopUpReaches | msg/decrypt.go:353-405 | exactly when a passed top-up provides the requested index, and that the key continues the chain |
| TopUp.TopUpChain | msg/decrypt.go:361-397 | the chain key after a top-up is the one after the generated keys; a number that wraps to exactly zero leaves zeros |
| TopUp.LargestIndexIsMissing | msg/decrypt.go:361-397 | a store and the largest index: with the default of 50 keys 34 are added and the key is missing; with 64 none is added and the chain key is lost |
| TopUp.MultipleIsMissing | msg/decrypt.go:361-397 | a session without keys and an index that is a multiple of the batch: the key is missing |
| TopUp.CallsKeepKeys | msg/encrypt.go:106-441 | neither Encrypt nor Decrypt, for any header, leaves a session without keys |
| Packets.ReadOuterWritten | msg/outer.go:58-104 | reading a written outer packet gives the packet and what follows it |
| Packets.ReadOuterConsumes | msg/outer.go:76-104 | what is read, written again, is exactly what was consumed |
| Packets.ReadInnerWritten | msg/inner.go:52-102 | reading a written inner packet gives it back |
| Packets.ReadPreHeaderWritten | msg/preheader.go:33-96 | the pre-header comes back and has its fixed length |
| Packets.ReadFirstWritten | msg/first.go:22-56 | the first packet comes back with the version |
| Packets.ReadHeaderPacketWritten | msg/header.go:172-205 | nonce and sealed header come back and have their fixed length |
| MessageBody.CryptTwice | msg/decrypt.go:448-451 | the key stream at the same offset undoes itself |
| MessageBody.BodyRoundTrip | msg/decrypt.go:413-573 | the parser gives back exactly the written content and signature, with the same bytes fed to the HMAC, and ignores what follows |
| MessageBody.HmacBindsContent | msg/decrypt.go:430-573 | equal HMAC inputs of accepted bodies mean equal content and signature |
| MessageBody.CryptedBits | msg/encrypt.go:347-348 | each bit of the data is inverted exactly where the key stream at that offset has a one |
| MessageBody.CryptedInParts | msg/encrypt.go:347-393 | successive packets continue one key stream |
| BodyAcceptance.OuterLayout | msg/outer.go:58-74 | the seven bytes of an outer header and the content after them |
| BodyAcceptance.InnerLayout | msg/inner.go:52-69 | the five bytes of an inner header and the content after them |
| BodyAcceptance.ParsedPackets | msg/decrypt.go:473-573 | on packets in order: the content is written, an invalid signature and then a wrong HMAC are reported, nothing else is refused |
| BodyAcceptance.MisplacedPackets | msg/decrypt.go:413-573 | otherwise the first packet of another type, or else with another count, is reported |
| BodyAcceptance.AcceptedIff | msg/decrypt.go:413-573 | a body is accepted with this content and signature if and only if it is four packets of the right types, counts and plaintexts, with a verified signature if any and the right HMAC |
| BodyAcceptance.SignatureIsVerified | msg/decrypt.go:544-551 | a signature that is returned verifies against the content that was written, for every input |
| BodyAcceptance.SignedStaysSigned | msg/decrypt.go:453-551 | an accepted body has a signature if and only if its data is marked as signed |
| MessageLayout.Layout | msg/encrypt.go:130-260 | the bytes of a whole message up to its body |
| MessageLayout.EnvelopeIff | msg/decrypt.go:110-137 | exactly which bytes are taken apart into this header key, nonce, sealed header and rest |
| WireFormat.MessageHasFixedSize | msg/encrypt.go:327-423 | exactly contents up to 41691 bytes are accepted, and all give 49152 bytes, 65536 base64 characters, no padding; the error otherwise |
| WireFormat.EnvelopeRoundTrip | msg/decrypt.go:110-137 | header key, nonce, sealed header and body bytes come back |
| WireFormat.MessageRoundTrip | msg/encrypt.go:301-416 | every accepted message can be taken apart again into exactly its content |
| WireFormat.CtrStream.XorKeyStream | msg/encrypt.go:347-348 | combines the data with the stream from the current position and moves on |
| WireFormat.Sink.WriteOuterHeader | msg/outer.go:58-74 | appends the packet, or only its header, field by field |
| WireFormat.EncryptBody | msg/encrypt.go:301-416 | writing the packets one by one, over one stream, counter and HMAC, gives the specified bytes |
| WireFormat.Reader.ReadOuterHeader | msg/outer.go:76-104 | reads one packet from the stream, field by field, with the error of the first bad field |
| WireFormat.OpenData | msg/decrypt.go:448-466 | the content, whether a signature follows, and the stream position after it |
| WireFormat.OpenTail | msg/decrypt.go:493-536 | the signature or the padding after the content, from the right stream position |
| WireFormat.Reader.NextPacket | msg/decrypt.go:414-424 | one packet of the expected type and count, or the error of the first check that fails |
| WireFormat.DecryptRest | msg/decrypt.go:473-573 | signature or padding, signature check and HMAC, on every input |
| WireFormat.DecryptBody | msg/decrypt.go:413-573 | reading the packets one by one gives the specified result, content and HMAC input, on every input |
| HeaderPadding.CountIsDecimalLength | util/digits/digits.go:9-52 | Count is the length of the decimal representation of every 64-bit number |
| HeaderPadding.Generate | msg/padding/padding.go:18-36 | padding of exactly the requested length, or an error when randomness runs out |
| HeaderPadding.NewHeader | msg/header.go:68-144 | all accepted headers have the same total of field lengths, 5900; which inputs are refused and with which error; the padding is hexadecimal digits of a random key stream |
| EndToEnd.ContentArrives | msg/decrypt.go:102-582 | in every run, a first delivery within the limit hands the sender's content and signature to the recipient |
| EndToEnd.EncryptWrites | msg/encrypt.go:106-441 | in every run Encrypt succeeds exactly when it can have a session, the header fits and the content is at most MaxContentLength, and then the message is written at its fixed size |
| EndToEnd.WrittenContentArrives | msg/decrypt.go:102-582 | a message written by Encrypt, after any further events, is taken apart and decrypted to exactly the sender's content |
| MsgTables.ExactlyOneStage | msgdb/msgdb.go:123-136 | every outgoing message is pending, queued or sent and only one of these, received ones are none, rows belong to their message |
| MsgTables.QueueingOk | msgdb/outqueue.go:16-48 | queueing keeps that if and only if the message is the nym's and pending |
| MsgTables.OpKeeps | msgdb/outqueue.go:16-152 | every transaction keeps it, deletions with their cascades included |
| MsgTables.StagesInEveryRun | msgdb/messages.go:17-68 | it holds after every run of transactions from an empty database |
| MsgFates.MessageFate | msgdb/messages.go:153-175 | a message goes only when it or its nym is deleted; its flags and date change only when it is queued, sent or retracted, everything else never |
| MsgFates.NewMessage | msgdb/messages.go:17-68 | a new message has a new number and exactly the given fields |
| MsgFates.OutRowFate | msgdb/outqueue.go:83-175 | a row leaves the out queue only with its message or when sent or retracted; only its envelope and resend mark change |
| MsgFates.NewOutRow | msgdb/outqueue.go:16-48 | a new row of the out queue has a new number and exactly the given fields, without envelope and resend mark |
| MsgFates.InRowFate | msgdb/inqueue.go:77-141 | a row leaves the in queue only with its nym, or when deleted, stored or dropped; only its envelope changes |
| MsgFates.NewInRow | msgdb/inqueue.go:17-41 | a new row of the in queue has a new number and exactly the given fields, in its envelope |
| MsgFates.NymFate | msgdb/nyms.go:16-119 | nyms come by being added and go by being deleted |
| MsgFates.ContactFate | msgdb/contacts.go:28-73 | contacts come by being added and go only with their nym; the mark of a contact changes only when it is added again |
| MsgFates.ContentStays | msgdb/messages.go:17-68 | over any run, until a message is deleted its nym, peer, direction, text and delay stay |
| MsgDb.MsgDB.GetUndeliveredMessage | msgdb/messages.go:251-284 | the oldest pending message of the nym |
| MsgDb.MsgDB.DelMessage | msgdb/messages.go:153-175 | the message and its queue row are gone; other messages cannot be deleted |
| MsgDb.MsgDB.DelNym | msgdb/nyms.go:104-119 | everything of the nym is gone and nothing else |
| MsgDb.MsgDB.AddOutQueue | msgdb/outqueue.go:16-48 | the message is no longer pending and has a new row |
| MsgDb.MsgDB.GetOutQueue | msgdb/outqueue.go:52-79 | the first row of the nym that does not wait for resending |
| MsgDb.MsgDB.RemoveOutQueue | msgdb/outqueue.go:92-120 | the message is sent with its date and the row is gone, in one step |
| MsgDb.MsgDB.RetractOutQueue | msgdb/outqueue.go:124-152 | the message is pending again and the row is gone, in one step |
| MsgDb.MsgDB.ClearResendOutQueue | msgdb/outqueue.go:163-175 | no row of the nym waits for resending |
| MsgDb.MsgDB.RemoveInQueue | msgdb/inqueue.go:86-133 | the row becomes a received message, or is dropped, in one step |
| SendQueue.DeliverRow | ctrlengine/msg.go:317-357 | the row is removed with its send time, retracted, marked for resending or left, as the delivery result calls for |
| SendQueue.ProcessRow | ctrlengine/msg.go:281-357 | one turn delivers the row's envelope, creating and keeping it if need be, and moves only that row's message |
| SendQueue.ProcOutQueue | ctrlengine/msg.go:274-360 | terminates; delivered messages are exactly those that become sent, once each, with the content of their row in an envelope; retracted ones become pending; rows that stay keep their content or got an envelope; an error is returned if and only if the nym is unknown or the last turn on a due row failed, and is the one of that turn; without error every due row had its turn and nothing is left due, if and only if no due row was empty |
| SendQueue.QueueUndelivered | ctrlengine/msg.go:415-466 | terminates; the new rows are exactly the encryptions made, each of its own message to its own peer; an error is returned if and only if the nym is unknown or the last encryption failed; without error every pending message was encrypted and nothing is pending |
| MsgSending.SendNym | ctrlengine/msg.go:397-474 | without error the nym is settled (every outgoing message sent, waiting for resending or retracted) if no row was empty before the call and no encryption in the call answered with nothing, and stuck otherwise; an error is returned if and only if the nym is unknown or the last call failed, each call being a turn on the nym's rows or an encryption of its messages |
| MsgSending.StuckIsNotSettled | ctrlengine/msg.go:286-289 | a stuck queue is never settled |
| MsgSending.MsgSend | ctrlengine/msg.go:387-476 | for every nym of the list that equivalence; no message is lost or altered, sent and received ones stay; the messages that became sent are those with one successful delivery in the call, none sent before; what was delivered for a message is an envelope of what its row held or of an encryption of it to its own peer; for known nyms an error is returned if and only if the last call failed, and for an unknown nym always |
| MsgSending.FaultlessCalls | ctrlengine/msg.go:387-476 | when no program fails, msgSend returns without error |
| MsgSending.FilledWorld | ctrlengine/msg.go:455-460 | no encryption of a call answers with nothing when the program never gives an empty output |
| MsgSending.DeliveredOnce | ctrlengine/msg.go:274-476 | over any run of transactions and msgSend calls, a message that is not deleted is delivered at most once, and not at all if it was sent before |
| MsgSending.EmptyEncryptionSticks | ctrlengine/msg.go:286-289 | four transactions from an empty database to a stuck queue |
| ReceiveQueue.OpenRow | ctrlengine/msg.go:728-760 | an envelope is opened, discarded for the wrong nym, or the loop ends with an error |
| ReceiveQueue.DecryptRow | ctrlengine/msg.go:761-798 | a row is stored once as its decryption, and discarded exactly when it names no sender or a black-listed one |
| ReceiveQueue.ProcInQueue | ctrlengine/msg.go:715-801 | terminates; every row that left became exactly one received message, its own decryption, or was discarded for another nym, an unnamed or a black-listed sender; new contacts are senders of stored messages; an error is returned if and only if the last call, on what a row held, failed; without error the queue is empty |
| ReceiveQueue.FaultlessCalls | ctrlengine/msg.go:715-801 | when no program fails, procInQueue returns without error |
| ReceiveQueue.RowsAreConserved | ctrlengine/msg.go:715-801 | in one call, rows before equal rows left plus messages stored plus rows discarded |
| ReceiveQueue.RowsConservedOverRuns | msgdb/inqueue.go:17-141 | over any run of fetching and processing, rows ever added equal rows left plus messages stored plus rows discarded |
| HashChain.SplitEntry | keyserver/hashchain/hashchain.go:29-52 | the fields have their sizes and together are the decoded entry of 153 bytes and type 1; the error otherwise |
| HashChain.HashedBytes | cryptengine/hashchain.go:144-150 | the buffer filled field by field is the entry's fields followed by the previous hash |
| HashChain.ValidateLinks | cryptengine/hashchain.go:123-154 | succeeds exactly on chains whose entries are readable and linked, and otherwise tells what is wrong with the first entry that is not |
| HashChain.ValidateHashChain | cryptengine/hashchain.go:112-180 | succeeds exactly if a chain is there and linked, and our own replies are recorded where they claim; the error of the first of these that fails |
| HashChain.HashBindsHistory | cryptengine/hashchain.go:125-156 | equal hashes anywhere in two valid chains mean the same position and the same history |
| HashChain.HeadBindsHistory | cryptengine/hashchain.go:125-156 | two valid chains with the same head have the same length and entries |
| SortedMap.Sort | configclient/sortedmap/map.go:36-48 | for every order of iteration, the pairs of the map by ascending key |
| SortedMap.SortedIsUnique | configclient/sortedmap/map.go:36-48 | there is only one such list |
| SortedMap.ToMap | configclient/sortedmap/map.go:27-33 | the map of the pairs, later ones winning |
| SortedMap.SortRoundTrip | configclient/sortedmap/map.go:27-48 | sorting and converting back gives the map |
| SortedMap.Image | configclient/sortedmap/map.go:76-101 | the loop hashes the length-prefixed strings and the total length |
| SortedMap.ImageLayout | configclient/sortedmap/map.go:66-93 | where each key and value stands in the hashed bytes, after its length in eight bytes |
| SortedMap.ImageEnds | configclient/sortedmap/map.go:94-101 | the hashed bytes end with their total length |
| SortedMap.ImageBytesInjective | configclient/sortedmap/map.go:66-101 | two lists have the same hashed bytes exactly when they are equal |
| SortedMap.ImageIsCanonical | configclient/sortedmap/map.go:36-101 | two maps have the same hashed bytes exactly when they are equal |
| Utf8.DecodeEncoded | tui/textbuffer/textbuffer.go:245-251 | decoding an encoded rune gives the rune and its length |
| Utf8.DecodesFirstRune | tui/textbuffer/textbuffer.go:87-121 | decoding takes the rune whose encoding the bytes start with, and RuneError with one byte if there is none |
| Utf8.EncodedForm | tui/textbuffer/textbuffer.go:245-251 | the bytes of a rune, as in section 3 of RFC 3629 |
| Utf8.SplitJoin | tui/textbuffer/textbuffer.go:126-127 | splitting joined rows gives the rows |
| TextBuffer.ParseRow | tui/textbuffer/textbuffer.go:87-121 | the loop computes the line of the row's runes |
| TextBuffer.ExtendLine | tui/textbuffer/textbuffer.go:91-117 | what one rune adds to runes, characters and cells |
| TextBuffer.LineOfOk | tui/textbuffer/textbuffer.go:87-121 | the line is well formed in all three coordinate systems and has the row's runes, with a space before a leading combining rune |
| TextBuffer.ParsedLinesOk | tui/textbuffer/textbuffer.go:124-136 | every line of a new buffer is well formed, whatever the bytes |
| TextBuffer.LineDetermined | tui/textbuffer/textbuffer.go:75-85 | a well-formed line is determined by its runes |
| TextBuffer.CharsAreAllRunes | tui/textbuffer/textbuffer.go:151-163 | the characters partition the runes |
| TextBuffer.CellsInOrder | tui/textbuffer/textbuffer.go:105-113 | every character owns one cell of width 1 or two adjacent cells of widths 2 and 0, in order |
| TextBuffer.Buffer.constructor | tui/textbuffer/textbuffer.go:124-136 | the lines are the parsed rows, all well formed |
| TextBuffer.Buffer.GetChar | tui/textbuffer/textbuffer.go:151-163 | the runes of the character, none beyond the buffer; which negative coordinates are out of range |
| TextBuffer.Buffer.GetCell | tui/textbuffer/textbuffer.go:168-176 | each character is found at its cells with their widths; which negative coordinates are out of range |
| TextBuffer.Buffer.MaxLineLenCell | tui/textbuffer/textbuffer.go:223-233 | the maximum of the line lengths in cells |
| TextBuffer.Buffer.Write | tui/textbuffer/textbuffer.go:236-254 | the encoded lines joined by newlines |
| TextBuffer.WriteThenParse | tui/textbuffer/textbuffer.go:124-254 | writing and parsing again gives the same lines for every byte buffer |
| TextBuffer.WriteIsFaithful | tui/textbuffer/textbuffer.go:124-254 | writing gives back the input if and only if it is valid UTF-8 and no row starts with a combining rune |

## Left out

- Cipher internals, X25519, HKDF, NaCl box, JSON and ASN.1: uninterpreted or not part of this model; in particular the JSON length of the header beyond its field lengths, and opening the sealed header.
- The SQL key store in keydb: the model uses the in-memory store and does not claim that keydb behaves the same.
- Messages with status Reset or Error, UID message processing, nym addresses, MaxRecipientCount and the cleanup of old session keys.
- Decrypt on a session that is known without a state dereferences nil; the model has an error there, and no run reaches it.
- Probabilities of announcements: that a refresh is possible is proved, not how likely it is.
- RatchetTheorems.DeliveryIsExact: abstracts the packets to "intact or not", because EndToEnd.ContentArrives shows what intact packets do.
- Messaging.DecryptMessage: whether the packets verify under a message key is an input, because EndToEnd puts the packet parser in its place; UID messages and nym addresses are left out.
- HeaderPadding.NewHeader: counts fields, not JSON bytes, because escaping in the embedded UID message depends on the library.
- HeaderPadding.Generate: says nothing about the quality of the padding.
- ReceiveQueue.RowsConservedOverRuns: fetching and processing only; deleting a nym deletes its rows too.
- MsgDb.MsgDB.AddNym: of the checks on identities only that they are not empty is kept, because identity mapping is not part of this model; the same holds for AddContact.
- MsgDb.MsgDB.AddContact: unmapped and full names are left out, and the gray list counts as not black listed, so that RemoveContact is AddContact of a known contact.
- MsgDb.MsgDB.AddMessage: keeps only the columns that the queues depend on; subject, sender and recipient lines, signature flag and maximum delay are only copied by the program.
- MsgSending.MsgSend: takes the list of nyms as given, because looking it up is a plain query; nyms of the list are distinct as in the table.
- ReceiveQueue.EnsureContact: adding an unknown sender as a contact is one step that succeeds or fails; black listing is the only contact type kept.
- SortedMap.Sort: sorts by insertion in place of the library's algorithm, which does not matter by SortedIsUnique.
- Database failures, process spawning, pipes, logging, RPC and mail clients, wallet and service guard, mix relays, message fetching, command line and terminal widgets.
