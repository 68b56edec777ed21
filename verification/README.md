# Messenger X: verified models

A Dafny 4.11 model of the parts of Messenger X whose correctness spans several functions: the
end-to-end session (PQXDH, Double Ratchet, persisted client sessions), the server's delivery protocol,
and the exact components around them (binary codecs, stores and snapshots, session tokens, group
epochs, presence). `dafny verify dfyconfig.toml` checks everything.

Where the code changes fields in place the model is a class whose methods are proved equal to functions
on values (`View()`, `inner`); the theorems are about those functions. Protocols are step functions, and
every theorem about runs holds for all step sequences (`Runs.Run`).

## The end-to-end session

- `Suites`, `DoubleRatchet`, `RatchetSession`: the primitives as a record of functions with laws, the
  ratchet's transitions on values, and the `RatchetState` object that performs them field by field.
- `RatchetPair`: two parties and two FIFO channels. The invariant says who is ahead in root steps, which
  frames in flight belong to the chain the reader has, and which to the chain it will derive.
- `Conversation`: the same runs as two queues of texts, without any cryptography.
- `SymbolicSecrecy`: the same ratchet over free terms, so that "derivable" is a closure over the keys and
  the DH secrets an observer has. Forward secrecy is proved for the observer who has every DH secret.
- `SessionKeys`, `HandshakeSecrecy`: every key descends from what seeded its session, and what it takes to
  compute the output of the hybrid handshake.
- `Healing`: what a leaked state gives away later, and the point from which it gives away nothing.
- `OutOfOrder`: replayed, reflected, skipped and early frames.
- `FirstContact`, `LossyDelivery`: the client's reader over free terms, handed letters under any name, or the
  letters of one writer by a network that loses, reorders and repeats.
- `RatchetCodec`, `Cursors`, `Identity`: the two binary codecs.
- `Handshake`: PQXDH and the handoff that establishes the pair invariant.
- `Stepper`, `Client`, `ClientNetwork`: parse/step/print around every message, the client's session maps,
  and any number of users over a shared pre-key directory.
- `ClientSends`: when the client's calls succeed and how they fail, that nothing written goes unsent, and what
  sends take from the directory.

The laws assumed of the primitives: DH is commutative (section 6.1 of RFC 7748), the AEAD opens what it
sealed under the same key, nonce and associated data (section 2.8 of RFC 8439), ML-KEM-768 decapsulates
what it encapsulated and has keys and ciphertexts of fixed sizes (sections 7 and 8 of FIPS 203). A key
drawn for a rotation differs from the one it replaces. The two statements that every send succeeds
(`RunIsConversation`, `EveryTextIsSent`) also take primitives that never fail to seal or encapsulate; for the
others `EncryptSucceedsIff` and `OpeningFailsIff` say when sends fail. `FreeSuiteLawful` and `PlainLibraryLawful` show that
these laws can be met.

Results about the code as it is rather than as one might expect it:

- `decrypt` moves the root key before the AEAD check. In memory a rejected frame leaves the state alone
  exactly when it triggers no DH ratchet (`FailedDecryptKeepsStateIff`), and a genuine frame survives a
  forgery exactly under the condition of `GenuineFrameSurvivesIff`; `ForgeryStrandsFirstFrame` is a new
  session on which it does not. The persisted stepper discards the state of a failed call, and there no
  rejected call leaves a trace (`FailedCallLeavesNoTrace`).
- Not every frame that arrives before its turn is rejected, although the comment on the client's `decrypt`
  says that it throws on out-of-order delivery. A frame in flight is accepted exactly if it is the oldest,
  or the first one that makes the reader rotate (`AcceptedExactly`), and the second case loses what it
  overtook (`SkippedFramesAreLost`); `SkipAcrossRotationAccepted` is a run in which that happens. The comment
  holds for sessions used in one direction, as the client uses them (`OneWayAcceptsOldestOnly`), and there
  one lost frame ends the direction for good (`LossEndsTheDirection`).
- One rotation by the other side does not heal a leak (`FirstRotationDoesNotHeal`, `RotationStaysOpen`); a
  root step that mixes two unknown secrets does (`HealsAfterBothRotate`, `BothRotationsClose`), and nothing
  else does (`DerivableAfterLeakIff`).
- The name in a payload is not tied to the handshake it carries. A session that anybody opens under
  somebody's name is read as that person's exactly when the reader holds none for the name
  (`NewcomerReadIff`), and it then shuts the owner of the name out (`NewcomerShutsOwnerOut`). Both are over
  free terms, where frames of different sessions never open on each other (`ForeignSessionRejected`). Over
  byte strings `NewcomerHarmlessIff` says the same of the whole client and of the network invariant under
  the hypothesis that the newcomer's frame does not open on the session held; `NewcomerHarmsOpening` is a
  state in which the invariant is lost.
- `Hub::unregister` removes by device, although the comment above it in `ws_session` says that a newer
  session's slot is left alone. `OlderSessionEvictsNewer` is a run in which an older session's exit takes
  the newest session's entry, and `LosesEntryIff` says exactly when an entry is lost. The wake-up theorem
  holds nevertheless for every waiting session: one that lost its entry finds its channel closed.
- A request dropped between queueing a copy and notifying can leave mail in a waiting session's queue with
  no signal (`DroppedRequestStrandsMail`); without such a drop since the queue was last emptied that does
  not happen (`NoLostWakeUp`).

## The delivery protocol

`Messaging` and `Hub` hold the sequential code. `Delivery` splits it into atomic steps (one lookup, one
queued copy, one notification, one drain, one frame, one signal, one registration) taken in any order by
any number of requests, sockets and pulls while accounts, devices and groups are added and requests are
dropped between any two of their steps. `DeliveryProofs` shows what each step keeps, `DeliveryRuns` what
holds in every run, and `DeliveryRefinement` that the steps, uninterrupted, do what the sequential code
does. Copies carry a tag (origin and envelope number), and states a record of what was handed out over HTTP,
lost with a socket or left by a dropped request; these exist only for the statements.

## The components

`UserStore`, `PreKeyStore`, `GroupStore`, `Snapshot` (with every hash-map iteration order a parameter),
`Text` and `Tokens`, `Groups`, `Presence`; `Prelude`, `Collections` and `Runs` are shared vocabulary.
`PlainCodecsLawful` shows that the laws of the token codings can be met.

In `Groups` the key-derivation function is injective over an abstract type of secrets; nothing is assumed
about seeds and derived secrets being apart, since the labels tell them apart. The epoch counter wraps at
2^64. The module says nothing about secrecy: the seed is made of public identifiers.

## Model

| member | source | states |
|---|---|---|
| Prelude.LittleEndianRoundTrip | crates/mx-crypto/src/ratchet.rs:270-314 | a counter or length written in little-endian order is read back, for every 32-bit value |
| DoubleRatchet.NonceLayout | crates/mx-crypto/src/ratchet.rs:98-102 | twelve bytes: eight zeros and the counter, most significant byte first |
| DoubleRatchet.NonceInjective | crates/mx-crypto/src/ratchet.rs:98-102 | different counters give different nonces |
| DoubleRatchet.EncryptSucceedsIff | crates/mx-crypto/src/ratchet.rs:151-193 | for every suite, state and text a send succeeds exactly if there is a chain or a remote key and the AEAD seals under the message key, counter and own key that follow from them; otherwise the error is the missing key or the failed seal |
| DoubleRatchet.SendsOnChainIff | crates/mx-crypto/src/ratchet.rs:170-192 | on a chain in place a send changes that chain and its counter alone, and a failed seal changes nothing |
| DoubleRatchet.SendsOnNewChainIff | crates/mx-crypto/src/ratchet.rs:151-192 | without a chain a send draws a new key and advances the root by its DH with the remote key; a failed seal leaves the new chain in place |
| DoubleRatchet.DecryptSucceedsIff | crates/mx-crypto/src/ratchet.rs:197-245 | a frame is read exactly if the AEAD opens its body under the message key and nonce of the chain in place, or of a new one if its key is new or there is none |
| DoubleRatchet.ReadsOnNewChainIff | crates/mx-crypto/src/ratchet.rs:207-245 | a rotation advances the root by the DH with the frame's key, drops the sending chain and restarts the counter, whether or not the frame then opens |
| DoubleRatchet.FailedDecryptKeepsStateIff | crates/mx-crypto/src/ratchet.rs:207-239 | a decrypt that fails leaves the in-memory state unchanged exactly when the frame triggered no DH ratchet |
| RatchetSession.RatchetState.Initiator | crates/mx-crypto/src/ratchet.rs:109-126 | the initiator starts one root step in, with a sending chain and the given remote key |
| RatchetSession.RatchetState.Responder | crates/mx-crypto/src/ratchet.rs:132-142 | the responder starts at the shared root with no chain and no remote key |
| RatchetSession.RatchetState.Encrypt | crates/mx-crypto/src/ratchet.rs:151-193 | new state and frame are those of the transition function, including the state left behind by each error |
| RatchetSession.RatchetState.Decrypt | crates/mx-crypto/src/ratchet.rs:197-245 | new state and plaintext are those of the transition function, including short frames and failed authentication |
| RatchetSession.EncryptsToWire | crates/mx-crypto/src/ratchet.rs:185-193 | a frame on the wire is 32 bytes of public key and the sealed text, and there is one exactly when sealing succeeds |
| RatchetSession.DecryptsFromWire | crates/mx-crypto/src/ratchet.rs:197-245 | fewer than 32 bytes are refused without effect; otherwise the first 32 are the sender's key and the rest is opened under it |
| RatchetSession.RatchetState.ToBytes | crates/mx-crypto/src/ratchet.rs:251-274 | the appended buffer is the printed state that the codec theorems are about |
| RatchetSession.FromBytes | crates/mx-crypto/src/ratchet.rs:277-317 | the cursor parser returns a new ratchet with exactly the parsed state, or the truncation error |
| RatchetSession.DecryptsFrameBytes | crates/mx-crypto/src/ratchet.rs:189-205 | splitting a framed message at the key length recovers the frame that was joined |
| RatchetPair.StartInv | crates/mx-crypto/src/ratchet.rs:109-142 | a fresh initiator and responder satisfy the pair invariant |
| RatchetPair.StepKeepsInv | crates/mx-crypto/src/ratchet.rs:151-245 | every send and every in-order delivery by either party, old-chain frames in flight included, keeps the pair invariant |
| RatchetPair.EveryDeliveryDecrypts | crates/mx-crypto/src/ratchet.rs:151-245 | under every interleaving no delivery is rejected, and in each direction the delivered plaintexts are the sent ones in order, up to those in flight |
| RatchetPair.DrainDeliversPending | crates/mx-crypto/src/ratchet.rs:197-245 | delivering all that is in flight hands over exactly what was in flight and leaves nothing |
| Conversation.RunIsConversation | crates/mx-crypto/src/ratchet.rs:151-245 | if the AEAD seals everything, every run sends exactly what its steps write, the responder from its first read on, and delivers exactly the next text each time |
| RatchetPair.Lockstep | crates/mx-crypto/src/ratchet.rs:154-165 | root-step counts differ by at most one; when equal the roots agree, one side has no sending chain, that side's next send advances the root key by one root step and the other side's leaves it as it is; when one is ahead its root is the other's advanced by the DH of the current keys |
| SymbolicSecrecy.FreeSuiteLawful | crates/mx-crypto/src/ratchet.rs:65-93 | free terms satisfy the laws assumed of the primitives |
| SymbolicSecrecy.DerivableIffBuilds | crates/mx-crypto/src/ratchet.rs:65-93 | membership in every closed set is the same as being built from held keys and known secrets rule by rule |
| SymbolicSecrecy.ForwardSecrecy | crates/mx-crypto/src/ratchet.rs:151-245 | whatever a party sends or is made to read, its whole state, with every DH output added, yields no message key it has used |
| SymbolicSecrecy.PairForwardSecrecy | crates/mx-crypto/src/ratchet.rs:151-245 | the same for both parties at every point of every run of a pair |
| SymbolicSecrecy.HeldChainDerivableIff | crates/mx-crypto/src/ratchet.rs:82-93 | on a chain the party holds, a message key is derivable, whatever DH secrets are known, exactly when it is at or beyond the held position |
| SymbolicSecrecy.NoMessageKeyReused | crates/mx-crypto/src/ratchet.rs:167-187 | no two frames of a run, by either party, are sealed under the same message key |
| SymbolicSecrecy.NoncesRepeatIff | crates/mx-crypto/src/ratchet.rs:95-102 | two frames of a party share a nonce exactly when their positions on their chains are equal modulo 2^32, and their keys differ then too |
| SymbolicSecrecy.GenuineFrameSurvivesIff | crates/mx-crypto/src/ratchet.rs:207-239 | after a rejected frame on a ratchet kept in memory, a readable genuine frame stays readable exactly when the forgery caused no DH ratchet or carried the genuine frame's key |
| SymbolicSecrecy.ForgeryStrandsFirstFrame | crates/mx-crypto/src/ratchet.rs:207-239 | a new session on which a rejected frame moves the responder's in-memory state and makes the initiator's first frame, readable before, unreadable |
| SessionKeys.ForeignSessionRejected | crates/mx-crypto/src/ratchet.rs:197-245 | whatever two parties of differently seeded sessions were made to send or read, each rejects every box under a key the other has sealed with |
| SessionKeys.SeedProtectsSession | crates/mx-crypto/src/ratchet.rs:63-93 | while the secret that seeded a session cannot be computed, neither can any key a party of it uses, whatever it is made to send or read |
| HandshakeSecrecy.RootsAgreeIff | crates/mx-crypto/src/pqxdh.rs:98-202 | the responder reaches the initiator's root exactly when the bundle used consists of the responder's own keys, one-time key or not |
| HandshakeSecrecy.RootDerivableIff | crates/mx-crypto/src/pqxdh.rs:12-15 | the root can be computed exactly by whoever knows a secret behind each DH output taken, the one-time one included if there is one, and the KEM secret |
| HandshakeSecrecy.BrokenDhIsNotEnough | crates/mx-crypto/src/pqxdh.rs:12-15 | with every DH secret known but not the KEM secret, neither the root nor any key of the session can be computed |
| HandshakeSecrecy.BrokenKemIsNotEnough | crates/mx-crypto/src/pqxdh.rs:12-15 | with any KEM secrets known, neither the root nor any key of the session can be computed while one DH output has two unknown secrets |
| HandshakeSecrecy.FirstKeyDerivableIff | crates/mx-crypto/src/session.rs:19-32 | the key of the initiator's first frame can be computed exactly by whoever can compute the root and knows a secret of the first root step |
| Healing.DerivableAfterLeakIff | crates/mx-crypto/src/ratchet.rs:63-80 | in every run, whichever party's whole state leaks and whatever secrets are known, a key used on a later chain is derivable exactly when every root step from the leaked root to that chain mixed in a known secret |
| Healing.HealsAfterBothRotate | crates/mx-crypto/src/ratchet.rs:5-9 | after a leak of one party's whole state, once both current secrets are unknown to the observer, no frame sealed from then on by a party that holds the latest root is open to it |
| Healing.FirstRotationDoesNotHeal | crates/mx-crypto/src/ratchet.rs:154-165 | the first frame the other side seals after rotating against a leaked secret is still open to whoever has the leaked state |
| Healing.RotationStaysOpen | crates/mx-crypto/src/ratchet.rs:154-165 | a concrete run after which one side's state leaks and the other side's rotated answer is open to it |
| Healing.BothRotationsClose | crates/mx-crypto/src/ratchet.rs:5-9 | a concrete run in which both sides rotate after a leak and the next frame is closed to it |
| OutOfOrder.ReplaysAndReflectionsRejected | crates/mx-crypto/src/ratchet.rs:197-245 | whatever a party was made to send or read, it rejects every box under a key it has read or sent with |
| OutOfOrder.AcceptedExactly | crates/mx-crypto/src/ratchet.rs:197-245 | in every run and for every frame ever sent: a delivered one is rejected when it comes again, one in flight is accepted exactly if it is the oldest or the first in flight that makes the reader rotate |
| OutOfOrder.SkippedFramesAreLost | crates/mx-crypto/src/ratchet.rs:211-220 | a frame accepted before its turn makes every frame it overtook unreadable |
| OutOfOrder.SkipAcrossRotationAccepted | crates/mx-crypto/src/ratchet.rs:211-220 | a concrete run in which the second frame in flight is accepted first, and the first one is then rejected |
| OutOfOrder.OneWayAcceptsOldestOnly | web/src/crypto.ts:115-131 | in a session used in one direction only, as the client uses it, the reader accepts the oldest frame in flight and no other frame ever sent |
| FirstContact.NewcomerReadIff | web/src/crypto.ts:117-131 | whatever a reader was handed before, the first payload of a new session under any name is read as from that name exactly when no session is held for it, and changes nothing otherwise |
| FirstContact.FirstSessionStays | web/src/crypto.ts:117-131 | the first session stored under a name is the only one ever read under it: a box of any other session is refused after any further payloads |
| FirstContact.NewcomerShutsOwnerOut | web/src/crypto.ts:117-131 | once a newcomer's session is read under a name, no frame of another session of the name's owner is ever read |
| LossyDelivery.ReadsExactlyNext | web/src/crypto.ts:90-131 | however a network loses, reorders and repeats one writer's payloads, the texts read are a prefix of those written and exactly the next payload is readable |
| LossyDelivery.LossEndsTheDirection | web/src/crypto.ts:115-131 | once a payload is lost none from it on is ever read, all later ones are refused, and when all before it are read the stored session never changes again |
| RatchetCodec.RoundTrip | crates/mx-crypto/src/ratchet.rs:251-317 | every state, for all option shapes and counters, is read back from its blob whatever follows it |
| RatchetCodec.PrintLayout | crates/mx-crypto/src/ratchet.rs:247-274 | the printed state has the documented layout: both keys first, then for each of the three options a flag and the key or a flag alone, each at its offset, both counters last |
| RatchetCodec.ParsesIff | crates/mx-crypto/src/ratchet.rs:277-317 | for every byte string, whether it is read and as which fields: two keys, three options each after the other, two counters, anything after that |
| RatchetCodec.ParseExtends | crates/mx-crypto/src/ratchet.rs:277-317 | an accepted blob stays accepted with the same value when bytes follow it, and its canonical print is no longer than it |
| RatchetCodec.StrictPrefixRejected | crates/mx-crypto/src/ratchet.rs:277-284 | every strict prefix of a printed state is rejected as truncated |
| RatchetCodec.PrintPrefixFree | crates/mx-crypto/src/ratchet.rs:251-274 | no printed state is a prefix of another state's print |
| Cursors.TakeAt | crates/mx-crypto/src/ratchet.rs:278-284 | the cursor read returns the next bytes and advances, or fails without moving past the end |
| Cursors.TakeOptionAt | crates/mx-crypto/src/ratchet.rs:291-305 | a flag byte of one is followed by 32 bytes, any other flag by nothing |
| Identity.RoundTrip | crates/mx-crypto/src/identity.rs:198-279 | generated secrets, with or without a one-time key, are read back from their blob |
| Identity.PrintLayout | crates/mx-crypto/src/identity.rs:198-219 | three keys, the one-time key behind its flag, and both KEM keys behind their lengths, each at its offset |
| Identity.ParsesIff | crates/mx-crypto/src/identity.rs:224-279 | for every byte string, which of the three errors it gives or which secrets it restores, public halves and signature made again |
| Identity.ParseExtends | crates/mx-crypto/src/identity.rs:224-279 | an accepted blob of secrets stays accepted with the same value when bytes follow it |
| Identity.StrictPrefixRejected | crates/mx-crypto/src/identity.rs:224-231 | every strict prefix of a blob of generated secrets is rejected |
| Identity.ToBytes | crates/mx-crypto/src/identity.rs:198-219 | the appended buffer is the printed form |
| Identity.FromBytes | crates/mx-crypto/src/identity.rs:224-279 | the cursor parser agrees with the parsing function on every input, errors included |
| Handshake.KeyMaterialInjective | crates/mx-crypto/src/pqxdh.rs:134-142 | the concatenated key material determines each DH output, the KEM secret and whether a one-time key took part |
| Handshake.InitiatorMixes | crates/mx-crypto/src/pqxdh.rs:120-152 | the initiator's root is derived from its three or four DH outputs and the encapsulated secret in this order, and its message carries its keys, the ciphertext and the use of a one-time key |
| Handshake.ResponderMixes | crates/mx-crypto/src/pqxdh.rs:164-202 | the responder's root is derived from the same outputs from its side and the decapsulated secret |
| Handshake.InitiatorFailsIff | crates/mx-crypto/src/pqxdh.rs:98-131 | the initiator's four failures, each exactly, in the order of its checks |
| Handshake.SessionsAreSeeded | crates/mx-crypto/src/session.rs:19-44 | both ratchets start from the handshake's root, towards the signed pre-key and from its secret |
| Handshake.PlainLibraryLawful | crates/mx-crypto/src/identity.rs:156-190 | a library with outputs of the fixed sizes meets the laws assumed of the primitives |
| Handshake.RunInitiator | crates/mx-crypto/src/pqxdh.rs:98-157 | key material gathered piece by piece gives the root and the message of the handshake function, or its error |
| Handshake.RunResponder | crates/mx-crypto/src/pqxdh.rs:164-202 | the responder's gathered key material gives the root of the handshake function, or its error |
| Handshake.GeneratedFields | crates/mx-crypto/src/identity.rs:291-329 | every field of a generated bundle and its secrets: the device, the public halves of the given secrets, the algorithm tags, and both signatures over exactly the keys beside them |
| Handshake.GeneratedSignaturesVerify | crates/mx-crypto/src/identity.rs:333-351 | both signed keys of a generated bundle pass every verifier that accepts what the signing key signs |
| Handshake.GeneratedSecretsConsistent | crates/mx-crypto/src/identity.rs:291-329 | generated secrets have matching halves and fixed sizes, and the bundle publishes them |
| Handshake.SessionsAgree | crates/mx-crypto/src/session.rs:19-44 | for all keys, with or without the one-time key and with the secrets taken through their blob, both sides reach one root and their ratchets are a session start |
| Handshake.ResponderFailsIff | crates/mx-crypto/src/pqxdh.rs:164-202 | the responder's three failures, each exactly: a used one-time key it does not have, a ciphertext of the wrong length, failed decapsulation |
| Stepper.RatchetEncrypt | crates/mx-crypto-wasm/src/lib.rs:132-139 | parse, encrypt, print on a local object is the bytes-to-bytes step |
| Stepper.RatchetDecrypt | crates/mx-crypto-wasm/src/lib.rs:143-150 | parse, decrypt, print on a local object is the bytes-to-bytes step |
| Stepper.CallRefines | crates/mx-crypto-wasm/src/lib.rs:132-150 | one stored step has the in-memory outcome and stores the in-memory state on success, the old state on failure |
| Stepper.PersistedRefinesInMemory | crates/mx-crypto-wasm/src/lib.rs:132-150 | over any calls, storing around every step gives the outcomes and final state of an in-memory ratchet that makes only the successful calls |
| Stepper.FailedCallLeavesNoTrace | crates/mx-crypto-wasm/src/lib.rs:143-150 | a failing call inserted anywhere changes neither the stored state nor any other outcome |
| Client.ClientSession.Encrypt | web/src/crypto.ts:90-108 | session maps, directory and payload after a send are those of the client transition, with every error path |
| Client.ClientSession.Decrypt | web/src/crypto.ts:117-131 | session map and plaintext after a receive are those of the client transition; a failure stores nothing |
| ClientSends.OpeningFailsIff | web/src/crypto.ts:90-100 | the errors of a send that has to open a session, each exactly |
| ClientSends.ContinuesExactly | web/src/crypto.ts:101-108 | on a stored session a send is one step of the stored ratchet, stored back, with the handshake message only if it has not been sent, and touches no directory |
| ClientSends.OpensExactly | web/src/crypto.ts:90-108 | an opening send consumes the listed one-time key, starts a ratchet from the handshake and sends its message along |
| ClientSends.DirectoryAfterSend | web/src/crypto.ts:82-100 | every opening send to a listed peer leaves its bundle without a one-time key, even if it fails later; no other send changes the directory |
| ClientSends.DecryptFailsIff | web/src/crypto.ts:117-131 | the errors of reading before there is a ratchet, each exactly, and that no failed read changes anything |
| ClientSends.ReadsExactly | web/src/crypto.ts:117-131 | reading is one step of the stored or newly seeded ratchet, stored under the payload's name on success alone |
| ClientSends.SendSucceedsIff | web/src/crypto.ts:90-108 | if the primitives do not fail, in every state of the network a send succeeds exactly if a session is held or the peer is listed |
| ClientSends.EveryTextIsSent | web/src/crypto.ts:90-131 | if the primitives do not fail, in every run everything written between two users is sent and each delivery hands over the next text from its sender |
| ClientSends.OneTimeKeysUsedOnce | web/src/crypto.ts:82-100 | over every run the sends that use a one-time key of a user, and the one still listed, are no more than the one listed before and those published since |
| ClientNetwork.StepKeepsInv | web/src/crypto.ts:90-131 | sends, deliveries, republications, other people's fetches and garbage keep the network invariant |
| ClientNetwork.EndToEnd | web/src/crypto.ts:90-131 | in every run each user decrypts exactly the (sender, text) pairs sent to it, in order, up to those in flight, none is rejected, and only the first payload of a direction carries the handshake message |
| ClientNetwork.NewcomerHarmlessIff | web/src/crypto.ts:117-131 | given that its frame does not open on a session the reader holds for the name, a session that anybody opens under a user's name is accepted as that user's exactly when the reader holds none for it, and the network keeps its invariant exactly when it does |
| ClientNetwork.NewcomerHarmsOpening | web/src/crypto.ts:117-131 | at the start of a network of two users a third person's payload under a user's name is read as that user's and the invariant is lost |
| PreKeyStore.InMemoryPreKeyStore.Fetch | crates/mx-storage/src/memory.rs:246-257 | hands out the bundle and takes its one-time key out of the stored one, or reports a missing device |
| PreKeyStore.DirectoryFollowsHistory | crates/mx-storage/src/memory.rs:233-264 | a device is listed exactly when a publication of it is in force, as published but for a one-time key fetched since |
| PreKeyStore.HandsOutLatestOnce | crates/mx-storage/src/memory.rs:246-257 | a fetch returns a one-time key exactly when the publication in force carries it and nobody fetched since |
| PreKeyStore.FetchAnswersHistory | crates/mx-storage/src/memory.rs:246-257 | a fetch answers the whole bundle in force, or that there is none, and changes nothing but that bundle's one-time key |
| PreKeyStore.OneTimeKeyBudget | crates/mx-storage/src/memory.rs:233-264 | one-time keys handed out and one-time keys in stock never exceed the publications that carried one |
| PreKeyStore.ExportImport | crates/mx-storage/src/memory.rs:222-230 | importing an export restores the directory for every iteration order |
| UserStore.InMemoryUserStore.CreateUser | crates/mx-storage/src/memory.rs:134-164 | an account is added exactly when its id is new and it shares no username, email or phone with another |
| UserStore.InMemoryUserStore.RegisterDevice | crates/mx-storage/src/memory.rs:174-191 | a device is appended to its owner's list, or refused for an unknown owner or a repeated id |
| UserStore.InMemoryUserStore.DeleteUser | crates/mx-storage/src/memory.rs:120-129 | the account and its devices go, and the removed device ids are returned in order |
| UserStore.InMemoryUserStore.Find | crates/mx-storage/src/memory.rs:61-82 | the first account in iteration order with the given username, email or phone |
| UserStore.FindsExactly | crates/mx-storage/src/memory.rs:61-82 | a lookup gives an account with exactly the given username, email or phone, and nothing only if no account has it |
| UserStore.ClashIff | crates/mx-storage/src/memory.rs:142-161 | two accounts clash exactly if some username, email or phone would find both |
| UserStore.EditsOnly | crates/mx-storage/src/memory.rs:84-117 | profile and password edits change the fields they name of the account they name |
| UserStore.InMemoryUserStore.Import | crates/mx-storage/src/memory.rs:51-58 | accounts keyed by id, devices appended to their owner's list in the given order |
| UserStore.CreateKeepsOk | crates/mx-storage/src/memory.rs:134-164 | creation keeps usernames, emails and phones pairwise unique |
| UserStore.RegisterKeepsOk | crates/mx-storage/src/memory.rs:174-191 | registration keeps device lists without repetition |
| UserStore.LookupsIgnoreOrder | crates/mx-storage/src/memory.rs:61-82 | in a store with unique identifiers a lookup gives the same answer for every iteration order, and none exactly when nobody matches |
| UserStore.DeletedIsForgotten | crates/mx-storage/src/memory.rs:61-129 | after a deletion every lookup and device list is as before, but for the deleted account |
| UserStore.ExportImport | crates/mx-storage/src/memory.rs:43-58 | importing an export restores accounts and per-user device order for every iteration order |
| GroupStore.ExportImport | crates/mx-storage/src/memory.rs:336-352 | importing an export restores the groups for every iteration order |
| GroupStore.InMemoryGroupStore.CreateGroup | crates/mx-storage/src/memory.rs:357-370 | a new group records the members as given, an existing one is left alone |
| Snapshot.Capture | crates/mx-storage/src/persist.rs:39-56 | the snapshot lists the exports of the three stores |
| Snapshot.Apply | crates/mx-storage/src/persist.rs:59-75 | the three stores hold exactly what the snapshot lists |
| Snapshot.CaptureThenApply | crates/mx-storage/src/persist.rs:39-75 | applying a capture restores every store, whatever the iteration orders |
| Snapshot.ReachableStores | crates/mx-storage/src/memory.rs:43-190 | over every history of creations, deletions, edits, publications and restarts identifiers stay unique, lookups ignore iteration order, and a further restart changes nothing |
| Messaging.InMemoryMessageQueue.Enqueue | crates/mx-storage/src/memory.rs:296-300 | one envelope at the end of one device's queue |
| Messaging.InMemoryMessageQueue.Drain | crates/mx-storage/src/memory.rs:302-309 | the whole queue of one device in order, leaving it empty and the others alone |
| Messaging.ResolveExact | crates/mx-messaging/src/lib.rs:150-170 | an envelope resolves to each device of its audience exactly once, repeated group members included |
| Messaging.FanOutExact | crates/mx-messaging/src/lib.rs:106-129 | one copy at the end of the queue of each addressed device, no change elsewhere, and as many devices as copies |
| Messaging.MessagingService.ResolveDevices | crates/mx-messaging/src/lib.rs:150-170 | the nested loops compute the resolution function |
| Messaging.MessagingService.Ingest | crates/mx-messaging/src/lib.rs:106-129 | an empty ciphertext or an unknown group changes nothing; otherwise the stamped envelope is queued for the resolved devices and their number returned |
| Messaging.IngestExact | crates/mx-messaging/src/lib.rs:106-129 | both refusals exactly; otherwise one copy at the back of each addressed device's queue, equal to the envelope but for a missing timestamp, nothing elsewhere, and their number |
| Messaging.MessagingService.Pull | crates/mx-messaging/src/lib.rs:135-137 | the device's queue is handed over and emptied |
| Hub.HubRegistry.RegisterSession | crates/mx-server/src/main.rs:113-117 | the device's entry becomes the new session with no signal pending |
| Hub.HubRegistry.UnregisterDevice | crates/mx-server/src/main.rs:120-122 | the device's entry goes, whichever session owns it |
| Hub.HubRegistry.NotifyDevice | crates/mx-server/src/main.rs:125-129 | one more signal for the device's session, nothing without one |
| Hub.HubRegistry.NotifyAll | crates/mx-server/src/main.rs:246-252 | the loop over the devices is one notification for each, in order |
| Hub.ReceiveExact | crates/mx-server/src/main.rs:1017-1030 | a session is woken while a signal is pending, and finds its channel closed exactly if none is and it has lost its entry |
| Hub.NotifyEachCounts | crates/mx-server/src/main.rs:246-252 | notifying a list signals a registered session once per occurrence of its device |
| Hub.DeliverPending | crates/mx-server/src/main.rs:230-242 | the queue is emptied and the socket gets the longest prefix it accepts, in order; the answer says whether that was all |
| DeliveryProofs.NextPhaseOwes | crates/mx-server/src/main.rs:1065-1069 | an ingest that moves on still owes every notification it owed, but for the one it gives, though it resolves the recipient again after queueing |
| DeliveryProofs.StepKeepsWakeInv | crates/mx-server/src/main.rs:1002-1029 | every atomic step keeps the wake-up invariant |
| DeliveryProofs.StepKeepsOrderInv | crates/mx-messaging/src/lib.rs:106-129 | every atomic step keeps each ingest's copies numbered increasingly in every queue, on exactly the devices it has done |
| DeliveryRuns.NoLostWakeUp | crates/mx-server/src/main.rs:1002-1029 | in every run a session that waits while its device has mail, nobody owes it a notification and no request was dropped owing one since the queue was last emptied, has a signal pending if it holds the entry, and never blocks |
| DeliveryRuns.DroppedRequestStrandsMail | crates/mx-server/src/main.rs:766-782 | a concrete run in which a request dropped between queueing and notifying leaves a registered, waiting session with mail and no signal |
| DeliveryRuns.QuietMeansDelivered | crates/mx-server/src/main.rs:95-104 | once ingests are idle, none dropped in debt, and a registered session waits without a signal, its device's queue is empty and all its history was handed out |
| DeliveryRuns.QueueConserved | crates/mx-storage/src/memory.rs:296-309 | in every run the batches handed out, in order, followed by the queue are the enqueue history, without repetition |
| DeliveryRuns.EachCopyHandedOutOnce | crates/mx-storage/src/memory.rs:302-309 | in every run what was handed out for a device is split, without overlap or repetition, among HTTP pulls and its sessions |
| DeliveryRuns.SentAtMostOnce | crates/mx-server/src/main.rs:230-242 | a socket carries a beginning of what its session took, without repetition, and shares no copy with another session of the device or with an HTTP pull |
| DeliveryRuns.LostOnlyWithSocket | crates/mx-server/src/main.rs:230-242 | in every run what a session took is what its socket accepted, what it has in hand and what was lost, and something was lost exactly if its socket failed on a frame |
| DeliveryRuns.FirstInFirstOut | crates/mx-server/src/main.rs:1055-1081 | on every device the copies from one socket are queued, and put on any one socket, in the order in which their envelopes were accepted |
| DeliveryRuns.LosesEntryIff | crates/mx-server/src/main.rs:113-122 | a session loses its entry exactly by a newer connection of the device or by any leaving session of the device deregistering |
| DeliveryRuns.OlderSessionEvictsNewer | crates/mx-server/src/main.rs:1094-1098 | a concrete run in which an older session's exit removes the newest session's entry, which then stops as if replaced |
| DeliveryRefinement.IngestAlone | crates/mx-server/src/main.rs:1065-1069 | an uninterrupted ingest leaves the queues as the sequential fan-out does, and the hub as one notification per resolved device does |
| DeliveryRefinement.RequestAlone | crates/mx-server/src/main.rs:767-781 | a request that nobody interrupts, from the moment it comes in, has the queues, notifications and verdict of the sequential ingest, refusals included |
| DeliveryRefinement.SocketAlone | crates/mx-server/src/main.rs:1065-1085 | the same for an envelope on a waiting socket, and the session waits again afterwards |
| DeliveryRefinement.ConnectDelivers | crates/mx-server/src/main.rs:1001-1010 | a device that connects gets its queue in order, owns its entry and waits with an empty channel |
| DeliveryRefinement.SessionEnds | crates/mx-server/src/main.rs:1017-1098 | hanging up removes the device's entry; a closed channel ends the session and removes nothing; an open one without signals does neither |
| DeliveryRefinement.PullAlone | crates/mx-server/src/main.rs:785-790 | an HTTP pull hands over the whole queue and touches no session |
| DeliveryRefinement.SignalDelivers | crates/mx-server/src/main.rs:1017-1024 | one pending signal suffices for the session to put its whole queue on the socket in order and wait again |
| Text.HexRoundTrip | crates/mx-groups/src/lib.rs:249-252 | lower-case hexadecimal is read back |
| Text.HexAt | crates/mx-groups/src/lib.rs:249-252 | each byte is two lower-case digits, the higher first |
| Text.DecimalShifts | crates/mx-groups/src/lib.rs:206 | appending a digit multiplies by ten and adds it |
| Text.DecimalRoundTrip | crates/mx-groups/src/lib.rs:206 | decimal numbers are read back |
| Text.I64RoundTrip | crates/mx-auth/src/lib.rs:277-290 | every 64-bit expiry, negatives included, is printed without a dot and read back |
| Text.I64ReadIff | crates/mx-auth/src/lib.rs:290 | which decimal texts with or without a sign are read as 64-bit numbers |
| Text.UuidLayout | crates/mx-auth/src/lib.rs:277-279 | the hyphens' places, and the digits of the sixteen bytes in order |
| Text.UuidSpellingsRead | crates/mx-auth/src/lib.rs:288-289 | plain, hyphenated, braced and URN spellings are all read |
| Text.UuidRoundTrip | crates/mx-auth/src/lib.rs:277-289 | the hyphenated form of a UUID has no dot and is read back by the general parser |
| Tokens.PayloadRoundTrip | crates/mx-auth/src/lib.rs:277-300 | decoding an encoded payload gives the claims, for all UUIDs and expiries |
| Tokens.PayloadReadIff | crates/mx-auth/src/lib.rs:282-300 | a string is read as some claims exactly when it is the version and three dot-free texts that parse as their user, device and expiry, with dots between |
| Tokens.OtherPartCountsRefused | crates/mx-auth/src/lib.rs:282-300 | dot-free parts that are not four, or do not begin with the version, are refused |
| Tokens.PayloadExactly | crates/mx-auth/src/lib.rs:282-300 | a further part after the expiry, or an expiry left out, makes a genuine payload unreadable |
| Tokens.PlainCodecsLawful | crates/mx-auth/src/lib.rs:226-256 | plain codings meet the laws assumed of the MAC, the token coding and the text coding |
| Tokens.IssueToken | crates/mx-auth/src/lib.rs:216-231 | the assembled buffer gives the token for the saturated expiry |
| Tokens.IssuedTokenVerifies | crates/mx-auth/src/lib.rs:216-265 | verifying an issued token at any time gives its claims exactly while the time is below the saturated sum of issue time and lifetime, and is refused otherwise |
| Tokens.IssuedTokenLasts | crates/mx-auth/src/lib.rs:216-265 | an issued token is accepted while the time is below issue time plus lifetime, and never at the last representable instant |
| Tokens.VerifiesIff | crates/mx-auth/src/lib.rs:238-265 | of all strings exactly the codings of a payload and its MAC are accepted whose text spells the claims, before their expiry |
| Tokens.OnlyIssuedTokensVerify | crates/mx-auth/src/lib.rs:238-265 | unless a MAC was forged, an accepted string is an issued token character for character, with that token's claims and unexpired |
| Groups.InfoInjective | crates/mx-groups/src/lib.rs:238-252 | the kind, epoch and devices of a change are determined by its info string |
| Groups.InfoSpelt | crates/mx-groups/src/lib.rs:242-252 | the info strings of a change of one device and of the message key, spelt out |
| Groups.KeyInfoApart | crates/mx-groups/src/lib.rs:203-210 | the message-key label never equals a change's info string |
| Groups.FreeIsInjective | crates/mx-groups/src/lib.rs:242-262 | free terms satisfy the law assumed of the key derivation |
| Groups.DeriveSecret | crates/mx-groups/src/lib.rs:242-262 | the loop over the changed devices builds the info string and derives from it |
| Groups.Group.constructor | crates/mx-groups/src/lib.rs:138-158 | epoch zero, the creator as only member, a secret derived from id and creator |
| Groups.Group.Add | crates/mx-groups/src/lib.rs:164-174 | a member is refused without change; anyone else joins and the epoch and secret advance |
| Groups.Group.Remove | crates/mx-groups/src/lib.rs:181-196 | a stranger and the last member are refused without change; anyone else leaves and the epoch and secret advance |
| Groups.Group.Advance | crates/mx-groups/src/lib.rs:226-233 | next epoch, and the secret derived from the previous one for it |
| Groups.Group.CurrentEpochKey | crates/mx-groups/src/lib.rs:203-210 | the key derived from the current secret under the message-key label and epoch |
| Groups.ChangeEffect | crates/mx-groups/src/lib.rs:164-196 | a change is refused without effect, or makes the one device a member or no member, in the next epoch with the derived secret |
| Groups.MembersFollowHistory | crates/mx-groups/src/lib.rs:138-196 | over every history a device is a member exactly if it created the group or asked to join and has not been removed by an accepted change since |
| Groups.HistoryFollowsLog | crates/mx-groups/src/lib.rs:164-196 | refused changes leave no trace: a group is the one its accepted changes alone lead to |
| Groups.HistoryBinding | crates/mx-groups/src/lib.rs:226-262 | two groups hold the same secret exactly when id, creator and accepted changes agree, and then epoch and members agree |
| Groups.KeyBinding | crates/mx-groups/src/lib.rs:203-210 | equal epoch keys mean equal groups, and no epoch key is any group's epoch secret |
| Groups.EpochsApart | crates/mx-groups/src/lib.rs:226-233 | along one group's life, secrets and keys differ between moments separated by an accepted change |
| Groups.GroupInvariant | crates/mx-groups/src/lib.rs:97-118 | a group always has a member, keeps its id, and its epoch counts the accepted changes |
| Presence.MemoryStore.Sweep | crates/mx-presence/src/lib.rs:140-146 | exactly the live entries remain |
| Presence.MemoryStore.Remove | crates/mx-presence/src/lib.rs:131-138 | the typist goes, and with the last one the conversation |
| Presence.PresenceService.StatusOf | crates/mx-presence/src/lib.rs:201-212 | online exactly while an entry expires after now |
| Presence.PresenceService.WhoIsTyping | crates/mx-presence/src/lib.rs:228-230 | lists each typist whose entry expires after now once, and nobody else, in whatever order the entries are visited |
| Presence.ReadsFollowHistory | crates/mx-presence/src/lib.rs:195-239 | with a clock that does not go back, every read agrees with the last write not cleared and not expired |
| Presence.SweepTransparency | crates/mx-presence/src/lib.rs:140-146 | runs that differ only in their sweeps answer every read alike |
| Presence.SweepInvisibleIff | crates/mx-presence/src/lib.rs:234-239 | a sweep is invisible to later online reads, and to later typing reads, of every store exactly when their clock is not behind the sweep's |
| Presence.ConversationsHaveTypists | crates/mx-presence/src/lib.rs:131-146 | in every run no conversation is kept without an entry |
| Presence.SweepReclaims | crates/mx-presence/src/lib.rs:140-146 | what a sweep leaves is live and unchanged, and no empty conversation is kept |

## Left out

- Insides of X25519, Ed25519, ML-KEM, HKDF, HMAC, ChaCha20-Poly1305, Argon2: functions with the stated laws; computational security and zeroization are not stated.
- Base64, UTF-8 and JSON framing: one-to-one codings, or fields carried as values; wire envelopes and their codec are field-for-field mappings.
- Verification of signed pre-key signatures: the handshake functions leave it to their caller.
- Runs of a two-way session that go on after a frame was lost or skipped: they deliver in order, and `OutOfOrder` says what any other frame meets at each point of them. For one direction, as the client uses sessions, `LossyDelivery` covers such runs.
- Healing against an observer who also sends: the runs of `Healing` deliver what the two parties sent.
- One-sided session resets, several devices per user in the client model, and overlapping sends to one peer from one client.
- Client runs that go on after a session opened under another's name was accepted: payloads that are rejected are among the runs, `NewcomerHarmlessIff` says which ones are not, and `FirstContact` follows one reader beyond that point.
- Account deletion, and with it queue purges, in the delivery runs; they are in the store models. The maintenance switch and timestamps are not part of those runs.
- Delivery progress: that a woken session is eventually scheduled is not stated, only that its signal suffices.
- Device, user and message identifiers are numbers outside `Groups` and `Tokens`, where UUIDs are 16 bytes; the UUID and integer parsers of the libraries are modelled on their documented formats.
- Secrecy of group epochs and exclusion of removed members: the epoch seed is built from public identifiers.
- Group state serialization, sizes of integers other than the ratchet counters, length prefixes, token expiries and group epochs, and overflow of presence deadlines.
- Axum routing, sockets, files, environment, the Postgres and Redis skeletons, password policy, resets, admin handlers, mx-ai and the web user interface.
