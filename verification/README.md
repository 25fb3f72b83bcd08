# Verification of the Tor messenger's protocols

A Dafny model of the messenger's Double Ratchet engine, its two session stores, its multi-device
orchestrator, the relay server and the client's three parsers (WebSocket frames, HTTP responses,
contact URIs), with proofs about whole runs of each. `dafny verify dfyconfig.toml` checks everything.

## How the project is built

**Ratchet.** Cryptography is symbolic: `SymbolicCrypto` has key pairs numbered by a counter,
Diffie-Hellman as an unordered pair, key derivation as free constructors and boxes as sealed terms.
`Ratchet` says as functions what each engine routine does to a session; `CryptoEngine.dfy` (module
`Engine`) is the engine as code, methods that overwrite session objects and call a store, each proved
to do what those functions say. `Protocol` is the two-party system: Alice has run `initiateSession`, both
sides send at any time, and the network hands over, reorders, damages or loses what was sent, one engine
call a step; `EngineSteps` shows that its steps are the engine's calls. `Lineage` and `SessionInvariant`
hold the invariant: one chain of roots, a chain of message keys per epoch, and, for each side, which
envelopes are used, which have a filed key and which are still ahead. `Delivery`, `RunInvariant` and
`RunTheorems` carry it over every step; `X3dh` and `Limits` treat set-up and refusals, `Replays` and
`ReplayRuns` what a second delivery does to a conversation, `StaleBundles` a bundle that is no longer the
responder's latest, `GeneratedBundles` what a bundle names and what is stored for it, `EngineAnswers`
what a call answers when it cannot do its work, and `ForwardSecrecy` what a stolen session gives away.

**Stores.** `SignalStores` has the copying SQLite store and the aliasing in-memory store as classes over
the heap; `StoreRefinement` says exactly when the two agree, each making its own choice of the latest
signed prekey, and `StoreLockstep` takes two engines, one over each store, through the same calls.

**Devices.** `Devices` is the orchestrator with its tables; `ContactFields` says what each call does by the
fields of the contact it is about, and `DeviceTheorems` lifts the delivery theorem to one message sent to many
devices. `DeviceSystem` is any number of devices, with one two-party run for every
pair that has a session: sends, arrivals, new sessions and new bundles of all devices interleave freely, and
every store holds its side of all its runs. `DeviceSends` shows sending a message to be steps of that system,
and `SharedBundles` says how long a published bundle is good for.

**Relay.** `MessageTable` and `PeerRegistry` are the queue table and the channel registry; `Relay` is the
server as a step system in which handlers, sessions and the clean-up worker interleave freely;
`RelayInvariant`, `RelayKeeps` and `RelayTheorems` prove what holds in every reachable state;
`RelayHandlers` has the two handlers as sequential code and shows each to be a run of those steps, and
`RelayRequests` says which requests and replies they take;
`RelayOrder` has the order in which posts reach a session, and which of them it passes over,
`RelayOvertaking` the runs that deliver out of order, and `RelayMailboxes` which mailboxes can be read.

**Parsers.** `WebSocketFrames`, `WebSocketReader`, `WebSocketClient` (sections 5.2 and 5.3 of RFC 6455),
`HttpReader`, `HttpRoundTrip`, `LengthPattern` and `ContentLengthHeader` (sections 4 to 6 of RFC 9112), `Base64` and
`ContactUri` (section 5 of RFC 4648), over `Search`, `Sequences` and `AsciiText`.

## What the proofs found

- Unless the caller passes a bundle context, only envelopes numbered 0 name the one-time prekey: the first
  of each of the initiator's epochs (client/src/crypto/CryptoEngine.ts:180-185). When the network lets another
  one overtake the very first, the two sides derive different secrets, and nothing either sends opens again,
  whatever follows: `X3dh.LateFirstEnvelopeIsFatal`, with a concrete run in `X3dh.SwappedFirstEnvelopes`.
  `X3dh.FirstEnvelopeOpensIff` is the exact condition.
- The responder works with its latest signed prekey (client/src/crypto/CryptoEngine.ts:265), and every export of
  its contact URI makes a new one (client/src/ui/context/OrchestratorContext.tsx:291-297). So the next export
  ends every conversation whose first envelope is still on its way (`SharedBundles.NextExportKills`), and of
  two contacts who start from one URI only the first to arrive is heard
  (`SharedBundles.SecondInitiatorIsUnheard`). `StaleBundles.FirstOpensIff` is the exact condition, and
  `StaleBundles.StaleFirstIsFatal` says that such a conversation never recovers.
- A stolen session opens exactly the peer's envelopes it has not used, whatever other private keys are stolen
  with it, as long as those do not give the master secret (`ForwardSecrecy.ForwardSecrecyIff`). On a bundle
  without a one-time prekey the responder's two long-term keys do, and then the initiator's first epoch stays
  open for good (`ForwardSecrecy.NoOneTimePreKeyExposes`).
- The engine does not recognise replays. A second delivery never opens, and the SQLite row stays as it
  was if and only if the header is beyond the skip limit; the in-memory session changes even then when the
  ratchet step came before the refusal (`Replays.ReplayNeverOpens`). When it changes, a replay on the
  live chain uses up the key of the next envelope (`Replays.LiveReplayLosesTheNext`,
  `ReplayRuns.SecondIsLost`), and one on a finished chain ends the conversation
  (`Replays.FinishedReplayIsFatal`, `ReplayRuns.ConversationIsOver`).
- A call refused by the skip limit after a ratchet step leaves the SQLite row alone but the in-memory
  session changed (`Limits.RefusalAtomicity`). With one newest signed prekey that is the only difference
  between the stores (`StoreRefinement.CallsAgreeIff`). With two of one creation time the query leaves the
  choice open, and the stores may end in different sessions (`SignalStores.LatestUniqueIff`,
  `StoreRefinement.TiesDisagree`).
- The relay deletes a mailbox's rows before it sends them, though server/src/db.rs:69 speaks of delivered
  messages only. All rows taken are written to the socket if and only if it takes the greeting and all rows due
  (`RelayHandlers.TakenRowsAreSentIff`); with one row and a socket that fails in time the message
  is gone (`RelayHandlers.RowLost`).
- The relay keeps the order of what one session sends: a post answered before another arrives never comes after
  it (`RelayOrder.AnsweredFirstComesFirst`). But it may not come at all. A row of the mailbox is in the table
  while a session streams for it if and only if no tick and no other session has taken it and the session's fetch
  either failed or came before the row was queued (`RelayOrder.LeftInTableIff`). In every such state the next
  post overtakes it (`RelayOvertaking.NextPostOvertakes`, `RelayOrder.OvertakenIff`), as the runs
  `RelayOvertaking.SecondPostArrivesFirst` and `RelayOvertaking.FailedFetchOvertakes` show; overtaking is what
  kills a new conversation above.
- A POST may name its mailbox in upper case, but no session reads there: an accepted message can be read if and
  only if its mailbox is spelt in lower case (`RelayMailboxes.ReadableIff`).
- An answer to a sender no contact has the key of is posted to the mailbox its identity key spells, while
  mailboxes are named by hashes of signing keys (`ContactFields.AnswerToUnknownSender`), and a message in a
  conversation known from a sync text only goes nowhere, though it is stored as sent
  (`ContactFields.NothingToPlaceholder`).
- A published bundle fits the store if and only if no later pair of the same call takes the number of its first
  one-time prekey, and numbers are drawn at random (`GeneratedBundles.NamedPreKeyIff`).
- A message body that is itself the text of a sync payload is filed as a sync message
  (`DeviceSystem.ArrivalIsFiled` is an equivalence).
- The HTTP reader's length pattern is tied neither to the start of a header line nor to its end: the announced
  length is what the first line carries that carries anything, and a line may take its number from the next
  one (`LengthPattern.AnnouncesIff`). So it is that of the Content-Length line if and only if the first such line
  up to there carries the same (`ContentLengthHeader.AnnouncedIff`, by fields
  `ContentLengthHeader.HeadAnnouncedIff`). An empty value followed by a field named `7` announces seven
  (`ContentLengthHeader.LengthOverTheBreak`), and `X-Content-Length: 1` cuts a body of five bytes down to one
  (`ContentLengthHeader.WrongLength`).
- A complete response whose first line is no status line throws inside the data listener, with the timer
  cleared and the socket gone, so the request never settles (`HttpReader.EndsWhenComplete`,
  `ContentLengthHeader.GarbageThrows`); nor does it when the stream ends before its first byte
  (`HttpReader.EndOfStream`).

## Model

| member | source | states |
|---|---|---|
| RunTheorems.DeliveryTheorem | client/src/crypto/CryptoEngine.ts:138-361 | after any run of sends, hand-overs, damage and losses from one initiateSession, an envelope handed over for the first time yields exactly the text sent, and is refused if and only if its header is beyond the skip limit of the receiving session |
| RunTheorems.Delivers | client/src/crypto/CryptoEngine.ts:203-250 | the same in every state that satisfies the run invariant, and the envelope counts as used exactly when it was not refused |
| RunTheorems.RunKeeps | client/src/crypto/CryptoEngine.ts:138-361 | every legal run keeps the invariant that ties roots, chains, counters, skipped keys and envelopes of both sides |
| RunTheorems.StepKeeps | client/src/crypto/CryptoEngine.ts:138-361 | each send, delivery and damaged delivery keeps the run invariant |
| RunInvariant.InitiatedInRun | client/src/crypto/CryptoEngine.ts:94-135 | the state initiateSession leaves, on a bundle of Bob's latest signed prekey, satisfies the run invariant |
| RunInvariant.SendingKeeps | client/src/crypto/CryptoEngine.ts:145-200 | encrypt on either side keeps the run invariant, including Bob's lazy first send chain |
| RunInvariant.BobJoins | client/src/crypto/CryptoEngine.ts:252-321 | the session initiateBobSession builds from an envelope naming the bundle's one-time prekey stands on the same lineage as Alice's |
| Delivery.DecryptKeeps | client/src/crypto/CryptoEngine.ts:213-250 | one decrypt, on the live chain, from the skipped table or over a ratchet step, yields the key the envelope was sealed under and keeps the session invariant, or refuses and changes nothing stored |
| SessionInvariant.SkipKeeps | client/src/crypto/CryptoEngine.ts:344-361 | filing skipped keys keeps every filed key equal to the sender's key for that number, and loses none that is still owed |
| SessionInvariant.RatchetKeeps | client/src/crypto/CryptoEngine.ts:323-342 | a ratchet step lands the session two epochs on, on the same chain of roots, with the finished chain fully accounted for |
| SessionInvariant.ConsumeKeeps | client/src/crypto/CryptoEngine.ts:238-245 | using the next chain key marks exactly that envelope as used |
| SessionInvariant.TakeKeeps | client/src/crypto/CryptoEngine.ts:213-222 | using a filed key removes exactly that entry and marks exactly that envelope as used |
| SessionInvariant.SendKeeps | client/src/crypto/CryptoEngine.ts:162-168 | sending extends the own chain by the one envelope sealed under its next key |
| RunTheorems.RootsInLockStep | client/src/crypto/CryptoEngine.ts:150-160 | both root keys lie on one derivation chain from a master secret, each at the epoch of that side's own ratchet key, one epoch apart; the side behind stands exactly where the next ratchet step meets the peer's root and send chain, and the responder's root stays at the first step until its lazy send chain is made |
| RunTheorems.ReceiveChainMatches | client/src/crypto/CryptoEngine.ts:302-342 | a receive chain is a position on the peer's send chain: every envelope ahead of it was sealed under the key it will derive for that number |
| RunTheorems.SkippedKeysConserved | client/src/crypto/CryptoEngine.ts:213-248 | for every ratchet key seen, the numbers gone past split exactly into envelopes used and keys filed, never both, and nothing ahead of the counter is either |
| RunTheorems.FiledKeysAreOwed | client/src/crypto/CryptoEngine.ts:356-358 | every entry of the skipped table belongs to one unused envelope of the peer and is the key it was sealed under |
| RunTheorems.CounterWithinSent | client/src/crypto/CryptoEngine.ts:224-242 | every number below the receive counter belongs to an envelope the peer really sent |
| RunTheorems.MessageKeysUnique | client/src/crypto/CryptoEngine.ts:162-176 | no two encrypt calls of a run, in either direction and any epoch, seal under the same message key |
| Lineage.MessageKeyAtInjective | client/src/crypto/CryptoEngine.ts:382-402 | under free key derivation, message keys of different epochs or numbers differ |
| Lineage.RootAtInjective | client/src/crypto/CryptoEngine.ts:382-391 | roots of different epochs differ |
| SymbolicCrypto.ChainAtInjective | client/src/crypto/CryptoEngine.ts:393-402 | two positions on symmetric chains coincide only for the same start and number |
| RunTheorems.DamageContained | client/src/crypto/CryptoEngine.ts:239-249 | an envelope damaged behind an intact header leaves exactly the state its undamaged twin would have left, and comes out as an error |
| X3dh.MastersAgree | client/src/crypto/CryptoEngine.ts:94-110 | both sides derive the same master secret if and only if the responder used the bundle's signed and one-time prekeys (sections 3.3 and 3.4 of the Signal X3DH specification) |
| X3dh.SessionsAgree | client/src/crypto/CryptoEngine.ts:293-314 | root key and first chain key agree under exactly the same condition |
| X3dh.OneTimePreKeyConsumed | client/src/crypto/CryptoEngine.ts:270-276 | the prekey an envelope names is gone afterwards, so no later session finds it, and no other prekey is touched |
| X3dh.FirstEnvelopeOpensIff | client/src/crypto/CryptoEngine.ts:180-185 | the first envelope Bob processes opens if and only if it names the bundle's one-time prekey and its number is within the skip limit |
| X3dh.LateFirstEnvelopeIsFatal | client/src/crypto/CryptoEngine.ts:207-211 | after a first envelope that does not name it, nothing either side ever sends opens, under any further steps at all |
| X3dh.EstrangedForGood | client/src/crypto/CryptoEngine.ts:138-361 | sides whose keys go back to different master secrets stay that way over every unrestricted run |
| X3dh.SwappedFirstEnvelopes | client/src/crypto/CryptoEngine.ts:180-185 | a concrete run: two messages, swapped by the network, and the conversation is dead |
| StaleBundles.FirstOpensIff | client/src/crypto/CryptoEngine.ts:252-321 | the first envelope the responder processes opens if and only if the bundle's signed prekey is still its latest, the envelope names the bundle's one-time prekey and that is still there, and its number is within the skip limit |
| StaleBundles.StaleFirstIsFatal | client/src/crypto/CryptoEngine.ts:265-300 | after a first envelope that does not match in this way, nothing either side sends ever opens, under any further steps at all |
| StaleBundles.SoundOnHandOver | client/src/crypto/CryptoEngine.ts:203-250 | a hand-over keeps a conversation alive, as a run of the delivery theorem, unless it is the responder's first and does not match; dead ones stay dead |
| ForwardSecrecy.ForwardSecrecyIff | client/src/crypto/CryptoEngine.ts:238-245 | over every legal run, from one side's session and any private keys that miss the master secret, exactly the keys of the peer's envelopes this side has not used can be derived |
| ForwardSecrecy.StolenSession | client/src/crypto/CryptoEngine.ts:213-245 | the same in every state that satisfies the run invariant |
| ForwardSecrecy.MissesIff | client/src/crypto/CryptoEngine.ts:94-110 | which private keys give the master secret |
| ForwardSecrecy.FirstEpochExposed | client/src/crypto/CryptoEngine.ts:94-110 | private keys that give it, with one half of the first agreement, open the initiator's first epoch whatever has been deleted |
| ForwardSecrecy.NoOneTimePreKeyExposes | client/src/crypto/CryptoEngine.ts:105-110 | without a one-time prekey the responder's identity and signed prekey are enough for that |
| Limits.SkipLimited | client/src/crypto/CryptoEngine.ts:344-361 | skipMessageKeys advances chain and counter by exactly the same number of steps, files at most 2000 keys and keeps the old ones |
| Limits.DecryptLimited | client/src/crypto/CryptoEngine.ts:224-245 | one decrypt files at most 4000 keys, and throws on the limit if and only if the header is beyond it |
| Limits.LimitIs2000 | client/src/crypto/CryptoEngine.ts:344-350 | in numbers: refused from the 2001st number ahead on the chain in hand, and over a ratchet step when more than 2000 of that chain are left or the number is above 2000 |
| Limits.RefusalAtomicity | client/src/storage/SqliteSignalStore.ts:103-113 | a refused call leaves the copied session untouched; the aliased one differs exactly when the ratchet step came first |
| Replays.ReplayNeverOpens | client/src/crypto/CryptoEngine.ts:203-250 | in every state of a run, an envelope handed over again never opens; the stored session changes if and only if the header is within the skip limit or, in the in-memory store, the ratchet step came before the refusal |
| Replays.LiveReplayLosesTheNext | client/src/crypto/CryptoEngine.ts:233-249 | a replay on the live chain leaves exactly the state that delivering the next envelope would have left: that one is lost, and the run goes on for all others |
| Replays.ReplayThenSend | client/src/crypto/CryptoEngine.ts:203-250 | a replay and a send of the other side do not interfere, so the envelope that is lost may also be one sent later |
| Replays.FinishedReplayIsFatal | client/src/crypto/CryptoEngine.ts:224-249 | after a replay on a finished chain that changes the stored session, in either store, nothing its receiver sends opens, and nothing opens at the receiver but keys it had on file, under any further steps at all |
| Replays.SeveredForGood | client/src/crypto/CryptoEngine.ts:138-361 | once one side has derived its keys past a step the other never takes, it stays so over every unrestricted run |
| ReplayRuns.SecondIsLost | client/src/crypto/CryptoEngine.ts:233-249 | a concrete run: two messages, the first delivered twice, and the second no longer opens |
| ReplayRuns.ConversationIsOver | client/src/crypto/CryptoEngine.ts:224-249 | a concrete run: question, answer, question, all delivered, then the first again, and nothing opens any more whatever follows, but the answer that was sent before |
| Engine.CryptoEngine.GeneratePreKeyBundle | client/src/crypto/CryptoEngine.ts:28-73 | the store gains the signed prekey and all one-time prekeys, the bundle names the first of them, and the signature is the signing key's over the signed prekey |
| GeneratedBundles.BundleNames | client/src/crypto/CryptoEngine.ts:30-72 | the bundle is the device's own and its signature verifies; it names the new signed prekey and the number and key of the first one-time prekey, and none exactly when there is none |
| GeneratedBundles.BundleIsStored | client/src/crypto/CryptoEngine.ts:44-65 | the signed prekey it names is in the store with its time, each one-time prekey is there under its number unless a later one took it, and all else is as it was |
| GeneratedBundles.NamedPreKeyIff | client/src/crypto/CryptoEngine.ts:51-65 | the one-time prekey the bundle names is behind that number in the store if and only if no later pair of the call took the number with another key |
| GeneratedBundles.PublishedIff | client/src/crypto/CryptoEngine.ts:28-73 | on that condition, and no other, an initiator finds what the bundle promises |
| GeneratedBundles.GeneratedMastersAgree | client/src/crypto/CryptoEngine.ts:94-110 | and on it, and no other, initiator and responder derive one master secret from a bundle as published |
| GeneratedBundles.TamperedIsRefused | client/src/crypto/CryptoEngine.ts:75-92 | a published bundle is taken; one with another signed prekey, another signing key or a forged signature is refused with nothing stored |
| Engine.CryptoEngine.InitiateSession | client/src/crypto/CryptoEngine.ts:75-136 | refuses exactly a signed prekey whose signature is not the bundle's signing key's over it; otherwise stores the initiator's session and returns the stored object |
| Engine.CryptoEngine.Encrypt | client/src/crypto/CryptoEngine.ts:138-201 | store contents and result are those of the encrypt call, on either store |
| Engine.CryptoEngine.SealNext | client/src/crypto/CryptoEngine.ts:150-200 | the object's fields become those of the session after one send, and the envelope is sealed under the next chain key |
| Engine.CryptoEngine.InitiateBobSession | client/src/crypto/CryptoEngine.ts:252-321 | works with a newest signed prekey, uses up the named one-time prekey and stores the responder's session |
| Engine.CryptoEngine.Decrypt | client/src/crypto/CryptoEngine.ts:203-250 | store contents and result are those of the decrypt call, including what an exception leaves behind in each store |
| Engine.CryptoEngine.DeriveKey | client/src/crypto/CryptoEngine.ts:213-243 | the object's fields and the derived key are those of the value-level decrypt, on every path including both throws |
| Engine.CryptoEngine.SkipMessageKeys | client/src/crypto/CryptoEngine.ts:344-361 | throws before any change exactly beyond the limit |
| Engine.CryptoEngine.FileSkipped | client/src/crypto/CryptoEngine.ts:351-360 | the loop files one key per number from the counter to the target, each the chain's key at that number |
| Engine.CryptoEngine.DhRatchetStep | client/src/crypto/CryptoEngine.ts:323-342 | both derivations start from the current root in the right order, and all three counters move as specified (section 3.5 of the Signal Double Ratchet specification) |
| EngineAnswers.EncryptFailsIff | client/src/crypto/CryptoEngine.ts:145-160 | encrypt fails if and only if there is no session, or neither a send chain nor a key to make one with, and then changes nothing |
| EngineAnswers.EnvelopeNames | client/src/crypto/CryptoEngine.ts:180-185 | an envelope names the prekey its caller gives, else the bundle's on number 0 and none on any other |
| EngineAnswers.FirstRefusedIff | client/src/crypto/CryptoEngine.ts:252-268 | a first envelope is refused, with nothing changed, if and only if its parameters are missing or there is no signed prekey |
| EngineAnswers.NoReceiveChainIff | client/src/crypto/CryptoEngine.ts:233-237 | decrypt finds no receive chain exactly for a key that is announced but whose chain was never derived |
| EngineSteps.SendIsEncrypt | client/src/crypto/CryptoEngine.ts:138-201 | a send step of the protocol is one encrypt call on that side's store |
| EngineSteps.HandOverIsDecrypt | client/src/crypto/CryptoEngine.ts:203-250 | a hand-over step is one decrypt call on the receiver's store, and touches no other |
| EngineSteps.StartIsInitiate | client/src/crypto/CryptoEngine.ts:75-136 | a run starts in the store initiateSession leaves |
| StoreRefinement.CallsAgreeIff | client/src/crypto/CryptoEngine.ts:28-250 | with one newest signed prekey, whatever each store picks, a call of any of the four kinds answers the same over both stores, and leaves the same contents if and only if it does not throw between ratchet step and save |
| StoreRefinement.TiesDisagree | client/src/storage/SqliteSignalStore.ts:46-52 | two signed prekeys of one creation time, both answers to the query, and the same first envelope leaves different sessions |
| StoreRefinement.StoresAgree | client/src/storage/SqliteSignalStore.ts:46-113 | over every sequence of calls, generating bundles included, with distinct creation times throughout and none of them torn, answers and final contents are the same for any choices of the two stores |
| StoreLockstep.Do | client/src/crypto/CryptoEngine.ts:28-250 | one call on an engine is that call on its store's contents, with a newest signed prekey as the store's choice |
| StoreLockstep.Lockstep | client/src/crypto/InMemorySignalStore.ts:27-68 | an engine over each store, taken through the same such calls, answers alike and ends with the same contents |
| SignalStores.LatestUnique | client/src/storage/SqliteSignalStore.ts:46-52 | two answers to the query for the newest signed prekey agree when whatever is newest is one record |
| SignalStores.LatestUniqueIff | client/src/crypto/InMemorySignalStore.ts:27-35 | the stores are bound to pick the same if and only if all signed prekeys of the greatest creation time are one record |
| SignalStores.DistinctTimesSuffice | client/src/crypto/InMemorySignalStore.ts:27-35 | distinct creation times are enough for that |
| SignalStores.InMemorySignalStore.GetLatestSignedPreKey | client/src/crypto/InMemorySignalStore.ts:27-35 | the running maximum of the loop is a newest signed prekey, and there is none only in an empty map |
| SignalStores.SqliteSignalStore.GetLatestSignedPreKey | client/src/storage/SqliteSignalStore.ts:46-52 | the row the query returns holds a newest signed prekey, and there is none only in an empty table |
| SignalStores.SignalStore.RemoveOneTimePreKey | client/src/storage/SqliteSignalStore.ts:76-80 | exactly the named one-time prekey is gone, from either store |
| SignalStores.InMemorySignalStore.SaveSession | client/src/crypto/InMemorySignalStore.ts:53-58 | the map holds the caller's own object afterwards |
| SignalStores.SignalStore.GetSession | client/src/storage/SqliteSignalStore.ts:103-113 | SQLite answers with a fresh object of the stored value, the in-memory store with the stored object itself |
| SignalStores.SignalStore.SaveSession | client/src/storage/SqliteSignalStore.ts:89-101 | afterwards the store holds exactly the object's value under that peer, and nothing else changed |
| SignalStores.SetEntryIsUpdate | client/src/crypto/InMemorySignalStore.ts:19-21 | setting an entry of the insertion-ordered map is a map update |
| Devices.AppOrchestrator.SendOutboundMessage | client/src/orchestration/AppOrchestrator.ts:152-250 | tables, sessions and accepted envelopes afterwards are those of the two fan-outs, for every fate of every request (not accepted, accepted without an answer, answered), and the stored row is delivered exactly when some recipient device was reported reached live |
| ContactFields.PlainContact | client/src/orchestration/AppOrchestrator.ts:165-199 | a contact without linked devices is written to under its own identity key and at its own mailbox, exactly when there is a session that can send and the relay accepts; without own devices that is all that is posted |
| ContactFields.LinkedContact | client/src/orchestration/AppOrchestrator.ts:165-199 | one with linked devices is written to at each of them, under that device's key and at its mailbox |
| ContactFields.OwnDevice | client/src/orchestration/AppOrchestrator.ts:201-228 | each own device gets the sync text, under its key and at its mailbox |
| ContactFields.StoredRow | client/src/orchestration/AppOrchestrator.ts:230-249 | the row stored names the contact, both identities, the text and its time, is outgoing and read, and is delivered if and only if some device with a session was reported reached live |
| ContactFields.NoContactNothing | client/src/orchestration/AppOrchestrator.ts:156-159 | without such a contact nothing changes |
| ContactFields.SavedAgain | client/src/storage/ContactRepository.ts:11-31 | saving a contact again keeps its time, and saving a message again changes its body, read flag and status only |
| Devices.AppOrchestrator.Dispatch | client/src/orchestration/AppOrchestrator.ts:178-199 | the loop tries every device in order and goes on after a failure |
| Devices.AppOrchestrator.HandleIncomingMessage | client/src/orchestration/AppOrchestrator.ts:256-368 | resolves or creates the sender's contact, decrypts, and files the row for a plain text or for a sync payload; a failed decrypt stores no message |
| ContactFields.UnknownSender | client/src/orchestration/AppOrchestrator.ts:266-279 | a sender no contact has the key of becomes a contact whose key is its identity and its mailbox, whatever decryption gives, and all other contacts stay |
| ContactFields.AnswerToUnknownSender | client/src/orchestration/AppOrchestrator.ts:266-279 | an answer to it is posted to the mailbox its key spells and nowhere else |
| ContactFields.KnownSender | client/src/orchestration/AppOrchestrator.ts:262-301 | a known sender's plain text is filed under its contact, and a failed decryption stores nothing and changes no contact |
| ContactFields.AnonymousSender | client/src/orchestration/AppOrchestrator.ts:280-296 | an envelope without a sender's key is taken for one of the newest contact with a session, or dropped when there is none |
| ContactFields.UnknownConversation | client/src/orchestration/AppOrchestrator.ts:303-330 | a sync text for an unknown conversation makes a contact named by its mailbox only, and files the body there as outgoing |
| ContactFields.NothingToPlaceholder | client/src/orchestration/AppOrchestrator.ts:314-327 | a message to such a contact is stored and posted nowhere |
| DeviceTheorems.FanOutIndependent | client/src/orchestration/AppOrchestrator.ts:177-199 | with distinct device keys every device gets the envelope it would have got alone, and every session moves by exactly its own send whatever fails elsewhere |
| DeviceTheorems.FanOutSends | client/src/orchestration/AppOrchestrator.ts:177-228 | a fan-out is one send step in the two-party run of each of its devices |
| DeviceTheorems.DeviceHandsOver | client/src/orchestration/AppOrchestrator.ts:297-301 | a device's decrypt call is the hand-over step of its run and touches no other session |
| DeviceTheorems.RecipientDeviceFiles | client/src/orchestration/AppOrchestrator.ts:152-368 | the posted envelope of a recipient device, arriving after any further steps of its run, is filed once as an incoming message with the body sent, if and only if the body is not the text of a sync payload; that the device then holds its side of the run is DeviceSystem.ArrivalAwaited |
| GeneratedBundles.FirstMessageFiled | client/src/orchestration/AppOrchestrator.ts:152-368 | a device without sessions generates a bundle, another initiates from it and sends to its contact: the message is posted to that contact's mailbox, and the device decrypts and files it |
| DeviceTheorems.OwnDeviceFiles | client/src/orchestration/AppOrchestrator.ts:201-228 | each own device files the same body under the same message id and contact, as outgoing |
| DeviceSystem.StepKeeps | client/src/orchestration/AppOrchestrator.ts:152-368 | every attempt to send, arrival, new session and new bundle keeps, for every pair at once, a conversation that is a run of the ratchet theorems or is dead, with both devices holding their side of it |
| DeviceSystem.RunKeeps | client/src/orchestration/AppOrchestrator.ts:152-368 | so does every interleaving of steps of all devices |
| DeviceSystem.ArrivalAwaited | client/src/orchestration/AppOrchestrator.ts:289-301 | what the arrival theorems ask of the receiving device, its session and its draws, holds in every such state |
| DeviceSystem.ArrivalIsFiled | client/src/orchestration/AppOrchestrator.ts:256-368 | in every state any number of devices can reach, an envelope arriving for the first time is filed as an incoming message with the text sent, if and only if its conversation is alive and does not die with it, it is within the skip limit, and the text is not that of a sync payload |
| DeviceSystem.SyncArrivalIsFiled | client/src/orchestration/AppOrchestrator.ts:303-330 | and under the same condition a sync text is filed as outgoing under the id and contact it names |
| DeviceSends.SendIsSteps | client/src/orchestration/AppOrchestrator.ts:152-250 | sendOutboundMessage on one device is a run of that system: the device is as the orchestrator leaves it, all others as before, and every envelope posted is one sent in a run, with the message or its sync text inside |
| DeviceSends.PostedIsFiled | client/src/orchestration/AppOrchestrator.ts:152-368 | whatever all devices go on to do, a posted envelope has its place in a run, and when it first comes in its device files the text it was posted with, under exactly the condition of ArrivalIsFiled |
| DeviceSends.FanOutIsSteps | client/src/orchestration/AppOrchestrator.ts:177-199 | a fan-out over any targets is a run of encrypt steps, one for each target with a session |
| DeviceSends.RunOwned | client/src/orchestration/AppOrchestrator.ts:152-368 | over every run of that system each stored session belongs to a run of its pair |
| SharedBundles.NextExportKills | client/src/ui/context/OrchestratorContext.tsx:291-297 | once a device has published another bundle, no envelope of a conversation it has not yet answered is filed, and the conversation is dead from that arrival on |
| SharedBundles.SecondInitiatorIsUnheard | client/src/crypto/CryptoEngine.ts:265-276 | of two conversations initiated with one one-time prekey, the one whose first envelope comes second is not filed and is dead |
| DeviceTheorems.ReceiveKeepsReferences | client/src/orchestration/AppOrchestrator.ts:262-348 | every stored message keeps referring to an existing contact, and a row is stored if and only if the sender is resolved and the text decrypts |
| DeviceTheorems.ReferencesAlwaysHold | client/src/storage/DatabaseManager.ts:216-230 | the foreign key holds in every state a device can reach by sending, receiving, importing and deleting contacts and linking devices |
| DeviceTheorems.DeleteKeepsReferences | client/src/storage/ContactRepository.ts:119-124 | a contact is deleted if and only if no message refers to it, and the foreign key goes on holding |
| ContactFields.LinkedMeans | client/src/storage/ContactRepository.ts:85-101 | linking a device to a contact replaces one of its id and changes nothing else |
| ContactFields.WithOwnMeans | client/src/storage/ContactRepository.ts:128-162 | own devices stay listed by id, a new one in place of one of its id |
| MessageTable.Table.Enqueue | server/src/db.rs:41-66 | appends one row under a new id, with its own clock reading plus the time to live |
| MessageTable.Table.FetchAndDelete | server/src/db.rs:70-103 | returns exactly the recipient's rows in id order and leaves exactly the others |
| MessageTable.Table.CleanupExpired | server/src/db.rs:106-119 | removes exactly the rows whose expiry has come |
| MessageTable.FetchPartitions | server/src/db.rs:76-98 | the fetch splits the table into two ordered parts without loss |
| MessageTable.CleanupPartitions | server/src/worker.rs:8-22 | a tick splits the table into expired and remaining rows without loss |
| PeerRegistry.AppState.SubscribePeer | server/src/state.rs:27-33 | adds the channel at the end of its hash's list, creating the list if needed |
| PeerRegistry.AppState.DispatchLive | server/src/state.rs:37-50 | pushes to the open channels, keeps those in order, prunes an empty list and reports whether any was left |
| PeerRegistry.PushAllExact | server/src/state.rs:41 | one copy goes into exactly the open channels of the list, and no other channel changes |
| PeerRegistry.OpenOnesExact | server/src/state.rs:41-46 | the retained senders are exactly the open ones, and none are left exactly when none is open |
| PeerRegistry.OrderKept | server/src/state.rs:41 | retained senders keep their relative order |
| RelayKeeps.StepKeeps | server/src/handlers/ws.rs:56-191 | every step of every handler, session and tick keeps the relay invariant |
| RelayKeeps.RunKeeps | server/src/handlers/ws.rs:56-191 | so does every interleaving of steps |
| RelayKeeps.SessionsKept | server/src/handlers/ws.rs:75-162 | what a session has sent stays rows in order, then live messages in order, for a key that signed its challenge |
| RelayKeeps.PlacesKept | server/src/db.rs:70-119 | every row id ever handed out stays in exactly one place |
| RelayTheorems.Conservation | server/src/handlers/message.rs:77-98 | in every reachable state an accepted message is in exactly one of: with its handler, pushed to live channels, in the table, fetched by exactly one session, removed by a tick, or failed to insert |
| RelayTheorems.QueuedAsSent | server/src/handlers/message.rs:66-88 | every queued, fetched or removed row has the content of its request, and no tick removed it before its expiry |
| RelayTheorems.RowLeavesOnly | server/src/handlers/ws.rs:126-144 | a row leaves the table only into a session whose client signed that session's own challenge under a key of the row's mailbox, or by a tick at or after its expiry |
| RelayTheorems.OnlySignedSessions | server/src/handlers/ws.rs:75-144 | in every reachable state, every subscribed sender and every session holding fetched rows belongs to a client whose signature over that session's own challenge verified for exactly that mailbox |
| RelayOvertaking.SecondPostArrivesFirst | server/src/handlers/message.rs:77-98 | a run from the empty server: a post queued between fetch and subscribe stays in the table while the session sends the next one |
| RelayOvertaking.FailedFetchOvertakes | server/src/handlers/ws.rs:126-162 | another: a post queued before the session connects, whose fetch then fails |
| RelayOvertaking.NextPostOvertakes | server/src/handlers/ws.rs:141-162 | in every state that keeps the invariant, with a session streaming for a mailbox, the next accepted post gets onto its socket and no row moves |
| RelayOrder.PushedIff | server/src/state.rs:37-50 | in every reachable state a dispatch succeeds if and only if some session streams for the mailbox |
| RelayOrder.PushPasses | server/src/handlers/message.rs:77-98 | a post pushed to a session passes every other post of the mailbox that is not dispatched, not queued or in the table: whatever happens next, the session sends none of these before it, and only an undispatched one at all |
| RelayOrder.LeftInTableIff | server/src/handlers/ws.rs:126-144 | for every session, a queued post of its mailbox is in the table if and only if no tick has removed it, no other session has fetched it, and this session's fetch has not come, failed, or came before it was queued |
| RelayOrder.AnsweredFirstComesFirst | server/src/handlers/ws.rs:126-162 | within one session, a post answered before another arrived never comes after it, over every run |
| RelayOrder.FrameOrder | server/src/handlers/ws.rs:126-162 | the exact order of any two frames of a session: queued rows first and by id, then pushed posts by dispatch |
| RelayOrder.OvertakenIff | server/src/handlers/ws.rs:126-162 | once a session has sent a post, one answered before that arrived has been sent too if and only if it was fetched by or pushed to the session, and is left in the table if and only if it was queued, not removed, not fetched by another session, and this session's fetch failed or came before |
| RelayMailboxes.ReadableIff | server/src/handlers/message.rs:31-40 | a request the relay accepts can reach a session, in some run, if and only if its mailbox is 64 lower-case hex digits |
| RelayMailboxes.OtherSpellingUnread | server/src/auth.rs:32-36 | in every reachable state a post to any other spelling has been pushed to no session and sent by none |
| RelayTheorems.SessionFrames | server/src/handlers/ws.rs:126-162 | the payload frames of a session are a prefix of its fetched rows in id order, then of the live messages in dispatch order, all for the mailbox of a key whose signature over its own challenge verified |
| RelayTheorems.FrameOrigin | server/src/handlers/ws.rs:128-160 | every frame is the queued row or the pushed message of one request |
| RelayTheorems.NoDuplicates | server/src/handlers/ws.rs:126-162 | no posted message appears twice in one session |
| RelayTheorems.QueuedInOneSession | server/src/db.rs:76-100 | a queued message appears in at most one session over the whole run |
| RelayTheorems.DispatchReachesStreaming | server/src/state.rs:37-50 | a dispatch puts one copy into the channel of exactly the sessions then streaming for the mailbox |
| RelayTheorems.DispatchNeedsStreaming | server/src/state.rs:42-46 | a dispatch reports success only if some session was streaming for the mailbox |
| RelayTheorems.RegistryPruned | server/src/state.rs:42-45 | every registered hash has a non-empty list of distinct senders, all of sessions that signed for it |
| RelayHandlers.Server.HandleSendMessage | server/src/handlers/message.rs:26-107 | answer and server state after one POST, on every path: three refusals, live, queued, failed insert |
| RelayRequests.RefusedIff | server/src/handlers/message.rs:31-64 | a request is refused, with nothing changed, if and only if its mailbox is not 64 hex digits, its payload is empty or above the limit, or its nonce has no or more than 256 characters, for the first of these that applies |
| RelayRequests.ClientIsAccepted | client/src/orchestration/AppOrchestrator.ts:183-189 | what the client posts, the lower-case hash of a key, an envelope within the limit and 48 nonce characters, is never refused |
| RelayHandlers.PostIsThreeSteps | server/src/handlers/message.rs:66-106 | the uninterrupted handler is its arrive, dispatch and enqueue steps, and its answer tells the message's fate |
| RelayHandlers.Server.OpenSession | server/src/handlers/ws.rs:56-144 | what a session opening writes, which rows it takes and whether it subscribes, for every reply and every point at which the socket fails |
| RelayRequests.VerifiesIff | server/src/auth.rs:40-74 | a reply is taken if and only if it is a key and that key's signature over this challenge |
| RelayRequests.GreetingIs | server/src/handlers/ws.rs:56-123 | what an opening begins with: the challenge, then for a reply that signs in its mailbox, for any other an error, and without one nothing |
| RelayHandlers.TakenRowsAreSentIff | server/src/handlers/ws.rs:126-139 | whatever the reply and wherever the socket fails, every row taken from the table is written to the socket if and only if the socket takes the greeting and all the rows due |
| RelayHandlers.RowLost | server/src/handlers/ws.rs:126-139 | one queued message and a socket that takes the greeting only: the table is empty and the message was not sent |
| RelayHandlers.Server.SendRows | server/src/handlers/ws.rs:128-139 | sends as many rows as the socket takes, in order, and stops at the first failure |
| RelayHandlers.OpeningIsSteps | server/src/handlers/ws.rs:56-144 | the uninterrupted opening is a run of the session's steps with the same frames, table and registry |
| WebSocketFrames.DrainSplit | client/src/network/TorWebSocketClient.ts:164-210 | reading a buffer in two portions dispatches the frames of reading it at once |
| WebSocketFrames.FrameStable | client/src/network/TorWebSocketClient.ts:167-198 | a complete frame reads the same whatever follows it |
| WebSocketFrames.RestIncomplete | client/src/network/TorWebSocketClient.ts:167-195 | what stays in the buffer of an open connection is an incomplete frame |
| WebSocketFrames.LengthRoundTrip | client/src/network/TorWebSocketClient.ts:297-318 | each of the three length forms reads back as the length, with the mask bit set |
| WebSocketFrames.FrameRoundTrip | client/src/network/TorWebSocketClient.ts:293-329 | every written frame, followed by anything, reads back to its opcode and payload, and has the size of the shortest form |
| WebSocketFrames.PlainRoundTrip | client/src/network/TorWebSocketClient.ts:167-207 | every frame without a mask, as servers send them, reads back to its opcode and payload in all three length forms |
| WebSocketFrames.WrittenIsFinal | client/src/network/TorWebSocketClient.ts:293-300 | every written frame is final, sets no reserved bit and has its opcode in the low bits (section 5.2 of RFC 6455) |
| WebSocketFrames.FramesOfHello | client/src/network/TorWebSocketClient.ts:167-207 | the example frames of section 5.7 of RFC 6455, unmasked and masked, read as a text of Hello |
| WebSocketFrames.HighestFirst | client/src/network/TorWebSocketClient.ts:177-184 | a length's first byte is its highest |
| WebSocketFrames.StreamUpToClose | client/src/network/TorWebSocketClient.ts:164-210 | frames up to a close read back as they were, and what follows the close is dropped |
| WebSocketFrames.StreamRoundTrip | client/src/network/TorWebSocketClient.ts:164-210 | any number of frames in a row, each masked or not, read back as they were and leave nothing behind |
| WebSocketFrames.UnmaskTwice | client/src/network/TorWebSocketClient.ts:200-206 | masking twice under one key is the identity (section 5.3 of RFC 6455) |
| WebSocketReader.ChunkIndependence | client/src/network/TorWebSocketClient.ts:83-129 | from the first byte of the upgrade response on, every way of cutting the stream into chunks ends in the state of the whole stream at once |
| WebSocketReader.FeedSplit | client/src/network/TorWebSocketClient.ts:88-129 | two chunks do what their concatenation does, also around the end of the response |
| WebSocketReader.FeedSettles | client/src/network/TorWebSocketClient.ts:164-195 | what is kept between chunks is always an unfinished response or an unfinished frame |
| WebSocketReader.StreamDelivered | client/src/network/TorWebSocketClient.ts:113-129 | frames sent after an accepting response, each masked or not, arrive as they were under every chunking |
| WebSocketReader.StreamClosed | client/src/network/TorWebSocketClient.ts:113-129 | with a close among them, those before it and the close itself arrive, and nothing after it, under every chunking |
| WebSocketReader.RefusedIff | client/src/network/TorWebSocketClient.ts:113-123 | a complete response is refused if and only if it does not begin with "HTTP/1.1 101", under every chunking |
| WebSocketClient.TorWebSocketClient.HandleRawData | client/src/network/TorWebSocketClient.ts:164-210 | the loop dispatches exactly the frames of the buffer in order, masked or not, keeps exactly the rest, and stops at a close; which frames those are is StreamRoundTrip and StreamUpToClose |
| WebSocketClient.TorWebSocketClient.TakeFrame | client/src/network/TorWebSocketClient.ts:168-206 | the header steps find the frame exactly when all of it is there, as FrameRoundTrip and PlainRoundTrip say of written ones |
| WebSocketClient.TorWebSocketClient.SendRawFrame | client/src/network/TorWebSocketClient.ts:293-329 | fills a buffer of exactly the computed size with the encoded frame and writes it once, or nothing when not connected |
| WebSocketClient.TorWebSocketClient.ProcessFrame | client/src/network/TorWebSocketClient.ts:212-229 | a text goes to the handler, a close disconnects and empties the buffer, a ping is answered with its payload |
| WebSocketClient.TorWebSocketClient.OnHandshakeData | client/src/network/TorWebSocketClient.ts:115-129 | waits for the empty line, refuses any other status, and hands the leftover to the reading loop |
| WebSocketClient.TorWebSocketClient.OnData | client/src/network/TorWebSocketClient.ts:139-141 | each chunk takes the connection where the reader's state machine says |
| WebSocketClient.AfterMeans | client/src/network/TorWebSocketClient.ts:212-229 | every text reaches the handler and every ping is answered under its own mask, in frame order |
| WebSocketClient.PongsReadBack | client/src/network/TorWebSocketClient.ts:220-223 | what is written reads back as one pong, opcode 10, for every ping, opcode 9, in order and with its payload |
| WebSocketClient.TextsOf | client/src/network/TorWebSocketClient.ts:214-219 | the handler gets the payloads of the frames of opcode 1, in order |
| HttpReader.ChunkIndependence | client/src/network/TorHttpClient.ts:90-107 | every way of cutting a response into chunks settles with the same result or waits with the same text |
| HttpReader.HttpRequest.OnData | client/src/network/TorHttpClient.ts:90-107 | the listener's text and outcome move as the reader that ChunkIndependence, EndsWhenComplete and ContentLengthHeader.WrittenResponse speak of |
| HttpReader.EndsWhenComplete | client/src/network/TorHttpClient.ts:90-107 | under every chunking, a response of announced length waits exactly while its body is incomplete; then it resolves with exactly the announced body if the first line is a status line, and otherwise throws in the listener and never settles |
| HttpReader.EndOfStream | client/src/network/TorHttpClient.ts:109-118 | a stream that ends before that leaves the request unsettled if and only if nothing was read; otherwise it resolves or rejects with what was read |
| HttpReader.WithoutEmptyLine | client/src/network/TorHttpClient.ts:109-118 | a stream without an empty line is waited for to its end, and then rejected as malformed unless nothing came |
| HttpReader.BadFirstLine | client/src/network/TorHttpClient.ts:109-118 | one waited for to its end is rejected for its first line if and only if that is no status line |
| HttpRoundTrip.ResponseReadsBack | client/src/network/TorHttpClient.ts:151-185 | a written response reads back: code, reason, fields and the body, cut to the announced length |
| HttpRoundTrip.StatusReadsBack | client/src/network/TorHttpClient.ts:164-171 | the status line reads back as its code and reason; that the code written in decimal is the number is DecimalReadsBack |
| HttpRoundTrip.StatusAfter | client/src/network/TorHttpClient.ts:165 | what stands before the version does not matter |
| HttpRoundTrip.DottedUpTo | client/src/network/TorHttpClient.ts:165 | the reason ends at a lone line feed or carriage return |
| HttpRoundTrip.DecimalReadsBack | client/src/network/TorHttpClient.ts:99-170 | a number written in decimal reads back |
| HttpRoundTrip.SpacedFieldReadsBack | client/src/network/TorHttpClient.ts:176-181 | a header line reads back whatever spaces stand around its name and its value |
| HttpRoundTrip.FieldsReadBack | client/src/network/TorHttpClient.ts:173-182 | the header lines read back as the map of their fields |
| HttpRoundTrip.FieldMapMeans | client/src/network/TorHttpClient.ts:173-182 | that map holds a name if and only if a field has it in some case, with the value of the last such field |
| HttpRoundTrip.LinesOfBroken | client/src/network/TorHttpClient.ts:163 | splitting at line breaks undoes joining with them |
| HttpRoundTrip.HeaderEnds | client/src/network/TorHttpClient.ts:152-157 | the empty line is found after the last header line and nowhere before |
| ContentLengthHeader.AnnouncedIff | client/src/network/TorHttpClient.ts:97-99 | with a Content-Length line of value n, header lines announce n if and only if the first line, up to that one, that carries anything carries n |
| ContentLengthHeader.HeadAnnouncedIff | client/src/network/TorHttpClient.ts:97-99 | the same by fields: reason and fields up to that one, each carrying the number after a name that ends like Content-Length or is mentioned in its text |
| ContentLengthHeader.CarriedByLine | client/src/network/TorHttpClient.ts:97 | what a written line carries depends on the end of the field's name and on its value, or on the reason, and on nothing else of that line |
| ContentLengthHeader.NextLineLength | client/src/network/TorHttpClient.ts:97 | a field so named with an empty value carries the number the next field's name begins with |
| LengthPattern.AnnouncesIff | client/src/network/TorHttpClient.ts:97-99 | header lines announce n if and only if the first of them that carries anything carries n |
| LengthPattern.ValueInLines | client/src/network/TorHttpClient.ts:97 | reading a number in the header text is reading it line by line, spaces running over line breaks and digits not |
| ContentLengthHeader.OneContentLength | client/src/network/TorHttpClient.ts:97-99 | in particular it is n when no earlier line mentions the name |
| ContentLengthHeader.ResponseArrives | client/src/network/TorHttpClient.ts:90-107 | a written response whose first carrying line carries n, under every chunking, waits for n body bytes and then resolves with its code, reason, fields and exactly those |
| ContentLengthHeader.WrittenResponse | client/src/network/TorHttpClient.ts:90-107 | a response whose status and Content-Length are written in decimal resolves with that status and exactly its body, whatever follows and under every chunking |
| ContentLengthHeader.EarlyEnd | client/src/network/TorHttpClient.ts:109-118 | when the stream ends before the body is there, it resolves with what has come |
| ContentLengthHeader.ResponseCloses | client/src/network/TorHttpClient.ts:109-118 | one in which no line carries anything waits for the end of the stream and resolves with the whole body |
| ContentLengthHeader.PrefixedLength | client/src/network/TorHttpClient.ts:97-99 | a first field whose name only ends like Content-Length sets the length, whatever comes later |
| ContentLengthHeader.WrongLength | client/src/network/TorHttpClient.ts:97-103 | an instance: a response of five body bytes, announced as five, resolves with one |
| ContentLengthHeader.LengthOverTheBreak | client/src/network/TorHttpClient.ts:97-99 | an instance: an empty Content-Length, a field named 7 and a Content-Length of five announce seven |
| ContentLengthHeader.BadStatusThrows | client/src/network/TorHttpClient.ts:97-103 | a complete response of announced length without a status line throws in the listener under every chunking |
| ContentLengthHeader.GarbageThrows | client/src/network/TorHttpClient.ts:97-103 | an instance of that |
| HttpReader.HttpRequest.HeaderMap | client/src/network/TorHttpClient.ts:173-182 | every line with a colon is entered under its trimmed lower-case name, later lines winning |
| Base64.BytesOfSextets | client/src/orchestration/ContactExchange.ts:28-29 | regrouping bytes into six bits and back is the identity |
| Base64.UrlForm | client/src/orchestration/ContactExchange.ts:28-32 | the exported code is the six-bit text in the URL-safe alphabet without padding |
| Base64.CodeRoundTrip | client/src/orchestration/ContactExchange.ts:60-68 | mapped back, padded again and decoded, every byte string is itself, and the padding restored is what the encoder had written |
| Base64.AlphabetIs | client/src/orchestration/ContactExchange.ts:28-32 | the characters are those of tables 1 and 2 of RFC 4648 |
| Base64.TestVectors | client/src/orchestration/ContactExchange.ts:28-29 | three test vectors of section 10 of RFC 4648 |
| Base64.Repad | client/src/orchestration/ContactExchange.ts:62-64 | the loop pads to a multiple of four with the fewest equals signs |
| ContactUri.DecodeUri | client/src/orchestration/ContactExchange.ts:45-68 | the parser's steps find the code of a URI or take the text itself, and decode it |
| ContactUri.UriRoundTrip | client/src/devices/DeviceLinkManager.ts:63-115 | for both schemes, an exported URI gives back its bytes if and only if there are any, and the bare code always does |
| ContactUri.SpacedExport | client/src/orchestration/ContactExchange.ts:45 | and so it does with spaces around the text |
| ContactUri.NoQueryIsACode | client/src/orchestration/ContactExchange.ts:47-58 | a URI without a query is taken for a code, scheme and all |
| ContactUri.PercentDecodes | client/src/orchestration/ContactExchange.ts:51-52 | percent-escapes in a parameter decode to their characters |
| ContactUri.FirstOfName | client/src/orchestration/ContactExchange.ts:51-52 | of two parameters of one name the first counts |
| ContactUri.CodeOfExport | client/src/orchestration/ContactExchange.ts:34-58 | extracting the parameter d from an exported URI gives exactly the code, or the missing-parameter error for an empty one |
| ContactUri.CodeOfBareCode | client/src/orchestration/ContactExchange.ts:45-47 | a bare code is never mistaken for a URI |
| ContactUri.PlusWouldBeLost | client/src/orchestration/ContactExchange.ts:30 | why the alphabet is mapped: a plus left in the query would come out as a space and the byte would be lost |
| ContactUri.ContactRoundTrip | client/src/orchestration/ContactExchange.ts:40-114 | an exported contact is imported unchanged, with the mailbox of its signing key, if and only if its keys are present and its signed prekey verifies |
| ContactUri.NotAContact | client/src/orchestration/ContactExchange.ts:53-75 | bytes that are no JSON, and a URI without any, are refused as such |

## Left out

- Curve arithmetic, HKDF, SHA-256, secretbox and Ed25519: symbolic, with commutative agreement and injective derivation as the only laws.
- Spelling of keys: hex text and its lower-casing are abstracted; keys, mailbox hashes and peers are compared as values.
- createdAt and updatedAt of sessions: they influence nothing the engine does.
- Randomness, clocks, database failures and socket failures: parameters of the calls and steps.
- RunTheorems.DeliveryTheorem: assumes each envelope is handed over at most once, one initiateSession per run on Bob's newest signed prekey, and a first processed envelope that names the bundle's one-time prekey; Replays.ReplayNeverOpens, Replays.LiveReplayLosesTheNext, Replays.FinishedReplayIsFatal, X3dh.LateFirstEnvelopeIsFatal and StaleBundles.StaleFirstIsFatal say what happens otherwise.
- Both sides initiating at once, and re-initiating a live session: the engine does not handle them, so they are not steps of a run.
- DeviceSystem.RunKeeps: devices use the SQLite store, no bundle context is passed, each envelope arrives at most once, a new signed prekey has a later creation time than the ones before, and a pair starts a run only when neither side has a session or a run with the other.
- ForwardSecrecy.ForwardSecrecyIff: deriving keys is the only thing a thief does; texts the engine returned, and copies of keys a store keeps after deleting them, are not followed.
- Interleaved engine calls on one session: nothing in the code serialises them; one call is one step.
- ISignalStore: a two-case datatype instead of an interface; the identity it also stores is a field of the engine, the signature it keeps with a signed prekey is read by no engine call, and countOneTimePreKeys, getSignedPreKey, hasSession and removeSession are not modelled.
- SQL: tables are maps or ordered sequences, each statement and the fetch-and-delete transaction atomic, ids never reused; serialised records are their values.
- Devices: JSON is a bijection on the sync payloads, and a text that claims to be one but lacks fields, which the code files nowhere, has no counterpart; names and times of linked devices, unlinking an own device, deleting single messages and the copy of isSyncMessage in the returned object are not modelled.
- Relay delivery past the live channel: an aborted send task can drop what it had taken; claims stop at the channel and at the frames a session has put on its socket.
- Payload and nonce lengths on the relay: strings stand for their UTF-8 bytes.
- WebSocketFrames.FrameRoundTrip: payloads below 2^53 bytes, the largest length the client can represent exactly; longer ones fit in no buffer.
- WebSocketClient.TorWebSocketClient.HandleRawData: what the text handler does with a message (auth reply, callbacks that close the socket) and the ping and reconnect timers are not modelled.
- WebSocket continuation frames: the client ignores them, so nothing is said about reassembly.
- Text: HTTP responses and URIs are ASCII; the code decodes UTF-8 chunk by chunk. Message texts are the texts UTF-8 gives back: the decoder drops a leading byte-order mark, and the encoder replaces lone surrogates. The base64 decoder passes over every character outside its alphabets.
- ContactUri: percent-escapes decode to single characters; JSON, the signature check and the mailbox hash are parameters.
- HttpReader: time-outs, socket errors and building the request.
- ContactExchange.importContact beyond parsing: that it saves the contact and initiates a session is covered by the import step and by initiateSession, not as one call.
- HttpRoundTrip.ResponseReadsBack: header lines are written with "name: value", trimmed, without a carriage return, and the reason is on one line; for other texts HttpReader.EndsWhenComplete says what the reader makes of them.
- Socks5Tunnel, TorManager, IdentityManager, BackgroundSyncService, NotificationManager, BatteryOptimization, the user interface, Android files and tester-cli: short branches or wrappers around native modules.
