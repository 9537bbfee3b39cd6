# A verified model of the threshold-signing node and its message broker

The node runs GG20 key generation and signing between parties that only share a broadcast
channel. The cryptography lives in libraries; what the repository itself supplies is the
distributed machinery around it, and that is what is modelled here, together with proofs of what
it keeps over every run.

| files | part of the system |
|---|---|
| `Basics`, `Codecs` | shared values; JSON, ECIES, ECDSA and hash parsing as a record of functions |
| `Rooms`, `Groups`, `Storage` | room names, group ids and indices, the one database of groups and shares |
| `Envelopes`, `Ciphers` | encrypt, sign, verify, filter, decrypt: as functions and in place |
| `CoordinatorSpec`, `CoordinatorActor` | every coordinator handler: as a state function, and as an object proved equal to it |
| `MessageLife`, `Routing`, `KeyShares` | what each coordinator step keeps: the message ledger, the runner maps, the key shares |
| `CoordinatorTheorems` | what holds after every legal run of one coordinator |
| `Fates`, `RequestFates` | what each mail does, said of the state before and after, all outcomes included |
| `Outbox`, `Answers` | what goes out on the sink, and what a polled answer says |
| `Conservation`, `Retries` | every message accounted for; one message from its first queuing to its end |
| `Network` | several nodes around one channel, end-to-end delivery for all request ids |
| `PlainNetwork` | what `@`-free ids add: hand-overs to the right index, nothing missed |
| `Pipeline` | server, coordinator and saving task, all interleavings of one response channel |
| `Players`, `PlayerActor`, `Signers` | the driver of a round-based machine, and the collector of partial signatures |
| `Broadcast` | the broker: log, cursors, notifications, subscriber counts |
| `Replacement` | when a room keeps its name, and what coming back to it means |

A method that changes state is proved equal to a state function; lemmas are about those functions
and their runs. The main results are `Network.EndToEndDelivery` and `PlainNetwork.ArrivalIsHandedOver`,
`Conservation.MessagesAreConserved`, `CoordinatorTheorems.CheckedAndDecryptedOnce`,
`Retries.StretchIsBounded`, `CoordinatorTheorems.RoomsAreExclusive`,
`CoordinatorTheorems.SignersAgreeWithKeygen`, `CoordinatorTheorems.LiveRoomsFindTheirGroup`,
`Fates.MessagesMeetTheirFate`, `Fates.OnlyMembersReachRunners`, `RequestFates.RunsMeetTheirFate`,
`Outbox.NothingLeavesUnsealed`, `Answers.PolledAnswersAreReported`,
`Pipeline.OneRequestIffAnnouncedOnce`, `Pipeline.PersistedStatusesFollowPattern`,
`Players.DriverIsFaithful`, `Players.DriverMakesCalls`, `Signers.CompletionIsAttemptedOnce`, `Broadcast.NoLostWakeup`,
`Replacement.ResumptionContinues` and `Replacement.ReplacedExactlyWhenUnwatched`.

## Assumptions

- Libraries: `Codecs.Lawful` is all that is ever assumed of them. JSON loses nothing, decryption
  undoes encryption to one's own key whatever randomness was drawn, and one's own signatures
  verify. `Codecs.LawfulIsConsistent` shows that the list can be met. Nothing is assumed about
  messages of strangers, except in `Network` and `PlainNetwork`, where every broadcast comes from a runner of one of
  the parties.
- Protocol machines: `Players.Contract` says that a machine only appends to its queue, that
  `proceed` never reports a message as out of order, and that its output is handed out once.
  `Players.ContractIsConsistent` shows that it can be met.
- Runners: only a started runner reports a result, and only once (`CoordinatorSpec.Enabled`);
  `Players.DriverIsFaithful` and `Signers.CompletionIsAttemptedOnce` prove this of the runners.
- Waiting: a `Notified` future takes part in every `notify_waiters` call from its creation on,
  also before it is first polled. That is the library's promise; the step `Arm` of the broker
  takes its ticket there.
- Request ids hold no `@` where a theorem says `PlainIds` or `PlainMoves`, and are also not reused
  where it says `LegalUnique` or `FreshRequest`. Keys differ in their eight-character prefixes,
  which hold no `@`, and a key list has fewer than 65536 entries, where it says `ListsOver` or
  `Setup.Valid`; `Network.TwoPartySetup` gives one such setup.
- A handler that panics takes the coordinator down (`alive` turns false); the ledger then stays as
  it was before the message.
- Actors: a runner whose room is given to another runner of its kind reports no result any more.
  The source only drops its address there; a player with mail in its queue or a running timer
  (src/actors/player.rs:231-241) would have to be stopped by the actor library before it finishes.

## What turned out to need a condition

- Extraction returns the group id of a made room exactly when the request id holds no `@` and the
  group id neither, or the request id holds one and by itself yields the same group id
  (`Rooms.ExtractOfRoomId`).
- Two pairs of ids can meet in one room exactly when one of the ids holds an `@`
  (`Rooms.RoomNamesOnlyIff`); two requests for real groups exactly when the room holds a second
  `@` with a multiple of eight characters behind it (`Groups.OnlyRequestForIff`, with the input
  `Groups.RealRoomsCanCollide`). With `@`-free keys that never happens.
- Hand-overs to runners balance exactly when every offered message decodes for only one of the
  runners in its room (`Conservation.MessagesAreConserved`). Unique ids suffice, disjoint message
  types suffice, and with neither `Conservation.ReusedIdReachesTwoRunners` shows the failing run.
- The statuses sent for an id are those of one request exactly when the id was announced at most
  once (`Pipeline.OneRequestIffAnnouncedOnce`). The server's duplicate test does not ensure that,
  since it refuses an id exactly from its first saved status on
  (`Pipeline.DuplicateTestFollowsSaving`); `Pipeline.AcceptedTwiceGoesBack` is the run in which
  a client polls Processing and then Received.
- However the run goes on, a subscriber of the mapped room has the mapped room for as long as it
  lives, exactly if right now no look-up stands between its counter load and its map write
  (`Replacement.SubscriberKeepsItsRoom`, with the failing run `Replacement.WatchedRoomIsReplaced`).
- A message handed over names its runner's own index, before any filter, when ids hold no `@`
  (`PlainNetwork.HandedOverToTheRightIndex`). Otherwise it names this node's index in whatever
  group the room leads to, and the player's filter settles it (`Network.EndToEndDelivery`).
- A client that found the mapped room subscribes to the mapped room exactly when the map was not
  written for the name in between (`Replacement.SubscribesToMappedRoomIff`, with the failing run
  `Replacement.LateSubscriberIsStranded`).
- Resumption continues a stream while another subscriber keeps the room
  (`Replacement.ResumptionContinues`). A look-up finds the mapped room exactly if the room's live
  subscriptions are not a multiple of 2^16 (`Replacement.LookupFindsIff`), so with none it is cut off
  (`Replacement.UnkeptResumptionIsCutOff`).
- The 16-bit subscriber counter reads zero at every multiple of 65536 subscribers
  (`Replacement.ReplacedExactlyWhenUnwatched`).
- A signer with t = 0 never completes (`Signers.CompletionIsAttemptedOnce`).

## Model

| member | source | states |
|---|---|---|
| `Network.EndToEndDelivery` | src/actors/player.rs:190-205 | In every run of any number of parties, whatever the request ids and however often they are reused, all that a player feeds into its protocol machine was emitted by another party's runner for the same room, is a broadcast or names this player's own index as receiver, is not sent under its own index, and has exactly the emitted content after encrypting, signing, verifying, filtering and decrypting |
| `Network.CollectedWasEmitted` | src/actors/signer.rs:103-107 | The same for a signer, whose filter looks at the sender only: every partial it collects was emitted by another party's runner for the room, under another index |
| `Network.HandedOverWasEmitted` | src/actors/coordinator.rs:301-361 | In every run, whatever the ids, every hand-over brings another party's emission for the same room with its exact content, a broadcast or addressed to this node's index in the group on file for the room |
| `PlainNetwork.HandedOverToTheRightIndex` | src/actors/coordinator.rs:233-238 | With `@`-free ids, reused or not, every hand-over is a broadcast or addressed to the very index of the runner that gets it, and comes from another index |
| `PlainNetwork.ArrivalIsHandedOver` | src/actors/coordinator.rs:329-347 | The converse, with `@`-free ids, reused or not: a broadcast that arrives at a party with a runner for its room, addressed to all or to that runner, is handed to that runner at once, nothing being queued, dropped or failed, and to it alone if and only if the message decodes for only one of the runners in the room |
| `Network.RunKeepsNet` | src/actors/coordinator.rs:196-226 | Every reachable network state, whatever the ids, has on its channel, signed, exactly what the nodes' coordinators put on their sinks, only broadcasts that open to the addressee in the group on file for their room, and nodes that keep their ledger, groups and shares in order and received only others' broadcasts |
| `PlainNetwork.RunKeepsPlain` | src/actors/coordinator.rs:103-194 | With `@`-free ids every broadcast's sender stands in the group on file under the index it signs with, and every hand-over went to the node's own index in that group |
| `Network.EmittedIsOk` | src/crypto/encrypter.rs:25-46 | The sealed form of a valid message, signed, is a broadcast with the same room and receiver, readable by the key at the receiver's index of the group on file for the room |
| `Conservation.MessagesAreConserved` | src/actors/coordinator.rs:282-439 | In every live run, received plus bounced messages are dropped, undecryptable on arrival, waiting or routed, with none lost or duplicated; counting hand-overs instead of routed messages balances if and only if every offered message decodes for only one of the runners in its room |
| `Fates.MessagesMeetTheirFate` | src/actors/coordinator.rs:246-439 | In every legal run each next arrival, fired timer or bounce changes the ledger in exactly one stated way, and other events do not touch it |
| `Fates.ArrivalHasFate` | src/actors/coordinator.rs:329-361 | A message of a foreign group is dropped, one whose sender is not in the group on file or that cannot be read waits two seconds as it is, one for another party is dropped, one that does not open only counts as failed, and any other is given to every runner that can read it, once each, or waits two seconds opened and checked; within a group that lacks this node it panics |
| `Fates.RetryHasFate` | src/actors/coordinator.rs:282-327 | A fired timer offers a checked message again, checks an unchecked one again, and otherwise queues it at the next attempt with the next waiting time, or drops it after the 33rd |
| `Fates.BounceHasFate` | src/actors/coordinator.rs:412-438 | A bounced message is queued at attempt 1 as checked for two seconds, counts as one bounce, and nothing else changes |
| `Fates.OnlyMembersReachRunners` | src/actors/coordinator.rs:228-232 | In every legal run, strangers' messages included, each hand-over comes from a received message whose sender is in the group on file for its room |
| `Fates.StrangersReachNobody` | src/actors/coordinator.rs:352-359 | An arrival whose sender is not in the group on file for its room is handed to nobody |
| `RequestFates.RunsMeetTheirFate` | src/actors/coordinator.rs:103-194 | In every legal run each request and each runner's result changes groups, shares, runners, responses and history in exactly one stated way |
| `RequestFates.KeygenHasFate` | src/actors/coordinator.rs:103-130 | Processing is announced, and with this node among long enough keys and a machine that starts, a player in the room of id and group at this node's own place, with the group filed under its threshold unless the id was taken; else no player, and a panic where the key is missing or too short |
| `RequestFates.SignHasFate` | src/actors/coordinator.rs:132-194 | Nothing without a readable share; else the subgroup is filed, and exactly t+1 participants of the stored group get Processing and a player with their places in that group |
| `RequestFates.KeygenDoneHasFate` | src/actors/coordinator.rs:445-483 | The share of a new public key is on file and opens to key list and share, the public key is answered with Done, the room leaves the offline map and the key-generation player stays |
| `RequestFates.OfflineDoneHasFate` | src/actors/coordinator.rs:490-534 | The room leaves the offline map, and a signer with the same task takes it over with Processing, or Error is answered if the hash does not parse |
| `RequestFates.SignDoneHasFate` | src/actors/coordinator.rs:541-562 | The signature is answered with Done, and the signer stays mapped |
| `Outbox.OutboxIsSent` | src/actors/coordinator.rs:208-217 | In every run the sink holds one entry for each message that could go out, in order, which is its sealed form, and nothing else |
| `Outbox.NothingLeavesUnsealed` | src/crypto/encrypter.rs:26-41 | In every run each addressed entry of the sink has as body a ciphertext sealed to the key at the receiver's index of the group on file |
| `Conservation.DisjointDecodersSuffice` | src/actors/coordinator.rs:246-280 | If no payload is of two message types, that holds in every run, ids reused or not |
| `Conservation.UniqueIdsSuffice` | src/actors/coordinator.rs:128-192 | If no request id is reused, that holds whatever the message types |
| `Conservation.ReusedIdReachesTwoRunners` | src/actors/coordinator.rs:301-310 | With a payload of two types, a signing under the id of a finished key generation of the same parties gives a run in which one message reaches both runners |
| `MessageLife.StepKeepsLedger` | src/actors/coordinator.rs:196-439 | Every step of every handler keeps the ledger: conservation, one unchecked copy at most, cleared origins without repeats, exact waiting times; no assumption on the step but that it is possible |
| `CoordinatorTheorems.CheckedAndDecryptedOnce` | src/actors/coordinator.rs:301-385 | No received message is cleared twice; what waits as checked, or was handed over, is the validated, decrypted form of a received message, and what waits unchecked is that message untouched |
| `CoordinatorTheorems.ClearedForGood` | src/actors/coordinator.rs:369-385 | A message once cleared is never again queued as unchecked, through any number of retries and bounces |
| `CoordinatorTheorems.BackoffIsExact` | src/actors/coordinator.rs:282-299 | Every waiting message has between 1 and 33 attempts behind it and has been scheduled for exactly 2^(k+1)-2 seconds up to nine attempts, 1022+600(k-9) beyond |
| `Retries.TimerOutcomes` | src/actors/coordinator.rs:301-327 | A fired retry, checked or not, is delivered, queued again with one more attempt and the right delay, or given up after attempt 33 and 15422 seconds; nothing else |
| `Retries.StretchIsBounded` | src/actors/coordinator.rs:319-326 | In every run, from an arrival or a bounce on, a message is queued at most 33 times, its n-th queuing at attempt n and after exactly the scheduled waiting time, whatever mix of checked and unchecked retries |
| `Retries.LastRetryEnds` | src/actors/coordinator.rs:282-288 | When the 33rd queuing of that sequence fires, the message is delivered, or dropped after 15422 seconds |
| `MessageLife.WaitInClosedForm` | src/actors/coordinator.rs:289-293 | The sum of the delays of the first k attempts has the closed form of the schedule |
| `MessageLife.LongestWait` | src/actors/coordinator.rs:283-293 | All 33 delays together are 15422 seconds |
| `MessageLife.CheckLasts` | src/actors/coordinator.rs:228-244 | A message that passed the check passes it against every later state of the database |
| `CoordinatorTheorems.RoomsAreExclusive` | src/actors/coordinator.rs:301-310 | With unique ids no room is a key of two of the three runner maps, so a message that all three handlers try reaches at most one runner |
| `Routing.KeygenDoneKeepsUnique` | src/actors/coordinator.rs:445-455 | The key-generation output handler removes its room from the offline map, where it never is: all runner maps stay, and the finished runner stays mapped |
| `Routing.OfflineDoneKeepsUnique` | src/actors/coordinator.rs:490-512 | The hand-over from offline stage to signer keeps every room in at most one map |
| `Routing.StepKeepsNode` | src/actors/coordinator.rs:103-194 | Every step keeps all runners tied to a stored group of their key list, to a room made of their id and that group, and to their own index in it |
| `Routing.StepKeepsUnique` | src/actors/coordinator.rs:103-194 | Every step on fresh ids keeps the runner maps apart and the hand-overs counted |
| `CoordinatorTheorems.SignersAgreeWithKeygen` | src/actors/coordinator.rs:132-175 | Every started signing goes back to a finished key generation for its public key, through saving and reading back the share, has t+1 signers listed by their key-generation indices, all in 1..n and distinct exactly when the participants are, and lists the node's own at its place in the subgroup |
| `Network.PartiesComputeSameSigners` | src/actors/coordinator.rs:136-159 | In every run of the network, whatever the ids, two parties that generated the public key in the same group compute the same signer list for the same participants |
| `KeyShares.StepKeepsAgreement` | src/actors/coordinator.rs:445-466 | Every step keeps each stored share openable to the key list and share of a finished key generation for that public key |
| `KeyShares.SavedShareHasOrigin` | src/storage/share_store.rs:21-35 | Saving a new share keeps the origin of every share on file, also when the key was taken before |
| `CoordinatorTheorems.LiveRoomsFindTheirGroup` | src/storage/group_store.rs:16-36 | After any run of first-write-wins saves with `@`-free ids, reused or not, the group on file for a live runner's room has exactly that runner's key list and gives the node the runner's index |
| `CoordinatorTheorems.GroupOfRunner` | src/actors/coordinator.rs:113-128 | The same of one state, with the room's extraction spelled out |
| `CoordinatorActor.Coordinator.constructor` | src/actors/coordinator.rs:71-101 | A new coordinator has empty maps, channels, timers and counters over a fresh database |
| `CoordinatorActor.Coordinator.Handle` | src/actors/coordinator.rs:196-226 | One turn of the actor on any mail is one step of the specification, so runs of the object are the runs that the theorems speak of |
| `CoordinatorActor.Coordinator.HandleIncoming` | src/actors/coordinator.rs:329-361 | A received message changes the ledger as the specification says on every branch, and the handled counters stay equal to the hand-overs |
| `CoordinatorActor.Coordinator.HandleIncomingUnsafe` | src/actors/coordinator.rs:301-327 | All three handlers are tried; a message that no one takes is queued with the next attempt and the checked flag |
| `CoordinatorActor.Coordinator.HandleRetry` | src/actors/coordinator.rs:369-385 | A retry that fails check or decryption, for whatever reason, is queued again as it was |
| `CoordinatorActor.Coordinator.OnTimer` | src/actors/coordinator.rs:201-207 | A fired timer leaves the timers and goes the checked or the unchecked way |
| `CoordinatorActor.Coordinator.Retry` | src/actors/coordinator.rs:282-299 | Beyond attempt 33 a message counts as dropped, else one timer with the right delay is set |
| `CoordinatorActor.Coordinator.OnOutOfOrder` | src/actors/coordinator.rs:412-422 | A bounced message starts over at attempt 1 as checked |
| `CoordinatorActor.Coordinator.OnOutgoing` | src/actors/coordinator.rs:208-217 | An encryptable message goes to the sink, any other is lost |
| `CoordinatorActor.Coordinator.HandleKeygenRequest` | src/actors/coordinator.rs:103-130 | Status, group record, room and runner of a key generation, or a panic where the own key is missing or a key is too short |
| `CoordinatorActor.Coordinator.HandleSignRequest` | src/actors/coordinator.rs:132-194 | Share look-up, subgroup record, signer selection, status and runner of a signing, with every early exit |
| `CoordinatorActor.Coordinator.OnKeygenOutput` | src/actors/coordinator.rs:445-483 | Removal from the offline map, the sealed share on file, and the Done response |
| `CoordinatorActor.Coordinator.OnOfflineOutput` | src/actors/coordinator.rs:490-534 | Removal of the offline runner, then a mapped signer and Processing, or Error when the hash does not parse |
| `CoordinatorActor.Coordinator.OnSignOutput` | src/actors/coordinator.rs:541-562 | The Done response with the signature; the signer stays mapped |
| `Envelopes.EncryptThenDecrypt` | src/crypto/decrypter.rs:16-36 | The party whose key stands at the receiver's index, and any party for a broadcast, reads exactly the emitted message |
| `Envelopes.CiphersKeepTheHeader` | src/crypto/encrypter.rs:25-46 | Both ends keep room, sender, receiver and signature fields, and change at most the body |
| `Envelopes.EncryptSucceeds` | src/core/group.rs:52-65 | An addressed message always encrypts once its group is on file and its index is some party's key |
| `Envelopes.SignedIsAccepted` | src/transport/common.rs:17-75 | A signed message is accepted, unchanged, by exactly the nodes that hold another key |
| `Envelopes.AcceptedIff` | src/transport/common.rs:17-58 | A message is accepted, unchanged, if and only if its signature verifies under its sender's key and the sender is somebody else |
| `Envelopes.EncryptExactly` | src/crypto/encrypter.rs:25-46 | Encryption succeeds if and only if the message is readable and, if addressed, its receiver's key is on file and can be sealed to; it then gives the sealed form |
| `Envelopes.DecryptExactly` | src/crypto/decrypter.rs:16-36 | Decryption gives a message if and only if that is its opened form; nothing addressed gets through unless its body opens to valid JSON |
| `Ciphers.SimpleEncrypter.MaybeEncrypt` | src/crypto/encrypter.rs:25-46 | In place: the message becomes its encrypted form, or a failure leaves it untouched |
| `Ciphers.SimpleDecrypter.MaybeDecrypt` | src/crypto/decrypter.rs:16-36 | In place: the message becomes its decrypted form, or a failure leaves it untouched |
| `Groups.NewGroup` | src/core/group.rs:35-47 | The id-building loop computes the group id of the key list |
| `Groups.GroupIdBlock` | src/core/group.rs:38-40 | The i-th block of eight characters of a group id is the prefix of the i-th key |
| `Groups.SameGroupIdIffSamePrefixes` | src/core/group.rs:36-40 | Two key lists share a group id exactly when they agree in length and in every prefix |
| `Groups.GroupIdInjective` | src/core/group.rs:36-40 | Over keys with distinct prefixes the group id determines the key list and its order |
| `Groups.IndexOf` | src/core/group.rs:74-76 | The first position of a key, counted from 1, or nothing exactly when it is absent |
| `Groups.IndexAndKeyAreInverse` | src/core/group.rs:52-76 | The key at a key's index is that key, and the index of the key at an index is that index exactly for first occurrences |
| `Groups.FilterKeepsOwnGroups` | src/actors/coordinator.rs:331-335 | The substring test on a room accepts every room of a group that holds the node's key, so nothing of one's own is discarded as foreign |
| `Groups.SelectionIsExact` | src/actors/coordinator.rs:149-159 | Selection succeeds exactly on t+1 participants of the group, and lists their group indices in the order of the request |
| `Groups.OwnSignerIndexAgrees` | src/actors/coordinator.rs:167-175 | At the node's position in the subgroup the list holds its index in the group |
| `Groups.SignersAreDistinctIndices` | src/actors/coordinator.rs:149-159 | All entries lie in 1..n, and they are distinct exactly when the participants are |
| `Storage.Database.SaveGroup` | src/storage/group_store.rs:25-36 | Compare-and-swap from absent: the first group record of an id stands |
| `Storage.Database.SaveShare` | src/storage/share_store.rs:21-35 | Compare-and-swap from absent: the first sealed share of a public key stands |
| `Storage.ShareRoundTrip` | src/core/types.rs:23-57 | Sealing a share and opening it gives back key list, own key and share |
| `Storage.HistoryOnlyAdds` | src/storage/group_store.rs:30-34 | No later save changes a record already on file |
| `Storage.NothingIsMasked` | src/storage/share_store.rs:21-44 | Over any history of saves into the one tree, a saved group or share is found as its own type ever after, since group ids have a length divisible by eight and share keys have 66 characters |
| `Rooms.MakeRoomId` | src/utils/mod.rs:21-26 | The room name built step by step is request id, separator, group id |
| `Rooms.ExtractReturnsSecondSegment` | src/utils/mod.rs:13-19 | On any text, extraction fails exactly without a separator and else returns the segment between the first and the second one |
| `Rooms.ExtractOfRoomId` | src/utils/mod.rs:13-26 | Round trip, exactly: it holds for `@`-free ids, fails for an `@`-free request id with an `@` in the group id, and with an `@` in the request id holds if and only if that id alone yields the group id |
| `Rooms.RoomIdInjective` | src/utils/mod.rs:21-26 | If both request ids, or both group ids, are `@`-free, equal rooms mean equal request ids and group ids |
| `Rooms.RoomNamesOnlyIff` | src/utils/mod.rs:21-26 | A room names a single pair of ids if and only if neither id holds an `@` |
| `Groups.OnlyRequestForIff` | src/core/group.rs:36-40 | A room belongs to one request for a real group if and only if no second `@` in it has a multiple of eight characters behind it |
| `Groups.RealRoomsCanCollide` | src/core/group.rs:36-40 | Two requests for real groups in one room: a key with an `@` at its tenth place, and a request id that matches |
| `Basics.ContainsIffOccurs` | src/actors/coordinator.rs:331 | The substring search succeeds exactly when the text splits around the pattern |
| `Pipeline.OneRequestIffAnnouncedOnce` | src/server.rs:42-92 | In every interleaving of server, coordinator and saving task, accepting ids as often as the server does, the statuses sent for an id are a beginning of Received, Processing, Done or of Received, Processing, Processing, Done if and only if the id was announced at most once |
| `Pipeline.PersistedStatusesFollowPattern` | src/main.rs:153-157 | In every interleaving polling shows the last persisted status of an id, never Error; for an id announced at most once the persisted statuses are a prefix of the pattern of its own request |
| `Pipeline.AcceptedTwiceGoesBack` | src/server.rs:42-52 | The run in which an id is accepted twice before its first status is saved, and a client polls Processing and then Received |
| `Pipeline.ResultsNeverGoBack` | src/server.rs:94-115 | Whatever happens next, a polled result for an id announced once neither disappears nor falls back to an earlier status |
| `Pipeline.RunKeepsSys` | src/server.rs:38-92 | All interleavings keep request queue, runner stages, sent statuses and saved results consistent |
| `Pipeline.OfflineResultIsNoError` | src/actors/coordinator.rs:495-533 | The hash of every signing that came through the server parses again after the offline stage |
| `Pipeline.DuplicateTestFollowsSaving` | src/server.rs:42-52 | The server refuses an id as duplicate exactly when a status of it has been persisted |
| `Pipeline.ResultsAreLastStatuses` | src/main.rs:54-62 | The results hold an id exactly when a status was saved for it, and then the last one |
| `Pipeline.ResultsAreLastResponses` | src/main.rs:54-62 | The results hold for an id the whole last response saved for it, and nothing for an id without one |
| `Answers.PolledAnswersAreReported` | src/actors/coordinator.rs:457-473 | In every interleaving a polled status before Done comes with an empty result, a Done with the very public key or signature that a runner with this id reported, for a key generation that of a finished one, and for an id announced once the type is that of its call |
| `Pipeline.Backend.Keygen` | src/server.rs:38-62 | A known id changes nothing; a new one is answered, announced as Received and queued, in that order of channels |
| `Pipeline.Backend.Sign` | src/server.rs:64-92 | The same, and a hash that does not parse changes nothing |
| `Pipeline.Backend.CheckResult` | src/server.rs:94-115 | Answers with the stored result, or not found exactly when there is none |
| `Pipeline.Backend.HandleResponses` | src/main.rs:153-157 | The saving loop empties the channel in order, later statuses overwriting earlier ones |
| `Players.DriverIsFaithful` | src/actors/player.rs:94-208 | Over any sequence of ticks and messages the machine is fed exactly the messages of others that are for everybody or for this party, in order; emitted plus queued is all it ever produced, once and in order; at most one result; at most one bounce per message fed |
| `Players.DrivingKeeps` | src/actors/player.rs:163-175 | After each successful drive the queue is empty and everything produced has been emitted; a failing one never reports out of order |
| `Players.DriverMakesCalls` | src/actors/player.rs:113-175 | Over any inputs the calls on the machine lead from its first state to its present one and are whole drives: drain, proceed once exactly if the drained machine wants to, then, unless that failed, drain and pick the output of a finished machine; what was emitted is what was drained, what was reported is what was picked |
| `Players.ProceedsOnlyWhenWanted` | src/actors/player.rs:113-119 | Over any inputs `proceed` is called only in states that want it |
| `Players.MessageMakesCalls` | src/actors/player.rs:190-208 | A message of another index, for all or for this one, is counted, fed and driven once, and the errors of feeding and of proceeding are reported with it; any other changes nothing |
| `Players.TickMakesCalls` | src/actors/player.rs:231-241 | A tick drives once before the first message, and does nothing after it |
| `Players.AcceptedAreForMe` | src/actors/player.rs:190-205 | Nothing from the own index or for another index is ever accepted |
| `PlayerActor.MpcPlayer.constructor` | src/actors/player.rs:38-63 | A new player has fed, emitted and reported nothing |
| `PlayerActor.MpcPlayer.SendOutgoing` | src/actors/player.rs:121-134 | The loop emits the queue in order and drains it |
| `PlayerActor.MpcPlayer.MaybeProceed` | src/actors/player.rs:163-175 | Send, refresh, proceed if wanted, and on success send, refresh and finish again |
| `PlayerActor.MpcPlayer.ProceedIfNeeded` | src/actors/player.rs:113-119 | The machine proceeds exactly if it wants to, and its error is returned |
| `PlayerActor.MpcPlayer.OnMessage` | src/actors/player.rs:190-208 | Filter, count, feed, report, drive, report |
| `PlayerActor.MpcPlayer.OnTick` | src/actors/player.rs:231-241 | The timer drives the machine only before the first message |
| `Signers.CompletionIsAttemptedOnce` | src/actors/signer.rs:66-109 | For any arrivals, completion is tried once, on exactly the first t partials of others in order, if t is at least 1 and so many arrived, and never otherwise; so at most one signature is reported |
| `Signers.Signer.constructor` | src/actors/signer.rs:43-64 | A started signer broadcasts its own partial signature, if it has one |
| `Signers.Signer.OnMessage` | src/actors/signer.rs:103-110 | A foreign partial is kept and completion is tried when t are there; an own one changes nothing |
| `Broadcast.NoLostWakeup` | messenger/src/main.rs:104-145 | In every interleaving a parked subscriber can wake up, or has its cursor at or past the end of the log, or a publisher stands between push and notification; so whenever no one holds the write lock, a parked subscriber with something to read can wake up |
| `Broadcast.RunKeepsBroker` | messenger/src/main.rs:71-152 | Every interleaving keeps mutual exclusion, wake-ups, subscriber counts and streams |
| `Broadcast.StepKeepsLocks` | messenger/src/main.rs:104-135 | One writer of a log at a time, and no reader beside it; one writer of the room map |
| `Broadcast.CounterCountsSubscriptions` | messenger/src/main.rs:110-152 | The counter of a room is the number of its live subscriptions, modulo 2^16 |
| `Broadcast.StreamsFollowTheLog` | messenger/src/main.rs:132-146 | Every subscription delivers the ids after its start without gap, each with the log entry of that id; ids wrap only after 65535 |
| `Broadcast.LogIsWhatWasPushed` | messenger/src/main.rs:104-108 | In every interleaving a room's log is exactly what was published to it, in order |
| `Broadcast.SubscriptionBegins` | messenger/src/main.rs:110-116 | A subscription begins in its request's room with the first message, or behind the last id seen |
| `Broadcast.StreamIsStretch` | messenger/src/main.rs:132-146 | Within 16 bits, what a subscription delivered is one stretch of the log |
| `Broadcast.FreshStreamsAgree` | messenger/src/main.rs:110-146 | Two fresh subscriptions of a room see the same sequence, one perhaps further than the other |
| `Replacement.JudgeDecides` | messenger/src/main.rs:82-90 | A look-up under the write lock takes the mapped room if its live subscriptions are not a multiple of 2^16, and otherwise goes on to write a new one, changing nothing yet |
| `Replacement.ReplacedExactlyWhenUnwatched` | messenger/src/main.rs:71-91 | A mapped room that no look-up is about to replace stays so, over any run, if and only if no look-up loads a counter of zero for it, that is at a multiple of 2^16 live subscriptions |
| `Replacement.StillMappedIff` | messenger/src/main.rs:80-91 | A room keeps its name, over any run, if and only if the map is not written for the name |
| `Replacement.ReplacedForGood` | messenger/src/main.rs:80-91 | A room that is not mapped is never mapped again |
| `Replacement.SubscriberKeepsItsRoom` | messenger/src/main.rs:71-91 | A subscriber of the mapped room has the mapped room for as long as it lives, in every continuation of the run with fewer than 2^16 subscriptions of that room, if and only if no look-up now stands between its counter load and its map write |
| `Replacement.StaysUntilInstalled` | messenger/src/main.rs:83-90 | Over one given run a living subscriber stays in the mapped room if and only if the map is not written for the name |
| `Replacement.LookupFindsIff` | messenger/src/main.rs:72-84 | A look-up, under the read or the write lock, ends with a room in hand if and only if that room is mapped and its live subscriptions are not a multiple of 2^16 |
| `Replacement.WatchedRoomIsReplaced` | messenger/src/main.rs:83-86 | A run in which a room with a live subscriber is replaced: it subscribed between another look-up's counter load and map write |
| `Replacement.SubscribesToMappedRoomIff` | messenger/src/main.rs:25-26 | A client that found the mapped room subscribes to the mapped room if and only if the map was not written for the name in between |
| `Replacement.LateSubscriberIsStranded` | messenger/src/main.rs:25-26 | A run in which another look-up between a client's look-up and its subscription leaves it in a replaced room |
| `Replacement.MappedRoomIsFound` | messenger/src/main.rs:71-91 | Until the map is written for a name, every later request for it finds the same room |
| `Replacement.ReplacedRoomIsLost` | messenger/src/main.rs:71-91 | Once a room is replaced no later request finds it, whoever still holds it |
| `Replacement.ResumptionContinues` | messenger/src/main.rs:110-174 | A client that has seen part of a room which another subscriber keeps, and comes back later by look-up and last seen id, continues its stream: together they are one stretch of the log, without gap or repeat, within 16 bits (section 9.2.4 of the WHATWG HTML Living Standard) |
| `Replacement.UnkeptResumptionIsCutOff` | messenger/src/main.rs:71-116 | A run with no keeper: the client comes back behind id 0 in a new, empty room |
| `Replacement.EntriesBeforeStartAreMissed` | messenger/src/main.rs:132-146 | Within 16 bits a subscription never delivers an entry before its start, whatever the room |
| `Broadcast.RoomCell.Publish` | messenger/src/main.rs:104-108 | The message goes to the end of the log and waiters are notified |
| `Broadcast.RoomCell.Subscribe` | messenger/src/main.rs:110-116 | The counter goes up by one and the cursor starts behind the last seen id, or at the first message |
| `Broadcast.Subscription.Poll` | messenger/src/main.rs:133-145 | One pass of the loop: the entry at the cursor and the next id, or a ticket for notifications still to come |
| `Broadcast.Subscription.Drop` | messenger/src/main.rs:148-152 | The counter goes down by one |

## Left out

- GG20 key generation, the offline stage and the completion of signatures: library code, entering as a record of functions with a contract.
- ECIES, ECDSA, SHA-256, hex, base64, JSON text and the keystore: functions with the assumptions above; a stored value decodes as one of the two record types and never as the other.
- The hand-over of the sink in `send_one`: it rests on a critical section of the actor library; here an outgoing message simply joins the outbox.
- Failing channels and databases: sends succeed and saves reach the tree; the branches for internal errors of the server are not modelled.
- Round deadlines, initial timestamps and clocks: carried but never used to decide anything; timers fire in any order.
- Prometheus, logging, the metrics page, command line, Redis, HTTP and gRPC plumbing: reporting and I/O; the received, dropped and handled counters are kept.
- `issue_unique_idx` and the next index of a room: never called.
- Arithmetic that a debug build would stop on (attempts, cursors, counters): follows the wrap-around of a release build.
- The request channel and the coordinator's mailbox are one first-in first-out queue, since a single task moves requests from one to the other.
- Players and signers run inside the network as events of their node: a runner may emit any valid message under its own index, which is more than any actual machine emits.
- CoordinatorActor.Coordinator.HandleIncoming: says nothing of the ledger after a panic, because the actor is then gone.
- Network.EndToEndDelivery: every broadcast on the channel comes from a runner of some party; messages of other senders are outside the statement.
