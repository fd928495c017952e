# Signal Desktop: proofs about its stateful core

Dafny models of the parts of Signal Desktop in which state, order and failure interact, and proofs of
what they keep. `dafny verify dfyconfig.toml` checks everything.

## What is modelled

**Zone transactions of the Signal protocol store** (`KyberTriples`, `ZoneProtocol`, `ZoneSafety`,
`ZoneTransactions`, `ZoneRuns`, `ZoneReads`, `SignalProtocolStore`). `withZone` is a re-entrant lock around asynchronous bodies.
Writes are staged in six pending collections and then handed to the database as one batch; the caches
follow when the database has answered. `ZoneProtocol` has one transition for each stretch of code between
two awaits, so calls overlap as they do in the program: they arrive, stage, finish or throw, the database
answers or refuses, caches are updated, calls leave. The class `Store` holds the fields that the code
updates; each method is proved equal to a transition. The string keys of the triple cache are modelled as
strings, character by character.

**Identity trust** (`IdentityTrust`, `IdentityEffects`). The four operations on identity keys as a state machine with failing
writes, and the class that performs them. `verifiedKey` remembers for which key a contact was verified.

**Sessions** (`Sessions`). Session records are objects on the heap that cached and pending entries share;
archiving changes them in place.

**Conversations** (`Conversations`, `ConversationMerge`, `MergeTheorem`, `MergeEffects`, `MergeChoice`,
`MergeRuns`, `ConflictScan`, `ConflictSurvivors`, `ConflictPairs`, `ConflictLookups`, `ConversationController`). The list, its five lookups, the merge of up to three
identifiers that may belong to three conversations, and the backward scan for conflicts. Identifiers are
tagged, so phone numbers, service ids, group ids and local ids never coincide. A conversation object is
named by a number, its attributes are in the map `models`.

**The database key** (`SqlKey`, `SqlKeyStarts`). A start computes a plan of configuration writes; it can be stopped before
any of them. Encryption, backend and decryption vary from start to start.

**The challenge handler** (`ChallengeProtocol`, `ChallengeSafety`, `ChallengeRuns`, `ChallengeEffects`, `ChallengeHandler`). Registered
conversations, timers, parked starts and overlapping captcha solves. A public method is one step; the two
waits inside a solve and the timers are steps of their own.

**Orphaned files** (`MessagePages`, `OrphanCleanup`). The paged read of all messages, with the temporary
table and the triggers that keep it complete while messages change, and the cleanup built on it.

**Byte framing** (`Framing`). Ciphers and digests are functions in the datatype `Crypto`; `Lawful` states
what is assumed of them, namely lengths and that decryption inverts encryption. `TOY` meets these laws.

In each class the smaller methods, one for each stretch of code between two awaits, refine one transition of
the corresponding state machine; the table below lists the public ones and the main results only.

## Results that limit what the code promises

- A reverted zone keeps its kyber triples pending; the next successful call writes them
  (`AllOrNothingFailure`, `RevertedTripleIsWritten`).
- A call that stages during the outermost commit leaves its write pending when the lock is given up
  (`LateWriteStaysPending`, `NothingPendingExactly`).
- When the commit after a body is refused, the zone is never left (`RefusedCommitLocksForever`), and only then
  (`StuckGrowsExactly`).
- A triple whose batch is in flight passes the duplicate check a second time (`SecondMarkPasses`,
  `MissedExactlyBeforeApply`); the database then refuses the second batch.
- The comment at `ts/ConversationController.preload.ts:112` says that a PNI without an ACI goes into
  the service id field. After a merge that is so except in one case, `LeftAsFound`: no ACI is given, the
  conversation found by the PNI has an empty service id, and the phone number is not given or finds the same
  conversation. `MergeIsCorrect` states it in both directions. The case needs a contact that was stored in this way
  (`LeftAsFoundHappens`); merges never lead to it (`PniAlwaysServes`).
- Two entries of one contact can both be taken out by the scan for conflicts: the first part of a round takes
  the earlier one out and the part for the PNI then takes the later one out in its favour
  (`BothGoExactly`, `BothGoHappens`).
- A number dropped by the scan keeps its entry in the lookup, which may lead to the contact that lost it
  (`NumberMayLeadAstray`).
- At `ts/ConversationController.preload.ts:1184-1191` the branch that keeps the existing conversation is
  never taken, since the conversation has a PNI there; the model leaves the branch out.
- A challenge registered under an earlier rate limit can be lost (`RegisteringTracksExactly`,
  `LostUnderEarlyLimit`), and a conversation parked without a time is not started by going online
  (`OnlineStartsExactly`, `ParkedWithoutTime`).
- When all stored challenges are too old, they stay stored after loading (`LoadStoresExactly`).
- Without a plaintext copy a wrong decryption is not noticed (`WrongKeyExactly`).
- A session archived in a reverted zone stays archived if it had a live record (`ArchiveThenRevert`).
- A family name without a given name comes back as given name (`NameRoundTrip`), an empty profile
  field cannot be decrypted (`ProfileRoundTrip`), and an empty digest agrees with every attachment
  (`FullDigestIsExact`).

## Assumptions

- The database answers batches in the order in which they were submitted; a batch is written whole or not at all.
- Merge: no two conversations share an identifier at the start, serviceId and pni slots counted together,
  and a PNI in the serviceId slot is in the pni slot too.
- Conflict scan: lookups by local id are exact, and groups have no identifiers of contacts. Nothing else
  touches the list while a combine is awaited.
- Database key: decryption is right or throws whenever no plaintext copy is stored. Nothing is assumed
  while one is.
- Paged read: the files of a message change together with its json column. Without that a file in use can be
  deleted (`UnnoticedFileIsTaken`).
- Timers do not fire early.

## Model

| member | source | states |
|---|---|---|
| KyberTriples.CacheKeyInjective | ts/SignalProtocolStore.preload.ts:219-230 | two different triples (key id, signed pre-key id, base key) never share a cache key, for ACI and `PNI:` service ids alike |
| KyberTriples.PrefixExact | ts/SignalProtocolStore.preload.ts:1276-1281 | a cache key starts with `id:` if and only if it belongs to a triple of key `id`, so removal by prefix takes all of a key's triples and no others |
| ZoneSafety.WriteKeepsMatch | ts/SignalProtocolStore.preload.ts:1263-1312 | writing a batch to the tables and applying it to the caches keep sessions, sender keys, pre-keys, kyber pre-keys and triples equal on both sides |
| ZoneSafety.RunKeepsInv | ts/SignalProtocolStore.preload.ts:1158-1390 | over every run of overlapping, nested, throwing and refused calls: the zone is unset exactly at depth 0, depth counts the calls entered and not left, all of them are in the current zone, a waiting first call wants another one; a call that awaits the database has one batch under way; and the caches, with the written but not yet applied batches replayed on them, equal the tables |
| ZoneSafety.CachesAgreeAtRest | ts/SignalProtocolStore.preload.ts:1239-1313 | whenever no commit is in flight the caches equal the database tables, and none is in flight while the lock is free |
| ZoneTransactions.BodyWritesNothing | ts/SignalProtocolStore.preload.ts:1189-1203 | while the outermost body runs, overlapping calls of its zone included, database and caches stay as on entry |
| ZoneTransactions.AllOrNothingSuccess | ts/SignalProtocolStore.preload.ts:1202-1259 | success: all that was staged goes out as one batch, and once it has arrived readers see what they saw just before the commit |
| ZoneTransactions.AllOrNothingFailure | ts/SignalProtocolStore.preload.ts:1193-1200 | a throw leaves database, caches and the view of readers as on entry; of what was staged exactly the kyber triples survive |
| ZoneReads.SessionIsRead | ts/SignalProtocolStore.preload.ts:1452-1508 | in a zone that keeps sessions pending, `loadSession` returns the stored record from then on, every other id and every other reader is unchanged, and nothing but the pending data changes; in another zone it goes out at once with all that is pending |
| ZoneReads.SenderKeyIsRead | ts/SignalProtocolStore.preload.ts:949-986 | the same for sender keys and `getSenderKey` |
| ZoneReads.PreKeysAreGone | ts/SignalProtocolStore.preload.ts:715-745 | the same for removed pre-keys: `loadPreKey` returns nothing for exactly those ids, beside what it did not return before |
| ZoneReads.KyberPreKeysAreGone | ts/SignalProtocolStore.preload.ts:586-623 | the same for kyber pre-keys |
| ZoneReads.UnprocessedIsAdded | ts/SignalProtocolStore.preload.ts:2517-2545 | exactly the given items are pending, beside the earlier ones; every reader is unchanged |
| ZoneReads.TripleIsMarked | ts/SignalProtocolStore.preload.ts:552-583 | a triple that is cached or pending changes nothing; any other is pending from then on, or goes out at once |
| ZoneReads.BodyReadsOwnWrites | ts/SignalProtocolStore.preload.ts:1392-1435 | over every body: the readers return the last record that was stored for an id, nothing for a removed key, and else what the tables hold |
| ZoneReads.BodyReachesTables | ts/SignalProtocolStore.preload.ts:1210-1313 | over every transaction: the database accepts the batch if and only if each new triple belongs to a key that is there and stays; then each table holds the last record stored for each id, no removed key and none of its triples, every marked triple, and else what it held, and the readers return the tables |
| ZoneTransactions.RevertedTripleIsWritten | ts/SignalProtocolStore.preload.ts:1325-1329 | that exception is real: a triple marked by a call that threw is written by the next successful call, which staged nothing itself |
| ZoneTransactions.AcceptedTripleStaysRejected | ts/SignalProtocolStore.preload.ts:535-583 | a triple accepted once is rejected at every later time at which no commit is in flight, also after a revert, until its key is removed or its batch refused |
| ZoneRuns.MissedExactlyBeforeApply | ts/SignalProtocolStore.preload.ts:1263-1271 | in every reachable state, a triple of the table passes the duplicate check if and only if it is not pending and comes with a batch that is written and not yet applied to the caches |
| ZoneRuns.SecondMarkPasses | ts/SignalProtocolStore.preload.ts:563-581 | a run: in a zone that does not keep triples pending, two overlapping calls mark the same triple and neither fails; two batches with it are on their way |
| ZoneRuns.SecondMarkIsRefused | ts/sql/Server.node.ts:1211-1237 | that run goes on: the database takes the first batch and refuses the second, whose other writes are lost |
| ZoneTransactions.SecondCopyIsRefused | ts/sql/Server.node.ts:1211-1237 | whatever else is in the two batches, the database refuses the second one that carries the triple |
| ZoneRuns.LateWriteStaysPending | ts/SignalProtocolStore.preload.ts:1202-1205 | a run from the end of the outermost body: a call of the same zone stages while the commit is on its way, and the write is still pending when the lock is given up |
| ZoneRuns.NothingPendingExactly | ts/SignalProtocolStore.preload.ts:1202-1205 | for every run from the end of the outermost body to its leave: nothing is pending then if and only if nothing, or nothing but empty writes, was staged behind the body since the last commit in between |
| ZoneTransactions.FinishingRunsEnd | ts/SignalProtocolStore.preload.ts:1348-1389 | without new calls and writes the steps left are bounded by a weight over queue, calls and batches |
| ZoneTransactions.ServedInOrder | ts/SignalProtocolStore.preload.ts:1366-1389 | the queue loses calls from its front only |
| ZoneTransactions.EveryWaitingCallEnters | ts/SignalProtocolStore.preload.ts:1166-1187 | a run that finishes what it can lets each call of the queue in at some point, and ends with an empty queue and a free lock, if no commit after a body is refused on the way; if one is, the lock is not free at the end |
| ZoneTransactions.LastOneAdmits | ts/SignalProtocolStore.preload.ts:1366-1389 | the last call to leave admits the longest run of waiting calls of one zone, in order of arrival |
| ZoneTransactions.StuckGrowsExactly | ts/SignalProtocolStore.preload.ts:1202-1205 | over every run, no further call gets stuck if and only if the batch of a call whose body is over is never refused |
| ZoneRuns.RefusedCommitLocksForever | ts/SignalProtocolStore.preload.ts:1202-1205 | a run from any state in which an outermost body ends with something pending, followed by a refusal and by whatever else: the zone is still locked and the waiting calls still wait |
| SignalProtocolStore.Store.ShiftRun | ts/SignalProtocolStore.preload.ts:1366-1378 | the loop over the queue takes exactly the longest prefix of one zone |
| SignalProtocolStore.Store.StageWrite | ts/SignalProtocolStore.preload.ts:535-623 | staging is the Stage transition, a duplicate triple fails, and a zone that does not keep the write commits at once |
| SignalProtocolStore.Store.MaybeRemoveKyberPreKey | ts/SignalProtocolStore.preload.ts:535-583 | an unknown key is no matter, a key for one use is staged for removal, a key of last resort stays and gets the triple, and a duplicate triple fails |
| SignalProtocolStore.Store.BodyFinished | ts/SignalProtocolStore.preload.ts:1191-1205 | commit or revert at depth 1, otherwise leave; all invariants kept |
| SignalProtocolStore.Store.ApplyToCaches | ts/SignalProtocolStore.preload.ts:1263-1313 | the code behind the answer applies the batch and keeps all invariants |
| SignalProtocolStore.RemoveKyberPreKeys | ts/SignalProtocolStore.preload.ts:1272-1283 | the loop that drops keys one by one, with their prefix, removes exactly the listed keys and their triples, in whatever order |
| Conversations.ChangedExactly | ts/ConversationController.preload.ts:98-144 | for every change, what each of the three identifiers is afterwards: a number takes the PNI along unless one is given, and a PNI fills a service id that is empty or the PNI and takes it along |
| ConversationMerge.GetExact | ts/ConversationController.preload.ts:453-471 | `get` finds the holder of an identifier, and nothing exactly when there is none |
| MergeTheorem.MergeIsCorrect | ts/ConversationController.preload.ts:740-1029 | from every well-formed controller and every choice of identifiers: an error exactly when none is given; otherwise the result holds all of them, indexes and uniqueness survive, unmatched conversations are untouched, and exactly the other matches left without identifiers are handed over |
| MergeTheorem.MergedIsFound | ts/ConversationController.preload.ts:453-471 | after the merge `get` on each given identifier yields the result |
| MergeChoice.ResultExactly | ts/ConversationController.preload.ts:814-903 | on the identifiers alone: an existing conversation is the result if and only if it holds the ACI; or nobody does, it holds the phone number, and no ACI is given or it has none; or nobody holds either, it holds the PNI, and it has none of the kind of the first of them that is given; else a new one is |
| MergeChoice.NothingOverwritten | ts/ConversationController.preload.ts:841-948 | no merge takes or replaces an ACI; the phone number of an existing conversation is replaced on the result only, and only when an ACI is given, or it goes from another conversation to the result |
| MergeEffects.OthersLoseOnly | ts/ConversationController.preload.ts:905-948 | the other matches lose exactly the identifier they were found by, with the phone number the PNI, and with the PNI its double in the service id slot; an ACI stays |
| MergeEffects.ResultKeepsRest | ts/ConversationController.preload.ts:98-144 | what is not given stays on the result: group, ACI, phone number, and the PNI unless the number moves |
| MergeEffects.PniGoesWithNumber | ts/ConversationController.preload.ts:107-110 | without a PNI given, the result keeps its PNI if and only if its phone number does not come from elsewhere |
| MergeRuns.PniAlwaysServes | ts/ConversationController.preload.ts:98-144 | over every run of merges from conversations in which a PNI comes with a service id, an empty list for one: the next merge puts the given PNI on its result, and into the service id too when there is no ACI, without exception |
| MergeRuns.LeftAsFoundHappens | ts/ConversationController.preload.ts:976-987 | the exception of a single merge is real for a contact stored with a PNI and an empty service id: the merge leaves it so |
| ConflictScan.VisitsEachOnce | ts/ConversationController.preload.ts:1119-1127 | the backward loop visits every conversation of the original list exactly once, last to first, although the list shrinks |
| ConflictScan.NoConflictsRemain | ts/ConversationController.preload.ts:1132-1238 | no two remaining conversations share a service id, a PNI (both slots counted together) or a phone number |
| ConflictSurvivors.WithoutConflictSurvives | ts/ConversationController.preload.ts:1121-1285 | a conversation that shares no identifier and no V2 group id with another is still there afterwards, with all its attributes |
| ConflictPairs.PairDecided | ts/ConversationController.preload.ts:1132-1238 | for two contacts that conflict with nobody else, wherever they are in the list: which of them stays, and whether the later one loses its number, by their attributes alone |
| ConflictPairs.SameServiceId | ts/ConversationController.preload.ts:1136-1160 | with the same service id and no PNI in common, the earlier one stays if and only if it has a phone number, and the later one otherwise |
| ConflictPairs.SameNumber | ts/ConversationController.preload.ts:1197-1236 | with the number in common alone: different service ids keep both, and the later one loses the number; otherwise the earlier one stays if and only if it has a service id |
| ConflictPairs.BothGoExactly | ts/ConversationController.preload.ts:1163-1192 | with a PNI in common the later one goes; both go if and only if they share a PNI and the earlier one has no phone number and shares its service id too, or has no service id and shares its number too; and both stay in exactly the stated cases |
| ConflictPairs.BothGoHappens | ts/ConversationController.preload.ts:1163-1192 | a list of two entries of one contact, with the same ACI and PNI and without a phone number, that the scan leaves empty |
| ConflictPairs.LastGroupStays | ts/ConversationController.preload.ts:1241-1284 | of the groups with one V2 id, own or derived, the last V2 group stays, or the last of all when there are V1 groups only, and no other |
| ConflictLookups.ScanTrims | ts/ConversationController.preload.ts:2045-2087 | after a scan the lookups have exactly the entries from before, without those of conversations taken out; by local id exactly the list |
| ConflictLookups.NumberMayLeadAstray | ts/ConversationController.preload.ts:1205-1219 | when two contacts are told apart, an entry that led from their number to the later one still does, although that one has no number any more |
| ConflictScan.OneGroupRemains | ts/ConversationController.preload.ts:1241-1284 | exactly one group remains for each given or derived V2 id: the last V2 group, otherwise the last V1 group |
| ConversationMerge.EnteredExactly | ts/ConversationController.preload.ts:1984-2043 | a conversation is entered under each of its identifiers, unless another one is there that is better known; every other entry stays |
| ConversationMerge.CreatedExactly | ts/ConversationController.preload.ts:495-577 | what is not found is created with the identifier in the slot of its kind, and with the phone number and PNI given beside it |
| ConversationController.ConversationController.Get | ts/ConversationController.preload.ts:453-471 | the lookups in their order of precedence |
| ConversationController.ConversationController.GetOrCreatePrivate | ts/ConversationController.preload.ts:495-577 | the conversation found, or a new one in list and lookups |
| ConversationController.ConversationController.MaybeMergeContacts | ts/ConversationController.preload.ts:740-1029 | the loop over the matches meets the whole merge specification: result, indexes, uniqueness, hand-over |
| ConversationController.ConversationController.CombineConversations | ts/ConversationController.preload.ts:1298-1318 | early return for one already combined or of the other type, else removal |
| ConversationController.ConversationController.CheckForConflicts | ts/ConversationController.preload.ts:1111-1287 | the loop with its local lookups refines the scan and never reads outside the shrinking list; afterwards no two conversations conflict, each V2 id has one group, the one described, and conversations without conflict are as before |
| SqlKey.ConfigFile.Set | app/base_config.node.ts:75-97 | memory and file agree after every write, also a failed one, when file errors are thrown |
| SqlKey.ConfigFile.Remove | app/base_config.node.ts:99-118 | a missing file counts as removed, another failure is thrown and changes nothing |
| SqlKey.GetSqlKey | app/main.main.ts:1681-1791 | for every configuration, surroundings and point of failure: outcome and file are those of the plan cut off there |
| SqlKeyStarts.BackendChangeExactly | app/main.main.ts:1703-1717 | a start ends with the backend error if and only if it is Linux, a backend is stored and another one is in use; nothing is written then |
| SqlKeyStarts.RefusedExactly | app/main.main.ts:1720-1743 | when a start cannot decrypt, fails to decrypt, or quits, on the fields; the configuration is unchanged then |
| SqlKeyStarts.FromEncrypted | app/main.main.ts:1720-1753 | a start from an encrypted key that returns: which key, and each field of the configuration |
| SqlKeyStarts.FromPlaintext | app/main.main.ts:1754-1791 | a start without an encrypted key that returns: which key, and each field of the configuration |
| SqlKeyStarts.WritesNeeded | app/main.main.ts:1729-1791 | a start that no error ends returns if and only if as many writes succeed as the fields say |
| SqlKeyStarts.StoppedInOrder | app/main.main.ts:1763-1784 | a start stopped by a write leaves the backend as it was, and the plaintext as long as there is no encrypted key |
| SqlKeyStarts.EncryptedUnderOneBackend | app/main.main.ts:1703-1784 | over every sequence of starts on Linux: once one has returned with an encrypted key, each later one throws if and only if it runs under another backend |
| SqlKey.WrongKeyExactly | app/main.main.ts:1721-1745 | a start hands out another key than the stored one if and only if there is no plaintext copy, decryption is possible and its result is wrong |
| SqlKey.StartKeepsKey | app/main.main.ts:1681-1791 | wherever a start is stopped the configuration still stands for the same key, and no key is generated |
| SqlKey.KeyIsKept | app/main.main.ts:1681-1791 | over any sequence of starts from a stored key, each returns it or throws |
| SqlKey.AlwaysEmptyOrHeld | app/main.main.ts:1754-1791 | over any sequence of starts and stops from a fresh installation, the configuration is empty or stands for one key |
| SqlKey.OnceReturnedAlwaysReturned | app/main.main.ts:1681-1791 | once a start has returned a key, every later start returns that key or throws, and none generates one |
| SqlKey.ContinueSticks | app/main.main.ts:1735-1743 | with a plaintext copy wrong decryption is harmless: after the choice to continue the key is returned without asking again |
| SqlKey.PlaintextLeavesSafely | app/main.main.ts:1729-1734 | the plaintext copy goes only when decryption gave it back or, outside Flatpak, when the encrypted key was just written |
| ChallengeSafety.SolvesOverRuns | ts/challenge.dom.ts:407-469 | over every run the counter equals the solves in flight, and the tokens sent, with the one held, are among those issued with their multiplicity |
| ChallengeSafety.LateFinishersSendNothing | ts/challenge.dom.ts:414-418 | after a response is sent, the other solves send nothing until a new one begins |
| ChallengeEffects.MaybeSolveExactly | ts/challenge.dom.ts:204-221 | a solve begins if and only if the conversation is registered with a token, nothing is being solved and no rate limit is in effect; else nothing changes |
| ChallengeEffects.RegisterExactly | ts/challenge.dom.ts:264-317 | registration by cases on the fields: ignored, started or parked, or kept with the timer for the rate limit or its own time, with a solve or without |
| ChallengeEffects.OnlineExactly | ts/challenge.dom.ts:186-202 | going online starts exactly the queues whose time is past and forgets what was parked; going offline changes nothing else |
| ChallengeEffects.FiringExactly | ts/challenge.dom.ts:235-242 | a timer clears itself and the rate limit and starts or parks its conversation |
| ChallengeEffects.AnswerExactly | ts/challenge.dom.ts:433-469 | an accepted captcha starts every registered conversation, a refused one gives every one the new time and timer; the solve is over |
| ChallengeSafety.RegisteringTracksExactly | ts/challenge.dom.ts:264-297 | registration tracks a challenge with a time if and only if no earlier rate limit is in effect |
| ChallengeSafety.TrackedOverRuns | ts/challenge.dom.ts:223-342 | over every run without registrations under an earlier rate limit, a registered conversation with a time has a live timer or is parked with its time past |
| ChallengeSafety.LostUnderEarlyLimit | ts/challenge.dom.ts:286-297 | the condition is needed: a run after which a registered conversation has neither timer nor parking place and was not started |
| ChallengeRuns.RunKeepsInv | ts/challenge.dom.ts:153-469 | over every run without registrations under an earlier rate limit all invariants hold together, and nothing is parked while the handler is online |
| ChallengeRuns.ParkedWithoutTime | ts/challenge.dom.ts:192-202 | a run: a captcha is solved and the connection lost before the answer of the server, so that the conversation is parked without a time; going online forgets it, with neither timer nor start |
| ChallengeRuns.LoadStoresExactly | ts/challenge.dom.ts:153-184 | after loading the storage holds the registered conversations if and only if it was empty or held a challenge that is not too old; else nothing is registered and the expired ones stay stored |
| ChallengeRuns.StorageOverRuns | ts/challenge.dom.ts:360-369 | over every run from the start of the program: the stored conversations are the registered ones, up to times set by `forceWaitOnAll`, or nothing is registered and nothing but expired challenges is stored |
| ChallengeSafety.StartRestores | ts/challenge.dom.ts:153-184 | loading registers exactly what is stored and not too old, and tracks all that has a time |
| ChallengeHandler.ChallengeHandler.Load | ts/challenge.dom.ts:153-184 | refines loading, in the stored order; keeps all invariants unless a rate limit is in effect before |
| ChallengeHandler.ChallengeHandler.OnOnline | ts/challenge.dom.ts:192-202 | refines going online and keeps all invariants |
| ChallengeHandler.ChallengeHandler.Register | ts/challenge.dom.ts:264-317 | refines registration with its start, timers and solve; keeps all invariants without an earlier rate limit |
| ChallengeHandler.ChallengeHandler.StartAllQueues | ts/challenge.dom.ts:379-389 | starting one after the other equals starting all at once |
| ChallengeHandler.ChallengeHandler.FinishSolve | ts/challenge.dom.ts:463-469 | success starts all registered conversations; keeps all invariants |
| ChallengeHandler.ChallengeHandler.FailSolve | ts/challenge.dom.ts:433-462 | failure re-times all registered conversations and ends the solve; keeps all invariants |
| IdentityTrust.VerifiedMeansThisKey | ts/SignalProtocolStore.preload.ts:2059-2322 | over every run a contact with status VERIFIED has the key for which it was last verified, in cache and table, although approvals change cached records in place before the database answers |
| IdentityTrust.ChangedVerifiedNeverTrusted | ts/SignalProtocolStore.preload.ts:1974-2023 | after the key of a verified contact changed, no key is trusted for sending at any time and after any further changes, until it is verified or synced |
| IdentityTrust.UnapprovedWaitsFiveSeconds | ts/SignalProtocolStore.preload.ts:2207-2214 | an unapproved new key of another contact is trusted for sending exactly from five seconds on |
| IdentityEffects.VerifyLeaves | ts/SignalProtocolStore.preload.ts:2290-2322 | `setVerified` succeeds exactly for a valid record that the database takes; then cache and table hold the same key and timestamp, exactly the given status, and the given extras |
| IdentityEffects.VerifyDecidesTrust | ts/SignalProtocolStore.preload.ts:2207-2214 | after that, over every run for other contacts, the key is trusted for sending according to the status, also when it was blocked before, and no other key is |
| IdentityEffects.ApprovalLeaves | ts/SignalProtocolStore.preload.ts:2260-2287 | `setApproval` changes the approval alone, in the cache also when the database refuses |
| IdentityEffects.ApprovalDecidesTrust | ts/SignalProtocolStore.preload.ts:2207-2214 | after an approval the key is trusted at once exactly when its status is not UNVERIFIED; after its withdrawal a replaced key that is not blocked is trusted exactly from five seconds on |
| IdentityEffects.FirstSaveLeaves | ts/SignalProtocolStore.preload.ts:2113-2135 | the record of a first key, and when the key saved on the conversation is announced |
| IdentityEffects.OtherSaveLeaves | ts/SignalProtocolStore.preload.ts:2141-2192 | what a different key leaves: our own and refused ones nothing, any other a record with the status that blocks it if it was verified |
| IdentityEffects.SameSaveLeaves | ts/SignalProtocolStore.preload.ts:2193-2204 | a known key changes the approval, while one is needed, and nothing else |
| IdentityEffects.SyncLeaves | ts/SignalProtocolStore.preload.ts:2378-2430 | a sync with another key or status stores both, with an approval, and announces exactly a changed key |
| IdentityEffects.SyncDecidesTrust | ts/SignalProtocolStore.preload.ts:2396-2404 | after it, over every run for other contacts, exactly the synced key is trusted, and only if its status is not UNVERIFIED |
| IdentityEffects.UnknownContact | ts/SignalProtocolStore.preload.ts:1974-2000 | without a record the key saved on the conversation decides; saving a key announces a change exactly when it was not trusted before, and then it alone is trusted |
| IdentityTrust.OwnKeyStays | ts/SignalProtocolStore.preload.ts:2140-2147 | our own key is never replaced by `saveIdentity` |
| IdentityTrust.KeyChangesAreAnnounced | ts/SignalProtocolStore.preload.ts:2163-2182 | a replaced key is announced in the same step, and nothing but a replaced key is |
| IdentityTrust.NoticeExactly | ts/SignalProtocolStore.preload.ts:2434-2453 | the notice is asked for exactly when the key is not a changed one and the contact becomes or stops being verified |
| IdentityTrust.IdentityStore.SaveIdentity | ts/SignalProtocolStore.preload.ts:2074-2205 | refines the specified branches: new, unchanged, our own, replaced, approval; keeps the agreement of cache, table and verified keys |
| IdentityTrust.IdentityStore.SetApproval | ts/SignalProtocolStore.preload.ts:2260-2287 | fails without a record; keeps that agreement |
| IdentityTrust.IdentityStore.SetVerified | ts/SignalProtocolStore.preload.ts:2290-2322 | fails without a valid record, else sets status and extras; keeps that agreement |
| IdentityTrust.IdentityStore.UpdateIdentityAfterSync | ts/SignalProtocolStore.preload.ts:2378-2453 | refines the specified sync; keeps that agreement |
| Sessions.SessionStore.GetOpenDevices | ts/SignalProtocolStore.preload.ts:1522-1608 | exactly one device per open session of ours with a requested service id, and devices and empty service ids partition the request |
| Sessions.SessionStore.LoadSession | ts/SignalProtocolStore.preload.ts:1392-1435 | the same live record each time, hydrated once, with the state that counted before |
| Sessions.SessionStore.StoreSession | ts/SignalProtocolStore.preload.ts:1452-1508 | pending, or committed at once; a refused commit fails |
| Sessions.SessionStore.ArchiveEntry | ts/SignalProtocolStore.preload.ts:1700-1723 | the live record is archived in place and stored, other sessions keep entry and state |
| Sessions.SessionStore.ArchiveSessions | ts/SignalProtocolStore.preload.ts:1740-1792 | no targeted session stays open and every other is unchanged |
| Sessions.SessionStore.ArchiveThenRevert | ts/SignalProtocolStore.preload.ts:1710-1718 | after a revert the stored form is as before, but the session is open again only if it had no live record |
| MessagePages.ChangesStayCovered | ts/sql/Server.node.ts:9333-9347 | inserts and updates between two pages are not missed: each row is still to be read or its files are kept |
| MessagePages.ShortPageCoversAll | ts/sql/Server.node.ts:9355-9395 | after a page that is not full no message of the table at that time refers to a candidate outside the pages read |
| MessagePages.FailingTurnIsReached | app/attachment_channel.main.ts:417-454 | a page read that fails is reached, and no short page before it, whenever the messages at the start fill the pages before it |
| MessagePages.UndisturbedRunExactly | app/attachment_channel.main.ts:417-454 | while messages do not change, the run gets to a short page if and only if the first size / 1000 + 1 page reads succeed |
| OrphanCleanup.UnnoticedFileIsTaken | ts/sql/Server.node.ts:9333-9339 | the assumption about changes is needed: a run in which the files of a message change without its json and the cleanup deletes a file that the message refers to |
| OrphanCleanup.OrphanExactly | app/attachment_channel.main.ts:404-480 | a file of the disk is an orphan if and only if no conversation and no page refers to it, it is not protected, and it has not vanished |
| OrphanCleanup.OutcomeExactly | app/attachment_channel.main.ts:404-538 | what each outcome says about the reads, the finish and the removals |
| OrphanCleanup.Cleanup.KeepMessageFiles | app/attachment_channel.main.ts:411-454 | the loop reads pages until one is short or a read fails, and no other; the run is finished on every path that defined a cursor, and a finish that fails hides the rest |
| OrphanCleanup.Cleanup.DeleteOrphaned | app/attachment_channel.main.ts:404-538 | the outcome follows from which reads, finish and removals fail; a failed read or finish deletes nothing, else exactly the candidates without pages, protected and vanished files go |
| OrphanCleanup.Cleanup.CleanupOrphaned | app/attachment_channel.main.ts:329-401 | from the snapshot of the disk, for all inputs: the outcome follows from what fails; a page read that fails before a short page leaves both disks as they were, as does any other failed read; else exactly the orphans go, and no message in the table when the last page is read refers to any of them |
| Framing.SymmetricRoundTrip | ts/Crypto.node.ts:295-346 | `decryptSymmetric` inverts `encryptSymmetric` for every key and plaintext |
| Framing.AcceptsExactlyFrames | ts/Crypto.node.ts:315-346 | for all bytes, short ones with negative positions included: accepted if and only if nonce, ciphertext and MAC of the right form |
| Framing.VerifyHmacSha256 | ts/Crypto.node.ts:361-381 | the XOR loop accepts exactly the first `length` bytes of the computed MAC, and tells wrong length from wrong MAC |
| Framing.VerifyDigest | ts/Crypto.node.ts:488-501 | accepts exactly a digest that agrees as far as it goes and is 0 behind the end |
| Framing.DecryptAttachmentV1 | ts/Crypto.node.ts:503-535 | each error in its order, else the decrypted middle part |
| Framing.AcceptsExactlyAttachments | ts/Crypto.node.ts:503-535 | for all bytes: accepted if and only if initial vector, ciphertext and MAC under the two halves of the keys, with a digest that agrees |
| Framing.AttachmentErrors | ts/Crypto.node.ts:503-535 | the error for each combination of wrong lengths, MAC, digest and padding |
| Framing.AttachmentRoundTrip | ts/Crypto.node.ts:538-579 | `decryptAttachmentV1` inverts `encryptAttachment`, with and without digest |
| Framing.ProfileRoundTrip | ts/Crypto.node.ts:608-647 | `decryptProfile` inverts `encryptProfile` if and only if the plaintext is not empty |
| Framing.AcceptsExactlyProfiles | ts/Crypto.node.ts:628-647 | for all bytes: accepted if and only if an initial vector and a ciphertext longer than its tag |
| Framing.EncryptProfileItemWithPadding | ts/Crypto.node.ts:649-663 | zero padding to the smallest fitting bucket, or an error exactly when none fits |
| Framing.TrimForDisplay | ts/Crypto.node.ts:476-486 | the longest prefix without a zero byte |
| Framing.TrimUndoesPadding | ts/Crypto.node.ts:476-486 | which is the padded item whenever that has no zero byte |
| Framing.DecryptProfileName | ts/Crypto.node.ts:665-694 | the errors of the decryption, or the one way to split its plaintext around the zero bytes |
| Framing.NameRoundTrip | ts/Crypto.node.ts:649-694 | names joined, padded, encrypted: `decryptProfileName` returns the recovered name and nothing else, and it is the name that was encrypted if and only if there is a given name or no family name |

## Left out

- `removeSessionsByConversation`, `removeSessionsByServiceId`, `removeOurOldPni` and the `clear*` functions:
  they update caches before the database or skip triples, so the agreement does not hold across them.
- SignalProtocolStore.Store.StageWrite: stands for the staging part of six methods, in which records are bytes
  without hydration.
- SignalProtocolStore.Store.MaybeRemoveKyberPreKey: by a call that is in its zone already; the wait for the zone
  between the lookup of the key and the staging is left out.
- SignalProtocolStore.Store.constructor: the six pending collections are one record, and so are the caches.
- Hydration of pre-keys and sender keys, the low-keys event, and conversation lookups while storing sessions.
- ConversationController.ConversationController.Get: leaves out the second try with a leading `+`, which
  matters for phone numbers without one only.
- ConversationController.ConversationController.MaybeMergeContacts: the PNI signature flag, titles, and the
  phone number discovery notification are left out; conversations handed over are recorded as pairs, not
  combined. Conversation objects are numbers with a map of attributes, so aliasing of objects is equality of
  numbers.
- ConversationController.ConversationController.GetOrCreatePrivate: leaves out validation and saving of the new
  conversation, and groups.
- ConversationController.ConversationController.CombineConversations: field-by-field copying, sessions,
  messages and storage service are left out; only the early returns and the removal matter here.
- ConversationController.ConversationController.CheckForConflicts: interleaving with other work during the
  awaits of the loop is left out.
- ConflictPairs.PairDecided: decides between two contacts; of three or more that conflict with each other it is
  only stated that the remaining ones do not.
- IdentityTrust.IdentityStore.SaveIdentity: the migration of `conversation:` records and the archiving of
  sibling sessions behind a replaced key are left out; `saveIdentityWithAttributes` is modelled for sync only.
- Sessions.SessionStore.ArchiveSessions: sessions are archived one after the other and writes succeed; jobs
  for different addresses that interleave are left out.
- Sessions.SessionStore.StoreSession: addresses stand for their string form, and conversation ids are left out.
- ChallengeHandler.ChallengeHandler.ScheduleRetry: a delay of more than 2^31 milliseconds, at which the
  platform fires at once, is left out; the order in which several queues are started too.
- ChallengeHandler.ChallengeHandler.Unregister: the wait for the storage is part of the step.
- OrphanCleanup.Cleanup.CleanupOrphaned: avatars, badges, megaphones, stickers and drafts, which are cleaned
  before, and the accounting by creation time.
- Framing.DecryptProfileName: base64 is left out.
- Framing.AttachmentRoundTrip: padding of attachments to a power of 1.05 is floating point and left out, as
  is the streaming pipeline.
- Device names, sticker packs, key derivations and the other one-line uses of the primitives.
- Windows, menus, protocol filters, React components and the start-up sequence.
