# SP1 Helios proof service: a Dafny model

The service answers requests for zero-knowledge proofs of Ethereum storage. Several processes share
one Redis store; each one accepts API requests, follows the chain with a light client, and starts
generation tasks. A task syncs a light client from the requested header, fetches a storage proof and
has a guest program replay the sync inside the prover.

The model has four parts.

**The protocol over Redis.** `Protocol` is a transition system in which every Redis command is one
atomic step of one process. Any number of API requests, workers, generation tasks and lock-extension
tasks interleave; any record or lock may expire and any process may crash between two steps; a command
may fail before or after it took effect. `Integrity`, `Safety`, `Refinement` and `Orphans` prove
properties of every state of every run. `Refinement` relates the system to a specification whose only
actions are submit, set-header-and-promote, complete and expire. `Regeneration` says exactly when a
stored success is final, and `Regenerated` gives a run that loses one. `GlobalLock` says exactly when
locked sections stay apart. `TaskLocks` says exactly when no id has two live tasks. `LockTiming` treats the
generation lock of one id in real time, `TimedTasks` runs the protocol beside it, and `LateExtension`
is a run of the protocol in which a late extension admits a second task.

**The code as a process of that protocol.** `RedisStore` and `ProofService` are classes in the form of
`redis_store.rs` and `proof_service.rs`: methods that issue commands one by one, loop over scans,
collect updates, spawn tasks and retry. Before every command an arbitrary sequence of changes by
others reaches the store. Each method is proved to take exactly the steps of its process: its log of
commands is a legal path, and its result names the step at which it leaves the process (`Process.Path`).
`Process.LegalCodeContinuesRuns` then carries every theorem about runs over to the code: a run followed
by code whose log is legal, scheduled among processes that bring about what it saw, is again a run.

**The light client on the host and in the guest.** `LightClient` defines validation and application of
updates after the Altair Light Client Sync Protocol of the Ethereum consensus specifications
(`validate_light_client_update`, `apply_light_client_update`); helios is not part of this model.
`UpdateFetch` and `ConsensusClient` model the host's client, `Guest` the program, `Storage` the
storage check. `Validation` and `Application` say what accepting and applying an update means, `TrieReads`
what the storage check means, and `Attestation` what an accepted run of the program attests about the
chain. `Replay` and `EndToEnd` connect host and guest, and `System` connects them to the protocol.

**The request codec.** `Rlp` and `RequestCodec` are an encoder and a strict decoder after Appendix B
of the Ethereum Yellow Paper. `YellowPaper` states the definition of that appendix on trees, with published
examples, and connects both to it. `Keys` covers the formatted Redis keys.

## Hypotheses

- **H1** (`Protocol.LockedRun`): sections entered with the global lock acquired do not overlap. The
  code does not guarantee this: a process that fails to acquire the lock still deletes it.
  `GlobalLock.OverlapIsPossible` is a run in which two sections overlap. Sections stay apart in a
  run, and in all that can follow it without taking the key from under an open section, if and only if no
  event of the run itself takes the key so (`GlobalLock.SectionsStayApartExactlyWhen`). Generation tasks
  and orphan pickup run outside these sections and interleave freely.
- **H2** (`Protocol.OneChain`): all headers come from one chain. An equal slot is the same header, a
  larger slot has a block number at least as large.
- **No id collision** (`Protocol.NoCollision`): no two of the requests that callers make share an id.
  `System.HashGivesDistinctIds` derives it from a hash without collisions on those requests.
- **Late commands** (`Protocol.Fault`): a command whose answer is lost was executed before the next step
  of its process, or never. One that Redis executes later, after a reconnect, is not in these runs; the
  safety results rest on that.
- **SCAN** (`Protocol.Allowed`, `RedisStore.Scan`): a complete iteration returns every key that was
  present from its start to its end. Replies may repeat keys and may name keys that are gone.
- **Timing** (`LockTiming`, `TimedTasks`, `LateExtension` only): the first extension takes effect within
  `first` ms of the acquisition and before the task ends, ticks fire on time, and every later lock command
  takes effect within the 10 s Redis timeout. `TimedTasks.Timely` says this of runs of the protocol.
- **Light client** (`Protocol.Allowed`, `ProofService.PollsOk`): the header that the run loop is given
  never has a smaller slot than the one before. This is no further hypothesis: `System.AdvancesArePolls`
  derives it from what `ConsensusClient.Client.Advance` ensures.
- **True committees** (`LightClient.TruthfulUpdate`, `Attestation.HonestBootstraps`, only where named): a carried
  next committee is the true one of the period after the attested header, a valid bootstrap has the true one.
- **Tries** (`TrieReads.SoundTrie`, only where named): a verified value is the one stored at the path under the root.
- **Prover** (`EndToEnd.SoundProver`): it returns a proof only for inputs that the program accepts,
  with the outputs that the program commits.

## Findings

- Success is not final: orphan pickup scans before it takes the generation lock, so a finished request
  can be generated again and its record replaced. `Regenerated.SuccessIsLost` is such a run, with
  sections apart and nothing expiring. A stored success is final if and only if nothing in flight can still
  write the id (`Regeneration.SuccessIsFinalExactlyWhenQuiet`): no live task for it, save one that only
  repeats the write of a success; no pickup that has found it; no promoted request of that id still to
  be spawned; no request for it that has seen no record or an error, or is about to store or to spawn.
  No request ever goes back to waiting (`Safety.NeverWaitingAgain`).
- The first extension must take effect within the initial 1000 ms. `OneTaskInTimelyRunsIff` shows that
  any larger bound admits two live tasks for one id in the protocol, and that this bound admits none.
- The guest validates against the slot captured when the sync began, the host against later clock
  readings. The guest replays the sync if and only if no signature is newer than the captured slot
  (`GuestReplaysSync`); `LateSignatureIsRejected` is an attempt that fails.
- A finality update that verifies but is not applied (fewer than two thirds of the committee signed,
  or it is no newer) leaves the store at another header. The host then checks divisibility by 32 and the storage
  proof against the finality update's header, while the guest commits the store's header.
  `UnalignedHeadIsNoBoundary` and `UnalignedStorageIsRejected` are such attempts;
  `AlignedExactlyWhen` says exactly when the two headers agree, `GuestAcceptsExactlyWhen` when the guest
  accepts, and `HeadIsBoundaryExactlyWhen` when the committed head is a multiple of 32: the finality
  update is applied, or the committee updates alone had reached such a slot.
- The contract address in the outputs is the one in the execution endpoint's answer; nothing compares it
  with the requested one (`ResponseAddressIsCommitted`).
- The keys that the items of a storage proof name are dropped and never compared with the requested ones
  (`BuildLosesOnlyItemKeys`); the proofs are checked under the requested keys.
- When the stored period is ahead of the expected one, the `u64` subtraction that sizes the fetch wraps in a build without
  overflow checks; no batch is sent and one query remains (`PlanOfStoreAhead`).

## Model

| member | source | states |
|---|---|---|
| `Integrity.EveryStateIsWellFormed` | zk-api/src/proof_service.rs:100-225 | In every reachable state, with no lock hypothesis: each record sits under the id of its own request, is never Initiated, has proof data exactly for Success and an error message exactly for Errored, and its proof is one the prover can return for that request. |
| `Integrity.RequestProofNeverAnswersInitiated` | zk-api/src/proof_service.rs:86-159 | A request that is answered successfully gets its own id and a status other than Initiated. |
| `Answers.AnswersAreEarned` | zk-api/src/proof_service.rs:100-159 | Over every run, a request that is answered with a status had its record stored with that status at some instant between its arrival and the answer; contention is answered only after it was refused the lock and found no record, a missing header only after it held the lock and found none. |
| `Safety.EveryStateIsSafe` | zk-api/src/proof_service.rs:167-346 | Under H1 and H2 the inductive invariant of the store and of every process holds in every state of every run. |
| `Safety.StatusMatchesFinality` | zk-api/src/proof_service.rs:182-222 | A record waits for finality if and only if its request fails the finality test under the stored header; the request of every live generation task passes it. |
| `Safety.HeaderNeverGoesBack` | zk-api/src/proof_service.rs:257-300 | Over any stretch of a run the stored header stays, or is replaced by one of a larger slot. |
| `Safety.NeverWaitingAgain` | zk-api/src/proof_service.rs:583-602 | Once a request has been stored as Generating, Success or Errored, or has a task, no later state stores it as waiting, even after an error and a new request, or after its record expired. |
| `Safety.IdleWorkersAreUpToDate` | zk-api/src/proof_service.rs:736-760 | Whenever a worker's `should_advance_redis_state` is false, the stored slot is at least that worker's finalized slot, whatever other workers do. |
| `Rounds.SectionsAreWanted` | zk-api/src/proof_service.rs:736-745 | In every state of every run, a worker takes the lock and is in a new-header section only with `should_advance_redis_state` true. |
| `Safety.CommitKeeps` | zk-api/src/proof_service.rs:271-300 | The transaction leaves no waiting record that passes under the new header, and only passing requests are handed to generation. |
| `Refinement.CommitIsAtomicPromotion` | zk-api/src/redis_store.rs:133-160 | With duplicates in the scan and any interleaving since it began, the transaction promotes exactly the waiting records that pass and changes no other, apart from found records whose keys expired and which it writes back. |
| `Refinement.StepRefines` | zk-api/src/proof_service.rs:257-300 | Every step of the interleaved protocol is one action of the atomic specification; everything but the two locked writes, the final write of a task and expiry is invisible. |
| `Refinement.RunRefines` | zk-api/src/proof_service.rs:257-300 | Every run of the protocol is a run of the specification, and each record that a section writes back waited in the store earlier in the run. |
| `Refinement.FoundWaitedEarlier` | zk-api/src/redis_store.rs:163-238 | Whatever a section has found was stored as waiting, as found, at an earlier instant of the run. |
| `Refinement.OutcomeIsRecorded` | zk-api/src/proof_service.rs:592-611 | The record that a task writes tells its outcome, the proof or the message included, and nothing else but the request. |
| `Orphans.PassCoversOrphans` | zk-api/src/proof_service.rs:658-719 | When a pickup pass ends with every command answered, each request that was Generating at every instant of the pass had its lock command answered during the pass: its lock was held at that instant, or this pass started a task for it. |
| `Orphans.HandledIsAnswered` | zk-api/src/proof_service.rs:680-708 | An id that a pass has handled was held by someone, or acquired together with the spawning of its task, at a step of the pass. |
| `LockTiming.LockNeverLapses` | zk-api/src/proof_service.rs:494-540 | With a first extension within 1000 ms, a live task owns the lock at every instant of every run, however many extensions that takes, and its final DEL removes its own lock before it expires. |
| `LockTiming.OneTaskIffFirstExtensionIsTimely` | zk-api/src/proof_service.rs:494-540 | At most one task per id is live in every run if and only if the bound on the first extension is at most the initial lock duration. |
| `LockTiming.AnyNumberOfExtensions` | zk-api/src/proof_service.rs:509-539 | The timing hypotheses admit runs with any number of extensions, the lock held to 21 s after the last. |
| `Regeneration.SuccessIsFinalExactlyWhenQuiet` | zk-api/src/proof_service.rs:658-719 | Under H1 and H2, a record stored as Success stays one in every run that goes on without its expiry, if and only if no task, pickup, promoted queue or request in flight can still write or spawn its id. |
| `Regeneration.QuietSuccessStays` | zk-api/src/proof_service.rs:129-152 | From a quiet state every later state keeps the success and stays quiet, whatever arrives, starts, crashes or expires meanwhile. |
| `Regenerated.SuccessIsLost` | zk-api/src/proof_service.rs:661-683 | A run of 26 events in which a pickup scans, the task stores its proof and drops its lock, the pickup is granted the lock, and the second task stores an error. |
| `TaskLocks.OneTaskExactlyWhen` | zk-api/src/proof_service.rs:491-493 | Under H1, H2 and no id collision: no id has two live tasks in a run, or in all that can follow it without taking a lock from under a live task, if and only if no event of the run itself takes a lock so, if and only if every live task of the run is locked. |
| `TaskLocks.StaysSingleExactlyWhen` | zk-api/src/proof_service.rs:190-204 | What can follow a state, taking no lock from under a live task, keeps one task per id exactly when the state has one per id and each is locked: beside an unlocked task, a new request for an expired record is given a second one. |
| `TimedTasks.TimelyRunsHaveOneTask` | zk-api/src/proof_service.rs:494-540 | In every run of the protocol that keeps to the timing hypotheses with a first extension within 1000 ms, every live task is locked, no id has two, and no event takes a lock from under a live task. |
| `LateExtension.OneTaskInTimelyRunsIff` | zk-api/src/proof_service.rs:494-540 | Timely runs of the protocol have at most one live task per id if and only if the bound on the first extension is at most the initial lock duration; the failing side is a concrete run. |
| `GlobalLock.SectionsStayApartExactlyWhen` | zk-api/src/proof_service.rs:641-655 | Sections stay apart in a run, and in all that can follow it without taking the lock key from under an open section, if and only if no event of the run itself takes the key so, if and only if every state of the run with an open section has the key; H1 then holds of the run. |
| `GlobalLock.StaysExclusiveExactlyWhen` | zk-api/src/proof_service.rs:641-655 | What can follow a state, taking no key from under an open section, keeps sections apart exactly when those of the state are apart and an open one has the key: otherwise one more request overlaps it. |
| `GlobalLock.OverlapIsPossible` | zk-api/src/proof_service.rs:641-655 | A concrete eight-event run in which a refused request deletes the lock and two sections overlap. |
| `RedisStore.RedisStore.FindRequestsByStatus` | zk-api/src/redis_store.rs:163-238 | For any batches, repeats and concurrent changes: every record returned was read with the wanted status, every id whose record had it throughout is returned, and the worker has taken the scan steps of the protocol. |
| `RedisStore.RedisStore.Scan` | zk-api/src/redis_store.rs:177-186 | One SCAN reply: arbitrary keys, a final reply only when every key still owed is in it. |
| `RedisStore.RedisStore.Mget` | zk-api/src/redis_store.rs:196-201 | The value of each key in order at one instant, absent keys included. |
| `RedisStore.RedisStore.WithoutHeaderKey` | zk-api/src/redis_store.rs:188-192 | The record keys of a reply in order, the header key dropped. |
| `RedisStore.RedisStore.CollectMatching` | zk-api/src/redis_store.rs:203-214 | Appends exactly the present records of the wanted status, in the order of the keys. |
| `RedisStore.MgetAccounts` | zk-api/src/redis_store.rs:194-230 | Reading a batch turns what was about to be read into what was found; nothing that held the status throughout is lost. |
| `RedisStore.PipelineIsMulti` | zk-api/src/redis_store.rs:138-158 | Running the queued commands one after the other sets the header and overlays the updates, a later update of an id winning. |
| `RedisStore.RedisStore.UpdateFinalizedHeaderAndProofStates` | zk-api/src/redis_store.rs:133-160 | The pipeline built in the loop takes effect as a whole or not at all, between two commands of others. |
| `RedisStore.RedisStore.SetProofState` | zk-api/src/redis_store.rs:108-119 | Writes exactly one record, unless the command was lost. |
| `RedisStore.RedisStore.GetProofState` | zk-api/src/redis_store.rs:91-97 | The record of the id at the instant of the command, or an error. |
| `RedisStore.RedisStore.ReadFinalizedHeader` | zk-api/src/redis_store.rs:100-105 | The header at the instant of the command, or an error. |
| `RedisStore.RedisStore.AcquireGlobalLock` | zk-api/src/redis_store.rs:260-264 | True exactly when the key was absent, and then present; a lost reply may leave it set. |
| `RedisStore.RedisStore.ReleaseGlobalLock` | zk-api/src/redis_store.rs:267-271 | Deletes the key whoever set it, errors ignored. |
| `RedisStore.RedisStore.AcquireProofGenerationLock` | zk-api/src/redis_store.rs:274-281 | True exactly when the id's lock was absent, and then present. |
| `RedisStore.RedisStore.ReleaseProofGenerationLock` | zk-api/src/redis_store.rs:284-288 | Deletes the id's lock whoever set it, errors ignored. |
| `RedisStore.RedisStore.ExtendProofGenerationLock` | zk-api/src/redis_store.rs:291-303 | Reports whether the key still exists and changes no value. |
| `ProofService.ProofService.ProcessRequest` | zk-api/src/proof_service.rs:86-98 | Takes the steps of an API request from acquiring the lock to releasing it and ends with the protocol's answer; a failed acquisition command releases nothing. |
| `ProofService.ProofService.ProcessRequestLocked` | zk-api/src/proof_service.rs:100-159 | Which commands are sent and what is answered, in terms of what each command met: the record first, then with the lock the header; an existing status is answered as stored, and exactly a missing or failed record is stored anew, as waiting or generating by the finality test. |
| `ProofService.AnsweredMeans` | zk-api/src/proof_service.rs:126-159 | The answered status was in the store when some command of the request ran; contention is answered exactly when the lock was refused and no record was there, an internal error exactly when the header or its payload was missing. |
| `ProofService.ProofService.InitializeRequestLocked` | zk-api/src/proof_service.rs:167-225 | Answers Generating exactly when the finality test passes; a task is spawned only then, and only with the lock acquired. |
| `ProofService.ProofService.ProcessNewFinalizedHeader` | zk-api/src/proof_service.rs:228-250 | Answers true only after a section that ended in success, and then clears the worker's need to advance. |
| `ProofService.ProofService.ProcessNewFinalizedHeaderLocked` | zk-api/src/proof_service.rs:253-346 | The section's steps in order: a stored header at least as new ends it with nothing sent; otherwise success means that an answered command left the new header in the store. |
| `ProofService.ProofService.PromoteReady` | zk-api/src/proof_service.rs:285-343 | Commits exactly the promotions of the ready requests and then tries the lock of each in turn. |
| `ProofService.ProofService.SelectReady` | zk-api/src/proof_service.rs:285-299 | The updates are the found waiting requests that pass, promoted and keyed by id, and the requests are theirs, in order. |
| `ProofService.ProofService.SpawnGeneration` | zk-api/src/proof_service.rs:305-342 | Goes through all promoted requests in order and spawns a task exactly where the lock was acquired. |
| `ProofService.ProofService.RestartOrphanedProofs` | zk-api/src/proof_service.rs:658-719 | One whole pass of the protocol: scan, then one lock command per found request, a task where it succeeded. |
| `ProofService.ProofService.GenerateAndStoreProof` | zk-api/src/proof_service.rs:482-629 | Spawns the lock extension, then repeats the write until it is answered; when it is, the record under the request's id is a success with the proof or an error with its message. |
| `ProofService.ProofService.ExtendProofGenerationLock` | zk-api/src/proof_service.rs:506-541 | Extends once a tick, ends without a DEL when the key is gone, and with one after an error or a cancellation. |
| `ProofService.ProofService.RunRound` | zk-api/src/proof_service.rs:736-760 | One iteration of the worker loop is one round of the protocol's worker; a newer light client head leaves the flag set, and nothing else raises it. |
| `ProofService.ProofService.Run` | zk-api/src/proof_service.rs:723-760 | Any number of iterations; the loop stops exactly when the worker halts. |
| `ProofService.ProofService.CheckHeaderHealth` | zk-api/src/proof_service.rs:847-889 | Fails, and halts the worker, exactly when the header it reads is missing or too old; a Redis error is tolerated. |
| `System.IdleCodeIsUpToDate` | zk-api/src/proof_service.rs:736-760 | Under H1, H2 and no id collision, whatever the other processes do: when a worker's code has its flag false, the store it last saw holds a header at least as new as its own. |
| `System.ServiceIsUpToDate` | zk-api/src/proof_service.rs:736-760 | The same of a service object in whatever valid state its methods leave it, `Run` and `RunRound` included. |
| `System.AdvanceLightClient` | zk-api/src/proof_service.rs:826-845 | Gives a header exactly when some endpoint succeeded, never one of a smaller slot; raises the flag exactly when the slot grew, and never lowers it. |
| `System.HeaderIsTested` | zk-api/src/proof_service.rs:271-292 | The finality test of a request against a light client header: its payload's block number and its slot. |
| `System.AdvancesArePolls` | zk-api/src/proof_service.rs:826-845 | Over any sequence of advances on one chain, the run loop gets only headers that the protocol allows. |
| `Keys.KeysIdentifyIds` | zk-api/src/redis_store.rs:70-87 | Two ids share a record key, or a lock key, only when they are equal. |
| `Keys.FamiliesAreDisjoint` | zk-api/src/redis_store.rs:70-87 | No key serves two purposes, and the scan pattern matches records and the header but no lock. |
| `Keys.HexIsRead` | zk-api/src/types.rs:29-31 | Every byte of an id is two lowercase hexadecimal digits of its key, the high one first. |
| `Keys.KeysOfAnExample` | zk-api/src/redis_store.rs:70-87 | The four keys for the prefix `p`. |
| `Rlp.DecodeEncodedItem` | zk-api/src/api.rs:66-80 | Decoding an encoded string or list of any 64-bit length gives the payload back and leaves what follows. |
| `Rlp.DecodedItemIsEncoded` | zk-api/src/api.rs:66-80 | The strict decoder accepts nothing but encodings. |
| `RequestCodec.RoundTrip` | zk-api/src/api.rs:66-80 | Decoding the encoding of any request gives it back, whatever follows. |
| `RequestCodec.DecodedRequestIsEncoded` | zk-api/src/api.rs:66-80 | Whatever decodes to a request is the encoding of that request. |
| `RequestCodec.EncodingIsInjective` | zk-api/src/types.rs:17-21 | Distinct requests have distinct encodings. |
| `RequestCodec.IdsAreDistinct` | zk-api/src/types.rs:17-21 | For a hash without collisions on the known requests, ids are equal exactly when requests are. |
| `YellowPaper.RequestIsSerialized` | zk-api/src/api.rs:66-80 | The bytes hashed into an id are the Yellow Paper serialization of the list of the request's fields in order of declaration. |
| `YellowPaper.SampleIsEncoded` | zk-api/src/api.rs:66-80 | All 92 bytes of one encoding. |
| `YellowPaper.AccountIsSerialized` | zk-api/src/lib.rs:82-86 | The value expected in the state trie is the serialization of nonce, balance, storage root and code hash. |
| `LightClient.AppliedPeriods` | program/src/main.rs:44-62 | After validation an applied update moves the finalized header by at most one period, and not at all while the next committee is unknown. |
| `LightClient.TruthIsKept` | program/src/main.rs:44-62 | A validated update that carries the true committee keeps the store's committees true. |
| `LightClient.CompareIsTotalPreorder` | zk-api/src/consensus_client/mod.rs:640-665 | The comparison is reflexive, antisymmetric under reversal and transitive, strictly where it should be. |
| `LightClient.ApplyAdvances` | zk-api/src/consensus_client/mod.rs:567-589 | Applying a validated update never moves the store backwards in that order. |
| `LightClient.CompareIsByRank` | zk-api/src/consensus_client/mod.rs:640-665 | The order is that of one number, the finalized slot with half a slot more for a known next committee. |
| `LightClient.BootstrapIsTruthful` | zk-api/src/consensus_client/mod.rs:285-287 | A bootstrapped store has the bootstrap's header, no next committee, and true committees exactly when the bootstrap's is true. |
| `Validation.AcceptedIsSignedByTruth` | program/src/main.rs:50-51 | An update that a truthful store accepts carries a signature of the participants of the true committee of the period in which it was signed. |
| `Validation.AcceptedIsProved` | program/src/main.rs:50-51 | A finalized header and a carried committee of an accepted update are proved by their branches under the attested header, and a known next committee is not contradicted. |
| `Validation.ValidatesExactlyWhen` | program/src/main.rs:50-68 | A truthful store accepts a truthful update if and only if it is genuine (some participant, slots in order, headers, branches, true signature) and in reach of the store's slot. |
| `Validation.ParticipantsExact` | program/src/main.rs:50-68 | The keys checked against a signature are those at the set bits, in order and as many. |
| `Validation.ReplayedAreGenuine` | program/src/main.rs:44-74 | Every update and the finality update that the guest replays is genuine. |
| `Application.AppliedAdvancesStrictly` | program/src/main.rs:57-74 | An update with two thirds of the committee that has something to finalize strictly advances the store; any other leaves its header and committees. |
| `Application.AppliedHeader` | program/src/main.rs:57-74 | The finalized header is the update's exactly when that is applied and newer. |
| `Application.AppliedCommittees` | program/src/main.rs:57-74 | The update's committee becomes the next one when the store lacked it or changes period; the known next one becomes current exactly on a change of period. |
| `Application.AppliedParticipation` | program/src/main.rs:57-74 | The largest participation of a period is kept, and carried over when the store changes period. |
| `Application.AppliedOptimisticHeader` | program/src/main.rs:57-74 | The optimistic header follows attested headers signed by more than half of the recent maximum, and newer finalized ones. |
| `Application.OptimisticIsAhead` | program/src/main.rs:57-74 | The optimistic header never goes back and never falls behind the finalized one. |
| `Replay.FoldKeepsTruth` | program/src/main.rs:44-74 | Over any accepted sequence the current committee is the true one of the finalized period, the next one absent or true for the period after, and each step raises the period by at most one. |
| `Replay.ReplayAccepts` | program/src/main.rs:44-74 | A sequence accepted under one clock is accepted at a fixed slot exactly when no signature is newer, with the same result. |
| `Replay.FoldProvenance` | program/src/main.rs:37-74 | From a store without next committee, the final header is the initial one or was carried by an update, and a next committee was carried by one. |
| `Replay.FoldAdvances` | zk-api/src/consensus_client/mod.rs:491-515 | No accepted sequence moves the store backwards. |
| `Replay.FoldExactlyWhen` | zk-api/src/consensus_client/mod.rs:495-520 | A sequence is accepted if and only if its updates chain stores from the first one; the result is the last store and the last checkpoint that was reported. |
| `Application.NextIsKnownExactlyWhen` | program/src/main.rs:37-74 | After a sequence from a store without a next committee, one is known if and only if some applied update brought a committee and finalized in the final period. |
| `Application.KnownNextIsTrue` | program/src/main.rs:37-74 | And then it is the true one of the following period. |
| `Application.AttestedIsNotEnough` | program/src/main.rs:44-74 | Being attested in the final period is not enough: such an update, then one that moves the store there without a committee, leaves none. |
| `UpdateFetch.GetUpdatesSingleRpc` | zk-api/src/consensus_client/mod.rs:532-564 | The loop sends exactly the planned queries and returns their answers concatenated, or the first error. |
| `UpdateFetch.PlanCovers` | zk-api/src/consensus_client/mod.rs:540-561 | From the store's period on, the queries are ascending, contiguous and disjoint, include the expected period, and each counts 1 to 128. |
| `UpdateFetch.PlanOfStoreAhead` | zk-api/src/consensus_client/mod.rs:540-561 | When the store is ahead, one query from its period remains. |
| `UpdateFetch.PlanIsShort` | zk-api/src/consensus_client/mod.rs:540-561 | One query for fewer than 128 periods, otherwise as few full batches as cover the range and one more. |
| `UpdateFetch.FetchAllExact` | zk-api/src/consensus_client/mod.rs:547-563 | A success is the concatenation of all answers in order, a failure is the first failed answer. |
| `UpdateFetch.BatchedFetchRefinesOneQuery` | zk-api/src/consensus_client/mod.rs:532-564 | Over an ideal endpoint the batches give what one query of the whole range gives, every period through the expected one included. |
| `ConsensusClient.AdvanceSingleRpc` | zk-api/src/consensus_client/mod.rs:377-425 | An attempt fails exactly when it times out, the finality update is missing or invalid, or a missing next committee cannot be asked for; the result is the fold of the finality update and, exactly when one is needed and the sole update answered is valid, of that one; it is never behind the start. |
| `ConsensusClient.AdvanceOutcomeAdvances` | zk-api/src/consensus_client/mod.rs:377-425 | That outcome is never behind the store it started from. |
| `ConsensusClient.SyncToChainSingleRpc` | zk-api/src/consensus_client/mod.rs:482-530 | Succeeds if and only if the endpoint answers every query from the store's period on and gives a finality update, and all of it chains stores at the successive clock readings; the trace holds what was fetched, the first reading and the end of the chain. |
| `ConsensusClient.SyncsExactlyWhen` | zk-api/src/consensus_client/mod.rs:482-530 | The same of the outcome that the theorems about host and guest speak of. |
| `ConsensusClient.SyncFetchesFromTheStore` | zk-api/src/consensus_client/mod.rs:488-493 | Over an ideal endpoint a sync has the updates of every period from the store's through the current one, as one query from the store's period gives them. |
| `ConsensusClient.SyncAdvances` | zk-api/src/consensus_client/mod.rs:482-530 | A complete sync is never behind the store it started from. |
| `ConsensusClient.PickIsFirstMaximal` | zk-api/src/consensus_client/mod.rs:342-367 | The fold over results picks nothing exactly when all failed, and otherwise the first result that is at least as advanced as every other. |
| `ConsensusClient.Client.ApplyStoreUpdate` | zk-api/src/consensus_client/mod.rs:591-606 | Installs the store, and the checkpoint only when there is one. |
| `ConsensusClient.Client.Advance` | zk-api/src/consensus_client/mod.rs:316-375 | Fails exactly when every endpoint failed, and then changes nothing; otherwise installs the first maximal result; the store never moves backwards. |
| `ConsensusClient.Client.SyncToChain` | zk-api/src/consensus_client/mod.rs:428-480 | Returns and installs the pick over complete syncs, changes nothing when there is none, and never moves backwards. |
| `Storage.BuildLosesOnlyItemKeys` | zk-api/src/types.rs:141-170 | Two assemblies give the same result exactly when they ask for the same keys in order and their responses agree on everything but the keys that the response items name: address, account fields, proofs and values. |
| `Storage.BuildExactlyWhen` | zk-api/src/types.rs:149-169 | Keys and a response assemble to a contract storage exactly when it has those keys in order and everything else of the response but the items' own keys. |
| `Storage.Build` | zk-api/src/types.rs:145-147 | Succeeds exactly when the numbers of keys and proofs match. |
| `Storage.VerifyStorageSlotProofs` | zk-api/src/lib.rs:74-137 | Succeeds exactly when the account proof and every slot proof verify, and returns one slot per key, in order. |
| `TrieReads.StorageOkExactlyWhen` | zk-api/src/lib.rs:78-131 | With a sound trie verifier, the check accepts if and only if account and slots read as expected, the slots under the account's own storage root, and every proof is valid. |
| `TrieReads.CommittedSlotsAreStored` | zk-api/src/lib.rs:125-133 | Each slot returned is the named contract's slot in the state with the checked root, its 32 bytes the number stored there. |
| `TrieReads.CommittedNumber` | zk-api/src/lib.rs:127-131 | The 32 bytes of a value are the number, most significant byte first. |
| `TrieReads.UnpackIsNibbles` | zk-api/src/lib.rs:80-81 | A trie path is the nibbles of the hash, the high one first. |
| `Guest.VerifyStorageSlotProofs` | program/src/main.rs:113-172 | The guest's copy accepts the same inputs and returns the same slots as the host's. |
| `Guest.ReplaySync` | program/src/main.rs:35-79 | The in-place loop comes to the fold from the input store without its next committee, and fails when an update is rejected or the head did not advance. |
| `Guest.RunProgram` | program/src/main.rs:22-111 | The program commits exactly when the replay, the execution payload and the storage check succeed, and commits the final store's values with the input store's as previous ones. |
| `Guest.OutputsNameAVerifiedHeader` | program/src/main.rs:79-111 | The committed head, header and execution state root are those of one header that a verified update carried, and the slots were proved under that root. |
| `Guest.OutputsNameTheStores` | program/src/main.rs:39-108 | The remaining outputs: the previous head and header, the first and last committees, and the next one's root exactly when it is known, otherwise zero. |
| `Guest.OutputsComeFromUpdates` | program/src/main.rs:37-97 | In every accepted run the final header was carried by an update or the finality update, never by the input store, and a committed next committee by a verified update. |
| `Guest.InputNextCommitteeIsIgnored` | program/src/main.rs:35-37 | Acceptance and outputs do not depend on the next committee of the input store. |
| `Guest.OutputsNameTrueCommittees` | program/src/main.rs:39-97 | With true committees in the input store and the updates, the three committee hashes are the true ones of the periods of the committed heads. |
| `Attestation.OutputsAreTheChains` | program/src/main.rs:22-111 | With true committees and a sound trie verifier, the committed slots are those of the chain in the state of a header proved by an update that a true committee signed. |
| `Attestation.NextIsCommittedExactlyWhen` | program/src/main.rs:91-94 | The true next committee is committed if and only if some applied update brought one and finalized in the period of the new head; otherwise zero. |
| `EndToEnd.PickedTraceIsASync` | zk-api/src/consensus_client/mod.rs:58-109 | The trace behind the inputs is a complete sync of one endpoint from the bootstrapped store. |
| `EndToEnd.AssemblesExactlyWhen` | zk-api/src/proof_service.rs:439-480 | When the host assembles inputs: the bootstrap is the requested one and valid, some endpoint syncs, the head advances to a block with a payload, and every requested key has a proof that verifies. |
| `EndToEnd.AssembledInputsAre` | zk-api/src/proof_service.rs:468-478 | The inputs are the picked sync of one endpoint from the bootstrapped store, which is at the requested header. |
| `EndToEnd.GuestReplaysSync` | zk-api/src/consensus_client/mod.rs:68-82 | The guest ends in exactly the host's final store if no signature is newer than the captured slot, and rejects otherwise; its head check follows from the host's. |
| `EndToEnd.GuestAcceptsExactlyWhen` | zk-api/src/proof_service.rs:439-480 | The guest accepts what the host assembled if and only if signatures are in time and the storage proof holds under the state root of the final store's header, which the host did not check. |
| `EndToEnd.AlignedInputsAreAccepted` | zk-api/src/rpc_proxies/execution.rs:98-121 | When the finality update decided the final header, the host's storage check is the guest's, and signatures in time are necessary and sufficient. |
| `EndToEnd.AlignedExactlyWhen` | zk-api/src/consensus_client/mod.rs:502-520 | The finality update decides the final header exactly when it has a supermajority and is newer than the store it met, or repeats that store's header. |
| `EndToEnd.StoredProofSays` | zk-api/src/proof_service.rs:566-589 | A proof starts at the requested header, ends at a later head, commits the requested keys in order, and its head is a multiple of 32 when the sync is aligned. |
| `EndToEnd.GeneratesExactlyWhen` | zk-api/src/proof_service.rs:566-589 | A proof is made exactly from assembled inputs whose finality update is at a multiple of 32 and that the prover proves. |
| `Attestation.RequestGetsTheChains` | zk-api/src/proof_service.rs:439-480 | Accepted inputs for a request commit the values of the requested slots of the answered contract in the state of a header signed by a true committee, starting from the requested header. |
| `EndToEnd.HeadIsBoundaryExactlyWhen` | zk-api/src/proof_service.rs:566-589 | With the finality update's slot checked, the committed head is a multiple of 32 if and only if the finality update was applied or the store it met already stood at one. |
| `Counterexamples.LateSignatureIsRejected` | zk-api/src/consensus_client/mod.rs:488-504 | An attempt that the host accepts and the guest rejects because a signature is newer than the captured slot. |
| `Counterexamples.UnalignedHeadIsNoBoundary` | zk-api/src/proof_service.rs:578-589 | An accepted attempt whose committed head is 65 although the checked slot is 96. |
| `Counterexamples.UnalignedStorageIsRejected` | zk-api/src/proof_service.rs:445-466 | An attempt whose storage proof satisfies the host and not the guest. |
| `Counterexamples.ResponseAddressIsCommitted` | zk-api/src/types.rs:157-168 | Any address in the endpoint's answer reaches the committed outputs. |
| `System.HashGivesDistinctIds` | zk-api/src/types.rs:17-21 | A hash without collisions on the requests made discharges the protocol's hypothesis on ids. |
| `System.EveryStoredProofIsAttested` | zk-api/src/proof_service.rs:482-611 | In every state of every run, with no lock hypothesis, a Success record came out of an attempt that its outputs attest: from the requested header to a later head, for the requested keys in order under the address of that attempt's response, each with its value in the committed execution state, which is that of a header carried by a verified update; the head is a multiple of 32 when that attempt was aligned, and in general exactly when its finality update was applied or its committee updates had reached one. |

## Left out

- HTTP handlers, routing, OpenAPI, status codes, tracing, CLI binaries and build scripts: API requests enter the model as `ProofRequest` values.
- The SP1 prover, CBOR, verification keys: a prover is a function that may fail, assumed sound as stated above.
- keccak256, BLS signatures, SSZ roots and Merkle branches are uninterpreted functions and predicates, and so is whether a bootstrap is valid.
- Trie proof verification is one deterministic predicate shared by host and guest.
- `best_valid_update` and the forced update after a timeout are not modelled.
- The race between bootstrap calls: the first valid bootstrap is an input.
- The parallel calls to several endpoints are taken one after the other, each with the answers and clock readings it got; a timeout is one way for a call to fail.
- JSON: stored values read back as written, so records that fail to parse do not occur.
- The three tries of `get_proof_inputs`: an attempt stands for the last one. URL parsing and log formatting have no counterpart; the initial checkpoint is where a worker boots.
- How old a header may be is a predicate given to the health check.
- `RedisStore.RedisStore.Scan`: a cursor counts down to 0, which models that a SCAN iteration ends; Redis promises it for a bounded key set only.
- `ProofService.ProofService.GenerateAndStoreProof`: the endless retry of the final write is bounded by a parameter, and the member says where the task stands when the bound is reached.
- `ProofService.ProofService.Run`: the endless loop is bounded by the list of polls.
- `RedisStore.RedisStore.ExtendProofGenerationLock`: the expiry that PEXPIRE renews is not part of this store, where any lock may expire at any step; `LockTiming` has it.
- `LockTiming.LockNeverLapses`: a task is not cancelled before its first extension took effect, and extension commands do not fail; `Protocol` allows both, and a run with either is not `TimedTasks.Timely`.
- Record expiry has no clock in `Protocol`: any record may vanish at any step.
- The decoder stands in for the derived one of alloy_rlp, which is not part of this model.
