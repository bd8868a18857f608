// From a request to the guest's outputs: the host bootstraps, syncs, fetches a storage proof,
// assembles the inputs and has them proved.
module EndToEnd {
  import opened Base
  import opened Primitives
  import opened LightClient
  import opened UpdateFetch
  import opened Replay
  import opened ConsensusClient
  import opened Storage
  import opened Guest

  // What the outside world gives one attempt: the bootstrap that verified first, one session per
  // consensus endpoint, and the storage proof of the execution endpoint that answered first.
  datatype Attempt = Attempt(bootstrap: Bootstrap, sessions: seq<Session>, response: AccountProof)

  datatype World = World(x: Crypto, t: Trie, net: Network, bootstrapOk: (Network, Bootstrap) -> bool)

  // The light client starts from a header whose root is the trusted checkpoint.
  predicate VerifyBootstrap(w: World, b: Bootstrap, checkpoint: B256) {
    w.x.headerRoot(b.header.beacon) == checkpoint && w.bootstrapOk(w.net, b)
  }

  function BestTrace(x: Crypto, net: Network, store: Store, sessions: seq<Session>): Option<SyncTrace> {
    Pick(SyncOutcomes(x, net, store, sessions), (t: SyncTrace) => t.finalStore)
  }

  // The consensus half: sync from the bootstrap and require the head to have advanced.
  function ConsensusInputs(w: World, request: ProofRequest, a: Attempt): Result<SyncTrace, string> {
    if !VerifyBootstrap(w, a.bootstrap, request.fromHeader) then Err("bootstrap failed")
    else
      var initial := ApplyBootstrap(a.bootstrap);
      var trace := BestTrace(w.x, w.net, initial, a.sessions);
      if trace.None? then Err("all rpcs failed")
      else if StoreSlot(trace.value.finalStore) <= StoreSlot(initial) then Err("finalized head did not advance")
      else if trace.value.finalStore.finalizedHeader.execution.None? then Err("no execution payload")
      else Ok(trace.value)
  }

  // The storage half: the proof is checked against the finality update's own header.
  function CheckedStorage(w: World, request: ProofRequest, fu: FinalityUpdate, response: AccountProof)
    : Result<ContractStorage, string>
  {
    if fu.finalizedHeader.execution.None? then Err("No execution header in finality update")
    else
      var cs :- Build(request.storageSlots, response);
      if StorageOk(w.t, fu.finalizedHeader.execution.value.stateRoot, cs) then Ok(cs) else Err("invalid storage proof")
  }

  function AssembleInputs(w: World, request: ProofRequest, a: Attempt): Result<ProofInputs, string> {
    var trace :- ConsensusInputs(w, request, a);
    var cs :- CheckedStorage(w, request, trace.finalityUpdate, a.response);
    Ok(ProofInputs(
         trace.updates, trace.finalityUpdate, trace.expectedCurrentSlot, ApplyBootstrap(a.bootstrap),
         w.net.genesisRoot, w.net.forks, cs))
  }

  // The prover returns a proof only for inputs the program accepts, with the outputs it commits.
  ghost predicate SoundProver(w: World, prove: ProofInputs -> Result<ProofData, string>) {
    forall i :: prove(i).Ok? ==> Accepts(w.x, w.t, i) && prove(i).value.publicValues == Outputs(w.x, i)
  }

  // The result a generation task stores: proving is attempted only from an epoch boundary.
  function GenerateProof(w: World, prove: ProofInputs -> Result<ProofData, string>, request: ProofRequest, a: Attempt)
    : Result<ProofData, string>
  {
    var inputs :- AssembleInputs(w, request, a);
    if inputs.finalityUpdate.finalizedHeader.beacon.slot % 32 == 0 then prove(inputs)
    else Err("finalized slot is not divisible by 32")
  }

  // --- The trace that was picked ---

  lemma PickedTraceIsASync(w: World, request: ProofRequest, a: Attempt)
    requires ConsensusInputs(w, request, a).Ok?
    ensures exists i :: 0 <= i < |a.sessions| &&
              SyncOutcome(w.x, w.net, ApplyBootstrap(a.bootstrap), a.sessions[i])
              == Ok(ConsensusInputs(w, request, a).value)
  {
    var initial := ApplyBootstrap(a.bootstrap);
    var results := SyncOutcomes(w.x, w.net, initial, a.sessions);
    var storeOf := (t: SyncTrace) => t.finalStore;
    PickIsFirstMaximal(results, storeOf);
    var trace := ConsensusInputs(w, request, a).value;
    var k: nat :| FirstMaximal(results, storeOf, k) && results[k].value == Pick(results, storeOf).value;
    assert SyncOutcome(w.x, w.net, initial, a.sessions[k]) == Ok(trace);
  }

  // --- Host to guest replay ---

  predicate SignedInTime(trace: SyncTrace) {
    && SignedBy(trace.updates, |trace.updates|, trace.expectedCurrentSlot)
    && trace.finalityUpdate.signatureSlot <= trace.expectedCurrentSlot
  }

  lemma SyncReplays(x: Crypto, net: Network, initial: Store, s: Session)
    requires SyncOutcome(x, net, initial, s).Ok?
    ensures var trace := SyncOutcome(x, net, initial, s).value;
            var clock := FixedClock(trace.expectedCurrentSlot);
            var replay := FoldAll(x, net, clock, initial, trace.updates, trace.finalityUpdate);
            && (replay.Some? <==> SignedInTime(trace))
            && (replay.Some? ==> replay.value.store == trace.finalStore)
  {
    hide Validate, Apply;
    var trace := SyncOutcome(x, net, initial, s).value;
    var slot := trace.expectedCurrentSlot;
    var steps := Steps(trace.updates, trace.finalityUpdate);
    FoldAllIsFold(x, net, s.clock, initial, trace.updates, trace.finalityUpdate);
    FoldAllIsFold(x, net, FixedClock(slot), initial, trace.updates, trace.finalityUpdate);
    ReplayAccepts(x, net, s.clock, initial, steps, |steps|, slot);
    SignedSteps(trace.updates, trace.finalityUpdate, slot);
  }

  lemma SignedSteps(updates: seq<Update>, fu: FinalityUpdate, slot: nat)
    ensures var steps := Steps(updates, fu);
            SignedBy(steps, |steps|, slot) <==> SignedBy(updates, |updates|, slot) && fu.signatureSlot <= slot
  {
    var steps := Steps(updates, fu);
    assert steps[|updates|] == AsUpdate(fu);
    assert forall i :: 0 <= i < |updates| ==> steps[i] == updates[i];
  }

  // The guest replays the host's sync, from the same bootstrapped store and into exactly the host's
  // final store, if and only if no signature is newer than the slot captured when the sync began.
  // Its head check adds nothing to the host's own.
  lemma GuestReplaysSync(w: World, request: ProofRequest, a: Attempt)
    requires AssembleInputs(w, request, a).Ok?
    ensures var trace := ConsensusInputs(w, request, a).value;
            FinalStore(w.x, AssembleInputs(w, request, a).value) ==
              if SignedInTime(trace) then Some(trace.finalStore) else None
  {
    hide FoldAll, SyncOutcome, Pick;
    var initial := ApplyBootstrap(a.bootstrap);
    PickedTraceIsASync(w, request, a);
    var trace := ConsensusInputs(w, request, a).value;
    var i :| 0 <= i < |a.sessions| && SyncOutcome(w.x, w.net, initial, a.sessions[i]) == Ok(trace);
    SyncReplays(w.x, w.net, initial, a.sessions[i]);
    var inputs := AssembleInputs(w, request, a).value;
    assert StartStore(inputs) == initial && NetworkOf(inputs) == w.net;
  }

  // The exact condition for the guest to accept what the host assembled: signatures in time, and the
  // storage proof valid under the state root of the store's header, which the host did not check.
  lemma GuestAcceptsExactlyWhen(w: World, request: ProofRequest, a: Attempt)
    requires AssembleInputs(w, request, a).Ok?
    ensures var trace := ConsensusInputs(w, request, a).value;
            var inputs := AssembleInputs(w, request, a).value;
            Accepts(w.x, w.t, inputs) <==>
              && SignedInTime(trace)
              && StorageOk(w.t, trace.finalStore.finalizedHeader.execution.value.stateRoot, inputs.contractStorage)
  {
    hide FoldAll, SyncOutcome, Pick;
    GuestReplaysSync(w, request, a);
  }

  // The finality update decided the final header.
  predicate Aligned(trace: SyncTrace) {
    trace.finalStore.finalizedHeader == trace.finalityUpdate.finalizedHeader
  }

  // When it did, the host's storage check is the guest's, and signatures in time are enough.
  lemma AlignedInputsAreAccepted(w: World, request: ProofRequest, a: Attempt)
    requires AssembleInputs(w, request, a).Ok? && Aligned(ConsensusInputs(w, request, a).value)
    ensures Accepts(w.x, w.t, AssembleInputs(w, request, a).value) <==>
              SignedInTime(ConsensusInputs(w, request, a).value)
  {
    hide FoldAll, SyncOutcome, Pick;
    GuestAcceptsExactlyWhen(w, request, a);
  }

  lemma AppliedHeader(store: Store, u: Update)
    ensures Apply(store, u).finalizedHeader == u.finalizedHeader <==>
              || (Supermajority(u) && FinalizedSlot(u) > StoreSlot(store))
              || store.finalizedHeader == u.finalizedHeader
  {
    hide Count;
  }

  // A sync is aligned exactly when its finality update had a supermajority and was newer than
  // the store the updates led to, or repeats that store's header.
  lemma AlignedExactlyWhen(x: Crypto, net: Network, initial: Store, s: Session)
    requires SyncOutcome(x, net, initial, s).Ok?
    ensures var trace := SyncOutcome(x, net, initial, s).value;
            var fu := trace.finalityUpdate;
            var before := Fold(x, net, s.clock, initial, trace.updates, |trace.updates|);
            && before.Some?
            && (Aligned(trace) <==>
                  || (Supermajority(AsUpdate(fu)) && fu.finalizedHeader.beacon.slot > StoreSlot(before.value.store))
                  || before.value.store.finalizedHeader == fu.finalizedHeader)
  {
    hide Validate, Apply, Supermajority, Fold;
    var trace := SyncOutcome(x, net, initial, s).value;
    var before := Fold(x, net, s.clock, initial, trace.updates, |trace.updates|);
    AppliedHeader(before.value.store, AsUpdate(trace.finalityUpdate));
  }

  // --- What a proof says ---

  // Every proof a generation task stores: it starts from the requested header, ends at a later head,
  // and commits the requested keys in order, under the address the execution endpoint
  // returned; the new head is an epoch boundary when the sync is aligned.
  lemma StoredProofSays(
    w: World, prove: ProofInputs -> Result<ProofData, string>, request: ProofRequest, a: Attempt)
    requires SoundProver(w, prove) && GenerateProof(w, prove, request, a).Ok?
    ensures var out := GenerateProof(w, prove, request, a).value.publicValues;
            && out.prevHeader == request.fromHeader
            && out.newHead > out.prevHead
            && |out.slots| == |request.storageSlots|
            && (forall i :: 0 <= i < |out.slots| ==>
                  out.slots[i].key == request.storageSlots[i] && out.slots[i].contractAddress == a.response.address)
            && (Aligned(ConsensusInputs(w, request, a).value) ==> out.newHead % 32 == 0)
  {
    hide FoldAll, SyncOutcome, Pick, StorageOk;
    var inputs := AssembleInputs(w, request, a).value;
    GuestReplaysSync(w, request, a);
    assert prove(inputs).Ok?;
  }

  lemma AppliedSlot(store: Store, u: Update)
    ensures StoreSlot(Apply(store, u)) ==
              if Supermajority(u) && FinalizedSlot(u) > StoreSlot(store) then FinalizedSlot(u) else StoreSlot(store)
  {
    hide Count;
  }

  // The store a session reached before its finality update.
  function BeforeFinality(w: World, a: Attempt, s: Session, trace: SyncTrace): Option<Store> {
    var p := Fold(w.x, w.net, s.clock, ApplyBootstrap(a.bootstrap), trace.updates, |trace.updates|);
    if p.None? then None else Some(p.value.store)
  }

  // The finality update is applied, or the committee updates alone had reached an epoch boundary.
  predicate BoundaryAhead(before: Store, fu: FinalityUpdate) {
    || (Supermajority(AsUpdate(fu)) && fu.finalizedHeader.beacon.slot > StoreSlot(before))
    || StoreSlot(before) % 32 == 0
  }

  lemma FinalSlotIsBoundary(x: Crypto, net: Network, initial: Store, s: Session)
    requires SyncOutcome(x, net, initial, s).Ok?
    requires SyncOutcome(x, net, initial, s).value.finalityUpdate.finalizedHeader.beacon.slot % 32 == 0
    ensures var trace := SyncOutcome(x, net, initial, s).value;
            var before := Fold(x, net, s.clock, initial, trace.updates, |trace.updates|);
            && before.Some?
            && (StoreSlot(trace.finalStore) % 32 == 0 <==> BoundaryAhead(before.value.store, trace.finalityUpdate))
  {
    hide Validate, Apply, Supermajority, Fold;
    var trace := SyncOutcome(x, net, initial, s).value;
    var before := Fold(x, net, s.clock, initial, trace.updates, |trace.updates|);
    AppliedSlot(before.value.store, AsUpdate(trace.finalityUpdate));
  }

  // The check on the finality update's slot makes the committed head an epoch boundary in exactly
  // these cases, for the session whose sync was picked.
  lemma HeadIsBoundaryExactlyWhen(
    w: World, prove: ProofInputs -> Result<ProofData, string>, request: ProofRequest, a: Attempt)
    requires SoundProver(w, prove) && GenerateProof(w, prove, request, a).Ok?
    ensures var trace := ConsensusInputs(w, request, a).value;
            exists s :: s in a.sessions
              && SyncOutcome(w.x, w.net, ApplyBootstrap(a.bootstrap), s) == Ok(trace)
              && BeforeFinality(w, a, s, trace).Some?
              && (GenerateProof(w, prove, request, a).value.publicValues.newHead % 32 == 0 <==>
                    BoundaryAhead(BeforeFinality(w, a, s, trace).value, trace.finalityUpdate))
  {
    hide FoldAll, Fold, SyncOutcome, Pick, StorageOk, BoundaryAhead;
    var inputs := AssembleInputs(w, request, a).value;
    var trace := ConsensusInputs(w, request, a).value;
    GuestReplaysSync(w, request, a);
    assert prove(inputs).Ok?;
    PickedTraceIsASync(w, request, a);
    var i :| 0 <= i < |a.sessions| && SyncOutcome(w.x, w.net, ApplyBootstrap(a.bootstrap), a.sessions[i]) == Ok(trace);
    FinalSlotIsBoundary(w.x, w.net, ApplyBootstrap(a.bootstrap), a.sessions[i]);
    assert a.sessions[i] in a.sessions;
  }

  // --- When inputs are assembled and proofs are made ---

  // The host assembles inputs exactly when the bootstrap is the requested one and valid, some endpoint
  // syncs, the best sync advances the head to a block with an execution payload, and the response has a
  // proof for every requested key that verifies under the finality update's own state root.
  lemma AssemblesExactlyWhen(w: World, request: ProofRequest, a: Attempt)
    ensures var start, fu, cs := ApplyBootstrap(a.bootstrap), Best(w, a), Build(request.storageSlots, a.response);
            AssembleInputs(w, request, a).Ok? <==>
              && w.x.headerRoot(a.bootstrap.header.beacon) == request.fromHeader && w.bootstrapOk(w.net, a.bootstrap)
              && (exists s :: s in a.sessions && Syncs(w.x, w.net, start, s))
              && fu.Some?
              && StoreSlot(fu.value.finalStore) > a.bootstrap.header.beacon.slot
              && fu.value.finalStore.finalizedHeader.execution.Some?
              && fu.value.finalityUpdate.finalizedHeader.execution.Some?
              && |a.response.storageProof| == |request.storageSlots|
              && StorageOk(w.t, fu.value.finalityUpdate.finalizedHeader.execution.value.stateRoot, cs.value)
  {
    hide Pick, Syncs, SyncOutcome, StorageOk, Build;
    BuildCounts(request.storageSlots, a.response);
    if Best(w, a).Some? {
      BestSyncs(w, a);
    }
  }

  lemma BuildCounts(keys: seq<B256>, response: AccountProof)
    ensures Build(keys, response).Ok? <==> |response.storageProof| == |keys|
  {
  }

  // The trace that is picked among the endpoints' syncs.
  function Best(w: World, a: Attempt): Option<SyncTrace> {
    BestTrace(w.x, w.net, ApplyBootstrap(a.bootstrap), a.sessions)
  }

  lemma BestSyncs(w: World, a: Attempt)
    requires Best(w, a).Some?
    ensures exists s :: s in a.sessions && Syncs(w.x, w.net, ApplyBootstrap(a.bootstrap), s)
  {
    hide Syncs, IsSyncOf, SyncOutcome;
    var start := ApplyBootstrap(a.bootstrap);
    var results := SyncOutcomes(w.x, w.net, start, a.sessions);
    var storeOf := (t: SyncTrace) => t.finalStore;
    PickIsFirstMaximal(results, storeOf);
    var k: nat :| FirstMaximal(results, storeOf, k);
    SyncsExactlyWhen(w.x, w.net, start, a.sessions[k]);
    assert a.sessions[k] in a.sessions;
  }

  // The assembled inputs are the picked sync from the bootstrapped store, without a next committee.
  lemma AssembledInputsAre(w: World, request: ProofRequest, a: Attempt)
    requires AssembleInputs(w, request, a).Ok?
    ensures var inputs, trace := AssembleInputs(w, request, a).value, ConsensusInputs(w, request, a).value;
            && inputs.updates == trace.updates && inputs.finalityUpdate == trace.finalityUpdate
            && inputs.expectedCurrentSlot == trace.expectedCurrentSlot
            && NetworkOf(inputs) == w.net
            && inputs.store.finalizedHeader == a.bootstrap.header
            && inputs.store.currentSyncCommittee == a.bootstrap.committee
            && StartStore(inputs) == inputs.store
            && w.x.headerRoot(inputs.store.finalizedHeader.beacon) == request.fromHeader
            && w.bootstrapOk(w.net, a.bootstrap)
            && exists s :: s in a.sessions && IsSyncOf(w.x, w.net, inputs.store, s, trace)
  {
    hide Pick, IsSyncOf, Syncs, SyncOutcome, StorageOk, Build;
    PickedTraceIsASync(w, request, a);
    var start := ApplyBootstrap(a.bootstrap);
    var k :| 0 <= k < |a.sessions|
             && SyncOutcome(w.x, w.net, start, a.sessions[k]) == Ok(ConsensusInputs(w, request, a).value);
    SyncsExactlyWhen(w.x, w.net, start, a.sessions[k]);
    assert a.sessions[k] in a.sessions;
  }

  // A proof is asked for exactly from a slot that is a multiple of 32, and is what the prover returns.
  lemma GeneratesExactlyWhen(
    w: World, prove: ProofInputs -> Result<ProofData, string>, request: ProofRequest, a: Attempt)
    ensures GenerateProof(w, prove, request, a).Ok? <==>
              && AssembleInputs(w, request, a).Ok?
              && ConsensusInputs(w, request, a).value.finalityUpdate.finalizedHeader.beacon.slot % 32 == 0
              && prove(AssembleInputs(w, request, a).value).Ok?
    ensures GenerateProof(w, prove, request, a).Ok? ==>
              GenerateProof(w, prove, request, a) == prove(AssembleInputs(w, request, a).value)
  {
    hide ConsensusInputs, CheckedStorage;
    if AssembleInputs(w, request, a).Ok? {
      AssembledFinality(w, request, a);
    }
  }

  lemma AssembledFinality(w: World, request: ProofRequest, a: Attempt)
    requires AssembleInputs(w, request, a).Ok?
    ensures ConsensusInputs(w, request, a).Ok?
    ensures AssembleInputs(w, request, a).value.finalityUpdate == ConsensusInputs(w, request, a).value.finalityUpdate
  {
    hide ConsensusInputs, CheckedStorage;
  }
}
