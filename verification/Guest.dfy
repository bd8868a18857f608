// The zero-knowledge program: replay the sync, check that the head advanced, check the storage
// proofs, commit the outputs. A panic is the result None.
module Guest {
  import opened Base
  import opened Primitives
  import opened LightClient
  import opened Replay
  import opened Storage
  import opened Rlp

  datatype ProofInputs = ProofInputs(
    updates: seq<Update>,
    finalityUpdate: FinalityUpdate,
    expectedCurrentSlot: U64,
    store: Store,
    genesisRoot: B256,
    forks: Forks,
    contractStorage: ContractStorage)

  function NetworkOf(i: ProofInputs): Network {
    Network(i.genesisRoot, i.forks)
  }

  // The input's next committee is not trusted.
  function StartStore(i: ProofInputs): Store {
    i.store.(nextSyncCommittee := None)
  }

  // The store after steps 1 to 3.
  function FinalStore(x: Crypto, i: ProofInputs): Option<Store> {
    var p := FoldAll(x, NetworkOf(i), FixedClock(i.expectedCurrentSlot), StartStore(i), i.updates, i.finalityUpdate);
    if p.None? || StoreSlot(p.value.store) <= StoreSlot(i.store) then None else Some(p.value.store)
  }

  predicate Accepts(x: Crypto, t: Trie, i: ProofInputs) {
    var final := FinalStore(x, i);
    && final.Some?
    && final.value.finalizedHeader.execution.Some?
    && StorageOk(t, final.value.finalizedHeader.execution.value.stateRoot, i.contractStorage)
  }

  function Outputs(x: Crypto, i: ProofInputs): ProofOutputs
    requires FinalStore(x, i).Some? && FinalStore(x, i).value.finalizedHeader.execution.Some?
  {
    OutputsOf(x, i, FinalStore(x, i).value)
  }

  function OutputsOf(x: Crypto, i: ProofInputs, final: Store): ProofOutputs
    requires final.finalizedHeader.execution.Some?
  {
    ProofOutputs(
      final.finalizedHeader.execution.value.stateRoot,
      x.headerRoot(final.finalizedHeader.beacon),
      if final.nextSyncCommittee.Some? then x.committeeRoot(final.nextSyncCommittee.value) else ZERO_ROOT,
      StoreSlot(final),
      x.headerRoot(i.store.finalizedHeader.beacon),
      StoreSlot(i.store),
      x.committeeRoot(final.currentSyncCommittee),
      x.committeeRoot(i.store.currentSyncCommittee),
      Committed(i.contractStorage))
  }

  // The guest's copy of the storage check panics instead of reporting.
  method VerifyStorageSlotProofs(t: Trie, stateRoot: B256, cs: ContractStorage)
    returns (slots: Option<seq<VerifiedStorageSlot>>)
    ensures slots.Some? <==> StorageOk(t, stateRoot, cs)
    ensures slots.Some? ==> Commits(cs, slots.value)
  {
    hide EncodeAccount, EncodeUint, Unpack, ToBytes32;
    if !t.verify(stateRoot, Unpack(t.keccak(cs.address)), EncodeAccount(cs.expectedValue), cs.mptProof) {
      return None;
    }
    var verified: seq<VerifiedStorageSlot> := [];
    for j := 0 to |cs.storageSlots|
      invariant |verified| == j
      invariant forall k :: 0 <= k < j ==>
                  SlotOk(t, cs.expectedValue.storageRoot, cs.storageSlots[k])
                  && verified[k] == Verified(cs, cs.storageSlots[k])
    {
      var slot := cs.storageSlots[j];
      var path := Unpack(t.keccak(slot.key));
      if !t.verify(cs.expectedValue.storageRoot, path, EncodeUint(slot.expectedValue), slot.mptProof) {
        assert !SlotOk(t, cs.expectedValue.storageRoot, cs.storageSlots[j]);
        return None;
      }
      verified := verified + [VerifiedStorageSlot(slot.key, ToBytes32(slot.expectedValue), cs.address)];
    }
    return Some(verified);
  }

  // Steps 1 to 3.
  method ReplaySync(x: Crypto, inputs: ProofInputs) returns (final: Option<Store>)
    ensures final == FinalStore(x, inputs)
  {
    hide Validate, Apply;
    var store := inputs.store.(nextSyncCommittee := None);
    var prevHead := StoreSlot(inputs.store);
    var net := Network(inputs.genesisRoot, inputs.forks);
    var slot := inputs.expectedCurrentSlot;
    ghost var clock := FixedClock(slot);
    ghost var start := store;
    ghost var checkpoint: Option<B256> := None;

    for i := 0 to |inputs.updates|
      invariant Fold(x, net, clock, start, inputs.updates, i) == Some(Progress(store, checkpoint))
    {
      FoldStep(x, net, clock, start, inputs.updates, i, Progress(store, checkpoint));
      if !Validate(x, net, inputs.updates[i], slot, store) {
        if Fold(x, net, clock, start, inputs.updates, |inputs.updates|).Some? {
          FoldStops(x, net, clock, start, inputs.updates, i + 1, |inputs.updates|);
        }
        return None;
      }
      checkpoint := ApplyTracked(x, Progress(store, checkpoint), inputs.updates[i]).checkpoint;
      store := Apply(store, inputs.updates[i]);
    }

    if !Validate(x, net, AsUpdate(inputs.finalityUpdate), slot, store) {
      return None;
    }
    store := Apply(store, AsUpdate(inputs.finalityUpdate));

    if StoreSlot(store) <= prevHead {
      return None;
    }
    return Some(store);
  }

  method RunProgram(x: Crypto, t: Trie, inputs: ProofInputs) returns (outputs: Option<ProofOutputs>)
    ensures outputs.Some? <==> Accepts(x, t, inputs)
    ensures outputs.Some? ==> outputs.value == Outputs(x, inputs)
  {
    var startCommitteeHash := x.committeeRoot(inputs.store.currentSyncCommittee);
    var prevHeader := x.headerRoot(inputs.store.finalizedHeader.beacon);
    var prevHead := StoreSlot(inputs.store);

    var final := ReplaySync(x, inputs);
    if final.None? || final.value.finalizedHeader.execution.None? {
      return None;
    }
    var store := final.value;
    var stateRoot := store.finalizedHeader.execution.value.stateRoot;
    var slots := VerifyStorageSlotProofs(t, stateRoot, inputs.contractStorage);
    if slots.None? {
      return None;
    }
    assert slots.value == Committed(inputs.contractStorage);
    return Some(ProofOutputs(
      stateRoot,
      x.headerRoot(store.finalizedHeader.beacon),
      if store.nextSyncCommittee.Some? then x.committeeRoot(store.nextSyncCommittee.value) else ZERO_ROOT,
      StoreSlot(store),
      prevHeader,
      prevHead,
      x.committeeRoot(store.currentSyncCommittee),
      startCommitteeHash,
      slots.value));
  }

  // --- What the outputs are ---

  // The outputs name this header: its slot, its root and its execution state root.
  predicate Names(x: Crypto, out: ProofOutputs, h: LightClientHeader) {
    && out.newHead == h.beacon.slot && out.newHeader == x.headerRoot(h.beacon)
    && h.execution.Some? && out.executionStateRoot == h.execution.value.stateRoot
  }

  // The head of the outputs was carried by a verified step, and their slots were proved under the
  // execution state root of that same header.
  lemma OutputsNameAVerifiedHeader(x: Crypto, t: Trie, i: ProofInputs)
    requires Accepts(x, t, i)
    ensures var out := Outputs(x, i);
            var steps := Steps(i.updates, i.finalityUpdate);
            && (exists k :: 0 <= k < |steps| && Names(x, out, steps[k].finalizedHeader))
            && StorageOk(t, out.executionStateRoot, i.contractStorage) && Commits(i.contractStorage, out.slots)
  {
    hide FoldAll;
    OutputsComeFromUpdates(x, i);
    var steps := Steps(i.updates, i.finalityUpdate);
    var final := FinalStore(x, i).value;
    var k :| 0 <= k < |steps| && Carries(steps[k], final.finalizedHeader);
    assert Names(x, Outputs(x, i), steps[k].finalizedHeader);
  }

  // The other fields: where the proof starts, and the committees of the final store.
  lemma OutputsNameTheStores(x: Crypto, t: Trie, i: ProofInputs)
    requires Accepts(x, t, i)
    ensures var out, final := Outputs(x, i), FinalStore(x, i).value;
            && out.prevHead == i.store.finalizedHeader.beacon.slot < out.newHead
            && out.prevHeader == x.headerRoot(i.store.finalizedHeader.beacon)
            && out.startSyncCommitteeHash == x.committeeRoot(i.store.currentSyncCommittee)
            && Names(x, out, final.finalizedHeader)
            && out.syncCommitteeHash == x.committeeRoot(final.currentSyncCommittee)
            && (final.nextSyncCommittee.Some? ==>
                  out.nextSyncCommitteeHash == x.committeeRoot(final.nextSyncCommittee.value))
            && (final.nextSyncCommittee.None? ==> out.nextSyncCommitteeHash == seq(32, _ => 0))
  {
    hide FoldAll;
    NoRoot(32);
  }

  lemma {:induction false} NoRoot(n: nat)
    ensures Zeros(n) == seq(n, _ => 0)
  {
    if n > 0 {
      NoRoot(n - 1);
    }
  }

  // --- Provenance of the outputs ---

  // The finalized header behind the outputs was carried by one of the updates or by the finality
  // update, so the state root never comes from the input store; a committed next committee
  // was carried by a verified update.
  lemma OutputsComeFromUpdates(x: Crypto, i: ProofInputs)
    requires FinalStore(x, i).Some?
    ensures var final := FinalStore(x, i).value;
            var steps := Steps(i.updates, i.finalityUpdate);
            && StoreSlot(final) > StoreSlot(i.store)
            && (exists k :: 0 <= k < |steps| && Carries(steps[k], final.finalizedHeader))
            && (final.nextSyncCommittee.Some? ==>
                  exists k :: 0 <= k < |i.updates| && CarriesCommittee(i.updates[k], final.nextSyncCommittee.value))
  {
    var steps := Steps(i.updates, i.finalityUpdate);
    var clock := FixedClock(i.expectedCurrentSlot);
    FoldAllIsFold(x, NetworkOf(i), clock, StartStore(i), i.updates, i.finalityUpdate);
    FoldProvenance(x, NetworkOf(i), clock, StartStore(i), steps, |steps|);
    var final := FinalStore(x, i).value;
    if final.nextSyncCommittee.Some? {
      var k :| 0 <= k < |steps| && CarriesCommittee(steps[k], final.nextSyncCommittee.value);
      assert k < |i.updates|;
      assert CarriesCommittee(i.updates[k], final.nextSyncCommittee.value);
    }
  }

  // Acceptance and outputs do not depend on the next committee of the input store.
  lemma InputNextCommitteeIsIgnored(x: Crypto, t: Trie, i: ProofInputs, next: Option<SyncCommittee>)
    ensures var j := i.(store := i.store.(nextSyncCommittee := next));
            && (Accepts(x, t, i) <==> Accepts(x, t, j))
            && (Accepts(x, t, i) ==> Outputs(x, i) == Outputs(x, j))
  {
    var j := i.(store := i.store.(nextSyncCommittee := next));
    assert StartStore(i) == StartStore(j);
  }

  lemma FinalStoreIsTruthful(x: Crypto, i: ProofInputs, truth: Committees)
    requires FinalStore(x, i).Some?
    requires i.store.currentSyncCommittee == truth(StorePeriod(i.store))
    requires forall k :: 0 <= k < |i.updates| ==> TruthfulUpdate(truth, i.updates[k])
    ensures TruthfulStore(truth, FinalStore(x, i).value)
  {
    var steps := Steps(i.updates, i.finalityUpdate);
    var clock := FixedClock(i.expectedCurrentSlot);
    FoldAllIsFold(x, NetworkOf(i), clock, StartStore(i), i.updates, i.finalityUpdate);
    FoldKeepsTruth(x, NetworkOf(i), clock, StartStore(i), steps, |steps|, truth);
  }

  lemma TruthfulOutputs(x: Crypto, i: ProofInputs, final: Store, truth: Committees)
    requires final.finalizedHeader.execution.Some? && TruthfulStore(truth, final)
    requires i.store.currentSyncCommittee == truth(StorePeriod(i.store))
    ensures var out := OutputsOf(x, i, final);
            && out.startSyncCommitteeHash == x.committeeRoot(truth(Period(out.prevHead)))
            && out.syncCommitteeHash == x.committeeRoot(truth(Period(out.newHead)))
            && (out.nextSyncCommitteeHash == ZERO_ROOT
                || out.nextSyncCommitteeHash == x.committeeRoot(truth(Period(out.newHead) + 1)))
  {
  }

  // When the input store and the updates tell the truth about committees, so do the outputs.
  lemma OutputsNameTrueCommittees(x: Crypto, i: ProofInputs, truth: Committees)
    requires FinalStore(x, i).Some? && FinalStore(x, i).value.finalizedHeader.execution.Some?
    requires i.store.currentSyncCommittee == truth(StorePeriod(i.store))
    requires forall k :: 0 <= k < |i.updates| ==> TruthfulUpdate(truth, i.updates[k])
    ensures var out := Outputs(x, i);
            && out.startSyncCommitteeHash == x.committeeRoot(truth(Period(out.prevHead)))
            && out.syncCommitteeHash == x.committeeRoot(truth(Period(out.newHead)))
            && (out.nextSyncCommitteeHash == ZERO_ROOT
                || out.nextSyncCommitteeHash == x.committeeRoot(truth(Period(out.newHead) + 1)))
  {
    hide FoldAll;
    FinalStoreIsTruthful(x, i, truth);
    TruthfulOutputs(x, i, FinalStore(x, i).value, truth);
  }
}
