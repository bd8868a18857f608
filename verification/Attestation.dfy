// What an accepted run of the guest program attests about the chain, given true committees and a
// sound trie verifier; and what the inputs assembled for a request add to that.
module Attestation {
  import opened Base
  import opened Primitives
  import opened Rlp
  import opened LightClient
  import opened Replay
  import opened ConsensusClient
  import opened UpdateFetch
  import opened Storage
  import opened TrieReads
  import opened Validation
  import opened Application
  import opened Guest
  import opened EndToEnd

  // The committed slots are those of the named contracts in the execution state with the committed root,
  // which is that of a header proved by an update that the true committee of its period signed.
  lemma OutputsAreTheChains(x: Crypto, t: Trie, lookup: Lookup, i: ProofInputs, truth: Committees)
    requires Accepts(x, t, i) && SoundTrie(t, lookup)
    requires i.store.currentSyncCommittee == truth(StorePeriod(i.store))
    requires forall k :: 0 <= k < |i.updates| ==> TruthfulUpdate(truth, i.updates[k])
    ensures var out := Outputs(x, i);
            var steps := Steps(i.updates, i.finalityUpdate);
            && AreStored(t, lookup, out.executionStateRoot, out.slots)
            && exists k :: 0 <= k < |steps|
                 && Names(x, out, steps[k].finalizedHeader)
                 && Genuine(x, NetworkOf(i), truth, steps[k], i.expectedCurrentSlot)
  {
    hide Accepts, Outputs, Names, Genuine, SoundTrie, StorageOk, AreStored, Commits;
    AcceptsIsFinal(x, t, i);
    OutputsNameAVerifiedHeader(x, t, i);
    ReplayedAreGenuine(x, i, truth);
    var out := Outputs(x, i);
    CommittedSlotsAreStored(t, lookup, out.executionStateRoot, i.contractStorage, out.slots);
  }

  lemma AcceptsIsFinal(x: Crypto, t: Trie, i: ProofInputs)
    requires Accepts(x, t, i)
    ensures FinalStore(x, i).Some? && FinalStore(x, i).value.finalizedHeader.execution.Some?
  {
  }

  // Some applied update of the replay brings a committee and finalizes in the period.
  ghost predicate Learns(x: Crypto, i: ProofInputs, period: nat) {
    exists k :: 0 <= k <= |i.updates|
      && Brings(x, NetworkOf(i), FixedClock(i.expectedCurrentSlot), StartStore(i),
                Steps(i.updates, i.finalityUpdate), k, period)
  }

  // The next committee is committed exactly when some applied update brought one and finalized in the
  // period of the new head.
  lemma NextIsCommittedExactlyWhen(x: Crypto, t: Trie, i: ProofInputs, truth: Committees)
    requires Accepts(x, t, i)
    requires i.store.currentSyncCommittee == truth(StorePeriod(i.store))
    requires forall k :: 0 <= k < |i.updates| ==> TruthfulUpdate(truth, i.updates[k])
    ensures var out := Outputs(x, i);
            out.nextSyncCommitteeHash ==
              if Learns(x, i, Period(out.newHead)) then x.committeeRoot(truth(Period(out.newHead) + 1))
              else seq(32, _ => 0)
  {
    hide Accepts, Learns, Outputs, FinalStore, Period;
    AcceptsIsFinal(x, t, i);
    OutputsNameTheStores(x, t, i);
    NewHeadIsFinal(x, t, i);
    FinalNext(x, i, truth);
  }

  // The next committee of the final store.
  lemma FinalNext(x: Crypto, i: ProofInputs, truth: Committees)
    requires FinalStore(x, i).Some?
    requires i.store.currentSyncCommittee == truth(StorePeriod(i.store))
    requires forall k :: 0 <= k < |i.updates| ==> TruthfulUpdate(truth, i.updates[k])
    ensures var final := FinalStore(x, i).value;
            final.nextSyncCommittee ==
              if Learns(x, i, StorePeriod(final)) then Some(truth(StorePeriod(final) + 1)) else None
  {
    hide Brings, Fold, FinalStore, StoreAt;
    var steps, clock := Steps(i.updates, i.finalityUpdate), FixedClock(i.expectedCurrentSlot);
    FinalIsFold(x, i);
    StartIsTruthful(i, truth);
    StepsAreTruthful(i, truth);
    KnownNextIsTrue(x, NetworkOf(i), clock, StartStore(i), steps, |steps|, truth);
  }

  // A finality update carries no committee.
  lemma StepsAreTruthful(i: ProofInputs, truth: Committees)
    requires forall k :: 0 <= k < |i.updates| ==> TruthfulUpdate(truth, i.updates[k])
    ensures var steps := Steps(i.updates, i.finalityUpdate);
            forall k :: 0 <= k < |steps| ==> TruthfulUpdate(truth, steps[k])
  {
  }

  lemma NewHeadIsFinal(x: Crypto, t: Trie, i: ProofInputs)
    requires Accepts(x, t, i)
    ensures FinalStore(x, i).Some? && FinalStore(x, i).value.finalizedHeader.execution.Some?
    ensures Outputs(x, i).newHead == StoreSlot(FinalStore(x, i).value)
  {
    hide FoldAll;
  }

  lemma StartIsTruthful(i: ProofInputs, truth: Committees)
    requires i.store.currentSyncCommittee == truth(StorePeriod(i.store))
    ensures TruthfulStore(truth, StartStore(i)) && StartStore(i).nextSyncCommittee.None?
  {
  }

  lemma FinalIsFold(x: Crypto, i: ProofInputs)
    requires FinalStore(x, i).Some?
    ensures var steps, clock := Steps(i.updates, i.finalityUpdate), FixedClock(i.expectedCurrentSlot);
            && Fold(x, NetworkOf(i), clock, StartStore(i), steps, |steps|).Some?
            && StoreAt(x, NetworkOf(i), clock, StartStore(i), steps, |steps|) == FinalStore(x, i).value
  {
    hide Fold;
    FoldAllIsFold(x, NetworkOf(i), FixedClock(i.expectedCurrentSlot), StartStore(i), i.updates, i.finalityUpdate);
  }

  // --- What a request gets ---

  // Valid bootstraps have the committee of their period.
  ghost predicate HonestBootstraps(w: World, truth: Committees) {
    forall b :: w.bootstrapOk(w.net, b) ==> b.committee == truth(Period(b.header.beacon.slot))
  }

  // Accepted inputs that were assembled for a request: the proof starts at the requested header with the true
  // committee, and commits the values that the requested slots of the answered contract have in the
  // execution state of a header that a true committee signed for.
  lemma RequestGetsTheChains(
    w: World, lookup: Lookup, request: ProofRequest, a: Attempt, truth: Committees)
    requires AssembleInputs(w, request, a).Ok? && Accepts(w.x, w.t, AssembleInputs(w, request, a).value)
    requires SoundTrie(w.t, lookup) && HonestBootstraps(w, truth)
    requires var updates := AssembleInputs(w, request, a).value.updates;
             forall k :: 0 <= k < |updates| ==> TruthfulUpdate(truth, updates[k])
    ensures var inputs := AssembleInputs(w, request, a).value;
            var out, steps := Outputs(w.x, inputs), Steps(inputs.updates, inputs.finalityUpdate);
            && out.prevHeader == request.fromHeader
            && out.startSyncCommitteeHash == w.x.committeeRoot(truth(Period(out.prevHead)))
            && |out.slots| == |request.storageSlots|
            && (forall k :: 0 <= k < |out.slots| ==>
                  ReadStorage(w.t, lookup, out.executionStateRoot, a.response.address, request.storageSlots[k])
                  == Some(FromBigEndian(out.slots[k].value)))
            && exists k :: 0 <= k < |steps|
                 && Names(w.x, out, steps[k].finalizedHeader)
                 && Genuine(w.x, w.net, truth, steps[k], inputs.expectedCurrentSlot)
  {
    hide AssembleInputs, Accepts, ConsensusInputs, Outputs, Genuine, Names, SoundTrie, ReadStorage, IsSyncOf;
    var inputs := AssembleInputs(w, request, a).value;
    AssembledInputsAre(w, request, a);
    AcceptsIsFinal(w.x, w.t, inputs);
    OutputsAreTheChains(w.x, w.t, lookup, inputs, truth);
    OutputsNameTheStores(w.x, w.t, inputs);
    SlotsAreRequested(w, request, a);
  }

  lemma SlotsAreRequested(w: World, request: ProofRequest, a: Attempt)
    requires AssembleInputs(w, request, a).Ok? && Accepts(w.x, w.t, AssembleInputs(w, request, a).value)
    ensures var out := Outputs(w.x, AssembleInputs(w, request, a).value);
            && |out.slots| == |request.storageSlots|
            && forall k :: 0 <= k < |out.slots| ==>
                 out.slots[k].key == request.storageSlots[k] && out.slots[k].contractAddress == a.response.address
  {
    hide FoldAll, ConsensusInputs, StorageOk;
    var inputs := AssembleInputs(w, request, a).value;
    OutputsNameAVerifiedHeader(w.x, w.t, inputs);
  }
}
