// What validation means when the store tells the truth about committees: who signed an accepted
// update, what its branches prove, and that nothing else is asked.
module Validation {
  import opened Base
  import opened LightClient
  import opened Replay
  import opened Guest

  // --- Participation ---

  // The keys at the set bits, in order.
  function Selected(keys: seq<Pubkey>, bits: seq<bool>, n: nat): seq<Pubkey>
    requires n <= |keys| && n <= |bits|
  {
    if n == 0 then []
    else Selected(keys, bits, n - 1) + if bits[n - 1] then [keys[n - 1]] else []
  }

  lemma {:induction false} ParticipantsFromAreSelected(keys: seq<Pubkey>, bits: Bits, i: nat)
    requires i <= SYNC_COMMITTEE_SIZE <= |keys|
    ensures Selected(keys, bits, i) + ParticipantsFrom(keys, bits, i) == Selected(keys, bits, SYNC_COMMITTEE_SIZE)
    decreases SYNC_COMMITTEE_SIZE - i
  {
    if i < SYNC_COMMITTEE_SIZE {
      ParticipantsFromAreSelected(keys, bits, i + 1);
      var own: seq<Pubkey> := if bits[i] then [keys[i]] else [];
      assert Selected(keys, bits, i) + (own + ParticipantsFrom(keys, bits, i + 1))
          == Selected(keys, bits, i) + own + ParticipantsFrom(keys, bits, i + 1);
    }
  }

  lemma {:induction false} SelectedCount(keys: seq<Pubkey>, bits: seq<bool>, n: nat)
    requires n <= |keys| && n <= |bits|
    ensures |Selected(keys, bits, n)| == Count(bits[..n])
  {
    if n > 0 {
      SelectedCount(keys, bits, n - 1);
      CountLast(bits[..n]);
      assert bits[..n][..n - 1] == bits[..n - 1];
    }
  }

  lemma {:induction false} CountLast(bits: seq<bool>)
    requires bits != []
    ensures Count(bits) == Count(bits[..|bits| - 1]) + if bits[|bits| - 1] then 1 else 0
  {
    if |bits| > 1 {
      CountLast(bits[1..]);
      assert bits[1..][..|bits| - 2] == bits[..|bits| - 1][1..];
    }
  }

  lemma {:induction false} CountedIsSet(bits: seq<bool>)
    ensures Count(bits) >= 1 <==> exists j :: 0 <= j < |bits| && bits[j]
  {
    if bits != [] {
      CountedIsSet(bits[1..]);
      if j :| 0 <= j < |bits| && bits[j] {
        if j > 0 {
          assert bits[1..][j - 1];
        }
      }
      if j :| 0 <= j < |bits[1..]| && bits[1..][j] {
        assert bits[j + 1];
      }
    }
  }

  // For a full committee the participants are the keys at the set bits, as many as bits are set.
  lemma ParticipantsExact(committee: SyncCommittee, bits: Bits)
    requires |committee.pubkeys| == SYNC_COMMITTEE_SIZE
    ensures Participants(committee, bits) == Selected(committee.pubkeys, bits, SYNC_COMMITTEE_SIZE)
    ensures |Participants(committee, bits)| == Count(bits)
  {
    ParticipantsFromAreSelected(committee.pubkeys, bits, 0);
    SelectedCount(committee.pubkeys, bits, SYNC_COMMITTEE_SIZE);
    assert bits[..SYNC_COMMITTEE_SIZE] == bits;
    assert Selected(committee.pubkeys, bits, 0) + ParticipantsFrom(committee.pubkeys, bits, 0)
        == ParticipantsFrom(committee.pubkeys, bits, 0);
  }

  lemma SupermajorityIs342(u: Update)
    ensures Supermajority(u) <==> Count(u.syncAggregate.bits) >= 342
  {
  }

  lemma PeriodIs8192Slots(p: nat, k: nat)
    requires k < 8192
    ensures Period(8192 * p + k) == p
  {
    assert (8192 * p + k) / 32 == 256 * p + k / 32;
  }

  // --- Genuine updates ---

  // Signed by the true committee of the period in which it was signed.
  predicate SignedByTruth(x: Crypto, net: Network, truth: Committees, u: Update) {
    && u.signatureSlot >= 1
    && x.signatureOk(net, Participants(truth(Period(u.signatureSlot)), u.syncAggregate.bits),
                     u.attestedHeader.beacon, u.signatureSlot - 1, u.syncAggregate.signature)
  }

  // A finalized header is proved under the attested one.
  predicate ProvesFinality(x: Crypto, net: Network, u: Update) {
    var attested, finalized := u.attestedHeader.beacon, u.finalizedHeader;
    if forall i :: 0 <= i < |u.finalityBranch| ==> u.finalityBranch[i] == ZERO_ROOT then finalized == DEFAULT_HEADER
    else if finalized.beacon.slot == 0 then
      finalized == DEFAULT_HEADER && x.finalityBranchOk(net, ZERO_ROOT, u.finalityBranch, attested)
    else
      && x.validHeader(net, finalized)
      && x.finalityBranchOk(net, x.headerRoot(finalized.beacon), u.finalityBranch, attested)
  }

  // A carried committee is proved under the attested header.
  predicate ProvesCommittee(x: Crypto, net: Network, u: Update) {
    var branch := u.nextSyncCommitteeBranch;
    if forall i :: 0 <= i < |branch| ==> branch[i] == ZERO_ROOT then u.nextSyncCommittee == DEFAULT_COMMITTEE
    else x.committeeBranchOk(net, x.committeeRoot(u.nextSyncCommittee), branch, u.attestedHeader.beacon)
  }

  // What can be said of an update without a store.
  predicate Genuine(x: Crypto, net: Network, truth: Committees, u: Update, currentSlot: nat) {
    && (exists j :: 0 <= j < SYNC_COMMITTEE_SIZE && u.syncAggregate.bits[j])
    && u.finalizedHeader.beacon.slot <= u.attestedHeader.beacon.slot < u.signatureSlot <= currentSlot
    && x.validHeader(net, u.attestedHeader)
    && ProvesFinality(x, net, u)
    && ProvesCommittee(x, net, u)
    && SignedByTruth(x, net, truth, u)
  }

  // What a store at this slot, knowing its next committee or not, can take.
  predicate InReach(slot: nat, known: bool, u: Update) {
    var signed, attested := Period(u.signatureSlot), u.attestedHeader.beacon.slot;
    && (signed == Period(slot) || (known && signed == Period(slot) + 1))
    && (attested > slot || (!known && IsCommitteeUpdate(u) && Period(attested) == Period(slot)))
  }

  // Whose signature an accepted update carries.
  lemma AcceptedIsSignedByTruth(x: Crypto, net: Network, truth: Committees, u: Update, currentSlot: nat, store: Store)
    requires TruthfulStore(truth, store) && Validate(x, net, u, currentSlot, store)
    ensures SignedByTruth(x, net, truth, u)
  {
    hide Participants;
  }

  // What the branches of an accepted update prove.
  lemma AcceptedIsProved(x: Crypto, net: Network, u: Update, currentSlot: nat, store: Store)
    requires Validate(x, net, u, currentSlot, store)
    ensures ProvesFinality(x, net, u) && ProvesCommittee(x, net, u)
    ensures FinalizedSlot(u) != 0 ==>
              x.finalityBranchOk(net, x.headerRoot(u.finalizedHeader.beacon), u.finalityBranch, u.attestedHeader.beacon)
    ensures IsCommitteeUpdate(u) && Period(AttestedSlot(u)) == StorePeriod(store) && store.nextSyncCommittee.Some? ==>
              u.nextSyncCommittee == store.nextSyncCommittee.value
  {
    hide Participants;
  }

  lemma SignatureAgrees(x: Crypto, net: Network, truth: Committees, u: Update, currentSlot: nat, store: Store)
    requires TruthfulStore(truth, store) && TimesOk(u, currentSlot) && PeriodOk(u, store)
    ensures SignatureOk(x, net, u, store) <==> SignedByTruth(x, net, truth, u)
  {
    hide Participants, Period;
  }

  lemma FinalityAgrees(x: Crypto, net: Network, u: Update)
    ensures FinalityOk(x, net, u) <==> ProvesFinality(x, net, u)
  {
  }

  lemma CommitteeAgrees(x: Crypto, net: Network, truth: Committees, u: Update, store: Store)
    requires TruthfulStore(truth, store) && TruthfulUpdate(truth, u)
    ensures CommitteeOk(x, net, u, store) <==> ProvesCommittee(x, net, u)
  {
    hide Period;
  }

  lemma ReachAgrees(u: Update, store: Store)
    ensures PeriodOk(u, store) && Relevant(u, store) <==> InReach(StoreSlot(store), store.nextSyncCommittee.Some?, u)
  {
    hide Period;
  }

  // Main result: a truthful store accepts a truthful update exactly when it is genuine and in reach.
  lemma ValidatesExactlyWhen(x: Crypto, net: Network, truth: Committees, u: Update, currentSlot: nat, store: Store)
    requires TruthfulStore(truth, store) && TruthfulUpdate(truth, u)
    ensures Validate(x, net, u, currentSlot, store) <==>
              Genuine(x, net, truth, u, currentSlot) && InReach(StoreSlot(store), store.nextSyncCommittee.Some?, u)
  {
    hide SignatureOk, SignedByTruth, FinalityOk, ProvesFinality, CommitteeOk, ProvesCommittee, PeriodOk, Relevant;
    hide InReach, Count, TruthfulStore, TruthfulUpdate;
    CountedIsSet(u.syncAggregate.bits);
    FinalityAgrees(x, net, u);
    CommitteeAgrees(x, net, truth, u, store);
    ReachAgrees(u, store);
    if TimesOk(u, currentSlot) && PeriodOk(u, store) {
      SignatureAgrees(x, net, truth, u, currentSlot, store);
    }
  }

  // --- Whole sequences ---

  lemma {:induction false} FoldedAreGenuine(
    x: Crypto, net: Network, clock: Clock, start: Store, updates: seq<Update>, n: nat, truth: Committees)
    requires n <= |updates| && Fold(x, net, clock, start, updates, n).Some?
    requires TruthfulStore(truth, start) && forall i :: 0 <= i < n ==> TruthfulUpdate(truth, updates[i])
    ensures forall i :: 0 <= i < n ==> Genuine(x, net, truth, updates[i], clock(i + 1))
  {
    hide Validate, Apply, TruthfulStore, TruthfulUpdate, Genuine;
    if n > 0 {
      FoldedAreGenuine(x, net, clock, start, updates, n - 1, truth);
      FoldKeepsTruth(x, net, clock, start, updates, n - 1, truth);
      var before := Fold(x, net, clock, start, updates, n - 1).value.store;
      ValidatesExactlyWhen(x, net, truth, updates[n - 1], clock(n), before);
    }
  }

  // Everything that the guest replays was signed by the true committees and proved under them.
  lemma ReplayedAreGenuine(x: Crypto, i: ProofInputs, truth: Committees)
    requires FinalStore(x, i).Some?
    requires i.store.currentSyncCommittee == truth(StorePeriod(i.store))
    requires forall k :: 0 <= k < |i.updates| ==> TruthfulUpdate(truth, i.updates[k])
    ensures var steps := Steps(i.updates, i.finalityUpdate);
            forall k :: 0 <= k < |steps| ==> Genuine(x, NetworkOf(i), truth, steps[k], i.expectedCurrentSlot)
  {
    hide Genuine, Validate, Apply, Fold;
    var steps, clock := Steps(i.updates, i.finalityUpdate), FixedClock(i.expectedCurrentSlot);
    FoldAllIsFold(x, NetworkOf(i), clock, StartStore(i), i.updates, i.finalityUpdate);
    FoldedAreGenuine(x, NetworkOf(i), clock, StartStore(i), steps, |steps|, truth);
  }
}
