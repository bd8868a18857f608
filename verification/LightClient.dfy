// The light client store and its two transitions, after the Altair Light Client Sync
// Protocol of the Ethereum consensus specifications: validate_light_client_update, and
// process_light_client_update without best_valid_update. Signatures and Merkle
// branches are uninterpreted predicates; slots, periods, committees and participation are concrete.
module LightClient {
  import opened Base

  const SLOTS_PER_EPOCH: nat := 32
  const EPOCHS_PER_SYNC_COMMITTEE_PERIOD: nat := 256
  const SYNC_COMMITTEE_SIZE: nat := 512
  const MIN_SYNC_COMMITTEE_PARTICIPANTS: nat := 1
  const GENESIS_SLOT: nat := 0

  function Period(slot: nat): nat {
    slot / SLOTS_PER_EPOCH / EPOCHS_PER_SYNC_COMMITTEE_PERIOD
  }

  type Pubkey = seq<Byte>

  type Branch = seq<B256>

  type Bits = s: seq<bool> | |s| == SYNC_COMMITTEE_SIZE witness seq(SYNC_COMMITTEE_SIZE, _ => false)

  datatype SyncCommittee = SyncCommittee(pubkeys: seq<Pubkey>, aggregatePubkey: Pubkey)

  datatype BeaconHeader = BeaconHeader(
    slot: U64, proposerIndex: U64, parentRoot: B256, stateRoot: B256, bodyRoot: B256)

  datatype ExecutionHeader = ExecutionHeader(blockNumber: U64, stateRoot: B256)

  datatype LightClientHeader = LightClientHeader(
    beacon: BeaconHeader, execution: Option<ExecutionHeader>, executionBranch: Branch)

  const ZERO_ROOT: B256 := Zeros(32)
  const DEFAULT_HEADER := LightClientHeader(BeaconHeader(0, 0, ZERO_ROOT, ZERO_ROOT, ZERO_ROOT), None, [])
  const DEFAULT_COMMITTEE := SyncCommittee([], [])

  datatype SyncAggregate = SyncAggregate(bits: Bits, signature: seq<Byte>)

  datatype Update = Update(
    attestedHeader: LightClientHeader,
    nextSyncCommittee: SyncCommittee,
    nextSyncCommitteeBranch: Branch,
    finalizedHeader: LightClientHeader,
    finalityBranch: Branch,
    syncAggregate: SyncAggregate,
    signatureSlot: U64)

  datatype FinalityUpdate = FinalityUpdate(
    attestedHeader: LightClientHeader,
    finalizedHeader: LightClientHeader,
    finalityBranch: Branch,
    syncAggregate: SyncAggregate,
    signatureSlot: U64)

  function AsUpdate(fu: FinalityUpdate): Update {
    Update(fu.attestedHeader, DEFAULT_COMMITTEE, [], fu.finalizedHeader, fu.finalityBranch,
           fu.syncAggregate, fu.signatureSlot)
  }

  datatype Store = Store(
    finalizedHeader: LightClientHeader,
    currentSyncCommittee: SyncCommittee,
    nextSyncCommittee: Option<SyncCommittee>,
    optimisticHeader: LightClientHeader,
    previousMaxActiveParticipants: nat,
    currentMaxActiveParticipants: nat)

  datatype Bootstrap = Bootstrap(header: LightClientHeader, committee: SyncCommittee, branch: Branch)

  datatype Forks = Forks(activations: seq<(U64, seq<Byte>)>)

  datatype Network = Network(genesisRoot: B256, forks: Forks)

  // Hashes, Merkle branches and signatures. checkpoint is what applying an update reports.
  datatype Crypto = Crypto(
    headerRoot: BeaconHeader -> B256,
    committeeRoot: SyncCommittee -> B256,
    validHeader: (Network, LightClientHeader) -> bool,
    finalityBranchOk: (Network, B256, Branch, BeaconHeader) -> bool,
    committeeBranchOk: (Network, B256, Branch, BeaconHeader) -> bool,
    signatureOk: (Network, seq<Pubkey>, BeaconHeader, nat, seq<Byte>) -> bool,
    checkpoint: (Store, Update) -> Option<B256>)

  predicate ZeroBranch(branch: Branch) {
    forall i :: 0 <= i < |branch| ==> branch[i] == ZERO_ROOT
  }

  predicate IsFinalityUpdate(u: Update) { !ZeroBranch(u.finalityBranch) }

  predicate IsCommitteeUpdate(u: Update) { !ZeroBranch(u.nextSyncCommitteeBranch) }

  function Count(bits: seq<bool>): nat {
    if bits == [] then 0 else Count(bits[1..]) + if bits[0] then 1 else 0
  }

  function Participants(committee: SyncCommittee, bits: Bits): seq<Pubkey> {
    ParticipantsFrom(committee.pubkeys, bits, 0)
  }

  function ParticipantsFrom(keys: seq<Pubkey>, bits: Bits, i: nat): seq<Pubkey>
    requires i <= SYNC_COMMITTEE_SIZE
    decreases SYNC_COMMITTEE_SIZE - i
  {
    if i == SYNC_COMMITTEE_SIZE || i >= |keys| then []
    else (if bits[i] then [keys[i]] else []) + ParticipantsFrom(keys, bits, i + 1)
  }

  function FinalizedSlot(u: Update): U64 { u.finalizedHeader.beacon.slot }

  function AttestedSlot(u: Update): U64 { u.attestedHeader.beacon.slot }

  function StoreSlot(store: Store): U64 { store.finalizedHeader.beacon.slot }

  function StorePeriod(store: Store): nat { Period(StoreSlot(store)) }

  // --- validate_light_client_update ---

  predicate TimesOk(u: Update, currentSlot: nat) {
    currentSlot >= u.signatureSlot > AttestedSlot(u) >= FinalizedSlot(u)
  }

  predicate PeriodOk(u: Update, store: Store) {
    var signed := Period(u.signatureSlot);
    signed == StorePeriod(store) || (store.nextSyncCommittee.Some? && signed == StorePeriod(store) + 1)
  }

  predicate Relevant(u: Update, store: Store) {
    || AttestedSlot(u) > StoreSlot(store)
    || (store.nextSyncCommittee.None? && IsCommitteeUpdate(u) && Period(AttestedSlot(u)) == StorePeriod(store))
  }

  predicate FinalityOk(x: Crypto, net: Network, u: Update) {
    if !IsFinalityUpdate(u) then u.finalizedHeader == DEFAULT_HEADER
    else if FinalizedSlot(u) == GENESIS_SLOT then
      u.finalizedHeader == DEFAULT_HEADER
      && x.finalityBranchOk(net, ZERO_ROOT, u.finalityBranch, u.attestedHeader.beacon)
    else
      x.validHeader(net, u.finalizedHeader)
      && x.finalityBranchOk(net, x.headerRoot(u.finalizedHeader.beacon), u.finalityBranch, u.attestedHeader.beacon)
  }

  predicate CommitteeOk(x: Crypto, net: Network, u: Update, store: Store) {
    if !IsCommitteeUpdate(u) then u.nextSyncCommittee == DEFAULT_COMMITTEE
    else
      && (Period(AttestedSlot(u)) == StorePeriod(store) && store.nextSyncCommittee.Some? ==>
            u.nextSyncCommittee == store.nextSyncCommittee.value)
      && x.committeeBranchOk(net, x.committeeRoot(u.nextSyncCommittee), u.nextSyncCommitteeBranch,
                             u.attestedHeader.beacon)
  }

  predicate SignatureOk(x: Crypto, net: Network, u: Update, store: Store) {
    var own := Period(u.signatureSlot) == StorePeriod(store);
    var committee :=
      if own then store.currentSyncCommittee
      else if store.nextSyncCommittee.Some? then store.nextSyncCommittee.value
      else DEFAULT_COMMITTEE;
    var forkSlot := if u.signatureSlot >= 1 then u.signatureSlot - 1 else 0;
    x.signatureOk(net, Participants(committee, u.syncAggregate.bits), u.attestedHeader.beacon, forkSlot,
                  u.syncAggregate.signature)
  }

  predicate Validate(x: Crypto, net: Network, u: Update, currentSlot: nat, store: Store) {
    && Count(u.syncAggregate.bits) >= MIN_SYNC_COMMITTEE_PARTICIPANTS
    && x.validHeader(net, u.attestedHeader)
    && TimesOk(u, currentSlot)
    && PeriodOk(u, store)
    && Relevant(u, store)
    && FinalityOk(x, net, u)
    && CommitteeOk(x, net, u, store)
    && SignatureOk(x, net, u, store)
  }

  // --- process_light_client_update, after validation ---

  function Max(a: nat, b: nat): nat { if a >= b then a else b }

  function SafetyThreshold(store: Store): nat {
    Max(store.previousMaxActiveParticipants, store.currentMaxActiveParticipants) / 2
  }

  function TrackParticipation(store: Store, u: Update): Store {
    var count := Count(u.syncAggregate.bits);
    var tracked := store.(currentMaxActiveParticipants := Max(store.currentMaxActiveParticipants, count));
    if count > SafetyThreshold(tracked) && AttestedSlot(u) > tracked.optimisticHeader.beacon.slot
    then tracked.(optimisticHeader := u.attestedHeader)
    else tracked
  }

  predicate Supermajority(u: Update) {
    Count(u.syncAggregate.bits) * 3 >= SYNC_COMMITTEE_SIZE * 2
  }

  predicate BringsFinalizedCommittee(store: Store, u: Update) {
    && store.nextSyncCommittee.None? && IsCommitteeUpdate(u) && IsFinalityUpdate(u)
    && Period(FinalizedSlot(u)) == Period(AttestedSlot(u))
  }

  predicate ShouldApply(store: Store, u: Update) {
    Supermajority(u) && (FinalizedSlot(u) > StoreSlot(store) || BringsFinalizedCommittee(store, u))
  }

  function NextOf(u: Update): Option<SyncCommittee> {
    if IsCommitteeUpdate(u) then Some(u.nextSyncCommittee) else None
  }

  // The committee part of apply_light_client_update.
  function RotateCommittees(store: Store, u: Update): Store {
    if store.nextSyncCommittee.None? then store.(nextSyncCommittee := NextOf(u))
    else if Period(FinalizedSlot(u)) == StorePeriod(store) + 1 then
      store.(currentSyncCommittee := store.nextSyncCommittee.value,
             nextSyncCommittee := NextOf(u),
             previousMaxActiveParticipants := store.currentMaxActiveParticipants,
             currentMaxActiveParticipants := 0)
    else store
  }

  function AdvanceHeaders(store: Store, u: Update): Store {
    if FinalizedSlot(u) <= StoreSlot(store) then store
    else
      store.(finalizedHeader := u.finalizedHeader,
             optimisticHeader :=
               if FinalizedSlot(u) > store.optimisticHeader.beacon.slot then u.finalizedHeader
               else store.optimisticHeader)
  }

  function Apply(store: Store, u: Update): Store {
    var tracked := TrackParticipation(store, u);
    if ShouldApply(tracked, u) then AdvanceHeaders(RotateCommittees(tracked, u), u) else tracked
  }

  function ApplyBootstrap(b: Bootstrap): Store {
    Store(b.header, b.committee, None, b.header, 0, 0)
  }

  // --- What validation implies ---

  lemma PeriodMonotone(a: nat, b: nat)
    requires a <= b
    ensures Period(a) <= Period(b)
  {
  }

  // The assertion inside apply_light_client_update never fails after validation, and an
  // applied update moves the finalized header by at most one period.
  lemma AppliedPeriods(x: Crypto, net: Network, u: Update, currentSlot: nat, store: Store)
    requires Validate(x, net, u, currentSlot, store) && ShouldApply(store, u)
    ensures store.nextSyncCommittee.None? ==>
              Period(FinalizedSlot(u)) == StorePeriod(store) && Period(AttestedSlot(u)) == StorePeriod(store)
    ensures StorePeriod(store) <= Period(FinalizedSlot(u)) <= StorePeriod(store) + 1
    ensures Period(FinalizedSlot(u)) == StorePeriod(store) + 1 ==> Period(AttestedSlot(u)) == StorePeriod(store) + 1
  {
    PeriodMonotone(FinalizedSlot(u), AttestedSlot(u));
    PeriodMonotone(AttestedSlot(u), u.signatureSlot);
    if AttestedSlot(u) > StoreSlot(store) {
      PeriodMonotone(StoreSlot(store), AttestedSlot(u));
    }
    if FinalizedSlot(u) > StoreSlot(store) {
      PeriodMonotone(StoreSlot(store), FinalizedSlot(u));
    }
  }

  // --- Committee bookkeeping ---

  // The committees the chain really has, by period.
  type Committees = nat -> SyncCommittee

  predicate TruthfulUpdate(truth: Committees, u: Update) {
    IsCommitteeUpdate(u) ==> u.nextSyncCommittee == truth(Period(AttestedSlot(u)) + 1)
  }

  predicate TruthfulStore(truth: Committees, store: Store) {
    && store.currentSyncCommittee == truth(StorePeriod(store))
    && (store.nextSyncCommittee.Some? ==> store.nextSyncCommittee.value == truth(StorePeriod(store) + 1))
  }

  // Moving to the next period takes the next committee along.
  lemma RotationKeepsTruth(truth: Committees, u: Update, store: Store)
    requires TruthfulUpdate(truth, u) && TruthfulStore(truth, store)
    requires store.nextSyncCommittee.None? ==>
               Period(FinalizedSlot(u)) == StorePeriod(store) && Period(AttestedSlot(u)) == StorePeriod(store)
    requires StorePeriod(store) <= Period(FinalizedSlot(u)) <= StorePeriod(store) + 1
    requires Period(FinalizedSlot(u)) == StorePeriod(store) + 1 ==> Period(AttestedSlot(u)) == StorePeriod(store) + 1
    requires FinalizedSlot(u) <= StoreSlot(store) ==> Period(FinalizedSlot(u)) == StorePeriod(store)
    ensures var after := AdvanceHeaders(RotateCommittees(store, u), u);
            TruthfulStore(truth, after) && StorePeriod(after) == Period(FinalizedSlot(u))
  {
  }

  lemma TruthIsKept(x: Crypto, net: Network, truth: Committees, u: Update, currentSlot: nat, store: Store)
    requires Validate(x, net, u, currentSlot, store)
    requires TruthfulUpdate(truth, u) && TruthfulStore(truth, store)
    ensures TruthfulStore(truth, Apply(store, u))
    ensures StorePeriod(store) <= StorePeriod(Apply(store, u)) <= StorePeriod(store) + 1
  {
    var tracked := TrackParticipation(store, u);
    if ShouldApply(tracked, u) {
      AppliedPeriods(x, net, u, currentSlot, store);
      if FinalizedSlot(u) <= StoreSlot(store) {
        PeriodMonotone(FinalizedSlot(u), StoreSlot(store));
      }
      RotationKeepsTruth(truth, u, tracked);
    }
  }

  // The clock matters to validation only through the signature slot.
  lemma ValidateAtSlot(x: Crypto, net: Network, u: Update, currentSlot: nat, store: Store, slot: nat)
    requires Validate(x, net, u, currentSlot, store)
    ensures Validate(x, net, u, slot, store) <==> u.signatureSlot <= slot
  {
  }

  // --- Advancement ---

  datatype Ordering = Less | Equal | Greater

  // The finalized slot first, then the presence of a next committee.
  function Compare(a: Store, b: Store): Ordering {
    if StoreSlot(a) < StoreSlot(b) then Less
    else if StoreSlot(a) > StoreSlot(b) then Greater
    else if a.nextSyncCommittee.Some? && b.nextSyncCommittee.None? then Greater
    else if a.nextSyncCommittee.None? && b.nextSyncCommittee.Some? then Less
    else Equal
  }

  function Reverse(o: Ordering): Ordering {
    match o case Less => Greater case Equal => Equal case Greater => Less
  }

  // The comparison is a total preorder.
  lemma CompareIsTotalPreorder(a: Store, b: Store, c: Store)
    ensures Compare(a, a) == Equal
    ensures Compare(b, a) == Reverse(Compare(a, b))
    ensures Compare(a, b) != Greater && Compare(b, c) != Greater ==> Compare(a, c) != Greater
    ensures Compare(a, b) != Greater && Compare(b, c) == Less ==> Compare(a, c) == Less
  {
  }

  // The order is that of one number: the slot, with half a slot more for a known next committee.
  function Rank(store: Store): nat {
    2 * store.finalizedHeader.beacon.slot + if store.nextSyncCommittee.Some? then 1 else 0
  }

  lemma CompareIsByRank(a: Store, b: Store)
    ensures Compare(a, b) == Less <==> Rank(a) < Rank(b)
    ensures Compare(a, b) == Greater <==> Rank(a) > Rank(b)
  {
  }

  // A bootstrapped store knows its header and committee, and nothing more.
  lemma BootstrapIsTruthful(b: Bootstrap, truth: Committees)
    ensures var store := ApplyBootstrap(b);
            && store.finalizedHeader == store.optimisticHeader == b.header && store.nextSyncCommittee.None?
            && store.previousMaxActiveParticipants == store.currentMaxActiveParticipants == 0
            && (TruthfulStore(truth, store) <==> b.committee == truth(Period(b.header.beacon.slot)))
  {
  }

  // A validated update never moves the store backwards.
  lemma ApplyAdvances(x: Crypto, net: Network, u: Update, currentSlot: nat, store: Store)
    requires Validate(x, net, u, currentSlot, store)
    ensures Compare(Apply(store, u), store) != Less
  {
    var tracked := TrackParticipation(store, u);
    if ShouldApply(tracked, u) {
      AppliedPeriods(x, net, u, currentSlot, store);
    }
  }
}
