// Concrete attempts on which an unconditional end-to-end promise fails. Each one belongs to the
// family that the exact conditions in module EndToEnd exclude.
module Counterexamples {
  import opened Base
  import opened Primitives
  import opened Rlp
  import opened LightClient
  import opened UpdateFetch
  import opened Replay
  import opened ConsensusClient
  import opened Storage
  import opened Guest
  import opened EndToEnd

  function OneRoot(): B256 { [1] + Zeros(31) }

  function HeaderAt(slot: U64, stateRoot: B256): LightClientHeader {
    LightClientHeader(
      BeaconHeader(slot, 0, ZERO_ROOT, ZERO_ROOT, ZERO_ROOT), Some(ExecutionHeader(slot, stateRoot)), [])
  }

  function Everyone(): Bits { seq(SYNC_COMMITTEE_SIZE, _ => true) }

  function OnlyOne(): Bits { [true] + seq(SYNC_COMMITTEE_SIZE - 1, _ => false) }

  lemma {:induction false} CountAll(bits: seq<bool>, value: bool)
    requires forall i :: 0 <= i < |bits| ==> bits[i] == value
    ensures Count(bits) == if value then |bits| else 0
  {
    if bits != [] {
      CountAll(bits[1..], value);
    }
  }

  lemma Counts()
    ensures Count(Everyone()) == SYNC_COMMITTEE_SIZE && Count(OnlyOne()) == 1
  {
    CountAll(Everyone(), true);
    CountAll(OnlyOne()[1..], false);
  }

  // Signatures and branches that always verify: the point lies in slots and participation.
  function Agreeable(): Crypto {
    Crypto(
      (_: BeaconHeader) => ZERO_ROOT,
      (_: SyncCommittee) => ZERO_ROOT,
      (_: Network, _: LightClientHeader) => true,
      (_: Network, _: B256, _: Branch, _: BeaconHeader) => true,
      (_: Network, _: B256, _: Branch, _: BeaconHeader) => true,
      (_: Network, _: seq<Pubkey>, _: BeaconHeader, _: nat, _: seq<Byte>) => true,
      (_: Store, _: Update) => None)
  }

  const NET := Network(ZERO_ROOT, Forks([]))

  function WorldWith(verify: (B256, seq<Nibble>, Bytes, seq<Bytes>) -> bool): World {
    World(Agreeable(), Trie((_: Bytes) => ZERO_ROOT, verify), NET, (_: Network, _: Bootstrap) => true)
  }

  function RequestFor(keys: SlotKeys): ProofRequest {
    ProofRequest(Zeros(20), keys, 0, 32, ZERO_ROOT, ZERO_ROOT)
  }

  // Supermajority update to slot 65.
  function ToSlot65(): Update {
    Update(HeaderAt(128, ZERO_ROOT), DEFAULT_COMMITTEE, [], HeaderAt(65, ZERO_ROOT), [OneRoot()],
           SyncAggregate(Everyone(), []), 129)
  }

  // A finality update to slot 96.
  function ToSlot96(bits: Bits): FinalityUpdate {
    FinalityUpdate(HeaderAt(160, ZERO_ROOT), HeaderAt(96, OneRoot()), [OneRoot()], SyncAggregate(bits, []), 161)
  }

  function Endpoint(bits: Bits, clock: Clock): Session {
    Session(false, Ok(ToSlot96(bits)), (_: nat, _: nat) => Ok([ToSlot65()]), clock)
  }

  function Start(): Bootstrap { Bootstrap(HeaderAt(32, ZERO_ROOT), DEFAULT_COMMITTEE, []) }

  function AttemptWith(bits: Bits, clock: Clock, response: AccountProof): Attempt {
    Attempt(Start(), [Endpoint(bits, clock)], response)
  }

  function ResponseWith(address: Address, proofs: seq<StorageProofItem>): AccountProof {
    AccountProof(address, 0, 0, ZERO_ROOT, ZERO_ROOT, [], proofs)
  }

  function After65(): Store { Apply(ApplyBootstrap(Start()), ToSlot65()) }

  function After96(bits: Bits): Store { Apply(After65(), AsUpdate(ToSlot96(bits))) }

  lemma FirstStore()
    ensures After65().finalizedHeader == HeaderAt(65, ZERO_ROOT) && After65().nextSyncCommittee.None?
  {
    Counts();
    hide Count, Everyone, OnlyOne, OneRoot;
  }

  lemma Stores()
    ensures After65().finalizedHeader == HeaderAt(65, ZERO_ROOT) && After65().nextSyncCommittee.None?
    ensures After96(OnlyOne()).finalizedHeader == HeaderAt(65, ZERO_ROOT)
    ensures After96(Everyone()).finalizedHeader == HeaderAt(96, OneRoot())
  {
    Counts();
    FirstStore();
    hide After65, Count, Everyone, OnlyOne, OneRoot;
  }

  lemma Branches()
    ensures ZeroBranch([]) && !ZeroBranch([OneRoot()])
  {
    assert [OneRoot()][0][0] != ZERO_ROOT[0];
  }

  lemma FirstValidates(slot: nat)
    requires slot >= 161
    ensures Validate(Agreeable(), NET, ToSlot65(), slot, ApplyBootstrap(Start()))
  {
    hide Count, ParticipantsFrom, ZeroBranch;
    Counts();
    Branches();
  }

  lemma SecondValidates(bits: Bits, slot: nat, store: Store)
    requires Count(bits) >= 1 && slot >= 161
    requires store.finalizedHeader == HeaderAt(65, ZERO_ROOT) && store.nextSyncCommittee.None?
    ensures Validate(Agreeable(), NET, AsUpdate(ToSlot96(bits)), slot, store)
  {
    hide Count, ParticipantsFrom, ZeroBranch;
    Branches();
  }

  lemma FetchGives(bits: Bits, clock: Clock)
    requires clock(0) < 8192
    ensures FetchAll(Endpoint(bits, clock).updates, Plan(Period(clock(0)), Period(32))) == Ok([ToSlot65()])
  {
    assert Plan(Period(clock(0)), Period(32)) == [Query(0, 128)];
    LastQuery(Endpoint(bits, clock).updates, [], Query(0, 128));
  }

  // A sync of one update, whatever the crypto and the headers.
  lemma OneUpdateFolds(
    x: Crypto, net: Network, clock: Clock, start: Store, u: Update, fu: FinalityUpdate)
    requires Validate(x, net, u, clock(1), start)
    requires Validate(x, net, AsUpdate(fu), clock(2), Apply(start, u))
    ensures var first := ApplyTracked(x, Progress(start, None), u);
            && Fold(x, net, clock, start, [u], 1) == Some(first)
            && FoldAll(x, net, clock, start, [u], fu) == Some(ApplyTracked(x, first, AsUpdate(fu)))
  {
    hide Validate, Apply;
    FoldStep(x, net, clock, start, [u], 0, Progress(start, None));
  }

  lemma FoldGives(bits: Bits, clock: Clock)
    requires Count(bits) >= 1 && clock(1) >= 161 && clock(2) >= 161
    ensures var start := ApplyBootstrap(Start());
            && Fold(Agreeable(), NET, clock, start, [ToSlot65()], 1) == Some(Progress(After65(), None))
            && FoldAll(Agreeable(), NET, clock, start, [ToSlot65()], ToSlot96(bits))
               == Some(Progress(After96(bits), None))
  {
    hide Validate, Apply, Fold, FoldAll, ToSlot65, ToSlot96, Count, HeaderAt, Start;
    Stores();
    FirstValidates(clock(1));
    SecondValidates(bits, clock(2), After65());
    OneUpdateFolds(Agreeable(), NET, clock, ApplyBootstrap(Start()), ToSlot65(), ToSlot96(bits));
  }

  lemma SyncGives(bits: Bits, clock: Clock)
    requires Count(bits) >= 1 && clock(1) >= 161 && clock(2) >= 161 && clock(0) < 8192
    ensures SyncOutcome(Agreeable(), NET, ApplyBootstrap(Start()), Endpoint(bits, clock)) ==
              Ok(SyncTrace([ToSlot65()], ToSlot96(bits), After96(bits), None, clock(0)))
  {
    FetchGives(bits, clock);
    FoldGives(bits, clock);
    hide Fold, FoldAll, FetchAll, Apply, ToSlot65, ToSlot96, Count, Plan;
    assert StoreSlot(ApplyBootstrap(Start())) == 32;
  }

  lemma PickOnly(trace: SyncTrace, storeOf: SyncTrace -> Store)
    ensures Pick([Ok(trace)], storeOf) == Some(trace)
  {
    var results: seq<Result<SyncTrace, RpcError>> := [Ok(trace)];
    assert results[..0] == [];
  }

  lemma {:induction false} TraceGives(w: World, request: ProofRequest, bits: Bits, clock: Clock, response: AccountProof)
    requires w.x == Agreeable() && w.net == NET && w.bootstrapOk(NET, Start()) && request.fromHeader == ZERO_ROOT
    requires Count(bits) >= 1 && clock(1) >= 161 && clock(2) >= 161 && clock(0) < 8192
    requires After96(bits).finalizedHeader.execution.Some? && StoreSlot(After96(bits)) > 32
    ensures ConsensusInputs(w, request, AttemptWith(bits, clock, response))
            == Ok(SyncTrace([ToSlot65()], ToSlot96(bits), After96(bits), None, clock(0)))
  {
    SyncGives(bits, clock);
    hide SyncOutcome, Apply, ToSlot65, ToSlot96, Count, Pick;
    var a := AttemptWith(bits, clock, response);
    var initial := ApplyBootstrap(a.bootstrap);
    var trace := SyncTrace([ToSlot65()], ToSlot96(bits), After96(bits), None, clock(0));
    var results := SyncOutcomes(w.x, w.net, initial, a.sessions);
    assert results == [Ok(trace)];
    PickOnly(trace, (t: SyncTrace) => t.finalStore);
    assert BestTrace(w.x, w.net, initial, a.sessions) == Some(trace);
  }

  lemma InputsGive(
    w: World, request: ProofRequest, bits: Bits, clock: Clock, response: AccountProof, cs: ContractStorage)
    requires w.x == Agreeable() && w.net == NET && w.bootstrapOk(NET, Start()) && request.fromHeader == ZERO_ROOT
    requires bits == Everyone() || bits == OnlyOne()
    requires clock(1) >= 161 && clock(2) >= 161 && clock(0) < 8192
    requires Build(request.storageSlots, response) == Ok(cs) && StorageOk(w.t, OneRoot(), cs)
    ensures var a := AttemptWith(bits, clock, response);
            && ConsensusInputs(w, request, a)
               == Ok(SyncTrace([ToSlot65()], ToSlot96(bits), After96(bits), None, clock(0)))
            && AssembleInputs(w, request, a)
               == Ok(ProofInputs([ToSlot65()], ToSlot96(bits), clock(0), ApplyBootstrap(Start()), ZERO_ROOT,
                                 Forks([]), cs))
  {
    Counts();
    Stores();
    hide Count, Apply, StorageOk, Build, Everyone, OnlyOne;
    assert Count(bits) >= 1;
    TraceGives(w, request, bits, clock, response);
    hide ConsensusInputs, After96, ToSlot65;
    assert CheckedStorage(w, request, ToSlot96(bits), response) == Ok(cs);
  }

  lemma SignedFrom161(bits: Bits, clock: Clock)
    ensures SignedInTime(SyncTrace([ToSlot65()], ToSlot96(bits), After96(bits), None, clock(0))) <==> clock(0) >= 161
  {
    hide After96;
    assert [ToSlot65()][0].signatureSlot == 129;
  }

  // What the guest makes of the attempt.
  lemma Verdict(w: World, request: ProofRequest, bits: Bits, clock: Clock, response: AccountProof, cs: ContractStorage)
    requires w.x == Agreeable() && w.net == NET && w.bootstrapOk(NET, Start()) && request.fromHeader == ZERO_ROOT
    requires bits == Everyone() || bits == OnlyOne()
    requires clock(1) >= 161 && clock(2) >= 161 && clock(0) < 8192
    requires Build(request.storageSlots, response) == Ok(cs) && StorageOk(w.t, OneRoot(), cs)
    ensures var inputs := AssembleInputs(w, request, AttemptWith(bits, clock, response));
            var head := if bits == Everyone() then HeaderAt(96, OneRoot()) else HeaderAt(65, ZERO_ROOT);
            && inputs.Ok? && inputs.value.contractStorage == cs && inputs.value.finalityUpdate == ToSlot96(bits)
            && (Accepts(w.x, w.t, inputs.value) <==>
                  clock(0) >= 161 && StorageOk(w.t, head.execution.value.stateRoot, cs))
            && (clock(0) >= 161 ==>
                  FinalStore(w.x, inputs.value).Some?
                  && FinalStore(w.x, inputs.value).value.finalizedHeader == head)
  {
    assert Everyone()[1] != OnlyOne()[1];
    hide Everyone, OnlyOne, Zeros, Build, StorageOk, Apply, OneRoot, After65;
    Stores();
    InputsGive(w, request, bits, clock, response, cs);
    SignedFrom161(bits, clock);
    var a := AttemptWith(bits, clock, response);
    hide ConsensusInputs, AssembleInputs, ToSlot65, FinalStore, Accepts, SignedInTime;
    GuestReplaysSync(w, request, a);
    GuestAcceptsExactlyWhen(w, request, a);
  }

  function AnyProof(): (B256, seq<Nibble>, Bytes, seq<Bytes>) -> bool {
    (_: B256, _: seq<Nibble>, _: Bytes, _: seq<Bytes>) => true
  }

  function OnlyUnderOneRoot(): (B256, seq<Nibble>, Bytes, seq<Bytes>) -> bool {
    (root: B256, _: seq<Nibble>, _: Bytes, _: seq<Bytes>) => root == OneRoot()
  }

  // A signature made after the slot captured at the start of the sync but before it was verified:
  // the host accepts, the guest does not.
  lemma LateSignatureIsRejected(clock: Clock)
    requires clock(0) == 160 && clock(1) == 161 && clock(2) == 161
    ensures var w := WorldWith(AnyProof());
            var a := AttemptWith(Everyone(), clock, ResponseWith(Zeros(20), []));
            var inputs := AssembleInputs(w, RequestFor([]), a);
            inputs.Ok? && !Accepts(w.x, w.t, inputs.value)
  {
    var w, response := WorldWith(AnyProof()), ResponseWith(Zeros(20), []);
    var cs := Build([], response).value;
    hide AssembleInputs, Accepts, Everyone, OnlyOne, FinalStore, Apply;
    Verdict(w, RequestFor([]), Everyone(), clock, response, cs);
  }

  // A finality update signed by too few participants to be applied: the service sees its epoch-boundary
  // slot 96 and asks for a proof, the guest accepts, and commits head 65.
  lemma UnalignedHeadIsNoBoundary(clock: Clock)
    requires clock(0) == clock(1) == clock(2) == 200
    ensures var w := WorldWith(AnyProof());
            var inputs := AssembleInputs(w, RequestFor([]), AttemptWith(OnlyOne(), clock, ResponseWith(Zeros(20), [])));
            && inputs.Ok? && inputs.value.finalityUpdate.finalizedHeader.beacon.slot % 32 == 0
            && Accepts(w.x, w.t, inputs.value) && Outputs(w.x, inputs.value).newHead == 65
  {
    var w, response := WorldWith(AnyProof()), ResponseWith(Zeros(20), []);
    var cs := Build([], response).value;
    assert Everyone()[1] != OnlyOne()[1];
    assert StorageOk(w.t, ZERO_ROOT, cs) && StorageOk(w.t, OneRoot(), cs);
    hide AssembleInputs, Accepts, Everyone, OnlyOne, FinalStore, Apply, Build, StorageOk, OneRoot, Zeros;
    Verdict(w, RequestFor([]), OnlyOne(), clock, response, cs);
  }

  // The same sync when the storage proof only verifies under the finality update's state root, the one
  // the host checked: the guest, which uses the store's header, rejects.
  lemma UnalignedStorageIsRejected(clock: Clock)
    requires clock(0) == clock(1) == clock(2) == 200
    ensures var w := WorldWith(OnlyUnderOneRoot());
            var inputs := AssembleInputs(w, RequestFor([]), AttemptWith(OnlyOne(), clock, ResponseWith(Zeros(20), [])));
            inputs.Ok? && !Accepts(w.x, w.t, inputs.value)
  {
    var w, response := WorldWith(OnlyUnderOneRoot()), ResponseWith(Zeros(20), []);
    var cs := Build([], response).value;
    assert Everyone()[1] != OnlyOne()[1];
    assert OneRoot()[0] != ZERO_ROOT[0];
    hide AssembleInputs, Accepts, Everyone, OnlyOne, FinalStore, Apply;
    Verdict(w, RequestFor([]), OnlyOne(), clock, response, cs);
  }

  // Nothing compares the response's contract address with the requested one: the committed slot
  // carries the requested key under the address of the response.
  lemma ResponseAddressIsCommitted(clock: Clock, address: Address)
    requires clock(0) == clock(1) == clock(2) == 200
    ensures var w := WorldWith(AnyProof());
            var a := AttemptWith(Everyone(), clock, ResponseWith(address, [StorageProofItem(ZERO_ROOT, 0, [])]));
            var inputs := AssembleInputs(w, RequestFor([ZERO_ROOT]), a);
            && inputs.Ok? && Accepts(w.x, w.t, inputs.value)
            && |Outputs(w.x, inputs.value).slots| == 1
            && Outputs(w.x, inputs.value).slots[0].contractAddress == address
  {
    var w, response := WorldWith(AnyProof()), ResponseWith(address, [StorageProofItem(ZERO_ROOT, 0, [])]);
    var cs := Build([ZERO_ROOT], response).value;
    hide AssembleInputs, Everyone, OnlyOne, FinalStore, Apply;
    Verdict(w, RequestFor([ZERO_ROOT]), Everyone(), clock, response, cs);
  }
}
