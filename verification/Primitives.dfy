// The values that cross component boundaries: requests, record states and the
// public outputs committed by the guest program.
module Primitives {
  import opened Base

  // A Rust `Vec` holds at most isize::MAX bytes, that is fewer than 2^58 32-byte keys.
  const MAX_SLOT_KEYS: nat := 0x400_0000_0000_0000

  type SlotKeys = s: seq<B256> | |s| < MAX_SLOT_KEYS

  datatype ProofRequest = ProofRequest(
    contractAddress: Address,
    storageSlots: SlotKeys,
    blockNumber: U64,
    fromHead: U64,
    fromHeader: B256,
    vkey: B256)

  datatype ProofId = ProofId(hash: B256)

  datatype VerifiedStorageSlot = VerifiedStorageSlot(
    key: B256,
    value: B256,
    contractAddress: Address)

  datatype ProofOutputs = ProofOutputs(
    executionStateRoot: B256,
    newHeader: B256,
    nextSyncCommitteeHash: B256,
    newHead: nat,
    prevHeader: B256,
    prevHead: nat,
    syncCommitteeHash: B256,
    startSyncCommitteeHash: B256,
    slots: seq<VerifiedStorageSlot>)

  // The proof bytes and the public values they attest.
  datatype ProofData = ProofData(proof: string, publicValues: ProofOutputs)

  datatype Status = Initiated | WaitingForFinality | Generating | Success | Errored

  datatype RequestState = RequestState(
    status: Status,
    request: ProofRequest,
    networkTxId: Option<string>,
    proofData: Option<ProofData>,
    errorMessage: Option<string>)

  function NewState(request: ProofRequest): RequestState {
    RequestState(Initiated, request, None, None, None)
  }

  datatype ServiceError =
    | RedisError
    | LockContention(id: ProofId)
    | Internal

  // What a service reads of a light client header: its slot and, from the forks
  // that carry one, the block number of its execution payload.
  datatype Header = Header(slot: U64, execBlock: Option<U64>)

  // The finality test of a request against a header.
  predicate Finalized(header: Header, request: ProofRequest) {
    && header.execBlock.Some?
    && header.execBlock.value >= request.blockNumber
    && header.slot > request.fromHead
  }
}
