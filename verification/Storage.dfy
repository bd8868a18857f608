// Storage proofs: assembling them on the host, and the check both host and guest run.
module Storage {
  import opened Base
  import opened Primitives
  import opened Rlp

  datatype TrieAccount = TrieAccount(nonce: U64, balance: U256, storageRoot: B256, codeHash: B256)

  datatype StorageSlot = StorageSlot(key: B256, expectedValue: U256, mptProof: seq<Bytes>)

  datatype ContractStorage = ContractStorage(
    address: Address, expectedValue: TrieAccount, mptProof: seq<Bytes>, storageSlots: seq<StorageSlot>)

  datatype StorageProofItem = StorageProofItem(key: B256, value: U256, proof: seq<Bytes>)

  datatype AccountProof = AccountProof(
    address: Address, nonce: U64, balance: U256, storageHash: B256, codeHash: B256,
    accountProof: seq<Bytes>, storageProof: seq<StorageProofItem>)

  type Nibble = n: int | 0 <= n < 16

  // The hash and the trie verifier: (root, path, expected value, proof nodes).
  datatype Trie = Trie(
    keccak: Bytes -> B256,
    verify: (B256, seq<Nibble>, Bytes, seq<Bytes>) -> bool)

  function Unpack(bytes: Bytes): seq<Nibble> {
    if bytes == [] then [] else [bytes[0] / 16, bytes[0] % 16] + Unpack(bytes[1..])
  }

  function EncodeAccount(a: TrieAccount): Bytes {
    ShortLengths(a.nonce);
    Pow256Values();
    BigEndianLength(a.balance, 32);
    EncodeList(EncodeUint(a.nonce) + EncodeUint(a.balance) + EncodeString(a.storageRoot) + EncodeString(a.codeHash))
  }

  function ToBytes32(n: U256): B256 {
    Pow256Values();
    BigEndianLength(n, 32);
    Zeros(32 - |BigEndian(n)|) + BigEndian(n)
  }

  // --- The check ---

  predicate AccountOk(t: Trie, stateRoot: B256, cs: ContractStorage) {
    t.verify(stateRoot, Unpack(t.keccak(cs.address)), EncodeAccount(cs.expectedValue), cs.mptProof)
  }

  predicate SlotOk(t: Trie, storageRoot: B256, slot: StorageSlot) {
    t.verify(storageRoot, Unpack(t.keccak(slot.key)), EncodeUint(slot.expectedValue), slot.mptProof)
  }

  predicate StorageOk(t: Trie, stateRoot: B256, cs: ContractStorage) {
    && AccountOk(t, stateRoot, cs)
    && forall i :: 0 <= i < |cs.storageSlots| ==> SlotOk(t, cs.expectedValue.storageRoot, cs.storageSlots[i])
  }

  function Verified(cs: ContractStorage, slot: StorageSlot): VerifiedStorageSlot {
    VerifiedStorageSlot(slot.key, ToBytes32(slot.expectedValue), cs.address)
  }

  // What is committed: one entry a slot, in order.
  predicate Commits(cs: ContractStorage, slots: seq<VerifiedStorageSlot>) {
    && |slots| == |cs.storageSlots|
    && forall i :: 0 <= i < |slots| ==> slots[i] == Verified(cs, cs.storageSlots[i])
  }

  function Committed(cs: ContractStorage): (slots: seq<VerifiedStorageSlot>)
    ensures Commits(cs, slots)
  {
    seq(|cs.storageSlots|, i requires 0 <= i < |cs.storageSlots| => Verified(cs, cs.storageSlots[i]))
  }

  // The host's copy reports errors.
  method VerifyStorageSlotProofs(t: Trie, stateRoot: B256, cs: ContractStorage)
    returns (result: Result<seq<VerifiedStorageSlot>, string>)
    ensures result.Ok? <==> StorageOk(t, stateRoot, cs)
    ensures result.Ok? ==> Commits(cs, result.value)
  {
    hide EncodeAccount, EncodeUint, Unpack, ToBytes32;
    if !t.verify(stateRoot, Unpack(t.keccak(cs.address)), EncodeAccount(cs.expectedValue), cs.mptProof) {
      return Err("account");
    }
    var verified: seq<VerifiedStorageSlot> := [];
    for i := 0 to |cs.storageSlots|
      invariant |verified| == i
      invariant forall j :: 0 <= j < i ==>
                  SlotOk(t, cs.expectedValue.storageRoot, cs.storageSlots[j])
                  && verified[j] == Verified(cs, cs.storageSlots[j])
    {
      var slot := cs.storageSlots[i];
      var path := Unpack(t.keccak(slot.key));
      if !t.verify(cs.expectedValue.storageRoot, path, EncodeUint(slot.expectedValue), slot.mptProof) {
        assert !SlotOk(t, cs.expectedValue.storageRoot, cs.storageSlots[i]);
        return Err("slot");
      }
      verified := verified + [VerifiedStorageSlot(slot.key, ToBytes32(slot.expectedValue), cs.address)];
    }
    return Ok(verified);
  }

  // --- Assembling the contract storage from an RPC response ---

  // Pairs the requested keys with the returned proofs in order and drops the keys that the returned
  // proofs name; everything else, the contract address included, is taken from the response.
  function Build(keys: seq<B256>, response: AccountProof): (r: Result<ContractStorage, string>)
    ensures r.Ok? <==> |response.storageProof| == |keys|
    ensures r.Ok? ==>
              && |r.value.storageSlots| == |keys|
              && (forall i :: 0 <= i < |keys| ==> r.value.storageSlots[i].key == keys[i])
  {
    if |response.storageProof| != |keys| then Err("Merkle proof length mismatch.")
    else
      Ok(ContractStorage(
           response.address,
           TrieAccount(response.nonce, response.balance, response.storageHash, response.codeHash),
           response.accountProof,
           seq(|keys|, i requires 0 <= i < |keys| =>
             StorageSlot(keys[i], response.storageProof[i].value, response.storageProof[i].proof))))
  }

  // --- Only the keys named in the response are lost ---

  function KeysOf(cs: ContractStorage): seq<B256> {
    seq(|cs.storageSlots|, i requires 0 <= i < |cs.storageSlots| => cs.storageSlots[i].key)
  }

  // The responses differ at most in the keys that their items name.
  predicate SameButItemKeys(a: AccountProof, b: AccountProof) {
    && a.(storageProof := b.storageProof) == b
    && |a.storageProof| == |b.storageProof|
    && forall i :: 0 <= i < |a.storageProof| ==>
         a.storageProof[i].value == b.storageProof[i].value && a.storageProof[i].proof == b.storageProof[i].proof
  }

  // The response to a request for these very keys that a contract storage could have come from.
  function ResponseOf(cs: ContractStorage): AccountProof {
    var account := cs.expectedValue;
    AccountProof(
      cs.address, account.nonce, account.balance, account.storageRoot, account.codeHash, cs.mptProof,
      seq(|cs.storageSlots|, i requires 0 <= i < |cs.storageSlots| =>
        StorageProofItem(cs.storageSlots[i].key, cs.storageSlots[i].expectedValue, cs.storageSlots[i].mptProof)))
  }

  lemma BuildExactlyWhen(keys: seq<B256>, response: AccountProof, cs: ContractStorage)
    ensures Build(keys, response) == Ok(cs) <==> KeysOf(cs) == keys && SameButItemKeys(response, ResponseOf(cs))
  {
    if Build(keys, response) == Ok(cs) {
      assert KeysOf(cs) == keys;
    }
    if KeysOf(cs) == keys && SameButItemKeys(response, ResponseOf(cs)) {
      assert forall i :: 0 <= i < |keys| ==> keys[i] == cs.storageSlots[i].key;
      assert Build(keys, response).value.storageSlots == cs.storageSlots;
    }
  }

  // Assembling keeps everything of the request and the response but the keys that the response names,
  // which nothing compares with the requested ones.
  lemma BuildLosesOnlyItemKeys(keys: seq<B256>, response: AccountProof, others: seq<B256>, other: AccountProof)
    requires Build(keys, response).Ok?
    ensures Build(others, other) == Build(keys, response) <==> others == keys && SameButItemKeys(other, response)
  {
    var cs := Build(keys, response).value;
    BuildExactlyWhen(keys, response, cs);
    BuildExactlyWhen(others, other, cs);
  }
}
