// What the storage check means: with a sound trie verifier it accepts exactly when the expected
// values are those that reading the tries gives, and every proof is valid.
module TrieReads {
  import opened Base
  import opened Primitives
  import opened Rlp
  import opened RequestCodec
  import opened Storage

  // --- Accounts are read back ---

  function DecodeU256(buf: Bytes): Parsed<U256> {
    var (n, rest) :- DecodeUint(32, buf);
    DecodedUintIsEncoded(32, buf);
    Ok((n, rest))
  }

  function DecodeAccountFields(buf: Bytes): Parsed<TrieAccount> {
    var (nonce, b1) :- DecodeU64(buf);
    var (balance, b2) :- DecodeU256(b1);
    var (storageRoot, b3) :- DecodeFixed(32, b2);
    var (codeHash, b4) :- DecodeFixed(32, b3);
    Ok((TrieAccount(nonce, balance, storageRoot, codeHash), b4))
  }

  // A whole stored value: one list of four items and nothing after it.
  function DecodeAccount(buf: Bytes): Result<TrieAccount, RlpError> {
    var (payload, rest) :- DecodeItem(true, buf);
    var (account, tail) :- DecodeAccountFields(payload);
    if rest != [] || tail != [] then Err(ListLengthMismatch) else Ok(account)
  }

  function AccountFields(a: TrieAccount): Bytes {
    EncodeUint(a.nonce) + EncodeUint(a.balance) + EncodeString(a.storageRoot) + EncodeString(a.codeHash)
  }

  lemma AccountFits(a: TrieAccount)
    ensures |AccountFields(a)| < U64_LIMIT
  {
    ShortLengths(a.nonce);
    Pow256Values();
    BigEndianLength(a.balance, 32);
  }

  lemma DecodeEncodedAccountFields(a: TrieAccount)
    ensures DecodeAccountFields(AccountFields(a)) == Ok((a, []))
  {
    hide BigEndian, EncodeString, EncodeUint, DecodeFixed, DecodeUint;
    var e4: Bytes := EncodeString(a.codeHash) + [];
    var e3 := EncodeString(a.storageRoot) + e4;
    var e2 := EncodeUint(a.balance) + e3;
    assert AccountFields(a) == EncodeUint(a.nonce) + e2;
    Pow256Values();
    DecodeEncodedUint(8, a.nonce, e2);
    DecodeEncodedUint(32, a.balance, e3);
    DecodeEncodedFixed(a.storageRoot, e4);
    DecodeEncodedFixed(a.codeHash, []);
  }

  lemma DecodeEncodedAccount(a: TrieAccount)
    ensures DecodeAccount(EncodeAccount(a)) == Ok(a)
  {
    AccountFits(a);
    DecodeEncodedItem(true, AccountFields(a), []);
    assert EncodeAccount(a) + [] == EncodeAccount(a);
    DecodeEncodedAccountFields(a);
  }

  lemma DecodedAccountFieldsAreEncoded(buf: Bytes)
    requires DecodeAccountFields(buf).Ok?
    ensures var (a, rest) := DecodeAccountFields(buf).value; buf == AccountFields(a) + rest
  {
    hide BigEndian, EncodeString, EncodeUint, DecodeFixed, DecodeUint;
    var (nonce, b1) := DecodeU64(buf).value;
    var (balance, b2) := DecodeU256(b1).value;
    var (storageRoot, b3) := DecodeFixed(32, b2).value;
    var (codeHash, b4) := DecodeFixed(32, b3).value;
    DecodedU64IsEncoded(buf);
    DecodedUintIsEncoded(32, b1);
    DecodedFixedIsEncoded(32, b2);
    DecodedFixedIsEncoded(32, b3);
    Regroup(EncodeUint(nonce), EncodeUint(balance), EncodeString(storageRoot) + b3);
    Regroup(EncodeUint(nonce) + EncodeUint(balance), EncodeString(storageRoot), EncodeString(codeHash) + b4);
    Regroup(EncodeUint(nonce) + EncodeUint(balance) + EncodeString(storageRoot), EncodeString(codeHash), b4);
  }

  lemma DecodedAccountIsEncoded(buf: Bytes)
    requires DecodeAccount(buf).Ok?
    ensures buf == EncodeAccount(DecodeAccount(buf).value)
  {
    hide DecodeItem, EncodeItem, DecodeAccountFields, AccountFields;
    var (payload, rest) := DecodeItem(true, buf).value;
    var (a, tail) := DecodeAccountFields(payload).value;
    DecodedItemIsEncoded(true, buf);
    DecodedAccountFieldsAreEncoded(payload);
    AccountIsItem(a);
    assert payload == AccountFields(a) + tail == AccountFields(a);
    assert EncodeItem(true, payload) + rest == EncodeItem(true, payload);
  }

  lemma AccountIsItem(a: TrieAccount)
    ensures |AccountFields(a)| < U64_LIMIT && EncodeAccount(a) == EncodeItem(true, AccountFields(a))
  {
    AccountFits(a);
  }

  // --- Stored numbers are read back ---

  function DecodeValue(buf: Bytes): Result<U256, RlpError> {
    var (n, rest) :- DecodeU256(buf);
    if rest != [] then Err(UnexpectedLength) else Ok(n)
  }

  lemma ValueIsDecoded(buf: Bytes, n: U256)
    ensures DecodeValue(buf) == Ok(n) <==> buf == EncodeUint(n)
  {
    Pow256Values();
    DecodeEncodedUint(32, n, []);
    assert EncodeUint(n) + [] == EncodeUint(n);
    if DecodeValue(buf) == Ok(n) {
      DecodedUintIsEncoded(32, buf);
    }
  }

  lemma {:induction false} LeadingZeros(k: nat, s: Bytes)
    ensures FromBigEndian(Zeros(k) + s) == FromBigEndian(s)
  {
    if s != [] {
      LeadingZeros(k, s[..|s| - 1]);
      assert (Zeros(k) + s)[..|Zeros(k) + s| - 1] == Zeros(k) + s[..|s| - 1];
    } else if k > 0 {
      LeadingZeros(k - 1, []);
      ZerosEnd(k);
      assert Zeros(k) + [] == Zeros(k) && Zeros(k - 1) + [] == Zeros(k - 1);
    }
  }

  lemma {:induction false} ZerosEnd(k: nat)
    requires k > 0
    ensures Zeros(k)[k - 1] == 0 && Zeros(k)[..k - 1] == Zeros(k - 1)
  {
    if k > 1 {
      ZerosEnd(k - 1);
      assert Zeros(k)[..k - 1] == [0] + Zeros(k - 1)[..k - 2];
    }
  }

  // The 32 committed bytes are the number, most significant byte first.
  lemma CommittedNumber(n: U256)
    ensures FromBigEndian(ToBytes32(n)) == n
  {
    Pow256Values();
    BigEndianLength(n, 32);
    LeadingZeros(32 - |BigEndian(n)|, BigEndian(n));
    FromBigEndianInverse(n);
  }

  // --- Paths ---

  // High nibble first.
  function NibblePath(key: Bytes): seq<Nibble> {
    seq(2 * |key|, i requires 0 <= i < 2 * |key| => if i % 2 == 0 then key[i / 2] / 16 else key[i / 2] % 16)
  }

  lemma {:induction false} UnpackIsNibbles(key: Bytes)
    ensures Unpack(key) == NibblePath(key)
  {
    if key != [] {
      UnpackIsNibbles(key[1..]);
      assert forall i :: 2 <= i < 2 * |key| ==> NibblePath(key)[i] == NibblePath(key[1..])[i - 2];
    }
  }

  // --- Reading storage through two tries ---

  // What is stored at a path under a root.
  type Lookup = (B256, seq<Nibble>) -> Option<Bytes>

  ghost predicate SoundTrie(t: Trie, lookup: Lookup) {
    forall root, path, value, proof :: t.verify(root, path, value, proof) ==> lookup(root, path) == Some(value)
  }

  predicate ValidProof(t: Trie, lookup: Lookup, root: B256, path: seq<Nibble>, proof: seq<Bytes>) {
    lookup(root, path).Some? && t.verify(root, path, lookup(root, path).value, proof)
  }

  function ReadAccount(t: Trie, lookup: Lookup, stateRoot: B256, address: Address): Option<TrieAccount> {
    var stored := lookup(stateRoot, NibblePath(t.keccak(address)));
    if stored.Some? && DecodeAccount(stored.value).Ok? then Some(DecodeAccount(stored.value).value) else None
  }

  function ReadSlot(t: Trie, lookup: Lookup, storageRoot: B256, key: B256): Option<U256> {
    var stored := lookup(storageRoot, NibblePath(t.keccak(key)));
    if stored.Some? && DecodeValue(stored.value).Ok? then Some(DecodeValue(stored.value).value) else None
  }

  // The value of a contract's slot in the state with the given root.
  function ReadStorage(t: Trie, lookup: Lookup, stateRoot: B256, address: Address, key: B256): Option<U256> {
    var account := ReadAccount(t, lookup, stateRoot, address);
    if account.None? then None else ReadSlot(t, lookup, account.value.storageRoot, key)
  }

  lemma AccountOkExactlyWhen(t: Trie, lookup: Lookup, stateRoot: B256, cs: ContractStorage)
    requires SoundTrie(t, lookup)
    ensures AccountOk(t, stateRoot, cs) <==>
              && ReadAccount(t, lookup, stateRoot, cs.address) == Some(cs.expectedValue)
              && ValidProof(t, lookup, stateRoot, NibblePath(t.keccak(cs.address)), cs.mptProof)
  {
    UnpackIsNibbles(t.keccak(cs.address));
    DecodeEncodedAccount(cs.expectedValue);
    var stored := lookup(stateRoot, NibblePath(t.keccak(cs.address)));
    if stored.Some? && DecodeAccount(stored.value).Ok? {
      DecodedAccountIsEncoded(stored.value);
    }
  }

  lemma SlotOkExactlyWhen(t: Trie, lookup: Lookup, storageRoot: B256, slot: StorageSlot)
    requires SoundTrie(t, lookup)
    ensures SlotOk(t, storageRoot, slot) <==>
              && ReadSlot(t, lookup, storageRoot, slot.key) == Some(slot.expectedValue)
              && ValidProof(t, lookup, storageRoot, NibblePath(t.keccak(slot.key)), slot.mptProof)
  {
    UnpackIsNibbles(t.keccak(slot.key));
    var stored := lookup(storageRoot, NibblePath(t.keccak(slot.key)));
    if stored.Some? {
      ValueIsDecoded(stored.value, slot.expectedValue);
    }
  }

  // Main result: the check accepts exactly when the account and every slot read as expected, the slots
  // under the account's own storage root, and every proof is valid.
  lemma StorageOkExactlyWhen(t: Trie, lookup: Lookup, stateRoot: B256, cs: ContractStorage)
    requires SoundTrie(t, lookup)
    ensures StorageOk(t, stateRoot, cs) <==>
              && ReadAccount(t, lookup, stateRoot, cs.address) == Some(cs.expectedValue)
              && ValidProof(t, lookup, stateRoot, NibblePath(t.keccak(cs.address)), cs.mptProof)
              && (forall i :: 0 <= i < |cs.storageSlots| ==>
                    var slot := cs.storageSlots[i];
                    && ReadStorage(t, lookup, stateRoot, cs.address, slot.key) == Some(slot.expectedValue)
                    && ValidProof(t, lookup, cs.expectedValue.storageRoot, NibblePath(t.keccak(slot.key)),
                                  slot.mptProof))
  {
    hide AccountOk, SlotOk, ReadAccount, ReadSlot, ValidProof, SoundTrie;
    AccountOkExactlyWhen(t, lookup, stateRoot, cs);
    forall i | 0 <= i < |cs.storageSlots|
      ensures SlotOk(t, cs.expectedValue.storageRoot, cs.storageSlots[i]) <==>
                && ReadSlot(t, lookup, cs.expectedValue.storageRoot, cs.storageSlots[i].key)
                   == Some(cs.storageSlots[i].expectedValue)
                && ValidProof(t, lookup, cs.expectedValue.storageRoot, NibblePath(t.keccak(cs.storageSlots[i].key)),
                              cs.storageSlots[i].mptProof)
    {
      SlotOkExactlyWhen(t, lookup, cs.expectedValue.storageRoot, cs.storageSlots[i]);
    }
  }

  // Each committed slot is a slot of the contract in the state with this root.
  ghost predicate AreStored(t: Trie, lookup: Lookup, stateRoot: B256, slots: seq<VerifiedStorageSlot>) {
    forall i :: 0 <= i < |slots| ==>
      ReadStorage(t, lookup, stateRoot, slots[i].contractAddress, slots[i].key)
      == Some(FromBigEndian(slots[i].value))
  }

  lemma CommittedSlotsAreStored(
    t: Trie, lookup: Lookup, stateRoot: B256, cs: ContractStorage, slots: seq<VerifiedStorageSlot>)
    requires SoundTrie(t, lookup) && StorageOk(t, stateRoot, cs) && Commits(cs, slots)
    ensures AreStored(t, lookup, stateRoot, slots)
  {
    hide StorageOk, ReadStorage, SoundTrie, ToBytes32, FromBigEndian, ReadAccount, ValidProof;
    StorageOkExactlyWhen(t, lookup, stateRoot, cs);
    forall i | 0 <= i < |slots|
      ensures ReadStorage(t, lookup, stateRoot, slots[i].contractAddress, slots[i].key)
              == Some(FromBigEndian(slots[i].value))
    {
      CommittedNumber(cs.storageSlots[i].expectedValue);
    }
  }
}
