// The RLP form of a proof request, from which its id is hashed.
module RequestCodec {
  import opened Base
  import opened Primitives
  import opened Rlp

  function EncodeKeys(keys: seq<B256>): Bytes {
    if keys == [] then [] else EncodeString(keys[0]) + EncodeKeys(keys[1..])
  }

  lemma {:induction false} EncodeKeysLength(keys: seq<B256>)
    ensures |EncodeKeys(keys)| == 33 * |keys|
  {
    if keys != [] {
      EncodeKeysLength(keys[1..]);
    }
  }

  function EncodeSlots(keys: SlotKeys): Bytes {
    EncodeKeysLength(keys);
    EncodeList(EncodeKeys(keys))
  }

  function EncodeFields(r: ProofRequest): Bytes {
    EncodeString(r.contractAddress) + EncodeSlots(r.storageSlots) + EncodeTail(r)
  }

  function EncodeTail(r: ProofRequest): Bytes {
    EncodeUint(r.blockNumber) + EncodeUint(r.fromHead) + EncodeString(r.fromHeader) + EncodeString(r.vkey)
  }

  lemma FieldsFit(r: ProofRequest)
    ensures |EncodeFields(r)| < U64_LIMIT
  {
    EncodeKeysLength(r.storageSlots);
    ShortLengths(r.blockNumber);
    ShortLengths(r.fromHead);
    ShortLengths(|EncodeKeys(r.storageSlots)|);
  }

  function EncodeRequest(r: ProofRequest): Bytes {
    FieldsFit(r);
    EncodeList(EncodeFields(r))
  }

  // Reads keys until the list payload is exhausted. The bound is the capacity of a Rust Vec.
  function DecodeKeys(payload: Bytes): Result<SlotKeys, RlpError>
    decreases |payload|
  {
    if payload == [] then Ok([])
    else
      var (key, tail) :- DecodeFixed(32, payload);
      assert |tail| < |payload| by {
        DecodedFixedIsEncoded(32, payload);
      }
      var keys :- DecodeKeys(tail);
      if |keys| + 1 >= MAX_SLOT_KEYS then Err(CapacityOverflow) else Ok([key] + keys)
  }

  function DecodeSlots(buf: Bytes): Parsed<SlotKeys> {
    var (payload, rest) :- DecodeItem(true, buf);
    var keys :- DecodeKeys(payload);
    Ok((keys, rest))
  }

  function DecodeU64(buf: Bytes): Parsed<U64> {
    var (n, rest) :- DecodeUint(8, buf);
    DecodedUintIsEncoded(8, buf);
    Pow256Values();
    Ok((n, rest))
  }

  // The six fields in order, read from a buffer that may extend past the list payload.
  function DecodeFields(buf: Bytes): Parsed<ProofRequest> {
    var (address, b1) :- DecodeFixed(20, buf);
    var (slots, b2) :- DecodeSlots(b1);
    DecodeTail(address, slots, b2)
  }

  function DecodeTail(address: Address, slots: SlotKeys, buf: Bytes): Parsed<ProofRequest> {
    var (block, b3) :- DecodeU64(buf);
    var (head, b4) :- DecodeU64(b3);
    var (header, b5) :- DecodeFixed(32, b4);
    var (vkey, b6) :- DecodeFixed(32, b5);
    Ok((ProofRequest(address, slots, block, head, header, vkey), b6))
  }

  function DecodeRequest(buf: Bytes): Parsed<ProofRequest> {
    var (payload, rest) :- DecodeItem(true, buf);
    var body := payload + rest;
    var (request, tail) :- DecodeFields(body);
    if |body| - |tail| != |payload| then Err(ListLengthMismatch) else Ok((request, tail))
  }

  // --- Round trip ---

  lemma {:induction false} DecodeEncodedKeys(keys: SlotKeys)
    ensures DecodeKeys(EncodeKeys(keys)) == Ok(keys)
  {
    if keys != [] {
      var tail := EncodeKeys(keys[1..]);
      DecodeEncodedFixed(keys[0], tail);
      DecodeEncodedKeys(keys[1..]);
      assert EncodeKeys(keys) == EncodeString(keys[0]) + tail != [];
      assert [keys[0]] + keys[1..] == keys;
    }
  }

  lemma DecodeEncodedSlots(keys: SlotKeys, rest: Bytes)
    ensures DecodeSlots(EncodeSlots(keys) + rest) == Ok((keys, rest))
  {
    EncodeKeysLength(keys);
    DecodeEncodedItem(true, EncodeKeys(keys), rest);
    DecodeEncodedKeys(keys);
  }

  lemma Regroup(a: Bytes, b: Bytes, c: Bytes)
    ensures a + (b + c) == a + b + c
  {
  }

  lemma DecodeEncodedTail(r: ProofRequest, rest: Bytes)
    ensures DecodeTail(r.contractAddress, r.storageSlots, EncodeTail(r) + rest) == Ok((r, rest))
  {
    var e6 := EncodeString(r.vkey) + rest;
    var e5 := EncodeString(r.fromHeader) + e6;
    var e4 := EncodeUint(r.fromHead) + e5;
    assert EncodeTail(r) + rest == EncodeUint(r.blockNumber) + e4;
    Pow256Values();
    DecodeEncodedUint(8, r.blockNumber, e4);
    DecodeEncodedUint(8, r.fromHead, e5);
    DecodeEncodedFixed(r.fromHeader, e6);
    DecodeEncodedFixed(r.vkey, rest);
  }

  lemma DecodeEncodedFields(r: ProofRequest, rest: Bytes)
    ensures DecodeFields(EncodeFields(r) + rest) == Ok((r, rest))
  {
    var e3 := EncodeTail(r) + rest;
    var e2 := EncodeSlots(r.storageSlots) + e3;
    Regroup(EncodeString(r.contractAddress), EncodeSlots(r.storageSlots), e3);
    Regroup(EncodeString(r.contractAddress) + EncodeSlots(r.storageSlots), EncodeTail(r), rest);
    DecodeEncodedFixed(r.contractAddress, e2);
    DecodeEncodedSlots(r.storageSlots, e3);
    DecodeEncodedTail(r, rest);
  }

  // Decoding the encoding of a request gives it back, whatever follows it.
  lemma RoundTrip(r: ProofRequest, rest: Bytes)
    ensures DecodeRequest(EncodeRequest(r) + rest) == Ok((r, rest))
  {
    FieldsFit(r);
    DecodeEncodedItem(true, EncodeFields(r), rest);
    DecodeEncodedFields(r, rest);
  }

  // --- The decoder accepts exactly the encodings ---

  lemma {:induction false} DecodedKeysAreEncoded(payload: Bytes)
    requires DecodeKeys(payload).Ok?
    ensures payload == EncodeKeys(DecodeKeys(payload).value)
    decreases |payload|
  {
    if payload != [] {
      DecodedFixedIsEncoded(32, payload);
      var (key, tail) := DecodeFixed(32, payload).value;
      DecodedKeysAreEncoded(tail);
      var keys := DecodeKeys(payload).value;
      assert keys[0] == key && keys[1..] == DecodeKeys(tail).value;
    }
  }

  lemma DecodedSlotsAreEncoded(buf: Bytes)
    requires DecodeSlots(buf).Ok?
    ensures var (keys, rest) := DecodeSlots(buf).value; buf == EncodeSlots(keys) + rest
  {
    DecodedItemIsEncoded(true, buf);
    DecodedKeysAreEncoded(DecodeItem(true, buf).value.0);
  }

  lemma DecodedU64IsEncoded(buf: Bytes)
    requires DecodeU64(buf).Ok?
    ensures var (n, rest) := DecodeU64(buf).value; buf == EncodeUint(n) + rest
  {
    DecodedUintIsEncoded(8, buf);
  }

  lemma DecodedTailIsEncoded(address: Address, slots: SlotKeys, buf: Bytes)
    requires DecodeTail(address, slots, buf).Ok?
    ensures var (r, rest) := DecodeTail(address, slots, buf).value;
            r.contractAddress == address && r.storageSlots == slots && buf == EncodeTail(r) + rest
  {
    var (block, b3) := DecodeU64(buf).value;
    var (head, b4) := DecodeU64(b3).value;
    var (header, b5) := DecodeFixed(32, b4).value;
    var (vkey, rest) := DecodeFixed(32, b5).value;
    DecodedU64IsEncoded(buf);
    DecodedU64IsEncoded(b3);
    DecodedFixedIsEncoded(32, b4);
    DecodedFixedIsEncoded(32, b5);
    Regroup(EncodeUint(block), EncodeUint(head), EncodeString(header) + b5);
    Regroup(EncodeUint(block) + EncodeUint(head), EncodeString(header), EncodeString(vkey) + rest);
    Regroup(EncodeUint(block) + EncodeUint(head) + EncodeString(header), EncodeString(vkey), rest);
  }

  lemma DecodedFieldsAreEncoded(buf: Bytes)
    requires DecodeFields(buf).Ok?
    ensures var (r, rest) := DecodeFields(buf).value; buf == EncodeFields(r) + rest
  {
    var (address, b1) := DecodeFixed(20, buf).value;
    var (slots, b2) := DecodeSlots(b1).value;
    DecodedFixedIsEncoded(20, buf);
    DecodedSlotsAreEncoded(b1);
    DecodedTailIsEncoded(address, slots, b2);
    var (r, rest) := DecodeTail(address, slots, b2).value;
    Regroup(EncodeString(address), EncodeSlots(slots), EncodeTail(r) + rest);
    Regroup(EncodeString(address) + EncodeSlots(slots), EncodeTail(r), rest);
  }

  lemma DecodedRequestIsEncoded(buf: Bytes)
    requires DecodeRequest(buf).Ok?
    ensures var (r, rest) := DecodeRequest(buf).value; buf == EncodeRequest(r) + rest
  {
    DecodedItemIsEncoded(true, buf);
    var (payload, rest) := DecodeItem(true, buf).value;
    var body := payload + rest;
    var (r, tail) := DecodeFields(body).value;
    DecodedFieldsAreEncoded(body);
    SplitAt(payload, rest);
    SplitAt(EncodeFields(r), tail);
  }

  lemma EncodingIsInjective(r: ProofRequest, q: ProofRequest)
    requires EncodeRequest(r) == EncodeRequest(q)
    ensures r == q
  {
    RoundTrip(r, []);
    RoundTrip(q, []);
    assert EncodeRequest(r) + [] == EncodeRequest(q) + [];
  }

  // --- Request ids ---

  function ProofIdOf(hash: Bytes -> B256, request: ProofRequest): ProofId {
    ProofId(hash(EncodeRequest(request)))
  }

  // No two of the known requests have encodings that hash alike.
  ghost predicate CollisionFree(hash: Bytes -> B256, known: ProofRequest -> bool) {
    forall r, q :: known(r) && known(q) && hash(EncodeRequest(r)) == hash(EncodeRequest(q)) ==>
      EncodeRequest(r) == EncodeRequest(q)
  }

  // Requests then share an id only when they are the same request.
  lemma IdsAreDistinct(hash: Bytes -> B256, known: ProofRequest -> bool, r: ProofRequest, q: ProofRequest)
    requires CollisionFree(hash, known) && known(r) && known(q)
    ensures ProofIdOf(hash, r) == ProofIdOf(hash, q) <==> r == q
  {
    if ProofIdOf(hash, r) == ProofIdOf(hash, q) {
      EncodingIsInjective(r, q);
    }
  }
}
