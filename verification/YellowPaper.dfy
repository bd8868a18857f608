// The serialization of byte strings and lists as Appendix B of the Ethereum Yellow Paper defines it,
// on trees, with the published examples; requests and accounts are encoded as it prescribes.
module YellowPaper {
  import opened Base
  import opened Primitives
  import opened Rlp
  import opened RequestCodec
  import opened Storage

  datatype Item = Str(bytes: Bytes) | Lst(items: seq<Item>)

  // None for strings and lists of 2^64 bytes and more, which have no serialization.
  function Serialize(item: Item): Option<Bytes> {
    match item
    case Str(bytes) =>
      if |bytes| == 1 && bytes[0] < 128 then Some(bytes)
      else if |bytes| < 56 then Some([128 + |bytes|] + bytes)
      else if |bytes| < U64_LIMIT then
        ShortLengths(|bytes|);
        Some([183 + |BigEndian(|bytes|)|] + BigEndian(|bytes|) + bytes)
      else None
    case Lst(items) =>
      var parts := SerializeAll(items);
      if parts.None? then None
      else
        var bytes := parts.value;
        if |bytes| < 56 then Some([192 + |bytes|] + bytes)
        else if |bytes| < U64_LIMIT then
          ShortLengths(|bytes|);
          Some([247 + |BigEndian(|bytes|)|] + BigEndian(|bytes|) + bytes)
        else None
  }

  function SerializeAll(items: seq<Item>): Option<Bytes> {
    if items == [] then Some([])
    else
      var first, rest := Serialize(items[0]), SerializeAll(items[1..]);
      if first.None? || rest.None? then None else Some(first.value + rest.value)
  }

  lemma StringIsSerialized(s: Bytes)
    requires |s| < U64_LIMIT
    ensures Serialize(Str(s)) == Some(EncodeString(s))
  {
  }

  lemma ListIsSerialized(items: seq<Item>, payload: Bytes)
    requires SerializeAll(items) == Some(payload) && |payload| < U64_LIMIT
    ensures Serialize(Lst(items)) == Some(EncodeList(payload))
  {
  }

  lemma OneMore(item: Item, rest: seq<Item>, a: Bytes, b: Bytes)
    requires Serialize(item) == Some(a) && SerializeAll(rest) == Some(b)
    ensures SerializeAll([item] + rest) == Some(a + b)
  {
    assert ([item] + rest)[1..] == rest;
  }

  // --- Requests ---

  function KeyItems(keys: seq<B256>): seq<Item> {
    if keys == [] then [] else [Str(keys[0])] + KeyItems(keys[1..])
  }

  // The fields of a request in their order of declaration.
  function ItemOf(r: ProofRequest): Item {
    Lst([Str(r.contractAddress), Lst(KeyItems(r.storageSlots)), Str(BigEndian(r.blockNumber)),
         Str(BigEndian(r.fromHead)), Str(r.fromHeader), Str(r.vkey)])
  }

  lemma {:induction false} KeysAreSerialized(keys: seq<B256>)
    ensures SerializeAll(KeyItems(keys)) == Some(EncodeKeys(keys))
  {
    if keys != [] {
      KeysAreSerialized(keys[1..]);
      StringIsSerialized(keys[0]);
      OneMore(Str(keys[0]), KeyItems(keys[1..]), EncodeString(keys[0]), EncodeKeys(keys[1..]));
    }
  }

  lemma FourItems(a: Item, b: Item, c: Item, d: Item, x: Bytes, y: Bytes, z: Bytes, w: Bytes)
    requires Serialize(a) == Some(x) && Serialize(b) == Some(y) && Serialize(c) == Some(z) && Serialize(d) == Some(w)
    ensures SerializeAll([a, b, c, d]) == Some(x + y + z + w)
  {
    var none: seq<Item> := [];
    OneMore(d, none, w, []);
    OneMore(c, [d], z, w + []);
    OneMore(b, [c, d], y, z + (w + []));
    OneMore(a, [b, c, d], x, y + (z + (w + [])));
    assert [d] + none == [d] && [c] + [d] == [c, d] && [b] + [c, d] == [b, c, d] && [a] + [b, c, d] == [a, b, c, d];
    assert x + (y + (z + (w + []))) == x + y + z + w;
  }

  // The bytes that are hashed into the id of a request are the serialization of its fields in order.
  lemma RequestIsSerialized(r: ProofRequest)
    ensures Serialize(ItemOf(r)) == Some(EncodeRequest(r))
  {
    hide Serialize, SerializeAll, EncodeString, EncodeList, BigEndian;
    var slots := Lst(KeyItems(r.storageSlots));
    EncodeKeysLength(r.storageSlots);
    KeysAreSerialized(r.storageSlots);
    ListIsSerialized(KeyItems(r.storageSlots), EncodeKeys(r.storageSlots));
    StringIsSerialized(r.contractAddress);
    StringIsSerialized(r.fromHeader);
    StringIsSerialized(r.vkey);
    UintIsSerialized(r.blockNumber);
    UintIsSerialized(r.fromHead);
    var tail := [Str(BigEndian(r.blockNumber)), Str(BigEndian(r.fromHead)), Str(r.fromHeader), Str(r.vkey)];
    FourItems(tail[0], tail[1], tail[2], tail[3], EncodeUint(r.blockNumber), EncodeUint(r.fromHead),
              EncodeString(r.fromHeader), EncodeString(r.vkey));
    OneMore(slots, tail, EncodeSlots(r.storageSlots), EncodeTail(r));
    OneMore(Str(r.contractAddress), [slots] + tail, EncodeString(r.contractAddress),
            EncodeSlots(r.storageSlots) + EncodeTail(r));
    var all := [Str(r.contractAddress)] + ([slots] + tail);
    Regroup(EncodeString(r.contractAddress), EncodeSlots(r.storageSlots), EncodeTail(r));
    FieldsFit(r);
    ListIsSerialized(all, EncodeFields(r));
    assert all == [Str(r.contractAddress), slots] + tail;
    assert ItemOf(r) == Lst(all);
  }

  lemma UintIsSerialized(n: nat)
    requires n < U256_LIMIT
    ensures Serialize(Str(BigEndian(n))) == Some(EncodeUint(n))
  {
    Pow256Values();
    BigEndianLength(n, 32);
    StringIsSerialized(BigEndian(n));
  }

  // --- Accounts ---

  // What the state trie stores for an account.
  lemma AccountIsSerialized(a: TrieAccount)
    ensures var item := Lst([Str(BigEndian(a.nonce)), Str(BigEndian(a.balance)), Str(a.storageRoot), Str(a.codeHash)]);
            Serialize(item) == Some(EncodeAccount(a))
  {
    hide Serialize, SerializeAll, EncodeString, EncodeList, BigEndian;
    UintIsSerialized(a.nonce);
    UintIsSerialized(a.balance);
    StringIsSerialized(a.storageRoot);
    StringIsSerialized(a.codeHash);
    var items := [Str(BigEndian(a.nonce)), Str(BigEndian(a.balance)), Str(a.storageRoot), Str(a.codeHash)];
    FourItems(items[0], items[1], items[2], items[3], EncodeUint(a.nonce), EncodeUint(a.balance),
              EncodeString(a.storageRoot), EncodeString(a.codeHash));
    AccountFits(a);
    ListIsSerialized(items, EncodeUint(a.nonce) + EncodeUint(a.balance) + EncodeString(a.storageRoot)
                            + EncodeString(a.codeHash));
  }

  lemma AccountFits(a: TrieAccount)
    ensures |EncodeUint(a.nonce) + EncodeUint(a.balance) + EncodeString(a.storageRoot) + EncodeString(a.codeHash)|
            < U64_LIMIT
  {
    ShortLengths(a.nonce);
    Pow256Values();
    BigEndianLength(a.balance, 32);
  }

  // --- The published examples ---

  lemma SmallNumbers()
    ensures BigEndian(0) == [] && BigEndian(2) == [2] && BigEndian(15) == [15] && BigEndian(56) == [56]
    ensures BigEndian(90) == [90] && BigEndian(1024) == [4, 0]
  {
    assert BigEndian(4) == [4];
  }

  // "dog", the list of "cat" and "dog", the empty string and list.
  lemma PublishedStrings()
    ensures EncodeString([100, 111, 103]) == [0x83, 100, 111, 103]
    ensures EncodeList(EncodeString([99, 97, 116]) + EncodeString([100, 111, 103]))
            == [0xC8, 0x83, 99, 97, 116, 0x83, 100, 111, 103]
    ensures EncodeString([]) == [0x80] && EncodeList([]) == [0xC0]
  {
    hide BigEndian;
  }

  // The integers 0, 15 and 1024.
  lemma PublishedIntegers()
    ensures EncodeUint(0) == [0x80] && EncodeUint(15) == [15] && EncodeUint(1024) == [0x82, 4, 0]
  {
    hide BigEndian;
    SmallNumbers();
  }

  // The first length that takes the long form.
  lemma LongForm(bytes: Bytes)
    requires |bytes| == 56
    ensures EncodeString(bytes) == [0xB8, 56] + bytes && EncodeList(bytes) == [0xF8, 56] + bytes
  {
    hide BigEndian;
    SmallNumbers();
  }

  // A request for no slots, from head 2, for block 1.
  function Sample(): ProofRequest {
    ProofRequest(Zeros(20), [], 1, 2, Zeros(32), Zeros(32))
  }

  lemma SampleIsEncoded()
    ensures EncodeRequest(Sample()) ==
            [0xF8, 90, 0x94] + Zeros(20) + [0xC0, 1, 2, 0xA0] + Zeros(32) + [0xA0] + Zeros(32)
  {
    hide Zeros;
    SmallNumbers();
    assert BigEndian(1) == [1] && EncodeUint(1) == [1] && EncodeUint(2) == [2];
    assert EncodeString(Zeros(20)) == [0x94] + Zeros(20) && EncodeString(Zeros(32)) == [0xA0] + Zeros(32);
    assert EncodeSlots([]) == [0xC0];
    assert |EncodeFields(Sample())| == 90;
  }
}
