// Recursive length prefix encoding, Appendix B of the Ethereum Yellow Paper, and the strict
// decoder that accepts exactly its image.
module Rlp {
  import opened Base

  type Bytes = seq<Byte>

  datatype RlpError =
    | InputTooShort
    | NonCanonicalSingleByte
    | NonCanonicalSize
    | LeadingZero
    | Overflow
    | UnexpectedString
    | UnexpectedList
    | UnexpectedLength
    | ListLengthMismatch
    | CapacityOverflow

  // A decoded value and the input after it.
  type Parsed<T> = Result<(T, Bytes), RlpError>

  // --- Big-endian integers without leading zeros ---

  function BigEndian(n: nat): Bytes {
    if n == 0 then [] else BigEndian(n / 256) + [n % 256]
  }

  function FromBigEndian(s: Bytes): nat {
    if s == [] then 0 else FromBigEndian(s[..|s| - 1]) * 256 + s[|s| - 1]
  }

  function Pow256(k: nat): nat {
    if k == 0 then 1 else 256 * Pow256(k - 1)
  }

  predicate Minimal(s: Bytes) {
    s == [] || s[0] != 0
  }

  lemma {:induction false} FromBigEndianInverse(n: nat)
    ensures FromBigEndian(BigEndian(n)) == n && Minimal(BigEndian(n))
  {
    if n != 0 {
      FromBigEndianInverse(n / 256);
      var s := BigEndian(n);
      assert s[..|s| - 1] == BigEndian(n / 256);
      if n / 256 == 0 {
        assert s == [n % 256];
      } else {
        assert s[0] == BigEndian(n / 256)[0];
      }
    }
  }

  lemma {:induction false} FromBigEndianPositive(s: Bytes)
    requires s != [] && s[0] != 0
    ensures FromBigEndian(s) > 0
  {
    if |s| > 1 {
      FromBigEndianPositive(s[..|s| - 1]);
    }
  }

  lemma {:induction false} BigEndianInverse(s: Bytes)
    requires Minimal(s)
    ensures BigEndian(FromBigEndian(s)) == s
  {
    if s != [] {
      var init := s[..|s| - 1];
      BigEndianInverse(init);
      FromBigEndianPositive(s);
      assert FromBigEndian(s) / 256 == FromBigEndian(init);
      assert s == init + [s[|s| - 1]];
    }
  }

  lemma {:induction false} BigEndianLength(n: nat, k: nat)
    requires n < Pow256(k)
    ensures |BigEndian(n)| <= k
  {
    if n != 0 {
      BigEndianLength(n / 256, k - 1);
    }
  }

  lemma {:induction false} FromBigEndianBound(s: Bytes)
    ensures FromBigEndian(s) < Pow256(|s|)
  {
    if s != [] {
      FromBigEndianBound(s[..|s| - 1]);
    }
  }

  lemma Pow256Values()
    ensures Pow256(8) == U64_LIMIT && Pow256(32) == U256_LIMIT
  {
    assert Pow256(4) == 0x1_0000_0000;
    assert Pow256(8) == U64_LIMIT;
    assert Pow256(12) == 0x1_0000_0000_0000_0000_0000_0000;
    assert Pow256(16) == 0x1_0000_0000_0000_0000_0000_0000_0000_0000;
    assert Pow256(20) == 0x1_0000_0000_0000_0000_0000_0000_0000_0000_0000_0000;
    assert Pow256(24) == 0x1_0000_0000_0000_0000_0000_0000_0000_0000_0000_0000_0000_0000;
    assert Pow256(28) == 0x1_0000_0000_0000_0000_0000_0000_0000_0000_0000_0000_0000_0000_0000_0000;
  }

  lemma {:induction false} Pow256Monotone(j: nat, k: nat)
    requires j <= k
    ensures Pow256(j) <= Pow256(k)
  {
    if j < k {
      Pow256Monotone(j, k - 1);
    }
  }

  lemma ShortLengths(n: U64)
    ensures |BigEndian(n)| <= 8
  {
    Pow256Values();
    BigEndianLength(n, 8);
  }

  lemma ShortValues(s: Bytes)
    requires |s| <= 8
    ensures FromBigEndian(s) < U64_LIMIT
  {
    Pow256Values();
    FromBigEndianBound(s);
    Pow256Monotone(|s|, 8);
  }

  // --- Items ---

  function Offset(list: bool): int {
    if list then 0xC0 else 0x80
  }

  function EncodeHeader(list: bool, length: U64): Bytes {
    if length < 56 then [Offset(list) + length]
    else
      ShortLengths(length);
      [Offset(list) + 55 + |BigEndian(length)|] + BigEndian(length)
  }

  function EncodeString(s: Bytes): Bytes
    requires |s| < U64_LIMIT
  {
    if |s| == 1 && s[0] < 0x80 then s else EncodeHeader(false, |s|) + s
  }

  function EncodeList(payload: Bytes): Bytes
    requires |payload| < U64_LIMIT
  {
    EncodeHeader(true, |payload|) + payload
  }

  function EncodeItem(list: bool, payload: Bytes): Bytes
    requires |payload| < U64_LIMIT
  {
    if list then EncodeList(payload) else EncodeString(payload)
  }

  // The kind and payload of the first item, and what follows it.
  function DecodeItem(list: bool, buf: Bytes): Parsed<Bytes> {
    if buf == [] then Err(InputTooShort)
    else
      var b := buf[0];
      if b < 0x80 then TakePayload(list, false, 1, buf)
      else if b <= 0xB7 then
        if b == 0x81 && |buf| < 2 then Err(InputTooShort)
        else if b == 0x81 && buf[1] < 0x80 then Err(NonCanonicalSingleByte)
        else TakePayload(list, false, b - 0x80, buf[1..])
      else if b < 0xC0 then DecodeLong(list, false, b - 0xB7, buf[1..])
      else if b <= 0xF7 then TakePayload(list, true, b - 0xC0, buf[1..])
      else DecodeLong(list, true, b - 0xF7, buf[1..])
  }

  function DecodeLong(list: bool, isList: bool, width: nat, buf: Bytes): Parsed<Bytes>
    requires 1 <= width <= 8
  {
    if |buf| < width then Err(InputTooShort)
    else if buf[0] == 0 then Err(LeadingZero)
    else
      var length := FromBigEndian(buf[..width]);
      if length < 56 then Err(NonCanonicalSize)
      else TakePayload(list, isList, length, buf[width..])
  }

  function TakePayload(list: bool, isList: bool, length: nat, buf: Bytes): Parsed<Bytes> {
    if |buf| < length then Err(InputTooShort)
    else if list && !isList then Err(UnexpectedString)
    else if !list && isList then Err(UnexpectedList)
    else Ok((buf[..length], buf[length..]))
  }

  lemma SplitAt(a: Bytes, b: Bytes)
    ensures (a + b)[..|a|] == a && (a + b)[|a|..] == b
  {
  }

  lemma DecodeHeaderOf(list: bool, length: U64, tail: Bytes)
    requires !(!list && length == 1 && tail != [] && tail[0] < 0x80) && |tail| >= length
    ensures DecodeItem(list, EncodeHeader(list, length) + tail) == TakePayload(list, list, length, tail)
  {
    var head := EncodeHeader(list, length);
    var buf := head + tail;
    if length < 56 {
      assert buf[1..] == tail;
      if |tail| > 0 {
        assert buf[1] == tail[0];
      }
    } else {
      var width := BigEndian(length);
      ShortLengths(length);
      FromBigEndianInverse(length);
      assert width != [];
      assert buf[1..] == width + tail;
      SplitAt(width, tail);
      assert (width + tail)[0] == width[0];
    }
  }

  // Decoding what was encoded gives the payload back and consumes nothing else.
  lemma DecodeEncodedItem(list: bool, payload: Bytes, rest: Bytes)
    requires |payload| < U64_LIMIT
    ensures DecodeItem(list, EncodeItem(list, payload) + rest) == Ok((payload, rest))
  {
    if !list && |payload| == 1 && payload[0] < 0x80 {
      var buf := payload + rest;
      assert buf[0] == payload[0];
      SplitAt(payload, rest);
    } else {
      var tail := payload + rest;
      assert EncodeItem(list, payload) + rest == EncodeHeader(list, |payload|) + tail;
      assert payload != [] ==> tail[0] == payload[0];
      DecodeHeaderOf(list, |payload|, tail);
      SplitAt(payload, rest);
    }
  }

  lemma Regroup4(a: Bytes, b: Bytes, c: Bytes, d: Bytes)
    ensures a + (b + (c + d)) == a + b + c + d
  {
  }

  lemma LongHeader(list: bool, isList: bool, width: nat, buf: Bytes)
    requires 1 <= width <= 8 && DecodeLong(list, isList, width, buf).Ok?
    ensures var (payload, rest) := DecodeLong(list, isList, width, buf).value;
            && 56 <= |payload| < U64_LIMIT && list == isList
            && [Offset(isList) + 55 + width] + buf == EncodeHeader(isList, |payload|) + payload + rest
  {
    var digits, tail := buf[..width], buf[width..];
    var length := FromBigEndian(digits);
    ShortValues(digits);
    BigEndianInverse(digits);
    var payload, rest := tail[..length], tail[length..];
    assert buf == digits + (payload + rest);
    Regroup4([Offset(isList) + 55 + width], digits, payload, rest);
    assert EncodeHeader(isList, length) == [Offset(isList) + 55 + width] + digits;
  }

  lemma ShortItem(list: bool, isList: bool, length: nat, buf: Bytes)
    requires length < 56 && TakePayload(list, isList, length, buf).Ok?
    ensures var (payload, rest) := TakePayload(list, isList, length, buf).value;
            && |payload| == length && list == isList
            && [Offset(isList) + length] + buf == EncodeHeader(isList, length) + payload + rest
  {
    assert buf == buf[..length] + buf[length..];
  }

  // The decoder accepts nothing but encodings.
  lemma DecodedItemIsEncoded(list: bool, buf: Bytes)
    requires DecodeItem(list, buf).Ok?
    ensures var (payload, rest) := DecodeItem(list, buf).value;
            |payload| < U64_LIMIT && buf == EncodeItem(list, payload) + rest
  {
    var b, tail := buf[0], buf[1..];
    assert buf == [b] + tail;
    if b < 0x80 {
      assert DecodeItem(list, buf).value.0 == [b];
    } else if b <= 0xB7 {
      ShortItem(list, false, b - 0x80, tail);
    } else if b < 0xC0 {
      LongHeader(list, false, b - 0xB7, tail);
    } else if b <= 0xF7 {
      ShortItem(list, true, b - 0xC0, tail);
    } else {
      LongHeader(list, true, b - 0xF7, tail);
    }
  }

  // --- Unsigned integers of at most `width` bytes ---

  function EncodeUint(n: nat): Bytes
    requires n < U256_LIMIT
  {
    Pow256Values();
    BigEndianLength(n, 32);
    EncodeString(BigEndian(n))
  }

  function DecodeUint(width: nat, buf: Bytes): Parsed<nat> {
    match DecodeItem(false, buf)
    case Err(e) => Err(e)
    case Ok((digits, rest)) =>
      if |digits| > width then Err(Overflow)
      else if digits != [] && digits[0] == 0 then Err(LeadingZero)
      else Ok((FromBigEndian(digits), rest))
  }

  lemma DecodeEncodedUint(width: nat, n: nat, rest: Bytes)
    requires width <= 32 && n < Pow256(width) && n < U256_LIMIT
    ensures DecodeUint(width, EncodeUint(n) + rest) == Ok((n, rest))
  {
    BigEndianLength(n, width);
    DecodeEncodedItem(false, BigEndian(n), rest);
    FromBigEndianInverse(n);
  }

  lemma DecodedUintIsEncoded(width: nat, buf: Bytes)
    requires width <= 32 && DecodeUint(width, buf).Ok?
    ensures var (n, rest) := DecodeUint(width, buf).value;
            n < Pow256(width) && n < U256_LIMIT && buf == EncodeUint(n) + rest
  {
    DecodedItemIsEncoded(false, buf);
    var digits := DecodeItem(false, buf).value.0;
    FromBigEndianBound(digits);
    Pow256Monotone(|digits|, width);
    Pow256Monotone(width, 32);
    Pow256Values();
    BigEndianInverse(digits);
  }

  // --- Byte strings of a fixed length ---

  function DecodeFixed(length: nat, buf: Bytes): Parsed<Bytes> {
    match DecodeItem(false, buf)
    case Err(e) => Err(e)
    case Ok((s, rest)) => if |s| != length then Err(UnexpectedLength) else Ok((s, rest))
  }

  lemma DecodeEncodedFixed(s: Bytes, rest: Bytes)
    requires |s| < U64_LIMIT
    ensures DecodeFixed(|s|, EncodeString(s) + rest) == Ok((s, rest))
  {
    DecodeEncodedItem(false, s, rest);
  }

  lemma DecodedFixedIsEncoded(length: nat, buf: Bytes)
    requires DecodeFixed(length, buf).Ok?
    ensures var (s, rest) := DecodeFixed(length, buf).value;
            |s| == length && |s| < U64_LIMIT && buf == EncodeString(s) + rest
  {
    DecodedItemIsEncoded(false, buf);
  }
}
