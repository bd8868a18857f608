// The formatted Redis keys: the four families never collide, and a scan for record keys
// meets no lock key and exactly one key that is not a record, the header key.
module Keys {
  import opened Base
  import opened Primitives

  function HexDigit(n: int): char
    requires 0 <= n < 16
  {
    if n < 10 then '0' + n as char else 'a' + (n - 10) as char
  }

  // Two lowercase digits a byte.
  function ToHex(bytes: seq<Byte>): string {
    if bytes == [] then "" else [HexDigit(bytes[0] / 16), HexDigit(bytes[0] % 16)] + ToHex(bytes[1..])
  }

  const STATE_INFIX: string := ":state:"
  const LOCK_INFIX: string := ":lock:"

  function StateKey(prefix: string, id: ProofId): string {
    prefix + STATE_INFIX + ToHex(id.hash)
  }

  function HeaderKey(prefix: string): string {
    prefix + STATE_INFIX + "finalized_header"
  }

  function GlobalLockKey(prefix: string): string {
    prefix + ":lock"
  }

  function GenLockKey(prefix: string, id: ProofId): string {
    prefix + LOCK_INFIX + ToHex(id.hash)
  }

  // MATCH "{prefix}:state:*", for a prefix without glob characters.
  predicate MatchesStatePattern(prefix: string, key: string) {
    prefix + STATE_INFIX <= key
  }

  lemma {:induction false} HexLength(bytes: seq<Byte>)
    ensures |ToHex(bytes)| == 2 * |bytes|
  {
    if bytes != [] {
      HexLength(bytes[1..]);
    }
  }

  lemma {:induction false} HexInjective(a: seq<Byte>, b: seq<Byte>)
    requires ToHex(a) == ToHex(b)
    ensures a == b
  {
    HexLength(a);
    HexLength(b);
    if a != [] {
      var s, t := ToHex(a), ToHex(b);
      assert s[0] == t[0] && s[1] == t[1];
      assert HexDigit(a[0] / 16) == HexDigit(b[0] / 16) && HexDigit(a[0] % 16) == HexDigit(b[0] % 16);
      assert s[2..] == ToHex(a[1..]) && t[2..] == ToHex(b[1..]);
      HexInjective(a[1..], b[1..]);
    }
  }

  lemma SamePrefix(p: string, a: string, b: string)
    requires p + a == p + b
    ensures a == b
  {
    assert (p + a)[|p|..] == a;
    assert (p + b)[|p|..] == b;
  }

  // Distinct ids have distinct record keys and distinct lock keys.
  lemma KeysIdentifyIds(prefix: string, id: ProofId, other: ProofId)
    ensures StateKey(prefix, id) == StateKey(prefix, other) <==> id == other
    ensures GenLockKey(prefix, id) == GenLockKey(prefix, other) <==> id == other
  {
    if StateKey(prefix, id) == StateKey(prefix, other) {
      SamePrefix(prefix + STATE_INFIX, ToHex(id.hash), ToHex(other.hash));
      HexInjective(id.hash, other.hash);
    }
    if GenLockKey(prefix, id) == GenLockKey(prefix, other) {
      SamePrefix(prefix + LOCK_INFIX, ToHex(id.hash), ToHex(other.hash));
      HexInjective(id.hash, other.hash);
    }
  }

  // No key serves two purposes, and the record pattern separates records from locks.
  lemma FamiliesAreDisjoint(prefix: string, id: ProofId, other: ProofId)
    ensures StateKey(prefix, id) != HeaderKey(prefix)
    ensures GlobalLockKey(prefix) != GenLockKey(prefix, id)
    ensures MatchesStatePattern(prefix, StateKey(prefix, id)) && MatchesStatePattern(prefix, HeaderKey(prefix))
    ensures !MatchesStatePattern(prefix, GlobalLockKey(prefix))
    ensures !MatchesStatePattern(prefix, GenLockKey(prefix, other))
  {
    HexLength(id.hash);
    HexLength(other.hash);
    var lock := GenLockKey(prefix, other);
    assert lock[|prefix| + 1] == 'l';
    assert (prefix + STATE_INFIX)[|prefix| + 1] == 's';
  }

  // --- What the keys look like ---

  const DIGITS: string := "0123456789abcdef"

  // Two lowercase digits a byte, the high one first.
  lemma {:induction false} HexIsRead(bytes: seq<Byte>, i: nat)
    requires i < |bytes|
    ensures |ToHex(bytes)| == 2 * |bytes|
    ensures ToHex(bytes)[2 * i] == DIGITS[bytes[i] / 16] && ToHex(bytes)[2 * i + 1] == DIGITS[bytes[i] % 16]
  {
    HexLength(bytes);
    if i > 0 {
      HexIsRead(bytes[1..], i - 1);
      assert ToHex(bytes)[2 * i] == ToHex(bytes[1..])[2 * (i - 1)];
      assert ToHex(bytes)[2 * i + 1] == ToHex(bytes[1..])[2 * (i - 1) + 1];
    } else {
      DigitsAre(bytes[0] / 16);
      DigitsAre(bytes[0] % 16);
    }
  }

  lemma DigitsAre(n: int)
    requires 0 <= n < 16
    ensures HexDigit(n) == DIGITS[n]
  {
  }

  // For the prefix "p".
  lemma KeysOfAnExample(id: ProofId)
    ensures HeaderKey("p") == "p:state:finalized_header" && GlobalLockKey("p") == "p:lock"
    ensures StateKey("p", id) == "p:state:" + ToHex(id.hash) && GenLockKey("p", id) == "p:lock:" + ToHex(id.hash)
    ensures ToHex([0xA9, 0x0F]) == "a90f"
  {
    hide ToHex;
    TwoBytes();
  }

  lemma TwoBytes()
    ensures ToHex([0xA9, 0x0F]) == "a90f"
  {
    var bytes := [0xA9, 0x0F];
    HexIsRead(bytes, 0);
    HexIsRead(bytes, 1);
  }
}
