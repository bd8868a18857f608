// Fetching sync committee updates in batches of at most 128 periods.
module UpdateFetch {
  import opened Base
  import opened LightClient

  const MAX_REQUEST_LIGHT_CLIENT_UPDATES: nat := 128

  datatype Query = Query(start: nat, count: nat)

  type RpcError = string

  // One endpoint's answers to update queries.
  type GetUpdates = (nat, nat) -> Result<seq<Update>, RpcError>

  // Subtraction of u64 values in a build without overflow checks.
  function WrappingSub(a: U64, b: U64): U64 {
    if a >= b then a - b else U64_LIMIT + a - b
  }

  function Min(a: nat, b: nat): nat { if a <= b then a else b }

  function Batches(next: nat, end: nat): seq<Query>
    decreases end - next
  {
    if next >= end then []
    else
      var size := Min(end - next, MAX_REQUEST_LIGHT_CLIENT_UPDATES);
      [Query(next, size)] + Batches(next + size, end)
  }

  // The queries sent for the expected period and the store's period, in order.
  function Plan(expected: U64, start: U64): seq<Query> {
    if WrappingSub(expected, start) >= 128 then Tail(start, expected)
    else [Query(start, MAX_REQUEST_LIGHT_CLIENT_UPDATES)]
  }

  // What is left to send from period `next` on.
  function Tail(next: nat, end: nat): seq<Query> {
    Batches(next, end) + [Query(Max(next, end), MAX_REQUEST_LIGHT_CLIENT_UPDATES)]
  }

  function Prepend(updates: seq<Update>, r: Result<seq<Update>, RpcError>): Result<seq<Update>, RpcError> {
    if r.Ok? then Ok(updates + r.value) else r
  }

  // The concatenated answers, or the first error.
  function FetchAll(get: GetUpdates, queries: seq<Query>): Result<seq<Update>, RpcError> {
    if queries == [] then Ok([])
    else
      var answer :- get(queries[0].start, queries[0].count);
      Prepend(answer, FetchAll(get, queries[1..]))
  }

  method GetUpdatesSingleRpc(expectedCurrentSlot: U64, currentFinalizedSlot: U64, get: GetUpdates)
    returns (result: Result<seq<Update>, RpcError>)
    ensures result == FetchAll(get, Plan(Period(expectedCurrentSlot), Period(currentFinalizedSlot)))
  {
    var expected := Period(expectedCurrentSlot);
    var start := Period(currentFinalizedSlot);
    var next := start;
    var updates: seq<Update> := [];
    PrependNothing(FetchAll(get, Plan(expected, start)));
    if WrappingSub(expected, next) >= 128 {
      while next < expected
        invariant start <= next <= Max(start, expected)
        invariant FetchAll(get, Tail(start, expected)) == Prepend(updates, FetchAll(get, Tail(next, expected)))
      {
        var size := Min(expected - next, MAX_REQUEST_LIGHT_CLIENT_UPDATES);
        TailStep(next, expected);
        var answer := get(next, size);
        if answer.Err? {
          return Err(answer.error);
        }
        PrependTwice(updates, answer.value, FetchAll(get, Tail(next + size, expected)));
        updates := updates + answer.value;
        next := next + size;
      }
      assert Tail(next, expected) == [Query(next, MAX_REQUEST_LIGHT_CLIENT_UPDATES)];
    }
    LastQuery(get, updates, Query(next, MAX_REQUEST_LIGHT_CLIENT_UPDATES));
    var answer := get(next, MAX_REQUEST_LIGHT_CLIENT_UPDATES);
    if answer.Err? {
      return Err(answer.error);
    }
    return Ok(updates + answer.value);
  }

  lemma TailStep(next: nat, end: nat)
    requires next < end
    ensures var size := Min(end - next, MAX_REQUEST_LIGHT_CLIENT_UPDATES);
            Tail(next, end)[0] == Query(next, size) && Tail(next, end)[1..] == Tail(next + size, end)
  {
  }

  lemma PrependNothing(r: Result<seq<Update>, RpcError>)
    ensures Prepend([], r) == r
  {
    if r.Ok? {
      assert [] + r.value == r.value;
    }
  }

  lemma PrependTwice(a: seq<Update>, b: seq<Update>, r: Result<seq<Update>, RpcError>)
    ensures Prepend(a, Prepend(b, r)) == Prepend(a + b, r)
  {
    if r.Ok? {
      assert a + (b + r.value) == (a + b) + r.value;
    }
  }

  lemma LastQuery(get: GetUpdates, updates: seq<Update>, q: Query)
    ensures var answer := get(q.start, q.count);
            Prepend(updates, FetchAll(get, [q])) ==
              if answer.Ok? then Ok(updates + answer.value) else Err(answer.error)
    ensures FetchAll(get, [q]) == get(q.start, q.count)
  {
    var answer := get(q.start, q.count);
    if answer.Ok? {
      assert answer.value + [] == answer.value;
    }
  }

  // --- The plan covers what it should ---

  // Each query starts where the one before it ends.
  predicate Contiguous(queries: seq<Query>, start: nat) {
    queries == [] || (queries[0].start == start && Contiguous(queries[1..], start + queries[0].count))
  }

  function EndOf(queries: seq<Query>, start: nat): (end: nat)
    ensures end >= start
  {
    if queries == [] then start else EndOf(queries[1..], start + queries[0].count)
  }

  lemma {:induction false} TailCovers(next: nat, end: nat)
    requires next <= end
    ensures Contiguous(Tail(next, end), next)
    ensures EndOf(Tail(next, end), next) == end + MAX_REQUEST_LIGHT_CLIENT_UPDATES
    ensures forall q :: q in Tail(next, end) ==> 1 <= q.count <= 128 && q.start <= end
    decreases end - next
  {
    if next < end {
      var size := Min(end - next, MAX_REQUEST_LIGHT_CLIENT_UPDATES);
      TailStep(next, end);
      TailCovers(next + size, end);
      assert Tail(next, end) == [Query(next, size)] + Tail(next + size, end);
    } else {
      var only := Query(end, MAX_REQUEST_LIGHT_CLIENT_UPDATES);
      assert Tail(next, end) == [only];
      assert [only][1..] == [];
    }
  }

  // Ascending, contiguous ranges from the store's period through the expected period, each
  // count between 1 and 128 and so within a u8.
  lemma PlanCovers(expected: U64, start: U64)
    requires start <= expected
    ensures var plan := Plan(expected, start);
            && Contiguous(plan, start)
            && start <= expected < EndOf(plan, start)
            && (forall q :: q in plan ==> 1 <= q.count <= 128 && q.start <= expected)
  {
    if expected - start >= 128 {
      TailCovers(start, expected);
    } else {
      TailCovers(start, start);
      assert Tail(start, start) == Plan(expected, start);
    }
  }

  // When the store is ahead of the clock the subtraction wraps and no batch is sent: a single
  // query from the store's period remains.
  lemma PlanOfStoreAhead(expected: U64, start: U64)
    requires expected < start
    ensures Plan(expected, start) == [Query(start, MAX_REQUEST_LIGHT_CLIENT_UPDATES)]
  {
    assert Batches(start, expected) == [];
  }

  // --- Against an ideal endpoint, many queries are as good as one ---

  function Range(updateAt: nat -> Update, lo: nat, hi: nat): seq<Update>
    decreases hi - lo
  {
    if lo >= hi then [] else [updateAt(lo)] + Range(updateAt, lo + 1, hi)
  }

  lemma {:induction false} RangeSplits(updateAt: nat -> Update, lo: nat, mid: nat, hi: nat)
    requires lo <= mid
    ensures Range(updateAt, lo, Min(mid, hi)) + Range(updateAt, mid, hi) == Range(updateAt, lo, Max(Min(mid, hi), hi))
    decreases mid - lo
  {
    if lo < mid && lo < hi {
      RangeSplits(updateAt, lo + 1, mid, hi);
      var a, b := Range(updateAt, lo + 1, Min(mid, hi)), Range(updateAt, mid, hi);
      assert ([updateAt(lo)] + a) + b == [updateAt(lo)] + (a + b);
    }
  }

  lemma {:induction false} RangeContains(updateAt: nat -> Update, lo: nat, hi: nat, p: nat)
    requires lo <= p < hi
    ensures updateAt(p) in Range(updateAt, lo, hi)
    decreases p - lo
  {
    if lo < p {
      RangeContains(updateAt, lo + 1, hi, p);
    }
  }

  // Answers with the updates of all requested periods before `limit`.
  ghost predicate IdealRpc(get: GetUpdates, updateAt: nat -> Update, limit: nat) {
    forall start: nat, count: nat :: get(start, count) == Ok(Range(updateAt, start, Min(start + count, limit)))
  }

  lemma {:induction false} FetchIsOneQuery(
    get: GetUpdates, updateAt: nat -> Update, limit: nat, queries: seq<Query>, start: nat)
    requires IdealRpc(get, updateAt, limit) && Contiguous(queries, start)
    ensures FetchAll(get, queries) == Ok(Range(updateAt, start, Min(EndOf(queries, start), limit)))
  {
    if queries != [] {
      var mid := start + queries[0].count;
      FetchIsOneQuery(get, updateAt, limit, queries[1..], mid);
      RangeSplits(updateAt, start, mid, Min(EndOf(queries, start), limit));
    }
  }

  // The batched fetch returns what one query of the whole range would.
  lemma BatchedFetchRefinesOneQuery(
    get: GetUpdates, updateAt: nat -> Update, limit: nat, expected: U64, start: U64)
    requires IdealRpc(get, updateAt, limit) && start <= expected
    ensures FetchAll(get, Plan(expected, start)) == get(start, EndOf(Plan(expected, start), start) - start)
    ensures forall p: nat :: start <= p <= expected && p < limit ==>
              updateAt(p) in FetchAll(get, Plan(expected, start)).value
  {
    var plan := Plan(expected, start);
    PlanCovers(expected, start);
    FetchIsOneQuery(get, updateAt, limit, plan, start);
    forall p: nat | start <= p <= expected && p < limit
      ensures updateAt(p) in FetchAll(get, plan).value
    {
      RangeContains(updateAt, start, Min(EndOf(plan, start), limit), p);
    }
  }

  // --- What the fetch returns, whatever the endpoint answers ---

  function Concat(parts: seq<seq<Update>>): seq<Update> {
    if parts == [] then [] else Concat(parts[..|parts| - 1]) + parts[|parts| - 1]
  }

  lemma {:induction false} ConcatFirst(parts: seq<seq<Update>>)
    requires parts != []
    ensures Concat(parts) == parts[0] + Concat(parts[1..])
  {
    var n := |parts| - 1;
    if n > 0 {
      ConcatFirst(parts[..n]);
      assert parts[..n][1..] == parts[1..][..n - 1];
      assert parts[0] + Concat(parts[1..][..n - 1]) + parts[n] == parts[0] + (Concat(parts[1..][..n - 1]) + parts[n]);
    } else {
      assert parts[1..] == [] && parts[..0] == [];
      assert [] + parts[0] == parts[0] + [];
    }
  }

  // The answers to the first n queries were successes.
  ghost predicate Answered(get: GetUpdates, queries: seq<Query>, n: nat)
    requires n <= |queries|
  {
    forall k :: 0 <= k < n ==> get(queries[k].start, queries[k].count).Ok?
  }

  // A success is the concatenation of every answer in order; a failure is the first one.
  lemma {:induction false} FetchAllExact(get: GetUpdates, queries: seq<Query>)
    ensures FetchAll(get, queries).Ok? <==> Answered(get, queries, |queries|)
    ensures FetchAll(get, queries).Ok? ==>
              exists parts: seq<seq<Update>> ::
                && |parts| == |queries| && FetchAll(get, queries).value == Concat(parts)
                && forall k :: 0 <= k < |parts| ==> get(queries[k].start, queries[k].count) == Ok(parts[k])
    ensures FetchAll(get, queries).Err? ==>
              exists k :: 0 <= k < |queries| && Answered(get, queries, k)
                          && get(queries[k].start, queries[k].count) == Err(FetchAll(get, queries).error)
  {
    if queries == [] {
      var parts: seq<seq<Update>> := [];
      assert FetchAll(get, queries).value == Concat(parts);
    } else {
      var first, rest := get(queries[0].start, queries[0].count), queries[1..];
      FetchAllExact(get, rest);
      assert forall k :: 1 <= k < |queries| ==> queries[k] == rest[k - 1];
      if FetchAll(get, queries).Ok? {
        var parts: seq<seq<Update>> :|
          && |parts| == |rest| && FetchAll(get, rest).value == Concat(parts)
          && forall k :: 0 <= k < |parts| ==> get(rest[k].start, rest[k].count) == Ok(parts[k]);
        var all := [first.value] + parts;
        ConcatFirst(all);
        assert all[1..] == parts;
        assert forall k :: 0 <= k < |all| ==> get(queries[k].start, queries[k].count) == Ok(all[k]);
      } else if first.Err? {
        assert Answered(get, queries, 0);
      } else {
        var k :| 0 <= k < |rest| && Answered(get, rest, k)
                 && get(rest[k].start, rest[k].count) == Err(FetchAll(get, rest).error);
        assert Answered(get, queries, k + 1);
        assert queries[k + 1] == rest[k];
      }
    }
  }

  // Every query is answered, and the answers in order make these updates.
  ghost predicate Fetched(get: GetUpdates, queries: seq<Query>, updates: seq<Update>) {
    exists parts: seq<seq<Update>> ::
      && |parts| == |queries| && updates == Concat(parts)
      && forall k :: 0 <= k < |parts| ==> get(queries[k].start, queries[k].count) == Ok(parts[k])
  }

  lemma FetchAllIsFetched(get: GetUpdates, queries: seq<Query>, updates: seq<Update>)
    ensures FetchAll(get, queries) == Ok(updates) <==> Fetched(get, queries, updates)
  {
    FetchAllExact(get, queries);
    if parts: seq<seq<Update>> :|
      && |parts| == |queries| && updates == Concat(parts)
      && forall k :: 0 <= k < |parts| ==> get(queries[k].start, queries[k].count) == Ok(parts[k])
    {
      assert Answered(get, queries, |queries|);
      var others: seq<seq<Update>> :|
        && |others| == |queries| && FetchAll(get, queries).value == Concat(others)
        && forall k :: 0 <= k < |others| ==> get(queries[k].start, queries[k].count) == Ok(others[k]);
      assert forall k :: 0 <= k < |parts| ==> parts[k] == others[k];
      assert parts == others;
    }
  }

  // --- How many queries are sent ---

  lemma {:induction false} BatchesCount(next: nat, end: nat)
    ensures |Batches(next, end)| == if next >= end then 0 else (end - next + 127) / 128
    ensures forall k :: 0 <= k < |Batches(next, end)| - 1 ==> Batches(next, end)[k].count == 128
    decreases end - next
  {
    if next < end {
      var size := Min(end - next, MAX_REQUEST_LIGHT_CLIENT_UPDATES);
      BatchesCount(next + size, end);
    }
  }

  // One query for fewer than 128 periods; otherwise as few full batches as cover the range up to the
  // expected period, and one more query for what follows.
  lemma PlanIsShort(expected: U64, start: U64)
    requires start <= expected
    ensures var plan := Plan(expected, start);
            && |plan| == (if expected - start < 128 then 1 else (expected - start + 127) / 128 + 1)
            && plan[|plan| - 1].count == 128
            && forall k :: 0 <= k < |plan| - 2 ==> plan[k].count == 128
  {
    BatchesCount(start, expected);
  }
}
