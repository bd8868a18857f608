// The host's light client: one session per RPC endpoint, the most advanced result wins.
module ConsensusClient {
  import opened Base
  import opened LightClient
  import opened UpdateFetch
  import opened Replay

  // One endpoint's behaviour during one call: whether the call times out, what the endpoint
  // answers, and the successive readings of the expected current slot.
  datatype Session = Session(
    timedOut: bool,
    finalityUpdate: Result<FinalityUpdate, RpcError>,
    updates: GetUpdates,
    clock: Clock)

  datatype SyncTrace = SyncTrace(
    updates: seq<Update>,
    finalityUpdate: FinalityUpdate,
    finalStore: Store,
    lastCheckpoint: Option<B256>,
    expectedCurrentSlot: U64)

  // --- Single sessions ---

  function AdvanceOutcome(x: Crypto, net: Network, store: Store, s: Session): Result<Progress, RpcError> {
    if s.timedOut then Err("timed out")
    else
      var fu :- s.finalityUpdate;
      if !Validate(x, net, AsUpdate(fu), s.clock(0), store) then Err("invalid finality update")
      else
        var p := ApplyTracked(x, Progress(store, None), AsUpdate(fu));
        if p.store.nextSyncCommittee.Some? then Ok(p)
        else
          var updates :- s.updates(StorePeriod(p.store), 1);
          if |updates| == 1 && Validate(x, net, updates[0], s.clock(1), p.store)
          then Ok(ApplyTracked(x, p, updates[0]))
          else Ok(p)
  }

  // The session's readings of the clock as those of a fold, whose n-th update is read at clock(n).
  function Shifted(clock: Clock): Clock {
    (n: nat) => clock(if n == 0 then 0 else n - 1)
  }

  // The finality update is there and validates.
  predicate Answers(x: Crypto, net: Network, start: Store, s: Session) {
    && !s.timedOut && s.finalityUpdate.Ok?
    && Validate(x, net, AsUpdate(s.finalityUpdate.value), s.clock(0), start)
  }

  // What the endpoint says about the next committee once the finality update is applied.
  function CommitteeAnswer(start: Store, s: Session): Result<seq<Update>, RpcError>
    requires s.finalityUpdate.Ok?
  {
    s.updates(StorePeriod(Apply(start, AsUpdate(s.finalityUpdate.value))), 1)
  }

  // The next committee is missing after the finality update, and the one update answered validates.
  predicate TakesCommittee(x: Crypto, net: Network, start: Store, s: Session)
    requires s.finalityUpdate.Ok?
  {
    var after, answer := Apply(start, AsUpdate(s.finalityUpdate.value)), CommitteeAnswer(start, s);
    && after.nextSyncCommittee.None?
    && answer.Ok? && |answer.value| == 1 && Validate(x, net, answer.value[0], s.clock(1), after)
  }

  // An attempt fails exactly when the endpoint does not answer with a valid finality update, or a next
  // committee is missing and the query for it errors. A committee update that is invalid or not the only
  // one is ignored: the result is the accepted fold of the finality update alone, or of it and one more.
  method AdvanceSingleRpc(x: Crypto, net: Network, start: Store, s: Session)
    returns (result: Result<Progress, RpcError>)
    ensures result.Ok? <==>
              && Answers(x, net, start, s)
              && (Apply(start, AsUpdate(s.finalityUpdate.value)).nextSyncCommittee.None? ==>
                    CommitteeAnswer(start, s).Ok?)
    ensures result.Ok? ==>
              exists us: seq<Update> ::
                && 1 <= |us| <= 2 && us[0] == AsUpdate(s.finalityUpdate.value)
                && Fold(x, net, Shifted(s.clock), start, us, |us|) == Some(result.value)
                && (|us| == 2 ==> CommitteeAnswer(start, s) == Ok([us[1]]))
                && (|us| == 2 <==> TakesCommittee(x, net, start, s))
    ensures result.Ok? ==> Compare(result.value.store, start) != Less
    ensures result == AdvanceOutcome(x, net, start, s)
  {
    if s.timedOut {
      return Err("timed out");
    }
    if s.finalityUpdate.Err? {
      return Err(s.finalityUpdate.error);
    }
    var fu := AsUpdate(s.finalityUpdate.value);
    if !Validate(x, net, fu, s.clock(0), start) {
      return Err("invalid finality update");
    }
    var p := ApplyTracked(x, Progress(start, None), fu);
    if p.store.nextSyncCommittee.None? {
      var updates := s.updates(StorePeriod(p.store), 1);
      if updates.Err? {
        return Err(updates.error);
      }
      if |updates.value| == 1 {
        var update := updates.value[0];
        if Validate(x, net, update, s.clock(1), p.store) {
          p := ApplyTracked(x, p, update);
        }
      }
    }
    AdvanceIsFold(x, net, start, s);
    AdvanceOutcomeAdvances(x, net, start, s);
    return Ok(p);
  }

  lemma AdvanceIsFold(x: Crypto, net: Network, start: Store, s: Session)
    requires AdvanceOutcome(x, net, start, s).Ok?
    ensures exists us: seq<Update> ::
              && 1 <= |us| <= 2 && us[0] == AsUpdate(s.finalityUpdate.value)
              && Fold(x, net, Shifted(s.clock), start, us, |us|) == Some(AdvanceOutcome(x, net, start, s).value)
              && (|us| == 2 ==> CommitteeAnswer(start, s) == Ok([us[1]]))
              && (|us| == 2 <==> TakesCommittee(x, net, start, s))
  {
    hide Validate, Apply, Count;
    var fu, clock := AsUpdate(s.finalityUpdate.value), Shifted(s.clock);
    var p := ApplyTracked(x, Progress(start, None), fu);
    var us := [fu];
    FoldStep(x, net, clock, start, us, 0, Progress(start, None));
    if p.store.nextSyncCommittee.None? {
      var updates := s.updates(StorePeriod(p.store), 1).value;
      if |updates| == 1 && Validate(x, net, updates[0], s.clock(1), p.store) {
        us := [fu, updates[0]];
        FoldStep(x, net, clock, start, us, 0, Progress(start, None));
        FoldStep(x, net, clock, start, us, 1, p);
        assert updates == [us[1]];
      }
    }
  }

  function SyncOutcome(x: Crypto, net: Network, store: Store, s: Session): Result<SyncTrace, RpcError> {
    if s.timedOut then Err("timed out")
    else
      var updates :- FetchAll(s.updates, Plan(Period(s.clock(0)), StorePeriod(store)));
      if Fold(x, net, s.clock, store, updates, |updates|).None? then Err("invalid update")
      else
        var fu :- s.finalityUpdate;
        var p := FoldAll(x, net, s.clock, store, updates, fu);
        if p.None? then Err("invalid finality update")
        else Ok(SyncTrace(updates, fu, p.value.store, p.value.checkpoint, s.clock(0)))
  }

  // --- What a sync is ---

  // The queries of a sync run from the store's period through the period of the first clock reading.
  function SyncQueries(start: Store, s: Session): seq<Query> {
    Plan(Period(s.clock(0)), Period(start.finalizedHeader.beacon.slot))
  }

  // The endpoint answers every query and gives a finality update, and the updates followed by it chain
  // stores from the first one, each validated at the clock reading after it.
  ghost predicate Syncs(x: Crypto, net: Network, start: Store, s: Session) {
    && !s.timedOut && s.finalityUpdate.Ok?
    && exists updates ::
         && Fetched(s.updates, SyncQueries(start, s), updates)
         && CanChain(x, net, s.clock, start, Steps(updates, s.finalityUpdate.value))
  }

  // The trace holds what was fetched, the first clock reading, and the end of the chain.
  ghost predicate IsSyncOf(x: Crypto, net: Network, start: Store, s: Session, trace: SyncTrace) {
    && Fetched(s.updates, SyncQueries(start, s), trace.updates)
    && s.finalityUpdate == Ok(trace.finalityUpdate)
    && trace.expectedCurrentSlot == s.clock(0)
    && EndsIn(x, net, s.clock, start, Steps(trace.updates, trace.finalityUpdate), trace.finalStore,
              trace.lastCheckpoint)
  }

  ghost predicate EndsIn(
    x: Crypto, net: Network, clock: Clock, start: Store, steps: seq<Update>, store: Store, checkpoint: Option<B256>)
  {
    exists stores ::
      && Chained(x, net, clock, stores, steps) && stores[0] == start
      && store == stores[|stores| - 1] && LastReported(x, stores, steps, checkpoint)
  }

  lemma FoldAllEnds(x: Crypto, net: Network, clock: Clock, start: Store, updates: seq<Update>, fu: FinalityUpdate)
    ensures var steps, p := Steps(updates, fu), FoldAll(x, net, clock, start, updates, fu);
            && (p.Some? <==> CanChain(x, net, clock, start, steps))
            && (p.Some? ==>
                  && Fold(x, net, clock, start, updates, |updates|).Some?
                  && EndsIn(x, net, clock, start, steps, p.value.store, p.value.checkpoint))
  {
    hide Fold, LastReported, Validate, Apply;
    var steps := Steps(updates, fu);
    FoldAllIsFold(x, net, clock, start, updates, fu);
    FoldExactlyWhen(x, net, clock, start, steps);
    if FoldAll(x, net, clock, start, updates, fu).Some? {
      var stores := FoldIsChained(x, net, clock, start, steps, |steps|);
      assert steps[..|steps|] == steps;
    }
  }

  lemma SyncsExactlyWhen(x: Crypto, net: Network, start: Store, s: Session)
    ensures SyncOutcome(x, net, start, s).Ok? <==> Syncs(x, net, start, s)
    ensures SyncOutcome(x, net, start, s).Ok? ==> IsSyncOf(x, net, start, s, SyncOutcome(x, net, start, s).value)
  {
    hide Plan, Fetched, CanChain, Fold, FoldAll, EndsIn, FetchAll;
    forall updates
      ensures FetchAll(s.updates, SyncQueries(start, s)) == Ok(updates)
              <==> Fetched(s.updates, SyncQueries(start, s), updates)
    {
      FetchAllIsFetched(s.updates, SyncQueries(start, s), updates);
    }
    if s.finalityUpdate.Ok? && FetchAll(s.updates, SyncQueries(start, s)).Ok? {
      FoldAllEnds(x, net, s.clock, start, FetchAll(s.updates, SyncQueries(start, s)).value, s.finalityUpdate.value);
    }
  }

  // Over an ideal endpoint a sync has the updates of every period from the store's through that of the
  // first clock reading, as one query from the store's period would give them.
  lemma SyncFetchesFromTheStore(
    x: Crypto, net: Network, start: Store, s: Session, updateAt: nat -> Update, limit: nat)
    requires SyncOutcome(x, net, start, s).Ok? && IdealRpc(s.updates, updateAt, limit)
    requires StorePeriod(start) <= Period(s.clock(0))
    ensures var updates := SyncOutcome(x, net, start, s).value.updates;
            && (forall p: nat :: StorePeriod(start) <= p <= Period(s.clock(0)) && p < limit ==> updateAt(p) in updates)
            && exists count: nat ::
                 && s.updates(StorePeriod(start), count) == Ok(updates)
                 && StorePeriod(start) + count > Period(s.clock(0))
  {
    hide Fold, FoldAll, Plan, FetchAll, IdealRpc, EndOf, Range;
    var first, last := StorePeriod(start), Period(s.clock(0));
    PeriodFits(StoreSlot(start));
    PeriodFits(s.clock(0));
    hide Period;
    BatchedFetchRefinesOneQuery(s.updates, updateAt, limit, last, first);
    PlanCovers(last, first);
    var count: nat := EndOf(Plan(last, first), first) - first;
    assert s.updates(first, count) == Ok(SyncOutcome(x, net, start, s).value.updates);
  }

  lemma PeriodFits(slot: U64)
    ensures Period(slot) < U64_LIMIT
  {
  }

  method SyncToChainSingleRpc(x: Crypto, net: Network, start: Store, s: Session)
    returns (result: Result<SyncTrace, RpcError>)
    ensures result.Ok? <==> Syncs(x, net, start, s)
    ensures result.Ok? ==> IsSyncOf(x, net, start, s, result.value)
    ensures result == SyncOutcome(x, net, start, s)
  {
    hide Syncs, IsSyncOf;
    SyncsExactlyWhen(x, net, start, s);
    if s.timedOut {
      return Err("timed out");
    }
    var store, lastCheckpoint := start, None;
    var expectedCurrentSlot := s.clock(0);
    var fetched := GetUpdatesSingleRpc(expectedCurrentSlot, StoreSlot(store), s.updates);
    if fetched.Err? {
      return Err(fetched.error);
    }
    var updates := fetched.value;
    for i := 0 to |updates|
      invariant Fold(x, net, s.clock, start, updates, i) == Some(Progress(store, lastCheckpoint))
    {
      FoldStep(x, net, s.clock, start, updates, i, Progress(store, lastCheckpoint));
      if !Validate(x, net, updates[i], s.clock(i + 1), store) {
        RejectedForGood(x, net, s.clock, start, updates, i + 1);
        return Err("invalid update");
      }
      var p := ApplyTracked(x, Progress(store, lastCheckpoint), updates[i]);
      store, lastCheckpoint := p.store, p.checkpoint;
    }
    if s.finalityUpdate.Err? {
      return Err(s.finalityUpdate.error);
    }
    var fu := s.finalityUpdate.value;
    if !Validate(x, net, AsUpdate(fu), s.clock(|updates| + 1), store) {
      return Err("invalid finality update");
    }
    var p := ApplyTracked(x, Progress(store, lastCheckpoint), AsUpdate(fu));
    return Ok(SyncTrace(updates, fu, p.store, p.checkpoint, expectedCurrentSlot));
  }

  lemma RejectedForGood(x: Crypto, net: Network, clock: Clock, start: Store, updates: seq<Update>, n: nat)
    requires n <= |updates| && Fold(x, net, clock, start, updates, n).None?
    ensures Fold(x, net, clock, start, updates, |updates|).None?
  {
    if Fold(x, net, clock, start, updates, |updates|).Some? {
      FoldStops(x, net, clock, start, updates, n, |updates|);
    }
  }

  // A session's result is never behind the store it started from.
  lemma AdvanceOutcomeAdvances(x: Crypto, net: Network, store: Store, s: Session)
    requires AdvanceOutcome(x, net, store, s).Ok?
    ensures Compare(AdvanceOutcome(x, net, store, s).value.store, store) != Less
  {
    var fu := AsUpdate(s.finalityUpdate.value);
    var first := Apply(store, fu);
    ApplyAdvances(x, net, fu, s.clock(0), store);
    if first.nextSyncCommittee.None? {
      var updates := s.updates(StorePeriod(first), 1).value;
      if |updates| == 1 && Validate(x, net, updates[0], s.clock(1), first) {
        ApplyAdvances(x, net, updates[0], s.clock(1), first);
        CompareIsTotalPreorder(store, first, Apply(first, updates[0]));
        CompareIsTotalPreorder(first, store, first);
        CompareIsTotalPreorder(Apply(first, updates[0]), first, store);
        CompareIsTotalPreorder(Apply(first, updates[0]), store, first);
      }
    }
  }

  lemma SyncAdvances(x: Crypto, net: Network, store: Store, s: Session)
    requires SyncOutcome(x, net, store, s).Ok?
    ensures Compare(SyncOutcome(x, net, store, s).value.finalStore, store) != Less
  {
    var trace := SyncOutcome(x, net, store, s).value;
    FoldAllIsFold(x, net, s.clock, store, trace.updates, trace.finalityUpdate);
    var steps := Steps(trace.updates, trace.finalityUpdate);
    FoldAdvances(x, net, s.clock, store, steps, |steps|);
  }

  // --- Picking the most advanced result ---

  // The fold both advance and sync_to_chain use: a later result replaces the candidate only
  // when it is strictly more advanced.
  function Pick<T>(results: seq<Result<T, RpcError>>, storeOf: T -> Store): Option<T> {
    if results == [] then None
    else
      var best := Pick(results[..|results| - 1], storeOf);
      match results[|results| - 1]
      case Err(_) => best
      case Ok(t) =>
        if best.Some? && Compare(storeOf(t), storeOf(best.value)) != Greater then best else Some(t)
  }

  // Result k succeeded, is at least as advanced as every success and strictly more advanced than
  // every earlier one.
  ghost predicate FirstMaximal<T>(results: seq<Result<T, RpcError>>, storeOf: T -> Store, k: nat) {
    && k < |results| && results[k].Ok?
    && (forall j :: 0 <= j < |results| && results[j].Ok? ==>
          Compare(storeOf(results[j].value), storeOf(results[k].value)) != Greater)
    && (forall j :: 0 <= j < k && results[j].Ok? ==>
          Compare(storeOf(results[j].value), storeOf(results[k].value)) == Less)
  }

  lemma {:induction false} PickIsFirstMaximal<T>(results: seq<Result<T, RpcError>>, storeOf: T -> Store)
    ensures Pick(results, storeOf).None? <==> forall i :: 0 <= i < |results| ==> results[i].Err?
    ensures Pick(results, storeOf).Some? ==>
              exists k: nat :: FirstMaximal(results, storeOf, k) && results[k].value == Pick(results, storeOf).value
  {
    if results != [] {
      var n := |results| - 1;
      var init := results[..n];
      PickIsFirstMaximal(init, storeOf);
      var best := Pick(init, storeOf);
      if best.None? {
        if results[n].Ok? {
          assert forall j :: 0 <= j < n ==> init[j] == results[j];
          CompareIsTotalPreorder(storeOf(results[n].value), storeOf(results[n].value), storeOf(results[n].value));
          assert FirstMaximal(results, storeOf, n);
        }
      } else {
        var k: nat :| FirstMaximal(init, storeOf, k) && init[k].value == best.value;
        PickStep(results, storeOf, k);
      }
    }
  }

  lemma PickStep<T>(results: seq<Result<T, RpcError>>, storeOf: T -> Store, k: nat)
    requires results != [] && FirstMaximal(results[..|results| - 1], storeOf, k)
    ensures var n := |results| - 1;
            FirstMaximal(results, storeOf,
              if results[n].Ok? && Compare(storeOf(results[n].value), storeOf(results[k].value)) == Greater then n
              else k)
  {
    var n := |results| - 1;
    var init := results[..n];
    assert forall j :: 0 <= j < n ==> init[j] == results[j];
    if results[n].Ok? {
      var last, best := storeOf(results[n].value), storeOf(results[k].value);
      CompareIsTotalPreorder(last, last, last);
      forall j | 0 <= j < n && results[j].Ok?
        ensures Compare(last, best) == Greater ==> Compare(storeOf(results[j].value), last) == Less
      {
        assert Compare(storeOf(init[j].value), storeOf(init[k].value)) != Greater;
        CompareIsTotalPreorder(storeOf(results[j].value), best, last);
        CompareIsTotalPreorder(last, best, best);
      }
    }
  }

  function AdvanceOutcomes(x: Crypto, net: Network, store: Store, sessions: seq<Session>)
    : seq<Result<Progress, RpcError>>
  {
    seq(|sessions|, i requires 0 <= i < |sessions| => AdvanceOutcome(x, net, store, sessions[i]))
  }

  function SyncOutcomes(x: Crypto, net: Network, store: Store, sessions: seq<Session>)
    : seq<Result<SyncTrace, RpcError>>
  {
    seq(|sessions|, i requires 0 <= i < |sessions| => SyncOutcome(x, net, store, sessions[i]))
  }

  lemma BestAdvanceAdvances(x: Crypto, net: Network, store: Store, sessions: seq<Session>, storeOf: Progress -> Store)
    requires forall p: Progress :: storeOf(p) == p.store
    ensures var best := Pick(AdvanceOutcomes(x, net, store, sessions), storeOf);
            best.Some? ==> Compare(best.value.store, store) != Less
  {
    var results := AdvanceOutcomes(x, net, store, sessions);
    PickIsFirstMaximal(results, storeOf);
    if Pick(results, storeOf).Some? {
      var k: nat :| FirstMaximal(results, storeOf, k) && results[k].value == Pick(results, storeOf).value;
      AdvanceOutcomeAdvances(x, net, store, sessions[k]);
    }
  }

  lemma BestSyncAdvances(x: Crypto, net: Network, store: Store, sessions: seq<Session>, storeOf: SyncTrace -> Store)
    requires forall t: SyncTrace :: storeOf(t) == t.finalStore
    ensures var best := Pick(SyncOutcomes(x, net, store, sessions), storeOf);
            best.Some? ==> Compare(best.value.finalStore, store) != Less
  {
    var results := SyncOutcomes(x, net, store, sessions);
    PickIsFirstMaximal(results, storeOf);
    if Pick(results, storeOf).Some? {
      var k: nat :| FirstMaximal(results, storeOf, k) && results[k].value == Pick(results, storeOf).value;
      SyncAdvances(x, net, store, sessions[k]);
    }
  }

  // --- The client ---

  class Client {
    const crypto: Crypto
    const net: Network
    var store: Store
    var lastCheckpoint: Option<B256>

    constructor (crypto: Crypto, net: Network, store: Store)
      ensures this.crypto == crypto && this.net == net && this.store == store && lastCheckpoint == None
    {
      this.crypto := crypto;
      this.net := net;
      this.store := store;
      this.lastCheckpoint := None;
    }

    method ApplyStoreUpdate(newStore: Store, newCheckpoint: Option<B256>)
      modifies this
      ensures store == newStore
      ensures lastCheckpoint == if newCheckpoint.Some? then newCheckpoint else old(lastCheckpoint)
    {
      store := newStore;
      if newCheckpoint.Some? {
        lastCheckpoint := newCheckpoint;
      }
    }

    // Fails exactly when every endpoint failed, and then changes nothing; otherwise installs the
    // first maximal result, which is never behind the old store.
    method Advance(sessions: seq<Session>) returns (ok: bool)
      modifies this
      ensures ok <==> exists i :: 0 <= i < |sessions| && AdvanceOutcome(crypto, net, old(store), sessions[i]).Ok?
      ensures !ok ==> store == old(store) && lastCheckpoint == old(lastCheckpoint)
      ensures ok ==>
                var results := AdvanceOutcomes(crypto, net, old(store), sessions);
                exists k: nat :: FirstMaximal(results, (p: Progress) => p.store, k)
                  && store == results[k].value.store
                  && lastCheckpoint ==
                       if results[k].value.checkpoint.Some? then results[k].value.checkpoint else old(lastCheckpoint)
      ensures Compare(store, old(store)) != Less
    {
      hide AdvanceOutcome, Answers, CommitteeAnswer, Fold, Apply, Shifted, TakesCommittee;
      var start := store;
      ghost var results := AdvanceOutcomes(crypto, net, start, sessions);
      ghost var storeOf := (p: Progress) => p.store;
      var candidate: Option<Progress> := None;
      for i := 0 to |sessions|
        invariant store == start && lastCheckpoint == old(lastCheckpoint)
        invariant candidate == Pick(results[..i], storeOf)
      {
        assert results[..i + 1][..i] == results[..i];
        var result := AdvanceSingleRpc(crypto, net, start, sessions[i]);
        if result.Ok? {
          if candidate.None? || Compare(result.value.store, candidate.value.store) == Greater {
            candidate := Some(result.value);
          }
        }
      }
      assert results[..|sessions|] == results;
      PickIsFirstMaximal(results, storeOf);
      BestAdvanceAdvances(crypto, net, start, sessions, storeOf);
      CompareIsTotalPreorder(start, start, start);
      ok := candidate.Some?;
      if ok {
        ApplyStoreUpdate(candidate.value.store, candidate.value.checkpoint);
      }
      assert forall i :: 0 <= i < |sessions| ==> results[i] == AdvanceOutcome(crypto, net, start, sessions[i]);
    }

    // The same selection over complete syncs.
    method SyncToChain(sessions: seq<Session>) returns (trace: Option<SyncTrace>)
      modifies this
      ensures trace == Pick(SyncOutcomes(crypto, net, old(store), sessions), (t: SyncTrace) => t.finalStore)
      ensures trace.None? ==> store == old(store) && lastCheckpoint == old(lastCheckpoint)
      ensures trace.Some? ==>
                && store == trace.value.finalStore
                && lastCheckpoint ==
                     if trace.value.lastCheckpoint.Some? then trace.value.lastCheckpoint else old(lastCheckpoint)
      ensures Compare(store, old(store)) != Less
    {
      hide SyncOutcome, Syncs, IsSyncOf;
      var start := store;
      ghost var expected := SyncOutcomes(crypto, net, start, sessions);
      ghost var storeOf := (t: SyncTrace) => t.finalStore;
      trace := None;
      for i := 0 to |sessions|
        invariant store == start && lastCheckpoint == old(lastCheckpoint)
        invariant trace == Pick(expected[..i], storeOf)
      {
        assert expected[..i + 1][..i] == expected[..i];
        var result := SyncToChainSingleRpc(crypto, net, start, sessions[i]);
        if result.Ok? {
          if trace.None? || Compare(result.value.finalStore, trace.value.finalStore) == Greater {
            trace := Some(result.value);
          }
        }
      }
      assert expected[..|sessions|] == expected;
      BestSyncAdvances(crypto, net, start, sessions, storeOf);
      CompareIsTotalPreorder(start, start, start);
      if trace.Some? {
        ApplyStoreUpdate(trace.value.finalStore, trace.value.lastCheckpoint);
      }
    }
  }
}
