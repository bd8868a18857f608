// Folding a list of updates and one finality update into a store. The host and the guest run
// the same fold; they differ only in the clock they validate against.
module Replay {
  import opened Base
  import opened LightClient

  // clock(i) is the i-th reading of the expected current slot.
  type Clock = nat -> U64

  datatype Progress = Progress(store: Store, checkpoint: Option<B256>)

  function FixedClock(slot: U64): Clock {
    (_: nat) => slot
  }

  function ApplyTracked(x: Crypto, p: Progress, u: Update): Progress {
    var reported := x.checkpoint(p.store, u);
    Progress(Apply(p.store, u), if reported.Some? then reported else p.checkpoint)
  }

  // The progress after the first n updates, or None when one of them is rejected.
  function Fold(x: Crypto, net: Network, clock: Clock, start: Store, updates: seq<Update>, n: nat): Option<Progress>
    requires n <= |updates|
  {
    if n == 0 then Some(Progress(start, None))
    else
      var before := Fold(x, net, clock, start, updates, n - 1);
      if before.None? || !Validate(x, net, updates[n - 1], clock(n), before.value.store) then None
      else Some(ApplyTracked(x, before.value, updates[n - 1]))
  }

  function FoldAll(x: Crypto, net: Network, clock: Clock, start: Store, updates: seq<Update>, fu: FinalityUpdate)
    : Option<Progress>
  {
    var before := Fold(x, net, clock, start, updates, |updates|);
    if before.None? || !Validate(x, net, AsUpdate(fu), clock(|updates| + 1), before.value.store) then None
    else Some(ApplyTracked(x, before.value, AsUpdate(fu)))
  }

  // The updates of a sync as one list, the finality update last.
  function Steps(updates: seq<Update>, fu: FinalityUpdate): seq<Update> {
    updates + [AsUpdate(fu)]
  }

  lemma {:induction false} FoldPrefix(
    x: Crypto, net: Network, clock: Clock, start: Store, a: seq<Update>, b: seq<Update>, n: nat)
    requires n <= |a| && n <= |b| && a[..n] == b[..n]
    ensures Fold(x, net, clock, start, a, n) == Fold(x, net, clock, start, b, n)
  {
    hide Validate, Apply;
    if n > 0 {
      assert a[..n][..n - 1] == a[..n - 1] && b[..n][..n - 1] == b[..n - 1];
      assert a[n - 1] == a[..n][n - 1] == b[n - 1];
      FoldPrefix(x, net, clock, start, a, b, n - 1);
    }
  }

  lemma FoldAllIsFold(x: Crypto, net: Network, clock: Clock, start: Store, updates: seq<Update>, fu: FinalityUpdate)
    ensures var steps := Steps(updates, fu);
            FoldAll(x, net, clock, start, updates, fu) == Fold(x, net, clock, start, steps, |steps|)
  {
    var steps := Steps(updates, fu);
    assert steps[..|updates|] == updates[..|updates|];
    FoldPrefix(x, net, clock, start, updates, steps, |updates|);
  }

  lemma {:induction false} FoldStops(
    x: Crypto, net: Network, clock: Clock, start: Store, updates: seq<Update>, m: nat, n: nat)
    requires m <= n <= |updates| && Fold(x, net, clock, start, updates, n).Some?
    ensures Fold(x, net, clock, start, updates, m).Some?
    decreases n
  {
    if m < n {
      FoldStops(x, net, clock, start, updates, m, n - 1);
    }
  }

  lemma FoldNothing(x: Crypto, net: Network, clock: Clock, start: Store, updates: seq<Update>)
    ensures Fold(x, net, clock, start, updates, 0) == Some(Progress(start, None))
  {
  }

  lemma FoldStep(x: Crypto, net: Network, clock: Clock, start: Store, updates: seq<Update>, n: nat, p: Progress)
    requires n < |updates| && Fold(x, net, clock, start, updates, n) == Some(p)
    ensures Fold(x, net, clock, start, updates, n + 1) ==
              if Validate(x, net, updates[n], clock(n + 1), p.store) then Some(ApplyTracked(x, p, updates[n])) else None
  {
  }

  // --- Whole sequences keep what single updates keep ---

  // The store never moves backwards.
  lemma {:induction false} FoldAdvances(
    x: Crypto, net: Network, clock: Clock, start: Store, updates: seq<Update>, n: nat)
    requires n <= |updates| && Fold(x, net, clock, start, updates, n).Some?
    ensures Compare(Fold(x, net, clock, start, updates, n).value.store, start) != Less
  {
    hide Fold, Validate, Apply;
    FoldNothing(x, net, clock, start, updates);
    if n > 0 {
      FoldStops(x, net, clock, start, updates, n - 1, n);
      FoldAdvances(x, net, clock, start, updates, n - 1);
      FoldStep(x, net, clock, start, updates, n - 1, Fold(x, net, clock, start, updates, n - 1).value);
      var before := Fold(x, net, clock, start, updates, n - 1).value.store;
      ApplyAdvances(x, net, updates[n - 1], clock(n), before);
      CompareIsTotalPreorder(Apply(before, updates[n - 1]), before, start);
      CompareIsTotalPreorder(start, before, Apply(before, updates[n - 1]));
    }
  }

  // Committee bookkeeping over any accepted sequence: if every committee update carries the true
  // committee of the period after its attested header, the store's committees are always the true
  // ones, and no step skips a period.
  lemma {:induction false} FoldKeepsTruth(
    x: Crypto, net: Network, clock: Clock, start: Store, updates: seq<Update>, n: nat, truth: Committees)
    requires n <= |updates| && Fold(x, net, clock, start, updates, n).Some?
    requires TruthfulStore(truth, start) && forall i :: 0 <= i < n ==> TruthfulUpdate(truth, updates[i])
    ensures TruthfulStore(truth, Fold(x, net, clock, start, updates, n).value.store)
    ensures n > 0 ==>
              var before := Fold(x, net, clock, start, updates, n - 1);
              var after := Fold(x, net, clock, start, updates, n);
              before.Some? &&
              StorePeriod(before.value.store) <= StorePeriod(after.value.store) <= StorePeriod(before.value.store) + 1
  {
    hide Fold, Validate, Apply, TruthfulStore, TruthfulUpdate, StorePeriod;
    FoldNothing(x, net, clock, start, updates);
    if n > 0 {
      FoldStops(x, net, clock, start, updates, n - 1, n);
      FoldKeepsTruth(x, net, clock, start, updates, n - 1, truth);
      var before := Fold(x, net, clock, start, updates, n - 1).value;
      FoldStep(x, net, clock, start, updates, n - 1, before);
      TruthIsKept(x, net, truth, updates[n - 1], clock(n), before.store);
    }
  }

  // --- Replaying against another clock ---

  predicate SignedBy(updates: seq<Update>, n: nat, slot: nat)
    requires n <= |updates|
  {
    forall i :: 0 <= i < n ==> updates[i].signatureSlot <= slot
  }

  // A sequence accepted under one clock is accepted at a fixed slot exactly when no signature is
  // newer than that slot, and then it ends in the same store.
  lemma {:induction false} ReplayAccepts(
    x: Crypto, net: Network, clock: Clock, start: Store, updates: seq<Update>, n: nat, slot: U64)
    requires n <= |updates| && Fold(x, net, clock, start, updates, n).Some?
    ensures Fold(x, net, FixedClock(slot), start, updates, n) ==
              if SignedBy(updates, n, slot) then Fold(x, net, clock, start, updates, n) else None
  {
    hide Validate, Apply;
    if n > 0 {
      ReplayAccepts(x, net, clock, start, updates, n - 1, slot);
      var before := Fold(x, net, clock, start, updates, n - 1).value;
      FoldStep(x, net, clock, start, updates, n - 1, before);
      if SignedBy(updates, n - 1, slot) {
        FoldStep(x, net, FixedClock(slot), start, updates, n - 1, before);
      }
      ValidateAtSlot(x, net, updates[n - 1], clock(n), before.store, slot);
      assert SignedBy(updates, n, slot) <==> SignedBy(updates, n - 1, slot) && updates[n - 1].signatureSlot <= slot;
    }
  }

  // --- Where the final headers and committees come from ---

  predicate Carries(u: Update, header: LightClientHeader) {
    u.finalizedHeader == header
  }

  predicate CarriesCommittee(u: Update, committee: SyncCommittee) {
    IsCommitteeUpdate(u) && u.nextSyncCommittee == committee
  }

  // The finalized header is the initial one or was carried by an update; a next committee was
  // carried by an update unless the initial store had it.
  lemma {:induction false} FoldProvenance(
    x: Crypto, net: Network, clock: Clock, start: Store, updates: seq<Update>, n: nat)
    requires n <= |updates| && Fold(x, net, clock, start, updates, n).Some?
    requires start.nextSyncCommittee.None?
    ensures var final := Fold(x, net, clock, start, updates, n).value.store;
            && (final.finalizedHeader == start.finalizedHeader
                || exists i :: 0 <= i < n && Carries(updates[i], final.finalizedHeader))
            && (final.nextSyncCommittee.Some? ==>
                  exists i :: 0 <= i < n && CarriesCommittee(updates[i], final.nextSyncCommittee.value))
  {
    if n > 0 {
      FoldProvenance(x, net, clock, start, updates, n - 1);
      var before := Fold(x, net, clock, start, updates, n - 1).value.store;
      var final := Fold(x, net, clock, start, updates, n).value.store;
      var u := updates[n - 1];
      StepProvenance(before, u);
      if final.finalizedHeader != before.finalizedHeader {
        assert Carries(updates[n - 1], final.finalizedHeader);
      }
      if final.nextSyncCommittee.Some? && final.nextSyncCommittee != before.nextSyncCommittee {
        assert CarriesCommittee(updates[n - 1], final.nextSyncCommittee.value);
      }
    }
  }

  lemma StepProvenance(store: Store, u: Update)
    ensures var final := Apply(store, u);
            && (final.finalizedHeader == store.finalizedHeader || Carries(u, final.finalizedHeader))
            && (final.nextSyncCommittee.Some? && final.nextSyncCommittee != store.nextSyncCommittee ==>
                  CarriesCommittee(u, final.nextSyncCommittee.value))
  {
  }

  // --- The fold as a chain of stores ---

  // Each update validates against the store before it and makes the store after it.
  ghost predicate Chained(x: Crypto, net: Network, clock: Clock, stores: seq<Store>, updates: seq<Update>) {
    && |stores| == |updates| + 1
    && forall k {:trigger updates[k]} :: 0 <= k < |updates| ==>
         Validate(x, net, updates[k], clock(k + 1), stores[k]) && stores[k + 1] == Apply(stores[k], updates[k])
  }

  // The last checkpoint that applying reported, if any did.
  ghost predicate LastReported(x: Crypto, stores: seq<Store>, updates: seq<Update>, checkpoint: Option<B256>)
    requires |stores| == |updates| + 1
  {
    if checkpoint.None? then forall k :: 0 <= k < |updates| ==> x.checkpoint(stores[k], updates[k]).None?
    else exists k :: 0 <= k < |updates| && x.checkpoint(stores[k], updates[k]) == checkpoint
                     && forall j :: k < j < |updates| ==> x.checkpoint(stores[j], updates[j]).None?
  }

  lemma ChainedMore(x: Crypto, net: Network, clock: Clock, stores: seq<Store>, updates: seq<Update>, u: Update)
    requires Chained(x, net, clock, stores, updates)
    requires Validate(x, net, u, clock(|updates| + 1), stores[|updates|])
    ensures Chained(x, net, clock, stores + [Apply(stores[|updates|], u)], updates + [u])
  {
    hide Validate, Apply;
    var all, more := updates + [u], stores + [Apply(stores[|updates|], u)];
    forall k {:trigger all[k]} | 0 <= k < |all|
      ensures Validate(x, net, all[k], clock(k + 1), more[k]) && more[k + 1] == Apply(more[k], all[k])
    {
      if k < |updates| {
        assert all[k] == updates[k];
      }
    }
  }

  lemma ChainedLess(x: Crypto, net: Network, clock: Clock, stores: seq<Store>, updates: seq<Update>)
    requires Chained(x, net, clock, stores, updates) && updates != []
    ensures var n := |updates| - 1;
            && Chained(x, net, clock, stores[..n + 1], updates[..n])
            && Validate(x, net, updates[n], clock(n + 1), stores[n]) && stores[n + 1] == Apply(stores[n], updates[n])
  {
    hide Validate, Apply;
    var n := |updates| - 1;
    assert updates[n] == updates[n];
    forall k {:trigger updates[..n][k]} | 0 <= k < n
      ensures Validate(x, net, updates[..n][k], clock(k + 1), stores[..n + 1][k])
      ensures stores[..n + 1][k + 1] == Apply(stores[..n + 1][k], updates[..n][k])
    {
      assert updates[..n][k] == updates[k];
    }
  }

  // A chain determines the fold.
  lemma {:induction false} ChainIsFold(
    x: Crypto, net: Network, clock: Clock, stores: seq<Store>, updates: seq<Update>)
    requires Chained(x, net, clock, stores, updates)
    ensures Fold(x, net, clock, stores[0], updates, |updates|).Some?
    ensures var p := Fold(x, net, clock, stores[0], updates, |updates|).value;
            p.store == stores[|updates|] && LastReported(x, stores, updates, p.checkpoint)
  {
    hide Validate, Apply, Chained;
    if updates == [] {
      ChainedShape(x, net, clock, stores, updates);
    } else {
      var n := |updates| - 1;
      ChainedShape(x, net, clock, stores, updates);
      ChainedLess(x, net, clock, stores, updates);
      ChainIsFold(x, net, clock, stores[..n + 1], updates[..n]);
      FoldPrefix(x, net, clock, stores[0], updates[..n], updates, n);
      var p := Fold(x, net, clock, stores[0], updates, n).value;
      FoldStep(x, net, clock, stores[0], updates, n, p);
      ReportedMore(x, stores, updates, p.checkpoint);
    }
  }

  lemma ChainedShape(x: Crypto, net: Network, clock: Clock, stores: seq<Store>, updates: seq<Update>)
    requires Chained(x, net, clock, stores, updates)
    ensures |stores| == |updates| + 1
  {
  }

  lemma ReportedMore(x: Crypto, stores: seq<Store>, updates: seq<Update>, checkpoint: Option<B256>)
    requires |stores| == |updates| + 1 && updates != []
    requires var n := |updates| - 1; LastReported(x, stores[..n + 1], updates[..n], checkpoint)
    ensures var n := |updates| - 1;
            var reported := x.checkpoint(stores[n], updates[n]);
            LastReported(x, stores, updates, if reported.Some? then reported else checkpoint)
  {
    var n := |updates| - 1;
    if x.checkpoint(stores[n], updates[n]).None? {
      if checkpoint.Some? {
        var k :| 0 <= k < n && x.checkpoint(stores[..n + 1][k], updates[..n][k]) == checkpoint
                 && forall j :: k < j < n ==> x.checkpoint(stores[..n + 1][j], updates[..n][j]).None?;
        forall j | k < j < |updates|
          ensures x.checkpoint(stores[j], updates[j]).None?
        {
          if j < n {
            assert x.checkpoint(stores[..n + 1][j], updates[..n][j]).None?;
          }
        }
        assert x.checkpoint(stores[k], updates[k]) == checkpoint;
      } else {
        forall k | 0 <= k < |updates|
          ensures x.checkpoint(stores[k], updates[k]).None?
        {
          if k < n {
            assert x.checkpoint(stores[..n + 1][k], updates[..n][k]).None?;
          }
        }
      }
    }
  }

  // A fold that accepts is a chain.
  lemma {:induction false} FoldIsChained(
    x: Crypto, net: Network, clock: Clock, start: Store, updates: seq<Update>, n: nat)
    returns (stores: seq<Store>)
    requires n <= |updates| && Fold(x, net, clock, start, updates, n).Some?
    ensures Chained(x, net, clock, stores, updates[..n]) && stores[0] == start
  {
    hide Validate, Apply;
    if n == 0 {
      stores := [start];
    } else {
      stores := FoldIsChained(x, net, clock, start, updates, n - 1);
      var p := Fold(x, net, clock, start, updates, n - 1).value;
      FoldStep(x, net, clock, start, updates, n - 1, p);
      ChainIsFold(x, net, clock, stores, updates[..n - 1]);
      FoldPrefix(x, net, clock, start, updates[..n - 1], updates, n - 1);
      ChainedMore(x, net, clock, stores, updates[..n - 1], updates[n - 1]);
      stores := stores + [Apply(stores[n - 1], updates[n - 1])];
      assert updates[..n] == updates[..n - 1] + [updates[n - 1]];
    }
  }

  ghost predicate CanChain(x: Crypto, net: Network, clock: Clock, start: Store, updates: seq<Update>) {
    exists stores :: Chained(x, net, clock, stores, updates) && stores[0] == start
  }

  // A sequence is accepted exactly when its updates chain stores from the first one; the result is the last
  // store and the last checkpoint reported.
  lemma FoldExactlyWhen(x: Crypto, net: Network, clock: Clock, start: Store, updates: seq<Update>)
    ensures Fold(x, net, clock, start, updates, |updates|).Some? <==> CanChain(x, net, clock, start, updates)
    ensures forall stores :: Chained(x, net, clock, stores, updates) && stores[0] == start ==>
              && Fold(x, net, clock, start, updates, |updates|).Some?
              && var p := Fold(x, net, clock, start, updates, |updates|).value;
                 p.store == stores[|updates|] && LastReported(x, stores, updates, p.checkpoint)
  {
    hide Fold, LastReported, Validate, Apply;
    forall stores | Chained(x, net, clock, stores, updates) && stores[0] == start
      ensures Fold(x, net, clock, start, updates, |updates|).Some?
      ensures var p := Fold(x, net, clock, start, updates, |updates|).value;
              p.store == stores[|updates|] && LastReported(x, stores, updates, p.checkpoint)
    {
      ChainIsFold(x, net, clock, stores, updates);
    }
    if Fold(x, net, clock, start, updates, |updates|).Some? {
      var stores := FoldIsChained(x, net, clock, start, updates, |updates|);
      assert updates[..|updates|] == updates;
    }
  }
}
