// What applying a validated update does to a store, and what a whole sequence of them leaves.
module Application {
  import opened Base
  import opened LightClient
  import opened Replay
  import opened Guest

  // Two thirds of the committee signed, and the update has something to finalize: a newer header, or the
  // next committee that the store lacks, proved in the period in which it was finalized.
  predicate Finalizes(store: Store, u: Update) {
    && Count(u.syncAggregate.bits) >= 342
    && (|| FinalizedSlot(u) > StoreSlot(store)
        || (store.nextSyncCommittee.None? && IsCommitteeUpdate(u) && IsFinalityUpdate(u)
            && Period(FinalizedSlot(u)) == Period(AttestedSlot(u))))
  }

  lemma FinalizesIsShouldApply(store: Store, u: Update)
    ensures ShouldApply(store, u) <==> Finalizes(store, u)
    ensures ShouldApply(TrackParticipation(store, u), u) <==> Finalizes(store, u)
  {
    hide Count, Period;
  }

  // An update that finalizes something advances the store; any other leaves its header and committees.
  lemma AppliedAdvancesStrictly(x: Crypto, net: Network, u: Update, currentSlot: nat, store: Store)
    requires Validate(x, net, u, currentSlot, store)
    ensures Finalizes(store, u) ==> Compare(Apply(store, u), store) == Greater
    ensures !Finalizes(store, u) ==>
              && Compare(Apply(store, u), store) == Equal
              && Apply(store, u).finalizedHeader == store.finalizedHeader
              && Apply(store, u).currentSyncCommittee == store.currentSyncCommittee
              && Apply(store, u).nextSyncCommittee == store.nextSyncCommittee
  {
    hide Count;
    FinalizesIsShouldApply(store, u);
    if Finalizes(store, u) {
      AppliedPeriods(x, net, u, currentSlot, store);
    }
  }

  // The header is the finalized one when that is newer.
  lemma AppliedHeader(store: Store, u: Update)
    ensures Apply(store, u).finalizedHeader ==
              if Finalizes(store, u) && FinalizedSlot(u) > StoreSlot(store) then u.finalizedHeader
              else store.finalizedHeader
  {
    hide Count, Period;
    FinalizesIsShouldApply(store, u);
  }

  // The update learns or renews the next committee: the store lacked it or moves to the next period.
  predicate Renews(store: Store, u: Update) {
    Finalizes(store, u)
    && (store.nextSyncCommittee.None? || Period(FinalizedSlot(u)) == StorePeriod(store) + 1)
  }

  // The next committee after an update, and the current one.
  lemma AppliedCommittees(x: Crypto, net: Network, u: Update, currentSlot: nat, store: Store)
    requires Validate(x, net, u, currentSlot, store)
    ensures var after := Apply(store, u);
            && (Renews(store, u) && IsCommitteeUpdate(u) ==> after.nextSyncCommittee == Some(u.nextSyncCommittee))
            && (Renews(store, u) && !IsCommitteeUpdate(u) ==> after.nextSyncCommittee == None)
            && (!Renews(store, u) ==> after.nextSyncCommittee == store.nextSyncCommittee)
            && (StorePeriod(after) == StorePeriod(store) ==> after.currentSyncCommittee == store.currentSyncCommittee)
            && (StorePeriod(after) != StorePeriod(store) ==>
                  Some(after.currentSyncCommittee) == store.nextSyncCommittee)
            && (Finalizes(store, u) ==> StorePeriod(after) == Period(FinalizedSlot(u)))
  {
    hide Count, Period;
    FinalizesIsShouldApply(store, u);
    if Finalizes(store, u) {
      AppliedPeriods(x, net, u, currentSlot, store);
      if FinalizedSlot(u) <= StoreSlot(store) {
        PeriodMonotone(FinalizedSlot(u), StoreSlot(store));
      }
    }
  }

  // --- Participation and the optimistic header ---

  // The counts of the current period carry over to the previous one when the store changes period.
  lemma AppliedParticipation(x: Crypto, net: Network, u: Update, currentSlot: nat, store: Store)
    requires Validate(x, net, u, currentSlot, store)
    ensures var after, count := Apply(store, u), Count(u.syncAggregate.bits);
            && (StorePeriod(after) == StorePeriod(store) ==>
                  && after.previousMaxActiveParticipants == store.previousMaxActiveParticipants
                  && after.currentMaxActiveParticipants >= store.currentMaxActiveParticipants
                  && after.currentMaxActiveParticipants >= count
                  && after.currentMaxActiveParticipants in {store.currentMaxActiveParticipants, count})
            && (StorePeriod(after) != StorePeriod(store) ==>
                  && after.currentMaxActiveParticipants == 0
                  && after.previousMaxActiveParticipants >= store.currentMaxActiveParticipants
                  && after.previousMaxActiveParticipants >= count
                  && after.previousMaxActiveParticipants in {store.currentMaxActiveParticipants, count})
  {
    hide Count, Period;
    FinalizesIsShouldApply(store, u);
    if Finalizes(store, u) {
      AppliedPeriods(x, net, u, currentSlot, store);
      if FinalizedSlot(u) <= StoreSlot(store) {
        PeriodMonotone(FinalizedSlot(u), StoreSlot(store));
      }
    }
  }

  // More than half of the largest recent participation signed.
  predicate Trusted(store: Store, u: Update) {
    var count := Count(u.syncAggregate.bits);
    2 * count > store.previousMaxActiveParticipants && 2 * count > store.currentMaxActiveParticipants && count > 0
  }

  // The optimistic header follows trusted attested headers and never falls behind the finalized one.
  lemma AppliedOptimisticHeader(store: Store, u: Update)
    requires Count(u.syncAggregate.bits) >= 1
    ensures var after, known := Apply(store, u), store.optimisticHeader;
            var attested :=
              if Trusted(store, u) && AttestedSlot(u) > known.beacon.slot then u.attestedHeader else known;
            after.optimisticHeader ==
              if Finalizes(store, u) && FinalizedSlot(u) > StoreSlot(store) && FinalizedSlot(u) > attested.beacon.slot
              then u.finalizedHeader else attested
  {
    hide Count, Period;
    FinalizesIsShouldApply(store, u);
  }

  lemma OptimisticIsAhead(x: Crypto, net: Network, u: Update, currentSlot: nat, store: Store)
    requires Validate(x, net, u, currentSlot, store)
    requires store.optimisticHeader.beacon.slot >= StoreSlot(store)
    ensures var after := Apply(store, u);
            && after.optimisticHeader.beacon.slot >= StoreSlot(after)
            && after.optimisticHeader.beacon.slot >= store.optimisticHeader.beacon.slot
  {
    hide Count, Period;
    AppliedOptimisticHeader(store, u);
    AppliedHeader(store, u);
  }

  // --- The next committee after a whole sequence ---

  function StoreAt(x: Crypto, net: Network, clock: Clock, start: Store, updates: seq<Update>, k: nat): Store
    requires k <= |updates| && Fold(x, net, clock, start, updates, k).Some?
  {
    Fold(x, net, clock, start, updates, k).value.store
  }

  // The k-th update is applied, brings a committee, and finalizes in this period.
  ghost predicate Brings(
    x: Crypto, net: Network, clock: Clock, start: Store, updates: seq<Update>, k: nat, period: nat)
  {
    && k < |updates| && Fold(x, net, clock, start, updates, k).Some?
    && Finalizes(StoreAt(x, net, clock, start, updates, k), updates[k])
    && IsCommitteeUpdate(updates[k]) && Period(FinalizedSlot(updates[k])) == period
  }

  // One step: the next committee of the store after it was there for the same period, or came with it.
  lemma StepKnows(x: Crypto, net: Network, u: Update, currentSlot: nat, store: Store)
    requires Validate(x, net, u, currentSlot, store)
    ensures var after := Apply(store, u);
            && StorePeriod(store) <= StorePeriod(after)
            && (Finalizes(store, u) ==> Period(FinalizedSlot(u)) == StorePeriod(after))
            && (after.nextSyncCommittee.Some? <==>
                  || (store.nextSyncCommittee.Some? && StorePeriod(store) == StorePeriod(after))
                  || (Finalizes(store, u) && IsCommitteeUpdate(u)))
  {
    hide Count, Period, Validate;
    AppliedCommittees(x, net, u, currentSlot, store);
    AppliedHeader(store, u);
    FinalizesIsShouldApply(store, u);
    if Finalizes(store, u) {
      AppliedPeriods(x, net, u, currentSlot, store);
    }
  }

  lemma LastStep(x: Crypto, net: Network, clock: Clock, start: Store, updates: seq<Update>, n: nat)
    requires 0 < n <= |updates| && Fold(x, net, clock, start, updates, n).Some?
    ensures Fold(x, net, clock, start, updates, n - 1).Some?
    ensures var before, after := Fold(x, net, clock, start, updates, n - 1), Fold(x, net, clock, start, updates, n);
            before.Some? && StepsTo(x, net, clock, updates[n - 1], n, before.value.store, after.value.store)
  {
    hide Validate, Apply;
  }

  predicate StepsTo(x: Crypto, net: Network, clock: Clock, u: Update, n: nat, before: Store, after: Store) {
    Validate(x, net, u, clock(n), before) && after == Apply(before, u)
  }

  lemma {:induction false} BroughtPeriods(
    x: Crypto, net: Network, clock: Clock, start: Store, updates: seq<Update>, n: nat, k: nat, period: nat)
    requires n <= |updates| && Fold(x, net, clock, start, updates, n).Some?
    requires k < n && Brings(x, net, clock, start, updates, k, period)
    ensures period <= StorePeriod(StoreAt(x, net, clock, start, updates, n))
  {
    hide Validate, Apply, Finalizes, StorePeriod, Period, Fold;
    LastStep(x, net, clock, start, updates, n);
    var before := StoreAt(x, net, clock, start, updates, n - 1);
    StepKnows(x, net, updates[n - 1], clock(n), before);
    if k < n - 1 {
      BroughtPeriods(x, net, clock, start, updates, n - 1, k, period);
    }
  }

  // Main result: from a store without a next committee, the final store has one exactly when some applied
  // update brought a committee and finalized in the final store's period.
  lemma {:induction false} NextIsKnownExactlyWhen(
    x: Crypto, net: Network, clock: Clock, start: Store, updates: seq<Update>, n: nat)
    requires n <= |updates| && Fold(x, net, clock, start, updates, n).Some? && start.nextSyncCommittee.None?
    ensures var final := StoreAt(x, net, clock, start, updates, n);
            final.nextSyncCommittee.Some? <==>
              exists k :: 0 <= k < n && Brings(x, net, clock, start, updates, k, StorePeriod(final))
  {
    hide Validate, Apply, Finalizes, StorePeriod, Period, Fold, Brings;
    if n == 0 {
      NothingFolded(x, net, clock, start, updates);
    } else {
      LastStep(x, net, clock, start, updates, n);
      NextIsKnownExactlyWhen(x, net, clock, start, updates, n - 1);
      var before, u := StoreAt(x, net, clock, start, updates, n - 1), updates[n - 1];
      var final := StoreAt(x, net, clock, start, updates, n);
      StepKnows(x, net, u, clock(n), before);
      LastBrings(x, net, clock, start, updates, n, StorePeriod(final));
      forall k | 0 <= k < n - 1 && Brings(x, net, clock, start, updates, k, StorePeriod(final))
        ensures StorePeriod(before) == StorePeriod(final)
      {
        BroughtPeriods(x, net, clock, start, updates, n - 1, k, StorePeriod(final));
      }
    }
  }

  lemma NothingFolded(x: Crypto, net: Network, clock: Clock, start: Store, updates: seq<Update>)
    ensures Fold(x, net, clock, start, updates, 0).Some? && StoreAt(x, net, clock, start, updates, 0) == start
  {
  }

  lemma LastBrings(x: Crypto, net: Network, clock: Clock, start: Store, updates: seq<Update>, n: nat, period: nat)
    requires 0 < n <= |updates| && Fold(x, net, clock, start, updates, n - 1).Some?
    ensures Brings(x, net, clock, start, updates, n - 1, period) <==>
              && Finalizes(StoreAt(x, net, clock, start, updates, n - 1), updates[n - 1])
              && IsCommitteeUpdate(updates[n - 1]) && Period(FinalizedSlot(updates[n - 1])) == period
  {
  }

  // And then it is the true committee of the following period.
  lemma KnownNextIsTrue(
    x: Crypto, net: Network, clock: Clock, start: Store, updates: seq<Update>, n: nat, truth: Committees)
    requires n <= |updates| && Fold(x, net, clock, start, updates, n).Some? && start.nextSyncCommittee.None?
    requires TruthfulStore(truth, start) && forall i :: 0 <= i < n ==> TruthfulUpdate(truth, updates[i])
    ensures var final := StoreAt(x, net, clock, start, updates, n);
            final.nextSyncCommittee ==
              if exists k :: 0 <= k < n && Brings(x, net, clock, start, updates, k, StorePeriod(final))
              then Some(truth(StorePeriod(final) + 1)) else None
  {
    hide Validate, Apply, Brings, Fold, StorePeriod;
    NextIsKnownExactlyWhen(x, net, clock, start, updates, n);
    FoldKeepsTruth(x, net, clock, start, updates, n, truth);
  }

  // An update attested in a later period than it finalizes brings nothing there: the store keeps what it has.
  lemma AttestedAheadIsNotLearned(x: Crypto, net: Network, u: Update, currentSlot: nat, store: Store)
    requires Validate(x, net, u, currentSlot, store) && store.nextSyncCommittee.Some?
    requires IsCommitteeUpdate(u) && Period(FinalizedSlot(u)) == StorePeriod(store)
    ensures Apply(store, u).nextSyncCommittee == store.nextSyncCommittee
  {
    hide Count, Period, Validate;
    AppliedCommittees(x, net, u, currentSlot, store);
  }

  // Being attested in the final store's period is not enough: a finality update that moves the store there
  // without a committee leaves it with none.
  lemma AttestedIsNotEnough(x: Crypto, net: Network, store: Store, u: Update, uSlot: nat, v: Update, vSlot: nat)
    requires Validate(x, net, u, uSlot, store) && store.nextSyncCommittee.Some?
    requires Finalizes(store, u) && IsCommitteeUpdate(u)
    requires Period(FinalizedSlot(u)) == StorePeriod(store) && Period(AttestedSlot(u)) == StorePeriod(store) + 1
    requires Validate(x, net, v, vSlot, Apply(store, u)) && Finalizes(Apply(store, u), v) && !IsCommitteeUpdate(v)
    requires Period(FinalizedSlot(v)) == StorePeriod(store) + 1
    ensures var final := Apply(Apply(store, u), v);
            StorePeriod(final) == Period(AttestedSlot(u)) && final.nextSyncCommittee.None?
  {
    hide Count, Period, Validate, Finalizes;
    AppliedCommittees(x, net, u, uSlot, store);
    AppliedCommittees(x, net, v, vSlot, Apply(store, u));
  }
}
