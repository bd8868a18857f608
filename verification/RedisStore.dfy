// The client of the shared store. Before every command any number of changes by other
// processes may reach the store, and a command that times out may or may not have run.
module RedisStore {
  import opened Base
  import opened Primitives
  import opened RedisModel
  import opened Protocol
  import opened Process

  // The keys under the `state` family, which is what SCAN iterates over.
  datatype Key = FinalizedHeaderKey | ProofStateKey(id: ProofId)

  // A queued command of a pipeline.
  datatype Queued = SetHeader(header: Header) | SetState(id: ProofId, state: RequestState)

  function Execute(db: Db, command: Queued): Db {
    match command
    case SetHeader(header) => db.(header := Some(header))
    case SetState(id, state) => SetEx(db, id, state)
  }

  function ExecuteAll(db: Db, pipe: seq<Queued>): Db {
    if pipe == [] then db else Execute(ExecuteAll(db, pipe[..|pipe| - 1]), pipe[|pipe| - 1])
  }

  function Pipeline(header: Header, updates: seq<(ProofId, RequestState)>): seq<Queued> {
    [SetHeader(header)] + seq(|updates|, i requires 0 <= i < |updates| => SetState(updates[i].0, updates[i].1))
  }

  lemma {:induction false} PipelineIsMulti(db: Db, header: Header, updates: seq<(ProofId, RequestState)>)
    ensures ExecuteAll(db, Pipeline(header, updates)) == Multi(db, header, updates)
  {
    var pipe := Pipeline(header, updates);
    if updates == [] {
      assert pipe[..0] == [];
    } else {
      PipelineIsMulti(db, header, updates[..|updates| - 1]);
      assert pipe[..|pipe| - 1] == Pipeline(header, updates[..|updates| - 1]);
    }
  }

  function Sent(fault: Fault): Input {
    Input(fault, [], false, None, Err(""))
  }

  function Reply<T>(fault: Fault, value: T): Result<T, ServiceError> {
    if Replied(fault) then Ok(value) else Err(RedisError)
  }

  predicate Holds(db: Db, id: ProofId, status: Status) {
    id in db.records && db.records[id].status == status
  }

  // Some state that the log of turns passes through satisfies the record.
  ghost predicate ReadDuring(log: seq<Turn>, st: RequestState) {
    exists k, id :: 0 <= k < |log| && id in log[k].after.records && log[k].after.records[id] == st
  }

  ghost predicate AllRead(log: seq<Turn>, found: seq<RequestState>, status: Status) {
    forall st :: st in found ==> st.status == status && ReadDuring(log, st)
  }

  ghost predicate HoldsThroughout(log: seq<Turn>, id: ProofId, status: Status) {
    forall k :: 0 <= k < |log| ==>
      Holds(log[k].after, id, status) && forall db :: db in log[k].others ==> Holds(db, id, status)
  }

  ghost predicate FoundDuring(log: seq<Turn>, id: ProofId, found: seq<RequestState>) {
    exists k :: 0 <= k < |log| && id in log[k].after.records && log[k].after.records[id] in found
  }

  // A worker about to send the SCAN that looks for the status.
  predicate AtScan(pr: Proc, status: Status, found: seq<RequestState>) {
    pr.Worker? &&
    match pr.wpc
    case HScan(scan) => status == WaitingForFinality && scan.found == found
    case OScan(scan, _) => status == Generating && scan.found == found
    case _ => false
  }

  predicate AtMget(pr: Proc, status: Status, found: seq<RequestState>, ids: seq<ProofId>, last: bool) {
    pr.Worker? &&
    match pr.wpc
    case HMget(scan, ids', last') =>
      status == WaitingForFinality && scan.found == found && ids' == ids && last' == last
    case OMget(scan, ids', last', _) =>
      status == Generating && scan.found == found && ids' == ids && last' == last
    case _ => false
  }

  // What the worker does once its scan has found the records.
  predicate Scanned(pr: Proc, w: Proc, status: Status, found: seq<RequestState>) {
    w.Worker? && pr.Worker? && pr.tip == w.tip && pr.advance == w.advance &&
    if status == WaitingForFinality then
      pr.wpc == AfterHeaderBatch(w.tip, Scan(found, {}), true)
    else pr.wpc.OLock? && pr.wpc.todo == found
  }

  predicate ScanFailed(pr: Proc, w: Proc, status: Status) {
    w.Worker? && pr.Worker? && pr.tip == w.tip && pr.advance == w.advance &&
    if status == WaitingForFinality then pr.wpc == HRelease(Failed)
    else pr.wpc.ODone?
  }

  function UnseenOf(pr: Proc): set<ProofId> {
    if !pr.Worker? then {}
    else
      match pr.wpc
      case HScan(scan) => scan.unseen
      case HMget(scan, _, _) => scan.unseen
      case OScan(scan, _) => scan.unseen
      case OMget(scan, _, _, _) => scan.unseen
      case _ => {}
  }

  function OwedAfter(owed: set<ProofId>, others: seq<Db>): set<ProofId> {
    if others == [] then owed
    else OwedAfter(owed, others[..|others| - 1]) * others[|others| - 1].records.Keys
  }

  function Returned(ids: seq<ProofId>): set<ProofId> {
    set id | id in ids
  }

  // What a SCAN reply may still have to return, given what was owed before.
  function Owing(owed: set<ProofId>, turn: Turn, first: bool): set<ProofId> {
    if first then turn.after.records.Keys else OwedAfter(owed, turn.others)
  }

  lemma {:induction false} UnseenAfter(pr: Proc, others: seq<Db>, owed: set<ProofId>)
    requires UnseenOf(pr) <= owed
    ensures UnseenOf(ObserveAll(pr, others)) <= OwedAfter(owed, others)
  {
    if others != [] {
      UnseenAfter(pr, others[..|others| - 1], owed);
    }
  }

  lemma {:induction false} ScanStays(pr: Proc, others: seq<Db>, status: Status, found: seq<RequestState>)
    ensures AtScan(pr, status, found) ==> AtScan(ObserveAll(pr, others), status, found)
    ensures forall ids, last ::
              AtMget(pr, status, found, ids, last) ==> AtMget(ObserveAll(pr, others), status, found, ids, last)
    ensures pr.Worker? ==>
              var w := ObserveAll(pr, others); w.Worker? && w.tip == pr.tip && w.advance == pr.advance
  {
    if others != [] {
      ScanStays(pr, others[..|others| - 1], status, found);
    }
  }

  // The record keys of a SCAN reply.
  function RecordIds(keys: seq<Key>): seq<ProofId> {
    if keys == [] then []
    else
      var key := keys[|keys| - 1];
      RecordIds(keys[..|keys| - 1]) + if key.ProofStateKey? then [key.id] else []
  }

  lemma {:induction false} RecordIdsExact(keys: seq<Key>)
    ensures forall id :: id in RecordIds(keys) <==> ProofStateKey(id) in keys
  {
    if keys != [] {
      var n := |keys| - 1;
      RecordIdsExact(keys[..n]);
      assert keys == keys[..n] + [keys[n]];
    }
  }

  // Every record that has had the status throughout is owed, about to be read, or found.
  ghost predicate Accounted(
    log: seq<Turn>, owed: set<ProofId>, ids: seq<ProofId>, status: Status, found: seq<RequestState>)
  {
    forall id :: HoldsThroughout(log, id, status) ==> id in owed || id in ids || FoundDuring(log, id, found)
  }

  lemma {:induction false} OwedShrinks(owed: set<ProofId>, others: seq<Db>)
    ensures OwedAfter(owed, others) <= owed
  {
    if others != [] {
      OwedShrinks(owed, others[..|others| - 1]);
    }
  }

  lemma NoneOwed(log: seq<Turn>, status: Status, found: seq<RequestState>)
    requires Accounted(log, {}, [], status, found)
    ensures forall id :: HoldsThroughout(log, id, status) ==> FoundDuring(log, id, found)
  {
  }

  lemma {:induction false} StillOwed(owed: set<ProofId>, others: seq<Db>, id: ProofId)
    requires id in owed && forall db :: db in others ==> id in db.records
    ensures id in OwedAfter(owed, others)
  {
    if others != [] {
      StillOwed(owed, others[..|others| - 1], id);
    }
  }

  lemma HoldsBefore(log: seq<Turn>, turn: Turn, id: ProofId, status: Status)
    requires HoldsThroughout(log + [turn], id, status)
    ensures HoldsThroughout(log, id, status)
    ensures Holds(turn.after, id, status) && forall db :: db in turn.others ==> Holds(db, id, status)
  {
    assert (log + [turn])[|log|] == turn;
    assert forall k :: 0 <= k < |log| ==> (log + [turn])[k] == log[k];
  }

  lemma FoundStill(log: seq<Turn>, turn: Turn, id: ProofId, found: seq<RequestState>, more: seq<RequestState>)
    requires FoundDuring(log, id, found)
    ensures FoundDuring(log + [turn], id, found + more)
  {
    var k :| 0 <= k < |log| && id in log[k].after.records && log[k].after.records[id] in found;
    assert (log + [turn])[k] == log[k];
  }

  lemma ReadStill(log: seq<Turn>, turn: Turn)
    ensures forall st :: ReadDuring(log, st) ==> ReadDuring(log + [turn], st)
  {
    forall st | ReadDuring(log, st)
      ensures ReadDuring(log + [turn], st)
    {
      var k, id :| 0 <= k < |log| && id in log[k].after.records && log[k].after.records[id] == st;
      assert (log + [turn])[k] == log[k];
    }
  }

  lemma ScanAccounts(
    log: seq<Turn>, turn: Turn, before: set<ProofId>, owed: set<ProofId>, status: Status,
    found: seq<RequestState>, first: bool)
    requires !first ==> Accounted(log, before, [], status, found)
    requires owed == Owing(before, turn, first) - Returned(turn.input.ids)
    ensures Accounted(log + [turn], owed, turn.input.ids, status, found)
    ensures AllRead(log, found, status) ==> AllRead(log + [turn], found, status)
  {
    ReadStill(log, turn);
    forall id | HoldsThroughout(log + [turn], id, status)
      ensures id in owed || id in turn.input.ids || FoundDuring(log + [turn], id, found)
    {
      HoldsBefore(log, turn, id, status);
      if !first {
        if id in before {
          StillOwed(before, turn.others, id);
        } else {
          FoundStill(log, turn, id, found, []);
          assert found + [] == found;
        }
      }
    }
  }

  lemma MgetAccounts(
    log: seq<Turn>, turn: Turn, owed: set<ProofId>, ids: seq<ProofId>, status: Status, found: seq<RequestState>)
    requires Accounted(log, owed, ids, status, found)
    ensures var batch := MgetMatching(turn.after.records, ids, status);
            && Accounted(log + [turn], OwedAfter(owed, turn.others), [], status, found + batch)
            && (AllRead(log, found, status) ==> AllRead(log + [turn], found + batch, status))
            && (owed == {} ==> OwedAfter(owed, turn.others) == {})
  {
    OwedShrinks(owed, turn.others);
    var batch := MgetMatching(turn.after.records, ids, status);
    var log' := log + [turn];
    MgetMatchingExact(turn.after.records, ids, status);
    assert log'[|log|] == turn;
    forall id | HoldsThroughout(log', id, status)
      ensures id in OwedAfter(owed, turn.others) || FoundDuring(log', id, found + batch)
    {
      HoldsBefore(log, turn, id, status);
      if id in owed {
        StillOwed(owed, turn.others, id);
      } else if id in ids {
        assert turn.after.records[id] in batch;
      } else {
        FoundStill(log, turn, id, found, batch);
      }
    }
    ReadStill(log, turn);
  }

  // --- The scan as steps of a worker ---

  ghost predicate ScanBegins(v: View, db: Db, status: Status) {
    v.db == db && AtScan(v.proc, status, []) && UnseenOf(v.proc) <= db.records.Keys
  }

  predicate SameWorker(w: View, v: View) {
    && w.proc.Worker? && v.proc.Worker?
    && w.proc.tip == v.proc.tip && w.proc.advance == v.proc.advance
    && w.spawned == v.spawned
  }

  // So far the code has taken the scan steps of the worker and found these records.
  ghost predicate InScan(
    c: Params, v: View, log: seq<Turn>, w: View, status: Status, found: seq<RequestState>, owed: set<ProofId>)
  {
    && Path(c, v, log, w) && AtScan(w.proc, status, found) && SameWorker(w, v) && UnseenOf(w.proc) <= owed
  }

  // The step of a worker that receives a batch of keys, whichever status it scans for.
  lemma ScanReplies(c: Params, pr: Proc, db: Db, input: Input, status: Status, found: seq<RequestState>)
    requires AtScan(pr, status, found)
    ensures var out := WorkerStep(c, pr, db, input);
            && out.db == db && out.child.None?
            && (if !Replied(input.fault) then ScanFailed(out.proc, pr, status)
                else && AtMget(out.proc, status, found, input.ids, input.last)
                     && UnseenOf(out.proc) == UnseenOf(pr) - Returned(input.ids)
                     && out.proc.tip == pr.tip && out.proc.advance == pr.advance)
  {
  }

  lemma ScanStep(
    c: Params, v: View, log: seq<Turn>, w: View, turn: Turn, status: Status, found: seq<RequestState>,
    before: set<ProofId>, first: bool)
    requires InScan(c, v, log, w, status, found, before)
    requires turn.after == Latest(w.db, turn.others)
    requires turn.input.last ==> Owing(before, turn, first) <= Returned(turn.input.ids)
    requires first ==> before == w.db.records.Keys
    ensures var w' := Advance(c, w, turn);
            && Path(c, v, log + [turn], w') && SameWorker(w', v) && w'.db == turn.after
            && (if Replied(turn.input.fault) then
                  && AtMget(w'.proc, status, found, turn.input.ids, turn.input.last)
                  && UnseenOf(w'.proc) <= Owing(before, turn, first) - Returned(turn.input.ids)
                else ScanFailed(w'.proc, v.proc, status))
  {
    UnseenAfter(w.proc, turn.others, before);
    ScanStays(w.proc, turn.others, status, found);
    var pr := ObserveAll(w.proc, turn.others);
    assert Allowed(c, pr, turn.input);
    ScanReplies(c, pr, turn.after, turn.input, status, found);
    var out := WorkerStep(c, pr, turn.after, turn.input);
    ObservedScan(out.proc, pr, turn.after, status, found, turn.input.ids, turn.input.last);
    hide WorkerStep, Observe, AfterHeaderBatch;
    Extend(c, v, log, w, turn);
  }

  // The step of a worker that reads a batch, whichever status it scans for.
  lemma MgetReads(
    c: Params, pr: Proc, db: Db, input: Input, status: Status, found: seq<RequestState>,
    ids: seq<ProofId>, last: bool)
    requires AtMget(pr, status, found, ids, last)
    ensures var out := WorkerStep(c, pr, db, input);
            var found' := found + MgetMatching(db.records, ids, status);
            && out.db == db && out.child.None?
            && (if !Replied(input.fault) && ids != [] then ScanFailed(out.proc, pr, status)
                else if last then Scanned(out.proc, pr, status, found')
                else && AtScan(out.proc, status, found') && UnseenOf(out.proc) == UnseenOf(pr)
                     && out.proc.tip == pr.tip && out.proc.advance == pr.advance)
  {
  }

  lemma ObservedScan(
    pr: Proc, w: Proc, db: Db, status: Status, found: seq<RequestState>, ids: seq<ProofId>, last: bool)
    ensures AtMget(pr, status, found, ids, last) ==> AtMget(Observe(pr, db), status, found, ids, last)
    ensures ScanFailed(pr, w, status) ==> ScanFailed(Observe(pr, db), w, status)
    ensures Scanned(pr, w, status, found) ==> Scanned(Observe(pr, db), w, status, found)
    ensures AtScan(pr, status, found) ==> AtScan(Observe(pr, db), status, found)
    ensures UnseenOf(Observe(pr, db)) <= UnseenOf(pr)
    ensures pr.Worker? ==>
              var o := Observe(pr, db); o.Worker? && o.tip == pr.tip && o.advance == pr.advance
  {
  }

  lemma MgetStep(
    c: Params, v: View, log: seq<Turn>, w: View, turn: Turn, status: Status, found: seq<RequestState>,
    ids: seq<ProofId>, last: bool, before: set<ProofId>)
    requires Path(c, v, log, w) && AtMget(w.proc, status, found, ids, last) && SameWorker(w, v)
    requires turn.after == Latest(w.db, turn.others) && UnseenOf(w.proc) <= before
    ensures var w' := Advance(c, w, turn);
            var found' := found + MgetMatching(turn.after.records, ids, status);
            && Path(c, v, log + [turn], w') && SameWorker(w', v) && w'.db == turn.after
            && (if !Replied(turn.input.fault) && ids != [] then ScanFailed(w'.proc, v.proc, status)
                else if last then Scanned(w'.proc, v.proc, status, found')
                else InScan(c, v, log + [turn], w', status, found', OwedAfter(before, turn.others)))
  {
    UnseenAfter(w.proc, turn.others, before);
    ScanStays(w.proc, turn.others, status, found);
    var pr := ObserveAll(w.proc, turn.others);
    assert AtMget(pr, status, found, ids, last);
    MgetReads(c, pr, turn.after, turn.input, status, found, ids, last);
    var out := WorkerStep(c, pr, turn.after, turn.input);
    ObservedScan(out.proc, pr, turn.after, status, found + MgetMatching(turn.after.records, ids, status),
                 ids, last);
    hide WorkerStep, Observe, AfterHeaderBatch;
    Extend(c, v, log, w, turn);
  }

  // The loop of a search, at its head: `first` until the first batch has been read.
  ghost predicate Searching(
    c: Params, v: View, status: Status, begins: bool, first: bool, log: seq<Turn>, w: View,
    found: seq<RequestState>, owed: set<ProofId>, db: Db)
  {
    && AllRead(log, found, status)
    && (if first then log == [] && found == [] else Accounted(log, owed, [], status, found))
    && (begins ==> InScan(c, v, log, w, status, found, if first then db.records.Keys else owed) && w.db == db)
  }

  // Between the SCAN and the MGET of one batch.
  ghost predicate Reading(
    c: Params, v: View, status: Status, begins: bool, log: seq<Turn>, w: View,
    found: seq<RequestState>, owed: set<ProofId>, db: Db, ids: seq<ProofId>, last: bool)
  {
    && AllRead(log, found, status) && Accounted(log, owed, ids, status, found)
    && (last ==> owed == {})
    && (begins ==>
          && Path(c, v, log, w) && AtMget(w.proc, status, found, ids, last) && SameWorker(w, v)
          && UnseenOf(w.proc) <= owed && w.db == db)
  }

  ghost predicate SearchFailed(c: Params, v: View, status: Status, begins: bool, log: seq<Turn>, w: View, db: Db) {
    begins ==> Path(c, v, log, w) && SameWorker(w, v) && w.db == db && ScanFailed(w.proc, v.proc, status)
  }

  ghost predicate SearchDone(
    c: Params, v: View, status: Status, begins: bool, log: seq<Turn>, w: View, found: seq<RequestState>, db: Db)
  {
    && AllRead(log, found, status)
    && (forall id :: HoldsThroughout(log, id, status) ==> FoundDuring(log, id, found))
    && (begins ==>
          Path(c, v, log, w) && SameWorker(w, v) && w.db == db && Scanned(w.proc, v.proc, status, found))
  }

  lemma SearchStarts(c: Params, v: View, status: Status, owed: set<ProofId>, db: Db)
    ensures Searching(c, v, status, ScanBegins(v, db, status), true, [], v, [], owed, db)
  {
  }

  lemma SearchScans(
    c: Params, v: View, status: Status, begins: bool, first: bool, log: seq<Turn>, w: View,
    found: seq<RequestState>, owed: set<ProofId>, db: Db, turn: Turn, owed': set<ProofId>)
    requires Searching(c, v, status, begins, first, log, w, found, owed, db)
    requires turn.after == Latest(db, turn.others)
    requires turn.input.last ==> Replied(turn.input.fault)
    requires Replied(turn.input.fault) ==>
               && owed' == Owing(owed, turn, first) - Returned(turn.input.ids)
               && (turn.input.last ==> owed' == {})
    ensures var log', w' := log + [turn], Advance(c, w, turn);
            if Replied(turn.input.fault) then
              Reading(c, v, status, begins, log', w', found, owed', turn.after, turn.input.ids, turn.input.last)
            else SearchFailed(c, v, status, begins, log', w', turn.after)
  {
    hide Path, Advance, AtMget, AtScan, ScanFailed, SameWorker, UnseenOf, AllRead, Accounted;
    var before := if first then db.records.Keys else owed;
    assert Owing(before, turn, first) == Owing(owed, turn, first);
    if begins {
      forall id | turn.input.last && id in Owing(owed, turn, first)
        ensures id in Returned(turn.input.ids)
      {
        assert id !in owed';
      }
      ScanStep(c, v, log, w, turn, status, found, before, first);
    }
    if Replied(turn.input.fault) {
      ScanAccounts(log, turn, before, owed', status, found, first);
    }
  }

  lemma SearchReads(
    c: Params, v: View, status: Status, begins: bool, log: seq<Turn>, w: View,
    found: seq<RequestState>, owed: set<ProofId>, db: Db, ids: seq<ProofId>, last: bool, turn: Turn)
    requires Reading(c, v, status, begins, log, w, found, owed, db, ids, last)
    requires turn.after == Latest(db, turn.others)
    ensures var log', w' := log + [turn], Advance(c, w, turn);
            var found' := found + MgetMatching(turn.after.records, ids, status);
            if ids != [] && !Replied(turn.input.fault) then
              SearchFailed(c, v, status, begins, log', w', turn.after)
            else if last then SearchDone(c, v, status, begins, log', w', found', turn.after)
            else
              Searching(c, v, status, begins, false, log', w', found', OwedAfter(owed, turn.others), turn.after)
  {
    if begins {
      MgetStep(c, v, log, w, turn, status, found, ids, last, owed);
    }
    MgetAccounts(log, turn, owed, ids, status, found);
    if last {
      NoneOwed(log + [turn], status, found + MgetMatching(turn.after.records, ids, status));
    }
  }

  class RedisStore {
    // The shared store as of the last command of this client.
    var db: Db
    // The steps of this client so far.
    ghost var log: seq<Turn>
    // The server's side of a SCAN: the record keys present ever since the iteration began and
    // not yet returned. A complete iteration returns them all.
    var owed: set<ProofId>

    constructor ()
      ensures log == []
    {
      db := *;
      owed := {};
      log := [];
    }

    // --- What other clients do in the meantime ---

    method Interfere() returns (ghost others: seq<Db>)
      modifies this
      ensures log == old(log)
      ensures db == Latest(old(db), others) && owed == OwedAfter(old(owed), others)
    {
      others := [];
      var changes: nat := *;
      while changes > 0
        invariant log == old(log)
        invariant db == Latest(old(db), others) && owed == OwedAfter(old(owed), others)
      {
        db := *;
        owed := owed * db.records.Keys;
        others := others + [db];
        assert others[..|others| - 1] + [db] == others;
        changes := changes - 1;
      }
    }

    // A step of the code that sends no command.
    ghost method Note(turn: Turn)
      requires turn.others == [] && turn.after == db
      modifies this`log
      ensures log == old(log) + [turn]
    {
      log := log + [turn];
    }

    // --- Reads and writes ---

    method GetProofState(id: ProofId) returns (r: Result<Option<RequestState>, ServiceError>, ghost turn: Turn)
      modifies this
      ensures log == old(log) + [turn] && turn.after == db == Latest(old(db), turn.others)
      ensures turn.input == Sent(turn.input.fault)
      ensures r == Reply(turn.input.fault, Get(db, id))
    {
      ghost var others := Interfere();
      var fault: Fault := *;
      turn := Turn(others, Sent(fault), db);
      log := log + [turn];
      r := if fault == NoFault then Ok(Get(db, id)) else Err(RedisError);
    }

    // `stale` is the caller's clock: which headers it takes for too old at this moment.
    method ReadFinalizedHeader(ghost stale: Header -> bool)
      returns (r: Result<Option<Header>, ServiceError>, ghost turn: Turn)
      modifies this
      ensures log == old(log) + [turn] && turn.after == db == Latest(old(db), turn.others)
      ensures turn.input == Sent(turn.input.fault).(last := db.header.Some? && stale(db.header.value))
      ensures r == Reply(turn.input.fault, db.header)
    {
      ghost var others := Interfere();
      var fault: Fault := *;
      turn := Turn(others, Sent(fault).(last := db.header.Some? && stale(db.header.value)), db);
      log := log + [turn];
      r := if fault == NoFault then Ok(db.header) else Err(RedisError);
    }

    method SetProofState(id: ProofId, state: RequestState)
      returns (r: Result<(), ServiceError>, ghost turn: Turn)
      modifies this
      ensures log == old(log) + [turn] && turn.after == db
      ensures turn.input == Sent(turn.input.fault)
      ensures var seen := Latest(old(db), turn.others);
              db == if Took(turn.input.fault) then SetEx(seen, id, state) else seen
      ensures r == Reply(turn.input.fault, ())
    {
      ghost var others := Interfere();
      var fault: Fault := *;
      if fault != LostRequest {
        db := db.(records := db.records[id := state]);
      }
      turn := Turn(others, Sent(fault), db);
      log := log + [turn];
      r := if fault == NoFault then Ok(()) else Err(RedisError);
    }

    // MULTI ... EXEC: the queued commands run in order and nothing comes between them.
    method Exec(pipe: seq<Queued>) returns (r: Result<(), ServiceError>, ghost turn: Turn)
      modifies this
      ensures log == old(log) + [turn] && turn.after == db
      ensures turn.input == Sent(turn.input.fault)
      ensures var seen := Latest(old(db), turn.others);
              db == if Took(turn.input.fault) then ExecuteAll(seen, pipe) else seen
      ensures r == Reply(turn.input.fault, ())
    {
      ghost var others := Interfere();
      ghost var seen := db;
      var fault: Fault := *;
      if fault != LostRequest {
        for i := 0 to |pipe|
          invariant log == old(log)
          invariant db == ExecuteAll(seen, pipe[..i])
        {
          assert pipe[..i + 1][..i] == pipe[..i];
          match pipe[i]
          case SetHeader(header) => db := db.(header := Some(header));
          case SetState(id, state) => db := db.(records := db.records[id := state]);
        }
        assert pipe[..|pipe|] == pipe;
      }
      turn := Turn(others, Sent(fault), db);
      log := log + [turn];
      r := if fault == NoFault then Ok(()) else Err(RedisError);
    }

    method UpdateFinalizedHeaderAndProofStates(header: Header, updates: seq<(ProofId, RequestState)>)
      returns (r: Result<(), ServiceError>, ghost turn: Turn)
      modifies this
      ensures log == old(log) + [turn] && turn.after == db
      ensures turn.input == Sent(turn.input.fault)
      ensures var seen := Latest(old(db), turn.others);
              db == if Took(turn.input.fault) then Multi(seen, header, updates) else seen
      ensures r == Reply(turn.input.fault, ())
    {
      var pipe := [SetHeader(header)];
      for i := 0 to |updates|
        invariant pipe == Pipeline(header, updates[..i])
      {
        pipe := pipe + [SetState(updates[i].0, updates[i].1)];
      }
      assert updates[..|updates|] == updates;
      r, turn := Exec(pipe);
      PipelineIsMulti(Latest(old(db), turn.others), header, updates);
    }

    // --- Locks ---

    // SET NX of the global lock.
    method AcquireGlobalLock() returns (r: Result<bool, ServiceError>, ghost turn: Turn)
      modifies this
      ensures log == old(log) + [turn] && turn.after == db
      ensures turn.input == Sent(turn.input.fault)
      ensures var seen := Latest(old(db), turn.others);
              && db == (if Took(turn.input.fault) then AcquireGlobal(seen) else seen)
              && r == Reply(turn.input.fault, !seen.globalLock)
    {
      ghost var others := Interfere();
      var fault: Fault := *;
      var absent := !db.globalLock;
      if fault != LostRequest && absent {
        db := db.(globalLock := true);
      }
      turn := Turn(others, Sent(fault), db);
      log := log + [turn];
      r := if fault == NoFault then Ok(absent) else Err(RedisError);
    }

    // Best effort: the outcome of the DEL is ignored.
    method ReleaseGlobalLock() returns (ghost turn: Turn)
      modifies this
      ensures log == old(log) + [turn] && turn.after == db
      ensures turn.input == Sent(turn.input.fault)
      ensures var seen := Latest(old(db), turn.others);
              db == if Took(turn.input.fault) then ReleaseGlobal(seen) else seen
    {
      ghost var others := Interfere();
      var fault: Fault := *;
      if fault != LostRequest {
        db := db.(globalLock := false);
      }
      turn := Turn(others, Sent(fault), db);
      log := log + [turn];
    }

    method AcquireProofGenerationLock(id: ProofId) returns (r: Result<bool, ServiceError>, ghost turn: Turn)
      modifies this
      ensures log == old(log) + [turn] && turn.after == db
      ensures turn.input == Sent(turn.input.fault)
      ensures var seen := Latest(old(db), turn.others);
              && db == (if Took(turn.input.fault) then AcquireGen(seen, id) else seen)
              && r == Reply(turn.input.fault, id !in seen.genLocks)
    {
      ghost var others := Interfere();
      var fault: Fault := *;
      var absent := id !in db.genLocks;
      if fault != LostRequest && absent {
        db := db.(genLocks := db.genLocks + {id});
      }
      turn := Turn(others, Sent(fault), db);
      log := log + [turn];
      assert id in Latest(old(db), others).genLocks ==>
        Latest(old(db), others).genLocks + {id} == Latest(old(db), others).genLocks;
      r := if fault == NoFault then Ok(absent) else Err(RedisError);
    }

    // The last command of a lock-extension task.
    method ReleaseProofGenerationLock(id: ProofId) returns (ghost turn: Turn)
      modifies this
      ensures log == old(log) + [turn] && turn.after == db
      ensures turn.input == Sent(turn.input.fault).(last := true)
      ensures var seen := Latest(old(db), turn.others);
              db == if Took(turn.input.fault) then ReleaseGen(seen, id) else seen
    {
      ghost var others := Interfere();
      var fault: Fault := *;
      if fault != LostRequest {
        db := db.(genLocks := db.genLocks - {id});
      }
      turn := Turn(others, Sent(fault).(last := true), db);
      log := log + [turn];
    }

    // PEXPIRE. A key that is gone is reported, and ends the extension task without a DEL.
    method ExtendProofGenerationLock(id: ProofId) returns (r: Result<bool, ServiceError>, ghost turn: Turn)
      modifies this
      ensures log == old(log) + [turn] && turn.after == db == Latest(old(db), turn.others)
      ensures r.Err? ==> turn.input == Sent(turn.input.fault) && !Replied(turn.input.fault)
      ensures r.Ok? ==> r.value == (id in db.genLocks)
      ensures r == Ok(true) ==> turn.input == Sent(NoFault)
      ensures r == Ok(false) ==> turn.input == Sent(LostRequest).(last := true)
    {
      ghost var others := Interfere();
      var fault: Fault := *;
      r := if fault == NoFault then Ok(id in db.genLocks) else Err(RedisError);
      turn := Turn(others, if r == Ok(false) then Sent(LostRequest).(last := true) else Sent(fault), db);
      log := log + [turn];
    }

    // --- Scanning ---

    // SCAN with a cursor. A cursor is modelled as a bound on the replies that are left: 0 starts
    // an iteration and, when returned, ends it. Keys may be returned any number of times, and
    // after they are gone.
    method Scan(cursor: nat) returns (r: Result<(nat, seq<Key>), ServiceError>, ghost turn: Turn)
      modifies this
      ensures log == old(log) + [turn] && turn.after == db == Latest(old(db), turn.others)
      ensures r.Err? ==> turn.input == Sent(turn.input.fault) && !Replied(turn.input.fault)
      ensures r.Ok? ==> turn.input == Sent(NoFault).(ids := RecordIds(r.value.1), last := r.value.0 == 0)
      ensures r.Ok? && cursor != 0 ==> r.value.0 < cursor
      ensures r.Ok? ==>
                var before := Owing(old(owed), turn, cursor == 0);
                && owed == before - Returned(RecordIds(r.value.1))
                && (r.value.0 == 0 ==> owed == {} && before <= Returned(RecordIds(r.value.1)))
    {
      ghost var others := Interfere();
      if cursor == 0 {
        owed := db.records.Keys;
      }
      var fault: Fault := *;
      if fault != NoFault {
        turn := Turn(others, Sent(fault), db);
        log := log + [turn];
        return Err(RedisError), turn;
      }
      var next: nat := *;
      if cursor != 0 && next >= cursor {
        next := cursor - 1;
      }
      var keys: seq<Key> := *;
      if next == 0 {
        var rest := owed;
        while rest != {}
          invariant rest <= owed
          invariant forall id :: id in owed && id !in rest ==> ProofStateKey(id) in keys
        {
          var id :| id in rest;
          keys := keys + [ProofStateKey(id)];
          rest := rest - {id};
        }
      }
      RecordIdsExact(keys);
      owed := owed - Returned(RecordIds(keys));
      turn := Turn(others, Sent(NoFault).(ids := RecordIds(keys), last := next == 0), db);
      log := log + [turn];
      r := Ok((next, keys));
    }

    method Mget(ids: seq<ProofId>) returns (r: Result<seq<Option<RequestState>>, ServiceError>, ghost turn: Turn)
      modifies this
      ensures log == old(log) + [turn] && turn.after == db == Latest(old(db), turn.others)
      ensures turn.input == Sent(turn.input.fault)
      ensures r.Err? <==> !Replied(turn.input.fault)
      ensures r.Ok? ==> |r.value| == |ids| && forall i :: 0 <= i < |ids| ==> r.value[i] == Get(db, ids[i])
      ensures owed == OwedAfter(old(owed), turn.others)
    {
      ghost var others := Interfere();
      var fault: Fault := *;
      turn := Turn(others, Sent(fault), db);
      log := log + [turn];
      var records := db.records;
      var replies := seq(|ids|, i requires 0 <= i < |ids| => if ids[i] in records then Some(records[ids[i]]) else None);
      r := if fault == NoFault then Ok(replies) else Err(RedisError);
    }

    // An empty batch costs no command.
    method MgetUnlessEmpty(ids: seq<ProofId>)
      returns (r: Result<seq<Option<RequestState>>, ServiceError>, ghost turn: Turn)
      modifies this
      ensures log == old(log) + [turn] && turn.after == db == Latest(old(db), turn.others)
      ensures r.Err? <==> !Replied(turn.input.fault) && ids != []
      ensures r.Ok? ==> |r.value| == |ids| && forall i :: 0 <= i < |ids| ==> r.value[i] == Get(db, ids[i])
      ensures owed == OwedAfter(old(owed), turn.others)
    {
      if ids == [] {
        turn := Turn([], Sent(NoFault), db);
        Note(turn);
        r := Ok([]);
      } else {
        r, turn := Mget(ids);
      }
    }

    // The header is stored under a key of the same family as the records.
    static method WithoutHeaderKey(keys: seq<Key>) returns (ids: seq<ProofId>)
      ensures ids == RecordIds(keys)
    {
      ids := [];
      for i := 0 to |keys|
        invariant ids == RecordIds(keys[..i])
      {
        assert keys[..i + 1][..i] == keys[..i];
        if keys[i] != FinalizedHeaderKey {
          ids := ids + [keys[i].id];
        }
      }
      assert keys[..|keys|] == keys;
    }

    static method CollectMatching(
      found: seq<RequestState>, values: seq<Option<RequestState>>, status: Status,
      ghost db: Db, ghost ids: seq<ProofId>)
      returns (all: seq<RequestState>)
      requires |values| == |ids| && forall i :: 0 <= i < |ids| ==> values[i] == Get(db, ids[i])
      ensures all == found + MgetMatching(db.records, ids, status)
    {
      all := found;
      for i := 0 to |values|
        invariant all == found + MgetMatching(db.records, ids[..i], status)
      {
        assert ids[..i + 1][..i] == ids[..i] && values[i] == Get(db, ids[i]);
        if values[i].Some? && values[i].value.status == status {
          all := all + [values[i].value];
        }
      }
      assert ids[..|ids|] == ids;
    }

    // The records with the status, for any batches that the server returns and any concurrent
    // changes: every record found had the status when it was read, every record that had it
    // throughout is found, and a worker that runs this takes the scan steps of its protocol.
    method FindRequestsByStatus(status: Status, ghost c: Params, ghost v: View)
      returns (r: Result<seq<RequestState>, ServiceError>, ghost steps: seq<Turn>, ghost w: View)
      modifies this
      ensures log == old(log) + steps
      ensures r.Ok? ==> AllRead(steps, r.value, status)
      ensures r.Ok? ==> forall id :: HoldsThroughout(steps, id, status) ==> FoundDuring(steps, id, r.value)
      ensures ScanBegins(v, old(db), status) ==>
                && Path(c, v, steps, w) && w.db == db && w.spawned == v.spawned
                && (if r.Ok? then Scanned(w.proc, v.proc, status, r.value) else ScanFailed(w.proc, v.proc, status))
    {
      hide Searching, Reading, ScanBegins, AllRead, Path, Advance, Scanned, ScanFailed;
      hide HoldsThroughout, FoundDuring, MgetMatching, RecordIds, OwedAfter;
      ghost var begins := ScanBegins(v, db, status);
      var cursor := 0;
      var found: seq<RequestState> := [];
      steps, w := [], v;
      SearchStarts(c, v, status, owed, db);
      while true
        invariant log == old(log) + steps && begins == ScanBegins(v, old(db), status)
        invariant Searching(c, v, status, begins, cursor == 0, steps, w, found, owed, db)
        decreases cursor == 0, cursor
      {
        ghost var owed0, db0 := owed, db;
        var reply, turn := Scan(cursor);
        SearchScans(c, v, status, begins, cursor == 0, steps, w, found, owed0, db0, turn, owed);
        steps, w := steps + [turn], Advance(c, w, turn);
        if reply.Err? {
          return Err(reply.error), steps, w;
        }
        var (next, keys) := reply.value;
        var ids := WithoutHeaderKey(keys);
        owed0, db0 := owed, db;
        var values;
        values, turn := MgetUnlessEmpty(ids);
        SearchReads(c, v, status, begins, steps, w, found, owed0, db0, ids, next == 0, turn);
        steps, w := steps + [turn], Advance(c, w, turn);
        if values.Err? {
          return Err(values.error), steps, w;
        }
        found := CollectMatching(found, values.value, status, db, ids);
        cursor := next;
        if cursor == 0 {
          return Ok(found), steps, w;
        }
      }
    }
  }
}
