// Finality safety over every run in which locked sections do not overlap (H1), all
// headers come from one chain (H2) and no two requests share an id.
module Safety {
  import opened Base
  import opened Primitives
  import opened RedisModel
  import opened Protocol
  import I = Integrity

  // The finality test under whatever header is stored.
  predicate Passes(stored: Option<Header>, request: ProofRequest) {
    stored.Some? && Finalized(stored.value, request)
  }

  ghost predicate DbOk(c: Params, db: Db) {
    && (db.header.Some? ==> c.chain(db.header.value) && db.header.value.execBlock.Some?)
    && forall id :: id in db.records ==>
         (db.records[id].status == WaitingForFinality <==> !Passes(db.header, db.records[id].request))
  }

  // Found waiting records are still in the store as found, unless their key expired.
  ghost predicate FoundOk(c: Params, db: Db, found: seq<RequestState>) {
    forall st :: st in found ==>
      && !Passes(db.header, st.request)
      && (c.idOf(st.request) in db.records ==> db.records[c.idOf(st.request)] == st)
  }

  // Every waiting record is still to be returned, about to be read, or found.
  ghost predicate Covered(db: Db, scan: Scan, ids: seq<ProofId>) {
    forall id :: id in db.records && db.records[id].status == WaitingForFinality ==>
      id in scan.unseen || id in ids || db.records[id] in scan.found
  }

  ghost predicate AllPass(db: Db, found: seq<RequestState>) {
    forall st :: st in found ==> Passes(db.header, st.request)
  }

  predicate AtLeast(stored: Option<Header>, tip: Header) {
    stored.Some? && stored.value.slot >= tip.slot
  }

  predicate Waits(c: Params, db: Db, req: ProofRequest) {
    var id := c.idOf(req);
    id in db.records && db.records[id].status == WaitingForFinality
  }

  ghost predicate WorkerOk(c: Params, tip: Header, advance: bool, pc: WorkerPc, db: Db) {
    && c.chain(tip)
    && (!advance ==> AtLeast(db.header, tip))
    && (match pc
        case HScan(scan) =>
          OutdatedBy(db.header, tip) && FoundOk(c, db, scan.found) && Covered(db, scan, [])
        case HMget(scan, ids, last) =>
          && OutdatedBy(db.header, tip) && FoundOk(c, db, scan.found) && Covered(db, scan, ids)
          && (last ==> scan.unseen == {})
        case HCommit(ready) =>
          && OutdatedBy(db.header, tip) && FoundOk(c, db, ready) && tip.execBlock.Some?
          && (forall st :: st in ready ==> Ready(tip, st))
          && (forall id :: id in db.records && Ready(tip, db.records[id]) ==> db.records[id] in ready)
        case HSpawn(queue) =>
          AtLeast(db.header, tip) && forall r :: r in queue ==> Passes(db.header, r)
        case HRelease(result) => result == UpToDate ==> AtLeast(db.header, tip)
        case OScan(scan, _) => AllPass(db, scan.found)
        case OMget(scan, _, _, _) => AllPass(db, scan.found)
        case OLock(todo, _) => AllPass(db, todo)
        case _ => true)
  }

  ghost predicate ProcOk(c: Params, pr: Proc, db: Db) {
    match pr
    case Request(req, pc) =>
      && (pc.QGetHeader? && (pc.prior.Some? ==> pc.prior.value.status == Errored) ==> !Waits(c, db, req))
      && (pc.QStore? ==> db.header == Some(pc.header) && pc.header.execBlock.Some? && !Waits(c, db, req))
      && (pc.QGenLock? ==> Passes(db.header, req))
    case Worker(tip, advance, pc) => WorkerOk(c, tip, advance, pc, db)
    case Task(req, pc) => Passes(db.header, req) && (pc.TStore? ==> pc.state.status in {Success, Errored})
    case _ => true
  }

  ghost predicate Inv(c: Params, s: State) {
    && I.Inv(c, s)
    && DbOk(c, s.db)
    && forall pid :: pid in s.procs ==> ProcOk(c, s.procs[pid], s.db)
  }

  predicate NoOlder(before: Option<Header>, after: Option<Header>) {
    before.Some? ==> after.Some? && (before == after || before.value.slot < after.value.slot)
  }

  // What a step guarantees to the other processes. A step outside the locked sections
  // changes neither the header nor any waiting record, except that a record may vanish.
  ghost predicate Guarantee(locked: bool, db: Db, db': Db) {
    && NoOlder(db.header, db'.header)
    && (!locked ==>
          && db.header == db'.header
          && (forall id :: id in db'.records && db'.records[id].status == WaitingForFinality ==>
                id in db.records && db.records[id] == db'.records[id])
          && (forall id :: id in db.records && id in db'.records && db.records[id].status == WaitingForFinality ==>
                db.records[id] == db'.records[id]))
  }

  lemma PassesIsStable(c: Params, before: Option<Header>, after: Option<Header>, request: ProofRequest)
    requires OneChain(c) && NoOlder(before, after) && Passes(before, request)
    requires c.chain(before.value) && c.chain(after.value) && after.value.execBlock.Some?
    ensures Passes(after, request)
  {
  }

  // --- One process's own step ---

  lemma RequestStepKeeps(c: Params, req: ProofRequest, pc: RequestPc, db: Db, f: Fault)
    requires NoCollision(c)
    requires I.RecordsOk(c, db) && DbOk(c, db) && ProcOk(c, Request(req, pc), db) && !pc.QDone?
    ensures var out := RequestStep(c, req, pc, db, f);
            && DbOk(c, out.db) && ProcOk(c, out.proc, out.db)
            && (out.child.Some? ==> ProcOk(c, out.child.value, out.db))
            && Guarantee(InSection(Request(req, pc)), db, out.db)
  {
  }

  lemma TaskStepKeeps(c: Params, req: ProofRequest, pc: TaskPc, db: Db, input: Input)
    requires NoCollision(c)
    requires I.RecordsOk(c, db) && I.ProcOk(c, Task(req, pc))
    requires DbOk(c, db) && ProcOk(c, Task(req, pc), db) && Allowed(c, Task(req, pc), input)
    ensures var out := TaskStep(c, req, pc, db, input);
            && DbOk(c, out.db) && ProcOk(c, out.proc, out.db)
            && (out.child.Some? ==> ProcOk(c, out.child.value, out.db))
            && Guarantee(false, db, out.db)
  {
  }

  // The transaction promotes exactly the waiting records that pass under the new header.
  lemma CommitKeeps(c: Params, tip: Header, advance: bool, ready: seq<RequestState>, db: Db)
    requires NoCollision(c) && OneChain(c)
    requires I.RecordsOk(c, db) && I.AllOfStatus(c, ready, WaitingForFinality)
    requires DbOk(c, db) && WorkerOk(c, tip, advance, HCommit(ready), db)
    ensures var db' := Multi(db, tip, Promotions(c, ready));
            DbOk(c, db') && WorkerOk(c, tip, advance, HSpawn(Requests(ready)), db')
  {
    var updates := Promotions(c, ready);
    var db' := Multi(db, tip, updates);
    forall st | st in ready
      ensures exists i :: 0 <= i < |updates| && updates[i].0 == c.idOf(st.request)
    {
      var i :| 0 <= i < |ready| && ready[i] == st;
      assert updates[i].0 == c.idOf(st.request);
    }
    forall id | id in db'.records
      ensures db'.records[id].status == WaitingForFinality <==> !Passes(db'.header, db'.records[id].request)
    {
      OverlayAt(db.records, updates, id);
      if i :| 0 <= i < |updates| && updates[i] == (id, db'.records[id]) {
        assert updates[i] == (c.idOf(ready[i].request), Promote(ready[i]));
        assert ready[i] in ready;
      } else if Passes(db.header, db.records[id].request) {
        PassesIsStable(c, db.header, db'.header, db.records[id].request);
      }
    }
    forall r | r in Requests(ready)
      ensures Passes(db'.header, r)
    {
      var i :| 0 <= i < |ready| && Requests(ready)[i] == r;
      assert ready[i] in ready;
    }
  }

  lemma MgetWaitingKeeps(c: Params, tip: Header, advance: bool, pc: WorkerPc, db: Db)
    requires I.RecordsOk(c, db) && I.ProcOk(c, Worker(tip, advance, pc))
    requires pc.HMget? && DbOk(c, db) && WorkerOk(c, tip, advance, pc, db)
    ensures var found := pc.scan.found + MgetMatching(db.records, pc.ids, WaitingForFinality);
            WorkerOk(c, tip, advance, AfterHeaderBatch(tip, pc.scan.(found := found), pc.last), db)
  {
    var batch := MgetMatching(db.records, pc.ids, WaitingForFinality);
    var found := pc.scan.found + batch;
    MgetMatchingExact(db.records, pc.ids, WaitingForFinality);
    I.FilterReadyExact(tip, found);
    forall id | id in db.records && db.records[id].status == WaitingForFinality && id !in pc.scan.unseen
      ensures db.records[id] in found
    {
      if id in pc.ids {
        assert db.records[id] in batch;
      }
    }
  }

  lemma MgetGeneratingKeeps(c: Params, tip: Header, advance: bool, pc: WorkerPc, db: Db)
    requires I.RecordsOk(c, db)
    requires pc.OMget? && DbOk(c, db) && WorkerOk(c, tip, advance, pc, db)
    ensures var found := pc.scan.found + MgetMatching(db.records, pc.ids, Generating);
            WorkerOk(c, tip, advance, AfterOrphanBatch(pc.scan.(found := found), pc.last, pc.pass), db)
  {
    MgetMatchingExact(db.records, pc.ids, Generating);
  }

  lemma ScanStepKeeps(c: Params, w: Proc, db: Db, input: Input)
    requires w.Worker? && I.RecordsOk(c, db) && I.ProcOk(c, w) && Allowed(c, w, input)
    requires w.wpc.HRead? || w.wpc.HScan?
    requires DbOk(c, db) && ProcOk(c, w, db)
    ensures var out := WorkerStep(c, w, db, input);
            && DbOk(c, out.db) && ProcOk(c, out.proc, out.db)
            && (out.child.Some? ==> ProcOk(c, out.child.value, out.db))
            && Guarantee(InSection(w), db, out.db)
  {
  }

  lemma MgetStepKeeps(c: Params, w: Proc, db: Db, input: Input)
    requires w.Worker? && I.RecordsOk(c, db) && I.ProcOk(c, w) && Allowed(c, w, input)
    requires w.wpc.HMget?
    requires DbOk(c, db) && ProcOk(c, w, db)
    ensures var out := WorkerStep(c, w, db, input);
            && DbOk(c, out.db) && ProcOk(c, out.proc, out.db)
            && (out.child.Some? ==> ProcOk(c, out.child.value, out.db))
            && Guarantee(InSection(w), db, out.db)
  {
    MgetWaitingKeeps(c, w.tip, w.advance, w.wpc, db);
  }

  lemma SpawnStepKeeps(c: Params, w: Proc, db: Db, input: Input)
    requires NoCollision(c) && OneChain(c)
    requires w.Worker? && I.RecordsOk(c, db) && I.ProcOk(c, w) && Allowed(c, w, input)
    requires w.wpc.HAcquire? || w.wpc.HSpawn? || w.wpc.HRelease?
    requires DbOk(c, db) && ProcOk(c, w, db)
    ensures var out := WorkerStep(c, w, db, input);
            && DbOk(c, out.db) && ProcOk(c, out.proc, out.db)
            && (out.child.Some? ==> ProcOk(c, out.child.value, out.db))
            && Guarantee(InSection(w), db, out.db)
  {
  }

  lemma CommitStepKeeps(c: Params, w: Proc, db: Db, input: Input)
    requires NoCollision(c) && OneChain(c)
    requires w.Worker? && I.RecordsOk(c, db) && I.ProcOk(c, w) && w.wpc.HCommit?
    requires DbOk(c, db) && ProcOk(c, w, db)
    ensures var out := WorkerStep(c, w, db, input);
            && DbOk(c, out.db) && ProcOk(c, out.proc, out.db) && out.child.None?
            && Guarantee(InSection(w), db, out.db)
  {
    CommitKeeps(c, w.tip, w.advance, w.wpc.ready, db);
  }

  lemma OrphanScanStepKeeps(c: Params, w: Proc, db: Db, input: Input)
    requires w.Worker? && I.RecordsOk(c, db) && I.ProcOk(c, w)
    requires w.wpc.OStart? || w.wpc.OScan? || w.wpc.OMget?
    requires DbOk(c, db) && ProcOk(c, w, db)
    ensures var out := WorkerStep(c, w, db, input);
            && DbOk(c, out.db) && ProcOk(c, out.proc, out.db)
            && (out.child.Some? ==> ProcOk(c, out.child.value, out.db))
            && Guarantee(InSection(w), db, out.db)
  {
    if w.wpc.OMget? {
      MgetGeneratingKeeps(c, w.tip, w.advance, w.wpc, db);
    }
  }

  lemma OrphanLockStepKeeps(c: Params, w: Proc, db: Db, input: Input)
    requires w.Worker? && I.RecordsOk(c, db) && I.ProcOk(c, w)
    requires w.wpc.OLock?
    requires DbOk(c, db) && ProcOk(c, w, db)
    ensures var out := WorkerStep(c, w, db, input);
            && DbOk(c, out.db) && ProcOk(c, out.proc, out.db)
            && (out.child.Some? ==> ProcOk(c, out.child.value, out.db))
            && Guarantee(InSection(w), db, out.db)
  {
  }

  lemma LoopStepKeeps(c: Params, w: Proc, db: Db, input: Input)
    requires w.Worker? && Allowed(c, w, input) && ProcOk(c, w, db) && DbOk(c, db)
    requires w.wpc.LoopTop? || w.wpc.ODone? || w.wpc.Tick?
    ensures var out := WorkerStep(c, w, db, input);
            && DbOk(c, out.db) && ProcOk(c, out.proc, out.db) && out.child.None?
            && Guarantee(InSection(w), db, out.db)
  {
  }

  lemma WorkerStepKeeps(c: Params, w: Proc, db: Db, input: Input)
    requires NoCollision(c) && OneChain(c)
    requires w.Worker? && I.RecordsOk(c, db) && I.ProcOk(c, w) && Allowed(c, w, input)
    requires DbOk(c, db) && ProcOk(c, w, db)
    ensures var out := WorkerStep(c, w, db, input);
            && DbOk(c, out.db) && ProcOk(c, out.proc, out.db)
            && (out.child.Some? ==> ProcOk(c, out.child.value, out.db))
            && Guarantee(InSection(w), db, out.db)
  {
    hide WorkerStep, ProcOk, DbOk, Guarantee, Allowed, InSection;
    match w.wpc
    case LoopTop => LoopStepKeeps(c, w, db, input);
    case ODone(_) => LoopStepKeeps(c, w, db, input);
    case Tick => LoopStepKeeps(c, w, db, input);
    case HCommit(_) => CommitStepKeeps(c, w, db, input);
    case OStart => OrphanScanStepKeeps(c, w, db, input);
    case OScan(_, _) => OrphanScanStepKeeps(c, w, db, input);
    case OMget(_, _, _, _) => OrphanScanStepKeeps(c, w, db, input);
    case OLock(_, _) => OrphanLockStepKeeps(c, w, db, input);
    case HRead => ScanStepKeeps(c, w, db, input);
    case HScan(_) => ScanStepKeeps(c, w, db, input);
    case HMget(_, _, _) => MgetStepKeeps(c, w, db, input);
    case _ => SpawnStepKeeps(c, w, db, input);
  }

  lemma ProcStepKeeps(c: Params, pr: Proc, db: Db, input: Input)
    requires NoCollision(c) && OneChain(c)
    requires Live(pr) && I.RecordsOk(c, db) && I.ProcOk(c, pr) && Allowed(c, pr, input)
    requires DbOk(c, db) && ProcOk(c, pr, db)
    ensures var out := ProcStep(c, pr, db, input);
            && DbOk(c, out.db) && ProcOk(c, out.proc, out.db)
            && (out.child.Some? ==> ProcOk(c, out.child.value, out.db))
            && Guarantee(InSection(pr), db, out.db)
  {
    match pr
    case Request(req, pc) => RequestStepKeeps(c, req, pc, db, input.fault);
    case Worker(_, _, _) => WorkerStepKeeps(c, pr, db, input);
    case Task(req, pc) => TaskStepKeeps(c, req, pc, db, input);
    case Extender(_) =>
  }

  // --- Every other process's view of that step ---

  lemma FoundStaysOk(c: Params, db: Db, db': Db, found: seq<RequestState>)
    requires NoCollision(c) && I.RecordsOk(c, db') && I.AllOfStatus(c, found, WaitingForFinality)
    requires DbOk(c, db) && DbOk(c, db') && Guarantee(false, db, db') && FoundOk(c, db, found)
    ensures FoundOk(c, db', found)
  {
  }

  lemma OtherWorkerKeeps(c: Params, w: Proc, locked: bool, db: Db, db': Db)
    requires NoCollision(c) && OneChain(c)
    requires I.RecordsOk(c, db') && I.ProcOk(c, w)
    requires DbOk(c, db) && DbOk(c, db') && Guarantee(locked, db, db')
    requires w.Worker? && ProcOk(c, w, db) && !(locked && InSection(w))
    requires forall r :: Passes(db.header, r) ==> Passes(db'.header, r)
    ensures ProcOk(c, w, db')
  {
    match w.wpc
    case HScan(scan) => FoundStaysOk(c, db, db', scan.found);
    case HMget(scan, _, _) => FoundStaysOk(c, db, db', scan.found);
    case HCommit(ready) => FoundStaysOk(c, db, db', ready);
    case _ =>
  }

  lemma ObserveKeeps(c: Params, pr: Proc, db: Db)
    requires ProcOk(c, pr, db)
    ensures ProcOk(c, Observe(pr, db), db)
  {
  }

  lemma OthersKeep(c: Params, pr: Proc, locked: bool, db: Db, db': Db)
    requires NoCollision(c) && OneChain(c)
    requires I.RecordsOk(c, db') && I.ProcOk(c, pr)
    requires DbOk(c, db) && DbOk(c, db') && Guarantee(locked, db, db')
    requires ProcOk(c, pr, db) && !(locked && InSection(pr))
    ensures ProcOk(c, pr, db') && ProcOk(c, Observe(pr, db'), db')
  {
    forall r | Passes(db.header, r)
      ensures Passes(db'.header, r)
    {
      PassesIsStable(c, db.header, db'.header, r);
    }
    if pr.Worker? {
      OtherWorkerKeeps(c, pr, locked, db, db');
    }
    ObserveKeeps(c, pr, db');
  }

  // --- Whole steps and whole runs ---

  lemma RunKeeps(c: Params, s: State, e: Event)
    requires NoCollision(c) && OneChain(c)
    requires Inv(c, s) && Exclusive(s) && Enabled(c, s, e) && e.Run?
    ensures Inv(c, Next(c, s, e))
    ensures Guarantee(InSection(s.procs[e.pid]), s.db, Next(c, s, e).db)
  {
    var pr := s.procs[e.pid];
    var out := ProcStep(c, pr, s.db, e.input);
    I.StepKeeps(c, s, e);
    ProcStepKeeps(c, pr, s.db, e.input);
    var procs := WithChild(s.procs[e.pid := out.proc], e.child, out.child);
    forall pid | pid in procs
      ensures ProcOk(c, Observe(procs[pid], out.db), out.db)
    {
      if pid == e.pid || pid !in s.procs {
        ObserveKeeps(c, procs[pid], out.db);
      } else {
        OthersKeep(c, s.procs[pid], InSection(pr), s.db, out.db);
      }
    }
  }

  lemma ExpiryKeeps(c: Params, s: State, db': Db)
    requires NoCollision(c) && OneChain(c)
    requires Inv(c, s) && I.RecordsOk(c, db') && DbOk(c, db') && Guarantee(false, s.db, db')
    ensures forall pid :: pid in s.procs ==> ProcOk(c, Observe(s.procs[pid], db'), db')
  {
    forall pid | pid in s.procs
      ensures ProcOk(c, Observe(s.procs[pid], db'), db')
    {
      OthersKeep(c, s.procs[pid], false, s.db, db');
    }
  }

  lemma StepKeeps(c: Params, s: State, e: Event)
    requires NoCollision(c) && OneChain(c)
    requires Inv(c, s) && Exclusive(s) && Enabled(c, s, e)
    ensures Inv(c, Next(c, s, e)) && NoOlder(s.db.header, Next(c, s, e).db.header)
  {
    I.StepKeeps(c, s, e);
    match e
    case Run(_, _, _) => RunKeeps(c, s, e);
    case RecordExpires(id) => ExpiryKeeps(c, s, ExpireRecord(s.db, id));
    case GenLockExpires(id) => ExpiryKeeps(c, s, ReleaseGen(s.db, id));
    case GlobalLockExpires => ExpiryKeeps(c, s, ReleaseGlobal(s.db));
    case _ =>
  }

  // The invariant holds in every state of every run under H1, H2 and no id collision.
  lemma {:induction false} EveryStateIsSafe(c: Params, t: Trace, i: nat)
    requires NoCollision(c) && OneChain(c) && LockedRun(c, t) && i < |t.states|
    ensures Inv(c, t.states[i])
  {
    if i > 0 {
      EveryStateIsSafe(c, t, i - 1);
      StepKeeps(c, t.states[i - 1], t.events[i - 1]);
    } else {
      I.EveryStateIsWellFormed(c, t, 0);
    }
  }

  // Main result: waiting records fail the finality test under the stored header, all
  // others pass it, and so does the request of every live generation task.
  lemma StatusMatchesFinality(c: Params, t: Trace, i: nat)
    requires NoCollision(c) && OneChain(c) && LockedRun(c, t) && i < |t.states|
    ensures var db := t.states[i].db;
            forall id :: id in db.records ==>
              (db.records[id].status == WaitingForFinality <==> !Passes(db.header, db.records[id].request))
    ensures var s := t.states[i];
            forall pid :: pid in s.procs && s.procs[pid].Task? ==> Passes(s.db.header, s.procs[pid].job)
  {
    EveryStateIsSafe(c, t, i);
  }

  // The stored header never goes back and never disappears.
  lemma {:induction false} HeaderNeverGoesBack(c: Params, t: Trace, i: nat, j: nat)
    requires NoCollision(c) && OneChain(c) && LockedRun(c, t) && i <= j < |t.states|
    ensures NoOlder(t.states[i].db.header, t.states[j].db.header)
    decreases j
  {
    if i < j {
      HeaderNeverGoesBack(c, t, i, j - 1);
      EveryStateIsSafe(c, t, j - 1);
      StepKeeps(c, t.states[j - 1], t.events[j - 1]);
    }
  }

  // No regression: once a request has been stored as anything but waiting, or has been
  // given to a generation task, no later state stores it as waiting, even after its
  // record has expired or has been replaced.
  lemma NeverWaitingAgain(c: Params, t: Trace, i: nat, j: nat, request: ProofRequest)
    requires NoCollision(c) && OneChain(c) && LockedRun(c, t) && i <= j < |t.states|
    requires var s := t.states[i];
             || (exists id :: id in s.db.records && s.db.records[id].request == request
                              && s.db.records[id].status != WaitingForFinality)
             || (exists pid :: pid in s.procs && s.procs[pid].Task? && s.procs[pid].job == request)
    ensures var db := t.states[j].db;
            forall id :: id in db.records && db.records[id].request == request ==>
              db.records[id].status != WaitingForFinality
  {
    StatusMatchesFinality(c, t, i);
    StatusMatchesFinality(c, t, j);
    HeaderNeverGoesBack(c, t, i, j);
    EveryStateIsSafe(c, t, i);
    EveryStateIsSafe(c, t, j);
    PassesIsStable(c, t.states[i].db.header, t.states[j].db.header, request);
  }

  // Run-loop invariant: a worker that sees no need to advance the stored header is right,
  // whatever the other workers do.
  lemma IdleWorkersAreUpToDate(c: Params, t: Trace, i: nat, pid: Pid)
    requires NoCollision(c) && OneChain(c) && LockedRun(c, t) && i < |t.states|
    requires pid in t.states[i].procs && t.states[i].procs[pid].Worker?
    requires !t.states[i].procs[pid].advance
    ensures AtLeast(t.states[i].db.header, t.states[i].procs[pid].tip)
  {
    EveryStateIsSafe(c, t, i);
    assert ProcOk(c, t.states[i].procs[pid], t.states[i].db);
  }
}
