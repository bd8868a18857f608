// When a stored success stays. Orphan pickup scans before it takes the generation lock, so a
// finished request can be generated again; a success is final exactly in the quiet states below.
module Regeneration {
  import opened Base
  import opened Primitives
  import opened RedisModel
  import opened Protocol
  import opened Runs
  import opened Orphans
  import P = Process
  import I = Integrity
  import S = Safety

  predicate Succeeded(db: Db, id: ProofId) {
    id in db.records && db.records[id].status == Success
  }

  predicate Asked(c: Params, queue: seq<ProofRequest>, id: ProofId) {
    exists r :: r in queue && c.idOf(r) == id
  }

  // The process can still replace a success of this id. A task that only has to repeat the write
  // of a success cannot.
  ghost predicate Threatens(c: Params, pr: Proc, id: ProofId) {
    match pr
    case Task(job, pc) => c.idOf(job) == id && (pc.TStore? ==> pc.state.status != Success)
    case Request(req, pc) =>
      && c.idOf(req) == id
      && (pc.QStore? || pc.QGenLock?
          || (pc.QGetHeader? && (pc.prior.None? || pc.prior.value.status == Errored)))
    case Worker(_, _, pc) =>
      (match pc
       case HSpawn(queue) => Asked(c, queue, id)
       case OScan(scan, _) => HasId(c, scan.found, id)
       case OMget(scan, _, _, _) => HasId(c, scan.found, id)
       case OLock(todo, _) => HasId(c, todo, id)
       case _ => false)
    case _ => false
  }

  ghost predicate Quiet(c: Params, s: State, id: ProofId) {
    forall pid :: pid in s.procs ==> !Threatens(c, s.procs[pid], id)
  }

  // --- Runs that go on ---

  // From event i on, the record of the id does not expire.
  ghost predicate Unexpired(u: Trace, i: nat, id: ProofId) {
    forall k :: i <= k < |u.events| ==> u.events[k] != RecordExpires(id)
  }

  // --- Quiet states stay quiet ---

  lemma RequestStaysQuiet(c: Params, pr: Proc, db: Db, input: Input, id: ProofId)
    requires pr.Request? && Live(pr) && Succeeded(db, id) && !Threatens(c, pr, id)
    ensures var out := ProcStep(c, pr, db, input);
            && Succeeded(out.db, id) && !Threatens(c, out.proc, id)
            && (out.child.Some? ==> !Threatens(c, out.child.value, id))
  {
  }

  lemma TaskStaysQuiet(c: Params, pr: Proc, db: Db, input: Input, id: ProofId)
    requires (pr.Task? || pr.Extender?) && Succeeded(db, id) && !Threatens(c, pr, id)
    ensures var out := ProcStep(c, pr, db, input);
            && Succeeded(out.db, id) && !Threatens(c, out.proc, id)
            && (out.child.Some? ==> !Threatens(c, out.child.value, id))
  {
  }

  lemma CommitStaysQuiet(c: Params, pr: Proc, db: Db, input: Input, id: ProofId)
    requires pr.Worker? && pr.wpc.HCommit? && Succeeded(db, id)
    requires I.ProcOk(c, pr) && S.ProcOk(c, pr, db)
    ensures var out := ProcStep(c, pr, db, input);
            Succeeded(out.db, id) && !Threatens(c, out.proc, id) && out.child.None?
  {
    var ready := pr.wpc.ready;
    var updates := Promotions(c, ready);
    forall i | 0 <= i < |ready|
      ensures c.idOf(ready[i].request) != id && updates[i].0 == c.idOf(ready[i].request)
      ensures Requests(ready)[i] == ready[i].request
    {
      assert ready[i] in ready;
    }
    OverlayAt(db.records, updates, id);
  }

  lemma FoundStaysQuiet(c: Params, db: Db, found: seq<RequestState>, ids: seq<ProofId>, id: ProofId)
    requires I.RecordsOk(c, db) && Succeeded(db, id) && !HasId(c, found, id)
    ensures !HasId(c, found + MgetMatching(db.records, ids, Generating), id)
  {
    MgetMatchingExact(db.records, ids, Generating);
  }

  lemma SkippedStaysQuiet(c: Params, w: Proc, id: ProofId)
    requires w.Worker? && !Threatens(c, w, id)
    ensures w.wpc.HSpawn? && w.wpc.queue != [] ==>
              c.idOf(w.wpc.queue[0]) != id && !Asked(c, w.wpc.queue[1..], id)
    ensures w.wpc.OLock? && w.wpc.todo != [] ==>
              c.idOf(w.wpc.todo[0].request) != id && !HasId(c, w.wpc.todo[1..], id)
  {
    if w.wpc.HSpawn? && w.wpc.queue != [] {
      assert w.wpc.queue[0] in w.wpc.queue;
    } else if w.wpc.OLock? && w.wpc.todo != [] {
      assert w.wpc.todo[0] in w.wpc.todo;
    }
  }

  lemma WorkerStaysQuiet(c: Params, pr: Proc, db: Db, input: Input, id: ProofId)
    requires pr.Worker? && Succeeded(db, id) && !Threatens(c, pr, id)
    requires I.RecordsOk(c, db) && I.ProcOk(c, pr) && S.ProcOk(c, pr, db)
    ensures var out := ProcStep(c, pr, db, input);
            && Succeeded(out.db, id) && !Threatens(c, out.proc, id)
            && (out.child.Some? ==> !Threatens(c, out.child.value, id))
  {
    SkippedStaysQuiet(c, pr, id);
    match pr.wpc
    case HCommit(_) => CommitStaysQuiet(c, pr, db, input, id);
    case OMget(scan, ids, _, _) => FoundStaysQuiet(c, db, scan.found, ids, id);
    case _ =>
  }

  lemma ObservedThreat(c: Params, pr: Proc, db: Db, id: ProofId)
    ensures Threatens(c, Observe(pr, db), id) <==> Threatens(c, pr, id)
  {
  }

  lemma OwnStepStaysQuiet(c: Params, pr: Proc, db: Db, input: Input, id: ProofId)
    requires Live(pr) && Succeeded(db, id) && !Threatens(c, pr, id)
    requires I.RecordsOk(c, db) && I.ProcOk(c, pr) && S.ProcOk(c, pr, db)
    ensures var out := ProcStep(c, pr, db, input);
            && Succeeded(out.db, id) && !Threatens(c, out.proc, id)
            && (out.child.Some? ==> !Threatens(c, out.child.value, id))
  {
    hide Threatens, ProcStep, Succeeded, I.ProcOk, S.ProcOk, I.RecordsOk;
    match pr
    case Request(_, _) => RequestStaysQuiet(c, pr, db, input, id);
    case Worker(_, _, _) => WorkerStaysQuiet(c, pr, db, input, id);
    case _ => TaskStaysQuiet(c, pr, db, input, id);
  }

  lemma SettledQuiet(c: Params, db: Db, procs: map<Pid, Proc>, id: ProofId)
    requires forall pid :: pid in procs ==> !Threatens(c, procs[pid], id)
    ensures Quiet(c, Settle(db, procs), id)
  {
    hide Threatens, Observe;
    forall pid | pid in procs
      ensures !Threatens(c, Observe(procs[pid], db), id)
    {
      ObservedThreat(c, procs[pid], db, id);
    }
  }

  lemma StepStaysQuiet(c: Params, s: State, e: Event, id: ProofId)
    requires S.Inv(c, s) && Enabled(c, s, e) && e != RecordExpires(id)
    requires Succeeded(s.db, id) && Quiet(c, s, id)
    ensures Succeeded(Next(c, s, e).db, id) && Quiet(c, Next(c, s, e), id)
  {
    hide ProcStep, Observe, S.DbOk, S.ProcOk, I.ProcOk, I.RecordsOk, Allowed;
    match e
    case Run(pid, input, child) =>
      OwnStepStaysQuiet(c, s.procs[pid], s.db, input, id);
      var out := ProcStep(c, s.procs[pid], s.db, input);
      SettledQuiet(c, out.db, WithChild(s.procs[pid := out.proc], child, out.child), id);
    case RecordExpires(other) => SettledQuiet(c, ExpireRecord(s.db, other), s.procs, id);
    case GenLockExpires(other) => SettledQuiet(c, ReleaseGen(s.db, other), s.procs, id);
    case GlobalLockExpires => SettledQuiet(c, ReleaseGlobal(s.db), s.procs, id);
    case _ =>
  }

  lemma {:induction false} QuietSuccessStays(c: Params, u: Trace, i: nat, j: nat, id: ProofId)
    requires NoCollision(c) && OneChain(c) && LockedRun(c, u) && i <= j < |u.states|
    requires Unexpired(u, i, id) && Succeeded(u.states[i].db, id) && Quiet(c, u.states[i], id)
    ensures Succeeded(u.states[j].db, id) && Quiet(c, u.states[j], id)
    decreases j
  {
    if i < j {
      QuietSuccessStays(c, u, i, j - 1, id);
      S.EveryStateIsSafe(c, u, j - 1);
      StepStaysQuiet(c, u.states[j - 1], u.events[j - 1], id);
    }
  }

  // --- A state that is not quiet can lose the success ---

  // u' goes on where u ends, and the record does not expire meanwhile.
  ghost predicate Later(u: Trace, u': Trace, id: ProofId) {
    GoesOn(u', u, |u.events|) && Unexpired(u', |u.events|, id)
  }

  lemma LaterStill(u: Trace, v: Trace, w: Trace, id: ProofId)
    requires |u.states| == |u.events| + 1 && |v.states| == |v.events| + 1
    requires Later(u, v, id) && Later(v, w, id)
    ensures Later(u, w, id)
  {
    GoesOnFurther(u, v, w, |u.events|, |v.events|);
  }

  lemma Act(c: Params, u: Trace, e: Event, id: ProofId) returns (u': Trace)
    requires LockedRun(c, u) && Enabled(c, Last(u), e) && e != RecordExpires(id)
    requires Exclusive(Next(c, Last(u), e))
    ensures LockedRun(c, u') && Later(u, u', id) && Last(u') == Next(c, Last(u), e)
  {
    hide Enabled, Next, Exclusive;
    u' := Append(c, u, e);
    AppendIsRun(c, u, e);
  }

  lemma ObservedSection(pr: Proc, db: Db)
    ensures InSection(Observe(pr, db)) <==> InSection(pr)
  {
  }

  lemma ChildIsOutside(c: Params, pr: Proc, db: Db, input: Input)
    requires Live(pr)
    ensures var child := ProcStep(c, pr, db, input).child;
            child.Some? ==> !InSection(child.value) && forall db' :: Observe(child.value, db') == child.value
  {
  }

  // A step that does not acquire the global lock keeps sections apart.
  lemma StepStaysExclusive(c: Params, s: State, pid: Pid, input: Input, child: Pid)
    requires Exclusive(s) && Enabled(c, s, Run(pid, input, child))
    requires InSection(ProcStep(c, s.procs[pid], s.db, input).proc) ==> InSection(s.procs[pid])
    ensures Exclusive(Next(c, s, Run(pid, input, child)))
  {
    var out := ProcStep(c, s.procs[pid], s.db, input);
    ChildIsOutside(c, s.procs[pid], s.db, input);
    var procs := WithChild(s.procs[pid := out.proc], child, out.child);
    hide ProcStep, Observe, InSection, Allowed;
    forall p | p in procs
      ensures InSection(Observe(procs[p], out.db)) ==> p in s.procs && InSection(s.procs[p])
    {
      ObservedSection(procs[p], out.db);
    }
  }

  // The process steps at the end of the run, without acquiring the global lock.
  lemma Steps(c: Params, u: Trace, pid: Pid, input: Input, id: ProofId) returns (u': Trace, child: Pid)
    requires LockedRun(c, u) && pid in Last(u).procs && Live(Last(u).procs[pid])
    requires Allowed(c, Last(u).procs[pid], input)
    requires InSection(ProcStep(c, Last(u).procs[pid], Last(u).db, input).proc) ==> InSection(Last(u).procs[pid])
    ensures LockedRun(c, u') && Later(u, u', id)
    ensures var out := ProcStep(c, Last(u).procs[pid], Last(u).db, input);
            && Last(u').db == out.db
            && pid in Last(u').procs && Last(u').procs[pid] == Observe(out.proc, out.db)
            && (out.child.Some? ==> child in Last(u').procs && Last(u').procs[child] == out.child.value)
  {
    hide ProcStep, Observe, InSection, Allowed, Later, Live;
    child := Bound(Last(u).procs.Keys);
    StepEnabled(c, u, pid, input, child);
    P.OwnEvent(c, Last(u), pid, input, child);
    u' := Act(c, u, Run(pid, input, child), id);
  }

  lemma StepEnabled(c: Params, u: Trace, pid: Pid, input: Input, child: Pid)
    requires LockedRun(c, u) && pid in Last(u).procs && Live(Last(u).procs[pid]) && child !in Last(u).procs
    requires Allowed(c, Last(u).procs[pid], input)
    requires InSection(ProcStep(c, Last(u).procs[pid], Last(u).db, input).proc) ==> InSection(Last(u).procs[pid])
    ensures Enabled(c, Last(u), Run(pid, input, child)) && Exclusive(Next(c, Last(u), Run(pid, input, child)))
  {
    hide ProcStep, Observe, InSection, Allowed, Live;
    StepStaysExclusive(c, Last(u), pid, input, child);
  }

  // The generation lock of an id expires at the end of the run.
  lemma LockGoes(c: Params, u: Trace, pid: Pid, id: ProofId) returns (u': Trace)
    requires LockedRun(c, u) && pid in Last(u).procs
    ensures LockedRun(c, u') && Later(u, u', id)
    ensures var db := ReleaseGen(Last(u).db, id);
            Last(u').db == db && pid in Last(u').procs && Last(u').procs[pid] == Observe(Last(u).procs[pid], db)
  {
    var s := Last(u);
    forall p | p in s.procs
      ensures InSection(Observe(s.procs[p], ReleaseGen(s.db, id))) <==> InSection(s.procs[p])
    {
      ObservedSection(s.procs[p], ReleaseGen(s.db, id));
    }
    u' := Act(c, u, GenLockExpires(id), id);
  }

  const ANSWERED := Input(NoFault, [], false, None, Err(""))
  const LOST := Input(LostRequest, [], false, None, Err(""))

  // A task that has yet to store anything can fail.
  lemma TaskLoses(c: Params, u: Trace, pid: Pid, id: ProofId) returns (u': Trace)
    requires LockedRun(c, u) && pid in Last(u).procs
    requires Last(u).procs[pid].Task? && Threatens(c, Last(u).procs[pid], id)
    ensures LockedRun(c, u') && Later(u, u', id) && !Succeeded(Last(u').db, id)
    decreases match Last(u).procs[pid].tpc case TStart => 2 case TProve => 1 case TStore(_) => 0
  {
    var child;
    u', child := Steps(c, u, pid, ANSWERED, id);
    if !Last(u).procs[pid].tpc.TStore? {
      var v := u';
      u' := TaskLoses(c, v, pid, id);
      LaterStill(u, v, u', id);
    }
  }

  // A process about to take the lock of the id, once the lock is gone, starts such a task.
  lemma SpawnLoses(c: Params, u: Trace, pid: Pid, id: ProofId) returns (u': Trace)
    requires LockedRun(c, u) && pid in Last(u).procs
    requires var pr := Last(u).procs[pid];
             || (pr.Request? && pr.rpc.QGenLock? && c.idOf(pr.req) == id)
             || (pr.Worker? && pr.wpc.HSpawn? && pr.wpc.queue != [] && c.idOf(pr.wpc.queue[0]) == id)
             || (pr.Worker? && pr.wpc.OLock? && pr.wpc.todo != [] && c.idOf(pr.wpc.todo[0].request) == id)
    ensures LockedRun(c, u') && Later(u, u', id) && !Succeeded(Last(u').db, id)
  {
    var v := LockGoes(c, u, pid, id);
    var w, child := Steps(c, v, pid, ANSWERED, id);
    u' := TaskLoses(c, w, child, id);
    LaterStill(u, v, w, id);
    LaterStill(u, w, u', id);
  }

  lemma {:induction false} QueueLoses(c: Params, u: Trace, pid: Pid, id: ProofId) returns (u': Trace)
    requires LockedRun(c, u) && pid in Last(u).procs
    requires Last(u).procs[pid].Worker? && Last(u).procs[pid].wpc.HSpawn? && Threatens(c, Last(u).procs[pid], id)
    ensures LockedRun(c, u') && Later(u, u', id) && !Succeeded(Last(u').db, id)
    decreases |Last(u).procs[pid].wpc.queue|
  {
    var queue := Last(u).procs[pid].wpc.queue;
    if c.idOf(queue[0]) == id {
      u' := SpawnLoses(c, u, pid, id);
    } else {
      var v, _ := Steps(c, u, pid, LOST, id);
      var r :| r in queue && c.idOf(r) == id;
      assert r in queue[1..];
      u' := QueueLoses(c, v, pid, id);
      LaterStill(u, v, u', id);
    }
  }

  lemma {:induction false} PickupLoses(c: Params, u: Trace, pid: Pid, id: ProofId) returns (u': Trace)
    requires LockedRun(c, u) && pid in Last(u).procs
    requires Last(u).procs[pid].Worker? && Last(u).procs[pid].wpc.OLock? && Threatens(c, Last(u).procs[pid], id)
    ensures LockedRun(c, u') && Later(u, u', id) && !Succeeded(Last(u').db, id)
    decreases |Last(u).procs[pid].wpc.todo|
  {
    var todo := Last(u).procs[pid].wpc.todo;
    if c.idOf(todo[0].request) == id {
      u' := SpawnLoses(c, u, pid, id);
    } else {
      var v, _ := Steps(c, u, pid, LOST, id);
      LockCovers(c, todo, id);
      u' := PickupLoses(c, v, pid, id);
      LaterStill(u, v, u', id);
    }
  }

  lemma {:induction false} Listed(ids: set<ProofId>) returns (list: seq<ProofId>)
    ensures forall id :: id in list <==> id in ids
  {
    if ids == {} {
      list := [];
    } else {
      var id :| id in ids;
      list := Listed(ids - {id});
      list := [id] + list;
    }
  }

  // A pickup that has found the id finishes its scan and goes on to the locks.
  lemma ScanLoses(c: Params, u: Trace, pid: Pid, id: ProofId) returns (u': Trace)
    requires LockedRun(c, u) && pid in Last(u).procs && Last(u).procs[pid].Worker?
    requires var pc := Last(u).procs[pid].wpc; pc.OScan? || pc.OMget? || pc.OLock?
    requires Threatens(c, Last(u).procs[pid], id)
    ensures LockedRun(c, u') && Later(u, u', id) && !Succeeded(Last(u').db, id)
    decreases match Last(u).procs[pid].wpc case OLock(_, _) => 0 case OScan(_, _) => 2
              case OMget(_, _, last, _) => if last then 1 else 3 case _ => 0
  {
    var pc := Last(u).procs[pid].wpc;
    if pc.OLock? {
      u' := PickupLoses(c, u, pid, id);
    } else {
      var input := ANSWERED;
      if pc.OScan? {
        var rest := Listed(pc.scan.unseen);
        input := ANSWERED.(ids := rest, last := true);
      } else {
        FoundStays(c, pc.scan.found, MgetMatching(Last(u).db.records, pc.ids, Generating), id);
      }
      var v, _ := Steps(c, u, pid, input, id);
      u' := ScanLoses(c, v, pid, id);
      LaterStill(u, v, u', id);
    }
  }

  lemma FoundStays(c: Params, found: seq<RequestState>, batch: seq<RequestState>, id: ProofId)
    requires HasId(c, found, id)
    ensures HasId(c, found + batch, id)
  {
    var st :| st in found && c.idOf(st.request) == id;
    assert st in found + batch;
  }

  lemma RequestLoses(c: Params, u: Trace, pid: Pid, id: ProofId) returns (u': Trace)
    requires LockedRun(c, u) && pid in Last(u).procs
    requires Last(u).db.header.Some? && Last(u).db.header.value.execBlock.Some?
    requires Last(u).procs[pid].Request? && Threatens(c, Last(u).procs[pid], id)
    ensures LockedRun(c, u') && Later(u, u', id) && !Succeeded(Last(u').db, id)
    decreases if Last(u).procs[pid].rpc.QGetHeader? then 1 else 0
  {
    if Last(u).procs[pid].rpc.QGenLock? {
      u' := SpawnLoses(c, u, pid, id);
    } else {
      var child;
      u', child := Steps(c, u, pid, ANSWERED, id);
      if Last(u).procs[pid].rpc.QGetHeader? {
        var v := u';
        u' := RequestLoses(c, v, pid, id);
        LaterStill(u, v, u', id);
      }
    }
  }

  lemma ThreatLoses(c: Params, u: Trace, pid: Pid, id: ProofId) returns (u': Trace)
    requires LockedRun(c, u) && pid in Last(u).procs && Threatens(c, Last(u).procs[pid], id)
    requires Last(u).db.header.Some? && Last(u).db.header.value.execBlock.Some?
    ensures LockedRun(c, u') && Later(u, u', id) && !Succeeded(Last(u').db, id)
  {
    match Last(u).procs[pid]
    case Task(_, _) => u' := TaskLoses(c, u, pid, id);
    case Request(_, _) => u' := RequestLoses(c, u, pid, id);
    case Worker(_, _, pc) =>
      if pc.HSpawn? {
        u' := QueueLoses(c, u, pid, id);
      } else {
        u' := ScanLoses(c, u, pid, id);
      }
  }

  // --- The exact condition ---

  // In every run that goes on from here without the record's expiry, the success stays.
  ghost predicate IsFinal(c: Params, t: Trace, i: nat, id: ProofId) {
    forall u, j :: LockedRun(c, u) && GoesOn(u, t, i) && Unexpired(u, i, id) && i <= j < |u.states| ==>
      Succeeded(u.states[j].db, id)
  }

  // Main result: a stored success is final if and only if nothing in flight can still write the id.
  lemma SuccessIsFinalExactlyWhenQuiet(c: Params, t: Trace, i: nat, id: ProofId)
    requires NoCollision(c) && OneChain(c) && LockedRun(c, t) && i < |t.states|
    requires Succeeded(t.states[i].db, id)
    ensures IsFinal(c, t, i, id) <==> Quiet(c, t.states[i], id)
  {
    if Quiet(c, t.states[i], id) {
      forall u, j | LockedRun(c, u) && GoesOn(u, t, i) && Unexpired(u, i, id) && i <= j < |u.states|
        ensures Succeeded(u.states[j].db, id)
      {
        assert u.states[..i + 1][i] == t.states[..i + 1][i];
        QuietSuccessStays(c, u, i, j, id);
      }
    } else {
      S.EveryStateIsSafe(c, t, i);
      var u := Prefix(t, i);
      PrefixIsRun(c, t, i);
      var pid :| pid in t.states[i].procs && Threatens(c, t.states[i].procs[pid], id);
      var u' := ThreatLoses(c, u, pid, id);
      assert GoesOn(u', t, i);
    }
  }
}
