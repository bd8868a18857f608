// What every stored record looks like in every reachable state, with no hypothesis
// on the global lock.
module Integrity {
  import opened Base
  import opened Primitives
  import opened RedisModel
  import opened Protocol

  // Proof data exactly on success, an error message exactly on failure, and never the
  // transient status of a freshly constructed state.
  ghost predicate WellFormed(c: Params, st: RequestState) {
    && c.known(st.request)
    && !st.status.Initiated?
    && st.networkTxId.None?
    && (st.proofData.Some? <==> st.status.Success?)
    && (st.errorMessage.Some? <==> st.status.Errored?)
    && (st.proofData.Some? ==> c.canProve(st.request, st.proofData.value))
  }

  ghost predicate RecordsOk(c: Params, db: Db) {
    forall id :: id in db.records ==> c.idOf(db.records[id].request) == id && WellFormed(c, db.records[id])
  }

  ghost predicate AllOfStatus(c: Params, states: seq<RequestState>, status: Status) {
    forall st :: st in states ==> WellFormed(c, st) && st.status == status
  }

  ghost predicate ResultOk(c: Params, req: ProofRequest, result: RequestResult) {
    result.Ok? ==> result.value.0 == c.idOf(req) && !result.value.1.Initiated?
  }

  ghost predicate ProcOk(c: Params, pr: Proc) {
    match pr
    case Request(req, pc) =>
      && c.known(req)
      && (pc.QGetHeader? && pc.prior.Some? ==> WellFormed(c, pc.prior.value))
      && (pc.QRelease? ==> ResultOk(c, req, pc.result))
      && (pc.QDone? ==> ResultOk(c, req, pc.result))
    case Worker(_, _, pc) =>
      && (pc.HScan? ==> AllOfStatus(c, pc.scan.found, WaitingForFinality))
      && (pc.HMget? ==> AllOfStatus(c, pc.scan.found, WaitingForFinality))
      && (pc.HCommit? ==> AllOfStatus(c, pc.ready, WaitingForFinality))
      && (pc.HSpawn? ==> forall r :: r in pc.queue ==> c.known(r))
      && (pc.OScan? ==> AllOfStatus(c, pc.scan.found, Generating))
      && (pc.OMget? ==> AllOfStatus(c, pc.scan.found, Generating))
      && (pc.OLock? ==> AllOfStatus(c, pc.todo, Generating))
    case Task(req, pc) =>
      c.known(req) && (pc.TStore? ==> pc.state.request == req && WellFormed(c, pc.state))
    case _ => true
  }

  ghost predicate Inv(c: Params, s: State) {
    RecordsOk(c, s.db) && forall pid :: pid in s.procs ==> ProcOk(c, s.procs[pid])
  }

  lemma {:induction false} FilterReadyExact(header: Header, found: seq<RequestState>)
    ensures forall st :: st in FilterReady(header, found) <==> st in found && Ready(header, st)
  {
    if found != [] {
      FilterReadyExact(header, found[..|found| - 1]);
      assert found == found[..|found| - 1] + [found[|found| - 1]];
    }
  }

  lemma MgetKeeps(c: Params, db: Db, found: seq<RequestState>, ids: seq<ProofId>, status: Status)
    requires RecordsOk(c, db) && AllOfStatus(c, found, status)
    ensures AllOfStatus(c, found + MgetMatching(db.records, ids, status), status)
  {
    MgetMatchingExact(db.records, ids, status);
  }

  lemma MultiKeeps(c: Params, db: Db, header: Header, ready: seq<RequestState>)
    requires RecordsOk(c, db) && AllOfStatus(c, ready, WaitingForFinality)
    ensures RecordsOk(c, Multi(db, header, Promotions(c, ready)))
  {
    var updates := Promotions(c, ready);
    var db' := Multi(db, header, updates);
    forall id | id in db'.records
      ensures c.idOf(db'.records[id].request) == id && WellFormed(c, db'.records[id])
    {
      OverlayAt(db.records, updates, id);
      if i :| 0 <= i < |updates| && updates[i] == (id, db'.records[id]) {
        assert updates[i] == (c.idOf(ready[i].request), Promote(ready[i]));
        assert ready[i] in ready;
      }
    }
  }

  lemma RequestStepKeeps(c: Params, req: ProofRequest, pc: RequestPc, db: Db, f: Fault)
    requires RecordsOk(c, db) && ProcOk(c, Request(req, pc)) && !pc.QDone?
    ensures var out := RequestStep(c, req, pc, db, f);
            RecordsOk(c, out.db) && ProcOk(c, out.proc) && (out.child.Some? ==> ProcOk(c, out.child.value))
  {
  }

  lemma HeaderStepKeeps(c: Params, w: Proc, db: Db, input: Input)
    requires RecordsOk(c, db) && ProcOk(c, w) && w.Worker?
    requires w.wpc.HMget? || w.wpc.HCommit?
    ensures var out := WorkerStep(c, w, db, input);
            RecordsOk(c, out.db) && ProcOk(c, out.proc) && (out.child.Some? ==> ProcOk(c, out.child.value))
  {
    if w.wpc.HMget? {
      var found := w.wpc.scan.found;
      MgetKeeps(c, db, found, w.wpc.ids, WaitingForFinality);
      FilterReadyExact(w.tip, found + MgetMatching(db.records, w.wpc.ids, WaitingForFinality));
    } else {
      MultiKeeps(c, db, w.tip, w.wpc.ready);
    }
  }

  lemma OrphanStepKeeps(c: Params, w: Proc, db: Db, input: Input)
    requires RecordsOk(c, db) && ProcOk(c, w) && w.Worker?
    requires w.wpc.OStart? || w.wpc.OScan? || w.wpc.OMget? || w.wpc.OLock?
    ensures var out := WorkerStep(c, w, db, input);
            RecordsOk(c, out.db) && ProcOk(c, out.proc) && (out.child.Some? ==> ProcOk(c, out.child.value))
  {
    if w.wpc.OMget? {
      MgetKeeps(c, db, w.wpc.scan.found, w.wpc.ids, Generating);
    }
  }

  lemma WorkerStepKeeps(c: Params, w: Proc, db: Db, input: Input)
    requires RecordsOk(c, db) && ProcOk(c, w) && w.Worker?
    ensures var out := WorkerStep(c, w, db, input);
            RecordsOk(c, out.db) && ProcOk(c, out.proc) && (out.child.Some? ==> ProcOk(c, out.child.value))
  {
    match w.wpc
    case HMget(_, _, _) => HeaderStepKeeps(c, w, db, input);
    case HCommit(_) => HeaderStepKeeps(c, w, db, input);
    case OStart => OrphanStepKeeps(c, w, db, input);
    case OScan(_, _) => OrphanStepKeeps(c, w, db, input);
    case OMget(_, _, _, _) => OrphanStepKeeps(c, w, db, input);
    case OLock(_, _) => OrphanStepKeeps(c, w, db, input);
    case _ =>
  }

  lemma TaskStepKeeps(c: Params, req: ProofRequest, pc: TaskPc, db: Db, input: Input)
    requires RecordsOk(c, db) && ProcOk(c, Task(req, pc)) && Allowed(c, Task(req, pc), input)
    ensures var out := TaskStep(c, req, pc, db, input);
            RecordsOk(c, out.db) && ProcOk(c, out.proc) && (out.child.Some? ==> ProcOk(c, out.child.value))
  {
  }

  lemma ProcStepKeeps(c: Params, pr: Proc, db: Db, input: Input)
    requires RecordsOk(c, db) && ProcOk(c, pr) && Live(pr) && Allowed(c, pr, input)
    ensures var out := ProcStep(c, pr, db, input);
            RecordsOk(c, out.db) && ProcOk(c, out.proc) && (out.child.Some? ==> ProcOk(c, out.child.value))
  {
    match pr
    case Request(req, pc) => RequestStepKeeps(c, req, pc, db, input.fault);
    case Worker(_, _, _) => WorkerStepKeeps(c, pr, db, input);
    case Task(req, pc) => TaskStepKeeps(c, req, pc, db, input);
    case Extender(id) =>
  }

  lemma ObserveKeeps(c: Params, pr: Proc, db: Db)
    requires ProcOk(c, pr)
    ensures ProcOk(c, Observe(pr, db))
  {
  }

  lemma SettleKeeps(c: Params, db: Db, procs: map<Pid, Proc>)
    requires RecordsOk(c, db) && forall pid :: pid in procs ==> ProcOk(c, procs[pid])
    ensures Inv(c, Settle(db, procs))
  {
    forall pid | pid in procs
      ensures ProcOk(c, Observe(procs[pid], db))
    {
      ObserveKeeps(c, procs[pid], db);
    }
  }

  lemma StepKeeps(c: Params, s: State, e: Event)
    requires Inv(c, s) && Enabled(c, s, e)
    ensures Inv(c, Next(c, s, e))
  {
    match e
    case Run(pid, input, child) =>
      ProcStepKeeps(c, s.procs[pid], s.db, input);
      var out := ProcStep(c, s.procs[pid], s.db, input);
      SettleKeeps(c, out.db, WithChild(s.procs[pid := out.proc], child, out.child));
    case RecordExpires(id) => SettleKeeps(c, ExpireRecord(s.db, id), s.procs);
    case GenLockExpires(id) => SettleKeeps(c, ReleaseGen(s.db, id), s.procs);
    case GlobalLockExpires => SettleKeeps(c, ReleaseGlobal(s.db), s.procs);
    case _ =>
  }

  // In every state of every run each record sits under the id of its own request and is well formed.
  lemma {:induction false} EveryStateIsWellFormed(c: Params, t: Trace, i: nat)
    requires IsRun(c, t) && i < |t.states|
    ensures Inv(c, t.states[i])
  {
    if i > 0 {
      EveryStateIsWellFormed(c, t, i - 1);
      StepKeeps(c, t.states[i - 1], t.events[i - 1]);
    }
  }

  // request_proof answers with the id of the request it was given and never with Initiated.
  lemma RequestProofNeverAnswersInitiated(c: Params, t: Trace, i: nat, pid: Pid)
    requires IsRun(c, t) && i < |t.states| && pid in t.states[i].procs
    requires t.states[i].procs[pid].Request? && t.states[i].procs[pid].rpc.QDone?
    ensures var pr := t.states[i].procs[pid];
            pr.rpc.result.Ok? ==> pr.rpc.result.value.0 == c.idOf(pr.req) && pr.rpc.result.value.1 != Initiated
  {
    EveryStateIsWellFormed(c, t, i);
    assert ProcOk(c, t.states[i].procs[pid]);
  }
}
