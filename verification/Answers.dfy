// What request_proof answers: a status that was stored during the request, or an error that happened.
module Answers {
  import opened Base
  import opened Primitives
  import opened RedisModel
  import opened Protocol

  predicate Asking(s: State, pid: Pid, req: ProofRequest) {
    pid in s.procs && s.procs[pid].Request? && s.procs[pid].req == req
  }

  predicate Stored(s: State, id: ProofId, status: Status) {
    id in s.db.records && s.db.records[id].status == status
  }

  // Between its arrival and state i, the request saw a state in which its id was stored with the status.
  ghost predicate SawStatus(c: Params, t: Trace, i: nat, pid: Pid, req: ProofRequest, status: Status) {
    exists k :: 0 <= k <= i && k < |t.states|
                && Asking(t.states[k], pid, req) && Stored(t.states[k], c.idOf(req), status)
  }

  // It was refused the lock and then found no record.
  ghost predicate SawContention(c: Params, t: Trace, i: nat, pid: Pid, req: ProofRequest) {
    exists k :: 0 <= k <= i && k < |t.states| && Asking(t.states[k], pid, req)
                && t.states[k].procs[pid].rpc == QGetState(false) && c.idOf(req) !in t.states[k].db.records
  }

  // It held the lock and found no header, or one without an execution payload.
  ghost predicate SawNoHeader(c: Params, t: Trace, i: nat, pid: Pid, req: ProofRequest) {
    exists k :: 0 <= k <= i && k < |t.states| && Asking(t.states[k], pid, req)
                && t.states[k].procs[pid].rpc.QGetHeader?
                && (t.states[k].db.header.None? || t.states[k].db.header.value.execBlock.None?)
  }

  ghost predicate Earned(c: Params, t: Trace, i: nat, pid: Pid, req: ProofRequest, result: RequestResult) {
    match result
    case Ok((id, status)) => id == c.idOf(req) && SawStatus(c, t, i, pid, req, status)
    case Err(LockContention(id)) => id == c.idOf(req) && SawContention(c, t, i, pid, req)
    case Err(Internal) => SawNoHeader(c, t, i, pid, req)
    case Err(RedisError) => true
  }

  // What a request in flight has seen.
  ghost predicate Knows(c: Params, t: Trace, i: nat, pid: Pid, req: ProofRequest, pc: RequestPc) {
    match pc
    case QGetHeader(prior) => prior.Some? ==> SawStatus(c, t, i, pid, req, prior.value.status)
    case QGenLock => SawStatus(c, t, i, pid, req, Generating)
    case QRelease(result) => Earned(c, t, i, pid, req, result)
    case QDone(result) => Earned(c, t, i, pid, req, result)
    case _ => true
  }

  lemma StillKnows(c: Params, t: Trace, i: nat, j: nat, pid: Pid, req: ProofRequest, pc: RequestPc)
    requires i <= j && Knows(c, t, i, pid, req, pc)
    ensures Knows(c, t, j, pid, req, pc)
  {
  }

  // The process steps as a request does, and its record is written only as its answer says.
  lemma RequestRuns(c: Params, s: State, e: Event, pid: Pid, req: ProofRequest)
    requires Enabled(c, s, e) && Asking(Next(c, s, e), pid, req)
    ensures var s' := Next(c, s, e);
            || (Asking(s, pid, req) && s'.procs[pid] == s.procs[pid])
            || (&& Asking(s, pid, req) && e.Run? && !s.procs[pid].rpc.QDone?
                && var out := RequestStep(c, req, s.procs[pid].rpc, s.db, e.input.fault);
                   s'.procs[pid] == out.proc && s'.db == out.db)
            || s'.procs[pid] == Request(req, QAcquire)
  {
    hide WorkerStep;
    var s' := Next(c, s, e);
    if e.Run? {
      ChildIsNoRequest(c, s.procs[e.pid], s.db, e.input);
    }
  }

  lemma ChildIsNoRequest(c: Params, pr: Proc, db: Db, input: Input)
    requires Live(pr)
    ensures var out := ProcStep(c, pr, db, input);
            && (out.child.Some? ==> !out.child.value.Request?)
            && (out.proc.Request? ==> pr.Request? && pr.req == out.proc.req)
  {
  }

  lemma StepEarns(c: Params, t: Trace, i: nat, pid: Pid, req: ProofRequest, f: Fault)
    requires i + 1 < |t.states| && Asking(t.states[i], pid, req) && Asking(t.states[i + 1], pid, req)
    requires !t.states[i].procs[pid].rpc.QDone? && Knows(c, t, i, pid, req, t.states[i].procs[pid].rpc)
    requires var out := RequestStep(c, req, t.states[i].procs[pid].rpc, t.states[i].db, f);
             t.states[i + 1].procs[pid] == out.proc && t.states[i + 1].db == out.db
    ensures Knows(c, t, i + 1, pid, req, t.states[i + 1].procs[pid].rpc)
  {
    var s, s', pc := t.states[i], t.states[i + 1], t.states[i].procs[pid].rpc;
    if pc.QGetState? && Replied(f) && c.idOf(req) in s.db.records {
      assert Stored(s, c.idOf(req), s.db.records[c.idOf(req)].status);
    }
    if pc.QStore? && Replied(f) {
      assert Stored(s', c.idOf(req), InitialState(pc.header, req).status);
    }
    StillKnows(c, t, i, i + 1, pid, req, pc);
  }

  lemma {:induction false} RequestsKnow(c: Params, t: Trace, i: nat, pid: Pid, req: ProofRequest)
    requires IsRun(c, t) && i < |t.states| && Asking(t.states[i], pid, req)
    ensures Knows(c, t, i, pid, req, t.states[i].procs[pid].rpc)
  {
    hide Next, Enabled, RequestStep, Knows;
    if i > 0 {
      var s, e := t.states[i - 1], t.events[i - 1];
      RequestRuns(c, s, e, pid, req);
      if t.states[i].procs[pid] == Request(req, QAcquire) {
        NewKnows(c, t, i, pid, req);
      } else {
        RequestsKnow(c, t, i - 1, pid, req);
        if t.states[i].procs[pid] == s.procs[pid] {
          StillKnows(c, t, i - 1, i, pid, req, s.procs[pid].rpc);
        } else {
          StepEarns(c, t, i - 1, pid, req, e.input.fault);
        }
      }
    }
  }

  lemma NewKnows(c: Params, t: Trace, i: nat, pid: Pid, req: ProofRequest)
    ensures Knows(c, t, i, pid, req, QAcquire)
  {
  }

  // Main result: the answer to a request is its own id with a status that was stored for it between its
  // arrival and the answer, or an error that it met.
  lemma AnswersAreEarned(c: Params, t: Trace, i: nat, pid: Pid)
    requires IsRun(c, t) && i < |t.states| && pid in t.states[i].procs
    requires t.states[i].procs[pid].Request? && t.states[i].procs[pid].rpc.QDone?
    ensures var pr := t.states[i].procs[pid]; Earned(c, t, i, pid, pr.req, pr.rpc.result)
  {
    RequestsKnow(c, t, i, pid, t.states[i].procs[pid].req);
  }
}
