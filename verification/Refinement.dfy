// The interleaved protocol refines a specification in which a locked section is one
// atomic action on the header and the records.
module Refinement {
  import opened Base
  import opened Primitives
  import opened RedisModel
  import opened Protocol
  import I = Integrity
  import S = Safety

  datatype Spec = Spec(header: Option<Header>, records: map<ProofId, RequestState>)

  // `revived` holds waiting records whose keys expired while the section ran.
  datatype Action =
    | Stutter
    | Submit(req: ProofRequest)
    | NewHeader(tip: Header, revived: map<ProofId, RequestState>)
    | Complete(req: ProofRequest, outcome: Result<ProofData, string>)
    | Expire(id: ProofId)

  // Every waiting record that passes under the header becomes Generating; no other changes.
  function Promoted(records: map<ProofId, RequestState>, tip: Header): map<ProofId, RequestState> {
    map id | id in records :: if Ready(tip, records[id]) then Promote(records[id]) else records[id]
  }

  ghost predicate SpecNext(c: Params, a: Spec, action: Action, a': Spec) {
    match action
    case Stutter => a' == a
    case Submit(req) =>
      // A request is admitted under the stored header, never over a waiting record.
      var id := c.idOf(req);
      && a.header.Some?
      && (id in a.records ==> a.records[id].status != WaitingForFinality)
      && a' == a.(records := a.records[id := InitialState(a.header.value, req)])
    case NewHeader(tip, revived) =>
      && c.chain(tip) && tip.execBlock.Some? && OutdatedBy(a.header, tip)
      && revived.Keys !! a.records.Keys
      && (forall id :: id in revived ==> Ready(tip, revived[id]) && c.idOf(revived[id].request) == id)
      && a' == Spec(Some(tip), Promoted(a.records + revived, tip))
    case Complete(req, outcome) =>
      && (a.header.Some? && Finalized(a.header.value, req))
      && (outcome.Ok? ==> c.canProve(req, outcome.value))
      && a' == a.(records := a.records[c.idOf(req) := FinalState(req, outcome)])
    case Expire(id) => a' == a.(records := a.records - {id})
  }

  function View(db: Db): Spec {
    Spec(db.header, db.records)
  }

  function Abstract(s: State): Spec {
    View(s.db)
  }

  function Keyed(c: Params, ready: seq<RequestState>): seq<(ProofId, RequestState)> {
    seq(|ready|, i requires 0 <= i < |ready| => (c.idOf(ready[i].request), ready[i]))
  }

  // The ready records of a section whose keys are no longer in the store.
  function Revived(c: Params, db: Db, ready: seq<RequestState>): map<ProofId, RequestState> {
    Overlay(map[], Keyed(c, ready)) - db.records.Keys
  }

  function OutcomeOf(st: RequestState): Result<ProofData, string> {
    if st.proofData.Some? then Ok(st.proofData.value)
    else Err(if st.errorMessage.Some? then st.errorMessage.value else "")
  }

  // The record that a task writes tells its outcome, message or proof included.
  lemma OutcomeIsRecorded(req: ProofRequest, outcome: Result<ProofData, string>)
    ensures var st := FinalState(req, outcome);
            OutcomeOf(st) == outcome && st.request == req && st.status == if outcome.Ok? then Success else Errored
  {
  }

  // The abstract action of a step: only the two locked writes and the final write of a
  // generation task are visible.
  function ActionOfStep(c: Params, pr: Proc, db: Db, input: Input): Action {
    if !Took(input.fault) then Stutter
    else
      match pr
      case Request(req, pc) => if pc.QStore? then Submit(req) else Stutter
      case Worker(tip, _, pc) => if pc.HCommit? then NewHeader(tip, Revived(c, db, pc.ready)) else Stutter
      case Task(req, pc) => if pc.TStore? then Complete(req, OutcomeOf(pc.state)) else Stutter
      case _ => Stutter
  }

  function ActionOf(c: Params, s: State, e: Event): Action {
    match e
    case RecordExpires(id) => Expire(id)
    case Run(pid, input, _) => if pid in s.procs then ActionOfStep(c, s.procs[pid], s.db, input) else Stutter
    case _ => Stutter
  }

  // A waiting record carries nothing but its request.
  lemma WaitingIsDetermined(c: Params, st: RequestState, tu: RequestState)
    requires I.WellFormed(c, st) && I.WellFormed(c, tu)
    requires st.status == tu.status == WaitingForFinality && st.request == tu.request
    ensures st == tu
  {
  }

  lemma RevivedExact(c: Params, db: Db, ready: seq<RequestState>)
    requires NoCollision(c) && I.AllOfStatus(c, ready, WaitingForFinality)
    ensures forall id :: id in Revived(c, db, ready) <==>
              id !in db.records && exists i :: 0 <= i < |ready| && c.idOf(ready[i].request) == id
    ensures forall i :: 0 <= i < |ready| && c.idOf(ready[i].request) !in db.records ==>
              Revived(c, db, ready)[c.idOf(ready[i].request)] == ready[i]
  {
    var keyed := Keyed(c, ready);
    forall i | 0 <= i < |ready|
      ensures var id := c.idOf(ready[i].request);
              id in Overlay(map[], keyed) && Overlay(map[], keyed)[id] == ready[i]
    {
      var id := c.idOf(ready[i].request);
      assert keyed[i].0 == id;
      OverlayAt(map[], keyed, id);
      var j :| 0 <= j < |keyed| && keyed[j] == (id, Overlay(map[], keyed)[id]);
      assert keyed[j] == (c.idOf(ready[j].request), ready[j]);
      assert ready[i] in ready && ready[j] in ready;
      WaitingIsDetermined(c, ready[i], ready[j]);
    }
    forall id | id in Revived(c, db, ready)
      ensures exists i :: 0 <= i < |ready| && c.idOf(ready[i].request) == id
    {
      OverlayAt(map[], keyed, id);
      var i :| 0 <= i < |keyed| && keyed[i].0 == id;
      assert c.idOf(ready[i].request) == id;
    }
  }

  lemma PromotedAt(c: Params, tip: Header, ready: seq<RequestState>, db: Db, id: ProofId)
    requires NoCollision(c)
    requires I.RecordsOk(c, db) && I.AllOfStatus(c, ready, WaitingForFinality)
    requires S.FoundOk(c, db, ready)
    requires forall st :: st in ready ==> Ready(tip, st)
    requires forall id :: id in db.records && Ready(tip, db.records[id]) ==> db.records[id] in ready
    ensures var before := db.records + Revived(c, db, ready);
            var after := Overlay(db.records, Promotions(c, ready));
            && (id in after <==> id in before)
            && (id in before ==> after[id] == if Ready(tip, before[id]) then Promote(before[id]) else before[id])
  {
    var updates := Promotions(c, ready);
    RevivedExact(c, db, ready);
    OverlayAt(db.records, updates, id);
    assert forall i :: 0 <= i < |ready| ==> ready[i] in ready && updates[i].0 == c.idOf(ready[i].request);
    if i :| 0 <= i < |ready| && c.idOf(ready[i].request) == id {
      var after := Overlay(db.records, updates);
      var j :| 0 <= j < |updates| && updates[j] == (id, after[id]);
      assert updates[j] == (c.idOf(ready[j].request), Promote(ready[j]));
      WaitingIsDetermined(c, ready[i], ready[j]);
    }
  }

  // The transaction of a section: duplicates in the scan do not matter, nothing that waits and
  // passes is missed, and nothing else changes.
  lemma CommitIsAtomicPromotion(c: Params, tip: Header, advance: bool, ready: seq<RequestState>, db: Db)
    requires NoCollision(c) && OneChain(c)
    requires I.RecordsOk(c, db) && I.AllOfStatus(c, ready, WaitingForFinality)
    requires S.DbOk(c, db) && S.WorkerOk(c, tip, advance, HCommit(ready), db)
    ensures Multi(db, tip, Promotions(c, ready)).records == Promoted(db.records + Revived(c, db, ready), tip)
  {
    forall id
      ensures var before := db.records + Revived(c, db, ready);
              var after := Overlay(db.records, Promotions(c, ready));
              && (id in after <==> id in before)
              && (id in before ==> after[id] == Promoted(before, tip)[id])
    {
      PromotedAt(c, tip, ready, db, id);
    }
  }

  lemma RequestRefines(c: Params, pr: Proc, db: Db, input: Input)
    requires S.DbOk(c, db) && S.ProcOk(c, pr, db) && pr.Request? && Live(pr)
    ensures SpecNext(c, View(db), ActionOfStep(c, pr, db, input), View(ProcStep(c, pr, db, input).db))
  {
  }

  lemma TaskRefines(c: Params, pr: Proc, db: Db, input: Input)
    requires S.DbOk(c, db) && S.ProcOk(c, pr, db) && I.ProcOk(c, pr) && pr.Task?
    ensures SpecNext(c, View(db), ActionOfStep(c, pr, db, input), View(ProcStep(c, pr, db, input).db))
  {
    if pr.tpc.TStore? {
      assert pr.tpc.state == FinalState(pr.job, OutcomeOf(pr.tpc.state));
    }
  }

  lemma CommitIsNewHeader(c: Params, pr: Proc, db: Db)
    requires NoCollision(c) && OneChain(c)
    requires I.RecordsOk(c, db) && I.ProcOk(c, pr) && S.DbOk(c, db) && S.ProcOk(c, pr, db)
    requires pr.Worker? && pr.wpc.HCommit?
    ensures SpecNext(c, View(db), NewHeader(pr.tip, Revived(c, db, pr.wpc.ready)),
                     View(Multi(db, pr.tip, Promotions(c, pr.wpc.ready))))
  {
    var ready := pr.wpc.ready;
    CommitIsAtomicPromotion(c, pr.tip, pr.advance, ready, db);
    RevivedExact(c, db, ready);
    forall i | 0 <= i < |ready|
      ensures Ready(pr.tip, ready[i])
    {
      assert ready[i] in ready;
    }
  }

  lemma CommitRefines(c: Params, pr: Proc, db: Db, input: Input)
    requires NoCollision(c) && OneChain(c)
    requires I.RecordsOk(c, db) && I.ProcOk(c, pr) && S.DbOk(c, db) && S.ProcOk(c, pr, db)
    requires pr.Worker? && pr.wpc.HCommit?
    ensures SpecNext(c, View(db), ActionOfStep(c, pr, db, input), View(ProcStep(c, pr, db, input).db))
  {
    hide I.RecordsOk, I.ProcOk, S.DbOk, S.ProcOk, Revived, Promoted, Promotions, Overlay;
    CommitIsNewHeader(c, pr, db);
  }

  // Main result, step by step.
  lemma StepRefines(c: Params, s: State, e: Event)
    requires NoCollision(c) && OneChain(c)
    requires S.Inv(c, s) && Exclusive(s) && Enabled(c, s, e)
    ensures SpecNext(c, Abstract(s), ActionOf(c, s, e), Abstract(Next(c, s, e)))
  {
    if e.Run? {
      var pr := s.procs[e.pid];
      match pr
      case Request(_, _) => RequestRefines(c, pr, s.db, e.input);
      case Task(_, _) => TaskRefines(c, pr, s.db, e.input);
      case Worker(_, _, pc) =>
        if pc.HCommit? {
          CommitRefines(c, pr, s.db, e.input);
        } else {
          WorkerStutters(c, pr, s.db, e.input);
        }
      case _ =>
    }
  }

  lemma WorkerStutters(c: Params, w: Proc, db: Db, input: Input)
    requires w.Worker? && !w.wpc.HCommit?
    ensures var db' := WorkerStep(c, w, db, input).db;
            db'.header == db.header && db'.records == db.records
  {
  }

  // --- Revived records really waited in the store earlier in the run ---

  predicate Found(pr: Proc, st: RequestState) {
    pr.Worker? &&
    match pr.wpc
    case HScan(scan) => st in scan.found
    case HMget(scan, _, _) => st in scan.found
    case HCommit(ready) => st in ready
    case _ => false
  }

  lemma FoundByOwnStep(c: Params, w: Proc, db: Db, input: Input, st: RequestState)
    requires I.RecordsOk(c, db) && w.Worker?
    requires Found(WorkerStep(c, w, db, input).proc, st)
    ensures Found(w, st) || (S.Waits(c, db, st.request) && db.records[c.idOf(st.request)] == st)
  {
    if w.wpc.HMget? {
      MgetMatchingExact(db.records, w.wpc.ids, WaitingForFinality);
      I.FilterReadyExact(w.tip, w.wpc.scan.found + MgetMatching(db.records, w.wpc.ids, WaitingForFinality));
    }
  }

  lemma FoundComesFromTheStore(c: Params, s: State, e: Event, pid: Pid, st: RequestState)
    requires Enabled(c, s, e) && I.RecordsOk(c, s.db)
    requires pid in Next(c, s, e).procs && Found(Next(c, s, e).procs[pid], st)
    ensures || (pid in s.procs && Found(s.procs[pid], st))
            || (S.Waits(c, s.db, st.request) && s.db.records[c.idOf(st.request)] == st)
  {
    if e.Run? && e.pid == pid && s.procs[pid].Worker? {
      var w := WorkerStep(c, s.procs[pid], s.db, e.input).proc;
      assert Found(Observe(w, Next(c, s, e).db), st) ==> Found(w, st);
      FoundByOwnStep(c, s.procs[pid], s.db, e.input, st);
    } else if e.Run? && pid !in s.procs {
      ChildIsNoWorker(c, s.procs[e.pid], s.db, e.input);
    }
  }

  lemma ChildIsNoWorker(c: Params, pr: Proc, db: Db, input: Input)
    requires Live(pr)
    ensures var child := ProcStep(c, pr, db, input).child;
            child.Some? ==> child.value.Task? || child.value.Extender?
  {
  }

  lemma {:induction false} FoundWaitedEarlier(c: Params, t: Trace, i: nat, pid: Pid, st: RequestState)
    requires IsRun(c, t) && i < |t.states|
    requires pid in t.states[i].procs && Found(t.states[i].procs[pid], st)
    ensures exists j :: 0 <= j < i && S.Waits(c, t.states[j].db, st.request)
                        && t.states[j].db.records[c.idOf(st.request)] == st
  {
    if i > 0 {
      I.EveryStateIsWellFormed(c, t, i - 1);
      FoundComesFromTheStore(c, t.states[i - 1], t.events[i - 1], pid, st);
      if pid in t.states[i - 1].procs && Found(t.states[i - 1].procs[pid], st) {
        FoundWaitedEarlier(c, t, i - 1, pid, st);
      }
    }
  }

  // Main result: every run of the protocol is a run of the specification, and the records a
  // section revives waited in the store earlier in the run.
  lemma RunRefines(c: Params, t: Trace, i: nat)
    requires NoCollision(c) && OneChain(c) && LockedRun(c, t) && i < |t.events|
    ensures var action := ActionOf(c, t.states[i], t.events[i]);
            && SpecNext(c, Abstract(t.states[i]), action, Abstract(t.states[i + 1]))
            && (action.NewHeader? ==> forall id :: id in action.revived ==>
                  exists j :: 0 <= j < i && Get(t.states[j].db, id) == Some(action.revived[id]))
  {
    S.EveryStateIsSafe(c, t, i);
    StepRefines(c, t.states[i], t.events[i]);
    var action := ActionOf(c, t.states[i], t.events[i]);
    if action.NewHeader? {
      var pid := t.events[i].pid;
      var ready := t.states[i].procs[pid].wpc.ready;
      RevivedExact(c, t.states[i].db, ready);
      forall id | id in action.revived
        ensures exists j :: 0 <= j < i && Get(t.states[j].db, id) == Some(action.revived[id])
      {
        var n :| 0 <= n < |ready| && c.idOf(ready[n].request) == id;
        FoundWaitedEarlier(c, t, i, pid, ready[n]);
        var j :| 0 <= j < i && S.Waits(c, t.states[j].db, ready[n].request)
                 && t.states[j].db.records[id] == ready[n];
        assert Get(t.states[j].db, id) == Some(action.revived[id]);
      }
    }
  }
}
