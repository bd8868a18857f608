// Coverage of the orphan pickup: a pass whose commands are all answered leaves no
// request that stayed Generating without a lock holder.
module Orphans {
  import opened Base
  import opened Primitives
  import opened RedisModel
  import opened Protocol
  import I = Integrity

  ghost predicate HasId(c: Params, states: seq<RequestState>, id: ProofId) {
    exists st :: st in states && c.idOf(st.request) == id
  }

  ghost predicate Covered(c: Params, scan: Scan, ids: seq<ProofId>, pass: Pass) {
    forall id :: id in pass.stayed ==> id in scan.unseen || id in ids || HasId(c, scan.found, id)
  }

  ghost predicate ProcOk(c: Params, pr: Proc, db: Db) {
    pr.Worker? ==>
      match pr.wpc
      case OScan(scan, pass) => pass.stayed <= GeneratingIds(db) && Covered(c, scan, [], pass)
      case OMget(scan, ids, last, pass) =>
        pass.stayed <= GeneratingIds(db) && Covered(c, scan, ids, pass) && (last ==> scan.unseen == {})
      case OLock(todo, pass) =>
        !pass.faulty ==> forall id :: id in pass.stayed ==> id in pass.handled || HasId(c, todo, id)
      case ODone(pass) => !pass.faulty ==> pass.stayed <= pass.handled
      case _ => true
  }

  ghost predicate Inv(c: Params, s: State) {
    I.RecordsOk(c, s.db) && forall pid :: pid in s.procs ==> ProcOk(c, s.procs[pid], s.db)
  }

  lemma MgetCovers(c: Params, db: Db, scan: Scan, ids: seq<ProofId>, pass: Pass)
    requires I.RecordsOk(c, db) && pass.stayed <= GeneratingIds(db) && Covered(c, scan, ids, pass)
    ensures Covered(c, scan.(found := scan.found + MgetMatching(db.records, ids, Generating)), [], pass)
  {
    var batch := MgetMatching(db.records, ids, Generating);
    MgetMatchingExact(db.records, ids, Generating);
    forall id | id in pass.stayed && id !in scan.unseen
      ensures HasId(c, scan.found + batch, id)
    {
      if id in ids {
        assert db.records[id] in batch;
      } else {
        var st :| st in scan.found && c.idOf(st.request) == id;
        assert st in scan.found + batch;
      }
    }
  }

  lemma LockCovers(c: Params, todo: seq<RequestState>, id: ProofId)
    requires todo != [] && HasId(c, todo, id) && id != c.idOf(todo[0].request)
    ensures HasId(c, todo[1..], id)
  {
    var st :| st in todo && c.idOf(st.request) == id;
    assert st in todo[1..];
  }

  lemma OwnStepKeeps(c: Params, w: Proc, db: Db, input: Input)
    requires w.Worker? && I.RecordsOk(c, db) && ProcOk(c, w, db) && Allowed(c, w, input)
    ensures ProcOk(c, WorkerStep(c, w, db, input).proc, db)
  {
    match w.wpc
    case OMget(scan, ids, _, pass) => MgetCovers(c, db, scan, ids, pass);
    case OLock(todo, pass) =>
      forall id | todo != [] && HasId(c, todo, id) && id != c.idOf(todo[0].request)
        ensures HasId(c, todo[1..], id)
      {
        LockCovers(c, todo, id);
      }
    case _ =>
  }

  lemma ObserveKeeps(c: Params, pr: Proc, db: Db, db': Db)
    requires ProcOk(c, pr, db)
    ensures ProcOk(c, Observe(pr, db'), db')
  {
  }

  lemma StepKeeps(c: Params, s: State, e: Event)
    requires I.Inv(c, s) && Inv(c, s) && Enabled(c, s, e)
    ensures Inv(c, Next(c, s, e))
  {
    I.StepKeeps(c, s, e);
    var s' := Next(c, s, e);
    forall pid | pid in s'.procs
      ensures ProcOk(c, s'.procs[pid], s'.db)
    {
      if e.Run? && e.pid == pid && s.procs[pid].Worker? {
        OwnStepKeeps(c, s.procs[pid], s.db, e.input);
        ObserveKeeps(c, WorkerStep(c, s.procs[pid], s.db, e.input).proc, s.db, s'.db);
      } else if pid in s.procs {
        ObserveKeeps(c, s.procs[pid], s.db, s'.db);
      }
    }
  }

  lemma {:induction false} EveryStateCovers(c: Params, t: Trace, i: nat)
    requires IsRun(c, t) && i < |t.states|
    ensures Inv(c, t.states[i])
  {
    if i > 0 {
      I.EveryStateIsWellFormed(c, t, i - 1);
      EveryStateCovers(c, t, i - 1);
      StepKeeps(c, t.states[i - 1], t.events[i - 1]);
    }
  }

  // --- One pass inside a run ---

  predicate InPass(pr: Proc) {
    pr.Worker? && (pr.wpc.OScan? || pr.wpc.OMget? || pr.wpc.OLock? || pr.wpc.ODone?)
  }

  function PassOf(pr: Proc): Pass
    requires InPass(pr)
  {
    pr.wpc.pass
  }

  // Worker pid starts a pass with event a and is still in that pass in every state up to b.
  ghost predicate IsPass(c: Params, t: Trace, a: nat, b: nat, pid: Pid) {
    && IsRun(c, t) && a < b < |t.states|
    && pid in t.states[a].procs && t.states[a].procs[pid].Worker? && t.states[a].procs[pid].wpc.OStart?
    && t.events[a].Run? && t.events[a].pid == pid
    && forall k :: a < k <= b ==> pid in t.states[k].procs && InPass(t.states[k].procs[pid])
  }

  ghost predicate GeneratingThroughout(t: Trace, a: nat, b: nat, id: ProofId)
    requires a <= b < |t.states|
  {
    forall k :: a <= k <= b ==> id in GeneratingIds(t.states[k].db)
  }

  // Event k is the worker's answered lock command for the id: either the lock was already
  // held, or it is held from then on and the same step starts a task for the request.
  ghost predicate Answered(c: Params, t: Trace, k: nat, pid: Pid, id: ProofId)
    requires k < |t.events| && |t.states| == |t.events| + 1
  {
    && t.events[k].Run? && t.events[k].pid == pid
    && id in t.states[k + 1].db.genLocks
    && (|| id in t.states[k].db.genLocks
        || (var child := t.events[k].child;
            && child !in t.states[k].procs && child in t.states[k + 1].procs
            && t.states[k + 1].procs[child].Task? && c.idOf(t.states[k + 1].procs[child].job) == id))
  }

  // A pass starts by recording what is Generating, with nothing handled.
  lemma StartStep(c: Params, s: State, e: Event)
    requires Enabled(c, s, e) && e.Run? && s.procs[e.pid].Worker? && s.procs[e.pid].wpc.OStart?
    ensures e.pid in Next(c, s, e).procs && InPass(Next(c, s, e).procs[e.pid])
    ensures PassOf(Next(c, s, e).procs[e.pid]) == Pass(GeneratingIds(s.db), {}, {}, false)
  {
    var out := WorkerStep(c, s.procs[e.pid], s.db, e.input);
    assert out.db == s.db && out.child.None?;
  }

  // Within a pass one step keeps what stays Generating and handles what it answers.
  lemma OwnPassStep(c: Params, w: Proc, db: Db, input: Input)
    requires InPass(w) && InPass(WorkerStep(c, w, db, input).proc)
    ensures var out := WorkerStep(c, w, db, input);
            var pass, pass' := PassOf(w), PassOf(out.proc);
            && pass'.stayed == pass.stayed
            && forall id :: id in pass'.handled && id !in pass.handled ==>
                 && id in out.db.genLocks
                 && (id in db.genLocks
                     || (out.child.Some? && out.child.value.Task? && c.idOf(out.child.value.job) == id))
  {
  }

  lemma ObservedPass(w: Proc, db: Db)
    ensures InPass(Observe(w, db)) <==> InPass(w)
    ensures InPass(w) ==> PassOf(Observe(w, db)) == Watch(PassOf(w), db)
  {
  }

  lemma PassStep(c: Params, s: State, e: Event, pid: Pid, id: ProofId)
    requires Enabled(c, s, e)
    requires pid in s.procs && InPass(s.procs[pid])
    requires pid in Next(c, s, e).procs && InPass(Next(c, s, e).procs[pid])
    ensures var s' := Next(c, s, e);
            id in PassOf(s.procs[pid]).stayed && id in GeneratingIds(s'.db) ==> id in PassOf(s'.procs[pid]).stayed
    ensures var s' := Next(c, s, e);
            id in PassOf(s'.procs[pid]).handled && id !in PassOf(s.procs[pid]).handled ==>
              && e.Run? && e.pid == pid
              && id in s'.db.genLocks
              && (|| id in s.db.genLocks
                  || (&& e.child in s'.procs && s'.procs[e.child].Task?
                      && c.idOf(s'.procs[e.child].job) == id))
  {
    var db' := Next(c, s, e).db;
    if e.Run? && e.pid == pid {
      var out := WorkerStep(c, s.procs[pid], s.db, e.input);
      ObservedPass(out.proc, db');
      OwnPassStep(c, s.procs[pid], s.db, e.input);
    } else {
      ObservedPass(s.procs[pid], db');
    }
  }

  lemma {:induction false} StayedIsRecorded(c: Params, t: Trace, a: nat, k: nat, pid: Pid, id: ProofId)
    requires IsPass(c, t, a, k, pid) && GeneratingThroughout(t, a, k, id)
    ensures id in PassOf(t.states[k].procs[pid]).stayed
    decreases k
  {
    assert id in GeneratingIds(t.states[k].db) && id in GeneratingIds(t.states[k - 1].db);
    if k > a + 1 {
      StayedIsRecorded(c, t, a, k - 1, pid, id);
      PassStep(c, t.states[k - 1], t.events[k - 1], pid, id);
    } else {
      StartStep(c, t.states[a], t.events[a]);
    }
  }

  lemma {:induction false} HandledIsAnswered(c: Params, t: Trace, a: nat, b: nat, pid: Pid, id: ProofId)
    requires IsPass(c, t, a, b, pid) && id in PassOf(t.states[b].procs[pid]).handled
    ensures exists k :: a <= k < b && Answered(c, t, k, pid, id)
    decreases b
  {
    if b > a + 1 {
      PassStep(c, t.states[b - 1], t.events[b - 1], pid, id);
      if id in PassOf(t.states[b - 1].procs[pid]).handled {
        HandledIsAnswered(c, t, a, b - 1, pid, id);
      } else {
        assert Answered(c, t, b - 1, pid, id);
      }
    } else {
      StartStep(c, t.states[a], t.events[a]);
    }
  }

  // Main result: when a pass ends with every command answered, each request that was Generating
  // at every instant of the pass had its lock held at some instant of it, and if the
  // pass found it unlocked, the pass started a task for it.
  lemma PassCoversOrphans(c: Params, t: Trace, a: nat, b: nat, pid: Pid, id: ProofId)
    requires IsPass(c, t, a, b, pid) && GeneratingThroughout(t, a, b, id)
    requires t.states[b].procs[pid].wpc.ODone? && !PassOf(t.states[b].procs[pid]).faulty
    ensures exists k :: a <= k < b && Answered(c, t, k, pid, id)
  {
    EveryStateCovers(c, t, b);
    assert ProcOk(c, t.states[b].procs[pid], t.states[b].db);
    StayedIsRecorded(c, t, a, b, pid, id);
    HandledIsAnswered(c, t, a, b, pid, id);
  }
}
