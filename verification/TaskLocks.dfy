// Generation tasks in the runs of the protocol: while no lock key is taken from under a live task,
// at most one task per id is live. Module LockTiming shows when keys are not taken in real time.
module TaskLocks {
  import opened Base
  import opened Primitives
  import opened RedisModel
  import opened Protocol
  import opened Runs
  import I = Integrity
  import S = Safety

  predicate Works(c: Params, pr: Proc, id: ProofId) {
    pr.Task? && c.idOf(pr.job) == id
  }

  ghost predicate AtMostOneTask(c: Params, s: State) {
    forall p, q ::
      (p in s.procs && q in s.procs && s.procs[p].Task? && s.procs[q].Task?
       && c.idOf(s.procs[p].job) == c.idOf(s.procs[q].job)) ==> p == q
  }

  // Every live task has the lock key of its id.
  ghost predicate TasksLocked(c: Params, s: State) {
    forall p :: p in s.procs && s.procs[p].Task? ==> c.idOf(s.procs[p].job) in s.db.genLocks
  }

  ghost predicate Idle(c: Params, s: State, id: ProofId) {
    forall p :: p in s.procs ==> !Works(c, s.procs[p], id)
  }

  // The event takes no key from under a live task.
  ghost predicate SparesTasks(c: Params, s: State, e: Event)
    requires Enabled(c, s, e)
  {
    forall id :: id in s.db.genLocks && id !in Next(c, s, e).db.genLocks ==> Idle(c, Next(c, s, e), id)
  }

  // A step starts a task only when it sets the key of its id.
  lemma OwnStep(c: Params, pr: Proc, db: Db, input: Input)
    requires Live(pr)
    ensures var out := ProcStep(c, pr, db, input);
            && (out.proc.Task? ==> pr.Task? && out.proc.job == pr.job)
            && (out.child.Some? && out.child.value.Task? ==>
                  c.idOf(out.child.value.job) !in db.genLocks && c.idOf(out.child.value.job) in out.db.genLocks)
  {
  }

  lemma ObservedTask(pr: Proc, db: Db)
    ensures Observe(pr, db).Task? <==> pr.Task?
    ensures pr.Task? ==> Observe(pr, db) == pr
  {
  }

  // Where the tasks after an event come from.
  lemma TasksAfter(c: Params, s: State, e: Event, p: Pid)
    requires Enabled(c, s, e) && p in Next(c, s, e).procs && Next(c, s, e).procs[p].Task?
    ensures var s' := Next(c, s, e);
            var id := c.idOf(s'.procs[p].job);
            || (p in s.procs && s.procs[p].Task? && s.procs[p].job == s'.procs[p].job)
            || (e.Run? && p == e.child && id !in s.db.genLocks && id in s'.db.genLocks)
  {
    hide ProcStep, Observe, Allowed;
    var db' := Next(c, s, e).db;
    if e.Run? {
      OwnStep(c, s.procs[e.pid], s.db, e.input);
      var out := ProcStep(c, s.procs[e.pid], s.db, e.input);
      var procs := WithChild(s.procs[e.pid := out.proc], e.child, out.child);
      ObservedTask(procs[p], db');
    } else if p in s.procs {
      ObservedTask(s.procs[p], db');
    }
  }

  lemma StepKeeps(c: Params, s: State, e: Event)
    requires AtMostOneTask(c, s) && TasksLocked(c, s) && Enabled(c, s, e) && SparesTasks(c, s, e)
    ensures AtMostOneTask(c, Next(c, s, e)) && TasksLocked(c, Next(c, s, e))
  {
    hide Next, Enabled;
    var s' := Next(c, s, e);
    forall p | p in s'.procs && s'.procs[p].Task?
      ensures c.idOf(s'.procs[p].job) in s'.db.genLocks
    {
      TasksAfter(c, s, e, p);
      assert Works(c, s'.procs[p], c.idOf(s'.procs[p].job));
    }
    forall p, q | p in s'.procs && q in s'.procs && s'.procs[p].Task? && s'.procs[q].Task?
                  && c.idOf(s'.procs[p].job) == c.idOf(s'.procs[q].job)
      ensures p == q
    {
      TasksAfter(c, s, e, p);
      TasksAfter(c, s, e, q);
    }
  }

  // From event i on, no event takes a key from under a live task.
  ghost predicate Spared(c: Params, t: Trace, i: nat)
    requires IsRun(c, t)
  {
    forall k {:trigger t.events[k]} :: i <= k < |t.events| ==> SparesTasks(c, t.states[k], t.events[k])
  }

  lemma {:induction false} SparedStaysLocked(c: Params, t: Trace, i: nat, j: nat)
    requires IsRun(c, t) && i <= j < |t.states| && Spared(c, t, i)
    requires AtMostOneTask(c, t.states[i]) && TasksLocked(c, t.states[i])
    ensures AtMostOneTask(c, t.states[j]) && TasksLocked(c, t.states[j])
    decreases j
  {
    if i < j {
      SparedStaysLocked(c, t, i, j - 1);
      StepKeeps(c, t.states[j - 1], t.events[j - 1]);
    }
  }

  lemma LockedIsSpared(c: Params, s: State, e: Event)
    requires Enabled(c, s, e) && TasksLocked(c, Next(c, s, e))
    ensures SparesTasks(c, s, e)
  {
  }

  // --- A second task beside an unlocked one ---

  // The run u goes on from state i of t, with locked sections apart and sparing tasks.
  ghost predicate Onward(c: Params, u: Trace, t: Trace, i: nat) {
    LockedRun(c, u) && GoesOn(u, t, i) && Spared(c, u, i)
  }

  lemma OneMore(c: Params, u: Trace, t: Trace, i: nat, e: Event)
    requires Onward(c, u, t, i) && Enabled(c, Last(u), e) && Exclusive(Next(c, Last(u), e))
    requires Last(u).db.genLocks <= Next(c, Last(u), e).db.genLocks
    ensures Onward(c, Append(c, u, e), t, i) && Last(Append(c, u, e)) == Next(c, Last(u), e)
  {
    hide Enabled, Next, Exclusive, Idle;
    AppendIsRun(c, u, e);
    var u' := Append(c, u, e);
    GoesOnFurther(t, u, u', i, |u.events|);
    forall k {:trigger u'.events[k]} | i <= k < |u'.events|
      ensures SparesTasks(c, u'.states[k], u'.events[k])
    {
      if k < |u.events| {
        assert u'.events[k] == u.events[k] && u'.states[k] == u.states[k];
      }
    }
  }

  ghost predicate Closed(s: State) {
    forall p :: p in s.procs ==> !InSection(s.procs[p])
  }

  // Only process p may be in a section; process pid is a task for the request, whose key is absent.
  ghost predicate Scene(c: Params, s: State, pid: Pid, req: ProofRequest, p: Pid) {
    && pid in s.procs && s.procs[pid].Task? && s.procs[pid].job == req && pid != p
    && c.idOf(req) !in s.db.genLocks
    && s.db.header.Some? && Finalized(s.db.header.value, req)
    && forall q :: q in s.procs && q != p ==> !InSection(s.procs[q])
  }

  lemma ObservedSection(pr: Proc, db: Db)
    ensures InSection(Observe(pr, db)) <==> InSection(pr)
  {
  }

  lemma SettledScene(c: Params, db: Db, procs: map<Pid, Proc>, pid: Pid, req: ProofRequest, p: Pid)
    requires Scene(c, State(db, procs), pid, req, p)
    ensures Scene(c, Settle(db, procs), pid, req, p) && Exclusive(Settle(db, procs))
  {
    hide Observe, InSection;
    forall q | q in procs
      ensures InSection(Observe(procs[q], db)) <==> InSection(procs[q])
    {
      ObservedSection(procs[q], db);
    }
    ObservedTask(procs[pid], db);
  }

  // The open section, if any, is left by a crash, and both the global lock and the record expire.
  lemma Clear(c: Params, u: Trace, t: Trace, i: nat, pid: Pid, req: ProofRequest) returns (u': Trace)
    requires Onward(c, u, t, i) && pid in Last(u).procs && Last(u).procs[pid].Task? && Last(u).procs[pid].job == req
    requires c.idOf(req) !in Last(u).db.genLocks
    requires Last(u).db.header.Some? && Finalized(Last(u).db.header.value, req)
    ensures Onward(c, u', t, i) && Last(u').db.globalLock == false && c.idOf(req) !in Last(u').db.records
    ensures forall p :: p !in Last(u').procs ==> Scene(c, Last(u'), pid, req, p)
  {
    hide Spared, Observe, ProcStep;
    u' := u;
    var id := c.idOf(req);
    var free := Bound(Last(u).procs.Keys);
    if q :| q in Last(u).procs && InSection(Last(u).procs[q]) {
      Apart(c, u, t, i, q);
      OneMore(c, u', t, i, Crash(q));
      u' := Append(c, u', Crash(q));
    }
    assert Scene(c, Last(u'), pid, req, free) && free !in Last(u').procs;
    SettledScene(c, ReleaseGlobal(Last(u').db), Last(u').procs, pid, req, free);
    OneMore(c, u', t, i, GlobalLockExpires);
    u' := Append(c, u', GlobalLockExpires);
    SettledScene(c, ExpireRecord(Last(u').db, id), Last(u').procs, pid, req, free);
    OneMore(c, u', t, i, RecordExpires(id));
    u' := Append(c, u', RecordExpires(id));
  }

  lemma Apart(c: Params, u: Trace, t: Trace, i: nat, q: Pid)
    requires Onward(c, u, t, i) && q in Last(u).procs && InSection(Last(u).procs[q])
    ensures forall p :: p in Last(u).procs && p != q ==> !InSection(Last(u).procs[p])
    ensures Exclusive(Next(c, Last(u), Crash(q)))
  {
  }

  // The request p takes a step that keeps the generation locks and the header.
  lemma Goes(c: Params, u: Trace, t: Trace, i: nat, pid: Pid, req: ProofRequest, p: Pid, pc': RequestPc, db': Db)
    returns (u': Trace)
    requires Onward(c, u, t, i) && Scene(c, Last(u), pid, req, p)
    requires p in Last(u).procs && Last(u).procs[p].Request? && Last(u).procs[p].req == req
    requires !Last(u).procs[p].rpc.QDone?
    requires RequestStep(c, req, Last(u).procs[p].rpc, Last(u).db, NoFault) == Outcome(Request(req, pc'), db', None)
    requires db'.genLocks == Last(u).db.genLocks && db'.header == Last(u).db.header
    ensures Onward(c, u', t, i) && Scene(c, Last(u'), pid, req, p)
    ensures Last(u').db == db' && p in Last(u').procs && Last(u').procs[p] == Request(req, pc')
  {
    hide Spared, Observe, RequestStep;
    var s := Last(u);
    var free := Bound(s.procs.Keys);
    var e := Run(p, Input(NoFault, [], false, None, Err("")), free);
    SettledScene(c, db', s.procs[p := Request(req, pc')], pid, req, p);
    PlainRequest(req, pc', db');
    assert Next(c, s, e) == Settle(db', s.procs[p := Request(req, pc')]);
    OneMore(c, u, t, i, e);
    u' := Append(c, u, e);
  }

  lemma PlainRequest(req: ProofRequest, pc: RequestPc, db: Db)
    ensures Observe(Request(req, pc), db) == Request(req, pc)
  {
  }

  lemma Arrives(c: Params, u: Trace, t: Trace, i: nat, pid: Pid, req: ProofRequest, p: Pid) returns (u': Trace)
    requires Onward(c, u, t, i) && Scene(c, Last(u), pid, req, p) && p !in Last(u).procs && c.known(req)
    ensures Onward(c, u', t, i) && Scene(c, Last(u'), pid, req, p)
    ensures Last(u').db == Last(u).db && p in Last(u').procs && Last(u').procs[p] == Request(req, QAcquire)
  {
    hide Spared, ProcStep;
    OneMore(c, u, t, i, Arrive(p, req));
    u' := Append(c, u, Arrive(p, req));
  }

  // The request is stored anew, finds the generation lock absent and starts a task.
  lemma Spawns(c: Params, u: Trace, t: Trace, i: nat, pid: Pid, req: ProofRequest, p: Pid) returns (u': Trace)
    requires Onward(c, u, t, i) && Scene(c, Last(u), pid, req, p)
    requires p in Last(u).procs && Last(u).procs[p] == Request(req, QGenLock)
    ensures Onward(c, u', t, i) && !AtMostOneTask(c, Last(u'))
  {
    hide Spared, Observe, GeneratingIds;
    var s := Last(u);
    var free := Bound(s.procs.Keys);
    var e := Run(p, Input(NoFault, [], false, None, Err("")), free);
    var out := RequestStep(c, req, QGenLock, s.db, NoFault);
    var procs := s.procs[p := out.proc][free := Task(req, TStart)];
    SpawnedScene(c, out.db, procs, p);
    assert Next(c, s, e) == Settle(out.db, procs);
    OneMore(c, u, t, i, e);
    u' := Append(c, u, e);
    ObservedTask(procs[pid], out.db);
    ObservedTask(procs[free], out.db);
    assert Last(u').procs[pid] == s.procs[pid] && Last(u').procs[free] == Task(req, TStart);
  }

  lemma SpawnedScene(c: Params, db: Db, procs: map<Pid, Proc>, p: Pid)
    requires forall q :: q in procs && q != p ==> !InSection(procs[q])
    ensures Exclusive(Settle(db, procs))
  {
    hide Observe, InSection;
    forall q | q in procs
      ensures InSection(Observe(procs[q], db)) <==> InSection(procs[q])
    {
      ObservedSection(procs[q], db);
    }
  }

  lemma UnlockedIsJoined(c: Params, t: Trace, i: nat, pid: Pid) returns (u: Trace)
    requires NoCollision(c) && OneChain(c) && LockedRun(c, t) && i < |t.states|
    requires pid in t.states[i].procs && t.states[i].procs[pid].Task?
    requires c.idOf(t.states[i].procs[pid].job) !in t.states[i].db.genLocks
    ensures Onward(c, u, t, i) && !AtMostOneTask(c, Last(u))
  {
    hide Spared, Scene, Observe, ProcStep, AtMostOneTask;
    var req := t.states[i].procs[pid].job;
    TaskIsKnown(c, t, i, pid);
    u := Begin(c, t, i);
    u := Clear(c, u, t, i, pid, req);
    var p := Bound(Last(u).procs.Keys);
    u := Arrives(c, u, t, i, pid, req, p);
    SceneHeader(c, Last(u), pid, req, p);
    var db := Last(u).db;
    var header := db.header.value;
    u := Goes(c, u, t, i, pid, req, p, QGetState(true), AcquireGlobal(db));
    u := Goes(c, u, t, i, pid, req, p, QGetHeader(None), AcquireGlobal(db));
    u := Goes(c, u, t, i, pid, req, p, QStore(header), AcquireGlobal(db));
    u := Goes(c, u, t, i, pid, req, p, QGenLock,
              SetEx(AcquireGlobal(db), c.idOf(req), InitialState(header, req)));
    u := Spawns(c, u, t, i, pid, req, p);
  }

  lemma SceneHeader(c: Params, s: State, pid: Pid, req: ProofRequest, p: Pid)
    requires Scene(c, s, pid, req, p)
    ensures s.db.header.Some? && Finalized(s.db.header.value, req)
  {
  }

  lemma TaskIsKnown(c: Params, t: Trace, i: nat, pid: Pid)
    requires NoCollision(c) && OneChain(c) && LockedRun(c, t) && i < |t.states|
    requires pid in t.states[i].procs && t.states[i].procs[pid].Task?
    ensures var req := t.states[i].procs[pid].job;
            c.known(req) && S.Passes(t.states[i].db.header, req)
  {
    S.EveryStateIsSafe(c, t, i);
    assert I.ProcOk(c, t.states[i].procs[pid]);
    assert S.ProcOk(c, t.states[i].procs[pid], t.states[i].db);
  }

  lemma Begin(c: Params, t: Trace, i: nat) returns (u: Trace)
    requires LockedRun(c, t) && i < |t.states|
    ensures Onward(c, u, t, i) && Last(u) == t.states[i]
  {
    hide Enabled, Next, Exclusive, SparesTasks;
    u := Prefix(t, i);
    PrefixIsRun(c, t, i);
  }

  // --- The exact condition ---

  // No id gets two live tasks in any run that goes on from state i, with sections apart, and takes no
  // key from under a live task.
  ghost predicate StaysSingle(c: Params, t: Trace, i: nat) {
    forall u, j :: Onward(c, u, t, i) && i <= j < |u.states| ==> AtMostOneTask(c, u.states[j])
  }

  lemma StaysSingleExactlyWhen(c: Params, t: Trace, i: nat)
    requires NoCollision(c) && OneChain(c) && LockedRun(c, t) && i < |t.states|
    ensures StaysSingle(c, t, i) <==> AtMostOneTask(c, t.states[i]) && TasksLocked(c, t.states[i])
  {
    hide AtMostOneTask, IsRun, Exclusive, Spared;
    if AtMostOneTask(c, t.states[i]) && TasksLocked(c, t.states[i]) {
      forall u, j | Onward(c, u, t, i) && i <= j < |u.states|
        ensures AtMostOneTask(c, u.states[j])
      {
        assert u.states[..i + 1][i] == t.states[..i + 1][i];
        SparedStaysLocked(c, u, i, j);
      }
    } else if !AtMostOneTask(c, t.states[i]) {
      var u := Begin(c, t, i);
      assert u.states[..i + 1][i] == t.states[..i + 1][i];
    } else {
      var pid :| pid in t.states[i].procs && t.states[i].procs[pid].Task?
                 && c.idOf(t.states[i].procs[pid].job) !in t.states[i].db.genLocks;
      var u := UnlockedIsJoined(c, t, i, pid);
      assert !AtMostOneTask(c, u.states[|u.states| - 1]);
    }
  }

  // Main result: no id has two live tasks in a run or in all that can follow it without taking a key
  // from under a live task, if and only if no event of the run itself takes a key so, if and only if every
  // live task of the run is locked.
  lemma OneTaskExactlyWhen(c: Params, t: Trace)
    requires NoCollision(c) && OneChain(c) && LockedRun(c, t)
    ensures (forall i :: 0 <= i < |t.states| ==> StaysSingle(c, t, i)) <==> Spared(c, t, 0)
    ensures Spared(c, t, 0) <==> forall i :: 0 <= i < |t.states| ==> TasksLocked(c, t.states[i])
    ensures Spared(c, t, 0) ==> forall i :: 0 <= i < |t.states| ==> AtMostOneTask(c, t.states[i])
  {
    hide StaysSingle, SparesTasks, Exclusive;
    NoTasksYet(c);
    forall i | 0 <= i < |t.states|
      ensures StaysSingle(c, t, i) <==> AtMostOneTask(c, t.states[i]) && TasksLocked(c, t.states[i])
      ensures Spared(c, t, 0) ==> AtMostOneTask(c, t.states[i]) && TasksLocked(c, t.states[i])
    {
      StaysSingleExactlyWhen(c, t, i);
      if Spared(c, t, 0) {
        SparedStaysLocked(c, t, 0, i);
      }
    }
    if forall i :: 0 <= i < |t.states| ==> TasksLocked(c, t.states[i]) {
      forall k {:trigger t.events[k]} | 0 <= k < |t.events|
        ensures SparesTasks(c, t.states[k], t.events[k])
      {
        LockedIsSpared(c, t.states[k], t.events[k]);
      }
    }
  }

  lemma NoTasksYet(c: Params)
    ensures AtMostOneTask(c, INIT) && TasksLocked(c, INIT)
  {
  }
}
