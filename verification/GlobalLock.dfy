// Why mutual exclusion of locked sections (H1) is a hypothesis on runs: the code breaks it when a
// process that failed to acquire the lock releases it. It keeps it exactly while the lock key is
// only taken when no section is open.
module GlobalLock {
  import opened Base
  import opened Primitives
  import opened RedisModel
  import opened Protocol
  import opened Runs

  ghost predicate SectionOpen(s: State) {
    exists pid :: pid in s.procs && InSection(s.procs[pid])
  }

  // A state with an open section has the lock key.
  ghost predicate KeyHeld(s: State) {
    SectionOpen(s) ==> s.db.globalLock
  }

  ghost predicate TakesKey(c: Params, s: State, e: Event)
    requires Enabled(c, s, e)
  {
    s.db.globalLock && !Next(c, s, e).db.globalLock
  }

  // From event i on, no event takes the key from under an open section.
  ghost predicate Spared(c: Params, t: Trace, i: nat)
    requires IsRun(c, t)
  {
    forall k {:trigger t.events[k]} :: i <= k < |t.events| ==>
      (TakesKey(c, t.states[k], t.events[k]) ==> !SectionOpen(t.states[k]))
  }

  // A step enters a section only by finding the key absent, and keeps the key unless it releases it.
  lemma OwnStep(c: Params, pr: Proc, db: Db, input: Input)
    requires Live(pr)
    ensures var out := ProcStep(c, pr, db, input);
            && (InSection(out.proc) && !InSection(pr) ==> !db.globalLock && out.db.globalLock)
            && (db.globalLock && !out.db.globalLock ==> !InSection(pr))
            && (out.child.Some? ==> !InSection(out.child.value))
  {
  }

  lemma ObserveIsNeutral(pr: Proc, db: Db)
    ensures InSection(Observe(pr, db)) <==> InSection(pr)
  {
  }

  lemma SettledSections(db: Db, procs: map<Pid, Proc>)
    ensures forall pid :: pid in procs ==> (InSection(Settle(db, procs).procs[pid]) <==> InSection(procs[pid]))
  {
    hide Observe, InSection;
    forall pid | pid in procs
      ensures InSection(Settle(db, procs).procs[pid]) <==> InSection(procs[pid])
    {
      ObserveIsNeutral(procs[pid], db);
    }
  }

  // Which sections are open after an event.
  lemma SectionsAfter(c: Params, s: State, e: Event)
    requires Enabled(c, s, e)
    ensures var s' := Next(c, s, e);
            && (forall pid :: pid in s'.procs && InSection(s'.procs[pid]) ==>
                  || (pid in s.procs && InSection(s.procs[pid]))
                  || (e.Run? && pid == e.pid && !s.db.globalLock && s'.db.globalLock))
            && (TakesKey(c, s, e) ==>
                  forall pid :: pid in s.procs && InSection(s.procs[pid]) ==>
                    pid in s'.procs && InSection(s'.procs[pid]))
  {
    hide ProcStep, Observe, Allowed;
    match e
    case Run(pid, input, child) =>
      OwnStep(c, s.procs[pid], s.db, input);
      var out := ProcStep(c, s.procs[pid], s.db, input);
      SettledSections(out.db, WithChild(s.procs[pid := out.proc], child, out.child));
    case RecordExpires(id) => SettledSections(ExpireRecord(s.db, id), s.procs);
    case GenLockExpires(id) => SettledSections(ReleaseGen(s.db, id), s.procs);
    case GlobalLockExpires => SettledSections(ReleaseGlobal(s.db), s.procs);
    case _ =>
  }

  lemma StepKeeps(c: Params, s: State, e: Event)
    requires Exclusive(s) && KeyHeld(s) && Enabled(c, s, e)
    requires TakesKey(c, s, e) ==> !SectionOpen(s)
    ensures Exclusive(Next(c, s, e)) && KeyHeld(Next(c, s, e))
  {
    hide Next, InSection, Enabled;
    SectionsAfter(c, s, e);
  }

  lemma TakenKeyIsMissed(c: Params, s: State, e: Event)
    requires Enabled(c, s, e) && TakesKey(c, s, e) && SectionOpen(s)
    ensures !KeyHeld(Next(c, s, e))
  {
    hide Next, InSection, Enabled;
    SectionsAfter(c, s, e);
  }

  lemma {:induction false} SparedStaysExclusive(c: Params, u: Trace, i: nat, j: nat)
    requires IsRun(c, u) && i <= j < |u.states| && Spared(c, u, i)
    requires Exclusive(u.states[i]) && KeyHeld(u.states[i])
    ensures Exclusive(u.states[j]) && KeyHeld(u.states[j])
    decreases j
  {
    if i < j {
      SparedStaysExclusive(c, u, i, j - 1);
      StepKeeps(c, u.states[j - 1], u.events[j - 1]);
    }
  }

  // --- An exposed section can be overlapped ---

  const OK := Input(NoFault, [], false, None, Err(""))

  // A new request finds the key absent.
  lemma ArrivalOverlaps(c: Params, s: State, req: ProofRequest, p: Pid)
    requires c.known(req) && SectionOpen(s) && !s.db.globalLock && forall q :: q in s.procs ==> q < p
    ensures Enabled(c, s, Arrive(p, req)) && !TakesKey(c, s, Arrive(p, req))
    ensures var s' := Next(c, s, Arrive(p, req));
            && Enabled(c, s', Run(p, OK, p + 1)) && !TakesKey(c, s', Run(p, OK, p + 1))
            && !Exclusive(Next(c, s', Run(p, OK, p + 1)))
  {
    hide Observe;
    var pid :| pid in s.procs && InSection(s.procs[pid]);
    var s' := Next(c, s, Arrive(p, req));
    var s'' := Next(c, s', Run(p, OK, p + 1));
    ObserveIsNeutral(s.procs[pid], s''.db);
    ObserveIsNeutral(Request(req, QGetState(true)), s''.db);
    assert InSection(s''.procs[pid]) && InSection(s''.procs[p]) && pid != p;
  }

  // Sections do not overlap in any run that goes on from state i and takes no key from under one.
  ghost predicate StaysExclusive(c: Params, t: Trace, i: nat) {
    forall u, j :: IsRun(c, u) && GoesOn(u, t, i) && Spared(c, u, i) && i <= j < |u.states| ==>
      Exclusive(u.states[j])
  }

  lemma ExposedOverlaps(c: Params, t: Trace, i: nat, req: ProofRequest)
    requires IsRun(c, t) && i < |t.states| && c.known(req) && !KeyHeld(t.states[i])
    ensures !StaysExclusive(c, t, i)
  {
    hide Enabled, Next, Exclusive, KeyHeld, SectionOpen;
    var s, u := t.states[i], Prefix(t, i);
    PrefixIsRun(c, t, i);
    var p := Bound(s.procs.Keys);
    Exposed(s);
    ArrivalOverlaps(c, s, req, p);
    var v := Append(c, u, Arrive(p, req));
    AppendIsRun(c, u, Arrive(p, req));
    var w := Append(c, v, Run(p, OK, p + 1));
    AppendIsRun(c, v, Run(p, OK, p + 1));
    GoesOnFurther(t, v, w, i, i + 1);
    assert w.events[i] == Arrive(p, req) && w.events[i + 1] == Run(p, OK, p + 1);
    assert w.states[i] == s && w.states[i + 1] == Next(c, s, Arrive(p, req));
    assert Spared(c, w, i);
    assert !Exclusive(w.states[i + 2]);
  }

  lemma Exposed(s: State)
    ensures !KeyHeld(s) <==> SectionOpen(s) && !s.db.globalLock
  {
  }

  // --- The exact condition ---

  // What follows a state without taking the key from under an open section is exclusive throughout,
  // exactly when the sections of the state are apart and covered by the key.
  lemma StaysExclusiveExactlyWhen(c: Params, t: Trace, i: nat, req: ProofRequest)
    requires IsRun(c, t) && i < |t.states| && c.known(req)
    ensures StaysExclusive(c, t, i) <==> Exclusive(t.states[i]) && KeyHeld(t.states[i])
  {
    hide Exclusive, KeyHeld, IsRun;
    if Exclusive(t.states[i]) && KeyHeld(t.states[i]) {
      forall u, j | IsRun(c, u) && GoesOn(u, t, i) && Spared(c, u, i) && i <= j < |u.states|
        ensures Exclusive(u.states[j])
      {
        assert u.states[..i + 1][i] == t.states[..i + 1][i];
        SparedStaysExclusive(c, u, i, j);
      }
    } else if !KeyHeld(t.states[i]) {
      ExposedOverlaps(c, t, i, req);
    } else {
      PrefixIsRun(c, t, i);
      assert Spared(c, Prefix(t, i), i);
    }
  }

  lemma HeldIsSpared(c: Params, t: Trace)
    requires IsRun(c, t) && forall i :: 0 <= i < |t.states| ==> KeyHeld(t.states[i])
    ensures Spared(c, t, 0)
  {
    forall k {:trigger t.events[k]} | 0 <= k < |t.events| && TakesKey(c, t.states[k], t.events[k])
      ensures !SectionOpen(t.states[k])
    {
      if SectionOpen(t.states[k]) {
        TakenKeyIsMissed(c, t.states[k], t.events[k]);
        assert false;
      }
    }
  }

  // Main result: sections stay apart in a run and in all that can follow it without taking the key from
  // under an open section, if and only if no event of the run itself takes the key so, if and only if
  // every state of the run with an open section has the key.
  lemma SectionsStayApartExactlyWhen(c: Params, t: Trace, req: ProofRequest)
    requires IsRun(c, t) && c.known(req)
    ensures (forall i :: 0 <= i < |t.states| ==> StaysExclusive(c, t, i)) <==> Spared(c, t, 0)
    ensures Spared(c, t, 0) <==> forall i :: 0 <= i < |t.states| ==> KeyHeld(t.states[i])
    ensures Spared(c, t, 0) ==> LockedRun(c, t)
  {
    hide Spared, StaysExclusive, SectionOpen;
    forall i | 0 <= i < |t.states|
      ensures StaysExclusive(c, t, i) <==> Exclusive(t.states[i]) && KeyHeld(t.states[i])
      ensures Spared(c, t, 0) ==> Exclusive(t.states[i]) && KeyHeld(t.states[i])
    {
      StaysExclusiveExactlyWhen(c, t, i, req);
      if Spared(c, t, 0) {
        NothingOpen();
        SparedStaysExclusive(c, t, 0, i);
      }
    }
    if forall i :: 0 <= i < |t.states| ==> KeyHeld(t.states[i]) {
      HeldIsSpared(c, t);
    }
  }

  lemma NothingOpen()
    ensures Exclusive(INIT) && KeyHeld(INIT)
  {
  }

  // --- A run that breaks H1 ---

  function Step(pid: Pid): Event { Run(pid, OK, 9) }

  // The request with pid 1 finds the lock taken by pid 0, answers with a contention error and
  // deletes the lock; pid 2 then acquires it while pid 0 is still in its section.
  function Contended(req: ProofRequest): seq<Event> {
    [Arrive(0, req), Step(0), Arrive(1, req), Step(1), Step(1), Step(1), Arrive(2, req), Step(2)]
  }

  function Procs(first: RequestPc, second: RequestPc, req: ProofRequest): map<Pid, Proc> {
    map[0 := Request(req, first), 1 := Request(req, second)]
  }

  function Refusal(c: Params, req: ProofRequest): RequestResult {
    Err(LockContention(c.idOf(req)))
  }

  const LOCKED := EMPTY_DB.(globalLock := true)

  // The states that the events of Contended lead through.
  function Visited(c: Params, req: ProofRequest): seq<State> {
    var held := QGetState(true);
    var both := Procs(held, QDone(Refusal(c, req)), req);
    [ INIT,
      State(EMPTY_DB, map[0 := Request(req, QAcquire)]),
      State(LOCKED, map[0 := Request(req, held)]),
      State(LOCKED, Procs(held, QAcquire, req)),
      State(LOCKED, Procs(held, QGetState(false), req)),
      State(LOCKED, Procs(held, QRelease(Refusal(c, req)), req)),
      State(EMPTY_DB, both),
      State(EMPTY_DB, both[2 := Request(req, QAcquire)]),
      State(LOCKED, both[2 := Request(req, held)])
    ]
  }

  lemma ArriveStep(c: Params, s: State, pid: Pid, req: ProofRequest)
    requires c.known(req) && pid !in s.procs
    ensures Enabled(c, s, Arrive(pid, req))
    ensures Next(c, s, Arrive(pid, req)) == State(s.db, s.procs[pid := Request(req, QAcquire)])
  {
  }

  // A step of a request when every process is a request and no task is started.
  lemma RequestRuns(c: Params, s: State, pid: Pid, out: Outcome)
    requires pid in s.procs && Live(s.procs[pid]) && 9 !in s.procs
    requires forall p :: p in s.procs ==> s.procs[p].Request?
    requires out == RequestStep(c, s.procs[pid].req, s.procs[pid].rpc, s.db, NoFault) && out.child.None?
    ensures Enabled(c, s, Step(pid))
    ensures Next(c, s, Step(pid)) == State(out.db, s.procs[pid := out.proc])
  {
  }

  predicate IsArrival(i: nat) { i == 0 || i == 2 || i == 6 }

  lemma VisitedByArrival(c: Params, req: ProofRequest, i: nat)
    requires c.known(req) && i < 8 && IsArrival(i)
    ensures var s := Visited(c, req)[i];
            Enabled(c, s, Contended(req)[i]) && Next(c, s, Contended(req)[i]) == Visited(c, req)[i + 1]
  {
    ArriveStep(c, Visited(c, req)[i], if i == 0 then 0 else if i == 2 then 1 else 2, req);
  }

  lemma VisitedByStep(c: Params, req: ProofRequest, i: nat)
    requires c.known(req) && i < 8 && !IsArrival(i)
    ensures var s := Visited(c, req)[i];
            Enabled(c, s, Contended(req)[i]) && Next(c, s, Contended(req)[i]) == Visited(c, req)[i + 1]
  {
    var s := Visited(c, req)[i];
    var pid := if i == 1 then 0 else if i == 7 then 2 else 1;
    RequestRuns(c, s, pid, RequestStep(c, req, s.procs[pid].rpc, s.db, NoFault));
  }

  lemma VisitedByRun(c: Params, req: ProofRequest, i: nat)
    requires c.known(req) && i < 8
    ensures var s := Visited(c, req)[i];
            Enabled(c, s, Contended(req)[i]) && Next(c, s, Contended(req)[i]) == Visited(c, req)[i + 1]
  {
    if IsArrival(i) {
      VisitedByArrival(c, req, i);
    } else {
      VisitedByStep(c, req, i);
    }
  }

  lemma OverlapIsPossible(c: Params, req: ProofRequest)
    requires c.known(req)
    ensures exists t :: IsRun(c, t) && t.events == Contended(req) && !Exclusive(t.states[|t.events|])
  {
    var t := Trace(Visited(c, req), Contended(req));
    forall i {:trigger t.events[i]} | 0 <= i < |t.events|
      ensures Enabled(c, t.states[i], t.events[i]) && t.states[i + 1] == Next(c, t.states[i], t.events[i])
    {
      VisitedByRun(c, req, i);
    }
    var procs := t.states[8].procs;
    assert InSection(procs[0]) && InSection(procs[2]);
  }
}
