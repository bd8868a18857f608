// A run that loses a success: a pickup finds the request Generating, its task stores the proof and
// releases the lock, the pickup is granted the lock, and the second task stores an error.
module Regenerated {
  import opened Base
  import opened Primitives
  import opened RedisModel
  import opened Protocol
  import opened Regeneration

  // One enabled step to an exclusive state.
  ghost predicate Leads(c: Params, s: State, e: Event, s': State) {
    Enabled(c, s, e) && Next(c, s, e) == s' && Exclusive(s')
  }

  // Steps one after the other.
  ghost predicate Chain(c: Params, states: seq<State>, events: seq<Event>) {
    && |states| == |events| + 1
    && forall k: nat {:trigger events[k]} :: k < |events| ==> Leads(c, states[k], events[k], states[k + 1])
  }

  lemma Chained(c: Params, a: seq<State>, es: seq<Event>, b: seq<State>, fs: seq<Event>)
    requires Chain(c, a, es) && Chain(c, b, fs) && a[|a| - 1] == b[0]
    ensures Chain(c, a + b[1..], es + fs)
  {
    hide Leads;
    var states, events := a + b[1..], es + fs;
    forall k: nat {:trigger events[k]} | k < |events|
      ensures Leads(c, states[k], events[k], states[k + 1])
    {
      if k < |es| {
        assert events[k] == es[k];
      } else {
        assert events[k] == fs[k - |es|];
      }
    }
  }

  lemma ChainIsRun(c: Params, t: Trace)
    requires Chain(c, t.states, t.events) && t.states[0] == INIT
    ensures LockedRun(c, t)
  {
    forall k | 0 <= k < |t.states|
      ensures Exclusive(t.states[k])
    {
      if k > 0 {
        assert t.events[k - 1] == t.events[k - 1];
      }
    }
  }

  function Goes(pid: Pid): Event { Run(pid, ANSWERED, 9) }

  function Spawn(pid: Pid, child: Pid): Event { Run(pid, ANSWERED, child) }

  function Reply(pid: Pid, ids: seq<ProofId>): Event { Run(pid, ANSWERED.(ids := ids, last := true), 9) }

  // --- A worker stores the first header ---

  function OneWorker(db: Db, tip: Header, advance: bool, pc: WorkerPc): State {
    State(db, map[0 := Worker(tip, advance, pc)])
  }

  const LOCKED := EMPTY_DB.(globalLock := true)

  function WithHeader(tip: Header): Db { EMPTY_DB.(header := Some(tip)) }

  function HeaderEvents(tip: Header): seq<Event> {
    [Boot(0, tip), Goes(0), Goes(0), Goes(0), Reply(0, []), Goes(0), Goes(0), Goes(0), Goes(0)]
  }

  function HeaderStates(tip: Header): seq<State> {
    [ INIT,
      OneWorker(EMPTY_DB, tip, true, LoopTop),
      OneWorker(EMPTY_DB, tip, true, HAcquire),
      OneWorker(LOCKED, tip, true, HRead),
      OneWorker(LOCKED, tip, true, HScan(Scan([], {}))),
      OneWorker(LOCKED, tip, true, HMget(Scan([], {}), [], true)),
      OneWorker(LOCKED, tip, true, HCommit([])),
      OneWorker(WithHeader(tip).(globalLock := true), tip, true, HSpawn([])),
      OneWorker(WithHeader(tip).(globalLock := true), tip, true, HRelease(UpToDate)),
      OneWorker(WithHeader(tip), tip, false, OStart)
    ]
  }

  // --- A request is stored as Generating and gets a task ---

  function OneRecord(c: Params, tip: Header, req: ProofRequest, st: RequestState): Db {
    WithHeader(tip).(records := map[c.idOf(req) := st])
  }

  function Asking(db: Db, tip: Header, req: ProofRequest, pc: RequestPc): State {
    State(db, map[0 := Worker(tip, false, OStart), 1 := Request(req, pc)])
  }

  function RequestEvents(req: ProofRequest): seq<Event> {
    [Arrive(1, req), Goes(1), Goes(1), Goes(1), Goes(1), Spawn(1, 2)]
  }

  function RequestStates(c: Params, tip: Header, req: ProofRequest): seq<State> {
    var db := WithHeader(tip).(globalLock := true);
    [ OneWorker(WithHeader(tip), tip, false, OStart),
      Asking(WithHeader(tip), tip, req, QAcquire),
      Asking(db, tip, req, QGetState(true)),
      Asking(db, tip, req, QGetHeader(None)),
      Asking(db, tip, req, QStore(tip)),
      Asking(Stored(c, tip, req), tip, req, QGenLock),
      Working(c, tip, req, OStart, TStart)
    ]
  }

  function Generated(req: ProofRequest): RequestState { NewState(req).(status := Generating) }

  function Stored(c: Params, tip: Header, req: ProofRequest): Db {
    OneRecord(c, tip, req, Generated(req)).(globalLock := true)
  }

  function Answer(c: Params, req: ProofRequest): Proc {
    Request(req, QRelease(Ok((c.idOf(req), Generating))))
  }

  function Working(c: Params, tip: Header, req: ProofRequest, wpc: WorkerPc, tpc: TaskPc): State {
    State(
      Stored(c, tip, req).(genLocks := {c.idOf(req)}),
      map[0 := Worker(tip, false, wpc), 1 := Answer(c, req), 2 := Task(req, tpc)])
  }

  // --- The pickup finds it ---

  function ScanEvents(c: Params, req: ProofRequest): seq<Event> {
    [Goes(0), Reply(0, [c.idOf(req)]), Goes(0)]
  }

  function PassOver(ids: set<ProofId>): Pass { Pass(ids, {}, {}, false) }

  function ScanStates(c: Params, tip: Header, req: ProofRequest): seq<State> {
    var id := c.idOf(req);
    [ Working(c, tip, req, OStart, TStart),
      Working(c, tip, req, OScan(Scan([], {id}), PassOver({id})), TStart),
      Working(c, tip, req, OMget(Scan([], {}), [id], true, PassOver({id})), TStart),
      Working(c, tip, req, OLock([Generated(req)], PassOver({id})), TStart)
    ]
  }

  // --- The task stores the proof and its lock goes ---

  function Proving(c: Params, tip: Header, req: ProofRequest, db: Db, stayed: set<ProofId>, task: Proc, keeper: Proc)
    : State
  {
    State(
      db.(globalLock := true),
      map[0 := Worker(tip, false, OLock([Generated(req)], PassOver(stayed))), 1 := Answer(c, req), 2 := task,
          3 := keeper])
  }

  function TaskEvents(data: ProofData): seq<Event> {
    [ Spawn(2, 3), Run(2, ANSWERED.(outcome := Ok(data)), 9), Goes(2),
      Run(3, ANSWERED.(last := true), 9)]
  }

  function TaskStates(c: Params, tip: Header, req: ProofRequest, data: ProofData): seq<State> {
    var id := c.idOf(req);
    var success := FinalState(req, Ok(data));
    var found := OneRecord(c, tip, req, Generated(req)).(genLocks := {id});
    var done := OneRecord(c, tip, req, success);
    [ Working(c, tip, req, OLock([Generated(req)], PassOver({id})), TStart),
      Proving(c, tip, req, found, {id}, Task(req, TProve), Extender(id)),
      Proving(c, tip, req, found, {id}, Task(req, TStore(success)), Extender(id)),
      Proving(c, tip, req, done.(genLocks := {id}), {}, Halted, Extender(id)),
      Proving(c, tip, req, done, {}, Halted, Halted)
    ]
  }

  // --- The pickup is granted the lock and its task fails ---

  function Again(c: Params, tip: Header, req: ProofRequest, db: Db, task: Proc): State {
    var pass := Pass({}, {c.idOf(req)}, {c.idOf(req)}, false);
    State(
      db.(globalLock := true, genLocks := {c.idOf(req)}),
      map[0 := Worker(tip, false, OLock([], pass)), 1 := Answer(c, req), 2 := Halted, 3 := Halted, 4 := task])
  }

  function Failing(c: Params, tip: Header, req: ProofRequest, db: Db, task: Proc): State {
    var s := Again(c, tip, req, db, task);
    s.(procs := s.procs[5 := Extender(c.idOf(req))])
  }

  function AgainEvents(): seq<Event> {
    [Spawn(0, 4), Spawn(4, 5), Goes(4), Goes(4)]
  }

  function AgainStates(c: Params, tip: Header, req: ProofRequest, data: ProofData): seq<State> {
    var success, failure := FinalState(req, Ok(data)), FinalState(req, Err(""));
    var done := OneRecord(c, tip, req, success);
    [ Proving(c, tip, req, done, {}, Halted, Halted),
      Again(c, tip, req, done, Task(req, TStart)),
      Failing(c, tip, req, done, Task(req, TProve)),
      Failing(c, tip, req, done, Task(req, TStore(failure))),
      Failing(c, tip, req, OneRecord(c, tip, req, failure), Halted)
    ]
  }

  // --- The stretches, one step at a time ---

  lemma WorkerLeads(c: Params, tip: Header, advance: bool, pc: WorkerPc, db: Db, input: Input, db': Db, w: Proc)
    requires var pr := Worker(tip, advance, pc);
             && Allowed(c, pr, input) && WorkerStep(c, pr, db, input) == Outcome(w, db', None)
             && w.Worker? && w.tip == tip && Observe(w, db') == w
    ensures Leads(c, OneWorker(db, tip, advance, pc), Run(0, input, 9), OneWorker(db', tip, w.advance, w.wpc))
  {
    hide WorkerStep, Allowed;
    var s := OneWorker(db, tip, advance, pc);
    var s' := OneWorker(db', tip, w.advance, w.wpc);
    assert Settle(db', WithChild(s.procs[0 := w], 9, None)).procs == s'.procs;
  }

  lemma HeaderOutcomeFirst(c: Params, tip: Header, k: nat)
    requires c.chain(tip) && 0 < k < 3
    ensures var s, s' := HeaderStates(tip)[k], HeaderStates(tip)[k + 1];
            var input := HeaderEvents(tip)[k].input;
            && Allowed(c, s.procs[0], input)
            && WorkerStep(c, s.procs[0], s.db, input) == Outcome(s'.procs[0], s'.db, None)
            && Observe(s'.procs[0], s'.db) == s'.procs[0]
  {
  }

  lemma HeaderOutcomeEarly(c: Params, tip: Header, k: nat)
    requires c.chain(tip) && 3 <= k < 5
    ensures var s, s' := HeaderStates(tip)[k], HeaderStates(tip)[k + 1];
            var input := HeaderEvents(tip)[k].input;
            && Allowed(c, s.procs[0], input)
            && WorkerStep(c, s.procs[0], s.db, input) == Outcome(s'.procs[0], s'.db, None)
            && Observe(s'.procs[0], s'.db) == s'.procs[0]
  {
    var none: set<ProofId> := {};
    assert EMPTY_DB.records.Keys == none;
    assert none - (set id | id in HeaderEvents(tip)[k].input.ids) == none;
  }

  lemma HeaderOutcomeLate(c: Params, tip: Header, k: nat)
    requires c.chain(tip) && tip.execBlock.Some? && 5 <= k < 9
    ensures var s, s' := HeaderStates(tip)[k], HeaderStates(tip)[k + 1];
            var input := HeaderEvents(tip)[k].input;
            && Allowed(c, s.procs[0], input)
            && WorkerStep(c, s.procs[0], s.db, input) == Outcome(s'.procs[0], s'.db, None)
            && Observe(s'.procs[0], s'.db) == s'.procs[0]
  {
    assert Promotions(c, []) == [] && Requests([]) == [];
  }

  lemma HeaderLeads(c: Params, tip: Header, k: nat)
    requires c.chain(tip) && tip.execBlock.Some? && k < 9
    ensures Leads(c, HeaderStates(tip)[k], HeaderEvents(tip)[k], HeaderStates(tip)[k + 1])
  {
    hide WorkerStep, Allowed, Observe;
    if k == 0 {
      assert HeaderStates(tip)[1].procs == map[][0 := Worker(tip, true, LoopTop)];
    } else {
      if k < 3 {
        HeaderOutcomeFirst(c, tip, k);
      } else if k < 5 {
        HeaderOutcomeEarly(c, tip, k);
      } else {
        HeaderOutcomeLate(c, tip, k);
      }
      var s, s' := HeaderStates(tip)[k], HeaderStates(tip)[k + 1];
      var w := s.procs[0];
      WorkerLeads(c, tip, w.advance, w.wpc, s.db, HeaderEvents(tip)[k].input, s'.db, s'.procs[0]);
    }
  }

  lemma AskingSettles(tip: Header, req: ProofRequest, pc: RequestPc, db: Db, db': Db)
    ensures Settle(db', Asking(db, tip, req, pc).procs) == Asking(db', tip, req, pc)
    ensures Exclusive(Asking(db', tip, req, pc))
  {
    assert Settle(db', Asking(db, tip, req, pc).procs).procs == Asking(db', tip, req, pc).procs;
  }

  lemma RequestLeads(c: Params, tip: Header, req: ProofRequest, pc: RequestPc, db: Db, db': Db, pc': RequestPc)
    requires !pc.QDone? && RequestStep(c, req, pc, db, NoFault) == Outcome(Request(req, pc'), db', None)
    ensures Leads(c, Asking(db, tip, req, pc), Goes(1), Asking(db', tip, req, pc'))
  {
    hide RequestStep, Observe, Exclusive, Settle;
    var s := Asking(db, tip, req, pc);
    AskingSettles(tip, req, pc', db, db');
    assert WithChild(s.procs[1 := Request(req, pc')], 9, None) == Asking(db, tip, req, pc').procs;
  }

  lemma RequestLeadsAt(c: Params, tip: Header, req: ProofRequest, k: nat)
    requires c.known(req) && Finalized(tip, req) && k < 6
    ensures Leads(c, RequestStates(c, tip, req)[k], RequestEvents(req)[k], RequestStates(c, tip, req)[k + 1])
  {
    var s, s' := RequestStates(c, tip, req)[k], RequestStates(c, tip, req)[k + 1];
    if k == 0 {
      assert s'.procs == s.procs[1 := Request(req, QAcquire)];
    } else if k < 5 {
      assert WithHeader(tip).records[c.idOf(req) := Generated(req)] == map[c.idOf(req) := Generated(req)];
      RequestLeads(c, tip, req, s.procs[1].rpc, s.db, s'.db, s'.procs[1].rpc);
    } else {
      LockLeads(c, tip, req);
    }
  }

  lemma LockLeads(c: Params, tip: Header, req: ProofRequest)
    ensures Leads(c, Asking(Stored(c, tip, req), tip, req, QGenLock), Spawn(1, 2),
                  Working(c, tip, req, OStart, TStart))
  {
    var s, s' := Asking(Stored(c, tip, req), tip, req, QGenLock), Working(c, tip, req, OStart, TStart);
    var out := RequestStep(c, req, QGenLock, s.db, NoFault);
    assert {} + {c.idOf(req)} == {c.idOf(req)};
    assert out == Outcome(Answer(c, req), s'.db, Some(Task(req, TStart)));
    assert Settle(s'.db, WithChild(s.procs[1 := out.proc], 2, out.child)).procs == s'.procs;
  }

  lemma ScanLeads(c: Params, tip: Header, req: ProofRequest, pc: WorkerPc, input: Input, pc': WorkerPc)
    requires var db, pr := Working(c, tip, req, pc, TStart).db, Worker(tip, false, pc);
             && Allowed(c, pr, input)
             && WorkerStep(c, pr, db, input) == Outcome(Worker(tip, false, pc'), db, None)
             && Observe(Worker(tip, false, pc'), db) == Worker(tip, false, pc')
    requires !InSection(Worker(tip, false, pc'))
    ensures Leads(c, Working(c, tip, req, pc, TStart), Run(0, input, 9), Working(c, tip, req, pc', TStart))
  {
    hide WorkerStep, Allowed;
    var s, s' := Working(c, tip, req, pc, TStart), Working(c, tip, req, pc', TStart);
    assert Settle(s.db, WithChild(s.procs[0 := Worker(tip, false, pc')], 9, None)).procs == s'.procs;
  }

  lemma ScanOutcome(c: Params, tip: Header, req: ProofRequest, k: nat)
    requires k < 2
    ensures var s, s' := ScanStates(c, tip, req)[k], ScanStates(c, tip, req)[k + 1];
            var input := ScanEvents(c, req)[k].input;
            && Allowed(c, s.procs[0], input)
            && WorkerStep(c, s.procs[0], s.db, input) == Outcome(s'.procs[0], s.db, None)
            && Observe(s'.procs[0], s.db) == s'.procs[0]
  {
    var s := ScanStates(c, tip, req)[k];
    var id, input := c.idOf(req), ScanEvents(c, req)[k].input;
    assert GeneratingIds(s.db) == {id} && s.db.records.Keys == {id};
    if k == 1 {
      assert {id} - (set i | i in input.ids) == {};
      assert input.ids[0] == id;
    }
  }

  lemma MgetOutcome(c: Params, tip: Header, req: ProofRequest, k: nat)
    requires k == 2
    ensures var s, s' := ScanStates(c, tip, req)[k], ScanStates(c, tip, req)[k + 1];
            var input := ScanEvents(c, req)[k].input;
            && Allowed(c, s.procs[0], input)
            && WorkerStep(c, s.procs[0], s.db, input) == Outcome(s'.procs[0], s.db, None)
            && Observe(s'.procs[0], s.db) == s'.procs[0]
  {
    var s, id := ScanStates(c, tip, req)[k], c.idOf(req);
    assert GeneratingIds(s.db) == {id};
    assert [id][..0] == [] && [id][0] == id;
    assert MgetMatching(s.db.records, [id], Generating) == [Generated(req)];
  }

  lemma ScanLeadsAt(c: Params, tip: Header, req: ProofRequest, k: nat)
    requires k < 3
    ensures Leads(c, ScanStates(c, tip, req)[k], ScanEvents(c, req)[k], ScanStates(c, tip, req)[k + 1])
  {
    hide WorkerStep, Allowed, Observe, Leads;
    if k < 2 {
      ScanOutcome(c, tip, req, k);
    } else {
      MgetOutcome(c, tip, req, k);
    }
    var s, s' := ScanStates(c, tip, req)[k], ScanStates(c, tip, req)[k + 1];
    ScanLeads(c, tip, req, s.procs[0].wpc, ScanEvents(c, req)[k].input, s'.procs[0].wpc);
  }

  predicate Background(pr: Proc) { pr.Task? || pr.Extender? || pr.Halted? }

  lemma ProvingIsExclusive(
    c: Params, tip: Header, req: ProofRequest, db: Db, stayed: set<ProofId>, task: Proc, keeper: Proc)
    requires Background(task) && Background(keeper)
    ensures Exclusive(Proving(c, tip, req, db, stayed, task, keeper))
  {
  }

  // The pickup observes a smaller set of Generating records.
  lemma ProvingSettles(
    c: Params, tip: Header, req: ProofRequest, db: Db, stayed: set<ProofId>, task: Proc, keeper: Proc, db': Db)
    requires Background(task) && Background(keeper)
    ensures var s' := Proving(c, tip, req, db', stayed * GeneratingIds(db'), task, keeper);
            Settle(s'.db, Proving(c, tip, req, db, stayed, task, keeper).procs) == s'
  {
    var s' := Proving(c, tip, req, db', stayed * GeneratingIds(db'), task, keeper);
    assert GeneratingIds(s'.db) == GeneratingIds(db');
    assert Settle(s'.db, Proving(c, tip, req, db, stayed, task, keeper).procs).procs == s'.procs;
  }

  // A step of the first task or its keeper.
  lemma ProvingLeads(
    c: Params, tip: Header, req: ProofRequest, db: Db, stayed: set<ProofId>, task: Proc, keeper: Proc,
    pid: Pid, input: Input, db': Db, pr': Proc)
    requires (pid == 2 && task.Task?) || (pid == 3 && keeper.Extender?)
    requires Background(task) && Background(keeper) && Background(pr')
    requires var s := Proving(c, tip, req, db, stayed, task, keeper);
             && ProcStep(c, s.procs[pid], s.db, input) == Outcome(pr', db'.(globalLock := true), None)
             && Allowed(c, s.procs[pid], input)
    ensures Leads(c, Proving(c, tip, req, db, stayed, task, keeper), Run(pid, input, 9),
                  Proving(c, tip, req, db', stayed * GeneratingIds(db'),
                          if pid == 2 then pr' else task, if pid == 3 then pr' else keeper))
  {
    hide ProcStep, Allowed, Observe, Exclusive, GeneratingIds, Settle;
    var s := Proving(c, tip, req, db, stayed, task, keeper);
    var task', keeper' := if pid == 2 then pr' else task, if pid == 3 then pr' else keeper;
    ProvingSettles(c, tip, req, db, stayed, task', keeper', db');
    ProvingIsExclusive(c, tip, req, db', stayed * GeneratingIds(db'), task', keeper');
    assert WithChild(s.procs[pid := pr'], 9, None) == Proving(c, tip, req, db, stayed, task', keeper').procs;
  }

  lemma TaskStarts(c: Params, tip: Header, req: ProofRequest, data: ProofData)
    ensures Leads(c, TaskStates(c, tip, req, data)[0], Spawn(2, 3), TaskStates(c, tip, req, data)[1])
  {
    var s, s' := TaskStates(c, tip, req, data)[0], TaskStates(c, tip, req, data)[1];
    var id := c.idOf(req);
    assert GeneratingIds(s.db) == {id} && {id} * {id} == {id};
    assert Settle(s.db, WithChild(s.procs[2 := Task(req, TProve)], 3, Some(Extender(id)))).procs == s'.procs;
  }

  lemma TaskLeadsAt(c: Params, tip: Header, req: ProofRequest, data: ProofData, k: nat)
    requires c.canProve(req, data) && k < 4
    ensures Leads(c, TaskStates(c, tip, req, data)[k], TaskEvents(data)[k], TaskStates(c, tip, req, data)[k + 1])
  {
    hide Leads, Observe;
    if k == 0 {
      TaskStarts(c, tip, req, data);
    } else {
      var id, success := c.idOf(req), FinalState(req, Ok(data));
      var found := OneRecord(c, tip, req, Generated(req)).(genLocks := {id});
      var done := OneRecord(c, tip, req, success).(genLocks := {id});
      assert GeneratingIds(found) == {id} && GeneratingIds(done) == {} && {id} * {id} == {id} && {id} - {id} == {};
      if k == 1 {
        ProvingLeads(c, tip, req, found, {id}, Task(req, TProve), Extender(id), 2,
                     ANSWERED.(outcome := Ok(data)), found, Task(req, TStore(success)));
      } else if k == 2 {
        assert found.records[id := success] == done.records;
        assert {id} * GeneratingIds(done) == {};
        ProvingLeads(c, tip, req, found, {id}, Task(req, TStore(success)), Extender(id), 2,
                     ANSWERED, done, Halted);
      } else {
        assert {} * GeneratingIds(done.(genLocks := {})) == {};
        ProvingLeads(c, tip, req, done, {}, Halted, Extender(id), 3,
                     ANSWERED.(last := true), done.(genLocks := {}), Halted);
      }
    }
  }

  lemma PickupOutcome(c: Params, tip: Header, req: ProofRequest, data: ProofData)
    ensures var s, s' := AgainStates(c, tip, req, data)[0], AgainStates(c, tip, req, data)[1];
            WorkerStep(c, s.procs[0], s.db, ANSWERED) == Outcome(s'.procs[0], s'.db, Some(Task(req, TStart)))
  {
    var id, found := c.idOf(req), [Generated(req)];
    assert {} + {id} == {id} && found[1..] == [];
  }

  lemma PickupLeads(c: Params, tip: Header, req: ProofRequest, data: ProofData)
    ensures Leads(c, AgainStates(c, tip, req, data)[0], Spawn(0, 4), AgainStates(c, tip, req, data)[1])
  {
    hide WorkerStep;
    PickupOutcome(c, tip, req, data);
    var s, s' := AgainStates(c, tip, req, data)[0], AgainStates(c, tip, req, data)[1];
    assert {} * GeneratingIds(s'.db) == {};
    assert Settle(s'.db, WithChild(s.procs[0 := s'.procs[0]], 4, Some(Task(req, TStart)))).procs == s'.procs;
  }

  lemma AgainSettles(c: Params, tip: Header, req: ProofRequest, db: Db, task: Proc, db': Db)
    requires Background(task)
    ensures var s' := Failing(c, tip, req, db', task);
            Settle(s'.db, Failing(c, tip, req, db, task).procs) == s' && Exclusive(s')
  {
    var s' := Failing(c, tip, req, db', task);
    assert {} * GeneratingIds(s'.db) == {};
    assert Settle(s'.db, Failing(c, tip, req, db, task).procs).procs == s'.procs;
  }

  lemma FailingLeads(
    c: Params, tip: Header, req: ProofRequest, db: Db, pc: TaskPc, input: Input, db': Db, pr': Proc)
    requires Background(pr') && Allowed(c, Task(req, pc), input)
    requires TaskStep(c, req, pc, Failing(c, tip, req, db, pr').db, input)
             == Outcome(pr', Failing(c, tip, req, db', pr').db, None)
    ensures Leads(c, Failing(c, tip, req, db, Task(req, pc)), Run(4, input, 9), Failing(c, tip, req, db', pr'))
  {
    hide TaskStep, Allowed, Observe, Exclusive, GeneratingIds, Settle;
    AgainSettles(c, tip, req, db, pr', db');
    var s := Failing(c, tip, req, db, Task(req, pc));
    assert WithChild(s.procs[4 := pr'], 9, None) == Failing(c, tip, req, db, pr').procs;
  }

  lemma SecondStarts(c: Params, tip: Header, req: ProofRequest, db: Db)
    ensures Leads(c, Again(c, tip, req, db, Task(req, TStart)), Spawn(4, 5),
                  Failing(c, tip, req, db, Task(req, TProve)))
  {
    hide Observe, Exclusive, GeneratingIds, Settle;
    var s := Again(c, tip, req, db, Task(req, TStart));
    AgainSettles(c, tip, req, db, Task(req, TProve), db);
    assert WithChild(s.procs[4 := Task(req, TProve)], 5, Some(Extender(c.idOf(req))))
        == Failing(c, tip, req, db, Task(req, TProve)).procs;
  }

  // The second task fails.
  lemma FailingLeadsAt(c: Params, tip: Header, req: ProofRequest, data: ProofData, k: nat)
    requires 0 < k < 4
    ensures Leads(c, AgainStates(c, tip, req, data)[k], AgainEvents()[k], AgainStates(c, tip, req, data)[k + 1])
  {
    hide Leads, Observe;
    var id, failure := c.idOf(req), FinalState(req, Err(""));
    var done, failed := OneRecord(c, tip, req, FinalState(req, Ok(data))), OneRecord(c, tip, req, failure);
    if k == 1 {
      SecondStarts(c, tip, req, done);
    } else if k == 2 {
      FailingLeads(c, tip, req, done, TProve, ANSWERED, done, Task(req, TStore(failure)));
    } else {
      assert done.records[id := failure] == failed.records;
      FailingLeads(c, tip, req, done, TStore(failure), ANSWERED, failed, Halted);
    }
  }

  // --- The whole run ---

  function AllEvents(c: Params, tip: Header, req: ProofRequest, data: ProofData): seq<Event> {
    HeaderEvents(tip) + RequestEvents(req) + ScanEvents(c, req) + TaskEvents(data) + AgainEvents()
  }

  function AllStates(c: Params, tip: Header, req: ProofRequest, data: ProofData): seq<State> {
    HeaderStates(tip) + RequestStates(c, tip, req)[1..] + ScanStates(c, tip, req)[1..]
    + TaskStates(c, tip, req, data)[1..] + AgainStates(c, tip, req, data)[1..]
  }

  lemma HeaderChain(c: Params, tip: Header)
    requires c.chain(tip) && tip.execBlock.Some?
    ensures Chain(c, HeaderStates(tip), HeaderEvents(tip))
  {
    hide Leads;
    forall k: nat | k < 9
      ensures Leads(c, HeaderStates(tip)[k], HeaderEvents(tip)[k], HeaderStates(tip)[k + 1])
    {
      HeaderLeads(c, tip, k);
    }
  }

  lemma RequestChain(c: Params, tip: Header, req: ProofRequest)
    requires c.known(req) && Finalized(tip, req)
    ensures Chain(c, RequestStates(c, tip, req), RequestEvents(req))
  {
    hide Leads;
    forall k: nat | k < 6
      ensures Leads(c, RequestStates(c, tip, req)[k], RequestEvents(req)[k], RequestStates(c, tip, req)[k + 1])
    {
      RequestLeadsAt(c, tip, req, k);
    }
  }

  lemma ScanChain(c: Params, tip: Header, req: ProofRequest)
    ensures Chain(c, ScanStates(c, tip, req), ScanEvents(c, req))
  {
    hide Leads;
    forall k: nat | k < 3
      ensures Leads(c, ScanStates(c, tip, req)[k], ScanEvents(c, req)[k], ScanStates(c, tip, req)[k + 1])
    {
      ScanLeadsAt(c, tip, req, k);
    }
  }

  lemma TaskChains(c: Params, tip: Header, req: ProofRequest, data: ProofData)
    requires c.canProve(req, data)
    ensures Chain(c, TaskStates(c, tip, req, data), TaskEvents(data))
    ensures Chain(c, AgainStates(c, tip, req, data), AgainEvents())
  {
    hide Leads;
    forall k: nat | k < 4
      ensures Leads(c, TaskStates(c, tip, req, data)[k], TaskEvents(data)[k], TaskStates(c, tip, req, data)[k + 1])
      ensures Leads(c, AgainStates(c, tip, req, data)[k], AgainEvents()[k], AgainStates(c, tip, req, data)[k + 1])
    {
      TaskLeadsAt(c, tip, req, data, k);
      if k == 0 {
        PickupLeads(c, tip, req, data);
      } else {
        FailingLeadsAt(c, tip, req, data, k);
      }
    }
  }

  lemma AllChain(c: Params, tip: Header, req: ProofRequest, data: ProofData)
    requires c.chain(tip) && c.known(req) && c.canProve(req, data) && Finalized(tip, req)
    ensures Chain(c, AllStates(c, tip, req, data), AllEvents(c, tip, req, data))
  {
    hide Leads;
    HeaderChain(c, tip);
    RequestChain(c, tip, req);
    ScanChain(c, tip, req);
    TaskChains(c, tip, req, data);
    var a, b := HeaderStates(tip), RequestStates(c, tip, req);
    var d, e := ScanStates(c, tip, req), TaskStates(c, tip, req, data);
    Chained(c, a, HeaderEvents(tip), b, RequestEvents(req));
    Chained(c, a + b[1..], HeaderEvents(tip) + RequestEvents(req), d, ScanEvents(c, req));
    Chained(c, a + b[1..] + d[1..], HeaderEvents(tip) + RequestEvents(req) + ScanEvents(c, req), e, TaskEvents(data));
    Chained(c, a + b[1..] + d[1..] + e[1..],
            HeaderEvents(tip) + RequestEvents(req) + ScanEvents(c, req) + TaskEvents(data),
            AgainStates(c, tip, req, data), AgainEvents());
  }

  // Where in the run the last two stretches lie.
  lemma Ending(c: Params, tip: Header, req: ProofRequest, data: ProofData)
    ensures var states, events := AllStates(c, tip, req, data), AllEvents(c, tip, req, data);
            && |states| == 27 && |events| == 26
            && states[0] == INIT
            && states[21] == TaskStates(c, tip, req, data)[3] && states[26] == AgainStates(c, tip, req, data)[4]
            && forall k :: 21 <= k < 26 ==> events[k].Run?
  {
    hide Proving, Again, Failing, Working, Asking, OneWorker, FinalState;
  }

  // A run in which sections do not overlap and nothing expires stores a proof as a success and,
  // five events later, an error for the same request.
  lemma SuccessIsLost(c: Params, tip: Header, req: ProofRequest, data: ProofData)
    requires c.chain(tip) && c.known(req) && c.canProve(req, data) && Finalized(tip, req)
    ensures exists t ::
              && LockedRun(c, t) && t.events == AllEvents(c, tip, req, data) && |t.states| == 27
              && (var id := c.idOf(req);
                  && Succeeded(t.states[21].db, id)
                  && id in t.states[26].db.records && t.states[26].db.records[id].status == Errored
                  && Unexpired(t, 21, id))
  {
    hide Chain, IsRun, LockedRun, AllStates, AllEvents;
    var t := Trace(AllStates(c, tip, req, data), AllEvents(c, tip, req, data));
    AllChain(c, tip, req, data);
    Ending(c, tip, req, data);
    ChainIsRun(c, t);
  }
}
