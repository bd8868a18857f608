// The proof-request protocol as a transition system. Every Redis command is one
// atomic step of one process; processes are API requests, worker loops, generation
// tasks and their lock-extension tasks, and any number of each may be live.
module Protocol {
  import opened Base
  import opened Primitives
  import opened RedisModel

  // idOf is the request hash, known holds the requests that API callers make, chain says which
  // headers a light client can finalize, canProve which outputs the prover can return for a request.
  datatype Params = Params(
    idOf: ProofRequest -> ProofId,
    known: ProofRequest -> bool,
    chain: Header -> bool,
    canProve: (ProofRequest, ProofData) -> bool)

  // What happens to a command sent to Redis. A command that times out was executed at this step or
  // never will be.
  datatype Fault = NoFault | LostRequest | LostReply

  predicate Took(f: Fault) { f != LostRequest }

  predicate Replied(f: Fault) { f == NoFault }

  type RequestResult = Result<(ProofId, Status), ServiceError>

  datatype RequestPc =
    | QAcquire
    | QGetState(acquired: bool)
    | QGetHeader(prior: Option<RequestState>)
    | QStore(header: Header)
    | QGenLock
    | QRelease(result: RequestResult)
    | QDone(result: RequestResult)

  // A SCAN in progress. `unseen` is a history variable: the ids whose record has been
  // present ever since the scan began and that no reply has returned yet. Redis
  // promises that a complete iteration leaves it empty.
  datatype Scan = Scan(found: seq<RequestState>, unseen: set<ProofId>)

  // History of one pass of the orphan pickup: the ids that have been Generating at every
  // instant of the pass, those whose lock command was answered, those given a task,
  // and whether a command of the pass failed.
  datatype Pass = Pass(stayed: set<ProofId>, handled: set<ProofId>, spawned: set<ProofId>, faulty: bool)

  datatype HeaderResult = UpToDate | NotAcquired | Failed

  datatype WorkerPc =
    | LoopTop
    | HAcquire
    | HRead
    | HScan(scan: Scan)
    | HMget(scan: Scan, ids: seq<ProofId>, last: bool)
    | HCommit(ready: seq<RequestState>)
    | HSpawn(queue: seq<ProofRequest>)
    | HRelease(result: HeaderResult)
    | OStart
    | OScan(scan: Scan, pass: Pass)
    | OMget(scan: Scan, ids: seq<ProofId>, last: bool, pass: Pass)
    | OLock(todo: seq<RequestState>, pass: Pass)
    | ODone(pass: Pass)
    | Tick

  datatype TaskPc =
    | TStart
    | TProve
    | TStore(state: RequestState)

  datatype Proc =
    | Request(req: ProofRequest, rpc: RequestPc)
    | Worker(tip: Header, advance: bool, wpc: WorkerPc)
    | Task(job: ProofRequest, tpc: TaskPc)
    | Extender(id: ProofId)
    | Halted

  // The outside world's choices for one step; each step reads the fields it needs.
  datatype Input = Input(
    fault: Fault,
    ids: seq<ProofId>,
    last: bool,
    advanced: Option<Header>,
    outcome: Result<ProofData, string>)

  datatype Outcome = Outcome(proc: Proc, db: Db, child: Option<Proc>)

  // --- API requests ---

  function InitialState(header: Header, request: ProofRequest): RequestState {
    NewState(request).(status := if Finalized(header, request) then Generating else WaitingForFinality)
  }

  function RequestStep(c: Params, req: ProofRequest, pc: RequestPc, db: Db, f: Fault): Outcome
    requires !pc.QDone?
  {
    var id := c.idOf(req);
    var failed := Request(req, QRelease(Err(RedisError)));
    match pc
    case QAcquire =>
      Outcome(
        Request(req, if Replied(f) then QGetState(!db.globalLock) else QDone(Err(RedisError))),
        if Took(f) then AcquireGlobal(db) else db,
        None)
    case QGetState(acquired) =>
      if !Replied(f) then Outcome(failed, db, None)
      else
        var prior := Get(db, id);
        var next :=
          if acquired then QGetHeader(prior)
          else if prior.Some? then QRelease(Ok((id, prior.value.status)))
          else QRelease(Err(LockContention(id)));
        Outcome(Request(req, next), db, None)
    case QGetHeader(prior) =>
      if !Replied(f) then Outcome(failed, db, None)
      else
        var next :=
          if db.header.None? || db.header.value.execBlock.None? then QRelease(Err(Internal))
          else if prior.Some? && prior.value.status != Errored then QRelease(Ok((id, prior.value.status)))
          else QStore(db.header.value);
        Outcome(Request(req, next), db, None)
    case QStore(header) =>
      var st := InitialState(header, req);
      var db' := if Took(f) then SetEx(db, id, st) else db;
      if !Replied(f) then Outcome(failed, db', None)
      else
        var next := if st.status == Generating then QGenLock else QRelease(Ok((id, st.status)));
        Outcome(Request(req, next), db', None)
    case QGenLock =>
      Outcome(
        Request(req, QRelease(Ok((id, Generating)))),
        if Took(f) then AcquireGen(db, id) else db,
        if Replied(f) && id !in db.genLocks then Some(Task(req, TStart)) else None)
    case QRelease(result) =>
      Outcome(Request(req, QDone(result)), if Took(f) then ReleaseGlobal(db) else db, None)
  }

  // --- The worker loop: new headers ---

  predicate Ready(header: Header, st: RequestState) {
    st.status == WaitingForFinality && Finalized(header, st.request)
  }

  function FilterReady(header: Header, found: seq<RequestState>): seq<RequestState> {
    if found == [] then []
    else
      FilterReady(header, found[..|found| - 1]) +
      var st := found[|found| - 1];
      if Ready(header, st) then [st] else []
  }

  function Promote(st: RequestState): RequestState {
    st.(status := Generating)
  }

  function Promotions(c: Params, ready: seq<RequestState>): seq<(ProofId, RequestState)> {
    seq(|ready|, i requires 0 <= i < |ready| => (c.idOf(ready[i].request), Promote(ready[i])))
  }

  function Requests(states: seq<RequestState>): seq<ProofRequest> {
    seq(|states|, i requires 0 <= i < |states| => states[i].request)
  }

  function AfterHeaderBatch(tip: Header, scan: Scan, last: bool): WorkerPc {
    if !last then HScan(scan)
    else if tip.execBlock.None? then HRelease(Failed)
    else HCommit(FilterReady(tip, scan.found))
  }

  predicate OutdatedBy(stored: Option<Header>, tip: Header) {
    stored.Some? ==> stored.value.slot < tip.slot
  }

  function HeaderStep(c: Params, tip: Header, advance: bool, pc: WorkerPc, db: Db, input: Input): Outcome
    requires pc.HAcquire? || pc.HRead? || pc.HScan? || pc.HMget? || pc.HCommit? || pc.HSpawn? || pc.HRelease?
  {
    var f := input.fault;
    var failed := Worker(tip, advance, HRelease(Failed));
    match pc
    case HAcquire =>
      Outcome(
        Worker(tip, advance,
               if !Replied(f) then OStart else if db.globalLock then HRelease(NotAcquired) else HRead),
        if Took(f) then AcquireGlobal(db) else db,
        None)
    case HRead =>
      if !Replied(f) then Outcome(failed, db, None)
      else if OutdatedBy(db.header, tip) then
        Outcome(Worker(tip, advance, HScan(Scan([], db.records.Keys))), db, None)
      else Outcome(Worker(tip, advance, HRelease(UpToDate)), db, None)
    case HScan(scan) =>
      if !Replied(f) then Outcome(failed, db, None)
      else
        var scan' := scan.(unseen := scan.unseen - set id | id in input.ids);
        Outcome(Worker(tip, advance, HMget(scan', input.ids, input.last)), db, None)
    case HMget(scan, ids, last) =>
      if ids != [] && !Replied(f) then Outcome(failed, db, None)
      else
        var scan' := scan.(found := scan.found + MgetMatching(db.records, ids, WaitingForFinality));
        Outcome(Worker(tip, advance, AfterHeaderBatch(tip, scan', last)), db, None)
    case HCommit(ready) =>
      var db' := if Took(f) then Multi(db, tip, Promotions(c, ready)) else db;
      if !Replied(f) then Outcome(failed, db', None)
      else Outcome(Worker(tip, advance, HSpawn(Requests(ready))), db', None)
    case HSpawn(queue) =>
      if queue == [] then Outcome(Worker(tip, advance, HRelease(UpToDate)), db, None)
      else
        var id := c.idOf(queue[0]);
        Outcome(
          Worker(tip, advance, HSpawn(queue[1..])),
          if Took(f) then AcquireGen(db, id) else db,
          if Replied(f) && id !in db.genLocks then Some(Task(queue[0], TStart)) else None)
    case HRelease(result) =>
      Outcome(
        Worker(tip, if result == UpToDate then false else advance, OStart),
        if Took(f) then ReleaseGlobal(db) else db,
        None)
  }

  // --- The worker loop: orphan pickup, health check and light client ---

  function GeneratingIds(db: Db): set<ProofId> {
    set id | id in db.records && db.records[id].status == Generating
  }

  function AfterOrphanBatch(scan: Scan, last: bool, pass: Pass): WorkerPc {
    if last then OLock(scan.found, pass) else OScan(scan, pass)
  }

  function OrphanStep(c: Params, tip: Header, advance: bool, pc: WorkerPc, db: Db, input: Input): Outcome
    requires pc.OStart? || pc.OScan? || pc.OMget? || pc.OLock?
  {
    var f := input.fault;
    match pc
    case OStart =>
      var pass := Pass(GeneratingIds(db), {}, {}, false);
      Outcome(Worker(tip, advance, OScan(Scan([], db.records.Keys), pass)), db, None)
    case OScan(scan, pass) =>
      if !Replied(f) then Outcome(Worker(tip, advance, ODone(pass.(faulty := true))), db, None)
      else
        var scan' := scan.(unseen := scan.unseen - set id | id in input.ids);
        Outcome(Worker(tip, advance, OMget(scan', input.ids, input.last, pass)), db, None)
    case OMget(scan, ids, last, pass) =>
      if ids != [] && !Replied(f) then
        Outcome(Worker(tip, advance, ODone(pass.(faulty := true))), db, None)
      else
        var scan' := scan.(found := scan.found + MgetMatching(db.records, ids, Generating));
        Outcome(Worker(tip, advance, AfterOrphanBatch(scan', last, pass)), db, None)
    case OLock(todo, pass) =>
      if todo == [] then Outcome(Worker(tip, advance, ODone(pass)), db, None)
      else
        var id := c.idOf(todo[0].request);
        var spawns := Replied(f) && id !in db.genLocks;
        var pass' :=
          if !Replied(f) then pass.(faulty := true)
          else pass.(handled := pass.handled + {id},
                     spawned := if spawns then pass.spawned + {id} else pass.spawned);
        Outcome(
          Worker(tip, advance, OLock(todo[1..], pass')),
          if Took(f) then AcquireGen(db, id) else db,
          if spawns then Some(Task(todo[0].request, TStart)) else None)
  }

  function WorkerStep(c: Params, w: Proc, db: Db, input: Input): Outcome
    requires w.Worker?
  {
    var Worker(tip, advance, pc) := w;
    match pc
    case LoopTop => Outcome(Worker(tip, advance, if advance then HAcquire else OStart), db, None)
    case ODone(_) =>
      // The header health check ends the worker when the header is missing or too old.
      if Replied(input.fault) && (db.header.None? || input.last) then Outcome(Halted, db, None)
      else Outcome(Worker(tip, advance, Tick), db, None)
    case Tick =>
      var w' :=
        if input.advanced.None? then Worker(tip, advance, LoopTop)
        else
          var tip' := input.advanced.value;
          Worker(tip', if tip'.slot > tip.slot then true else advance, LoopTop);
      Outcome(w', db, None)
    case OStart => OrphanStep(c, tip, advance, pc, db, input)
    case OScan(_, _) => OrphanStep(c, tip, advance, pc, db, input)
    case OMget(_, _, _, _) => OrphanStep(c, tip, advance, pc, db, input)
    case OLock(_, _) => OrphanStep(c, tip, advance, pc, db, input)
    case _ => HeaderStep(c, tip, advance, pc, db, input)
  }

  // --- Generation tasks ---

  function FinalState(req: ProofRequest, outcome: Result<ProofData, string>): RequestState {
    match outcome
    case Ok(data) => NewState(req).(status := Success, proofData := Some(data))
    case Err(message) => NewState(req).(status := Errored, errorMessage := Some(message))
  }

  function TaskStep(c: Params, req: ProofRequest, pc: TaskPc, db: Db, input: Input): Outcome {
    match pc
    case TStart => Outcome(Task(req, TProve), db, Some(Extender(c.idOf(req))))
    case TProve => Outcome(Task(req, TStore(FinalState(req, input.outcome))), db, None)
    case TStore(st) =>
      Outcome(
        if Replied(input.fault) then Halted else Task(req, pc),
        if Took(input.fault) then SetEx(db, c.idOf(req), st) else db,
        None)
  }

  // PEXPIRE changes no value here; the last command of the task is its DEL.
  function ExtenderStep(id: ProofId, db: Db, input: Input): Outcome {
    if !input.last then Outcome(Extender(id), db, None)
    else Outcome(Halted, if Took(input.fault) then ReleaseGen(db, id) else db, None)
  }

  // --- The whole system ---

  type Pid = nat

  datatype State = State(db: Db, procs: map<Pid, Proc>)

  datatype Event =
    | Run(pid: Pid, input: Input, child: Pid)
    | Arrive(pid: Pid, req: ProofRequest)
    | Boot(pid: Pid, tip: Header)
    | Crash(pid: Pid)
    | RecordExpires(id: ProofId)
    | GenLockExpires(id: ProofId)
    | GlobalLockExpires

  const INIT := State(EMPTY_DB, map[])

  predicate Live(pr: Proc) {
    !pr.Halted? && (pr.Request? ==> !pr.rpc.QDone?)
  }

  // A SCAN reply that ends the iteration has returned every key that was present throughout;
  // the light client's own advance never lowers its slot; the prover returns what it can prove.
  ghost predicate Allowed(c: Params, pr: Proc, input: Input) {
    && (pr.Worker? && pr.wpc.HScan? && input.last ==> pr.wpc.scan.unseen <= set id | id in input.ids)
    && (pr.Worker? && pr.wpc.OScan? && input.last ==> pr.wpc.scan.unseen <= set id | id in input.ids)
    && (pr.Worker? && pr.wpc.Tick? && input.advanced.Some? ==>
          c.chain(input.advanced.value) && input.advanced.value.slot >= pr.tip.slot)
    && (pr.Task? && pr.tpc.TProve? && input.outcome.Ok? ==> c.canProve(pr.job, input.outcome.value))
  }

  ghost predicate Enabled(c: Params, s: State, e: Event) {
    match e
    case Run(pid, input, child) =>
      pid in s.procs && Live(s.procs[pid]) && child !in s.procs && Allowed(c, s.procs[pid], input)
    case Arrive(pid, req) => pid !in s.procs && c.known(req)
    case Boot(pid, tip) => pid !in s.procs && c.chain(tip)
    case Crash(pid) => pid in s.procs
    case _ => true
  }

  function ProcStep(c: Params, pr: Proc, db: Db, input: Input): Outcome
    requires Live(pr)
  {
    match pr
    case Request(req, pc) => RequestStep(c, req, pc, db, input.fault)
    case Worker(_, _, _) => WorkerStep(c, pr, db, input)
    case Task(req, pc) => TaskStep(c, req, pc, db, input)
    case Extender(id) => ExtenderStep(id, db, input)
  }

  // Keeps the history variables of a process in step with the new store.
  function Observe(pr: Proc, db: Db): Proc {
    if !pr.Worker? then pr
    else
      match pr.wpc
      case HScan(scan) => pr.(wpc := HScan(See(scan, db)))
      case HMget(scan, ids, last) => pr.(wpc := HMget(See(scan, db), ids, last))
      case OScan(scan, pass) => pr.(wpc := OScan(See(scan, db), Watch(pass, db)))
      case OMget(scan, ids, last, pass) => pr.(wpc := OMget(See(scan, db), ids, last, Watch(pass, db)))
      case OLock(todo, pass) => pr.(wpc := OLock(todo, Watch(pass, db)))
      case ODone(pass) => pr.(wpc := ODone(Watch(pass, db)))
      case _ => pr
  }

  function See(scan: Scan, db: Db): Scan {
    scan.(unseen := scan.unseen * db.records.Keys)
  }

  function Watch(pass: Pass, db: Db): Pass {
    pass.(stayed := pass.stayed * GeneratingIds(db))
  }

  function Settle(db: Db, procs: map<Pid, Proc>): State {
    State(db, map pid | pid in procs :: Observe(procs[pid], db))
  }

  function WithChild(procs: map<Pid, Proc>, pid: Pid, child: Option<Proc>): map<Pid, Proc> {
    if child.Some? then procs[pid := child.value] else procs
  }

  ghost function Next(c: Params, s: State, e: Event): State
    requires Enabled(c, s, e)
  {
    match e
    case Run(pid, input, child) =>
      var out := ProcStep(c, s.procs[pid], s.db, input);
      Settle(out.db, WithChild(s.procs[pid := out.proc], child, out.child))
    case Arrive(pid, req) => State(s.db, s.procs[pid := Request(req, QAcquire)])
    case Boot(pid, tip) => State(s.db, s.procs[pid := Worker(tip, true, LoopTop)])
    case Crash(pid) => State(s.db, s.procs[pid := Halted])
    case RecordExpires(id) => Settle(ExpireRecord(s.db, id), s.procs)
    case GenLockExpires(id) => Settle(ReleaseGen(s.db, id), s.procs)
    case GlobalLockExpires => Settle(ReleaseGlobal(s.db), s.procs)
  }

  // --- Hypotheses on runs ---

  // Inside the closure of with_global_lock with the lock acquired.
  predicate InSection(pr: Proc) {
    match pr
    case Request(_, pc) =>
      (pc.QGetState? && pc.acquired) || pc.QGetHeader? || pc.QStore? || pc.QGenLock?
    case Worker(_, _, pc) =>
      pc.HRead? || pc.HScan? || pc.HMget? || pc.HCommit? || pc.HSpawn?
    case _ => false
  }

  // H1: sections entered with the global lock acquired do not overlap.
  ghost predicate Exclusive(s: State) {
    forall p, q :: p in s.procs && q in s.procs && InSection(s.procs[p]) && InSection(s.procs[q]) ==> p == q
  }

  // H2: all headers come from one chain.
  ghost predicate OneChain(c: Params) {
    && (forall g, h :: c.chain(g) && c.chain(h) && g.slot == h.slot ==> g == h)
    && (forall g, h :: c.chain(g) && c.chain(h) && g.slot < h.slot && g.execBlock.Some? && h.execBlock.Some? ==>
          g.execBlock.value <= h.execBlock.value)
  }

  // No two of the requests that are made share an id.
  ghost predicate NoCollision(c: Params) {
    forall r, q :: c.known(r) && c.known(q) && c.idOf(r) == c.idOf(q) ==> r == q
  }

  // A run: the states and the events between them.
  datatype Trace = Trace(states: seq<State>, events: seq<Event>)

  ghost predicate IsRun(c: Params, t: Trace) {
    && |t.states| == |t.events| + 1
    && t.states[0] == INIT
    && forall i {:trigger t.events[i]} :: 0 <= i < |t.events| ==>
         Enabled(c, t.states[i], t.events[i]) && t.states[i + 1] == Next(c, t.states[i], t.events[i])
  }

  ghost predicate LockedRun(c: Params, t: Trace) {
    IsRun(c, t) && forall i :: 0 <= i < |t.states| ==> Exclusive(t.states[i])
  }
}
