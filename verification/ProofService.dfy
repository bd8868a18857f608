// The service code itself, run as one process among any number of others. Every method is
// proved to take exactly the protocol's steps: its log of commands is a legal path of the
// process, and it leaves the process where its result says.
module ProofService {
  import opened Base
  import opened Primitives
  import opened RedisModel
  import opened Protocol
  import opened Process
  import opened RedisStore

  // A detached task started by the code.
  datatype Job = Generate(request: ProofRequest) | KeepLock(id: ProofId)

  function JobProc(job: Job): Proc {
    match job
    case Generate(request) => Task(request, TStart)
    case KeepLock(id) => Extender(id)
  }

  function JobProcs(jobs: seq<Job>): seq<Proc> {
    seq(|jobs|, i requires 0 <= i < |jobs| => JobProc(jobs[i]))
  }

  // Some state from the n-th turn on has a header at least as new.
  ghost predicate SeenAtLeast(log: seq<Turn>, n: nat, tip: Header) {
    exists k :: n <= k < |log| && !OutdatedBy(log[k].after.header, tip)
  }

  lemma OneMoreJob(jobs: seq<Job>, job: Job)
    ensures JobProcs(jobs + [job]) == JobProcs(jobs) + [JobProc(job)]
  {
  }

  // The step from a state that other processes' steps do not change.
  function Taken(c: Params, v: View, turn: Turn): View
    requires Live(v.proc)
  {
    var out := ProcStep(c, v.proc, Latest(v.db, turn.others), turn.input);
    View(out.proc, out.db, v.spawned + ListOf(out.child))
  }

  // What the run loop is given in one round: its clock's verdict on headers, and the header that
  // its light client finalized, if it advanced.
  datatype Poll = Poll(stale: Header -> bool, advanced: Option<Header>)

  function TipAfter(tip: Header, poll: Poll): Header {
    if poll.advanced.Some? then poll.advanced.value else tip
  }

  ghost predicate PollOk(c: Params, tip: Header, poll: Poll) {
    poll.advanced.Some? ==> c.chain(poll.advanced.value) && poll.advanced.value.slot >= tip.slot
  }

  ghost predicate PollsOk(c: Params, tip: Header, polls: seq<Poll>)
    decreases |polls|
  {
    polls != [] ==> PollOk(c, tip, polls[0]) && PollsOk(c, TipAfter(tip, polls[0]), polls[1..])
  }

  // --- How a request is answered, in terms of what its commands met ---

  // The n-th command of the log was answered.
  predicate HeardAt(log: seq<Turn>, n: nat) {
    n < |log| && Replied(log[n].input.fault)
  }

  function RecordAt(log: seq<Turn>, n: nat, id: ProofId): Option<RequestState>
    requires n < |log|
  {
    Get(log[n].after, id)
  }

  predicate PayloadAt(log: seq<Turn>, n: nat) {
    n < |log| && log[n].after.header.Some? && log[n].after.header.value.execBlock.Some?
  }

  // A request with no record, or with one that says it failed, is stored anew.
  predicate StoresAnew(prior: Option<RequestState>) {
    prior.None? || prior.value.status == Errored
  }

  // The commands of a locked request from the n-th on, and its answer: the record is read first, then, with
  // the lock, the header; only a request that is stored anew sends more, first of all its own record.
  ghost predicate Answered(c: Params, request: ProofRequest, acquired: bool, log: seq<Turn>, n: nat, r: RequestResult) {
    var id := c.idOf(request);
    && n < |log|
    && var prior := RecordAt(log, n, id);
       if !HeardAt(log, n) then r == Err(RedisError) && |log| == n + 1
       else if !acquired then
         && |log| == n + 1
         && (prior.Some? ==> r == Ok((id, prior.value.status)))
         && (prior.None? ==> r == Err(LockContention(id)))
       else if !HeardAt(log, n + 1) then r == Err(RedisError) && |log| == n + 2
       else if !PayloadAt(log, n + 1) then r == Err(Internal) && |log| == n + 2
       else if !StoresAnew(prior) then r == Ok((id, prior.value.status)) && |log| == n + 2
       else
         var header := log[n + 1].after.header.value;
         var passes := header.execBlock.value >= request.blockNumber && header.slot > request.fromHead;
         && n + 2 < |log| <= n + 4
         && (HeardAt(log, n + 2) <==> r.Ok?) && (r.Err? ==> r == Err(RedisError))
         && (r.Ok? ==>
               && r == Ok((id, if passes then Generating else WaitingForFinality))
               && RecordAt(log, n + 2, id) == Some(RequestState(r.value.1, request, None, None, None)))
  }

  // The status that is answered was stored when some command ran; contention and a missing header are
  // answered exactly when they were met.
  lemma AnsweredMeans(c: Params, request: ProofRequest, acquired: bool, log: seq<Turn>, n: nat, r: RequestResult)
    requires Answered(c, request, acquired, log, n, r)
    ensures r.Ok? ==>
              && r.value.0 == c.idOf(request)
              && exists k :: n <= k < |log| && RecordAt(log, k, c.idOf(request)).Some?
                             && RecordAt(log, k, c.idOf(request)).value.status == r.value.1
    ensures r == Err(LockContention(c.idOf(request))) <==>
              !acquired && HeardAt(log, n) && RecordAt(log, n, c.idOf(request)).None?
    ensures r == Err(Internal) <==>
              acquired && HeardAt(log, n) && HeardAt(log, n + 1) && !PayloadAt(log, n + 1)
  {
    if r.Ok? {
      var k := if !acquired || !StoresAnew(RecordAt(log, n, c.idOf(request))) then n else n + 2;
      assert RecordAt(log, k, c.idOf(request)).Some?;
    }
  }

  class ProofService {
    const redisStore: RedisStore
    var jobs: seq<Job>
    const c: Params
    ghost const start: View
    // The process of the protocol that the code has been so far.
    ghost var view: View

    ghost predicate Valid()
      reads this, redisStore
    {
      && Path(c, start, redisStore.log, view)
      && view.db == redisStore.db
      && start.spawned + JobProcs(jobs) == view.spawned
    }

    constructor (store: RedisStore, c: Params, ghost proc: Proc)
      requires store.log == []
      ensures Valid() && redisStore == store && this.c == c && view.proc == proc && jobs == []
    {
      redisStore := store;
      jobs := [];
      this.c := c;
      start := View(proc, store.db, []);
      view := View(proc, store.db, []);
    }

    // --- Bookkeeping: the command just logged is the next step of the process ---

    ghost method Follow(before: seq<Turn>, turn: Turn)
      requires redisStore.log == before + [turn] && turn.after == redisStore.db
      requires Path(c, start, before, view) && Conforms(c, view, turn)
      modifies this`view
      ensures view == Advance(c, old(view), turn) && view.db == redisStore.db
      ensures Path(c, start, redisStore.log, view)
    {
      Extend(c, start, before, view, turn);
      view := Advance(c, view, turn);
    }

    ghost method Take(before: seq<Turn>, turn: Turn)
      requires redisStore.log == before + [turn] && turn.after == redisStore.db
      requires Path(c, start, before, view) && Steady(view.proc)
      requires Live(view.proc) && Allowed(c, view.proc, turn.input)
      requires turn.after == Taken(c, view, turn).db && Steady(Taken(c, view, turn).proc)
      modifies this`view
      ensures view == Taken(c, old(view), turn) && view.db == redisStore.db
      ensures Path(c, start, redisStore.log, view)
    {
      SteadyStays(view.proc, turn.others);
      assert Observe(Taken(c, view, turn).proc, turn.after) == Taken(c, view, turn).proc;
      Follow(before, turn);
    }

    ghost method TakeRequestStep(before: seq<Turn>, turn: Turn)
      requires redisStore.log == before + [turn] && turn.after == redisStore.db
      requires Path(c, start, before, view) && view.proc.Request? && Live(view.proc)
      requires var seen := Latest(view.db, turn.others);
               turn.after == RequestStep(c, view.proc.req, view.proc.rpc, seen, turn.input.fault).db
      modifies this`view
      ensures var pr, seen := old(view.proc), Latest(old(view.db), turn.others);
              var out := RequestStep(c, pr.req, pr.rpc, seen, turn.input.fault);
              view == View(out.proc, redisStore.db, old(view.spawned) + ListOf(out.child))
      ensures Path(c, start, redisStore.log, view)
    {
      Take(before, turn);
    }

    // A step of a new-header section other than those around its scan.
    ghost method TakeHeaderStep(before: seq<Turn>, turn: Turn)
      requires redisStore.log == before + [turn] && turn.after == redisStore.db
      requires Path(c, start, before, view) && view.proc.Worker?
      requires view.proc.wpc.HAcquire? || view.proc.wpc.HCommit? || view.proc.wpc.HSpawn? || view.proc.wpc.HRelease?
      requires var seen := Latest(view.db, turn.others);
               turn.after == HeaderStep(c, view.proc.tip, view.proc.advance, view.proc.wpc, seen, turn.input).db
      modifies this`view
      ensures var pr, seen := old(view.proc), Latest(old(view.db), turn.others);
              var out := HeaderStep(c, pr.tip, pr.advance, pr.wpc, seen, turn.input);
              view == View(out.proc, redisStore.db, old(view.spawned) + ListOf(out.child))
      ensures Path(c, start, redisStore.log, view)
    {
      Take(before, turn);
    }

    // tokio::spawn, right after the step that acquired the lock.
    method Spawn(job: Job)
      requires start.spawned + JobProcs(jobs) + [JobProc(job)] == view.spawned
      modifies this`jobs
      ensures jobs == old(jobs) + [job] && start.spawned + JobProcs(jobs) == view.spawned
    {
      OneMoreJob(jobs, job);
      jobs := jobs + [job];
    }

    // --- API requests ---

    method ProcessRequest(request: ProofRequest) returns (r: RequestResult)
      requires Valid() && view.proc == Request(request, QAcquire)
      modifies this, redisStore
      ensures Valid() && view.proc == Request(request, QDone(r))
      ensures var log, n := redisStore.log, |old(redisStore.log)|;
              && n < |log|
              && (if !HeardAt(log, n) then r == Err(RedisError) && |log| == n + 1
                  else
                    // The answer is that of the commands between the acquisition and the release.
                    var free := !Latest(old(redisStore.db), log[n].others).globalLock;
                    n + 1 < |log| && Answered(c, request, free, log[..|log| - 1], n + 1, r))
      ensures old(redisStore.log) <= redisStore.log && old(jobs) <= jobs
    {
      hide Path, ProcStep;
      // with_global_lock
      ghost var before := redisStore.log;
      var acquired, turn := redisStore.AcquireGlobalLock();
      TakeRequestStep(before, turn);
      if acquired.Err? {
        return Err(acquired.error);
      }
      r := ProcessRequestLocked(request, acquired.value);
      before := redisStore.log;
      turn := redisStore.ReleaseGlobalLock();
      TakeRequestStep(before, turn);
    }

    method ProcessRequestLocked(request: ProofRequest, acquired: bool) returns (r: RequestResult)
      requires Valid() && view.proc == Request(request, QGetState(acquired))
      modifies this, redisStore
      ensures Valid() && view.proc == Request(request, QRelease(r))
      ensures Answered(c, request, acquired, redisStore.log, |old(redisStore.log)|, r)
      ensures old(redisStore.log) <= redisStore.log && old(jobs) <= jobs
    {
      hide Path, ProcStep;
      var id := c.idOf(request);
      ghost var before := redisStore.log;
      var state, turn := redisStore.GetProofState(id);
      TakeRequestStep(before, turn);
      if state.Err? {
        return Err(state.error);
      }
      if !acquired {
        return match state.value
          case Some(st) => Ok((id, st.status))
          case None => Err(LockContention(id));
      }
      before := redisStore.log;
      var header;
      header, turn := redisStore.ReadFinalizedHeader(_ => false);
      TakeRequestStep(before, turn);
      if header.Err? {
        return Err(header.error);
      }
      if header.value.None? || header.value.value.execBlock.None? {
        return Err(Internal);
      }
      if state.value.Some? && state.value.value.status != Errored {
        return Ok((id, state.value.value.status));
      }
      var status := InitializeRequestLocked(header.value.value.slot, header.value.value.execBlock.value, request);
      r := if status.Ok? then Ok((id, status.value)) else Err(status.error);
    }

    method InitializeRequestLocked(slot: U64, block: U64, request: ProofRequest)
      returns (r: Result<Status, ServiceError>)
      requires Valid() && view.proc == Request(request, QStore(Header(slot, Some(block))))
      modifies this, redisStore
      ensures Valid()
      ensures view.proc ==
              Request(request, QRelease(if r.Ok? then Ok((c.idOf(request), r.value)) else Err(r.error)))
      ensures r.Ok? ==> r.value == if block >= request.blockNumber && slot > request.fromHead
                                   then Generating else WaitingForFinality
      ensures old(redisStore.log) <= redisStore.log
      ensures var log, n := redisStore.log, |old(redisStore.log)|;
              && n < |log| <= n + 2
              && (HeardAt(log, n) <==> r.Ok?) && (r.Err? ==> r == Err(RedisError))
              && (r.Ok? ==> RecordAt(log, n, c.idOf(request)) == Some(RequestState(r.value, request, None, None, None)))
      ensures jobs == old(jobs) || (r == Ok(Generating) && jobs == old(jobs) + [Generate(request)])
    {
      hide Path, ProcStep;
      var id := c.idOf(request);
      var state := NewState(request);
      var status := if block >= request.blockNumber && slot > request.fromHead then Generating else WaitingForFinality;
      ghost var before := redisStore.log;
      var stored, turn := redisStore.SetProofState(id, state.(status := status));
      TakeRequestStep(before, turn);
      if stored.Err? {
        return Err(stored.error);
      }
      if status == Generating {
        before := redisStore.log;
        var acquired;
        acquired, turn := redisStore.AcquireProofGenerationLock(id);
        TakeRequestStep(before, turn);
        if acquired == Ok(true) {
          Spawn(Generate(request));
        }
      }
      r := Ok(status);
    }

    // --- New headers ---

    // Ok(true) when the stored header is known to be at least as new.
    method ProcessNewFinalizedHeader(tip: Header) returns (r: Result<bool, ServiceError>)
      requires Valid() && view.proc.Worker? && view.proc.tip == tip && view.proc.wpc == HAcquire
      modifies this, redisStore
      ensures Valid() && view.proc == Worker(tip, old(view.proc.advance) && r != Ok(true), OStart)
      ensures old(redisStore.log) <= redisStore.log && old(jobs) <= jobs
    {
      hide Path, ProcStep;
      // with_global_lock
      ghost var before := redisStore.log;
      var acquired, turn := redisStore.AcquireGlobalLock();
      TakeHeaderStep(before, turn);
      if acquired.Err? {
        return Err(acquired.error);
      }
      if acquired.value {
        var done := ProcessNewFinalizedHeaderLocked(tip);
        r := if done.Ok? then Ok(true) else Err(done.error);
      } else {
        r := Ok(false);
      }
      before := redisStore.log;
      turn := redisStore.ReleaseGlobalLock();
      TakeHeaderStep(before, turn);
    }

    method ProcessNewFinalizedHeaderLocked(tip: Header) returns (r: Result<(), ServiceError>)
      requires Valid() && view.proc.Worker? && view.proc.tip == tip && view.proc.wpc == HRead
      modifies this, redisStore
      ensures Valid()
      ensures view.proc == old(view.proc).(wpc := HRelease(if r.Ok? then UpToDate else Failed))
      ensures old(redisStore.log) <= redisStore.log && old(jobs) <= jobs
      ensures r.Ok? ==> SeenAtLeast(redisStore.log, |old(redisStore.log)|, tip)
      // The stored header is read first. One at least as new ends the section; otherwise success means that
      // a command that was answered left the new one in the store.
      ensures var log, n := redisStore.log, |old(redisStore.log)|;
              && n < |log|
              && (!HeardAt(log, n) ==> r.Err? && |log| == n + 1)
              && (HeardAt(log, n) && log[n].after.header.Some? && log[n].after.header.value.slot >= tip.slot ==>
                    r.Ok? && |log| == n + 1 && jobs == old(jobs))
              && (r.Ok? && (log[n].after.header.Some? ==> log[n].after.header.value.slot < tip.slot) ==>
                    exists k :: n < k < |log| && HeardAt(log, k) && log[k].after.header == Some(tip))
    {
      hide Path, ProcStep, FilterReady;
      ghost var before := redisStore.log;
      var stored, turn := redisStore.ReadFinalizedHeader(_ => false);
      var shouldUpdate := stored.Ok? && (stored.value.Some? ==> stored.value.value.slot < tip.slot);
      ReadStep(before, turn, shouldUpdate);
      if stored.Err? {
        return Err(stored.error);
      }
      if !shouldUpdate {
        assert !OutdatedBy(redisStore.log[|before|].after.header, tip);
        return Ok(());
      }
      var waiting := FindWaiting(tip);
      if waiting.Err? {
        return Err(waiting.error);
      }
      if tip.execBlock.None? {
        return Err(Internal);
      }
      r := PromoteReady(tip, tip.execBlock.value, waiting.value);
    }

    // The transaction, and a generation task for every request it promoted.
    method PromoteReady(tip: Header, block: U64, waiting: seq<RequestState>) returns (r: Result<(), ServiceError>)
      requires Valid() && view.proc.Worker? && view.proc.tip == tip && tip.execBlock == Some(block)
      requires view.proc.wpc == HCommit(FilterReady(tip, waiting))
      modifies this, redisStore
      ensures Valid()
      ensures view.proc == old(view.proc).(wpc := HRelease(if r.Ok? then UpToDate else Failed))
      ensures old(redisStore.log) <= redisStore.log && old(jobs) <= jobs
      ensures r.Ok? ==> SeenAtLeast(redisStore.log, |old(redisStore.log)|, tip)
      ensures var log, n := redisStore.log, |old(redisStore.log)|;
              r.Ok? ==> HeardAt(log, n) && log[n].after.header == Some(tip)
    {
      hide Path, ProcStep, FilterReady;
      var updates, requests := SelectReady(tip, block, waiting);
      ghost var before := redisStore.log;
      var updated, turn := redisStore.UpdateFinalizedHeaderAndProofStates(tip, updates);
      TakeHeaderStep(before, turn);
      if updated.Err? {
        return Err(updated.error);
      }
      ghost var n := |before|;
      assert redisStore.log[n].after.header == Some(tip);
      SpawnGeneration(requests);
      assert redisStore.log[n].after.header == Some(tip);
      before := redisStore.log;
      turn := Turn([], Sent(NoFault), redisStore.db);
      redisStore.Note(turn);
      TakeHeaderStep(before, turn);
      assert redisStore.log[n].after.header == Some(tip);
      r := Ok(());
    }

    // The read of the stored header opens a scan when the header is to be updated.
    ghost method ReadStep(before: seq<Turn>, turn: Turn, shouldUpdate: bool)
      requires redisStore.log == before + [turn] && turn.after == redisStore.db
      requires Path(c, start, before, view)
      requires view.proc.Worker? && view.proc.wpc == HRead
      requires turn.after == Latest(view.db, turn.others)
      requires shouldUpdate == (Replied(turn.input.fault) && OutdatedBy(turn.after.header, view.proc.tip))
      modifies this`view
      ensures Path(c, start, redisStore.log, view) && view.db == redisStore.db
      ensures view.spawned == old(view.spawned)
      ensures var pr := old(view.proc);
              view.proc ==
              if !Replied(turn.input.fault) then pr.(wpc := HRelease(Failed))
              else if shouldUpdate then pr.(wpc := HScan(Scan([], turn.after.records.Keys)))
              else pr.(wpc := HRelease(UpToDate))
    {
      SteadyStays(view.proc, turn.others);
      ReadOutcome(c, view.proc, turn.after, turn.input);
      hide Path, WorkerStep, Observe;
      Follow(before, turn);
    }

    static lemma ReadOutcome(c: Params, pr: Proc, db: Db, input: Input)
      requires pr.Worker? && pr.wpc == HRead
      ensures var out := WorkerStep(c, pr, db, input);
              && out.db == db && out.child.None? && Observe(out.proc, db) == out.proc
              && out.proc == pr.(wpc := if !Replied(input.fault) then HRelease(Failed)
                                        else if OutdatedBy(db.header, pr.tip) then HScan(Scan([], db.records.Keys))
                                        else HRelease(UpToDate))
    {
    }

    method FindWaiting(tip: Header) returns (r: Result<seq<RequestState>, ServiceError>)
      requires Valid() && view.proc.Worker? && view.proc.tip == tip
      requires view.proc.wpc == HScan(Scan([], redisStore.db.records.Keys))
      modifies this, redisStore
      ensures Valid() && jobs == old(jobs) && old(redisStore.log) <= redisStore.log
      ensures view.proc == old(view.proc).(wpc :=
                if r.Err? || tip.execBlock.None? then HRelease(Failed) else HCommit(FilterReady(tip, r.value)))
    {
      hide Path, ProcStep;
      ghost var before := redisStore.log;
      ghost var steps, w;
      r, steps, w := redisStore.FindRequestsByStatus(WaitingForFinality, c, view);
      Join(c, start, before, view, steps, w);
      view := w;
    }

    // The waiting requests that pass under the header, their promoted states, and what to
    // generate proofs for.
    method SelectReady(tip: Header, block: U64, waiting: seq<RequestState>)
      returns (updates: seq<(ProofId, RequestState)>, requests: seq<ProofRequest>)
      requires tip.execBlock == Some(block)
      ensures updates == Promotions(c, FilterReady(tip, waiting))
      ensures requests == Requests(FilterReady(tip, waiting))
    {
      ghost var ready := [];
      updates, requests := [], [];
      for i := 0 to |waiting|
        invariant ready == FilterReady(tip, waiting[..i])
        invariant updates == Promotions(c, ready) && requests == Requests(ready)
      {
        var st := waiting[i];
        assert waiting[..i + 1][..i] == waiting[..i];
        if st.status == WaitingForFinality && block >= st.request.blockNumber && tip.slot > st.request.fromHead {
          updates := updates + [(c.idOf(st.request), st.(status := Generating))];
          requests := requests + [st.request];
          ready := ready + [st];
        }
      }
      assert waiting[..|waiting|] == waiting;
    }

    method SpawnGeneration(requests: seq<ProofRequest>)
      requires Valid() && view.proc.Worker? && view.proc.wpc == HSpawn(requests)
      modifies this, redisStore
      ensures Valid() && view.proc == old(view.proc).(wpc := HSpawn([]))
      ensures old(redisStore.log) <= redisStore.log && old(jobs) <= jobs
    {
      hide Path, ProcStep;
      for i := 0 to |requests|
        invariant Valid() && view.proc == old(view.proc).(wpc := HSpawn(requests[i..]))
        invariant old(redisStore.log) <= redisStore.log && old(jobs) <= jobs
      {
        ghost var before := redisStore.log;
        var acquired, turn := redisStore.AcquireProofGenerationLock(c.idOf(requests[i]));
        assert requests[i..][1..] == requests[i + 1..];
        TakeHeaderStep(before, turn);
        if acquired == Ok(true) {
          Spawn(Generate(requests[i]));
        }
      }
    }

    // --- Orphan pickup ---

    method RestartOrphanedProofs() returns (r: Result<(), ServiceError>)
      requires Valid() && view.proc.Worker? && view.proc.wpc == OStart
      modifies this, redisStore
      ensures Valid() && view.proc.Worker? && view.proc.wpc.ODone?
      ensures view.proc.tip == old(view.proc.tip) && view.proc.advance == old(view.proc.advance)
      ensures old(redisStore.log) <= redisStore.log && old(jobs) <= jobs
    {
      hide Path, ProcStep, ObserveAll;
      ghost var before := redisStore.log;
      ghost var turn := Turn([], Sent(NoFault), redisStore.db);
      redisStore.Note(turn);
      BeginPass(before, turn);
      before := redisStore.log;
      var generating;
      ghost var steps, w;
      generating, steps, w := redisStore.FindRequestsByStatus(Generating, c, view);
      Join(c, start, before, view, steps, w);
      view := w;
      if generating.Err? {
        return Err(generating.error);
      }
      for i := 0 to |generating.value|
        invariant Valid() && view.proc.Worker? && view.proc.wpc.OLock? && view.proc.wpc.todo == generating.value[i..]
        invariant view.proc.tip == old(view.proc.tip) && view.proc.advance == old(view.proc.advance)
        invariant old(redisStore.log) <= redisStore.log && old(jobs) <= jobs
      {
        var request := generating.value[i].request;
        before := redisStore.log;
        var acquired;
        acquired, turn := redisStore.AcquireProofGenerationLock(c.idOf(request));
        assert generating.value[i..][1..] == generating.value[i + 1..];
        TakeOrphanStep(before, turn);
        if acquired == Ok(true) {
          Spawn(Generate(request));
        }
      }
      before := redisStore.log;
      turn := Turn([], Sent(NoFault), redisStore.db);
      redisStore.Note(turn);
      TakeOrphanStep(before, turn);
      r := Ok(());
    }

    // The pass begins where the scan does.
    ghost method BeginPass(before: seq<Turn>, turn: Turn)
      requires redisStore.log == before + [turn] && turn.after == redisStore.db
      requires Path(c, start, before, view) && view.db == redisStore.db
      requires view.proc.Worker? && view.proc.wpc == OStart && turn == Turn([], Sent(NoFault), view.db)
      modifies this`view
      ensures Path(c, start, redisStore.log, view) && view.db == redisStore.db
      ensures view.spawned == old(view.spawned) && view.proc.Worker?
      ensures view.proc.tip == old(view.proc.tip) && view.proc.advance == old(view.proc.advance)
      ensures ScanBegins(view, redisStore.db, Generating)
    {
      Follow(before, turn);
    }

    // One request of the pass, or its end.
    ghost method TakeOrphanStep(before: seq<Turn>, turn: Turn)
      requires redisStore.log == before + [turn] && turn.after == redisStore.db
      requires Path(c, start, before, view) && view.proc.Worker? && view.proc.wpc.OLock?
      requires var seen, todo := Latest(view.db, turn.others), view.proc.wpc.todo;
               turn.after == if todo != [] && Took(turn.input.fault) then AcquireGen(seen, c.idOf(todo[0].request))
                             else seen
      modifies this`view
      ensures Path(c, start, redisStore.log, view) && view.db == redisStore.db
      ensures view.proc.Worker?
      ensures view.proc.tip == old(view.proc.tip) && view.proc.advance == old(view.proc.advance)
      ensures var todo, seen := old(view.proc.wpc.todo), Latest(old(view.db), turn.others);
              if todo == [] then view.proc.wpc.ODone? && view.spawned == old(view.spawned)
              else
                && view.proc.wpc.OLock? && view.proc.wpc.todo == todo[1..]
                && view.spawned == old(view.spawned) +
                   if Replied(turn.input.fault) && c.idOf(todo[0].request) !in seen.genLocks
                   then [Task(todo[0].request, TStart)] else []
    {
      PassWaits(view.proc, turn.others);
      LockOutcome(c, ObserveAll(view.proc, turn.others), Latest(view.db, turn.others), turn.input);
      hide Path, WorkerStep, Observe, ObserveAll;
      Follow(before, turn);
    }

    static lemma LockOutcome(c: Params, pr: Proc, db: Db, input: Input)
      requires pr.Worker? && pr.wpc.OLock?
      ensures var todo, out := pr.wpc.todo, WorkerStep(c, pr, db, input);
              var w := Observe(out.proc, out.db);
              && w.Worker? && w.tip == pr.tip && w.advance == pr.advance
              && out.db == (if todo != [] && Took(input.fault) then AcquireGen(db, c.idOf(todo[0].request)) else db)
              && (if todo == [] then w.wpc.ODone? && out.child.None?
                  else
                    && w.wpc.OLock? && w.wpc.todo == todo[1..]
                    && out.child == if Replied(input.fault) && c.idOf(todo[0].request) !in db.genLocks
                                    then Some(Task(todo[0].request, TStart)) else None)
    {
    }

    static lemma {:induction false} PassWaits(pr: Proc, others: seq<Db>)
      requires pr.Worker?
      ensures var w := ObserveAll(pr, others);
              && w.Worker? && w.tip == pr.tip && w.advance == pr.advance
              && (pr.wpc.OLock? ==> w.wpc.OLock? && w.wpc.todo == pr.wpc.todo)
              && (pr.wpc.ODone? ==> w.wpc.ODone?)
    {
      if others != [] {
        PassWaits(pr, others[..|others| - 1]);
      }
    }

    // --- Generation ---

    // `outcome` is what gathering the inputs and proving came to; `attempts` bounds the writes,
    // which the code repeats until one is answered.
    method GenerateAndStoreProof(request: ProofRequest, outcome: Result<ProofData, string>, attempts: nat)
      returns (stored: bool)
      requires Valid() && view.proc == Task(request, TStart)
      requires outcome.Ok? ==> c.canProve(request, outcome.value)
      modifies this, redisStore
      ensures Valid()
      ensures view.proc == if stored then Halted else Task(request, TStore(FinalState(request, outcome)))
      ensures jobs == old(jobs) + [KeepLock(c.idOf(request))]
      ensures old(redisStore.log) <= redisStore.log
      ensures stored ==>
                var record := Get(redisStore.db, c.idOf(request));
                && record.Some? && record.value.request == request && record.value.networkTxId.None?
                && (outcome.Ok? ==>
                      && record.value.status == Success && record.value.proofData == Some(outcome.value)
                      && record.value.errorMessage.None?)
                && (outcome.Err? ==>
                      && record.value.status == Errored && record.value.errorMessage == Some(outcome.error)
                      && record.value.proofData.None?)
    {
      hide Path, ProcStep;
      ghost var before := redisStore.log;
      ghost var turn := Turn([], Sent(NoFault), redisStore.db);
      redisStore.Note(turn);
      TakeTaskStep(before, turn);
      Spawn(KeepLock(c.idOf(request)));

      before := redisStore.log;
      turn := Turn([], Sent(NoFault).(outcome := outcome), redisStore.db);
      redisStore.Note(turn);
      TakeTaskStep(before, turn);
      var state := NewState(request);
      match outcome {
        case Ok(data) => state := state.(status := Success, proofData := Some(data));
        case Err(message) => state := state.(status := Errored, errorMessage := Some(message));
      }

      stored := false;
      var left := attempts;
      while !stored && left > 0
        invariant Valid() && view.proc == if stored then Halted else Task(request, TStore(state))
        invariant jobs == old(jobs) + [KeepLock(c.idOf(request))] && old(redisStore.log) <= redisStore.log
        invariant stored ==> Get(redisStore.db, c.idOf(request)) == Some(state)
        decreases left
      {
        before := redisStore.log;
        var result;
        result, turn := redisStore.SetProofState(c.idOf(request), state);
        TakeTaskStep(before, turn);
        stored := result.Ok?;
        left := left - 1;
      }
    }

    ghost method TakeTaskStep(before: seq<Turn>, turn: Turn)
      requires redisStore.log == before + [turn] && turn.after == redisStore.db
      requires Path(c, start, before, view) && view.proc.Task? && Allowed(c, view.proc, turn.input)
      requires var seen := Latest(view.db, turn.others);
               turn.after == TaskStep(c, view.proc.job, view.proc.tpc, seen, turn.input).db
      modifies this`view
      ensures var pr, seen := old(view.proc), Latest(old(view.db), turn.others);
              var out := TaskStep(c, pr.job, pr.tpc, seen, turn.input);
              view == View(out.proc, redisStore.db, old(view.spawned) + ListOf(out.child))
      ensures Path(c, start, redisStore.log, view)
    {
      Take(before, turn);
    }

    // The extension task: one PEXPIRE a tick, for the ticks that come before it is cancelled.
    method ExtendProofGenerationLock(id: ProofId, ticks: nat)
      requires Valid() && view.proc == Extender(id)
      modifies this, redisStore
      ensures Valid() && view.proc == Halted && jobs == old(jobs)
      ensures old(redisStore.log) <= redisStore.log
    {
      hide Path, ProcStep;
      ghost var before, turn;
      for tick := 0 to ticks
        invariant Valid() && view.proc == Extender(id) && jobs == old(jobs)
        invariant old(redisStore.log) <= redisStore.log
      {
        before := redisStore.log;
        var extended;
        extended, turn := redisStore.ExtendProofGenerationLock(id);
        TakeExtenderStep(before, turn);
        if extended == Ok(false) {
          return;
        }
        if extended.Err? {
          break;
        }
      }
      before := redisStore.log;
      turn := redisStore.ReleaseProofGenerationLock(id);
      TakeExtenderStep(before, turn);
    }

    ghost method TakeExtenderStep(before: seq<Turn>, turn: Turn)
      requires redisStore.log == before + [turn] && turn.after == redisStore.db
      requires Path(c, start, before, view) && view.proc.Extender?
      requires turn.after == ExtenderStep(view.proc.id, Latest(view.db, turn.others), turn.input).db
      modifies this`view
      ensures view == View(if turn.input.last then Halted else old(view.proc), redisStore.db, old(view.spawned))
      ensures Path(c, start, redisStore.log, view)
    {
      Take(before, turn);
    }

    // --- The run loop ---

    // Runs until the header health check fails or there are no more polls.
    method Run(tip: Header, polls: seq<Poll>) returns (alive: bool)
      requires Valid() && view.proc == Worker(tip, true, LoopTop)
      requires PollsOk(c, tip, polls)
      modifies this, redisStore
      ensures Valid() && (alive <==> !view.proc.Halted?)
      ensures alive ==> view.proc.Worker? && view.proc.wpc == LoopTop
      ensures old(redisStore.log) <= redisStore.log && old(jobs) <= jobs
    {
      var current, shouldAdvance := tip, true;
      alive := true;
      for i := 0 to |polls|
        invariant Valid() && alive && view.proc == Worker(current, shouldAdvance, LoopTop)
        invariant PollsOk(c, current, polls[i..])
        invariant old(redisStore.log) <= redisStore.log && old(jobs) <= jobs
      {
        alive, current, shouldAdvance := RunRound(current, shouldAdvance, polls[i]);
        assert polls[i..][1..] == polls[i + 1..];
        if !alive {
          return;
        }
      }
    }

    method RunRound(tip: Header, advance: bool, poll: Poll)
      returns (alive: bool, newTip: Header, shouldAdvance: bool)
      requires Valid() && view.proc == Worker(tip, advance, LoopTop) && PollOk(c, tip, poll)
      modifies this, redisStore
      ensures Valid() && newTip == TipAfter(tip, poll)
      ensures view.proc == if alive then Worker(newTip, shouldAdvance, LoopTop) else Halted
      ensures alive && newTip.slot > tip.slot ==> shouldAdvance
      ensures alive && shouldAdvance && newTip.slot <= tip.slot ==> advance
      ensures old(redisStore.log) <= redisStore.log && old(jobs) <= jobs
    {
      hide Path, ProcStep, JobProcs;
      newTip, shouldAdvance := TipAfter(tip, poll), advance;
      ghost var before := redisStore.log;
      ghost var turn := Turn([], Sent(NoFault), redisStore.db);
      redisStore.Note(turn);
      TakeLoopStep(before, turn);
      if shouldAdvance {
        // update_redis_state
        var updated := ProcessNewFinalizedHeader(tip);
        if updated == Ok(true) {
          shouldAdvance := false;
        }
      }
      var _ := RestartOrphanedProofs();
      ghost var read;
      alive, read := CheckHeaderHealth(poll.stale);
      if alive {
        before := redisStore.log;
        turn := Turn([], Sent(NoFault).(advanced := poll.advanced), redisStore.db);
        redisStore.Note(turn);
        TakeLoopStep(before, turn);
        if newTip.slot > tip.slot {
          shouldAdvance := true;
        }
      }
    }

    // The loop's own steps: its test of should_advance_redis_state and the light client's advance.
    ghost method TakeLoopStep(before: seq<Turn>, turn: Turn)
      requires redisStore.log == before + [turn] && turn.after == redisStore.db == view.db && turn.others == []
      requires Path(c, start, before, view) && view.proc.Worker? && (view.proc.wpc.LoopTop? || view.proc.wpc.Tick?)
      requires Allowed(c, view.proc, turn.input)
      modifies this`view
      ensures Path(c, start, redisStore.log, view) && view.db == redisStore.db && view.spawned == old(view.spawned)
      ensures var pr := old(view.proc);
              view.proc ==
              if pr.wpc.LoopTop? then pr.(wpc := if pr.advance then HAcquire else OStart)
              else
                var tip := if turn.input.advanced.Some? then turn.input.advanced.value else pr.tip;
                Worker(tip, pr.advance || tip.slot > pr.tip.slot, LoopTop)
    {
      Take(before, turn);
    }

    // Fails exactly when the header it reads is missing or too old. A Redis error is tolerated.
    method CheckHeaderHealth(stale: Header -> bool) returns (healthy: bool, ghost turn: Turn)
      requires Valid() && view.proc.Worker? && view.proc.wpc.ODone?
      modifies this, redisStore
      ensures Valid() && jobs == old(jobs) && redisStore.log == old(redisStore.log) + [turn]
      ensures var seen := turn.after.header;
              healthy <==> !Replied(turn.input.fault) || (seen.Some? && !stale(seen.value))
      ensures view.proc == if healthy then old(view.proc).(wpc := Tick) else Halted
    {
      ghost var before := redisStore.log;
      var header;
      header, turn := redisStore.ReadFinalizedHeader(stale);
      PassWaits(view.proc, turn.others);
      Follow(before, turn);
      healthy := header.Err? || (header.value.Some? && !stale(header.value.value));
    }
  }
}
