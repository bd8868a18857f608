// When the first extension of a generation lock may take effect as late as the lock is due, the
// protocol itself can have two live tasks for one id: a run that keeps to such a timed run.
module LateExtension {
  import opened Base
  import opened Primitives
  import opened RedisModel
  import opened Protocol
  import opened Regenerated
  import opened TaskLocks
  import opened TimedTasks
  import Regeneration
  import L = LockTiming

  // A pickup has found the request when the lock of its first task expires; then it gets the lock.
  function LateEvents(c: Params, req: ProofRequest): seq<Event> {
    [GenLockExpires(c.idOf(req)), Spawn(0, 4)]
  }

  function Unlocked(c: Params, tip: Header, req: ProofRequest): State {
    var s := Working(c, tip, req, OLock([Generated(req)], PassOver({c.idOf(req)})), TStart);
    s.(db := s.db.(genLocks := {}))
  }

  function Joined(c: Params, tip: Header, req: ProofRequest): State {
    var id := c.idOf(req);
    var s := Working(c, tip, req, OLock([], Pass({id}, {id}, {id}, false)), TStart);
    s.(procs := s.procs[4 := Task(req, TStart)])
  }

  function LateStates(c: Params, tip: Header, req: ProofRequest): seq<State> {
    [ Working(c, tip, req, OLock([Generated(req)], PassOver({c.idOf(req)})), TStart),
      Unlocked(c, tip, req),
      Joined(c, tip, req)
    ]
  }

  lemma LockExpires(c: Params, tip: Header, req: ProofRequest)
    ensures Leads(c, LateStates(c, tip, req)[0], GenLockExpires(c.idOf(req)), Unlocked(c, tip, req))
  {
    var s, s', id := LateStates(c, tip, req)[0], Unlocked(c, tip, req), c.idOf(req);
    assert {id} - {id} == {};
    assert GeneratingIds(s'.db) == {id} && {id} * {id} == {id};
    assert Settle(s'.db, s.procs).procs == s'.procs;
  }

  lemma PickupOutcome(c: Params, tip: Header, req: ProofRequest)
    ensures var s, s' := Unlocked(c, tip, req), Joined(c, tip, req);
            WorkerStep(c, s.procs[0], s.db, Regeneration.ANSWERED)
            == Outcome(s'.procs[0], s'.db, Some(Task(req, TStart)))
  {
    var id, found := c.idOf(req), [Generated(req)];
    assert {} + {id} == {id} && found[1..] == [];
  }

  lemma PickupJoins(c: Params, tip: Header, req: ProofRequest)
    ensures Leads(c, Unlocked(c, tip, req), Spawn(0, 4), Joined(c, tip, req))
  {
    hide WorkerStep;
    PickupOutcome(c, tip, req);
    var s, s', id := Unlocked(c, tip, req), Joined(c, tip, req), c.idOf(req);
    assert GeneratingIds(s'.db) == {id} && {id} * {id} == {id};
    assert Settle(s'.db, WithChild(s.procs[0 := s'.procs[0]], 4, Some(Task(req, TStart)))).procs == s'.procs;
  }

  // --- The whole run ---

  function RunEvents(c: Params, tip: Header, req: ProofRequest): seq<Event> {
    HeaderEvents(tip) + RequestEvents(req) + ScanEvents(c, req) + LateEvents(c, req)
  }

  function RunStates(c: Params, tip: Header, req: ProofRequest): seq<State> {
    HeaderStates(tip) + RequestStates(c, tip, req)[1..] + ScanStates(c, tip, req)[1..]
    + LateStates(c, tip, req)[1..]
  }

  lemma RunChain(c: Params, tip: Header, req: ProofRequest)
    requires c.chain(tip) && c.known(req) && Finalized(tip, req)
    ensures Chain(c, RunStates(c, tip, req), RunEvents(c, tip, req))
  {
    hide Leads;
    HeaderChain(c, tip);
    RequestChain(c, tip, req);
    ScanChain(c, tip, req);
    LockExpires(c, tip, req);
    PickupJoins(c, tip, req);
    var a, b, d := HeaderStates(tip), RequestStates(c, tip, req), ScanStates(c, tip, req);
    Chained(c, a, HeaderEvents(tip), b, RequestEvents(req));
    Chained(c, a + b[1..], HeaderEvents(tip) + RequestEvents(req), d, ScanEvents(c, req));
    Chained(c, a + b[1..] + d[1..], HeaderEvents(tip) + RequestEvents(req) + ScanEvents(c, req),
            LateStates(c, tip, req), LateEvents(c, req));
  }

  // --- The timed run beside it ---

  // Who is at work on the request in the k-th state.
  function Workers(k: nat): set<Pid> {
    if k < 15 then {} else if k < 20 then {2} else {2, 4}
  }

  lemma StateAt(c: Params, tip: Header, req: ProofRequest, k: nat)
    requires k < 21
    ensures |RunStates(c, tip, req)| == 21 && |RunEvents(c, tip, req)| == 20
    ensures RunStates(c, tip, req)[k] ==
              if k < 10 then HeaderStates(tip)[k]
              else if k < 16 then RequestStates(c, tip, req)[k - 9]
              else if k < 19 then ScanStates(c, tip, req)[k - 15]
              else LateStates(c, tip, req)[k - 18]
  {
    hide Working, Asking, OneWorker, Joined, Unlocked;
  }

  lemma WorkersAt(c: Params, tip: Header, req: ProofRequest, k: nat, p: Pid, id: ProofId)
    requires k < 21
    ensures |RunStates(c, tip, req)| == 21
    ensures var s := RunStates(c, tip, req)[k];
            && (WorksIn(c, s, p, id) <==> id == c.idOf(req) && p in Workers(k))
            && (p in s.procs ==> !s.procs[p].Extender?)
  {
    hide RunStates;
    StateAt(c, tip, req, k);
  }

  // The events that mean something for the lock of the id.
  function PaceAt(own: bool, k: nat): Pace {
    if !own then Pace([], None)
    else if k == 14 then Pace([], Some(L.Acquire(2)))
    else if k == 18 then Pace([L.Wait(L.INITIAL_LOCK_MS)], None)
    else if k == 19 then Pace([], Some(L.Acquire(4)))
    else Pace([], None)
  }

  function Paces(own: bool): seq<Pace> { seq(20, k requires 0 <= k < 20 => PaceAt(own, k)) }

  function Began(): L.State { L.Next(L.INIT, L.Acquire(2)) }

  function Timed(own: bool, k: nat): L.State {
    if !own || k < 15 then L.INIT
    else if k < 19 then Began()
    else if k == 19 then L.Next(Began(), L.Wait(L.INITIAL_LOCK_MS))
    else L.Next(L.Next(Began(), L.Wait(L.INITIAL_LOCK_MS)), L.Acquire(4))
  }

  lemma TimedStep(first: nat, own: bool, k: nat)
    requires first > L.INITIAL_LOCK_MS && k < 20
    ensures var pace, timed := PaceAt(own, k), Timed(own, k);
            && AfterPace(first, timed, pace) == Timed(own, k + 1)
            && AllEnabled(first, timed, pace.silent) && (forall x :: x in pace.silent ==> Silent(x))
            && (pace.visible.Some? ==> L.Enabled(first, Moment(first, timed, pace), pace.visible.value))
            && (k == 18 ==> !L.Held(Moment(first, timed, pace)))
  {
    var pace, timed := PaceAt(own, k), Timed(own, k);
    if pace.silent != [] {
      assert pace.silent[..0] == [];
      assert ThenAll(first, timed, pace.silent) == Then(first, timed, pace.silent[0]);
    }
  }

  lemma {:induction false} TimedAt(first: nat, own: bool, k: nat)
    requires first > L.INITIAL_LOCK_MS && k <= 20
    ensures AfterAll(first, Paces(own)[..k]) == Timed(own, k)
  {
    hide AfterPace, Timed;
    if k > 0 {
      TimedAt(first, own, k - 1);
      TimedStep(first, own, k - 1);
      assert Paces(own)[..k][..k - 1] == Paces(own)[..k - 1];
    } else {
      TimedStart(own);
    }
  }

  lemma TimedStart(own: bool)
    ensures Timed(own, 0) == L.INIT
  {
  }

  lemma MatchesAt(c: Params, tip: Header, req: ProofRequest, k: nat, id: ProofId)
    requires k < 20
    ensures |RunStates(c, tip, req)| == 21 && |RunEvents(c, tip, req)| == 20
    ensures Matches(c, id, RunStates(c, tip, req)[k], RunEvents(c, tip, req)[k], RunStates(c, tip, req)[k + 1],
                    PaceAt(id == c.idOf(req), k).visible)
  {
    hide RunStates, RunEvents, Works;
    StateAt(c, tip, req, k);
    var s, e, s' := RunStates(c, tip, req)[k], RunEvents(c, tip, req)[k], RunStates(c, tip, req)[k + 1];
    forall p
      ensures WorksIn(c, s, p, id) <==> id == c.idOf(req) && p in Workers(k)
      ensures WorksIn(c, s', p, id) <==> id == c.idOf(req) && p in Workers(k + 1)
      ensures p in s.procs ==> !s.procs[p].Extender?
    {
      WorkersAt(c, tip, req, k, p, id);
      WorkersAt(c, tip, req, k + 1, p, id);
    }
  }

  lemma ExpiryAt(c: Params, tip: Header, req: ProofRequest, k: nat, id: ProofId)
    requires k < 20
    ensures |RunEvents(c, tip, req)| == 20
    ensures RunEvents(c, tip, req)[k] == GenLockExpires(id) ==> k == 18 && id == c.idOf(req)
  {
    assert RunEvents(c, tip, req)[18] == LateEvents(c, req)[0];
    assert RunEvents(c, tip, req)[19] == LateEvents(c, req)[1];
    if k < 9 {
      assert RunEvents(c, tip, req)[k] == HeaderEvents(tip)[k];
    } else if k < 15 {
      assert RunEvents(c, tip, req)[k] == RequestEvents(req)[k - 9];
    } else if k < 18 {
      assert RunEvents(c, tip, req)[k] == ScanEvents(c, req)[k - 15];
    }
  }

  lemma RunIsTimely(c: Params, first: nat, tip: Header, req: ProofRequest)
    requires first > L.INITIAL_LOCK_MS
    ensures Timely(c, first, Trace(RunStates(c, tip, req), RunEvents(c, tip, req)))
  {
    hide RunStates, RunEvents, Matches, AfterAll, Paces, L.Enabled;
    var t := Trace(RunStates(c, tip, req), RunEvents(c, tip, req));
    StateAt(c, tip, req, 0);
    forall id
      ensures HasPace(c, first, id, t)
    {
      var own := id == c.idOf(req);
      PacesAre(own);
      forall k {:trigger t.events[k]} | 0 <= k < 20
        ensures PacedAt(c, first, id, t.states[k], t.events[k], t.states[k + 1], AfterAll(first, Paces(own)[..k]),
                        Paces(own)[k])
      {
        TimedAt(first, own, k);
        TimedStep(first, own, k);
        MatchesAt(c, tip, req, k, id);
        ExpiryAt(c, tip, req, k, id);
      }
      assert Paced(c, first, id, t, Paces(own));
    }
  }

  lemma PacesAre(own: bool)
    ensures |Paces(own)| == 20 && forall k :: 0 <= k < 20 ==> Paces(own)[k] == PaceAt(own, k)
  {
  }

  // Main result: timely runs of the protocol have at most one live task per id if and only if the bound
  // on the first extension is at most the initial lock duration.
  lemma OneTaskInTimelyRunsIff(c: Params, first: nat, tip: Header, req: ProofRequest)
    requires c.chain(tip) && c.known(req) && Finalized(tip, req)
    ensures (forall t, i :: IsRun(c, t) && Timely(c, first, t) && 0 <= i < |t.states| ==> AtMostOneTask(c, t.states[i]))
              <==> first <= 1_000
  {
    hide Timely, RunStates, RunEvents, AtMostOneTask;
    if first <= L.INITIAL_LOCK_MS {
      forall t, i | IsRun(c, t) && Timely(c, first, t) && 0 <= i < |t.states|
        ensures AtMostOneTask(c, t.states[i])
      {
        TimelyRunsHaveOneTask(c, first, t);
      }
    } else {
      var t := Trace(RunStates(c, tip, req), RunEvents(c, tip, req));
      RunChain(c, tip, req);
      StateAt(c, tip, req, 0);
      StateAt(c, tip, req, 20);
      ChainIsRun(c, t);
      RunIsTimely(c, first, tip, req);
      TwoAtWork(c, tip, req);
      assert !AtMostOneTask(c, t.states[20]);
    }
  }

  lemma TwoAtWork(c: Params, tip: Header, req: ProofRequest)
    ensures !AtMostOneTask(c, Joined(c, tip, req))
  {
    var s := Joined(c, tip, req);
    assert s.procs[2].Task? && s.procs[4].Task?;
  }
}
