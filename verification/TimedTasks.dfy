// Runs of the protocol in real time: next to a run goes a timed run of the generation lock of one id,
// event by event. Under the timing hypotheses no id has two live tasks in the protocol itself.
module TimedTasks {
  import opened Base
  import opened Primitives
  import opened RedisModel
  import opened Protocol
  import opened TaskLocks
  import L = LockTiming

  // What the timed run does at one event of the protocol: first what shows nowhere in the store or
  // among the tasks, then at most one event that does.
  datatype Pace = Pace(silent: seq<L.Event>, visible: Option<L.Event>)

  predicate Silent(e: L.Event) {
    e.Wait? || e.NextTick? || e.Cancelled?
  }

  function Then(first: nat, s: L.State, e: L.Event): L.State {
    if L.Enabled(first, s, e) then L.Next(s, e) else s
  }

  function ThenAll(first: nat, s: L.State, events: seq<L.Event>): L.State {
    if events == [] then s
    else Then(first, ThenAll(first, s, events[..|events| - 1]), events[|events| - 1])
  }

  predicate AllEnabled(first: nat, s: L.State, events: seq<L.Event>) {
    events != [] ==>
      var n := |events| - 1;
      AllEnabled(first, s, events[..n]) && L.Enabled(first, ThenAll(first, s, events[..n]), events[n])
  }

  // The timed state in which the event of the protocol takes place.
  function Moment(first: nat, s: L.State, pace: Pace): L.State {
    ThenAll(first, s, pace.silent)
  }

  function AfterPace(first: nat, s: L.State, pace: Pace): L.State {
    var m := Moment(first, s, pace);
    if pace.visible.Some? then Then(first, m, pace.visible.value) else m
  }

  function AfterAll(first: nat, paces: seq<Pace>): L.State {
    if paces == [] then L.INIT
    else AfterPace(first, AfterAll(first, paces[..|paces| - 1]), paces[|paces| - 1])
  }

  predicate WorksIn(c: Params, s: State, p: Pid, id: ProofId) {
    p in s.procs && Works(c, s.procs[p], id)
  }

  // The extension task of the id sends a command that is executed.
  predicate Sends(s: State, e: Event, id: ProofId, del: bool) {
    e.Run? && e.pid in s.procs && s.procs[e.pid] == Extender(id) && Took(e.input.fault) && e.input.last == del
  }

  // The visible timed event is what the event of the protocol means for the lock of the id: a task is
  // started with its acquisition, ends with the write of its result or its crash, is extended by
  // PEXPIRE and released by DEL; an extension task may die once its task has ended.
  ghost predicate Matches(c: Params, id: ProofId, s: State, e: Event, s': State, visible: Option<L.Event>) {
    && (visible.Some? ==> !Silent(visible.value))
    && (forall p :: !WorksIn(c, s, p, id) && WorksIn(c, s', p, id) <==> visible == Some(L.Acquire(p)))
    && (forall p :: WorksIn(c, s, p, id) && !WorksIn(c, s', p, id) <==> visible == Some(L.Finish(p)))
    && (Sends(s, e, id, false) <==> visible.Some? && (visible.value.FirstExtension? || visible.value.Extend?))
    && (Sends(s, e, id, true) <==> visible.Some? && visible.value.Release?)
    && (visible.Some? && visible.value.Crash? ==>
          e.Crash? && e.pid in s.procs && s.procs[e.pid] == Extender(id) && !WorksIn(c, s', visible.value.id, id))
  }

  ghost predicate PacedAt(
    c: Params, first: nat, id: ProofId, s: State, e: Event, s': State, timed: L.State, pace: Pace)
  {
    && (forall x :: x in pace.silent ==> Silent(x)) && AllEnabled(first, timed, pace.silent)
    && (pace.visible.Some? ==> L.Enabled(first, Moment(first, timed, pace), pace.visible.value))
    && Matches(c, id, s, e, s', pace.visible)
    // A key expires no sooner than it is due.
    && (e == GenLockExpires(id) ==> !L.Held(Moment(first, timed, pace)))
  }

  // The run keeps to a timed run of the lock of the id.
  ghost predicate Paced(c: Params, first: nat, id: ProofId, t: Trace, paces: seq<Pace>) {
    && |paces| == |t.events| && |t.states| == |t.events| + 1
    && forall k {:trigger t.events[k]} :: 0 <= k < |t.events| ==>
         PacedAt(c, first, id, t.states[k], t.events[k], t.states[k + 1], AfterAll(first, paces[..k]), paces[k])
  }

  // --- The two runs side by side ---

  ghost predicate Beside(c: Params, id: ProofId, s: State, timed: L.State) {
    && L.Inv(timed)
    && (L.Held(timed) ==> id in s.db.genLocks)
    && forall p :: WorksIn(c, s, p, id) ==> p in timed.tasks && timed.tasks[p].proving
  }

  lemma SilentStep(c: Params, first: nat, id: ProofId, s: State, timed: L.State, e: L.Event)
    requires first <= L.INITIAL_LOCK_MS && Beside(c, id, s, timed) && Silent(e) && L.Enabled(first, timed, e)
    ensures Beside(c, id, s, L.Next(timed, e))
  {
    L.StepKeeps(timed, e);
  }

  lemma {:induction false} SilentSteps(
    c: Params, first: nat, id: ProofId, s: State, timed: L.State, events: seq<L.Event>)
    requires first <= L.INITIAL_LOCK_MS && Beside(c, id, s, timed)
    requires AllEnabled(first, timed, events) && forall x :: x in events ==> Silent(x)
    ensures Beside(c, id, s, ThenAll(first, timed, events))
  {
    hide Beside, L.Enabled, L.Next, Silent;
    if events != [] {
      var n := |events| - 1;
      SilentSteps(c, first, id, s, timed, events[..n]);
      SilentStep(c, first, id, s, ThenAll(first, timed, events[..n]), events[n]);
    }
  }

  // The key of the id goes only by expiry or by a DEL, and tasks start only where it was absent.
  lemma KeyAfter(c: Params, id: ProofId, s: State, e: Event)
    requires Enabled(c, s, e)
    ensures var s' := Next(c, s, e);
            && (id in s.db.genLocks && id !in s'.db.genLocks ==> e == GenLockExpires(id) || Sends(s, e, id, true))
            && (forall p :: !WorksIn(c, s, p, id) && WorksIn(c, s', p, id) ==>
                  id !in s.db.genLocks && id in s'.db.genLocks)
  {
    hide Observe;
    var s' := Next(c, s, e);
    forall p | !WorksIn(c, s, p, id) && WorksIn(c, s', p, id)
      ensures id !in s.db.genLocks && id in s'.db.genLocks
    {
      TasksAfter(c, s, e, p);
    }
  }

  lemma VisibleStep(c: Params, first: nat, id: ProofId, s: State, e: Event, s': State, timed: L.State, v: L.Event)
    requires first <= L.INITIAL_LOCK_MS && Beside(c, id, s, timed)
    requires Enabled(c, s, e) && s' == Next(c, s, e) && Matches(c, id, s, e, s', Some(v))
    requires L.Enabled(first, timed, v) && e != GenLockExpires(id)
    ensures Beside(c, id, s', L.Next(timed, v))
  {
    hide Next, Enabled;
    KeyAfter(c, id, s, e);
    L.StepKeeps(timed, v);
  }

  lemma InvisibleStep(c: Params, id: ProofId, s: State, e: Event, s': State, timed: L.State)
    requires Beside(c, id, s, timed)
    requires Enabled(c, s, e) && s' == Next(c, s, e) && Matches(c, id, s, e, s', None)
    requires e == GenLockExpires(id) ==> !L.Held(timed)
    ensures Beside(c, id, s', timed)
  {
    hide Next, Enabled;
    KeyAfter(c, id, s, e);
  }

  lemma ExpiryIsInvisible(c: Params, id: ProofId, s: State, s': State, v: Option<L.Event>)
    requires s' == Next(c, s, GenLockExpires(id)) && Matches(c, id, s, GenLockExpires(id), s', v)
    ensures v == None
  {
    if v.Some? {
      forall p | WorksIn(c, s, p, id) || WorksIn(c, s', p, id)
        ensures WorksIn(c, s, p, id) && WorksIn(c, s', p, id)
      {
        ObservedTask(s.procs[p], s'.db);
      }
    }
  }

  lemma PacedStep(
    c: Params, first: nat, id: ProofId, s: State, e: Event, s': State, timed: L.State, pace: Pace)
    requires first <= L.INITIAL_LOCK_MS && Beside(c, id, s, timed)
    requires Enabled(c, s, e) && s' == Next(c, s, e) && PacedAt(c, first, id, s, e, s', timed, pace)
    ensures Beside(c, id, s', AfterPace(first, timed, pace))
  {
    hide Beside, Matches, L.Next, L.Enabled, Next, Enabled;
    SilentSteps(c, first, id, s, timed, pace.silent);
    var m := Moment(first, timed, pace);
    if pace.visible.Some? {
      if e == GenLockExpires(id) {
        ExpiryIsInvisible(c, id, s, s', pace.visible);
      } else {
        VisibleStep(c, first, id, s, e, s', m, pace.visible.value);
      }
    } else {
      InvisibleStep(c, id, s, e, s', m);
    }
  }

  lemma NothingBeside(c: Params, id: ProofId)
    ensures Beside(c, id, INIT, L.INIT)
  {
  }

  lemma {:induction false} PacedRunsStayBeside(
    c: Params, first: nat, id: ProofId, t: Trace, paces: seq<Pace>, i: nat)
    requires first <= L.INITIAL_LOCK_MS && IsRun(c, t) && Paced(c, first, id, t, paces) && i < |t.states|
    ensures Beside(c, id, t.states[i], AfterAll(first, paces[..i]))
  {
    hide Beside, PacedAt, AfterPace, Next, Enabled;
    if i == 0 {
      NothingBeside(c, id);
    } else {
      PacedRunsStayBeside(c, first, id, t, paces, i - 1);
      assert t.events[i - 1] == t.events[i - 1];
      PacedStep(c, first, id, t.states[i - 1], t.events[i - 1], t.states[i], AfterAll(first, paces[..i - 1]),
                paces[i - 1]);
      assert paces[..i][..i - 1] == paces[..i - 1];
    }
  }

  lemma BesideIsSingle(c: Params, id: ProofId, s: State, timed: L.State, p: Pid, q: Pid)
    requires Beside(c, id, s, timed) && WorksIn(c, s, p, id) && WorksIn(c, s, q, id)
    ensures p == q && id in s.db.genLocks
  {
    assert L.Owns(timed, p, timed.tasks[p]) && L.Owns(timed, q, timed.tasks[q]);
  }

  // The run keeps to the timing hypotheses for every id.
  ghost predicate Timely(c: Params, first: nat, t: Trace) {
    forall id :: HasPace(c, first, id, t)
  }

  ghost predicate HasPace(c: Params, first: nat, id: ProofId, t: Trace) {
    exists paces :: Paced(c, first, id, t, paces)
  }

  // Main result: in a timely run of the protocol every live task is locked and no id has two, so no
  // event takes a key from under a live task.
  lemma TimelyRunsHaveOneTask(c: Params, first: nat, t: Trace)
    requires first <= L.INITIAL_LOCK_MS && IsRun(c, t) && Timely(c, first, t)
    ensures forall i :: 0 <= i < |t.states| ==> AtMostOneTask(c, t.states[i]) && TasksLocked(c, t.states[i])
    ensures Spared(c, t, 0)
  {
    hide PacedAt, Beside, Next, Enabled;
    forall i, p, q | 0 <= i < |t.states| && p in t.states[i].procs && q in t.states[i].procs
                     && t.states[i].procs[p].Task? && t.states[i].procs[q].Task?
                     && c.idOf(t.states[i].procs[p].job) == c.idOf(t.states[i].procs[q].job)
      ensures p == q && c.idOf(t.states[i].procs[p].job) in t.states[i].db.genLocks
    {
      var id := c.idOf(t.states[i].procs[p].job);
      assert HasPace(c, first, id, t);
      var paces :| Paced(c, first, id, t, paces);
      PacedRunsStayBeside(c, first, id, t, paces, i);
      BesideIsSingle(c, id, t.states[i], AfterAll(first, paces[..i]), p, q);
    }
    forall k {:trigger t.events[k]} | 0 <= k < |t.events|
      ensures SparesTasks(c, t.states[k], t.events[k])
    {
      LockedIsSpared(c, t.states[k], t.events[k]);
    }
  }
}
