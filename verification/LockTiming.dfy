// The generation lock of one proof id in real time (milliseconds): SET NX PX by
// whoever starts a task, PEXPIRE on every tick of the task's extension loop, DEL at the end.
module LockTiming {
  import opened Base

  const INITIAL_LOCK_MS: nat := 1_000
  const REDIS_TIMEOUT_MS: nat := 10_000
  const TICK_MS: nat := 10_000
  const EXTENSION_MS: nat := TICK_MS + REDIS_TIMEOUT_MS + 1_000

  // The extension loop of a task. A command in flight takes effect at some instant
  // between its issue and its answer.
  datatype Loop =
    | Starting(acquired: nat)                 // lock acquired, first extension not yet in effect
    | Idle(tick: nat)                         // extension of this tick in effect, next tick to come
    | Extending(tick: nat)                    // PEXPIRE of this tick in flight
    | Releasing(since: nat)                   // cancelled, DEL in flight

  // `proving` holds until the task has stored its result and drops its cancellation guard.
  datatype Task = Task(proving: bool, loop: Loop)

  // The lock key exists until `expiry`; `owner` is history, Redis stores no owner.
  datatype Lock = Lock(expiry: nat, owner: nat)

  datatype State = State(now: nat, lock: Option<Lock>, tasks: map<nat, Task>)

  const INIT := State(0, None, map[])

  datatype Event =
    | Wait(until: nat)
    | Acquire(id: nat)             // SET NX PX 1000, then spawn
    | FirstExtension(id: nat, tick: nat)  // the immediate first tick's PEXPIRE takes effect
    | NextTick(id: nat)
    | Extend(id: nat)              // PEXPIRE takes effect and is answered
    | Finish(id: nat)              // the result is stored
    | Cancelled(id: nat)           // the loop notices the cancellation and issues the DEL
    | Release(id: nat)             // the DEL takes effect
    | Crash(id: nat)

  predicate Held(s: State) {
    s.lock.Some? && s.now < s.lock.value.expiry
  }

  // The last instant at which a loop can still be in its phase: the first extension takes
  // effect within `first` ms of acquisition, ticks fire on time, and every later command
  // takes effect within the Redis timeout.
  function Deadline(first: nat, loop: Loop): int {
    match loop
    case Starting(acquired) => acquired + first - 1
    case Idle(tick) => tick + TICK_MS
    case Extending(tick) => tick + REDIS_TIMEOUT_MS
    case Releasing(since) => since + REDIS_TIMEOUT_MS
  }

  predicate Applies(s: State, e: Event) {
    match e
    case Wait(until) => s.now <= until
    case Acquire(id) => id !in s.tasks
    case FirstExtension(id, tick) =>
      id in s.tasks && s.tasks[id].loop.Starting? && s.tasks[id].loop.acquired <= tick <= s.now
    case NextTick(id) =>
      id in s.tasks && s.tasks[id].loop.Idle? && s.now == s.tasks[id].loop.tick + TICK_MS
    case Extend(id) => id in s.tasks && s.tasks[id].loop.Extending?
    case Finish(id) => id in s.tasks && s.tasks[id].proving
    case Cancelled(id) => id in s.tasks && !s.tasks[id].proving && s.tasks[id].loop.Idle?
    case Release(id) => id in s.tasks && s.tasks[id].loop.Releasing?
    case Crash(id) => id in s.tasks
  }

  // Time passes no deadline.
  predicate Enabled(first: nat, s: State, e: Event) {
    && Applies(s, e)
    && (e.Wait? ==> forall id :: id in s.tasks ==> e.until <= Deadline(first, s.tasks[id].loop))
  }

  // PEXPIRE renews a key that exists, whoever set it, and otherwise does nothing.
  function Renew(s: State): Option<Lock> {
    if Held(s) then Some(s.lock.value.(expiry := s.now + EXTENSION_MS)) else None
  }

  function Next(s: State, e: Event): State
    requires Applies(s, e)
  {
    match e
    case Wait(until) => s.(now := until)
    case Acquire(id) =>
      if Held(s) then s
      else s.(lock := Some(Lock(s.now + INITIAL_LOCK_MS, id)),
              tasks := s.tasks[id := Task(true, Starting(s.now))])
    case FirstExtension(id, tick) =>
      s.(lock := Renew(s), tasks := s.tasks[id := s.tasks[id].(loop := Idle(tick))])
    case NextTick(id) =>
      s.(tasks := s.tasks[id := s.tasks[id].(loop := Extending(s.now))])
    case Extend(id) =>
      s.(lock := Renew(s), tasks := s.tasks[id := s.tasks[id].(loop := Idle(s.tasks[id].loop.tick))])
    case Finish(id) => s.(tasks := s.tasks[id := s.tasks[id].(proving := false)])
    case Cancelled(id) => s.(tasks := s.tasks[id := s.tasks[id].(loop := Releasing(s.now))])
    case Release(id) => s.(lock := None, tasks := s.tasks - {id})
    case Crash(id) => s.(tasks := s.tasks - {id})
  }

  datatype Trace = Trace(states: seq<State>, events: seq<Event>)

  predicate IsRun(first: nat, t: Trace) {
    && |t.states| == |t.events| + 1
    && t.states[0] == INIT
    && forall i {:trigger t.events[i]} :: 0 <= i < |t.events| ==>
         Enabled(first, t.states[i], t.events[i]) && t.states[i + 1] == Next(t.states[i], t.events[i])
  }

  // Each live task owns a lock that outlasts its current phase.
  predicate Owns(s: State, id: nat, task: Task) {
    && Held(s) && s.lock.value.owner == id
    && Deadline(INITIAL_LOCK_MS, task.loop) < s.lock.value.expiry
    && (match task.loop
        case Starting(acquired) => acquired <= s.now && s.lock.value.expiry == acquired + INITIAL_LOCK_MS
        case Idle(tick) => tick <= s.now && tick + EXTENSION_MS <= s.lock.value.expiry
        case Extending(tick) => tick <= s.now && tick + REDIS_TIMEOUT_MS + 1_000 <= s.lock.value.expiry
        case Releasing(since) => !task.proving)
  }

  predicate OnTime(s: State) {
    forall id :: id in s.tasks ==> s.now <= Deadline(INITIAL_LOCK_MS, s.tasks[id].loop)
  }

  predicate Inv(s: State) {
    OnTime(s) && forall id :: id in s.tasks ==> Owns(s, id, s.tasks[id])
  }

  lemma StepKeeps(s: State, e: Event)
    requires Inv(s) && Enabled(INITIAL_LOCK_MS, s, e)
    ensures Inv(Next(s, e))
  {
  }

  lemma {:induction false} EveryStateIsSafe(first: nat, t: Trace, i: nat)
    requires first <= INITIAL_LOCK_MS && IsRun(first, t) && i < |t.states|
    ensures Inv(t.states[i])
  {
    if i > 0 {
      EveryStateIsSafe(first, t, i - 1);
      StepKeeps(t.states[i - 1], t.events[i - 1]);
    }
  }

  // A live task holds the lock at every instant, however many extensions that takes, and
  // its final DEL removes its own lock, before it expires.
  lemma LockNeverLapses(first: nat, t: Trace, i: nat, id: nat)
    requires first <= INITIAL_LOCK_MS && IsRun(first, t) && i < |t.states| && id in t.states[i].tasks
    ensures Held(t.states[i]) && t.states[i].lock.value.owner == id
    ensures i < |t.events| && t.events[i] == Release(id) ==>
              t.states[i].lock.value.owner == id && t.states[i + 1].lock.None?
  {
    EveryStateIsSafe(first, t, i);
    assert Owns(t.states[i], id, t.states[i].tasks[id]);
  }

  ghost predicate AtMostOneTask(t: Trace) {
    forall i, p, q :: 0 <= i < |t.states| && p in t.states[i].tasks && q in t.states[i].tasks ==> p == q
  }

  // Two tasks for one id, when the first extension may take effect 1000 ms after acquisition.
  function LateExtension(): Trace {
    var s1 := Next(INIT, Acquire(0));
    var s2 := Next(s1, Wait(INITIAL_LOCK_MS));
    var s3 := Next(s2, Acquire(1));
    Trace([INIT, s1, s2, s3], [Acquire(0), Wait(INITIAL_LOCK_MS), Acquire(1)])
  }

  // Main result: at most one generation task of an id is live in every run exactly when the
  // first extension takes effect within the initial lock duration.
  lemma OneTaskIffFirstExtensionIsTimely(first: nat)
    ensures (forall t :: IsRun(first, t) ==> AtMostOneTask(t)) <==> first <= 1_000
  {
    if first <= INITIAL_LOCK_MS {
      forall t, i, p, q | IsRun(first, t) && 0 <= i < |t.states| && p in t.states[i].tasks && q in t.states[i].tasks
        ensures p == q
      {
        LockNeverLapses(first, t, i, p);
        LockNeverLapses(first, t, i, q);
      }
    } else {
      var t := LateExtension();
      assert IsRun(first, t);
      assert 0 in t.states[3].tasks && 1 in t.states[3].tasks;
      assert !AtMostOneTask(t);
    }
  }

  // --- The timing hypotheses leave room for runs of any length ---

  predicate Ticking(s: State, n: nat) {
    && s.now == n * 10_000
    && s.lock == Some(Lock(s.now + 21_000, 0))
    && s.tasks == map[0 := Task(true, Idle(s.now))]
  }

  lemma {:induction false} AnyNumberOfExtensions(n: nat)
    ensures exists t :: IsRun(INITIAL_LOCK_MS, t) && Ticking(t.states[|t.states| - 1], n)
  {
    if n == 0 {
      var s1 := Next(INIT, Acquire(0));
      var s2 := Next(s1, FirstExtension(0, 0));
      var t := Trace([INIT, s1, s2], [Acquire(0), FirstExtension(0, 0)]);
      assert IsRun(INITIAL_LOCK_MS, t) && Ticking(t.states[2], 0);
    } else {
      AnyNumberOfExtensions(n - 1);
      var t :| IsRun(INITIAL_LOCK_MS, t) && Ticking(t.states[|t.states| - 1], n - 1);
      var s := t.states[|t.states| - 1];
      var es := [Wait(s.now + TICK_MS), NextTick(0), Extend(0)];
      var s1 := Next(s, es[0]);
      var s2 := Next(s1, es[1]);
      var s3 := Next(s2, es[2]);
      var u := Trace(t.states + [s1, s2, s3], t.events + es);
      assert IsRun(INITIAL_LOCK_MS, u) && Ticking(u.states[|u.states| - 1], n);
    }
  }
}
