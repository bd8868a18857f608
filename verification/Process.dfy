// How step-by-step code is tied to the protocol: the log of the Redis commands that a piece of
// code issued, read as the steps of one process of the transition system.
module Process {
  import opened Base
  import opened Primitives
  import opened RedisModel
  import opened Protocol

  // One step of the code: the states that others brought the store through since the previous
  // step, what the outside world chose for this step, and the store after it.
  datatype Turn = Turn(others: seq<Db>, input: Input, after: Db)

  // What one process is, what it last saw of the store, and what it has spawned.
  datatype View = View(proc: Proc, db: Db, spawned: seq<Proc>)

  function Latest(db: Db, others: seq<Db>): Db {
    if others == [] then db else others[|others| - 1]
  }

  function ObserveAll(pr: Proc, others: seq<Db>): Proc {
    if others == [] then pr
    else Observe(ObserveAll(pr, others[..|others| - 1]), others[|others| - 1])
  }

  function Wait(v: View, others: seq<Db>): View {
    View(ObserveAll(v.proc, others), Latest(v.db, others), v.spawned)
  }

  function ListOf(child: Option<Proc>): seq<Proc> {
    if child.Some? then [child.value] else []
  }

  // The step that the protocol prescribes.
  function Advance(c: Params, v: View, turn: Turn): View {
    var w := Wait(v, turn.others);
    if !Live(w.proc) then w
    else
      var out := ProcStep(c, w.proc, w.db, turn.input);
      View(Observe(out.proc, out.db), out.db, w.spawned + ListOf(out.child))
  }

  // The process may take this step, and the code left the store as the protocol would.
  ghost predicate Conforms(c: Params, v: View, turn: Turn) {
    var w := Wait(v, turn.others);
    && Live(w.proc) && Allowed(c, w.proc, turn.input)
    && turn.after == ProcStep(c, w.proc, w.db, turn.input).db
  }

  function Play(c: Params, v: View, log: seq<Turn>): View {
    if log == [] then v else Advance(c, Play(c, v, log[..|log| - 1]), log[|log| - 1])
  }

  ghost predicate Legal(c: Params, v: View, log: seq<Turn>) {
    log != [] ==>
      && Legal(c, v, log[..|log| - 1])
      && Conforms(c, Play(c, v, log[..|log| - 1]), log[|log| - 1])
  }

  ghost predicate Path(c: Params, v: View, log: seq<Turn>, v': View) {
    Legal(c, v, log) && Play(c, v, log) == v'
  }

  lemma Extend(c: Params, v: View, log: seq<Turn>, w: View, turn: Turn)
    requires Path(c, v, log, w) && Conforms(c, w, turn)
    ensures Path(c, v, log + [turn], Advance(c, w, turn))
  {
    assert (log + [turn])[..|log|] == log;
  }

  lemma {:induction false} Join(c: Params, v: View, log: seq<Turn>, w: View, more: seq<Turn>, x: View)
    requires Path(c, v, log, w) && Path(c, w, more, x)
    ensures Path(c, v, log + more, x)
  {
    hide Advance, Conforms;
    if more == [] {
      assert log + more == log;
    } else {
      var n := |more| - 1;
      Join(c, v, log, w, more[..n], Play(c, w, more[..n]));
      Extend(c, v, log + more[..n], Play(c, w, more[..n]), more[n]);
      assert log + more == log + more[..n] + [more[n]];
    }
  }

  // Only scans and orphan passes carry history that other processes' steps change.
  predicate Steady(pr: Proc) {
    !pr.Worker?
    || !(pr.wpc.HScan? || pr.wpc.HMget? || pr.wpc.OScan? || pr.wpc.OMget? || pr.wpc.OLock? || pr.wpc.ODone?)
  }

  lemma {:induction false} SteadyStays(pr: Proc, others: seq<Db>)
    requires Steady(pr)
    ensures ObserveAll(pr, others) == pr
  {
    if others != [] {
      SteadyStays(pr, others[..|others| - 1]);
    }
  }

  // --- A legal log is what one process does in a run ---

  // The events are enabled one after the other, belong to other processes, and lead the
  // store through the given states.
  ghost predicate ByOthers(c: Params, s: State, pid: Pid, events: seq<Event>, dbs: seq<Db>) {
    && |events| == |dbs|
    && (events != [] ==>
          var n := |events| - 1;
          && ByOthers(c, s, pid, events[..n], dbs[..n])
          && var s' := After(c, s, events[..n]);
             && Enabled(c, s', events[n]) && Elsewhere(events[n], pid)
             && Next(c, s', events[n]).db == dbs[n])
  }

  predicate Elsewhere(e: Event, pid: Pid) {
    match e
    case Run(p, _, child) => p != pid && child != pid
    case Arrive(p, _) => p != pid
    case Boot(p, _) => p != pid
    case Crash(p) => p != pid
    case _ => true
  }

  ghost function After(c: Params, s: State, events: seq<Event>): State {
    if events == [] then s
    else
      var s' := After(c, s, events[..|events| - 1]);
      var e := events[|events| - 1];
      if Enabled(c, s', e) then Next(c, s', e) else s'
  }

  // The history variables of a process agree with the store.
  predicate Current(pr: Proc, db: Db) {
    Observe(pr, db) == pr
  }

  lemma ObserveTwice(pr: Proc, db: Db)
    ensures Current(Observe(pr, db), db)
  {
  }

  lemma OtherEvent(c: Params, s: State, pid: Pid, e: Event)
    requires pid in s.procs && Current(s.procs[pid], s.db)
    requires Enabled(c, s, e) && Elsewhere(e, pid)
    ensures var s' := Next(c, s, e);
            pid in s'.procs && s'.procs[pid] == Observe(s.procs[pid], s'.db) && Current(s'.procs[pid], s'.db)
  {
    ObserveTwice(s.procs[pid], Next(c, s, e).db);
  }

  lemma {:induction false} OtherEvents(c: Params, s: State, pid: Pid, events: seq<Event>, dbs: seq<Db>)
    requires pid in s.procs && Current(s.procs[pid], s.db)
    requires ByOthers(c, s, pid, events, dbs)
    ensures var s' := After(c, s, events);
            && s'.db == Latest(s.db, dbs) && pid in s'.procs
            && s'.procs[pid] == ObserveAll(s.procs[pid], dbs) && Current(s'.procs[pid], s'.db)
  {
    if events != [] {
      var n := |events| - 1;
      OtherEvents(c, s, pid, events[..n], dbs[..n]);
      OtherEvent(c, After(c, s, events[..n]), pid, events[n]);
    }
  }

  // What the scheduler does for one turn of a process: the events of the others, then its own
  // step, for whose child it has a fresh process id.
  datatype Slot = Slot(events: seq<Event>, child: Pid)

  function EventsOf(pid: Pid, schedule: seq<Slot>, log: seq<Turn>): seq<Event>
    requires |schedule| == |log|
  {
    if log == [] then []
    else
      var n := |log| - 1;
      EventsOf(pid, schedule[..n], log[..n]) + schedule[n].events
      + [Run(pid, log[n].input, schedule[n].child)]
  }

  // Between the turns of the process, the other processes bring about exactly what its log saw.
  ghost predicate Scheduled(c: Params, s: State, pid: Pid, schedule: seq<Slot>, log: seq<Turn>)
    requires |schedule| == |log|
  {
    log != [] ==>
      var n := |log| - 1;
      && Scheduled(c, s, pid, schedule[..n], log[..n])
      && var s' := After(c, s, EventsOf(pid, schedule[..n], log[..n]));
         && ByOthers(c, s', pid, schedule[n].events, log[n].others)
         && schedule[n].child !in After(c, s', schedule[n].events).procs
  }

  ghost predicate AllEnabled(c: Params, s: State, events: seq<Event>) {
    events != [] ==>
      var n := |events| - 1;
      AllEnabled(c, s, events[..n]) && Enabled(c, After(c, s, events[..n]), events[n])
  }

  lemma {:induction false} AfterJoined(c: Params, s: State, es: seq<Event>, fs: seq<Event>)
    ensures After(c, s, es + fs) == After(c, After(c, s, es), fs)
    ensures AllEnabled(c, s, es) && AllEnabled(c, After(c, s, es), fs) ==> AllEnabled(c, s, es + fs)
  {
    if fs == [] {
      assert es + fs == es;
    } else {
      var n := |fs| - 1;
      AfterJoined(c, s, es, fs[..n]);
      assert (es + fs)[..|es + fs| - 1] == es + fs[..n];
    }
  }

  lemma {:induction false} OthersAreEnabled(c: Params, s: State, pid: Pid, events: seq<Event>, dbs: seq<Db>)
    requires ByOthers(c, s, pid, events, dbs)
    ensures AllEnabled(c, s, events)
  {
    if events != [] {
      OthersAreEnabled(c, s, pid, events[..|events| - 1], dbs[..|events| - 1]);
    }
  }

  lemma OwnEvent(c: Params, s: State, pid: Pid, input: Input, child: Pid)
    requires pid in s.procs && child !in s.procs
    requires Live(s.procs[pid]) && Allowed(c, s.procs[pid], input)
    ensures var s' := Next(c, s, Run(pid, input, child));
            var out := ProcStep(c, s.procs[pid], s.db, input);
            && s'.db == out.db && pid in s'.procs
            && s'.procs[pid] == Observe(out.proc, out.db) && Current(s'.procs[pid], s'.db)
            && (out.child.Some? ==> child in s'.procs && s'.procs[child] == out.child.value)
  {
    var out := ProcStep(c, s.procs[pid], s.db, input);
    ObserveTwice(out.proc, out.db);
    ChildIsPlain(c, s.procs[pid], s.db, input);
  }

  lemma ChildIsPlain(c: Params, pr: Proc, db: Db, input: Input)
    requires Live(pr)
    ensures var child := ProcStep(c, pr, db, input).child; child.Some? ==> !child.value.Worker?
  {
  }

  lemma TurnRuns(c: Params, s: State, pid: Pid, v: View, turn: Turn, slot: Slot)
    requires pid in s.procs && s.procs[pid] == v.proc && s.db == v.db && Current(v.proc, s.db)
    requires Conforms(c, v, turn)
    requires ByOthers(c, s, pid, slot.events, turn.others)
    requires slot.child !in After(c, s, slot.events).procs
    ensures var events := slot.events + [Run(pid, turn.input, slot.child)];
            var s' := After(c, s, events);
            && AllEnabled(c, s, events)
            && var v' := Advance(c, v, turn);
               && s'.db == v'.db == turn.after
               && pid in s'.procs && s'.procs[pid] == v'.proc && Current(v'.proc, s'.db)
               && (v'.spawned != v.spawned ==>
                     slot.child in s'.procs && v'.spawned == v.spawned + [s'.procs[slot.child]])
  {
    OtherEvents(c, s, pid, slot.events, turn.others);
    OthersAreEnabled(c, s, pid, slot.events, turn.others);
    var mid := After(c, s, slot.events);
    var own := Run(pid, turn.input, slot.child);
    OwnEvent(c, mid, pid, turn.input, slot.child);
    hide Observe, ProcStep, Next, Live, Allowed;
    var events := slot.events + [own];
    assert events[..|events| - 1] == slot.events;
  }

  // Main result: code whose log is legal behaves, among any other processes that bring about
  // what the log saw of them, as one process of the protocol.
  lemma {:induction false} LegalCodeIsAProcess(
    c: Params, s: State, pid: Pid, v: View, log: seq<Turn>, v': View, schedule: seq<Slot>)
    requires pid in s.procs && s.procs[pid] == v.proc && s.db == v.db && Current(v.proc, s.db)
    requires Path(c, v, log, v') && |schedule| == |log| && Scheduled(c, s, pid, schedule, log)
    ensures var events := EventsOf(pid, schedule, log);
            var s' := After(c, s, events);
            && AllEnabled(c, s, events)
            && s'.db == v'.db && pid in s'.procs && s'.procs[pid] == v'.proc && Current(v'.proc, s'.db)
  {
    hide Advance, Conforms, Current, Observe, ByOthers, Enabled, Next;
    if log != [] {
      var n := |log| - 1;
      var w := Play(c, v, log[..n]);
      LegalCodeIsAProcess(c, s, pid, v, log[..n], w, schedule[..n]);
      var before := EventsOf(pid, schedule[..n], log[..n]);
      var s' := After(c, s, before);
      TurnRuns(c, s', pid, w, log[n], schedule[n]);
      var last := schedule[n].events + [Run(pid, log[n].input, schedule[n].child)];
      AfterJoined(c, s, before, last);
      assert EventsOf(pid, schedule, log) == before + last;
    }
  }

  // The run continued by enabled events.
  ghost function Continued(c: Params, t: Trace, events: seq<Event>): Trace
    requires |t.states| > 0
  {
    var s := t.states[|t.states| - 1];
    Trace(
      t.states + seq(|events|, i requires 0 <= i < |events| => After(c, s, events[..i + 1])),
      t.events + events)
  }

  // So whatever holds of every run holds of the code among other processes.
  lemma LegalCodeContinuesRuns(
    c: Params, t: Trace, pid: Pid, v: View, log: seq<Turn>, v': View, schedule: seq<Slot>)
    requires IsRun(c, t)
    requires var s := t.states[|t.states| - 1];
             pid in s.procs && s.procs[pid] == v.proc && s.db == v.db && Current(v.proc, s.db)
    requires Path(c, v, log, v') && |schedule| == |log|
    requires Scheduled(c, t.states[|t.states| - 1], pid, schedule, log)
    ensures var t' := Continued(c, t, EventsOf(pid, schedule, log));
            && IsRun(c, t')
            && var s' := t'.states[|t'.states| - 1];
               s'.db == v'.db && pid in s'.procs && s'.procs[pid] == v'.proc
  {
    hide Path, Scheduled, Current, EventsOf, AllEnabled, Enabled, Next;
    var s, events := t.states[|t.states| - 1], EventsOf(pid, schedule, log);
    LegalCodeIsAProcess(c, s, pid, v, log, v', schedule);
    EnabledContinues(c, t, events);
    assert events[..|events|] == events;
  }

  lemma EnabledContinues(c: Params, t: Trace, events: seq<Event>)
    requires IsRun(c, t) && AllEnabled(c, t.states[|t.states| - 1], events)
    ensures IsRun(c, Continued(c, t, events))
  {
    var s, t' := t.states[|t.states| - 1], Continued(c, t, events);
    var n := |t.events|;
    forall i {:trigger t'.events[i]} | 0 <= i < |t'.events|
      ensures Enabled(c, t'.states[i], t'.events[i]) && t'.states[i + 1] == Next(c, t'.states[i], t'.events[i])
    {
      if i < n {
        assert t'.events[i] == t.events[i] && t'.states[i] == t.states[i] && t'.states[i + 1] == t.states[i + 1];
      } else {
        var k := i - n;
        EnabledAt(c, s, events, k);
        assert t'.states[i] == After(c, s, events[..k]);
        assert events[..k + 1][..k] == events[..k];
      }
    }
  }

  lemma {:induction false} EnabledAt(c: Params, s: State, events: seq<Event>, k: nat)
    requires AllEnabled(c, s, events) && k < |events|
    ensures Enabled(c, After(c, s, events[..k]), events[k])
  {
    var n := |events| - 1;
    if k < n {
      EnabledAt(c, s, events[..n], k);
      assert events[..n][..k] == events[..k];
    }
  }
}
