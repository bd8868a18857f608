// When the worker loop enters a section: only while it wants to advance the stored header.
module Rounds {
  import opened Base
  import opened Protocol

  predicate InHeaderSection(pc: WorkerPc) {
    pc.HAcquire? || pc.HRead? || pc.HScan? || pc.HMget? || pc.HCommit? || pc.HSpawn? || pc.HRelease?
  }

  predicate Wants(pr: Proc) {
    pr.Worker? && InHeaderSection(pr.wpc) ==> pr.advance
  }

  lemma OwnStep(c: Params, pr: Proc, input: Input, s: State)
    requires Live(pr) && Wants(pr)
    ensures var out := ProcStep(c, pr, s.db, input);
            Wants(out.proc) && (out.child.Some? ==> Wants(out.child.value))
  {
  }

  lemma ObservedWants(pr: Proc, s: State)
    ensures Wants(Observe(pr, s.db)) <==> Wants(pr)
  {
  }

  predicate AllWant(s: State) {
    forall pid :: pid in s.procs ==> Wants(s.procs[pid])
  }

  lemma StepKeeps(c: Params, s: State, e: Event)
    requires Enabled(c, s, e) && AllWant(s)
    ensures AllWant(Next(c, s, e))
  {
    hide ProcStep, Observe, Wants, Allowed;
    var s' := Next(c, s, e);
    var procs := s.procs;
    if e.Run? {
      OwnStep(c, s.procs[e.pid], e.input, s);
      var out := ProcStep(c, s.procs[e.pid], s.db, e.input);
      procs := WithChild(s.procs[e.pid := out.proc], e.child, out.child);
    }
    NewWants(e);
    forall pid | pid in procs
      ensures Wants(Observe(procs[pid], s'.db))
    {
      ObservedWants(procs[pid], s');
    }
  }

  lemma NewWants(e: Event)
    ensures e.Arrive? ==> Wants(Request(e.req, QAcquire))
    ensures e.Boot? ==> Wants(Worker(e.tip, true, LoopTop))
    ensures Wants(Halted)
  {
  }

  lemma {:induction false} EveryStateWants(c: Params, t: Trace, i: nat)
    requires IsRun(c, t) && i < |t.states|
    ensures AllWant(t.states[i])
  {
    if i > 0 {
      EveryStateWants(c, t, i - 1);
      StepKeeps(c, t.states[i - 1], t.events[i - 1]);
    }
  }

  // A worker takes the lock and is in a new-header section only with should_advance_redis_state true.
  lemma SectionsAreWanted(c: Params, t: Trace, i: nat, pid: Pid)
    requires IsRun(c, t) && i < |t.states| && pid in t.states[i].procs
    requires t.states[i].procs[pid].Worker? && InHeaderSection(t.states[i].procs[pid].wpc)
    ensures t.states[i].procs[pid].advance
  {
    EveryStateWants(c, t, i);
    assert Wants(t.states[i].procs[pid]);
  }
}
