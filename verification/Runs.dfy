// Runs that share a beginning, and runs that are cut short or go on by one event.
module Runs {
  import opened Base
  import opened Protocol

  function Last(t: Trace): State
    requires t.states != []
  {
    t.states[|t.states| - 1]
  }

  // The run u goes on from state i of t.
  ghost predicate GoesOn(u: Trace, t: Trace, i: nat) {
    && i < |t.states| && i <= |t.events| && i < |u.states| && i <= |u.events|
    && u.states[..i + 1] == t.states[..i + 1] && u.events[..i] == t.events[..i]
  }

  function Prefix(t: Trace, i: nat): Trace
    requires i < |t.states| && i <= |t.events|
  {
    Trace(t.states[..i + 1], t.events[..i])
  }

  ghost function Append(c: Params, t: Trace, e: Event): Trace
    requires t.states != [] && Enabled(c, Last(t), e)
  {
    Trace(t.states + [Next(c, Last(t), e)], t.events + [e])
  }

  lemma PrefixIsRun(c: Params, t: Trace, i: nat)
    requires IsRun(c, t) && i < |t.states|
    ensures IsRun(c, Prefix(t, i)) && GoesOn(Prefix(t, i), t, i)
  {
    hide Enabled, Next;
    var u := Prefix(t, i);
    forall k {:trigger u.events[k]} | 0 <= k < |u.events|
      ensures Enabled(c, u.states[k], u.events[k]) && u.states[k + 1] == Next(c, u.states[k], u.events[k])
    {
      assert u.events[k] == t.events[k];
    }
  }

  lemma AppendIsRun(c: Params, t: Trace, e: Event)
    requires IsRun(c, t) && Enabled(c, Last(t), e)
    ensures IsRun(c, Append(c, t, e)) && GoesOn(Append(c, t, e), t, |t.events|)
  {
    hide Enabled, Next;
    var u := Append(c, t, e);
    forall k {:trigger u.events[k]} | 0 <= k < |u.events|
      ensures Enabled(c, u.states[k], u.events[k]) && u.states[k + 1] == Next(c, u.states[k], u.events[k])
    {
      if k < |t.events| {
        assert u.events[k] == t.events[k] && u.states[k] == t.states[k] && u.states[k + 1] == t.states[k + 1];
      }
    }
  }

  lemma GoesOnFurther(u: Trace, v: Trace, w: Trace, i: nat, j: nat)
    requires GoesOn(v, u, i) && GoesOn(w, v, j) && i <= j
    ensures GoesOn(w, u, i)
    ensures forall k :: i <= k < j ==> w.events[k] == v.events[k]
  {
    assert w.states[..i + 1] == w.states[..j + 1][..i + 1] == v.states[..i + 1];
    assert w.events[..i] == w.events[..j][..i] == v.events[..i];
    forall k | i <= k < j
      ensures w.events[k] == v.events[k]
    {
      assert w.events[..j][k] == v.events[..j][k];
    }
  }

  // No process has a larger id: the next one is free.
  lemma {:induction false} Bound(pids: set<Pid>) returns (b: Pid)
    ensures forall p :: p in pids ==> p < b
  {
    if pids == {} {
      b := 0;
    } else {
      var p :| p in pids;
      var rest := Bound(pids - {p});
      b := if rest > p then rest else p + 1;
      assert forall q :: q in pids ==> q == p || q in pids - {p};
    }
  }
}
