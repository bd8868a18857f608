// The protocol, the codec and the light client put together: what a stored proof means in every
// reachable state of the service.
module System {
  import opened Base
  import opened Primitives
  import opened RedisModel
  import opened Protocol
  import RequestCodec
  import Integrity
  import opened EndToEnd
  import opened TrieReads
  import opened Replay
  import opened LightClient
  import opened ConsensusClient
  import Guest
  import opened Process
  import opened ProofService
  import Safety

  // Ids are hashes of RLP encodings, and proofs come out of the generation pipeline.
  ghost predicate IsService(
    c: Params, hash: seq<Byte> -> B256, w: World, prove: Guest.ProofInputs -> Result<ProofData, string>)
  {
    && (forall r :: c.idOf(r) == RequestCodec.ProofIdOf(hash, r))
    && (forall r, d :: c.canProve(r, d) ==> Generated(w, prove, r, d))
    && SoundProver(w, prove)
  }

  ghost predicate Generated(
    w: World, prove: Guest.ProofInputs -> Result<ProofData, string>, request: ProofRequest, data: ProofData)
  {
    exists a :: GenerateProof(w, prove, request, a) == Ok(data)
  }

  // What the outputs of a proof say about the attempt behind it.
  ghost predicate Attests(w: World, request: ProofRequest, a: Attempt, out: ProofOutputs) {
    && ConsensusInputs(w, request, a).Ok?
    && out.prevHeader == request.fromHeader
    && out.newHead > out.prevHead
    && |out.slots| == |request.storageSlots|
    && (forall k :: 0 <= k < |out.slots| ==>
          out.slots[k].key == request.storageSlots[k] && out.slots[k].contractAddress == a.response.address)
    && (Aligned(ConsensusInputs(w, request, a).value) ==> out.newHead % 32 == 0)
    && HeadFollows(w, request, a, out)
    && AreOutputsOf(w, request, a, out)
    && forall lookup :: SoundTrie(w.t, lookup) ==> AreStored(w.t, lookup, out.executionStateRoot, out.slots)
  }

  // They are what the program commits on the inputs assembled in the attempt, which it accepts, and name a
  // header that one of the verified updates carried.
  ghost predicate AreOutputsOf(w: World, request: ProofRequest, a: Attempt, out: ProofOutputs) {
    && AssembleInputs(w, request, a).Ok?
    && var inputs := AssembleInputs(w, request, a).value;
       && Guest.Accepts(w.x, w.t, inputs) && out == Guest.Outputs(w.x, inputs)
       && inputs.finalityUpdate.finalizedHeader.beacon.slot % 32 == 0
       && exists k :: 0 <= k < |Steps(inputs.updates, inputs.finalityUpdate)|
                      && Guest.Names(w.x, out, Steps(inputs.updates, inputs.finalityUpdate)[k].finalizedHeader)
  }

  // The head is an epoch boundary exactly when the picked session's finality update was applied, or
  // its committee updates had already reached one.
  ghost predicate HeadFollows(w: World, request: ProofRequest, a: Attempt, out: ProofOutputs) {
    ConsensusInputs(w, request, a).Ok? &&
    var trace := ConsensusInputs(w, request, a).value;
    exists s :: s in a.sessions
      && SyncOutcome(w.x, w.net, ApplyBootstrap(a.bootstrap), s) == Ok(trace)
      && BeforeFinality(w, a, s, trace).Some?
      && (out.newHead % 32 == 0 <==>
            BoundaryAhead(BeforeFinality(w, a, s, trace).value, trace.finalityUpdate))
  }

  // A hash without collisions on the requests made discharges the protocol's hypothesis on ids.
  lemma HashGivesDistinctIds(
    c: Params, hash: seq<Byte> -> B256, w: World, prove: Guest.ProofInputs -> Result<ProofData, string>)
    requires IsService(c, hash, w, prove) && RequestCodec.CollisionFree(hash, c.known)
    ensures NoCollision(c)
  {
    forall r, q | c.known(r) && c.known(q) && c.idOf(r) == c.idOf(q)
      ensures r == q
    {
      RequestCodec.IdsAreDistinct(hash, c.known, r, q);
    }
  }

  // Main result: in every state of every run, with no hypothesis on locks, a record stored as Success
  // sits under its request's id and came out of an attempt that its outputs attest. They start at the
  // requested header, end at a later head, which is an epoch boundary exactly when that attempt allows,
  // and list the requested keys in order, under the address of that attempt's storage response.
  lemma EveryStoredProofIsAttested(
    c: Params, hash: seq<Byte> -> B256, w: World, prove: Guest.ProofInputs -> Result<ProofData, string>,
    t: Trace, i: nat, id: ProofId)
    requires IsService(c, hash, w, prove) && IsRun(c, t) && i < |t.states|
    requires id in t.states[i].db.records && t.states[i].db.records[id].status == Success
    ensures var st := t.states[i].db.records[id];
            && id == RequestCodec.ProofIdOf(hash, st.request)
            && st.proofData.Some?
            && exists a ::
                 && GenerateProof(w, prove, st.request, a) == Ok(st.proofData.value)
                 && Attests(w, st.request, a, st.proofData.value.publicValues)
  {
    hide GenerateProof, ConsensusInputs, Attests, HeadFollows, SoundProver;
    Integrity.EveryStateIsWellFormed(c, t, i);
    var st := t.states[i].db.records[id];
    assert Integrity.WellFormed(c, st);
    var a :| GenerateProof(w, prove, st.request, a) == Ok(st.proofData.value);
    ProofAttests(w, prove, st.request, a);
  }

  lemma ProofAttests(
    w: World, prove: Guest.ProofInputs -> Result<ProofData, string>, request: ProofRequest, a: Attempt)
    requires SoundProver(w, prove) && GenerateProof(w, prove, request, a).Ok?
    ensures Attests(w, request, a, GenerateProof(w, prove, request, a).value.publicValues)
  {
    hide ConsensusInputs, SyncOutcome, BeforeFinality, BoundaryAhead, Aligned, SoundProver, AreOutputsOf, AreStored;
    hide SoundTrie;
    StoredProofSays(w, prove, request, a);
    HeadIsBoundaryExactlyWhen(w, prove, request, a);
    ProofIsOfOutputs(w, prove, request, a);
    var out := GenerateProof(w, prove, request, a).value.publicValues;
    forall lookup | SoundTrie(w.t, lookup)
      ensures AreStored(w.t, lookup, out.executionStateRoot, out.slots)
    {
      OutputsAreStored(w, request, a, out, lookup);
    }
  }

  lemma ProofIsOfOutputs(
    w: World, prove: Guest.ProofInputs -> Result<ProofData, string>, request: ProofRequest, a: Attempt)
    requires SoundProver(w, prove) && GenerateProof(w, prove, request, a).Ok?
    ensures AreOutputsOf(w, request, a, GenerateProof(w, prove, request, a).value.publicValues)
  {
    hide AssembleInputs, ConsensusInputs, Guest.Accepts, Guest.Outputs, Guest.Names;
    var inputs := AssembleInputs(w, request, a).value;
    assert prove(inputs).Ok?;
    Guest.OutputsNameAVerifiedHeader(w.x, w.t, inputs);
  }

  lemma OutputsAreStored(w: World, request: ProofRequest, a: Attempt, out: ProofOutputs, lookup: Lookup)
    requires AreOutputsOf(w, request, a, out) && SoundTrie(w.t, lookup)
    ensures AreStored(w.t, lookup, out.executionStateRoot, out.slots)
  {
    hide AssembleInputs, Guest.Accepts, Guest.Outputs, Guest.Names, SoundTrie, AreStored;
    var inputs := AssembleInputs(w, request, a).value;
    Guest.OutputsNameAVerifiedHeader(w.x, w.t, inputs);
    CommittedSlotsAreStored(w.t, lookup, out.executionStateRoot, inputs.contractStorage, out.slots);
  }

  // --- The light client behind the run loop ---

  // What the protocol reads of a light client header.
  function HeaderOf(h: LightClientHeader): Header {
    Header(h.beacon.slot, if h.execution.Some? then Some(h.execution.value.blockNumber) else None)
  }

  // The finality test of a request on that header.
  lemma HeaderIsTested(h: LightClientHeader, request: ProofRequest)
    ensures Finalized(HeaderOf(h), request) <==>
              && h.execution.Some? && h.execution.value.blockNumber >= request.blockNumber
              && h.beacon.slot > request.fromHead
  {
  }

  // The header that the run loop is given: none when every endpoint failed.
  method AdvanceLightClient(client: Client, sessions: seq<Session>, advance: bool)
    returns (advanced: Option<Header>, shouldAdvance: bool)
    modifies client
    ensures advanced.None? ==> client.store == old(client.store) && shouldAdvance == advance
    ensures advanced.Some? ==>
              && advanced.value == HeaderOf(client.store.finalizedHeader)
              && advanced.value.slot >= StoreSlot(old(client.store))
              && shouldAdvance == (advance || advanced.value.slot > StoreSlot(old(client.store)))
    ensures advanced.Some? <==>
              exists i :: 0 <= i < |sessions|
                && AdvanceOutcome(client.crypto, client.net, old(client.store), sessions[i]).Ok?
  {
    hide AdvanceOutcome;
    var before := StoreSlot(client.store);
    var ok := client.Advance(sessions);
    if !ok {
      return None, advance;
    }
    advanced := Some(HeaderOf(client.store.finalizedHeader));
    shouldAdvance := advance || StoreSlot(client.store) > before;
  }

  // A light client that never moves its store backwards, on one chain, gives the run loop nothing but
  // polls that the protocol allows.
  lemma {:induction false} AdvancesArePolls(c: Params, stores: seq<Store>, polls: seq<Poll>)
    requires |stores| == |polls| + 1
    requires forall i :: 0 <= i < |polls| ==>
               && Compare(stores[i + 1], stores[i]) != Less
               && (polls[i].advanced.None? ==> stores[i + 1] == stores[i])
               && (polls[i].advanced.Some? ==> polls[i].advanced.value == HeaderOf(stores[i + 1].finalizedHeader))
    requires forall i :: 0 <= i < |stores| ==> c.chain(HeaderOf(stores[i].finalizedHeader))
    ensures PollsOk(c, HeaderOf(stores[0].finalizedHeader), polls)
  {
    if polls != [] {
      AdvancesArePolls(c, stores[1..], polls[1..]);
      assert TipAfter(HeaderOf(stores[0].finalizedHeader), polls[0]) == HeaderOf(stores[1].finalizedHeader);
    }
  }

  // --- The run loop of the code ---

  // Whatever the other processes do, a worker whose code sees no need to advance the stored header is
  // right: its log, scheduled among the others after a run, extends that run.
  lemma IdleCodeIsUpToDate(c: Params, t: Trace, pid: Pid, v: View, log: seq<Turn>, v': View, schedule: seq<Slot>)
    requires NoCollision(c) && OneChain(c) && IsRun(c, t) && t.states != []
    requires var s := t.states[|t.states| - 1];
             && pid in s.procs && s.procs[pid] == v.proc && s.db == v.db && Current(v.proc, s.db)
             && |schedule| == |log| && Scheduled(c, s, pid, schedule, log)
    requires Path(c, v, log, v') && LockedRun(c, Continued(c, t, EventsOf(pid, schedule, log)))
    requires v'.proc.Worker? && !v'.proc.advance
    ensures Safety.AtLeast(v'.db.header, v'.proc.tip)
  {
    hide Path, Scheduled, Continued, EventsOf, Current;
    LegalCodeContinuesRuns(c, t, pid, v, log, v', schedule);
    var u := Continued(c, t, EventsOf(pid, schedule, log));
    Safety.IdleWorkersAreUpToDate(c, u, |u.states| - 1, pid);
  }

  // So is a service object, in whatever state its methods leave it: under H1, H2 and no id collision,
  // once Run is between two rounds with its flag false, the header it last saw stored is at least as
  // new as its light client's.
  lemma ServiceIsUpToDate(service: ProofService, t: Trace, pid: Pid, schedule: seq<Slot>)
    requires service.Valid() && service.view.proc.Worker? && !service.view.proc.advance
    requires NoCollision(service.c) && OneChain(service.c) && IsRun(service.c, t) && t.states != []
    requires var s, v, log := t.states[|t.states| - 1], service.start, service.redisStore.log;
             && pid in s.procs && s.procs[pid] == v.proc && s.db == v.db && Current(v.proc, s.db)
             && |schedule| == |log| && Scheduled(service.c, s, pid, schedule, log)
             && LockedRun(service.c, Continued(service.c, t, EventsOf(pid, schedule, log)))
    ensures Safety.AtLeast(service.redisStore.db.header, service.view.proc.tip)
  {
    hide Path, Scheduled, Continued, EventsOf, Current;
    IdleCodeIsUpToDate(service.c, t, pid, service.start, service.redisStore.log, service.view, schedule);
  }
}
