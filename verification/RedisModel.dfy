// The shared key-value store, one pure function per Redis command that changes it.
// Key formatting is justified in module Keys: the families of keys below never collide.
module RedisModel {
  import opened Base
  import opened Primitives

  datatype Db = Db(
    header: Option<Header>,
    records: map<ProofId, RequestState>,
    globalLock: bool,
    genLocks: set<ProofId>)

  const EMPTY_DB := Db(None, map[], false, {})

  function Get(db: Db, id: ProofId): Option<RequestState> {
    if id in db.records then Some(db.records[id]) else None
  }

  function SetEx(db: Db, id: ProofId, st: RequestState): Db {
    db.(records := db.records[id := st])
  }

  // The queued SET commands of a transaction, applied in order.
  function Overlay(records: map<ProofId, RequestState>, updates: seq<(ProofId, RequestState)>)
    : map<ProofId, RequestState>
  {
    if updates == [] then records
    else
      var last := updates[|updates| - 1];
      Overlay(records, updates[..|updates| - 1])[last.0 := last.1]
  }

  function Multi(db: Db, header: Header, updates: seq<(ProofId, RequestState)>): Db {
    db.(header := Some(header), records := Overlay(db.records, updates))
  }

  function AcquireGlobal(db: Db): Db {
    db.(globalLock := true)
  }

  function ReleaseGlobal(db: Db): Db {
    db.(globalLock := false)
  }

  function AcquireGen(db: Db, id: ProofId): Db {
    db.(genLocks := db.genLocks + {id})
  }

  function ReleaseGen(db: Db, id: ProofId): Db {
    db.(genLocks := db.genLocks - {id})
  }

  function ExpireRecord(db: Db, id: ProofId): Db {
    db.(records := db.records - {id})
  }

  // MGET of a batch of record keys, keeping the records that have the wanted status.
  function MgetMatching(records: map<ProofId, RequestState>, ids: seq<ProofId>, status: Status)
    : seq<RequestState>
  {
    if ids == [] then []
    else
      MgetMatching(records, ids[..|ids| - 1], status) +
      var id := ids[|ids| - 1];
      if id in records && records[id].status == status then [records[id]] else []
  }

  lemma {:induction false} OverlayAt(
    records: map<ProofId, RequestState>, updates: seq<(ProofId, RequestState)>, id: ProofId)
    ensures id in Overlay(records, updates) <==>
            id in records || exists i :: 0 <= i < |updates| && updates[i].0 == id
    ensures id in Overlay(records, updates) ==>
              || ((forall i :: 0 <= i < |updates| ==> updates[i].0 != id)
                  && id in records && Overlay(records, updates)[id] == records[id])
              || (exists i :: 0 <= i < |updates| && updates[i] == (id, Overlay(records, updates)[id]))
  {
    if updates != [] {
      var n := |updates| - 1;
      OverlayAt(records, updates[..n], id);
      assert updates[n] == (updates[n].0, updates[n].1);
      if updates[n].0 != id {
        assert forall i :: 0 <= i < n ==> updates[..n][i] == updates[i];
      }
    }
  }

  lemma {:induction false} MgetMatchingExact(
    records: map<ProofId, RequestState>, ids: seq<ProofId>, status: Status)
    ensures forall st :: st in MgetMatching(records, ids, status) <==>
              exists i :: 0 <= i < |ids| && ids[i] in records
                          && records[ids[i]] == st && st.status == status
  {
    if ids != [] {
      var n := |ids| - 1;
      var head := ids[..n];
      MgetMatchingExact(records, head, status);
      forall st
        ensures st in MgetMatching(records, ids, status) <==>
                exists i :: 0 <= i < |ids| && ids[i] in records
                            && records[ids[i]] == st && st.status == status
      {
        if i :| 0 <= i < |ids| && ids[i] in records && records[ids[i]] == st && st.status == status {
          if i < n {
            assert head[i] == ids[i];
          }
        }
        if st in MgetMatching(records, head, status) {
          var i :| 0 <= i < n && head[i] in records && records[head[i]] == st && st.status == status;
          assert ids[i] == head[i];
        }
      }
    }
  }
}
