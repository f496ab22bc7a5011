/** Entries that wait to be delivered or claimed, and what each step does to them. */
module Waiting {
  import opened Store
  import opened Handler
  import Request
  import opened System

  /** Undelivered, or pending and in the hands of no handler. */
  ghost predicate Waits(s: State, e: EntryId) {
    && e in s.db.stream
    && (e > s.db.lastDelivered || (e in s.db.pel && forall p | p in s.workers :: s.workers[p].entry != e))
  }

  lemma WaitsIsFree(s: State, e: EntryId, pid: Pid)
    requires Waits(s, e) && WorkersOk(s) && pid in s.workers
    ensures s.workers[pid].entry != e
  {
    assert WorkerOk(s, s.workers[pid]);
  }

  lemma UndeliveredWaits(s: State, e: EntryId)
    requires CanDeliver(s.db, e)
    ensures Waits(s, e)
  {
  }

  lemma StillHolds(s: State, pid: Pid, m: Move<Pc>)
    requires pid in s.workers && m.next.Some?
    ensures exists p :: p in ApplyWork(s, pid, m).workers && ApplyWork(s, pid, m).workers[p].entry == s.workers[pid].entry
  {
    assert ApplyWork(s, pid, m).workers[pid].entry == s.workers[pid].entry;
  }

  /** A handler gives up its entry without acknowledging it. */
  predicate Abandons(w: Worker, m: Move<Pc>) { m.next.None? && !w.pc.Del? }

  /** After a handler's move an entry waits only if it did before, or it is the one just
      appended, or the handler has given it up. */
  lemma WaitsAfterWork(s: State, pid: Pid, m: Move<Pc>, e: EntryId)
    requires WorkersOk(s) && pid in s.workers && WorkShape(s.workers[pid], m) && Waits(ApplyWork(s, pid, m), e)
    ensures || Waits(s, e) || (m.effect.AppendEntry? && e == s.db.nextEntry)
            || (Abandons(s.workers[pid], m) && e == s.workers[pid].entry)
    ensures e in ApplyWork(s, pid, m).db.stream && (e in s.db.stream && StreamOk(s.db) ==> ApplyWork(s, pid, m).db.stream[e] == s.db.stream[e])
  {
    var s', w := ApplyWork(s, pid, m), s.workers[pid];
    assert WorkerOk(s, w);
    if e == w.entry {
      if m.next.Some? {
        StillHolds(s, pid, m);
      }
    } else if e <= s.db.lastDelivered {
      forall p | p in s.workers ensures s.workers[p].entry != e {
        if p != pid {
          assert s'.workers[p] == s.workers[p];
        }
      }
    }
  }

  /** A request changes nothing about waiting, except for the entry it appends. */
  lemma WaitsAfterApi(s: State, pid: Pid, m: Move<Request.RequestPc>, e: EntryId)
    requires StreamOk(s.db) && pid in s.requests && ApiShape(s.requests[pid], m)
    ensures Waits(ApplyApi(s, pid, m), e) <==> Waits(s, e) || (m.effect.AppendEntry? && e == s.db.nextEntry)
    ensures e in s.db.stream ==> e in ApplyApi(s, pid, m).db.stream && ApplyApi(s, pid, m).db.stream[e] == s.db.stream[e]
  {
  }

  /** The entry handed to a handler no longer waits. */
  lemma WaitsAfterStart(s: State, db: Db, e0: EntryId, lease: Lease, e: EntryId)
    requires s.nextPid !in s.workers && e0 in s.db.stream
    requires db == s.db.(lastDelivered := db.lastDelivered, pel := s.db.pel[e0 := lease])
    requires s.db.lastDelivered <= db.lastDelivered && e0 <= db.lastDelivered
    requires Waits(StartWorker(s, db, e0), e)
    ensures Waits(s, e) && e != e0
  {
    var s' := StartWorker(s, db, e0);
    assert s'.workers[s.nextPid].entry == e0;
    if e <= db.lastDelivered {
      forall p | p in s.workers ensures s.workers[p].entry != e {
        assert s'.workers[p] == s.workers[p];
      }
    }
  }

  // An entry goes on waiting until it is handed to a handler.

  lemma WorkKeepsWaiting(s: State, pid: Pid, m: Move<Pc>, e: EntryId)
    requires StreamOk(s.db) && WorkersOk(s) && pid in s.workers && WorkShape(s.workers[pid], m) && Waits(s, e)
    ensures Waits(ApplyWork(s, pid, m), e) && ApplyWork(s, pid, m).db.stream[e] == s.db.stream[e]
  {
    WaitsIsFree(s, e, pid);
  }

  lemma StartKeepsWaiting(s: State, db: Db, e0: EntryId, lease: Lease, e: EntryId)
    requires s.nextPid !in s.workers && e0 in s.db.stream && e != e0 && Waits(s, e)
    requires db == s.db.(lastDelivered := db.lastDelivered, pel := s.db.pel[e0 := lease])
    requires forall f | f in s.db.stream && f > s.db.lastDelivered :: f > db.lastDelivered || f == e0
    ensures Waits(StartWorker(s, db, e0), e)
  {
  }

  /** Steps that leave handlers and entries alone. */
  predicate LeavesEntries(s: State, s': State) {
    && s'.workers == s.workers
    && s'.db.tasks == s.db.tasks && s'.db.stream == s.db.stream && s'.db.pel == s.db.pel
    && s'.db.lastDelivered == s.db.lastDelivered
  }

  lemma WaitsAfterOther(s: State, s': State, e: EntryId)
    requires LeavesEntries(s, s')
    ensures Waits(s', e) <==> Waits(s, e)
  {
  }
}
