/** The retry budget (app/workers/worker.py): with at most one acting handler per task (`Serial`), a
    bound on the deliveries of a task. Any write may fail, with or without taking effect; only a handler
    that dies or fails to keep its books, before it has acknowledged its entry, costs more. */
module Budget {
  import opened Sets
  import opened Identity
  import Submissions
  import opened Store
  import opened Handler
  import opened Request
  import opened System
  import opened Invariant
  import opened Waiting
  import opened Serial

  /** Reading the task, the recovery path and the acknowledgement. */
  predicate InBookkeeping(pc: Pc) { pc.Load? || InRecovery(pc) || pc.Ack? }

  /** A handler dies, or an operation of its bookkeeping raises, before its entry is acknowledged. */
  predicate IsFault(s: State, step: Step) {
    || (step.WorkCrash? && step.pid in s.workers && !s.workers[step.pid].pc.Del?)
    || (step.WorkStep? && step.pid in s.workers && InBookkeeping(s.workers[step.pid].pc) && !step.input.Ok?)
  }

  /** A fault of a handler of this task. */
  predicate IsFaultOf(s: State, step: Step, t: TaskId) {
    IsFault(s, step) && s.workers[step.pid].tid == t
  }

  /** A failure has been counted and saved, and the task is on its way to a fresh entry. */
  predicate Reenqueueing(pc: Pc) { pc.SaveQueued? || pc.CheckDepth? || pc.Enqueue? }

  /** The attempts a handler is about to persist, against those persisted. */
  predicate CountFits(cfg: Config, persisted: nat, pc: Pc) {
    if pc.Load? || pc.Recover? || pc.Ack? || pc.Del? then true
    else if pc.SaveRetrying? || pc.SaveAttempts? then pc.c.task.attempts == persisted + 1 < cfg.maxAttempts
    else if pc.SaveForced? then pc.c.task.attempts == persisted + 1 >= cfg.maxAttempts
    else if pc.SaveFailed? then persisted <= pc.c.task.attempts <= persisted + 1
    else if Reenqueueing(pc) then pc.c.task.attempts == persisted < cfg.maxAttempts
    else pc.c.task.attempts == persisted
  }

  /** How many more entries the persisted attempts allow for. */
  function Margin(cfg: Config, persisted: nat, reenqueueing: bool): int {
    if reenqueueing then cfg.maxAttempts - persisted
    else if persisted < cfg.maxAttempts then cfg.maxAttempts - 1 - persisted
    else 0
  }

  function AttemptsAfter(db: Db, w: Worker, m: Move<Pc>): nat
    requires w.tid in db.tasks
  {
    if m.effect.SaveTask? then m.effect.task.attempts else db.tasks[w.tid].attempts
  }

  /** Persisting one more failure pays for one more entry; a fault leaves one entry unpaid. */
  predicate PaysItsWay(cfg: Config, db: Db, w: Worker, m: Move<Pc>, fault: bool)
    requires w.tid in db.tasks
  {
    var before, after := db.tasks[w.tid].attempts, AttemptsAfter(db, w, m);
    && (m.next.Some? ==> CountFits(cfg, after, m.next.value))
    && Margin(cfg, after, m.next.Some? && Reenqueueing(m.next.value))
       + (if m.effect.AppendEntry? then 1 else 0) + (if Abandons(w, m) then 1 else 0)
       <= Margin(cfg, before, Reenqueueing(w.pc)) + (if fault then 1 else 0)
  }

  // ----- one handler move, locally ------------------------------------------------------------

  lemma FailuresFit(cfg: Config, c: Context)
    ensures CountFits(cfg, c.task.attempts, FailPermanently(c)) && CountFits(cfg, c.task.attempts, FailTransiently(cfg, c))
  {
  }

  lemma CompleteFits(cfg: Config, c: Context, job: Job)
    ensures CountFits(cfg, c.task.attempts, Complete(cfg, c, job))
  {
    hide LogicalPath;
  }

  lemma FetchFits(cfg: Config, c: Context, cik: string, input: Input)
    ensures CountFits(cfg, c.task.attempts, AdvanceFetch(cfg, c, cik, input))
  {
    hide Submissions.SelectLatest, FailTransiently, FailPermanently;
    FailuresFit(cfg, c);
  }

  lemma WriteFits(cfg: Config, pc: Pc, input: Input)
    requires pc.Write?
    ensures var m := AdvanceWrite(cfg, pc, input);
            m.next.Some? && CountFits(cfg, pc.c.task.attempts, m.next.value) && !m.effect.SaveTask? && !m.effect.AppendEntry?
  {
    hide PartName, FailTransiently, Complete;
    FailuresFit(cfg, pc.c);
    CompleteFits(cfg, pc.c, pc.job);
  }

  lemma ProcessingPays(cfg: Config, db: Db, w: Worker, input: Input)
    requires InProcessing(w.pc) && w.tid in db.tasks && CountFits(cfg, db.tasks[w.tid].attempts, w.pc)
    ensures PaysItsWay(cfg, db, w, AdvanceProcessing(cfg, db, w.tid, w.pc, input), w.pc.Load? && !input.Ok?)
  {
    hide LogicalPath, HasPdfHeader, JobPdf, AdvanceFetch, AdvanceWrite, FailTransiently, FailPermanently, Complete;
    if !w.pc.Load? {
      FailuresFit(cfg, w.pc.c);
      if w.pc.Fetch? {
        FetchFits(cfg, w.pc.c, w.pc.cik, input);
      }
      if w.pc.CheckExists? {
        CompleteFits(cfg, w.pc.c, w.pc.job);
      } else if w.pc.Write? {
        WriteFits(cfg, w.pc, input);
      }
    }
  }

  /** Failing after the task is COMPLETED goes straight to recovery. */
  lemma CompletedFailureRecovers(cfg: Config, c: Context)
    requires c.task.state.Completed?
    ensures FailTransiently(cfg, c).Recover?
  {
  }

  lemma SuccessPays(cfg: Config, db: Db, w: Worker, input: Input)
    requires InSuccess(w.pc) && w.tid in db.tasks && StateMatches(w.pc)
    requires CountFits(cfg, db.tasks[w.tid].attempts, w.pc)
    ensures PaysItsWay(cfg, db, w, AdvanceSuccess(cfg, w.tid, w.pc, input), false)
  {
    hide FailTransiently, AdvancePublish, LogicalPath, PendingKey;
    CompletedFailureRecovers(cfg, w.pc.c);
  }

  lemma FailurePays(cfg: Config, db: Db, w: Worker, input: Input)
    requires InFailure(w.pc) && w.tid in db.tasks
    requires CountFits(cfg, db.tasks[w.tid].attempts, w.pc)
    ensures PaysItsWay(cfg, db, w, AdvanceFailure(cfg, db, w.tid, w.pc, input), false)
  {
    hide DepthAdmits, LogicalPath, PendingKey;
  }

  lemma RecoveryPays(cfg: Config, db: Db, w: Worker, input: Input)
    requires InRecovery(w.pc) && w.tid in db.tasks
    requires CountFits(cfg, db.tasks[w.tid].attempts, w.pc)
    ensures PaysItsWay(cfg, db, w, AdvanceRecovery(cfg, db, w.tid, w.pc, input), !input.Ok?)
  {
    hide LogicalPath, PendingKey;
  }

  lemma WorkPays(cfg: Config, db: Db, w: Worker, input: Input)
    requires w.tid in db.tasks && LocalOk(w.pc) && CountFits(cfg, db.tasks[w.tid].attempts, w.pc)
    ensures PaysItsWay(cfg, db, w, Advance(cfg, db, w.tid, w.entry, w.pc, input), InBookkeeping(w.pc) && !input.Ok?)
  {
    hide AdvanceProcessing, AdvanceSuccess, AdvanceFailure, AdvanceRecovery, PaysItsWay, CountFits;
    if InProcessing(w.pc) {
      ProcessingPays(cfg, db, w, input);
    } else if InSuccess(w.pc) {
      SuccessPays(cfg, db, w, input);
    } else if InFailure(w.pc) {
      FailurePays(cfg, db, w, input);
    } else if InRecovery(w.pc) {
      RecoveryPays(cfg, db, w, input);
    } else {
      AckPays(cfg, db, w, input);
    }
  }

  lemma AckPays(cfg: Config, db: Db, w: Worker, input: Input)
    requires w.tid in db.tasks && (w.pc.Ack? || w.pc.Del?)
    ensures PaysItsWay(cfg, db, w, Advance(cfg, db, w.tid, w.entry, w.pc, input), w.pc.Ack? && !input.Ok?)
  {
  }

  /** A handler that dies leaves one entry unpaid. */
  lemma CrashPays(cfg: Config, db: Db, w: Worker)
    requires w.tid in db.tasks && CountFits(cfg, db.tasks[w.tid].attempts, w.pc)
    ensures PaysItsWay(cfg, db, w, GONE, !w.pc.Del?) && WorkShape(w, GONE)
  {
  }

  // ----- the potential of a task ---------------------------------------------------------------

  /** The entries of a task that wait to be delivered or claimed. */
  ghost function WaitingOf(s: State, t: TaskId): set<EntryId> {
    set e | e in s.db.stream && s.db.stream[e] == t && Waits(s, e)
  }

  ghost predicate IsReenqueueing(s: State, t: TaskId) {
    exists p :: p in s.workers && s.workers[p].tid == t && Reenqueueing(s.workers[p].pc)
  }

  ghost predicate HasRequest(s: State, t: TaskId) {
    exists p :: p in s.requests && s.requests[p].id == t
  }

  function Budget(cfg: Config): int { if cfg.maxAttempts >= 1 then cfg.maxAttempts else 1 }

  /** How many more deliveries a task can have. */
  ghost function Potential(cfg: Config, s: State, t: TaskId): int {
    if t !in s.db.tasks || HasRequest(s, t) then Budget(cfg)
    else |WaitingOf(s, t)| + Margin(cfg, s.db.tasks[t].attempts, IsReenqueueing(s, t))
  }

  ghost predicate CountsFit(cfg: Config, s: State) {
    forall p | p in s.workers :: s.workers[p].tid in s.db.tasks && CountFits(cfg, s.db.tasks[s.workers[p].tid].attempts, s.workers[p].pc)
  }

  ghost predicate SerialCounts(cfg: Config, s: State) { OneHandlerPerTask(s) && CountsFit(cfg, s) }

  // ----- handler steps ------------------------------------------------------------------------------

  lemma TaskAfterWork(s: State, pid: Pid, m: Move<Pc>, t: TaskId)
    requires pid in s.workers && WorkShape(s.workers[pid], m) && t in s.db.tasks && s.workers[pid].tid in s.db.tasks
    ensures var db' := ApplyWork(s, pid, m).db;
            t in db'.tasks
            && db'.tasks[t].attempts == if t == s.workers[pid].tid then AttemptsAfter(s.db, s.workers[pid], m) else s.db.tasks[t].attempts
  {
    hide WorkShape, ApplyWork;
    WorkOnTasks(s, pid, m);
  }

  lemma WorkKeepsCounts(cfg: Config, s: State, pid: Pid, m: Move<Pc>, fault: bool)
    requires SerialCounts(cfg, s) && pid in s.workers && s.workers[pid].tid in s.db.tasks
    requires WorkShape(s.workers[pid], m) && PaysItsWay(cfg, s.db, s.workers[pid], m, fault)
    ensures SerialCounts(cfg, ApplyWork(s, pid, m))
  {
    hide CountFits, WorkShape, AttemptsAfter, Margin, ApplyEffect, OneHandlerPerTask;
    var s', w := ApplyWork(s, pid, m), s.workers[pid];
    WorkKeepsOneHandler(s, pid, m);
    forall p | p in s'.workers
      ensures s'.workers[p].tid in s'.db.tasks && CountFits(cfg, s'.db.tasks[s'.workers[p].tid].attempts, s'.workers[p].pc)
    {
      TaskAfterWork(s, pid, m, s.workers[p].tid);
      if p != pid && s.workers[p].tid == w.tid {
        SameTaskCounts(cfg, s, pid, m, p);
      }
    }
  }

  /** Of two handlers of one task at most one saves attempts, and the other does not mind. */
  lemma SameTaskCounts(cfg: Config, s: State, pid: Pid, m: Move<Pc>, p: Pid)
    requires SerialCounts(cfg, s) && pid in s.workers && p in s.workers && p != pid && s.workers[p].tid == s.workers[pid].tid
    requires WorkShape(s.workers[pid], m) && s.workers[pid].tid in s.db.tasks
    ensures CountFits(cfg, AttemptsAfter(s.db, s.workers[pid], m), s.workers[p].pc)
  {
    hide WorkShape;
    if !Acting(s.workers[pid].pc) {
      AcknowledgesOn(s.workers[pid], m);
    } else {
      assert !Acting(s.workers[p].pc);
    }
  }

  lemma WaitingOfAfterWork(s: State, pid: Pid, m: Move<Pc>, t: TaskId)
    requires LeasedInv(s) && pid in s.workers && WorkShape(s.workers[pid], m)
    ensures t != s.workers[pid].tid ==> WaitingOf(ApplyWork(s, pid, m), t) <= WaitingOf(s, t)
    ensures WaitingOf(ApplyWork(s, pid, m), s.workers[pid].tid)
            <= WaitingOf(s, s.workers[pid].tid)
               + (if m.effect.AppendEntry? then {s.db.nextEntry} else {})
               + (if Abandons(s.workers[pid], m) then {s.workers[pid].entry} else {})
  {
    hide TasksOk, RequestsOk, Waits, StreamOk, HandlersOk, WorkersOk, ApplyWork, Abandons;
    var s', w := ApplyWork(s, pid, m), s.workers[pid];
    forall e, u | e in WaitingOf(s', u)
      ensures || e in WaitingOf(s, u)
              || (u == w.tid && m.effect.AppendEntry? && e == s.db.nextEntry)
              || (u == w.tid && Abandons(w, m) && e == w.entry)
    {
      WaitsAfterWork(s, pid, m, e);
      WaiterIsOwn(s, pid, m, e);
    }
  }

  /** An entry the handler appends or gives up is its task's. */
  lemma WaiterIsOwn(s: State, pid: Pid, m: Move<Pc>, e: EntryId)
    requires StreamOk(s.db) && WorkersOk(s) && pid in s.workers && WorkShape(s.workers[pid], m)
    requires e in ApplyWork(s, pid, m).db.stream
    ensures m.effect.AppendEntry? && e == s.db.nextEntry ==> ApplyWork(s, pid, m).db.stream[e] == s.workers[pid].tid
    ensures e == s.workers[pid].entry ==> ApplyWork(s, pid, m).db.stream[e] == s.workers[pid].tid
    ensures Waits(s, e) ==> e in s.db.stream
    ensures e !in s.db.stream ==> m.effect.AppendEntry? && e == s.db.nextEntry
  {
    assert WorkerOk(s, s.workers[pid]);
  }

  lemma ReenqueueingAfterWork(s: State, pid: Pid, m: Move<Pc>, t: TaskId)
    requires OneHandlerPerTask(s) && pid in s.workers
    requires WorkShape(s.workers[pid], m)
    ensures Acting(s.workers[pid].pc) ==>
              && (IsReenqueueing(s, s.workers[pid].tid) <==> Reenqueueing(s.workers[pid].pc))
              && (IsReenqueueing(ApplyWork(s, pid, m), s.workers[pid].tid) <==> m.next.Some? && Reenqueueing(m.next.value))
    ensures t != s.workers[pid].tid || !Acting(s.workers[pid].pc) ==>
              (IsReenqueueing(ApplyWork(s, pid, m), t) <==> IsReenqueueing(s, t))
    ensures HasRequest(ApplyWork(s, pid, m), t) <==> HasRequest(s, t)
  {
    hide ApplyEffect, WorkShape;
    var s', w := ApplyWork(s, pid, m), s.workers[pid];
    if !Acting(w.pc) {
      AcknowledgesOn(w, m);
    }
    if m.next.Some? {
      assert s'.workers[pid].tid == w.tid;
    }
    if (t != w.tid || !Acting(w.pc)) && IsReenqueueing(s, t) {
      var p :| p in s.workers && s.workers[p].tid == t && Reenqueueing(s.workers[p].pc);
      assert s'.workers[p] == s.workers[p];
    }
  }

  /** A handler that is acknowledging saves and appends nothing, and goes on acknowledging. */
  lemma AcknowledgesOn(w: Worker, m: Move<Pc>)
    requires WorkShape(w, m) && !Acting(w.pc)
    ensures !m.effect.SaveTask? && !m.effect.AppendEntry? && (m.next.Some? ==> !Acting(m.next.value))
    ensures !Reenqueueing(w.pc)
  {
  }

  lemma WorkPotential(cfg: Config, s: State, pid: Pid, m: Move<Pc>, fault: bool, t: TaskId)
    requires LeasedInv(s) && SerialCounts(cfg, s) && pid in s.workers && s.workers[pid].tid in s.db.tasks
    requires WorkShape(s.workers[pid], m) && PaysItsWay(cfg, s.db, s.workers[pid], m, fault)
    ensures Potential(cfg, ApplyWork(s, pid, m), t) <= Potential(cfg, s, t) + if fault && t == s.workers[pid].tid then 1 else 0
  {
    hide Inv, WorkersOk, CountFits, WorkShape, AttemptsAfter, Margin, Waits, CountsFit, Reenqueueing, IsReenqueueing, OneHandlerPerTask, WaitingOf, Acting;
    var s', w := ApplyWork(s, pid, m), s.workers[pid];
    if t !in s.db.tasks {
      NoTaskNoMore(s, pid, m, t);
    } else if !HasRequest(s, t) {
      hide ApplyWork;
      TaskAfterWork(s, pid, m, t);
      WaitingOfAfterWork(s, pid, m, t);
      ReenqueueingAfterWork(s, pid, m, t);
      if !Acting(w.pc) {
        AcknowledgingAttempts(s, w, m);
      }
      if t != w.tid {
        SubsetSize(WaitingOf(s', t), WaitingOf(s, t));
      } else if m.effect.AppendEntry? && Abandons(w, m) {
        GrownSize(WaitingOf(s', t), WaitingOf(s, t) + {s.db.nextEntry}, w.entry);
      } else if m.effect.AppendEntry? {
        GrownSize(WaitingOf(s', t), WaitingOf(s, t), s.db.nextEntry);
      } else if Abandons(w, m) {
        GrownSize(WaitingOf(s', t), WaitingOf(s, t), w.entry);
      } else {
        SubsetSize(WaitingOf(s', t), WaitingOf(s, t));
      }
    }
  }

  lemma AcknowledgingAttempts(s: State, w: Worker, m: Move<Pc>)
    requires WorkShape(w, m) && !Acting(w.pc) && w.tid in s.db.tasks
    ensures AttemptsAfter(s.db, w, m) == s.db.tasks[w.tid].attempts && !m.effect.AppendEntry? && !Reenqueueing(w.pc)
    ensures m.next.Some? ==> !Reenqueueing(m.next.value)
  {
  }

  lemma NoTaskNoMore(s: State, pid: Pid, m: Move<Pc>, t: TaskId)
    requires pid in s.workers && WorkShape(s.workers[pid], m) && s.workers[pid].tid in s.db.tasks && t !in s.db.tasks
    ensures t !in ApplyWork(s, pid, m).db.tasks
  {
    hide WorkShape, ApplyWork;
    WorkOnTasks(s, pid, m);
  }

  lemma WorkStepSpends(cfg: Config, s: State, pid: Pid, input: Input, t: TaskId)
    requires LeasedInv(s) && SerialCounts(cfg, s) && pid in s.workers
    ensures var s' := ApplyWork(s, pid, WorkMove(cfg, s, pid, input));
            && SerialCounts(cfg, s')
            && Potential(cfg, s', t) <= Potential(cfg, s, t) + if IsFaultOf(s, WorkStep(pid, input), t) then 1 else 0
  {
    hide StreamOk, HandlersOk, WorkersOk, RequestsOk, Advance, WorkShape, LocalOk, ApplyWork, PaysItsWay, CountFits, InBookkeeping, OneHandlerPerTask;
    var w, m := s.workers[pid], WorkMove(cfg, s, pid, input);
    var fault := InBookkeeping(w.pc) && !input.Ok?;
    assert LocalOk(w.pc) && Persisted(s.db, w.tid);
    WorkFacts(cfg, s, pid, input);
    WorkPays(cfg, s.db, w, input);
    WorkKeepsCounts(cfg, s, pid, m, fault);
    WorkPotential(cfg, s, pid, m, fault, t);
  }

  lemma CrashSpends(cfg: Config, s: State, pid: Pid, t: TaskId)
    requires LeasedInv(s) && SerialCounts(cfg, s) && pid in s.workers
    ensures ApplyWork(s, pid, GONE) == s.(workers := s.workers - {pid})
    ensures var s' := ApplyWork(s, pid, GONE);
            && SerialCounts(cfg, s')
            && Potential(cfg, s', t) <= Potential(cfg, s, t) + if IsFaultOf(s, WorkCrash(pid), t) then 1 else 0
  {
    hide StreamOk, HandlersOk, WorkersOk, RequestsOk, WorkShape, LocalOk, PaysItsWay, CountFits, OneHandlerPerTask;
    var w := s.workers[pid];
    assert Persisted(s.db, w.tid);
    CrashPays(cfg, s.db, w);
    WorkKeepsCounts(cfg, s, pid, GONE, !w.pc.Del?);
    WorkPotential(cfg, s, pid, GONE, !w.pc.Del?, t);
  }

  // ----- requests, deliveries and the rest ---------------------------------------------------------

  lemma ApiKeepsCounts(cfg: Config, s: State, pid: Pid, m: Move<RequestPc>)
    requires SerialCounts(cfg, s) && pid in s.requests && RequestOk(s, s.requests[pid]) && ApiShape(s.requests[pid], m)
    ensures SerialCounts(cfg, ApplyApi(s, pid, m))
  {
    hide CountFits;
    var s' := ApplyApi(s, pid, m);
    forall p | p in s'.workers
      ensures s'.workers[p].tid in s'.db.tasks && CountFits(cfg, s'.db.tasks[s'.workers[p].tid].attempts, s'.workers[p].pc)
    {
      assert s.workers[p].tid != s.requests[pid].id;
    }
  }

  /** The task of a request that has just ended: at most one entry, and no attempt yet. */
  lemma EndedRequest(cfg: Config, s: State, pid: Pid, m: Move<RequestPc>)
    requires StreamOk(s.db) && RequestsOk(s) && pid in s.requests && ApiShape(s.requests[pid], m) && m.next.None?
    ensures Potential(cfg, ApplyApi(s, pid, m), s.requests[pid].id) <= Budget(cfg)
  {
    hide RequestKey;
    var s', t := ApplyApi(s, pid, m), s.requests[pid].id;
    assert RequestOk(s, s.requests[pid]);
    assert !IsReenqueueing(s', t);
    forall e | e in WaitingOf(s', t) ensures e == s.db.nextEntry {
      WaitsAfterApi(s, pid, m, e);
    }
    GrownSize(WaitingOf(s', t), {}, s.db.nextEntry);
    if t in s'.db.tasks && !HasRequest(s', t) {
      assert s'.db.tasks[t].attempts == 0;
    }
  }

  lemma OtherThanRequest(cfg: Config, s: State, pid: Pid, m: Move<RequestPc>, t: TaskId)
    requires StreamOk(s.db) && pid in s.requests && ApiShape(s.requests[pid], m) && t != s.requests[pid].id
    ensures Potential(cfg, ApplyApi(s, pid, m), t) <= Potential(cfg, s, t)
  {
    hide Margin, Reenqueueing, WaitingOf;
    var s' := ApplyApi(s, pid, m);
    assert IsReenqueueing(s', t) <==> IsReenqueueing(s, t);
    OtherRequests(s, pid, m, t);
    OtherWaiting(s, pid, m, t);
  }

  lemma OtherRequests(s: State, pid: Pid, m: Move<RequestPc>, t: TaskId)
    requires pid in s.requests && t != s.requests[pid].id
    ensures HasRequest(ApplyApi(s, pid, m), t) <==> HasRequest(s, t)
  {
    var s' := ApplyApi(s, pid, m);
    if HasRequest(s, t) {
      var p :| p in s.requests && s.requests[p].id == t;
      assert s'.requests[p] == s.requests[p];
    }
  }

  lemma OtherWaiting(s: State, pid: Pid, m: Move<RequestPc>, t: TaskId)
    requires StreamOk(s.db) && pid in s.requests && ApiShape(s.requests[pid], m) && t != s.requests[pid].id
    ensures |WaitingOf(ApplyApi(s, pid, m), t)| <= |WaitingOf(s, t)|
  {
    hide Waits;
    var s' := ApplyApi(s, pid, m);
    forall e | e in WaitingOf(s', t) ensures e in WaitingOf(s, t) {
      WaitsAfterApi(s, pid, m, e);
    }
    SubsetSize(WaitingOf(s', t), WaitingOf(s, t));
  }

  lemma ApiSpends(cfg: Config, s: State, pid: Pid, m: Move<RequestPc>, t: TaskId)
    requires LeasedInv(s) && SerialCounts(cfg, s) && pid in s.requests && ApiShape(s.requests[pid], m)
    ensures SerialCounts(cfg, ApplyApi(s, pid, m)) && Potential(cfg, ApplyApi(s, pid, m), t) <= Potential(cfg, s, t)
  {
    hide StreamOk, HandlersOk, WorkersOk, TasksOk, ApiShape, SerialCounts, WaitingOf, IsReenqueueing, Margin, ApplyEffect, RequestOk;
    OwnRequestOk(s, pid);
    ApiKeepsCounts(cfg, s, pid, m);
    if t != s.requests[pid].id {
      OtherThanRequest(cfg, s, pid, m, t);
    } else if m.next.None? {
      EndedRequest(cfg, s, pid, m);
    } else {
      assert ApplyApi(s, pid, m).requests[pid].id == t;
    }
  }

  lemma StartKeepsCounts(cfg: Config, s: State, db: Db, e0: EntryId)
    requires SerialCounts(cfg, s) && e0 in s.db.stream && s.db.stream[e0] in s.db.tasks && db.tasks == s.db.tasks
    requires forall p | p in s.workers && Acting(s.workers[p].pc) :: s.workers[p].tid != s.db.stream[e0]
    ensures SerialCounts(cfg, StartWorker(s, db, e0))
  {
  }

  lemma StartWaiting(s: State, db: Db, e0: EntryId, lease: Lease, t: TaskId)
    requires s.nextPid !in s.workers && e0 in s.db.stream && Waits(s, e0)
    requires db == s.db.(lastDelivered := db.lastDelivered, pel := s.db.pel[e0 := lease])
    requires s.db.lastDelivered <= db.lastDelivered && e0 <= db.lastDelivered
    ensures |WaitingOf(StartWorker(s, db, e0), t)| <= |WaitingOf(s, t)| - if s.db.stream[e0] == t then 1 else 0
  {
    hide Waits;
    var after, before := WaitingOf(StartWorker(s, db, e0), t), WaitingOf(s, t);
    forall e | e in after ensures e in before && e != e0 {
      WaitsAfterStart(s, db, e0, lease, e);
    }
    if s.db.stream[e0] == t {
      assert e0 in before;
      SubsetSize(after, before - {e0});
    } else {
      SubsetSize(after, before);
    }
  }

  lemma StartReenqueueing(s: State, db: Db, e0: EntryId, t: TaskId)
    requires e0 in s.db.stream && s.nextPid !in s.workers
    ensures IsReenqueueing(StartWorker(s, db, e0), t) <==> IsReenqueueing(s, t)
  {
    var s' := StartWorker(s, db, e0);
    if IsReenqueueing(s, t) {
      var p :| p in s.workers && s.workers[p].tid == t && Reenqueueing(s.workers[p].pc);
      assert s'.workers[p] == s.workers[p];
    }
  }

  /** The task of an entry is persisted, and no request has it. */
  lemma EntryTask(s: State, e: EntryId)
    requires Inv(s) && e in s.db.stream
    ensures s.db.stream[e] in s.db.tasks && !HasRequest(s, s.db.stream[e])
  {
    assert forall p | p in s.requests :: RequestOk(s, s.requests[p]);
  }

  lemma StartSpends(cfg: Config, s: State, db: Db, e0: EntryId, lease: Lease, t: TaskId)
    requires LeasedInv(s) && SerialCounts(cfg, s) && e0 in s.db.stream && Waits(s, e0)
    requires db == s.db.(lastDelivered := db.lastDelivered, pel := s.db.pel[e0 := lease])
    requires s.db.lastDelivered <= db.lastDelivered && e0 <= db.lastDelivered
    requires forall p | p in s.workers && Acting(s.workers[p].pc) :: s.workers[p].tid != s.db.stream[e0]
    ensures var s' := StartWorker(s, db, e0);
            && SerialCounts(cfg, s')
            && Potential(cfg, s', t) + (if s.db.stream[e0] == t then 1 else 0) <= Potential(cfg, s, t)
  {
    hide Inv, WorkersOk, Waits, WaitingOf, IsReenqueueing, Margin, SerialCounts;
    InvFacts(s);
    EntryTask(s, e0);
    StartKeepsCounts(cfg, s, db, e0);
    StartWaiting(s, db, e0, lease, t);
    StartReenqueueing(s, db, e0, t);
  }

  lemma ArriveSpends(cfg: Config, s: State, r: Request, t: TaskId)
    requires LeasedInv(s) && SerialCounts(cfg, s) && r.id == s.nextTask
    ensures var s' := s.(requests := s.requests[s.nextPid := r], nextPid := s.nextPid + 1, nextTask := s.nextTask + 1);
            SerialCounts(cfg, s') && Potential(cfg, s', t) <= Potential(cfg, s, t)
  {
    hide StreamOk, HandlersOk, WorkersOk, CountFits, Margin, RequestsOk;
    var s' := s.(requests := s.requests[s.nextPid := r], nextPid := s.nextPid + 1, nextTask := s.nextTask + 1);
    assert s.nextPid !in s.requests by { Invariant.InvFacts(s); }
    OtherSpends(cfg, s, s', t);
    if HasRequest(s, t) {
      var p :| p in s.requests && s.requests[p].id == t;
      assert s'.requests[p].id == t;
    }
  }

  /** The parts of the potential that depend on handlers and entries only. */
  lemma OtherSpends(cfg: Config, s: State, s': State, t: TaskId)
    requires SerialCounts(cfg, s) && LeavesEntries(s, s')
    ensures SerialCounts(cfg, s') && WaitingOf(s', t) == WaitingOf(s, t) && (IsReenqueueing(s', t) <==> IsReenqueueing(s, t))
  {
    hide CountFits, Waits, Reenqueueing;
    forall e ensures Waits(s', e) <==> Waits(s, e) {
      WaitsAfterOther(s, s', e);
    }
  }

  /** A delivery costs one, a fault of one of the task's handlers gives one back, and nothing
      else adds to the potential. */
  lemma StepSpends(cfg: Config, s: State, step: Step, t: TaskId)
    requires LeasedInv(s) && SerialCounts(cfg, s) && Enabled(cfg, s, step) && Leased(s, step) && SerialStep(s, step)
    ensures SerialCounts(cfg, Apply(cfg, s, step))
    ensures Potential(cfg, Apply(cfg, s, step), t) + (if HandsOutTask(s, step, t) then 1 else 0)
         <= Potential(cfg, s, t) + if IsFaultOf(s, step, t) then 1 else 0
  {
    hide Inv, WorkersOk, SerialCounts, WorkMove, AdvanceRequest, ApplyWork, ApplyApi, StartWorker, WaitingOf, Margin, IsReenqueueing;
    match step {
      case Arrive(identity, a) => ArriveSpends(cfg, s, Request(identity, a, s.nextTask, Lookup), t);
      case ApiStep(pid, input) =>
        ApiHasShape(cfg, s.db, s.requests[pid], input);
        ApiSpends(cfg, s, pid, ApiMove(cfg, s, pid, input), t);
      case ApiCrash(pid) =>
        CrashIsAnswer(s, pid);
        ApiSpends(cfg, s, pid, ANSWERED, t);
      case DeliverEntry(e, consumer) =>
        UndeliveredWaits(s, e);
        StartSpends(cfg, s, Deliver(s.db, e, consumer, s.now), e, Lease(consumer, s.now), t);
      case ClaimEntry(e, consumer) =>
        InvFacts(s);
        StartSpends(cfg, s, Claim(s.db, e, consumer, s.now), e, Lease(consumer, s.now), t);
      case WorkStep(pid, input) => WorkStepSpends(cfg, s, pid, input, t);
      case WorkCrash(pid) => CrashSpends(cfg, s, pid, t);
      case _ => OtherSpends(cfg, s, Apply(cfg, s, step), t);
    }
  }

  lemma CrashIsAnswer(s: State, pid: Pid)
    requires pid in s.requests
    ensures ApplyApi(s, pid, ANSWERED) == s.(requests := s.requests - {pid}) && ApiShape(s.requests[pid], ANSWERED)
  {
  }

  // ----- whole runs -------------------------------------------------------------------------------------

  /** Deliveries and claims of the task's entries in the first `n` steps. */
  ghost function Deliveries(run: Run, n: nat, t: TaskId): nat
    requires n <= |run.steps| && n < |run.states|
  {
    if n == 0 then 0
    else Deliveries(run, n - 1, t) + if HandsOutTask(run.states[n - 1], run.steps[n - 1], t) then 1 else 0
  }

  /** Faults of the task's handlers in the first `n` steps. */
  ghost function Faults(run: Run, n: nat, t: TaskId): nat
    requires n <= |run.steps| && n < |run.states|
  {
    if n == 0 then 0
    else Faults(run, n - 1, t) + if IsFaultOf(run.states[n - 1], run.steps[n - 1], t) then 1 else 0
  }

  lemma {:induction false} DeliveriesAndPotential(cfg: Config, run: Run, n: nat, t: TaskId)
    requires IsRun(cfg, run) && LeasesOutlast(run) && Serialised(run) && n < |run.states|
    ensures SerialCounts(cfg, run.states[n])
    ensures Deliveries(run, n, t) + Potential(cfg, run.states[n], t) <= Budget(cfg) + Faults(run, n, t)
  {
    hide Apply, Enabled, Inv, SerialCounts, SerialStep, HandsOutTask, IsFaultOf, Potential;
    if n > 0 {
      DeliveriesAndPotential(cfg, run, n - 1, t);
      RunLeased(cfg, run, n - 1);
      StepSpends(cfg, run.states[n - 1], run.steps[n - 1], t);
    } else {
      StartsWithBudget(cfg, t);
    }
  }

  lemma StartsWithBudget(cfg: Config, t: TaskId)
    ensures SerialCounts(cfg, INITIAL) && Potential(cfg, INITIAL, t) == Budget(cfg)
  {
  }

  lemma PotentialNonNegative(cfg: Config, s: State, t: TaskId)
    requires SerialCounts(cfg, s)
    ensures Potential(cfg, s, t) >= 0
  {
    if t in s.db.tasks && IsReenqueueing(s, t) {
      var p :| p in s.workers && s.workers[p].tid == t && Reenqueueing(s.workers[p].pc);
      assert CountFits(cfg, s.db.tasks[t].attempts, s.workers[p].pc);
    }
  }

  /** A task gets at most max(1, retry_max_attempts) deliveries, and one more for each fault of
      one of its own handlers. */
  lemma DeliveriesAreBounded(cfg: Config, run: Run, n: nat, t: TaskId)
    requires IsRun(cfg, run) && LeasesOutlast(run) && Serialised(run) && n < |run.states|
    ensures Deliveries(run, n, t) <= (if cfg.maxAttempts >= 1 then cfg.maxAttempts else 1) + Faults(run, n, t)
  {
    hide Apply, Enabled, Serialised, SerialCounts, Potential;
    DeliveriesAndPotential(cfg, run, n, t);
    PotentialNonNegative(cfg, run.states[n], t);
  }

  /** The task's handlers do not die, and its bookkeeping works, before an acknowledgement. */
  ghost predicate FaultFree(run: Run, t: TaskId) {
    |run.steps| < |run.states| && forall i | 0 <= i < |run.steps| :: !IsFaultOf(run.states[i], run.steps[i], t)
  }

  lemma {:induction false} NoFaults(run: Run, n: nat, t: TaskId)
    requires FaultFree(run, t) && n <= |run.steps|
    ensures Faults(run, n, t) == 0
  {
    hide IsFaultOf;
    if n > 0 {
      NoFaults(run, n - 1, t);
    }
  }

  /** Without such faults, at most max(1, retry_max_attempts). */
  lemma FaultFreeDeliveries(cfg: Config, run: Run, n: nat, t: TaskId)
    requires IsRun(cfg, run) && LeasesOutlast(run) && Serialised(run) && FaultFree(run, t) && n < |run.states|
    ensures Deliveries(run, n, t) <= if cfg.maxAttempts >= 1 then cfg.maxAttempts else 1
  {
    hide Apply, Enabled, Serialised, FaultFree;
    DeliveriesAreBounded(cfg, run, n, t);
    NoFaults(run, n, t);
  }
}
