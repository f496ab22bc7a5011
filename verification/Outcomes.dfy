/** How one delivery ends, and what deliveries cost the SEC, with at most one handler per task at a
    time (`Serial`): a handler without faults either acknowledges its entry, with the task terminal or
    enqueued again, or leaves it pending with the persisted attempts raised by one or two. */
module Outcomes {
  import opened Wrappers
  import opened Identity
  import Submissions
  import opened Reports
  import opened Store
  import opened Handler
  import Request
  import opened System
  import opened Invariant
  import opened Serial
  import opened Waiting
  import opened Budget
  import Retry

  /** The failure is counted, and the task is ready to be processed again. */
  predicate ToRetry(a: nat, persisted: ReportTask) { persisted.attempts == a + 1 && persisted.state.Queued? }

  /** The persisted task at each point of a handler that loaded it with `a` attempts. */
  predicate OutcomeFits(a: nat, persisted: ReportTask, pc: Pc) {
    match pc
    case Load => persisted.attempts == a
    case Recover(_) => a <= persisted.attempts <= a + 1
    case SaveForced(c) => a <= persisted.attempts <= a + 1 && c.task.attempts == persisted.attempts + 1
    case SaveAttempts(c) => a <= persisted.attempts <= a + 1 && c.task.attempts == persisted.attempts + 1
    case ClearForced(_) => Terminal(persisted.state)
    case ClearFailed(_) => Terminal(persisted.state) && a <= persisted.attempts <= a + 1
    case Publish(_) => Terminal(persisted.state)
    case ClearOriginal(_) => Terminal(persisted.state)
    case ClearCompleted(c) => persisted.state.Completed? && c.task.state.Completed? && persisted.attempts == a
    case SaveFailed(c) => persisted.attempts == a <= c.task.attempts <= a + 1
    case SaveRetrying(c) => persisted.attempts == a && c.task.attempts == a + 1
    case SaveQueued(c) => persisted.attempts == c.task.attempts == a + 1
    case CheckDepth(_) => ToRetry(a, persisted)
    case Enqueue(_) => ToRetry(a, persisted)
    case Ack => Terminal(persisted.state) || ToRetry(a, persisted)
    case Del => Terminal(persisted.state) || ToRetry(a, persisted)
    case _ => persisted.attempts == pc.c.task.attempts == a
  }

  function TaskAfter(db: Db, w: Worker, m: Move<Pc>): ReportTask
    requires w.tid in db.tasks
  {
    if m.effect.SaveTask? then m.effect.task else db.tasks[w.tid]
  }

  /** A move keeps to the outcome: it comes to the acknowledgement of a task that is not terminal
      only by a fresh entry, and gives the entry up only by counting one more attempt. */
  predicate KeepsOutcome(a: nat, db: Db, w: Worker, m: Move<Pc>)
    requires w.tid in db.tasks
  {
    && (m.next.Some? ==> OutcomeFits(a, TaskAfter(db, w, m), m.next.value))
    && (m.next == Some(Ack) ==> Terminal(TaskAfter(db, w, m).state) || m.effect.AppendEntry?)
    && (m.next.None? && !w.pc.Del? ==>
          w.pc.SaveAttempts? && a <= db.tasks[w.tid].attempts <= a + 1
          && TaskAfter(db, w, m).attempts == db.tasks[w.tid].attempts + 1)
  }

  // ----- one handler move, locally -----------------------------------------------------------

  lemma FailuresKeep(cfg: Config, c: Context, t: ReportTask)
    requires t.attempts == c.task.attempts
    ensures OutcomeFits(t.attempts, t, FailPermanently(c)) && OutcomeFits(t.attempts, t, FailTransiently(cfg, c))
  {
  }

  lemma CompleteKeeps(cfg: Config, c: Context, job: Job, t: ReportTask)
    requires t.attempts == c.task.attempts
    ensures OutcomeFits(t.attempts, t, Complete(cfg, c, job))
  {
    hide LogicalPath;
  }

  lemma FetchKeeps(cfg: Config, c: Context, cik: string, input: Input, t: ReportTask)
    requires t.attempts == c.task.attempts
    ensures OutcomeFits(t.attempts, t, AdvanceFetch(cfg, c, cik, input))
  {
    hide Submissions.SelectLatest, FailTransiently, FailPermanently;
    FailuresKeep(cfg, c, t);
  }

  lemma WriteKeeps(cfg: Config, pc: Pc, input: Input, t: ReportTask)
    requires pc.Write? && t.attempts == pc.c.task.attempts
    ensures var m := AdvanceWrite(cfg, pc, input);
            m.next.Some? && OutcomeFits(t.attempts, t, m.next.value) && !m.effect.SaveTask?
  {
    hide PartName, FailTransiently, Complete;
    FailuresKeep(cfg, pc.c, t);
    CompleteKeeps(cfg, pc.c, pc.job, t);
  }

  lemma ProcessingKeeps(cfg: Config, a: nat, db: Db, w: Worker, input: Input)
    requires InProcessing(w.pc) && w.tid in db.tasks && (w.pc.Load? ==> input.Ok?)
    requires OutcomeFits(a, db.tasks[w.tid], w.pc)
    ensures KeepsOutcome(a, db, w, AdvanceProcessing(cfg, db, w.tid, w.pc, input))
  {
    hide LogicalPath, HasPdfHeader, JobPdf, AdvanceFetch, AdvanceWrite, FailTransiently, FailPermanently, Complete;
    if !w.pc.Load? {
      var t := db.tasks[w.tid];
      FailuresKeep(cfg, w.pc.c, t);
      if w.pc.Fetch? {
        FetchKeeps(cfg, w.pc.c, w.pc.cik, input, t);
      }
      if w.pc.CheckExists? {
        CompleteKeeps(cfg, w.pc.c, w.pc.job, t);
      } else if w.pc.Write? {
        WriteKeeps(cfg, w.pc, input, t);
      }
    }
  }

  lemma SuccessKeeps(cfg: Config, a: nat, db: Db, w: Worker, input: Input)
    requires InSuccess(w.pc) && w.tid in db.tasks && StateMatches(w.pc) && OutcomeFits(a, db.tasks[w.tid], w.pc)
    ensures KeepsOutcome(a, db, w, AdvanceSuccess(cfg, w.tid, w.pc, input))
  {
    hide FailTransiently, AdvancePublish, LogicalPath, PendingKey;
    CompletedFailureRecovers(cfg, w.pc.c);
  }

  lemma FailureKeeps(cfg: Config, a: nat, db: Db, w: Worker, input: Input)
    requires InFailure(w.pc) && w.tid in db.tasks && StateMatches(w.pc) && OutcomeFits(a, db.tasks[w.tid], w.pc)
    ensures KeepsOutcome(a, db, w, AdvanceFailure(cfg, db, w.tid, w.pc, input))
  {
    hide DepthAdmits, LogicalPath, PendingKey;
  }

  lemma RecoveryKeeps(cfg: Config, a: nat, db: Db, w: Worker, input: Input)
    requires InRecovery(w.pc) && w.tid in db.tasks && StateMatches(w.pc) && input.Ok?
    requires OutcomeFits(a, db.tasks[w.tid], w.pc)
    ensures KeepsOutcome(a, db, w, AdvanceRecovery(cfg, db, w.tid, w.pc, input))
  {
    hide LogicalPath, PendingKey;
  }

  lemma AckKeeps(cfg: Config, a: nat, db: Db, w: Worker, input: Input)
    requires w.tid in db.tasks && (w.pc.Ack? || w.pc.Del?) && OutcomeFits(a, db.tasks[w.tid], w.pc)
    requires w.pc.Ack? ==> input.Ok?
    ensures KeepsOutcome(a, db, w, Advance(cfg, db, w.tid, w.entry, w.pc, input))
  {
  }

  lemma WorkKeeps(cfg: Config, a: nat, db: Db, w: Worker, input: Input)
    requires w.tid in db.tasks && LocalOk(w.pc) && (InBookkeeping(w.pc) ==> input.Ok?)
    requires OutcomeFits(a, db.tasks[w.tid], w.pc)
    ensures KeepsOutcome(a, db, w, Advance(cfg, db, w.tid, w.entry, w.pc, input))
  {
    hide AdvanceProcessing, AdvanceSuccess, AdvanceFailure, AdvanceRecovery, KeepsOutcome, OutcomeFits;
    if InProcessing(w.pc) {
      ProcessingKeeps(cfg, a, db, w, input);
    } else if InSuccess(w.pc) {
      SuccessKeeps(cfg, a, db, w, input);
    } else if InFailure(w.pc) {
      FailureKeeps(cfg, a, db, w, input);
    } else if InRecovery(w.pc) {
      RecoveryKeeps(cfg, a, db, w, input);
    } else {
      AckKeeps(cfg, a, db, w, input);
    }
  }

  // ----- one step, globally --------------------------------------------------------------------

  /** Another entry of the task waits to be delivered. */
  ghost predicate HasFresh(s: State, t: TaskId, e: EntryId) {
    exists f :: f != e && f in s.db.stream && s.db.stream[f] == t && Waits(s, f)
  }

  /** The handler is acknowledging a task that is not terminal. */
  predicate Retrying(s: State, p: Pid, t: TaskId) {
    p in s.workers && t in s.db.tasks && (s.workers[p].pc.Ack? || s.workers[p].pc.Del?) && !Terminal(s.db.tasks[t].state)
  }

  /** A live handler of the entry `e` and the task `t`, loaded with `a` attempts. */
  ghost predicate OnCourse(s: State, p: Pid, t: TaskId, e: EntryId, a: nat) {
    && p in s.workers && s.workers[p].tid == t && s.workers[p].entry == e
    && t in s.db.tasks && OutcomeFits(a, s.db.tasks[t], s.workers[p].pc)
    && (Retrying(s, p, t) ==> HasFresh(s, t, e))
  }

  /** The handler at `pc` has ended. Either its entry is acknowledged, and its task is terminal or
      ready to be tried again with a fresh entry; or its entry stays pending, and in recovery it
      has counted one more attempt than was persisted, which was at most one more than it loaded. */
  ghost predicate Ended(s: State, pc: Pc, s': State, t: TaskId, e: EntryId, a: nat) {
    && t in s.db.tasks && t in s'.db.tasks
    && if e in s'.db.pel then
         && e in s'.db.stream && pc.SaveAttempts?
         && a <= s.db.tasks[t].attempts <= a + 1 && s'.db.tasks[t].attempts == s.db.tasks[t].attempts + 1
       else Terminal(s'.db.tasks[t].state) || (ToRetry(a, s'.db.tasks[t]) && HasFresh(s', t, e))
  }

  /** The step leaves the handler and its task alone. */
  predicate SameFor(s: State, s': State, p: Pid, t: TaskId) {
    && p in s.workers && p in s'.workers && s'.workers[p] == s.workers[p]
    && t in s.db.tasks && t in s'.db.tasks && s'.db.tasks[t] == s.db.tasks[t]
  }

  lemma OtherMove(s: State, pid: Pid, m: Move<Pc>, p: Pid)
    requires Alone(s) && pid in s.workers && p in s.workers && p != pid && WorkShape(s.workers[pid], m)
    requires s.workers[p].tid in s.db.tasks
    ensures SameFor(s, ApplyWork(s, pid, m), p, s.workers[p].tid)
  {
    hide WorkShape, ApplyEffect;
    WorkOnTasks(s, pid, m);
  }

  lemma RequestMove(s: State, pid: Pid, m: Move<Request.RequestPc>, p: Pid)
    requires pid in s.requests && RequestOk(s, s.requests[pid]) && ApiShape(s.requests[pid], m)
    requires p in s.workers && s.workers[p].tid in s.db.tasks
    ensures SameFor(s, ApplyApi(s, pid, m), p, s.workers[p].tid)
  {
    assert s.workers[p].tid != s.requests[pid].id;
  }

  /** The handler's own operations, and its death. */
  predicate IsOwn(step: Step, p: Pid) { (step.WorkStep? || step.WorkCrash?) && step.pid == p }

  lemma StepElsewhere(cfg: Config, s: State, step: Step, p: Pid)
    requires LeasedInv(s) && Alone(s) && Enabled(cfg, s, step) && !IsOwn(step, p)
    requires p in s.workers && s.workers[p].tid in s.db.tasks
    ensures SameFor(s, Apply(cfg, s, step), p, s.workers[p].tid)
  {
    hide StreamOk, HandlersOk, WorkersOk, TasksOk, RequestsOk, Alone, WorkMove, Request.AdvanceRequest, ApplyWork, ApplyApi;
    InvFacts(s);
    match step {
      case ApiStep(pid, input) =>
        OwnRequestOk(s, pid);
        ApiHasShape(cfg, s.db, s.requests[pid], input);
        RequestMove(s, pid, ApiMove(cfg, s, pid, input), p);
      case WorkStep(pid, input) =>
        WorkFacts(cfg, s, pid, input);
        OtherMove(s, pid, WorkMove(cfg, s, pid, input), p);
      case _ =>
    }
  }

  // The fresh entry of a retried task.

  lemma WorkKeepsFresh(s: State, pid: Pid, m: Move<Pc>, t: TaskId, e: EntryId)
    requires LeasedInv(s) && pid in s.workers && WorkShape(s.workers[pid], m) && HasFresh(s, t, e)
    ensures HasFresh(ApplyWork(s, pid, m), t, e)
  {
    hide TasksOk, RequestsOk, Waits, WorkShape, ApplyWork, StreamOk, WorkersOk;
    var f :| f != e && f in s.db.stream && s.db.stream[f] == t && Waits(s, f);
    WorkKeepsWaiting(s, pid, m, f);
  }

  lemma ApiKeepsFresh(s: State, pid: Pid, m: Move<Request.RequestPc>, t: TaskId, e: EntryId)
    requires StreamOk(s.db) && pid in s.requests && ApiShape(s.requests[pid], m) && HasFresh(s, t, e)
    ensures HasFresh(ApplyApi(s, pid, m), t, e)
  {
    hide Waits, ApiShape, ApplyApi, StreamOk;
    var f :| f != e && f in s.db.stream && s.db.stream[f] == t && Waits(s, f);
    WaitsAfterApi(s, pid, m, f);
  }

  lemma StartKeepsFresh(s: State, db: Db, e0: EntryId, lease: Lease, t: TaskId, e: EntryId)
    requires s.nextPid !in s.workers && e0 in s.db.stream && s.db.stream[e0] != t && HasFresh(s, t, e)
    requires db == s.db.(lastDelivered := db.lastDelivered, pel := s.db.pel[e0 := lease])
    requires forall f | f in s.db.stream && f > s.db.lastDelivered :: f > db.lastDelivered || f == e0
    ensures HasFresh(StartWorker(s, db, e0), t, e)
  {
    hide Waits;
    var f :| f != e && f in s.db.stream && s.db.stream[f] == t && Waits(s, f);
    StartKeepsWaiting(s, db, e0, lease, f);
  }

  lemma OtherKeepsFresh(s: State, s': State, t: TaskId, e: EntryId)
    requires LeavesEntries(s, s') && HasFresh(s, t, e)
    ensures HasFresh(s', t, e)
  {
    hide Waits;
    var f :| f != e && f in s.db.stream && s.db.stream[f] == t && Waits(s, f);
    WaitsAfterOther(s, s', f);
  }

  lemma CrashShape(s: State, pid: Pid)
    requires pid in s.workers
    ensures WorkShape(s.workers[pid], GONE) && ApplyWork(s, pid, GONE) == s.(workers := s.workers - {pid})
  {
  }

  /** While the task has a live handler, none of its waiting entries is handed out. */
  lemma StepKeepsFresh(cfg: Config, s: State, step: Step, p: Pid, t: TaskId, e: EntryId)
    requires LeasedInv(s) && Enabled(cfg, s, step) && Leased(s, step) && StrictStep(s, step) && p in s.workers && s.workers[p].tid == t && HasFresh(s, t, e)
    ensures HasFresh(Apply(cfg, s, step), t, e)
  {
    hide StreamOk, HandlersOk, WorkersOk, TasksOk, RequestsOk, WorkMove, Request.AdvanceRequest, ApplyWork, ApplyApi, StartWorker, HasFresh;
    InvFacts(s);
    match step {
      case ApiStep(pid, input) =>
        ApiHasShape(cfg, s.db, s.requests[pid], input);
        ApiKeepsFresh(s, pid, ApiMove(cfg, s, pid, input), t, e);
      case WorkStep(pid, input) =>
        WorkFacts(cfg, s, pid, input);
        WorkKeepsFresh(s, pid, WorkMove(cfg, s, pid, input), t, e);
      case WorkCrash(pid) =>
        CrashShape(s, pid);
        WorkKeepsFresh(s, pid, GONE, t, e);
      case DeliverEntry(e0, consumer) =>
        StartKeepsFresh(s, Deliver(s.db, e0, consumer, s.now), e0, Lease(consumer, s.now), t, e);
      case ClaimEntry(e0, consumer) =>
        StartKeepsFresh(s, Claim(s.db, e0, consumer, s.now), e0, Lease(consumer, s.now), t, e);
      case _ => OtherKeepsFresh(s, Apply(cfg, s, step), t, e);
    }
  }

  /** The entry just appended waits. */
  lemma AppendIsFresh(s: State, pid: Pid, m: Move<Pc>)
    requires LeasedInv(s) && pid in s.workers && WorkShape(s.workers[pid], m) && m.effect.AppendEntry?
    ensures HasFresh(ApplyWork(s, pid, m), s.workers[pid].tid, s.workers[pid].entry)
  {
    hide TasksOk, RequestsOk;
    assert WorkerOk(s, s.workers[pid]);
    assert Waits(ApplyWork(s, pid, m), s.db.nextEntry);
  }

  // The handler's own moves.

  lemma OwnMove(s: State, p: Pid, m: Move<Pc>, a: nat)
    requires LeasedInv(s) && p in s.workers && WorkShape(s.workers[p], m)
    requires var w := s.workers[p]; OnCourse(s, p, w.tid, w.entry, a) && KeepsOutcome(a, s.db, w, m)
    ensures var w, s' := s.workers[p], ApplyWork(s, p, m);
            OnCourse(s', p, w.tid, w.entry, a) || (p !in s'.workers && Ended(s, w.pc, s', w.tid, w.entry, a))
  {
    hide StreamOk, TasksOk, RequestsOk, HasFresh, ApplyEffect, WorkShape, OutcomeFits;
    var w, s' := s.workers[p], ApplyWork(s, p, m);
    WorkOnTasks(s, p, m);
    OwnEntry(s, p, m);
    if m.effect.AppendEntry? {
      AppendIsFresh(s, p, m);
    } else if Retrying(s, p, w.tid) {
      WorkKeepsFresh(s, p, m, w.tid, w.entry);
    }
    AckPhase(s, p, m, a);
  }

  /** What a move does to the handler's own entry. */
  lemma OwnEntry(s: State, p: Pid, m: Move<Pc>)
    requires WorkersOk(s) && p in s.workers && WorkShape(s.workers[p], m)
    ensures var w, s' := s.workers[p], ApplyWork(s, p, m);
            && (w.pc.Del? ==> w.entry !in s'.db.pel)
            && (!w.pc.Ack? && !w.pc.Del? ==> w.entry in s'.db.pel && w.entry in s'.db.stream)
  {
    assert WorkerOk(s, s.workers[p]);
  }

  /** A move comes to XDEL only from XACK, and neither saves anything; an acknowledging handler
      has a terminal task or one to retry. */
  lemma AckPhase(s: State, p: Pid, m: Move<Pc>, a: nat)
    requires p in s.workers && WorkShape(s.workers[p], m) && OnCourse(s, p, s.workers[p].tid, s.workers[p].entry, a)
    ensures m.next == Some(Del) ==> s.workers[p].pc.Ack?
    ensures s.workers[p].pc.Ack? || s.workers[p].pc.Del? ==>
              && !m.effect.SaveTask?
              && (Terminal(s.db.tasks[s.workers[p].tid].state) || ToRetry(a, s.db.tasks[s.workers[p].tid]))
    ensures m.next.Some? ==> !(s.workers[p].pc.Ack? && m.next.value.Ack?) && !s.workers[p].pc.Del?
  {
    hide HasFresh;
  }

  /** Only the handler's own faults can take it off course. */
  predicate Untroubled(s: State, step: Step, p: Pid) {
    IsOwn(step, p) ==> !IsFault(s, step)
  }

  lemma OwnStepKeepsCourse(cfg: Config, s: State, step: Step, p: Pid, t: TaskId, e: EntryId, a: nat)
    requires LeasedInv(s) && Enabled(cfg, s, step) && Untroubled(s, step, p) && OnCourse(s, p, t, e, a) && IsOwn(step, p)
    ensures var s' := Apply(cfg, s, step);
            OnCourse(s', p, t, e, a) || (p !in s'.workers && Ended(s, s.workers[p].pc, s', t, e, a))
  {
    hide StreamOk, HandlersOk, WorkersOk, RequestsOk, Advance, WorkShape, LocalOk, ApplyWork, OutcomeFits, Ended, KeepsOutcome, HasFresh;
    var w := s.workers[p];
    assert LocalOk(w.pc);
    if step.WorkStep? {
      WorkFacts(cfg, s, p, step.input);
      WorkKeeps(cfg, a, s.db, w, step.input);
      OwnMove(s, p, WorkMove(cfg, s, p, step.input), a);
    } else {
      CrashShape(s, p);
      DeathInDel(a, s.db, w);
      OwnMove(s, p, GONE, a);
    }
  }

  lemma DeathInDel(a: nat, db: Db, w: Worker)
    requires w.tid in db.tasks && w.pc.Del?
    ensures KeepsOutcome(a, db, w, GONE)
  {
  }

  lemma StepKeepsCourse(cfg: Config, s: State, step: Step, p: Pid, t: TaskId, e: EntryId, a: nat)
    requires LeasedInv(s) && Alone(s) && Enabled(cfg, s, step) && Leased(s, step) && StrictStep(s, step) && Untroubled(s, step, p)
    requires OnCourse(s, p, t, e, a)
    ensures var s' := Apply(cfg, s, step);
            OnCourse(s', p, t, e, a) || (p in s.workers && p !in s'.workers && Ended(s, s.workers[p].pc, s', t, e, a))
  {
    hide Inv, WorkersOk, Leased, Apply, Enabled, StrictStep, OutcomeFits, Ended, Alone, Untroubled, HasFresh;
    if IsOwn(step, p) {
      OwnStepKeepsCourse(cfg, s, step, p, t, e, a);
    } else {
      StepElsewhere(cfg, s, step, p);
      if Retrying(s, p, t) {
        StepKeepsFresh(cfg, s, step, p, t, e);
      }
    }
  }

  // ----- whole runs ------------------------------------------------------------------------------

  /** From step `i`, which delivers entry `e` to it, handler `p` lives until state `j`. */
  ghost predicate Handles(run: Run, i: nat, j: nat, p: Pid, e: EntryId)
    requires |run.states| == |run.steps| + 1
  {
    && i < j < |run.states|
    && (run.steps[i].DeliverEntry? || run.steps[i].ClaimEntry?) && run.steps[i].entry == e
    && e in run.states[i].db.stream && p == run.states[i].nextPid
    && forall k | i < k <= j :: p in run.states[k].workers
  }

  /** No fault of handler `p` itself between these steps; the rest of the service may have any. */
  ghost predicate UntroubledFor(run: Run, i: nat, j: nat, p: Pid)
    requires |run.states| == |run.steps| + 1
  {
    forall k | i < k < j && k < |run.steps| :: Untroubled(run.states[k], run.steps[k], p)
  }

  lemma Delivered(cfg: Config, s: State, step: Step, e: EntryId)
    requires Enabled(cfg, s, step) && (step.DeliverEntry? || step.ClaimEntry?) && step.entry == e
    requires e in s.db.stream && s.db.stream[e] in s.db.tasks
    ensures OnCourse(Apply(cfg, s, step), s.nextPid, s.db.stream[e], e, s.db.tasks[s.db.stream[e]].attempts)
  {
  }

  lemma {:induction false} StaysOnCourse(cfg: Config, run: Run, i: nat, j: nat, p: Pid, e: EntryId, t: TaskId, a: nat)
    requires IsRun(cfg, run) && LeasesOutlast(run) && StrictlySerialised(run) && Handles(run, i, j, p, e) && UntroubledFor(run, i, j, p)
    requires run.states[i].db.stream[e] == t && t in run.states[i].db.tasks && run.states[i].db.tasks[t].attempts == a
    ensures OnCourse(run.states[j], p, t, e, a)
  {
    hide Apply, Enabled, Inv, WorkersOk, Leased, StrictStep, OnCourse, Ended, Alone, Untroubled;
    if i + 1 < j {
      StaysOnCourse(cfg, run, i, j - 1, p, e, t, a);
      RunLeased(cfg, run, j - 1);
      RunAlone(cfg, run, j - 1);
      StepKeepsCourse(cfg, run.states[j - 1], run.steps[j - 1], p, t, e, a);
    } else {
      Delivered(cfg, run.states[i], run.steps[i], e);
    }
  }

  /** A delivery whose handler meets no fault of its own ends in one of two ways. Its entry is
      acknowledged, and the task is terminal, or has one more attempt, is QUEUED and has a fresh
      entry waiting. Or its entry stays pending and the task has one more attempt than was
      persisted when the handler was recovering: two more than it loaded exactly when the
      failure itself had been persisted by then, and a later operation failed. */
  lemma DeliveryOutcome(cfg: Config, run: Run, i: nat, j: nat, p: Pid, e: EntryId)
    requires IsRun(cfg, run) && StrictlySerialised(run) && Handles(run, i, j, p, e) && UntroubledFor(run, i, j + 1, p)
    requires j < |run.steps| && p !in run.states[j + 1].workers
    ensures var t := run.states[i].db.stream[e];
            && t in run.states[i].db.tasks
            && Ended(run.states[j], run.states[j].workers[p].pc, run.states[j + 1], t, e, run.states[i].db.tasks[t].attempts)
  {
    hide Apply, Enabled, Inv, WorkersOk, Leased, StrictStep, Alone, OutcomeFits, Ended, Untroubled;
    StrictLeases(cfg, run);
    RunLeased(cfg, run, i);
    EntryTask(run.states[i], e);
    var t := run.states[i].db.stream[e];
    var a := run.states[i].db.tasks[t].attempts;
    StaysOnCourse(cfg, run, i, j, p, e, t, a);
    RunLeased(cfg, run, j);
    RunAlone(cfg, run, j);
    StepKeepsCourse(cfg, run.states[j], run.steps[j], p, t, e, a);
  }

  // ----- requests to the SEC ------------------------------------------------------------------------

  /** SEC calls the handler may still make: the submissions and the document. */
  function SecLeft(pc: Pc): nat {
    if pc.Load? || pc.SaveProcessing? || pc.Resolve? || pc.Fetch? then 2
    else if pc.CheckExists? || pc.Download? then 1
    else 0
  }

  /** This step is a `SecClient` call made for the task. */
  predicate CallsSec(s: State, step: Step, t: TaskId) {
    && (step.WorkStep? || step.WorkCrash?) && step.pid in s.workers && s.workers[step.pid].tid == t
    && (s.workers[step.pid].pc.Fetch? || s.workers[step.pid].pc.Download?)
  }

  ghost function SecCalls(run: Run, n: nat, t: TaskId): nat
    requires n <= |run.steps| && n < |run.states|
  {
    if n == 0 then 0
    else SecCalls(run, n - 1, t) + if CallsSec(run.states[n - 1], run.steps[n - 1], t) then 1 else 0
  }

  predicate Spends(pc: Pc, m: Move<Pc>) {
    m.next.Some? ==> SecLeft(m.next.value) + (if pc.Fetch? || pc.Download? then 1 else 0) <= SecLeft(pc)
  }

  lemma WriteSpends(cfg: Config, pc: Pc, input: Input)
    requires pc.Write?
    ensures Spends(pc, AdvanceWrite(cfg, pc, input))
  {
    hide PartName, PartData, FailTransiently, AfterPart;
  }

  lemma ProcessingSpends(cfg: Config, db: Db, tid: TaskId, pc: Pc, input: Input)
    requires InProcessing(pc)
    ensures Spends(pc, AdvanceProcessing(cfg, db, tid, pc, input))
  {
    hide LogicalPath, AdvanceWrite, Submissions.SelectLatest, Complete, FailTransiently, FailPermanently, HasPdfHeader;
    if pc.Write? {
      WriteSpends(cfg, pc, input);
    }
  }

  lemma SpendsSecLeft(cfg: Config, db: Db, w: Worker, input: Input)
    ensures Spends(w.pc, Advance(cfg, db, w.tid, w.entry, w.pc, input))
  {
    hide AdvanceProcessing, AdvanceSuccess, AdvanceFailure, AdvanceRecovery;
    if InProcessing(w.pc) {
      ProcessingSpends(cfg, db, w.tid, w.pc, input);
    }
  }

  /** What a task's handlers have called and may still call, within two calls a delivery. */
  ghost predicate WithinCalls(s: State, t: TaskId, calls: nat, deliveries: nat) {
    && calls <= 2 * deliveries
    && forall p | p in s.workers && s.workers[p].tid == t :: calls + SecLeft(s.workers[p].pc) <= 2 * deliveries
  }

  lemma StepWithinCalls(cfg: Config, s: State, step: Step, t: TaskId, calls: nat, deliveries: nat)
    requires Enabled(cfg, s, step) && SerialStep(s, step) && OneHandlerPerTask(s) && WithinCalls(s, t, calls, deliveries)
    ensures WithinCalls(Apply(cfg, s, step), t,
                        calls + if CallsSec(s, step, t) then 1 else 0, deliveries + if HandsOutTask(s, step, t) then 1 else 0)
  {
    hide Advance, Request.AdvanceRequest, ApplyEffect;
    if step.WorkStep? {
      SpendsSecLeft(cfg, s.db, s.workers[step.pid], step.input);
    }
  }

  lemma {:induction false} CallsWithinDeliveries(cfg: Config, run: Run, n: nat, t: TaskId)
    requires IsRun(cfg, run) && Serialised(run) && n < |run.states|
    ensures WithinCalls(run.states[n], t, SecCalls(run, n, t), Deliveries(run, n, t))
  {
    hide Apply, Enabled, WithinCalls, SerialStep, CallsSec, HandsOutTask, Inv;
    if n > 0 {
      CallsWithinDeliveries(cfg, run, n - 1, t);
      RunOneHandler(cfg, run, n - 1);
      StepWithinCalls(cfg, run.states[n - 1], run.steps[n - 1], t, SecCalls(run, n - 1, t), Deliveries(run, n - 1, t));
    } else {
      NoCallsYet(t);
    }
  }

  lemma NoCallsYet(t: TaskId)
    ensures WithinCalls(INITIAL, t, 0, 0)
  {
  }

  /** HTTP attempts for the task in the first `n` steps, if the SEC answers the attempts of
      the call in step `i` with `answers[i]`. */
  ghost function HttpAttempts(run: Run, n: nat, t: TaskId, p: Retry.RetryPolicy, answers: seq<seq<Retry.Answer<Bytes>>>): nat
    requires n <= |run.steps| && n < |run.states| && n <= |answers|
  {
    if n == 0 then 0
    else HttpAttempts(run, n - 1, t, p, answers)
         + if CallsSec(run.states[n - 1], run.steps[n - 1], t) then p.Attempts(answers[n - 1], 0) else 0
  }

  lemma {:induction false} AttemptsWithinCalls(run: Run, n: nat, t: TaskId, p: Retry.RetryPolicy, answers: seq<seq<Retry.Answer<Bytes>>>)
    requires n <= |run.steps| && n < |run.states| && n <= |answers| && p.maxAttempts >= 0
    ensures HttpAttempts(run, n, t, p, answers) <= p.maxAttempts * SecCalls(run, n, t)
  {
    hide CallsSec;
    if n > 0 {
      AttemptsWithinCalls(run, n - 1, t, p, answers);
      var a, b := p.maxAttempts, SecCalls(run, n - 1, t);
      assert a * (b + 1) == a * b + a;
    }
  }

  lemma TwiceSquare(n: nat, calls: nat, deliveries: nat, faults: nat)
    requires calls <= 2 * deliveries && deliveries <= n + faults
    ensures n * calls <= 2 * n * (n + faults)
  {
    assert n * calls <= n * (2 * (n + faults));
  }

  /** With the same limit n >= 1 on the attempts of a task and of one request, a task makes at
      most 2 n (n + f) HTTP attempts, where f counts the faults of its own handlers, whatever the
      SEC answers. */
  lemma AttemptsAreBounded(cfg: Config, run: Run, n: nat, t: TaskId, p: Retry.RetryPolicy, answers: seq<seq<Retry.Answer<Bytes>>>)
    requires IsRun(cfg, run) && LeasesOutlast(run) && Serialised(run) && n < |run.states| && n <= |answers|
    requires p.maxAttempts == cfg.maxAttempts >= 1
    ensures HttpAttempts(run, n, t, p, answers) <= 2 * cfg.maxAttempts * (cfg.maxAttempts + Faults(run, n, t))
  {
    hide Apply, Enabled, Serialised;
    DeliveriesAreBounded(cfg, run, n, t);
    CallsWithinDeliveries(cfg, run, n, t);
    AttemptsWithinCalls(run, n, t, p, answers);
    TwiceSquare(cfg.maxAttempts, SecCalls(run, n, t), Deliveries(run, n, t), Faults(run, n, t));
  }

  /** Without such faults, at most 2 n^2. */
  lemma FaultFreeAttempts(cfg: Config, run: Run, n: nat, t: TaskId, p: Retry.RetryPolicy, answers: seq<seq<Retry.Answer<Bytes>>>)
    requires IsRun(cfg, run) && LeasesOutlast(run) && Serialised(run) && FaultFree(run, t) && n < |run.states| && n <= |answers|
    requires p.maxAttempts == cfg.maxAttempts >= 1
    ensures HttpAttempts(run, n, t, p, answers) <= 2 * cfg.maxAttempts * cfg.maxAttempts
  {
    hide Apply, Enabled, Serialised, FaultFree;
    AttemptsAreBounded(cfg, run, n, t, p, answers);
    NoFaults(run, n, t);
  }
}
