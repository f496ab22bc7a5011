/** Runs in which no handler crashes or meets a Redis fault (SEC errors, file errors, a full
    queue, expiring pointers and any trouble in requests are allowed): a task has at most one
    live entry, and every delivery finds its task QUEUED. */
module CleanRuns {
  import opened Wrappers
  import Identity
  import Submissions
  import opened Reports
  import opened Store
  import opened Handler
  import opened Request
  import opened System
  import Invariant
  import opened Waiting
  import opened NoLoss
  import opened Absorbing

  predicate UsesRedis(pc: Pc) {
    !pc.Resolve? && !pc.Fetch? && !pc.CheckExists? && !pc.Download? && !pc.Convert? && !pc.Write?
  }

  predicate CleanStep(s: State, step: Step) {
    && !step.WorkCrash?
    && (step.WorkStep? && step.pid in s.workers && UsesRedis(s.workers[step.pid].pc) ==> step.input.Ok?)
  }

  ghost predicate Clean(run: Run) {
    |run.steps| < |run.states| && forall i | 0 <= i < |run.steps| :: CleanStep(run.states[i], run.steps[i])
  }

  /** The persisted state of the task at each point of a clean handler, up to the point
      where it has recorded an outcome. */
  predicate PersistedFits(persisted: ReportState, pc: Pc) {
    if Done(pc) then true
    else if pc.SaveQueued? then persisted.Retrying?
    else if pc.Load? || pc.SaveProcessing? || pc.CheckDepth? || pc.Enqueue? || InRecovery(pc) then persisted.Queued?
    else persisted.Processing?
  }

  /** The in-memory state while the work is being done. */
  predicate LocalFits(pc: Pc) {
    && (!UsesRedis(pc) ==> pc.c.task.state.Processing?)
    && (pc.SaveAttempts? ==> pc.c.task.state.Queued?)
  }

  predicate Fits(persisted: ReportState, pc: Pc) { PersistedFits(persisted, pc) && LocalFits(pc) }

  predicate IsQueued(db: Db, t: TaskId) { t in db.tasks && db.tasks[t].state.Queued? }

  predicate QueuedEntry(db: Db, e: EntryId) { e in db.stream && IsQueued(db, db.stream[e]) }

  ghost predicate OneAnchor(s: State) {
    forall t, e, f :: Anchor(s, t, e) && Anchor(s, t, f) ==> e == f
  }

  ghost predicate WaitingQueued(s: State) {
    forall e | Waits(s, e) :: QueuedEntry(s.db, e)
  }

  predicate WorkerFits(db: Db, w: Worker) { w.tid in db.tasks && Fits(db.tasks[w.tid].state, w.pc) }

  ghost predicate HandlersFit(s: State) {
    forall p | p in s.workers :: WorkerFits(s.db, s.workers[p])
  }

  ghost predicate CleanInv(s: State) { OneAnchor(s) && WaitingQueued(s) && HandlersFit(s) }

  // ----- one handler move, locally ---------------------------------------------------------

  ghost predicate CleanMove(db: Db, w: Worker, m: Move<Pc>)
    requires w.tid in db.tasks
  {
    && (m.effect.SaveTask? ==> !Done(w.pc))
    && (m.next.Some? ==> Fits(StateAfter(db, w, m), m.next.value))
    && (m.next.Some? && Done(w.pc) ==> Done(m.next.value))
    && (m.next.None? && !w.pc.Del? ==> StateAfter(db, w, m).Queued? && !Done(w.pc))
    && (m.effect.AppendEntry? ==> m.next == Some(Ack) && StateAfter(db, w, m).Queued? && !Done(w.pc))
  }

  lemma FailuresFit(cfg: Config, c: Context)
    requires c.task.state.Processing?
    ensures Fits(Processing, FailPermanently(c)) && Fits(Processing, FailTransiently(cfg, c))
  {
  }

  lemma CompleteFits(cfg: Config, c: Context, job: Job)
    requires c.task.state.Processing?
    ensures Fits(Processing, Complete(cfg, c, job))
  {
    hide Identity.LogicalPath;
  }

  lemma FetchFits(cfg: Config, c: Context, cik: string, input: Input)
    requires c.task.state.Processing?
    ensures Fits(Processing, AdvanceFetch(cfg, c, cik, input))
  {
    hide Submissions.SelectLatest, FailTransiently, FailPermanently;
    FailuresFit(cfg, c);
  }

  lemma WriteFits(cfg: Config, pc: Pc, input: Input)
    requires pc.Write? && pc.c.task.state.Processing?
    ensures var m := AdvanceWrite(cfg, pc, input); !m.effect.SaveTask? && m.next.Some? && Fits(Processing, m.next.value)
  {
    hide PartName, FailTransiently, Complete;
    FailuresFit(cfg, pc.c);
    CompleteFits(cfg, pc.c, pc.job);
  }

  lemma ProcessingIsClean(cfg: Config, db: Db, w: Worker, input: Input)
    requires InProcessing(w.pc) && LocalOk(w.pc) && WorkerFits(db, w) && (UsesRedis(w.pc) ==> input.Ok?)
    ensures CleanMove(db, w, AdvanceProcessing(cfg, db, w.tid, w.pc, input))
  {
    hide Identity.LogicalPath, HasPdfHeader, JobPdf, AdvanceFetch, AdvanceWrite, FailTransiently, FailPermanently, Complete;
    if !UsesRedis(w.pc) {
      FailuresFit(cfg, w.pc.c);
      if w.pc.Fetch? {
        FetchFits(cfg, w.pc.c, w.pc.cik, input);
      }
      if w.pc.CheckExists? {
        CompleteFits(cfg, w.pc.c, w.pc.job);
      } else if w.pc.Write? {
        WriteFits(cfg, w.pc, input);
      }
    }
  }

  lemma WorkIsClean(cfg: Config, db: Db, w: Worker, input: Input)
    requires LocalOk(w.pc) && WorkerFits(db, w) && (UsesRedis(w.pc) ==> input.Ok?)
    ensures CleanMove(db, w, Advance(cfg, db, w.tid, w.entry, w.pc, input))
  {
    hide Identity.LogicalPath, AdvanceProcessing, FailTransiently, Identity.PendingKey, AdvancePublish;
    if InProcessing(w.pc) {
      ProcessingIsClean(cfg, db, w, input);
    }
  }

  // ----- one handler move, globally ------------------------------------------------------------

  /** A handler that is not done anchors its task. */
  lemma HandlerAnchors(s: State, p: Pid)
    requires WorkersOk(s) && p in s.workers && !Done(s.workers[p].pc)
    ensures Anchor(s, s.workers[p].tid, s.workers[p].entry)
  {
    assert WorkerOk(s, s.workers[p]);
  }

  lemma WaitingAnchors(s: State, e: EntryId)
    requires Waits(s, e)
    ensures Anchor(s, s.db.stream[e], e)
  {
  }

  /** A move makes no new anchor, except that appending one gives up the handler's own. */
  lemma AnchorsFrom(s: State, pid: Pid, m: Move<Pc>, t: TaskId, e: EntryId)
    requires StreamOk(s.db) && WorkersOk(s) && pid in s.workers && s.workers[pid].tid in s.db.tasks
    requires WorkShape(s.workers[pid], m) && CleanMove(s.db, s.workers[pid], m)
    requires Anchor(ApplyWork(s, pid, m), t, e)
    ensures Anchor(s, t, e) || (m.effect.AppendEntry? && e == s.db.nextEntry && t == s.workers[pid].tid)
    ensures m.effect.AppendEntry? ==> e != s.workers[pid].entry
  {
    hide LocalFits, PersistedFits, StateAfter, CleanMove, StreamOk, HandlersOk, WorkersOk, WorkShape, Anchor;
    if e == s.workers[pid].entry {
      OwnAnchor(s, pid, m, t);
    } else {
      OtherAnchor(s, pid, m, t, e);
    }
  }

  lemma OtherAnchor(s: State, pid: Pid, m: Move<Pc>, t: TaskId, e: EntryId)
    requires pid in s.workers && WorkShape(s.workers[pid], m) && Anchor(ApplyWork(s, pid, m), t, e)
    requires e != s.workers[pid].entry
    ensures Anchor(s, t, e) || (m.effect.AppendEntry? && e == s.db.nextEntry && t == s.workers[pid].tid)
  {
    var s' := ApplyWork(s, pid, m);
    forall p | p in s.workers && s.workers[p].entry == e ensures p in s'.workers && s'.workers[p] == s.workers[p] {
    }
  }

  lemma OwnAnchor(s: State, pid: Pid, m: Move<Pc>, t: TaskId)
    requires StreamOk(s.db) && WorkersOk(s) && pid in s.workers && s.workers[pid].tid in s.db.tasks
    requires WorkShape(s.workers[pid], m) && CleanMove(s.db, s.workers[pid], m)
    requires Anchor(ApplyWork(s, pid, m), t, s.workers[pid].entry)
    ensures Anchor(s, t, s.workers[pid].entry) && !m.effect.AppendEntry?
  {
    hide LocalFits, PersistedFits, StateAfter;
    var s', w := ApplyWork(s, pid, m), s.workers[pid];
    assert WorkerOk(s, w);
    if m.next.Some? {
      assert s'.workers[pid] == w.(pc := m.next.value);
    }
  }

  lemma WorkKeepsOneAnchor(s: State, pid: Pid, m: Move<Pc>)
    requires StreamOk(s.db) && WorkersOk(s) && pid in s.workers && s.workers[pid].tid in s.db.tasks
    requires WorkShape(s.workers[pid], m) && CleanMove(s.db, s.workers[pid], m) && OneAnchor(s)
    ensures OneAnchor(ApplyWork(s, pid, m))
  {
    hide Anchor, WorkShape, ApplyWork, StreamOk, HandlersOk, WorkersOk, Fits;
    var s', w := ApplyWork(s, pid, m), s.workers[pid];
    if m.effect.AppendEntry? {
      HandlerAnchors(s, pid);
    }
    forall t, e, f | Anchor(s', t, e) && Anchor(s', t, f) ensures e == f {
      AnchorsFrom(s, pid, m, t, e);
      AnchorsFrom(s, pid, m, t, f);
    }
  }

  lemma TaskAfter(s: State, pid: Pid, m: Move<Pc>, t: TaskId)
    requires pid in s.workers && WorkShape(s.workers[pid], m) && t in s.db.tasks && s.workers[pid].tid in s.db.tasks
    ensures var db' := ApplyWork(s, pid, m).db;
            t in db'.tasks
            && (t == s.workers[pid].tid ==> db'.tasks[t].state == StateAfter(s.db, s.workers[pid], m))
            && (t != s.workers[pid].tid || !m.effect.SaveTask? ==> db'.tasks[t] == s.db.tasks[t])
  {
    hide WorkShape, ApplyWork;
    Invariant.WorkOnTasks(s, pid, m);
  }

  lemma WorkKeepsWaitingQueued(s: State, pid: Pid, m: Move<Pc>, e: EntryId)
    requires LeasedInv(s) && CleanInv(s) && pid in s.workers && s.workers[pid].tid in s.db.tasks
    requires WorkShape(s.workers[pid], m) && CleanMove(s.db, s.workers[pid], m) && Waits(ApplyWork(s, pid, m), e)
    ensures QueuedEntry(ApplyWork(s, pid, m).db, e)
  {
    hide Anchor, WorkShape, ApplyWork, StreamOk, HandlersFit, Fits, StateAfter, TasksOk, RequestsOk, Waits;
    var s', w := ApplyWork(s, pid, m), s.workers[pid];
    WaitsAfterWork(s, pid, m, e);
    assert WorkerOk(s, w);
    if m.effect.AppendEntry? && e == s.db.nextEntry {
      AppendedTask(s, pid, m);
      TaskAfter(s, pid, m, w.tid);
    } else if Waits(s, e) {
      var t := s.db.stream[e];
      WaitingInStream(s, e);
      TaskAfter(s, pid, m, t);
      if m.effect.SaveTask? && t == w.tid {
        WaitingAnchors(s, e);
        HandlerAnchors(s, pid);
        WaitsIsFree(s, e, pid);
        assert false;
      }
    } else {
      TaskAfter(s, pid, m, w.tid);
    }
  }

  lemma WaitingInStream(s: State, e: EntryId)
    requires Waits(s, e) && WaitingQueued(s)
    ensures QueuedEntry(s.db, e)
  {
  }

  lemma AppendedTask(s: State, pid: Pid, m: Move<Pc>)
    requires StreamOk(s.db) && pid in s.workers && WorkShape(s.workers[pid], m) && m.effect.AppendEntry?
    ensures var db' := ApplyWork(s, pid, m).db; s.db.nextEntry in db'.stream && db'.stream[s.db.nextEntry] == s.workers[pid].tid
    ensures s.db.nextEntry !in s.db.stream
  {
  }

  lemma WorkKeepsFit(s: State, pid: Pid, m: Move<Pc>, p: Pid)
    requires LeasedInv(s) && CleanInv(s) && pid in s.workers && p in ApplyWork(s, pid, m).workers
    requires WorkShape(s.workers[pid], m) && s.workers[pid].tid in s.db.tasks && CleanMove(s.db, s.workers[pid], m)
    ensures WorkerFits(ApplyWork(s, pid, m).db, ApplyWork(s, pid, m).workers[p])
  {
    hide Anchor, WorkShape, ApplyEffect, StreamOk, LocalFits, StateAfter, TasksOk, RequestsOk, Waits, WaitingQueued;
    var w := s.workers[pid];
    TaskAfter(s, pid, m, w.tid);
    if p != pid {
      var other := s.workers[p];
      assert WorkerFits(s.db, other);
      TaskAfter(s, pid, m, other.tid);
      if m.effect.SaveTask? && other.tid == w.tid && !Done(other.pc) {
        HandlerAnchors(s, pid);
        HandlerAnchors(s, p);
        assert false;
      }
    }
  }

  lemma WorkStepKeepsClean(cfg: Config, s: State, pid: Pid, input: Input)
    requires LeasedInv(s) && CleanInv(s) && pid in s.workers && CleanStep(s, WorkStep(pid, input))
    ensures CleanInv(ApplyWork(s, pid, WorkMove(cfg, s, pid, input)))
  {
    hide Anchor, WorkShape, ApplyWork, StreamOk, HandlersOk, WorkersOk, RequestsOk, Fits, Advance, LocalOk, Waits, QueuedEntry,
         UsesRedis, CleanMove, WorkerFits, OneAnchor;
    var w, m := s.workers[pid], WorkMove(cfg, s, pid, input);
    var s' := ApplyWork(s, pid, m);
    assert LocalOk(w.pc) && Persisted(s.db, w.tid) && WorkerFits(s.db, w);
    Invariant.WorkFacts(cfg, s, pid, input);
    WorkIsClean(cfg, s.db, w, input);
    WorkKeepsOneAnchor(s, pid, m);
    forall e | Waits(s', e) ensures QueuedEntry(s'.db, e) {
      WorkKeepsWaitingQueued(s, pid, m, e);
    }
    forall p | p in s'.workers ensures WorkerFits(s'.db, s'.workers[p]) {
      WorkKeepsFit(s, pid, m, p);
    }
  }

  // ----- requests and deliveries ---------------------------------------------------------------

  /** A request's move: what it saves is nobody's yet, and what it appends is QUEUED. */
  lemma ApiAnchors(s: State, pid: Pid, m: Move<RequestPc>, t: TaskId, e: EntryId)
    requires StreamOk(s.db) && pid in s.requests && ApiShape(s.requests[pid], m)
    requires Anchor(ApplyApi(s, pid, m), t, e)
    ensures Anchor(s, t, e) || (m.effect.AppendEntry? && e == s.db.nextEntry && t == s.requests[pid].id)
  {
  }

  lemma NoAnchorYet(s: State, pid: Pid, e: EntryId)
    requires pid in s.requests && RequestOk(s, s.requests[pid])
    ensures !Anchor(s, s.requests[pid].id, e)
  {
  }

  lemma ApiKeepsOneAnchor(s: State, pid: Pid, m: Move<RequestPc>)
    requires StreamOk(s.db) && OneAnchor(s)
    requires pid in s.requests && RequestOk(s, s.requests[pid]) && ApiShape(s.requests[pid], m)
    ensures OneAnchor(ApplyApi(s, pid, m))
  {
    hide Anchor, ApiShape, ApplyApi, StreamOk, RequestOk;
    var s' := ApplyApi(s, pid, m);
    forall t, e, f | Anchor(s', t, e) && Anchor(s', t, f) ensures e == f {
      ApiAnchors(s, pid, m, t, e);
      ApiAnchors(s, pid, m, t, f);
      NoAnchorYet(s, pid, e);
      NoAnchorYet(s, pid, f);
    }
  }

  lemma ApiWaiting(s: State, pid: Pid, m: Move<RequestPc>, e: EntryId)
    requires StreamOk(s.db) && WaitingQueued(s)
    requires pid in s.requests && RequestOk(s, s.requests[pid]) && ApiShape(s.requests[pid], m)
    requires Waits(ApplyApi(s, pid, m), e)
    ensures QueuedEntry(ApplyApi(s, pid, m).db, e)
  {
    hide RequestKey;
    var r := s.requests[pid];
    if e in s.db.stream {
      assert Waits(s, e);
      assert s.db.stream[e] != r.id;
    }
  }

  lemma ApiKeepsClean(s: State, pid: Pid, m: Move<RequestPc>)
    requires StreamOk(s.db) && CleanInv(s)
    requires pid in s.requests && RequestOk(s, s.requests[pid]) && ApiShape(s.requests[pid], m)
    ensures CleanInv(ApplyApi(s, pid, m))
  {
    hide Anchor, ApiShape, ApplyApi, StreamOk, RequestOk, OneAnchor, Waits, QueuedEntry, WorkerFits;
    var s' := ApplyApi(s, pid, m);
    ApiKeepsOneAnchor(s, pid, m);
    forall e | Waits(s', e) ensures QueuedEntry(s'.db, e) {
      ApiWaiting(s, pid, m, e);
    }
    forall p | p in s'.workers ensures WorkerFits(s'.db, s'.workers[p]) {
      ApiKeepsFit(s, pid, m, p);
    }
  }

  lemma ApiKeepsFit(s: State, pid: Pid, m: Move<RequestPc>, p: Pid)
    requires HandlersFit(s) && pid in s.requests && RequestOk(s, s.requests[pid]) && ApiShape(s.requests[pid], m)
    requires p in ApplyApi(s, pid, m).workers
    ensures WorkerFits(ApplyApi(s, pid, m).db, ApplyApi(s, pid, m).workers[p])
  {
    hide Fits;
    assert s.workers[p].tid != s.requests[pid].id;
  }

  /** Handing a loose entry to a handler. */
  lemma StartKeepsClean(s: State, db: Db, e0: EntryId, lease: Lease)
    requires LeasedInv(s) && CleanInv(s) && Waits(s, e0)
    requires db == s.db.(lastDelivered := db.lastDelivered, pel := s.db.pel[e0 := lease])
    requires s.db.lastDelivered <= db.lastDelivered && e0 <= db.lastDelivered
    ensures CleanInv(StartWorker(s, db, e0))
  {
    hide StreamOk, HandlersOk, WorkersOk, TasksOk;
    WaitingInStream(s, e0);
    var s' := StartWorker(s, db, e0);
    Invariant.InvFacts(s);
    forall t, e, f | Anchor(s', t, e) && Anchor(s', t, f) ensures e == f {
      StartAnchors(s, db, e0, lease, t, e);
      StartAnchors(s, db, e0, lease, t, f);
    }
    forall e | Waits(s', e) ensures QueuedEntry(s'.db, e) {
      WaitsAfterStart(s, db, e0, lease, e);
    }
    assert WorkerFits(s'.db, s'.workers[s.nextPid]);
  }

  lemma StartAnchors(s: State, db: Db, e0: EntryId, lease: Lease, t: TaskId, e: EntryId)
    requires s.nextPid !in s.workers && Waits(s, e0)
    requires db == s.db.(lastDelivered := db.lastDelivered, pel := s.db.pel[e0 := lease])
    requires s.db.lastDelivered <= db.lastDelivered
    requires Anchor(StartWorker(s, db, e0), t, e)
    ensures Anchor(s, t, e)
  {
    if e == e0 {
      WaitingAnchors(s, e0);
    } else {
      var s' := StartWorker(s, db, e0);
      forall p | p in s.workers && s.workers[p].entry == e ensures s'.workers[p] == s.workers[p] {
      }
    }
  }

  lemma OtherKeepsClean(s: State, s': State)
    requires CleanInv(s) && s'.workers == s.workers
    requires s'.db.tasks == s.db.tasks && s'.db.stream == s.db.stream && s'.db.pel == s.db.pel
    requires s'.db.lastDelivered == s.db.lastDelivered
    ensures CleanInv(s')
  {
    hide Fits;
    forall t, e, f | Anchor(s', t, e) && Anchor(s', t, f) ensures e == f {
      assert Anchor(s, t, e) && Anchor(s, t, f);
    }
    forall e | Waits(s', e) ensures QueuedEntry(s'.db, e) {
      WaitsAfterOther(s, s', e);
    }
  }

  lemma StepKeepsClean(cfg: Config, s: State, step: Step)
    requires LeasedInv(s) && CleanInv(s) && Enabled(cfg, s, step) && Leased(s, step) && CleanStep(s, step)
    ensures CleanInv(Apply(cfg, s, step))
  {
    hide CleanInv, HandlersOk, WorkersOk, TasksOk, RequestsOk, StreamOk, WorkMove, AdvanceRequest, ApplyWork, ApplyApi, StartWorker;
    match step {
      case ApiStep(pid, input) =>
        Invariant.OwnRequestOk(s, pid);
        ApiHasShape(cfg, s.db, s.requests[pid], input);
        ApiKeepsClean(s, pid, ApiMove(cfg, s, pid, input));
      case DeliverEntry(e, consumer) =>
        UndeliveredWaits(s, e);
        StartKeepsClean(s, Deliver(s.db, e, consumer, s.now), e, Lease(consumer, s.now));
      case ClaimEntry(e, consumer) =>
        Invariant.InvFacts(s);
        StartKeepsClean(s, Claim(s.db, e, consumer, s.now), e, Lease(consumer, s.now));
      case WorkStep(pid, input) => WorkStepKeepsClean(cfg, s, pid, input);
      case WorkCrash(_) =>
      case _ => OtherKeepsClean(s, Apply(cfg, s, step));
    }
  }

  // ----- whole runs --------------------------------------------------------------------------------

  lemma {:induction false} RunClean(cfg: Config, run: Run, i: nat)
    requires IsRun(cfg, run) && LeasesOutlast(run) && Clean(run) && i < |run.states|
    ensures CleanInv(run.states[i])
  {
    hide Apply, Enabled, Inv, WorkersOk, Leased, CleanStep;
    if i > 0 {
      RunClean(cfg, run, i - 1);
      Invariant.RunLeased(cfg, run, i - 1);
      StepKeepsClean(cfg, run.states[i - 1], run.steps[i - 1]);
    }
  }

  /** Every delivery loads its task as QUEUED, so `transition(PROCESSING)` does not raise. */
  lemma DeliveriesFindQueued(cfg: Config, run: Run, i: nat, p: Pid)
    requires IsRun(cfg, run) && LeasesOutlast(run) && Clean(run) && i < |run.states|
    requires p in run.states[i].workers && run.states[i].workers[p].pc.Load?
    ensures var db, w := run.states[i].db, run.states[i].workers[p];
            w.tid in db.tasks && db.tasks[w.tid].state.Queued? && Begin(db.tasks[w.tid]).SaveProcessing?
  {
    hide IsRun, LeasesOutlast, Clean, OneAnchor, WaitingQueued, Identity.LogicalPath;
    RunClean(cfg, run, i);
    assert WorkerFits(run.states[i].db, run.states[i].workers[p]);
  }

  /** Apart from entries whose handler already has its outcome, a task has at most one entry,
      and one that waits to be delivered or claimed is that of a QUEUED task. */
  lemma OneLiveEntryPerTask(cfg: Config, run: Run, i: nat, t: TaskId, e: EntryId, f: EntryId)
    requires IsRun(cfg, run) && LeasesOutlast(run) && Clean(run) && i < |run.states|
    requires Anchor(run.states[i], t, e) && Anchor(run.states[i], t, f)
    ensures e == f
    ensures Waits(run.states[i], e) ==> IsQueued(run.states[i].db, t)
  {
    hide IsRun, LeasesOutlast, Clean, HandlersFit, IsQueued;
    RunClean(cfg, run, i);
  }
}
