/** The pending pointers of a completed report, over whole runs (app/workers/worker.py, app/reports/repository.py
    `transition`): they are removed, also the one a request for the latest filing was registered under, so the
    report can be asked for again. */
module Pointers {
  import opened Wrappers
  import opened Identity
  import opened Reports
  import opened Store
  import opened Handler
  import opened Request
  import opened System
  import Invariant
  import Failures

  /** Operation `k` of the run is one of handler `p`, and removes this pointer. */
  ghost predicate Drops(cfg: Config, run: Run, k: nat, p: Pid, key: string) {
    && k < |run.steps| && k < |run.states| && run.steps[k].WorkStep? && run.steps[k].pid == p && p in run.states[k].workers
    && WorkMove(cfg, run.states[k], p, run.steps[k].input).effect == DropPending(key)
  }

  ghost predicate Dropped(cfg: Config, run: Run, n: nat, p: Pid, key: string) {
    exists k: nat :: k < n && Drops(cfg, run, k, p, key)
  }

  lemma DroppedLater(cfg: Config, run: Run, n: nat, p: Pid)
    ensures forall key | Dropped(cfg, run, n, p, key) :: Dropped(cfg, run, n + 1, p, key)
  {
    hide Drops;
  }

  /** A removed pointer is gone right after. */
  lemma DropsRemove(cfg: Config, run: Run, k: nat, p: Pid, key: string)
    requires IsRun(cfg, run) && Drops(cfg, run, k, p, key)
    ensures key !in run.states[k + 1].db.pending
  {
    hide Advance, Enabled;
    assert Enabled(cfg, run.states[k], run.steps[k]) && run.states[k + 1] == Apply(cfg, run.states[k], run.steps[k]);
  }

  /** The pointer of a report and policy. */
  function PointerOf(i: ReportIdentity, policy: bool): string { PendingKey(LogicalPath(i), policy) }

  /** Recording and publishing the completion meets no error. */
  predicate Smooth(pc: Pc, input: Input) { InSuccess(pc) ==> input.Ok? }

  // ----- one move ----------------------------------------------------------------------------------------

  /** What the handler holds of the record it loaded: its logical path and its policy. */
  ghost predicate Remembers(pc: Pc, r: ReportTask) {
    (InProcessing(pc) && !pc.Load?) || InSuccess(pc) || InFailure(pc) || pc.Recover? ==>
      pc.c.original == LogicalPath(r.identity) && pc.c.task.includeAmended == r.includeAmended
  }

  predicate Completing(pc: Pc) { pc.SaveCompleted? || pc.ClearCompleted? || pc.Publish? }

  /** Where a move of a handler leads that works on the record `r`. */
  ghost predicate Proceeds(pc: Pc, r: ReportTask, m: Move<Pc>) {
    m.next.Some? ==>
      var next := m.next.value;
      && Remembers(next, r) && !next.Load?
      && (Completing(next) ==> next.c.task.filing.Some? && next.c.task.artifactPath.Some?)
      && (next.ClearCompleted? ==> pc.SaveCompleted? && next.c == pc.c)
      && (next.Publish? ==> pc.ClearCompleted? && next.c == pc.c && m.effect == DropPending(PointerOf(next.c.task.identity, r.includeAmended)))
      && (next.ClearOriginal? ==> pc.Publish? && next.c == pc.c)
      && (pc.SaveCompleted? ==> next.ClearCompleted?)
      && (pc.ClearCompleted? ==> next.Publish?)
      && (pc.Publish? ==> next.ClearOriginal? || (next.Ack? && LogicalPath(pc.c.task.identity) == LogicalPath(r.identity)))
      && (pc.ClearOriginal? ==> next.Ack? && m.effect == DropPending(PointerOf(r.identity, r.includeAmended)))
  }

  lemma FailuresRemember(cfg: Config, c: Context, r: ReportTask)
    requires c.original == LogicalPath(r.identity) && c.task.includeAmended == r.includeAmended
    ensures Remembers(FailTransiently(cfg, c), r) && !InSuccess(FailTransiently(cfg, c)) && !FailTransiently(cfg, c).Load?
    ensures Remembers(FailPermanently(c), r) && !InSuccess(FailPermanently(c)) && !FailPermanently(c).Load?
  {
    hide LogicalPath;
  }

  lemma CompleteRemembers(cfg: Config, c: Context, job: Job, r: ReportTask)
    requires c.original == LogicalPath(r.identity) && c.task.includeAmended == r.includeAmended
    ensures var next := Complete(cfg, c, job);
            && Remembers(next, r) && !next.Load? && (InSuccess(next) ==> next.SaveCompleted?)
            && (next.SaveCompleted? ==> next.c.task.filing.Some? && next.c.task.artifactPath.Some?)
  {
    hide LogicalPath, FailTransiently;
    FailuresRemember(cfg, c.(task := c.task.(identity := job.identity)), r);
  }

  lemma ProcessingProceeds(cfg: Config, db: Db, w: Worker, input: Input, r: ReportTask)
    requires InProcessing(w.pc) && Remembers(w.pc, r)
    requires w.pc.Load? ==> w.tid in db.tasks && db.tasks[w.tid] == r
    ensures Proceeds(w.pc, r, AdvanceProcessing(cfg, db, w.tid, w.pc, input))
  {
    hide LogicalPath, HasPdfHeader, JobPdf, AdvanceWrite, FailTransiently, FailPermanently, Complete, AdvanceFetch, AdvanceConvert, Begin;
    if w.pc.Write? {
      WriteProceeds(cfg, w.pc, input, r);
    } else if w.pc.Fetch? || w.pc.Convert? {
      AnswersProceed(cfg, w.pc, input, r);
    } else if w.pc.Load? || w.pc.SaveProcessing? || w.pc.Resolve? {
      StartProceeds(cfg, db, w, input, r);
    } else {
      FailuresRemember(cfg, w.pc.c, r);
      if w.pc.CheckExists? {
        CompleteRemembers(cfg, w.pc.c, w.pc.job, r);
      }
    }
  }

  lemma StartProceeds(cfg: Config, db: Db, w: Worker, input: Input, r: ReportTask)
    requires (w.pc.Load? || w.pc.SaveProcessing? || w.pc.Resolve?) && Remembers(w.pc, r)
    requires w.pc.Load? ==> w.tid in db.tasks && db.tasks[w.tid] == r
    ensures Proceeds(w.pc, r, AdvanceProcessing(cfg, db, w.tid, w.pc, input))
  {
    hide LogicalPath, FailPermanently;
    if w.pc.Resolve? {
      FailuresRemember(cfg, w.pc.c, r);
    }
  }

  lemma AnswersProceed(cfg: Config, pc: Pc, input: Input, r: ReportTask)
    requires Remembers(pc, r)
    ensures pc.Fetch? ==> Proceeds(pc, r, Go(AdvanceFetch(cfg, pc.c, pc.cik, input)))
    ensures pc.Convert? ==> Proceeds(pc, r, Go(AdvanceConvert(cfg, pc.c, pc.job, pc.source, input)))
  {
    hide LogicalPath, FailTransiently, FailPermanently, HasPdfHeader;
    if pc.Fetch? || pc.Convert? {
      FailuresRemember(cfg, pc.c, r);
    }
  }

  lemma WriteProceeds(cfg: Config, pc: Pc, input: Input, r: ReportTask)
    requires pc.Write? && Remembers(pc, r)
    ensures Proceeds(pc, r, AdvanceWrite(cfg, pc, input))
  {
    hide LogicalPath, PartName, PartData, FailTransiently, Complete;
    FailuresRemember(cfg, pc.c, r);
    CompleteRemembers(cfg, pc.c, pc.job, r);
  }

  lemma SuccessProceeds(cfg: Config, w: Worker, input: Input, r: ReportTask)
    requires InSuccess(w.pc) && Remembers(w.pc, r) && input.Ok?
    requires Completing(w.pc) ==> w.pc.c.task.filing.Some? && w.pc.c.task.artifactPath.Some?
    ensures Proceeds(w.pc, r, AdvanceSuccess(cfg, w.tid, w.pc, input))
  {
    hide LogicalPath, PendingKey, LogicalKey;
  }

  lemma WorkProceeds(cfg: Config, db: Db, w: Worker, input: Input, r: ReportTask)
    requires Remembers(w.pc, r) && Smooth(w.pc, input)
    requires Completing(w.pc) ==> w.pc.c.task.filing.Some? && w.pc.c.task.artifactPath.Some?
    requires w.pc.Load? ==> w.tid in db.tasks && db.tasks[w.tid] == r
    ensures Proceeds(w.pc, r, Advance(cfg, db, w.tid, w.entry, w.pc, input))
  {
    hide LogicalPath, PendingKey, AdvanceProcessing, AdvanceSuccess;
    if InProcessing(w.pc) {
      ProcessingProceeds(cfg, db, w, input, r);
    } else if InSuccess(w.pc) {
      SuccessProceeds(cfg, w, input, r);
    }
  }

  // ----- whole runs ----------------------------------------------------------------------------------------

  /** Operation `k`, from the `i`-th on, is handler `p` saving the completed task `u`. */
  ghost predicate Saves(run: Run, i: nat, k: nat, p: Pid, u: ReportTask) {
    && i <= k < |run.steps| && k < |run.states| && run.steps[k].WorkStep? && run.steps[k].pid == p && p in run.states[k].workers
    && run.states[k].workers[p].pc.SaveCompleted? && run.states[k].workers[p].pc.c.task == u
  }

  /** The handler that loaded `r` in operation `i` has come this far, and has removed the pointers it should have by now. */
  ghost predicate OnTheWay(cfg: Config, run: Run, i: nat, n: nat, p: Pid, r: ReportTask, u: ReportTask)
    requires n < |run.states| && p in run.states[n].workers
  {
    var pc := run.states[n].workers[p].pc;
    && !pc.Load? && Remembers(pc, r) && (Completing(pc) ==> pc.c.task.filing.Some? && pc.c.task.artifactPath.Some?)
    && (pc.Publish? || pc.ClearOriginal? ==> Dropped(cfg, run, n, p, PointerOf(pc.c.task.identity, r.includeAmended)))
    && ((exists k: nat :: k < n && Saves(run, i, k, p, u)) ==>
          || ((pc.ClearCompleted? || pc.Publish? || pc.ClearOriginal?) && pc.c.task == u)
          || (pc.Ack? && Dropped(cfg, run, n, p, PointerOf(r.identity, r.includeAmended))
              && Dropped(cfg, run, n, p, PointerOf(u.identity, r.includeAmended)))
          || pc.Del?)
  }

  lemma StillOnTheWay(cfg: Config, run: Run, i: nat, n: nat, p: Pid, r: ReportTask, u: ReportTask)
    requires n + 1 < |run.states| && p in run.states[n].workers && p in run.states[n + 1].workers
    requires n < |run.steps| && !(run.steps[n].WorkStep? && run.steps[n].pid == p)
    requires run.states[n + 1].workers[p] == run.states[n].workers[p] && OnTheWay(cfg, run, i, n, p, r, u)
    ensures OnTheWay(cfg, run, i, n + 1, p, r, u)
  {
    DroppedLater(cfg, run, n, p);
    assert !Saves(run, i, n, p, u);
    hide Dropped, Remembers, Saves;
  }

  lemma MovesOnTheWay(cfg: Config, run: Run, i: nat, n: nat, p: Pid, r: ReportTask, u: ReportTask)
    requires i < n && n + 1 < |run.states| && n < |run.steps| && p in run.states[n].workers && p in run.states[n + 1].workers
    requires run.steps[n].WorkStep? && run.steps[n].pid == p && OnTheWay(cfg, run, i, n, p, r, u)
    requires var m := WorkMove(cfg, run.states[n], p, run.steps[n].input);
             Proceeds(run.states[n].workers[p].pc, r, m) && m.next == Some(run.states[n + 1].workers[p].pc)
    requires run.states[n].workers[p].pc.Ack? ==> run.states[n + 1].workers[p].pc.Del?
    requires !run.states[n].workers[p].pc.Del?
    ensures OnTheWay(cfg, run, i, n + 1, p, r, u)
  {
    hide WorkMove;
    var pc, next := run.states[n].workers[p].pc, run.states[n + 1].workers[p].pc;
    var effect := WorkMove(cfg, run.states[n], p, run.steps[n].input).effect;
    DroppedLater(cfg, run, n, p);
    if effect.DropPending? {
      assert Drops(cfg, run, n, p, effect.key);
      assert Dropped(cfg, run, n + 1, p, effect.key);
    }
    assert Saves(run, i, n, p, u) <==> pc.SaveCompleted? && pc.c.task == u;
    hide Dropped, Remembers, Saves, LogicalPath, PendingKey;
  }

  lemma MoveProceeds(cfg: Config, s: State, p: Pid, input: Input, r: ReportTask)
    requires p in s.workers && Remembers(s.workers[p].pc, r) && Smooth(s.workers[p].pc, input)
    requires var pc := s.workers[p].pc;
             && (Completing(pc) ==> pc.c.task.filing.Some? && pc.c.task.artifactPath.Some?)
             && (pc.Load? ==> s.workers[p].tid in s.db.tasks && s.db.tasks[s.workers[p].tid] == r)
    ensures Proceeds(s.workers[p].pc, r, WorkMove(cfg, s, p, input))
    ensures var m := WorkMove(cfg, s, p, input); (s.workers[p].pc.Ack? && m.next.Some? ==> m.next.value.Del?) && (s.workers[p].pc.Del? ==> m.next.None?)
  {
    hide Remembers, Proceeds, Smooth;
    WorkProceeds(cfg, s.db, s.workers[p], input, r);
    hide Advance;
    WorkHasShape(cfg, s.db, s.workers[p], input);
  }

  lemma HandlerAfter(cfg: Config, s: State, step: Step, p: Pid)
    requires Inv(s) && Enabled(cfg, s, step) && p in s.workers && p in Apply(cfg, s, step).workers
    ensures var w := Apply(cfg, s, step).workers[p];
            if step.WorkStep? && step.pid == p then WorkMove(cfg, s, p, step.input).next == Some(w.pc) && w == s.workers[p].(pc := w.pc)
            else w == s.workers[p]
  {
    Failures.StartedBefore(s, p);
    hide Inv, Advance, AdvanceRequest, ApplyEffect;
  }

  /** Handler `p` lives from the `i`-th state to the `j`-th, and recording its completion meets no error. */
  ghost predicate GoesSmoothly(run: Run, i: nat, j: nat, p: Pid)
    requires j < |run.states| && j <= |run.steps|
  {
    && (forall n | i <= n <= j :: p in run.states[n].workers)
    && (forall n | i <= n < j && run.steps[n].WorkStep? && run.steps[n].pid == p ::
          Smooth(run.states[n].workers[p].pc, run.steps[n].input))
  }

  lemma {:induction false} RunOnTheWay(cfg: Config, run: Run, i: nat, n: nat, p: Pid, r: ReportTask, u: ReportTask)
    requires IsRun(cfg, run) && i < n < |run.states| && GoesSmoothly(run, i, n, p)
    requires run.states[i].workers[p].pc.Load? && run.steps[i].WorkStep? && run.steps[i].pid == p
    requires var t := run.states[i].workers[p].tid; t in run.states[i].db.tasks && run.states[i].db.tasks[t] == r
    ensures OnTheWay(cfg, run, i, n, p, r, u)
  {
    hide Apply, Enabled, Inv, WorkMove, Dropped, Saves, Remembers, Proceeds, Smooth;
    var s, step := run.states[n - 1], run.steps[n - 1];
    Invariant.RunInv(cfg, run, n - 1);
    assert run.states[n] == Apply(cfg, s, step);
    HandlerAfter(cfg, s, step, p);
    if n - 1 == i {
      LoadRemembers(s.workers[p].pc, r);
      MoveProceeds(cfg, s, p, step.input, r);
      NoSaveYet(run, i, p, u);
      assert step.WorkStep? && step.pid == p;
      StartsOnTheWay(cfg, run, i, p, r, u);
    } else {
      RunOnTheWay(cfg, run, i, n - 1, p, r, u);
      if step.WorkStep? && step.pid == p {
        MoveProceeds(cfg, s, p, step.input, r);
        MovesOnTheWay(cfg, run, i, n - 1, p, r, u);
      } else {
        StillOnTheWay(cfg, run, i, n - 1, p, r, u);
      }
    }
  }

  lemma LoadRemembers(pc: Pc, r: ReportTask)
    requires pc.Load?
    ensures Remembers(pc, r) && !Completing(pc) && forall input :: Smooth(pc, input)
  {
  }

  lemma NoSaveYet(run: Run, i: nat, p: Pid, u: ReportTask)
    requires i < |run.states| && p in run.states[i].workers && run.states[i].workers[p].pc.Load?
    ensures !exists k: nat :: k < i + 1 && Saves(run, i, k, p, u)
  {
  }

  lemma StartsOnTheWay(cfg: Config, run: Run, i: nat, p: Pid, r: ReportTask, u: ReportTask)
    requires i + 1 < |run.states| && i < |run.steps| && p in run.states[i].workers && p in run.states[i + 1].workers
    requires run.states[i].workers[p].pc.Load? && run.steps[i].WorkStep?
    requires var m := WorkMove(cfg, run.states[i], p, run.steps[i].input);
             Proceeds(Load, r, m) && m.next == Some(run.states[i + 1].workers[p].pc)
    requires !exists k: nat :: k < i + 1 && Saves(run, i, k, p, u)
    ensures OnTheWay(cfg, run, i, i + 1, p, r, u)
  {
    hide WorkMove, Dropped, Saves, Remembers;
  }

  /** In every run: a handler that loaded the record `r`, saved it completed as `u` and then met no error until it
      comes to its acknowledgement, has removed the pointer of the report as it was asked for, and that of the
      report as it was resolved. */
  lemma CompletionRemovesPointers(cfg: Config, run: Run, i: nat, k: nat, j: nat, p: Pid, r: ReportTask, u: ReportTask)
    requires IsRun(cfg, run) && i < j < |run.states| && GoesSmoothly(run, i, j, p)
    requires run.states[i].workers[p].pc.Load? && run.steps[i].WorkStep? && run.steps[i].pid == p
    requires var t := run.states[i].workers[p].tid; t in run.states[i].db.tasks && run.states[i].db.tasks[t] == r
    requires k < j && Saves(run, i, k, p, u) && run.states[j].workers[p].pc.Ack?
    ensures Dropped(cfg, run, j, p, PendingKey(LogicalPath(r.identity), r.includeAmended))
    ensures Dropped(cfg, run, j, p, PendingKey(LogicalPath(u.identity), r.includeAmended))
  {
    hide IsRun, Dropped, Saves, Remembers, GoesSmoothly;
    RunOnTheWay(cfg, run, i, j, p, r, u);
  }

  lemma FailureMoves(cfg: Config, s: State, p: Pid)
    requires p in s.workers
    ensures var w, s' := s.workers[p], Apply(cfg, s, WorkStep(p, Input.Ok));
            && (w.pc.SaveFailed? ==> w.tid in s'.db.tasks && s'.db.tasks[w.tid] == w.pc.c.task
                                     && p in s'.workers && s'.workers[p] == w.(pc := ClearFailed(w.pc.c)))
            && (w.pc.SaveForced? ==> w.tid in s'.db.tasks && s'.db.tasks[w.tid] == w.pc.c.task
                                     && p in s'.workers && s'.workers[p] == w.(pc := ClearForced(w.pc.c)))
            && (w.pc.ClearFailed? || w.pc.ClearForced? ==>
                  PendingKey(LogicalPath(w.pc.c.task.identity), w.pc.c.task.includeAmended) !in s'.db.pending
                  && p in s'.workers && s'.workers[p].pc.Ack?)
  {
    hide LogicalPath, PendingKey;
  }

  /** In every run: a handler that saves its task FAILED, on a failure or when its attempts are used up, removes the
      task's pending pointer in its next operation, and then acknowledges its entry. */
  lemma FailureRemovesPointer(cfg: Config, run: Run, i: nat, j: nat, p: Pid)
    requires IsRun(cfg, run) && i < j < |run.steps| && p in run.states[i].workers
    requires run.states[i].workers[p].pc.SaveFailed? || run.states[i].workers[p].pc.SaveForced?
    requires run.steps[i] == WorkStep(p, Input.Ok) && run.steps[j] == WorkStep(p, Input.Ok)
    requires forall k | i < k < j :: Failures.LeavesAlone(run.steps[k], p)
    ensures var w := run.states[i].workers[p];
            && w.tid in run.states[i + 1].db.tasks && run.states[i + 1].db.tasks[w.tid] == w.pc.c.task
            && PendingKey(LogicalPath(w.pc.c.task.identity), w.pc.c.task.includeAmended) !in run.states[j + 1].db.pending
            && p in run.states[j + 1].workers && run.states[j + 1].workers[p].pc.Ack?
  {
    hide Apply, Enabled, Inv, LogicalPath, PendingKey, Failures.LeavesAlone;
    assert run.states[i + 1] == Apply(cfg, run.states[i], run.steps[i]) && run.states[j + 1] == Apply(cfg, run.states[j], run.steps[j]);
    FailureMoves(cfg, run.states[i], p);
    Failures.StaysWhere(cfg, run, i + 1, j, p);
    FailureMoves(cfg, run.states[j], p);
  }
}
