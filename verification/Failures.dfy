/** Which error leads to which failure (app/workers/worker.py `process_task` and its failure handlers): on
    the operations of one handler, and on the records of whole runs. */
module Failures {
  import opened Wrappers
  import opened Identity
  import Submissions
  import opened Reports
  import opened Store
  import opened Handler
  import Request
  import opened System
  import Invariant
  import opened Absorbing
  import opened Deliverable

  // ----- the causes --------------------------------------------------------------------------------

  /** None of these filings is what the task asks for. */
  ghost predicate NothingFits(t: ReportTask, filings: seq<Submissions.FilingRecord>) {
    forall k | 0 <= k < |filings| ::
      !Submissions.Qualifies(filings[k], Submissions.FilingSelector(t.identity.form, t.includeAmended),
                             if t.identity.year == 0 then None else Some(t.identity.year))
  }

  /** Trying again would not help: an unknown ticker, no such filing, a permanent error of the SEC or the
      renderer, or a result that is not a PDF. */
  ghost predicate FailsForGood(pc: Pc, input: Input) {
    || (pc.Resolve? && !input.Company?)
    || (pc.Fetch? && input.Filings? && NothingFits(pc.c.task, input.filings))
    || ((pc.Fetch? || pc.Download? || pc.Convert?) && input.PermanentError?)
    || (pc.Convert? && input.Rendered? && !(|input.pdf| >= 5 && input.pdf[..5] == PDF_HEADER))
  }

  /** The operation did what it is for. */
  ghost predicate Succeeds(pc: Pc, input: Input) {
    || (pc.Resolve? && input.Company?)
    || (pc.Fetch? && input.Filings? && !NothingFits(pc.c.task, input.filings))
    || pc.CheckExists?
    || (pc.Download? && input.Document?)
    || (pc.Convert? && input.Rendered? && |input.pdf| >= 5 && input.pdf[..5] == PDF_HEADER)
    || (pc.Write? && (input.Ok? || (pc.stage.FillTmp? && input.Chunk?)))
  }

  /** Any other outcome: an error that may pass. */
  ghost predicate FailsForNow(pc: Pc, input: Input) { Working(pc) && !FailsForGood(pc, input) && !Succeeds(pc, input) }

  /** After a failure for good the attempts are as they were and FAILED is saved next, if that is legal. */
  function AfterFailureForGood(c: Context): Pc {
    if c.task.state.Processing? || c.task.state.Failed? then SaveFailed(Context(c.task.(state := Failed), c.original))
    else Recover(c)
  }

  /** After one for now there is one attempt more; RETRYING is saved next while that is below the maximum,
      and FAILED otherwise, if that is legal. */
  function AfterFailureForNow(cfg: Config, c: Context): Pc {
    var t := c.task.(attempts := c.task.attempts + 1);
    if t.attempts >= cfg.maxAttempts && (t.state.Processing? || t.state.Failed?) then
      SaveFailed(Context(t.(state := Failed), c.original))
    else if t.attempts < cfg.maxAttempts && (t.state.Processing? || t.state.Failed? || t.state.Retrying?) then
      SaveRetrying(Context(t.(state := Retrying), c.original))
    else Recover(Context(t, c.original))
  }

  lemma HandlersAreThese(cfg: Config, c: Context)
    ensures FailPermanently(c) == AfterFailureForGood(c)
    ensures FailTransiently(cfg, c) == AfterFailureForNow(cfg, c)
  {
  }

  lemma NothingFitsExactly(c: Context, filings: seq<Submissions.FilingRecord>)
    ensures NothingFits(c.task, filings) <==>
              Submissions.SelectLatest(filings, Submissions.FilingSelector(c.task.identity.form, c.task.includeAmended),
                                       RequestedYear(c.task.identity)).None?
  {
    Submissions.NothingQualifies(filings, Submissions.FilingSelector(c.task.identity.form, c.task.includeAmended),
                                 RequestedYear(c.task.identity));
  }

  /** Where an operation of the work leads: a failure for good and one for now each to its own handler,
      with the attempts they leave; and a success on, or to recording the completion. */
  ghost predicate RoutesRight(cfg: Config, pc: Pc, input: Input, m: Move<Pc>)
    requires Working(pc)
  {
    && m.next.Some?
    && (FailsForGood(pc, input) ==> m == Move(NoEffect, Some(AfterFailureForGood(pc.c))))
    && (FailsForNow(pc, input) ==> m.next == Some(AfterFailureForNow(cfg, pc.c)))
    && (Succeeds(pc, input) ==>
          || (Working(m.next.value) && m.next.value.c == pc.c)
          || (m.next.value.SaveCompleted? && (pc.c.task.state.Processing? || pc.c.task.state.Completed?))
          || (HasJob(pc) && !pc.c.task.state.Processing? && !pc.c.task.state.Completed?
              && m.next.value == AfterFailureForNow(cfg, pc.c.(task := pc.c.task.(identity := pc.job.identity)))))
  }

  lemma CompleteOrNot(cfg: Config, c: Context, job: Job)
    ensures if c.task.state.Processing? || c.task.state.Completed? then Complete(cfg, c, job).SaveCompleted?
            else Complete(cfg, c, job) == AfterFailureForNow(cfg, c.(task := c.task.(identity := job.identity)))
  {
    hide LogicalPath, FailTransiently, AfterFailureForNow;
    HandlersAreThese(cfg, c.(task := c.task.(identity := job.identity)));
  }

  lemma WriteRoutesRight(cfg: Config, pc: Pc, input: Input)
    requires pc.Write?
    ensures RoutesRight(cfg, pc, input, AdvanceWrite(cfg, pc, input))
  {
    hide PartName, PartData, FailTransiently, Complete, AfterFailureForNow, AfterFailureForGood, NothingFits;
    HandlersAreThese(cfg, pc.c);
    CompleteOrNot(cfg, pc.c, pc.job);
  }

  lemma AnswersRouteRight(cfg: Config, db: Db, w: Worker, input: Input)
    requires w.pc.Fetch? || w.pc.Convert?
    ensures RoutesRight(cfg, w.pc, input, Advance(cfg, db, w.tid, w.entry, w.pc, input))
  {
    hide FailTransiently, FailPermanently, AfterFailureForNow, AfterFailureForGood, NothingFits, Submissions.SelectLatest;
    HandlersAreThese(cfg, w.pc.c);
    if w.pc.Fetch? && input.Filings? {
      NothingFitsExactly(w.pc.c, input.filings);
    }
  }

  lemma WorkRoutesRight(cfg: Config, db: Db, w: Worker, input: Input)
    requires Working(w.pc)
    ensures RoutesRight(cfg, w.pc, input, Advance(cfg, db, w.tid, w.entry, w.pc, input))
  {
    hide FailTransiently, FailPermanently, Complete, AfterFailureForNow, AfterFailureForGood, AdvanceWrite, JobPdf, NothingFits;
    hide AdvanceFetch, AdvanceConvert;
    HandlersAreThese(cfg, w.pc.c);
    if w.pc.Write? {
      WriteRoutesRight(cfg, w.pc, input);
    } else if w.pc.Fetch? || w.pc.Convert? {
      AnswersRouteRight(cfg, db, w, input);
    } else if w.pc.CheckExists? {
      CompleteOrNot(cfg, w.pc.c, w.pc.job);
    }
  }

  // ----- what is saved next ------------------------------------------------------------------------

  /** An operation of handler `p` that has its effect on the shared state. */
  predicate Applied(step: Step, p: Pid) { step.WorkStep? && step.pid == p && (step.input.Ok? || step.input.RaisedApplied?) }

  /** No operation and no death of handler `p`. */
  predicate LeavesAlone(step: Step, p: Pid) { !((step.WorkStep? || step.WorkCrash?) && step.pid == p) }

  lemma StepLeavesAlone(cfg: Config, s: State, step: Step, p: Pid)
    requires Enabled(cfg, s, step) && p in s.workers && p < s.nextPid && LeavesAlone(step, p)
    ensures p in Apply(cfg, s, step).workers && Apply(cfg, s, step).workers[p] == s.workers[p]
  {
    hide Advance, Request.AdvanceRequest, ApplyEffect;
  }

  lemma StartedBefore(s: State, p: Pid)
    requires Inv(s) && p in s.workers
    ensures p < s.nextPid
  {
  }

  lemma {:induction false} StaysWhere(cfg: Config, run: Run, i: nat, j: nat, p: Pid)
    requires IsRun(cfg, run) && i <= j < |run.states| && p in run.states[i].workers
    requires forall k | i <= k < j :: LeavesAlone(run.steps[k], p)
    ensures p in run.states[j].workers && run.states[j].workers[p] == run.states[i].workers[p]
  {
    hide Apply, Enabled, Inv;
    if i < j {
      StaysWhere(cfg, run, i, j - 1, p);
      Invariant.RunInv(cfg, run, j - 1);
      StartedBefore(run.states[j - 1], p);
      StepLeavesAlone(cfg, run.states[j - 1], run.steps[j - 1], p);
    }
  }

  /** A handler that is about to save its task does so in its next operation, if that has its effect. */
  lemma SavesNext(cfg: Config, s: State, step: Step, p: Pid)
    requires Enabled(cfg, s, step) && Applied(step, p) && (s.workers[p].pc.SaveFailed? || s.workers[p].pc.SaveRetrying?)
    ensures var s', w := Apply(cfg, s, step), s.workers[p];
            w.tid in s'.db.tasks && s'.db.tasks[w.tid] == w.pc.c.task
  {
  }

  lemma WorkMovesOn(cfg: Config, s: State, p: Pid, input: Input)
    requires p in s.workers && Working(s.workers[p].pc)
    ensures var s', m := Apply(cfg, s, WorkStep(p, input)), WorkMove(cfg, s, p, input);
            && RoutesRight(cfg, s.workers[p].pc, input, m)
            && p in s'.workers && s'.workers[p] == s.workers[p].(pc := m.next.value)
  {
    hide Advance, RoutesRight, ApplyEffect;
    WorkRoutesRight(cfg, s.db, s.workers[p], input);
    assert RoutesRight(cfg, s.workers[p].pc, input, WorkMove(cfg, s, p, input)) ==> WorkMove(cfg, s, p, input).next.Some? by {
      NextExists(cfg, s.workers[p].pc, input, WorkMove(cfg, s, p, input));
    }
  }

  lemma NextExists(cfg: Config, pc: Pc, input: Input, m: Move<Pc>)
    requires Working(pc)
    ensures RoutesRight(cfg, pc, input, m) ==> m.next.Some?
  {
  }

  /** The task that the failed operation `i` of handler `p` leads to, and whether it is legal. */
  ghost predicate FailsWith(cfg: Config, s: State, p: Pid, input: Input, t: ReportTask)
    requires p in s.workers && Working(s.workers[p].pc)
  {
    var pc := s.workers[p].pc;
    var task := pc.c.task;
    && task.state.Processing?
    && if FailsForGood(pc, input) then t == task.(state := Failed)
       else FailsForNow(pc, input)
            && t == task.(attempts := task.attempts + 1, state := if task.attempts + 1 < cfg.maxAttempts then Retrying else Failed)
  }

  /** In every run: a handler whose work on a PROCESSING task fails for good saves it FAILED with the same
      attempts, and one whose work fails for now saves it with one attempt more, as RETRYING while that is
      below the maximum and as FAILED otherwise; nothing else comes in between. */
  lemma NextSaveAfterFailure(cfg: Config, run: Run, i: nat, j: nat, p: Pid, t: ReportTask)
    requires IsRun(cfg, run) && i < j < |run.steps| && run.steps[i].WorkStep? && run.steps[i].pid == p && p in run.states[i].workers
    requires Working(run.states[i].workers[p].pc) && FailsWith(cfg, run.states[i], p, run.steps[i].input, t)
    requires (forall k | i < k < j :: LeavesAlone(run.steps[k], p)) && Applied(run.steps[j], p)
    ensures run.states[i].workers[p].tid in run.states[j + 1].db.tasks
    ensures run.states[j + 1].db.tasks[run.states[i].workers[p].tid] == t
  {
    hide Apply, Enabled, Working, FailsForGood, FailsForNow, Succeeds, Applied, LeavesAlone;
    var w := run.states[i].workers[p];
    assert run.states[i + 1] == Apply(cfg, run.states[i], run.steps[i]);
    WorkMovesOn(cfg, run.states[i], p, run.steps[i].input);
    StaysWhere(cfg, run, i + 1, j, p);
    SavesNext(cfg, run.states[j], run.steps[j], p);
  }

  // ----- why a task is FAILED --------------------------------------------------------------------------

  predicate IsFailed(db: Db, t: TaskId) { t in db.tasks && db.tasks[t].state.Failed? }

  /** Operation `i` of the run is one of handler `p` that failed for good. */
  ghost predicate FailedForGood(run: Run, i: nat, p: Pid) {
    && i < |run.steps| && i < |run.states| && run.steps[i].WorkStep? && run.steps[i].pid == p && p in run.states[i].workers
    && FailsForGood(run.states[i].workers[p].pc, run.steps[i].input)
  }

  /** A handler that is about to save FAILED has a reason: its attempts are used up, an earlier operation
      of its own failed for good, or the record it has read was FAILED already. */
  ghost predicate HasReason(cfg: Config, run: Run, j: nat, p: Pid)
    requires j < |run.states| && p in run.states[j].workers
  {
    var w := run.states[j].workers[p];
    && (w.pc.SaveFailed? ==> w.pc.c.task.attempts >= cfg.maxAttempts || exists i: nat :: i < j && FailedForGood(run, i, p))
    && (w.pc.SaveForced? ==> w.pc.c.task.attempts >= cfg.maxAttempts)
    && (w.pc.SaveAttempts? && w.pc.c.task.state.Failed? ==> exists i: nat :: i < j && IsFailed(run.states[i].db, w.tid))
  }

  /** What a move that comes to save FAILED has behind it. */
  ghost predicate ComesToFail(cfg: Config, db: Db, w: Worker, input: Input, next: Pc) {
    && (next.SaveFailed? ==> next.c.task.attempts >= cfg.maxAttempts || FailsForGood(w.pc, input))
    && (next.SaveForced? ==> next.c.task.attempts >= cfg.maxAttempts)
    && (next.SaveAttempts? && next.c.task.state.Failed? ==> IsFailed(db, w.tid))
  }

  lemma WorkComesToFail(cfg: Config, db: Db, w: Worker, input: Input)
    requires LocalOk(w.pc) && Persisted(db, w.tid)
    ensures var m := Advance(cfg, db, w.tid, w.entry, w.pc, input); m.next.Some? ==> ComesToFail(cfg, db, w, input, m.next.value)
  {
    hide LogicalPath, PendingKey, AdvanceProcessing, AdvanceSuccess, FailTransiently, RoutesRight, FailsForGood;
    if Working(w.pc) {
      WorkRoutesRight(cfg, db, w, input);
      RoutedToFail(cfg, db, w, input, Advance(cfg, db, w.tid, w.entry, w.pc, input));
    } else if InProcessing(w.pc) {
      StartsWithoutFailing(cfg, db, w, input);
    } else if InSuccess(w.pc) {
      SuccessDoesNotFail(cfg, w, input);
    }
  }

  lemma SuccessDoesNotFail(cfg: Config, w: Worker, input: Input)
    requires InSuccess(w.pc) && LocalOk(w.pc)
    ensures var m := AdvanceSuccess(cfg, w.tid, w.pc, input);
            m.next.Some? ==> !m.next.value.SaveFailed? && !m.next.value.SaveForced? && !m.next.value.SaveAttempts?
  {
    hide LogicalPath, PendingKey, FailTransiently, AdvancePublish;
    HandlersAreThese(cfg, w.pc.c);
  }

  lemma RoutedToFail(cfg: Config, db: Db, w: Worker, input: Input, m: Move<Pc>)
    requires Working(w.pc) && RoutesRight(cfg, w.pc, input, m)
    ensures m.next.Some? && ComesToFail(cfg, db, w, input, m.next.value)
  {
    hide FailsForGood, Succeeds;
  }

  lemma StartsWithoutFailing(cfg: Config, db: Db, w: Worker, input: Input)
    requires InProcessing(w.pc) && !Working(w.pc)
    ensures var m := AdvanceProcessing(cfg, db, w.tid, w.pc, input);
            m.next.Some? ==> !m.next.value.SaveFailed? && !m.next.value.SaveForced? && !m.next.value.SaveAttempts?
  {
    hide LogicalPath;
  }

  predicate SavesFailed(pc: Pc) { pc.SaveFailed? || pc.SaveForced? || (pc.SaveAttempts? && pc.c.task.state.Failed?) }

  lemma WorkSavesFailed(cfg: Config, db: Db, w: Worker, input: Input)
    requires LocalOk(w.pc)
    ensures var e := Advance(cfg, db, w.tid, w.entry, w.pc, input).effect; e.SaveTask? && e.task.state.Failed? ==> SavesFailed(w.pc)
  {
    hide AdvanceProcessing, AdvanceSuccess, AdvanceFailure, AdvanceRecovery;
  }

  lemma WorkStepSavesFailed(cfg: Config, s: State, p: Pid, input: Input, t: TaskId)
    requires Inv(s) && p in s.workers && !IsFailed(s.db, t) && IsFailed(ApplyWork(s, p, WorkMove(cfg, s, p, input)).db, t)
    ensures s.workers[p].tid == t && SavesFailed(s.workers[p].pc)
  {
    hide HandlersOk, StreamOk, RequestsOk, Advance, ApplyWork, WorkShape, LocalOk, Persisted, SavesFailed;
    Invariant.WorkFacts(cfg, s, p, input);
    Invariant.WorkOnTasks(s, p, WorkMove(cfg, s, p, input));
    assert LocalOk(s.workers[p].pc);
    WorkSavesFailed(cfg, s.db, s.workers[p], input);
    OwnSave(s.workers[p], WorkMove(cfg, s, p, input));
  }

  lemma OwnSave(w: Worker, m: Move<Pc>)
    requires WorkShape(w, m)
    ensures m.effect.SaveTask? ==> m.effect.tid == w.tid
  {
  }

  lemma ApiSavesNoFailure(s: State, p: Pid, m: Move<Request.RequestPc>, t: TaskId)
    requires p in s.requests && ApiShape(s.requests[p], m) && !IsFailed(s.db, t)
    ensures !IsFailed(ApplyApi(s, p, m).db, t)
  {
  }

  /** A step that persists FAILED is one of a handler that saves it. */
  lemma FailingStep(cfg: Config, s: State, step: Step, t: TaskId)
    requires Inv(s) && Enabled(cfg, s, step) && !IsFailed(s.db, t) && IsFailed(Apply(cfg, s, step).db, t)
    ensures step.WorkStep? && step.pid in s.workers && s.workers[step.pid].tid == t && SavesFailed(s.workers[step.pid].pc)
  {
    hide HandlersOk, StreamOk, TasksOk, RequestsOk, Advance, Request.AdvanceRequest, ApplyWork, ApplyApi, SavesFailed, WorkMove;
    match step {
      case ApiStep(pid, input) =>
        ApiHasShape(cfg, s.db, s.requests[pid], input);
        ApiSavesNoFailure(s, pid, ApiMove(cfg, s, pid, input), t);
      case WorkStep(pid, input) => WorkStepSavesFailed(cfg, s, pid, input, t);
      case _ =>
    }
  }

  /** The handlers after a step: a new one, which has loaded nothing, the one that moved, and the others. */
  lemma HandlersAfter(cfg: Config, s: State, step: Step, p: Pid)
    requires Inv(s) && Enabled(cfg, s, step) && p in Apply(cfg, s, step).workers
    ensures var w := Apply(cfg, s, step).workers[p];
            || w.pc.Load?
            || (p in s.workers && s.workers[p] == w)
            || (step.WorkStep? && step.pid == p && p in s.workers && w == s.workers[p].(pc := w.pc)
                && WorkMove(cfg, s, p, step.input).next == Some(w.pc))
  {
    hide Inv, Advance, Request.AdvanceRequest, ApplyEffect;
  }

  lemma MovesWithReason(cfg: Config, s: State, p: Pid, input: Input)
    requires Inv(s) && p in s.workers
    ensures var m := WorkMove(cfg, s, p, input); m.next.Some? ==> ComesToFail(cfg, s.db, s.workers[p], input, m.next.value)
  {
    hide HandlersOk, StreamOk, RequestsOk, Advance, LocalOk, Persisted, ComesToFail;
    assert LocalOk(s.workers[p].pc) && Persisted(s.db, s.workers[p].tid);
    WorkComesToFail(cfg, s.db, s.workers[p], input);
  }

  lemma {:induction false} HandlersHaveReasons(cfg: Config, run: Run, j: nat, p: Pid)
    requires IsRun(cfg, run) && j < |run.states| && p in run.states[j].workers
    ensures HasReason(cfg, run, j, p)
  {
    hide Apply, Enabled, Inv, FailsForGood, WorkMove;
    if j > 0 {
      var s, step := run.states[j - 1], run.steps[j - 1];
      Invariant.RunInv(cfg, run, j - 1);
      HandlersAfter(cfg, s, step, p);
      if p in s.workers {
        HandlersHaveReasons(cfg, run, j - 1, p);
        if s.workers[p] == run.states[j].workers[p] {
          StillHasReason(cfg, run, j, p);
        } else if !run.states[j].workers[p].pc.Load? {
          MovesWithReason(cfg, s, p, step.input);
          assert FailedForGood(run, j - 1, p) <==> FailsForGood(s.workers[p].pc, step.input);
        }
      }
    }
  }

  lemma StillHasReason(cfg: Config, run: Run, j: nat, p: Pid)
    requires 0 < j < |run.states| && p in run.states[j - 1].workers && p in run.states[j].workers
    requires run.states[j - 1].workers[p] == run.states[j].workers[p] && HasReason(cfg, run, j - 1, p)
    ensures HasReason(cfg, run, j, p)
  {
    hide FailedForGood, IsFailed;
  }

  /** In every run a task is first persisted FAILED by a handler whose in-memory attempts have reached the
      maximum, or one of whose earlier operations met an unknown ticker, found no qualifying filing, got a
      permanent error, or produced something that is not a PDF. */
  lemma FailedForAReason(cfg: Config, run: Run, j: nat, t: TaskId)
    requires IsRun(cfg, run) && j < |run.steps| && (forall i | 0 <= i <= j :: !IsFailed(run.states[i].db, t))
    requires IsFailed(run.states[j + 1].db, t)
    ensures exists p: Pid ::
              && p in run.states[j].workers && run.states[j].workers[p].tid == t && Applied(run.steps[j], p)
              && LocalTask(run.states[j].workers[p].pc).Some?
              && (LocalTask(run.states[j].workers[p].pc).value.attempts >= cfg.maxAttempts || exists i: nat :: i < j && FailedForGood(run, i, p))
  {
    hide Apply, Enabled, Inv, FailedForGood, IsFailed, HasReason, LocalTask, SavesFailed;
    Invariant.RunInv(cfg, run, j);
    FailingStep(cfg, run.states[j], run.steps[j], t);
    var p := run.steps[j].pid;
    HandlersHaveReasons(cfg, run, j, p);
    ReasonGiven(cfg, run, j, p);
    OnlyApplied(cfg, run.states[j], run.steps[j], t);
  }

  lemma ReasonGiven(cfg: Config, run: Run, j: nat, p: Pid)
    requires j < |run.states| && p in run.states[j].workers && HasReason(cfg, run, j, p) && SavesFailed(run.states[j].workers[p].pc)
    requires forall i | 0 <= i < j :: !IsFailed(run.states[i].db, run.states[j].workers[p].tid)
    ensures LocalTask(run.states[j].workers[p].pc).Some?
    ensures LocalTask(run.states[j].workers[p].pc).value.attempts >= cfg.maxAttempts || exists i: nat :: i < j && FailedForGood(run, i, p)
  {
    hide FailedForGood, IsFailed;
  }

  lemma OnlyApplied(cfg: Config, s: State, step: Step, t: TaskId)
    requires Enabled(cfg, s, step) && step.WorkStep? && SavesFailed(s.workers[step.pid].pc)
    requires !IsFailed(s.db, t) && IsFailed(Apply(cfg, s, step).db, t)
    ensures Applied(step, step.pid)
  {
  }
}
