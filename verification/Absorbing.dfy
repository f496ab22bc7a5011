/** COMPLETED is absorbing over whole runs, through crashes, redeliveries and writes that raise
    with or without effect: exactly when it is so, and why it is so for one handler at a time. */
module Absorbing {
  import Identity
  import Submissions
  import opened Reports
  import opened Store
  import opened Handler
  import Request
  import opened System
  import Invariant
  import opened Artifacts
  import opened Serial

  predicate IsCompleted(db: Db, t: TaskId) { t in db.tasks && db.tasks[t].state.Completed? }

  // ----- who can still save another state -------------------------------------------------------

  /** The next operation saves an in-memory task that is not COMPLETED. */
  predicate SavesUncompleted(pc: Pc) {
    pc.SaveProcessing? || pc.SaveFailed? || pc.SaveRetrying? || pc.SaveQueued? || pc.SaveForced? || pc.SaveAttempts?
  }

  /** From resolving the company to the last file. */
  predicate Working(pc: Pc) {
    pc.Resolve? || pc.Fetch? || pc.CheckExists? || pc.Download? || pc.Convert? || pc.Write?
  }

  /** A transient failure of this in-memory task has a legal transition. */
  predicate CanRecordFailure(cfg: Config, t: ReportTask) {
    t.state.Processing? || t.state.Failed? || (t.state.Retrying? && t.attempts + 1 < cfg.maxAttempts)
  }

  /** A handler at this point may still save a state other than COMPLETED over a COMPLETED record: it
      is about to, or its work can still fail. Finding the PDF, work in order cannot fail any more. */
  predicate Threatens(cfg: Config, db: Db, pc: Pc) {
    || SavesUncompleted(pc)
    || (Working(pc) && CanRecordFailure(cfg, pc.c.task)
        && !(pc.CheckExists? && pc.c.task.state.Processing? && JobPdf(pc.job) in db.files))
  }

  ghost predicate NoThreat(cfg: Config, s: State, t: TaskId) {
    forall p | p in s.workers && s.workers[p].tid == t :: !Threatens(cfg, s.db, s.workers[p].pc)
  }

  // ----- one handler move, locally -------------------------------------------------------

  /** What the task's record says after the move. */
  function StateAfter(db: Db, w: Worker, m: Move<Pc>): ReportState
    requires w.tid in db.tasks
  {
    if m.effect.SaveTask? then m.effect.task.state else db.tasks[w.tid].state
  }

  /** Over a COMPLETED record the move saves another state exactly at an applied save of an
      uncompleted task; and once the record says COMPLETED the handler is no threat. */
  ghost predicate NeverDemotes(cfg: Config, db: Db, w: Worker, input: Input, m: Move<Pc>)
    requires w.tid in db.tasks
  {
    && (IsCompleted(db, w.tid) ==>
          (!StateAfter(db, w, m).Completed? <==> SavesUncompleted(w.pc) && (input.Ok? || input.RaisedApplied?)))
    && ((IsCompleted(db, w.tid) ==> !Threatens(cfg, db, w.pc)) ==>
          StateAfter(db, w, m).Completed? && m.next.Some? ==> !Threatens(cfg, db, m.next.value))
  }

  lemma FailuresThreaten(cfg: Config, c: Context)
    ensures Threatens(cfg, EMPTY_DB, FailTransiently(cfg, c)) <==> CanRecordFailure(cfg, c.task)
    ensures SavesUncompleted(FailTransiently(cfg, c)) <==> CanRecordFailure(cfg, c.task)
    ensures !CanRecordFailure(cfg, c.task) ==> !SavesUncompleted(FailPermanently(c))
    ensures !Working(FailTransiently(cfg, c)) && !Working(FailPermanently(c))
  {
  }

  lemma CompleteThreatens(cfg: Config, c: Context, job: Job)
    ensures !Working(Complete(cfg, c, job))
    ensures SavesUncompleted(Complete(cfg, c, job)) <==> CanRecordFailure(cfg, c.task) && !c.task.state.Processing?
  {
    hide Identity.LogicalPath;
  }

  lemma WriteThreatens(cfg: Config, pc: Pc, input: Input)
    requires pc.Write? && !CanRecordFailure(cfg, pc.c.task)
    ensures var m := AdvanceWrite(cfg, pc, input);
            && !m.effect.SaveTask? && m.next.Some? && !SavesUncompleted(m.next.value)
            && (Working(m.next.value) ==> m.next.value.Write? && m.next.value.c == pc.c)
  {
    hide PartName, PartData, FailTransiently, Complete, CanRecordFailure;
    FailuresThreaten(cfg, pc.c);
    CompleteThreatens(cfg, pc.c, pc.job);
  }

  lemma ProcessingNeverDemotes(cfg: Config, db: Db, w: Worker, input: Input)
    requires InProcessing(w.pc) && LocalOk(w.pc) && Persisted(db, w.tid)
    ensures NeverDemotes(cfg, db, w, input, AdvanceProcessing(cfg, db, w.tid, w.pc, input))
  {
    hide Identity.LogicalPath, HasPdfHeader, JobPdf, Submissions.SelectLatest, AdvanceWrite, FailTransiently, FailPermanently, Complete;
    if !w.pc.Load? {
      FailuresThreaten(cfg, w.pc.c);
      if w.pc.CheckExists? {
        CompleteThreatens(cfg, w.pc.c, w.pc.job);
      } else if w.pc.Write? && !CanRecordFailure(cfg, w.pc.c.task) {
        WriteThreatens(cfg, w.pc, input);
      }
    }
  }

  lemma SuccessNeverDemotes(cfg: Config, db: Db, w: Worker, input: Input)
    requires InSuccess(w.pc) && LocalOk(w.pc) && Persisted(db, w.tid)
    ensures NeverDemotes(cfg, db, w, input, AdvanceSuccess(cfg, w.tid, w.pc, input))
  {
    hide Identity.LogicalPath, FailTransiently, Identity.PendingKey, AdvancePublish, JobPdf;
    FailuresThreaten(cfg, w.pc.c);
  }

  lemma WorkNeverDemotes(cfg: Config, db: Db, w: Worker, input: Input)
    requires LocalOk(w.pc) && Persisted(db, w.tid)
    ensures NeverDemotes(cfg, db, w, input, Advance(cfg, db, w.tid, w.entry, w.pc, input))
  {
    hide Identity.LogicalPath, AdvanceProcessing, AdvanceSuccess, FailTransiently, Identity.PendingKey, JobPdf, CanRecordFailure;
    if InProcessing(w.pc) {
      ProcessingNeverDemotes(cfg, db, w, input);
    } else if InSuccess(w.pc) {
      SuccessNeverDemotes(cfg, db, w, input);
    }
  }

  // ----- one step, globally ------------------------------------------------------------------

  lemma ApiKeepsState(s: State, pid: Pid, m: Move<Request.RequestPc>, t: TaskId)
    requires pid in s.requests && RequestOk(s, s.requests[pid]) && ApiShape(s.requests[pid], m)
    ensures IsCompleted(ApplyApi(s, pid, m).db, t) <==> IsCompleted(s.db, t)
  {
  }

  lemma WorkOnState(s: State, pid: Pid, m: Move<Pc>, t: TaskId)
    requires pid in s.workers && WorkShape(s.workers[pid], m) && s.workers[pid].tid in s.db.tasks
    ensures t != s.workers[pid].tid ==> (IsCompleted(ApplyWork(s, pid, m).db, t) <==> IsCompleted(s.db, t))
    ensures IsCompleted(ApplyWork(s, pid, m).db, s.workers[pid].tid) <==> StateAfter(s.db, s.workers[pid], m).Completed?
  {
    hide WorkShape, ApplyWork;
    Invariant.WorkOnTasks(s, pid, m);
  }

  /** This step applies a save of an uncompleted task by a handler of `t`. */
  predicate SavesOver(s: State, step: Step, t: TaskId) {
    && step.WorkStep? && step.pid in s.workers && s.workers[step.pid].tid == t
    && SavesUncompleted(s.workers[step.pid].pc) && (step.input.Ok? || step.input.RaisedApplied?)
  }

  lemma WorkStepFacts(cfg: Config, s: State, pid: Pid, input: Input)
    requires Inv(s) && pid in s.workers
    ensures var w, m := s.workers[pid], WorkMove(cfg, s, pid, input);
            && WorkShape(w, m) && w.tid in s.db.tasks && NeverDemotes(cfg, s.db, w, input, m)
            && (m.next.Some? ==> LocalOk(m.next.value))
  {
    hide StreamOk, HandlersOk, RequestsOk, Advance, WorkShape, LocalOk, NeverDemotes;
    assert LocalOk(s.workers[pid].pc) && Persisted(s.db, s.workers[pid].tid);
    Invariant.WorkFacts(cfg, s, pid, input);
    WorkNeverDemotes(cfg, s.db, s.workers[pid], input);
  }

  /** A step demotes a COMPLETED task exactly when it applies a save by a handler whose in-memory task
      is not COMPLETED. */
  lemma StepDemotes(cfg: Config, s: State, step: Step, t: TaskId)
    requires Inv(s) && Enabled(cfg, s, step) && IsCompleted(s.db, t)
    ensures !IsCompleted(Apply(cfg, s, step).db, t) <==> SavesOver(s, step, t)
  {
    hide HandlersOk, StreamOk, TasksOk, RequestsOk, WorkMove, Request.AdvanceRequest, ApplyWork, ApplyApi, SavesUncompleted;
    match step {
      case ApiStep(pid, input) =>
        Invariant.OwnRequestOk(s, pid);
        ApiHasShape(cfg, s.db, s.requests[pid], input);
        ApiKeepsState(s, pid, ApiMove(cfg, s, pid, input), t);
      case WorkStep(pid, input) =>
        WorkStepFacts(cfg, s, pid, input);
        WorkOnState(s, pid, WorkMove(cfg, s, pid, input), t);
      case _ =>
    }
  }

  /** A step makes no handler a threat by what it does to the files: a PDF stays. */
  lemma FilesStay(cfg: Config, s: State, step: Step, pc: Pc)
    requires Enabled(cfg, s, step) && !Threatens(cfg, s.db, pc)
    ensures !Threatens(cfg, Apply(cfg, s, step).db, pc)
  {
    hide Apply, Enabled, CanRecordFailure, SavesUncompleted;
    if pc.CheckExists? {
      StepInDir(cfg, s, step, JobDir(pc.job));
    }
  }

  /** No handler of the task threatens, except the one that is about to complete it. */
  ghost predicate NoOtherThreat(cfg: Config, s: State, step: Step, t: TaskId) {
    forall p | p in s.workers && s.workers[p].tid == t ::
      !Threatens(cfg, s.db, s.workers[p].pc) || (step.WorkStep? && step.pid == p && !IsCompleted(s.db, t))
  }

  lemma MoverStaysHarmless(cfg: Config, s: State, pid: Pid, input: Input)
    requires Inv(s) && pid in s.workers && NoOtherThreat(cfg, s, WorkStep(pid, input), s.workers[pid].tid)
    requires IsCompleted(ApplyWork(s, pid, WorkMove(cfg, s, pid, input)).db, s.workers[pid].tid)
    ensures var m := WorkMove(cfg, s, pid, input); m.next.Some? ==> !Threatens(cfg, s.db, m.next.value)
  {
    hide Inv, WorkMove, Threatens, WorkShape, LocalOk, ApplyWork, StateAfter;
    WorkStepFacts(cfg, s, pid, input);
    WorkOnState(s, pid, WorkMove(cfg, s, pid, input), s.workers[pid].tid);
  }

  lemma StepKeepsNoThreat(cfg: Config, s: State, step: Step, t: TaskId)
    requires Inv(s) && Enabled(cfg, s, step) && NoOtherThreat(cfg, s, step, t) && IsCompleted(Apply(cfg, s, step).db, t)
    ensures NoThreat(cfg, Apply(cfg, s, step), t)
  {
    hide Inv, Threatens, Advance, Request.AdvanceRequest, ApplyEffect, IsCompleted;
    var s' := Apply(cfg, s, step);
    forall p | p in s'.workers && s'.workers[p].tid == t ensures !Threatens(cfg, s'.db, s'.workers[p].pc) {
      if step.WorkStep? && step.pid == p {
        MoverStaysHarmless(cfg, s, p, step.input);
      } else if !(p in s.workers && s'.workers[p] == s.workers[p]) {
        LoadIsHarmless(cfg, s.db);
      }
      FilesStay(cfg, s, step, s'.workers[p].pc);
    }
  }

  lemma LoadIsHarmless(cfg: Config, db: Db)
    ensures !Threatens(cfg, db, Load)
  {
  }

  /** A COMPLETED task that no handler threatens stays so. */
  lemma StepKeepsCompleted(cfg: Config, s: State, step: Step, t: TaskId)
    requires Inv(s) && Enabled(cfg, s, step) && IsCompleted(s.db, t) && NoThreat(cfg, s, t)
    ensures IsCompleted(Apply(cfg, s, step).db, t) && NoThreat(cfg, Apply(cfg, s, step), t)
  {
    hide Inv, Apply, Enabled, IsCompleted;
    StepDemotes(cfg, s, step, t);
    StepKeepsNoThreat(cfg, s, step, t);
  }

  // ----- every continuation ------------------------------------------------------------------------

  /** A run that goes on from `s`. */
  ghost predicate IsPath(cfg: Config, s: State, run: Run) {
    && |run.states| == |run.steps| + 1 && run.states[0] == s
    && forall i | 0 <= i < |run.steps| ::
      Enabled(cfg, run.states[i], run.steps[i]) && run.states[i + 1] == Apply(cfg, run.states[i], run.steps[i])
  }

  lemma {:induction false} PathKeepsCompleted(cfg: Config, s: State, run: Run, n: nat, t: TaskId)
    requires Inv(s) && IsCompleted(s.db, t) && NoThreat(cfg, s, t) && IsPath(cfg, s, run) && n < |run.states|
    ensures Inv(run.states[n]) && IsCompleted(run.states[n].db, t) && NoThreat(cfg, run.states[n], t)
  {
    hide Apply, Enabled, Inv, IsCompleted, NoThreat;
    if n > 0 {
      PathKeepsCompleted(cfg, s, run, n - 1, t);
      Invariant.StepKeepsInv(cfg, run.states[n - 1], run.steps[n - 1]);
      StepKeepsCompleted(cfg, run.states[n - 1], run.steps[n - 1], t);
    }
  }

  /** How many operations away a threat is from its save. */
  function Distance(pc: Pc): nat {
    if SavesUncompleted(pc) then 0 else if pc.Resolve? || pc.CheckExists? then 2 else 1
  }

  /** A failing operation brings a threat nearer to its save, and changes nothing else. */
  lemma ThreatAdvances(cfg: Config, db: Db, w: Worker) returns (input: Input)
    requires Threatens(cfg, db, w.pc) && !SavesUncompleted(w.pc)
    ensures var m := Advance(cfg, db, w.tid, w.entry, w.pc, input);
            && m.effect.NoEffect? && m.next.Some? && Threatens(cfg, db, m.next.value)
            && Distance(m.next.value) < Distance(w.pc)
  {
    hide Identity.LogicalPath, Submissions.SelectLatest, FailTransiently, FailPermanently, Complete, PartName, PartData, JobPdf;
    FailuresThreaten(cfg, w.pc.c);
    if w.pc.CheckExists? {
      CompleteThreatens(cfg, w.pc.c, w.pc.job);
    }
    input := if w.pc.Resolve? then Company("") else if w.pc.Write? then RaisedUnapplied else TransientError;
  }

  lemma {:induction false} ThreatIsCarriedOut(cfg: Config, s: State, p: Pid) returns (run: Run)
    requires Inv(s) && p in s.workers && IsCompleted(s.db, s.workers[p].tid) && Threatens(cfg, s.db, s.workers[p].pc)
    ensures IsPath(cfg, s, run) && run.states != [] && !IsCompleted(run.states[|run.states| - 1].db, s.workers[p].tid)
    decreases Distance(s.workers[p].pc)
  {
    hide Inv, Threatens, Advance, IsCompleted;
    var w := s.workers[p];
    if SavesUncompleted(w.pc) {
      StepDemotes(cfg, s, WorkStep(p, Input.Ok), w.tid);
      run := Run([s, Apply(cfg, s, WorkStep(p, Input.Ok))], [WorkStep(p, Input.Ok)]);
    } else {
      var input := ThreatAdvances(cfg, s.db, w);
      var s' := Apply(cfg, s, WorkStep(p, input));
      Invariant.StepKeepsInv(cfg, s, WorkStep(p, input));
      var rest := ThreatIsCarriedOut(cfg, s', p);
      run := Run([s] + rest.states, [WorkStep(p, input)] + rest.steps);
    }
  }

  /** Exactly when COMPLETED is for good: whatever happens from a state on, the task stays COMPLETED, if
      and only if no live handler of it threatens in that state. */
  lemma CompletedForGood(cfg: Config, s: State, t: TaskId)
    requires Inv(s) && IsCompleted(s.db, t)
    ensures (forall run | IsPath(cfg, s, run) && run.states != [] :: IsCompleted(run.states[|run.states| - 1].db, t))
       <==> NoThreat(cfg, s, t)
  {
    hide Inv, IsPath, Threatens, IsCompleted;
    if NoThreat(cfg, s, t) {
      forall run | IsPath(cfg, s, run) && run.states != [] ensures IsCompleted(run.states[|run.states| - 1].db, t) {
        PathKeepsCompleted(cfg, s, run, |run.states| - 1, t);
      }
    } else {
      var p :| p in s.workers && s.workers[p].tid == t && Threatens(cfg, s.db, s.workers[p].pc);
      var run := ThreatIsCarriedOut(cfg, s, p);
    }
  }

  // ----- whole runs -----------------------------------------------------------------------------

  /** Once a task is persisted COMPLETED and no live handler of it threatens, no later step of the run
      persists another state: later deliveries, also several at once, are harmless. */
  lemma {:induction false} CompletedIsAbsorbing(cfg: Config, run: Run, i: nat, j: nat, t: TaskId)
    requires IsRun(cfg, run) && i <= j < |run.states| && IsCompleted(run.states[i].db, t) && NoThreat(cfg, run.states[i], t)
    ensures IsCompleted(run.states[j].db, t) && NoThreat(cfg, run.states[j], t)
  {
    hide Apply, Enabled, Inv, IsCompleted, NoThreat;
    if i < j {
      CompletedIsAbsorbing(cfg, run, i, j - 1, t);
      Invariant.RunInv(cfg, run, j - 1);
      StepKeepsCompleted(cfg, run.states[j - 1], run.steps[j - 1], t);
    }
  }

  // ----- one handler at a time ------------------------------------------------------------------

  /** No COMPLETED task is threatened. */
  ghost predicate Unthreatened(cfg: Config, s: State) {
    forall t | IsCompleted(s.db, t) :: NoThreat(cfg, s, t)
  }

  lemma Completes(cfg: Config, s: State, step: Step, t: TaskId)
    requires Inv(s) && Enabled(cfg, s, step) && !IsCompleted(s.db, t) && IsCompleted(Apply(cfg, s, step).db, t)
    ensures step.WorkStep? && step.pid in s.workers && s.workers[step.pid].tid == t && Acting(s.workers[step.pid].pc)
  {
    hide HandlersOk, StreamOk, TasksOk, RequestsOk, Advance, Request.AdvanceRequest, ApplyWork, ApplyApi, NeverDemotes;
    match step {
      case ApiStep(pid, input) =>
        Invariant.OwnRequestOk(s, pid);
        ApiHasShape(cfg, s.db, s.requests[pid], input);
        ApiKeepsState(s, pid, ApiMove(cfg, s, pid, input), t);
      case WorkStep(pid, input) =>
        WorkStepFacts(cfg, s, pid, input);
        WorkOnState(s, pid, WorkMove(cfg, s, pid, input), t);
      case _ =>
    }
  }

  lemma OthersAreNoThreat(cfg: Config, s: State, step: Step, t: TaskId)
    requires OneHandlerPerTask(s) && !IsCompleted(s.db, t)
    requires step.WorkStep? && step.pid in s.workers && s.workers[step.pid].tid == t && Acting(s.workers[step.pid].pc)
    ensures NoOtherThreat(cfg, s, step, t)
  {
    hide CanRecordFailure;
  }

  lemma StepKeepsUnthreatened(cfg: Config, s: State, step: Step)
    requires Inv(s) && Enabled(cfg, s, step) && OneHandlerPerTask(s) && Unthreatened(cfg, s)
    ensures Unthreatened(cfg, Apply(cfg, s, step))
  {
    hide Inv, Apply, Enabled, OneHandlerPerTask, IsCompleted, Threatens;
    forall t | IsCompleted(Apply(cfg, s, step).db, t) ensures NoThreat(cfg, Apply(cfg, s, step), t) {
      if !IsCompleted(s.db, t) {
        Completes(cfg, s, step, t);
        OthersAreNoThreat(cfg, s, step, t);
      }
      StepKeepsNoThreat(cfg, s, step, t);
    }
  }

  lemma {:induction false} RunUnthreatened(cfg: Config, run: Run, i: nat)
    requires IsRun(cfg, run) && Serialised(run) && i < |run.states|
    ensures Unthreatened(cfg, run.states[i])
  {
    hide Apply, Enabled, Inv, SerialStep, OneHandlerPerTask, Threatens;
    if i > 0 {
      RunUnthreatened(cfg, run, i - 1);
      Invariant.RunInv(cfg, run, i - 1);
      RunOneHandler(cfg, run, i - 1);
      StepKeepsUnthreatened(cfg, run.states[i - 1], run.steps[i - 1]);
    }
  }

  /** So with at most one acting handler per task, COMPLETED is absorbing from the start. */
  lemma SerialisedIsAbsorbing(cfg: Config, run: Run, i: nat, j: nat, t: TaskId)
    requires IsRun(cfg, run) && Serialised(run) && i <= j < |run.states| && IsCompleted(run.states[i].db, t)
    ensures IsCompleted(run.states[j].db, t)
  {
    hide IsRun, Serialised, IsCompleted, NoThreat;
    RunUnthreatened(cfg, run, i);
    CompletedIsAbsorbing(cfg, run, i, j, t);
  }
}
