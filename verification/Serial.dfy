/** Handlers of one task, one at a time. A handler that has only its acknowledgement left to send
    saves nothing more and does not count, except in the strict form. */
module Serial {
  import opened Store
  import opened Handler
  import opened System
  import Invariant

  /** Not yet at the acknowledgement. */
  predicate Acting(pc: Pc) { !pc.Ack? && !pc.Del? }

  predicate HandsOutTask(s: State, step: Step, t: TaskId) {
    (step.DeliverEntry? || step.ClaimEntry?) && step.entry in s.db.stream && s.db.stream[step.entry] == t
  }

  /** A handler is started only if no other handler is acting on the task. */
  ghost predicate SerialStep(s: State, step: Step) {
    forall p | p in s.workers && Acting(s.workers[p].pc) :: !HandsOutTask(s, step, s.workers[p].tid)
  }

  ghost predicate Serialised(run: Run) {
    |run.steps| < |run.states| && forall i | 0 <= i < |run.steps| :: SerialStep(run.states[i], run.steps[i])
  }

  ghost predicate OneHandlerPerTask(s: State) {
    forall p, q | p in s.workers && q in s.workers && p != q && Acting(s.workers[p].pc) && Acting(s.workers[q].pc) ::
      s.workers[p].tid != s.workers[q].tid
  }

  /** A handler is started only if no other handler has the task at all. */
  ghost predicate StrictStep(s: State, step: Step) {
    forall p | p in s.workers :: !HandsOutTask(s, step, s.workers[p].tid)
  }

  ghost predicate StrictlySerialised(run: Run) {
    |run.steps| < |run.states| && forall i | 0 <= i < |run.steps| :: StrictStep(run.states[i], run.steps[i])
  }

  ghost predicate Alone(s: State) {
    forall p, q | p in s.workers && q in s.workers && p != q :: s.workers[p].tid != s.workers[q].tid
  }

  lemma WorkKeepsOneHandler(s: State, pid: Pid, m: Move<Pc>)
    requires pid in s.workers && WorkShape(s.workers[pid], m)
    ensures OneHandlerPerTask(s) ==> OneHandlerPerTask(ApplyWork(s, pid, m))
    ensures Alone(s) ==> Alone(ApplyWork(s, pid, m))
  {
    hide ApplyEffect;
  }

  lemma StepKeepsOneHandler(cfg: Config, s: State, step: Step)
    requires Enabled(cfg, s, step) && s.nextPid !in s.workers
    ensures OneHandlerPerTask(s) && SerialStep(s, step) ==> OneHandlerPerTask(Apply(cfg, s, step))
    ensures Alone(s) && StrictStep(s, step) ==> Alone(Apply(cfg, s, step))
  {
    hide Advance, ApiMove, ApplyEffect, WorkShape;
    match step {
      case WorkStep(pid, input) =>
        hide ApplyWork, OneHandlerPerTask, Alone;
        WorkHasShape(cfg, s.db, s.workers[pid], input);
        WorkKeepsOneHandler(s, pid, WorkMove(cfg, s, pid, input));
      case _ =>
    }
  }

  lemma {:induction false} RunOneHandler(cfg: Config, run: Run, i: nat)
    requires IsRun(cfg, run) && Serialised(run) && i < |run.states|
    ensures OneHandlerPerTask(run.states[i])
  {
    hide Apply, Enabled, Inv, SerialStep, StrictStep, Alone;
    if i > 0 {
      RunOneHandler(cfg, run, i - 1);
      Invariant.RunInv(cfg, run, i - 1);
      Invariant.InvFacts(run.states[i - 1]);
      StepKeepsOneHandler(cfg, run.states[i - 1], run.steps[i - 1]);
    }
  }

  lemma {:induction false} RunAlone(cfg: Config, run: Run, i: nat)
    requires IsRun(cfg, run) && StrictlySerialised(run) && i < |run.states|
    ensures Alone(run.states[i])
  {
    hide Apply, Enabled, Inv, SerialStep, StrictStep, OneHandlerPerTask;
    if i > 0 {
      RunAlone(cfg, run, i - 1);
      Invariant.RunInv(cfg, run, i - 1);
      Invariant.InvFacts(run.states[i - 1]);
      StepKeepsOneHandler(cfg, run.states[i - 1], run.steps[i - 1]);
    }
  }

  lemma StrictIsLeased(cfg: Config, s: State, step: Step)
    requires Inv(s) && Enabled(cfg, s, step) && StrictStep(s, step)
    ensures Leased(s, step)
  {
    hide TasksOk, RequestsOk, StreamOk;
    forall p | p in s.workers ensures step.ClaimEntry? ==> s.workers[p].entry != step.entry {
      assert HandlerOk(s, s.workers[p]);
      assert !HandsOutTask(s, step, s.workers[p].tid);
    }
  }

  /** In the strict form no entry with a live handler is claimed. */
  lemma StrictLeases(cfg: Config, run: Run)
    requires IsRun(cfg, run) && StrictlySerialised(run)
    ensures LeasesOutlast(run)
  {
    hide Apply, Enabled, Inv, StrictStep, Leased;
    forall i | 0 <= i < |run.steps| ensures Leased(run.states[i], run.steps[i]) {
      Invariant.RunInv(cfg, run, i);
      StrictIsLeased(cfg, run.states[i], run.steps[i]);
    }
  }
}
