/** No enqueued task is ever lost, in every interleaved run with crashes and with failed
    or ambiguous writes, and even when a task has several entries, as long as no lease is taken
    from a live handler (`Stale` has a run in which one is, and the task is lost). */
module NoLoss {
  import Identity
  import Reports
  import opened Store
  import opened Handler
  import Request
  import opened System
  import Invariant

  /** The handler has recorded an outcome (a terminal state, or a fresh entry) and is on
      its way to acknowledging its entry. The acknowledgement phase proper is Ack and Del. */
  predicate Done(pc: Pc) {
    pc.ClearCompleted? || pc.Publish? || pc.ClearOriginal? || pc.ClearFailed? || pc.ClearForced? || pc.Ack? || pc.Del?
  }

  predicate InAckPhase(pc: Pc) { pc.Ack? || pc.Del? }

  predicate TerminallyPersisted(db: Db, t: TaskId) {
    t in db.tasks && Reports.Terminal(db.tasks[t].state)
  }

  /** Entry `e` still stands for task `t`: it is undelivered, or pending and not held by a
      handler that is done with it. */
  ghost predicate Anchor(s: State, t: TaskId, e: EntryId) {
    && e in s.db.stream && s.db.stream[e] == t
    && (e > s.db.lastDelivered
        || (e in s.db.pel && forall p | p in s.workers && s.workers[p].entry == e :: !Done(s.workers[p].pc)))
  }

  ghost predicate Covered(s: State, t: TaskId) {
    TerminallyPersisted(s.db, t) || exists e :: Anchor(s, t, e)
  }

  // ----- one handler move, locally ------------------------------------------------------

  /** A handler is done only once a terminal state is persisted or a fresh entry exists;
      a handler that is done saves nothing more. */
  predicate Disciplined(db: Db, w: Worker, m: Move<Pc>) {
    && (m.effect.SaveTask? ==> !Done(w.pc))
    && (m.effect.SaveTask? && m.next.Some? && Done(m.next.value) ==> Reports.Terminal(m.effect.task.state))
    && (m.next.Some? && Done(m.next.value) && !Done(w.pc) ==>
          m.effect.SaveTask? || m.effect.AppendEntry? || (m.effect.NoEffect? && TerminallyPersisted(db, w.tid)))
  }

  lemma SuccessIsDisciplined(cfg: Config, db: Db, w: Worker, input: Input)
    requires LocalOk(w.pc) && InSuccess(w.pc)
    ensures Disciplined(db, w, Advance(cfg, db, w.tid, w.entry, w.pc, input))
  {
    hide Identity.LogicalPath, AdvancePublish, FailTransiently;
  }

  lemma WorkIsDisciplined(cfg: Config, db: Db, w: Worker, input: Input)
    requires LocalOk(w.pc) && Persisted(db, w.tid)
    ensures Disciplined(db, w, Advance(cfg, db, w.tid, w.entry, w.pc, input))
  {
    hide Identity.LogicalPath, AdvanceProcessing, AdvanceSuccess, Identity.PendingKey;
    if InSuccess(w.pc) {
      SuccessIsDisciplined(cfg, db, w, input);
    }
  }

  // ----- one step, globally ----------------------------------------------------------------

  /** Another handler's entry, or an undelivered one, is not affected by a handler's move. */
  lemma WorkKeepsOtherAnchor(s: State, pid: Pid, m: Move<Pc>, t: TaskId, e: EntryId)
    requires pid in s.workers && WorkShape(s.workers[pid], m) && StreamOk(s.db)
    requires Anchor(s, t, e) && e != s.workers[pid].entry
    ensures Anchor(ApplyWork(s, pid, m), t, e)
  {
  }

  /** A handler that is not done keeps its own entry's claim. */
  lemma OwnAnchor(s: State, pid: Pid, m: Move<Pc>)
    requires pid in s.workers && WorkersOk(s) && WorkShape(s.workers[pid], m)
    requires !Done(s.workers[pid].pc) && (m.next.Some? ==> !Done(m.next.value))
    ensures Anchor(ApplyWork(s, pid, m), s.workers[pid].tid, s.workers[pid].entry)
  {
    var w := s.workers[pid];
    assert WorkerOk(s, w);
    assert forall p | p in s.workers && p != pid :: s.workers[p].entry != w.entry;
  }

  lemma FreshAnchor(s: State, s': State, t: TaskId)
    requires StreamOk(s.db) && s'.db == ApplyEffect(s.db, AppendEntry(t))
    ensures Covered(s', t)
  {
    assert Anchor(s', t, s.db.nextEntry);
  }

  lemma WorkKeepsCovered(s: State, pid: Pid, m: Move<Pc>, t: TaskId)
    requires StreamOk(s.db) && WorkersOk(s) && pid in s.workers
    requires WorkShape(s.workers[pid], m) && Disciplined(s.db, s.workers[pid], m)
    requires Covered(s, t)
    ensures Covered(ApplyWork(s, pid, m), t)
  {
    hide WorkersOk, WorkShape, Anchor, StreamOk;
    var s', w := ApplyWork(s, pid, m), s.workers[pid];
    OwnFacts(s, pid, m, t);
    if !Done(w.pc) && (m.next.Some? ==> !Done(m.next.value)) {
      OwnAnchor(s, pid, m);
    }
    if m.effect.AppendEntry? {
      FreshAnchor(s, s', w.tid);
    }
    if !TerminallyPersisted(s.db, t) {
      var e :| Anchor(s, t, e);
      if e != w.entry {
        WorkKeepsOtherAnchor(s, pid, m, t, e);
      }
    }
  }

  lemma OwnFacts(s: State, pid: Pid, m: Move<Pc>, t: TaskId)
    requires WorkersOk(s) && pid in s.workers && WorkShape(s.workers[pid], m)
    ensures WorkerOk(s, s.workers[pid]) && !m.effect.CreateTask?
    ensures m.effect.SaveTask? || m.effect.AppendEntry? ==> m.effect.tid == s.workers[pid].tid
    ensures Anchor(s, t, s.workers[pid].entry) ==> s.workers[pid].tid == t && !Done(s.workers[pid].pc)
  {
    assert WorkerOk(s, s.workers[pid]);
  }

  /** A live request's task is not covered yet, so nothing it writes matters here. */
  lemma ApiKeepsCovered(s: State, pid: Pid, m: Move<Request.RequestPc>, t: TaskId)
    requires StreamOk(s.db) && pid in s.requests && RequestOk(s, s.requests[pid]) && ApiShape(s.requests[pid], m)
    requires Covered(s, t)
    ensures Covered(ApplyApi(s, pid, m), t)
  {
    var s', r := ApplyApi(s, pid, m), s.requests[pid];
    assert t != r.id;
    if !TerminallyPersisted(s.db, t) {
      var e :| Anchor(s, t, e);
      assert Anchor(s', t, e);
    }
  }

  lemma StartKeepsCovered(s: State, db: Db, e0: EntryId, lease: Lease, t: TaskId)
    requires Inv(s) && Covered(s, t)
    requires e0 in s.db.stream && forall p | p in s.workers :: s.workers[p].entry != e0
    requires db == s.db.(lastDelivered := db.lastDelivered, pel := s.db.pel[e0 := lease])
    requires forall e | e in s.db.stream && e > s.db.lastDelivered :: e > db.lastDelivered || e == e0
    ensures Covered(StartWorker(s, db, e0), t)
  {
    var s' := StartWorker(s, db, e0);
    if !TerminallyPersisted(s.db, t) {
      var e :| Anchor(s, t, e);
      assert Anchor(s', t, e);
    }
  }

  lemma LossKeepsCovered(s: State, s': State, t: TaskId)
    requires Invariant.OnlyLoses(s, s') && Covered(s, t)
    ensures Covered(s', t)
  {
    if !TerminallyPersisted(s.db, t) {
      var e :| Anchor(s, t, e);
      assert Anchor(s', t, e);
    }
  }

  lemma WorkStepKeepsCovered(cfg: Config, s: State, pid: Pid, input: Input, t: TaskId)
    requires LeasedInv(s) && pid in s.workers && Covered(s, t)
    ensures Covered(ApplyWork(s, pid, WorkMove(cfg, s, pid, input)), t)
  {
    hide StreamOk, HandlersOk, WorkersOk, RequestsOk, Covered, Advance, WorkShape, Disciplined, LocalOk;
    var w := s.workers[pid];
    assert LocalOk(w.pc) && Persisted(s.db, w.tid);
    Invariant.WorkFacts(cfg, s, pid, input);
    WorkIsDisciplined(cfg, s.db, w, input);
    WorkKeepsCovered(s, pid, WorkMove(cfg, s, pid, input), t);
  }

  lemma StepKeepsCovered(cfg: Config, s: State, step: Step, t: TaskId)
    requires LeasedInv(s) && Enabled(cfg, s, step) && Leased(s, step) && Covered(s, t)
    ensures Covered(Apply(cfg, s, step), t)
  {
    hide HandlersOk, WorkersOk, TasksOk, RequestsOk, WorkMove, Request.AdvanceRequest, ApplyWork, ApplyApi, StartWorker, Covered;
    match step {
      case Arrive(_, _) => ArriveKeepsCovered(s, Apply(cfg, s, step), t);
      case ApiStep(pid, input) =>
        Invariant.OwnRequestOk(s, pid);
        ApiHasShape(cfg, s.db, s.requests[pid], input);
        ApiKeepsCovered(s, pid, ApiMove(cfg, s, pid, input), t);
      case DeliverEntry(e, consumer) =>
        Invariant.UndeliveredIsFree(s, e);
        StartKeepsCovered(s, Deliver(s.db, e, consumer, s.now), e, Lease(consumer, s.now), t);
      case ClaimEntry(e, consumer) =>
        StartKeepsCovered(s, Claim(s.db, e, consumer, s.now), e, Lease(consumer, s.now), t);
      case WorkStep(pid, input) => WorkStepKeepsCovered(cfg, s, pid, input, t);
      case _ => LossKeepsCovered(s, Apply(cfg, s, step), t);
    }
  }

  lemma ArriveKeepsCovered(s: State, s': State, t: TaskId)
    requires s'.db == s.db && s'.workers == s.workers && Covered(s, t)
    ensures Covered(s', t)
  {
    if !TerminallyPersisted(s.db, t) {
      var e :| Anchor(s, t, e);
      assert Anchor(s', t, e);
    }
  }

  // ----- whole runs ---------------------------------------------------------------------------

  /** A new entry is undelivered. */
  lemma AppendedIsUndelivered(cfg: Config, s: State, step: Step, e: EntryId)
    requires StreamOk(s.db) && Enabled(cfg, s, step)
    requires e !in s.db.stream && e in Apply(cfg, s, step).db.stream
    ensures e > Apply(cfg, s, step).db.lastDelivered
  {
    hide Advance, Request.AdvanceRequest, ApplyEffect;
    match step {
      case ApiStep(pid, input) => EffectOnParts(s.db, ApiMove(cfg, s, pid, input).effect);
      case WorkStep(pid, input) => EffectOnParts(s.db, WorkMove(cfg, s, pid, input).effect);
      case _ =>
    }
  }

  lemma {:induction false} StaysCovered(cfg: Config, run: Run, i: nat, j: nat, t: TaskId)
    requires IsRun(cfg, run) && LeasesOutlast(run) && i <= j < |run.states| && Covered(run.states[i], t)
    ensures Covered(run.states[j], t)
  {
    hide Covered, Apply, Enabled, Inv, WorkersOk, Leased;
    if i < j {
      StaysCovered(cfg, run, i, j - 1, t);
      Invariant.RunLeased(cfg, run, j - 1);
      StepKeepsCovered(cfg, run.states[j - 1], run.steps[j - 1], t);
    }
  }

  /** Entries are never rewritten. */
  lemma StepKeepsEntry(cfg: Config, s: State, step: Step, e: EntryId)
    requires StreamOk(s.db) && Enabled(cfg, s, step) && e in s.db.stream && e in Apply(cfg, s, step).db.stream
    ensures Apply(cfg, s, step).db.stream[e] == s.db.stream[e]
  {
    hide Advance, Request.AdvanceRequest, ApplyEffect;
    match step {
      case ApiStep(pid, input) => EffectOnParts(s.db, ApiMove(cfg, s, pid, input).effect);
      case WorkStep(pid, input) => EffectOnParts(s.db, WorkMove(cfg, s, pid, input).effect);
      case _ =>
    }
  }

  /** The task of any entry in the stream is covered: it was when the entry was appended. */
  lemma {:induction false} EntryIsCovered(cfg: Config, run: Run, i: nat, e: EntryId)
    requires IsRun(cfg, run) && LeasesOutlast(run) && i < |run.states| && e in run.states[i].db.stream
    ensures Covered(run.states[i], run.states[i].db.stream[e])
  {
    hide Apply, Enabled, Inv, WorkersOk, Leased, Covered, StreamOk;
    if i > 0 {
      var s, step := run.states[i - 1], run.steps[i - 1];
      Invariant.RunLeased(cfg, run, i - 1);
      Invariant.InvFacts(s);
      if e in s.db.stream {
        EntryIsCovered(cfg, run, i - 1, e);
        StepKeepsEntry(cfg, s, step, e);
        StepKeepsCovered(cfg, s, step, s.db.stream[e]);
      } else {
        AppendedIsUndelivered(cfg, s, step, e);
        UndeliveredCovers(run.states[i], e);
      }
    }
  }

  lemma UndeliveredCovers(s: State, e: EntryId)
    requires e in s.db.stream && e > s.db.lastDelivered
    ensures Covered(s, s.db.stream[e])
  {
    assert Anchor(s, s.db.stream[e], e);
  }

  /** Once its XADD has taken effect, so that it has been in the stream, a task is from then on
      persisted COMPLETED or FAILED, or has an entry that is undelivered, or pending and not
      held by a handler in its acknowledgement phase. */
  lemma NoEnqueuedTaskIsLost(cfg: Config, run: Run, i: nat, j: nat, appended: EntryId)
    requires IsRun(cfg, run) && LeasesOutlast(run) && i <= j < |run.states| && appended in run.states[i].db.stream
    ensures var s, t := run.states[j], run.states[i].db.stream[appended];
            TerminallyPersisted(s.db, t)
            || exists e :: e in s.db.stream && s.db.stream[e] == t
                 && (e > s.db.lastDelivered
                     || (e in s.db.pel
                         && forall p | p in s.workers && s.workers[p].entry == e :: !InAckPhase(s.workers[p].pc)))
  {
    hide IsRun, LeasesOutlast;
    var s, t := run.states[j], run.states[i].db.stream[appended];
    EntryIsCovered(cfg, run, i, appended);
    StaysCovered(cfg, run, i, j, t);
    if !TerminallyPersisted(s.db, t) {
      var e :| Anchor(s, t, e);
    }
  }
}
