/** The basic invariant of every run: leases, handlers, task records and requests fit
    together, whatever crashes and whichever writes fail. */
module Invariant {
  import opened Store
  import opened Handler
  import opened Request
  import opened System

  // ----- handlers, given only the shape of a move -------------------------------------

  lemma WorkKeepsStream(s: State, pid: Pid, m: Move<Pc>)
    requires StreamOk(s.db) && pid in s.workers && HandlerOk(s, s.workers[pid]) && WorkShape(s.workers[pid], m)
    ensures StreamOk(ApplyWork(s, pid, m).db)
  {
  }

  lemma WorkKeepsHandler(s: State, pid: Pid, m: Move<Pc>, w: Worker)
    requires StreamOk(s.db) && HandlerOk(s, w) && pid in s.workers && WorkShape(s.workers[pid], m)
    ensures HandlerOk(ApplyWork(s, pid, m), w)
    ensures w == s.workers[pid] && m.next.Some? ==> HandlerOk(ApplyWork(s, pid, m), w.(pc := m.next.value))
  {
  }

  lemma WorkKeepsHandlers(s: State, pid: Pid, m: Move<Pc>)
    requires StreamOk(s.db) && HandlersOk(s) && pid in s.workers && WorkShape(s.workers[pid], m)
    ensures StreamOk(ApplyWork(s, pid, m).db) && HandlersOk(ApplyWork(s, pid, m))
  {
    hide StreamOk, ApplyEffect, WorkShape, HandlerOk;
    var s' := ApplyWork(s, pid, m);
    WorkKeepsStream(s, pid, m);
    forall p | p in s'.workers ensures HandlerOk(s', s'.workers[p]) {
      WorkKeepsHandler(s, pid, m, s.workers[p]);
    }
  }

  lemma WorkKeepsWorker(s: State, pid: Pid, m: Move<Pc>, p: Pid)
    requires StreamOk(s.db) && WorkersOk(s) && pid in s.workers && WorkShape(s.workers[pid], m)
    requires p in ApplyWork(s, pid, m).workers
    ensures WorkerOk(ApplyWork(s, pid, m), ApplyWork(s, pid, m).workers[p])
  {
    assert WorkerOk(s, s.workers[p]) && WorkerOk(s, s.workers[pid]);
    assert p != pid ==> s.workers[p].entry != s.workers[pid].entry;
  }

  lemma WorkKeepsWorkers(s: State, pid: Pid, m: Move<Pc>)
    requires StreamOk(s.db) && WorkersOk(s) && pid in s.workers && WorkShape(s.workers[pid], m)
    ensures WorkersOk(ApplyWork(s, pid, m))
  {
    hide StreamOk, ApplyEffect, WorkShape, WorkerOk;
    var s' := ApplyWork(s, pid, m);
    forall p | p in s'.workers ensures WorkerOk(s', s'.workers[p]) {
      WorkKeepsWorker(s, pid, m, p);
    }
  }

  /** A handler writes no record but its own task's. */
  lemma WorkOnTasks(s: State, pid: Pid, m: Move<Pc>)
    requires pid in s.workers && WorkShape(s.workers[pid], m)
    ensures ApplyWork(s, pid, m).db.tasks
         == if m.effect.SaveTask? then s.db.tasks[s.workers[pid].tid := m.effect.task] else s.db.tasks
  {
    hide ApplyEffect;
    EffectOnParts(s.db, m.effect);
  }

  /** No record is lost, and none goes back to ACCEPTED. */
  lemma WorkKeepsPersisted(s: State, pid: Pid, m: Move<Pc>, t: TaskId)
    requires pid in s.workers && WorkShape(s.workers[pid], m) && LocalOk(s.workers[pid].pc)
    requires Persisted(s.db, t)
    ensures Persisted(ApplyWork(s, pid, m).db, t)
  {
  }

  lemma WorkKeepsTasks(s: State, pid: Pid, m: Move<Pc>)
    requires TasksOk(s) && pid in s.workers && WorkShape(s.workers[pid], m)
    requires m.next.Some? ==> LocalOk(m.next.value)
    ensures TasksOk(ApplyWork(s, pid, m))
  {
    hide LocalOk;
    var s', w := ApplyWork(s, pid, m), s.workers[pid];
    assert LocalOk(w.pc) && Persisted(s.db, w.tid);
    forall e | e in s'.db.stream ensures Persisted(s'.db, s'.db.stream[e]) {
      WorkKeepsPersisted(s, pid, m, s'.db.stream[e]);
    }
    forall p | p in s'.workers ensures Persisted(s'.db, s'.workers[p].tid) {
      WorkKeepsPersisted(s, pid, m, s.workers[p].tid);
    }
  }

  lemma WorkKeepsRequest(s: State, pid: Pid, m: Move<Pc>, r: Request)
    requires pid in s.workers && WorkShape(s.workers[pid], m) && RequestOk(s, r)
    ensures RequestOk(ApplyWork(s, pid, m), r)
  {
    assert s.workers[pid].tid != r.id;
  }

  lemma WorkKeepsRequests(s: State, pid: Pid, m: Move<Pc>)
    requires RequestsOk(s) && pid in s.workers && WorkShape(s.workers[pid], m)
    ensures RequestsOk(ApplyWork(s, pid, m))
  {
    hide RequestOk, ApplyEffect, WorkShape;
    forall p | p in s.requests ensures RequestOk(ApplyWork(s, pid, m), s.requests[p]) {
      WorkKeepsRequest(s, pid, m, s.requests[p]);
    }
  }

  lemma WorkFacts(cfg: Config, s: State, pid: Pid, input: Input)
    requires TasksOk(s) && pid in s.workers
    ensures WorkShape(s.workers[pid], WorkMove(cfg, s, pid, input))
    ensures var m := WorkMove(cfg, s, pid, input); m.next.Some? ==> LocalOk(m.next.value)
  {
    hide Advance, LocalOk, WorkShape;
    var w := s.workers[pid];
    assert LocalOk(w.pc) && Persisted(s.db, w.tid);
    WorkHasShape(cfg, s.db, w, input);
    WorkKeepsLocal(cfg, s.db, w, input);
  }

  lemma WorkStepKeepsInv(cfg: Config, s: State, pid: Pid, input: Input)
    requires Inv(s) && pid in s.workers
    ensures Inv(ApplyWork(s, pid, WorkMove(cfg, s, pid, input)))
  {
    hide WorkMove, StreamOk, HandlersOk, TasksOk, RequestsOk, ApplyEffect, WorkShape, LocalOk;
    WorkFacts(cfg, s, pid, input);
    var m := WorkMove(cfg, s, pid, input);
    WorkKeepsHandlers(s, pid, m);
    WorkKeepsTasks(s, pid, m);
    WorkKeepsRequests(s, pid, m);
  }

  // ----- requests --------------------------------------------------------------------

  lemma ApiKeepsWorkers(s: State, pid: Pid, m: Move<RequestPc>)
    requires StreamOk(s.db) && WorkersOk(s) && pid in s.requests && ApiShape(s.requests[pid], m)
    ensures WorkersOk(ApplyApi(s, pid, m))
  {
    var s' := ApplyApi(s, pid, m);
    forall p | p in s'.workers ensures WorkerOk(s', s'.workers[p]) {
      assert WorkerOk(s, s.workers[p]);
    }
  }

  lemma ApiKeepsHandlers(s: State, pid: Pid, m: Move<RequestPc>)
    requires StreamOk(s.db) && HandlersOk(s) && pid in s.requests && ApiShape(s.requests[pid], m)
    ensures var s' := ApplyApi(s, pid, m); StreamOk(s'.db) && HandlersOk(s')
  {
    var s' := ApplyApi(s, pid, m);
    forall p | p in s'.workers ensures HandlerOk(s', s'.workers[p]) {
      assert HandlerOk(s, s.workers[p]);
    }
  }

  lemma ApiKeepsPersisted(s: State, pid: Pid, m: Move<RequestPc>, t: TaskId)
    requires pid in s.requests && ApiShape(s.requests[pid], m) && t != s.requests[pid].id && Persisted(s.db, t)
    ensures Persisted(ApplyApi(s, pid, m).db, t)
  {
  }

  lemma ApiKeepsTasks(s: State, pid: Pid, m: Move<RequestPc>)
    requires TasksOk(s) && pid in s.requests && ApiShape(s.requests[pid], m) && RequestOk(s, s.requests[pid])
    ensures TasksOk(ApplyApi(s, pid, m))
  {
    var s', r := ApplyApi(s, pid, m), s.requests[pid];
    forall e | e in s.db.stream ensures Persisted(s'.db, s.db.stream[e]) {
      ApiKeepsPersisted(s, pid, m, s.db.stream[e]);
    }
    forall p | p in s.workers ensures Persisted(s'.db, s.workers[p].tid) {
      ApiKeepsPersisted(s, pid, m, s.workers[p].tid);
    }
  }

  lemma ApiKeepsOther(s: State, pid: Pid, m: Move<RequestPc>, r: Request)
    requires pid in s.requests && ApiShape(s.requests[pid], m)
    requires RequestOk(s, r) && r.id != s.requests[pid].id
    ensures RequestOk(ApplyApi(s, pid, m), r)
  {
  }

  lemma ApiKeepsOwn(s: State, pid: Pid, m: Move<RequestPc>)
    requires pid in s.requests && ApiShape(s.requests[pid], m) && RequestOk(s, s.requests[pid]) && m.next.Some?
    ensures RequestOk(ApplyApi(s, pid, m), s.requests[pid].(pc := m.next.value))
  {
  }

  lemma ApiKeepsRequests(s: State, pid: Pid, m: Move<RequestPc>)
    requires RequestsOk(s) && pid in s.requests && ApiShape(s.requests[pid], m)
    ensures RequestsOk(ApplyApi(s, pid, m))
  {
    hide RequestOk, ApplyEffect, ApiShape;
    var s' := ApplyApi(s, pid, m);
    forall p | p in s'.requests ensures RequestOk(s', s'.requests[p]) {
      if p == pid {
        ApiKeepsOwn(s, pid, m);
      } else {
        ApiKeepsOther(s, pid, m, s.requests[p]);
      }
    }
  }

  lemma OwnRequestOk(s: State, pid: Pid)
    requires RequestsOk(s) && pid in s.requests
    ensures RequestOk(s, s.requests[pid])
  {
  }

  lemma ApiStepKeepsInv(cfg: Config, s: State, pid: Pid, input: Input)
    requires Inv(s) && pid in s.requests
    ensures Inv(ApplyApi(s, pid, ApiMove(cfg, s, pid, input)))
  {
    hide AdvanceRequest, StreamOk, HandlersOk, TasksOk, RequestsOk, ApplyEffect, ApiShape, RequestOk;
    ApiHasShape(cfg, s.db, s.requests[pid], input);
    OwnRequestOk(s, pid);
    var m := ApiMove(cfg, s, pid, input);
    ApiKeepsHandlers(s, pid, m);
    ApiKeepsTasks(s, pid, m);
    ApiKeepsRequests(s, pid, m);
  }

  // ----- deliveries, crashes and the rest --------------------------------------------------

  lemma StartKeepsWorkers(s: State, db: Db, e: EntryId, lease: Lease)
    requires StreamOk(s.db) && WorkersOk(s)
    requires e in s.db.stream && forall p | p in s.workers :: s.workers[p].entry != e
    requires db == s.db.(lastDelivered := db.lastDelivered, pel := s.db.pel[e := lease])
    requires e <= db.lastDelivered < s.db.nextEntry && s.db.lastDelivered <= db.lastDelivered
    ensures WorkersOk(StartWorker(s, db, e))
  {
    var s' := StartWorker(s, db, e);
    forall p | p in s'.workers ensures WorkerOk(s', s'.workers[p]) {
      assert p in s.workers ==> WorkerOk(s, s.workers[p]);
    }
  }

  lemma StartKeepsHandlers(s: State, db: Db, e: EntryId, lease: Lease)
    requires StreamOk(s.db) && HandlersOk(s) && e in s.db.stream && (e in s.db.pel || e > s.db.lastDelivered)
    requires db == s.db.(lastDelivered := db.lastDelivered, pel := s.db.pel[e := lease])
    requires e <= db.lastDelivered < s.db.nextEntry && s.db.lastDelivered <= db.lastDelivered
    ensures StreamOk(db) && HandlersOk(StartWorker(s, db, e))
  {
    var s' := StartWorker(s, db, e);
    forall p | p in s'.workers ensures HandlerOk(s', s'.workers[p]) {
      assert p in s.workers ==> HandlerOk(s, s.workers[p]);
    }
  }

  lemma StartKeepsTasks(s: State, db: Db, e: EntryId)
    requires TasksOk(s) && e in s.db.stream && db.stream == s.db.stream && db.tasks == s.db.tasks
    ensures TasksOk(StartWorker(s, db, e))
  {
  }

  lemma StartKeepsRequests(s: State, db: Db, e: EntryId)
    requires RequestsOk(s) && e in s.db.stream && db.stream == s.db.stream && db.tasks == s.db.tasks
    ensures RequestsOk(StartWorker(s, db, e))
  {
    forall p | p in s.requests ensures RequestOk(StartWorker(s, db, e), s.requests[p]) {
      assert RequestOk(s, s.requests[p]);
    }
  }

  lemma UndeliveredIsFree(s: State, e: EntryId)
    requires WorkersOk(s) && e > s.db.lastDelivered
    ensures forall p | p in s.workers :: s.workers[p].entry != e
  {
    assert forall p | p in s.workers :: WorkerOk(s, s.workers[p]);
  }

  lemma InvFacts(s: State)
    requires Inv(s)
    ensures StreamOk(s.db) && (forall e | e in s.db.pel :: e <= s.db.lastDelivered)
    ensures s.nextPid !in s.workers && s.nextPid !in s.requests && s.workers.Keys !! s.requests.Keys
  {
  }

  lemma StartKeepsInv(s: State, db: Db, e: EntryId, lease: Lease)
    requires Inv(s)
    requires e in s.db.stream && (e in s.db.pel || e > s.db.lastDelivered)
    requires db == s.db.(lastDelivered := db.lastDelivered, pel := s.db.pel[e := lease])
    requires e <= db.lastDelivered < s.db.nextEntry && s.db.lastDelivered <= db.lastDelivered
    ensures Inv(StartWorker(s, db, e))
  {
    hide StreamOk, HandlersOk, TasksOk, RequestsOk;
    StartKeepsHandlers(s, db, e, lease);
    StartKeepsTasks(s, db, e);
    StartKeepsRequests(s, db, e);
    InvFacts(s);
  }

  lemma ArriveKeepsInv(s: State, r: Request)
    requires Inv(s) && r.id == s.nextTask && r.pc == Lookup
    ensures Inv(s.(requests := s.requests[s.nextPid := r], nextPid := s.nextPid + 1, nextTask := s.nextTask + 1))
  {
    var s' := s.(requests := s.requests[s.nextPid := r], nextPid := s.nextPid + 1, nextTask := s.nextTask + 1);
    assert forall e | e in s.db.stream :: Persisted(s.db, s.db.stream[e]);
    forall p | p in s'.workers ensures HandlerOk(s', s'.workers[p]) && s'.workers[p].tid != r.id {
      assert HandlerOk(s, s.workers[p]) && Persisted(s.db, s.workers[p].tid);
    }
    forall p | p in s'.requests ensures RequestOk(s', s'.requests[p]) {
      assert p in s.requests ==> RequestOk(s, s.requests[p]);
    }
  }

  /** A step that only loses processes, drops a pending pointer or lets time pass. */
  ghost predicate OnlyLoses(s: State, s': State) {
    && s'.db == s.db.(pending := s'.db.pending)
    && s'.workers.Keys <= s.workers.Keys && s'.requests.Keys <= s.requests.Keys
    && (forall p | p in s'.workers :: s'.workers[p] == s.workers[p])
    && (forall p | p in s'.requests :: s'.requests[p] == s.requests[p])
    && s'.nextPid == s.nextPid && s'.nextTask == s.nextTask
  }

  lemma LossKeepsWorkers(s: State, s': State)
    requires WorkersOk(s) && OnlyLoses(s, s')
    ensures WorkersOk(s')
  {
    forall p | p in s'.workers ensures WorkerOk(s', s'.workers[p]) {
      assert WorkerOk(s, s.workers[p]);
    }
  }

  lemma LossKeepsHandlers(s: State, s': State)
    requires StreamOk(s.db) && HandlersOk(s) && OnlyLoses(s, s')
    ensures StreamOk(s'.db) && HandlersOk(s')
  {
    forall p | p in s'.workers ensures HandlerOk(s', s'.workers[p]) {
      assert HandlerOk(s, s.workers[p]);
    }
  }

  lemma LossKeepsInv(s: State, s': State)
    requires Inv(s) && OnlyLoses(s, s')
    ensures Inv(s')
  {
    hide StreamOk, HandlersOk;
    LossKeepsHandlers(s, s');
    forall p | p in s'.requests ensures RequestOk(s', s'.requests[p]) {
      assert RequestOk(s, s.requests[p]);
    }
  }

  lemma DeliveryKeepsInv(cfg: Config, s: State, step: Step)
    requires Inv(s) && Enabled(cfg, s, step) && (step.DeliverEntry? || step.ClaimEntry?)
    ensures Inv(Apply(cfg, s, step))
  {
    hide TasksOk, RequestsOk, StartWorker;
    var lease := Lease(step.consumer, s.now);
    if step.DeliverEntry? {
      StartKeepsInv(s, Deliver(s.db, step.entry, step.consumer, s.now), step.entry, lease);
    } else {
      StartKeepsInv(s, Claim(s.db, step.entry, step.consumer, s.now), step.entry, lease);
    }
  }

  lemma StepKeepsInv(cfg: Config, s: State, step: Step)
    requires Inv(s) && Enabled(cfg, s, step)
    ensures Inv(Apply(cfg, s, step))
  {
    hide Inv, WorkMove, ApiMove, ApplyWork, ApplyApi, StartWorker;
    match step {
      case Arrive(identity, includeAmended) =>
        ArriveKeepsInv(s, Request(identity, includeAmended, s.nextTask, Lookup));
      case ApiStep(pid, input) => ApiStepKeepsInv(cfg, s, pid, input);
      case DeliverEntry(_, _) => DeliveryKeepsInv(cfg, s, step);
      case ClaimEntry(_, _) => DeliveryKeepsInv(cfg, s, step);
      case WorkStep(pid, input) => WorkStepKeepsInv(cfg, s, pid, input);
      case _ => LossKeepsInv(s, Apply(cfg, s, step));
    }
  }

  lemma {:induction false} RunInv(cfg: Config, run: Run, i: nat)
    requires IsRun(cfg, run) && i < |run.states|
    ensures Inv(run.states[i])
  {
    if i > 0 {
      RunInv(cfg, run, i - 1);
      StepKeepsInv(cfg, run.states[i - 1], run.steps[i - 1]);
    }
  }

  // ----- where leases outlast handlers ---------------------------------------------------------

  lemma DeliveryKeepsWorkers(cfg: Config, s: State, step: Step)
    requires LeasedInv(s) && Enabled(cfg, s, step) && Leased(s, step) && (step.DeliverEntry? || step.ClaimEntry?)
    ensures WorkersOk(Apply(cfg, s, step))
  {
    hide TasksOk, RequestsOk, HandlersOk, StartWorker;
    var lease := Lease(step.consumer, s.now);
    if step.DeliverEntry? {
      UndeliveredIsFree(s, step.entry);
      StartKeepsWorkers(s, Deliver(s.db, step.entry, step.consumer, s.now), step.entry, lease);
    } else {
      StartKeepsWorkers(s, Claim(s.db, step.entry, step.consumer, s.now), step.entry, lease);
    }
  }

  lemma ArriveKeepsWorkers(s: State, s': State)
    requires WorkersOk(s) && s'.db == s.db && s'.workers == s.workers && s'.nextPid >= s.nextPid
    ensures WorkersOk(s')
  {
    forall p | p in s'.workers ensures WorkerOk(s', s'.workers[p]) {
      assert WorkerOk(s, s.workers[p]);
    }
  }

  lemma StepKeepsLeased(cfg: Config, s: State, step: Step)
    requires LeasedInv(s) && Enabled(cfg, s, step) && Leased(s, step)
    ensures LeasedInv(Apply(cfg, s, step))
  {
    hide HandlersOk, WorkersOk, RequestsOk, WorkMove, AdvanceRequest, ApplyWork, ApplyApi, StartWorker, WorkShape, ApiShape;
    StepKeepsInv(cfg, s, step);
    match step {
      case Arrive(_, _) => ArriveKeepsWorkers(s, Apply(cfg, s, step));
      case ApiStep(pid, input) =>
        ApiHasShape(cfg, s.db, s.requests[pid], input);
        ApiKeepsWorkers(s, pid, ApiMove(cfg, s, pid, input));
      case DeliverEntry(_, _) => DeliveryKeepsWorkers(cfg, s, step);
      case ClaimEntry(_, _) => DeliveryKeepsWorkers(cfg, s, step);
      case WorkStep(pid, input) =>
        WorkFacts(cfg, s, pid, input);
        WorkKeepsWorkers(s, pid, WorkMove(cfg, s, pid, input));
      case _ => LossKeepsWorkers(s, Apply(cfg, s, step));
    }
  }

  lemma {:induction false} RunLeased(cfg: Config, run: Run, i: nat)
    requires IsRun(cfg, run) && LeasesOutlast(run) && i < |run.states|
    ensures LeasedInv(run.states[i])
  {
    hide Apply, Enabled, Leased;
    if i > 0 {
      RunLeased(cfg, run, i - 1);
      StepKeepsLeased(cfg, run.states[i - 1], run.steps[i - 1]);
    } else {
      RunInv(cfg, run, 0);
    }
  }
}
