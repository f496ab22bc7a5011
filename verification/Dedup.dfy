/** Deduplication over whole runs (app/reports/repository.py `get_or_create_task` and
    `clear_pending`, app/api/routes.py): a conservation law at the grain of single Redis
    commands, what it takes to break the promise of one task, and when it is kept. */
module Dedup {
  import opened Wrappers
  import opened Identity
  import opened Store
  import opened Handler
  import opened Request
  import opened System
  import opened Invariant

  // ----- what is counted ------------------------------------------------------------------------

  /** This step creates a task under the key. */
  ghost predicate CreatesAt(s: State, s': State, key: string) {
    exists t :: t in s'.db.tasks && t !in s.db.tasks && TaskPendingKey(s'.db.tasks[t]) == key
  }

  /** This step removes the key's pointer: it is cleared, or it expires. */
  predicate RemovesAt(s: State, s': State, key: string) {
    key in s.db.pending && key !in s'.db.pending
  }

  /** A request for the key takes this step. */
  predicate RequestSteps(s: State, step: Step, key: string) {
    (step.ApiStep? || step.ApiCrash?) && step.pid in s.requests && RequestKey(s.requests[step.pid]) == key
  }

  predicate TakesEffect(input: Input) { input.Ok? || input.RaisedApplied? }

  /** A request that found no task behind the key's pointer overwrites the pointer, although it
      is present. */
  predicate ReclaimsAt(s: State, step: Step, key: string) {
    && RequestSteps(s, step, key) && step.ApiStep? && key in s.db.pending
    && ((s.requests[step.pid].pc.Reclaim? && TakesEffect(step.input))
        || (s.requests[step.pid].pc.Reserve? && step.input.Atomically? && !Attaches(s.db, key)))
  }

  /** A request that has set the key's pointer, or sets it now, ends without saving its task. */
  predicate AbandonsAt(s: State, step: Step, key: string) {
    && RequestSteps(s, step, key)
    && var pc := s.requests[step.pid].pc;
       if pc.SaveAccepted? then step.ApiCrash? || !TakesEffect(step.input)
       else step.ApiStep? && step.input.RaisedApplied? && (pc.Reclaim? || (pc.Reserve? && key !in s.db.pending))
  }

  ghost function Created(run: Run, n: nat, key: string): nat
    requires n < |run.states|
  {
    if n == 0 then 0
    else Created(run, n - 1, key) + if CreatesAt(run.states[n - 1], run.states[n], key) then 1 else 0
  }

  ghost function Removed(run: Run, n: nat, key: string): nat
    requires n < |run.states|
  {
    if n == 0 then 0
    else Removed(run, n - 1, key) + if RemovesAt(run.states[n - 1], run.states[n], key) then 1 else 0
  }

  ghost function Reclaims(run: Run, n: nat, key: string): nat
    requires n <= |run.steps| && n < |run.states|
  {
    if n == 0 then 0
    else Reclaims(run, n - 1, key) + if ReclaimsAt(run.states[n - 1], run.steps[n - 1], key) then 1 else 0
  }

  ghost function Abandoned(run: Run, n: nat, key: string): nat
    requires n <= |run.steps| && n < |run.states|
  {
    if n == 0 then 0
    else Abandoned(run, n - 1, key) + if AbandonsAt(run.states[n - 1], run.steps[n - 1], key) then 1 else 0
  }

  /** Requests that have set the key's pointer and not saved their task yet. */
  function Saving(s: State, key: string): set<Pid> {
    set p | p in s.requests && IsSaving(s.requests[p], key)
  }

  predicate IsSaving(r: Request, key: string) { r.pc.SaveAccepted? && RequestKey(r) == key }

  function Present(s: State, key: string): nat { if key in s.db.pending then 1 else 0 }

  // ----- one step ----------------------------------------------------------------------------------

  /** What one step adds to the two sides of the law. */
  ghost predicate Ledger(s: State, step: Step, s': State, key: string) {
    (if CreatesAt(s, s', key) then 1 else 0) + |Saving(s', key)| - |Saving(s, key)| + (if AbandonsAt(s, step, key) then 1 else 0)
    == (if RemovesAt(s, s', key) then 1 else 0) + Present(s', key) - Present(s, key) + (if ReclaimsAt(s, step, key) then 1 else 0)
  }

  predicate SetsPointer(e: Effect) { e.SetPending? || e.CreateTask? }

  predicate Creates(r: Request, e: Effect) { e.CreateTask? || (e.SaveTask? && r.pc.SaveAccepted?) }

  /** A request's move, by itself: it saves, sets or abandons what it should. */
  predicate MoveLedger(db: Db, r: Request, input: Input, m: Move<RequestPc>) {
    && (m.next == Some(SaveAccepted) ==> !r.pc.SaveAccepted? && m.effect.SetPending?)
    && (r.pc.SaveAccepted? ==> !SetsPointer(m.effect) && (Creates(r, m.effect) <==> TakesEffect(input)))
    && (m.effect.SetPending? && m.next != Some(SaveAccepted) <==>
          input.RaisedApplied? && (r.pc.Reclaim? || (r.pc.Reserve? && RequestKey(r) !in db.pending)))
    && (SetsPointer(m.effect) && RequestKey(r) in db.pending <==>
          RequestKey(r) in db.pending
          && ((r.pc.Reclaim? && TakesEffect(input)) || (r.pc.Reserve? && input.Atomically? && !Attaches(db, RequestKey(r)))))
    && (m.effect.SaveTask? ==> r.pc.SaveAccepted? || Saved(r.pc))
  }

  /** A request that sets its pointer is past that point, and never goes back. */
  predicate MoveSettles(r: Request, m: Move<RequestPc>) {
    && (m.next.Some? && SetsPointer(m.effect) ==> m.next.value.SaveAccepted? || Saved(m.next.value))
    && (m.next.Some? && (r.pc.SaveAccepted? || Saved(r.pc)) ==> Saved(m.next.value))
  }

  lemma ApiHasLedger(cfg: Config, db: Db, r: Request, input: Input)
    ensures MoveLedger(db, r, input, AdvanceRequest(cfg, db, r, input)) && MoveSettles(r, AdvanceRequest(cfg, db, r, input))
  {
    hide LogicalPath, PendingKey, LogicalKey, DepthAdmits;
  }

  lemma SavingAfter(s: State, pid: Pid, m: Move<RequestPc>, key: string)
    requires pid in s.requests
    ensures |Saving(ApplyApi(s, pid, m), key)|
         == |Saving(s, key)|
            - (if s.requests[pid].pc.SaveAccepted? && RequestKey(s.requests[pid]) == key then 1 else 0)
            + (if m.next == Some(SaveAccepted) && RequestKey(s.requests[pid]) == key then 1 else 0)
  {
    var r, before, after := s.requests[pid], Saving(s, key), Saving(ApplyApi(s, pid, m), key);
    if m.next.Some? {
      KeyStays(r, m.next.value);
    }
    assert pid in before <==> r.pc.SaveAccepted? && RequestKey(r) == key;
    assert pid in after <==> m.next == Some(SaveAccepted) && RequestKey(r) == key by { OwnSaving(s, pid, m, key); }
    OtherSaving(s, pid, m, key);
    hide Saving, ApplyApi, RequestKey;
    WithoutOne(before, pid);
    WithoutOne(after, pid);
  }

  lemma OwnSaving(s: State, pid: Pid, m: Move<RequestPc>, key: string)
    requires pid in s.requests
    ensures pid in Saving(ApplyApi(s, pid, m), key) <==> m.next == Some(SaveAccepted) && RequestKey(s.requests[pid]) == key
  {
    hide ApplyEffect, RequestKey;
    if m.next.Some? {
      KeyStays(s.requests[pid], m.next.value);
    }
  }

  lemma OtherSaving(s: State, pid: Pid, m: Move<RequestPc>, key: string)
    requires pid in s.requests
    ensures Saving(ApplyApi(s, pid, m), key) - {pid} == Saving(s, key) - {pid}
  {
    hide ApplyEffect, IsSaving;
  }

  lemma WithoutOne(a: set<Pid>, p: Pid)
    ensures |a - {p}| == |a| - if p in a then 1 else 0
  {
    assert p !in a ==> a - {p} == a;
  }

  lemma KeyStays(r: Request, pc: RequestPc)
    ensures RequestKey(r.(pc := pc)) == RequestKey(r)
  {
  }

  lemma ApiCreates(s: State, pid: Pid, m: Move<RequestPc>, key: string)
    requires pid in s.requests && RequestOk(s, s.requests[pid]) && ApiShape(s.requests[pid], m)
    requires m.effect.SaveTask? ==> s.requests[pid].pc.SaveAccepted? || Saved(s.requests[pid].pc)
    ensures CreatesAt(s, ApplyApi(s, pid, m), key) <==> Creates(s.requests[pid], m.effect) && RequestKey(s.requests[pid]) == key
  {
    hide LogicalPath, PendingKey;
    var r, s' := s.requests[pid], ApplyApi(s, pid, m);
    if Creates(r, m.effect) {
      assert TaskPendingKey(s'.db.tasks[r.id]) == RequestKey(r);
    }
  }

  lemma ApiPointers(s: State, pid: Pid, m: Move<RequestPc>, key: string)
    requires pid in s.requests && ApiShape(s.requests[pid], m)
    ensures var pending' := ApplyApi(s, pid, m).db.pending;
            && (SetsPointer(m.effect) && RequestKey(s.requests[pid]) == key ==> key in pending' && pending'[key] == s.requests[pid].id)
            && (!(SetsPointer(m.effect) && RequestKey(s.requests[pid]) == key) ==>
                  key in pending' ==> key in s.db.pending && pending'[key] == s.db.pending[key])
  {
    hide RequestKey, RequestTask;
  }

  lemma ApiLedger(s: State, pid: Pid, input: Input, m: Move<RequestPc>, key: string)
    requires pid in s.requests && RequestOk(s, s.requests[pid])
    requires ApiShape(s.requests[pid], m) && MoveLedger(s.db, s.requests[pid], input, m)
    ensures Ledger(s, ApiStep(pid, input), ApplyApi(s, pid, m), key)
  {
    hide ApplyApi, ApiShape, RequestOk, RequestKey, Saving, CreatesAt;
    SavingAfter(s, pid, m, key);
    ApiCreates(s, pid, m, key);
    ApiPointers(s, pid, m, key);
  }

  lemma ApiCrashLedger(s: State, pid: Pid, key: string)
    requires pid in s.requests
    ensures Ledger(s, ApiCrash(pid), s.(requests := s.requests - {pid}), key)
  {
    hide RequestKey;
    SavingAfter(s, pid, ANSWERED, key);
    assert ApplyApi(s, pid, ANSWERED) == s.(requests := s.requests - {pid});
  }

  /** A handler, a delivery or the passing of time only drops pointers. */
  ghost predicate OnlyDrops(s: State, s': State) {
    && s'.db.tasks.Keys == s.db.tasks.Keys
    && (forall k | k in s'.db.pending :: k in s.db.pending && s'.db.pending[k] == s.db.pending[k])
  }

  lemma DropsLedger(s: State, step: Step, s': State, key: string)
    requires OnlyDrops(s, s') && Saving(s', key) == Saving(s, key) && !step.ApiStep? && !step.ApiCrash?
    ensures Ledger(s, step, s', key)
  {
    hide Saving;
  }

  /** A handler sets no pointer. */
  lemma WorkOnPending(s: State, pid: Pid, m: Move<Pc>)
    requires pid in s.workers && WorkShape(s.workers[pid], m)
    ensures forall k | k in ApplyWork(s, pid, m).db.pending :: k in s.db.pending && ApplyWork(s, pid, m).db.pending[k] == s.db.pending[k]
  {
    hide ApplyEffect;
    EffectOnParts(s.db, m.effect);
  }

  lemma WorkOnlyDrops(s: State, pid: Pid, m: Move<Pc>)
    requires pid in s.workers && s.workers[pid].tid in s.db.tasks && WorkShape(s.workers[pid], m)
    ensures OnlyDrops(s, ApplyWork(s, pid, m))
    ensures ApplyWork(s, pid, m).requests == s.requests && ApplyWork(s, pid, m).nextTask == s.nextTask
  {
    hide WorkShape, ApplyEffect;
    WorkOnTasks(s, pid, m);
    WorkOnPending(s, pid, m);
  }

  lemma WorkStepDrops(cfg: Config, s: State, pid: Pid, input: Input)
    requires Inv(s) && pid in s.workers
    ensures var s' := ApplyWork(s, pid, WorkMove(cfg, s, pid, input)); OnlyDrops(s, s') && s'.requests == s.requests && s'.nextTask == s.nextTask
  {
    hide StreamOk, HandlersOk, RequestsOk, Advance, WorkShape, LocalOk, OnlyDrops, ApplyWork;
    assert Persisted(s.db, s.workers[pid].tid);
    WorkFacts(cfg, s, pid, input);
    WorkOnlyDrops(s, pid, WorkMove(cfg, s, pid, input));
  }

  lemma OtherDrops(cfg: Config, s: State, step: Step, key: string)
    requires Inv(s) && Enabled(cfg, s, step) && !step.ApiStep? && !step.ApiCrash? && !step.WorkStep?
    ensures OnlyDrops(s, Apply(cfg, s, step)) && Saving(Apply(cfg, s, step), key) == Saving(s, key)
  {
    hide StreamOk, HandlersOk, TasksOk, RequestOk;
  }

  lemma StepLedger(cfg: Config, s: State, step: Step, key: string)
    requires Inv(s) && Enabled(cfg, s, step)
    ensures Ledger(s, step, Apply(cfg, s, step), key)
  {
    hide StreamOk, HandlersOk, TasksOk, RequestsOk, WorkMove, AdvanceRequest, ApplyWork, ApplyApi, Ledger, OnlyDrops;
    match step {
      case ApiStep(pid, input) =>
        OwnRequestOk(s, pid);
        ApiHasShape(cfg, s.db, s.requests[pid], input);
        ApiHasLedger(cfg, s.db, s.requests[pid], input);
        ApiLedger(s, pid, input, ApiMove(cfg, s, pid, input), key);
      case ApiCrash(pid) => ApiCrashLedger(s, pid, key);
      case WorkStep(pid, input) =>
        WorkStepDrops(cfg, s, pid, input);
        DropsLedger(s, step, Apply(cfg, s, step), key);
      case _ =>
        OtherDrops(cfg, s, step, key);
        DropsLedger(s, step, Apply(cfg, s, step), key);
    }
  }

  // ----- the conservation law --------------------------------------------------------------------------

  /** In every run, command by command: the tasks created under a key, the requests that still
      have to save theirs and those that never will add up to the effective removals of the key's
      pointer, plus one if the pointer is there, plus the times it was reclaimed while present. */
  lemma {:induction false} TasksAreConserved(cfg: Config, run: Run, n: nat, key: string)
    requires IsRun(cfg, run) && n < |run.states|
    ensures Created(run, n, key) + |Saving(run.states[n], key)| + Abandoned(run, n, key)
         == Removed(run, n, key) + (if key in run.states[n].db.pending then 1 else 0) + Reclaims(run, n, key)
  {
    hide Apply, Enabled, Inv, CreatesAt, RemovesAt, ReclaimsAt, AbandonsAt, Saving;
    if n > 0 {
      TasksAreConserved(cfg, run, n - 1, key);
      RunInv(cfg, run, n - 1);
      StepLedger(cfg, run.states[n - 1], run.steps[n - 1], key);
    } else {
      NothingSaving(key);
    }
  }

  lemma NothingSaving(key: string)
    ensures Saving(INITIAL, key) == {} && key !in INITIAL.db.pending
  {
  }

  /** A second task under a key whose pointer has not been removed takes a reclaim: a request
      that overwrote the pointer while it was present. */
  lemma SecondTaskNeedsReclaim(cfg: Config, run: Run, n: nat, key: string) returns (k: nat)
    requires IsRun(cfg, run) && n < |run.states| && Created(run, n, key) >= Removed(run, n, key) + 2
    ensures k < n && ReclaimsAt(run.states[k], run.steps[k], key)
  {
    hide Apply, Enabled, CreatesAt, RemovesAt, ReclaimsAt, AbandonsAt, Saving;
    TasksAreConserved(cfg, run, n, key);
    k := SomeReclaim(run, n, key);
  }

  lemma {:induction false} SomeReclaim(run: Run, n: nat, key: string) returns (k: nat)
    requires n <= |run.steps| && n < |run.states| && Reclaims(run, n, key) > 0
    ensures k < n && ReclaimsAt(run.states[k], run.steps[k], key)
  {
    if ReclaimsAt(run.states[n - 1], run.steps[n - 1], key) {
      k := n - 1;
    } else {
      k := SomeReclaim(run, n - 1, key);
    }
  }

  // ----- which task a pointer names ----------------------------------------------------------------------

  /** A request that has not set a pointer yet is named by none. */
  ghost predicate Unplaced(s: State) {
    && (forall key | key in s.db.pending :: s.db.pending[key] < s.nextTask)
    && forall p, key | p in s.requests && key in s.db.pending && !s.requests[p].pc.SaveAccepted? && !Saved(s.requests[p].pc) ::
         s.db.pending[key] != s.requests[p].id
  }

  lemma ApiKeepsUnplaced(s: State, pid: Pid, m: Move<RequestPc>)
    requires RequestsOk(s) && Unplaced(s) && pid in s.requests && ApiShape(s.requests[pid], m)
    requires MoveSettles(s.requests[pid], m)
    ensures Unplaced(ApplyApi(s, pid, m))
  {
    hide ApiShape, RequestKey, ApplyEffect;
    var s', r := ApplyApi(s, pid, m), s.requests[pid];
    assert RequestOk(s, r);
    forall key | key in s'.db.pending
      ensures s'.db.pending[key] == r.id || (key in s.db.pending && s'.db.pending[key] == s.db.pending[key])
    {
      ApiPointers(s, pid, m, key);
    }
    if !SetsPointer(m.effect) {
      forall key | key in s'.db.pending ensures key in s.db.pending && s'.db.pending[key] == s.db.pending[key] {
        ApiPointers(s, pid, m, key);
      }
    }
  }

  lemma DropsKeepUnplaced(s: State, s': State)
    requires Unplaced(s) && OnlyDrops(s, s') && s'.nextTask >= s.nextTask
    requires forall p | p in s'.requests :: (p in s.requests && s'.requests[p] == s.requests[p]) || s'.requests[p].id >= s.nextTask
    ensures Unplaced(s')
  {
  }

  lemma StepKeepsUnplaced(cfg: Config, s: State, step: Step)
    requires Inv(s) && Unplaced(s) && Enabled(cfg, s, step)
    ensures Unplaced(Apply(cfg, s, step))
  {
    hide StreamOk, HandlersOk, TasksOk, RequestsOk, WorkMove, AdvanceRequest, ApplyWork, ApplyApi, Unplaced;
    match step {
      case ApiStep(pid, input) =>
        ApiHasShape(cfg, s.db, s.requests[pid], input);
        ApiHasLedger(cfg, s.db, s.requests[pid], input);
        ApiKeepsUnplaced(s, pid, ApiMove(cfg, s, pid, input));
      case WorkStep(pid, input) =>
        WorkStepDrops(cfg, s, pid, input);
        DropsKeepUnplaced(s, Apply(cfg, s, step));
      case ApiCrash(_) =>
        DropsKeepUnplaced(s, Apply(cfg, s, step));
      case _ =>
        OtherDrops(cfg, s, step, "");
        DropsKeepUnplaced(s, Apply(cfg, s, step));
    }
  }

  lemma {:induction false} RunUnplaced(cfg: Config, run: Run, i: nat)
    requires IsRun(cfg, run) && i < |run.states|
    ensures Unplaced(run.states[i])
  {
    hide Apply, Enabled, Inv;
    if i > 0 {
      RunUnplaced(cfg, run, i - 1);
      RunInv(cfg, run, i - 1);
      StepKeepsUnplaced(cfg, run.states[i - 1], run.steps[i - 1]);
    }
  }

  lemma ApiReplaces(s: State, pid: Pid, input: Input, m: Move<RequestPc>, key: string)
    requires Unplaced(s) && pid in s.requests
    requires ApiShape(s.requests[pid], m) && MoveLedger(s.db, s.requests[pid], input, m)
    ensures var pending' := ApplyApi(s, pid, m).db.pending;
            key in s.db.pending && key in pending' ==>
              (pending'[key] != s.db.pending[key] <==> ReclaimsAt(s, ApiStep(pid, input), key))
  {
    hide ApplyApi, ApiShape, RequestKey;
    ApiPointers(s, pid, m, key);
  }

  /** A pointer that stays in place changes the task it names exactly when it is reclaimed. */
  lemma PointerChangesByReclaim(cfg: Config, s: State, step: Step, key: string)
    requires Inv(s) && Unplaced(s) && Enabled(cfg, s, step)
    requires key in s.db.pending && key in Apply(cfg, s, step).db.pending
    ensures Apply(cfg, s, step).db.pending[key] != s.db.pending[key] <==> ReclaimsAt(s, step, key)
  {
    hide StreamOk, HandlersOk, TasksOk, RequestsOk, WorkMove, AdvanceRequest, ApplyWork, ApplyApi, Unplaced, RequestKey;
    match step {
      case ApiStep(pid, input) =>
        ApiHasShape(cfg, s.db, s.requests[pid], input);
        ApiHasLedger(cfg, s.db, s.requests[pid], input);
        ApiReplaces(s, pid, input, ApiMove(cfg, s, pid, input), key);
      case WorkStep(pid, input) => WorkStepDrops(cfg, s, pid, input);
      case _ =>
    }
  }

  /** The pointer stays in place over these states. */
  ghost predicate PresentThroughout(run: Run, i: nat, j: nat, key: string)
    requires i <= j < |run.states|
  {
    forall k | i <= k <= j :: key in run.states[k].db.pending
  }

  /** Between two reclaims a pointer that stays in place names one task. */
  lemma {:induction false} OneTaskBetweenReclaims(cfg: Config, run: Run, i: nat, j: nat, key: string)
    requires IsRun(cfg, run) && i <= j < |run.states| && PresentThroughout(run, i, j, key)
    requires forall k | i <= k < j :: !ReclaimsAt(run.states[k], run.steps[k], key)
    ensures run.states[i].db.pending[key] == run.states[j].db.pending[key]
  {
    hide Apply, Enabled, Inv, ReclaimsAt, Unplaced;
    if i < j {
      OneTaskBetweenReclaims(cfg, run, i, j - 1, key);
      RunInv(cfg, run, j - 1);
      RunUnplaced(cfg, run, j - 1);
      assert run.states[j] == Apply(cfg, run.states[j - 1], run.steps[j - 1]);
      assert key in run.states[j - 1].db.pending && key in run.states[j].db.pending;
      PointerChangesByReclaim(cfg, run.states[j - 1], run.steps[j - 1], key);
    }
  }

  // ----- which task a request is answered with -----------------------------------------------------------

  /** The task id that a request reads from its key's pointer in this step, or sets it to. */
  function Learns(s: State, step: Step): Option<TaskId> {
    if !step.ApiStep? || step.pid !in s.requests then None
    else
      var r := s.requests[step.pid];
      var key := RequestKey(r);
      match r.pc
      case Reserve =>
        if step.input.Atomically? then Some(if Attaches(s.db, key) then s.db.pending[key] else r.id)
        else if step.input.Ok? && key !in s.db.pending then Some(r.id)
        else None
      case ReadPending => if step.input.Ok? && key in s.db.pending then Some(s.db.pending[key]) else None
      case Reclaim => if step.input.Ok? then Some(r.id) else None
      case _ => None
  }

  /** The task id that a request goes on with, or is answered with, at this point. */
  function Knows(r: Request): Option<TaskId> {
    match r.pc
    case ReadExisting(existing) => Some(existing)
    case SaveAccepted => Some(r.id)
    case _ => None
  }

  /** The task id a request gets from `get_or_create_task` in this step. */
  function AnsweredWith(s: State, step: Step): Option<TaskId> {
    if !step.ApiStep? || step.pid !in s.requests then None
    else
      var r := s.requests[step.pid];
      match r.pc
      case Reserve => if step.input.Atomically? then Learns(s, step) else None
      case ReadExisting(existing) => if step.input.Ok? && existing in s.db.tasks then Some(existing) else None
      case SaveAccepted => if step.input.Ok? then Some(r.id) else None
      case _ => None
  }

  lemma LearnedIsPending(cfg: Config, s: State, step: Step)
    requires Enabled(cfg, s, step) && Learns(s, step).Some?
    ensures var s', key := Apply(cfg, s, step), RequestKey(s.requests[step.pid]);
            && key in s'.db.pending && s'.db.pending[key] == Learns(s, step).value
            && (key in s.db.pending ==> s.db.pending[key] == Learns(s, step).value || ReclaimsAt(s, step, key))
  {
    hide LogicalPath, PendingKey;
  }

  /** A request knows a task id only from its key's pointer. */
  lemma KnowledgeIsLearned(cfg: Config, s: State, step: Step, p: Pid)
    requires Inv(s) && Enabled(cfg, s, step) && p in Apply(cfg, s, step).requests && Knows(Apply(cfg, s, step).requests[p]).Some?
    ensures p in s.requests && RequestKey(Apply(cfg, s, step).requests[p]) == RequestKey(s.requests[p])
    ensures var known := Knows(Apply(cfg, s, step).requests[p]);
            Knows(s.requests[p]) == known || (step.ApiStep? && step.pid == p && Learns(s, step) == known)
  {
    hide StreamOk, HandlersOk, TasksOk, RequestsOk, Advance, ApplyEffect, LogicalPath, PendingKey, LogicalKey, DepthAdmits;
  }

  /** The step at which a request learnt what it knows. */
  lemma {:induction false} LearntAt(cfg: Config, run: Run, j: nat, p: Pid) returns (i: nat)
    requires IsRun(cfg, run) && j < |run.states| && p in run.states[j].requests && Knows(run.states[j].requests[p]).Some?
    ensures i < j && run.steps[i].ApiStep? && run.steps[i].pid == p && p in run.states[i].requests
    ensures Learns(run.states[i], run.steps[i]) == Knows(run.states[j].requests[p])
    ensures RequestKey(run.states[i].requests[p]) == RequestKey(run.states[j].requests[p])
  {
    hide Apply, Enabled, Inv, Learns, Knows, RequestKey;
    if j == 0 {
      assert false;
    } else {
      RunInv(cfg, run, j - 1);
      KnowledgeIsLearned(cfg, run.states[j - 1], run.steps[j - 1], p);
      if Knows(run.states[j - 1].requests[p]) == Knows(run.states[j].requests[p]) {
        i := LearntAt(cfg, run, j - 1, p);
      } else {
        i := j - 1;
      }
    }
  }

  /** Two requests for one key learn different tasks only if its pointer is removed or reclaimed
      in between. */
  lemma RequestsLearnOneTask(cfg: Config, run: Run, i: nat, j: nat, key: string)
    requires IsRun(cfg, run) && i < j < |run.steps|
    requires Learns(run.states[i], run.steps[i]).Some? && Learns(run.states[j], run.steps[j]).Some?
    requires RequestKey(run.states[i].requests[run.steps[i].pid]) == key == RequestKey(run.states[j].requests[run.steps[j].pid])
    requires forall k | i < k < j :: !RemovesAt(run.states[k], run.states[k + 1], key)
    requires forall k | i < k <= j :: !ReclaimsAt(run.states[k], run.steps[k], key)
    ensures Learns(run.states[i], run.steps[i]) == Learns(run.states[j], run.steps[j])
  {
    hide Apply, Enabled, Learns, RequestKey, ReclaimsAt;
    LearnedIsPending(cfg, run.states[i], run.steps[i]);
    LearnedIsPending(cfg, run.states[j], run.steps[j]);
    StaysPresent(run, i + 1, j, key);
    OneTaskBetweenReclaims(cfg, run, i + 1, j, key);
  }

  lemma {:induction false} StaysPresent(run: Run, i: nat, j: nat, key: string)
    requires i <= j < |run.states| && key in run.states[i].db.pending
    requires forall k | i <= k < j :: !RemovesAt(run.states[k], run.states[k + 1], key)
    ensures PresentThroughout(run, i, j, key)
    decreases j - i
  {
    if i < j {
      assert !RemovesAt(run.states[i], run.states[i + 1], key);
      StaysPresent(run, i + 1, j, key);
    }
  }

  /** What a request is answered with is what it knew, or learns in this one step; and it is saved. */
  lemma AnswerFacts(cfg: Config, s: State, step: Step)
    requires Enabled(cfg, s, step) && AnsweredWith(s, step).Some?
    ensures Knows(s.requests[step.pid]) == AnsweredWith(s, step) || Learns(s, step) == AnsweredWith(s, step)
    ensures AnsweredWith(s, step).value in Apply(cfg, s, step).db.tasks
  {
    hide LogicalPath, PendingKey;
  }

  /** The step at which an answered request learnt its answer. */
  lemma AnswerLearntAt(cfg: Config, run: Run, j: nat) returns (i: nat)
    requires IsRun(cfg, run) && j < |run.steps| && AnsweredWith(run.states[j], run.steps[j]).Some?
    ensures i <= j && run.steps[i].ApiStep? && run.steps[i].pid == run.steps[j].pid && run.steps[i].pid in run.states[i].requests
    ensures Learns(run.states[i], run.steps[i]) == AnsweredWith(run.states[j], run.steps[j])
    ensures RequestKey(run.states[i].requests[run.steps[i].pid]) == RequestKey(run.states[j].requests[run.steps[j].pid])
  {
    hide Apply, Enabled, Knows, RequestKey;
    AnswerFacts(cfg, run.states[j], run.steps[j]);
    if Learns(run.states[j], run.steps[j]) == AnsweredWith(run.states[j], run.steps[j]) {
      i := j;
    } else {
      i := LearntAt(cfg, run, j, run.steps[j].pid);
    }
  }

  /** Between these steps the key's pointer is removed, or reclaimed while present. */
  ghost predicate Disturbed(run: Run, a: nat, b: nat, key: string) {
    exists k :: a < k <= b && k < |run.steps| && k + 1 < |run.states|
                && (RemovesAt(run.states[k], run.states[k + 1], key) || ReclaimsAt(run.states[k], run.steps[k], key))
  }

  /** Any two answers for one key are the same task, unless its pointer was removed or reclaimed
      between the steps at which the two requests learnt theirs. */
  lemma AnswersAgree(cfg: Config, run: Run, i: nat, j: nat, key: string) returns (a: nat, b: nat)
    requires IsRun(cfg, run) && i < |run.steps| && j < |run.steps|
    requires AnsweredWith(run.states[i], run.steps[i]).Some? && AnsweredWith(run.states[j], run.steps[j]).Some?
    requires RequestKey(run.states[i].requests[run.steps[i].pid]) == key == RequestKey(run.states[j].requests[run.steps[j].pid])
    ensures a <= i && Learns(run.states[a], run.steps[a]) == AnsweredWith(run.states[i], run.steps[i])
    ensures b <= j && Learns(run.states[b], run.steps[b]) == AnsweredWith(run.states[j], run.steps[j])
    ensures AnsweredWith(run.states[i], run.steps[i]) == AnsweredWith(run.states[j], run.steps[j])
         || Disturbed(run, a, b, key) || Disturbed(run, b, a, key)
  {
    hide Apply, Enabled, Learns, AnsweredWith, RequestKey, RemovesAt, ReclaimsAt;
    a := AnswerLearntAt(cfg, run, i);
    b := AnswerLearntAt(cfg, run, j);
    if a < b && !Disturbed(run, a, b, key) {
      RequestsLearnOneTask(cfg, run, a, b, key);
    } else if b < a && !Disturbed(run, b, a, key) {
      RequestsLearnOneTask(cfg, run, b, a, key);
    }
  }

  lemma StepKeepsTask(cfg: Config, s: State, step: Step, t: TaskId)
    requires Inv(s) && Enabled(cfg, s, step) && t in s.db.tasks
    ensures t in Apply(cfg, s, step).db.tasks
  {
    hide StreamOk, HandlersOk, TasksOk, RequestsOk, WorkMove, AdvanceRequest, ApplyWork, ApplyEffect;
    match step {
      case ApiStep(pid, input) => EffectOnParts(s.db, ApiMove(cfg, s, pid, input).effect);
      case WorkStep(pid, input) => WorkStepDrops(cfg, s, pid, input);
      case _ =>
    }
  }

  /** A task that a request was answered with is persisted, then and ever after. */
  lemma {:induction false} AnswersArePersisted(cfg: Config, run: Run, i: nat, j: nat)
    requires IsRun(cfg, run) && i < j < |run.states| && AnsweredWith(run.states[i], run.steps[i]).Some?
    ensures AnsweredWith(run.states[i], run.steps[i]).value in run.states[j].db.tasks
  {
    hide Apply, Enabled, Inv, AnsweredWith;
    if i + 1 < j {
      AnswersArePersisted(cfg, run, i, j - 1);
      RunInv(cfg, run, j - 1);
      StepKeepsTask(cfg, run.states[j - 1], run.steps[j - 1], AnsweredWith(run.states[i], run.steps[i]).value);
    } else {
      AnswerFacts(cfg, run.states[i], run.steps[i]);
    }
  }

  // ----- creating a task in one step -----------------------------------------------------------------------

  /** `get_or_create_task` is one step, or fails before it takes effect. */
  predicate AtomicCreateStep(s: State, step: Step) {
    step.ApiStep? && step.pid in s.requests && s.requests[step.pid].pc.Reserve? ==>
      step.input.Atomically? || step.input.RaisedUnapplied?
  }

  ghost predicate AtomicCreate(run: Run) {
    |run.steps| < |run.states| && forall i | 0 <= i < |run.steps| :: AtomicCreateStep(run.states[i], run.steps[i])
  }

  /** A request that is not between the commands of `get_or_create_task`. */
  predicate Whole(pc: RequestPc) { pc.Lookup? || pc.Reserve? || Saved(pc) }

  /** Every pending pointer leads to a persisted task. */
  ghost predicate PointersLead(s: State) {
    && (forall k | k in s.db.pending :: s.db.pending[k] in s.db.tasks)
    && (forall p | p in s.requests :: Whole(s.requests[p].pc))
  }

  /** A request's move when creation is atomic. */
  predicate AtomicShape(r: Request, m: Move<RequestPc>) {
    && !m.effect.SetPending?
    && (m.next.Some? ==> Whole(m.next.value))
  }

  lemma ApiIsAtomic(cfg: Config, db: Db, r: Request, input: Input)
    requires Whole(r.pc) && (r.pc.Reserve? ==> input.Atomically? || input.RaisedUnapplied?)
    ensures AtomicShape(r, AdvanceRequest(cfg, db, r, input))
  {
    hide LogicalPath, PendingKey, LogicalKey, DepthAdmits;
  }

  lemma ApiKeepsLeading(s: State, pid: Pid, m: Move<RequestPc>)
    requires PointersLead(s) && pid in s.requests && ApiShape(s.requests[pid], m) && AtomicShape(s.requests[pid], m)
    ensures PointersLead(ApplyApi(s, pid, m))
  {
    hide RequestKey, RequestTask;
  }

  lemma DropsKeepLeading(s: State, s': State)
    requires PointersLead(s) && OnlyDrops(s, s')
    requires forall p | p in s'.requests :: (p in s.requests && s'.requests[p] == s.requests[p]) || s'.requests[p].pc.Lookup?
    ensures PointersLead(s')
  {
  }

  lemma StepKeepsLeading(cfg: Config, s: State, step: Step)
    requires Inv(s) && PointersLead(s) && Enabled(cfg, s, step) && AtomicCreateStep(s, step)
    ensures PointersLead(Apply(cfg, s, step))
  {
    hide StreamOk, HandlersOk, TasksOk, RequestsOk, WorkMove, AdvanceRequest, ApplyWork, ApplyApi;
    match step {
      case ApiStep(pid, input) =>
        ApiHasShape(cfg, s.db, s.requests[pid], input);
        ApiIsAtomic(cfg, s.db, s.requests[pid], input);
        ApiKeepsLeading(s, pid, ApiMove(cfg, s, pid, input));
      case WorkStep(pid, input) =>
        WorkStepDrops(cfg, s, pid, input);
        DropsKeepLeading(s, Apply(cfg, s, step));
      case ApiCrash(_) =>
        DropsKeepLeading(s, Apply(cfg, s, step));
      case _ =>
        OtherDrops(cfg, s, step, "");
        DropsKeepLeading(s, Apply(cfg, s, step));
    }
  }

  lemma {:induction false} RunLeads(cfg: Config, run: Run, i: nat)
    requires IsRun(cfg, run) && AtomicCreate(run) && i < |run.states|
    ensures PointersLead(run.states[i])
  {
    hide Apply, Enabled, Inv, AtomicCreateStep;
    if i > 0 {
      RunLeads(cfg, run, i - 1);
      RunInv(cfg, run, i - 1);
      StepKeepsLeading(cfg, run.states[i - 1], run.steps[i - 1]);
    }
  }

  lemma NothingBetween(s: State, step: Step, key: string)
    requires PointersLead(s) && AtomicCreateStep(s, step)
    ensures !ReclaimsAt(s, step, key) && !AbandonsAt(s, step, key) && Saving(s, key) == {}
  {
    hide RequestKey;
    forall p | p in s.requests ensures !s.requests[p].pc.SaveAccepted? && !s.requests[p].pc.Reclaim? {
      assert Whole(s.requests[p].pc);
    }
  }

  lemma {:induction false} NoReclaims(cfg: Config, run: Run, n: nat, key: string)
    requires IsRun(cfg, run) && AtomicCreate(run) && n < |run.states|
    ensures Reclaims(run, n, key) == 0 == Abandoned(run, n, key)
  {
    hide Apply, Enabled, AtomicCreateStep, ReclaimsAt, AbandonsAt, PointersLead, Saving;
    if n > 0 {
      NoReclaims(cfg, run, n - 1, key);
      RunLeads(cfg, run, n - 1);
      NothingBetween(run.states[n - 1], run.steps[n - 1], key);
    }
  }

  /** When tasks are created in one step, the tasks created under a key are the effective removals
      of its pointer, plus one if the pointer is there. */
  lemma AtomicConservation(cfg: Config, run: Run, n: nat, key: string)
    requires IsRun(cfg, run) && AtomicCreate(run) && n < |run.states|
    ensures Created(run, n, key) == Removed(run, n, key) + if key in run.states[n].db.pending then 1 else 0
  {
    hide IsRun, AtomicCreate, Created, Removed, Reclaims, Abandoned, Saving, PointersLead;
    TasksAreConserved(cfg, run, n, key);
    NoReclaims(cfg, run, n, key);
    RunLeads(cfg, run, n);
    NothingBetween(run.states[n], Tick(0), key);
  }

  /** Then a pointer that stays in place names one task, and that task is persisted. */
  lemma OneTaskBetweenRemovals(cfg: Config, run: Run, i: nat, j: nat, key: string)
    requires IsRun(cfg, run) && AtomicCreate(run) && i <= j < |run.states| && PresentThroughout(run, i, j, key)
    ensures run.states[i].db.pending[key] == run.states[j].db.pending[key]
    ensures run.states[j].db.pending[key] in run.states[j].db.tasks
  {
    hide Apply, Enabled, AtomicCreateStep, ReclaimsAt, AbandonsAt, Saving;
    RunLeads(cfg, run, j);
    forall k | i <= k < j ensures !ReclaimsAt(run.states[k], run.steps[k], key) {
      RunLeads(cfg, run, k);
      NothingBetween(run.states[k], run.steps[k], key);
    }
    OneTaskBetweenReclaims(cfg, run, i, j, key);
  }

  /** And any two requests for one key answered with no removal in between get the same task. */
  lemma RequestsShareTheTask(cfg: Config, run: Run, i: nat, j: nat, key: string)
    requires IsRun(cfg, run) && AtomicCreate(run) && i < j < |run.steps|
    requires AnsweredWith(run.states[i], run.steps[i]).Some? && AnsweredWith(run.states[j], run.steps[j]).Some?
    requires RequestKey(run.states[i].requests[run.steps[i].pid]) == key == RequestKey(run.states[j].requests[run.steps[j].pid])
    requires forall k | i < k < j :: !RemovesAt(run.states[k], run.states[k + 1], key)
    ensures AnsweredWith(run.states[i], run.steps[i]) == AnsweredWith(run.states[j], run.steps[j])
  {
    hide Apply, Enabled, AtomicCreateStep, ReclaimsAt, AbandonsAt, Saving, RequestKey, PointersLead, Learns, AnsweredWith;
    forall k | i <= k <= j
      ensures !ReclaimsAt(run.states[k], run.steps[k], key)
      ensures AnsweredWith(run.states[k], run.steps[k]).Some? ==> AnsweredWith(run.states[k], run.steps[k]) == Learns(run.states[k], run.steps[k])
    {
      RunLeads(cfg, run, k);
      NothingBetween(run.states[k], run.steps[k], key);
      if AnsweredWith(run.states[k], run.steps[k]).Some? {
        AtomicAnswer(run.states[k], run.steps[k]);
      }
    }
    RequestsLearnOneTask(cfg, run, i, j, key);
  }

  lemma AtomicAnswer(s: State, step: Step)
    requires PointersLead(s) && AnsweredWith(s, step).Some?
    ensures AnsweredWith(s, step) == Learns(s, step)
  {
    hide RequestKey;
    assert Whole(s.requests[step.pid].pc);
  }
}
