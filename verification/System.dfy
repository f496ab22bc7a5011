/** The service as a step system: any number of API requests and message handlers
    interleave over the shared state, one atomic operation a step, and any process may
    crash between two operations. */
module System {
  import opened Wrappers
  import opened Identity
  import Submissions
  import Reports
  import opened Store
  import opened Handler
  import opened Request

  type Pid = nat

  datatype Worker = Worker(tid: TaskId, entry: EntryId, pc: Pc)

  datatype State = State(
    db: Db, workers: map<Pid, Worker>, requests: map<Pid, Request>,
    nextPid: Pid, nextTask: TaskId, now: int)

  const INITIAL := State(EMPTY_DB, map[], map[], 0, 0, 0)

  datatype Step =
    | Arrive(identity: ReportIdentity, includeAmended: bool)
    | ApiStep(pid: Pid, input: Input)
    | ApiCrash(pid: Pid)
    | DeliverEntry(entry: EntryId, consumer: Consumer)
    | ClaimEntry(entry: EntryId, consumer: Consumer)
    | WorkStep(pid: Pid, input: Input)
    | WorkCrash(pid: Pid)
    | ExpirePending(key: string)
    | Tick(ms: nat)

  function WorkMove(cfg: Config, s: State, pid: Pid, input: Input): Move<Pc>
    requires pid in s.workers
  {
    Advance(cfg, s.db, s.workers[pid].tid, s.workers[pid].entry, s.workers[pid].pc, input)
  }

  function ApiMove(cfg: Config, s: State, pid: Pid, input: Input): Move<RequestPc>
    requires pid in s.requests
  {
    AdvanceRequest(cfg, s.db, s.requests[pid], input)
  }

  predicate Enabled(cfg: Config, s: State, step: Step) {
    match step
    case Arrive(identity, _) => ValidIdentity(identity)
    case ApiStep(pid, _) => pid in s.requests
    case ApiCrash(pid) => pid in s.requests
    case DeliverEntry(e, _) => CanDeliver(s.db, e)
    case ClaimEntry(e, _) => CanClaim(s.db, e, s.now, cfg.minIdle)
    case WorkStep(pid, _) => pid in s.workers
    case WorkCrash(pid) => pid in s.workers
    case ExpirePending(key) => key in s.db.pending
    case Tick(_) => true
  }

  function StartWorker(s: State, db: Db, e: EntryId): State
    requires e in s.db.stream
  {
    s.(db := db, workers := s.workers[s.nextPid := Worker(s.db.stream[e], e, Load)], nextPid := s.nextPid + 1)
  }

  function ApplyWork(s: State, pid: Pid, m: Move<Pc>): State
    requires pid in s.workers
  {
    s.(db := ApplyEffect(s.db, m.effect),
       workers := if m.next.None? then s.workers - {pid} else s.workers[pid := s.workers[pid].(pc := m.next.value)])
  }

  function ApplyApi(s: State, pid: Pid, m: Move<RequestPc>): State
    requires pid in s.requests
  {
    s.(db := ApplyEffect(s.db, m.effect),
       requests := if m.next.None? then s.requests - {pid} else s.requests[pid := s.requests[pid].(pc := m.next.value)])
  }

  function Apply(cfg: Config, s: State, step: Step): State
    requires Enabled(cfg, s, step)
  {
    match step
    case Arrive(identity, includeAmended) =>
      s.(requests := s.requests[s.nextPid := Request(identity, includeAmended, s.nextTask, Lookup)],
         nextPid := s.nextPid + 1, nextTask := s.nextTask + 1)
    case ApiStep(pid, input) => ApplyApi(s, pid, ApiMove(cfg, s, pid, input))
    case ApiCrash(pid) => s.(requests := s.requests - {pid})
    case DeliverEntry(e, consumer) => StartWorker(s, Deliver(s.db, e, consumer, s.now), e)
    case ClaimEntry(e, consumer) => StartWorker(s, Claim(s.db, e, consumer, s.now), e)
    case WorkStep(pid, input) => ApplyWork(s, pid, WorkMove(cfg, s, pid, input))
    case WorkCrash(pid) => s.(workers := s.workers - {pid})
    case ExpirePending(key) => s.(db := s.db.(pending := s.db.pending - {key}))
    case Tick(ms) => s.(now := s.now + ms)
  }

  // ----- runs ---------------------------------------------------------------------

  /** A run from the empty service: the states it goes through and the steps between. */
  datatype Run = Run(states: seq<State>, steps: seq<Step>)

  ghost predicate IsRun(cfg: Config, run: Run) {
    && |run.states| == |run.steps| + 1
    && run.states[0] == INITIAL
    && forall i | 0 <= i < |run.steps| ::
      Enabled(cfg, run.states[i], run.steps[i]) && run.states[i + 1] == Apply(cfg, run.states[i], run.steps[i])
  }

  /** An entry held by a live handler, one claimed but not yet started included, is not claimed. */
  ghost predicate Leased(s: State, step: Step) {
    step.ClaimEntry? ==> forall p | p in s.workers :: s.workers[p].entry != step.entry
  }

  /** Leases outlast their handlers, in every step of the run. */
  ghost predicate LeasesOutlast(run: Run) {
    |run.steps| < |run.states| && forall i | 0 <= i < |run.steps| :: Leased(run.states[i], run.steps[i])
  }

  // ----- the basic invariant ---------------------------------------------------------

  /** Entries and leases: every lease is on a delivered entry that is still in the stream. */
  ghost predicate StreamOk(db: Db) {
    && db.lastDelivered < db.nextEntry
    && (forall e | e in db.stream :: e < db.nextEntry)
    && (forall e | e in db.pel :: e in db.stream && e <= db.lastDelivered)
  }

  /** A handler's entry was delivered for its task, and is acknowledged before it is deleted. */
  ghost predicate HandlerOk(s: State, w: Worker) {
    && w.entry <= s.db.lastDelivered
    && (w.entry in s.db.stream ==> s.db.stream[w.entry] == w.tid)
    && (w.pc.Del? ==> w.entry !in s.db.pel)
  }

  ghost predicate HandlersOk(s: State) {
    forall p | p in s.workers :: p < s.nextPid && HandlerOk(s, s.workers[p])
  }

  /** Where leases outlast handlers, a handler holds the lease on its entry, alone, until it has
      acknowledged it. */
  ghost predicate WorkerOk(s: State, w: Worker) {
    && w.entry <= s.db.lastDelivered
    && (w.entry in s.db.pel <==> !w.pc.Del?)
    && (w.entry in s.db.stream ==> s.db.stream[w.entry] == w.tid)
    && (!w.pc.Del? ==> w.entry in s.db.stream)
  }

  ghost predicate WorkersOk(s: State) {
    && (forall p | p in s.workers :: p < s.nextPid && WorkerOk(s, s.workers[p]))
    && (forall p, q | p in s.workers && q in s.workers && p != q :: s.workers[p].entry != s.workers[q].entry)
  }

  /** The in-memory task of a handler, where it has one. */
  function LocalTask(pc: Pc): Option<Reports.ReportTask> {
    if pc.Load? || pc.Ack? || pc.Del? then None else Some(pc.c.task)
  }

  /** Persisted, and past ACCEPTED. */
  predicate Persisted(db: Db, t: TaskId) {
    t in db.tasks && !db.tasks[t].state.Accepted?
  }

  ghost predicate TasksOk(s: State) {
    && (forall t | t in s.db.tasks :: t < s.nextTask)
    && (forall e | e in s.db.stream :: Persisted(s.db, s.db.stream[e]))
    && (forall p | p in s.workers :: Persisted(s.db, s.workers[p].tid))
    && (forall p | p in s.workers :: LocalOk(s.workers[p].pc))
  }

  /** Points at which a request has saved its task. */
  predicate Saved(pc: RequestPc) {
    pc.CheckCapacity? || pc.PersistQueued? || pc.AdmitDepth? || pc.Append? || pc.ClearFull?
  }

  /** A live request's task is its own: no entry, no handler and no other request has it. */
  ghost predicate RequestOk(s: State, r: Request) {
    && r.id < s.nextTask
    && (forall e | e in s.db.stream :: s.db.stream[e] != r.id)
    && (forall p | p in s.workers :: s.workers[p].tid != r.id)
    && (Saved(r.pc) <==> r.id in s.db.tasks)
    && (r.id in s.db.tasks ==>
          (s.db.tasks[r.id] == RequestTask(r) || s.db.tasks[r.id] == RequestTask(r).(state := Reports.Queued)))
    && (r.pc.Append? || r.pc.AdmitDepth? ==> Persisted(s.db, r.id))
  }

  ghost predicate RequestsOk(s: State) {
    && (forall p | p in s.requests :: p < s.nextPid && RequestOk(s, s.requests[p]))
    && (forall p, q | p in s.requests && q in s.requests && p != q :: s.requests[p].id != s.requests[q].id)
  }

  ghost predicate Inv(s: State) {
    StreamOk(s.db) && HandlersOk(s) && TasksOk(s) && RequestsOk(s) && s.workers.Keys !! s.requests.Keys
  }

  ghost predicate LeasedInv(s: State) { Inv(s) && WorkersOk(s) }

  /** What a handler's move can do to the shared state: save its own in-memory task,
      re-enqueue it, acknowledge and then delete its own entry, touch pointers and files. */
  predicate WorkShape(w: Worker, m: Move<Pc>) {
    && (m.effect.SaveTask? ==> m.effect.tid == w.tid && LocalTask(w.pc) == Some(m.effect.task))
    && !m.effect.SetPending? && !m.effect.CreateTask?
    && (m.effect.AppendEntry? ==> m.effect.tid == w.tid && w.pc.Enqueue?)
    && (m.effect.AckEntry? ==> m.effect.entry == w.entry && w.pc.Ack?)
    && (m.effect.DeleteEntry? ==> m.effect.entry == w.entry && w.pc.Del?)
    && (w.pc.Ack? && m.next.Some? ==> m.effect.AckEntry? && m.next.value.Del?)
    && (!w.pc.Ack? && m.next.Some? ==> !m.next.value.Del?)
    && (w.pc.Del? ==> m.next.None?)
    && (m.effect.PutFile? || m.effect.RenameFile? ==> w.pc.Write?)
  }

  predicate LocalNotAccepted(pc: Pc) {
    LocalTask(pc).Some? ==> !LocalTask(pc).value.state.Accepted?
  }

  predicate LocalOk(pc: Pc) { LocalNotAccepted(pc) && StateMatches(pc) }

  lemma WorkHasShape(cfg: Config, db: Db, w: Worker, input: Input)
    ensures WorkShape(w, Advance(cfg, db, w.tid, w.entry, w.pc, input))
  {
    hide AdvanceProcessing, AdvanceSuccess, AdvanceFailure, AdvanceRecovery;
  }

  lemma WriteNotAccepted(cfg: Config, pc: Pc, input: Input)
    requires pc.Write? && LocalNotAccepted(pc)
    ensures var m := AdvanceWrite(cfg, pc, input); m.next.Some? ==> LocalNotAccepted(m.next.value)
  {
    hide PartName, PartData, FailTransiently, Complete;
    FailuresNotAccepted(cfg, pc.c);
    CompleteNotAccepted(cfg, pc.c, pc.job);
  }

  lemma ProcessingNeverAccepts(cfg: Config, db: Db, tid: TaskId, pc: Pc, input: Input)
    requires InProcessing(pc) && LocalNotAccepted(pc) && Persisted(db, tid)
    ensures var m := AdvanceProcessing(cfg, db, tid, pc, input); m.next.Some? ==> LocalNotAccepted(m.next.value)
  {
    hide LogicalPath, HasPdfHeader, JobPdf, Submissions.SelectLatest, AdvanceWrite, FailTransiently, FailPermanently, Complete;
    if !pc.Load? {
      FailuresNotAccepted(cfg, pc.c);
      if pc.CheckExists? {
        CompleteNotAccepted(cfg, pc.c, pc.job);
      } else if pc.Write? {
        WriteNotAccepted(cfg, pc, input);
      }
    }
  }

  lemma FailuresNotAccepted(cfg: Config, c: Context)
    requires !c.task.state.Accepted?
    ensures LocalNotAccepted(FailPermanently(c)) && LocalNotAccepted(FailTransiently(cfg, c))
  {
  }

  lemma CompleteNotAccepted(cfg: Config, c: Context, job: Job)
    requires !c.task.state.Accepted?
    ensures LocalNotAccepted(Complete(cfg, c, job))
  {
    hide LogicalPath;
  }

  /** A handler never makes an in-memory task ACCEPTED. */
  lemma WorkKeepsLocal(cfg: Config, db: Db, w: Worker, input: Input)
    requires LocalOk(w.pc) && Persisted(db, w.tid)
    ensures var m := Advance(cfg, db, w.tid, w.entry, w.pc, input); m.next.Some? ==> LocalOk(m.next.value)
  {
    hide LogicalPath, AdvanceProcessing, FailTransiently;
    if InProcessing(w.pc) {
      ProcessingNeverAccepts(cfg, db, w.tid, w.pc, input);
    } else if InSuccess(w.pc) {
      FailuresNotAccepted(cfg, w.pc.c);
    }
  }

  predicate SavesAccepted(r: Request, e: Effect) {
    e == SaveTask(r.id, RequestTask(r)) && r.pc.SaveAccepted?
  }

  predicate SavesQueued(r: Request, e: Effect) {
    e == SaveTask(r.id, RequestTask(r).(state := Reports.Queued)) && r.pc.PersistQueued?
  }

  /** What a request's move can do to the shared state. */
  predicate ApiShape(r: Request, m: Move<RequestPc>) {
    && (m.effect.SaveTask? ==> SavesAccepted(r, m.effect) || SavesQueued(r, m.effect))
    && (m.effect.CreateTask? ==> m.effect == CreateTask(RequestKey(r), r.id, RequestTask(r)) && r.pc.Reserve?)
    && (m.effect.SetPending? ==> m.effect == SetPending(RequestKey(r), r.id))
    && (m.effect.DropPending? ==> m.effect == DropPending(RequestKey(r)))
    && (m.effect.AppendEntry? ==> m.effect.tid == r.id && r.pc.Append? && m.next.None?)
    && !m.effect.AckEntry? && !m.effect.DeleteEntry? && !m.effect.PutFile? && !m.effect.RenameFile?
    && !m.effect.SetCurrent?
    && (m.next.Some? && Saved(m.next.value) ==> (Saved(r.pc) || m.effect.SaveTask? || m.effect.CreateTask?))
    && (m.next.Some? && !Saved(m.next.value) ==> !Saved(r.pc) && !m.effect.SaveTask? && !m.effect.CreateTask?)
    && (m.next.Some? && m.next.value.AdmitDepth? ==> SavesQueued(r, m.effect))
    && (m.next.Some? && m.next.value.Append? ==> r.pc.AdmitDepth? && m.effect.NoEffect?)
  }

  lemma ApiHasShape(cfg: Config, db: Db, r: Request, input: Input)
    ensures ApiShape(r, AdvanceRequest(cfg, db, r, input))
  {
    hide LogicalPath, PendingKey, LogicalKey;
  }
}
