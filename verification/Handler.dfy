/** One worker handling one stream entry (app/workers/worker.py), as a machine whose
    steps are single Redis commands, file operations and SEC or renderer calls. The
    program counter carries the in-memory values that are live at that point. */
module Handler {
  import opened Wrappers
  import opened Identity
  import opened ArtifactStore
  import Submissions
  import opened Reports
  import opened Store

  datatype Config = Config(maxDepth: int, maxAttempts: int, minIdle: int)

  /** The in-memory task, and its logical path before a sentinel year is resolved. */
  datatype Context = Context(task: ReportTask, original: string)

  /** What `process_task` has worked out once a filing is chosen. */
  datatype Job = Job(identity: ReportIdentity, filing: FilingIdentity)

  datatype Content = Content(source: Bytes, pdf: Bytes, metadata: Bytes)

  datatype Part = SourcePart | PdfPart | MetadataPart

  datatype Stage = OpenTmp | FillTmp | Rename

  /** What the next operation is. */
  datatype Pc =
    | Load
    | SaveProcessing(c: Context)
    | Resolve(c: Context)
    | Fetch(c: Context, cik: string)
    | CheckExists(c: Context, job: Job)
    | Download(c: Context, job: Job)
    | Convert(c: Context, job: Job, source: Bytes)
    | Write(c: Context, job: Job, content: Content, part: Part, stage: Stage)
    | SaveCompleted(c: Context)
    | ClearCompleted(c: Context)
    | Publish(c: Context)
    | ClearOriginal(c: Context)
    | SaveFailed(c: Context)
    | ClearFailed(c: Context)
    | SaveRetrying(c: Context)
    | SaveQueued(c: Context)
    | CheckDepth(c: Context)
    | Enqueue(c: Context)
    | Recover(c: Context)
    | SaveForced(c: Context)
    | ClearForced(c: Context)
    | SaveAttempts(c: Context)
    | Ack
    | Del

  /** How an operation turns out. A write that raises may or may not have been applied. */
  datatype Input =
    | Ok
    | RaisedUnapplied
    | RaisedApplied
    | Atomically
    | XlenError
    | Company(cik: string)
    | Filings(filings: seq<Submissions.FilingRecord>)
    | Document(source: Bytes)
    | Rendered(pdf: Bytes, metadata: Bytes)
    | PermanentError
    | TransientError
    | Chunk(size: nat)

  /** An effect on the shared state, and where the process goes next (None: it is gone). */
  datatype Move<P> = Move(effect: Effect, next: Option<P>)

  function Go<P>(pc: P): Move<P> { Move(NoEffect, Some(pc)) }

  const GONE: Move<Pc> := Move(NoEffect, None)

  /** A write that continues at `onOk`, or at `onRaise` if the call raised. */
  function Attempt<P>(input: Input, effect: Effect, onOk: Option<P>, onRaise: Option<P>): Move<P> {
    match input
    case Ok => Move(effect, onOk)
    case RaisedApplied => Move(effect, onRaise)
    case _ => Move(NoEffect, onRaise)
  }

  /** The in-memory state that goes with each point at which the record is, or has just
      been, saved in a new state. */
  predicate StateMatches(pc: Pc) {
    match pc
    case SaveProcessing(c) => c.task.state.Processing?
    case SaveCompleted(c) => c.task.state.Completed?
    case ClearCompleted(c) => c.task.state.Completed?
    case Publish(c) => c.task.state.Completed?
    case ClearOriginal(c) => c.task.state.Completed?
    case SaveFailed(c) => c.task.state.Failed?
    case ClearFailed(c) => c.task.state.Failed?
    case SaveForced(c) => c.task.state.Failed?
    case ClearForced(c) => c.task.state.Failed?
    case SaveRetrying(c) => c.task.state.Retrying?
    case SaveQueued(c) => c.task.state.Queued?
    case CheckDepth(c) => c.task.state.Queued?
    case Enqueue(c) => c.task.state.Queued?
    case SaveAttempts(c) => !c.task.state.Completed?
    case _ => true
  }

  // ----- local computation between operations ------------------------------------

  function SetState(c: Context, s: ReportState): Context { c.(task := c.task.(state := s)) }

  /** Up to and including the assertion of `transition(task, PROCESSING)`; a task past
      QUEUED is processed anyway. */
  function Begin(task: ReportTask): (pc: Pc)
    ensures (pc.SaveProcessing? || pc.Resolve?) && StateMatches(pc)
  {
    var c := Context(task, LogicalPath(task.identity));
    if CanTransition(task.state, Processing) then SaveProcessing(SetState(c, Processing)) else Resolve(c)
  }

  /** Where the failure handlers leave off: at their first save, or at recovery when
      there is no legal transition. */
  predicate Failing(pc: Pc) { pc.SaveFailed? || pc.SaveRetrying? || pc.Recover? }

  /** `_fail_permanently` up to its save; an illegal transition raises. */
  function FailPermanently(c: Context): (pc: Pc)
    ensures (pc.SaveFailed? || pc.Recover?) && StateMatches(pc)
  {
    if CanTransition(c.task.state, Failed) then SaveFailed(SetState(c, Failed)) else Recover(c)
  }

  /** `_fail_transiently` up to its first save. */
  function FailTransiently(cfg: Config, c: Context): (pc: Pc)
    ensures Failing(pc) && StateMatches(pc)
  {
    var d := c.(task := c.task.(attempts := c.task.attempts + 1));
    if d.task.attempts >= cfg.maxAttempts then FailPermanently(d)
    else if CanTransition(d.task.state, Retrying) then SaveRetrying(SetState(d, Retrying))
    else Recover(d)
  }

  /** The year to select by, and the identity the result is filed under. */
  function RequestedYear(i: ReportIdentity): Option<int> {
    if i.year == LATEST_YEAR_SENTINEL then None else Some(i.year)
  }

  function JobFor(i: ReportIdentity, cik: string, r: Submissions.FilingRecord): Job {
    Job(if i.year == LATEST_YEAR_SENTINEL then i.(year := r.filingDate.year) else i,
        FilingIdentity(cik, r.accessionNumber, r.primaryDocument, r.filingDate))
  }

  function JobDir(job: Job): Dir { DirOf(job.identity, job.filing.accessionNumber) }

  function JobPdf(job: Job): FileKey { PdfKey(job.identity, job.filing.accessionNumber) }

  function CompletedTask(t: ReportTask, job: Job): ReportTask {
    t.(identity := job.identity, state := Completed, filing := Some(job.filing), artifactPath := Some(JobPdf(job)))
  }

  /** `task.identity = resolved_identity`, then `transition(task, COMPLETED, ...)` up to its save. */
  function Complete(cfg: Config, c: Context, job: Job): (pc: Pc)
    ensures (pc.SaveCompleted? || Failing(pc)) && StateMatches(pc)
  {
    if CanTransition(c.task.state, Completed) then SaveCompleted(c.(task := CompletedTask(c.task, job)))
    else FailTransiently(cfg, c.(task := c.task.(identity := job.identity)))
  }

  function PartData(content: Content, part: Part): Bytes {
    match part
    case SourcePart => content.source
    case PdfPart => content.pdf
    case MetadataPart => content.metadata
  }

  function PartName(job: Job, part: Part): FileName {
    match part
    case SourcePart => Source(SourceExtension(job.filing.primaryDocument))
    case PdfPart => Pdf
    case MetadataPart => Metadata
  }

  function PartFile(job: Job, part: Part, tmp: bool): FileKey {
    FileKey(JobDir(job), PartName(job, part), tmp)
  }

  function AfterPart(cfg: Config, c: Context, job: Job, content: Content, part: Part): (pc: Pc)
    ensures (pc.Write? || pc.SaveCompleted? || Failing(pc)) && StateMatches(pc)
  {
    match part
    case SourcePart => Write(c, job, content, PdfPart, OpenTmp)
    case PdfPart => Write(c, job, content, MetadataPart, OpenTmp)
    case MetadataPart => Complete(cfg, c, job)
  }

  function TaskPendingKey(t: ReportTask): string { PendingKey(LogicalPath(t.identity), t.includeAmended) }

  /** `_recover_from_unhandled` after its re-read. */
  function Recovered(cfg: Config, current: ReportTask, original: string): (pc: Pc)
    ensures (pc.Ack? || pc.SaveForced? || pc.SaveAttempts?) && StateMatches(pc)
  {
    var t := current.(attempts := current.attempts + 1);
    if t.state.Completed? then Ack
    else if t.attempts >= cfg.maxAttempts then SaveForced(Context(t.(state := Failed), original))
    else SaveAttempts(Context(t, original))
  }

  // ----- the operations -------------------------------------------------------------

  function AdvanceFetch(cfg: Config, c: Context, cik: string, input: Input): (pc: Pc)
    ensures (pc.CheckExists? || Failing(pc)) && StateMatches(pc)
  {
    match input
    case Filings(filings) =>
      var selected := Submissions.SelectLatest(filings, Submissions.FilingSelector(c.task.identity.form, c.task.includeAmended),
                                   RequestedYear(c.task.identity));
      if selected.None? then FailPermanently(c) else CheckExists(c, JobFor(c.task.identity, cik, selected.value))
    case PermanentError => FailPermanently(c)
    case _ => FailTransiently(cfg, c)
  }

  function AdvanceConvert(cfg: Config, c: Context, job: Job, source: Bytes, input: Input): (pc: Pc)
    ensures (pc.Write? || Failing(pc)) && StateMatches(pc)
  {
    match input
    case Rendered(pdf, metadata) =>
      if HasPdfHeader(pdf) then Write(c, job, Content(source, pdf, metadata), SourcePart, OpenTmp)
      else FailPermanently(c)
    case PermanentError => FailPermanently(c)
    case _ => FailTransiently(cfg, c)
  }

  function AdvanceWrite(cfg: Config, pc: Pc, input: Input): Move<Pc>
    requires pc.Write?
  {
    var Write(c, job, content, part, stage) := pc;
    var tmp, data := PartFile(job, part, true), PartData(content, part);
    var failed := Some(FailTransiently(cfg, c));
    match stage
    case OpenTmp => Attempt(input, PutFile(tmp, []), Some(pc.(stage := FillTmp)), failed)
    case FillTmp =>
      if input.Chunk? then Move(PutFile(tmp, Prefix(data, input.size)), Some(pc))
      else Attempt(input, PutFile(tmp, data), Some(pc.(stage := Rename)), failed)
    case Rename =>
      Attempt(input, RenameFile(tmp, PartFile(job, part, false)), Some(AfterPart(cfg, c, job, content, part)), failed)
  }

  /** `enqueue`'s depth check: an error reply of XLEN counts as an empty queue. */
  predicate DepthAdmits(cfg: Config, db: Db, input: Input) {
    (input.Ok? && |db.stream| < cfg.maxDepth) || (input.XlenError? && 0 < cfg.maxDepth)
  }

  // The phases of handling one message.

  /** From loading the task to having its artifact. */
  predicate InProcessing(pc: Pc) {
    pc.Load? || pc.SaveProcessing? || pc.Resolve? || pc.Fetch? || pc.CheckExists? || pc.Download? || pc.Convert? || pc.Write?
  }

  /** Recording and publishing success. */
  predicate InSuccess(pc: Pc) { pc.SaveCompleted? || pc.ClearCompleted? || pc.Publish? || pc.ClearOriginal? }

  /** Recording a failure, and re-enqueueing. */
  predicate InFailure(pc: Pc) {
    pc.SaveFailed? || pc.ClearFailed? || pc.SaveRetrying? || pc.SaveQueued? || pc.CheckDepth? || pc.Enqueue?
  }

  /** Recovering from an unhandled error. */
  predicate InRecovery(pc: Pc) { pc.Recover? || pc.SaveForced? || pc.ClearForced? || pc.SaveAttempts? }

  /** Effects on the task's own record and on files only. */
  predicate SavesOwn(tid: TaskId, pc: Pc, e: Effect) {
    !pc.Load? && !pc.Ack? && !pc.Del? && e == SaveTask(tid, pc.c.task)
  }

  predicate OnFiles(e: Effect) { e.PutFile? || e.RenameFile? }

  function AdvanceProcessing(cfg: Config, db: Db, tid: TaskId, pc: Pc, input: Input): (m: Move<Pc>)
    requires InProcessing(pc)
    ensures m.effect.NoEffect? || (pc.Write? && OnFiles(m.effect)) || (pc.SaveProcessing? && SavesOwn(tid, pc, m.effect))
    ensures StateMatches(pc) && m.next.Some? ==> StateMatches(m.next.value)
    ensures m.next.None? ==> pc.Load?
    ensures m.next.Some? ==> InProcessing(m.next.value) || m.next.value.SaveCompleted? || Failing(m.next.value)
                             || (pc.Load? && m.next.value.Ack? && tid !in db.tasks)
  {
    match pc
    case Load =>
      if !input.Ok? then GONE else if tid in db.tasks then Go(Begin(db.tasks[tid])) else Go(Ack)
    case SaveProcessing(c) => Attempt(input, SaveTask(tid, c.task), Some(Resolve(c)), Some(Recover(c)))
    case Resolve(c) => Go(if input.Company? then Fetch(c, input.cik) else FailPermanently(c))
    case Fetch(c, cik) => Go(AdvanceFetch(cfg, c, cik, input))
    case CheckExists(c, job) => Go(if JobPdf(job) in db.files then Complete(cfg, c, job) else Download(c, job))
    case Download(c, job) =>
      Go(match input
         case Document(source) => Convert(c, job, source)
         case PermanentError => FailPermanently(c)
         case _ => FailTransiently(cfg, c))
    case Convert(c, job, source) => Go(AdvanceConvert(cfg, c, job, source, input))
    case Write(_, _, _, _, _) => AdvanceWrite(cfg, pc, input)
  }

  /** `publish_artifact`; its errors are swallowed. */
  function AdvancePublish(c: Context, input: Input): (m: Move<Pc>)
    ensures m.effect.NoEffect? || m.effect.SetCurrent?
    ensures m.next.Some? && (m.next.value == ClearOriginal(c) || m.next.value.Ack?)
  {
    if c.task.filing.None? || c.task.artifactPath.None? then Go(Ack)
    else
      var pointer := Pointer(c.task.filing.value.accessionNumber, c.task.artifactPath.value, c.task.filing.value.cik);
      Attempt(input, SetCurrent(LogicalKey(LogicalPath(c.task.identity), c.task.includeAmended), pointer),
              Some(if LogicalPath(c.task.identity) != c.original then ClearOriginal(c) else Ack), Some(Ack))
  }

  function AdvanceSuccess(cfg: Config, tid: TaskId, pc: Pc, input: Input): (m: Move<Pc>)
    requires InSuccess(pc)
    ensures m.effect.NoEffect? || (pc.SaveCompleted? && SavesOwn(tid, pc, m.effect))
         || (!pc.SaveCompleted? && (m.effect.DropPending? || (pc.Publish? && m.effect.SetCurrent?)))
    ensures StateMatches(pc) && m.next.Some? ==> StateMatches(m.next.value)
    ensures m.next.Some? && (InSuccess(m.next.value) || m.next.value.Ack? || Failing(m.next.value))
  {
    match pc
    case SaveCompleted(c) =>
      Attempt(input, SaveTask(tid, c.task), Some(ClearCompleted(c)), Some(FailTransiently(cfg, c)))
    case ClearCompleted(c) =>
      Attempt(input, DropPending(TaskPendingKey(c.task)), Some(Publish(c)), Some(FailTransiently(cfg, c)))
    case Publish(c) => AdvancePublish(c, input)
    case ClearOriginal(c) => Attempt(input, DropPending(PendingKey(c.original, c.task.includeAmended)), Some(Ack), Some(Ack))
  }

  function AdvanceFailure(cfg: Config, db: Db, tid: TaskId, pc: Pc, input: Input): (m: Move<Pc>)
    requires InFailure(pc)
    ensures m.effect.NoEffect? || ((pc.SaveFailed? || pc.SaveRetrying? || pc.SaveQueued?) && SavesOwn(tid, pc, m.effect))
         || (pc.ClearFailed? && m.effect.DropPending?) || (pc.Enqueue? && m.effect == AppendEntry(tid))
    ensures StateMatches(pc) && m.next.Some? ==> StateMatches(m.next.value)
    ensures m.next.Some? && (InFailure(m.next.value) || m.next.value.Ack? || m.next.value.Recover?)
  {
    match pc
    case SaveFailed(c) => Attempt(input, SaveTask(tid, c.task), Some(ClearFailed(c)), Some(Recover(c)))
    case ClearFailed(c) => Attempt(input, DropPending(TaskPendingKey(c.task)), Some(Ack), Some(Recover(c)))
    case SaveRetrying(c) => Attempt(input, SaveTask(tid, c.task), Some(SaveQueued(SetState(c, Queued))), Some(Recover(c)))
    case SaveQueued(c) => Attempt(input, SaveTask(tid, c.task), Some(CheckDepth(c)), Some(Recover(c)))
    case CheckDepth(c) => Go(if DepthAdmits(cfg, db, input) then Enqueue(c) else Recover(c))
    case Enqueue(c) => Attempt(input, AppendEntry(tid), Some(Ack), Some(Recover(c)))
  }

  function AdvanceRecovery(cfg: Config, db: Db, tid: TaskId, pc: Pc, input: Input): (m: Move<Pc>)
    requires InRecovery(pc)
    ensures m.effect.NoEffect? || ((pc.SaveForced? || pc.SaveAttempts?) && SavesOwn(tid, pc, m.effect))
         || (pc.ClearForced? && m.effect.DropPending?)
    ensures StateMatches(pc) && m.next.Some? ==> StateMatches(m.next.value)
    ensures m.next.Some? ==> (InRecovery(m.next.value) && !m.next.value.Recover?) || m.next.value.Ack?
  {
    match pc
    case Recover(c) =>
      if !input.Ok? then GONE
      else Go(Recovered(cfg, if tid in db.tasks then db.tasks[tid] else c.task, c.original))
    case SaveForced(c) => Attempt(input, SaveTask(tid, c.task), Some(ClearForced(c)), None)
    case ClearForced(c) => Attempt(input, DropPending(TaskPendingKey(c.task)), Some(Ack), None)
    case SaveAttempts(c) => Attempt(input, SaveTask(tid, c.task), None, None)
  }

  function Advance(cfg: Config, db: Db, tid: TaskId, entry: EntryId, pc: Pc, input: Input): Move<Pc> {
    if InProcessing(pc) then AdvanceProcessing(cfg, db, tid, pc, input)
    else if InSuccess(pc) then AdvanceSuccess(cfg, tid, pc, input)
    else if InFailure(pc) then AdvanceFailure(cfg, db, tid, pc, input)
    else if InRecovery(pc) then AdvanceRecovery(cfg, db, tid, pc, input)
    else if pc.Ack? then Attempt(input, AckEntry(entry), Some(Del), None)
    else Attempt(input, DeleteEntry(entry), None, None)
  }
}
