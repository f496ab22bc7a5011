/** Runs in which two handlers have one task. In the first no lease is taken from a live handler, and
    still a handler that loaded the task earlier saves over COMPLETED; in the second a lease is, and the
    task is lost. */
module Stale {
  import opened Wrappers
  import opened Identity
  import Submissions
  import opened Reports
  import opened Store
  import opened Handler
  import opened Request
  import opened System
  import opened Absorbing
  import opened Scenarios

  /** The second run goes on from the first, and takes no lease from a live handler either. */
  ghost predicate Goes(cfg: Config, run: Run, run': Run) {
    IsRun(cfg, run') && (LeasesOutlast(run) ==> LeasesOutlast(run'))
  }

  lemma Next(cfg: Config, run: Run, step: Step) returns (run': Run)
    requires IsRun(cfg, run) && Enabled(cfg, Last(run), step)
    ensures IsRun(cfg, run') && Last(run') == Apply(cfg, Last(run), step) && run.states <= run'.states
    ensures Leased(Last(run), step) ==> Goes(cfg, run, run')
  {
    hide Apply, Enabled, Leased;
    run' := Run(run.states + [Apply(cfg, Last(run), step)], run.steps + [step]);
    forall i | 0 <= i < |run'.steps|
      ensures Enabled(cfg, run'.states[i], run'.steps[i])
      ensures LeasesOutlast(run) && Leased(Last(run), step) ==> Leased(run'.states[i], run'.steps[i])
      ensures run'.states[i + 1] == Apply(cfg, run'.states[i], run'.steps[i])
    {
      assert i < |run.steps| ==> run'.states[i] == run.states[i] && run'.states[i + 1] == run.states[i + 1];
    }
  }

  lemma LastIndex(cfg: Config, run: Run) returns (n: nat)
    requires IsRun(cfg, run)
    ensures n < |run.states| && run.states[n] == Last(run)
  {
    n := |run.steps|;
  }

  /** The handler has come to `pc`; the stream, its leases and the other handlers are as they were. */
  ghost predicate Moved(s: State, s': State, p: Pid, pc: Pc)
    requires p in s.workers
  {
    && s'.workers == s.workers[p := s.workers[p].(pc := pc)] && s'.nextPid == s.nextPid && s'.now == s.now
    && s'.db.stream == s.db.stream && s'.db.nextEntry == s.db.nextEntry
    && s'.db.lastDelivered == s.db.lastDelivered && s'.db.pel == s.db.pel
  }

  /** One operation of a handler that neither ends it nor touches the stream. */
  lemma Works(cfg: Config, run: Run, p: Pid, input: Input, s: State, pc: Pc) returns (run': Run)
    requires IsRun(cfg, run) && p in s.workers && Moved(s, Last(run), p, pc)
    requires var m := Advance(cfg, Last(run).db, s.workers[p].tid, s.workers[p].entry, pc, input);
             m.next.Some? && !m.effect.AppendEntry? && !m.effect.AckEntry? && !m.effect.DeleteEntry?
    ensures var m := Advance(cfg, Last(run).db, s.workers[p].tid, s.workers[p].entry, pc, input);
            && Goes(cfg, run, run') && run.states <= run'.states && Moved(s, Last(run'), p, m.next.value)
            && Last(run').db.tasks == (if m.effect.SaveTask? || m.effect.CreateTask? then Last(run).db.tasks[m.effect.tid := m.effect.task] else Last(run).db.tasks)
            && (m.effect.NoEffect? || m.effect.SaveTask? ==> Last(run').db.files == Last(run).db.files)
  {
    hide Advance, IsRun, LeasesOutlast, ApplyEffect;
    var m := WorkMove(cfg, Last(run), p, input);
    EffectOnParts(Last(run).db, m.effect);
    EffectOnNextEntry(Last(run).db, m.effect);
    run' := Next(cfg, run, WorkStep(p, input));
  }

  lemma EffectOnNextEntry(db: Db, e: Effect)
    ensures !e.AppendEntry? ==> ApplyEffect(db, e).nextEntry == db.nextEntry
  {
  }

  /** The in-memory task of a handler that has loaded a QUEUED record. */
  function Loaded(t: ReportTask): Context { Context(t.(state := Processing), LogicalPath(t.identity)) }

  /** A handler has loaded its task, and saves nothing yet. */
  lemma Loads(cfg: Config, run: Run, p: Pid) returns (run': Run)
    requires IsRun(cfg, run) && p in Last(run).workers && Last(run).workers[p].pc == Load
    requires Last(run).workers[p].tid in Last(run).db.tasks && Last(run).db.tasks[Last(run).workers[p].tid].state.Queued?
    ensures var s := Last(run);
            && Goes(cfg, run, run') && run.states <= run'.states && Moved(s, Last(run'), p, SaveProcessing(Loaded(s.db.tasks[s.workers[p].tid])))
            && Last(run').db.tasks == s.db.tasks && Last(run').db.files == s.db.files
  {
    hide IsRun, LeasesOutlast, LogicalPath;
    run' := Works(cfg, run, p, Input.Ok, Last(run), Load);
  }

  /** It then persists PROCESSING and resolves the company. */
  lemma Begins(cfg: Config, run: Run, p: Pid, s: State, c: Context, cik: string) returns (run': Run)
    requires IsRun(cfg, run) && p in s.workers && Moved(s, Last(run), p, SaveProcessing(c))
    ensures Goes(cfg, run, run') && run.states <= run'.states && Moved(s, Last(run'), p, Fetch(c, cik))
    ensures Last(run').db.tasks == Last(run).db.tasks[s.workers[p].tid := c.task] && Last(run').db.files == Last(run).db.files
  {
    hide IsRun, LeasesOutlast, Moved;
    run' := Works(cfg, run, p, Input.Ok, s, SaveProcessing(c));
    run' := Works(cfg, run', p, Company(cik), s, Resolve(c));
  }

  // ----- the first handler re-enqueues its task and dies --------------------------------------------

  /** The in-memory task after a transient failure. */
  function FailedOnce(c: Context, state: ReportState): Context {
    c.(task := c.task.(attempts := c.task.attempts + 1, state := state))
  }

  /** A transient failure with attempts left, up to the XADD. */
  lemma Retries(cfg: Config, run: Run, p: Pid, s: State, c: Context, cik: string) returns (run': Run)
    requires IsRun(cfg, run) && p in s.workers && Moved(s, Last(run), p, Fetch(c, cik))
    requires c.task.state.Processing? && c.task.attempts + 1 < cfg.maxAttempts && cfg.maxDepth >= 1
    ensures Goes(cfg, run, run') && Moved(s, Last(run'), p, Enqueue(FailedOnce(c, Queued)))
    ensures Last(run').db.tasks == Last(run).db.tasks[s.workers[p].tid := FailedOnce(c, Queued).task] && Last(run').db.files == Last(run).db.files
  {
    hide IsRun, LeasesOutlast, Moved;
    FailsOnce(cfg, c);
    hide FailTransiently, Submissions.SelectLatest;
    run' := Works(cfg, run, p, TransientError, s, Fetch(c, cik));
    run' := Works(cfg, run', p, Input.Ok, s, SaveRetrying(FailedOnce(c, Retrying)));
    run' := PersistsQueued(cfg, run', p, s, FailedOnce(c, Queued));
  }

  lemma FailsOnce(cfg: Config, c: Context)
    requires c.task.state.Processing? && c.task.attempts + 1 < cfg.maxAttempts
    ensures FailTransiently(cfg, c) == SaveRetrying(FailedOnce(c, Retrying))
  {
  }

  /** Its own entry still counts at the depth check, so XLEN fails, lest a maximum of 1 be full. */
  lemma PersistsQueued(cfg: Config, run: Run, p: Pid, s: State, c: Context) returns (run': Run)
    requires IsRun(cfg, run) && p in s.workers && Moved(s, Last(run), p, SaveQueued(c)) && cfg.maxDepth >= 1
    ensures Goes(cfg, run, run') && Moved(s, Last(run'), p, Enqueue(c))
    ensures Last(run').db.tasks == Last(run).db.tasks[s.workers[p].tid := c.task] && Last(run').db.files == Last(run).db.files
  {
    hide IsRun, LeasesOutlast, Moved;
    run' := Works(cfg, run, p, Input.Ok, s, SaveQueued(c));
    run' := Works(cfg, run', p, XlenError, s, CheckDepth(c));
  }

  // ----- another handler completes the task -----------------------------------------------------------

  lemma WritesPart(cfg: Config, run: Run, p: Pid, s: State, c: Context, job: Job, content: Content, part: Part) returns (run': Run)
    requires IsRun(cfg, run) && p in s.workers && Moved(s, Last(run), p, Write(c, job, content, part, OpenTmp))
    ensures Goes(cfg, run, run') && Moved(s, Last(run'), p, AfterPart(cfg, c, job, content, part)) && Last(run').db.tasks == Last(run).db.tasks
  {
    hide IsRun, LeasesOutlast, Moved, AfterPart, PartName, PartData, FailTransiently;
    run' := Works(cfg, run, p, Input.Ok, s, Write(c, job, content, part, OpenTmp));
    run' := Works(cfg, run', p, Input.Ok, s, Write(c, job, content, part, FillTmp));
    run' := Works(cfg, run', p, Input.Ok, s, Write(c, job, content, part, Rename));
  }

  /** From the filing list to the rendered artifact. */
  lemma Produces(cfg: Config, run: Run, p: Pid, s: State, c: Context, cik: string, filings: seq<Submissions.FilingRecord>)
    returns (run': Run, job: Job)
    requires IsRun(cfg, run) && p in s.workers && Moved(s, Last(run), p, Fetch(c, cik)) && Last(run).db.files == map[]
    requires Selects(c.task.identity, c.task.includeAmended, filings)
    ensures Goes(cfg, run, run') && Moved(s, Last(run'), p, Write(c, job, Content([], PDF_HEADER, []), SourcePart, OpenTmp))
    ensures Last(run').db.tasks == Last(run).db.tasks
  {
    hide IsRun, LeasesOutlast, Moved, Submissions.SelectLatest;
    var i := c.task.identity;
    var selected := Submissions.SelectLatest(filings, Submissions.FilingSelector(i.form, c.task.includeAmended), RequestedYear(i));
    job := JobFor(i, cik, selected.value);
    run' := Works(cfg, run, p, Filings(filings), s, Fetch(c, cik));
    run' := Works(cfg, run', p, Input.Ok, s, CheckExists(c, job));
    run' := Renders(cfg, run', p, s, c, job);
  }

  lemma Renders(cfg: Config, run: Run, p: Pid, s: State, c: Context, job: Job) returns (run': Run)
    requires IsRun(cfg, run) && p in s.workers && Moved(s, Last(run), p, Download(c, job))
    ensures Goes(cfg, run, run') && Moved(s, Last(run'), p, Write(c, job, Content([], PDF_HEADER, []), SourcePart, OpenTmp))
    ensures Last(run').db.tasks == Last(run).db.tasks
  {
    hide IsRun, LeasesOutlast, Moved;
    run' := Works(cfg, run, p, Document([]), s, Download(c, job));
    run' := Works(cfg, run', p, Rendered(PDF_HEADER, []), s, Convert(c, job, []));
  }

  predicate Selects(i: ReportIdentity, a: bool, filings: seq<Submissions.FilingRecord>) {
    Submissions.SelectLatest(filings, Submissions.FilingSelector(i.form, a), RequestedYear(i)).Some?
  }

  lemma Completes(cfg: Config, run: Run, p: Pid, s: State, c: Context, cik: string, filings: seq<Submissions.FilingRecord>)
    returns (run': Run, t: ReportTask, pc: Pc)
    requires IsRun(cfg, run) && p in s.workers && Moved(s, Last(run), p, Fetch(c, cik)) && Last(run).db.files == map[]
    requires c.task.state.Processing? && Selects(c.task.identity, c.task.includeAmended, filings)
    ensures Goes(cfg, run, run') && t.state.Completed? && Moved(s, Last(run'), p, pc)
    ensures Last(run').db.tasks == Last(run).db.tasks[s.workers[p].tid := t]
  {
    hide IsRun, LeasesOutlast, Moved, Selects;
    var job;
    run', job := Produces(cfg, run, p, s, c, cik, filings);
    var content := Content([], PDF_HEADER, []);
    run' := WritesPart(cfg, run', p, s, c, job, content, SourcePart);
    run' := WritesPart(cfg, run', p, s, c, job, content, PdfPart);
    run' := WritesPart(cfg, run', p, s, c, job, content, MetadataPart);
    t := CompletedTask(c.task, job);
    pc := ClearCompleted(c.(task := t));
    run' := Works(cfg, run', p, Input.Ok, s, SaveCompleted(c.(task := t)));
  }

  // ----- the run ------------------------------------------------------------------------------------------

  /** A request is accepted, and its entry waits in the stream. */
  lemma Accepted(cfg: Config, i: ReportIdentity, a: bool) returns (run: Run)
    requires ValidIdentity(i) && cfg.maxDepth >= 1
    ensures IsRun(cfg, run) && LeasesOutlast(run) && Enqueued(Last(run), NewTask(i, a).(state := Queued))
  {
    hide ValidIdentity, LogicalPath, PendingKey, LogicalKey, IsRun, LeasesOutlast;
    var r := Request(i, a, 0, Lookup);
    run := Arrived(cfg, r);
    run := Admitted(cfg, run, r);
    run := Next(cfg, run, ApiStep(0, Input.Ok));
  }

  lemma Arrived(cfg: Config, r: Request) returns (run: Run)
    requires ValidIdentity(r.identity) && r.id == 0 && r.pc.Lookup?
    ensures IsRun(cfg, run) && LeasesOutlast(run) && Asking(Last(run), r.(pc := CheckCapacity)) && Last(run).db.tasks == map[0 := RequestTask(r)]
  {
    hide ValidIdentity, LogicalPath, PendingKey, LogicalKey, IsRun, LeasesOutlast;
    run := Begun(cfg);
    run := Next(cfg, run, Arrive(r.identity, r.includeAmended));
    run := Asks(cfg, run, Input.Ok, r);
    run := Asks(cfg, run, Atomically, r.(pc := Reserve));
  }

  /** One task, QUEUED, whose only entry is undelivered. */
  ghost predicate Enqueued(s: State, t: ReportTask) {
    && s.workers == map[] && s.nextPid == 1 && s.now == 0 && s.db.tasks == map[0 := t] && s.db.files == map[]
    && s.db.stream == map[1 := 0] && s.db.nextEntry == 2 && s.db.lastDelivered == 0 && s.db.pel == map[]
  }

  /** One request, and nothing in the stream. */
  ghost predicate Asking(s: State, r: Request) {
    && s.workers == map[] && s.requests == map[0 := r] && s.nextPid == 1 && s.now == 0
    && s.db == EMPTY_DB.(tasks := s.db.tasks, pending := s.db.pending) && (!Saved(r.pc) ==> s.db == EMPTY_DB)
  }

  lemma Asks(cfg: Config, run: Run, input: Input, r: Request) returns (run': Run)
    requires IsRun(cfg, run) && Asking(Last(run), r)
    requires var m := AdvanceRequest(cfg, Last(run).db, r, input);
             m.next.Some? && !m.effect.SetPending?
    ensures var m := AdvanceRequest(cfg, Last(run).db, r, input);
            Goes(cfg, run, run') && Asking(Last(run'), r.(pc := m.next.value)) && Last(run').db == ApplyEffect(Last(run).db, m.effect)
  {
    hide AdvanceRequest, IsRun, LeasesOutlast;
    ApiHasShape(cfg, Last(run).db, r, input);
    run' := Next(cfg, run, ApiStep(0, input));
  }

  lemma Admitted(cfg: Config, run: Run, r: Request) returns (run': Run)
    requires IsRun(cfg, run) && Asking(Last(run), r.(pc := CheckCapacity)) && cfg.maxDepth >= 1
    ensures Goes(cfg, run, run') && Asking(Last(run'), r.(pc := RequestPc.Append))
    ensures Last(run').db.tasks == Last(run).db.tasks[r.id := RequestTask(r).(state := Queued)]
  {
    hide IsRun, LeasesOutlast;
    run' := Asks(cfg, run, Input.Ok, r.(pc := CheckCapacity));
    run' := Asks(cfg, run', Input.Ok, r.(pc := PersistQueued));
    run' := Asks(cfg, run', Input.Ok, r.(pc := AdmitDepth));
  }

  lemma Begun(cfg: Config) returns (run: Run)
    ensures IsRun(cfg, run) && LeasesOutlast(run) && Last(run) == INITIAL
  {
    run := START;
  }

  /** The first delivery fails once and re-enqueues; its handler dies before the XACK. */
  lemma LeavesTwoEntries(cfg: Config, i: ReportIdentity, a: bool) returns (run: Run)
    requires ValidIdentity(i) && cfg.maxDepth >= 1 && cfg.maxAttempts >= 2
    ensures IsRun(cfg, run) && LeasesOutlast(run) && TwoEntries(Last(run), NewTask(i, a).(state := Queued, attempts := 1))
  {
    hide ValidIdentity, IsRun, LeasesOutlast;
    run := Accepted(cfg, i, a);
    run := Next(cfg, run, DeliverEntry(1, 0));
    var s, c := Last(run), Loaded(NewTask(i, a).(state := Queued));
    assert Delivered(s);
    hide Enqueued, Delivered;
    run := Loads(cfg, run, 1);
    run := Begins(cfg, run, 1, s, c, "");
    run := Retries(cfg, run, 1, s, c, "");
    run := Dies(cfg, run, s, FailedOnce(c, Queued));
  }

  /** The only entry is the first handler's. */
  ghost predicate Delivered(s: State) {
    && s.workers == map[1 := Worker(0, 1, Load)] && s.nextPid == 2 && s.now == 0
    && s.db.stream == map[1 := 0] && s.db.nextEntry == 2 && s.db.lastDelivered == 1 && s.db.pel == map[1 := Lease(0, 0)]
  }

  lemma Dies(cfg: Config, run: Run, s: State, c: Context) returns (run': Run)
    requires IsRun(cfg, run) && Delivered(s) && Moved(s, Last(run), 1, Enqueue(c))
    requires Last(run).db.tasks == map[0 := c.task] && Last(run).db.files == map[]
    ensures Goes(cfg, run, run') && TwoEntries(Last(run'), c.task)
  {
    hide IsRun, LeasesOutlast;
    run' := Next(cfg, run, WorkStep(1, Input.Ok));
    run' := Next(cfg, run', WorkCrash(1));
  }

  /** One task, QUEUED, with a fresh entry and one of a handler that is gone. */
  ghost predicate TwoEntries(s: State, t: ReportTask) {
    && s.workers == map[] && s.nextPid == 2 && s.now == 0 && s.db.tasks == map[0 := t] && s.db.files == map[]
    && s.db.stream == map[1 := 0, 2 := 0] && s.db.nextEntry == 3 && s.db.lastDelivered == 1 && s.db.pel == map[1 := Lease(0, 0)]
  }

  /** A handler of the fresh entry loads the task; the other entry is claimed. */
  lemma TwoHandlers(cfg: Config, run: Run, t: ReportTask) returns (run': Run)
    requires IsRun(cfg, run) && TwoEntries(Last(run), t) && t.state.Queued?
    ensures Goes(cfg, run, run')
    ensures var s := Last(run');
            && s.workers == map[2 := Worker(0, 2, SaveProcessing(Loaded(t))), 3 := Worker(0, 1, Load)]
            && s.db.tasks == map[0 := t] && s.db.files == map[]
  {
    hide IsRun, LeasesOutlast, Loaded;
    run' := Next(cfg, run, DeliverEntry(2, 0));
    run' := Loads(cfg, run', 2);
    run' := Next(cfg, run', Tick(if cfg.minIdle > 0 then cfg.minIdle else 0));
    run' := Next(cfg, run', ClaimEntry(1, 1));
  }

  /** Leases are never taken from a live handler, and the task is COMPLETED for a while and then FAILED:
      the handler that loaded it before saves its own copy over the record. */
  lemma StaleHandlerSavesOver(cfg: Config, i: ReportIdentity, a: bool, filings: seq<Submissions.FilingRecord>)
    returns (run: Run, n: nat)
    requires ValidIdentity(i) && cfg.maxDepth >= 1 && cfg.maxAttempts >= 2 && Selects(i, a, filings)
    ensures IsRun(cfg, run) && LeasesOutlast(run) && n < |run.states|
    ensures IsCompleted(run.states[n].db, 0) && 0 in Last(run).db.tasks && Last(run).db.tasks[0].state.Failed?
  {
    var t := NewTask(i, a).(state := Queued, attempts := 1);
    run := LeavesTwoEntries(cfg, i, a);
    run := TwoHandlers(cfg, run, t);
    run, n := BothFinish(cfg, run, t, filings);
  }

  lemma BothFinish(cfg: Config, run: Run, t: ReportTask, filings: seq<Submissions.FilingRecord>) returns (run': Run, n: nat)
    requires IsRun(cfg, run) && t.state.Queued? && Selects(t.identity, t.includeAmended, filings)
    requires var s := Last(run);
             && s.workers == map[2 := Worker(0, 2, SaveProcessing(Loaded(t))), 3 := Worker(0, 1, Load)]
             && s.db.tasks == map[0 := t] && s.db.files == map[]
    ensures Goes(cfg, run, run') && n < |run'.states| && IsCompleted(run'.states[n].db, 0)
    ensures 0 in Last(run').db.tasks && Last(run').db.tasks[0].state.Failed?
  {
    hide IsRun, LeasesOutlast, Selects;
    var s, c := Last(run), Loaded(t);
    run' := Loads(cfg, run, 3);
    run' := Begins(cfg, run', 3, s, c, "");
    var done, pc;
    run', done, pc := Completes(cfg, run', 3, s, c, "", filings);
    n := LastIndex(cfg, run');
    run' := FailsTooLate(cfg, run', c);
  }

  lemma FailsTooLate(cfg: Config, run: Run, c: Context) returns (run': Run)
    requires IsRun(cfg, run) && 2 in Last(run).workers && Last(run).workers[2] == Worker(0, 2, SaveProcessing(c)) && c.task.state.Processing?
    ensures Goes(cfg, run, run') && run.states <= run'.states
    ensures 0 in Last(run').db.tasks && Last(run').db.tasks[0].state.Failed?
  {
    hide IsRun, LeasesOutlast;
    var s := Last(run);
    run' := Works(cfg, run, 2, Input.Ok, s, SaveProcessing(c));
    run' := Works(cfg, run', 2, PermanentError, s, Resolve(c));
    run' := Works(cfg, run', 2, Input.Ok, s, SaveFailed(SetState(c, ReportState.Failed)));
  }

  // ----- a lease taken from a live handler ------------------------------------------------------------

  /** A handler fails its task for good, acknowledges and deletes its entry. */
  lemma FailsForGood(cfg: Config, run: Run, p: Pid, s: State, c: Context) returns (run': Run)
    requires IsRun(cfg, run) && p in s.workers && Moved(s, Last(run), p, Fetch(c, "")) && c.task.state.Processing?
    ensures IsRun(cfg, run') && run.states <= run'.states
    ensures Last(run').workers == s.workers - {p} && Last(run').db.stream == s.db.stream - {s.workers[p].entry}
  {
    hide IsRun, LeasesOutlast, Submissions.SelectLatest;
    var d := SetState(c, ReportState.Failed);
    run' := Works(cfg, run, p, PermanentError, s, Fetch(c, ""));
    run' := Works(cfg, run', p, Input.Ok, s, SaveFailed(d));
    run' := Works(cfg, run', p, Input.Ok, s, ClearFailed(d));
    run' := Leaves(cfg, run', p, s);
  }

  lemma Leaves(cfg: Config, run: Run, p: Pid, s: State) returns (run': Run)
    requires IsRun(cfg, run) && p in s.workers && Moved(s, Last(run), p, Ack)
    ensures IsRun(cfg, run') && run.states <= run'.states
    ensures Last(run').workers == s.workers - {p} && Last(run').db.stream == s.db.stream - {s.workers[p].entry}
  {
    hide IsRun, LeasesOutlast;
    run' := Next(cfg, run, WorkStep(p, Input.Ok));
    run' := Next(cfg, run', WorkStep(p, Input.Ok));
  }

  /** The only entry is claimed while its handler lives, with the loaded task in memory. */
  lemma Steals(cfg: Config, i: ReportIdentity, a: bool) returns (run: Run)
    requires ValidIdentity(i) && cfg.maxDepth >= 1
    ensures IsRun(cfg, run)
    ensures var s, t := Last(run), NewTask(i, a).(state := Queued);
            && s.workers == map[1 := Worker(0, 1, SaveProcessing(Loaded(t))), 2 := Worker(0, 1, Load)]
            && s.db.tasks == map[0 := t] && s.db.stream == map[1 := 0]
  {
    hide IsRun, LeasesOutlast, Loaded, ValidIdentity;
    run := Accepted(cfg, i, a);
    run := Next(cfg, run, DeliverEntry(1, 0));
    run := Loads(cfg, run, 1);
    run := Next(cfg, run, Tick(if cfg.minIdle > 0 then cfg.minIdle else 0));
    run := Next(cfg, run, ClaimEntry(1, 1));
  }

  /** When a lease is taken from a live handler a task can be lost: after its XADD, its last entry is gone, no
      handler is left, and it is persisted PROCESSING. */
  lemma LostWithoutLeases(cfg: Config, i: ReportIdentity, a: bool) returns (run: Run, n: nat)
    requires ValidIdentity(i) && cfg.maxDepth >= 1
    ensures IsRun(cfg, run) && n < |run.states| && 1 in run.states[n].db.stream && run.states[n].db.stream[1] == 0
    ensures var s := Last(run); s.workers == map[] && s.db.stream == map[] && 0 in s.db.tasks && s.db.tasks[0].state.Processing?
  {
    hide IsRun, LeasesOutlast, Loaded, ValidIdentity;
    run := Steals(cfg, i, a);
    n := LastIndex(cfg, run);
    run := StolenIsLost(cfg, run, NewTask(i, a).(state := Queued));
  }

  lemma StolenIsLost(cfg: Config, run: Run, t: ReportTask) returns (run': Run)
    requires IsRun(cfg, run) && t.state.Queued?
    requires var s := Last(run);
             && s.workers == map[1 := Worker(0, 1, SaveProcessing(Loaded(t))), 2 := Worker(0, 1, Load)]
             && s.db.tasks == map[0 := t] && s.db.stream == map[1 := 0]
    ensures IsRun(cfg, run') && run.states <= run'.states
    ensures var s := Last(run'); s.workers == map[] && s.db.stream == map[] && 0 in s.db.tasks && s.db.tasks[0].state.Processing?
  {
    hide IsRun, LeasesOutlast;
    var s, c := Last(run), Loaded(t);
    run' := Loads(cfg, run, 2);
    run' := Begins(cfg, run', 2, s, c, "");
    run' := FailsForGood(cfg, run', 2, s, c);
    hide Loaded;
    run' := SavesAndDies(cfg, run', c);
  }

  lemma SavesAndDies(cfg: Config, run: Run, c: Context) returns (run': Run)
    requires IsRun(cfg, run) && Last(run).workers == map[1 := Worker(0, 1, SaveProcessing(c))] && c.task.state.Processing?
    ensures IsRun(cfg, run') && run.states <= run'.states
    ensures var s := Last(run'); s.workers == map[] && s.db.stream == Last(run).db.stream && 0 in s.db.tasks && s.db.tasks[0].state.Processing?
  {
    hide IsRun, LeasesOutlast;
    run' := Works(cfg, run, 1, Input.Ok, Last(run), SaveProcessing(c));
    run' := Next(cfg, run', WorkCrash(1));
  }
}
