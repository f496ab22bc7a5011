/** Completed and published mean deliverable: in every reachable state a COMPLETED task
    and every artifact pointer lead to a PDF file that exists and looks like one. */
module Deliverable {
  import opened Wrappers
  import opened Identity
  import opened ArtifactStore
  import Submissions
  import Reports
  import opened Store
  import opened Handler
  import Request
  import opened System
  import opened Invariant

  type Files = map<FileKey, Bytes>

  /** One writer at a time per artifact: the temporary names are shared. */
  ghost predicate OneWriter(s: State) {
    forall p, q | p in s.workers && q in s.workers && p != q && s.workers[p].pc.Write? && s.workers[q].pc.Write? ::
      JobDir(s.workers[p].pc.job) != JobDir(s.workers[q].pc.job)
  }

  ghost predicate OneWriterAlways(run: Run) {
    forall i | 0 <= i < |run.states| :: OneWriter(run.states[i])
  }

  predicate VisiblePdf(files: Files, k: FileKey) {
    k.name.Pdf? && !k.tmp && k in files && HasPdfHeader(files[k])
  }

  /** The task names an accession whose PDF is where its identity says, filed under the
      year of its filing date. */
  predicate TaskDelivers(t: Reports.ReportTask, files: Files) {
    && t.filing.Some? && t.artifactPath == Some(PdfKey(t.identity, t.filing.value.accessionNumber))
    && VisiblePdf(files, t.artifactPath.value)
    && t.identity.year == t.filing.value.filingDate.year
  }

  predicate TaskOk(t: Reports.ReportTask, files: Files) {
    ValidIdentity(t.identity) && (t.state.Completed? ==> TaskDelivers(t, files))
  }

  /** A pointer is filed under a real year, and leads to a PDF. */
  ghost predicate PointerOk(key: string, ptr: Pointer, files: Files) {
    exists i: ReportIdentity, a: bool ::
      && key == LogicalKey(LogicalPath(i), a) && ValidIdentity(i) && i.year >= 1
      && ptr.artifactPath == PdfKey(i, ptr.accessionNumber) && VisiblePdf(files, ptr.artifactPath)
  }

  /** Every visible PDF is one, and has its source beside it. */
  ghost predicate FilesOk(files: Files) {
    forall k | k in files && k.name.Pdf? && !k.tmp ::
      HasPdfHeader(files[k]) && exists x :: FileKey(k.dir, Source(x), false) in files
  }

  predicate JobOk(job: Job) {
    ValidIdentity(job.identity) && job.identity.year == job.filing.filingDate.year
  }

  predicate HasJob(pc: Pc) { pc.CheckExists? || pc.Download? || pc.Convert? || pc.Write? }

  /** What a writer relies on: its temporary file holds what it has put there, and the
      parts it has finished are visible. */
  predicate WriterOk(files: Files, pc: Pc)
    requires pc.Write?
  {
    var tmp := PartFile(pc.job, pc.part, true);
    && HasPdfHeader(pc.content.pdf)
    && (pc.stage.Rename? ==> tmp in files && files[tmp] == PartData(pc.content, pc.part))
    && (!pc.part.SourcePart? ==> PartFile(pc.job, SourcePart, false) in files)
    && (pc.part.MetadataPart? ==> VisiblePdf(files, JobPdf(pc.job)))
  }

  predicate PcOk(files: Files, pc: Pc) {
    && (LocalTask(pc).Some? ==> TaskOk(LocalTask(pc).value, files))
    && (HasJob(pc) ==> JobOk(pc.job))
    && (pc.Write? ==> WriterOk(files, pc))
  }

  ghost predicate Delivers(s: State) {
    && FilesOk(s.db.files)
    && (forall t | t in s.db.tasks :: TaskOk(s.db.tasks[t], s.db.files))
    && (forall key | key in s.db.current :: PointerOk(key, s.db.current[key], s.db.files))
    && (forall p | p in s.workers :: PcOk(s.db.files, s.workers[p].pc))
    && (forall p | p in s.requests :: ValidIdentity(s.requests[p].identity))
  }

  // ----- files only change below one directory, and visible ones stay ----------------------

  ghost predicate Touches(files: Files, files': Files, dir: Dir) {
    && (forall k: FileKey | k.dir != dir :: (k in files <==> k in files') && (k in files ==> files[k] == files'[k]))
    && (forall k | k in files && !k.tmp :: k in files')
    && (forall k | VisiblePdf(files, k) :: VisiblePdf(files', k))
  }

  lemma TouchKeepsTask(files: Files, files': Files, dir: Dir, t: Reports.ReportTask)
    requires Touches(files, files', dir) && TaskOk(t, files)
    ensures TaskOk(t, files')
  {
  }

  lemma TouchKeepsPointer(files: Files, files': Files, dir: Dir, key: string, ptr: Pointer)
    requires Touches(files, files', dir) && PointerOk(key, ptr, files)
    ensures PointerOk(key, ptr, files')
  {
    hide LogicalKey, LogicalPath;
    var i: ReportIdentity, a: bool :|
      && key == LogicalKey(LogicalPath(i), a) && ValidIdentity(i) && i.year >= 1
      && ptr.artifactPath == PdfKey(i, ptr.accessionNumber) && VisiblePdf(files, ptr.artifactPath);
    assert VisiblePdf(files', ptr.artifactPath);
  }

  /** A handler that does not write in `dir` is not disturbed by a change there. */
  lemma TouchKeepsPc(files: Files, files': Files, dir: Dir, pc: Pc)
    requires Touches(files, files', dir) && PcOk(files, pc)
    requires pc.Write? ==> JobDir(pc.job) != dir
    ensures PcOk(files', pc)
  {
  }

  // ----- one handler move, locally -----------------------------------------------------------

  lemma FailuresOk(cfg: Config, c: Context, files: Files)
    requires TaskOk(c.task, files)
    ensures PcOk(files, FailPermanently(c)) && PcOk(files, FailTransiently(cfg, c))
  {
    hide HasPdfHeader;
  }

  lemma CompleteOk(cfg: Config, c: Context, job: Job, files: Files)
    requires TaskOk(c.task, files) && JobOk(job) && VisiblePdf(files, JobPdf(job))
    ensures PcOk(files, Complete(cfg, c, job))
  {
    hide HasPdfHeader;
    if !Reports.CanTransition(c.task.state, Reports.Completed) {
      FailuresOk(cfg, c.(task := c.task.(identity := job.identity)), files);
    }
  }

  lemma FetchOk(cfg: Config, c: Context, cik: string, input: Input, files: Files)
    requires TaskOk(c.task, files)
    ensures PcOk(files, AdvanceFetch(cfg, c, cik, input))
  {
    hide Submissions.SelectLatest, FailTransiently, FailPermanently, HasPdfHeader;
    FailuresOk(cfg, c, files);
    if input.Filings? {
      var selector := Submissions.FilingSelector(c.task.identity.form, c.task.includeAmended);
      if Submissions.SelectLatest(input.filings, selector, RequestedYear(c.task.identity)).Some? {
        Submissions.SelectedYear(input.filings, selector, RequestedYear(c.task.identity));
      }
    }
  }

  lemma PutTouches(files: Files, k: FileKey, data: Bytes)
    requires FilesOk(files) && k.tmp
    ensures Touches(files, files[k := data], k.dir) && FilesOk(files[k := data])
  {
    hide HasPdfHeader;
    var files' := files[k := data];
    forall f | f in files' && f.name.Pdf? && !f.tmp
      ensures HasPdfHeader(files'[f]) && exists x :: FileKey(f.dir, Source(x), false) in files'
    {
      var x :| FileKey(f.dir, Source(x), false) in files;
      assert FileKey(f.dir, Source(x), false) in files';
    }
  }

  lemma RenameTouches(db: Db, from: FileKey, to: FileKey)
    requires FilesOk(db.files) && from.tmp && !to.tmp && from.dir == to.dir && from in db.files
    requires to.name.Pdf? ==> HasPdfHeader(db.files[from]) && exists x :: FileKey(to.dir, Source(x), false) in db.files
    ensures var files' := ApplyEffect(db, RenameFile(from, to)).files;
            Touches(db.files, files', to.dir) && FilesOk(files') && to in files' && files'[to] == db.files[from]
  {
    hide HasPdfHeader;
    var files, files' := db.files, ApplyEffect(db, RenameFile(from, to)).files;
    forall f | f in files' && f.name.Pdf? && !f.tmp
      ensures HasPdfHeader(files'[f]) && exists x :: FileKey(f.dir, Source(x), false) in files'
    {
      assert f in files || f == to;
      var x :| FileKey(f.dir, Source(x), false) in files;
      assert FileKey(f.dir, Source(x), false) in files';
    }
  }

  /** The part being written is visible, complete. */
  predicate Placed(files: Files, pc: Pc)
    requires pc.Write?
  {
    PartFile(pc.job, pc.part, false) in files && files[PartFile(pc.job, pc.part, false)] == PartData(pc.content, pc.part)
  }

  /** The file effect of a writer's move. */
  lemma WriteTouches(cfg: Config, db: Db, pc: Pc, input: Input)
    requires pc.Write? && FilesOk(db.files) && WriterOk(db.files, pc)
    ensures var e := AdvanceWrite(cfg, pc, input).effect;
            var files' := ApplyEffect(db, e).files;
            Touches(db.files, files', JobDir(pc.job)) && FilesOk(files') && (e.RenameFile? ==> Placed(files', pc))
  {
    hide FailTransiently, AfterPart, HasPdfHeader, FilesOk, Touches, SourceExtension;
    var e := AdvanceWrite(cfg, pc, input).effect;
    if e.PutFile? {
      PutTouches(db.files, e.file, e.data);
    } else if e.RenameFile? {
      if pc.part.PdfPart? {
        assert FileKey(e.to.dir, Source(SourceExtension(pc.job.filing.primaryDocument)), false) in db.files;
      }
      RenameTouches(db, e.from, e.to);
    } else {
      TouchesSelf(db.files, JobDir(pc.job));
    }
  }

  /** Opening or filling a temporary file. */
  lemma FillOk(cfg: Config, db: Db, pc: Pc, input: Input)
    requires pc.Write? && !pc.stage.Rename? && PcOk(db.files, pc)
    requires Touches(db.files, ApplyEffect(db, AdvanceWrite(cfg, pc, input).effect).files, JobDir(pc.job))
    ensures var m := AdvanceWrite(cfg, pc, input);
            m.next.Some? && PcOk(ApplyEffect(db, m.effect).files, m.next.value)
  {
    hide FailTransiently, HasPdfHeader, ValidIdentity, SourceExtension;
    var files' := ApplyEffect(db, AdvanceWrite(cfg, pc, input).effect).files;
    TouchKeepsTask(db.files, files', JobDir(pc.job), pc.c.task);
    FailuresOk(cfg, pc.c, files');
  }

  /** Renaming a complete temporary file into place. */
  lemma RenameOk(cfg: Config, db: Db, pc: Pc, input: Input)
    requires pc.Write? && pc.stage.Rename? && PcOk(db.files, pc)
    requires var e := AdvanceWrite(cfg, pc, input).effect;
             var files' := ApplyEffect(db, e).files;
             Touches(db.files, files', JobDir(pc.job)) && (e.RenameFile? ==> Placed(files', pc))
    ensures var m := AdvanceWrite(cfg, pc, input);
            m.next.Some? && PcOk(ApplyEffect(db, m.effect).files, m.next.value)
  {
    hide FailTransiently, Complete, HasPdfHeader, ValidIdentity, SourceExtension, ApplyEffect;
    var files' := ApplyEffect(db, AdvanceWrite(cfg, pc, input).effect).files;
    TouchKeepsTask(db.files, files', JobDir(pc.job), pc.c.task);
    FailuresOk(cfg, pc.c, files');
    if pc.part.MetadataPart? {
      CompleteOk(cfg, pc.c, pc.job, files');
    }
  }

  /** Writing one part: the file effect, and where it leaves the writer. */
  lemma WriteOk(cfg: Config, db: Db, pc: Pc, input: Input)
    requires pc.Write? && FilesOk(db.files) && PcOk(db.files, pc)
    ensures var m := AdvanceWrite(cfg, pc, input);
            var files' := ApplyEffect(db, m.effect).files;
            && Touches(db.files, files', JobDir(pc.job)) && FilesOk(files')
            && m.next.Some? && PcOk(files', m.next.value)
  {
    hide AdvanceWrite, FilesOk, Touches, WriterOk, ApplyEffect;
    WriteTouches(cfg, db, pc, input);
    if pc.stage.Rename? {
      RenameOk(cfg, db, pc, input);
    } else {
      FillOk(cfg, db, pc, input);
    }
  }

  lemma ProcessingOk(cfg: Config, db: Db, tid: TaskId, pc: Pc, input: Input)
    requires InProcessing(pc) && !pc.Write? && FilesOk(db.files) && PcOk(db.files, pc)
    requires tid in db.tasks ==> TaskOk(db.tasks[tid], db.files)
    ensures var m := AdvanceProcessing(cfg, db, tid, pc, input); m.next.Some? ==> PcOk(db.files, m.next.value)
  {
    hide FailTransiently, FailPermanently, Complete, AdvanceFetch, HasPdfHeader, LogicalPath, TickerOk, FormOk;
    if !pc.Load? {
      FailuresOk(cfg, pc.c, db.files);
      if pc.Fetch? {
        FetchOk(cfg, pc.c, pc.cik, input, db.files);
      } else if pc.CheckExists? && JobPdf(pc.job) in db.files {
        CompleteOk(cfg, pc.c, pc.job, db.files);
      }
    }
  }

  lemma SuccessOk(cfg: Config, tid: TaskId, pc: Pc, input: Input, files: Files)
    requires InSuccess(pc) && PcOk(files, pc)
    ensures PcOk(files, AdvanceSuccess(cfg, tid, pc, input).next.value)
  {
    hide FailTransiently, TaskOk, AdvancePublish, PendingKey;
    assert TaskOk(pc.c.task, files);
    FailuresOk(cfg, pc.c, files);
  }

  lemma FailureOk(cfg: Config, db: Db, tid: TaskId, pc: Pc, input: Input)
    requires InFailure(pc) && PcOk(db.files, pc)
    ensures PcOk(db.files, AdvanceFailure(cfg, db, tid, pc, input).next.value)
  {
    hide TaskDelivers, PendingKey, ValidIdentity;
  }

  lemma RecoveryOk(cfg: Config, db: Db, tid: TaskId, pc: Pc, input: Input)
    requires InRecovery(pc) && PcOk(db.files, pc) && (tid in db.tasks ==> TaskOk(db.tasks[tid], db.files))
    ensures var m := AdvanceRecovery(cfg, db, tid, pc, input); m.next.Some? ==> PcOk(db.files, m.next.value)
  {
    hide TaskDelivers, PendingKey, ValidIdentity;
  }

  lemma OutcomeOk(cfg: Config, db: Db, w: Worker, input: Input)
    requires !InProcessing(w.pc) && PcOk(db.files, w.pc)
    requires w.tid in db.tasks ==> TaskOk(db.tasks[w.tid], db.files)
    ensures var m := Advance(cfg, db, w.tid, w.entry, w.pc, input); m.next.Some? ==> PcOk(db.files, m.next.value)
  {
    hide AdvanceSuccess, AdvanceFailure, AdvanceRecovery, TaskOk;
    if InSuccess(w.pc) {
      SuccessOk(cfg, w.tid, w.pc, input, db.files);
    } else if InFailure(w.pc) {
      FailureOk(cfg, db, w.tid, w.pc, input);
    } else if InRecovery(w.pc) {
      RecoveryOk(cfg, db, w.tid, w.pc, input);
    }
  }

  lemma PublishIsDeliverable(c: Context, input: Input, files: Files)
    requires c.task.state.Completed? && TaskOk(c.task, files)
    ensures var e := AdvancePublish(c, input).effect; e.SetCurrent? ==> PointerOk(e.key, e.pointer, files)
  {
    hide HasPdfHeader, LogicalPath, LogicalKey, TickerOk, FormOk;
    var t := c.task;
    var ptr := Pointer(t.filing.value.accessionNumber, t.artifactPath.value, t.filing.value.cik);
    assert ptr.artifactPath == PdfKey(t.identity, ptr.accessionNumber);
    assert PointerOk(LogicalKey(LogicalPath(t.identity), t.includeAmended), ptr, files);
  }

  /** A published pointer is that of a completed, deliverable task. */
  lemma PublishesDeliverable(cfg: Config, db: Db, w: Worker, input: Input)
    requires LocalOk(w.pc) && PcOk(db.files, w.pc)
    ensures var e := Advance(cfg, db, w.tid, w.entry, w.pc, input).effect;
            e.SetCurrent? ==> PointerOk(e.key, e.pointer, db.files)
  {
    hide AdvanceProcessing, AdvanceFailure, AdvanceRecovery, AdvancePublish, PointerOk, TaskOk;
    if w.pc.Publish? {
      PublishIsDeliverable(w.pc.c, input, db.files);
    } else if InSuccess(w.pc) {
      hide AdvanceSuccess;
    }
  }

  // ----- one step, globally ------------------------------------------------------------------

  /** The files a handler's move touches lie in the directory of the job it is writing. */
  ghost predicate MoveDelivers(db: Db, w: Worker, m: Move<Pc>) {
    var files' := ApplyEffect(db, m.effect).files;
    && (if w.pc.Write? then Touches(db.files, files', JobDir(w.pc.job)) && FilesOk(files') else files' == db.files)
    && (m.next.Some? ==> PcOk(files', m.next.value))
    && (m.effect.SetCurrent? ==> PointerOk(m.effect.key, m.effect.pointer, db.files))
  }

  lemma WorkDelivers(cfg: Config, db: Db, w: Worker, input: Input)
    requires LocalOk(w.pc) && PcOk(db.files, w.pc) && FilesOk(db.files)
    requires w.tid in db.tasks ==> TaskOk(db.tasks[w.tid], db.files)
    ensures MoveDelivers(db, w, Advance(cfg, db, w.tid, w.entry, w.pc, input))
  {
    hide Advance, PcOk, TaskOk, FilesOk, Touches, LocalOk, PointerOk, WorkShape;
    var m := Advance(cfg, db, w.tid, w.entry, w.pc, input);
    PublishesDeliverable(cfg, db, w, input);
    if w.pc.Write? {
      AdvanceCases(cfg, db, w, input);
      WriteOk(cfg, db, w.pc, input);
    } else {
      NoWriteNoFiles(cfg, db, w, input);
      if InProcessing(w.pc) {
        AdvanceCases(cfg, db, w, input);
        ProcessingOk(cfg, db, w.tid, w.pc, input);
      } else {
        OutcomeOk(cfg, db, w, input);
      }
    }
  }

  lemma NoWriteNoFiles(cfg: Config, db: Db, w: Worker, input: Input)
    requires !w.pc.Write?
    ensures ApplyEffect(db, Advance(cfg, db, w.tid, w.entry, w.pc, input).effect).files == db.files
  {
    hide Advance, ApplyEffect;
    WorkHasShape(cfg, db, w, input);
    EffectOnParts(db, Advance(cfg, db, w.tid, w.entry, w.pc, input).effect);
  }

  lemma AdvanceCases(cfg: Config, db: Db, w: Worker, input: Input)
    ensures InProcessing(w.pc) ==>
              Advance(cfg, db, w.tid, w.entry, w.pc, input) == AdvanceProcessing(cfg, db, w.tid, w.pc, input)
    ensures w.pc.Write? ==> Advance(cfg, db, w.tid, w.entry, w.pc, input) == AdvanceWrite(cfg, w.pc, input)
  {
    hide AdvanceWrite;
  }

  lemma TasksDeliver(tasks: map<TaskId, Reports.ReportTask>, files: Files, files': Files, dir: Dir)
    requires Touches(files, files', dir) && forall t | t in tasks :: TaskOk(tasks[t], files)
    ensures forall t | t in tasks :: TaskOk(tasks[t], files')
  {
    hide TaskOk, Touches;
    forall t | t in tasks ensures TaskOk(tasks[t], files') {
      TouchKeepsTask(files, files', dir, tasks[t]);
    }
  }

  lemma PointersDeliver(current: map<string, Pointer>, files: Files, files': Files, dir: Dir)
    requires Touches(files, files', dir) && forall k | k in current :: PointerOk(k, current[k], files)
    ensures forall k | k in current :: PointerOk(k, current[k], files')
  {
    hide PointerOk, Touches;
    forall k | k in current ensures PointerOk(k, current[k], files') {
      TouchKeepsPointer(files, files', dir, k, current[k]);
    }
  }

  lemma WorkKeepsTasks(s: State, pid: Pid, m: Move<Pc>, dir: Dir)
    requires Delivers(s) && pid in s.workers && WorkShape(s.workers[pid], m)
    requires Touches(s.db.files, ApplyEffect(s.db, m.effect).files, dir)
    ensures var db' := ApplyEffect(s.db, m.effect); forall t | t in db'.tasks :: TaskOk(db'.tasks[t], db'.files)
  {
    hide TaskOk, PointerOk, FilesOk, Touches, PcOk, ApplyEffect;
    LocalTaskOk(s.db.files, s.workers[pid].pc);
    EffectOnParts(s.db, m.effect);
    var db' := ApplyEffect(s.db, m.effect);
    TasksDeliver(db'.tasks, s.db.files, db'.files, dir);
  }

  lemma WorkKeepsPointers(s: State, pid: Pid, m: Move<Pc>, dir: Dir)
    requires Delivers(s) && pid in s.workers && MoveDelivers(s.db, s.workers[pid], m)
    requires Touches(s.db.files, ApplyEffect(s.db, m.effect).files, dir)
    ensures var db' := ApplyEffect(s.db, m.effect); forall k | k in db'.current :: PointerOk(k, db'.current[k], db'.files)
  {
    hide TaskOk, PointerOk, FilesOk, Touches, PcOk, ApplyEffect;
    EffectOnParts(s.db, m.effect);
    var db' := ApplyEffect(s.db, m.effect);
    PointersDeliver(db'.current, s.db.files, db'.files, dir);
  }

  lemma WorkKeepsPcs(s: State, pid: Pid, m: Move<Pc>)
    requires Delivers(s) && OneWriter(s) && pid in s.workers && MoveDelivers(s.db, s.workers[pid], m)
    ensures var s' := ApplyWork(s, pid, m); forall p | p in s'.workers :: PcOk(s'.db.files, s'.workers[p].pc)
  {
    hide TaskOk, PointerOk, FilesOk, Touches, PcOk, ApplyEffect;
    var s', w := ApplyWork(s, pid, m), s.workers[pid];
    forall p | p in s'.workers ensures PcOk(s'.db.files, s'.workers[p].pc) {
      if p != pid && w.pc.Write? {
        TouchKeepsPc(s.db.files, s'.db.files, JobDir(w.pc.job), s.workers[p].pc);
      }
    }
  }

  lemma WorkKeepsDelivers(s: State, pid: Pid, m: Move<Pc>)
    requires Delivers(s) && OneWriter(s) && pid in s.workers
    requires WorkShape(s.workers[pid], m) && MoveDelivers(s.db, s.workers[pid], m)
    ensures Delivers(ApplyWork(s, pid, m))
  {
    hide TaskOk, PointerOk, FilesOk, Touches, PcOk, ApplyEffect, WorkShape, OneWriter;
    var w := s.workers[pid];
    var dir := if w.pc.Write? then JobDir(w.pc.job) else Dir("", "", 0, "");
    TouchesSelf(s.db.files, dir);
    WorkKeepsTasks(s, pid, m, dir);
    WorkKeepsPointers(s, pid, m, dir);
    WorkKeepsPcs(s, pid, m);
  }

  lemma TouchesSelf(files: Files, dir: Dir)
    ensures Touches(files, files, dir)
  {
  }

  lemma LocalTaskOk(files: Files, pc: Pc)
    requires PcOk(files, pc)
    ensures LocalTask(pc).Some? ==> TaskOk(LocalTask(pc).value, files)
  {
  }

  lemma WorkStepKeepsDelivers(cfg: Config, s: State, pid: Pid, input: Input)
    requires Inv(s) && Delivers(s) && OneWriter(s) && pid in s.workers
    ensures Delivers(ApplyWork(s, pid, WorkMove(cfg, s, pid, input)))
  {
    hide StreamOk, HandlersOk, RequestsOk, Advance, WorkShape, LocalOk, MoveDelivers, PcOk, TaskOk, FilesOk, PointerOk, ApplyWork;
    var w := s.workers[pid];
    assert LocalOk(w.pc) && PcOk(s.db.files, w.pc);
    WorkFacts(cfg, s, pid, input);
    WorkDelivers(cfg, s.db, w, input);
    WorkKeepsDelivers(s, pid, WorkMove(cfg, s, pid, input));
  }

  lemma ApiKeepsDelivers(s: State, pid: Pid, m: Move<Request.RequestPc>)
    requires Delivers(s) && pid in s.requests && ApiShape(s.requests[pid], m)
    ensures Delivers(ApplyApi(s, pid, m))
  {
    hide PointerOk, FilesOk, PcOk, TaskDelivers, LogicalPath, TickerOk, FormOk;
  }

  lemma OtherKeepsDelivers(s: State, s': State)
    requires Delivers(s)
    requires s'.db.tasks == s.db.tasks && s'.db.files == s.db.files && s'.db.current == s.db.current
    requires forall p | p in s'.workers && !(p in s.workers && s'.workers[p] == s.workers[p]) :: s'.workers[p].pc.Load?
    requires forall p | p in s'.requests && !(p in s.requests && s'.requests[p] == s.requests[p]) ::
               ValidIdentity(s'.requests[p].identity)
    ensures Delivers(s')
  {
    hide PointerOk, FilesOk, TaskOk, JobOk, WriterOk;
    forall p | p in s'.workers ensures PcOk(s'.db.files, s'.workers[p].pc) {
    }
  }

  lemma StepKeepsDelivers(cfg: Config, s: State, step: Step)
    requires Inv(s) && Delivers(s) && OneWriter(s) && Enabled(cfg, s, step)
    ensures Delivers(Apply(cfg, s, step))
  {
    hide Inv, Delivers, OneWriter, WorkMove, Request.AdvanceRequest, ApplyWork, ApplyApi;
    match step {
      case ApiStep(pid, input) =>
        ApiHasShape(cfg, s.db, s.requests[pid], input);
        ApiKeepsDelivers(s, pid, ApiMove(cfg, s, pid, input));
      case WorkStep(pid, input) => WorkStepKeepsDelivers(cfg, s, pid, input);
      case _ => OtherKeepsDelivers(s, Apply(cfg, s, step));
    }
  }

  // ----- whole runs --------------------------------------------------------------------------

  lemma {:induction false} RunDelivers(cfg: Config, run: Run, i: nat)
    requires IsRun(cfg, run) && OneWriterAlways(run) && i < |run.states|
    ensures Delivers(run.states[i])
  {
    hide Apply, Enabled, Inv, OneWriter;
    if i > 0 {
      RunDelivers(cfg, run, i - 1);
      RunInv(cfg, run, i - 1);
      StepKeepsDelivers(cfg, run.states[i - 1], run.steps[i - 1]);
    }
  }

  /** In every reachable state a COMPLETED task names an accession whose PDF file exists
      under the task's identity and begins with `%PDF-`; its year is the filing year. */
  lemma CompletedMeansDeliverable(cfg: Config, run: Run, i: nat, t: TaskId)
    requires IsRun(cfg, run) && OneWriterAlways(run) && i < |run.states|
    requires t in run.states[i].db.tasks && run.states[i].db.tasks[t].state.Completed?
    ensures var task, files := run.states[i].db.tasks[t], run.states[i].db.files;
            && task.filing.Some? && task.artifactPath == Some(PdfKey(task.identity, task.filing.value.accessionNumber))
            && task.artifactPath.value in files && HasPdfHeader(files[task.artifactPath.value])
            && task.identity.year == task.filing.value.filingDate.year
  {
    hide IsRun, OneWriterAlways, HasPdfHeader;
    RunDelivers(cfg, run, i);
    assert TaskOk(run.states[i].db.tasks[t], run.states[i].db.files);
  }

  /** So does every published pointer, and it is filed under a real year. */
  lemma PublishedMeansDeliverable(cfg: Config, run: Run, i: nat, key: string)
    requires IsRun(cfg, run) && OneWriterAlways(run) && i < |run.states| && key in run.states[i].db.current
    ensures PointerOk(key, run.states[i].db.current[key], run.states[i].db.files)
  {
    hide IsRun, OneWriterAlways, PointerOk;
    RunDelivers(cfg, run, i);
  }

  /** A request for the latest filing is never answered from the cache. */
  lemma LatestIsNeverCached(cfg: Config, run: Run, i: nat, latest: ReportIdentity, a: bool)
    requires IsRun(cfg, run) && OneWriterAlways(run) && i < |run.states|
    requires ValidIdentity(latest) && latest.year == LATEST_YEAR_SENTINEL
    ensures LogicalKey(LogicalPath(latest), a) !in run.states[i].db.current
  {
    hide IsRun, OneWriterAlways, LogicalKey, LogicalPath, ValidIdentity;
    var key := LogicalKey(LogicalPath(latest), a);
    if key in run.states[i].db.current {
      PublishedMeansDeliverable(cfg, run, i, key);
      var j: ReportIdentity, b: bool :| key == LogicalKey(LogicalPath(j), b) && ValidIdentity(j) && j.year >= 1;
      KeyDeterminesYear(latest, a, j, b);
      assert false;
    }
  }
}
