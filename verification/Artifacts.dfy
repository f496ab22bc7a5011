/** Crash-safe, write-once artifacts: whatever crashes, a visible file is complete and a
    visible PDF has its source beside it; and once the PDF of an accession is visible, no
    processing that starts to produce it later writes to its directory. */
module Artifacts {
  import Identity
  import opened ArtifactStore
  import opened Store
  import opened Handler
  import Request
  import opened System
  import opened Deliverable

  // ----- completeness ------------------------------------------------------------------

  /** Some handler of the first `n` states set out to write exactly `data` to `k`. */
  ghost predicate Intended(run: Run, n: nat, k: FileKey, data: Bytes) {
    exists i: nat, p: Pid :: i < n && i < |run.states| && p in run.states[i].workers && Writes(run.states[i].workers[p].pc, k, data)
  }

  predicate Writes(pc: Pc, k: FileKey, data: Bytes) {
    pc.Write? && PartFile(pc.job, pc.part, false) == k && PartData(pc.content, pc.part) == data
  }

  /** A writer's effect: on the temporary file of its part, or renaming that into place. */
  lemma WriteEffect(cfg: Config, pc: Pc, input: Input)
    requires pc.Write?
    ensures var e := AdvanceWrite(cfg, pc, input).effect;
            || e.NoEffect?
            || (e.PutFile? && e.file == PartFile(pc.job, pc.part, true))
            || e == RenameFile(PartFile(pc.job, pc.part, true), PartFile(pc.job, pc.part, false))
  {
    hide FailTransiently, AfterPart, PartName;
  }

  lemma PutKeepsVisible(db: Db, f: FileKey, data: Bytes, k: FileKey)
    requires f.tmp && !k.tmp
    ensures var files' := ApplyEffect(db, PutFile(f, data)).files;
            (k in files' <==> k in db.files) && (k in files' ==> files'[k] == db.files[k])
  {
  }

  lemma RenameKeepsOthers(db: Db, from: FileKey, to: FileKey, k: FileKey)
    requires from.tmp && !k.tmp && k != to
    ensures var files' := ApplyEffect(db, RenameFile(from, to)).files;
            (k in files' <==> k in db.files) && (k in files' ==> files'[k] == db.files[k])
  {
  }

  /** The contents of a visible file change only when its writer puts a complete part in place. */
  lemma WorkChangesVisible(cfg: Config, db: Db, w: Worker, input: Input, k: FileKey)
    requires PcOk(db.files, w.pc) && FilesOk(db.files) && !k.tmp
    requires var files' := ApplyEffect(db, Advance(cfg, db, w.tid, w.entry, w.pc, input).effect).files;
             k in files' && !(k in db.files && db.files[k] == files'[k])
    ensures var files' := ApplyEffect(db, Advance(cfg, db, w.tid, w.entry, w.pc, input).effect).files;
            Writes(w.pc, k, files'[k])
  {
    hide Advance, FilesOk, Touches, TaskOk, AdvanceWrite, ApplyEffect, WriterOk, PartName, PartData;
    if !w.pc.Write? {
      NoWriteNoFiles(cfg, db, w, input);
    } else {
      var e := AdvanceWrite(cfg, w.pc, input).effect;
      AdvanceCases(cfg, db, w, input);
      WriteEffect(cfg, w.pc, input);
      WriteTouches(cfg, db, w.pc, input);
      if e.PutFile? {
        PutKeepsVisible(db, e.file, e.data, k);
      } else if e.RenameFile? && k != e.to {
        RenameKeepsOthers(db, e.from, e.to, k);
      } else if e.NoEffect? {
        EffectOnParts(db, e);
      }
    }
  }

  lemma StepChangesVisible(cfg: Config, s: State, step: Step, k: FileKey)
    requires Delivers(s) && Enabled(cfg, s, step) && !k.tmp
    requires var files' := Apply(cfg, s, step).db.files; k in files' && !(k in s.db.files && s.db.files[k] == files'[k])
    ensures step.WorkStep? && Writes(s.workers[step.pid].pc, k, Apply(cfg, s, step).db.files[k])
  {
    hide Advance, Request.AdvanceRequest, PcOk, FilesOk, TaskOk, PointerOk, Writes, ApplyEffect;
    match step {
      case WorkStep(pid, input) => WorkChangesVisible(cfg, s.db, s.workers[pid], input, k);
      case ApiStep(pid, input) =>
        ApiHasShape(cfg, s.db, s.requests[pid], input);
        EffectOnParts(s.db, ApiMove(cfg, s, pid, input).effect);
      case _ =>
    }
  }

  /** Every visible file holds, whole, what some writer set out to put there. */
  lemma {:induction false} VisibleFilesAreComplete(cfg: Config, run: Run, j: nat, k: FileKey)
    requires IsRun(cfg, run) && OneWriterAlways(run) && j < |run.states|
    requires !k.tmp && k in run.states[j].db.files
    ensures Intended(run, j, k, run.states[j].db.files[k])
  {
    hide Apply, Enabled, OneWriterAlways, Writes, Delivers;
    if j > 0 {
      var s, data := run.states[j - 1], run.states[j].db.files[k];
      if k in s.db.files && s.db.files[k] == data {
        VisibleFilesAreComplete(cfg, run, j - 1, k);
        var i: nat, p: Pid :| i < j - 1 && i < |run.states| && p in run.states[i].workers && Writes(run.states[i].workers[p].pc, k, data);
      } else {
        RunDelivers(cfg, run, j - 1);
        StepChangesVisible(cfg, s, run.steps[j - 1], k);
        StepOfWorker(cfg, s, run.steps[j - 1]);
        assert Writes(run.states[j - 1].workers[run.steps[j - 1].pid].pc, k, data);
      }
    }
  }

  lemma StepOfWorker(cfg: Config, s: State, step: Step)
    requires Enabled(cfg, s, step) && step.WorkStep?
    ensures step.pid in s.workers
  {
  }

  /** A visible PDF has its source beside it, and begins with `%PDF-`. */
  lemma PdfHasSource(cfg: Config, run: Run, j: nat, k: FileKey)
    requires IsRun(cfg, run) && OneWriterAlways(run) && j < |run.states|
    requires k in run.states[j].db.files && k.name.Pdf? && !k.tmp
    ensures HasPdfHeader(run.states[j].db.files[k])
    ensures exists x :: FileKey(k.dir, Source(x), false) in run.states[j].db.files
  {
    hide IsRun, OneWriterAlways, HasPdfHeader;
    RunDelivers(cfg, run, j);
  }

  // ----- write once ------------------------------------------------------------------------

  /** Producing the artifact of `dir`: past the existence check, up to the last rename. */
  predicate Producing(pc: Pc, dir: Dir) {
    (pc.Download? || pc.Convert? || pc.Write?) && JobDir(pc.job) == dir
  }

  predicate PdfVisible(files: Files, dir: Dir) { FileKey(dir, Pdf, false) in files }

  /** The files of two states agree in `dir`. */
  ghost predicate SameIn(files: Files, files': Files, dir: Dir) {
    forall k: FileKey | k.dir == dir :: (k in files <==> k in files') && (k in files ==> files[k] == files'[k])
  }

  /** A handler comes to produce an artifact only by finding no PDF. */
  lemma StartsProducing(cfg: Config, db: Db, w: Worker, input: Input, dir: Dir)
    requires var m := Advance(cfg, db, w.tid, w.entry, w.pc, input);
             m.next.Some? && Producing(m.next.value, dir) && !Producing(w.pc, dir)
    ensures !PdfVisible(db.files, dir)
  {
    hide AdvanceSuccess, AdvanceFailure, AdvanceRecovery, FailTransiently, FailPermanently, Complete, AdvanceFetch, Identity.LogicalPath,
         HasPdfHeader, SourceExtension, AdvanceWrite;
    if InProcessing(w.pc) && w.pc.Write? {
      WriterKeepsJob(cfg, w.pc, input);
    }
  }

  lemma WriterKeepsJob(cfg: Config, pc: Pc, input: Input)
    requires pc.Write?
    ensures var m := AdvanceWrite(cfg, pc, input);
            m.next.Some? && (HasJob(m.next.value) ==> m.next.value.job == pc.job)
  {
    hide PartName, PartData, FailTransiently, Complete;
  }

  /** A writer's effect stays in its own directory, and hides no visible PDF. */
  lemma EffectInDir(db: Db, e: Effect, own: Dir, dir: Dir)
    requires || e.NoEffect? || (e.PutFile? && e.file.tmp && e.file.dir == own)
             || (e.RenameFile? && e.from.tmp && e.from.dir == own == e.to.dir)
    ensures var files' := ApplyEffect(db, e).files;
            && (own != dir ==> SameIn(db.files, files', dir))
            && (PdfVisible(db.files, dir) ==> PdfVisible(files', dir))
  {
  }

  lemma WriterInDir(cfg: Config, db: Db, pc: Pc, input: Input, dir: Dir)
    requires pc.Write?
    ensures var files' := ApplyEffect(db, AdvanceWrite(cfg, pc, input).effect).files;
            && (JobDir(pc.job) != dir ==> SameIn(db.files, files', dir))
            && (PdfVisible(db.files, dir) ==> PdfVisible(files', dir))
  {
    hide AdvanceWrite, ApplyEffect, SameIn, PdfVisible, PartName, JobDir;
    WriteEffect(cfg, pc, input);
    EffectInDir(db, AdvanceWrite(cfg, pc, input).effect, JobDir(pc.job), dir);
  }

  /** Only handlers producing the artifact of `dir` change files there, and a visible PDF
      stays visible. */
  lemma StepInDir(cfg: Config, s: State, step: Step, dir: Dir)
    requires Enabled(cfg, s, step)
    ensures var s' := Apply(cfg, s, step);
            && (PdfVisible(s.db.files, dir) ==> PdfVisible(s'.db.files, dir))
            && (SameIn(s.db.files, s'.db.files, dir)
                || (step.WorkStep? && Producing(s.workers[step.pid].pc, dir)))
  {
    hide Advance, Request.AdvanceRequest, ApplyEffect;
    match step {
      case WorkStep(pid, input) =>
        var w := s.workers[pid];
        if w.pc.Write? {
          AdvanceCases(cfg, s.db, w, input);
          WriterInDir(cfg, s.db, w.pc, input, dir);
        } else {
          NoWriteNoFiles(cfg, s.db, w, input);
        }
      case ApiStep(pid, input) =>
        ApiHasShape(cfg, s.db, s.requests[pid], input);
        EffectOnParts(s.db, ApiMove(cfg, s, pid, input).effect);
      case _ =>
    }
  }

  /** With a visible PDF, a step makes no further handler produce the artifact. */
  lemma StepAddsNoProducer(cfg: Config, s: State, step: Step, dir: Dir, p: Pid)
    requires Enabled(cfg, s, step) && PdfVisible(s.db.files, dir)
    requires p in Apply(cfg, s, step).workers && Producing(Apply(cfg, s, step).workers[p].pc, dir)
    ensures p in s.workers && Producing(s.workers[p].pc, dir)
  {
    hide Advance, Request.AdvanceRequest, ApplyEffect;
    match step {
      case WorkStep(pid, input) =>
        if p == pid && !Producing(s.workers[p].pc, dir) {
          StartsProducing(cfg, s.db, s.workers[pid], input, dir);
        }
      case _ =>
    }
  }

  /** Once the PDF is visible, only handlers that were already producing it then are ever
      producing it later. */
  lemma {:induction false} NoLaterProducer(cfg: Config, run: Run, i: nat, j: nat, dir: Dir, p: Pid)
    requires IsRun(cfg, run) && i <= j < |run.states| && PdfVisible(run.states[i].db.files, dir)
    requires p in run.states[j].workers && Producing(run.states[j].workers[p].pc, dir)
    ensures p in run.states[i].workers && Producing(run.states[i].workers[p].pc, dir)
    decreases j
  {
    hide Apply, Enabled, Producing, PdfVisible;
    if i < j {
      StaysVisible(cfg, run, i, j - 1, dir);
      StepAddsNoProducer(cfg, run.states[j - 1], run.steps[j - 1], dir, p);
      NoLaterProducer(cfg, run, i, j - 1, dir, p);
    }
  }

  lemma {:induction false} StaysVisible(cfg: Config, run: Run, i: nat, j: nat, dir: Dir)
    requires IsRun(cfg, run) && i <= j < |run.states| && PdfVisible(run.states[i].db.files, dir)
    ensures PdfVisible(run.states[j].db.files, dir)
  {
    hide Apply, Enabled, Producing, PdfVisible;
    if i < j {
      StaysVisible(cfg, run, i, j - 1, dir);
      StepInDir(cfg, run.states[j - 1], run.steps[j - 1], dir);
    }
  }

  /** Once the PDF is visible and nothing is producing it, its directory never changes again. */
  lemma {:induction false} WrittenOnce(cfg: Config, run: Run, i: nat, j: nat, dir: Dir)
    requires IsRun(cfg, run) && i <= j < |run.states| && PdfVisible(run.states[i].db.files, dir)
    requires forall p | p in run.states[i].workers :: !Producing(run.states[i].workers[p].pc, dir)
    ensures SameIn(run.states[i].db.files, run.states[j].db.files, dir)
  {
    hide Apply, Enabled, Producing, PdfVisible;
    if i < j {
      WrittenOnce(cfg, run, i, j - 1, dir);
      var s, step := run.states[j - 1], run.steps[j - 1];
      StepInDir(cfg, s, step, dir);
      if step.WorkStep? {
        StepOfWorker(cfg, s, step);
      }
      if step.WorkStep? && Producing(s.workers[step.pid].pc, dir) {
        NoLaterProducer(cfg, run, i, j - 1, dir, step.pid);
        assert false;
      }
    }
  }
}
