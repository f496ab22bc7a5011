/** The report worker (app/workers/worker.py) as it is written: methods that call the
    repository, the queue, the artifact store and the SEC, and pass exceptions up. They are
    proved to perform exactly the operations of the handler machine, whatever other
    processes do in between, whichever operations fail, and wherever the process dies. */
module Worker {
  import opened Wrappers
  import opened Identity
  import Submissions
  import opened Reports
  import opened Store
  import opened Handler
  import opened Environment
  import opened Machine
  import opened Repository
  import Queue
  import ArtifactWriter

  // ----- the handler as a machine ------------------------------------------------------------

  /** One message: a stream entry and the task id in it. */
  datatype Message = Message(tid: TaskId, entry: EntryId)

  function Handling(cfg: Config, msg: Message): Machine<Pc> {
    Machine(Load, (pc, db, input) => Advance(cfg, db, msg.tid, msg.entry, pc, input))
  }

  // ----- what the machine tries where ------------------------------------------------------------

  lemma TriesToSave(cfg: Config, msg: Message, c: Context)
    ensures Tries(Handling(cfg, msg), SaveProcessing(c), SaveTask(msg.tid, c.task), Some(Resolve(c)), Some(Recover(c)))
    ensures Tries(Handling(cfg, msg), SaveCompleted(c), SaveTask(msg.tid, c.task), Some(ClearCompleted(c)), Some(Handler.FailTransiently(cfg, c)))
    ensures Tries(Handling(cfg, msg), SaveFailed(c), SaveTask(msg.tid, c.task), Some(ClearFailed(c)), Some(Recover(c)))
    ensures Tries(Handling(cfg, msg), SaveRetrying(c), SaveTask(msg.tid, c.task), Some(SaveQueued(SetState(c, Queued))), Some(Recover(c)))
    ensures Tries(Handling(cfg, msg), SaveQueued(c), SaveTask(msg.tid, c.task), Some(CheckDepth(c)), Some(Recover(c)))
    ensures Tries(Handling(cfg, msg), SaveForced(c), SaveTask(msg.tid, c.task), Some(ClearForced(c)), None)
    ensures Tries(Handling(cfg, msg), SaveAttempts(c), SaveTask(msg.tid, c.task), None, None)
  {
    hide Handler.FailTransiently;
  }

  lemma TriesToClear(cfg: Config, msg: Message, c: Context)
    ensures Tries(Handling(cfg, msg), ClearCompleted(c), DropPending(TaskPendingKey(c.task)), Some(Publish(c)), Some(Handler.FailTransiently(cfg, c)))
    ensures Tries(Handling(cfg, msg), ClearFailed(c), DropPending(TaskPendingKey(c.task)), Some(Ack), Some(Recover(c)))
    ensures Tries(Handling(cfg, msg), ClearForced(c), DropPending(TaskPendingKey(c.task)), Some(Ack), None)
    ensures Tries(Handling(cfg, msg), ClearOriginal(c), DropPending(PendingKey(c.original, c.task.includeAmended)), Some(Ack), Some(Ack))
  {
    hide Handler.FailTransiently, LogicalPath, PendingKey;
  }

  lemma TriesToEnqueue(cfg: Config, msg: Message, c: Context)
    ensures Tries(Handling(cfg, msg), Enqueue(c), AppendEntry(msg.tid), Some(Ack), Some(Recover(c)))
  {
  }

  lemma TriesToAcknowledge(cfg: Config, msg: Message)
    ensures Tries(Handling(cfg, msg), Ack, AckEntry(msg.entry), Some(Del), None)
    ensures Tries(Handling(cfg, msg), Del, DeleteEntry(msg.entry), None, None)
  {
  }

  lemma TriesToPublish(cfg: Config, msg: Message, c: Context)
    requires c.task.filing.Some? && c.task.artifactPath.Some?
    ensures Tries(Handling(cfg, msg), Publish(c),
                  SetCurrent(LogicalKey(LogicalPath(c.task.identity), c.task.includeAmended),
                             Pointer(c.task.filing.value.accessionNumber, c.task.artifactPath.value, c.task.filing.value.cik)),
                  Some(if LogicalPath(c.task.identity) != c.original then ClearOriginal(c) else Ack), Some(Ack))
  {
    hide LogicalPath, LogicalKey;
  }

  lemma TriesToPlace(cfg: Config, msg: Message, pc: Pc)
    requires pc.Write?
    ensures var tmp, path, failed := PartFile(pc.job, pc.part, true), PartFile(pc.job, pc.part, false), Some(Handler.FailTransiently(cfg, pc.c));
            && (pc.stage.OpenTmp? ==> Tries(Handling(cfg, msg), pc, PutFile(tmp, []), Some(pc.(stage := FillTmp)), failed))
            && (pc.stage.Rename? ==>
                  Tries(Handling(cfg, msg), pc, RenameFile(tmp, path), Some(AfterPart(cfg, pc.c, pc.job, pc.content, pc.part)), failed))
  {
    hide Handler.FailTransiently, AfterPart, PartFile;
  }

  /** Filling the temporary file, piece by piece. */
  lemma {:induction false} FillRuns(cfg: Config, msg: Message, turns: seq<Turn>, n: nat, log: seq<Effect>, pc: Pc)
    requires n <= |turns| && Reached(Handling(cfg, msg), turns, n) == Progress(Some(pc), log) && pc.Write? && pc.stage.FillTmp?
    ensures Follows(Handling(cfg, msg), turns, Fills(turns, n, log, PartFile(pc.job, pc.part, true), PartData(pc.content, pc.part)),
                    Some(pc.(stage := Rename)), Some(Handler.FailTransiently(cfg, pc.c)))
    decreases |turns| - n
  {
    hide Reached, Handler.FailTransiently, AfterPart, PartFile, PartData;
    if n < |turns| {
      var m := Advance(cfg, turns[n].db, msg.tid, msg.entry, pc, turns[n].input);
      OneTurn(Handling(cfg, msg), turns, n, pc, log);
      assert m == AdvanceWrite(cfg, pc, turns[n].input);
      if turns[n].input.Chunk? {
        FillRuns(cfg, msg, turns, n + 1, log + [m.effect], pc);
      }
    }
  }

  lemma PlaceRuns(cfg: Config, msg: Message, turns: seq<Turn>, n: nat, log: seq<Effect>, pc: Pc)
    requires n <= |turns| && Reached(Handling(cfg, msg), turns, n) == Progress(Some(pc), log) && pc.Write? && pc.stage.OpenTmp?
    ensures Follows(Handling(cfg, msg), turns,
                    ArtifactWriter.Replaces(turns, n, log, PartFile(pc.job, pc.part, true), PartFile(pc.job, pc.part, false),
                                            PartData(pc.content, pc.part)),
                    Some(AfterPart(cfg, pc.c, pc.job, pc.content, pc.part)), Some(Handler.FailTransiently(cfg, pc.c)))
  {
    hide Reached, Handler.FailTransiently, AfterPart, PartFile, PartData, Tries, Writes, Fills;
    var tmp, path, data := PartFile(pc.job, pc.part, true), PartFile(pc.job, pc.part, false), PartData(pc.content, pc.part);
    var fill, rename := pc.(stage := FillTmp), pc.(stage := Rename);
    var failed := Some(Handler.FailTransiently(cfg, pc.c));
    TriesToPlace(cfg, msg, pc);
    OneWrite(Handling(cfg, msg), turns, n, log, pc, PutFile(tmp, []), Some(fill), failed);
    var started := Writes(turns, n, log, [PutFile(tmp, [])]);
    if started.reply.Done? {
      FillRuns(cfg, msg, turns, started.at, started.log, fill);
      var filled := Fills(turns, started.at, started.log, tmp, data);
      if filled.reply.Done? {
        TriesToPlace(cfg, msg, rename);
        OneWrite(Handling(cfg, msg), turns, filled.at, filled.log, rename, RenameFile(tmp, path),
                 Some(AfterPart(cfg, pc.c, pc.job, pc.content, pc.part)), failed);
      }
    }
  }

  // ----- the worker ---------------------------------------------------------------------------------

  /** How the body of `process_task` ends, by the handler of its exception. */
  datatype Attempted = Succeeded | PermanentFailure | TransientFailure | Died

  /** How a method ends for its caller. */
  datatype Exit = Returned | Escaped | ProcessDied

  /** A permanent error, or a result that does not begin with `%PDF-`. */
  predicate GivesUpOn(input: Input) {
    input.PermanentError? || (input.Rendered? && !(|input.pdf| >= 5 && input.pdf[..5] == PDF_HEADER))
  }

  function ExitOf(reply: Reply): Exit {
    match reply
    case Done => Returned
    case Crashed => ProcessDied
    case _ => Escaped
  }

  class ReportWorker {
    const cfg: Config
    const world: World
    const repository: ReportRepository
    const queue: Queue.ReportQueue

    ghost predicate Valid()
      reads this, world
    {
      repository.world == world && queue.world == world && queue.cfg == cfg && world.Valid()
    }

    constructor (cfg: Config, world: World)
      requires world.Valid()
      ensures Valid() && this.cfg == cfg && this.world == world
    {
      this.cfg, this.world := cfg, world;
      repository := new ReportRepository(world);
      queue := new Queue.ReportQueue(cfg, world);
    }

    /** XACK and XDEL at the end; whatever happens the handler is gone afterwards. */
    method AckAndRemove(msg: Message)
      requires Valid() && At(Handling(cfg, msg), world, Ack)
      modifies world
      ensures Valid() && Gone(Handling(cfg, msg), world)
      ensures var w := Writes(world.turns, old(world.at), old(world.log), [AckEntry(msg.entry), DeleteEntry(msg.entry)]);
              world.at == w.at && world.log == w.log
    {
      hide Reached, Writes;
      TriesToAcknowledge(cfg, msg);
      TwoWrites(Handling(cfg, msg), world.turns, world.at, world.log, Ack, AckEntry(msg.entry), Del, DeleteEntry(msg.entry), None, None);
      var _ := queue.AckAndRemove(msg.entry);
    }

    method FailPermanently(msg: Message, task: Task, ghost c: Context) returns (exit: Exit)
      requires Valid() && task.id == msg.tid && task.Record() == c.task
      requires At(Handling(cfg, msg), world, Handler.FailPermanently(c))
      modifies world, task
      ensures Valid()
      ensures exit.Returned? ==> At(Handling(cfg, msg), world, Ack)
      ensures exit.Escaped? ==> At(Handling(cfg, msg), world, Recover(Context(task.Record(), c.original)))
      ensures exit.ProcessDied? ==> Gone(Handling(cfg, msg), world)
    {
      hide Reached, Writes, Tries, LogicalPath, PendingKey;
      ghost var f := SetState(c, Failed);
      if CanTransition(c.task.state, Failed) {
        TriesToSave(cfg, msg, f);
        TriesToClear(cfg, msg, f);
        TwoWrites(Handling(cfg, msg), world.turns, world.at, world.log, SaveFailed(f), SaveTask(msg.tid, f.task),
                  ClearFailed(f), DropPending(TaskPendingKey(f.task)), Some(Ack), Some(Recover(f)));
      }
      var reply := repository.Transition(task, Failed, None);
      exit := ExitOf(reply);
    }

    /** `transition(task, target)` to a state that is not terminal. */
    method Enter(msg: Message, task: Task, target: ReportState, ghost pc: Pc, ghost next: Pc, ghost c: Context) returns (exit: Exit)
      requires Valid() && task.id == msg.tid && CanTransition(task.state, target) && !Terminal(target)
      requires c.task == task.Record().(state := target) && At(Handling(cfg, msg), world, pc)
      requires Tries(Handling(cfg, msg), pc, SaveTask(msg.tid, c.task), Some(next), Some(Recover(c)))
      modifies world, task
      ensures Valid() && task.Record() == c.task
      ensures exit.Returned? ==> At(Handling(cfg, msg), world, next)
      ensures exit.Escaped? ==> At(Handling(cfg, msg), world, Recover(c))
      ensures exit.ProcessDied? ==> Gone(Handling(cfg, msg), world)
    {
      hide Reached, Writes, Tries;
      OneWrite(Handling(cfg, msg), world.turns, world.at, world.log, pc, SaveTask(msg.tid, c.task), Some(next), Some(Recover(c)));
      var reply := repository.Transition(task, target, None);
      exit := ExitOf(reply);
    }

    /** The re-enqueue of a retry; a full queue raises. */
    method Reenqueue(msg: Message, ghost c: Context) returns (exit: Exit)
      requires Valid() && At(Handling(cfg, msg), world, CheckDepth(c))
      modifies world
      ensures Valid()
      ensures exit.Returned? ==> At(Handling(cfg, msg), world, Ack)
      ensures exit.Escaped? ==> At(Handling(cfg, msg), world, Recover(c))
      ensures exit.ProcessDied? ==> Gone(Handling(cfg, msg), world)
    {
      hide Reached, Writes, Tries, DepthAdmits;
      TriesToEnqueue(cfg, msg, c);
      if world.at < |world.turns| {
        OneTurn(Handling(cfg, msg), world.turns, world.at, CheckDepth(c), world.log);
        if Queue.AdmissionOf(cfg, world.turns[world.at]).Admitted? {
          OneWrite(Handling(cfg, msg), world.turns, world.at + 1, world.log + [NoEffect], Pc.Enqueue(c),
                   AppendEntry(msg.tid), Some(Ack), Some(Recover(c)));
        } else {
          RefusedDepth(cfg, world.turns[world.at]);
        }
      }
      var reply, full := queue.Enqueue(msg.tid);
      exit := ExitOf(reply);
    }

    /** Counts the failure; gives up, or records the retry and enqueues the task again. */
    method FailTransiently(msg: Message, task: Task, ghost c: Context) returns (exit: Exit)
      requires Valid() && task.id == msg.tid && task.Record() == c.task
      requires At(Handling(cfg, msg), world, Handler.FailTransiently(cfg, c))
      modifies world, task
      ensures Valid()
      ensures exit.Returned? ==> At(Handling(cfg, msg), world, Ack)
      ensures exit.Escaped? ==> At(Handling(cfg, msg), world, Recover(Context(task.Record(), c.original)))
      ensures exit.ProcessDied? ==> Gone(Handling(cfg, msg), world)
    {
      hide Handling, Reached, Writes, Tries, LogicalPath, PendingKey, Transitioned, DepthAdmits;
      task.attempts := task.attempts + 1;
      ghost var d := c.(task := task.Record());
      if task.attempts >= cfg.maxAttempts {
        exit := FailPermanently(msg, task, d);
        return;
      }
      if !CanTransition(task.state, Retrying) {
        return Escaped;
      }
      ghost var retrying, queued := SetState(d, Retrying), SetState(d, Queued);
      TriesToSave(cfg, msg, retrying);
      TriesToSave(cfg, msg, queued);
      exit := Enter(msg, task, Retrying, SaveRetrying(retrying), SaveQueued(queued), retrying);
      if exit.Returned? {
        exit := Enter(msg, task, Queued, SaveQueued(queued), CheckDepth(queued), queued);
        if exit.Returned? {
          exit := Reenqueue(msg, queued);
        }
      }
    }

    /** From the company to the filing. */
    method ChooseFiling(msg: Message, task: Task, ghost c: Context) returns (r: Attempted, job: Option<Job>)
      requires Valid() && task.id == msg.tid && task.Record() == c.task && At(Handling(cfg, msg), world, Resolve(c))
      modifies world
      ensures Valid()
      ensures r.Succeeded? ==> job.Some? && At(Handling(cfg, msg), world, CheckExists(c, job.value))
      ensures r.PermanentFailure? ==> At(Handling(cfg, msg), world, Handler.FailPermanently(c))
      ensures r.TransientFailure? ==> At(Handling(cfg, msg), world, Handler.FailTransiently(cfg, c))
      ensures r.Died? ==> Gone(Handling(cfg, msg), world)
    {
      hide Reached, LogicalPath, Submissions.SelectLatest, Handler.FailPermanently, Handler.FailTransiently;
      ghost var n, log := world.at, world.log;
      var company := world.Next();
      if company.None? {
        return Died, None;
      }
      OneTurn(Handling(cfg, msg), world.turns, n, Resolve(c), log);
      if !company.value.input.Company? {
        return PermanentFailure, None;
      }
      var cik := company.value.input.cik;
      var submissions := world.Next();
      if submissions.None? {
        return Died, None;
      }
      OneTurn(Handling(cfg, msg), world.turns, n + 1, Fetch(c, cik), log + [NoEffect]);
      match submissions.value.input {
        case Filings(filings) =>
          var year := if task.identity.year == LATEST_YEAR_SENTINEL then None else Some(task.identity.year);
          var selected := Submissions.SelectLatest(filings, Submissions.FilingSelector(task.identity.form, task.includeAmended), year);
          if selected.None? {
            return PermanentFailure, None;
          }
          return Succeeded, Some(JobFor(task.identity, cik, selected.value));
        case PermanentError => return PermanentFailure, None;
        case _ => return TransientFailure, None;
      }
    }

    /** One file of the artifact. */
    method StorePart(msg: Message, job: Job, content: Content, part: Part, ghost c: Context) returns (r: Attempted)
      requires Valid() && At(Handling(cfg, msg), world, Write(c, job, content, part, OpenTmp))
      modifies world
      ensures Valid()
      ensures r.Succeeded? ==> At(Handling(cfg, msg), world, AfterPart(cfg, c, job, content, part))
      ensures !r.PermanentFailure?
      ensures r.TransientFailure? ==> At(Handling(cfg, msg), world, Handler.FailTransiently(cfg, c))
      ensures r.Died? ==> Gone(Handling(cfg, msg), world)
    {
      hide Reached, Handler.FailTransiently, AfterPart, PartFile, PartData, ArtifactWriter.Replaces;
      PlaceRuns(cfg, msg, world.turns, world.at, world.log, Write(c, job, content, part, OpenTmp));
      var reply := ArtifactWriter.AtomicWrite(world, PartFile(job, part, true), PartFile(job, part, false), PartData(content, part));
      return if reply.Done? then Succeeded else if reply.Crashed? then Died else TransientFailure;
    }

    /** `write`: source, then PDF, then metadata. */
    method StoreArtifact(msg: Message, job: Job, content: Content, ghost c: Context) returns (r: Attempted)
      requires Valid() && At(Handling(cfg, msg), world, Write(c, job, content, SourcePart, OpenTmp))
      modifies world
      ensures Valid()
      ensures r.Succeeded? ==> At(Handling(cfg, msg), world, Handler.Complete(cfg, c, job))
      ensures !r.PermanentFailure?
      ensures r.TransientFailure? ==> At(Handling(cfg, msg), world, Handler.FailTransiently(cfg, c))
      ensures r.Died? ==> Gone(Handling(cfg, msg), world)
    {
      hide Reached, Handler.FailTransiently, Handler.Complete;
      r := StorePart(msg, job, content, SourcePart, c);
      if r.Succeeded? {
        r := StorePart(msg, job, content, PdfPart, c);
        if r.Succeeded? {
          r := StorePart(msg, job, content, MetadataPart, c);
        }
      }
    }

    /** Renders the document and stores the result. */
    method ConvertAndStore(msg: Message, job: Job, source: Bytes, ghost c: Context) returns (r: Attempted)
      requires Valid() && At(Handling(cfg, msg), world, Convert(c, job, source))
      modifies world
      ensures Valid()
      ensures r.Succeeded? ==> At(Handling(cfg, msg), world, Handler.Complete(cfg, c, job))
      ensures r.PermanentFailure? ==> At(Handling(cfg, msg), world, Handler.FailPermanently(c))
      ensures r.TransientFailure? ==> At(Handling(cfg, msg), world, Handler.FailTransiently(cfg, c))
      ensures r.PermanentFailure? ==> world.at > old(world.at) && GivesUpOn(world.turns[world.at - 1].input)
      ensures r.Died? ==> Gone(Handling(cfg, msg), world)
    {
      hide Reached, Handler.FailTransiently, Handler.FailPermanently, Handler.Complete;
      ghost var n, log := world.at, world.log;
      var rendered := world.Next();
      if rendered.None? {
        return Died;
      }
      OneTurn(Handling(cfg, msg), world.turns, n, Convert(c, job, source), log);
      match rendered.value.input {
        case Rendered(pdf, metadata) =>
          if !HasPdfHeader(pdf) {
            return PermanentFailure;
          }
          r := StoreArtifact(msg, job, Content(source, pdf, metadata), c);
        case PermanentError => return PermanentFailure;
        case _ => return TransientFailure;
      }
    }

    /** Downloads, converts and stores the filing, unless its PDF is there already. */
    method ProduceArtifact(msg: Message, job: Job, ghost c: Context) returns (r: Attempted)
      requires Valid() && At(Handling(cfg, msg), world, CheckExists(c, job))
      modifies world
      ensures Valid()
      ensures r.Succeeded? ==> At(Handling(cfg, msg), world, Handler.Complete(cfg, c, job))
      ensures r.PermanentFailure? ==> At(Handling(cfg, msg), world, Handler.FailPermanently(c))
      ensures r.TransientFailure? ==> At(Handling(cfg, msg), world, Handler.FailTransiently(cfg, c))
      ensures r.PermanentFailure? ==> world.at > old(world.at) && GivesUpOn(world.turns[world.at - 1].input)
      ensures r.Died? ==> Gone(Handling(cfg, msg), world)
    {
      hide Reached, Handler.FailTransiently, Handler.FailPermanently, Handler.Complete, HasPdfHeader, JobPdf;
      ghost var n, log := world.at, world.log;
      var lookup := world.Next();
      if lookup.None? {
        return Died;
      }
      OneTurn(Handling(cfg, msg), world.turns, n, CheckExists(c, job), log);
      if JobPdf(job) in lookup.value.db.files {
        return Succeeded;
      }
      var download := world.Next();
      if download.None? {
        return Died;
      }
      OneTurn(Handling(cfg, msg), world.turns, n + 1, Download(c, job), log + [NoEffect]);
      if !download.value.input.Document? {
        return if download.value.input.PermanentError? then PermanentFailure else TransientFailure;
      }
      r := ConvertAndStore(msg, job, download.value.input.source, c);
    }

    /** `publish_artifact`, and clearing the pointer of a resolved "latest" request; their
        errors are swallowed. */
    method PublishCompleted(msg: Message, task: Task, original: string, ghost c: Context) returns (r: Attempted)
      requires Valid() && task.id == msg.tid && c == Context(task.Record(), original) && At(Handling(cfg, msg), world, Publish(c))
      requires task.filing.Some? && task.artifactPath.Some?
      modifies world
      ensures Valid() && (r.Succeeded? || r.Died?)
      ensures r.Succeeded? ==> At(Handling(cfg, msg), world, Ack)
      ensures r.Died? ==> Gone(Handling(cfg, msg), world)
    {
      hide Reached, Writes, Tries, LogicalPath, LogicalKey, PendingKey;
      TriesToPublish(cfg, msg, c);
      ghost var next := if LogicalPath(task.identity) != original then ClearOriginal(c) else Ack;
      OneWrite(Handling(cfg, msg), world.turns, world.at, world.log, Publish(c),
               SetCurrent(LogicalKey(LogicalPath(task.identity), task.includeAmended),
                          Pointer(task.filing.value.accessionNumber, task.artifactPath.value, task.filing.value.cik)),
               Some(next), Some(Ack));
      var reply := repository.PublishArtifact(task);
      if reply.Done? && LogicalPath(task.identity) != original {
        TriesToClear(cfg, msg, c);
        OneWrite(Handling(cfg, msg), world.turns, world.at, world.log, ClearOriginal(c),
                 DropPending(PendingKey(original, task.includeAmended)), Some(Ack), Some(Ack));
        reply := repository.ClearPending(original, task.includeAmended);
      }
      return if reply.Crashed? then Died else Succeeded;
    }

    /** Records the completion under the resolved identity and publishes it. */
    method RecordSuccess(msg: Message, task: Task, job: Job, original: string, ghost c: Context) returns (r: Attempted)
      requires Valid() && task.id == msg.tid && c == Context(task.Record(), original)
      requires At(Handling(cfg, msg), world, Handler.Complete(cfg, c, job))
      modifies world, task
      ensures Valid() && !r.PermanentFailure?
      ensures r.Succeeded? ==> At(Handling(cfg, msg), world, Ack)
      ensures r.TransientFailure? ==> At(Handling(cfg, msg), world, Handler.FailTransiently(cfg, Context(task.Record(), original)))
      ensures r.Died? ==> Gone(Handling(cfg, msg), world)
    {
      hide Reached, Writes, Tries, LogicalPath, LogicalKey, PendingKey, Handler.FailTransiently;
      task.identity := job.identity;
      ghost var d := c.(task := CompletedTask(c.task, job));
      if CanTransition(c.task.state, Completed) {
        TriesToSave(cfg, msg, d);
        TriesToClear(cfg, msg, d);
        TwoWrites(Handling(cfg, msg), world.turns, world.at, world.log, SaveCompleted(d), SaveTask(msg.tid, d.task),
                  ClearCompleted(d), DropPending(TaskPendingKey(d.task)), Some(Publish(d)), Some(Handler.FailTransiently(cfg, d)));
      }
      var reply := repository.Transition(task, Completed, Some(Completion(job.filing, JobPdf(job))));
      if reply.Crashed? {
        return Died;
      }
      if !reply.Done? {
        return TransientFailure;
      }
      r := PublishCompleted(msg, task, original, d);
    }

    method ProcessTask(msg: Message, task: Task) returns (exit: Exit)
      requires Valid() && task.id == msg.tid && At(Handling(cfg, msg), world, Begin(task.Record()))
      modifies world, task
      ensures Valid()
      ensures exit.Returned? ==> At(Handling(cfg, msg), world, Ack)
      ensures exit.Escaped? ==>
                At(Handling(cfg, msg), world, Recover(Context(task.Record(), LogicalPath(old(task.identity)))))
      ensures exit.ProcessDied? ==> Gone(Handling(cfg, msg), world)
    {
      hide Reached, Tries, LogicalPath, Handler.FailTransiently, Handler.FailPermanently, Handler.Complete;
      var original := LogicalPath(task.identity);
      if CanTransition(task.state, Processing) {
        ghost var c := SetState(Context(task.Record(), original), Processing);
        TriesToSave(cfg, msg, c);
        exit := Enter(msg, task, Processing, SaveProcessing(c), Resolve(c), c);
        if !exit.Returned? {
          return;
        }
      }
      ghost var c := Context(task.Record(), original);
      var r, job := ChooseFiling(msg, task, c);
      if r.Succeeded? {
        r := ProduceArtifact(msg, job.value, c);
        if r.Succeeded? {
          r := RecordSuccess(msg, task, job.value, original, c);
        }
      }
      match r {
        case Succeeded => return Returned;
        case PermanentFailure => exit := FailPermanently(msg, task, c);
        case TransientFailure => exit := FailTransiently(msg, task, Context(task.Record(), original));
        case Died => return ProcessDied;
      }
    }

    /** A task out of attempts: failed whatever its state, and acknowledged. */
    method DeadLetter(msg: Message, current: Task, ghost original: string)
      requires Valid() && current.id == msg.tid && !current.state.Completed?
      requires At(Handling(cfg, msg), world, SaveForced(Context(current.Record().(state := Failed), original)))
      modifies world, current
      ensures Valid() && Gone(Handling(cfg, msg), world)
    {
      hide Reached, Writes, Tries, LogicalPath, PendingKey;
      ghost var c := Context(current.Record().(state := Failed), original);
      TriesToSave(cfg, msg, c);
      TriesToClear(cfg, msg, c);
      TwoWrites(Handling(cfg, msg), world.turns, world.at, world.log, SaveForced(c), SaveTask(msg.tid, c.task),
                ClearForced(c), DropPending(TaskPendingKey(c.task)), Some(Ack), None);
      var reply := repository.ForceFail(current);
      if reply.Done? {
        AckAndRemove(msg);
      }
    }

    /** Persists the raised attempts and leaves the entry pending. */
    method CountAttempt(msg: Message, current: Task, ghost original: string)
      requires Valid() && current.id == msg.tid && At(Handling(cfg, msg), world, SaveAttempts(Context(current.Record(), original)))
      modifies world
      ensures Valid() && Gone(Handling(cfg, msg), world)
    {
      hide Reached, Writes, Tries;
      ghost var c := Context(current.Record(), original);
      TriesToSave(cfg, msg, c);
      OneWrite(Handling(cfg, msg), world.turns, world.at, world.log, SaveAttempts(c), SaveTask(msg.tid, c.task), None, None);
      var _ := repository.SaveAttempts(current);
    }

    /** Fails the current task for good, or counts the attempt and leaves the entry pending. */
    method RecoverFromUnhandled(msg: Message, task: Task, ghost original: string)
      requires Valid() && task.id == msg.tid && At(Handling(cfg, msg), world, Recover(Context(task.Record(), original)))
      modifies world, task
      ensures Valid() && Gone(Handling(cfg, msg), world)
    {
      hide Reached, Writes, Tries, LogicalPath, PendingKey;
      if world.at < |world.turns| {
        OneTurn(Handling(cfg, msg), world.turns, world.at, Recover(Context(task.Record(), original)), world.log);
      }
      var reply, found := repository.GetTask(msg.tid);
      if !reply.Done? {
        return;
      }
      var current := new Task(msg.tid, if found.Some? then found.value else task.Record());
      current.attempts := current.attempts + 1;
      if current.state.Completed? {
        AckAndRemove(msg);
      } else if current.attempts >= cfg.maxAttempts {
        DeadLetter(msg, current, original);
      } else {
        CountAttempt(msg, current, original);
      }
    }

    /** Handling one message does, operation for operation, what the handler machine does:
        when it returns, raises or dies, its log is the machine's and the machine has ended
        or been given no further turn. A message without a task is acknowledged and deleted. */
    method HandleMessage(msg: Message)
      requires Valid() && world.at == 0 && world.log == []
      modifies world
      ensures Valid() && Gone(Handling(cfg, msg), world)
      ensures world.turns != [] && world.turns[0].input.Ok? && msg.tid !in world.turns[0].db.tasks ==>
                var w := Writes(world.turns, 1, [NoEffect], [AckEntry(msg.entry), DeleteEntry(msg.entry)]);
                world.at == w.at && world.log == w.log
    {
      hide Writes, Tries, LogicalPath;
      assert At(Handling(cfg, msg), world, Load);
      if world.at < |world.turns| {
        OneTurn(Handling(cfg, msg), world.turns, world.at, Load, world.log);
      }
      var reply, found := repository.GetTask(msg.tid);
      if !reply.Done? {
        return;
      }
      hide Reached;
      if found.None? {
        assert world.at == 1 && world.log == [NoEffect];
        AckAndRemove(msg);
        return;
      }
      var task := new Task(msg.tid, found.value);
      var exit := ProcessTask(msg, task);
      if exit.Escaped? {
        RecoverFromUnhandled(msg, task, LogicalPath(found.value.identity));
      } else if exit.Returned? {
        AckAndRemove(msg);
      }
    }
  }

  lemma RefusedDepth(cfg: Config, turn: Turn)
    ensures DepthAdmits(cfg, turn.db, turn.input) <==> Queue.AdmissionOf(cfg, turn).Admitted?
  {
  }
}
