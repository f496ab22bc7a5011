/** Where what is recorded, published and stored comes from, over whole runs: a COMPLETED task names the
    filing that selection takes from an answer to one of its own handlers, a published pointer that of a
    completed task, and the artifact files what was downloaded and rendered for that filing. */
module Provenance {
  import opened Wrappers
  import opened Identity
  import opened ArtifactStore
  import Submissions
  import opened Reports
  import opened Store
  import opened Handler
  import Request
  import opened System
  import Invariant
  import opened Deliverable
  import Artifacts
  import Failures

  // ----- the filing that was chosen ---------------------------------------------------------------

  /** What the task asks for: its form, its policy, and its year unless it wants the latest filing. */
  ghost predicate Selected(t: ReportTask, filings: seq<Submissions.FilingRecord>, k: nat) {
    Submissions.IsSelected(filings, Submissions.FilingSelector(t.identity.form, t.includeAmended),
                           if t.identity.year == 0 then None else Some(t.identity.year), k)
  }

  /** The filing's identity and the report's, as chosen for the task with this record of this company. */
  ghost predicate ChosenAs(t: ReportTask, cik: string, r: Submissions.FilingRecord, identity: ReportIdentity, filing: FilingIdentity) {
    && filing.cik == cik && filing.accessionNumber == r.accessionNumber
    && filing.primaryDocument == r.primaryDocument && filing.filingDate == r.filingDate
    && identity.ticker == t.identity.ticker && identity.form == t.identity.form && identity.quarter == t.identity.quarter
    && identity.year == if t.identity.year == 0 then r.filingDate.year else t.identity.year
  }

  /** At point `pc` the answer `filings` makes the handler choose this filing. */
  ghost predicate Chooses(pc: Pc, input: Input, identity: ReportIdentity, filing: FilingIdentity) {
    && pc.Fetch? && input.Filings?
    && exists k :: 0 <= k < |input.filings| && Selected(pc.c.task, input.filings, k)
                   && ChosenAs(pc.c.task, pc.cik, input.filings[k], identity, filing)
  }

  lemma FetchChooses(cfg: Config, pc: Pc, input: Input)
    requires pc.Fetch? && AdvanceFetch(cfg, pc.c, pc.cik, input).CheckExists?
    ensures var next := AdvanceFetch(cfg, pc.c, pc.cik, input);
            next.c == pc.c && Chooses(pc, input, next.job.identity, next.job.filing)
  {
    hide FailTransiently, FailPermanently, Submissions.SelectLatest, Submissions.IsSelected;
    var t := pc.c.task;
    if input.Filings? {
      var selector := Submissions.FilingSelector(t.identity.form, t.includeAmended);
      if Submissions.SelectLatest(input.filings, selector, RequestedYear(t.identity)).Some? {
        var k := Submissions.SelectLatestIsCorrect(input.filings, selector, RequestedYear(t.identity));
        SelectedInRange(input.filings, selector, RequestedYear(t.identity), k);
        assert Selected(t, input.filings, k);
      }
    }
  }

  lemma SelectedInRange(filings: seq<Submissions.FilingRecord>, selector: Submissions.FilingSelector, year: Option<int>, k: nat)
    requires Submissions.IsSelected(filings, selector, year, k)
    ensures k < |filings|
  {
  }

  // ----- one move ------------------------------------------------------------------------------------

  /** The parts of a task that its completion sets. */
  predicate SameCompletion(t: ReportTask, u: ReportTask) {
    t.identity == u.identity && t.filing == u.filing && t.artifactPath == u.artifactPath && t.includeAmended == u.includeAmended
  }

  /** A completion of the in-memory task with the job at hand. */
  predicate CompletesWith(t: ReportTask, job: Job, u: ReportTask) {
    && u.identity == job.identity && u.filing == Some(job.filing) && u.artifactPath == Some(JobPdf(job))
    && u.includeAmended == t.includeAmended
  }

  predicate CompletedHere(pc: Pc) { LocalTask(pc).Some? && LocalTask(pc).value.state.Completed? }

  /** Where a move takes its company, its job and its contents from. */
  ghost predicate DerivesJob(pc: Pc, input: Input, m: Move<Pc>) {
    m.next.Some? ==>
      var next := m.next.value;
      && (next.Fetch? ==> pc.Resolve? && input == Company(next.cik))
      && (HasJob(next) ==>
            if HasJob(pc) then next.job == pc.job && next.c == pc.c
            else pc.Fetch? && next.c == pc.c && Chooses(pc, input, next.job.identity, next.job.filing))
      && (next.Convert? ==> pc.Download? && input == Document(next.source))
      && (next.Write? ==>
            if pc.Write? then next.content == pc.content
            else pc.Convert? && input == Rendered(next.content.pdf, next.content.metadata) && next.content.source == pc.source)
  }

  /** Where it takes a completed task from, and what it publishes. */
  ghost predicate DerivesCompletion(db: Db, w: Worker, m: Move<Pc>) {
    && (m.next.Some? && CompletedHere(m.next.value) ==>
          var u := LocalTask(m.next.value).value;
          || (CompletedHere(w.pc) && SameCompletion(u, w.pc.c.task))
          || (HasJob(w.pc) && CompletesWith(w.pc.c.task, w.pc.job, u))
          || (w.tid in db.tasks && db.tasks[w.tid].state.Completed? && SameCompletion(u, db.tasks[w.tid])))
    && (m.effect.SetCurrent? ==> CompletedHere(w.pc) && PointsTo(m.effect.key, m.effect.pointer, w.pc.c.task))
  }

  /** The pointer of a completed task, under the key of its report and policy. */
  ghost predicate PointsTo(key: string, pointer: Pointer, u: ReportTask) {
    && u.filing.Some? && u.artifactPath.Some? && key == LogicalKey(LogicalPath(u.identity), u.includeAmended)
    && pointer.accessionNumber == u.filing.value.accessionNumber && pointer.cik == u.filing.value.cik
    && pointer.artifactPath == u.artifactPath.value
  }

  lemma FailuresDerive(cfg: Config, c: Context)
    ensures var next := FailTransiently(cfg, c); !HasJob(next) && !next.Fetch? && next.c.task.identity == c.task.identity
    ensures var next := FailTransiently(cfg, c); CompletedHere(next) ==> c.task.state.Completed? && SameCompletion(next.c.task, c.task)
    ensures var next := FailPermanently(c); !HasJob(next) && !next.Fetch?
    ensures var next := FailPermanently(c); CompletedHere(next) ==> c.task.state.Completed? && SameCompletion(next.c.task, c.task)
  {
  }

  lemma CompleteDerives(cfg: Config, c: Context, job: Job)
    ensures var next := Complete(cfg, c, job); !HasJob(next) && !next.Fetch?
    ensures var next := Complete(cfg, c, job); CompletedHere(next) ==> CompletesWith(c.task, job, next.c.task)
  {
    hide LogicalPath, FailTransiently, JobPdf;
    FailuresDerive(cfg, c.(task := c.task.(identity := job.identity)));
  }

  lemma WriteDerives(cfg: Config, db: Db, w: Worker, input: Input)
    requires w.pc.Write?
    ensures DerivesJob(w.pc, input, AdvanceWrite(cfg, w.pc, input)) && DerivesCompletion(db, w, AdvanceWrite(cfg, w.pc, input))
  {
    hide PartName, PartData, FailTransiently, Complete, JobPdf, Chooses;
    FailuresDerive(cfg, w.pc.c);
    CompleteDerives(cfg, w.pc.c, w.pc.job);
  }

  lemma StartDerives(cfg: Config, db: Db, w: Worker, input: Input)
    requires w.pc.Load? || w.pc.SaveProcessing? || w.pc.Resolve? || w.pc.Fetch?
    ensures var m := AdvanceProcessing(cfg, db, w.tid, w.pc, input); DerivesJob(w.pc, input, m) && DerivesCompletion(db, w, m)
  {
    hide LogicalPath, AdvanceFetch, FailPermanently, Chooses, JobPdf;
    if w.pc.Fetch? {
      FetchDerives(cfg, w.pc, input);
    } else if w.pc.Resolve? {
      FailuresDerive(cfg, w.pc.c);
    }
  }

  lemma MakingDerives(cfg: Config, db: Db, w: Worker, input: Input)
    requires w.pc.CheckExists? || w.pc.Download? || w.pc.Convert?
    ensures var m := AdvanceProcessing(cfg, db, w.tid, w.pc, input); DerivesJob(w.pc, input, m) && DerivesCompletion(db, w, m)
  {
    hide HasPdfHeader, JobPdf, FailTransiently, FailPermanently, Complete, Chooses;
    FailuresDerive(cfg, w.pc.c);
    CompleteDerives(cfg, w.pc.c, w.pc.job);
  }

  lemma ProcessingDerives(cfg: Config, db: Db, w: Worker, input: Input)
    requires InProcessing(w.pc)
    ensures var m := AdvanceProcessing(cfg, db, w.tid, w.pc, input); DerivesJob(w.pc, input, m) && DerivesCompletion(db, w, m)
  {
    hide AdvanceWrite, DerivesJob, DerivesCompletion;
    if w.pc.Write? {
      WriteDerives(cfg, db, w, input);
    } else if w.pc.CheckExists? || w.pc.Download? || w.pc.Convert? {
      MakingDerives(cfg, db, w, input);
    } else {
      StartDerives(cfg, db, w, input);
    }
  }

  lemma FetchDerives(cfg: Config, pc: Pc, input: Input)
    requires pc.Fetch?
    ensures var next := AdvanceFetch(cfg, pc.c, pc.cik, input);
            if next.CheckExists? then next.c == pc.c && Chooses(pc, input, next.job.identity, next.job.filing)
            else !HasJob(next) && !next.Fetch? && (CompletedHere(next) ==> CompletedHere(pc) && SameCompletion(next.c.task, pc.c.task))
  {
    hide Submissions.SelectLatest, FailTransiently, FailPermanently, Chooses;
    FailuresDerive(cfg, pc.c);
    if AdvanceFetch(cfg, pc.c, pc.cik, input).CheckExists? {
      FetchChooses(cfg, pc, input);
    }
  }

  lemma SavedDerives(cfg: Config, db: Db, w: Worker, input: Input)
    requires (w.pc.SaveCompleted? || w.pc.ClearCompleted?) && LocalOk(w.pc)
    ensures var m := AdvanceSuccess(cfg, w.tid, w.pc, input); DerivesJob(w.pc, input, m) && DerivesCompletion(db, w, m)
  {
    hide LogicalPath, PendingKey, FailTransiently, Chooses, CompletesWith;
    FailuresDerive(cfg, w.pc.c);
  }

  lemma PublishDerives(c: Context, input: Input)
    ensures var m := AdvancePublish(c, input);
            && (m.effect.SetCurrent? ==> PointsTo(m.effect.key, m.effect.pointer, c.task))
            && m.next.Some? && (m.next.value == ClearOriginal(c) || m.next.value.Ack?)
  {
    hide LogicalPath, LogicalKey;
  }

  lemma SuccessDerives(cfg: Config, db: Db, w: Worker, input: Input)
    requires InSuccess(w.pc) && LocalOk(w.pc)
    ensures var m := AdvanceSuccess(cfg, w.tid, w.pc, input); DerivesJob(w.pc, input, m) && DerivesCompletion(db, w, m)
  {
    if w.pc.SaveCompleted? || w.pc.ClearCompleted? {
      SavedDerives(cfg, db, w, input);
    } else {
      hide LogicalPath, PendingKey, AdvancePublish, Chooses, PointsTo;
      PublishDerives(w.pc.c, input);
    }
  }

  lemma WorkDerives(cfg: Config, db: Db, w: Worker, input: Input)
    requires LocalOk(w.pc)
    ensures var m := Advance(cfg, db, w.tid, w.entry, w.pc, input); DerivesJob(w.pc, input, m) && DerivesCompletion(db, w, m)
  {
    hide LogicalPath, PendingKey, AdvanceProcessing, AdvanceSuccess, Chooses;
    if InProcessing(w.pc) {
      ProcessingDerives(cfg, db, w, input);
    } else if InSuccess(w.pc) {
      SuccessDerives(cfg, db, w, input);
    }
  }

  // ----- whole runs -----------------------------------------------------------------------------------

  /** Operation `i` of the run is one of handler `p`, standing at `pc`. */
  ghost predicate Operates(run: Run, i: nat, p: Pid, pc: Pc, input: Input) {
    && i < |run.steps| && i < |run.states| && run.steps[i] == WorkStep(p, input)
    && p in run.states[i].workers && run.states[i].workers[p].pc == pc
  }

  /** The handler's ticker was resolved to this company. */
  ghost predicate Resolved(run: Run, n: nat, p: Pid, cik: string) {
    exists h: nat, c :: h < n && Operates(run, h, p, Resolve(c), Company(cik))
  }

  /** In operation `i` handler `p` of task `t` chose the filing from the answer it got for its company. */
  ghost predicate ChoseAt(run: Run, i: nat, p: Pid, t: TaskId, identity: ReportIdentity, filing: FilingIdentity, policy: bool) {
    && i < |run.steps| && i < |run.states| && run.steps[i].WorkStep? && run.steps[i].pid == p
    && p in run.states[i].workers && run.states[i].workers[p].tid == t
    && var pc := run.states[i].workers[p].pc;
       Chooses(pc, run.steps[i].input, identity, filing) && pc.c.task.includeAmended == policy && Resolved(run, i, p, pc.cik)
  }

  ghost predicate Chosen(run: Run, n: nat, t: TaskId, identity: ReportIdentity, filing: FilingIdentity, policy: bool) {
    exists i: nat, p :: i < n && ChoseAt(run, i, p, t, identity, filing, policy)
  }

  /** The task's filing, artifact, identity and policy are those of such a choice for it. */
  ghost predicate CompletedFrom(run: Run, n: nat, t: TaskId, u: ReportTask) {
    && u.filing.Some? && u.artifactPath == Some(PdfKey(u.identity, u.filing.value.accessionNumber))
    && Chosen(run, n, t, u.identity, u.filing.value, u.includeAmended)
  }

  ghost predicate Downloaded(run: Run, n: nat, p: Pid, job: Job, source: Bytes) {
    exists i: nat, c :: i < n && Operates(run, i, p, Download(c, job), Document(source))
  }

  ghost predicate RenderedAs(run: Run, n: nat, p: Pid, job: Job, source: Bytes, pdf: Bytes, metadata: Bytes) {
    exists i: nat, c :: i < n && Operates(run, i, p, Convert(c, job, source), Rendered(pdf, metadata))
  }

  ghost predicate HandlerTraced(run: Run, n: nat, p: Pid)
    requires n < |run.states| && p in run.states[n].workers
  {
    var w := run.states[n].workers[p];
    JobTraced(run, n, p, w) && (CompletedHere(w.pc) ==> CompletedFrom(run, n, w.tid, w.pc.c.task))
  }

  ghost predicate JobTraced(run: Run, n: nat, p: Pid, w: Worker) {
    && (w.pc.Fetch? ==> Resolved(run, n, p, w.pc.cik))
    && (HasJob(w.pc) ==> Chosen(run, n, w.tid, w.pc.job.identity, w.pc.job.filing, w.pc.c.task.includeAmended))
    && (w.pc.Convert? ==> Downloaded(run, n, p, w.pc.job, w.pc.source))
    && (w.pc.Write? ==> Downloaded(run, n, p, w.pc.job, w.pc.content.source)
                        && RenderedAs(run, n, p, w.pc.job, w.pc.content.source, w.pc.content.pdf, w.pc.content.metadata))
  }

  ghost predicate RecordTraced(run: Run, n: nat, t: TaskId)
    requires n < |run.states|
  {
    t in run.states[n].db.tasks && run.states[n].db.tasks[t].state.Completed? ==> CompletedFrom(run, n, t, run.states[n].db.tasks[t])
  }

  ghost predicate PointerTraced(run: Run, n: nat, key: string)
    requires n < |run.states|
  {
    key in run.states[n].db.current ==>
      exists t, u :: CompletedFrom(run, n, t, u) && PointsTo(key, run.states[n].db.current[key], u)
  }

  lemma Later(run: Run, n: nat)
    ensures forall p, cik | Resolved(run, n, p, cik) :: Resolved(run, n + 1, p, cik)
    ensures forall t, identity, filing, policy | Chosen(run, n, t, identity, filing, policy) ::
              Chosen(run, n + 1, t, identity, filing, policy)
    ensures forall p, job, source | Downloaded(run, n, p, job, source) :: Downloaded(run, n + 1, p, job, source)
    ensures forall p, job, source, pdf, metadata | RenderedAs(run, n, p, job, source, pdf, metadata) ::
              RenderedAs(run, n + 1, p, job, source, pdf, metadata)
  {
    hide Operates, ChoseAt;
  }

  lemma StillTraced(run: Run, n: nat, p: Pid)
    requires n + 1 < |run.states| && p in run.states[n].workers && p in run.states[n + 1].workers
    requires run.states[n].workers[p] == run.states[n + 1].workers[p] && HandlerTraced(run, n, p)
    ensures HandlerTraced(run, n + 1, p)
  {
    Later(run, n);
    hide Resolved, Chosen, Downloaded, RenderedAs;
  }

  /** What a handler works with after an operation was there before, or comes from that operation. */
  lemma JobMovesTraced(run: Run, n: nat, p: Pid, next: Pc)
    requires n < |run.states| && n < |run.steps| && p in run.states[n].workers && JobTraced(run, n, p, run.states[n].workers[p])
    requires run.steps[n].WorkStep? && run.steps[n].pid == p
    requires DerivesJob(run.states[n].workers[p].pc, run.steps[n].input, Go(next))
    ensures JobTraced(run, n + 1, p, run.states[n].workers[p].(pc := next))
  {
    var w, input := run.states[n].workers[p], run.steps[n].input;
    Later(run, n);
    hide Chooses;
    assert Operates(run, n, p, w.pc, input);
    if HasJob(next) && !HasJob(w.pc) {
      assert ChoseAt(run, n, p, w.tid, next.job.identity, next.job.filing, next.c.task.includeAmended);
    }
    hide ChoseAt, Operates;
  }

  lemma CompletionMovesTraced(run: Run, n: nat, w: Worker, m: Move<Pc>)
    requires n < |run.states| && RecordTraced(run, n, w.tid) && DerivesCompletion(run.states[n].db, w, m)
    requires HasJob(w.pc) ==> Chosen(run, n, w.tid, w.pc.job.identity, w.pc.job.filing, w.pc.c.task.includeAmended)
    requires CompletedHere(w.pc) ==> CompletedFrom(run, n, w.tid, w.pc.c.task)
    ensures m.next.Some? && CompletedHere(m.next.value) ==> CompletedFrom(run, n + 1, w.tid, m.next.value.c.task)
  {
    Later(run, n);
    hide Chosen, PointsTo;
  }

  lemma HandlersTraced(cfg: Config, run: Run, n: nat, p: Pid)
    requires IsRun(cfg, run) && n + 1 < |run.states| && p in run.states[n + 1].workers
    requires forall q | q in run.states[n].workers :: HandlerTraced(run, n, q)
    requires forall t :: RecordTraced(run, n, t)
    ensures HandlerTraced(run, n + 1, p)
  {
    hide Apply, Enabled, Inv, WorkMove, JobTraced, CompletedFrom, DerivesJob, DerivesCompletion;
    var s, step := run.states[n], run.steps[n];
    Invariant.RunInv(cfg, run, n);
    Failures.HandlersAfter(cfg, s, step, p);
    if run.states[n + 1].workers[p].pc.Load? {
      NothingToTrace(run, n + 1, p, run.states[n + 1].workers[p]);
    } else if s.workers[p] == run.states[n + 1].workers[p] {
      StillTraced(run, n, p);
    } else {
      var w, m := s.workers[p], WorkMove(cfg, s, p, step.input);
      OwnMoveDerives(cfg, s, p, step.input);
      JobChosen(run, n, p, w);
      NextDerives(w.pc, step.input, m);
      JobMovesTraced(run, n, p, m.next.value);
      CompletionMovesTraced(run, n, w, m);
    }
  }

  lemma NothingToTrace(run: Run, n: nat, p: Pid, w: Worker)
    requires w.pc.Load?
    ensures JobTraced(run, n, p, w) && !CompletedHere(w.pc)
  {
  }

  lemma JobChosen(run: Run, n: nat, p: Pid, w: Worker)
    requires JobTraced(run, n, p, w)
    ensures HasJob(w.pc) ==> Chosen(run, n, w.tid, w.pc.job.identity, w.pc.job.filing, w.pc.c.task.includeAmended)
  {
  }

  lemma NextDerives(pc: Pc, input: Input, m: Move<Pc>)
    requires DerivesJob(pc, input, m) && m.next.Some?
    ensures DerivesJob(pc, input, Go(m.next.value))
  {
  }

  lemma OwnMoveDerives(cfg: Config, s: State, p: Pid, input: Input)
    requires Inv(s) && p in s.workers
    ensures var w, m := s.workers[p], WorkMove(cfg, s, p, input);
            DerivesJob(w.pc, input, m) && DerivesCompletion(s.db, w, m) && WorkShape(w, m)
  {
    hide HandlersOk, StreamOk, RequestsOk, Advance, LocalOk, Persisted, DerivesJob, DerivesCompletion, WorkShape;
    assert LocalOk(s.workers[p].pc);
    WorkDerives(cfg, s.db, s.workers[p], input);
    WorkHasShape(cfg, s.db, s.workers[p], input);
  }

  // ----- records and pointers ---------------------------------------------------------------------------

  /** A record that a step makes COMPLETED, or leaves so, was so before, or is its handler's in-memory task. */
  lemma RecordAfter(cfg: Config, s: State, step: Step, t: TaskId)
    requires Inv(s) && Enabled(cfg, s, step)
    requires t in Apply(cfg, s, step).db.tasks && Apply(cfg, s, step).db.tasks[t].state.Completed?
    ensures var u := Apply(cfg, s, step).db.tasks[t];
            || (t in s.db.tasks && s.db.tasks[t] == u)
            || (step.WorkStep? && step.pid in s.workers && s.workers[step.pid].tid == t && LocalTask(s.workers[step.pid].pc) == Some(u))
  {
    hide HandlersOk, StreamOk, TasksOk, RequestsOk, Advance, Request.AdvanceRequest, ApplyWork, ApplyApi;
    match step {
      case ApiStep(pid, input) =>
        ApiHasShape(cfg, s.db, s.requests[pid], input);
        ApiSaves(s, pid, ApiMove(cfg, s, pid, input), t);
      case WorkStep(pid, input) =>
        hide WorkMove;
        WorkHasShape(cfg, s.db, s.workers[pid], input);
        assert WorkShape(s.workers[pid], WorkMove(cfg, s, pid, input)) by { SameMove(cfg, s, pid, input); }
        Invariant.WorkOnTasks(s, pid, WorkMove(cfg, s, pid, input));
      case _ =>
    }
  }

  lemma SameMove(cfg: Config, s: State, p: Pid, input: Input)
    requires p in s.workers
    ensures WorkMove(cfg, s, p, input) == Advance(cfg, s.db, s.workers[p].tid, s.workers[p].entry, s.workers[p].pc, input)
  {
  }

  lemma ApiSaves(s: State, p: Pid, m: Move<Request.RequestPc>, t: TaskId)
    requires p in s.requests && ApiShape(s.requests[p], m)
    ensures var tasks := ApplyApi(s, p, m).db.tasks;
            t in tasks && tasks[t].state.Completed? ==> t in s.db.tasks && s.db.tasks[t] == tasks[t]
  {
  }

  lemma RecordsTraced(cfg: Config, run: Run, n: nat, t: TaskId)
    requires IsRun(cfg, run) && n + 1 < |run.states| && RecordTraced(run, n, t)
    requires forall q | q in run.states[n].workers :: HandlerTraced(run, n, q)
    ensures RecordTraced(run, n + 1, t)
  {
    hide Apply, Enabled, Inv, Chosen, JobTraced;
    var tasks := run.states[n + 1].db.tasks;
    if t in tasks && tasks[t].state.Completed? {
      Invariant.RunInv(cfg, run, n);
      RecordAfter(cfg, run.states[n], run.steps[n], t);
      Later(run, n);
    }
  }

  /** A pointer after a step was there before, or is published by its handler. */
  lemma PointerAfter(cfg: Config, s: State, step: Step, key: string)
    requires Inv(s) && Enabled(cfg, s, step) && key in Apply(cfg, s, step).db.current
    ensures var pointer := Apply(cfg, s, step).db.current[key];
            || (key in s.db.current && s.db.current[key] == pointer)
            || (step.WorkStep? && step.pid in s.workers && CompletedHere(s.workers[step.pid].pc)
                && PointsTo(key, pointer, s.workers[step.pid].pc.c.task))
  {
    hide Inv, Advance, Request.AdvanceRequest, ApplyEffect, PointsTo, CompletedHere, WorkShape;
    match step {
      case ApiStep(pid, input) =>
        ApiHasShape(cfg, s.db, s.requests[pid], input);
        EffectOnParts(s.db, ApiMove(cfg, s, pid, input).effect);
      case WorkStep(pid, input) =>
        OwnMoveDerives(cfg, s, pid, input);
        EffectOnParts(s.db, WorkMove(cfg, s, pid, input).effect);
      case _ =>
    }
  }

  lemma PointersTraced(cfg: Config, run: Run, n: nat, key: string)
    requires IsRun(cfg, run) && n + 1 < |run.states| && PointerTraced(run, n, key)
    requires forall q | q in run.states[n].workers :: HandlerTraced(run, n, q)
    ensures PointerTraced(run, n + 1, key)
  {
    hide Apply, Enabled, Inv, Chosen, JobTraced, PointsTo;
    if key in run.states[n + 1].db.current {
      Invariant.RunInv(cfg, run, n);
      PointerAfter(cfg, run.states[n], run.steps[n], key);
      Later(run, n);
      var s, pointer := run.states[n], run.states[n + 1].db.current[key];
      if key in s.db.current && s.db.current[key] == pointer {
        var t, u :| CompletedFrom(run, n, t, u) && PointsTo(key, pointer, u);
        assert CompletedFrom(run, n + 1, t, u);
      } else {
        var w := s.workers[run.steps[n].pid];
        assert CompletedFrom(run, n + 1, w.tid, w.pc.c.task);
      }
    }
  }

  lemma {:induction false} RunTraced(cfg: Config, run: Run, n: nat)
    requires IsRun(cfg, run) && n < |run.states|
    ensures forall p | p in run.states[n].workers :: HandlerTraced(run, n, p)
    ensures forall t :: RecordTraced(run, n, t)
    ensures forall key :: PointerTraced(run, n, key)
  {
    hide HandlerTraced, RecordTraced, PointerTraced, Apply, Enabled;
    if n > 0 {
      RunTraced(cfg, run, n - 1);
      forall p | p in run.states[n].workers ensures HandlerTraced(run, n, p) {
        HandlersTraced(cfg, run, n - 1, p);
      }
      forall t ensures RecordTraced(run, n, t) {
        RecordsTraced(cfg, run, n - 1, t);
      }
      forall key ensures PointerTraced(run, n, key) {
        PointersTraced(cfg, run, n - 1, key);
      }
    } else {
      NothingTraced(run);
    }
  }

  lemma NothingTraced(run: Run)
    requires run.states != [] && run.states[0] == INITIAL
    ensures forall t :: RecordTraced(run, 0, t)
    ensures forall key :: PointerTraced(run, 0, key)
  {
  }

  /** In every run a COMPLETED task names a filing that selection takes from a filing list the SEC returned to
      a handler of this task, for the company its ticker resolved to: the first among the latest filings of
      the form and year asked for; and its artifact is the PDF of that filing. */
  lemma CompletedIsTheSelectedFiling(cfg: Config, run: Run, n: nat, t: TaskId)
    requires IsRun(cfg, run) && n < |run.states| && t in run.states[n].db.tasks && run.states[n].db.tasks[t].state.Completed?
    ensures CompletedFrom(run, n, t, run.states[n].db.tasks[t])
  {
    hide IsRun, CompletedFrom;
    RunTraced(cfg, run, n);
    assert RecordTraced(run, n, t);
  }

  /** And a published pointer leads to the filing and artifact of such a completion, and is filed under its
      report and policy. */
  lemma PublishedIsTheSelectedFiling(cfg: Config, run: Run, n: nat, key: string)
    requires IsRun(cfg, run) && n < |run.states| && key in run.states[n].db.current
    ensures exists t, u :: CompletedFrom(run, n, t, u) && PointsTo(key, run.states[n].db.current[key], u)
  {
    hide IsRun, CompletedFrom, PointsTo;
    RunTraced(cfg, run, n);
    assert PointerTraced(run, n, key);
  }

  // ----- the files ------------------------------------------------------------------------------------------

  /** A file of an artifact holds what a handler downloaded, rendered, or recorded about it, for one filing of
      its directory. */
  ghost predicate FileOf(run: Run, n: nat, k: FileKey, data: Bytes) {
    exists p, job, source, pdf, metadata ::
      && Downloaded(run, n, p, job, source) && RenderedAs(run, n, p, job, source, pdf, metadata)
      && k.dir == Dir(job.identity.ticker, job.identity.form, job.identity.year, job.filing.accessionNumber) && !k.tmp
      && match k.name
         case Source(extension) => data == source && extension == SourceExtension(job.filing.primaryDocument)
         case Pdf => data == pdf
         case Metadata => data == metadata
  }

  lemma StillDownloaded(run: Run, i: nat, n: nat, p: Pid, pc: Pc)
    requires i <= n && pc.Write? && Downloaded(run, i, p, pc.job, pc.content.source)
    requires RenderedAs(run, i, p, pc.job, pc.content.source, pc.content.pdf, pc.content.metadata)
    ensures Downloaded(run, n, p, pc.job, pc.content.source)
    ensures RenderedAs(run, n, p, pc.job, pc.content.source, pc.content.pdf, pc.content.metadata)
  {
    hide Operates;
  }

  lemma PartsAreThese(pc: Pc, k: FileKey, data: Bytes)
    requires Artifacts.Writes(pc, k, data)
    ensures pc.Write? && !k.tmp
    ensures k.dir == Dir(pc.job.identity.ticker, pc.job.identity.form, pc.job.identity.year, pc.job.filing.accessionNumber)
    ensures match k.name
            case Source(extension) => data == pc.content.source && extension == SourceExtension(pc.job.filing.primaryDocument)
            case Pdf => data == pc.content.pdf
            case Metadata => data == pc.content.metadata
  {
  }

  /** In every run each visible file is the source as downloaded, the PDF as rendered from it, or its metadata. */
  lemma FilesAreOfTheFiling(cfg: Config, run: Run, n: nat, k: FileKey)
    requires IsRun(cfg, run) && OneWriterAlways(run) && n < |run.states| && !k.tmp && k in run.states[n].db.files
    ensures FileOf(run, n, k, run.states[n].db.files[k])
  {
    hide IsRun, OneWriterAlways, Downloaded, RenderedAs, Artifacts.Writes;
    Artifacts.VisibleFilesAreComplete(cfg, run, n, k);
    var data := run.states[n].db.files[k];
    var i: nat, p: Pid :| i < n && i < |run.states| && p in run.states[i].workers && Artifacts.Writes(run.states[i].workers[p].pc, k, data);
    RunTraced(cfg, run, i);
    assert HandlerTraced(run, i, p);
    PartsAreThese(run.states[i].workers[p].pc, k, data);
    StillDownloaded(run, i, n, p, run.states[i].workers[p].pc);
  }

  // ----- the request ------------------------------------------------------------------------------------------

  /** The same report, but for its year, under the same policy. */
  predicate SameRequest(t: ReportTask, u: ReportTask) {
    && t.identity.ticker == u.identity.ticker && t.identity.form == u.identity.form && t.identity.quarter == u.identity.quarter
    && t.includeAmended == u.includeAmended
  }

  /** The handler's report is that of the record, and its job that of its report. */
  predicate HoldsRequest(pc: Pc, r: ReportTask) {
    && (LocalTask(pc).Some? ==> SameRequest(LocalTask(pc).value, r))
    && (HasJob(pc) ==> SameRequest(pc.c.task.(identity := pc.job.identity), r))
  }

  lemma FailuresHoldRequest(cfg: Config, c: Context, r: ReportTask)
    requires SameRequest(c.task, r)
    ensures HoldsRequest(FailTransiently(cfg, c), r) && HoldsRequest(FailPermanently(c), r)
  {
  }

  lemma CompleteHoldsRequest(cfg: Config, c: Context, job: Job, r: ReportTask)
    requires SameRequest(c.task, r) && SameRequest(c.task.(identity := job.identity), r)
    ensures HoldsRequest(Complete(cfg, c, job), r)
  {
    hide LogicalPath, FailTransiently, JobPdf;
    FailuresHoldRequest(cfg, c.(task := c.task.(identity := job.identity)), r);
  }

  lemma WriteHoldsRequest(cfg: Config, pc: Pc, input: Input, r: ReportTask)
    requires pc.Write? && HoldsRequest(pc, r)
    ensures var m := AdvanceWrite(cfg, pc, input); m.next.Some? ==> HoldsRequest(m.next.value, r)
  {
    hide PartName, PartData, FailTransiently, Complete;
    FailuresHoldRequest(cfg, pc.c, r);
    CompleteHoldsRequest(cfg, pc.c, pc.job, r);
  }

  lemma MakingHoldsRequest(cfg: Config, db: Db, w: Worker, input: Input, r: ReportTask)
    requires HasJob(w.pc) && HoldsRequest(w.pc, r)
    ensures var m := AdvanceProcessing(cfg, db, w.tid, w.pc, input); m.next.Some? ==> HoldsRequest(m.next.value, r)
  {
    hide AdvanceWrite, HasPdfHeader, JobPdf, FailTransiently, FailPermanently, Complete;
    if w.pc.Write? {
      WriteHoldsRequest(cfg, w.pc, input, r);
    } else {
      FailuresHoldRequest(cfg, w.pc.c, r);
      CompleteHoldsRequest(cfg, w.pc.c, w.pc.job, r);
    }
  }

  lemma StartHoldsRequest(cfg: Config, db: Db, w: Worker, input: Input, r: ReportTask)
    requires InProcessing(w.pc) && !HasJob(w.pc) && HoldsRequest(w.pc, r) && w.tid in db.tasks && db.tasks[w.tid] == r
    ensures var m := AdvanceProcessing(cfg, db, w.tid, w.pc, input); m.next.Some? ==> HoldsRequest(m.next.value, r)
  {
    hide LogicalPath, FailTransiently, FailPermanently, Submissions.SelectLatest;
    if w.pc.Resolve? || w.pc.Fetch? {
      FailuresHoldRequest(cfg, w.pc.c, r);
    }
  }

  lemma WorkHoldsRequest(cfg: Config, db: Db, w: Worker, input: Input)
    requires w.tid in db.tasks && HoldsRequest(w.pc, db.tasks[w.tid])
    ensures var m := Advance(cfg, db, w.tid, w.entry, w.pc, input); m.next.Some? ==> HoldsRequest(m.next.value, db.tasks[w.tid])
  {
    hide LogicalPath, PendingKey, AdvanceProcessing, AdvanceSuccess;
    if HasJob(w.pc) {
      MakingHoldsRequest(cfg, db, w, input, db.tasks[w.tid]);
    } else if InProcessing(w.pc) {
      StartHoldsRequest(cfg, db, w, input, db.tasks[w.tid]);
    } else if InSuccess(w.pc) {
      SuccessHoldsRequest(cfg, w, input, db.tasks[w.tid]);
    }
  }

  lemma SuccessHoldsRequest(cfg: Config, w: Worker, input: Input, r: ReportTask)
    requires InSuccess(w.pc) && HoldsRequest(w.pc, r)
    ensures var m := AdvanceSuccess(cfg, w.tid, w.pc, input); m.next.Some? ==> HoldsRequest(m.next.value, r)
  {
    hide LogicalPath, PendingKey, AdvancePublish, FailTransiently;
    FailuresHoldRequest(cfg, w.pc.c, r);
  }

  ghost predicate RequestsHeld(s: State) {
    forall p | p in s.workers && s.workers[p].tid in s.db.tasks :: HoldsRequest(s.workers[p].pc, s.db.tasks[s.workers[p].tid])
  }

  /** Every record is still there, for the same request. */
  ghost predicate RecordsKept(db: Db, db': Db) {
    forall t | t in db.tasks :: t in db'.tasks && SameRequest(db'.tasks[t], db.tasks[t])
  }

  lemma WorkStepHoldsRequests(cfg: Config, s: State, p: Pid, input: Input)
    requires Inv(s) && p in s.workers && RequestsHeld(s)
    ensures var s' := ApplyWork(s, p, WorkMove(cfg, s, p, input)); RequestsHeld(s') && RecordsKept(s.db, s'.db)
  {
    hide HandlersOk, StreamOk, RequestsOk, Advance, LocalOk, ApplyEffect, WorkShape;
    var w, m := s.workers[p], WorkMove(cfg, s, p, input);
    assert Persisted(s.db, w.tid);
    Invariant.WorkFacts(cfg, s, p, input);
    Invariant.WorkOnTasks(s, p, m);
    WorkHoldsRequest(cfg, s.db, w, input);
    OwnSave(w, m);
  }

  lemma OwnSave(w: Worker, m: Move<Pc>)
    requires WorkShape(w, m)
    ensures m.effect.SaveTask? ==> m.effect.tid == w.tid && LocalTask(w.pc) == Some(m.effect.task)
  {
  }

  lemma ApiHoldsRequests(s: State, p: Pid, m: Move<Request.RequestPc>)
    requires Inv(s) && p in s.requests && ApiShape(s.requests[p], m) && RequestsHeld(s)
    ensures var s' := ApplyApi(s, p, m); RequestsHeld(s') && RecordsKept(s.db, s'.db)
  {
    hide StreamOk, HandlersOk, TasksOk, ApplyEffect, HoldsRequest, ApiShape;
    Invariant.OwnRequestOk(s, p);
    EffectOnParts(s.db, m.effect);
    OwnRequest(s.requests[p], m);
  }

  lemma OwnRequest(r: Request.Request, m: Move<Request.RequestPc>)
    requires ApiShape(r, m)
    ensures m.effect.SaveTask? || m.effect.CreateTask? ==> m.effect.tid == r.id && SameRequest(m.effect.task, Request.RequestTask(r))
  {
  }

  lemma StepHoldsRequests(cfg: Config, s: State, step: Step)
    requires Inv(s) && Enabled(cfg, s, step) && RequestsHeld(s)
    ensures RequestsHeld(Apply(cfg, s, step)) && RecordsKept(s.db, Apply(cfg, s, step).db)
  {
    hide StreamOk, HandlersOk, TasksOk, RequestsOk, WorkMove, Request.AdvanceRequest, ApplyWork, ApplyApi;
    match step {
      case ApiStep(pid, input) =>
        ApiHasShape(cfg, s.db, s.requests[pid], input);
        ApiHoldsRequests(s, pid, ApiMove(cfg, s, pid, input));
      case WorkStep(pid, input) => WorkStepHoldsRequests(cfg, s, pid, input);
      case _ =>
    }
  }

  lemma {:induction false} RunHoldsRequests(cfg: Config, run: Run, n: nat)
    requires IsRun(cfg, run) && n < |run.states|
    ensures RequestsHeld(run.states[n])
  {
    hide Apply, Enabled, Inv, RequestsHeld, RecordsKept;
    if n > 0 {
      RunHoldsRequests(cfg, run, n - 1);
      Invariant.RunInv(cfg, run, n - 1);
      StepHoldsRequests(cfg, run.states[n - 1], run.steps[n - 1]);
    } else {
      NothingHeld();
    }
  }

  lemma NothingHeld()
    ensures RequestsHeld(INITIAL)
  {
  }

  /** Whatever overwrites whatever: in every run a record stays, for the same ticker, form, quarter and policy. So
      the filing of a COMPLETED task was selected by the form and policy of the request that created it. */
  lemma {:induction false} TaskKeepsItsRequest(cfg: Config, run: Run, i: nat, j: nat, t: TaskId)
    requires IsRun(cfg, run) && i <= j < |run.states| && t in run.states[i].db.tasks
    ensures t in run.states[j].db.tasks && SameRequest(run.states[j].db.tasks[t], run.states[i].db.tasks[t])
  {
    hide Apply, Enabled, Inv, RequestsHeld;
    if i < j {
      TaskKeepsItsRequest(cfg, run, i, j - 1, t);
      Invariant.RunInv(cfg, run, j - 1);
      RunHoldsRequests(cfg, run, j - 1);
      StepHoldsRequests(cfg, run.states[j - 1], run.steps[j - 1]);
    }
  }
}
