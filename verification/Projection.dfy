/** The methods and the runs of the whole service: what a handler does in a run is what
    `HandleMessage` does, and what a request does is what `CreateReport` does, when they are
    given the turns that the run gives the process. */
module Projection {
  import opened Wrappers
  import Identity
  import ArtifactStore
  import Deliverable
  import opened Store
  import opened Handler
  import Request
  import opened System
  import Invariant
  import opened Environment
  import opened Machine
  import Routes
  import opened Worker

  /** An operation of process `p`. */
  predicate StepsBy(step: Step, p: Pid) { (step.WorkStep? || step.ApiStep?) && step.pid == p }

  /** The turns of process `p` from state `i` to state `j`. */
  function TurnsOf(run: Run, i: nat, j: nat, p: Pid): seq<Turn>
    requires i <= j < |run.states| && j <= |run.steps|
  {
    if i == j then []
    else
      var s, step := run.states[j - 1], run.steps[j - 1];
      TurnsOf(run, i, j - 1, p) + if StepsBy(step, p) then [Turn(s.db, step.input, s.now)] else []
  }

  /** What a step does to the shared state, if it is an operation of `p`. */
  function EffectOf(cfg: Config, s: State, step: Step, p: Pid): seq<Effect> {
    if step.WorkStep? && step.pid == p && p in s.workers then [WorkMove(cfg, s, p, step.input).effect]
    else if step.ApiStep? && step.pid == p && p in s.requests then [ApiMove(cfg, s, p, step.input).effect]
    else []
  }

  /** The effects of the operations of `p` on the shared state. */
  function EffectsOf(cfg: Config, run: Run, i: nat, j: nat, p: Pid): seq<Effect>
    requires i <= j < |run.states| && j <= |run.steps|
  {
    if i == j then [] else EffectsOf(cfg, run, i, j - 1, p) + EffectOf(cfg, run.states[j - 1], run.steps[j - 1], p)
  }

  /** The machine has done what the process has done and, while the process lives, is where it is. */
  ghost predicate Tracks<P>(m: Machine<P>, turns: seq<Turn>, log: seq<Effect>, pc: Option<P>) {
    Reached(m, turns, |turns|).log == log && (pc.Some? ==> Reached(m, turns, |turns|).pc == pc)
  }

  lemma OneMoreTracks<P>(m: Machine<P>, turns: seq<Turn>, log: seq<Effect>, pc: P, turn: Turn)
    requires Tracks(m, turns, log, Some(pc))
    ensures var move := m.advance(pc, turn.db, turn.input); Tracks(m, turns + [turn], log + [move.effect], move.next)
  {
    hide Reached;
    OneMoreTurn(m, turns, turn, pc, log);
  }

  lemma StillTracks<P>(m: Machine<P>, turns: seq<Turn>, log: seq<Effect>, pc: Option<P>, later: Option<P>)
    requires Tracks(m, turns, log, pc) && (later == pc || later.None?)
    ensures Tracks(m, turns + [], log + [], later)
  {
    assert turns + [] == turns && log + [] == log;
  }

  // ----- handlers --------------------------------------------------------------------------

  function HandlerAt(s: State, p: Pid): Option<Pc> { if p in s.workers then Some(s.workers[p].pc) else None }

  ghost predicate IsHandler(s: State, p: Pid, msg: Message) {
    && p < s.nextPid && p !in s.requests
    && (p in s.workers ==> s.workers[p].tid == msg.tid && s.workers[p].entry == msg.entry)
  }

  lemma HandlerStep(cfg: Config, s: State, step: Step, p: Pid, msg: Message, turns: seq<Turn>, log: seq<Effect>)
    requires Enabled(cfg, s, step) && IsHandler(s, p, msg) && Tracks(Handling(cfg, msg), turns, log, HandlerAt(s, p))
    ensures var s' := Apply(cfg, s, step);
            && IsHandler(s', p, msg)
            && Tracks(Handling(cfg, msg), turns + (if StepsBy(step, p) then [Turn(s.db, step.input, s.now)] else []),
                      log + EffectOf(cfg, s, step, p), HandlerAt(s', p))
  {
    hide Advance, Request.AdvanceRequest, ApplyEffect, Tracks;
    if StepsBy(step, p) {
      OneMoreTracks(Handling(cfg, msg), turns, log, s.workers[p].pc, Turn(s.db, step.input, s.now));
    } else {
      StillTracks(Handling(cfg, msg), turns, log, HandlerAt(s, p), HandlerAt(Apply(cfg, s, step), p));
    }
  }

  lemma {:induction false} HandlerTracks(cfg: Config, run: Run, i: nat, j: nat, p: Pid)
    requires IsRun(cfg, run) && i <= j < |run.states| && p in run.states[i].workers && run.states[i].workers[p].pc.Load?
    ensures var w := run.states[i].workers[p];
            var msg := Message(w.tid, w.entry);
            && IsHandler(run.states[j], p, msg)
            && Tracks(Handling(cfg, msg), TurnsOf(run, i, j, p), EffectsOf(cfg, run, i, j, p), HandlerAt(run.states[j], p))
  {
    hide Apply, Enabled, Tracks, EffectOf;
    var w := run.states[i].workers[p];
    if i == j {
      Invariant.RunInv(cfg, run, i);
      StartTracks(Handling(cfg, Message(w.tid, w.entry)));
    } else {
      hide Inv;
      HandlerTracks(cfg, run, i, j - 1, p);
      HandlerStep(cfg, run.states[j - 1], run.steps[j - 1], p, Message(w.tid, w.entry),
                  TurnsOf(run, i, j - 1, p), EffectsOf(cfg, run, i, j - 1, p));
    }
  }

  lemma StartTracks<P>(m: Machine<P>)
    ensures Tracks(m, [], [], Some(m.start))
  {
  }

  /** From its delivery on, a handler of any run does operation for operation what the
      machine, and so `HandleMessage`, does when it is given the same turns. */
  lemma RunsFollowTheWorker(cfg: Config, run: Run, i: nat, j: nat, p: Pid)
    requires IsRun(cfg, run) && i <= j < |run.states| && p in run.states[i].workers && run.states[i].workers[p].pc.Load?
    ensures var w := run.states[i].workers[p];
            var m, turns := Handling(cfg, Message(w.tid, w.entry)), TurnsOf(run, i, j, p);
            && Reached(m, turns, |turns|).log == EffectsOf(cfg, run, i, j, p)
            && (p in run.states[j].workers ==> Reached(m, turns, |turns|).pc == Some(run.states[j].workers[p].pc))
  {
    hide IsRun;
    HandlerTracks(cfg, run, i, j, p);
  }

  // ----- requests --------------------------------------------------------------------------

  function RequestAt(s: State, p: Pid): Option<Request.RequestPc> { if p in s.requests then Some(s.requests[p].pc) else None }

  ghost predicate IsRequest(s: State, p: Pid, r: Request.Request) {
    && p < s.nextPid && p !in s.workers
    && (p in s.requests ==> s.requests[p] == r.(pc := s.requests[p].pc))
  }

  lemma RequestStep(cfg: Config, s: State, step: Step, p: Pid, r: Request.Request, turns: seq<Turn>, log: seq<Effect>)
    requires Enabled(cfg, s, step) && IsRequest(s, p, r) && Tracks(Routes.Serving(cfg, r), turns, log, RequestAt(s, p))
    ensures var s' := Apply(cfg, s, step);
            && IsRequest(s', p, r)
            && Tracks(Routes.Serving(cfg, r), turns + (if StepsBy(step, p) then [Turn(s.db, step.input, s.now)] else []),
                      log + EffectOf(cfg, s, step, p), RequestAt(s', p))
  {
    hide Advance, Request.AdvanceRequest, ApplyEffect, Tracks;
    if StepsBy(step, p) {
      OneMoreTracks(Routes.Serving(cfg, r), turns, log, s.requests[p].pc, Turn(s.db, step.input, s.now));
    } else {
      StillTracks(Routes.Serving(cfg, r), turns, log, RequestAt(s, p), RequestAt(Apply(cfg, s, step), p));
    }
  }

  lemma {:induction false} RequestTracks(cfg: Config, run: Run, i: nat, j: nat, p: Pid)
    requires IsRun(cfg, run) && i <= j < |run.states| && p in run.states[i].requests && run.states[i].requests[p].pc.Lookup?
    ensures var r := run.states[i].requests[p];
            && IsRequest(run.states[j], p, r)
            && Tracks(Routes.Serving(cfg, r), TurnsOf(run, i, j, p), EffectsOf(cfg, run, i, j, p), RequestAt(run.states[j], p))
  {
    hide Apply, Enabled, Tracks, EffectOf;
    var r := run.states[i].requests[p];
    if i == j {
      Invariant.RunInv(cfg, run, i);
      StartTracks(Routes.Serving(cfg, r));
    } else {
      hide Inv;
      RequestTracks(cfg, run, i, j - 1, p);
      RequestStep(cfg, run.states[j - 1], run.steps[j - 1], p, r, TurnsOf(run, i, j - 1, p), EffectsOf(cfg, run, i, j - 1, p));
    }
  }

  /** From its arrival on, a request of any run does operation for operation what the machine,
      and so `CreateReport`, does when it is given the same turns. */
  lemma RunsFollowCreateReport(cfg: Config, run: Run, i: nat, j: nat, p: Pid)
    requires IsRun(cfg, run) && i <= j < |run.states| && p in run.states[i].requests && run.states[i].requests[p].pc.Lookup?
    ensures var m, turns := Routes.Serving(cfg, run.states[i].requests[p]), TurnsOf(run, i, j, p);
            && Reached(m, turns, |turns|).log == EffectsOf(cfg, run, i, j, p)
            && (p in run.states[j].requests ==> Reached(m, turns, |turns|).pc == Some(run.states[j].requests[p].pc))
  {
    hide IsRun;
    RequestTracks(cfg, run, i, j, p);
  }

  /** In a run, what is answered from the cache exists: the answer is the pointer's accession, the PDF of
      that accession is visible under the report's own ticker, form and year and begins with `%PDF-`, and
      the reference answered leads to it. */
  lemma CachedAnswerIsServed(cfg: Config, run: Run, j: nat, i: Identity.ReportIdentity, a: bool, turns: seq<Turn>, root: string)
    requires IsRun(cfg, run) && Deliverable.OneWriterAlways(run) && j < |run.states| && Identity.ValidIdentity(i)
    requires Routes.Cached(turns, i, a) && turns[0].db == run.states[j].db
    ensures var files, answer := run.states[j].db.files, Routes.CachedAnswer(turns, i, a);
            var pdf := ArtifactStore.PdfKey(i, answer.accessionNumber);
            && answer.Available? && pdf in files && HasPdfHeader(files[pdf])
            && (ArtifactStore.AccessionOk(answer.accessionNumber) && |ArtifactStore.QuarterSegments(i.quarter)| <= 1 ==>
                  && answer.ref.Some?
                  && ArtifactStore.ResolvePdfPath(root, answer.ref.value) == Result.Ok(ArtifactStore.Physical(root, pdf)))
  {
    hide IsRun, Deliverable.OneWriterAlways, Identity.LogicalKey, Identity.LogicalPath, Identity.ValidIdentity, HasPdfHeader;
    hide ArtifactStore.RefFor, ArtifactStore.ResolvePdfPath, ArtifactStore.Physical, ArtifactStore.QuarterSegments;
    var key := Identity.LogicalKey(Identity.LogicalPath(i), a);
    var pointer, files := run.states[j].db.current[key], run.states[j].db.files;
    Deliverable.PublishedMeansDeliverable(cfg, run, j, key);
    var k: Identity.ReportIdentity, b: bool :|
      && key == Identity.LogicalKey(Identity.LogicalPath(k), b) && Identity.ValidIdentity(k)
      && pointer.artifactPath == ArtifactStore.PdfKey(k, pointer.accessionNumber) && Deliverable.VisiblePdf(files, pointer.artifactPath);
    Identity.KeysEqualExactly(i, a, k, b);
    var accession := pointer.accessionNumber;
    assert ArtifactStore.PdfKey(i, accession) == ArtifactStore.PdfKey(k, accession);
    if ArtifactStore.AccessionOk(accession) {
      ArtifactStore.RefFindsWrittenFile(root, i, accession, "");
      ArtifactStore.KeysAreThePaths(root, i, accession, "");
    }
  }
}
