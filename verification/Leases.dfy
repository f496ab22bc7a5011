/** The stream with its consumer group, over whole runs (app/queue/stream.py): every entry
    is undelivered, pending or inert, an acknowledged entry never comes back, and every
    task in the stream is persisted past ACCEPTED. */
module Leases {
  import opened Store
  import opened Handler
  import Request
  import opened System
  import opened Invariant

  function Undelivered(db: Db): set<EntryId> { set e | e in db.stream && e > db.lastDelivered }

  function Pending(db: Db): set<EntryId> { set e | e in db.stream && e in db.pel }

  /** Acknowledged, and awaiting or missing its XDEL. */
  function Inert(db: Db): set<EntryId> { set e | e in db.stream && e <= db.lastDelivered && e !in db.pel }

  lemma DisjointUnionSize(a: set<EntryId>, b: set<EntryId>, c: set<EntryId>, all: set<EntryId>)
    requires a !! b && a !! c && b !! c && all == a + b + c
    ensures |all| == |a| + |b| + |c|
  {
    assert (a + b) !! c;
  }

  lemma EntriesPartition(db: Db)
    requires StreamOk(db)
    ensures Undelivered(db) !! Pending(db) && Undelivered(db) !! Inert(db) && Pending(db) !! Inert(db)
    ensures db.stream.Keys == Undelivered(db) + Pending(db) + Inert(db) && db.pel.Keys == Pending(db)
  {
  }

  /** A live handler that has not acknowledged its entry holds its lease, alone. */
  ghost predicate LeasesHeld(s: State) {
    && (forall p | p in s.workers && !s.workers[p].pc.Del? :: s.workers[p].entry in Pending(s.db))
    && (forall p, q | p in s.workers && q in s.workers && p != q :: s.workers[p].entry != s.workers[q].entry)
  }

  lemma HoldsLease(s: State, w: Worker)
    requires WorkerOk(s, w) && !w.pc.Del?
    ensures w.entry in Pending(s.db)
  {
  }

  /** Every entry is exactly one of undelivered, pending and inert, XLEN is the sum of the
      three, and each lease is on an entry of the stream. */
  lemma StreamPartition(cfg: Config, run: Run, i: nat)
    requires IsRun(cfg, run) && i < |run.states|
    ensures var db := run.states[i].db;
            && Undelivered(db) !! Pending(db) && Undelivered(db) !! Inert(db) && Pending(db) !! Inert(db)
            && db.stream.Keys == Undelivered(db) + Pending(db) + Inert(db)
            && |db.stream| == |Undelivered(db)| + |Pending(db)| + |Inert(db)|
            && db.pel.Keys == Pending(db) && forall e | e in db.pel :: e <= db.lastDelivered
  {
    hide IsRun, StreamOk, HandlersOk, TasksOk, RequestsOk, Undelivered, Pending, Inert;
    RunInv(cfg, run, i);
    InvFacts(run.states[i]);
    var db := run.states[i].db;
    EntriesPartition(db);
    DisjointUnionSize(Undelivered(db), Pending(db), Inert(db), db.stream.Keys);
  }

  /** Where leases outlast their handlers, a live handler that has not acknowledged its entry holds
      its lease, alone. */
  lemma HandlersHoldLeases(cfg: Config, run: Run, i: nat)
    requires IsRun(cfg, run) && LeasesOutlast(run) && i < |run.states|
    ensures LeasesHeld(run.states[i])
  {
    hide IsRun, LeasesOutlast, Inv, WorkerOk;
    RunLeased(cfg, run, i);
    var s := run.states[i];
    forall p | p in s.workers && !s.workers[p].pc.Del? ensures s.workers[p].entry in Pending(s.db) {
      HoldsLease(s, s.workers[p]);
    }
  }

  predicate Acknowledged(db: Db, e: EntryId) { e <= db.lastDelivered && e !in db.pel }

  lemma StepKeepsAcknowledged(cfg: Config, s: State, step: Step, e: EntryId)
    requires StreamOk(s.db) && Enabled(cfg, s, step) && Acknowledged(s.db, e)
    ensures Acknowledged(Apply(cfg, s, step).db, e)
    ensures !(step.DeliverEntry? && step.entry == e) && !(step.ClaimEntry? && step.entry == e)
  {
    hide Advance, Request.AdvanceRequest, ApplyEffect;
    match step {
      case ApiStep(pid, input) => EffectOnParts(s.db, ApiMove(cfg, s, pid, input).effect);
      case WorkStep(pid, input) => EffectOnParts(s.db, WorkMove(cfg, s, pid, input).effect);
      case _ =>
    }
  }

  /** An acknowledged entry is never delivered or claimed again. */
  lemma {:induction false} AcknowledgedForGood(cfg: Config, run: Run, i: nat, j: nat, e: EntryId)
    requires IsRun(cfg, run) && i <= j < |run.states| && Acknowledged(run.states[i].db, e)
    ensures Acknowledged(run.states[j].db, e)
    ensures j < |run.steps| ==>
              !(run.steps[j].DeliverEntry? && run.steps[j].entry == e)
              && !(run.steps[j].ClaimEntry? && run.steps[j].entry == e)
  {
    hide Apply, Enabled, Acknowledged, StreamOk;
    if i < j {
      AcknowledgedForGood(cfg, run, i, j - 1, e);
      RunInv(cfg, run, j - 1);
      StepKeepsAcknowledged(cfg, run.states[j - 1], run.steps[j - 1], e);
    }
    if j < |run.steps| {
      RunInv(cfg, run, j);
      StepKeepsAcknowledged(cfg, run.states[j], run.steps[j], e);
    }
  }

  // ----- racing claimers ---------------------------------------------------------------------

  /** The entry was handed out at time `since` or later. */
  predicate HandedOut(s: State, e: EntryId, since: int) {
    e <= s.db.lastDelivered && s.now >= since && (e in s.db.pel ==> s.db.pel[e].deliveredAt >= since)
  }

  /** This step hands the entry to a consumer. */
  predicate HandsOut(step: Step, e: EntryId) { (step.DeliverEntry? || step.ClaimEntry?) && step.entry == e }

  lemma StepKeepsHandedOut(cfg: Config, s: State, step: Step, e: EntryId, since: int)
    requires Enabled(cfg, s, step) && HandedOut(s, e, since)
    ensures HandedOut(Apply(cfg, s, step), e, since)
  {
    hide Advance, Request.AdvanceRequest, ApplyEffect;
    match step {
      case ApiStep(pid, input) => EffectOnParts(s.db, ApiMove(cfg, s, pid, input).effect);
      case WorkStep(pid, input) => EffectOnParts(s.db, WorkMove(cfg, s, pid, input).effect);
      case _ =>
    }
  }

  lemma HandingOut(cfg: Config, s: State, step: Step, e: EntryId)
    requires StreamOk(s.db) && Enabled(cfg, s, step) && HandsOut(step, e)
    ensures HandedOut(Apply(cfg, s, step), e, s.now)
    ensures step.ClaimEntry? ==> e in s.db.pel && s.now - s.db.pel[e].deliveredAt >= cfg.minIdle
  {
  }

  lemma {:induction false} StaysHandedOut(cfg: Config, run: Run, i: nat, j: nat, e: EntryId)
    requires IsRun(cfg, run) && i < j < |run.states| && HandsOut(run.steps[i], e)
    ensures HandedOut(run.states[j], e, run.states[i].now)
  {
    hide Apply, Enabled, Inv, HandedOut;
    if i + 1 < j {
      StaysHandedOut(cfg, run, i, j - 1, e);
      StepKeepsHandedOut(cfg, run.states[j - 1], run.steps[j - 1], e, run.states[i].now);
    } else {
      RunInv(cfg, run, i);
      assert StreamOk(run.states[i].db) by { InvFacts(run.states[i]); }
      HandingOut(cfg, run.states[i], run.steps[i], e);
    }
  }

  /** A claim of an entry comes at least the required idle time after any earlier delivery or
      claim of it. */
  lemma HandoversAreApart(cfg: Config, run: Run, i: nat, j: nat, e: EntryId)
    requires IsRun(cfg, run) && i < j < |run.steps|
    requires HandsOut(run.steps[i], e) && HandsOut(run.steps[j], e) && run.steps[j].ClaimEntry?
    ensures run.states[j].now - run.states[i].now >= cfg.minIdle
  {
    hide Apply, Enabled, Inv;
    StaysHandedOut(cfg, run, i, j, e);
    RunInv(cfg, run, j);
    assert StreamOk(run.states[j].db) by { InvFacts(run.states[j]); }
    HandingOut(cfg, run.states[j], run.steps[j], e);
  }

  /** So with a positive idle time two claimers never both obtain an entry at the same instant. */
  lemma RacingClaimers(cfg: Config, run: Run, i: nat, j: nat, e: EntryId)
    requires IsRun(cfg, run) && i < j < |run.steps| && cfg.minIdle > 0
    requires run.steps[i].ClaimEntry? && run.steps[i].entry == e && run.steps[j].ClaimEntry? && run.steps[j].entry == e
    ensures run.states[i].now < run.states[j].now
  {
    hide IsRun;
    HandoversAreApart(cfg, run, i, j, e);
  }

  /** And exactly then: an entry just claimed can be claimed again at that instant if and only if the
      required idle time is not positive, whether or not its claimer lives. */
  lemma ClaimedAgainAtOnce(cfg: Config, s: State, e: EntryId, first: Consumer, second: Consumer)
    requires Inv(s) && Enabled(cfg, s, ClaimEntry(e, first))
    ensures Enabled(cfg, Apply(cfg, s, ClaimEntry(e, first)), ClaimEntry(e, second)) <==> cfg.minIdle <= 0
  {
  }

  // ----- persist before publish -----------------------------------------------------------

  /** Published: past its request, and persisted past ACCEPTED. */
  ghost predicate Settled(s: State, t: TaskId) {
    && Persisted(s.db, t) && t < s.nextTask
    && forall p | p in s.requests :: s.requests[p].id != t
  }

  lemma StreamIsSettled(s: State, e: EntryId)
    requires Inv(s) && e in s.db.stream
    ensures Settled(s, s.db.stream[e])
  {
    assert forall p | p in s.requests :: RequestOk(s, s.requests[p]);
  }

  lemma WorkKeepsSettled(cfg: Config, s: State, pid: Pid, input: Input, t: TaskId)
    requires Inv(s) && pid in s.workers && Settled(s, t)
    ensures Settled(ApplyWork(s, pid, WorkMove(cfg, s, pid, input)), t)
  {
    hide Advance, StreamOk, WorkersOk, RequestsOk, ApplyEffect, WorkShape, LocalOk, Persisted;
    assert LocalOk(s.workers[pid].pc);
    WorkFacts(cfg, s, pid, input);
    WorkKeepsPersisted(s, pid, WorkMove(cfg, s, pid, input), t);
  }

  lemma ApiKeepsSettled(cfg: Config, s: State, pid: Pid, input: Input, t: TaskId)
    requires pid in s.requests && Settled(s, t)
    ensures Settled(ApplyApi(s, pid, ApiMove(cfg, s, pid, input)), t)
  {
    hide Request.AdvanceRequest, ApplyEffect, ApiShape, Persisted;
    ApiHasShape(cfg, s.db, s.requests[pid], input);
    ApiKeepsPersisted(s, pid, ApiMove(cfg, s, pid, input), t);
  }

  lemma StepKeepsSettled(cfg: Config, s: State, step: Step, t: TaskId)
    requires Inv(s) && Enabled(cfg, s, step) && Settled(s, t)
    ensures Settled(Apply(cfg, s, step), t)
  {
    hide Inv, WorkMove, Request.AdvanceRequest, ApplyWork, ApplyApi;
    match step {
      case ApiStep(pid, input) => ApiKeepsSettled(cfg, s, pid, input, t);
      case WorkStep(pid, input) => WorkKeepsSettled(cfg, s, pid, input, t);
      case _ =>
    }
  }

  lemma {:induction false} StaysSettled(cfg: Config, run: Run, i: nat, j: nat, t: TaskId)
    requires IsRun(cfg, run) && i <= j < |run.states| && Settled(run.states[i], t)
    ensures Settled(run.states[j], t)
  {
    hide Apply, Enabled, Settled, Inv;
    if i < j {
      StaysSettled(cfg, run, i, j - 1, t);
      RunInv(cfg, run, j - 1);
      StepKeepsSettled(cfg, run.states[j - 1], run.steps[j - 1], t);
    }
  }

  /** Every task id in the stream has a persisted record that is not ACCEPTED, then and
      ever after. */
  lemma PersistedBeforePublished(cfg: Config, run: Run, i: nat, j: nat, e: EntryId)
    requires IsRun(cfg, run) && i <= j < |run.states| && e in run.states[i].db.stream
    ensures Persisted(run.states[j].db, run.states[i].db.stream[e])
  {
    hide IsRun, Inv;
    RunInv(cfg, run, i);
    StreamIsSettled(run.states[i], e);
    StaysSettled(cfg, run, i, j, run.states[i].db.stream[e]);
  }
}
