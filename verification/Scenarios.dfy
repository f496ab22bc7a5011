/** Runs that show what two of the guarantees depend on: deduplication on creating a task in
    one step, and the bound on the queue on XLEN answering. */
module Scenarios {
  import Sets
  import opened Identity
  import Reports
  import opened Store
  import opened Handler
  import opened Request
  import opened System
  import opened Dedup
  import opened Admission

  function Last(run: Run): State {
    if run.states == [] then INITIAL else run.states[|run.states| - 1]
  }

  const START := Run([INITIAL], [])

  /** No step of the run removes the key's pointer, and at no time is there more than one producer. */
  ghost predicate Calm(cfg: Config, run: Run, key: string) {
    && IsRun(cfg, run)
    && (forall i | 0 <= i < |run.steps| :: !RemovesAt(run.states[i], run.states[i + 1], key))
    && AtMostProducers(run, 1)
  }

  lemma Extend(cfg: Config, run: Run, step: Step, key: string) returns (run': Run)
    requires Calm(cfg, run, key) && Enabled(cfg, Last(run), step)
    requires var s' := Apply(cfg, Last(run), step); !RemovesAt(Last(run), s', key) && |Producers(s')| <= 1
    ensures Calm(cfg, run', key) && Last(run') == Apply(cfg, Last(run), step)
  {
    hide Apply, Enabled, RemovesAt, Producers;
    run' := Run(run.states + [Apply(cfg, Last(run), step)], run.steps + [step]);
    forall i | 0 <= i < |run'.steps|
      ensures Enabled(cfg, run'.states[i], run'.steps[i])
      ensures run'.states[i + 1] == Apply(cfg, run'.states[i], run'.steps[i])
      ensures !RemovesAt(run'.states[i], run'.states[i + 1], key)
    {
      assert i < |run.steps| ==> run'.states[i] == run.states[i] && run'.states[i + 1] == run.states[i + 1];
    }
    forall i | 0 <= i < |run'.states| ensures |Producers(run'.states[i])| <= 1 {
      assert i < |run.states| ==> run'.states[i] == run.states[i];
    }
  }

  /** One more step of a request, which leaves at most one producer. */
  lemma ExtendApi(cfg: Config, run: Run, pid: Pid, input: Input, key: string) returns (run': Run)
    requires Calm(cfg, run, key) && Last(run).workers == map[] && pid in Last(run).requests
    requires var m := ApiMove(cfg, Last(run), pid, input);
             && !m.effect.DropPending?
             && forall p | p in Last(run).requests && p != pid :: !Last(run).requests[p].pc.AdmitDepth? && !Last(run).requests[p].pc.Append?
    ensures Calm(cfg, run', key) && Last(run') == ApplyApi(Last(run), pid, ApiMove(cfg, Last(run), pid, input))
  {
    hide AdvanceRequest, Producers, Calm, ApplyEffect;
    if key in Last(run).db.pending {
      EffectKeepsPending(Last(run).db, ApiMove(cfg, Last(run), pid, input).effect, key);
    }
    var s' := ApplyApi(Last(run), pid, ApiMove(cfg, Last(run), pid, input));
    assert |Producers(s')| <= 1 by { OneProducer(s', pid); }
    run' := Extend(cfg, run, ApiStep(pid, input), key);
  }

  lemma EffectKeepsPending(db: Db, e: Effect, key: string)
    requires !e.DropPending? && key in db.pending
    ensures key in ApplyEffect(db, e).pending
  {
  }

  lemma OneProducer(s: State, pid: Pid)
    requires s.workers == map[]
    requires forall p | p in s.requests && p != pid :: !s.requests[p].pc.AdmitDepth? && !s.requests[p].pc.Append?
    ensures |Producers(s)| <= 1
  {
    assert Producers(s) <= {pid};
    Sets.SubsetSize(Producers(s), {pid});
  }

  lemma CalmFacts(cfg: Config, run: Run, key: string)
    requires Calm(cfg, run, key)
    ensures IsRun(cfg, run) && AtMostProducers(run, 1)
    ensures forall n | 0 <= n < |run.steps| :: !RemovesAt(run.states[n], run.states[n + 1], key)
  {
  }

  /** Two requests for one logical path arrive, the second one asking for policy `b`. */
  lemma TwoArrive(cfg: Config, i: ReportIdentity, a: bool, b: bool, key: string) returns (run: Run)
    requires ValidIdentity(i)
    ensures Calm(cfg, run, key)
    ensures var s := Last(run);
            && s.db == EMPTY_DB && s.workers == map[]
            && s.requests == map[0 := Request(i, a, 0, Lookup), 1 := Request(i, b, 1, Lookup)]
  {
    hide ValidIdentity;
    run := START;
    OneProducer(INITIAL, 0);
    var s1 := Apply(cfg, INITIAL, Arrive(i, a));
    OneProducer(s1, 0);
    run := Extend(cfg, run, Arrive(i, a), key);
    OneProducer(Apply(cfg, s1, Arrive(i, b)), 0);
    run := Extend(cfg, run, Arrive(i, b), key);
  }

  /** Two requests for one report, at these points. */
  ghost predicate Both(run: Run, i: ReportIdentity, a: bool, first: RequestPc, second: RequestPc) {
    && Last(run).workers == map[]
    && Last(run).requests == map[0 := Request(i, a, 0, first), 1 := Request(i, a, 1, second)]
  }

  /** The first request sets the pointer; its task is not saved yet. */
  lemma FirstReserves(cfg: Config, i: ReportIdentity, a: bool, key: string) returns (run: Run)
    requires ValidIdentity(i) && key == PendingKey(LogicalPath(i), a)
    ensures Calm(cfg, run, key) && Both(run, i, a, SaveAccepted, Lookup) && Last(run).db == EMPTY_DB.(pending := map[key := 0])
  {
    hide LogicalPath, PendingKey, LogicalKey, Calm, ValidIdentity;
    run := TwoArrive(cfg, i, a, a, key);
    run := ExtendApi(cfg, run, 0, Input.Ok, key);
    assert Both(run, i, a, Reserve, Lookup);
    run := ExtendApi(cfg, run, 0, Input.Ok, key);
  }

  /** The second finds the pointer, but no task behind it. */
  lemma SecondFindsNoTask(cfg: Config, run: Run, i: ReportIdentity, a: bool, key: string) returns (run': Run)
    requires key == PendingKey(LogicalPath(i), a)
    requires Calm(cfg, run, key) && Both(run, i, a, SaveAccepted, Lookup) && Last(run).db == EMPTY_DB.(pending := map[key := 0])
    ensures Calm(cfg, run', key) && Both(run', i, a, SaveAccepted, Reclaim) && Last(run').db == Last(run).db
  {
    hide LogicalPath, PendingKey, LogicalKey, Calm;
    run' := ExtendApi(cfg, run, 1, Input.Ok, key);
    assert Both(run', i, a, SaveAccepted, Reserve);
    run' := ExtendApi(cfg, run', 1, Input.Ok, key);
    assert Both(run', i, a, SaveAccepted, ReadPending);
    run' := ExtendApi(cfg, run', 1, Input.Ok, key);
    assert Both(run', i, a, SaveAccepted, ReadExisting(0));
    run' := ExtendApi(cfg, run', 1, Input.Ok, key);
  }

  /** Both save their tasks. */
  lemma BothSave(cfg: Config, run: Run, i: ReportIdentity, a: bool, key: string) returns (run': Run)
    requires Calm(cfg, run, key) && Both(run, i, a, SaveAccepted, Reclaim) && Last(run).db.tasks == map[]
    ensures Calm(cfg, run', key) && Last(run').db.tasks == map[1 := Reports.NewTask(i, a), 0 := Reports.NewTask(i, a)]
  {
    hide LogicalPath, PendingKey, LogicalKey, Calm;
    run' := ExtendApi(cfg, run, 1, Input.Ok, key);
    assert Both(run', i, a, SaveAccepted, SaveAccepted);
    run' := ExtendApi(cfg, run', 1, Input.Ok, key);
    assert Both(run', i, a, SaveAccepted, CheckCapacity) && Last(run').db.tasks == map[1 := Reports.NewTask(i, a)];
    run' := ExtendApi(cfg, run', 0, Input.Ok, key);
  }

  /** When the commands of `get_or_create_task` are separate, two requests for one report can
      each create a task although the pending pointer is never removed: the second arrives
      between the first one's SET NX and its save. */
  lemma TwoTasksForOneKey(cfg: Config, i: ReportIdentity, a: bool) returns (run: Run)
    requires ValidIdentity(i)
    ensures IsRun(cfg, run)
    ensures var key, tasks := PendingKey(LogicalPath(i), a), Last(run).db.tasks;
            && (forall n | 0 <= n < |run.steps| :: !RemovesAt(run.states[n], run.states[n + 1], key))
            && 0 in tasks && 1 in tasks && TaskPendingKey(tasks[0]) == key == TaskPendingKey(tasks[1])
  {
    hide LogicalPath, PendingKey, Calm, ValidIdentity, IsRun, RemovesAt;
    var key := PendingKey(LogicalPath(i), a);
    run := FirstReserves(cfg, i, a, key);
    run := SecondFindsNoTask(cfg, run, i, a, key);
    run := BothSave(cfg, run, i, a, key);
    CalmFacts(cfg, run, key);
  }

  /** Every depth check of the request is answered by `input`, and admits. */
  predicate Admitted(cfg: Config, s: State, input: Input) {
    DepthAdmits(cfg, s.db, input) && (input.Ok? || input.XlenError?)
  }

  /** Everything but this request stays put. */
  ghost predicate Only(s: State, s': State, pid: Pid, pc: RequestPc)
    requires pid in s.requests
  {
    && s'.workers == map[] && s'.requests == s.requests[pid := s.requests[pid].(pc := pc)]
    && s'.db.stream == s.db.stream && s'.db.nextEntry == s.db.nextEntry && s'.db.current == map[]
  }

  ghost predicate Ready(cfg: Config, run: Run, pid: Pid, input: Input, key: string) {
    && Calm(cfg, run, key) && Last(run).workers == map[] && pid in Last(run).requests
    && (forall p | p in Last(run).requests :: Last(run).requests[p].pc.Lookup?)
    && RequestKey(Last(run).requests[pid]) !in Last(run).db.pending && Last(run).db.current == map[]
    && Admitted(cfg, Last(run), input)
  }

  /** A request with a free key creates its task. */
  lemma CreatesTask(cfg: Config, run: Run, pid: Pid, input: Input, key: string) returns (run': Run)
    requires Ready(cfg, run, pid, input, key)
    ensures Calm(cfg, run', key) && Only(Last(run), Last(run'), pid, CheckCapacity)
    ensures Last(run').db.pending == Last(run).db.pending[RequestKey(Last(run).requests[pid]) := Last(run).requests[pid].id]
  {
    hide LogicalPath, PendingKey, LogicalKey, Calm, DepthAdmits;
    var s := Last(run);
    run' := ExtendApi(cfg, run, pid, Input.Ok, key);
    assert Only(s, Last(run'), pid, Reserve) && Last(run').db == s.db;
    run' := ExtendApi(cfg, run', pid, Atomically, key);
  }

  /** And it finds capacity. */
  lemma CreatesAndPersists(cfg: Config, run: Run, pid: Pid, input: Input, key: string) returns (run': Run)
    requires Ready(cfg, run, pid, input, key)
    ensures Calm(cfg, run', key) && Only(Last(run), Last(run'), pid, AdmitDepth)
    ensures Last(run').db.pending == Last(run).db.pending[RequestKey(Last(run).requests[pid]) := Last(run).requests[pid].id]
  {
    hide LogicalPath, PendingKey, LogicalKey, Calm, DepthAdmits;
    var s := Last(run);
    run' := CreatesTask(cfg, run, pid, input, key);
    SameDepth(cfg, s, Last(run'), input);
    run' := ExtendApi(cfg, run', pid, input, key);
    assert Only(s, Last(run'), pid, PersistQueued);
    run' := ExtendApi(cfg, run', pid, Input.Ok, key);
  }

  /** And it appends its task. */
  lemma GoesThrough(cfg: Config, run: Run, pid: Pid, input: Input, key: string) returns (run': Run)
    requires Ready(cfg, run, pid, input, key)
    ensures Calm(cfg, run', key)
    ensures var s, s', r := Last(run), Last(run'), Last(run).requests[pid];
            && s'.workers == map[] && s'.requests == s.requests - {pid}
            && s'.db.stream == s.db.stream[s.db.nextEntry := r.id] && s'.db.nextEntry == s.db.nextEntry + 1
            && s'.db.pending == s.db.pending[RequestKey(r) := r.id] && s'.db.current == map[]
  {
    hide LogicalPath, PendingKey, LogicalKey, Calm, DepthAdmits;
    var s := Last(run);
    run' := CreatesAndPersists(cfg, run, pid, input, key);
    SameDepth(cfg, s, Last(run'), input);
    run' := ExtendApi(cfg, run', pid, input, key);
    assert Only(s, Last(run'), pid, RequestPc.Append);
    run' := ExtendApi(cfg, run', pid, Input.Ok, key);
  }

  lemma SameDepth(cfg: Config, s: State, s': State, input: Input)
    requires s'.db.stream == s.db.stream
    ensures DepthAdmits(cfg, s'.db, input) <==> DepthAdmits(cfg, s.db, input)
  {
  }

  /** One producer at a time and a maximum depth of 1, and still two entries: XLEN answered
      the second request's depth checks with an error reply. */
  lemma BlindChecksOvershoot(cfg: Config, i: ReportIdentity) returns (run: Run)
    requires ValidIdentity(i) && cfg.maxDepth == 1
    ensures IsRun(cfg, run) && AtMostProducers(run, 1) && |Last(run).db.stream| == 2
  {
    hide LogicalPath, Calm, ValidIdentity, PendingKey;
    var key := "";
    run := TwoArrive(cfg, i, false, true, key);
    PolicyMatters(LogicalPath(i));
    run := GoesThrough(cfg, run, 0, Input.Ok, key);
    run := GoesThrough(cfg, run, 1, XlenError, key);
    CalmFacts(cfg, run, key);
  }

  lemma PolicyMatters(path: string)
    ensures PendingKey(path, false) != PendingKey(path, true)
  {
    assert |PendingKey(path, false)| < |PendingKey(path, true)|;
  }
}
