/** Admission control over whole runs (app/queue/stream.py `enqueue`, `depth`): how far
    concurrent producers can overshoot the maximum queue depth. */
module Admission {
  import Identity
  import Sets
  import opened Store
  import opened Handler
  import opened Request
  import opened System
  import Invariant

  /** Producers that have passed the depth check and not yet appended. */
  function InFlight(s: State): set<Pid> {
    (set p | p in s.workers && s.workers[p].pc.Enqueue?) + (set p | p in s.requests && s.requests[p].pc.Append?)
  }

  /** Producers: requests and worker re-enqueues inside `enqueue`. */
  function Producers(s: State): set<Pid> {
    (set p | p in s.workers && (s.workers[p].pc.CheckDepth? || s.workers[p].pc.Enqueue?))
    + (set p | p in s.requests && (s.requests[p].pc.AdmitDepth? || s.requests[p].pc.Append?))
  }

  /** XLEN answers a depth check with an error reply while the queue is full. */
  predicate BlindCheck(cfg: Config, s: State, step: Step) {
    && |s.db.stream| >= cfg.maxDepth
    && ((step.WorkStep? && step.input.XlenError? && step.pid in s.workers && s.workers[step.pid].pc.CheckDepth?)
        || (step.ApiStep? && step.input.XlenError? && step.pid in s.requests && s.requests[step.pid].pc.AdmitDepth?))
  }

  /** How many of the first `n` steps were blind checks. */
  ghost function BlindChecks(cfg: Config, run: Run, n: nat): nat
    requires n <= |run.steps| && n < |run.states|
  {
    if n == 0 then 0
    else BlindChecks(cfg, run, n - 1) + if BlindCheck(cfg, run.states[n - 1], run.steps[n - 1]) then 1 else 0
  }

  // ----- one step ------------------------------------------------------------------------

  /** One more producer passes the check, at a depth below the maximum unless blindly. */
  ghost predicate Admits(cfg: Config, s: State, s': State, blind: bool) {
    && (exists p: Pid :: InFlight(s') == InFlight(s) + {p})
    && s'.db.stream == s.db.stream && (|s.db.stream| < cfg.maxDepth || blind)
  }

  /** A producer that had passed the check appends, or fails to. */
  ghost predicate AppendsOne(s: State, s': State) {
    && (exists p: Pid :: p in InFlight(s) && InFlight(s') == InFlight(s) - {p})
    && |s'.db.stream| <= |s.db.stream| + 1
  }

  ghost predicate Shrinks(s: State, s': State) {
    InFlight(s') <= InFlight(s) && s'.db.stream.Keys <= s.db.stream.Keys
  }

  ghost predicate Flows(cfg: Config, s: State, s': State, blind: bool) {
    Admits(cfg, s, s', blind) || AppendsOne(s, s') || Shrinks(s, s')
  }

  predicate WorkFlow(cfg: Config, db: Db, w: Worker, input: Input, m: Move<Pc>) {
    && (m.effect.AppendEntry? ==> w.pc.Enqueue?)
    && (m.next.Some? && m.next.value.Enqueue? ==> w.pc.CheckDepth? && m.effect.NoEffect? && DepthAdmits(cfg, db, input))
  }

  lemma WorkFlows(cfg: Config, db: Db, w: Worker, input: Input)
    ensures WorkFlow(cfg, db, w, input, Advance(cfg, db, w.tid, w.entry, w.pc, input))
  {
    hide AdvanceProcessing, AdvanceSuccess, AdvanceRecovery, DepthAdmits;
  }

  predicate ApiFlow(cfg: Config, db: Db, r: Request, input: Input, m: Move<RequestPc>) {
    && (m.effect.AppendEntry? ==> r.pc.Append?)
    && (r.pc.Append? ==> m.next.None?)
    && (m.next.Some? && m.next.value.Append? ==> r.pc.AdmitDepth? && m.effect.NoEffect? && DepthAdmits(cfg, db, input))
  }

  lemma ApiFlows(cfg: Config, db: Db, r: Request, input: Input)
    ensures ApiFlow(cfg, db, r, input, AdvanceRequest(cfg, db, r, input))
  {
    hide RequestKey, RequestTask, DepthAdmits, Identity.LogicalKey, Identity.LogicalPath;
  }

  lemma EffectOnStream(db: Db, e: Effect)
    ensures if e.AppendEntry? then |ApplyEffect(db, e).stream| <= |db.stream| + 1
            else ApplyEffect(db, e).stream.Keys <= db.stream.Keys
    ensures e.NoEffect? ==> ApplyEffect(db, e) == db
  {
  }

  lemma WorkStepFlows(cfg: Config, s: State, pid: Pid, input: Input, m: Move<Pc>)
    requires Disjoint(s) && pid in s.workers && WorkFlow(cfg, s.db, s.workers[pid], input, m)
    ensures Flows(cfg, s, ApplyWork(s, pid, m), BlindCheck(cfg, s, WorkStep(pid, input)))
  {
    hide ApplyEffect;
    var s', w := ApplyWork(s, pid, m), s.workers[pid];
    EffectOnStream(s.db, m.effect);
    if m.next.Some? && m.next.value.Enqueue? {
      assert InFlight(s') == InFlight(s) + {pid};
    } else if m.effect.AppendEntry? {
      assert InFlight(s') == InFlight(s) - {pid};
    }
  }

  lemma ApiStepFlows(cfg: Config, s: State, pid: Pid, input: Input, m: Move<RequestPc>)
    requires Disjoint(s) && pid in s.requests && ApiFlow(cfg, s.db, s.requests[pid], input, m)
    ensures Flows(cfg, s, ApplyApi(s, pid, m), BlindCheck(cfg, s, ApiStep(pid, input)))
  {
    hide ApplyEffect;
    var s', r := ApplyApi(s, pid, m), s.requests[pid];
    EffectOnStream(s.db, m.effect);
    if m.next.Some? && m.next.value.Append? {
      assert InFlight(s') == InFlight(s) + {pid};
    } else if m.effect.AppendEntry? {
      assert InFlight(s') == InFlight(s) - {pid};
    }
  }

  ghost predicate Disjoint(s: State) {
    s.workers.Keys !! s.requests.Keys && s.nextPid !in s.workers && s.nextPid !in s.requests
  }

  lemma OtherStepFlows(cfg: Config, s: State, step: Step)
    requires Disjoint(s) && Enabled(cfg, s, step) && !step.ApiStep? && !step.WorkStep?
    ensures Shrinks(s, Apply(cfg, s, step))
  {
  }

  lemma StepFlows(cfg: Config, s: State, step: Step)
    requires Inv(s) && Enabled(cfg, s, step)
    ensures Flows(cfg, s, Apply(cfg, s, step), BlindCheck(cfg, s, step))
  {
    hide Inv, Advance, AdvanceRequest, ApplyWork, ApplyApi, StartWorker, BlindCheck, Admits, AppendsOne, Shrinks, WorkFlow, ApiFlow;
    Invariant.InvFacts(s);
    match step {
      case ApiStep(pid, input) =>
        ApiFlows(cfg, s.db, s.requests[pid], input);
        ApiStepFlows(cfg, s, pid, input, ApiMove(cfg, s, pid, input));
      case WorkStep(pid, input) =>
        WorkFlows(cfg, s.db, s.workers[pid], input);
        WorkStepFlows(cfg, s, pid, input, WorkMove(cfg, s, pid, input));
      case _ => OtherStepFlows(cfg, s, step);
    }
  }

  lemma FlowBound(cfg: Config, s: State, s': State, blind: bool, bound: int)
    requires Flows(cfg, s, s', blind) && |s.db.stream| + |InFlight(s)| <= bound
    requires |s.db.stream| < cfg.maxDepth ==> |s.db.stream| + |InFlight(s')| <= bound
    ensures |s'.db.stream| + |InFlight(s')| <= if blind then bound + 1 else bound
  {
    if Shrinks(s, s') {
      Sets.SubsetSize(InFlight(s'), InFlight(s));
      Sets.SubsetSize(s'.db.stream.Keys, s.db.stream.Keys);
      assert |s'.db.stream| == |s'.db.stream.Keys| && |s.db.stream| == |s.db.stream.Keys|;
    } else if AppendsOne(s, s') {
      var p :| p in InFlight(s) && InFlight(s') == InFlight(s) - {p};
    } else {
      var p :| InFlight(s') == InFlight(s) + {p};
    }
  }

  // ----- whole runs ------------------------------------------------------------------------

  ghost predicate AtMostProducers(run: Run, limit: nat) {
    forall i | 0 <= i < |run.states| :: |Producers(run.states[i])| <= limit
  }

  lemma InFlightAreProducers(s: State)
    ensures |InFlight(s)| <= |Producers(s)|
  {
    Sets.SubsetSize(InFlight(s), Producers(s));
  }

  /** With at most `producers` concurrent producers, the stream and the producers between
      depth check and XADD together exceed the maximum depth by less than `producers`, and
      by one more for each depth check an error reply let through at a full queue. */
  lemma {:induction false} OvershootBound(cfg: Config, run: Run, n: nat, producers: nat)
    requires IsRun(cfg, run) && n < |run.states|
    requires cfg.maxDepth >= 0 && producers >= 1 && AtMostProducers(run, producers)
    ensures |run.states[n].db.stream| + |InFlight(run.states[n])| <= cfg.maxDepth + producers - 1 + BlindChecks(cfg, run, n)
  {
    hide Apply, Enabled, BlindCheck, Inv, InFlight, Producers, Flows;
    if n > 0 {
      var s, s' := run.states[n - 1], run.states[n];
      OvershootBound(cfg, run, n - 1, producers);
      Invariant.RunInv(cfg, run, n - 1);
      StepFlows(cfg, s, run.steps[n - 1]);
      InFlightAreProducers(s');
      FlowBound(cfg, s, s', BlindCheck(cfg, s, run.steps[n - 1]),
                cfg.maxDepth + producers - 1 + BlindChecks(cfg, run, n - 1));
    } else {
      NothingInFlight();
    }
  }

  lemma NothingInFlight()
    ensures InFlight(INITIAL) == {} && INITIAL.db.stream == map[]
  {
  }

  /** At a full queue the depth check admits exactly when XLEN answers with an error reply
      and some depth is allowed at all. */
  lemma FullQueueAdmits(cfg: Config, db: Db, input: Input)
    requires |db.stream| >= cfg.maxDepth
    ensures DepthAdmits(cfg, db, input) <==> input.XlenError? && cfg.maxDepth > 0
  {
  }

  /** A blind check takes the stream and the producers past the check beyond the maximum. */
  lemma BlindCheckOvershoots(cfg: Config, s: State, step: Step)
    requires Enabled(cfg, s, step) && cfg.maxDepth >= 1 && BlindCheck(cfg, s, step)
    ensures var s' := Apply(cfg, s, step); |s'.db.stream| + |InFlight(s')| > cfg.maxDepth
  {
    FullQueueAdmits(cfg, s.db, step.input);
    var s' := Apply(cfg, s, step);
    assert step.pid in InFlight(s') && s'.db == s.db;
    Sets.SubsetSize({step.pid}, InFlight(s'));
  }

  lemma {:induction false} SomeBlindCheck(cfg: Config, run: Run, n: nat) returns (k: nat)
    requires n <= |run.steps| && n < |run.states| && BlindChecks(cfg, run, n) > 0
    ensures k < n && BlindCheck(cfg, run.states[k], run.steps[k])
  {
    hide BlindCheck;
    k := n - 1;
    if !BlindCheck(cfg, run.states[k], run.steps[k]) {
      k := SomeBlindCheck(cfg, run, n - 1);
    }
  }

  /** With one producer at a time the maximum depth holds, for the stream and the producers past the
      check together, exactly as long as no depth check is answered blindly. */
  lemma OneProducerIsExact(cfg: Config, run: Run, n: nat)
    requires IsRun(cfg, run) && n < |run.states| && cfg.maxDepth >= 1 && AtMostProducers(run, 1)
    ensures (forall k | 0 <= k <= n :: |run.states[k].db.stream| + |InFlight(run.states[k])| <= cfg.maxDepth)
       <==> BlindChecks(cfg, run, n) == 0
  {
    hide Apply, Enabled, BlindCheck, InFlight, AtMostProducers;
    if BlindChecks(cfg, run, n) == 0 {
      forall k | 0 <= k <= n ensures |run.states[k].db.stream| + |InFlight(run.states[k])| <= cfg.maxDepth {
        FewerBlindChecks(cfg, run, k, n);
        OvershootBound(cfg, run, k, 1);
      }
    } else {
      var k := SomeBlindCheck(cfg, run, n);
      BlindCheckOvershoots(cfg, run.states[k], run.steps[k]);
      assert run.states[k + 1] == Apply(cfg, run.states[k], run.steps[k]);
    }
  }

  lemma {:induction false} FewerBlindChecks(cfg: Config, run: Run, k: nat, n: nat)
    requires k <= n <= |run.steps| && n < |run.states|
    ensures BlindChecks(cfg, run, k) <= BlindChecks(cfg, run, n)
  {
    if k < n {
      FewerBlindChecks(cfg, run, k, n - 1);
    }
  }
}
