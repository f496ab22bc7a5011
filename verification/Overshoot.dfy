/** The overshoot bound of `Admission` is attained: runs that fill the stream to it, for every maximum
    depth, number of concurrent producers and number of blind depth checks. */
module Overshoot {
  import opened Wrappers
  import Sets
  import opened Identity
  import opened Store
  import opened Handler
  import opened Request
  import opened System
  import opened Admission
  import Invariant
  import opened Scenarios

  /** A run with at most `producers` producers at a time and `blind` blind checks in all. */
  ghost predicate Within(cfg: Config, run: Run, producers: nat, blind: nat) {
    IsRun(cfg, run) && AtMostProducers(run, producers) && BlindChecks(cfg, run, |run.steps|) == blind
  }

  lemma {:induction false} SamePrefix(cfg: Config, run: Run, run': Run, n: nat)
    requires n <= |run.steps| <= |run'.steps| && n < |run.states| <= |run'.states|
    requires run'.steps[..|run.steps|] == run.steps && run'.states[..|run.states|] == run.states
    ensures BlindChecks(cfg, run', n) == BlindChecks(cfg, run, n)
  {
    hide BlindCheck;
    if n > 0 {
      SamePrefix(cfg, run, run', n - 1);
      assert run'.steps[n - 1] == run'.steps[..|run.steps|][n - 1] && run'.states[n - 1] == run'.states[..|run.states|][n - 1];
    }
  }

  /** Without handlers only requests produce. */
  lemma RequestsProduce(s: State)
    requires s.workers == map[]
    ensures |Producers(s)| <= |s.requests|
  {
    assert Producers(s) <= s.requests.Keys;
    Sets.SubsetSize(Producers(s), s.requests.Keys);
    assert |s.requests.Keys| == |s.requests|;
  }

  lemma Grow(cfg: Config, run: Run, step: Step, producers: nat, blind: nat) returns (run': Run)
    requires Within(cfg, run, producers, blind) && Enabled(cfg, Last(run), step)
    requires var s' := Apply(cfg, Last(run), step); s'.workers == map[] && |s'.requests| <= producers
    ensures Within(cfg, run', producers, blind + if BlindCheck(cfg, Last(run), step) then 1 else 0)
    ensures Last(run') == Apply(cfg, Last(run), step)
  {
    hide Apply, Enabled, BlindCheck, Producers;
    run' := Run(run.states + [Apply(cfg, Last(run), step)], run.steps + [step]);
    RequestsProduce(Apply(cfg, Last(run), step));
    forall i | 0 <= i < |run'.steps|
      ensures Enabled(cfg, run'.states[i], run'.steps[i])
      ensures run'.states[i + 1] == Apply(cfg, run'.states[i], run'.steps[i])
    {
      assert i < |run.steps| ==> run'.states[i] == run.states[i] && run'.states[i + 1] == run.states[i + 1];
    }
    forall i | 0 <= i < |run'.states| ensures |Producers(run'.states[i])| <= producers {
      assert i < |run.states| ==> run'.states[i] == run.states[i];
    }
    SamePrefix(cfg, run, run', |run.steps|);
  }

  /** No handlers, `depth` entries, and `waiting` requests that have passed the depth check. */
  ghost predicate Lobby(s: State, depth: nat, waiting: nat) {
    && s.workers == map[] && |s.db.stream| == depth && |s.requests| == waiting
    && (forall p | p in s.requests :: s.requests[p].pc.Append? && p < s.nextPid)
    && s.db.pending == map[] && s.db.current == map[] && s.db.nextEntry !in s.db.stream
  }

  /** The state with a request added, which is at `pc`. */
  ghost predicate Joining(s: State, s': State, r: Request) {
    && s'.workers == map[] && s'.requests == s.requests[s.nextPid := r] && s'.nextPid == s.nextPid + 1
    && s'.db.stream == s.db.stream && s'.db.nextEntry == s.db.nextEntry && s'.db.current == s.db.current
  }

  lemma JoiningSize(s: State, s': State, r: Request)
    requires Joining(s, s', r) && forall p | p in s.requests :: p < s.nextPid
    ensures |s'.requests| == |s.requests| + 1
  {
    assert s'.requests.Keys == s.requests.Keys + {s.nextPid};
    assert |s'.requests.Keys| == |s'.requests| && |s.requests.Keys| == |s.requests|;
  }

  /** One more operation of the request that is joining. */
  lemma JoinStep(cfg: Config, run: Run, s: State, r: Request, input: Input, producers: nat, blind: nat) returns (run': Run)
    requires Within(cfg, run, producers, blind) && Joining(s, Last(run), r) && |s.requests| < producers
    requires forall p | p in s.requests :: p < s.nextPid
    requires var m := AdvanceRequest(cfg, Last(run).db, r, input); m.next.Some?
    ensures var m := AdvanceRequest(cfg, Last(run).db, r, input);
            && Within(cfg, run', producers, blind + if BlindCheck(cfg, Last(run), ApiStep(s.nextPid, input)) then 1 else 0)
            && Joining(s, Last(run'), r.(pc := m.next.value)) && Last(run').db == ApplyEffect(Last(run).db, m.effect)
  {
    hide AdvanceRequest, Within, BlindCheck;
    var m := AdvanceRequest(cfg, Last(run).db, r, input);
    var s' := ApplyApi(Last(run), s.nextPid, m);
    ApiHasShape(cfg, Last(run).db, r, input);
    EffectOnParts(Last(run).db, m.effect);
    assert Joining(s, s', r.(pc := m.next.value)) by { hide ApplyEffect; }
    JoiningSize(s, s', r.(pc := m.next.value));
    hide Joining, ApplyEffect;
    run' := Grow(cfg, run, ApiStep(s.nextPid, input), producers, blind);
  }

  /** A request arrives and creates its task; its pending pointer expires. */
  lemma Arrives(cfg: Config, run: Run, i: ReportIdentity, producers: nat, blind: nat) returns (run': Run)
    requires ValidIdentity(i) && Within(cfg, run, producers, blind) && Lobby(Last(run), |Last(run).db.stream|, |Last(run).requests|)
    requires |Last(run).requests| < producers
    ensures Within(cfg, run', producers, blind) && Last(run').db.pending == map[]
    ensures var s := Last(run); Joining(s, Last(run'), Request(i, false, s.nextTask, CheckCapacity))
  {
    hide ValidIdentity, LogicalPath, PendingKey, LogicalKey, Within;
    var s := Last(run);
    var r := Request(i, false, s.nextTask, Lookup);
    JoiningSize(s, Apply(cfg, s, Arrive(i, false)), r);
    run' := Grow(cfg, run, Arrive(i, false), producers, blind);
    run' := JoinStep(cfg, run', s, r, Input.Ok, producers, blind);
    run' := JoinStep(cfg, run', s, r.(pc := Reserve), Atomically, producers, blind);
    var key := RequestKey(r);
    JoiningSize(s, Apply(cfg, Last(run'), ExpirePending(key)), r.(pc := CheckCapacity));
    run' := Grow(cfg, run', ExpirePending(key), producers, blind);
  }

  lemma FindsCapacity(cfg: Config, run: Run, s: State, r: Request, input: Input, producers: nat, blind: nat) returns (run': Run)
    requires Within(cfg, run, producers, blind) && Joining(s, Last(run), r) && r.pc.CheckCapacity? && |s.requests| < producers
    requires forall p | p in s.requests :: p < s.nextPid
    requires if input.Ok? then |s.db.stream| < cfg.maxDepth else input.XlenError? && 0 < cfg.maxDepth
    ensures Within(cfg, run', producers, blind) && Joining(s, Last(run'), r.(pc := AdmitDepth))
    ensures Last(run').db.pending == Last(run).db.pending
  {
    hide Within;
    run' := JoinStep(cfg, run, s, r, input, producers, blind);
    run' := JoinStep(cfg, run', s, r.(pc := PersistQueued), Input.Ok, producers, blind);
  }

  /** It passes both depth checks. */
  lemma Joins(cfg: Config, run: Run, i: ReportIdentity, input: Input, depth: nat, waiting: nat, producers: nat, blind: nat)
    returns (run': Run)
    requires ValidIdentity(i) && Within(cfg, run, producers, blind) && Lobby(Last(run), depth, waiting) && waiting < producers
    requires if input.Ok? then depth < cfg.maxDepth else input.XlenError? && 0 < cfg.maxDepth <= depth
    ensures Within(cfg, run', producers, blind + if input.Ok? then 0 else 1) && Lobby(Last(run'), depth, waiting + 1)
  {
    hide ValidIdentity, Within;
    var s := Last(run);
    var r := Request(i, false, s.nextTask, CheckCapacity);
    run' := Arrives(cfg, run, i, producers, blind);
    run' := FindsCapacity(cfg, run', s, r, input, producers, blind);
    run' := JoinStep(cfg, run', s, r.(pc := AdmitDepth), input, producers, blind);
    hide BlindCheck;
    JoinedLobby(s, Last(run'), r.(pc := RequestPc.Append));
  }

  lemma JoinedLobby(s: State, s': State, r: Request)
    requires Lobby(s, |s.db.stream|, |s.requests|) && Joining(s, s', r) && r.pc.Append? && s'.db.pending == map[]
    ensures Lobby(s', |s.db.stream|, |s.requests| + 1)
  {
    JoiningSize(s, s', r);
  }

  /** A waiting request appends its task. */
  lemma Leaves(cfg: Config, run: Run, depth: nat, waiting: nat, producers: nat, blind: nat) returns (run': Run)
    requires Within(cfg, run, producers, blind) && Lobby(Last(run), depth, waiting) && 0 < waiting <= producers
    ensures Within(cfg, run', producers, blind) && Lobby(Last(run'), depth + 1, waiting - 1)
  {
    hide Within, BlindCheck, Apply;
    var p := SomeoneWaits(Last(run), depth, waiting);
    OneLeaves(cfg, Last(run), p, depth, waiting);
    run' := Grow(cfg, run, ApiStep(p, Input.Ok), producers, blind);
    Fresh(cfg, run', producers, blind);
  }

  lemma SomeoneWaits(s: State, depth: nat, waiting: nat) returns (p: Pid)
    requires Lobby(s, depth, waiting) && waiting > 0
    ensures p in s.requests && s.requests[p].pc.Append?
  {
    assert s.requests.Keys != {} by { assert |s.requests.Keys| == |s.requests|; }
    p :| p in s.requests.Keys;
  }

  lemma OneLeaves(cfg: Config, s: State, p: Pid, depth: nat, waiting: nat)
    requires Lobby(s, depth, waiting) && p in s.requests
    ensures var s' := Apply(cfg, s, ApiStep(p, Input.Ok));
            && s'.workers == map[] && |s'.requests| == waiting - 1
            && (s'.db.nextEntry !in s'.db.stream ==> Lobby(s', depth + 1, waiting - 1))
            && !BlindCheck(cfg, s, ApiStep(p, Input.Ok))
  {
    var s' := Apply(cfg, s, ApiStep(p, Input.Ok));
    assert s'.requests == s.requests - {p} && s'.db.stream == s.db.stream[s.db.nextEntry := s.requests[p].id];
    assert s'.requests.Keys == s.requests.Keys - {p};
    assert |s'.requests.Keys| == |s'.requests| && |s.requests.Keys| == |s.requests|;
  }

  lemma Fresh(cfg: Config, run: Run, producers: nat, blind: nat)
    requires Within(cfg, run, producers, blind)
    ensures Last(run).db.nextEntry !in Last(run).db.stream
  {
    hide Inv, AtMostProducers;
    Invariant.RunInv(cfg, run, |run.steps|);
    Invariant.InvFacts(Last(run));
  }

  // ----- the three phases ------------------------------------------------------------------

  /** Requests one after the other fill the stream up to the maximum depth. */
  lemma {:induction false} FillsUp(cfg: Config, i: ReportIdentity, depth: nat, producers: nat) returns (run: Run)
    requires ValidIdentity(i) && depth <= cfg.maxDepth && producers >= 1
    ensures Within(cfg, run, producers, 0) && Lobby(Last(run), depth, 0)
  {
    hide ValidIdentity, Within, Lobby;
    if depth == 0 {
      run := Opens(cfg, producers);
    } else {
      run := FillsUp(cfg, i, depth - 1, producers);
      run := Joins(cfg, run, i, Input.Ok, depth - 1, 0, producers, 0);
      run := Leaves(cfg, run, depth - 1, 1, producers, 0);
    }
  }

  lemma Opens(cfg: Config, producers: nat) returns (run: Run)
    ensures Within(cfg, run, producers, 0) && Lobby(Last(run), 0, 0)
  {
    run := START;
    RequestsProduce(INITIAL);
  }

  /** As many requests as there may be producers pass the depth check together. */
  lemma {:induction false} PassTogether(cfg: Config, run: Run, i: ReportIdentity, depth: nat, waiting: nat, producers: nat)
    returns (run': Run)
    requires ValidIdentity(i) && depth < cfg.maxDepth && waiting <= producers
    requires Within(cfg, run, producers, 0) && Lobby(Last(run), depth, 0)
    ensures Within(cfg, run', producers, 0) && Lobby(Last(run'), depth, waiting)
  {
    hide ValidIdentity, Within, Lobby;
    run' := run;
    if waiting > 0 {
      run' := PassTogether(cfg, run, i, depth, waiting - 1, producers);
      run' := Joins(cfg, run', i, Input.Ok, depth, waiting - 1, producers, 0);
    }
  }

  /** Again and again one of them appends, and another passes the check blindly. */
  lemma {:induction false} PassBlindly(cfg: Config, run: Run, i: ReportIdentity, producers: nat, blind: nat) returns (run': Run)
    requires ValidIdentity(i) && cfg.maxDepth >= 1 && producers >= 1
    requires Within(cfg, run, producers, 0) && Lobby(Last(run), cfg.maxDepth - 1, producers)
    ensures Within(cfg, run', producers, blind) && Lobby(Last(run'), cfg.maxDepth - 1 + blind, producers)
  {
    hide ValidIdentity, Within, Lobby;
    run' := run;
    if blind > 0 {
      run' := PassBlindly(cfg, run, i, producers, blind - 1);
      run' := Leaves(cfg, run', cfg.maxDepth - 2 + blind, producers, producers, blind - 1);
      run' := Joins(cfg, run', i, XlenError, cfg.maxDepth - 1 + blind, producers - 1, producers, blind - 1);
    }
  }

  lemma {:induction false} AllAppend(cfg: Config, run: Run, depth: nat, waiting: nat, producers: nat, blind: nat) returns (run': Run)
    requires Within(cfg, run, producers, blind) && Lobby(Last(run), depth, waiting) && waiting <= producers
    ensures Within(cfg, run', producers, blind) && Lobby(Last(run'), depth + waiting, 0)
    decreases waiting
  {
    hide Within, Lobby;
    run' := run;
    if waiting > 0 {
      run' := Leaves(cfg, run, depth, waiting, producers, blind);
      run' := AllAppend(cfg, run', depth + 1, waiting - 1, producers, blind);
    }
  }

  lemma Overshoots(cfg: Config, i: ReportIdentity, producers: nat, blind: nat) returns (run: Run)
    requires ValidIdentity(i) && cfg.maxDepth >= 1 && producers >= 1
    ensures Within(cfg, run, producers, blind) && |Last(run).db.stream| == cfg.maxDepth + producers - 1 + blind
  {
    hide ValidIdentity, Within;
    run := FillsUp(cfg, i, cfg.maxDepth - 1, producers);
    run := PassTogether(cfg, run, i, cfg.maxDepth - 1, producers, producers);
    run := PassBlindly(cfg, run, i, producers, blind);
    run := AllAppend(cfg, run, cfg.maxDepth - 1 + blind, producers, producers, blind);
  }

  // ----- exactly how long the stream can get -------------------------------------------------

  lemma ValidIdentityExists()
    ensures ValidIdentity(ReportIdentity("A", "10-K", 2024, None))
  {
  }

  /** The bound is the exact one: in all runs with at most `producers` producers at a time and `blind`
      blind checks, the stream has at most `bound` entries if and only if `bound` is at least the
      maximum depth plus `producers` - 1 plus `blind`. */
  lemma OvershootIsExact(cfg: Config, producers: nat, blind: nat, bound: int)
    requires cfg.maxDepth >= 1 && producers >= 1
    ensures (forall run | Within(cfg, run, producers, blind) :: |Last(run).db.stream| <= bound)
       <==> bound >= cfg.maxDepth + producers - 1 + blind
  {
    if bound >= cfg.maxDepth + producers - 1 + blind {
      forall run | Within(cfg, run, producers, blind) ensures |Last(run).db.stream| <= bound {
        OvershootBound(cfg, run, |run.steps|, producers);
      }
    } else {
      hide Within, ValidIdentity;
      ValidIdentityExists();
      var run := Overshoots(cfg, ReportIdentity("A", "10-K", 2024, None), producers, blind);
    }
  }
}
