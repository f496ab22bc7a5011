/** The SEC client (app/sec/client.py `_get`): one limiter grant before each HTTP attempt,
    inside the retry loop. Any number of `_get` calls, in any number of processes, share
    the limiter; each step is one script evaluation, one HTTP request or one wake-up. */
module SecClient {
  import opened Wrappers
  import opened RateLimiter
  import opened Retry

  type Body = seq<int>
  type GetId = nat

  /** Where a `_get` call is. `slot` is the script evaluation that granted its permit. */
  datatype GetPc =
    | Acquiring
    | Permitted(slot: nat)
    | BackingOff
    | Finished(outcome: Outcome<Body>)

  /** `answers[i]` is how the (i+1)-th `do_request` ended; `requests` counts HTTP GETs. */
  datatype Get = Get(pc: GetPc, answers: seq<Answer<Body>>, requests: nat)

  /** `calls` are the script evaluations so far, `sent` the permits used by HTTP GETs so far. */
  datatype Client = Client(calls: seq<Call>, gets: map<GetId, Get>, sent: seq<nat>)

  const IDLE := Client([], map[], [])

  datatype Event =
    | Begin(id: GetId)
    | Poll(id: GetId, call: Call, timedOut: bool)
    | PollRaises(id: GetId, call: Call, evaluated: bool)
    | Send(id: GetId, answer: Answer<Body>)
    | Wake(id: GetId)
    | Cancel(id: GetId)

  predicate Possible(s: Client, e: Event) {
    match e
    case Begin(id) => id !in s.gets
    case Poll(id, _, _) => id in s.gets && s.gets[id].pc.Acquiring?
    case PollRaises(id, _, _) => id in s.gets && s.gets[id].pc.Acquiring?
    case Send(id, _) => id in s.gets && s.gets[id].pc.Permitted?
    case Wake(id) => id in s.gets && s.gets[id].pc.BackingOff?
    case Cancel(id) => id in s.gets
  }

  /** The retry loop takes the answer of its latest `do_request`. */
  function Answered(p: RetryPolicy, g: Get, answer: Answer<Body>): Get {
    var answers := g.answers + [answer];
    g.(answers := answers,
       pc := if RetryableFailure(answer).Some? && |answers| < p.maxAttempts then BackingOff
             else Finished(p.Final(answer)))
  }

  function Happen(p: RetryPolicy, limit: int, s: Client, e: Event): Client
    requires Possible(s, e)
  {
    match e
    case Begin(id) =>
      s.(gets := s.gets[id := Get(if p.maxAttempts >= 1 then Acquiring else Finished(AssertionFailed), [], 0)])
    case Poll(id, call, timedOut) =>
      var g := s.gets[id];
      s.(calls := s.calls + [call],
         gets := s.gets[id :=
           if Grants(limit, true, s.calls, call) then g.(pc := Permitted(|s.calls|))
           else if timedOut then Answered(p, g, Uncaught)
           else g])
    case PollRaises(id, call, evaluated) =>
      s.(calls := if evaluated then s.calls + [call] else s.calls,
         gets := s.gets[id := Answered(p, s.gets[id], Uncaught)])
    case Send(id, answer) =>
      var g := s.gets[id];
      s.(sent := s.sent + [g.pc.slot], gets := s.gets[id := Answered(p, g.(requests := g.requests + 1), answer)])
    case Wake(id) => s.(gets := s.gets[id := s.gets[id].(pc := Acquiring)])
    case Cancel(id) => s.(gets := s.gets - {id})
  }

  ghost predicate IsHistory(p: RetryPolicy, limit: int, states: seq<Client>, events: seq<Event>) {
    && |states| == |events| + 1 && states[0] == IDLE
    && forall i | 0 <= i < |events| :: Possible(states[i], events[i]) && states[i + 1] == Happen(p, limit, states[i], events[i])
  }

  // ----- permits -------------------------------------------------------------------------

  predicate GrantedSlot(limit: int, calls: seq<Call>, k: int) {
    0 <= k < |calls| && Grants(limit, true, calls[..k], calls[k])
  }

  /** Permits are granted slots; those sent or held are all different. */
  ghost predicate PermitsOk(limit: int, s: Client) {
    && (forall i | 0 <= i < |s.sent| :: GrantedSlot(limit, s.calls, s.sent[i]))
    && (forall i, j | 0 <= i < j < |s.sent| :: s.sent[i] != s.sent[j])
    && (forall g | g in s.gets && s.gets[g].pc.Permitted? ::
          GrantedSlot(limit, s.calls, s.gets[g].pc.slot) && s.gets[g].pc.slot !in s.sent)
    && (forall g, h | g in s.gets && h in s.gets && g != h && s.gets[g].pc.Permitted? && s.gets[h].pc.Permitted? ::
          s.gets[g].pc.slot != s.gets[h].pc.slot)
  }

  /** Each `_get` follows the retry loop. */
  ghost predicate GetOk(p: RetryPolicy, g: Get) {
    && g.requests <= |g.answers|
    && (forall i | 0 <= i < |g.answers| - 1 :: RetryableFailure(g.answers[i]).Some?)
    && match g.pc
       case Finished(o) =>
         if p.maxAttempts < 1 then g.answers == [] && o.AssertionFailed?
         else 1 <= |g.answers| == p.Attempts(g.answers, 0) && o == p.Final(g.answers[|g.answers| - 1])
       case _ =>
         |g.answers| < p.maxAttempts && (g.answers != [] ==> RetryableFailure(g.answers[|g.answers| - 1]).Some?)
  }

  /** Granted slots stay so, and a granted evaluation adds one. */
  lemma SlotsAfter(limit: int, calls: seq<Call>, c: Call)
    ensures forall k | GrantedSlot(limit, calls, k) :: GrantedSlot(limit, calls + [c], k)
    ensures Grants(limit, true, calls, c) ==> GrantedSlot(limit, calls + [c], |calls|)
  {
    hide Grants;
    var all := calls + [c];
    assert all[..|calls|] == calls;
    forall k | GrantedSlot(limit, calls, k) ensures GrantedSlot(limit, all, k) {
      assert all[..k] == calls[..k];
    }
  }

  lemma PollKeepsPermits(p: RetryPolicy, limit: int, s: Client, e: Event)
    requires PermitsOk(limit, s) && Possible(s, e) && (e.Poll? || e.PollRaises?)
    ensures PermitsOk(limit, Happen(p, limit, s, e))
  {
    hide Grants, RetryPolicy.Final;
    var s' := Happen(p, limit, s, e);
    SlotsAfter(limit, s.calls, e.call);
    assert forall i | 0 <= i < |s.sent| :: s.sent[i] < |s.calls|;
  }

  lemma EventKeepsPermits(p: RetryPolicy, limit: int, s: Client, e: Event)
    requires PermitsOk(limit, s) && Possible(s, e)
    ensures PermitsOk(limit, Happen(p, limit, s, e))
  {
    hide GrantedSlot, RetryPolicy.Final, Grants;
    if e.Poll? || e.PollRaises? {
      PollKeepsPermits(p, limit, s, e);
    }
  }

  // ----- the retry loop ---------------------------------------------------------------------

  /** A loop that has gone round k times and stops at its last answer has made k calls. */
  lemma {:induction false} AttemptsOf(p: RetryPolicy, answers: seq<Answer<Body>>, k: nat)
    requires k < |answers| <= p.maxAttempts
    requires forall i | k <= i < |answers| - 1 :: RetryableFailure(answers[i]).Some?
    requires RetryableFailure(answers[|answers| - 1]).None? || |answers| == p.maxAttempts
    ensures p.Attempts(answers, k) == |answers| - k
    decreases |answers| - k
  {
    if k < |answers| - 1 {
      AttemptsOf(p, answers, k + 1);
    }
  }

  /** A loop whose calls are as many as `Attempts` says has ended. */
  lemma EndsWhere(p: RetryPolicy, answers: seq<Answer<Body>>)
    requires 1 <= |answers| == p.Attempts(answers, 0) && p.maxAttempts >= 1
    requires forall i | 0 <= i < |answers| - 1 :: RetryableFailure(answers[i]).Some?
    ensures Ended(p.maxAttempts, answers, p.Final(answers[|answers| - 1]))
  {
    hide RetryPolicy.Final, Ended;
    EndsHere(p, answers);
    if RetryableFailure(answers[|answers| - 1]).Some? && |answers| < p.maxAttempts {
      AttemptsBeyond(p, answers, 0);
    }
  }

  lemma {:induction false} AttemptsBeyond(p: RetryPolicy, answers: seq<Answer<Body>>, k: nat)
    requires k <= |answers| < p.maxAttempts && forall i | k <= i < |answers| :: RetryableFailure(answers[i]).Some?
    ensures k + p.Attempts(answers, k) > |answers|
    decreases |answers| - k
  {
    if k < |answers| {
      AttemptsBeyond(p, answers, k + 1);
    }
  }

  lemma AnsweredOk(p: RetryPolicy, g: Get, answer: Answer<Body>)
    requires GetOk(p, g) && !g.pc.Finished? && p.maxAttempts >= 1
    ensures GetOk(p, Answered(p, g, answer))
    ensures g.requests <= |g.answers| ==> GetOk(p, Answered(p, g.(requests := g.requests + 1), answer))
  {
    var answers := g.answers + [answer];
    if RetryableFailure(answer).None? || |answers| == p.maxAttempts {
      AttemptsOf(p, answers, 0);
    }
  }

  lemma EventKeepsGets(p: RetryPolicy, limit: int, s: Client, e: Event)
    requires Possible(s, e) && forall g | g in s.gets :: GetOk(p, s.gets[g])
    ensures forall g | g in Happen(p, limit, s, e).gets :: GetOk(p, Happen(p, limit, s, e).gets[g])
  {
    hide Grants, Answered;
    if e.Poll? || e.PollRaises? {
      AnsweredOk(p, s.gets[e.id], Uncaught);
    } else if e.Send? {
      AnsweredOk(p, s.gets[e.id], e.answer);
    }
  }

  lemma {:induction false} HistoryOk(p: RetryPolicy, limit: int, states: seq<Client>, events: seq<Event>, n: nat)
    requires IsHistory(p, limit, states, events) && n < |states|
    ensures PermitsOk(limit, states[n]) && forall g | g in states[n].gets :: GetOk(p, states[n].gets[g])
  {
    hide Happen, PermitsOk, GetOk;
    if n > 0 {
      HistoryOk(p, limit, states, events, n - 1);
      EventKeepsPermits(p, limit, states[n - 1], events[n - 1]);
      EventKeepsGets(p, limit, states[n - 1], events[n - 1]);
    } else {
      IdleOk(p, limit);
    }
  }

  lemma IdleOk(p: RetryPolicy, limit: int)
    ensures PermitsOk(limit, IDLE) && forall g | g in IDLE.gets :: GetOk(p, IDLE.gets[g])
  {
  }

  // ----- grants and requests --------------------------------------------------------------------

  /** The granted slots whose evaluation ran in [lo, hi). */
  ghost function SlotsIn(limit: int, calls: seq<Call>, lo: int, hi: int): set<int> {
    set k | 0 <= k < |calls| && GrantedSlot(limit, calls, k) && lo <= calls[k].at < hi
  }

  lemma OneMoreSlot(limit: int, calls: seq<Call>, c: Call, lo: int, hi: int)
    ensures SlotsIn(limit, calls + [c], lo, hi)
         == SlotsIn(limit, calls, lo, hi)
            + if Grants(limit, true, calls, c) && lo <= c.at < hi then {|calls|} else {}
    ensures |calls| !in SlotsIn(limit, calls, lo, hi)
  {
    hide Grants;
    var all := calls + [c];
    forall k | 0 <= k < |all| ensures all[..k] == calls[..k] {
    }
    assert forall k | 0 <= k < |calls| :: GrantedSlot(limit, all, k) <==> GrantedSlot(limit, calls, k);
    assert GrantedSlot(limit, all, |calls|) <==> Grants(limit, true, calls, c);
  }

  /** Granted slots are the full history, slot by slot. */
  lemma {:induction false} SlotsAreHistory(limit: int, calls: seq<Call>, lo: int, hi: int)
    ensures |SlotsIn(limit, calls, lo, hi)| == CountIn(History(limit, true, calls), lo, hi)
  {
    hide Grants, GrantedSlot;
    if calls != [] {
      hide SlotsIn;
      var before, c := calls[..|calls| - 1], calls[|calls| - 1];
      assert before + [c] == calls;
      SlotsAreHistory(limit, before, lo, hi);
      OneMoreSlot(limit, before, c, lo, hi);
      var h := History(limit, true, before);
      assert (h + [c])[..|h|] == h && h + [] == h;
    }
  }

  lemma {:induction false} CountAll(h: seq<Call>, lo: int, hi: int)
    ensures CountIn(h, lo, hi) <= |h|
  {
    if h != [] {
      CountAll(h[..|h| - 1], lo, hi);
    }
  }

  /** The HTTP GETs, by position, whose permit was granted in [lo, hi). */
  ghost function SentIn(s: Client, lo: int, hi: int): set<int>
    requires forall i | 0 <= i < |s.sent| :: s.sent[i] < |s.calls|
  {
    set i | 0 <= i < |s.sent| && lo <= s.calls[s.sent[i]].at < hi
  }

  lemma Pick<T>(s: set<T>) returns (x: T)
    requires s != {}
    ensures x in s
  {
    x :| x in s;
  }

  /** Different GETs use different grants. */
  lemma {:induction false} SentWithin(sent: seq<nat>, positions: set<int>, slots: set<int>)
    requires forall i | i in positions :: 0 <= i < |sent| && sent[i] in slots
    requires forall i, j | 0 <= i < j < |sent| :: sent[i] != sent[j]
    ensures |positions| <= |slots|
  {
    if positions != {} {
      var i := Pick(positions);
      SentWithin(sent, positions - {i}, slots - {sent[i]});
    }
  }

  lemma SentAreGranted(limit: int, s: Client)
    requires PermitsOk(limit, s)
    ensures forall i | 0 <= i < |s.sent| :: s.sent[i] < |s.calls|
  {
  }

  lemma SentWithinHistory(limit: int, s: Client, lo: int, hi: int)
    requires PermitsOk(limit, s)
    ensures (SentAreGranted(limit, s); |SentIn(s, lo, hi)|) <= CountIn(History(limit, true, s.calls), lo, hi)
  {
    hide Grants;
    SentAreGranted(limit, s);
    SlotsAreHistory(limit, s.calls, lo, hi);
    SentWithin(s.sent, SentIn(s, lo, hi), SlotsIn(limit, s.calls, lo, hi));
  }

  /** In every prefix of every interleaving the GETs issued, retries included, are at most
      the limiter's grants: each uses up a grant of its own, obtained before it is sent. */
  lemma NoRequestWithoutGrant(p: RetryPolicy, limit: int, states: seq<Client>, events: seq<Event>, n: nat)
    requires IsHistory(p, limit, states, events) && n < |states|
    ensures |states[n].sent| <= |History(limit, true, states[n].calls)|
    ensures forall i | 0 <= i < |states[n].sent| :: GrantedSlot(limit, states[n].calls, states[n].sent[i])
    ensures forall i, j | 0 <= i < j < |states[n].sent| :: states[n].sent[i] != states[n].sent[j]
  {
    hide Happen, IsHistory, Grants, GetOk;
    HistoryOk(p, limit, states, events, n);
    var s := states[n];
    var lo, hi := Bounds(s.calls, |s.calls|);
    SentWithinHistory(limit, s, lo, hi);
    assert SentIn(s, lo, hi) == Range(|s.sent|);
    CountAll(History(limit, true, s.calls), lo, hi);
  }

  ghost function Range(n: nat): (r: set<int>)
    ensures |r| == n && forall i :: i in r <==> 0 <= i < n
  {
    if n == 0 then {} else Range(n - 1) + {n - 1}
  }

  /** An interval that holds all evaluations. */
  lemma {:induction false} Bounds(calls: seq<Call>, n: nat) returns (lo: int, hi: int)
    requires n <= |calls|
    ensures forall k | 0 <= k < n :: lo <= calls[k].at < hi
  {
    if n == 0 {
      return 0, 0;
    }
    lo, hi := Bounds(calls, n - 1);
    var at := calls[n - 1].at;
    lo, hi := if at < lo then at else lo, if at >= hi then at + 1 else hi;
  }

  /** Each `_get` issues at most max_attempts GETs; when it has finished, its answers are
      exactly those of one run of the retry loop, whose outcome it returns. */
  lemma EachGetIsBounded(p: RetryPolicy, limit: int, states: seq<Client>, events: seq<Event>, n: nat, id: GetId)
    requires IsHistory(p, limit, states, events) && n < |states| && id in states[n].gets && p.maxAttempts >= 0
    ensures var g := states[n].gets[id];
            && g.requests <= p.maxAttempts
            && (g.pc.Finished? && p.maxAttempts >= 1 ==>
                  |g.answers| == p.Attempts(g.answers, 0) && Ended(p.maxAttempts, g.answers, g.pc.outcome))
  {
    hide Happen, IsHistory, PermitsOk;
    HistoryOk(p, limit, states, events, n);
    var g := states[n].gets[id];
    assert GetOk(p, g);
    if g.pc.Finished? && p.maxAttempts >= 1 {
      EndsWhere(p, g.answers);
    }
  }

  /** The window bound carries over from grants to requests: whatever the callers, with clocks
      within `d` ms and scripts delayed by at most `delay` ms, at most `limit` GETs go out on
      permits granted in any half-open real-time window of length 1000 - 2d - delay. */
  lemma PermitsPerWindow(p: RetryPolicy, limit: int, states: seq<Client>, events: seq<Event>, n: nat,
                         readAt: seq<int>, lo: int, d: int, delay: int)
    requires IsHistory(p, limit, states, events) && n < |states| && limit >= 1
    requires 0 <= d && 0 <= delay && 2 * d + delay < WINDOW_MS
    requires var calls := states[n].calls; UniqueMembers(calls) && RealTimeOrder(calls) && ClocksWithin(calls, readAt, d, delay)
    ensures forall i | 0 <= i < |states[n].sent| :: states[n].sent[i] < |states[n].calls|
    ensures |SentIn(states[n], lo, lo + WINDOW_MS - 2 * d - delay)| <= limit
  {
    hide Happen, IsHistory, PermitsOk, UniqueMembers, RealTimeOrder, ClocksWithin;
    HistoryOk(p, limit, states, events, n);
    SentAreGranted(limit, states[n]);
    SentWithinHistory(limit, states[n], lo, lo + WINDOW_MS - 2 * d - delay);
    SkewTolerantBound(limit, true, states[n].calls, readAt, lo, d, delay);
  }

  // ----- one call, as it is written -----------------------------------------------------------------

  /** The clock readings of one `acquire`, and the answer if the GET is sent. */
  datatype Try = Try(start: int, polls: seq<RateLimiter.Poll>, answer: Answer<Body>)

  const ACQUIRE_TIMEOUT_MS := 30000

  /** The limiter has neither granted nor refused for good by the last clock reading of this try. */
  ghost predicate StillPolls(limit: int, before: seq<Call>, t: Try) {
    GoesOn(limit, before, t.start, t.polls, Some(30000), |t.polls|)
  }

  /** Round `k` of the try decides it: with a grant, or with none after 30 seconds. */
  ghost predicate Decides(limit: int, before: seq<Call>, t: Try, k: nat, granted: bool) {
    && k < |t.polls| && GoesOn(limit, before, t.start, t.polls, Some(30000), k)
    && (granted <==> Succeeds(limit, before, t.polls, k))
    && (granted || t.polls[k].monotonicMs > t.start + 30000)
  }

  /** The grants recorded by a limiter. */
  ghost function GrantCount(limiter: GlobalSecRateLimiter): nat
    reads limiter
  {
    |History(limiter.limit, true, limiter.calls)|
  }

  class Fetcher {
    const policy: RetryPolicy
    const limiter: GlobalSecRateLimiter

    constructor (policy: RetryPolicy, limiter: GlobalSecRateLimiter)
      ensures this.policy == policy && this.limiter == limiter
    {
      this.policy, this.limiter := policy, limiter;
    }

    /** `do_request`: None if it is still polling when the clock readings run out. */
    method DoRequest(t: Try) returns (answer: Option<Answer<Body>>, sent: bool)
      requires limiter.Valid()
      modifies limiter
      ensures limiter.Valid()
      ensures GrantCount(limiter) == old(GrantCount(limiter)) + if sent then 1 else 0
      ensures answer == if sent then Some(t.answer) else if answer.Some? then Some(Uncaught) else None
      ensures if answer.None? then limiter.calls == old(limiter.calls) + Polled(t.polls, |t.polls|) && StillPolls(limiter.limit, old(limiter.calls), t)
              else exists k: nat :: Decides(limiter.limit, old(limiter.calls), t, k, sent)
    {
      hide History, Grants;
      var r := limiter.Acquire(t.start, t.polls, Some(ACQUIRE_TIMEOUT_MS));
      match r {
        case Granted(n) =>
          assert Decides(limiter.limit, old(limiter.calls), t, n - 1, true);
          return Some(t.answer), true;
        case TimedOut(n) =>
          assert Decides(limiter.limit, old(limiter.calls), t, n - 1, false);
          return Some(Uncaught), false;
        case StillPolling => return None, false;
      }
    }

    /** `_get`: the retry loop around `do_request`. Each GET sent has used up one new grant, and
        the loop stops where `Attempts` says, with the outcome of its last answer. */
    method FetchUrl(tries: seq<Try>) returns (outcome: Option<Outcome<Body>>, answers: seq<Answer<Body>>, requests: nat)
      requires limiter.Valid() && |tries| >= policy.maxAttempts
      modifies limiter
      ensures limiter.Valid()
      ensures GrantCount(limiter) == old(GrantCount(limiter)) + requests
      ensures |answers| <= |tries| && (policy.maxAttempts >= 0 ==> |answers| <= policy.maxAttempts)
      ensures forall i | 0 <= i < requests :: i < |answers| && answers[i] == tries[i].answer
      ensures requests == |answers| || (requests == |answers| - 1 && answers[requests].Uncaught?)
      ensures outcome.Some? && policy.maxAttempts >= 1 ==>
                |answers| == policy.Attempts(answers, 0) && Ended(policy.maxAttempts, answers, outcome.value)
      ensures outcome.None? ==>
                && |answers| < policy.maxAttempts && (forall i | 0 <= i < |answers| :: MayPass(answers[i]))
                && exists before :: limiter.calls == before + Polled(tries[|answers|].polls, |tries[|answers|].polls|)
                                    && StillPolls(limiter.limit, before, tries[|answers|])
      ensures policy.maxAttempts < 1 ==> outcome == Some(AssertionFailed) && requests == 0
    {
      hide GrantCount, RetryPolicy.Final, StillPolls, Decides, Ended, Polled;
      answers, requests := [], 0;
      var attempt := 1;
      while attempt <= policy.maxAttempts
        invariant limiter.Valid() && GrantCount(limiter) == old(GrantCount(limiter)) + requests
        invariant requests == |answers| == attempt - 1
        invariant policy.maxAttempts < 1 ==> attempt == 1
        invariant policy.maxAttempts >= 1 ==> attempt <= policy.maxAttempts + 1
        invariant forall i | 0 <= i < |answers| :: RetryableFailure(answers[i]).Some? && answers[i] == tries[i].answer
        invariant 0 < |answers| == policy.maxAttempts ==> Ended(policy.maxAttempts, answers, policy.Final(answers[|answers| - 1]))
      {
        var answer, sent := DoRequest(tries[attempt - 1]);
        if answer.None? {
          return None, answers, requests;
        }
        answers := answers + [answer.value];
        requests := if sent then requests + 1 else requests;
        EndsHere(policy, answers);
        if RetryableFailure(answer.value).None? {
          AttemptsOf(policy, answers, 0);
          return Some(policy.Final(answer.value)), answers, requests;
        }
        attempt := attempt + 1;
      }
      if answers == [] {
        return Some(AssertionFailed), answers, requests;
      }
      AttemptsOf(policy, answers, 0);
      return Some(policy.Final(answers[|answers| - 1])), answers, requests;
    }
  }
}
