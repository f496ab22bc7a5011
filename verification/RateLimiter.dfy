/** The global sliding-window rate limiter over a shared Redis sorted set
    (app/sec/rate_limiter.py). Times are in milliseconds. */
module RateLimiter {
  import opened Wrappers

  const WINDOW_MS := 1000

  type Member = nat

  /** One script evaluation: the client's clock reading, taken before it sends the script, the
      real time at which Redis runs the script, and the unique member the client made up. */
  datatype Call = Call(now: int, at: int, member: Member)

  /** The sorted set and the time at which Redis drops it. */
  datatype Window = Window(zset: map<Member, int>, expiresAt: Option<int>)

  const EMPTY := Window(map[], None)

  function Trim(zset: map<Member, int>, cutoff: int): map<Member, int> {
    map m | m in zset && zset[m] > cutoff :: zset[m]
  }

  /** The set as Redis finds it at a given time. */
  function Alive(w: Window, at: int): map<Member, int> {
    if w.expiresAt.Some? && at >= w.expiresAt.value then map[] else w.zset
  }

  /** The script, with or without its PEXPIRE. */
  function Evaluate(w: Window, limit: int, c: Call, expire: bool): (Window, bool) {
    var zset := Trim(Alive(w, c.at), c.now - WINDOW_MS);
    if |zset| < limit then
      (Window(zset[c.member := c.now], if expire then Some(c.at + 2 * WINDOW_MS) else None), true)
    else (Window(zset, if zset == map[] then None else w.expiresAt), false)
  }

  // ----- runs -------------------------------------------------------------------

  /** The set after a sequence of calls. */
  function After(limit: int, expire: bool, calls: seq<Call>): Window {
    if calls == [] then EMPTY
    else Evaluate(After(limit, expire, calls[..|calls| - 1]), limit, calls[|calls| - 1], expire).0
  }

  /** Whether the call that follows `calls` is granted. */
  predicate Grants(limit: int, expire: bool, calls: seq<Call>, c: Call) {
    Evaluate(After(limit, expire, calls), limit, c, expire).1
  }

  /** The complete history of granted calls. */
  function History(limit: int, expire: bool, calls: seq<Call>): seq<Call> {
    if calls == [] then []
    else
      var before, c := calls[..|calls| - 1], calls[|calls| - 1];
      History(limit, expire, before) + if Grants(limit, expire, before, c) then [c] else []
  }

  /** One more call, in terms of the state and history before it. */
  lemma OneMore(limit: int, expire: bool, calls: seq<Call>, c: Call)
    ensures var w := After(limit, expire, calls);
            && After(limit, expire, calls + [c]) == Evaluate(w, limit, c, expire).0
            && Grants(limit, expire, calls, c) == Evaluate(w, limit, c, expire).1
            && History(limit, expire, calls + [c])
            == if Evaluate(w, limit, c, expire).1 then History(limit, expire, calls) + [c] else History(limit, expire, calls)
  {
    assert (calls + [c])[..|calls|] == calls;
  }

  predicate UniqueMembers(calls: seq<Call>) {
    forall i, j | 0 <= i < j < |calls| :: calls[i].member != calls[j].member
  }

  /** Redis runs one script at a time. */
  predicate RealTimeOrder(calls: seq<Call>) {
    forall i, j | 0 <= i < j < |calls| :: calls[i].at <= calls[j].at
  }

  /** Clock readings do not decrease in the order in which the scripts run. */
  predicate SteadyReadings(calls: seq<Call>) {
    forall i, j | 0 <= i < j < |calls| :: calls[i].now <= calls[j].now
  }

  /** When the key set by a grant would have expired, readings have moved on by a window. */
  predicate KeepsUp(g: Call, c: Call) { c.at >= g.at + 2 * WINDOW_MS ==> c.now >= g.now + WINDOW_MS }

  /** The call that follows `calls` keeps up with the key of the last grant among them. */
  predicate KeyKeepsUp(limit: int, calls: seq<Call>, c: Call) {
    var h := History(limit, true, calls);
    h != [] ==> KeepsUp(h[|h| - 1], c)
  }

  /** Every call does so. */
  predicate ExpiryKeepsUp(limit: int, calls: seq<Call>) {
    forall k | 0 <= k < |calls| :: KeyKeepsUp(limit, calls[..k], calls[k])
  }

  /** A script runs at most `late` ms after the time its client read, and at most `ahead` ms before
      it: the first is clock error plus delay, the second clock error. */
  predicate Skewed(calls: seq<Call>, late: int, ahead: int) {
    forall i | 0 <= i < |calls| :: -late <= calls[i].now - calls[i].at <= ahead
  }

  /** Granted calls of a history whose client time lies after `cutoff`. */
  function CountAfter(h: seq<Call>, cutoff: int): nat {
    if h == [] then 0
    else CountAfter(h[..|h| - 1], cutoff) + if h[|h| - 1].now > cutoff then 1 else 0
  }

  /** Granted calls of a history in the half-open real-time interval [lo, hi). */
  function CountIn(h: seq<Call>, lo: int, hi: int): nat {
    if h == [] then 0
    else CountIn(h[..|h| - 1], lo, hi) + if lo <= h[|h| - 1].at < hi then 1 else 0
  }

  /** Before the first call. */
  lemma NothingYet(limit: int, expire: bool, now: int, lo: int, hi: int)
    ensures History(limit, expire, []) == [] && UniqueMembers([]) && RealTimeOrder([]) && SteadyReadings([])
    ensures Refines(After(limit, expire, []), [], now) && Retains(After(limit, expire, []), [], lo) && CountIn([], lo, hi) == 0
  {
  }

  lemma {:induction false} HistoryDrawn(limit: int, expire: bool, calls: seq<Call>)
    ensures forall g | g in History(limit, expire, calls) :: g in calls
  {
    if calls != [] {
      HistoryDrawn(limit, expire, calls[..|calls| - 1]);
    }
  }

  /** What holds of all calls holds of those before the last. */
  lemma Splits(calls: seq<Call>, c: Call)
    ensures UniqueMembers(calls + [c]) ==> UniqueMembers(calls) && forall g | g in calls :: g.member != c.member
    ensures RealTimeOrder(calls + [c]) ==> RealTimeOrder(calls) && forall g | g in calls :: g.at <= c.at
    ensures SteadyReadings(calls + [c]) ==> SteadyReadings(calls) && forall g | g in calls :: g.now <= c.now
  {
    var all := calls + [c];
    assert forall i | 0 <= i < |calls| :: calls[i] == all[i];
    assert all[|calls|] == c;
    forall g | g in calls ensures exists k :: 0 <= k < |calls| && all[k] == g {
    }
  }

  lemma SplitsExpiry(limit: int, calls: seq<Call>, c: Call)
    ensures ExpiryKeepsUp(limit, calls + [c]) <==> ExpiryKeepsUp(limit, calls) && KeyKeepsUp(limit, calls, c)
  {
    hide KeyKeepsUp;
    var all := calls + [c];
    assert forall k | 0 <= k < |calls| :: all[..k] == calls[..k] && all[k] == calls[k];
    assert all[..|calls|] == calls && all[|calls|] == c;
  }

  lemma SplitsSkew(calls: seq<Call>, c: Call, late: int, ahead: int)
    requires Skewed(calls + [c], late, ahead)
    ensures Skewed(calls, late, ahead) && c.now - c.at <= ahead
  {
    assert forall i | 0 <= i < |calls| :: calls[i] == (calls + [c])[i];
    assert (calls + [c])[|calls|] == c;
  }

  lemma OneMoreInOrder(h: seq<Call>, c: Call)
    ensures UniqueMembers(h) && (forall g | g in h :: g.member != c.member) ==> UniqueMembers(h + [c])
    ensures RealTimeOrder(h) && (forall g | g in h :: g.at <= c.at) ==> RealTimeOrder(h + [c])
    ensures SteadyReadings(h) && (forall g | g in h :: g.now <= c.now) ==> SteadyReadings(h + [c])
  {
    assert forall i | 0 <= i < |h| :: h[i] in h;
  }

  /** A history is drawn from its calls, in order. */
  lemma {:induction false} HistoryFromCalls(limit: int, expire: bool, calls: seq<Call>)
    ensures forall g | g in History(limit, expire, calls) :: g in calls
    ensures UniqueMembers(calls) ==> UniqueMembers(History(limit, expire, calls))
    ensures RealTimeOrder(calls) ==> RealTimeOrder(History(limit, expire, calls))
    ensures SteadyReadings(calls) ==> SteadyReadings(History(limit, expire, calls))
  {
    hide UniqueMembers, RealTimeOrder, SteadyReadings, Skewed, Grants, Evaluate, After;
    HistoryDrawn(limit, expire, calls);
    if calls != [] {
      var before, c := calls[..|calls| - 1], calls[|calls| - 1];
      assert calls == before + [c];
      HistoryFromCalls(limit, expire, before);
      HistoryDrawn(limit, expire, before);
      Splits(before, c);
      OneMoreInOrder(History(limit, expire, before), c);
      assert History(limit, expire, before) + [] == History(limit, expire, before);
    } else {
      NothingYet(limit, expire, 0, 0, 0);
    }
  }

  // ----- the trimmed set refines the full history ----------------------------------

  /** What the set would hold if it were rebuilt from the history. */
  function Rebuilt(h: seq<Call>, cutoff: int): map<Member, int> {
    if h == [] then map[]
    else
      var z, g := Rebuilt(h[..|h| - 1], cutoff), h[|h| - 1];
      if g.now > cutoff then z[g.member := g.now] else z
  }

  lemma {:induction false} RebuiltSize(h: seq<Call>, cutoff: int)
    requires UniqueMembers(h)
    ensures |Rebuilt(h, cutoff)| == CountAfter(h, cutoff)
    ensures forall m | m in Rebuilt(h, cutoff) :: exists i :: 0 <= i < |h| && h[i].member == m
  {
    if h != [] {
      RebuiltSize(h[..|h| - 1], cutoff);
    }
  }

  lemma {:induction false} TrimRebuilt(h: seq<Call>, c: int, cutoff: int)
    requires UniqueMembers(h) && c <= cutoff
    ensures Trim(Rebuilt(h, c), cutoff) == Rebuilt(h, cutoff)
  {
    if h != [] {
      var t, g := h[..|h| - 1], h[|h| - 1];
      TrimRebuilt(t, c, cutoff);
      RebuiltSize(t, c);
      assert g.member !in Rebuilt(t, c);
    }
  }

  lemma {:induction false} RebuiltEmpty(h: seq<Call>, cutoff: int)
    requires forall g | g in h :: g.now <= cutoff
    ensures Rebuilt(h, cutoff) == map[]
  {
    if h != [] {
      assert h[|h| - 1] in h;
      RebuiltEmpty(h[..|h| - 1], cutoff);
    }
  }

  /** The set is exactly the part of the history that lies within one window of `now`, no grant is
      later than `now`, and the key expires, if at all, two windows after the last grant. */
  ghost predicate Refines(w: Window, h: seq<Call>, now: int) {
    && w.zset == Rebuilt(h, now - WINDOW_MS)
    && (forall g | g in h :: g.now <= now)
    && (w.expiresAt.Some? ==> h != [] && w.expiresAt.value == h[|h| - 1].at + 2 * WINDOW_MS)
  }

  /** The next call: its reading is not earlier, and a key that expires does so only behind it. */
  ghost predicate Follows(w: Window, h: seq<Call>, now: int, c: Call) {
    now <= c.now && (w.expiresAt.Some? && h != [] ==> KeepsUp(h[|h| - 1], c))
  }

  /** The set as the next call trims it. */
  lemma TrimmedIsRebuilt(w: Window, h: seq<Call>, now: int, c: Call)
    requires UniqueMembers(h) && SteadyReadings(h) && Refines(w, h, now) && Follows(w, h, now, c)
    ensures Trim(Alive(w, c.at), c.now - WINDOW_MS) == Rebuilt(h, c.now - WINDOW_MS)
  {
    if w.expiresAt.Some? && c.at >= w.expiresAt.value {
      assert forall g | g in h :: g.now <= h[|h| - 1].now;
      RebuiltEmpty(h, c.now - WINDOW_MS);
    } else {
      TrimRebuilt(h, now - WINDOW_MS, c.now - WINDOW_MS);
    }
  }

  /** One call keeps `Refines`. */
  lemma StepRefines(w: Window, h: seq<Call>, now: int, limit: int, c: Call, expire: bool)
    requires UniqueMembers(h) && SteadyReadings(h) && Refines(w, h, now) && Follows(w, h, now, c)
    ensures var (w', granted) := Evaluate(w, limit, c, expire); Refines(w', if granted then h + [c] else h, c.now)
  {
    TrimmedIsRebuilt(w, h, now, c);
    hide Trim, Alive, UniqueMembers, SteadyReadings;
    var h' := h + [c];
    assert h'[..|h'| - 1] == h && h'[|h'| - 1] == c;
  }

  lemma OneMoreRefines(limit: int, expire: bool, before: seq<Call>, c: Call, earlier: int)
    requires UniqueMembers(before) && SteadyReadings(before)
    requires Refines(After(limit, expire, before), History(limit, expire, before), earlier)
    requires Follows(After(limit, expire, before), History(limit, expire, before), earlier, c)
    ensures Refines(After(limit, expire, before + [c]), History(limit, expire, before + [c]), c.now)
  {
    hide Refines, Follows, UniqueMembers, SteadyReadings, After, History, Evaluate;
    HistoryFromCalls(limit, expire, before);
    StepRefines(After(limit, expire, before), History(limit, expire, before), earlier, limit, c, expire);
    OneMore(limit, expire, before, c);
  }

  /** The clocks that the refinement needs: with key expiry, readings must also keep up with it. */
  predicate GoodClocks(limit: int, expire: bool, calls: seq<Call>) {
    SteadyReadings(calls) && (expire ==> ExpiryKeepsUp(limit, calls))
  }

  lemma {:induction false} NeverExpires(limit: int, calls: seq<Call>)
    ensures After(limit, false, calls).expiresAt.None?
  {
    if calls != [] {
      NeverExpires(limit, calls[..|calls| - 1]);
    }
  }

  lemma NextFollows(limit: int, expire: bool, calls: seq<Call>, c: Call, now: int)
    requires GoodClocks(limit, expire, calls + [c]) && (if calls == [] then now <= c.now else now == calls[|calls| - 1].now)
    ensures GoodClocks(limit, expire, calls) && Follows(After(limit, expire, calls), History(limit, expire, calls), now, c)
  {
    hide SteadyReadings, ExpiryKeepsUp, After, History, KeepsUp;
    Splits(calls, c);
    SplitsExpiry(limit, calls, c);
    NeverExpires(limit, calls);
    assert calls != [] ==> calls[|calls| - 1] in calls;
  }

  lemma {:induction false} AfterRefines(limit: int, expire: bool, calls: seq<Call>, now: int)
    requires UniqueMembers(calls) && GoodClocks(limit, expire, calls)
    requires calls != [] ==> now == calls[|calls| - 1].now
    ensures Refines(After(limit, expire, calls), History(limit, expire, calls), now)
  {
    hide Refines, UniqueMembers, SteadyReadings, ExpiryKeepsUp, After, History, Follows;
    if calls == [] {
      NothingYet(limit, expire, now, 0, 0);
    } else {
      var before, c := calls[..|calls| - 1], calls[|calls| - 1];
      assert before + [c] == calls;
      Splits(before, c);
      var earlier := if before == [] then now else before[|before| - 1].now;
      NextFollows(limit, expire, before, c, earlier);
      AfterRefines(limit, expire, before, earlier);
      OneMoreRefines(limit, expire, before, c, earlier);
    }
  }

  /** The trimmed, expiring set decides exactly as the complete history would: a call is granted if
      and only if fewer than `limit` grants lie within the last second. It takes readings that do
      not decrease; when the scripts run is free, except that the key must not expire ahead of
      the readings. */
  lemma DecidesByFullHistory(limit: int, expire: bool, calls: seq<Call>, c: Call)
    requires UniqueMembers(calls) && GoodClocks(limit, expire, calls + [c])
    ensures Grants(limit, expire, calls, c)
       <==> CountAfter(History(limit, expire, calls), c.now - WINDOW_MS) < limit
  {
    hide Refines, Follows, After, History, Trim, Alive, Rebuilt, CountAfter, UniqueMembers, SteadyReadings, ExpiryKeepsUp;
    var now := if calls == [] then c.now else calls[|calls| - 1].now;
    NextFollows(limit, expire, calls, c, now);
    AfterRefines(limit, expire, calls, now);
    HistoryFromCalls(limit, expire, calls);
    TrimmedIsRebuilt(After(limit, expire, calls), History(limit, expire, calls), now, c);
    RebuiltSize(History(limit, expire, calls), c.now - WINDOW_MS);
  }

  /** Key expiry then changes no decision. */
  lemma {:induction false} ExpiryIsInvisible(limit: int, calls: seq<Call>)
    requires UniqueMembers(calls) && GoodClocks(limit, true, calls)
    ensures History(limit, true, calls) == History(limit, false, calls)
  {
    if calls != [] {
      hide UniqueMembers, SteadyReadings, ExpiryKeepsUp, CountAfter, Grants;
      var before, c := calls[..|calls| - 1], calls[|calls| - 1];
      assert before + [c] == calls;
      Splits(before, c);
      SplitsExpiry(limit, before, c);
      ExpiryIsInvisible(limit, before);
      DecidesByFullHistory(limit, true, before, c);
      DecidesByFullHistory(limit, false, before, c);
    }
  }

  /** A key that expires ahead of the readings is forgotten too early: with a limit of 1, two calls
      whose readings are 1 ms apart are both granted. */
  lemma ExpiryCanForget()
    ensures var calls := [Call(0, 0, 1), Call(1, 2 * WINDOW_MS, 2)];
            && UniqueMembers(calls) && SteadyReadings(calls) && RealTimeOrder(calls)
            && Grants(1, true, calls[..1], calls[1]) && !Grants(1, false, calls[..1], calls[1])
  {
    var first := Call(0, 0, 1);
    var calls := [first, Call(1, 2 * WINDOW_MS, 2)];
    assert calls[..1] == [first] && [first][..0] == [];
    assert After(1, true, []) == EMPTY && After(1, false, []) == EMPTY;
    assert After(1, true, [first]) == Evaluate(EMPTY, 1, first, true).0;
    assert After(1, false, [first]) == Evaluate(EMPTY, 1, first, false).0;
    assert Trim(Alive(EMPTY, 0), -WINDOW_MS) == map[];
    var z: map<Member, int> := map[1 := 0];
    assert Evaluate(EMPTY, 1, first, true).0 == Window(z, Some(2 * WINDOW_MS));
    assert Evaluate(EMPTY, 1, first, false).0 == Window(z, None);
    assert Alive(Window(z, Some(2 * WINDOW_MS)), 2 * WINDOW_MS) == map[] && Trim(map[], 1 - WINDOW_MS) == map[];
    assert Trim(z, 1 - WINDOW_MS) == z;
  }

  // ----- exactly when the expiring set is right ---------------------------------------

  /** The decision on the call that follows `calls` is the one the history gives. */
  ghost predicate DecidesRight(limit: int, calls: seq<Call>, c: Call) {
    Grants(limit, true, calls, c) <==> CountAfter(History(limit, true, calls), c.now - WINDOW_MS) < limit
  }

  ghost predicate AllDecideRight(limit: int, calls: seq<Call>) {
    forall k | 0 <= k < |calls| :: DecidesRight(limit, calls[..k], calls[k])
  }

  lemma SplitsDecisions(limit: int, calls: seq<Call>, c: Call)
    ensures AllDecideRight(limit, calls + [c]) <==> AllDecideRight(limit, calls) && DecidesRight(limit, calls, c)
  {
    hide DecidesRight;
    var all := calls + [c];
    assert forall k | 0 <= k < |calls| :: all[..k] == calls[..k] && all[k] == calls[k];
    assert all[..|calls|] == calls && all[|calls|] == c;
  }

  /** After any calls the key expires two windows after the last grant. */
  lemma {:induction false} ExpiresAfterLastGrant(limit: int, calls: seq<Call>)
    ensures var w, h := After(limit, true, calls), History(limit, true, calls);
            h != [] ==> limit >= 1 && w.expiresAt == Some(h[|h| - 1].at + 2 * WINDOW_MS)
  {
    hide Trim, Alive;
    if calls != [] {
      ExpiresAfterLastGrant(limit, calls[..|calls| - 1]);
    }
  }

  lemma {:induction false} RecentCount(h: seq<Call>, cutoff: int)
    requires h != [] && h[|h| - 1].now > cutoff
    ensures CountAfter(h, cutoff) >= 1 && h[|h| - 1].member in Rebuilt(h, cutoff)
  {
  }

  /** A call that does not keep up finds the set empty, with a grant of the last second gone. */
  lemma Forgets(limit: int, calls: seq<Call>, c: Call)
    requires !KeyKeepsUp(limit, calls, c)
    ensures limit >= 1 && Trim(Alive(After(limit, true, calls), c.at), c.now - WINDOW_MS) == map[] && Grants(limit, true, calls, c)
    ensures var h := History(limit, true, calls); h != [] && h[|h| - 1].now > c.now - WINDOW_MS
  {
    hide After, History;
    ExpiresAfterLastGrant(limit, calls);
  }

  /** The set goes on refining the history exactly when the call keeps up. */
  lemma StepRefinesExactly(limit: int, calls: seq<Call>, c: Call, now: int)
    requires UniqueMembers(calls + [c]) && SteadyReadings(calls + [c])
    requires Refines(After(limit, true, calls), History(limit, true, calls), now) && now <= c.now
    ensures Refines(After(limit, true, calls + [c]), History(limit, true, calls + [c]), c.now) <==> KeyKeepsUp(limit, calls, c)
  {
    hide UniqueMembers, SteadyReadings, After, History, CountAfter;
    Splits(calls, c);
    var h := History(limit, true, calls);
    if KeyKeepsUp(limit, calls, c) {
      OneMoreRefines(limit, true, calls, c, now);
    } else {
      Forgets(limit, calls, c);
      OneMore(limit, true, calls, c);
      HistoryDrawn(limit, true, calls);
      RecentCount(h, c.now - WINDOW_MS);
      var h' := h + [c];
      assert h'[..|h|] == h && h'[|h|] == c;
      assert h[|h| - 1] in h;
      assert h[|h| - 1].member in Rebuilt(h', c.now - WINDOW_MS);
      hide Rebuilt, Trim, Alive;
    }
  }

  /** As long as the earlier calls kept up, the next decision is wrong exactly when the call does not
      and the limit is used up. */
  lemma NextDecision(limit: int, calls: seq<Call>, c: Call)
    requires UniqueMembers(calls) && SteadyReadings(calls + [c]) && ExpiryKeepsUp(limit, calls)
    ensures DecidesRight(limit, calls, c)
       <==> KeyKeepsUp(limit, calls, c) || CountAfter(History(limit, true, calls), c.now - WINDOW_MS) < limit
  {
    hide UniqueMembers, SteadyReadings, ExpiryKeepsUp, After, History, CountAfter, Grants;
    if KeyKeepsUp(limit, calls, c) {
      SplitsExpiry(limit, calls, c);
      DecidesByFullHistory(limit, true, calls, c);
    } else {
      Forgets(limit, calls, c);
    }
  }

  lemma {:induction false} KeepingUpDecidesRight(limit: int, calls: seq<Call>)
    requires UniqueMembers(calls) && SteadyReadings(calls) && ExpiryKeepsUp(limit, calls)
    ensures AllDecideRight(limit, calls)
  {
    if calls != [] {
      hide UniqueMembers, SteadyReadings, ExpiryKeepsUp, AllDecideRight, DecidesRight, KeyKeepsUp, History, CountAfter;
      var before, c := calls[..|calls| - 1], calls[|calls| - 1];
      assert before + [c] == calls;
      Splits(before, c);
      SplitsExpiry(limit, before, c);
      KeepingUpDecidesRight(limit, before);
      NextDecision(limit, before, c);
      SplitsDecisions(limit, before, c);
    }
  }

  /** At a limit of 1 every decision is the one the history gives if and only if every call keeps up
      with the last grant before it. */
  lemma {:induction false} LimitOneIsExact(calls: seq<Call>)
    requires UniqueMembers(calls) && SteadyReadings(calls)
    ensures AllDecideRight(1, calls) <==> ExpiryKeepsUp(1, calls)
  {
    if calls != [] {
      hide UniqueMembers, SteadyReadings, ExpiryKeepsUp, AllDecideRight, DecidesRight, KeyKeepsUp, History, CountAfter;
      var before, c := calls[..|calls| - 1], calls[|calls| - 1];
      assert before + [c] == calls;
      Splits(before, c);
      SplitsExpiry(1, before, c);
      SplitsDecisions(1, before, c);
      LimitOneIsExact(before);
      if ExpiryKeepsUp(1, before) {
        NextDecision(1, before, c);
        if !KeyKeepsUp(1, before, c) {
          Forgets(1, before, c);
          RecentCount(History(1, true, before), c.now - WINDOW_MS);
        }
      }
    }
  }

  ghost predicate RefinesAfter(limit: int, calls: seq<Call>) {
    calls != [] ==> Refines(After(limit, true, calls), History(limit, true, calls), calls[|calls| - 1].now)
  }

  ghost predicate RefinesThroughout(limit: int, calls: seq<Call>) {
    forall k | 0 <= k <= |calls| :: RefinesAfter(limit, calls[..k])
  }

  lemma SplitsRefinement(limit: int, calls: seq<Call>, c: Call)
    ensures RefinesThroughout(limit, calls + [c]) <==> RefinesThroughout(limit, calls) && RefinesAfter(limit, calls + [c])
  {
    hide RefinesAfter;
    var all := calls + [c];
    assert forall k | 0 <= k <= |calls| :: all[..k] == calls[..k];
    assert all[..|calls| + 1] == all;
  }

  /** After every prefix of the calls the set refines the history, if and only if every call keeps up. */
  lemma {:induction false} RefinesExactly(limit: int, calls: seq<Call>)
    requires UniqueMembers(calls) && SteadyReadings(calls)
    ensures RefinesThroughout(limit, calls) <==> ExpiryKeepsUp(limit, calls)
  {
    if calls != [] {
      hide UniqueMembers, SteadyReadings, ExpiryKeepsUp, KeyKeepsUp, RefinesThroughout, History, After, Refines;
      var n := |calls| - 1;
      var before, c := calls[..n], calls[n];
      assert before + [c] == calls;
      Splits(before, c);
      SplitsExpiry(limit, before, c);
      SplitsRefinement(limit, before, c);
      RefinesExactly(limit, before);
      if ExpiryKeepsUp(limit, before) {
        var earlier := if n == 0 then c.now else before[n - 1].now;
        assert n > 0 ==> before[n - 1] in before;
        AfterRefines(limit, true, before, earlier);
        StepRefinesExactly(limit, before, c, earlier);
      }
    }
  }

  /** Calls of other members with the reading of `c`, run at the same moment. */
  ghost predicate Burst(calls: seq<Call>, c: Call, burst: seq<Call>) {
    UniqueMembers(calls + burst) && forall b | b in burst :: b.now == c.now && b.at == c.at
  }

  /** A burst keeps up with its own grants. */
  lemma {:induction false} BurstKeepsUp(limit: int, calls: seq<Call>, c: Call, burst: seq<Call>)
    requires ExpiryKeepsUp(limit, calls) && KeyKeepsUp(limit, calls, c) && forall b | b in burst :: b.now == c.now && b.at == c.at
    ensures ExpiryKeepsUp(limit, calls + burst) && KeyKeepsUp(limit, calls + burst, c)
  {
    hide ExpiryKeepsUp, After, History, Grants;
    if burst == [] {
      assert calls + burst == calls;
    } else {
      var n := |burst| - 1;
      var all := calls + burst[..n];
      assert calls + burst == all + [burst[n]];
      BurstKeepsUp(limit, calls, c, burst[..n]);
      SplitsExpiry(limit, all, burst[n]);
      OneMore(limit, true, all, burst[n]);
    }
  }

  lemma {:induction false} BurstIsSteady(calls: seq<Call>, c: Call, burst: seq<Call>)
    requires SteadyReadings(calls + [c]) && forall b | b in burst :: b.now == c.now && b.at == c.at
    ensures SteadyReadings(calls + burst)
  {
    Splits(calls, c);
    var all := calls + burst;
    assert forall i | 0 <= i < |all| :: if i < |calls| then all[i] == calls[i] && calls[i] in calls else all[i] in burst;
  }

  /** A member no call has used. */
  function Unused(calls: seq<Call>): (m: Member)
    ensures forall g | g in calls :: g.member < m
  {
    if calls == [] then 0
    else
      var m, last := Unused(calls[..|calls| - 1]), calls[|calls| - 1].member;
      if last < m then m else last + 1
  }

  lemma BurstOf(calls: seq<Call>, c: Call, n: nat) returns (burst: seq<Call>)
    requires UniqueMembers(calls)
    ensures |burst| == n && Burst(calls, c, burst)
  {
    burst := seq(n, i requires 0 <= i < n => Call(c.now, c.at, Unused(calls) + i));
    var all := calls + burst;
    assert forall i | 0 <= i < |calls| :: all[i] == calls[i] && calls[i] in calls;
    assert forall i | |calls| <= i < |all| :: all[i] == burst[i - |calls|] && all[i].member == Unused(calls) + (i - |calls|);
  }

  /** After `all` the set, as a call like `c` finds it, holds exactly the burst, while the history counts
      one more grant at least. */
  ghost predicate Filled(limit: int, all: seq<Call>, c: Call, burst: seq<Call>) {
    var cutoff := c.now - WINDOW_MS;
    && Trim(Alive(After(limit, true, all), c.at), cutoff) == Rebuilt(burst, cutoff)
    && |Rebuilt(burst, cutoff)| == |burst| < CountAfter(History(limit, true, all), cutoff)
  }

  /** A burst that finds the set empty fills it as long as the limit allows, while the history still
      holds the forgotten grant. */
  lemma {:induction false} BurstFills(limit: int, calls: seq<Call>, c: Call, burst: seq<Call>)
    requires Burst(calls, c, burst) && |burst| < limit && !KeyKeepsUp(limit, calls, c)
    ensures Filled(limit, calls + burst, c, burst)
  {
    hide UniqueMembers, KeyKeepsUp, Filled, Burst;
    if burst == [] {
      assert calls + burst == calls;
      FindsNothing(limit, calls, c);
    } else {
      var n := |burst| - 1;
      var early, b := burst[..n], burst[n];
      assert early + [b] == burst;
      assert calls + burst == (calls + early) + [b];
      BurstSplits(calls, c, early, b);
      BurstFills(limit, calls, c, early);
      BurstGrows(limit, calls + early, c, early, b);
    }
  }

  lemma FindsNothing(limit: int, calls: seq<Call>, c: Call)
    requires !KeyKeepsUp(limit, calls, c)
    ensures Filled(limit, calls, c, [])
  {
    hide After, History;
    Forgets(limit, calls, c);
    RecentCount(History(limit, true, calls), c.now - WINDOW_MS);
  }

  lemma BurstGrows(limit: int, all: seq<Call>, c: Call, early: seq<Call>, b: Call)
    requires Filled(limit, all, c, early) && |early| + 1 < limit && b.now == c.now && b.at == c.at
    requires UniqueMembers(early) && UniqueMembers(early + [b]) && forall g | g in early :: g.member != b.member
    ensures Filled(limit, all + [b], c, early + [b])
  {
    hide UniqueMembers, After, History, Grants, Evaluate, Trim, Alive, Rebuilt, CountAfter;
    var cutoff := c.now - WINDOW_MS;
    OneMore(limit, true, all, b);
    RebuiltSize(early, cutoff);
    TrimRebuilt(early + [b], cutoff, cutoff);
    OneMoreInBurst(After(limit, true, all), History(limit, true, all), limit, early, b);
  }

  lemma OneMoreInBurst(w: Window, h: seq<Call>, limit: int, early: seq<Call>, b: Call)
    requires var cutoff := b.now - WINDOW_MS;
             && Trim(Alive(w, b.at), cutoff) == Rebuilt(early, cutoff) && |Rebuilt(early, cutoff)| == |early| < limit
             && b.member !in Rebuilt(early, cutoff)
             && Trim(Rebuilt(early + [b], cutoff), cutoff) == Rebuilt(early + [b], cutoff)
    ensures var cutoff, (w', granted) := b.now - WINDOW_MS, Evaluate(w, limit, b, true);
            && granted && Trim(Alive(w', b.at), cutoff) == Rebuilt(early + [b], cutoff)
            && |Rebuilt(early + [b], cutoff)| == |early| + 1
            && CountAfter(h + [b], cutoff) == CountAfter(h, cutoff) + 1
  {
    hide Trim;
    assert (h + [b])[..|h|] == h && (early + [b])[..|early|] == early;
  }

  lemma BurstSplits(calls: seq<Call>, c: Call, early: seq<Call>, b: Call)
    requires Burst(calls, c, early + [b])
    ensures Burst(calls, c, early) && b.now == c.now && b.at == c.at
    ensures UniqueMembers(early) && UniqueMembers(early + [b]) && forall g | g in early :: g.member != b.member
  {
    assert b in early + [b];
    var all := calls + (early + [b]);
    assert forall i | 0 <= i < |calls + early| :: (calls + early)[i] == all[i];
    assert forall i | 0 <= i < |early + [b]| :: (early + [b])[i] == all[|calls| + i];
    Splits(early, b);
  }

  lemma LateBurstIsWrong(limit: int, calls: seq<Call>, c: Call) returns (burst: seq<Call>)
    requires UniqueMembers(calls) && !KeyKeepsUp(limit, calls, c)
    ensures Burst(calls, c, burst) && !AllDecideRight(limit, calls + burst)
  {
    hide UniqueMembers, KeyKeepsUp, After, History, Trim, Alive, Rebuilt, CountAfter;
    Forgets(limit, calls, c);
    burst := BurstOf(calls, c, limit);
    var n := limit - 1;
    var early, b := burst[..n], burst[n];
    assert early + [b] == burst;
    BurstSplits(calls, c, early, b);
    BurstFills(limit, calls, c, early);
    assert calls + burst == (calls + early) + [b];
    SplitsDecisions(limit, calls + early, b);
  }

  /** At any limit: a call keeps up if and only if no burst in its place is decided wrongly. */
  lemma NextIsExact(limit: int, calls: seq<Call>, c: Call)
    requires UniqueMembers(calls) && SteadyReadings(calls + [c]) && ExpiryKeepsUp(limit, calls)
    ensures KeyKeepsUp(limit, calls, c) <==> forall burst | Burst(calls, c, burst) :: AllDecideRight(limit, calls + burst)
  {
    hide UniqueMembers, SteadyReadings, ExpiryKeepsUp, KeyKeepsUp, AllDecideRight;
    if KeyKeepsUp(limit, calls, c) {
      forall burst | Burst(calls, c, burst) ensures AllDecideRight(limit, calls + burst) {
        BurstKeepsUp(limit, calls, c, burst);
        BurstIsSteady(calls, c, burst);
        KeepingUpDecidesRight(limit, calls + burst);
      }
    } else {
      var burst := LateBurstIsWrong(limit, calls, c);
    }
  }

  /** The clock condition is the exact one, at any limit: every call keeps up with the last grant before
      it if and only if every decision is the one the history gives, whatever burst of other callers is
      put in the place of any call. */
  lemma {:induction false} ExpiryIsExact(limit: int, calls: seq<Call>)
    requires UniqueMembers(calls) && SteadyReadings(calls)
    ensures ExpiryKeepsUp(limit, calls)
       <==> forall k, burst | 0 <= k < |calls| && Burst(calls[..k], calls[k], burst) :: AllDecideRight(limit, calls[..k] + burst)
  {
    if calls != [] {
      hide UniqueMembers, SteadyReadings, ExpiryKeepsUp, KeyKeepsUp, AllDecideRight, Burst;
      var n := |calls| - 1;
      var before, c := calls[..n], calls[n];
      assert before + [c] == calls;
      assert forall k | 0 <= k < n :: before[..k] == calls[..k] && before[k] == calls[k];
      Splits(before, c);
      SplitsExpiry(limit, before, c);
      ExpiryIsExact(limit, before);
      if ExpiryKeepsUp(limit, before) {
        NextIsExact(limit, before, c);
      }
    }
  }

  // ----- the real-time bound under skewed clocks -------------------------------------

  /** Members granted in [lo, hi). */
  function MembersIn(h: seq<Call>, lo: int, hi: int): set<Member> {
    set i | 0 <= i < |h| && lo <= h[i].at < hi :: h[i].member
  }

  lemma MembersSplit(t: seq<Call>, g: Call, lo: int, hi: int)
    requires UniqueMembers(t + [g])
    ensures UniqueMembers(t) && g.member !in MembersIn(t, lo, hi)
    ensures MembersIn(t + [g], lo, hi) == MembersIn(t, lo, hi) + if lo <= g.at < hi then {g.member} else {}
  {
    var h := t + [g];
    assert forall i | 0 <= i < |t| :: h[i] == t[i];
    assert h[|t|] == g;
  }

  lemma {:induction false} CountMembers(h: seq<Call>, lo: int, hi: int)
    requires UniqueMembers(h)
    ensures |MembersIn(h, lo, hi)| == CountIn(h, lo, hi)
  {
    if h != [] {
      hide MembersIn, UniqueMembers;
      var t, g := h[..|h| - 1], h[|h| - 1];
      assert h == t + [g];
      MembersSplit(t, g, lo, hi);
      CountMembers(t, lo, hi);
    } else {
      assert MembersIn(h, lo, hi) == {};
    }
  }

  lemma SubmapSize<K, V>(s: set<K>, m: map<K, V>)
    requires s <= m.Keys
    ensures |s| <= |m|
  {
    assert m.Keys == s + (m.Keys - s);
  }

  /** Every grant in [lo, ..) is still in the set, under the client time it was made at. */
  ghost predicate Retains(w: Window, h: seq<Call>, lo: int) {
    forall g | g in h && g.at >= lo ::
      && g.member in w.zset && w.zset[g.member] == g.now
      && (w.expiresAt.Some? ==> w.expiresAt.value >= lo + 2 * WINDOW_MS)
  }

  /** The script at this call finds every grant in [lo, ..). */
  ghost predicate Finds(w: Window, h: seq<Call>, lo: int, c: Call) {
    forall g | g in h && g.at >= lo ::
      var z := Trim(Alive(w, c.at), c.now - WINDOW_MS); g.member in z && z[g.member] == g.now
  }

  /** A call that runs less than 1000 - late - ahead after `lo` trims no grant made since `lo`. */
  lemma TrimRetains(w: Window, h: seq<Call>, lo: int, late: int, ahead: int, c: Call)
    requires Retains(w, h, lo) && Skewed(h, late, ahead)
    requires c.now - c.at <= ahead && 0 <= late && 0 <= ahead && c.at < lo + WINDOW_MS - late - ahead
    ensures Finds(w, h, lo, c)
  {
    forall g | g in h && g.at >= lo
      ensures var z := Trim(Alive(w, c.at), c.now - WINDOW_MS); g.member in z && z[g.member] == g.now
    {
      var i :| 0 <= i < |h| && h[i] == g;
      assert g.now > c.now - WINDOW_MS;
    }
  }

  /** One call made within the window that starts at `lo`. */
  lemma StepRetains(w: Window, h: seq<Call>, limit: int, c: Call, expire: bool, lo: int, hi: int)
    requires UniqueMembers(h) && limit >= 1 && Finds(w, h, lo, c) && Retains(w, h, lo) && CountIn(h, lo, hi) <= limit
    requires forall g | g in h :: g.at <= c.at && g.member != c.member
    ensures var (w', granted) := Evaluate(w, limit, c, expire);
            var h' := if granted then h + [c] else h;
            Retains(w', h', lo) && CountIn(h', lo, hi) <= limit
  {
    hide Trim, Alive, UniqueMembers, CountIn, Retains, Evaluate, Finds;
    EvaluateRetains(w, h, limit, c, expire, lo);
    if Evaluate(w, limit, c, expire).1 {
      GrantFits(w, h, lo, hi, c);
      CountOneMore(h, c, lo, hi);
    }
  }

  lemma CountOneMore(h: seq<Call>, c: Call, lo: int, hi: int)
    ensures CountIn(h + [c], lo, hi) <= CountIn(h, lo, hi) + 1
  {
    assert (h + [c])[..|h|] == h;
  }

  /** A grant takes room in the set; granted or not, the set then holds every grant since `lo`. */
  lemma EvaluateRetains(w: Window, h: seq<Call>, limit: int, c: Call, expire: bool, lo: int)
    requires limit >= 1 && Finds(w, h, lo, c) && Retains(w, h, lo) && forall g | g in h :: g.at <= c.at && g.member != c.member
    ensures Evaluate(w, limit, c, expire).1 <==> |Trim(Alive(w, c.at), c.now - WINDOW_MS)| < limit
    ensures var (w', granted) := Evaluate(w, limit, c, expire); Retains(w', if granted then h + [c] else h, lo)
  {
    hide Trim, Alive;
  }

  /** The grants made in the window are among the members the script counts. */
  lemma GrantFits(w: Window, h: seq<Call>, lo: int, hi: int, c: Call)
    requires UniqueMembers(h)
    requires Finds(w, h, lo, c)
    ensures CountIn(h, lo, hi) <= |Trim(Alive(w, c.at), c.now - WINDOW_MS)|
  {
    var z := Trim(Alive(w, c.at), c.now - WINDOW_MS);
    assert MembersIn(h, lo, hi) <= z.Keys;
    SubmapSize(MembersIn(h, lo, hi), z);
    CountMembers(h, lo, hi);
  }

  lemma {:induction false} RetainsAndBounds(limit: int, expire: bool, calls: seq<Call>, lo: int, late: int, ahead: int)
    requires UniqueMembers(calls) && RealTimeOrder(calls) && Skewed(calls, late, ahead) && 0 <= late && 0 <= ahead && limit >= 1
    requires forall i | 0 <= i < |calls| :: calls[i].at < lo + WINDOW_MS - late - ahead
    ensures Retains(After(limit, expire, calls), History(limit, expire, calls), lo)
    ensures CountIn(History(limit, expire, calls), lo, lo + WINDOW_MS - late - ahead) <= limit
  {
    hide Finds, Retains, CountIn, After, History, Evaluate, Trim, Alive, UniqueMembers, RealTimeOrder, Skewed;
    if calls == [] {
      NothingYet(limit, expire, 0, lo, lo + WINDOW_MS - late - ahead);
    } else {
      var before, c := calls[..|calls| - 1], calls[|calls| - 1];
      assert before + [c] == calls;
      Splits(before, c);
      SplitsSkew(before, c, late, ahead);
      RetainsAndBounds(limit, expire, before, lo, late, ahead);
      HistoryFromCalls(limit, expire, before);
      var w, h := After(limit, expire, before), History(limit, expire, before);
      HistorySkew(h, before, late, ahead);
      TrimRetains(w, h, lo, late, ahead, c);
      StepRetains(w, h, limit, c, expire, lo, lo + WINDOW_MS - late - ahead);
      OneMore(limit, expire, before, c);
    }
  }

  lemma HistorySkew(h: seq<Call>, calls: seq<Call>, late: int, ahead: int)
    requires Skewed(calls, late, ahead) && forall g | g in h :: g in calls
    ensures Skewed(h, late, ahead)
  {
    forall i | 0 <= i < |h| ensures -late <= h[i].now - h[i].at <= ahead {
      assert h[i] in calls;
      var k :| 0 <= k < |calls| && calls[k] == h[i];
    }
  }

  lemma {:induction false} CountBeyond(h: seq<Call>, lo: int, hi: int)
    requires forall g | g in h :: g.at >= hi || g.at < lo
    ensures CountIn(h, lo, hi) == 0
  {
    if h != [] {
      assert h[|h| - 1] in h;
      CountBeyond(h[..|h| - 1], lo, hi);
    }
  }

  /** For any number of callers, whose scripts run at most `late` ms after and `ahead` ms before
      their readings, any half-open real-time window of length 1000 - late - ahead holds at most
      `limit` grants. */
  lemma {:induction false} WindowBound(limit: int, expire: bool, calls: seq<Call>, lo: int, late: int, ahead: int)
    requires UniqueMembers(calls) && RealTimeOrder(calls) && Skewed(calls, late, ahead) && limit >= 1
    requires 0 <= late && 0 <= ahead && late + ahead < WINDOW_MS
    ensures CountIn(History(limit, expire, calls), lo, lo + WINDOW_MS - late - ahead) <= limit
  {
    if calls != [] {
      var before, c := calls[..|calls| - 1], calls[|calls| - 1];
      if c.at < lo + WINDOW_MS - late - ahead {
        RetainsAndBounds(limit, expire, calls, lo, late, ahead);
      } else {
        WindowBound(limit, expire, before, lo, late, ahead);
        var h, h' := History(limit, expire, before), History(limit, expire, calls);
        if Grants(limit, expire, before, c) {
          assert h' == h + [c];
          assert h'[..|h'| - 1] == h && h'[|h'| - 1] == c;
        } else {
          assert h' == h;
        }
      }
    }
  }

  lemma {:induction false} CountSplits(h: seq<Call>, lo: int, mid: int, hi: int)
    requires lo <= mid <= hi
    ensures CountIn(h, lo, hi) == CountIn(h, lo, mid) + CountIn(h, mid, hi)
  {
    if h != [] {
      CountSplits(h[..|h| - 1], lo, mid, hi);
    }
  }

  /** ceiling(a / b): how many windows of length `b` cover an interval of length `a`. */
  function CeilingDiv(a: nat, b: int): (r: nat)
    requires b > 0
    ensures a <= r * b
    ensures a > 0 ==> (r - 1) * b < a
  {
    if a == 0 then 0 else if a <= b then 1 else 1 + CeilingDiv(a - b, b)
  }

  lemma OneMoreWindow(limit: int, n: nat)
    ensures limit * (1 + n) == limit + limit * n
  {
  }

  /** Any half-open real-time interval of `length` ms holds at most
      `limit` * ceiling(`length` / (1000 - late - ahead)) grants. */
  lemma {:induction false} IntervalBound(limit: int, expire: bool, calls: seq<Call>, lo: int, length: nat, late: int, ahead: int)
    requires UniqueMembers(calls) && RealTimeOrder(calls) && Skewed(calls, late, ahead) && limit >= 1
    requires 0 <= late && 0 <= ahead && late + ahead < WINDOW_MS
    ensures CountIn(History(limit, expire, calls), lo, lo + length) <= limit * CeilingDiv(length, WINDOW_MS - late - ahead)
    decreases length
  {
    var h, w := History(limit, expire, calls), WINDOW_MS - late - ahead;
    if length == 0 {
      CountBeyond(h, lo, lo);
    } else {
      WindowBound(limit, expire, calls, lo, late, ahead);
      if length <= w {
        CountSplits(h, lo, lo + length, lo + w);
      } else {
        CountSplits(h, lo, lo + w, lo + length);
        IntervalBound(limit, expire, calls, lo + w, length - w, late, ahead);
        OneMoreWindow(limit, CeilingDiv(length - w, w));
      }
    }
  }

  /** Every client's clock is within `d` of real time when it reads it, and its script runs at most
      `delay` ms after the reading. `readAt` are the real times of the readings. */
  predicate ClocksWithin(calls: seq<Call>, readAt: seq<int>, d: int, delay: int) {
    && |readAt| == |calls|
    && forall i | 0 <= i < |calls| ::
      -d <= calls[i].now - readAt[i] <= d && 0 <= calls[i].at - readAt[i] <= delay
  }

  /** With clocks within `d` ms and scripts delayed by at most `delay` ms, any half-open real-time
      window of length 1000 - 2d - delay holds at most `limit` grants, with or without key expiry. */
  lemma SkewTolerantBound(limit: int, expire: bool, calls: seq<Call>, readAt: seq<int>, lo: int, d: int, delay: int)
    requires UniqueMembers(calls) && RealTimeOrder(calls) && ClocksWithin(calls, readAt, d, delay) && limit >= 1
    requires 0 <= d && 0 <= delay && 2 * d + delay < WINDOW_MS
    ensures CountIn(History(limit, expire, calls), lo, lo + WINDOW_MS - 2 * d - delay) <= limit
  {
    hide History, CountIn, UniqueMembers, RealTimeOrder;
    WindowBound(limit, expire, calls, lo, d + delay, d);
    assert lo + WINDOW_MS - (d + delay) - d == lo + WINDOW_MS - 2 * d - delay;
  }

  ghost predicate WithinLimit(limit: int, expire: bool, calls: seq<Call>, lo: int, width: int) {
    CountIn(History(limit, expire, calls), lo, lo + width) <= limit
  }

  /** The window cannot be made wider: all windows of a given width hold at most `limit` grants, for
      all callers whose scripts are that late or early, exactly when the width is at most
      1000 - late - ahead. */
  lemma WindowIsExact(late: int, ahead: int, width: nat)
    requires 0 <= late && 0 <= ahead && late + ahead < WINDOW_MS
    ensures (forall limit, expire, calls, lo |
               limit >= 1 && UniqueMembers(calls) && RealTimeOrder(calls) && Skewed(calls, late, ahead) ::
               WithinLimit(limit, expire, calls, lo, width))
       <==> width <= 1000 - late - ahead
  {
    hide UniqueMembers, RealTimeOrder, Skewed, WithinLimit;
    if width <= WINDOW_MS - late - ahead {
      forall limit, expire, calls, lo |
        limit >= 1 && UniqueMembers(calls) && RealTimeOrder(calls) && Skewed(calls, late, ahead)
        ensures WithinLimit(limit, expire, calls, lo, width)
      {
        NarrowerWindow(limit, expire, calls, lo, late, ahead, width);
      }
    } else {
      var calls := WiderWindow(late, ahead, width);
    }
  }

  lemma NarrowerWindow(limit: int, expire: bool, calls: seq<Call>, lo: int, late: int, ahead: int, width: nat)
    requires UniqueMembers(calls) && RealTimeOrder(calls) && Skewed(calls, late, ahead) && limit >= 1
    requires 0 <= late && 0 <= ahead && late + ahead < WINDOW_MS && width <= WINDOW_MS - late - ahead
    ensures WithinLimit(limit, expire, calls, lo, width)
  {
    hide UniqueMembers, RealTimeOrder, Skewed, History, CountIn;
    WindowBound(limit, expire, calls, lo, late, ahead);
    CountSplits(History(limit, expire, calls), lo, lo + width, lo + WINDOW_MS - late - ahead);
  }

  lemma WiderWindow(late: int, ahead: int, width: nat) returns (calls: seq<Call>)
    requires 0 <= late && 0 <= ahead && late + ahead < WINDOW_MS < width + late + ahead
    ensures UniqueMembers(calls) && RealTimeOrder(calls) && Skewed(calls, late, ahead) && !WithinLimit(1, true, calls, late, width)
  {
    hide History, CountIn;
    var first, second := Call(0, late, 1), Call(WINDOW_MS, WINDOW_MS - ahead, 2);
    calls := [first, second];
    BothGranted(first, second, late, late + width);
  }

  /** With a limit of 1, two calls whose readings are a window apart are both granted, whenever
      their scripts run. */
  lemma BothGranted(first: Call, second: Call, lo: int, hi: int)
    requires second.now >= first.now + WINDOW_MS && lo <= first.at < hi && lo <= second.at < hi
    ensures CountIn(History(1, true, [first, second]), lo, hi) == 2
  {
    var calls := [first, second];
    assert calls[..1] == [first] && [first][..0] == [];
    var z: map<Member, int> := map[first.member := first.now];
    assert Trim(Alive(EMPTY, first.at), first.now - WINDOW_MS) == map[];
    assert Evaluate(EMPTY, 1, first, true) == (Window(z, Some(first.at + 2 * WINDOW_MS)), true);
    assert History(1, true, [first]) == [] + [first] == [first] && After(1, true, [first]) == Window(z, Some(first.at + 2 * WINDOW_MS));
    assert Trim(z, second.now - WINDOW_MS) == map[] && Trim(map[], second.now - WINDOW_MS) == map[];
    assert Trim(Alive(After(1, true, [first]), second.at), second.now - WINDOW_MS) == map[];
    assert Grants(1, true, [first], second);
    assert History(1, true, calls) == [first] + [second] == calls;
    assert CountIn([first], lo, hi) == 1;
  }

  /** Delays count as much as clock errors: two calls whose clocks are exact when read, the first
      delayed by two seconds, are both granted within 1 ms at a limit of 1. */
  lemma DelayedCalls()
    ensures var calls, readAt := [Call(0, 2000, 1), Call(2001, 2001, 2)], [0, 2001];
            && ClocksWithin(calls, readAt, 0, 2000) && UniqueMembers(calls) && RealTimeOrder(calls)
            && CountIn(History(1, true, calls), 2000, 2002) == 2
  {
    hide History, CountIn;
    BothGranted(Call(0, 2000, 1), Call(2001, 2001, 2), 2000, 2002);
  }

  // ----- the bound on readings -----------------------------------------------------------

  /** The same calls, placed in time by their readings. */
  function ByReading(h: seq<Call>): seq<Call> {
    seq(|h|, i requires 0 <= i < |h| => h[i].(at := h[i].now))
  }

  lemma ReadingOfOneMore(h: seq<Call>, c: Call, lo: int, hi: int)
    ensures CountIn(ByReading(h + [c]), lo, hi) == CountIn(ByReading(h), lo, hi) + if lo <= c.now < hi then 1 else 0
  {
    assert (h + [c])[..|h|] == h;
    var r := ByReading(h) + [c.(at := c.now)];
    assert ByReading(h + [c]) == r && r[..|h|] == ByReading(h);
  }

  lemma {:induction false} ReadingsAfter(h: seq<Call>, lo: int, hi: int, cutoff: int)
    requires cutoff < lo
    ensures CountIn(ByReading(h), lo, hi) <= CountAfter(h, cutoff)
  {
    if h != [] {
      var t, c := h[..|h| - 1], h[|h| - 1];
      assert t + [c] == h;
      ReadingsAfter(t, lo, hi, cutoff);
      ReadingOfOneMore(t, c, lo, hi);
    }
  }

  lemma ReadingStep(limit: int, expire: bool, before: seq<Call>, c: Call, lo: int)
    requires UniqueMembers(before) && GoodClocks(limit, expire, before + [c]) && limit >= 1
    requires CountIn(ByReading(History(limit, expire, before)), lo, lo + WINDOW_MS) <= limit
    ensures CountIn(ByReading(History(limit, expire, before + [c])), lo, lo + WINDOW_MS) <= limit
  {
    hide UniqueMembers, GoodClocks, CountAfter, CountIn, ByReading, History, After;
    var h := History(limit, expire, before);
    DecidesByFullHistory(limit, expire, before, c);
    OneMore(limit, expire, before, c);
    hide Grants, Evaluate;
    ReadingOfOneMore(h, c, lo, lo + WINDOW_MS);
    if lo <= c.now < lo + WINDOW_MS {
      ReadingsAfter(h, lo, lo + WINDOW_MS, c.now - WINDOW_MS);
    }
  }

  lemma SplitsClocks(limit: int, expire: bool, calls: seq<Call>, c: Call)
    requires GoodClocks(limit, expire, calls + [c])
    ensures GoodClocks(limit, expire, calls)
  {
    hide SteadyReadings, ExpiryKeepsUp;
    Splits(calls, c);
    SplitsExpiry(limit, calls, c);
  }

  /** With readings that do not decrease, any window of one second of readings holds at most
      `limit` grants, however late the scripts run. */
  lemma {:induction false} ReadingWindowBound(limit: int, expire: bool, calls: seq<Call>, lo: int)
    requires UniqueMembers(calls) && GoodClocks(limit, expire, calls) && limit >= 1
    ensures CountIn(ByReading(History(limit, expire, calls)), lo, lo + WINDOW_MS) <= limit
  {
    if calls != [] {
      hide UniqueMembers, GoodClocks, CountIn, ByReading, History;
      var before, c := calls[..|calls| - 1], calls[|calls| - 1];
      assert before + [c] == calls;
      Splits(before, c);
      SplitsClocks(limit, expire, before, c);
      ReadingWindowBound(limit, expire, before, lo);
      ReadingStep(limit, expire, before, c, lo);
    }
  }

  /** So any half-open interval of `length` ms of readings holds at most `limit` grants for each
      second begun. */
  lemma {:induction false} ReadingIntervalBound(limit: int, expire: bool, calls: seq<Call>, lo: int, length: nat)
    requires UniqueMembers(calls) && GoodClocks(limit, expire, calls) && limit >= 1
    ensures CountIn(ByReading(History(limit, expire, calls)), lo, lo + length) <= limit * CeilingDiv(length, WINDOW_MS)
    decreases length
  {
    hide UniqueMembers, GoodClocks, ByReading, History;
    var h := ByReading(History(limit, expire, calls));
    if length == 0 {
      CountBeyond(h, lo, lo);
    } else {
      ReadingWindowBound(limit, expire, calls, lo);
      if length <= WINDOW_MS {
        CountSplits(h, lo, lo + length, lo + WINDOW_MS);
      } else {
        CountSplits(h, lo, lo + WINDOW_MS, lo + length);
        ReadingIntervalBound(limit, expire, calls, lo + WINDOW_MS, length - WINDOW_MS);
        OneMoreWindow(limit, CeilingDiv(length - WINDOW_MS, WINDOW_MS));
      }
    }
  }

  // ----- the limiter object --------------------------------------------------------------

  datatype Poll = Poll(call: Call, monotonicMs: int)

  datatype Acquired = Granted(polls: nat) | TimedOut(polls: nat) | StillPolling

  /** `_limit = max(1, int(requests_per_second))` */
  function LimitFor(requestsPerSecond: real): (limit: int)
    ensures limit >= 1 && (requestsPerSecond >= 1.0 ==> limit as real <= requestsPerSecond < limit as real + 1.0)
    ensures requestsPerSecond < 1.0 ==> limit == 1
  {
    if requestsPerSecond >= 1.0 then requestsPerSecond.Floor else 1
  }

  /** The script evaluations of the first `n` rounds. */
  function Polled(polls: seq<Poll>, n: nat): seq<Call>
    requires n <= |polls|
  {
    if n == 0 then [] else Polled(polls, n - 1) + [polls[n - 1].call]
  }

  /** Round `i` of an `acquire` after `calls`: its evaluation is granted. */
  predicate Succeeds(limit: int, calls: seq<Call>, polls: seq<Poll>, i: nat)
    requires i < |polls|
  {
    Grants(limit, true, calls + Polled(polls, i), polls[i].call)
  }

  predicate Expired(start: int, timeout: Option<int>, poll: Poll) {
    timeout.Some? && poll.monotonicMs > start + timeout.value
  }

  /** The first `n` rounds neither succeed nor time out. */
  ghost predicate GoesOn(limit: int, calls: seq<Call>, start: int, polls: seq<Poll>, timeout: Option<int>, n: nat)
    requires n <= |polls|
  {
    forall i: nat | i < n :: !Succeeds(limit, calls, polls, i) && !Expired(start, timeout, polls[i])
  }

  lemma NoneYet(limit: int, calls: seq<Call>, start: int, polls: seq<Poll>, timeout: Option<int>)
    ensures GoesOn(limit, calls, start, polls, timeout, 0)
  {
  }

  lemma GoesOnMore(limit: int, calls: seq<Call>, start: int, polls: seq<Poll>, timeout: Option<int>, n: nat)
    requires n < |polls| && GoesOn(limit, calls, start, polls, timeout, n)
    requires !Succeeds(limit, calls, polls, n) && !Expired(start, timeout, polls[n])
    ensures GoesOn(limit, calls, start, polls, timeout, n + 1)
  {
  }

  class GlobalSecRateLimiter {
    const limit: int
    var window: Window
    /** Every script evaluation so far. */
    ghost var calls: seq<Call>

    ghost predicate Valid()
      reads this
    {
      limit >= 1 && window == After(limit, true, calls)
    }

    constructor (requestsPerSecond: real)
      ensures Valid() && calls == [] && limit == LimitFor(requestsPerSecond)
    {
      limit := LimitFor(requestsPerSecond);
      window := EMPTY;
      calls := [];
    }

    /** The Lua script. */
    method TryAcquire(c: Call) returns (granted: bool)
      requires Valid()
      modifies this
      ensures Valid() && calls == old(calls) + [c]
      ensures granted <==> Grants(limit, true, old(calls), c)
      ensures granted ==> History(limit, true, calls) == History(limit, true, old(calls)) + [c]
      ensures !granted ==> History(limit, true, calls) == History(limit, true, old(calls))
    {
      hide After, History, Trim, Alive;
      var zset := Trim(Alive(window, c.at), c.now - WINDOW_MS);
      var count := |zset|;
      calls := calls + [c];
      OneMore(limit, true, old(calls), c);
      if count < limit {
        window := Window(zset[c.member := c.now], Some(c.at + 2 * WINDOW_MS));
        return true;
      }
      window := Window(zset, if zset == map[] then None else window.expiresAt);
      return false;
    }

    /** The polling loop. A caller leaves with exactly one grant, or with none after its
        timeout. `polls` holds the clock readings of as many rounds as are run. */
    method Acquire(start: int, polls: seq<Poll>, timeout: Option<int>) returns (r: Acquired)
      requires Valid()
      modifies this
      ensures Valid()
      ensures r.Granted? || r.TimedOut? ==> 0 < r.polls <= |polls|
      ensures calls == old(calls) + Polled(polls, if r.StillPolling? then |polls| else r.polls)
      ensures r.Granted? ==> History(limit, true, calls) == History(limit, true, old(calls)) + [polls[r.polls - 1].call]
      ensures !r.Granted? ==> History(limit, true, calls) == History(limit, true, old(calls))
      ensures if r.StillPolling? then GoesOn(limit, old(calls), start, polls, timeout, |polls|)
              else GoesOn(limit, old(calls), start, polls, timeout, r.polls - 1)
                   && (r.Granted? <==> Succeeds(limit, old(calls), polls, r.polls - 1))
                   && (r.TimedOut? ==> Expired(start, timeout, polls[r.polls - 1]))
    {
      hide After, History, Grants, GoesOn;
      NoneYet(limit, calls, start, polls, timeout);
      var i := 0;
      while i < |polls|
        invariant 0 <= i <= |polls|
        invariant Valid()
        invariant calls == old(calls) + Polled(polls, i)
        invariant History(limit, true, calls) == History(limit, true, old(calls))
        invariant GoesOn(limit, old(calls), start, polls, timeout, i)
      {
        ghost var before := calls;
        var granted := TryAcquire(polls[i].call);
        i := i + 1;
        assert calls == old(calls) + Polled(polls, i) by {
          assert before == old(calls) + Polled(polls, i - 1);
        }
        if granted {
          return Granted(i);
        }
        if timeout.Some? && polls[i - 1].monotonicMs - start > timeout.value {
          return TimedOut(i);
        }
        GoesOnMore(limit, old(calls), start, polls, timeout, i - 1);
      }
      return StillPolling;
    }
  }
}
