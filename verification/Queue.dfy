/** The work queue (app/queue/stream.py) over one process's view of Redis. */
module Queue {
  import opened Store
  import opened Handler
  import opened Environment

  /** The depth `depth` reports: an error reply of XLEN counts as an empty queue. */
  function ReportedDepth(turn: Turn): int {
    if turn.input.XlenError? then 0 else |turn.db.stream|
  }

  datatype Admission = Admitted | Full | DepthRaised | ProcessGone

  function AdmissionOf(cfg: Config, turn: Turn): Admission {
    if !turn.input.Ok? && !turn.input.XlenError? then DepthRaised
    else if DepthAdmits(cfg, turn.db, turn.input) then Admitted
    else Full
  }

  // ----- reclaiming --------------------------------------------------------------------------

  /** XPENDING lists at most this many entries, oldest id first. */
  const LISTING_LIMIT := 100

  predicate Increasing(ids: seq<EntryId>) {
    forall i, j | 0 <= i < j < |ids| :: ids[i] < ids[j]
  }

  lemma StillIncreasing(ids: seq<EntryId>, e: EntryId)
    requires Increasing(ids) && forall f | f in ids :: f < e
    ensures Increasing(ids + [e])
  {
    forall i | 0 <= i < |ids| ensures ids[i] < e {
      assert ids[i] in ids;
    }
  }

  lemma PrefixIncreasing(before: seq<EntryId>, e: EntryId)
    requires Increasing(before + [e])
    ensures Increasing(before) && forall f | f in before :: f < e
  {
    var ids := before + [e];
    forall f | f in before ensures f < e {
      var k :| 0 <= k < |before| && before[k] == f;
      assert ids[k] < ids[|before|];
    }
    forall i, j | 0 <= i < j < |before| ensures before[i] < before[j] {
      assert ids[i] < ids[j];
    }
  }

  predicate AllPending(db: Db, ids: seq<EntryId>) {
    forall e | e in ids :: e in db.pel
  }

  function PendingUpTo(db: Db, e: EntryId): (ids: seq<EntryId>)
    ensures forall f :: f in ids <==> f in db.pel && f <= e
    ensures Increasing(ids)
  {
    var before := if e == 0 then [] else PendingUpTo(db, e - 1);
    StillIncreasing(before, e);
    if e in db.pel then before + [e] else before
  }

  function Listing(db: Db): (ids: seq<EntryId>)
    ensures AllPending(db, ids) && Increasing(ids) && |ids| <= LISTING_LIMIT
    ensures forall e, f | e in ids && f in db.pel && f < e :: f in ids
  {
    var ids := PendingUpTo(db, db.lastDelivered);
    if |ids| <= LISTING_LIMIT then ids else ids[..LISTING_LIMIT]
  }

  /** Leases are on entries that have been delivered. */
  predicate PelDelivered(db: Db) { forall e | e in db.pel :: e <= db.lastDelivered }

  /** The pending entries with a smaller id. */
  function Older(db: Db, e: EntryId): set<EntryId> { set f | f in db.pel && f < e }

  /** One of the hundred oldest pending entries. */
  predicate AmongOldest(db: Db, e: EntryId) { e in db.pel && |Older(db, e)| < 100 }

  function Smaller(ids: seq<EntryId>, e: EntryId): set<EntryId> { set f | f in ids && f < e }

  lemma {:induction false} AllSmaller(ids: seq<EntryId>, e: EntryId)
    requires Increasing(ids) && forall f | f in ids :: f < e
    ensures |Smaller(ids, e)| == |ids|
  {
    if ids == [] {
      assert Smaller(ids, e) == {};
    } else {
      var before, x := ids[..|ids| - 1], ids[|ids| - 1];
      assert ids == before + [x] && x in ids;
      PrefixIncreasing(before, x);
      hide Increasing;
      assert forall f | f in before :: f in ids;
      AllSmaller(before, e);
      OneMoreSmaller(before, x, e);
    }
  }

  lemma OneMoreSmaller(before: seq<EntryId>, x: EntryId, e: EntryId)
    requires x < e && forall f | f in before :: f < x
    ensures Smaller(before + [x], e) == Smaller(before, e) + {x} && x !in Smaller(before, e)
  {
  }

  /** In an increasing sequence, position `k` has `k` smaller entries. */
  lemma SmallerCount(ids: seq<EntryId>, k: nat)
    requires Increasing(ids) && k < |ids|
    ensures |Smaller(ids, ids[k])| == k
  {
    var before := ids[..k];
    forall f ensures f in Smaller(ids, ids[k]) <==> f in Smaller(before, ids[k]) {
      if f in ids {
        var i :| 0 <= i < |ids| && ids[i] == f;
        PositionInPrefix(ids, k, i);
      }
    }
    assert Smaller(ids, ids[k]) == Smaller(before, ids[k]);
    PrefixOf(ids, k);
    AllSmaller(before, ids[k]);
  }

  lemma PrefixOf(ids: seq<EntryId>, k: nat)
    requires Increasing(ids) && k < |ids|
    ensures Increasing(ids[..k]) && forall f | f in ids[..k] :: f < ids[k]
  {
  }

  /** How many pending entries there are. */
  lemma PendingCount(db: Db, all: seq<EntryId>)
    requires PelDelivered(db) && Increasing(all) && forall e :: e in all <==> e in db.pel
    ensures |db.pel| == |all|
  {
    AllSmaller(all, db.lastDelivered + 1);
    assert db.pel.Keys == Smaller(all, db.lastDelivered + 1);
    assert |db.pel.Keys| == |db.pel|;
  }

  lemma OlderCount(db: Db, all: seq<EntryId>, k: nat)
    requires Increasing(all) && (forall e :: e in all <==> e in db.pel) && k < |all|
    ensures |Older(db, all[k])| == k
  {
    SmallerCount(all, k);
    assert Older(db, all[k]) == Smaller(all, all[k]);
  }

  /** A listing is the hundred oldest pending entries, or all of them if there are fewer. */
  lemma ListingIsOldest(db: Db)
    requires PelDelivered(db)
    ensures forall e :: e in Listing(db) <==> AmongOldest(db, e)
    ensures |Listing(db)| == if |db.pel| <= 100 then |db.pel| else 100
  {
    var all, ids := PendingUpTo(db, db.lastDelivered), Listing(db);
    PendingCount(db, all);
    assert ids == all[..|ids|] && (|ids| == |all| || |ids| == 100);
    hide Listing, PendingUpTo, Older;
    forall e ensures e in ids <==> AmongOldest(db, e) {
      if e in db.pel {
        assert e in all;
        var k :| 0 <= k < |all| && all[k] == e;
        OlderCount(db, all, k);
        PositionInPrefix(all, |ids|, k);
      }
    }
  }

  lemma PositionInPrefix(all: seq<EntryId>, n: nat, k: nat)
    requires Increasing(all) && n <= |all| && k < |all|
    ensures all[k] in all[..n] <==> k < n
  {
    if k < n {
      assert all[..n][k] == all[k];
    }
  }

  /** Idle for less than `minIdle` when it was listed. */
  predicate Fresh(turn: Turn, e: EntryId, minIdle: int)
    requires e in turn.db.pel
  {
    turn.now - turn.db.pel[e].deliveredAt < minIdle
  }

  /** The listed entries that are worth claiming. */
  function Abandoned(turn: Turn, ids: seq<EntryId>, minIdle: int): (r: seq<EntryId>)
    requires AllPending(turn.db, ids)
  {
    if ids == [] then []
    else
      var e := ids[|ids| - 1];
      Abandoned(turn, ids[..|ids| - 1], minIdle) + if Fresh(turn, e, minIdle) then [] else [e]
  }

  /** What claiming the entries one after another, from turn `at` on, obtains. */
  function Obtained(turns: seq<Turn>, at: nat, ids: seq<EntryId>, minIdle: int): seq<EntryId>
    requires at + |ids| <= |turns|
  {
    if ids == [] then []
    else
      var k := |ids| - 1;
      Obtained(turns, at, ids[..k], minIdle)
      + if CanClaim(turns[at + k].db, ids[k], turns[at + k].now, minIdle) then [ids[k]] else []
  }

  /** Among the hundred oldest pending entries when they are listed, and idle for long enough then. */
  ghost predicate WorthClaiming(listed: Turn, e: EntryId, minIdle: int) {
    AmongOldest(listed.db, e) && listed.now - listed.db.pel[e].deliveredAt >= minIdle
  }

  /** How many entries are tried before `e`. */
  ghost function TriedBefore(listed: Turn, e: EntryId, minIdle: int): nat {
    |set f | f in Older(listed.db, e) && WorthClaiming(listed, f, minIdle)|
  }

  /** At this turn XCLAIM grants the entry: it is in the stream, pending, and idle for long enough. */
  predicate Claimable(turns: seq<Turn>, n: nat, e: EntryId, minIdle: int) {
    && n < |turns| && e in turns[n].db.stream && e in turns[n].db.pel
    && turns[n].now - turns[n].db.pel[e].deliveredAt >= minIdle
  }

  /** What is reclaimed after a listing at turn `n`: each entry worth claiming then that is still claimable
      at its own turn, oldest first. */
  ghost predicate ReclaimsExactly(turns: seq<Turn>, n: nat, reclaimed: seq<EntryId>, minIdle: int)
    requires n < |turns|
  {
    && Increasing(reclaimed)
    && forall e :: e in reclaimed <==>
                     WorthClaiming(turns[n], e, minIdle) && Claimable(turns, n + 1 + TriedBefore(turns[n], e, minIdle), e, minIdle)
  }

  class ReportQueue {
    const cfg: Config
    const world: World

    constructor (cfg: Config, world: World)
      ensures this.cfg == cfg && this.world == world
    {
      this.cfg, this.world := cfg, world;
    }

    method Depth() returns (reply: Reply, depth: int)
      requires world.Valid()
      modifies world
      ensures world.Valid()
      ensures old(world.at) == |world.turns| ==> reply.Crashed? && world.at == old(world.at) && world.log == old(world.log)
      ensures old(world.at) < |world.turns| ==>
                var turn := world.turns[old(world.at)];
                && world.at == old(world.at) + 1 && world.log == old(world.log) + [NoEffect]
                && reply == (if turn.input.Ok? || turn.input.XlenError? then Done else Raised)
                && (reply.Done? ==> depth == ReportedDepth(turn))
    {
      var turn := world.Next();
      depth := 0;
      if turn.None? {
        return Crashed, 0;
      }
      if turn.value.input.XlenError? {
        return Done, 0;
      }
      reply := ReplyTo(turn.value.input);
      depth := |turn.value.db.stream|;
    }

    method HasCapacity() returns (a: Admission)
      requires world.Valid()
      modifies world
      ensures world.Valid()
      ensures old(world.at) == |world.turns| ==> a.ProcessGone? && world.at == old(world.at) && world.log == old(world.log)
      ensures old(world.at) < |world.turns| ==>
                && a == AdmissionOf(cfg, world.turns[old(world.at)])
                && world.at == old(world.at) + 1 && world.log == old(world.log) + [NoEffect]
    {
      var reply, depth := Depth();
      if reply.Crashed? {
        return ProcessGone;
      }
      if !reply.Done? {
        return DepthRaised;
      }
      return if depth < cfg.maxDepth then Admitted else Full;
    }

    /** Appends the task unless the queue is full. `full` tells a refusal from an error. */
    method Enqueue(tid: TaskId) returns (reply: Reply, full: bool)
      requires world.Valid()
      modifies world
      ensures world.Valid()
      ensures old(world.at) == |world.turns| ==>
                reply.Crashed? && !full && world.at == old(world.at) && world.log == old(world.log)
      ensures old(world.at) < |world.turns| ==>
                var a := AdmissionOf(cfg, world.turns[old(world.at)]);
                && (full <==> a.Full?)
                && if a.Admitted? then
                     Written(world.at, world.log, reply)
                     == Writes(world.turns, old(world.at) + 1, old(world.log) + [NoEffect], [AppendEntry(tid)])
                   else reply.Raised? && world.at == old(world.at) + 1 && world.log == old(world.log) + [NoEffect]
    {
      var a := HasCapacity();
      if a.ProcessGone? {
        return Crashed, false;
      }
      if !a.Admitted? {
        return Raised, a.Full?;
      }
      reply := world.Write(AppendEntry(tid));
      full := false;
    }

    /** XACK, then XDEL. */
    method AckAndRemove(entry: EntryId) returns (reply: Reply)
      requires world.Valid()
      modifies world
      ensures world.Valid()
      ensures Written(world.at, world.log, reply)
           == Writes(world.turns, old(world.at), old(world.log), [AckEntry(entry), DeleteEntry(entry)])
    {
      WriteAgain(world.turns, world.at, world.log, AckEntry(entry), DeleteEntry(entry));
      reply := world.Write(AckEntry(entry));
      if reply.Done? {
        reply := world.Write(DeleteEntry(entry));
      }
    }

    /** XCLAIM of one entry. */
    method Claim(e: EntryId, minIdle: int) returns (reply: Reply, claimed: bool)
      requires world.Valid()
      modifies world
      ensures world.Valid()
      ensures reply.Done? ==>
                && old(world.at) < |world.turns| && world.at == old(world.at) + 1
                && var turn := world.turns[old(world.at)]; (claimed <==> CanClaim(turn.db, e, turn.now, minIdle))
      ensures reply.Raised? ==> old(world.at) < |world.turns| && world.at == old(world.at) + 1 && !world.turns[old(world.at)].input.Ok?
      ensures !reply.Done? && !reply.Raised? ==> reply.Crashed? && world.at == old(world.at) == |world.turns|
    {
      var turn := world.Next();
      if turn.None? {
        return Crashed, false;
      }
      if !turn.value.input.Ok? {
        return Raised, false;
      }
      return Done, CanClaim(turn.value.db, e, turn.value.now, minIdle);
    }

    /** Lists the pending entries and claims, one by one, those that have been idle for long
        enough. An entry is obtained only if it is still idle enough at its own XCLAIM. If a
        claim raises or the process dies, the `tried` earlier ones have obtained what they could. */
    method ClaimAbandoned(minIdle: int) returns (reply: Reply, reclaimed: seq<EntryId>, ghost tried: nat)
      requires world.Valid()
      modifies world
      ensures world.Valid()
      ensures old(world.at) == |world.turns| ==> reply.Crashed? && reclaimed == []
      ensures old(world.at) < |world.turns| && !world.turns[old(world.at)].input.Ok? ==> reply.Raised? && reclaimed == []
      ensures old(world.at) < |world.turns| && world.turns[old(world.at)].input.Ok? ==>
                var turn := world.turns[old(world.at)];
                var ids := Abandoned(turn, Listing(turn.db), minIdle);
                && tried <= |ids| && old(world.at) + 1 + tried <= |world.turns|
                && reclaimed == Obtained(world.turns, old(world.at) + 1, ids[..tried], minIdle)
                && match reply
                   case Done => tried == |ids| && world.at == old(world.at) + 1 + tried
                   case Raised =>
                     && tried < |ids| && world.at == old(world.at) + 2 + tried
                     && !world.turns[old(world.at) + 1 + tried].input.Ok?
                   case Crashed => world.at == old(world.at) + 1 + tried == |world.turns|
                   case InvalidTransition => false
      ensures reply.Done? ==>
                old(world.at) < |world.turns|
                && (PelDelivered(world.turns[old(world.at)].db) ==> ReclaimsExactly(world.turns, old(world.at), reclaimed, minIdle))
    {
      hide Claimable, ReclaimsExactly, PelDelivered, Abandoned, Obtained, CanClaim, Fresh, Increasing, Listing;
      reclaimed, tried := [], 0;
      var start := world.at;
      var turn := world.Next();
      if turn.None? {
        return Crashed, [], 0;
      }
      if !turn.value.input.Ok? {
        return Raised, [], 0;
      }
      var pending := Listing(turn.value.db);
      ghost var all := Abandoned(turn.value, pending, minIdle);
      NothingYet(turn.value, world.turns, start + 1, minIdle);
      var i := 0;
      while i < |pending|
        invariant 0 <= i <= |pending| && world.Valid()
        invariant tried <= |all| && all[..tried] == Abandoned(turn.value, pending[..i], minIdle)
        invariant world.at == start + 1 + tried
        invariant reclaimed == Obtained(world.turns, start + 1, all[..tried], minIdle)
      {
        AbandonedMore(turn.value, pending, i, minIdle);
        AbandonedPrefix(turn.value, pending, i + 1, minIdle);
        if !Fresh(turn.value, pending[i], minIdle) {
          assert all[..tried + 1] == all[..tried] + [pending[i]];
          var claim, claimed := Claim(pending[i], minIdle);
          if !claim.Done? {
            return claim, reclaimed, tried;
          }
          ObtainedMore(world.turns, start + 1, all[..tried], pending[i], minIdle);
          if claimed {
            reclaimed := reclaimed + [pending[i]];
          }
          tried := tried + 1;
        }
        i := i + 1;
      }
      assert pending[..i] == pending && all[..tried] == all;
      if PelDelivered(turn.value.db) {
        ObtainedExactly(world.turns, start, minIdle);
      }
      return Done, reclaimed, tried;
    }
  }

  /** The worthwhile entries of a shorter list come first. */
  lemma {:induction false} AbandonedPrefix(turn: Turn, ids: seq<EntryId>, i: nat, minIdle: int)
    requires i <= |ids| && AllPending(turn.db, ids)
    ensures AllPending(turn.db, ids[..i])
    ensures Abandoned(turn, ids[..i], minIdle) <= Abandoned(turn, ids, minIdle)
    decreases |ids| - i
  {
    if i < |ids| {
      hide Abandoned, Fresh;
      AbandonedMore(turn, ids, i, minIdle);
      AbandonedPrefix(turn, ids, i + 1, minIdle);
    } else {
      assert ids[..i] == ids;
    }
  }

  lemma NothingYet(turn: Turn, turns: seq<Turn>, at: nat, minIdle: int)
    requires at <= |turns|
    ensures AllPending(turn.db, []) && Abandoned(turn, [], minIdle) == [] && Obtained(turns, at, [], minIdle) == []
  {
  }

  lemma AbandonedMore(turn: Turn, ids: seq<EntryId>, i: nat, minIdle: int)
    requires i < |ids| && AllPending(turn.db, ids)
    ensures AllPending(turn.db, ids[..i]) && AllPending(turn.db, ids[..i + 1])
    ensures Abandoned(turn, ids[..i + 1], minIdle)
         == if Fresh(turn, ids[i], minIdle) then Abandoned(turn, ids[..i], minIdle) else Abandoned(turn, ids[..i], minIdle) + [ids[i]]
  {
    assert ids[..i + 1][..i] == ids[..i];
  }

  lemma ObtainedMore(turns: seq<Turn>, at: nat, ids: seq<EntryId>, e: EntryId, minIdle: int)
    requires at + |ids| < |turns|
    ensures var k, before := |ids|, Obtained(turns, at, ids, minIdle);
            Obtained(turns, at, ids + [e], minIdle)
            == if CanClaim(turns[at + k].db, e, turns[at + k].now, minIdle) then before + [e] else before
  {
    assert (ids + [e])[..|ids|] == ids;
  }

  // ----- what reclaiming obtains -----------------------------------------------------------------

  /** The abandoned entries are the listed ones idle for at least `minIdle`, each once. */
  lemma {:induction false} AbandonedAreIdle(turn: Turn, ids: seq<EntryId>, minIdle: int)
    requires AllPending(turn.db, ids) && Increasing(ids)
    ensures forall e :: e in Abandoned(turn, ids, minIdle) <==> e in ids && e in turn.db.pel && !Fresh(turn, e, minIdle)
    ensures Increasing(Abandoned(turn, ids, minIdle))
  {
    if ids != [] {
      hide Increasing, Fresh;
      var before, e := ids[..|ids| - 1], ids[|ids| - 1];
      assert ids == before + [e];
      PrefixIncreasing(before, e);
      AbandonedAreIdle(turn, before, minIdle);
      StillIncreasing(Abandoned(turn, before, minIdle), e);
    }
  }

  /** No entry is obtained twice, and none that was not tried. */
  lemma {:induction false} ObtainedInOrder(turns: seq<Turn>, at: nat, ids: seq<EntryId>, minIdle: int)
    requires at + |ids| <= |turns| && Increasing(ids)
    ensures forall e | e in Obtained(turns, at, ids, minIdle) :: e in ids
    ensures Increasing(Obtained(turns, at, ids, minIdle))
  {
    if ids != [] {
      hide Increasing, CanClaim, Obtained;
      var before, e := ids[..|ids| - 1], ids[|ids| - 1];
      assert ids == before + [e];
      PrefixIncreasing(before, e);
      ObtainedInOrder(turns, at, before, minIdle);
      ObtainedMore(turns, at, before, e, minIdle);
      StillIncreasing(Obtained(turns, at, before, minIdle), e);
    }
  }

  /** An entry is obtained exactly when its own claim succeeds. */
  lemma {:induction false} ObtainedAreClaimed(turns: seq<Turn>, at: nat, ids: seq<EntryId>, minIdle: int, i: nat)
    requires at + |ids| <= |turns| && Increasing(ids) && i < |ids|
    ensures ids[i] in Obtained(turns, at, ids, minIdle) <==> CanClaim(turns[at + i].db, ids[i], turns[at + i].now, minIdle)
  {
    hide Increasing, CanClaim, Obtained;
    var k := |ids| - 1;
    var before, e := ids[..k], ids[k];
    assert ids == before + [e];
    PrefixIncreasing(before, e);
    ObtainedMore(turns, at, before, e, minIdle);
    if i < k {
      ObtainedAreClaimed(turns, at, before, minIdle, i);
      assert before[i] in before;
    } else {
      ObtainedInOrder(turns, at, before, minIdle);
    }
  }

  lemma ObtainedExactly(turns: seq<Turn>, n: nat, minIdle: int)
    requires n < |turns| && PelDelivered(turns[n].db)
    requires n + 1 + |Abandoned(turns[n], Listing(turns[n].db), minIdle)| <= |turns|
    ensures ReclaimsExactly(turns, n, Obtained(turns, n + 1, Abandoned(turns[n], Listing(turns[n].db), minIdle), minIdle), minIdle)
  {
    hide Increasing, PelDelivered, Listing, Abandoned, Obtained, Older, Claimable;
    var turn := turns[n];
    var ids := Abandoned(turn, Listing(turn.db), minIdle);
    var obtained := Obtained(turns, n + 1, ids, minIdle);
    ListingIsOldest(turn.db);
    AbandonedAreIdle(turn, Listing(turn.db), minIdle);
    ObtainedInOrder(turns, n + 1, ids, minIdle);
    assert forall e :: e in ids <==> WorthClaiming(turn, e, minIdle);
    forall e | e in ids
      ensures e in obtained <==> Claimable(turns, n + 1 + TriedBefore(turn, e, minIdle), e, minIdle)
    {
      var k :| 0 <= k < |ids| && ids[k] == e;
      ObtainedAreClaimed(turns, n + 1, ids, minIdle, k);
      TriedCount(turn, ids, k, minIdle);
      ClaimedHere(turns, n + 1 + k, e, minIdle);
    }
  }

  lemma ClaimedHere(turns: seq<Turn>, n: nat, e: EntryId, minIdle: int)
    requires n < |turns|
    ensures Claimable(turns, n, e, minIdle) <==> CanClaim(turns[n].db, e, turns[n].now, minIdle)
  {
  }

  lemma TriedCount(turn: Turn, ids: seq<EntryId>, k: nat, minIdle: int)
    requires Increasing(ids) && k < |ids| && forall e :: e in ids <==> WorthClaiming(turn, e, minIdle)
    ensures TriedBefore(turn, ids[k], minIdle) == k
  {
    SmallerCount(ids, k);
    assert (set f | f in Older(turn.db, ids[k]) && WorthClaiming(turn, f, minIdle)) == Smaller(ids, ids[k]);
  }
}
