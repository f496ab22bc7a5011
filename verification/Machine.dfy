/** A process as a machine that takes one turn an operation, and the methods that are proved
    to do what it does: shared by the handler (Worker) and the request (Routes). */
module Machine {
  import opened Wrappers
  import opened Store
  import Handler
  import opened Environment

  datatype Machine<!P> = Machine(start: P, advance: (P, Db, Handler.Input) -> Handler.Move<P>)

  /** Where the machine is (None: it has ended), and the effect of each turn it took. */
  datatype Progress<P> = Progress(pc: Option<P>, log: seq<Effect>)

  function Reached<P>(m: Machine<P>, turns: seq<Turn>, n: nat): Progress<P>
    requires n <= |turns|
  {
    if n == 0 then Progress(Some(m.start), [])
    else
      var p, turn := Reached(m, turns, n - 1), turns[n - 1];
      if p.pc.None? then p
      else
        var move := m.advance(p.pc.value, turn.db, turn.input);
        Progress(move.next, p.log + [move.effect])
  }

  /** The machine stands at `pc`, having done exactly what the process has done. */
  ghost predicate At<P>(m: Machine<P>, world: World, pc: P)
    reads world
  {
    world.Valid() && Reached(m, world.turns, world.at) == Progress(Some(pc), world.log)
  }

  /** The process is gone: the machine has ended, or has no turn left. */
  ghost predicate Gone<P>(m: Machine<P>, world: World)
    reads world
  {
    && world.Valid() && Reached(m, world.turns, world.at).log == world.log
    && (Reached(m, world.turns, world.at).pc.None? || world.at == |world.turns|)
  }

  lemma AtStart<P>(m: Machine<P>, turns: seq<Turn>)
    ensures Reached(m, turns, 0) == Progress(Some(m.start), [])
  {
  }

  lemma OneTurn<P>(m: Machine<P>, turns: seq<Turn>, n: nat, pc: P, log: seq<Effect>)
    requires n < |turns| && Reached(m, turns, n) == Progress(Some(pc), log)
    ensures var move := m.advance(pc, turns[n].db, turns[n].input);
            Reached(m, turns, n + 1) == Progress(move.next, log + [move.effect])
  {
  }

  /** The machine tries to write `e` here, and goes on at `onOk`, or at `onRaise`. */
  ghost predicate Tries<P>(m: Machine<P>, pc: P, e: Effect, onOk: Option<P>, onRaise: Option<P>) {
    forall db: Db, input :: m.advance(pc, db, input) == Handler.Attempt(input, e, onOk, onRaise)
  }

  /** After writing `e` from `pc` the machine stands where the reply says. */
  ghost predicate Follows<P>(m: Machine<P>, turns: seq<Turn>, w: Written, onOk: Option<P>, onRaise: Option<P>) {
    && w.at <= |turns| && !w.reply.InvalidTransition?
    && var p := Reached(m, turns, w.at);
       && p.log == w.log
       && (w.reply.Done? ==> p.pc == onOk)
       && (w.reply.Raised? ==> p.pc == onRaise)
       && (w.reply.Crashed? ==> w.at == |turns|)
  }

  lemma OneWrite<P>(m: Machine<P>, turns: seq<Turn>, n: nat, log: seq<Effect>, pc: P, e: Effect, onOk: Option<P>, onRaise: Option<P>)
    requires n <= |turns| && Reached(m, turns, n) == Progress(Some(pc), log) && Tries(m, pc, e, onOk, onRaise)
    ensures Follows(m, turns, Writes(turns, n, log, [e]), onOk, onRaise)
  {
    hide Reached;
    if n < |turns| {
      OneTurn(m, turns, n, pc, log);
      var move := m.advance(pc, turns[n].db, turns[n].input);
      assert move == Handler.Attempt(turns[n].input, e, onOk, onRaise);
      assert Writes(turns, n, log, [e]) == Written(n + 1, log + [move.effect], ReplyTo(turns[n].input));
    }
  }

  lemma TwoWrites<P>(m: Machine<P>, turns: seq<Turn>, n: nat, log: seq<Effect>, pc: P, e: Effect,
                     between: P, f: Effect, onOk: Option<P>, onRaise: Option<P>)
    requires n <= |turns| && Reached(m, turns, n) == Progress(Some(pc), log)
    requires Tries(m, pc, e, Some(between), onRaise) && Tries(m, between, f, onOk, onRaise)
    ensures Follows(m, turns, Writes(turns, n, log, [e, f]), onOk, onRaise)
  {
    hide Reached, Tries, Writes;
    OneWrite(m, turns, n, log, pc, e, Some(between), onRaise);
    WriteAgain(turns, n, log, e, f);
    var one := Writes(turns, n, log, [e]);
    if one.reply.Done? {
      OneWrite(m, turns, one.at, one.log, between, f, onOk, onRaise);
    }
  }

  lemma {:induction false} ReachedPrefix<P>(m: Machine<P>, turns: seq<Turn>, more: seq<Turn>, n: nat)
    requires n <= |turns|
    ensures Reached(m, turns + more, n) == Reached(m, turns, n)
  {
    if n > 0 {
      ReachedPrefix(m, turns, more, n - 1);
    }
  }

  lemma OneMoreTurn<P>(m: Machine<P>, turns: seq<Turn>, turn: Turn, pc: P, log: seq<Effect>)
    requires Reached(m, turns, |turns|) == Progress(Some(pc), log)
    ensures var move := m.advance(pc, turn.db, turn.input);
            Reached(m, turns + [turn], |turns| + 1) == Progress(move.next, log + [move.effect])
  {
    hide Reached;
    ReachedPrefix(m, turns, [turn], |turns|);
    OneTurn(m, turns + [turn], |turns|, pc, log);
  }
}
