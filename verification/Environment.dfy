/** What one process sees of the world. Other processes run between any two of its
    operations, so each operation finds the shared state in whatever condition they left it. */
module Environment {
  import opened Wrappers
  import ArtifactStore
  import opened Store
  import opened Handler

  /** One operation's turn: the shared state it finds, how it turns out, and when it runs. */
  datatype Turn = Turn(db: Db, input: Input, now: int)

  /** How an operation ends for its caller. The process is gone once it has no turn left. */
  datatype Reply = Done | Raised | InvalidTransition | Crashed

  /** What a write does to the shared state. */
  function Applied(input: Input, e: Effect): Effect {
    if input.Ok? || input.RaisedApplied? then e else NoEffect
  }

  function ReplyTo(input: Input): Reply { if input.Ok? then Done else Raised }

  /** Writes in a row, up to the first that raises or finds the process gone: how many turns
      they take, what they do to the shared state, and how they end. */
  datatype Written = Written(at: nat, log: seq<Effect>, reply: Reply)

  function Writes(turns: seq<Turn>, at: nat, log: seq<Effect>, es: seq<Effect>): Written
    requires at <= |turns|
    decreases |es|
  {
    if es == [] then Written(at, log, Done)
    else if at == |turns| then Written(at, log, Crashed)
    else
      var input := turns[at].input;
      var log' := log + [Applied(input, es[0])];
      if input.Ok? then Writes(turns, at + 1, log', es[1..]) else Written(at + 1, log', Raised)
  }

  /** Writing bytes to an open file: they may reach it in any number of pieces. */
  function Fills(turns: seq<Turn>, at: nat, log: seq<Effect>, file: ArtifactStore.FileKey, data: Bytes): Written
    requires at <= |turns|
    decreases |turns| - at
  {
    if at == |turns| then Written(at, log, Crashed)
    else
      var input := turns[at].input;
      if input.Chunk? then Fills(turns, at + 1, log + [PutFile(file, Prefix(data, input.size))], file, data)
      else Written(at + 1, log + [Applied(input, PutFile(file, data))], ReplyTo(input))
  }

  class World {
    const turns: seq<Turn>
    var at: nat
    /** The effect of each turn taken so far. */
    var log: seq<Effect>

    predicate Valid()
      reads this
    {
      at <= |turns|
    }

    constructor (turns: seq<Turn>)
      ensures this.turns == turns && at == 0 && log == [] && Valid()
    {
      this.turns, at, log := turns, 0, [];
    }

    /** A read, a computation or a call to another system. */
    method Next() returns (turn: Option<Turn>)
      requires Valid()
      modifies this
      ensures Valid()
      ensures old(at) == |turns| ==> turn.None? && at == old(at) && log == old(log)
      ensures old(at) < |turns| ==> turn == Some(turns[old(at)]) && at == old(at) + 1 && log == old(log) + [NoEffect]
    {
      if at == |turns| {
        return None;
      }
      turn := Some(turns[at]);
      at, log := at + 1, log + [NoEffect];
    }

    method Write(e: Effect) returns (reply: Reply)
      requires Valid()
      modifies this
      ensures Valid()
      ensures Written(at, log, reply) == Writes(turns, old(at), old(log), [e])
    {
      if at == |turns| {
        return Crashed;
      }
      reply := ReplyTo(turns[at].input);
      at, log := at + 1, log + [Applied(turns[at].input, e)];
    }

    /** SET NX. */
    method SetIfAbsent(key: string, tid: TaskId) returns (reply: Reply, isNew: bool)
      requires Valid()
      modifies this
      ensures Valid()
      ensures old(at) == |turns| ==> reply.Crashed? && at == old(at) && log == old(log)
      ensures old(at) < |turns| ==>
                var turn := turns[old(at)];
                && at == old(at) + 1 && reply == ReplyTo(turn.input) && (isNew <==> key !in turn.db.pending)
                && log == old(log) + [if isNew then Applied(turn.input, SetPending(key, tid)) else NoEffect]
    {
      if at == |turns| {
        return Crashed, false;
      }
      var turn := turns[at];
      reply, isNew := ReplyTo(turn.input), key !in turn.db.pending;
      at, log := at + 1, log + [if isNew then Applied(turn.input, SetPending(key, tid)) else NoEffect];
    }

    /** One piece of a write to an open file: the rest of it, or part of it. */
    method Fill(file: ArtifactStore.FileKey, data: Bytes) returns (reply: Reply, whole: bool)
      requires Valid()
      modifies this
      ensures Valid()
      ensures old(at) == |turns| ==> reply.Crashed? && whole && at == old(at) && log == old(log)
      ensures old(at) < |turns| ==>
                var input := turns[old(at)].input;
                && at == old(at) + 1 && (whole <==> !input.Chunk?)
                && reply == (if whole then ReplyTo(input) else Done)
                && log == old(log) + [if whole then Applied(input, PutFile(file, data)) else PutFile(file, Prefix(data, input.size))]
    {
      if at == |turns| {
        return Crashed, true;
      }
      var input := turns[at].input;
      whole := !input.Chunk?;
      reply := if whole then ReplyTo(input) else Done;
      log := log + [if whole then Applied(input, PutFile(file, data)) else PutFile(file, Prefix(data, input.size))];
      at := at + 1;
    }
  }

  /** A second write follows when the first is done. */
  lemma WriteAgain(turns: seq<Turn>, at: nat, log: seq<Effect>, e: Effect, f: Effect)
    requires at <= |turns|
    ensures var one := Writes(turns, at, log, [e]);
            && one.at <= |turns|
            && Writes(turns, at, log, [e, f]) == if one.reply.Done? then Writes(turns, one.at, one.log, [f]) else one
  {
    assert [e, f][1..] == [f];
  }
}
