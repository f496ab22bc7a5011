/** Writing an artifact (app/storage/artifact_store.py `write`, `_atomic_write`): each file
    is written under a temporary name and then renamed into place. */
module ArtifactWriter {
  import ArtifactStore
  import opened Store
  import opened Environment

  /** Opening the temporary file, filling it and renaming it, up to the first failure. */
  function Replaces(turns: seq<Turn>, at: nat, log: seq<Effect>, tmp: ArtifactStore.FileKey, path: ArtifactStore.FileKey, data: Bytes): (w: Written)
    requires at <= |turns|
  {
    var started := Writes(turns, at, log, [PutFile(tmp, [])]);
    WriteStays(turns, at, log, PutFile(tmp, []));
    if !started.reply.Done? then started
    else
      var filled := Fills(turns, started.at, started.log, tmp, data);
      FillStays(turns, started.at, started.log, tmp, data);
      if !filled.reply.Done? then filled else Writes(turns, filled.at, filled.log, [RenameFile(tmp, path)])
  }

  lemma WriteStays(turns: seq<Turn>, at: nat, log: seq<Effect>, e: Effect)
    requires at <= |turns|
    ensures Writes(turns, at, log, [e]).at <= |turns|
  {
  }

  lemma {:induction false} FillStays(turns: seq<Turn>, at: nat, log: seq<Effect>, file: ArtifactStore.FileKey, data: Bytes)
    requires at <= |turns|
    ensures Fills(turns, at, log, file, data).at <= |turns|
    decreases |turns| - at
  {
    if at < |turns| && turns[at].input.Chunk? {
      FillStays(turns, at + 1, log + [PutFile(file, Prefix(data, turns[at].input.size))], file, data);
    }
  }

  method AtomicWrite(world: World, tmp: ArtifactStore.FileKey, path: ArtifactStore.FileKey, data: Bytes) returns (reply: Reply)
    requires world.Valid()
    modifies world
    ensures world.Valid()
    ensures Written(world.at, world.log, reply) == Replaces(world.turns, old(world.at), old(world.log), tmp, path, data)
  {
    reply := world.Write(PutFile(tmp, []));
    if !reply.Done? {
      return;
    }
    ghost var filled := Fills(world.turns, world.at, world.log, tmp, data);
    var whole := false;
    while !whole
      invariant world.Valid()
      invariant if whole then filled == Written(world.at, world.log, reply)
                else filled == Fills(world.turns, world.at, world.log, tmp, data)
      decreases !whole, |world.turns| - world.at
    {
      reply, whole := world.Fill(tmp, data);
    }
    if !reply.Done? {
      return;
    }
    reply := world.Write(RenameFile(tmp, path));
  }
}
