/** The task repository (app/reports/repository.py) over one process's view of Redis. A task
    is an object whose fields the methods update before they save it. */
module Repository {
  import opened Wrappers
  import opened Identity
  import ArtifactStore
  import opened Reports
  import opened Store
  import opened Handler
  import opened Environment

  class Task {
    const id: TaskId
    const includeAmended: bool
    var identity: ReportIdentity
    var state: ReportState
    var filing: Option<FilingIdentity>
    var artifactPath: Option<ArtifactStore.FileKey>
    var attempts: nat

    function Record(): ReportTask
      reads this
    {
      ReportTask(identity, state, includeAmended, filing, artifactPath, attempts)
    }

    constructor (id: TaskId, record: ReportTask)
      ensures this.id == id && Record() == record
    {
      this.id, includeAmended, identity, state := id, record.includeAmended, record.identity, record.state;
      filing, artifactPath, attempts := record.filing, record.artifactPath, record.attempts;
    }
  }

  /** The filing and the artifact recorded with a completion. */
  datatype Completion = Completion(filing: FilingIdentity, artifactPath: ArtifactStore.FileKey)

  /** The task's fields after a legal transition. */
  function Transitioned(t: ReportTask, target: ReportState, completion: Option<Completion>): ReportTask {
    if completion.None? then t.(state := target)
    else t.(state := target, filing := Some(completion.value.filing), artifactPath := Some(completion.value.artifactPath))
  }

  /** What persisting a task in a given state writes: its record and, once the state is
      terminal, the removal of its pending pointer. */
  function PersistWrites(id: TaskId, t: ReportTask): seq<Effect> {
    if Terminal(t.state) then [SaveTask(id, t), DropPending(TaskPendingKey(t))] else [SaveTask(id, t)]
  }

  class ReportRepository {
    const world: World

    constructor (world: World)
      ensures this.world == world
    {
      this.world := world;
    }

    method GetTask(id: TaskId) returns (reply: Reply, found: Option<ReportTask>)
      requires world.Valid()
      modifies world
      ensures world.Valid()
      ensures old(world.at) == |world.turns| ==> reply.Crashed? && world.at == old(world.at) && world.log == old(world.log)
      ensures old(world.at) < |world.turns| ==>
                var turn := world.turns[old(world.at)];
                && world.at == old(world.at) + 1 && world.log == old(world.log) + [NoEffect]
                && reply == ReplyTo(turn.input)
                && (reply.Done? ==> found == if id in turn.db.tasks then Some(turn.db.tasks[id]) else None)
    {
      var turn := world.Next();
      found := None;
      if turn.None? {
        return Crashed, None;
      }
      reply := ReplyTo(turn.value.input);
      if reply.Done? && id in turn.value.db.tasks {
        found := Some(turn.value.db.tasks[id]);
      }
    }

    method Save(task: Task) returns (reply: Reply)
      requires world.Valid()
      modifies world
      ensures world.Valid()
      ensures Written(world.at, world.log, reply)
           == Writes(world.turns, old(world.at), old(world.log), [SaveTask(task.id, task.Record())])
    {
      reply := world.Write(SaveTask(task.id, task.Record()));
    }

    method ClearPending(logicalPath: string, includeAmended: bool) returns (reply: Reply)
      requires world.Valid()
      modifies world
      ensures world.Valid()
      ensures Written(world.at, world.log, reply)
           == Writes(world.turns, old(world.at), old(world.log), [DropPending(PendingKey(logicalPath, includeAmended))])
    {
      reply := world.Write(DropPending(PendingKey(logicalPath, includeAmended)));
    }

    /** An illegal transition raises and changes nothing; a legal one updates the object even
        if persisting it then raises. */
    method Transition(task: Task, target: ReportState, completion: Option<Completion>) returns (reply: Reply)
      requires world.Valid()
      modifies world, task
      ensures world.Valid()
      ensures if CanTransition(old(task.state), target) then
                && task.Record() == Transitioned(old(task.Record()), target, completion)
                && Written(world.at, world.log, reply)
                == Writes(world.turns, old(world.at), old(world.log), PersistWrites(task.id, task.Record()))
              else
                reply.InvalidTransition? && task.Record() == old(task.Record()) && world.at == old(world.at) && world.log == old(world.log)
    {
      hide LogicalPath, PendingKey;
      if !CanTransition(task.state, target) {
        return InvalidTransition;
      }
      task.state := target;
      if completion.Some? {
        task.filing, task.artifactPath := Some(completion.value.filing), Some(completion.value.artifactPath);
      }
      ghost var t := task.Record();
      ghost var at, log := world.at, world.log;
      reply := Save(task);
      WriteAgain(world.turns, at, log, SaveTask(task.id, t), DropPending(TaskPendingKey(t)));
      if reply.Done? && (target.Completed? || target.Failed?) {
        reply := ClearPending(LogicalPath(task.identity), task.includeAmended);
      }
    }

    /** Persists the attempt counter without changing the state. */
    method SaveAttempts(task: Task) returns (reply: Reply)
      requires world.Valid()
      modifies world
      ensures world.Valid()
      ensures Written(world.at, world.log, reply)
           == Writes(world.turns, old(world.at), old(world.log), [SaveTask(task.id, task.Record())])
    {
      reply := Save(task);
    }

    /** Fails the task whatever its state, except that a COMPLETED one is left alone. */
    method ForceFail(task: Task) returns (reply: Reply)
      requires world.Valid()
      modifies world, task
      ensures world.Valid()
      ensures if old(task.state).Completed? then
                reply.Done? && task.Record() == old(task.Record()) && world.at == old(world.at) && world.log == old(world.log)
              else
                && task.Record() == old(task.Record()).(state := Failed)
                && Written(world.at, world.log, reply)
                == Writes(world.turns, old(world.at), old(world.log), PersistWrites(task.id, task.Record()))
    {
      hide LogicalPath, PendingKey;
      if task.state.Completed? {
        return Done;
      }
      task.state := Failed;
      ghost var t := task.Record();
      ghost var at, log := world.at, world.log;
      reply := Save(task);
      WriteAgain(world.turns, at, log, SaveTask(task.id, t), DropPending(TaskPendingKey(t)));
      if reply.Done? {
        reply := ClearPending(LogicalPath(task.identity), task.includeAmended);
      }
    }

    /** Points the logical path at the task's artifact; without one it raises. */
    method PublishArtifact(task: Task) returns (reply: Reply)
      requires world.Valid()
      modifies world
      ensures world.Valid()
      ensures task.filing.None? || task.artifactPath.None? ==>
                reply.Raised? && world.at == old(world.at) && world.log == old(world.log)
      ensures task.filing.Some? && task.artifactPath.Some? ==>
                var pointer := Pointer(task.filing.value.accessionNumber, task.artifactPath.value, task.filing.value.cik);
                Written(world.at, world.log, reply)
                == Writes(world.turns, old(world.at), old(world.log),
                          [SetCurrent(LogicalKey(LogicalPath(task.identity), task.includeAmended), pointer)])
    {
      if task.filing.None? || task.artifactPath.None? {
        return Raised;
      }
      reply := world.Write(SetCurrent(LogicalKey(LogicalPath(task.identity), task.includeAmended),
                                      Pointer(task.filing.value.accessionNumber, task.artifactPath.value, task.filing.value.cik)));
    }
  }
}
