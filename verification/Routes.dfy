/** `create_report` (app/api/routes.py) with `get_or_create_task` (app/reports/repository.py)
    as they are written, proved to perform exactly the operations of the request machine. */
module Routes {
  import opened Wrappers
  import Strings
  import opened Identity
  import ArtifactStore
  import opened Reports
  import opened Store
  import opened Handler
  import opened Request
  import opened Environment
  import opened Machine
  import Repository
  import opened Queue

  // ----- the request as a machine --------------------------------------------------------------

  function Serving(cfg: Config, r: Request): Machine<RequestPc> {
    Machine(Lookup, (pc, db, input) => AdvanceRequest(cfg, db, r.(pc := pc), input))
  }

  lemma TriesToWrite(cfg: Config, r: Request)
    ensures Tries(Serving(cfg, r), Reclaim, SetPending(RequestKey(r), r.id), Some(SaveAccepted), None)
    ensures Tries(Serving(cfg, r), SaveAccepted, SaveTask(r.id, RequestTask(r)), Some(CheckCapacity), None)
    ensures Tries(Serving(cfg, r), PersistQueued, SaveTask(r.id, RequestTask(r).(state := Queued)), Some(AdmitDepth), None)
    ensures Tries(Serving(cfg, r), RequestPc.Append, AppendEntry(r.id), None, None)
    ensures Tries(Serving(cfg, r), ClearFull, DropPending(RequestKey(r)), None, None)
  {
    hide LogicalPath, PendingKey;
  }

  // ----- the methods ----------------------------------------------------------------------------------

  datatype Payload = Payload(ticker: string, form: string, year: Option<int>, quarter: Option<string>, includeAmended: bool)

  datatype Response =
    | UnknownTicker
    | InvalidRequest
    | Available(accessionNumber: string, ref: Option<string>)
    | Accepted(tid: TaskId, state: ReportState)
    | AtCapacity
    | ServerError
    | Died

  /** How `get_or_create_task` ends. */
  datatype Reservation = Attached(tid: TaskId, state: ReportState) | Created | ReserveFailed | ReserveDied

  /** The commands of `get_or_create_task` are separate. */
  predicate CommandByCommand(turns: seq<Turn>) {
    forall i | 0 <= i < |turns| :: !turns[i].input.Atomically?
  }

  /** From turn `n` on: the key is taken, names a task, and the task has a record. */
  predicate FindsTask(turns: seq<Turn>, n: nat, key: string) {
    && n + 3 <= |turns| && turns[n].input.Ok? && turns[n + 1].input.Ok? && turns[n + 2].input.Ok?
    && key in turns[n].db.pending && key in turns[n + 1].db.pending
    && turns[n + 1].db.pending[key] in turns[n + 2].db.tasks
  }

  /** The task so found. */
  function FoundTask(turns: seq<Turn>, n: nat, key: string): Response
    requires FindsTask(turns, n, key)
  {
    var tid := turns[n + 1].db.pending[key];
    Response.Accepted(tid, turns[n + 2].db.tasks[tid].state)
  }

  /** No entry appended, no pointer removed so far. */
  predicate Quiet(log: seq<Effect>) {
    forall e | e in log :: !e.AppendEntry? && !e.DropPending?
  }

  /** The last operation was this write, and it succeeded. */
  ghost predicate EndsWith(world: World, e: Effect)
    reads world
  {
    0 < world.at <= |world.turns| && world.log != [] && world.log[|world.log| - 1] == e && world.turns[world.at - 1].input.Ok?
  }

  /** An error answer follows an operation that failed; a process that dies is given no further turn. */
  ghost predicate FailsForAReason(world: World, response: Response)
    reads world
  {
    && (response.ServerError? ==> 0 < world.at <= |world.turns| && !world.turns[world.at - 1].input.Ok?)
    && (response.Died? ==> world.at == |world.turns|)
  }

  method GetOrCreateTask(cfg: Config, world: World, r: Request) returns (v: Reservation)
    requires At(Serving(cfg, r), world, Reserve) && CommandByCommand(world.turns) && Quiet(world.log)
    modifies world
    ensures world.Valid() && Quiet(world.log)
    ensures v.Created? ==> At(Serving(cfg, r), world, CheckCapacity)
    ensures !v.Created? ==> Gone(Serving(cfg, r), world)
    ensures v.Attached? <==> FindsTask(world.turns, old(world.at), RequestKey(r))
    ensures v.Attached? ==>
              && Response.Accepted(v.tid, v.state) == FoundTask(world.turns, old(world.at), RequestKey(r))
              && world.log == old(world.log) + [NoEffect, NoEffect, NoEffect]
    ensures v.ReserveFailed? ==> FailsForAReason(world, ServerError)
    ensures v.ReserveDied? ==> FailsForAReason(world, Response.Died)
  {
    hide Reached, Writes, Tries, Quiet, LogicalPath, PendingKey;
    TriesToWrite(cfg, r);
    var key := RequestKey(r);
    ghost var n, log := world.at, world.log;
    if world.at < |world.turns| {
      OneTurn(Serving(cfg, r), world.turns, n, Reserve, log);
    }
    var reply, isNew := world.SetIfAbsent(key, r.id);
    StaysQuiet(log, NoEffect);
    StaysQuiet(log, SetPending(key, r.id));
    if !reply.Done? {
      return if reply.Crashed? then ReserveDied else ReserveFailed;
    }
    if !isNew {
      v := Existing(cfg, world, r);
      if !v.Created? {
        return;
      }
      OneWrite(Serving(cfg, r), world.turns, world.at, world.log, Reclaim, SetPending(key, r.id), Some(SaveAccepted), None);
      WriteOutcome(world.turns, world.at, world.log, SetPending(key, r.id));
      reply := world.Write(SetPending(key, r.id));
      if !reply.Done? {
        return if reply.Crashed? then ReserveDied else ReserveFailed;
      }
    }
    OneWrite(Serving(cfg, r), world.turns, world.at, world.log, SaveAccepted, SaveTask(r.id, RequestTask(r)), Some(CheckCapacity), None);
    WriteOutcome(world.turns, world.at, world.log, SaveTask(r.id, RequestTask(r)));
    reply := world.Write(SaveTask(r.id, RequestTask(r)));
    return if reply.Done? then Created else if reply.Crashed? then ReserveDied else ReserveFailed;
  }

  /** Follows an existing pointer. `Created` here: there is no task behind it, so the request
      goes on to reclaim the pointer. */
  method Existing(cfg: Config, world: World, r: Request) returns (v: Reservation)
    requires At(Serving(cfg, r), world, ReadPending) && Quiet(world.log)
    requires 1 <= world.at <= |world.turns| && world.turns[world.at - 1].input.Ok? && RequestKey(r) in world.turns[world.at - 1].db.pending
    modifies world
    ensures world.Valid() && Quiet(world.log)
    ensures v.Created? ==> At(Serving(cfg, r), world, Reclaim)
    ensures !v.Created? ==> Gone(Serving(cfg, r), world)
    ensures v.Attached? <==> FindsTask(world.turns, old(world.at) - 1, RequestKey(r))
    ensures v.Attached? ==>
              && Response.Accepted(v.tid, v.state) == FoundTask(world.turns, old(world.at) - 1, RequestKey(r))
              && world.log == old(world.log) + [NoEffect, NoEffect]
    ensures v.ReserveFailed? ==> FailsForAReason(world, ServerError)
    ensures v.ReserveDied? ==> FailsForAReason(world, Response.Died)
  {
    hide Reached, Quiet, LogicalPath, PendingKey;
    ghost var n, log := world.at, world.log;
    StaysQuiet(log, NoEffect);
    StaysQuiet(log + [NoEffect], NoEffect);
    var pointer := world.Next();
    if pointer.None? {
      return ReserveDied;
    }
    OneTurn(Serving(cfg, r), world.turns, n, ReadPending, log);
    if !pointer.value.input.Ok? {
      return ReserveFailed;
    }
    if RequestKey(r) !in pointer.value.db.pending {
      return Created;
    }
    var existing := pointer.value.db.pending[RequestKey(r)];
    var task := world.Next();
    if task.None? {
      return ReserveDied;
    }
    OneTurn(Serving(cfg, r), world.turns, n + 1, ReadExisting(existing), log + [NoEffect]);
    if !task.value.input.Ok? {
      return ReserveFailed;
    }
    return if existing in task.value.db.tasks then Attached(existing, task.value.db.tasks[existing].state) else Created;
  }

  /** A refusal: the pending pointer is cleared. */
  method Refuse(cfg: Config, world: World, r: Request) returns (response: Response)
    requires At(Serving(cfg, r), world, ClearFull) && Quiet(world.log)
    modifies world
    ensures Gone(Serving(cfg, r), world)
    ensures response.AtCapacity? || response.ServerError? || response.Died?
    ensures response.AtCapacity? <==> EndsWith(world, DropPending(RequestKey(r)))
    ensures !EndsWith(world, AppendEntry(r.id)) && FailsForAReason(world, response)
  {
    hide Reached, Writes, Tries, LogicalPath, PendingKey;
    TriesToWrite(cfg, r);
    OneWrite(Serving(cfg, r), world.turns, world.at, world.log, ClearFull, DropPending(RequestKey(r)), None, None);
    WriteOutcome(world.turns, world.at, world.log, DropPending(RequestKey(r)));
    var repository := new Repository.ReportRepository(world);
    var reply := repository.ClearPending(LogicalPath(r.identity), r.includeAmended);
    return if reply.Done? then AtCapacity else if reply.Crashed? then Died else ServerError;
  }

  /** The second depth check and the XADD. */
  method Publish(cfg: Config, world: World, r: Request) returns (response: Response)
    requires At(Serving(cfg, r), world, AdmitDepth) && Quiet(world.log)
    modifies world
    ensures Gone(Serving(cfg, r), world)
    ensures response.Accepted? || response.AtCapacity? || response.ServerError? || response.Died?
    ensures response.Accepted? ==> response == Response.Accepted(r.id, Queued)
    ensures response.Accepted? <==> EndsWith(world, AppendEntry(r.id))
    ensures response.AtCapacity? <==> EndsWith(world, DropPending(RequestKey(r)))
    ensures FailsForAReason(world, response)
  {
    hide Reached, Writes, Tries, Quiet, LogicalPath, PendingKey, DepthAdmits;
    TriesToWrite(cfg, r);
    QuietEnd(world, r.id, RequestKey(r));
    var queue := new ReportQueue(cfg, world);
    ghost var at, log := world.at, world.log;
    StaysQuiet(log, NoEffect);
    if at < |world.turns| {
      OneTurn(Serving(cfg, r), world.turns, at, AdmitDepth, log);
      if AdmissionOf(cfg, world.turns[at]).Admitted? {
        OneWrite(Serving(cfg, r), world.turns, at + 1, log + [NoEffect], RequestPc.Append, AppendEntry(r.id), None, None);
        WriteOutcome(world.turns, at + 1, log + [NoEffect], AppendEntry(r.id));
      }
    }
    var reply, full;
    reply, full := queue.Enqueue(r.id);
    if reply.Done? {
      return Response.Accepted(r.id, Queued);
    }
    if full {
      response := Refuse(cfg, world, r);
      return;
    }
    return if reply.Crashed? then Died else ServerError;
  }

  /** Persists the created task as QUEUED, then publishes it. */
  method PersistAndPublish(cfg: Config, world: World, r: Request) returns (response: Response)
    requires At(Serving(cfg, r), world, PersistQueued) && Quiet(world.log)
    modifies world
    ensures Gone(Serving(cfg, r), world)
    ensures response.Accepted? || response.AtCapacity? || response.ServerError? || response.Died?
    ensures response.Accepted? ==> response == Response.Accepted(r.id, Queued)
    ensures response.Accepted? <==> EndsWith(world, AppendEntry(r.id))
    ensures response.AtCapacity? <==> EndsWith(world, DropPending(RequestKey(r)))
    ensures FailsForAReason(world, response)
  {
    hide Reached, Writes, Tries, Quiet, LogicalPath, PendingKey;
    TriesToWrite(cfg, r);
    var queued := RequestTask(r).(state := Queued);
    OneWrite(Serving(cfg, r), world.turns, world.at, world.log, PersistQueued, SaveTask(r.id, queued), Some(AdmitDepth), None);
    WriteOutcome(world.turns, world.at, world.log, SaveTask(r.id, queued));
    var repository := new Repository.ReportRepository(world);
    var task := new Repository.Task(r.id, RequestTask(r));
    var reply := repository.Transition(task, Queued, None);
    QuietEnd(world, r.id, RequestKey(r));
    if !reply.Done? {
      return if reply.Crashed? then Died else ServerError;
    }
    response := Publish(cfg, world, r);
  }

  /** An empty `year` asks for the latest filing. */
  function PayloadIdentity(payload: Payload): Result<ReportIdentity, string> {
    MakeIdentity(payload.ticker, payload.form, if payload.year.Some? then payload.year.value else LATEST_YEAR_SENTINEL, payload.quarter)
  }

  /** The report asked for: ticker and form in upper case, and year 0 for the latest filing. */
  function Wanted(payload: Payload): ReportIdentity {
    ReportIdentity(Strings.Upper(payload.ticker), Strings.Upper(payload.form),
                   if payload.year.Some? then payload.year.value else 0, payload.quarter)
  }

  /** The first turn finds the artifact of the report. */
  predicate Cached(turns: seq<Turn>, i: ReportIdentity, includeAmended: bool) {
    turns != [] && turns[0].input.Ok? && LogicalKey(LogicalPath(i), includeAmended) in turns[0].db.current
  }

  /** The answer from the cache: the artifact's accession, and its reference. */
  function CachedAnswer(turns: seq<Turn>, i: ReportIdentity, includeAmended: bool): Response
    requires Cached(turns, i, includeAmended)
  {
    var accession := turns[0].db.current[LogicalKey(LogicalPath(i), includeAmended)].accessionNumber;
    Available(accession, if accession == "" then None else Some(ArtifactStore.RefFor(i, accession)))
  }

  /** The response, in terms of what was read and written. An unknown ticker or an invalid identity is
      refused untouched. A cached artifact is what is answered, and nothing is written. Otherwise a task
      found behind the pending pointer is answered, with its state; or the new task, exactly when its
      entry was appended; or a refusal, exactly when its pointer was cleared again. */
  method CreateReport(cfg: Config, world: World, companies: set<string>, payload: Payload, id: TaskId) returns (response: Response)
    requires world.at == 0 && world.log == [] && CommandByCommand(world.turns)
    modifies world
    ensures response.UnknownTicker? <==> Strings.Upper(payload.ticker) !in companies
    ensures response.InvalidRequest? <==> Strings.Upper(payload.ticker) in companies && !ValidIdentity(Wanted(payload))
    ensures response.UnknownTicker? || response.InvalidRequest? ==> world.at == 0 && world.log == []
    ensures !response.UnknownTicker? && !response.InvalidRequest? ==>
              var i, a := Wanted(payload), payload.includeAmended;
              var pending := PendingKey(LogicalPath(i), a);
              && Gone(Serving(cfg, Request(i, a, id, Lookup)), world)
              && (response.Available? <==> Cached(world.turns, i, a))
              && (response.Available? ==> response == CachedAnswer(world.turns, i, a) && world.log == [NoEffect])
              && (response.Accepted? ==> FindsTask(world.turns, 1, pending) || EndsWith(world, AppendEntry(id)))
              && (!response.Available? && FindsTask(world.turns, 1, pending) && world.turns[0].input.Ok? ==>
                    response == FoundTask(world.turns, 1, pending) && world.log == [NoEffect, NoEffect, NoEffect, NoEffect])
              && (EndsWith(world, AppendEntry(id)) ==> response == Response.Accepted(id, Queued))
              && (response.AtCapacity? <==> EndsWith(world, DropPending(pending)))
              && FailsForAReason(world, response)
  {
    hide Reached, Writes, Tries, LogicalPath, PendingKey, LogicalKey, ValidIdentity, DepthAdmits, FoundTask;
    if Strings.Upper(payload.ticker) !in companies {
      return UnknownTicker;
    }
    var identity := PayloadIdentity(payload);
    AcceptsWanted(payload);
    if identity.Err? {
      return InvalidRequest;
    }
    ghost var r := Request(identity.value, payload.includeAmended, id, Lookup);
    AtStart(Serving(cfg, r), world.turns);
    var current := world.Next();
    if current.None? {
      return Died;
    }
    OneTurn(Serving(cfg, r), world.turns, 0, Lookup, []);
    if !current.value.input.Ok? {
      return ServerError;
    }
    var key := LogicalKey(LogicalPath(identity.value), payload.includeAmended);
    if key in current.value.db.current {
      var accession := current.value.db.current[key].accessionNumber;
      return Available(accession, if accession == "" then None else Some(ArtifactStore.RefFor(identity.value, accession)));
    }
    response := Reserved(cfg, world, Request(identity.value, payload.includeAmended, id, Lookup));
  }

  lemma AcceptsWanted(payload: Payload)
    ensures PayloadIdentity(payload).Ok? <==> ValidIdentity(Wanted(payload))
    ensures PayloadIdentity(payload).Ok? ==> PayloadIdentity(payload).value == Wanted(payload)
  {
    hide TickerOk, FormOk;
  }

  /** From deduplication on. */
  method Reserved(cfg: Config, world: World, r: Request) returns (response: Response)
    requires At(Serving(cfg, r), world, Reserve) && CommandByCommand(world.turns) && world.at == 1 && world.log == [NoEffect]
    modifies world
    ensures Gone(Serving(cfg, r), world)
    ensures !response.UnknownTicker? && !response.InvalidRequest? && !response.Available?
    ensures response.Accepted? <==> FindsTask(world.turns, 1, RequestKey(r)) || EndsWith(world, AppendEntry(r.id))
    ensures FindsTask(world.turns, 1, RequestKey(r)) ==>
              response == FoundTask(world.turns, 1, RequestKey(r)) && world.log == [NoEffect, NoEffect, NoEffect, NoEffect]
    ensures EndsWith(world, AppendEntry(r.id)) ==> response == Response.Accepted(r.id, Queued)
    ensures response.AtCapacity? <==> EndsWith(world, DropPending(RequestKey(r)))
    ensures FailsForAReason(world, response)
  {
    hide Reached, Writes, Tries, Quiet, LogicalPath, PendingKey, DepthAdmits, FindsTask, FoundTask;
    NothingYet();
    var v := GetOrCreateTask(cfg, world, r);
    QuietEnd(world, r.id, RequestKey(r));
    match v {
      case Attached(tid, state) => return Response.Accepted(tid, state);
      case ReserveFailed => return ServerError;
      case ReserveDied => return Died;
      case Created =>
        if world.at < |world.turns| {
          OneTurn(Serving(cfg, r), world.turns, world.at, CheckCapacity, world.log);
        }
        StaysQuiet(world.log, NoEffect);
        var queue := new ReportQueue(cfg, world);
        var a := queue.HasCapacity();
        QuietEnd(world, r.id, RequestKey(r));
        match a {
          case ProcessGone => return Died;
          case DepthRaised => return ServerError;
          case Full => response := Refuse(cfg, world, r);
          case Admitted => response := PersistAndPublish(cfg, world, r);
        }
    }
  }

  lemma NothingYet()
    ensures Quiet([NoEffect])
  {
  }

  lemma StaysQuiet(log: seq<Effect>, e: Effect)
    requires Quiet(log) && !e.AppendEntry? && !e.DropPending?
    ensures Quiet(log + [e])
  {
  }

  lemma QuietEnd(world: World, id: TaskId, key: string)
    requires Quiet(world.log)
    ensures !EndsWith(world, AppendEntry(id)) && !EndsWith(world, DropPending(key))
  {
    assert world.log != [] ==> world.log[|world.log| - 1] in world.log;
  }

  /** What one write leaves behind. */
  lemma WriteOutcome(turns: seq<Turn>, at: nat, log: seq<Effect>, e: Effect)
    requires at <= |turns|
    ensures var w := Writes(turns, at, log, [e]);
            && (w.reply.Crashed? ==> w.at == at == |turns| && w.log == log)
            && (!w.reply.Crashed? ==> at < |turns| && w.at == at + 1 && (w.reply.Done? <==> turns[at].input.Ok?))
            && (w.reply.Done? ==> w.log == log + [e])
            && (w.reply.Raised? ==> w.log == log + [e] || w.log == log + [NoEffect])
            && (Quiet(log) && !e.AppendEntry? && !e.DropPending? ==> Quiet(w.log))
            && !w.reply.InvalidTransition?
  {
  }
}
