/** One `POST /reports` request (app/api/routes.py `create_report`, with
    `get_or_create_task` of app/reports/repository.py), one Redis command a step. */
module Request {
  import opened Wrappers
  import Identity
  import Reports
  import opened Store
  import opened Handler

  datatype RequestPc =
    | Lookup
    | Reserve
    | ReadPending
    | ReadExisting(existing: TaskId)
    | Reclaim
    | SaveAccepted
    | CheckCapacity
    | PersistQueued
    | AdmitDepth
    | Append
    | ClearFull

  /** `id` is the fresh task id the request will use if it creates a task. */
  datatype Request = Request(identity: Identity.ReportIdentity, includeAmended: bool, id: TaskId, pc: RequestPc)

  /** The request is over. */
  const ANSWERED: Move<RequestPc> := Move(NoEffect, None)

  function RequestKey(r: Request): string { Identity.PendingKey(Identity.LogicalPath(r.identity), r.includeAmended) }

  function RequestTask(r: Request): Reports.ReportTask { Reports.NewTask(r.identity, r.includeAmended) }

  /** The pending pointer leads to a task record. */
  predicate Attaches(db: Db, key: string) { key in db.pending && db.pending[key] in db.tasks }

  /** `get_or_create_task` as one step when the input is `Atomically`; otherwise its
      commands one by one, starting with SET NX. */
  function AdvanceReserve(db: Db, r: Request, input: Input): Move<RequestPc> {
    var key := RequestKey(r);
    match input
    case Atomically =>
      if Attaches(db, key) then ANSWERED
      else Move(CreateTask(key, r.id, RequestTask(r)), Some(CheckCapacity))
    case Ok =>
      if key in db.pending then Go(ReadPending) else Move(SetPending(key, r.id), Some(SaveAccepted))
    case RaisedApplied =>
      if key in db.pending then ANSWERED else Move(SetPending(key, r.id), None)
    case _ => ANSWERED
  }

  function AdvanceRequest(cfg: Config, db: Db, r: Request, input: Input): Move<RequestPc> {
    var key := RequestKey(r);
    match r.pc
    case Lookup =>
      if !input.Ok? || Identity.LogicalKey(Identity.LogicalPath(r.identity), r.includeAmended) in db.current then ANSWERED
      else Go(Reserve)
    case Reserve => AdvanceReserve(db, r, input)
    case ReadPending =>
      if !input.Ok? then ANSWERED
      else Go(if key in db.pending then ReadExisting(db.pending[key]) else Reclaim)
    case ReadExisting(existing) => if !input.Ok? || existing in db.tasks then ANSWERED else Go(Reclaim)
    case Reclaim => Attempt(input, SetPending(key, r.id), Some(SaveAccepted), None)
    case SaveAccepted => Attempt(input, SaveTask(r.id, RequestTask(r)), Some(CheckCapacity), None)
    case CheckCapacity =>
      if !input.Ok? && !input.XlenError? then ANSWERED
      else Go(if DepthAdmits(cfg, db, input) then PersistQueued else ClearFull)
    case PersistQueued => Attempt(input, SaveTask(r.id, RequestTask(r).(state := Reports.Queued)), Some(AdmitDepth), None)
    case AdmitDepth =>
      if !input.Ok? && !input.XlenError? then ANSWERED
      else Go(if DepthAdmits(cfg, db, input) then Append else ClearFull)
    case Append => Attempt(input, AppendEntry(r.id), None, None)
    case ClearFull => Attempt(input, DropPending(key), None, None)
  }
}
