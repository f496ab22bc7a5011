/** The shared state: Redis (task records, pending pointers, artifact pointers, the
    stream with its consumer group) and the artifact files, and the atomic effects
    that one Redis command or one file operation has on it. */
module Store {
  import ArtifactStore
  import Reports

  type TaskId = nat
  type EntryId = nat
  type Consumer = nat

  newtype Byte = x: int | 0 <= x < 256
  type Bytes = seq<Byte>

  /** `%PDF-` */
  const PDF_HEADER: Bytes := [0x25, 0x50, 0x44, 0x46, 0x2D]

  predicate HasPdfHeader(b: Bytes) {
    |b| >= 5 && b[..5] == PDF_HEADER
  }

  /** What a partial write leaves in the file. */
  function Prefix(data: Bytes, size: nat): Bytes { data[..if size <= |data| then size else |data|] }

  /** The hash stored under a logical key. */
  datatype Pointer = Pointer(accessionNumber: string, artifactPath: ArtifactStore.FileKey, cik: string)

  /** A pending-entries-list record: who holds the entry and since when. */
  datatype Lease = Lease(owner: Consumer, deliveredAt: int)

  /** Entry ids grow, so an entry is undelivered exactly when its id is greater than
      the group's last-delivered id. */
  datatype Db = Db(
    tasks: map<TaskId, Reports.ReportTask>,
    pending: map<string, TaskId>,
    current: map<string, Pointer>,
    stream: map<EntryId, TaskId>,
    nextEntry: nat,
    lastDelivered: nat,
    pel: map<EntryId, Lease>,
    files: map<ArtifactStore.FileKey, Bytes>)

  const EMPTY_DB := Db(map[], map[], map[], map[], 1, 0, map[], map[])

  datatype Effect =
    | NoEffect
    | SaveTask(tid: TaskId, task: Reports.ReportTask)
    | SetPending(key: string, tid: TaskId)
    | DropPending(key: string)
    | CreateTask(key: string, tid: TaskId, task: Reports.ReportTask)
    | SetCurrent(key: string, pointer: Pointer)
    | AppendEntry(tid: TaskId)
    | AckEntry(entry: EntryId)
    | DeleteEntry(entry: EntryId)
    | PutFile(file: ArtifactStore.FileKey, data: Bytes)
    | RenameFile(from: ArtifactStore.FileKey, to: ArtifactStore.FileKey)

  function ApplyEffect(db: Db, e: Effect): Db {
    match e
    case NoEffect => db
    case SaveTask(tid, task) => db.(tasks := db.tasks[tid := task])
    case SetPending(key, tid) => db.(pending := db.pending[key := tid])
    case DropPending(key) => db.(pending := db.pending - {key})
    case CreateTask(key, tid, task) => db.(pending := db.pending[key := tid], tasks := db.tasks[tid := task])
    case SetCurrent(key, pointer) => db.(current := db.current[key := pointer])
    case AppendEntry(tid) => db.(stream := db.stream[db.nextEntry := tid], nextEntry := db.nextEntry + 1)
    case AckEntry(entry) => db.(pel := db.pel - {entry})
    case DeleteEntry(entry) => db.(stream := db.stream - {entry})
    case PutFile(file, data) => db.(files := db.files[file := data])
    case RenameFile(from, to) =>
      if from in db.files then db.(files := (db.files - {from})[to := db.files[from]]) else db
  }

  /** What an effect leaves of each part of the shared state. */
  lemma EffectOnParts(db: Db, e: Effect)
    ensures ApplyEffect(db, e).tasks == if e.SaveTask? || e.CreateTask? then db.tasks[e.tid := e.task] else db.tasks
    ensures !e.SetPending? && !e.CreateTask? ==>
              forall k | k in ApplyEffect(db, e).pending :: k in db.pending && ApplyEffect(db, e).pending[k] == db.pending[k]
    ensures ApplyEffect(db, e).current == if e.SetCurrent? then db.current[e.key := e.pointer] else db.current
    ensures !e.PutFile? && !e.RenameFile? ==> ApplyEffect(db, e).files == db.files
    ensures ApplyEffect(db, e).stream
         == if e.AppendEntry? then db.stream[db.nextEntry := e.tid]
            else if e.DeleteEntry? then db.stream - {e.entry}
            else db.stream
    ensures ApplyEffect(db, e).lastDelivered == db.lastDelivered
    ensures ApplyEffect(db, e).pel == if e.AckEntry? then db.pel - {e.entry} else db.pel
  {
  }

  /** XREADGROUP of one entry: the oldest undelivered one. */
  predicate CanDeliver(db: Db, e: EntryId) {
    e in db.stream && e > db.lastDelivered && forall f | f in db.stream && f > db.lastDelivered :: e <= f
  }

  function Deliver(db: Db, e: EntryId, consumer: Consumer, now: int): Db {
    db.(lastDelivered := e, pel := db.pel[e := Lease(consumer, now)])
  }

  /** XCLAIM of one entry: it must have been idle for `minIdle` ms, and claiming it
      resets its idle time. */
  predicate CanClaim(db: Db, e: EntryId, now: int, minIdle: int) {
    e in db.stream && e in db.pel && now - db.pel[e].deliveredAt >= minIdle
  }

  function Claim(db: Db, e: EntryId, consumer: Consumer, now: int): Db {
    db.(pel := db.pel[e := Lease(consumer, now)])
  }
}
