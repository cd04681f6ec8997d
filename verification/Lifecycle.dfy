/** The video lifecycle as a state machine: api-gateway requests, the single-slot worker,
    the queue, the object store and a clock. A step is one committed statement or
    transaction, one queue call or one object-store call; every failure the code handles
    is an outcome of the step. `Next` is partial: None means the step cannot happen now. */
module Lifecycle {
  import opened Model
  import opened Statements

  /** One transcode attempt in flight: the row as IncrementVideoRetry returned it, the keys
      still to upload and the `uploadedKeys` slice. */
  datatype Attempt = Attempt(
    video: VideoId, owner: UserId, r2Key: Key, retry: nat,
    files: Files, todo: seq<Key>, uploaded: seq<Key>)

  /** The worker's one slot, with the program counter of the running handler. */
  datatype Worker =
    | Idle
    // HandleTranscode
    | Load(video: VideoId)
    | Increment(video: VideoId)
    | Prepare(a: Attempt)
    | Fetch(a: Attempt)
    | Upload(a: Attempt)
    | Recheck(a: Attempt)
    | Publish(a: Attempt)
    | DropUploads(a: Attempt, again: bool)
    | Retry(a: Attempt)
    | GiveUp(video: VideoId, r2Key: Key)
    | DropRaw(r2Key: Key)
    // HandleCleanupObjects
    | Deleting(keys: seq<Key>)
    // HandleCleanupVideo
    | LoadTombstone(video: VideoId, seen: Stamp)
    | Postpone(video: VideoId, seen: Stamp, remaining: nat)
    | PurgePrefix(video: VideoId, seen: Stamp, row: Row)
    | PurgeKeys(video: VideoId, seen: Stamp, row: Row)
    | PurgeRow(video: VideoId, seen: Stamp, row: Row)
    // HandleReconcileTick
    | TickList(batch: nat, dryRun: bool)
    | TickUser(users: seq<UserId>, dryRun: bool)
    | TickEnqueue(keys: seq<Key>, users: seq<UserId>, dryRun: bool)

  /** An attempt before it has decided how it ends. */
  predicate Trying(w: Worker) {
    w.Load? || w.Increment? || w.Prepare? || w.Fetch? || w.Upload? || w.Recheck? || w.Publish?
  }

  /** An attempt that has decided, with calls left to make. */
  predicate WindingDown(w: Worker) {
    w.DropUploads? || w.Retry? || w.GiveUp? || w.DropRaw?
  }

  predicate Cleaning(w: Worker) {
    w.Deleting? || w.LoadTombstone? || w.Postpone? || w.PurgePrefix? || w.PurgeKeys? || w.PurgeRow?
  }

  predicate Ticking(w: Worker) {
    w.TickList? || w.TickUser? || w.TickEnqueue?
  }

  /** A confirm transaction holds its row's lock from SELECT ... FOR UPDATE to commit. */
  datatype Confirm = Checked | Queued

  /** Gateway requests between their reads and their writes. */
  datatype Request =
    | RotateKey(owner: UserId, video: VideoId, oldKey: Key)
    | DropOldKey(video: VideoId, oldKey: Key)
    | MarkDeleted(owner: UserId, video: VideoId)
    | EnqueuePurge(video: VideoId, seen: Stamp)
    | EnqueueKeys(keys: seq<Key>)

  // ----- the five components and the history -----

  /** Postgres. `used` are the ids ever given to a row. */
  datatype Database = Database(users: map<UserId, User>, rows: Rows, used: set<VideoId>)

  /** The api-gateway: open confirm transactions, and requests between two calls. */
  datatype Gate = Gate(confirms: map<VideoId, Confirm>, requests: map<nat, Request>)

  /** Redis: a FIFO of runnable tasks and the delayed ones. */
  datatype Queues = Queues(pending: seq<Entry>, scheduled: seq<Entry>)

  /** R2. */
  datatype Store = Store(keys: set<Key>)

  /** Values no step reads. */
  datatype History = History(
    published: map<VideoId, Files>,
    started: map<VideoId, nat>,          // attempts that began work
    backoff: map<VideoId, nat>,          // seconds of retry delay scheduled
    marks: map<VideoId, nat>,            // tombstone writes
    tombstoned: map<VideoId, nat>)       // time of the first tombstone write

  datatype State = State(now: nat, db: Database, gate: Gate, queues: Queues, worker: Worker, store: Store, log: History)

  const INITIAL := State(
    0, Database(map[], map[], {}), Gate(map[], map[]), Queues([], []), Idle, Store({}),
    History(map[], map[], map[], map[], map[]))

  function Count<K>(m: map<K, nat>, k: K): nat {
    if k in m then m[k] else 0
  }

  predicate Active(s: State, u: UserId) {
    u in s.db.users && s.db.users[u].active
  }

  predicate Locked(s: State, v: VideoId) {
    v in s.gate.confirms
  }

  function Goto(s: State, w: Worker): State {
    s.(worker := w)
  }

  function SetRows(s: State, rows: Rows): State {
    s.(db := s.db.(rows := rows))
  }

  function Keep(s: State, keys: set<Key>): State {
    s.(store := Store(keys))
  }

  function Lock(s: State, v: VideoId, c: Confirm): State {
    s.(gate := s.gate.(confirms := s.gate.confirms[v := c]))
  }

  function Unlock(s: State, v: VideoId): State {
    s.(gate := s.gate.(confirms := s.gate.confirms - {v}))
  }

  function Await(s: State, rid: nat, req: Request): State {
    s.(gate := s.gate.(requests := s.gate.requests[rid := req]))
  }

  function Close(s: State, rid: nat): State {
    s.(gate := s.gate.(requests := s.gate.requests - {rid}))
  }


  function Push(s: State, t: Task): State {
    s.(queues := s.queues.(pending := s.queues.pending + [Entry(t, s.now)]))
  }

  function Schedule(s: State, t: Task, delay: nat): State {
    s.(queues := s.queues.(scheduled := s.queues.scheduled + [Entry(t, s.now + delay)]))
  }

  /** EnqueueCleanupObjects: an empty key list is a no-op. */
  function PushCleanup(s: State, keys: seq<Key>): State {
    if keys == [] then s else Push(s, CleanupObjects(keys))
  }

  // ----- steps -----

  datatype Step =
    | Gateway(g: GatewayStep)
    | Queue(q: QueueStep)
    | Work(o: Outcome)

  datatype GatewayStep =
    | NewUser(u: UserId)
    | Deactivate(u: UserId)
    | ClientPut(k: Key)
    | IntentInsert(u: UserId, v: VideoId, upload: nat)
    | IntentRead(rid: nat, u: UserId, v: VideoId)
    | IntentRotate(rid: nat)
    | IntentDrop(rid: nat, ok: bool)
    | ConfirmCheck(u: UserId, v: VideoId)
    | ConfirmReject(u: UserId, v: VideoId, ok: bool)
    | ConfirmAbort(v: VideoId)
    | ConfirmEnqueue(v: VideoId)
    | ConfirmCommit(v: VideoId)
    | ConfirmRollback(v: VideoId)               // fault: the commit fails after the enqueue
    | DeleteRead(rid: nat, u: UserId, v: VideoId)
    | DeleteMark(rid: nat)
    | DeleteEnqueue(rid: nat, ok: bool)
    | AccountDelete(rid: nat, u: UserId, order: seq<VideoId>)
    | AccountEnqueue(rid: nat, ok: bool)
    | EnqueueTick(batch: nat, dryRun: bool)

  datatype QueueStep =
    | Advance(d: nat)
    | Promote(i: nat)
    | Dequeue
    | Redeliver(t: Task)                        // fault: the queue runs a task again

  datatype Outcome =
    | Ok
    | Err                                       // the call failed and changed nothing
    | NotEnqueued                               // the queue call failed: logged and dropped
    | Invalid                                   // ErrInvalidMedia
    | Encoded(files: Files)
    | PutFailed(stored: bool)                   // fault when stored: error reported, object written
    | Fails(gone: set<Key>, delay: nat)         // a returned error: the queue retries the task later
    | Undeleted(gone: set<Key>, delay: nat)     // the same of HandleCleanupObjects
    | Users(users: seq<UserId>)
    | Listed(keys: seq<Key>)
    | Stop                                      // tick budget elapsed

  function EnqueueIf(s: State, keys: seq<Key>, ok: bool): State {
    if ok then PushCleanup(s, keys) else s
  }

  /** ListVideoKeysByUser: raw key, then thumbnail, of each of the user's rows. */
  function AccountKeys(rows: Rows, order: seq<VideoId>): seq<Key>
    requires forall v :: v in order ==> v in rows
  {
    if order == [] then []
    else
      var row := rows[order[0]];
      [row.r2Key] + (if row.thumbnail.Some? then [row.thumbnail.value] else []) + AccountKeys(rows, order[1..])
  }

  predicate ListsRowsOf(rows: Rows, u: UserId, order: seq<VideoId>) {
    && (forall v :: v in order ==> v in rows && rows[v].owner == u)
    && (forall v :: v in rows && rows[v].owner == u ==> v in order)
  }

  function GatewayNext(s: State, g: GatewayStep): Option<State> {
    match g
    case NewUser(u) =>
      if u in s.db.users then None else Some(s.(db := s.db.(users := s.db.users[u := User(true, None)])))
    case Deactivate(u) =>
      if u !in s.db.users then None
      else
        var at := if s.db.users[u].deletedAt.Some? then s.db.users[u].deletedAt else Some(s.now);
        Some(s.(db := s.db.(users := s.db.users[u := User(false, at)])))
    case ClientPut(k) =>
      if k.Raw? then Some(Keep(s, s.store.keys + {k})) else None
    case IntentInsert(u, v, upload) => IntentInsertNext(s, u, v, upload)
    case IntentRead(rid, u, v) =>
      if rid in s.gate.requests || v !in s.db.rows || s.db.rows[v].owner != u || s.db.rows[v].status != PendingUpload
         || s.db.rows[v].r2Key == Raw(u, v) then None
      else Some(Await(s, rid, RotateKey(u, v, s.db.rows[v].r2Key)))
    case IntentRotate(rid) => IntentRotateNext(s, rid)
    case IntentDrop(rid, ok) =>
      if rid !in s.gate.requests || !s.gate.requests[rid].DropOldKey? then None
      else Some(EnqueueIf(Close(s, rid), [s.gate.requests[rid].oldKey], ok))
    case ConfirmCheck(u, v) =>
      if !Confirmable(s, u, v) then None else Some(Lock(s, v, Checked))
    case ConfirmReject(u, v, ok) =>
      // object of the wrong size: clean it up, leave the row PENDING_UPLOAD
      if !Confirmable(s, u, v) then None else Some(EnqueueIf(s, [s.db.rows[v].r2Key], ok))
    case ConfirmAbort(v) =>
      if v !in s.gate.confirms || s.gate.confirms[v] != Checked then None else Some(Unlock(s, v))
    case ConfirmEnqueue(v) =>
      if v !in s.gate.confirms || s.gate.confirms[v] != Checked then None
      else Some(Lock(Push(s, Transcode(v)), v, Queued))
    case ConfirmCommit(v) => ConfirmCommitNext(s, v)
    case ConfirmRollback(v) =>
      if v !in s.gate.confirms || s.gate.confirms[v] != Queued then None else Some(Unlock(s, v))
    case DeleteRead(rid, u, v) =>
      if rid in s.gate.requests || v !in s.db.rows || s.db.rows[v].owner != u || s.db.rows[v].status == Deleted then None
      else Some(Await(s, rid, MarkDeleted(u, v)))
    case DeleteMark(rid) => DeleteMarkNext(s, rid)
    case DeleteEnqueue(rid, ok) =>
      if rid !in s.gate.requests || !s.gate.requests[rid].EnqueuePurge? then None
      else
        var s1 := Close(s, rid);
        var req := s.gate.requests[rid];
        Some(if ok then Schedule(s1, CleanupVideo(req.video, req.seen), GRACE) else s1)
    case AccountDelete(rid, u, order) => AccountDeleteNext(s, rid, u, order)
    case AccountEnqueue(rid, ok) =>
      if rid !in s.gate.requests || !s.gate.requests[rid].EnqueueKeys? then None
      else Some(EnqueueIf(Close(s, rid), s.gate.requests[rid].keys, ok))
    case EnqueueTick(batch, dryRun) =>
      if batch == 0 then None else Some(Push(s, ReconcileTick(batch, dryRun)))
  }

  /** UploadIntent without a pending row. The key carries an id of its own, not the row's:
      InsertVideo leaves the row id to the database. */
  function IntentInsertNext(s: State, u: UserId, v: VideoId, upload: nat): Option<State> {
    if u !in s.db.users || v in s.db.used || v in s.db.rows then None
    else match InsertVideo(s.db.rows, v, u, Raw(u, upload))
      case Updated(rows, _) => Some(s.(db := s.db.(rows := rows, used := s.db.used + {v})))
      case _ => None
  }

  function IntentRotateNext(s: State, rid: nat): Option<State> {
    if rid !in s.gate.requests || !s.gate.requests[rid].RotateKey? then None
    else
      var req := s.gate.requests[rid];
      if Locked(s, req.video) then None
      else match UpdatePendingVideoR2Key(s.db.rows, req.video, Raw(req.owner, req.video))
        case Updated(rows, _) => Some(Await(SetRows(s, rows), rid, DropOldKey(req.video, req.oldKey)))
        case _ => Some(Close(s, rid))
  }

  predicate Confirmable(s: State, u: UserId, v: VideoId) {
    v in s.db.rows && !Locked(s, v) && s.db.rows[v].owner == u && s.db.rows[v].status == PendingUpload && s.db.rows[v].r2Key in s.store.keys
  }

  function ConfirmCommitNext(s: State, v: VideoId): Option<State> {
    if v !in s.gate.confirms || s.gate.confirms[v] != Queued || v !in s.db.rows then None
    else match ConfirmVideoProcessing(s.db.rows, v, s.db.rows[v].owner, s.db.rows[v].r2Key)
      case Updated(rows, _) => Some(Unlock(SetRows(s, rows), v))
      case _ => None
  }

  function DeleteMarkNext(s: State, rid: nat): Option<State> {
    if rid !in s.gate.requests || !s.gate.requests[rid].MarkDeleted? then None
    else
      var v := s.gate.requests[rid].video;
      if Locked(s, v) then None
      else match MarkVideoDeleted(s.db.rows, v, s.gate.requests[rid].owner, s.now)
        case Updated(rows, _) =>
          var n := Count(s.log.marks, v) + 1;
          var first := if v in s.log.tombstoned then s.log.tombstoned else s.log.tombstoned[v := s.now];
          Some(Await(SetRows(s, rows), rid, EnqueuePurge(v, Stamp(n, 0))).(log := s.log.(marks := s.log.marks[v := n], tombstoned := first)))
        case _ => Some(Close(s, rid))
  }

  /** The delete cascade's effect on videos and users, in one transaction. */
  function AccountDeleteNext(s: State, rid: nat, u: UserId, order: seq<VideoId>): Option<State> {
    if rid in s.gate.requests || u !in s.db.users || !ListsRowsOf(s.db.rows, u, order) || (exists v | v in order :: Locked(s, v)) then None
    else
      var db := s.db.(rows := DeleteVideosByUser(s.db.rows, u), users := s.db.users[u := User(false, Some(s.now))]);
      Some(Await(s, rid, EnqueueKeys(AccountKeys(s.db.rows, order))).(db := db))
  }

  function Start(t: Task): Worker {
    match t
    case Transcode(v) => Load(v)
    case CleanupObjects(keys) => Deleting(keys)
    case CleanupVideo(v, seen) => LoadTombstone(v, seen)
    case ReconcileTick(batch, dryRun) => TickList(batch, dryRun)
  }

  function QueueNext(s: State, q: QueueStep): Option<State> {
    match q
    case Advance(d) => Some(s.(now := s.now + d))
    case Promote(i) =>
      if i >= |s.queues.scheduled| || s.queues.scheduled[i].due > s.now then None
      else Some(s.(queues := Queues(s.queues.pending + [s.queues.scheduled[i]], s.queues.scheduled[..i] + s.queues.scheduled[i + 1..])))
    case Dequeue =>
      if s.worker != Idle || s.queues.pending == [] then None
      else Some(Goto(s.(queues := s.queues.(pending := s.queues.pending[1..])), Start(s.queues.pending[0].task)))
    case Redeliver(t) => Some(Push(s, t))
  }

  /** The next call of the running handler, with the given outcome. */
  function WorkNext(s: State, o: Outcome): Option<State> {
    match s.worker
    case Idle => None
    case Load(v) => LoadNext(s, v, o)
    case Increment(v) => IncrementNext(s, v, o)
    case Prepare(a) => PrepareNext(s, a, o)
    case Fetch(a) => FetchNext(s, a, o)
    case Upload(a) => UploadNext(s, a, o)
    case Recheck(a) => RecheckNext(s, a, o)
    case Publish(a) => PublishNext(s, a, o)
    case DropUploads(a, again) => DropUploadsNext(s, a, again, o)
    case Retry(a) => RetryNext(s, a, o)
    case GiveUp(v, key) => GiveUpNext(s, v, key, o)
    case DropRaw(key) => DropRawNext(s, key, o)
    case Deleting(keys) => DeletingNext(s, keys, o)
    case LoadTombstone(v, seen) => LoadTombstoneNext(s, v, seen, o)
    case Postpone(v, seen, remaining) => PostponeNext(s, v, seen, remaining, o)
    case PurgePrefix(v, seen, row) => PurgePrefixNext(s, v, seen, row, o)
    case PurgeKeys(v, seen, row) => PurgeKeysNext(s, v, seen, row, o)
    case PurgeRow(v, seen, row) => PurgeRowNext(s, v, seen, row, o)
    case TickList(batch, dryRun) => TickListNext(s, batch, dryRun, o)
    case TickUser(users, dryRun) => TickUserNext(s, users, dryRun, o)
    case TickEnqueue(keys, users, dryRun) => TickEnqueueNext(s, keys, users, dryRun, o)
  }

  function LoadNext(s: State, v: VideoId, o: Outcome): Option<State> {
    match o
    case Err => Some(Goto(s, Idle))
    case Ok =>
      if v !in s.db.rows || s.db.rows[v].status != Processing then Some(Goto(s, Idle))
      else if s.db.rows[v].retryCount >= MAX_RETRIES then Some(Goto(s, GiveUp(v, s.db.rows[v].r2Key)))
      else Some(Goto(s, Increment(v)))
    case _ => None
  }

  function IncrementNext(s: State, v: VideoId, o: Outcome): Option<State> {
    match o
    case Err => Some(Goto(s, Idle))
    case Ok =>
      if Locked(s, v) then None
      else (match IncrementVideoRetry(s.db.rows, v)
            case Updated(rows, row) =>
              var a := Attempt(v, row.owner, row.r2Key, row.retryCount, Files([], []), [], []);
              Some(Goto(SetRows(s, rows), Prepare(a)).(log := s.log.(started := s.log.started[v := Count(s.log.started, v) + 1])))
            case _ => Some(Goto(s, Idle)))
    case _ => None
  }

  /** Random suffix and workdir: a failure drops the task. */
  function PrepareNext(s: State, a: Attempt, o: Outcome): Option<State> {
    match o
    case Ok => Some(Goto(s, Fetch(a)))
    case Err => Some(Goto(s, Idle))
    case _ => None
  }

  /** Download, stat, probe and validate. Encoded names the files the two ffmpeg runs will write. */
  function FetchNext(s: State, a: Attempt, o: Outcome): Option<State> {
    match o
    case Err => Some(Goto(s, Retry(a)))
    case Invalid => Some(Goto(s, GiveUp(a.video, a.r2Key)))
    case Encoded(files) =>
      if FilesOk(files) && a.r2Key in s.store.keys then
        Some(Goto(s, Upload(a.(files := files, todo := Assets(a.owner, a.video, files), uploaded := []))))
      else None
    case _ => None
  }

  predicate VariantFile(k: Key) {
    k.Hls? && k.path != MASTER
  }

  /** One UploadFile call. uploadVariant does not report the key whose put failed;
      the thumbnail and the master are reported even so. */
  function UploadNext(s: State, a: Attempt, o: Outcome): Option<State> {
    if a.todo == [] then (if o.Ok? then Some(Goto(s, Recheck(a))) else None)
    else match o
      case Ok => Some(Goto(Keep(s, s.store.keys + {a.todo[0]}),
                          Upload(a.(todo := a.todo[1..], uploaded := a.uploaded + [a.todo[0]]))))
      case Err => Some(Goto(s, DropUploads(a, true)))
      case PutFailed(stored) =>
        var a' := if VariantFile(a.todo[0]) then a else a.(uploaded := a.uploaded + [a.todo[0]]);
        Some(Goto(if stored then Keep(s, s.store.keys + {a.todo[0]}) else s, DropUploads(a', true)))
      case _ => None
  }

  function RecheckNext(s: State, a: Attempt, o: Outcome): Option<State> {
    match o
    case Err => Some(Goto(s, DropUploads(a, true)))
    case Ok =>
      if a.video !in s.db.rows || s.db.rows[a.video].status != Processing then Some(Goto(s, DropUploads(a, false)))
      else Some(Goto(s, Publish(a)))
    case _ => None
  }

  function PublishNext(s: State, a: Attempt, o: Outcome): Option<State> {
    match o
    case Err => Some(Goto(s, DropUploads(a, true)))
    case Ok =>
      if Locked(s, a.video) then None
      else (match MarkVideoReady(s.db.rows, a.video, Prefix(a.owner, a.video), Thumb(a.owner, a.video))
            case Updated(rows, _) =>
              Some(Goto(SetRows(s, rows), DropRaw(a.r2Key)).(log := s.log.(published := s.log.published[a.video := a.files])))
            case NoRows => Some(Goto(s, DropUploads(a, false)))
            case Violation => Some(Goto(s, DropUploads(a, true))))
    case _ => None
  }

  /** cleanupOnFailure, then handleTransient or the end of the handler. */
  function DropUploadsNext(s: State, a: Attempt, again: bool, o: Outcome): Option<State> {
    if o.Ok? || o.NotEnqueued? then
      var s1 := EnqueueIf(s, a.uploaded, o.Ok?);
      if again then Some(Goto(s1, Retry(a))) else Some(Goto(s1, Idle))
    else None
  }

  function DropRawNext(s: State, key: Key, o: Outcome): Option<State> {
    if o.Ok? || o.NotEnqueued? then Some(Goto(EnqueueIf(s, [key], o.Ok?), Idle)) else None
  }

  function RetryDelay(retryCount: nat): nat {
    retryCount * BACKOFF_STEP
  }

  /** handleTransient. */
  function RetryNext(s: State, a: Attempt, o: Outcome): Option<State> {
    if a.retry >= MAX_RETRIES then (if o.Ok? then Some(Goto(s, GiveUp(a.video, a.r2Key))) else None)
    else match o
      case Ok =>
        var d := RetryDelay(a.retry);
        Some(Goto(Schedule(s, Transcode(a.video), d), Idle)
             .(log := s.log.(backoff := s.log.backoff[a.video := Count(s.log.backoff, a.video) + d])))
      case NotEnqueued => Some(Goto(s, Idle))
      case _ => None
  }

  /** markFailedDetached: any error is only logged. */
  function GiveUpNext(s: State, v: VideoId, key: Key, o: Outcome): Option<State> {
    match o
    case Err => Some(Goto(s, DropRaw(key)))
    case Ok =>
      if Locked(s, v) then None
      else (match MarkVideoFailed(s.db.rows, v)
            case Updated(rows, _) => Some(Goto(SetRows(s, rows), DropRaw(key)))
            case _ => Some(Goto(s, DropRaw(key))))
    case _ => None
  }

  /** A handler that returns an error is put back for a later run. */
  function QueueRetries(s: State, t: Task, delay: nat): State {
    Goto(Schedule(s, t, delay), Idle)
  }

  /** One DeleteObjects request for the whole payload: the store refuses more than 1000 keys. */
  function DeletingNext(s: State, keys: seq<Key>, o: Outcome): Option<State> {
    match o
    case Ok => if |keys| > DELETE_LIMIT then None else Some(Goto(Keep(s, s.store.keys - KeySet(keys)), Idle))
    case Undeleted(gone, delay) =>
      if gone <= KeySet(keys) then Some(QueueRetries(Keep(s, s.store.keys - gone), CleanupObjects(keys), delay)) else None
    case _ => None
  }

  function LoadTombstoneNext(s: State, v: VideoId, seen: Stamp, o: Outcome): Option<State> {
    match o
    case Err => Some(Goto(s, Idle))
    case Ok =>
      if v !in s.db.rows || s.db.rows[v].status != Deleted || s.db.rows[v].deletedAt.None? then Some(Goto(s, Idle))
      else
        var elapsed: int := s.now - s.db.rows[v].deletedAt.value;
        if elapsed < GRACE then Some(Goto(s, Postpone(v, Stamp(Count(s.log.marks, v), seen.hops + 1), GRACE - elapsed)))
        else Some(Goto(s, PurgePrefix(v, seen, s.db.rows[v])))
    case _ => None
  }

  function PostponeNext(s: State, v: VideoId, seen: Stamp, remaining: nat, o: Outcome): Option<State> {
    match o
    case Ok => Some(Goto(Schedule(s, CleanupVideo(v, seen), remaining), Idle))
    case NotEnqueued => Some(Goto(s, Idle))
    case _ => None
  }

  function PrefixKeys(s: State, row: Row): set<Key> {
    set k | k in s.store.keys && row.hlsPrefix.Some? && Under(k, row.hlsPrefix.value)
  }

  /** No object is left under the row's HLS prefix. */
  predicate NoneUnder(store: Store, row: Row) {
    forall k :: k in store.keys ==> !(row.hlsPrefix.Some? && Under(k, row.hlsPrefix.value))
  }

  predicate NoThumbnail(store: Store, row: Row) {
    row.thumbnail.Some? && !row.thumbnail.value.Raw? ==> row.thumbnail.value !in store.keys
  }

  function RawAndThumb(row: Row): seq<Key> {
    [row.r2Key] + (if row.thumbnail.Some? then [row.thumbnail.value] else [])
  }

  function PurgePrefixNext(s: State, v: VideoId, seen: Stamp, row: Row, o: Outcome): Option<State> {
    match o
    case Ok => Some(Goto(Keep(s, s.store.keys - PrefixKeys(s, row)), PurgeKeys(v, seen, row)))
    case Fails(gone, delay) =>
      if gone <= PrefixKeys(s, row) then Some(QueueRetries(Keep(s, s.store.keys - gone), CleanupVideo(v, seen), delay)) else None
    case _ => None
  }

  function PurgeKeysNext(s: State, v: VideoId, seen: Stamp, row: Row, o: Outcome): Option<State> {
    match o
    case Ok => Some(Goto(Keep(s, s.store.keys - KeySet(RawAndThumb(row))), PurgeRow(v, seen, row)))
    case Fails(gone, delay) =>
      if gone <= KeySet(RawAndThumb(row)) then
        Some(QueueRetries(Keep(s, s.store.keys - gone), CleanupVideo(v, seen), delay))
      else None
    case _ => None
  }

  function PurgeRowNext(s: State, v: VideoId, seen: Stamp, row: Row, o: Outcome): Option<State> {
    match o
    case Ok => if Locked(s, v) then None else Some(Goto(SetRows(s, s.db.rows - {v}), Idle))
    case Fails(gone, delay) => if gone == {} then Some(QueueRetries(s, CleanupVideo(v, seen), delay)) else None
    case _ => None
  }

  /** is_active = FALSE AND deleted_at < NOW() - 24h. */
  predicate Eligible(s: State, u: UserId) {
    && u in s.db.users && !s.db.users[u].active
    && s.db.users[u].deletedAt.Some? && s.db.users[u].deletedAt.value + GRACE < s.now
  }

  function TickListNext(s: State, batch: nat, dryRun: bool, o: Outcome): Option<State> {
    match o
    case Users(users) =>
      if |users| <= batch && forall u :: u in users ==> Eligible(s, u) then Some(Goto(s, TickUser(users, dryRun)))
      else None
    case Fails(gone, delay) => if gone == {} then Some(QueueRetries(s, ReconcileTick(batch, dryRun), delay)) else None
    case _ => None
  }

  /** Every root is <root>/<uid>/, so the listings are the keys the user owns. */
  predicate ListsKeysOf(r2: set<Key>, u: UserId, keys: seq<Key>) {
    && (forall k | k in keys :: k in r2 && k.owner == u)
    && (forall k | k in r2 && k.owner == u :: k in keys)
  }

  /** Listed(keys): the three prefix listings of the next user, concatenated. */
  function TickUserNext(s: State, users: seq<UserId>, dryRun: bool, o: Outcome): Option<State> {
    if users == [] then (if o.Ok? then Some(Goto(s, Idle)) else None)
    else match o
      case Listed(keys) =>
        if !ListsKeysOf(s.store.keys, users[0], keys) then None
        else if keys == [] || dryRun then Some(Goto(s, TickUser(users[1..], dryRun)))
        else Some(Goto(s, TickEnqueue(keys, users[1..], dryRun)))
      case Err => Some(Goto(s, TickUser(users[1..], dryRun)))
      case Stop => Some(Goto(s, Idle))
      case _ => None
  }

  function TickEnqueueNext(s: State, keys: seq<Key>, users: seq<UserId>, dryRun: bool, o: Outcome): Option<State> {
    if o.Ok? || o.NotEnqueued? then Some(Goto(EnqueueIf(s, keys, o.Ok?), TickUser(users, dryRun))) else None
  }

  function Next(s: State, step: Step): Option<State> {
    match step
    case Gateway(g) => GatewayNext(s, g)
    case Queue(q) => QueueNext(s, q)
    case Work(o) => WorkNext(s, o)
  }

  /** The state after a whole trace, if every step of it can happen. */
  function Run(s: State, trace: seq<Step>): Option<State> {
    if trace == [] then Some(s)
    else
      var before := Run(s, trace[..|trace| - 1]);
      if before.None? then None else Next(before.value, trace[|trace| - 1])
  }
}
