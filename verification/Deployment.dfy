/** The running programs: the handlers of the worker and of the api-gateway as they are written,
    statement by statement, over the systems they share. Between any two calls the other actors
    may take any steps. Every handler is proved to be a run of the `Lifecycle` machine, so what
    the other modules prove of all runs holds of these programs; and each handler's contract says
    what has become of its row, its task and its objects when it returns. */
module Deployment {
  import opened Model
  import opened Statements
  import opened Lifecycle
  import Statuses
  import Frames
  import Lanes
  import Reconcile
  import Retries
  import Traces
  import Uploads

  /** Before a call returns, `others` have happened; `result` is what the call reports. */
  datatype Turn = Turn(others: seq<Step>, result: Outcome)

  /** Who is running: others do not take its steps. */
  datatype Actor = TheWorker | TheRequest(rid: nat) | TheConfirm(video: VideoId)

  predicate Foreign(a: Actor, step: Step) {
    match a
    case TheWorker => !step.Work? && step != Queue(Dequeue)
    case TheRequest(rid) => step.Gateway? ==> !ActsOn(step.g, rid)
    case TheConfirm(v) => step.Gateway? ==> !Ends(step.g, v)
  }

  predicate ActsOn(g: GatewayStep, rid: nat) {
    || (g.IntentRotate? && g.rid == rid) || (g.IntentDrop? && g.rid == rid)
    || (g.DeleteMark? && g.rid == rid) || (g.DeleteEnqueue? && g.rid == rid) || (g.AccountEnqueue? && g.rid == rid)
  }

  predicate Ends(g: GatewayStep, v: VideoId) {
    g == ConfirmAbort(v) || g == ConfirmEnqueue(v) || g == ConfirmCommit(v) || g == ConfirmRollback(v)
  }

  function OkUnless(failed: bool, failure: Outcome): Outcome {
    if failed then failure else Ok
  }

  /** How a handler must take what its current call reports: which reports count as failures, and
      where there is nothing to report. */
  function Taken(s: State, reported: Outcome): Outcome {
    match s.worker
    case Fetch(a) =>
      if reported.Encoded? && FilesOk(reported.files) && a.r2Key in s.store.keys then reported
      else if reported.Invalid? then Invalid else Err
    case Upload(a) =>
      if a.todo == [] then Ok else if reported.PutFailed? then reported else OkUnless(reported.Err?, Err)
    case DropUploads(_, _) => OkUnless(reported.NotEnqueued?, NotEnqueued)
    case DropRaw(_) => OkUnless(reported.NotEnqueued?, NotEnqueued)
    case Retry(a) => OkUnless(a.retry < MAX_RETRIES && reported.NotEnqueued?, NotEnqueued)
    case Postpone(_, _, _) => OkUnless(reported.NotEnqueued?, NotEnqueued)
    case TickEnqueue(_, _, _) => OkUnless(reported.NotEnqueued?, NotEnqueued)
    case Deleting(keys) =>
      if reported.Undeleted? && reported.gone <= KeySet(keys) then reported
      else OkUnless(|keys| > DELETE_LIMIT, Undeleted({}, 0))
    case PurgePrefix(_, _, row) => OkUnless(reported.Fails? && reported.gone <= PrefixKeys(s, row), reported)
    case PurgeKeys(_, _, row) => OkUnless(reported.Fails? && reported.gone <= KeySet(RawAndThumb(row)), reported)
    case PurgeRow(_, _, _) => OkUnless(reported.Fails? && reported.gone == {}, reported)
    case TickList(batch, _) =>
      if reported.Fails? && reported.gone == {} then reported
      else if reported.Users? && (|reported.users| > batch || exists u :: u in reported.users && !Eligible(s, u)) then Fails({}, 0)
      else Users(if reported.Users? then reported.users else [])
    case TickUser(users, _) =>
      if users == [] then Ok
      else if reported.Stop? || (reported.Listed? && ListsKeysOf(s.store.keys, users[0], reported.keys)) then reported
      else Err
    case _ => OkUnless(reported.Err?, Err)
  }

  /** A call of the worker: where it was made, what it reported and how the handler took it. */
  datatype Call = Call(at: State, reported: Outcome, taken: Outcome)

  // ----- what the others may do meanwhile -----

  /** Other actors leave the worker's slot alone, delete no object, put raw ones only, take
      nothing from the queue and count no attempt. */
  predicate WorkersOwn(s: State, s': State) {
    && s'.worker == s.worker && s'.log.published == s.log.published && s.now <= s'.now
    && s.store.keys <= s'.store.keys && (forall k :: k in s'.store.keys ==> k in s.store.keys || k.Raw?)
    && s.queues.pending <= s'.queues.pending
    && (forall v :: v in s.db.rows && v in s'.db.rows ==> s'.db.rows[v].retryCount <= s.db.rows[v].retryCount)
  }

  /** A row locked by a confirm is written by nobody else, and the lock stays. */
  predicate LockKept(s: State, s': State, v: VideoId)
    requires v in s.gate.confirms
  {
    v in s'.gate.confirms && s'.gate.confirms[v] == s.gate.confirms[v] && RowKept(s, s', v)
  }

  predicate RowKept(s: State, s': State, v: VideoId) {
    v in s.db.rows ==> v in s'.db.rows && s'.db.rows[v] == s.db.rows[v]
  }

  /** What is the actor's own stays. */
  predicate Own(a: Actor, s: State, s': State) {
    match a
    case TheWorker => WorkersOwn(s, s')
    case TheRequest(rid) => rid in s.gate.requests ==> rid in s'.gate.requests && s'.gate.requests[rid] == s.gate.requests[rid]
    case TheConfirm(v) => v in s.gate.confirms ==> LockKept(s, s', v)
  }

  lemma ForeignStep(a: Actor, s: State, s': State, step: Step)
    requires Next(s, step) == Some(s') && Foreign(a, step)
    ensures Own(a, s, s')
  {
    match step
    case Gateway(g) => ForeignGateway(a, s, s', g);
    case Queue(_) =>
    case Work(o) =>
      ForeignWork(s, s', o);
      if a.TheConfirm? && Locked(s, a.video) {
        LockedRowWork(s, s', o, a.video);
      }
  }

  lemma ForeignGateway(a: Actor, s: State, s': State, g: GatewayStep)
    requires GatewayNext(s, g) == Some(s') && Foreign(a, Gateway(g))
    ensures Own(a, s, s')
  {
    match a
    case TheWorker => GatewayIsForeign(s, s', g);
    case TheRequest(_) =>
    case TheConfirm(v) =>
      Frames.LocksGateway(s, s', g);
      if Locked(s, v) {
        LockedRowGateway(s, s', g, v);
      }
  }

  lemma LockedRowGateway(s: State, s': State, g: GatewayStep, v: VideoId)
    requires GatewayNext(s, g) == Some(s') && Locked(s, v) && !Ends(g, v)
    ensures RowKept(s, s', v)
  {
    if !Frames.WritesRows(g) {
      Frames.CalmGateway(s, s', g);
    }
  }

  lemma LockedRowWork(s: State, s': State, o: Outcome, v: VideoId)
    requires WorkNext(s, o) == Some(s') && Locked(s, v)
    ensures RowKept(s, s', v)
  {
  }

  lemma GatewayIsForeign(s: State, s': State, g: GatewayStep)
    requires GatewayNext(s, g) == Some(s')
    ensures WorkersOwn(s, s')
  {
    Reconcile.GatewayAppends(s, s', g);
    if Frames.WritesRows(g) {
      assert s'.store == s.store && s'.log.published == s.log.published;
    } else {
      Frames.CalmGateway(s, s', g);
    }
  }

  lemma ForeignWork(s: State, s': State, o: Outcome)
    requires WorkNext(s, o) == Some(s')
    ensures s'.gate == s.gate
  {
  }

  // ----- looking back -----

  /** The run `t` to `s` goes on as `t'` to `s'`. */
  predicate GoesOn(t: seq<Step>, s: State, t': seq<Step>, s': State) {
    t <= t' && Run(INITIAL, t) == Some(s) && Run(INITIAL, t') == Some(s')
  }

  lemma RowsGoOn(t: seq<Step>, s: State, t': seq<Step>, s': State, v: VideoId)
    requires GoesOn(t, s, t', s')
    ensures v in s.db.rows && v in s'.db.rows ==>
      Statuses.Later(s.db.rows[v].status, s'.db.rows[v].status) && s'.db.rows[v].owner == s.db.rows[v].owner
    ensures v in s.db.used && v !in s.db.rows ==> v !in s'.db.rows
    ensures (v in s.db.rows ==> v in s.db.used) && s.db.used <= s'.db.used
  {
    assert t'[..|t|] == t;
    Statuses.StatusOnlyAdvances(t', |t|, v);
    Statuses.Reachable(t);
    if v in s.db.rows {
      assert Statuses.RowInv(s, v);
    }
  }

  /** What a row records from its confirm on stays: its raw key, and once it is READY the rest too. */
  predicate Records(before: Row, after: Row) {
    before.status != PendingUpload ==>
      && after.status != PendingUpload && after.r2Key == before.r2Key
      && (before.status == Ready || before.status == Deleted ==>
           after.hlsPrefix == before.hlsPrefix && after.thumbnail == before.thumbnail)
  }

  lemma GatewayRecords(s: State, s': State, g: GatewayStep, v: VideoId)
    requires GatewayNext(s, g) == Some(s') && v in s.db.rows && v in s'.db.rows
    ensures Records(s.db.rows[v], s'.db.rows[v])
  {
    if !Frames.WritesRows(g) {
      Frames.CalmGateway(s, s', g);
    }
  }

  lemma WorkRecords(s: State, s': State, o: Outcome, v: VideoId)
    requires Statuses.Inv(s) && WorkNext(s, o) == Some(s') && v in s.db.rows && v in s'.db.rows
    ensures Records(s.db.rows[v], s'.db.rows[v])
  {
    Statuses.WorkChange(s, s', o, v);
  }

  lemma {:induction false} RecordGoesOn(t: seq<Step>, s: State, t': seq<Step>, s': State, v: VideoId)
    requires GoesOn(t, s, t', s') && v in s.db.rows && v in s'.db.rows
    ensures Records(s.db.rows[v], s'.db.rows[v])
    decreases |t'|
  {
    if |t'| == |t| {
      assert t' == t;
    } else {
      var n := |t'| - 1;
      var m := Run(INITIAL, t'[..n]).value;
      RowsGoOn(t, s, t'[..n], m, v);
      RowsGoOn(t'[..n], m, t', s', v);
      RecordGoesOn(t, s, t'[..n], m, v);
      match t'[n] {
        case Gateway(g) => GatewayRecords(m, s', g, v);
        case Queue(_) =>
        case Work(o) =>
          Statuses.Reachable(t'[..n]);
          WorkRecords(m, s', o, v);
      }
    }
  }

  lemma {:induction false} KeyGoesOn(t: seq<Step>, s: State, t': seq<Step>, s': State, v: VideoId)
    requires GoesOn(t, s, t', s') && Uploads.Canonical(s, v) && v in s.db.used
    ensures Uploads.Canonical(s', v) && v in s'.db.used
    decreases |t'|
  {
    if |t'| == |t| {
      assert t' == t;
    } else {
      var n := |t'| - 1;
      var m := Run(INITIAL, t'[..n]).value;
      KeyGoesOn(t, s, t'[..n], m, v);
      Statuses.Reachable(t'[..n]);
      Uploads.Reachable(t'[..n]);
      Uploads.CanonicalStep(m, s', t'[n], v);
    }
  }

  lemma TimeStep(s: State, s': State, step: Step)
    requires Next(s, step) == Some(s')
    ensures s.now <= s'.now
  {
    match step
    case Gateway(g) => if !Frames.WritesRows(g) { Frames.CalmGateway(s, s', g); }
    case Queue(_) =>
    case Work(_) =>
  }

  lemma {:induction false} TimeGoesOn(t: seq<Step>, s: State, t': seq<Step>, s': State)
    requires GoesOn(t, s, t', s')
    ensures s.now <= s'.now
    decreases |t'|
  {
    if |t'| == |t| {
      assert t' == t;
    } else {
      var n := |t'| - 1;
      TimeGoesOn(t, s, t'[..n], Run(INITIAL, t'[..n]).value);
      TimeStep(Run(INITIAL, t'[..n]).value, s', t'[n]);
    }
  }

  /** A tombstone whose time of deletion is `at` or later. */
  predicate DeletedSince(s: State, v: VideoId, at: nat) {
    v in s.db.rows && s.db.rows[v].status == Deleted && s.db.rows[v].deletedAt.Some? && at <= s.db.rows[v].deletedAt.value
  }

  lemma DeletedStep(s: State, s': State, step: Step, v: VideoId, at: nat)
    requires Next(s, step) == Some(s') && Statuses.Inv(s) && DeletedSince(s, v, at) && at <= s.now && v in s'.db.rows
    ensures DeletedSince(s', v, at)
  {
    Statuses.StepChange(s, s', step, v);
    match step
    case Gateway(g) => DeletedGateway(s, s', g, v);
    case Queue(_) =>
    case Work(o) => DeletedWork(s, s', o, v);
  }

  lemma DeletedGateway(s: State, s': State, g: GatewayStep, v: VideoId)
    requires GatewayNext(s, g) == Some(s') && v in s.db.rows && v in s'.db.rows
    ensures s'.db.rows[v].deletedAt == s.db.rows[v].deletedAt || s'.db.rows[v].deletedAt == Some(s.now)
  {
    if !Frames.WritesRows(g) {
      Frames.CalmGateway(s, s', g);
    }
  }

  lemma DeletedWork(s: State, s': State, o: Outcome, v: VideoId)
    requires WorkNext(s, o) == Some(s') && v in s.db.rows && v in s'.db.rows
    ensures s'.db.rows[v].deletedAt == s.db.rows[v].deletedAt
  {
  }

  lemma {:induction false} DeletedGoesOn(t: seq<Step>, s: State, t': seq<Step>, s': State, v: VideoId, at: nat)
    requires GoesOn(t, s, t', s') && DeletedSince(s, v, at) && at <= s.now
    ensures v in s'.db.rows ==> DeletedSince(s', v, at)
    decreases |t'|
  {
    if |t'| == |t| {
      assert t' == t;
    } else {
      var n := |t'| - 1;
      var m := Run(INITIAL, t'[..n]).value;
      DeletedGoesOn(t, s, t'[..n], m, v, at);
      if v in s'.db.rows {
        RowsGoOn(t, s, t'[..n], m, v);
        RowsGoOn(t'[..n], m, t', s', v);
        TimeGoesOn(t, s, t'[..n], m);
        Statuses.Reachable(t'[..n]);
        DeletedStep(m, s', t'[n], v, at);
      }
    }
  }

  lemma OwnGoesOn(a: Actor, t: seq<Step>, s: State, t': seq<Step>, s': State, t'': seq<Step>, s'': State)
    requires GoesOn(t, s, t', s') && GoesOn(t', s', t'', s'') && Own(a, s, s') && Own(a, s', s'')
    ensures Own(a, s, s'')
  {
    if a == TheWorker {
      forall v | v in s.db.rows && v in s''.db.rows ensures s''.db.rows[v].retryCount <= s.db.rows[v].retryCount {
        RowsGoOn(t, s, t', s', v);
        RowsGoOn(t', s', t'', s'', v);
      }
    }
  }

  lemma {:induction false} UsersGoOn(t: seq<Step>, s: State, t': seq<Step>, s': State, u: UserId)
    requires GoesOn(t, s, t', s') && Frames.Inactive(s, u)
    ensures Frames.Inactive(s', u)
    decreases |t'|
  {
    if |t'| == |t| {
      assert t' == t;
    } else {
      var n := |t'| - 1;
      UsersGoOn(t, s, t'[..n], Run(INITIAL, t'[..n]).value, u);
      Reconcile.InactiveStays(Run(INITIAL, t'[..n]).value, s', t'[n], u);
    }
  }

  lemma {:induction false} UsersStay(t: seq<Step>, s: State, t': seq<Step>, s': State, u: UserId)
    requires GoesOn(t, s, t', s') && u in s.db.users
    ensures u in s'.db.users
    decreases |t'|
  {
    if |t'| == |t| {
      assert t' == t;
    } else {
      var n := |t'| - 1;
      UsersStay(t, s, t'[..n], Run(INITIAL, t'[..n]).value, u);
      UsersOnlyGrow(Run(INITIAL, t'[..n]).value, s', t'[n]);
    }
  }

  lemma UsersOnlyGrow(s: State, s': State, step: Step)
    requires Next(s, step) == Some(s')
    ensures s.db.users.Keys <= s'.db.users.Keys
  {
    if step.Gateway? && !Frames.WritesRows(step.g) {
      Frames.CalmGateway(s, s', step.g);
    }
  }

  /** A cleanup of exactly these keys is runnable; nothing is needed for an empty list. */
  predicate Runnable(q: seq<Entry>, keys: seq<Key>) {
    keys == [] || exists i :: 0 <= i < |q| && q[i].task == CleanupObjects(keys)
  }

  lemma RunnableStays(q: seq<Entry>, q': seq<Entry>, keys: seq<Key>)
    requires q <= q' && Runnable(q, keys)
    ensures Runnable(q', keys)
  {
    if keys != [] {
      var i :| 0 <= i < |q| && q[i].task == CleanupObjects(keys);
      assert q'[i] == q[i];
    }
  }

  lemma RunnableHolds(q: seq<Entry>, keys: seq<Key>)
    requires Runnable(q, keys)
    ensures forall k :: k in keys ==> Lanes.Holds(q, k)
  {
    if keys != [] {
      var i :| 0 <= i < |q| && q[i].task == CleanupObjects(keys);
      assert forall k :: k in keys ==> Lanes.Deletes(q[i].task, k);
    }
  }

  /** Each of the user's objects that was stored then is named by a runnable cleanup now. */
  predicate Swept(earlier: Store, queues: Queues, u: UserId) {
    forall k :: k in earlier.keys && k.owner == u ==> Lanes.Holds(queues.pending, k)
  }

  lemma HoldsStays(q: seq<Entry>, q': seq<Entry>, k: Key)
    requires q <= q' && Lanes.Holds(q, k)
    ensures Lanes.Holds(q', k)
  {
    var i :| 0 <= i < |q| && Lanes.Deletes(q[i].task, k);
    assert q'[i] == q[i];
  }

  /** One more user swept. */
  lemma SweptStays(first: Store, earlier: Store, pending: seq<Entry>, queues: Queues, users: seq<UserId>, i: nat)
    requires first.keys <= earlier.keys && pending <= queues.pending && i < |users|
    requires forall j :: 0 <= j < i ==> Swept(first, Queues(pending, []), users[j])
    requires Swept(earlier, queues, users[i])
    ensures forall j :: 0 <= j <= i ==> Swept(first, queues, users[j])
  {
    forall j, k | 0 <= j < i && k in first.keys && k.owner == users[j] ensures Lanes.Holds(queues.pending, k) {
      assert Swept(first, Queues(pending, []), users[j]);
      HoldsStays(pending, queues.pending, k);
    }
  }

  /** The tombstone is written, counted and dated; its purge is to be enqueued. */
  function Marked(s: State, rid: nat, v: VideoId, seen: Stamp, rows: Rows): State {
    var first := if v in s.log.tombstoned then s.log.tombstoned else s.log.tombstoned[v := s.now];
    s.(db := s.db.(rows := rows),
       log := s.log.(marks := s.log.marks[v := seen.mark], tombstoned := first),
       gate := s.gate.(requests := s.gate.requests[rid := EnqueuePurge(v, seen)]))
  }

  lemma MarkedNext(s: State, rid: nat, u: UserId, v: VideoId)
    requires rid in s.gate.requests && s.gate.requests[rid] == MarkDeleted(u, v) && v !in s.gate.confirms
    requires MarkVideoDeleted(s.db.rows, v, u, s.now).Updated?
    ensures
      var rows := MarkVideoDeleted(s.db.rows, v, u, s.now).rows;
      && Next(s, Gateway(DeleteMark(rid))) == Some(Marked(s, rid, v, Stamp(Count(s.log.marks, v) + 1, 0), rows))
      && v in s.db.rows && s.db.rows[v].owner == u
      && rows == s.db.rows[v := s.db.rows[v].(status := Deleted, deletedAt := Some(s.now))]
  {
  }

  /** The task comes back after 30 seconds per attempt made. */
  function Rescheduled(s: State, a: Attempt): State {
    var delay := 30 * a.retry;
    s.(queues := s.queues.(scheduled := s.queues.scheduled + [Entry(Transcode(a.video), s.now + delay)]),
       log := s.log.(backoff := s.log.backoff[a.video := Count(s.log.backoff, a.video) + delay]),
       worker := Idle)
  }

  lemma RetryScheduled(s: State, a: Attempt, reported: Outcome)
    requires s.worker == Retry(a) && a.retry < MAX_RETRIES && reported != NotEnqueued
    ensures Next(s, Work(Ok)) == Some(Rescheduled(s, a)) && Taken(s, reported) == Ok
  {
  }

  /** The entry put last. */
  predicate LastIs(q: seq<Entry>, t: Task, due: nat) {
    q != [] && q[|q| - 1] == Entry(t, due)
  }

  predicate LastTask(q: seq<Entry>, t: Task) {
    q != [] && q[|q| - 1].task == t
  }

  function Lookup(rows: Rows, v: VideoId): Option<Row> {
    if v in rows then Some(rows[v]) else None
  }

  predicate Stored(keys: seq<Key>, store: Store) {
    forall k :: k in keys ==> k in store.keys
  }

  /** `n` more uploads done. */
  function Advanced(a: Attempt, n: nat): Attempt
    requires n <= |a.todo|
  {
    a.(todo := a.todo[n..], uploaded := a.uploaded + a.todo[..n])
  }

  lemma AdvancedTwice(a: Attempt, m: nat, n: nat)
    requires m + n <= |a.todo|
    ensures Advanced(Advanced(a, m), n) == Advanced(a, m + n)
  {
    assert a.todo[m..][n..] == a.todo[m + n..];
    assert a.uploaded + a.todo[..m] + a.todo[m..][..n] == a.uploaded + a.todo[..m + n];
  }

  lemma StoredPlays(a: Attempt, store: Store)
    requires Stored(Assets(a.owner, a.video, a.files), store)
    ensures Playable(store.keys, a.owner, a.video, a.files)
  {
    AssetsAreTheFiles(a.owner, a.video, a.files);
    forall k | k in KeySet(Assets(a.owner, a.video, a.files)) ensures k in store.keys {
    }
  }

  lemma StoredTwice(keys: seq<Key>, m: nat, n: nat, before: Store, store: Store)
    requires m + n <= |keys| && Stored(keys[..m], before) && before.keys <= store.keys && Stored(keys[m..][..n], store)
    ensures Stored(keys[..m + n], store)
  {
    assert keys[..m + n] == keys[..m] + keys[m..][..n];
  }

  // ----- how handlers end -----

  /** What has become of a transcode task. `cleaned` and `marked` say that the enqueue of a cleanup
      and the update to FAILED were not reported to fail. */
  datatype Ending =
    | Dropped                                                  // a failure that is only logged
    | NotNeeded                                                // the row is not PROCESSING
    | Withdrawn(a: Attempt, cleaned: bool)                     // deleted while the attempt ran
    | GaveUp(key: Key, marked: bool, cleaned: bool)
    | Retrying(a: Attempt, cleaned: bool)
    | Publishing(a: Attempt, cleaned: bool)

  /** What has become of a cleanup:video task. */
  datatype PurgeEnding =
    | Skipped
    | PutOff(row: Row, seen: Stamp, wait: nat)
    | Interrupted(row: Row)
    | Purged(row: Row)

  datatype Reply = Done | Created(video: VideoId) | Reused(video: VideoId) | NotFound | Conflict | BadRequest | Failure | Waiting

  /** The raw object an ending speaks of. */
  function RawOf(end: Ending): Option<Key> {
    match end
    case Withdrawn(a, _) => Some(a.r2Key)
    case GaveUp(key, _, _) => Some(key)
    case Retrying(a, _) => Some(a.r2Key)
    case Publishing(a, _) => Some(a.r2Key)
    case _ => None
  }

  predicate About(end: Ending, key: Key) {
    RawOf(end).None? || RawOf(end) == Some(key)
  }

  /** The row records nothing but its own prefix and thumbnail. */
  predicate Canonical(row: Row, v: VideoId) {
    && (row.hlsPrefix.Some? ==> row.hlsPrefix.value == Prefix(row.owner, v))
    && (row.thumbnail.Some? ==> row.thumbnail.value == Thumb(row.owner, v))
  }

  predicate TranscodeEnded(s: State, reported: Outcome, v: VideoId, end: Ending) {
    match end
    case Dropped => reported == Err || reported == NotEnqueued
    case NotNeeded => v !in s.db.rows || s.db.rows[v].status != Processing
    case Withdrawn(a, cleaned) =>
      && a.video == v && (v in s.db.rows ==> s.db.rows[v].status == Deleted)
      && (if cleaned then Runnable(s.queues.pending, a.uploaded) else reported == NotEnqueued)
    case GaveUp(key, marked, cleaned) =>
      && (marked && v in s.db.rows ==> s.db.rows[v].status == Failed || s.db.rows[v].status == Deleted)
      && (if cleaned then Runnable(s.queues.pending, [key]) else reported == NotEnqueued)
    case Retrying(a, cleaned) =>
      && a.video == v && 1 <= a.retry < 3 && a.retry == Count(s.log.started, v)
      && (v in s.db.rows ==> s.db.rows[v].retryCount == a.retry)
      && LastIs(s.queues.scheduled, Transcode(v), s.now + 30 * a.retry)
      && (cleaned ==> Runnable(s.queues.pending, a.uploaded))
    case Publishing(a, cleaned) =>
      && a.video == v && FilesOk(a.files) && v in s.log.published && s.log.published[v] == a.files
      && Playable(s.store.keys, a.owner, v, a.files)
      && (v in s.db.rows ==>
           s.db.rows[v].owner == a.owner && (s.db.rows[v].status == Ready || s.db.rows[v].status == Deleted))
      && (if cleaned then Runnable(s.queues.pending, [a.r2Key]) else reported == NotEnqueued)
  }

  /** Of the objects stored before, only those the row records have gone. */
  predicate OnlyDoomed(before: Store, after: Store, row: Row) {
    forall k :: k in before.keys && k !in after.keys ==>
      k == row.r2Key || Some(k) == row.thumbnail || (row.hlsPrefix.Some? && Under(k, row.hlsPrefix.value))
  }

  predicate PurgeEnded(s: State, reported: Outcome, v: VideoId, seen: Stamp, end: PurgeEnding) {
    match end
    case Skipped => reported == Err || reported == NotEnqueued || v !in s.db.rows || s.db.rows[v].status != Deleted
    case PutOff(row, seen', wait) =>
      && LastIs(s.queues.scheduled, CleanupVideo(v, seen'), s.now + wait)
      && row.status == Deleted && row.deletedAt.Some? && row.deletedAt.value + GRACE <= s.now + wait
    case Interrupted(_) => LastTask(s.queues.scheduled, CleanupVideo(v, seen))
    case Purged(row) =>
      && v !in s.db.rows && row.status == Deleted && row.deletedAt.Some? && row.deletedAt.value + GRACE <= s.now
      && Canonical(row, v) && NoneUnder(s.store, row) && NoThumbnail(s.store, row)
  }

  class Cluster {
    var now: nat
    var db: Database
    var gate: Gate
    var queues: Queues
    var worker: Worker
    var store: Store
    var log: History
    var turns: seq<Turn>
    ghost var trace: seq<Step>
    ghost var reported: Outcome      // by the last call
    ghost var calls: seq<Call>

    function Abs(): State
      reads this
    {
      State(now, db, gate, queues, worker, store, log)
    }

    /** The systems are in the state their history led to, and every call was taken as it reported. */
    ghost predicate Valid()
      reads this
    {
      Run(INITIAL, trace) == Some(Abs()) && Faithful()
    }

    /** Since the run `t` to `s` no object and no runnable task has gone. */
    ghost predicate Onward(t: seq<Step>, s: State)
      reads this
    {
      Valid() && t <= trace && s.store.keys <= store.keys && s.queues.pending <= queues.pending
    }

    constructor (turns: seq<Turn>)
      ensures Valid() && trace == []
    {
      this.turns := turns;
      now, db, gate := 0, INITIAL.db, INITIAL.gate;
      queues, worker, store, log := INITIAL.queues, Idle, INITIAL.store, INITIAL.log;
      trace, reported, calls := [], Ok, [];
    }

    method Become(s: State)
      modifies this
      ensures Abs() == s && trace == old(trace) && turns == old(turns)
      ensures calls == old(calls) && reported == old(reported)
    {
      now, db, gate, queues, worker, store, log := s.now, s.db, s.gate, s.queues, s.worker, s.store, s.log;
    }

    ghost predicate Faithful()
      reads `calls
    {
      forall i :: 0 <= i < |calls| ==> calls[i].taken == Taken(calls[i].at, calls[i].reported)
    }

    /** A step of somebody else has changed the fields. */
    ghost method Happened(before: State, step: Step)
      requires Run(INITIAL, trace) == Some(before) && Next(before, step) == Some(Abs()) && Faithful()
      modifies `trace
      ensures Valid() && trace == old(trace) + [step]
    {
      Traces.RunSnoc(INITIAL, trace, before, step, Abs());
      trace := trace + [step];
    }

    ghost method Noted(before: State, o: Outcome)
      requires Faithful() && o == Taken(before, reported)
      modifies `calls
      ensures Faithful()
    {
      calls := calls + [Call(before, reported, o)];
    }

    /** Records that the fields have been changed as `step` says. */
    ghost method Took(before: State, step: Step)
      requires Run(INITIAL, trace) == Some(before) && Next(before, step) == Some(Abs()) && Faithful()
      requires step.Work? ==> step.o == Taken(before, reported)
      modifies `trace, `calls
      ensures Valid() && trace == old(trace) + [step]
    {
      if step.Work? {
        Noted(before, step.o);
      }
      Happened(before, step);
    }

    /** The call changed nothing; the handler goes on at `w`. */
    method Proceed(w: Worker, o: Outcome)
      requires Valid() && o == Taken(Abs(), reported) && WorkNext(Abs(), o) == Some(Goto(Abs(), w))
      modifies this
      ensures Valid() && trace == old(trace) + [Work(o)] && reported == old(reported)
      ensures Abs() == Goto(old(Abs()), w)
    {
      ghost var before := Abs();
      worker := w;
      Took(before, Work(o));
    }

    /** The handler returns an error: the queue will run the task again. `gone` was deleted even so. */
    method FailTask(t: Task, gone: set<Key>, delay: nat, o: Outcome)
      requires Valid() && o == Taken(Abs(), reported)
      requires WorkNext(Abs(), o) == Some(QueueRetries(Keep(Abs(), store.keys - gone), t, delay))
      modifies this
      ensures Valid() && trace == old(trace) + [Work(o)] && reported == old(reported) && worker == Idle
      ensures now == old(now) && queues.pending == old(queues.pending) && LastTask(queues.scheduled, t)
      ensures store.keys == old(store.keys) - gone
    {
      ghost var before := Abs();
      store := Store(store.keys - gone);
      queues := queues.(scheduled := queues.scheduled + [Entry(t, now + delay)]);
      worker := Idle;
      Took(before, Work(o));
    }

    /** One step of somebody else, if it can happen. */
    method LetOther(a: Actor, step: Step)
      requires Valid()
      modifies this
      ensures Valid() && old(trace) <= trace && (Abs() == old(Abs()) || Own(a, old(Abs()), Abs()))
      ensures turns == old(turns)
    {
      var next := Next(Abs(), step);
      if Foreign(a, step) && next.Some? {
        ghost var before := Abs();
        ForeignStep(a, before, next.value, step);
        Become(next.value);
        Happened(before, step);
      }
    }

    /** The others' steps before the actor's next call; steps that cannot happen do not. */
    method Yield(a: Actor) returns (result: Outcome)
      requires Valid()
      modifies this
      ensures Valid() && old(trace) <= trace && Own(a, old(Abs()), Abs())
      ensures reported == result == if old(turns) == [] then Ok else old(turns)[0].result
    {
      if turns == [] {
        reported := Ok;
        return Ok;
      }
      var others := turns[0].others;
      result := turns[0].result;
      turns := turns[1..];
      ghost var t, s := trace, Abs();
      for i := 0 to |others|
        invariant Valid() && t <= trace && Own(a, s, Abs())
      {
        ghost var t', s' := trace, Abs();
        LetOther(a, others[i]);
        if Abs() != s' {
          OwnGoesOn(a, t, s, t', s', trace, Abs());
        }
      }
      reported := result;
    }

    // ----- HandleTranscode -----

    method LoadVideo(v: VideoId) returns (ok: bool, row: Option<Row>)
      requires Valid() && worker == Load(v)
      modifies this
      ensures Onward(old(trace), old(Abs())) && (ok <==> reported != Err)
      ensures ok ==> row == Lookup(db.rows, v)
      ensures worker ==
        if !ok || row.None? || row.value.status != Processing then Idle
        else if row.value.retryCount >= MAX_RETRIES then GiveUp(v, row.value.r2Key)
        else Increment(v)
    {
      var result := Yield(TheWorker);
      ok, row := result != Err, None;
      if !ok {
        Proceed(Idle, Err);
        return;
      }
      row := if v in db.rows then Some(db.rows[v]) else None;
      if row.None? || row.value.status != Processing {
        Proceed(Idle, Ok);
      } else if row.value.retryCount >= MAX_RETRIES {
        Proceed(GiveUp(v, row.value.r2Key), Ok);
      } else {
        Proceed(Increment(v), Ok);
      }
    }

    /** Counts the attempt. `a` is the row as the update returned it; without a row there is none. */
    method IncrementRetry(v: VideoId) returns (ok: bool, a: Option<Attempt>)
      requires Valid() && worker == Increment(v) && v in db.rows && db.rows[v].retryCount < MAX_RETRIES
      modifies this
      ensures Onward(old(trace), old(Abs()))
      ensures worker == (if a.Some? then Prepare(a.value) else Idle) && (ok <==> reported != Err)
      ensures a.None? ==> !ok || v !in db.rows || db.rows[v].status != Processing
      ensures a.Some? ==>
        && ok && v in db.rows && db.rows[v].status == Processing && 1 <= db.rows[v].retryCount <= MAX_RETRIES
        && a.value == Attempt(v, db.rows[v].owner, db.rows[v].r2Key, db.rows[v].retryCount, Files([], []), [], [])
    {
      var result := Yield(TheWorker);
      ok, a := result != Err, None;
      if ok {
        a := CountAttempt(v);
      } else {
        Proceed(Idle, Err);
      }
    }

    method CountAttempt(v: VideoId) returns (a: Option<Attempt>)
      requires Valid() && worker == Increment(v) && reported != Err
      requires (v in db.rows ==> db.rows[v].retryCount < MAX_RETRIES)
      modifies this
      ensures Valid() && trace == old(trace) + [Work(Ok)] && reported == old(reported)
      ensures store == old(store) && queues == old(queues) && worker == if a.Some? then Prepare(a.value) else Idle
      ensures a.None? ==> v !in db.rows || db.rows[v].status != Processing
      ensures a.None? ==> db == old(db)
      ensures a.Some? ==>
        && v in old(db).rows && db == old(db).(rows := old(db).rows[v := old(db).rows[v].(retryCount := old(db).rows[v].retryCount + 1)])
        && db.rows[v].status == Processing && 1 <= db.rows[v].retryCount <= MAX_RETRIES
        && a.value == Attempt(v, db.rows[v].owner, db.rows[v].r2Key, db.rows[v].retryCount, Files([], []), [], [])
    {
      RowIsFree(Abs(), v);
      match IncrementVideoRetry(db.rows, v) {
        case Updated(rows, row) =>
          a := Some(Attempt(v, row.owner, row.r2Key, row.retryCount, Files([], []), [], []));
          Begin(a.value, rows);
        case NoRows =>
          a := None;
          Proceed(Idle, Ok);
      }
    }

    method Begin(a: Attempt, rows: Rows)
      requires Valid() && worker == Increment(a.video) && reported != Err && a.video !in gate.confirms
      requires IncrementVideoRetry(db.rows, a.video).Updated? && rows == IncrementVideoRetry(db.rows, a.video).rows
      requires
        var row := IncrementVideoRetry(db.rows, a.video).row;
        a == Attempt(a.video, row.owner, row.r2Key, row.retryCount, Files([], []), [], [])
      modifies this
      ensures Valid() && trace == old(trace) + [Work(Ok)] && reported == old(reported)
      ensures store == old(store) && queues == old(queues) && worker == Prepare(a) && db == old(db).(rows := rows)
      ensures Count(log.started, a.video) == Count(old(log).started, a.video) + 1
    {
      ghost var before := Abs();
      db := db.(rows := rows);
      log := log.(started := log.started[a.video := Count(log.started, a.video) + 1]);
      worker := Prepare(a);
      Took(before, Work(Ok));
    }

    /** The row the handler is about to write is not locked by a confirm, and is past its confirm. */
    lemma RowIsFree(s: State, v: VideoId)
      requires Run(INITIAL, trace) == Some(s) && Statuses.AboutToWrite(s.worker, v)
      ensures v !in s.gate.confirms && v in s.db.used
      ensures v in s.db.rows ==> RowOk(s.db.rows[v]) && s.db.rows[v].status != PendingUpload
      ensures s.worker.Publish? && v in s.db.rows ==> s.db.rows[v].owner == s.worker.a.owner
    {
      Statuses.Reachable(trace);
      Statuses.NeverLocked(s, v);
      if v in s.db.rows {
        assert Statuses.RowInv(s, v);
      }
    }

    method MakeWorkdir(a: Attempt) returns (ok: bool)
      requires Valid() && worker == Prepare(a)
      modifies this
      ensures Onward(old(trace), old(Abs())) && worker == (if ok then Fetch(a) else Idle) && (ok <==> reported != Err)
    {
      var result := Yield(TheWorker);
      ok := result != Err;
      Proceed(if ok then Fetch(a) else Idle, if ok then Ok else Err);
    }

    /** Download, probe, validate, and the files the encodes will produce. */
    method FetchAndEncode(a: Attempt) returns (result: Outcome, a': Attempt)
      requires Valid() && worker == Fetch(a)
      modifies this
      ensures Onward(old(trace), old(Abs()))
      ensures worker == if result.Encoded? then Upload(a') else if result.Invalid? then GiveUp(a.video, a.r2Key) else Retry(a)
      ensures result.Encoded? <==> reported.Encoded? && FilesOk(reported.files) && a.r2Key in store.keys
      ensures result.Invalid? <==> reported.Invalid?
      ensures a' == if result.Encoded? then a.(files := reported.files, todo := Assets(a.owner, a.video, reported.files), uploaded := []) else a
    {
      result := Yield(TheWorker);
      a' := a;
      if result.Encoded? && FilesOk(result.files) && a.r2Key in store.keys {
        a' := a.(files := result.files, todo := Assets(a.owner, a.video, result.files), uploaded := []);
        Proceed(Upload(a'), result);
      } else if result.Invalid? {
        Proceed(GiveUp(a.video, a.r2Key), Invalid);
      } else {
        result := Err;
        Proceed(Retry(a), Err);
      }
    }

    /** One put. A failed one may have stored its object; `listed` says whether the caller then adds
        the key to its list. */
    method UploadFile(a: Attempt, listed: bool) returns (ok: bool, a': Attempt)
      requires Valid() && worker == Upload(a) && a.todo != [] && listed == !VariantFile(a.todo[0])
      modifies this
      ensures Onward(old(trace), old(Abs())) && worker == if ok then Upload(a') else DropUploads(a', true)
      ensures ok <==> !reported.PutFailed? && reported != Err
      ensures ok ==> a.todo[0] in store.keys && a' == a.(todo := a.todo[1..], uploaded := a.uploaded + [a.todo[0]])
      ensures !ok ==> a' == if reported.PutFailed? && listed then a.(uploaded := a.uploaded + [a.todo[0]]) else a
    {
      var result := Yield(TheWorker);
      ok, a' := false, a;
      if result.PutFailed? {
        a' := if listed then a.(uploaded := a.uploaded + [a.todo[0]]) else a;
        Put(a, result.stored, DropUploads(a', true), result);
      } else if result == Err {
        Proceed(DropUploads(a, true), Err);
      } else {
        ok, a' := true, a.(todo := a.todo[1..], uploaded := a.uploaded + [a.todo[0]]);
        Put(a, true, Upload(a'), Ok);
      }
    }

    /** The object is stored, or not, and the handler goes on at `w`. */
    method Put(a: Attempt, stored: bool, w: Worker, o: Outcome)
      requires Valid() && worker == Upload(a) && a.todo != [] && o == Taken(Abs(), reported)
      requires UploadNext(Abs(), a, o) == Some(Goto(if stored then Keep(Abs(), store.keys + {a.todo[0]}) else Abs(), w))
      modifies this
      ensures Valid() && trace == old(trace) + [Work(o)] && reported == old(reported) && worker == w
      ensures queues == old(queues) && store.keys == old(store.keys) + if stored then {a.todo[0]} else {}
    {
      ghost var before := Abs();
      if stored {
        store := Store(store.keys + {a.todo[0]});
      }
      worker := w;
      Took(before, Work(o));
    }

    /** uploadVariant: the files of one variant directory, in order. After a failure the list holds
        exactly the files put before it. */
    method UploadVariant(a: Attempt, count: nat) returns (ok: bool, a': Attempt, n: nat)
      requires Valid() && worker == Upload(a) && count <= |a.todo|
      requires forall i :: 0 <= i < count ==> VariantFile(a.todo[i])
      modifies this
      ensures Onward(old(trace), old(Abs())) && worker == if ok then Upload(a') else DropUploads(a', true)
      ensures n <= count && (ok <==> n == count) && Stored(a.todo[..n], store)
      ensures a' == Advanced(a, n)
    {
      ok, a', n := true, a, 0;
      while n < count && ok
        invariant 0 <= n <= count && Onward(old(trace), old(Abs())) && (!ok ==> n < count)
        invariant worker == if ok then Upload(a') else DropUploads(a', true)
        invariant a' == Advanced(a, n) && Stored(a.todo[..n], store)
        decreases count - n, ok
      {
        ok, a' := UploadFile(a', false);
        if ok {
          assert a.todo[..n + 1] == a.todo[..n] + [a.todo[n]];
          n := n + 1;
        }
      }
    }

    /** Both variants. */
    method UploadVariants(a: Attempt) returns (ok: bool, a': Attempt, n: nat)
      requires Valid() && worker == Upload(a) && a.todo == Assets(a.owner, a.video, a.files)
      modifies this
      ensures Onward(old(trace), old(Abs())) && worker == if ok then Upload(a') else DropUploads(a', true)
      ensures n < |a.todo| && (ok <==> n == |a.files.sd| + |a.files.hd|) && Stored(a.todo[..n], store)
      ensures a' == Advanced(a, n)
    {
      var sd, hd := |a.files.sd|, |a.files.hd|;
      TodoOrder(a.owner, a.video, a.files);
      ok, a', n := UploadVariant(a, sd);
      if ok {
        ghost var before := store;
        var more;
        ok, a', more := UploadVariant(a', hd);
        AdvancedTwice(a, sd, more);
        StoredTwice(a.todo, sd, more, before, store);
        n := sd + more;
      }
    }

    /** The two puts whose caller reports the key even when they fail. */
    method UploadThumbAndMaster(a: Attempt) returns (ok: bool, a': Attempt)
      requires Valid() && worker == Upload(a) && a.todo == [Thumb(a.owner, a.video), Hls(a.owner, a.video, MASTER)]
      modifies this
      ensures Onward(old(trace), old(Abs())) && worker == if ok then Upload(a') else DropUploads(a', true)
      ensures a' == a.(todo := a'.todo, uploaded := a'.uploaded) && a'.uploaded <= a.uploaded + a.todo
      ensures ok ==> a'.todo == [] && a'.uploaded == a.uploaded + a.todo && Stored(a.todo, store)
    {
      ok, a' := UploadFile(a, true);
      if !ok { return; }
      assert a.uploaded + [a.todo[0]] <= a.uploaded + a.todo;
      ok, a' := UploadFile(a', true);
      assert a.uploaded + a.todo == a.uploaded + [a.todo[0]] + [a.todo[1]];
    }

    /** Every put of the attempt: both variants, the thumbnail and last the master. */
    method UploadAll(a: Attempt) returns (ok: bool, a': Attempt)
      requires Valid() && worker == Upload(a) && a.todo == Assets(a.owner, a.video, a.files) && a.uploaded == []
      modifies this
      ensures Onward(old(trace), old(Abs())) && worker == if ok then Recheck(a') else DropUploads(a', true)
      ensures a' == a.(todo := a'.todo, uploaded := a'.uploaded) && a'.uploaded <= Assets(a.owner, a.video, a.files)
      ensures ok ==> a'.uploaded == Assets(a.owner, a.video, a.files)
      ensures ok ==> Playable(store.keys, a.owner, a.video, a.files)
    {
      TodoOrder(a.owner, a.video, a.files);
      var n;
      ok, a', n := UploadVariants(a);
      if !ok { return; }
      assert a.todo == a.todo[..n] + a.todo[n..];
      ok, a' := UploadThumbAndMaster(a');
      if !ok { return; }
      assert a'.uploaded == a.todo;
      StoredPlays(a, store);
      EndUploads(a');
    }

    method EndUploads(a: Attempt)
      requires Valid() && worker == Upload(a) && a.todo == []
      modifies this
      ensures Onward(old(trace), old(Abs())) && worker == Recheck(a)
    {
      Proceed(Recheck(a), Ok);
    }

    /** Whether the video is still PROCESSING. */
    method RecheckStatus(a: Attempt) returns (ok: bool, current: bool)
      requires Valid() && worker == Recheck(a)
      modifies this
      ensures Onward(old(trace), old(Abs())) && (ok <==> reported != Err)
      ensures ok ==> (current <==> a.video in db.rows && db.rows[a.video].status == Processing)
      ensures worker == if !ok then DropUploads(a, true) else if current then Publish(a) else DropUploads(a, false)
    {
      var result := Yield(TheWorker);
      ok := result != Err;
      current := a.video in db.rows && db.rows[a.video].status == Processing;
      if ok {
        Proceed(if current then Publish(a) else DropUploads(a, false), Ok);
      } else {
        Proceed(DropUploads(a, true), Err);
      }
    }

    /** Flips the row to READY under its guard. */
    method MarkReady(a: Attempt) returns (result: SqlResult, ok: bool)
      requires Valid() && worker == Publish(a)
      modifies this
      ensures Onward(old(trace), old(Abs())) && (ok <==> reported != Err)
      ensures worker ==
        if !ok then DropUploads(a, true) else if result.NoRows? then DropUploads(a, false) else DropRaw(a.r2Key)
      ensures ok ==> result.NoRows? || result.Updated?
      ensures ok && result.NoRows? ==> a.video !in db.rows || db.rows[a.video].status != Processing
      ensures ok && result.Updated? ==> IsPublished(a)
    {
      var reply := Yield(TheWorker);
      ok, result := reply != Err, NoRows;
      if ok {
        result := Flip(a);
      } else {
        Proceed(DropUploads(a, true), Err);
      }
    }

    method Flip(a: Attempt) returns (result: SqlResult)
      requires Valid() && worker == Publish(a) && reported != Err
      modifies this
      ensures Valid() && trace == old(trace) + [Work(Ok)] && reported == old(reported)
      ensures store == old(store) && queues == old(queues) && (result.NoRows? || result.Updated?)
      ensures worker == if result.NoRows? then DropUploads(a, false) else DropRaw(a.r2Key)
      ensures result.NoRows? ==> db == old(db) && (a.video !in db.rows || db.rows[a.video].status != Processing)
      ensures result.Updated? ==> IsPublished(a) && old(db).rows[a.video].status == Processing
      ensures result.Updated? ==>
        var row := old(db).rows[a.video].(
          status := Ready, hlsPrefix := Some(Prefix(a.owner, a.video)), thumbnail := Some(Thumb(a.owner, a.video)));
        db == old(db).(rows := old(db).rows[a.video := row])
    {
      RowIsFree(Abs(), a.video);
      result := MarkVideoReady(db.rows, a.video, Prefix(a.owner, a.video), Thumb(a.owner, a.video));
      match result {
        case Updated(rows, _) => PutReady(a, rows);
        case NoRows => Proceed(DropUploads(a, false), Ok);
      }
    }

    method PutReady(a: Attempt, rows: Rows)
      requires Valid() && worker == Publish(a) && reported != Err && a.video !in gate.confirms
      requires MarkVideoReady(db.rows, a.video, Prefix(a.owner, a.video), Thumb(a.owner, a.video)).Updated?
      requires rows == MarkVideoReady(db.rows, a.video, Prefix(a.owner, a.video), Thumb(a.owner, a.video)).rows
      modifies this
      ensures Valid() && trace == old(trace) + [Work(Ok)] && reported == old(reported)
      ensures store == old(store) && queues == old(queues) && worker == DropRaw(a.r2Key)
      ensures db == old(db).(rows := rows) && log == old(log).(published := old(log).published[a.video := a.files])
    {
      ghost var before := Abs();
      db := db.(rows := rows);
      log := log.(published := log.published[a.video := a.files]);
      worker := DropRaw(a.r2Key);
      assert PublishNext(before, a, Ok) == Some(Abs());
      Took(before, Work(Ok));
    }

    /** The row is READY and says where the attempt's uploads are. */
    ghost predicate IsPublished(a: Attempt)
      reads this
    {
      && a.video in db.rows && db.rows[a.video].status == Ready && db.rows[a.video].owner == a.owner
      && db.rows[a.video].hlsPrefix == Some(Prefix(a.owner, a.video)) && db.rows[a.video].thumbnail == Some(Thumb(a.owner, a.video))
      && a.video in log.published && log.published[a.video] == a.files
    }

    /** EnqueueCleanupObjects: nothing for an empty list; a failure is only logged. */
    method EnqueueCleanup(keys: seq<Key>, ok: bool)
      modifies `queues
      ensures Abs() == EnqueueIf(old(Abs()), keys, ok)
      ensures old(queues.pending) <= queues.pending && (ok ==> Runnable(queues.pending, keys))
    {
      if ok && |keys| > 0 {
        queues := queues.(pending := queues.pending + [Entry(CleanupObjects(keys), now)]);
        assert queues.pending[|queues.pending| - 1].task == CleanupObjects(keys);
      }
    }

    /** cleanupOnFailure. Without another attempt to come, the row is a tombstone or gone. */
    method CleanupOnFailure(a: Attempt, again: bool) returns (cleaned: bool)
      requires Valid() && worker == DropUploads(a, again)
      modifies this
      ensures Onward(old(trace), old(Abs())) && worker == (if again then Retry(a) else Idle)
      ensures (cleaned <==> reported != NotEnqueued) && (cleaned ==> Runnable(queues.pending, a.uploaded))
      ensures !again ==> TranscodeEnded(Abs(), reported, a.video, Withdrawn(a, cleaned))
    {
      var result := Yield(TheWorker);
      ghost var before := Abs();
      Statuses.Reachable(trace);
      cleaned := result != NotEnqueued;
      EnqueueCleanup(a.uploaded, cleaned);
      worker := if again then Retry(a) else Idle;
      Took(before, Work(if cleaned then Ok else NotEnqueued));
    }

    method CleanupRaw(key: Key) returns (cleaned: bool)
      requires Valid() && worker == DropRaw(key)
      modifies this
      ensures Onward(old(trace), old(Abs())) && worker == Idle && log.published == old(log.published)
      ensures (cleaned <==> reported != NotEnqueued) && (cleaned ==> Runnable(queues.pending, [key]))
    {
      var result := Yield(TheWorker);
      ghost var before := Abs();
      cleaned := result != NotEnqueued;
      EnqueueCleanup([key], cleaned);
      worker := Idle;
      Took(before, Work(if cleaned then Ok else NotEnqueued));
    }

    /** markFailedDetached; its error is only logged. The row is FAILED then, or stays a tombstone. */
    method MarkFailedDetached(v: VideoId, key: Key) returns (marked: bool)
      requires Valid() && worker == GiveUp(v, key)
      modifies this
      ensures Onward(old(trace), old(Abs())) && worker == DropRaw(key) && (marked <==> reported != Err)
      ensures marked ==> v in db.used && (v in db.rows ==> db.rows[v].status == Failed || db.rows[v].status == Deleted)
    {
      var result := Yield(TheWorker);
      marked := result != Err;
      if marked {
        Fail(v, key);
      } else {
        Proceed(DropRaw(key), Err);
      }
    }

    method Fail(v: VideoId, key: Key)
      requires Valid() && worker == GiveUp(v, key) && reported != Err
      modifies this
      ensures Valid() && trace == old(trace) + [Work(Ok)] && reported == old(reported)
      ensures store == old(store) && queues == old(queues) && worker == DropRaw(key)
      ensures v in db.used && (v in db.rows ==> db.rows[v].status == Failed || db.rows[v].status == Deleted)
      ensures
        var rows := old(db).rows;
        db == if v in rows && rows[v].status != Deleted then old(db).(rows := rows[v := rows[v].(status := Failed)]) else old(db)
    {
      ghost var before := Abs();
      RowIsFree(before, v);
      match MarkVideoFailed(db.rows, v) {
        case Updated(rows, _) => db := db.(rows := rows);
        case _ =>
      }
      worker := DropRaw(key);
      assert GiveUpNext(before, v, key, Ok) == Some(Abs());
      Took(before, Work(Ok));
    }

    /** FAILED, and the raw object is cleaned up. */
    method MarkFailedAndCleanup(v: VideoId, key: Key) returns (end: Ending)
      requires Valid() && worker == GiveUp(v, key)
      modifies this
      ensures Onward(old(trace), old(Abs())) && worker == Idle && end.GaveUp?
      ensures end.key == key && TranscodeEnded(Abs(), reported, v, end)
    {
      var marked := MarkFailedDetached(v, key);
      ghost var t, s := trace, Abs();
      var cleaned := CleanupRaw(key);
      RowsGoOn(t, s, trace, Abs(), v);
      end := GaveUp(key, marked, cleaned);
    }

    /** handleTransient: another attempt after 30 seconds per attempt made, or FAILED when the budget
        is spent. */
    method HandleTransient(a: Attempt, cleaned: bool) returns (end: Ending)
      requires Valid() && worker == Retry(a) && (cleaned ==> Runnable(queues.pending, a.uploaded))
      modifies this
      ensures Onward(old(trace), old(Abs())) && worker == Idle && TranscodeEnded(Abs(), reported, a.video, end)
      ensures
        if a.retry >= MAX_RETRIES then end.GaveUp? && end.key == a.r2Key
        else end == if reported == NotEnqueued then Dropped else Retrying(a, cleaned)
    {
      if a.retry >= MAX_RETRIES {
        Proceed(GiveUp(a.video, a.r2Key), Ok);
        end := MarkFailedAndCleanup(a.video, a.r2Key);
      } else {
        end := EnqueueRetry(a, cleaned);
      }
    }

    method EnqueueRetry(a: Attempt, cleaned: bool) returns (end: Ending)
      requires Valid() && worker == Retry(a) && a.retry < MAX_RETRIES
      requires (cleaned ==> Runnable(queues.pending, a.uploaded))
      modifies this
      ensures Onward(old(trace), old(Abs())) && worker == Idle && TranscodeEnded(Abs(), reported, a.video, end)
      ensures end == if reported == NotEnqueued then Dropped else Retrying(a, cleaned)
    {
      ghost var pending := queues.pending;
      var result := Yield(TheWorker);
      if cleaned {
        RunnableStays(pending, queues.pending, a.uploaded);
      }
      if result == NotEnqueued {
        Proceed(Idle, NotEnqueued);
        end := Dropped;
      } else {
        AttemptIsCounted(a);
        ScheduleRetry(a);
        end := Retrying(a, cleaned);
      }
    }

    method ScheduleRetry(a: Attempt)
      requires Valid() && worker == Retry(a) && a.retry < MAX_RETRIES && reported != NotEnqueued
      modifies this
      ensures Valid() && trace == old(trace) + [Work(Ok)] && reported == old(reported) && worker == Idle
      ensures store == old(store) && queues.pending == old(queues.pending)
      ensures queues.scheduled == old(queues.scheduled) + [Entry(Transcode(a.video), now + 30 * a.retry)]
      ensures db == old(db) && log == old(log).(backoff := log.backoff)
      ensures Count(log.backoff, a.video) == Count(old(log).backoff, a.video) + 30 * a.retry
    {
      ghost var before := Abs();
      RetryScheduled(before, a, reported);
      PutBack(a);
      Took(before, Work(Ok));
    }

    /** The delayed enqueue, and the end of the handler. */
    method PutBack(a: Attempt)
      modifies `queues, `log, `worker
      ensures Abs() == Rescheduled(old(Abs()), a)
    {
      var delay := RetryDelay(a.retry);
      queues := queues.(scheduled := queues.scheduled + [Entry(Transcode(a.video), now + delay)]);
      log := log.(backoff := log.backoff[a.video := Count(log.backoff, a.video) + delay]);
      worker := Idle;
    }

    lemma AttemptIsCounted(a: Attempt)
      requires Valid() && worker == Retry(a)
      ensures 1 <= a.retry == Count(log.started, a.video) && (a.video in db.rows ==> db.rows[a.video].retryCount == a.retry)
    {
      Retries.RetriesAreBounded(trace, a.video);
    }

    /** The handler from the dequeued task to its return, whatever the others do meanwhile. */
    method HandleTranscode(v: VideoId) returns (end: Ending)
      requires Valid() && worker == Load(v)
      modifies this
      ensures Onward(old(trace), old(Abs())) && worker == Idle && TranscodeEnded(Abs(), reported, v, end)
      ensures v in db.rows ==> About(end, db.rows[v].r2Key)
    {
      var ok, row := LoadVideo(v);
      if !ok {
        return Dropped;
      }
      if row.None? || row.value.status != Processing {
        return NotNeeded;
      }
      ghost var t, s := trace, Abs();
      if row.value.retryCount >= MAX_RETRIES {
        end := MarkFailedAndCleanup(v, row.value.r2Key);
      } else {
        end := StartAttempt(v);
      }
      if v in db.rows {
        RecordGoesOn(t, s, trace, Abs(), v);
      }
    }

    method StartAttempt(v: VideoId) returns (end: Ending)
      requires Valid() && worker == Increment(v)
      requires v in db.rows && db.rows[v].status == Processing && db.rows[v].retryCount < MAX_RETRIES
      modifies this
      ensures Onward(old(trace), old(Abs())) && worker == Idle && TranscodeEnded(Abs(), reported, v, end)
      ensures About(end, old(db.rows[v].r2Key))
    {
      ghost var t, s := trace, Abs();
      var ok, incremented := IncrementRetry(v);
      if incremented.None? {
        return if ok then NotNeeded else Dropped;
      }
      RecordGoesOn(t, s, trace, Abs(), v);
      end := RunAttempt(incremented.value);
    }

    /** One attempt, from the working directory to the uploads. */
    method RunAttempt(incremented: Attempt) returns (end: Ending)
      requires Valid() && worker == Prepare(incremented) && incremented.uploaded == []
      modifies this
      ensures Onward(old(trace), old(Abs())) && worker == Idle
      ensures TranscodeEnded(Abs(), reported, incremented.video, end) && About(end, incremented.r2Key)
    {
      var ok := MakeWorkdir(incremented);
      if !ok {
        return Dropped;
      }
      var result, a := FetchAndEncode(incremented);
      if result.Invalid? {
        end := MarkFailedAndCleanup(a.video, a.r2Key);
      } else if result.Encoded? {
        end := UploadAndPublish(a);
      } else {
        end := HandleTransient(a, true);
      }
    }

    method UploadAndPublish(encoded: Attempt) returns (end: Ending)
      requires Valid() && worker == Upload(encoded) && FilesOk(encoded.files)
      requires encoded.todo == Assets(encoded.owner, encoded.video, encoded.files) && encoded.uploaded == []
      modifies this
      ensures Onward(old(trace), old(Abs())) && worker == Idle
      ensures TranscodeEnded(Abs(), reported, encoded.video, end) && About(end, encoded.r2Key)
    {
      var ok, a := UploadAll(encoded);
      if ok {
        end := PublishUploads(a);
      } else {
        end := CleanupAndRetry(a);
      }
    }

    /** The uploads are given up first: their cleanup is queued before the retry is. */
    method CleanupAndRetry(a: Attempt) returns (end: Ending)
      requires Valid() && worker == DropUploads(a, true)
      modifies this
      ensures Onward(old(trace), old(Abs())) && worker == Idle
      ensures TranscodeEnded(Abs(), reported, a.video, end) && About(end, a.r2Key)
    {
      var cleaned := CleanupOnFailure(a, true);
      end := HandleTransient(a, cleaned);
    }

    /** The last part of the handler: re-check, flip to READY, tidy up. */
    method PublishUploads(a: Attempt) returns (end: Ending)
      requires Valid() && worker == Recheck(a) && FilesOk(a.files)
      requires a.uploaded == Assets(a.owner, a.video, a.files) && Playable(store.keys, a.owner, a.video, a.files)
      modifies this
      ensures Onward(old(trace), old(Abs())) && worker == Idle
      ensures TranscodeEnded(Abs(), reported, a.video, end) && About(end, a.r2Key)
    {
      var ok, current := RecheckStatus(a);
      if !ok {
        end := CleanupAndRetry(a);
        return;
      }
      if !current {
        var cleaned := CleanupOnFailure(a, false);
        return Withdrawn(a, cleaned);
      }
      var marked;
      marked, ok := MarkReady(a);
      if !ok {
        end := CleanupAndRetry(a);
        return;
      }
      if marked.NoRows? {
        var cleaned := CleanupOnFailure(a, false);
        return Withdrawn(a, cleaned);
      }
      end := FinishPublished(a);
    }

    /** The video is READY; the raw object goes. */
    method FinishPublished(a: Attempt) returns (end: Ending)
      requires Valid() && worker == DropRaw(a.r2Key) && FilesOk(a.files)
      requires Playable(store.keys, a.owner, a.video, a.files)
      requires IsPublished(a)
      modifies this
      ensures Onward(old(trace), old(Abs())) && worker == Idle && end.Publishing?
      ensures TranscodeEnded(Abs(), reported, a.video, end) && About(end, a.r2Key)
    {
      ghost var t, s := trace, Abs();
      var cleaned := CleanupRaw(a.r2Key);
      RowsGoOn(t, s, trace, Abs(), a.video);
      end := Publishing(a, cleaned);
    }

    // ----- HandleCleanupObjects and HandleCleanupVideo -----

    /** All keys are gone then, or the task waits to be run again: always when the payload is longer
        than one request may be. */
    method HandleCleanupObjects(keys: seq<Key>) returns (done: bool)
      requires Valid() && worker == Deleting(keys)
      modifies this
      ensures Valid() && old(trace) <= trace && worker == Idle
      ensures done <==> |keys| <= 1000 && !(reported.Undeleted? && reported.gone <= KeySet(keys))
      ensures if done then forall k :: k in keys ==> k !in store.keys else LastTask(queues.scheduled, CleanupObjects(keys))
      ensures forall k :: k in old(store).keys && k !in keys ==> k in store.keys
    {
      var result := Yield(TheWorker);
      done := false;
      if result.Undeleted? && result.gone <= KeySet(keys) {
        FailTask(CleanupObjects(keys), result.gone, result.delay, result);
      } else if |keys| > DELETE_LIMIT {
        FailTask(CleanupObjects(keys), {}, 0, Undeleted({}, 0));
      } else {
        done := true;
        Delete(KeySet(keys), Idle);
      }
    }

    /** The objects are gone and the handler goes on at `w`. */
    method Delete(doomed: set<Key>, w: Worker)
      requires Valid() && Taken(Abs(), reported) == Ok
      requires WorkNext(Abs(), Ok) == Some(Goto(Keep(Abs(), store.keys - doomed), w))
      modifies this
      ensures Valid() && trace == old(trace) + [Work(Ok)] && reported == old(reported) && worker == w
      ensures now == old(now) && store.keys == old(store.keys) - doomed
    {
      ghost var before := Abs();
      store := Store(store.keys - doomed);
      worker := w;
      Took(before, Work(Ok));
    }

    /** Loads the row and decides: nothing to do, too early, or purge. */
    method LoadTombstoned(v: VideoId, seen: Stamp) returns (ok: bool, row: Option<Row>)
      requires Valid() && worker == LoadTombstone(v, seen)
      modifies this
      ensures Valid() && old(trace) <= trace && (ok <==> reported != Err) && old(store).keys <= store.keys
      ensures if ok then Inspected(v, seen, row) else worker == Idle && row == None
    {
      var result := Yield(TheWorker);
      ok, row := result != Err, None;
      if ok {
        row := Inspect(v, seen);
      } else {
        Proceed(Idle, Err);
      }
    }

    /** The row when it is a tombstone; it is purged if and only if its grace is over. */
    ghost predicate Inspected(v: VideoId, seen: Stamp, row: Option<Row>)
      reads this
    {
      match row
      case None => worker == Idle && (v !in db.rows || db.rows[v].status != Deleted)
      case Some(r) =>
        && v in db.rows && r == db.rows[v] && r.status == Deleted && r.deletedAt.Some? && Canonical(r, v)
        && if now < r.deletedAt.value + GRACE
           then worker.Postpone? && worker.video == v && now + worker.remaining == r.deletedAt.value + GRACE
           else worker == PurgePrefix(v, seen, r)
    }

    method Inspect(v: VideoId, seen: Stamp) returns (row: Option<Row>)
      requires Valid() && worker == LoadTombstone(v, seen) && reported != Err
      modifies this
      ensures Valid() && old(trace) <= trace && Inspected(v, seen, row) && reported == old(reported) && store == old(store)
    {
      TombstoneHasTime(Abs(), v);
      row := None;
      if v in db.rows && db.rows[v].status == Deleted && db.rows[v].deletedAt.Some? {
        row := Some(db.rows[v]);
        CheckGrace(v, seen, row.value);
      } else {
        Proceed(Idle, Ok);
      }
    }

    /** The remaining time if the grace is not over. */
    method CheckGrace(v: VideoId, seen: Stamp, row: Row)
      requires Valid() && worker == LoadTombstone(v, seen) && reported != Err && v in db.rows && db.rows[v] == row
      requires row.status == Deleted && row.deletedAt.Some?
      modifies this
      ensures Valid() && old(trace) <= trace && reported == old(reported) && store == old(store) && db == old(db) && now == old(now)
      ensures if now < row.deletedAt.value + 86_400
              then worker.Postpone? && worker.video == v && now + worker.remaining == row.deletedAt.value + 86_400
              else worker == PurgePrefix(v, seen, row)
    {
      var elapsed: int := now - row.deletedAt.value;
      if elapsed < GRACE {
        Proceed(Postpone(v, Stamp(Count(log.marks, v), seen.hops + 1), GRACE - elapsed), Ok);
      } else {
        Proceed(PurgePrefix(v, seen, row), Ok);
      }
    }

    lemma TombstoneHasTime(s: State, v: VideoId)
      requires Run(INITIAL, trace) == Some(s)
      ensures v in s.db.rows && s.db.rows[v].status == Deleted ==> s.db.rows[v].deletedAt.Some?
      ensures v in s.db.rows ==> Canonical(s.db.rows[v], v)
    {
      Statuses.Reachable(trace);
      if v in s.db.rows {
        assert Statuses.RowInv(s, v);
      }
    }

    method ReenqueueCleanup(v: VideoId, seen: Stamp, remaining: nat) returns (ok: bool)
      requires Valid() && worker == Postpone(v, seen, remaining)
      modifies this
      ensures Valid() && old(trace) <= trace && old(now) <= now && worker == Idle && (ok <==> reported != NotEnqueued)
      ensures old(store).keys <= store.keys
      ensures ok ==> LastIs(queues.scheduled, CleanupVideo(v, seen), now + remaining)
    {
      var result := Yield(TheWorker);
      ok := result != NotEnqueued;
      if ok {
        SchedulePurge(v, seen, remaining);
      } else {
        Proceed(Idle, NotEnqueued);
      }
    }

    method SchedulePurge(v: VideoId, seen: Stamp, remaining: nat)
      requires Valid() && worker == Postpone(v, seen, remaining) && reported != NotEnqueued
      modifies this
      ensures Valid() && trace == old(trace) + [Work(Ok)]
      ensures reported == old(reported) && worker == Idle && now == old(now) && store == old(store)
      ensures LastIs(queues.scheduled, CleanupVideo(v, seen), now + remaining)
    {
      ghost var before := Abs();
      queues := queues.(scheduled := queues.scheduled + [Entry(CleanupVideo(v, seen), now + remaining)]);
      worker := Idle;
      Took(before, Work(Ok));
    }

    /** DeletePrefix: no HLS object of the video is left, or the task waits to be run again. */
    method DeleteHlsPrefix(v: VideoId, seen: Stamp, row: Row) returns (ok: bool)
      requires Valid() && worker == PurgePrefix(v, seen, row)
      modifies this
      ensures Valid() && old(trace) <= trace && old(now) <= now
      ensures worker == if ok then PurgeKeys(v, seen, row) else Idle
      ensures if ok then NoneUnder(store, row) else LastTask(queues.scheduled, CleanupVideo(v, seen))
      ensures OnlyDoomed(old(store), store, row)
    {
      var result := Yield(TheWorker);
      var doomed := set k | k in store.keys && row.hlsPrefix.Some? && Under(k, row.hlsPrefix.value);
      ok := !(result.Fails? && result.gone <= doomed);
      if ok {
        Delete(doomed, PurgeKeys(v, seen, row));
      } else {
        FailTask(CleanupVideo(v, seen), result.gone, result.delay, result);
      }
    }

    /** DeleteObjects on the raw object and the thumbnail. */
    method DeleteRawAndThumb(v: VideoId, seen: Stamp, row: Row) returns (ok: bool)
      requires Valid() && worker == PurgeKeys(v, seen, row) && NoneUnder(store, row)
      modifies this
      ensures Valid() && old(trace) <= trace && old(now) <= now && worker == if ok then PurgeRow(v, seen, row) else Idle
      ensures ok ==>
        NoneUnder(store, row) && row.r2Key !in store.keys && (row.thumbnail.Some? ==> row.thumbnail.value !in store.keys)
      ensures !ok ==> LastTask(queues.scheduled, CleanupVideo(v, seen))
      ensures OnlyDoomed(old(store), store, row)
    {
      var result := Yield(TheWorker);
      var keys := [row.r2Key];
      if row.thumbnail.Some? {
        keys := keys + [row.thumbnail.value];
      }
      assert keys == RawAndThumb(row);
      ok := !(result.Fails? && result.gone <= KeySet(keys));
      if ok {
        Delete(KeySet(keys), PurgeRow(v, seen, row));
      } else {
        FailTask(CleanupVideo(v, seen), result.gone, result.delay, result);
      }
    }

    /** The row goes last. Meanwhile nobody puts anything but raw objects. */
    method DeleteVideoRow(v: VideoId, seen: Stamp, row: Row) returns (ok: bool)
      requires Valid() && worker == PurgeRow(v, seen, row)
      modifies this
      ensures Valid() && old(trace) <= trace && old(now) <= now && worker == Idle
      ensures forall k :: k in store.keys ==> k in old(store.keys) || k.Raw?
      ensures old(store).keys <= store.keys
      ensures if ok then v !in db.rows else LastTask(queues.scheduled, CleanupVideo(v, seen))
    {
      var result := Yield(TheWorker);
      ghost var before := Abs();
      ok := !(result.Fails? && result.gone == {});
      if ok {
        RowIsFree(before, v);
        db := db.(rows := db.rows - {v});
        worker := Idle;
        Took(before, Work(Ok));
      } else {
        assert store.keys - {} == store.keys;
        FailTask(CleanupVideo(v, seen), {}, result.delay, result);
      }
    }

    /** The tombstone is purged as its row recorded it, or put off, or left to a later run. */
    method HandleCleanupVideo(v: VideoId, seen: Stamp) returns (end: PurgeEnding)
      requires Valid() && worker == LoadTombstone(v, seen)
      modifies this
      ensures Valid() && old(trace) <= trace && worker == Idle && PurgeEnded(Abs(), reported, v, seen, end)
      ensures !end.Skipped? && v in old(db.rows) ==> Records(old(db.rows)[v], end.row)
      ensures if end.Skipped? || end.PutOff? then old(store).keys <= store.keys else OnlyDoomed(old(store), store, end.row)
    {
      ghost var t, s := trace, Abs();
      var ok, row := LoadTombstoned(v, seen);
      if !ok || row.None? {
        return Skipped;
      }
      if v in s.db.rows {
        RecordGoesOn(t, s, trace, Abs(), v);
      }
      if worker.Postpone? {
        end := PutOffPurge(v, row.value);
      } else {
        end := Purge(v, seen, row.value);
      }
    }

    /** Prefix, then raw object and thumbnail, then the row; the first failure stops it. */
    method Purge(v: VideoId, seen: Stamp, row: Row) returns (end: PurgeEnding)
      requires Valid() && worker == PurgePrefix(v, seen, row) && Canonical(row, v)
      requires row.status == Deleted && row.deletedAt.Some? && row.deletedAt.value + GRACE <= now
      modifies this
      ensures Valid() && old(trace) <= trace && worker == Idle && PurgeEnded(Abs(), reported, v, seen, end)
      ensures (end == Interrupted(row) || end == Purged(row)) && OnlyDoomed(old(store), store, row)
    {
      var ok := DeleteHlsPrefix(v, seen, row);
      if !ok {
        return Interrupted(row);
      }
      ok := DeleteRawAndThumb(v, seen, row);
      if !ok {
        return Interrupted(row);
      }
      ok := DeleteVideoRow(v, seen, row);
      end := if ok then Purged(row) else Interrupted(row);
    }

    method PutOffPurge(v: VideoId, row: Row) returns (end: PurgeEnding)
      requires Valid() && worker.Postpone? && worker.video == v
      requires row.status == Deleted && row.deletedAt.Some? && now + worker.remaining == row.deletedAt.value + GRACE
      modifies this
      ensures Valid() && old(trace) <= trace && worker == Idle && old(store).keys <= store.keys
      ensures end.Skipped? || (end.PutOff? && end.row == row)
      ensures forall seen :: PurgeEnded(Abs(), reported, v, seen, end)
    {
      var seen, wait := worker.seen, worker.remaining;
      var ok := ReenqueueCleanup(v, seen, wait);
      end := if ok then PutOff(row, seen, wait) else Skipped;
    }

    // ----- HandleReconcileTick -----

    method ListEligibleUsers(batch: nat, dryRun: bool) returns (ok: bool, users: seq<UserId>)
      requires Valid() && worker == TickList(batch, dryRun)
      modifies this
      ensures Onward(old(trace), old(Abs())) && worker == if ok then TickUser(users, dryRun) else Idle
      ensures if ok then |users| <= batch && (forall u :: u in users ==> Eligible(Abs(), u))
              else LastTask(queues.scheduled, ReconcileTick(batch, dryRun))
      ensures ok && reported.Users? ==> users == reported.users
    {
      var result := Yield(TheWorker);
      users := if result.Users? then result.users else [];
      ok := |users| <= batch && (forall u :: u in users ==> Eligible(Abs(), u)) && !(result.Fails? && result.gone == {});
      if ok {
        Proceed(TickUser(users, dryRun), Users(users));
      } else {
        var delay := if result.Fails? then result.delay else 0;
        assert store.keys - {} == store.keys;
        FailTask(ReconcileTick(batch, dryRun), {}, delay, Fails({}, delay));
      }
    }

    /** listUserOrphanKeys for the next user, unless the tick's time is up. */
    method ListOrphans(users: seq<UserId>, dryRun: bool) returns (stop: bool, ok: bool, keys: seq<Key>)
      requires Valid() && worker == TickUser(users, dryRun) && users != []
      modifies this
      ensures Onward(old(trace), old(Abs())) && (stop <==> reported == Stop) && (stop ==> !ok)
      ensures if ok then ListsKeysOf(store.keys, users[0], keys) else keys == []
      ensures worker ==
        if stop then Idle
        else if keys == [] || dryRun then TickUser(users[1..], dryRun)
        else TickEnqueue(keys, users[1..], dryRun)
    {
      var result := Yield(TheWorker);
      stop, ok, keys := result == Stop, false, [];
      if stop {
        Proceed(Idle, Stop);
      } else if result.Listed? && ListsKeysOf(store.keys, users[0], result.keys) {
        ok, keys := true, result.keys;
        Proceed(if keys == [] || dryRun then TickUser(users[1..], dryRun) else TickEnqueue(keys, users[1..], dryRun), result);
      } else {
        Proceed(TickUser(users[1..], dryRun), Err);
      }
    }

    method EnqueueOrphans(keys: seq<Key>, users: seq<UserId>, dryRun: bool) returns (ok: bool)
      requires Valid() && worker == TickEnqueue(keys, users, dryRun)
      modifies this
      ensures Onward(old(trace), old(Abs())) && worker == TickUser(users, dryRun)
      ensures (ok <==> reported != NotEnqueued) && (ok ==> Runnable(queues.pending, keys))
    {
      var result := Yield(TheWorker);
      ghost var before := Abs();
      ok := result != NotEnqueued;
      EnqueueCleanup(keys, ok);
      worker := TickUser(users, dryRun);
      Took(before, Work(if ok then Ok else NotEnqueued));
    }

    /** One user of the tick: `ok` unless the listing or the enqueue failed. */
    method SweepUser(users: seq<UserId>, dryRun: bool) returns (stop: bool, ok: bool)
      requires Valid() && worker == TickUser(users, dryRun) && users != []
      modifies this
      ensures Onward(old(trace), old(Abs()))
      ensures worker == (if stop then Idle else TickUser(users[1..], dryRun)) && (stop ==> !ok)
      ensures ok && !dryRun ==> Swept(old(store), queues, users[0])
    {
      var keys;
      stop, ok, keys := ListOrphans(users, dryRun);
      if !stop && keys != [] && !dryRun {
        ghost var listed := store;
        ok := EnqueueOrphans(keys, users[1..], dryRun);
        if ok {
          RunnableHolds(queues.pending, keys);
        }
      }
    }

    /** The tick's loop over its users. */
    method SweepUsers(users: seq<UserId>, dryRun: bool) returns (stop: bool, all: bool)
      requires Valid() && worker == TickUser(users, dryRun)
      modifies this
      ensures Onward(old(trace), old(Abs()))
      ensures worker == (if stop then Idle else TickUser([], dryRun)) && (stop ==> !all)
      ensures all && !dryRun ==> forall j :: 0 <= j < |users| ==> Swept(old(store), queues, users[j])
    {
      stop, all := false, true;
      var i := 0;
      while i < |users|
        invariant 0 <= i <= |users| && Onward(old(trace), old(Abs())) && worker == TickUser(users[i..], dryRun)
        invariant all && !dryRun ==> forall j :: 0 <= j < i ==> Swept(old(store), queues, users[j])
      {
        assert users[i..][1..] == users[i + 1..];
        ghost var pending, stored := queues.pending, store;
        var ok;
        stop, ok := SweepUser(users[i..], dryRun);
        if stop {
          return true, false;
        }
        all := all && ok;
        if all && !dryRun {
          SweptStays(old(store), stored, pending, queues, users, i);
        }
        i := i + 1;
      }
    }

    /** The tick. When it is complete - nothing failed and the time was enough - every object a listed
        user had at the start is named by a runnable cleanup. */
    method HandleReconcileTick(batch: nat, dryRun: bool) returns (listed: bool, users: seq<UserId>, complete: bool)
      requires Valid() && worker == TickList(batch, dryRun)
      modifies this
      ensures Onward(old(trace), old(Abs())) && worker == Idle
      ensures !listed ==> LastTask(queues.scheduled, ReconcileTick(batch, dryRun)) && !complete
      ensures listed ==> |users| <= batch
      ensures complete && !dryRun ==> forall j :: 0 <= j < |users| ==> Swept(old(store), queues, users[j])
    {
      listed, users := ListEligibleUsers(batch, dryRun);
      if !listed {
        complete := false;
        return;
      }
      var stop;
      stop, complete := SweepUsers(users, dryRun);
      if !stop {
        EndTick(dryRun);
      }
    }

    method EndTick(dryRun: bool)
      requires Valid() && worker == TickUser([], dryRun)
      modifies this
      ensures Onward(old(trace), old(Abs())) && worker == Idle && queues == old(queues)
    {
      Proceed(Idle, Ok);
    }

    // ----- the worker's loop -----

    /** The queue server with its single slot: takes the task at the head and runs it to its end. */
    method RunTask() returns (ran: Option<Task>)
      requires Valid() && worker == Idle
      modifies this
      ensures Valid() && old(trace) <= trace && worker == Idle
      ensures if old(queues.pending) == [] then ran == None && Abs() == old(Abs())
              else ran == Some(old(queues.pending)[0].task) && old(trace) + [Queue(Dequeue)] <= trace
      ensures ran.Some? && ran.value.Transcode? ==> exists end :: TranscodeEnded(Abs(), reported, ran.value.video, end)
      ensures ran.Some? && ran.value.CleanupVideo? ==>
        exists end :: PurgeEnded(Abs(), reported, ran.value.tombstone, ran.value.seen, end)
      ensures ran.Some? && ran.value.CleanupObjects? ==>
        (forall k :: k in ran.value.keys ==> k !in store.keys) || LastTask(queues.scheduled, ran.value)
    {
      if queues.pending == [] {
        return None;
      }
      ghost var before := Abs();
      var task := queues.pending[0].task;
      ran := Some(task);
      queues := queues.(pending := queues.pending[1..]);
      worker := Start(task);
      Took(before, Queue(Dequeue));
      Dispatch(task);
    }

    /** The mux: each task type has its handler. */
    method Dispatch(task: Task)
      requires Valid() && worker == Start(task)
      modifies this
      ensures Valid() && old(trace) <= trace && worker == Idle
      ensures task.Transcode? ==> exists end :: TranscodeEnded(Abs(), reported, task.video, end)
      ensures task.CleanupVideo? ==> exists end :: PurgeEnded(Abs(), reported, task.tombstone, task.seen, end)
      ensures task.CleanupObjects? ==> (forall k :: k in task.keys ==> k !in store.keys) || LastTask(queues.scheduled, task)
    {
      match task
      case Transcode(v) => var _ := HandleTranscode(v);
      case CleanupObjects(keys) => var _ := HandleCleanupObjects(keys);
      case CleanupVideo(v, seen) => var _ := HandleCleanupVideo(v, seen);
      case ReconcileTick(batch, dryRun) => var _, _, _ := HandleReconcileTick(batch, dryRun);
    }

    // ----- api-gateway -----

    /** POST /videos/upload-intent: inserts a pending row or reuses the user's one under the key made of
        its own id, and cleans up the object of the key it had. `newId` is the id the database draws. */
    method UploadIntent(rid: nat, u: UserId, newId: VideoId, upload: nat) returns (reply: Reply)
      requires Valid() && rid !in gate.requests
      modifies this
      ensures Valid() && old(trace) <= trace
      ensures reply.NotFound? <==> old(u !in db.users)
      ensures reply.Created? || reply.Failure? <==> old(u in db.users && forall v :: !WasPending(db.rows, u, v))
      ensures reply.Reused? || reply.Conflict? || reply.Waiting? <==> old(u in db.users && exists v :: WasPending(db.rows, u, v))
      ensures reply.Created? ==>
        && reply.video == newId && newId !in old(db.used)
        && newId in db.rows && db.rows[newId] == Row(u, Raw(u, upload), PendingUpload, 0, None, None, None)
      ensures reply.Failure? ==>
        reported == Err || newId in db.used || KeyInUse(db.rows, Raw(u, upload), newId) || exists w :: WasPending(db.rows, u, w)
      ensures reply.Waiting? ==> exists v :: WasPending(old(db.rows), u, v) && v in gate.confirms
      ensures reply.Conflict? ==> exists v :: WasPending(old(db.rows), u, v) && Outdated(db.rows, u, v)
      ensures reply.Reused? ==> WasPending(old(db.rows), u, reply.video) && Replaced(old(db.rows), reply.video)
      ensures reply.Reused? && reply.video in db.rows ==>
        db.rows[reply.video].owner == u && db.rows[reply.video].r2Key == Raw(u, reply.video)
    {
      if u !in db.users {
        return NotFound;
      }
      var existing := FindPending(u);
      if existing.Some? {
        ghost var t, s := trace, Abs();
        reply := ReusePending(rid, u, existing.value);
        RowsGoOn(t, s, trace, Abs(), existing.value);
      } else {
        reply := InsertPending(rid, u, newId, upload);
      }
    }

    predicate WasPending(rows: Rows, u: UserId, v: VideoId) {
      v in rows && rows[v].owner == u && rows[v].status == PendingUpload
    }

    predicate KeyInUse(rows: Rows, key: Key, except: VideoId) {
      exists w :: w in rows && w != except && rows[w].r2Key == key
    }

    /** The row is pending no more, or another row has the key it would get. */
    predicate Outdated(rows: Rows, u: UserId, v: VideoId) {
      v !in rows || rows[v].status != PendingUpload || KeyInUse(rows, Raw(u, v), v)
    }

    /** The object of the row's former key is to be cleaned up, unless the enqueue was reported to fail
        or the row had its canonical key already. */
    ghost predicate Replaced(rows: Rows, v: VideoId)
      requires v in rows
      reads this
    {
      rows[v].r2Key == Raw(rows[v].owner, v) || reported == NotEnqueued || Runnable(queues.pending, [rows[v].r2Key])
    }

    method FindPending(u: UserId) returns (found: Option<VideoId>)
      ensures found.Some? ==> WasPending(db.rows, u, found.value)
      ensures found.None? ==> forall v :: !WasPending(db.rows, u, v)
    {
      var left := db.rows.Keys;
      while left != {}
        invariant left <= db.rows.Keys
        invariant forall v :: v in db.rows && db.rows[v].owner == u && db.rows[v].status == PendingUpload ==> v in left
        decreases left
      {
        var v :| v in left;
        left := left - {v};
        if db.rows[v].owner == u && db.rows[v].status == PendingUpload {
          return Some(v);
        }
      }
      return None;
    }

    /** Meanwhile another request of the user may have inserted a row: then this one is refused. */
    method InsertPending(rid: nat, u: UserId, newId: VideoId, upload: nat) returns (reply: Reply)
      requires Valid() && u in db.users
      modifies this
      ensures Valid() && old(trace) <= trace && (reply.Created? || reply.Failure?)
      ensures reply.Created? ==>
        && reply.video == newId && newId !in old(db.used)
        && newId in db.rows && db.rows[newId] == Row(u, Raw(u, upload), PendingUpload, 0, None, None, None)
      ensures reply.Failure? ==>
        reported == Err || newId in db.used || KeyInUse(db.rows, Raw(u, upload), newId) || exists w :: WasPending(db.rows, u, w)
    {
      ghost var t, s := trace, Abs();
      var result := Yield(TheRequest(rid));
      RowsGoOn(t, s, trace, Abs(), newId);
      if result == Err || newId in db.used {
        return Failure;
      }
      ghost var before := Abs();
      Statuses.Reachable(trace);
      Statuses.RowsAreUsed(before, newId);
      UsersStay(t, s, trace, before, u);
      match InsertVideo(db.rows, newId, u, Raw(u, upload)) {
        case Updated(rows, _) =>
          db := db.(rows := rows, used := db.used + {newId});
          assert IntentInsertNext(before, u, newId, upload) == Some(Abs());
          Took(before, Gateway(IntentInsert(u, newId, upload)));
          return Created(newId);
        case _ =>
          InsertRefused(db.rows, newId, u, Raw(u, upload));
          return Failure;
      }
    }

    lemma InsertRefused(rows: Rows, v: VideoId, u: UserId, key: Key)
      requires v !in rows && !InsertVideo(rows, v, u, key).Updated?
      ensures KeyInUse(rows, key, v) || exists w :: WasPending(rows, u, w)
    {
      if KeyTaken(rows, key, v) {
        var w :| w in rows && w != v && rows[w].r2Key == key;
      } else {
        var w :| w in rows && rows[w].owner == u && rows[w].status == PendingUpload;
        assert WasPending(rows, u, w);
      }
    }

    method ReusePending(rid: nat, u: UserId, v: VideoId) returns (reply: Reply)
      requires Valid() && rid !in gate.requests && WasPending(db.rows, u, v)
      modifies this
      ensures Valid() && old(trace) <= trace && (reply == Waiting || reply == Conflict || reply == Reused(v))
      ensures reply.Reused? ==> Replaced(old(db.rows), v) && Uploads.Canonical(Abs(), v)
      ensures (reply.Waiting? ==> v in gate.confirms) && (reply.Conflict? ==> Outdated(db.rows, u, v))
    {
      UsedRows();
      var oldKey, newKey := db.rows[v].r2Key, Raw(u, v);
      if oldKey == newKey {
        ghost var t, s := trace, Abs();
        var result := Yield(TheRequest(rid));
        KeyGoesOn(t, s, trace, Abs(), v);
        reply := RefreshMetadata(v);
      } else {
        ghost var before := Abs();
        gate := gate.(requests := gate.requests[rid := RotateKey(u, v, oldKey)]);
        Took(before, Gateway(IntentRead(rid, u, v)));
        var result := Yield(TheRequest(rid));
        reply := Rotate(rid, u, v, oldKey);
      }
    }

    /** UpdatePendingVideoMetadata has the same guard; what it writes is not part of the model. */
    method RefreshMetadata(v: VideoId) returns (reply: Reply)
      ensures reply ==
        if v in gate.confirms then Waiting
        else if v in db.rows && db.rows[v].status == PendingUpload then Reused(v)
        else Conflict
    {
      if v in gate.confirms {
        return Waiting;
      }
      reply := if v in db.rows && db.rows[v].status == PendingUpload then Reused(v) else Conflict;
    }

    method Rotate(rid: nat, u: UserId, v: VideoId, oldKey: Key) returns (reply: Reply)
      requires Valid() && rid in gate.requests && gate.requests[rid] == RotateKey(u, v, oldKey)
      modifies this
      ensures Valid() && old(trace) <= trace && (reply == Waiting || reply == Conflict || reply == Reused(v))
      ensures reply.Reused? ==> reported == NotEnqueued || Runnable(queues.pending, [oldKey])
      ensures reply.Reused? ==> Uploads.Canonical(Abs(), v)
      ensures (reply.Waiting? ==> v in gate.confirms) && (reply.Conflict? ==> Outdated(db.rows, u, v))
    {
      if v in gate.confirms {
        return Waiting;
      }
      RotationIsOwners(rid);
      ghost var before := Abs();
      match UpdatePendingVideoR2Key(db.rows, v, Raw(u, v)) {
        case Updated(rows, _) =>
          WriteKey(rid, u, v, oldKey, rows);
          reply := FinishReuse(rid, v, oldKey);
        case _ =>
          RowFits(v);
          gate := gate.(requests := gate.requests - {rid});
          Took(before, Gateway(IntentRotate(rid)));
          return Conflict;
      }
    }

    lemma RotationIsOwners(rid: nat)
      requires Valid() && rid in gate.requests && gate.requests[rid].RotateKey?
      ensures
        var r := gate.requests[rid];
        r.video in db.used && (r.video in db.rows ==> db.rows[r.video].owner == r.owner)
    {
      Uploads.Reachable(trace);
      assert Uploads.RequestOk(Abs(), gate.requests[rid]);
    }

    /** The row has its canonical key; the one it had is to be dropped. */
    method WriteKey(rid: nat, u: UserId, v: VideoId, oldKey: Key, rows: Rows)
      requires Valid() && rid in gate.requests && gate.requests[rid] == RotateKey(u, v, oldKey) && v !in gate.confirms
      requires UpdatePendingVideoR2Key(db.rows, v, Raw(u, v)).Updated?
      requires rows == UpdatePendingVideoR2Key(db.rows, v, Raw(u, v)).rows && db.rows[v].owner == u && v in db.used
      modifies this
      ensures Valid() && old(trace) <= trace && rid in gate.requests && gate.requests[rid] == DropOldKey(v, oldKey)
      ensures v in db.rows && db.rows[v] == old(db.rows)[v].(r2Key := Raw(u, v)) && v in db.used
    {
      ghost var before := Abs();
      db := db.(rows := rows);
      gate := gate.(requests := gate.requests[rid := DropOldKey(v, oldKey)]);
      Took(before, Gateway(IntentRotate(rid)));
    }

    /** The metadata first; only a request that gets that far drops the old object. */
    method FinishReuse(rid: nat, v: VideoId, oldKey: Key) returns (reply: Reply)
      requires Valid() && rid in gate.requests && gate.requests[rid] == DropOldKey(v, oldKey)
      requires Uploads.Canonical(Abs(), v) && v in db.used
      modifies this
      ensures Valid() && old(trace) <= trace && (reply == Waiting || reply == Conflict || reply == Reused(v))
      ensures reply.Reused? ==> reported == NotEnqueued || Runnable(queues.pending, [oldKey])
      ensures reply.Reused? ==> Uploads.Canonical(Abs(), v)
      ensures (reply.Waiting? ==> v in gate.confirms) && forall u :: reply.Conflict? ==> Outdated(db.rows, u, v)
    {
      ghost var t, s := trace, Abs();
      var result := Yield(TheRequest(rid));
      reply := RefreshMetadata(v);
      if reply.Reused? {
        result := Yield(TheRequest(rid));
        DropOldUpload(rid, v, oldKey, result != NotEnqueued);
        KeyGoesOn(t, s, trace, Abs(), v);
      } else if reply.Conflict? {
        DropOldUpload(rid, v, oldKey, false);
      }
    }

    method DropOldUpload(rid: nat, v: VideoId, oldKey: Key, ok: bool)
      requires Valid() && rid in gate.requests && gate.requests[rid] == DropOldKey(v, oldKey)
      modifies this
      ensures Valid() && old(trace) <= trace && reported == old(reported) && (ok ==> Runnable(queues.pending, [oldKey]))
      ensures db == old(db) && gate.confirms == old(gate).confirms
    {
      ghost var before := Abs();
      gate := gate.(requests := gate.requests - {rid});
      EnqueueCleanup([oldKey], ok);
      Took(before, Gateway(IntentDrop(rid, ok)));
    }

    /** DELETE /videos/:id. The read and the write are separate statements. On success the video is a
        tombstone or gone, and a purge is due when its grace ends unless the enqueue was reported to
        fail or the video was a tombstone before. */
    method DeleteVideo(rid: nat, u: UserId, v: VideoId) returns (reply: Reply)
      requires Valid() && rid !in gate.requests
      modifies this
      ensures Valid() && old(trace) <= trace && (reply.NotFound? || reply.Done? || reply.Waiting?)
      ensures reply.NotFound? <==> old(v !in db.rows || db.rows[v].owner != u)
      ensures reply.NotFound? || old(db.rows[v].status == Deleted) ==> Abs() == old(Abs())
      ensures !reply.NotFound? && old(db.rows[v].status == Deleted) ==> reply.Done?
      ensures reply.Waiting? ==> v in gate.confirms
      ensures reply.Done? && old(db.rows[v].status != Deleted) && v in db.rows ==>
        && DeletedSince(Abs(), v, old(now))
        && (reported == NotEnqueued || PurgeDue(v))
    {
      if v !in db.rows || db.rows[v].owner != u {
        return NotFound;
      }
      if db.rows[v].status == Deleted {
        return Done;
      }
      ghost var before := Abs();
      gate := gate.(requests := gate.requests[rid := MarkDeleted(u, v)]);
      Took(before, Gateway(DeleteRead(rid, u, v)));
      ghost var t, s := trace, Abs();
      var result := Yield(TheRequest(rid));
      RowsGoOn(t, s, trace, Abs(), v);
      TimeGoesOn(t, s, trace, Abs());
      reply := Tombstone(rid, u, v);
    }

    ghost predicate PurgeDue(v: VideoId)
      reads this
    {
      exists seen :: LastIs(queues.scheduled, CleanupVideo(v, seen), now + GRACE)
    }

    method Tombstone(rid: nat, u: UserId, v: VideoId) returns (reply: Reply)
      requires Valid() && rid in gate.requests && gate.requests[rid] == MarkDeleted(u, v)
      requires (v in db.rows ==> db.rows[v].owner == u) && v in db.used
      modifies this
      ensures Valid() && old(trace) <= trace && (reply == Done || reply == Waiting)
      ensures reply.Waiting? ==> v in gate.confirms
      ensures reply.Done? && v in db.rows ==> DeletedSince(Abs(), v, old(now)) && (reported == NotEnqueued || PurgeDue(v))
    {
      if v in gate.confirms {
        return Waiting;    // the UPDATE waits for the confirm's row lock
      }
      reply := Done;
      RowFits(v);
      match MarkVideoDeleted(db.rows, v, u, now) {
        case Updated(rows, _) =>
          var seen := WriteTombstone(rid, u, v, rows);
          EnqueueCleanupVideo(rid, v, seen);
        case NoRows =>
          ghost var before := Abs();
          gate := gate.(requests := gate.requests - {rid});
          Took(before, Gateway(DeleteMark(rid)));
      }
    }

    /** Every row meets the CHECK constraints. */
    lemma RowFits(v: VideoId)
      requires Valid()
      ensures v in db.rows ==> RowOk(db.rows[v])
    {
      Statuses.Reachable(trace);
      if v in db.rows {
        assert Statuses.RowInv(Abs(), v);
      }
    }

    method WriteTombstone(rid: nat, u: UserId, v: VideoId, rows: Rows) returns (seen: Stamp)
      requires Valid() && rid in gate.requests && gate.requests[rid] == MarkDeleted(u, v) && v !in gate.confirms
      requires MarkVideoDeleted(db.rows, v, u, now).Updated? && rows == MarkVideoDeleted(db.rows, v, u, now).rows
      modifies this
      ensures Valid() && old(trace) <= trace && rid in gate.requests && gate.requests[rid] == EnqueuePurge(v, seen)
      ensures now == old(now) && v in old(db).rows && old(db).rows[v].owner == u
      ensures db == old(db).(rows := old(db).rows[v := old(db).rows[v].(status := Deleted, deletedAt := Some(now))])
      ensures log == old(log).(marks := old(log).marks[v := seen.mark],
                               tombstoned := if v in old(log).tombstoned then old(log).tombstoned else old(log).tombstoned[v := now])
      ensures seen == Stamp(1 + (if v in old(log).marks then old(log).marks[v] else 0), 0)
    {
      ghost var before := Abs();
      MarkedNext(before, rid, u, v);
      seen := Stamp(Count(log.marks, v) + 1, 0);
      PutMark(rid, v, seen, rows);
      Took(before, Gateway(DeleteMark(rid)));
    }

    method PutMark(rid: nat, v: VideoId, seen: Stamp, rows: Rows)
      modifies `db, `log, `gate
      ensures Abs() == Marked(old(Abs()), rid, v, seen, rows)
    {
      db := db.(rows := rows);
      log := log.(marks := log.marks[v := seen.mark],
                  tombstoned := if v in log.tombstoned then log.tombstoned else log.tombstoned[v := now]);
      gate := gate.(requests := gate.requests[rid := EnqueuePurge(v, seen)]);
    }

    method EnqueueCleanupVideo(rid: nat, v: VideoId, seen: Stamp)
      requires Valid() && rid in gate.requests && gate.requests[rid] == EnqueuePurge(v, seen)
      requires DeletedSince(Abs(), v, now)
      modifies this
      ensures Valid() && old(trace) <= trace && (v in db.rows ==> DeletedSince(Abs(), v, old(now)))
      ensures reported == NotEnqueued || PurgeDue(v)
    {
      ghost var t, s := trace, Abs();
      var result := Yield(TheRequest(rid));
      DeletedGoesOn(t, s, trace, Abs(), v, s.now);
      EndDelete(rid, v, seen, result != NotEnqueued);
    }

    method EndDelete(rid: nat, v: VideoId, seen: Stamp, ok: bool)
      requires Valid() && rid in gate.requests && gate.requests[rid] == EnqueuePurge(v, seen)
      modifies this
      ensures Valid() && old(trace) <= trace && db == old(db) && reported == old(reported) && (ok ==> PurgeDue(v))
    {
      ghost var before := Abs();
      gate := gate.(requests := gate.requests - {rid});
      if ok {
        queues := queues.(scheduled := queues.scheduled + [Entry(CleanupVideo(v, seen), now + GRACE)]);
        assert LastIs(queues.scheduled, CleanupVideo(v, seen), now + GRACE);
      }
      Took(before, Gateway(DeleteEnqueue(rid, ok)));
    }

    /** POST /videos/confirm. One transaction: the row is locked, checked and flipped, and the task
        is enqueued before the commit. `queueOk` is how the cleanup of a refused upload goes. */
    method ConfirmUpload(u: UserId, v: VideoId, key: Key, sizeOk: bool, queueOk: bool) returns (reply: Reply)
      requires Valid()
      modifies this
      ensures Valid() && old(trace) <= trace
      ensures reply.NotFound? <==> old(!Owns(u, v))
      ensures reply.Waiting? <==> old(Owns(u, v) && v in gate.confirms)
      ensures reply.Conflict? <==>
        old(Unlocked(u, v) && (db.rows[v].status != PendingUpload || (db.rows[v].r2Key == key && key !in store.keys)))
      ensures reply.BadRequest? <==>
        old(Unlocked(u, v) && db.rows[v].status == PendingUpload && (db.rows[v].r2Key != key || (key in store.keys && !sizeOk)))
      ensures reply.Done? || reply.Failure? <==>
        old(Unlocked(u, v) && db.rows[v].status == PendingUpload && db.rows[v].r2Key == key && key in store.keys && sizeOk)
      ensures reply.NotFound? || reply.Waiting? || reply.Conflict? || (reply.BadRequest? && old(db).rows[v].r2Key != key) ==>
        Abs() == old(Abs())
      ensures reply.BadRequest? && old(db).rows[v].r2Key == key ==>
        && db == old(db) && gate == old(gate) && store == old(store) && worker == old(worker) && now == old(now)
        && queues.scheduled == old(queues.scheduled)
        && queues.pending == old(queues.pending) + (if queueOk then [Entry(CleanupObjects([key]), now)] else [])
      ensures reply.Done? || reply.Failure? ==> v in db.rows && v !in gate.confirms
      ensures reply.Done? ==>
        && db.rows[v] == old(db).rows[v].(status := Processing, retryCount := 0)
        && Gateway(ConfirmEnqueue(v)) in trace[|old(trace)|..] && trace[|trace| - 1] == Gateway(ConfirmCommit(v))
      ensures reply.Failure? ==> db.rows[v] == old(db).rows[v] && (reported == NotEnqueued || reported == Err)
    {
      if v !in db.rows || db.rows[v].owner != u {
        return NotFound;
      }
      if v in gate.confirms {
        return Waiting;    // SELECT ... FOR UPDATE waits for the other confirm
      }
      if db.rows[v].status != PendingUpload {
        return Conflict;
      }
      if db.rows[v].r2Key != key {
        return BadRequest;
      }
      if key !in store.keys {
        return Conflict;
      }
      if !sizeOk {
        RejectUpload(u, v, queueOk);
        return BadRequest;
      }
      reply := ConfirmLocked(u, v);
    }

    predicate Owns(u: UserId, v: VideoId)
      reads this
    {
      v in db.rows && db.rows[v].owner == u
    }

    predicate Unlocked(u: UserId, v: VideoId)
      reads this
    {
      Owns(u, v) && v !in gate.confirms
    }

    /** An object of the wrong size is cleaned up; the row stays as it is. */
    method RejectUpload(u: UserId, v: VideoId, ok: bool)
      requires Valid() && Confirmable(Abs(), u, v)
      modifies this
      ensures Valid() && old(trace) <= trace
      ensures db == old(db) && gate == old(gate) && store == old(store) && worker == old(worker) && now == old(now)
      ensures queues.scheduled == old(queues.scheduled)
      ensures queues.pending == old(queues.pending) + (if ok then [Entry(CleanupObjects([db.rows[v].r2Key]), now)] else [])
    {
      ghost var before := Abs();
      EnqueueCleanup([db.rows[v].r2Key], ok);
      Took(before, Gateway(ConfirmReject(u, v, ok)));
    }

    /** From the row lock to the end of the transaction. */
    method ConfirmLocked(u: UserId, v: VideoId) returns (reply: Reply)
      requires Valid() && Confirmable(Abs(), u, v)
      modifies this
      ensures Valid() && old(trace) <= trace && (reply == Done || reply == Failure)
      ensures v in db.rows && v !in gate.confirms
      ensures reply.Done? ==> db.rows[v] == old(db).rows[v].(status := Processing, retryCount := 0)
      ensures reply.Done? ==>
        Gateway(ConfirmEnqueue(v)) in trace[|old(trace)|..] && trace[|trace| - 1] == Gateway(ConfirmCommit(v))
      ensures reply.Failure? ==> db.rows[v] == old(db).rows[v] && (reported == NotEnqueued || reported == Err)
    {
      ghost var t := trace;
      LockRow(u, v);
      var result := Yield(TheConfirm(v));
      if result == NotEnqueued {
        AbortConfirm(v);
        return Failure;
      }
      EnqueueTranscode(v);
      ghost var n := |trace| - 1;
      reply := CommitConfirm(v);
      assert trace[|t|..][n - |t|] == Gateway(ConfirmEnqueue(v));
    }

    method LockRow(u: UserId, v: VideoId)
      requires Valid() && Confirmable(Abs(), u, v)
      modifies this
      ensures Valid() && old(trace) <= trace && v in gate.confirms && gate.confirms[v] == Checked && db == old(db)
    {
      ghost var before := Abs();
      gate := gate.(confirms := gate.confirms[v := Checked]);
      Took(before, Gateway(ConfirmCheck(u, v)));
    }

    method AbortConfirm(v: VideoId)
      requires Valid() && v in gate.confirms && gate.confirms[v] == Checked
      modifies this
      ensures Valid() && old(trace) <= trace && v !in gate.confirms && db == old(db) && reported == old(reported)
    {
      ghost var before := Abs();
      gate := gate.(confirms := gate.confirms - {v});
      Took(before, Gateway(ConfirmAbort(v)));
    }

    method EnqueueTranscode(v: VideoId)
      requires Valid() && v in gate.confirms && gate.confirms[v] == Checked
      modifies this
      ensures Valid() && trace == old(trace) + [Gateway(ConfirmEnqueue(v))] && db == old(db)
      ensures v in gate.confirms && gate.confirms[v] == Queued
      ensures LastIs(queues.pending, Transcode(v), now)
    {
      ghost var before := Abs();
      queues := queues.(pending := queues.pending + [Entry(Transcode(v), now)]);
      gate := gate.(confirms := gate.confirms[v := Queued]);
      Took(before, Gateway(ConfirmEnqueue(v)));
    }

    method CommitConfirm(v: VideoId) returns (reply: Reply)
      requires Valid() && v in gate.confirms && gate.confirms[v] == Queued && v in db.rows
      modifies this
      ensures Valid() && old(trace) <= trace && (reply == Done || reply == Failure)
      ensures v in db.rows && v !in gate.confirms
      ensures reply.Done? ==> trace != [] && trace[|trace| - 1] == Gateway(ConfirmCommit(v))
      ensures reply.Done? ==> db.rows[v] == old(db).rows[v].(status := Processing, retryCount := 0)
      ensures reply.Failure? ==> db.rows[v] == old(db).rows[v] && (reported == NotEnqueued || reported == Err)
    {
      var result := Yield(TheConfirm(v));
      if result == Err {
        ghost var before := Abs();
        gate := gate.(confirms := gate.confirms - {v});
        Took(before, Gateway(ConfirmRollback(v)));
        return Failure;
      }
      Commit(v);
      return Done;
    }

    method Commit(v: VideoId)
      requires Valid() && v in gate.confirms && gate.confirms[v] == Confirm.Queued
      modifies this
      ensures Valid() && trace == old(trace) + [Gateway(ConfirmCommit(v))] && v !in gate.confirms
      ensures v in old(db).rows && db.rows == old(db).rows[v := old(db).rows[v].(status := Processing, retryCount := 0)]
    {
      ghost var before := Abs();
      CommitPossible(before, v);
      var row := db.rows[v].(status := Processing, retryCount := 0);
      db := db.(rows := db.rows[v := row]);
      gate := gate.(confirms := gate.confirms - {v});
      Took(before, Gateway(ConfirmCommit(v)));
    }

    /** What the transaction locked and checked still holds at its commit. */
    lemma CommitPossible(s: State, v: VideoId)
      requires Run(INITIAL, trace) == Some(s) && v in s.gate.confirms && s.gate.confirms[v] == Queued
      ensures v in s.db.rows
      ensures
        var row := s.db.rows[v].(status := Processing, retryCount := 0);
        ConfirmCommitNext(s, v) == Some(Unlock(SetRows(s, s.db.rows[v := row]), v))
    {
      Statuses.Reachable(trace);
      assert Statuses.RowInv(s, v);
    }

    /** DELETE /account: the keys are listed and the rows removed in one transaction, the cleanup
        is enqueued after its commit. Afterwards the user is inactive, his rows are gone for good, and
        the cleanup names exactly the raw and thumbnail keys they had. */
    method DeleteAccount(rid: nat, u: UserId) returns (reply: Reply, keys: seq<Key>)
      requires Valid() && rid !in gate.requests
      modifies this
      ensures Valid() && old(trace) <= trace
      ensures reply.Done? || reply.NotFound? || reply.Waiting?
      ensures reply.NotFound? <==> old(u !in db.users)
      ensures reply.Waiting? <==> old(u in db.users && exists v :: v in db.rows && db.rows[v].owner == u && v in gate.confirms)
      ensures !reply.Done? ==> Abs() == old(Abs())
      ensures reply.Done? ==> Frames.Inactive(Abs(), u)
      ensures reply.Done? ==> forall v :: v in old(db.rows) && old(db.rows)[v].owner == u ==> v !in db.rows
      ensures reply.Done? ==> forall k :: k in keys <==> KeyOfUser(old(db.rows), u, k)
      ensures reply.Done? ==> reported == NotEnqueued || Runnable(queues.pending, keys)
    {
      keys := [];
      if u !in db.users {
        reply := NotFound;
        return;
      }
      var order;
      order, keys := CollectKeys(u);
      if exists v | v in order :: v in gate.confirms {
        reply := Waiting;
        return;
      }
      ghost var rows := db.rows;
      UsedRows();
      DeleteRows(rid, u, order, keys);
      ghost var t, s := trace, Abs();
      EnqueueAccountKeys(rid, keys);
      UsersGoOn(t, s, trace, Abs(), u);
      forall v | v in rows && rows[v].owner == u ensures v !in db.rows {
        RowsGoOn(t, s, trace, Abs(), v);
      }
      reply := Done;
    }

    lemma UsedRows()
      requires Valid()
      ensures forall v :: v in db.rows ==> v in db.used
    {
      Statuses.Reachable(trace);
      forall v | v in db.rows ensures v in db.used {
        assert Statuses.RowInv(Abs(), v);
      }
    }

    /** The transaction's effect on users and videos. */
    method DeleteRows(rid: nat, u: UserId, order: seq<VideoId>, keys: seq<Key>)
      requires Valid() && rid !in gate.requests && u in db.users
      requires ListsRowsOf(db.rows, u, order) && keys == AccountKeys(db.rows, order) && forall v :: v in order ==>
        v !in gate.confirms
      modifies this
      ensures Valid() && old(trace) <= trace && rid in gate.requests && gate.requests[rid] == EnqueueKeys(keys)
      ensures db.users == old(db).users[u := User(false, Some(now))] && db.used == old(db).used
      ensures forall v :: v in db.rows <==> v in old(db.rows) && old(db.rows)[v].owner != u
      ensures forall v :: v in db.rows ==> db.rows[v] == old(db).rows[v]
    {
      ghost var before := Abs();
      db := db.(rows := DeleteVideosByUser(db.rows, u), users := db.users[u := User(false, Some(now))]);
      gate := gate.(requests := gate.requests[rid := EnqueueKeys(keys)]);
      assert AccountDeleteNext(before, rid, u, order) == Some(Abs());
      Took(before, Gateway(AccountDelete(rid, u, order)));
    }

    method EnqueueAccountKeys(rid: nat, keys: seq<Key>)
      requires Valid() && rid in gate.requests && gate.requests[rid] == EnqueueKeys(keys)
      modifies this
      ensures Valid() && old(trace) <= trace && (reported == NotEnqueued || Runnable(queues.pending, keys))
    {
      var result := Yield(TheRequest(rid));
      ghost var before := Abs();
      var ok := result != NotEnqueued;
      gate := gate.(requests := gate.requests - {rid});
      EnqueueCleanup(keys, ok);
      Took(before, Gateway(AccountEnqueue(rid, ok)));
    }

    /** collectUserR2Keys: the raw key and the thumbnail of each of the user's videos. */
    method CollectKeys(u: UserId) returns (order: seq<VideoId>, keys: seq<Key>)
      ensures ListsRowsOf(db.rows, u, order) && keys == AccountKeys(db.rows, order)
      ensures forall k :: k in keys <==> KeyOfUser(db.rows, u, k)
    {
      order, keys := [], [];
      var left := db.rows.Keys;
      while left != {}
        invariant left <= db.rows.Keys
        invariant forall v :: v in order ==> v in db.rows && db.rows[v].owner == u
        invariant forall v :: v in db.rows && db.rows[v].owner == u ==> v in order || v in left
        invariant keys == AccountKeys(db.rows, order)
        decreases left
      {
        var v :| v in left;
        left := left - {v};
        if db.rows[v].owner == u {
          AccountKeysAppend(db.rows, order, v);
          keys := keys + [db.rows[v].r2Key];
          if db.rows[v].thumbnail.Some? {
            keys := keys + [db.rows[v].thumbnail.value];
          }
          order := order + [v];
        }
      }
      forall k ensures k in keys <==> KeyOfUser(db.rows, u, k) {
        AccountKeysAre(db.rows, order, k);
      }
    }
  }

  lemma {:induction false} AccountKeysAppend(rows: Rows, order: seq<VideoId>, v: VideoId)
    requires v in rows && forall w :: w in order ==> w in rows
    ensures
      var row := rows[v];
      AccountKeys(rows, order + [v])
      == AccountKeys(rows, order) + [row.r2Key] + (if row.thumbnail.Some? then [row.thumbnail.value] else [])
  {
    if order == [] {
      assert AccountKeys(rows, ([v])[1..]) == [];
    } else {
      AccountKeysAppend(rows, order[1..], v);
      assert (order + [v])[1..] == order[1..] + [v];
    }
  }

  /** `k` is the raw key or the thumbnail of a row of the user. */
  predicate KeyOfUser(rows: Rows, u: UserId, k: Key) {
    exists v | v in rows :: rows[v].owner == u && (k == rows[v].r2Key || Some(k) == rows[v].thumbnail)
  }

  lemma {:induction false} AccountKeysAre(rows: Rows, order: seq<VideoId>, k: Key)
    requires forall v :: v in order ==> v in rows
    ensures k in AccountKeys(rows, order) <==> exists v :: v in order && (k == rows[v].r2Key || Some(k) == rows[v].thumbnail)
  {
    if order != [] {
      AccountKeysAre(rows, order[1..], k);
      assert order[0] in order && forall v :: v in order[1..] ==> v in order;
    }
  }

  lemma TodoOrder(u: UserId, v: VideoId, f: Files)
    ensures
      var keys, sd, hd := Assets(u, v, f), |f.sd|, |f.hd|;
      && |keys| == sd + hd + 2
      && (forall i :: 0 <= i < sd + hd ==> VariantFile(keys[i]))
      && keys[sd + hd] == Thumb(u, v) && keys[sd + hd + 1] == Hls(u, v, MASTER)
  {
    var keys := Assets(u, v, f);
    forall i | 0 <= i < |f.sd| ensures VariantFile(keys[i]) {
      assert keys[i] == Hls(u, v, SD + "/" + f.sd[i]);
      assert keys[i].path[0] == '4' && MASTER[0] == 'm';
    }
    forall i | |f.sd| <= i < |f.sd| + |f.hd| ensures VariantFile(keys[i]) {
      assert keys[i] == Hls(u, v, HD + "/" + f.hd[i - |f.sd|]);
      assert keys[i].path[0] == '7' && MASTER[0] == 'm';
    }
  }
}
