/** Which status changes a video can make. Everything here holds of every run, faults included. */
module Statuses {
  import opened Model
  import opened Statements
  import opened Lifecycle
  import opened Frames

  // ----- the invariant -----

  predicate RowInv(s: State, v: VideoId)
    requires v in s.db.rows
  {
    var row := s.db.rows[v];
    && RowOk(row)
    && v in s.db.used
    && row.owner in s.db.users
    && row.r2Key.Raw?
    && (row.status == PendingUpload ==> row.retryCount == 0)
    && (row.status != Ready && row.status != Deleted ==> row.hlsPrefix.None? && row.thumbnail.None?)
    && (row.status == Ready ==> row.hlsPrefix == Some(Prefix(row.owner, v)) && row.thumbnail == Some(Thumb(row.owner, v)))
    && (row.hlsPrefix.Some? ==> row.hlsPrefix == Some(Prefix(row.owner, v)))
    && (row.thumbnail.Some? ==> row.thumbnail == Some(Thumb(row.owner, v)))
  }

  /** While an attempt on `v` runs, nobody but a delete moves the row. */
  predicate InFlight(s: State, v: VideoId) {
    v in s.db.used && (v in s.db.rows ==> s.db.rows[v].status == Processing || s.db.rows[v].status == Deleted)
  }

  predicate AttemptInv(s: State, a: Attempt) {
    && InFlight(s, a.video)
    && 1 <= a.retry <= MAX_RETRIES
    && a.r2Key.Raw?
    && a.owner in s.db.users
    && (a.video in s.db.rows ==> s.db.rows[a.video].owner == a.owner)
  }

  predicate PurgeInv(s: State, v: VideoId, row: Row) {
    && v in s.db.used
    && row.status == Deleted && row.r2Key.Raw?
    && (row.hlsPrefix.Some? ==> row.hlsPrefix == Some(Prefix(row.owner, v)))
    && (row.thumbnail.Some? ==> row.thumbnail == Some(Thumb(row.owner, v)))
    && (v in s.db.rows ==>
         && s.db.rows[v].status == Deleted && s.db.rows[v].owner == row.owner
         && s.db.rows[v].hlsPrefix == row.hlsPrefix && s.db.rows[v].thumbnail == row.thumbnail)
  }

  predicate WorkerInv(s: State) {
    match s.worker
    case Increment(v) => InFlight(s, v)
    case Prepare(a) => AttemptInv(s, a)
    case Fetch(a) => AttemptInv(s, a)
    case Upload(a) => AttemptInv(s, a)
    case Recheck(a) => AttemptInv(s, a)
    case Publish(a) => AttemptInv(s, a)
    case DropUploads(a, again) => AttemptInv(s, a) && (!again && a.video in s.db.rows ==> s.db.rows[a.video].status == Deleted)
    case Retry(a) => AttemptInv(s, a)
    case GiveUp(v, key) => InFlight(s, v) && key.Raw?
    case DropRaw(key) => key.Raw?
    case PurgePrefix(v, seen, row) => PurgeInv(s, v, row)
    case PurgeKeys(v, seen, row) => PurgeInv(s, v, row)
    case PurgeRow(v, seen, row) => PurgeInv(s, v, row)
    case _ => true
  }

  predicate Inv(s: State) {
    && (forall v :: v in s.db.rows ==> RowInv(s, v))
    && (forall v :: v in s.gate.confirms ==> v in s.db.rows && s.db.rows[v].status == PendingUpload)
    && WorkerInv(s)
  }

  // ----- preservation -----

  /** What a step other than the running handler's own may do to a row the handler works on. */
  predicate Moves(before: Row, after: Row) {
    && after.owner == before.owner && after.hlsPrefix == before.hlsPrefix && after.thumbnail == before.thumbnail
    && (after.status == before.status || after.status == Deleted || before.status == PendingUpload)
  }

  lemma WorkerStays(s: State, s': State)
    requires WorkerInv(s) && s'.worker == s.worker
    requires s.db.used <= s'.db.used && s.db.users.Keys <= s'.db.users.Keys
    requires forall v :: v in s'.db.rows ==> (if v in s.db.rows then Moves(s.db.rows[v], s'.db.rows[v]) else v !in s.db.used)
    ensures WorkerInv(s')
  {
    match s.worker
    case PurgePrefix(v, _, row) => assert PurgeInv(s, v, row);
    case PurgeKeys(v, _, row) => assert PurgeInv(s, v, row);
    case PurgeRow(v, _, row) => assert PurgeInv(s, v, row);
    case DropUploads(a, _) => assert AttemptInv(s, a);
    case _ =>
  }

  predicate RowStep(s: State, s': State, v: VideoId)
    requires v in s'.db.rows
  {
    || (v in s.db.rows && s'.db.rows[v] == s.db.rows[v])
    || (RowInv(s', v) && (if v in s.db.rows then Moves(s.db.rows[v], s'.db.rows[v]) else v !in s.db.used))
  }

  /** A step of somebody else than the running handler. */
  lemma Outside(s: State, s': State)
    requires Inv(s) && s'.worker == s.worker
    requires s.db.used <= s'.db.used && s.db.users.Keys <= s'.db.users.Keys
    requires forall v :: v in s'.db.rows ==> RowStep(s, s', v)
    requires forall v :: v in s'.gate.confirms ==> v in s'.db.rows && s'.db.rows[v].status == PendingUpload
    ensures Inv(s')
  {
    WorkerStays(s, s');
    forall v | v in s'.db.rows ensures RowInv(s', v) {
      assert RowStep(s, s', v);
      if v in s.db.rows {
        assert RowInv(s, v);
      }
    }
  }

  lemma InsertPreserves(s: State, s': State, u: UserId, v: VideoId, upload: nat)
    requires Inv(s) && IntentInsertNext(s, u, v, upload) == Some(s')
    ensures Inv(s')
  {
    Outside(s, s');
  }

  lemma RotatePreserves(s: State, s': State, rid: nat)
    requires Inv(s) && IntentRotateNext(s, rid) == Some(s')
    ensures Inv(s')
  {
    var req := s.gate.requests[rid];
    if UpdatePendingVideoR2Key(s.db.rows, req.video, Raw(req.owner, req.video)).Updated? {
      assert RowInv(s, req.video);
    }
    Outside(s, s');
  }

  lemma CommitPreserves(s: State, s': State, v: VideoId)
    requires Inv(s) && ConfirmCommitNext(s, v) == Some(s')
    ensures Inv(s')
  {
    assert RowInv(s, v);
    Outside(s, s');
  }

  lemma MarkPreserves(s: State, s': State, rid: nat)
    requires Inv(s) && DeleteMarkNext(s, rid) == Some(s')
    ensures Inv(s')
  {
    var req := s.gate.requests[rid];
    if MarkVideoDeleted(s.db.rows, req.video, req.owner, s.now).Updated? {
      assert RowInv(s, req.video);
    }
    Outside(s, s');
  }

  lemma AccountPreserves(s: State, s': State, rid: nat, u: UserId, order: seq<VideoId>)
    requires Inv(s) && AccountDeleteNext(s, rid, u, order) == Some(s')
    ensures Inv(s')
  {
    Outside(s, s');
  }

  lemma CalmPreserves(s: State, s': State, g: GatewayStep)
    requires Inv(s) && GatewayNext(s, g) == Some(s') && !WritesRows(g)
    ensures Inv(s')
  {
    CalmGateway(s, s', g);
    LocksGateway(s, s', g);
    Outside(s, s');
  }

  lemma GatewayPreserves(s: State, s': State, g: GatewayStep)
    requires Inv(s) && GatewayNext(s, g) == Some(s')
    ensures Inv(s')
  {
    match g
    case IntentInsert(u, v, upload) => InsertPreserves(s, s', u, v, upload);
    case IntentRotate(rid) => RotatePreserves(s, s', rid);
    case ConfirmCommit(v) => CommitPreserves(s, s', v);
    case DeleteMark(rid) => MarkPreserves(s, s', rid);
    case AccountDelete(rid, u, order) => AccountPreserves(s, s', rid, u, order);
    case _ => CalmPreserves(s, s', g);
  }

  lemma QueuePreserves(s: State, s': State, q: QueueStep)
    requires Inv(s) && QueueNext(s, q) == Some(s')
    ensures Inv(s')
  {
    if q.Dequeue? {
      Inside(s, s');
    } else {
      Outside(s, s');
    }
  }

  /** A step of the running handler: it may rewrite or remove one unlocked row. */
  lemma Inside(s: State, s': State)
    requires Inv(s)
    requires s.db.used <= s'.db.used && s.db.users.Keys <= s'.db.users.Keys
    requires forall v :: v in s'.db.rows ==> (v in s.db.rows && s'.db.rows[v] == s.db.rows[v]) || RowInv(s', v)
    requires forall v :: v in s'.gate.confirms ==> v in s.gate.confirms && v in s'.db.rows && s'.db.rows[v] == s.db.rows[v]
    requires WorkerInv(s')
    ensures Inv(s')
  {
    forall v | v in s'.db.rows ensures RowInv(s', v) {
      if v in s.db.rows {
        assert RowInv(s, v);
      }
    }
  }

  lemma IncrementPreserves(s: State, s': State, v: VideoId, o: Outcome)
    requires Inv(s) && s.worker == Increment(v) && IncrementNext(s, v, o) == Some(s')
    ensures Inv(s')
  {
    if o.Ok? && IncrementVideoRetry(s.db.rows, v).Updated? {
      assert RowInv(s, v);
      Inside(s, s');
    } else {
      Inside(s, s');
    }
  }

  lemma PublishPreserves(s: State, s': State, a: Attempt, o: Outcome)
    requires Inv(s) && s.worker == Publish(a) && PublishNext(s, a, o) == Some(s')
    ensures Inv(s')
  {
    if o.Ok? && MarkVideoReady(s.db.rows, a.video, Prefix(a.owner, a.video), Thumb(a.owner, a.video)).Updated? {
      assert RowInv(s, a.video);
      Inside(s, s');
    } else {
      Inside(s, s');
    }
  }

  lemma GiveUpPreserves(s: State, s': State, v: VideoId, key: Key, o: Outcome)
    requires Inv(s) && s.worker == GiveUp(v, key) && GiveUpNext(s, v, key, o) == Some(s')
    ensures Inv(s')
  {
    if o.Ok? && MarkVideoFailed(s.db.rows, v).Updated? {
      assert RowInv(s, v);
      Inside(s, s');
    } else {
      Inside(s, s');
    }
  }

  lemma PurgeRowPreserves(s: State, s': State, v: VideoId, seen: Stamp, row: Row, o: Outcome)
    requires Inv(s) && s.worker == PurgeRow(v, seen, row) && PurgeRowNext(s, v, seen, row, o) == Some(s')
    ensures Inv(s')
  {
    if o.Ok? {
      Inside(s, s');
    } else {
      Inside(s, s');
    }
  }

  lemma TranscodePreserves(s: State, s': State, o: Outcome)
    requires Inv(s) && WorkNext(s, o) == Some(s')
    requires s.worker.Prepare? || s.worker.Fetch? || s.worker.Upload? || s.worker.Recheck?
    ensures Inv(s')
  {
    Inside(s, s');
  }

  lemma WindDownPreserves(s: State, s': State, o: Outcome)
    requires Inv(s) && WorkNext(s, o) == Some(s')
    requires s.worker.DropUploads? || s.worker.Retry? || s.worker.DropRaw?
    ensures Inv(s')
  {
    Inside(s, s');
  }

  lemma LoadPreserves(s: State, s': State, v: VideoId, o: Outcome)
    requires Inv(s) && LoadNext(s, v, o) == Some(s')
    ensures Inv(s')
  {
    if v in s.db.rows {
      assert RowInv(s, v);
    }
    Inside(s, s');
  }

  lemma LoadTombstonePreserves(s: State, s': State, v: VideoId, seen: Stamp, o: Outcome)
    requires Inv(s) && LoadTombstoneNext(s, v, seen, o) == Some(s')
    ensures Inv(s')
  {
    if v in s.db.rows {
      assert RowInv(s, v);
    }
    Inside(s, s');
  }

  lemma CleanupPreserves(s: State, s': State, o: Outcome)
    requires Inv(s) && WorkNext(s, o) == Some(s')
    requires s.worker.Deleting? || s.worker.Postpone? || s.worker.PurgePrefix? || s.worker.PurgeKeys?
    ensures Inv(s')
  {
    Inside(s, s');
  }

  lemma TickPreserves(s: State, s': State, o: Outcome)
    requires Inv(s) && WorkNext(s, o) == Some(s')
    requires s.worker.TickList? || s.worker.TickUser? || s.worker.TickEnqueue?
    ensures Inv(s')
  {
    Inside(s, s');
  }

  lemma WorkPreserves(s: State, s': State, o: Outcome)
    requires Inv(s) && WorkNext(s, o) == Some(s')
    ensures Inv(s')
  {
    match s.worker
    case Load(v) => LoadPreserves(s, s', v, o);
    case Increment(v) => IncrementPreserves(s, s', v, o);
    case Publish(a) => PublishPreserves(s, s', a, o);
    case GiveUp(v, key) => GiveUpPreserves(s, s', v, key, o);
    case LoadTombstone(v, seen) => LoadTombstonePreserves(s, s', v, seen, o);
    case PurgeRow(v, seen, row) => PurgeRowPreserves(s, s', v, seen, row, o);
    case Deleting(_) => CleanupPreserves(s, s', o);
    case Postpone(_, _, _) => CleanupPreserves(s, s', o);
    case PurgePrefix(_, _, _) => CleanupPreserves(s, s', o);
    case PurgeKeys(_, _, _) => CleanupPreserves(s, s', o);
    case TickList(_, _) => TickPreserves(s, s', o);
    case TickUser(_, _) => TickPreserves(s, s', o);
    case TickEnqueue(_, _, _) => TickPreserves(s, s', o);
    case DropUploads(_, _) => WindDownPreserves(s, s', o);
    case Retry(_) => WindDownPreserves(s, s', o);
    case DropRaw(_) => WindDownPreserves(s, s', o);
    case Prepare(_) => TranscodePreserves(s, s', o);
    case Fetch(_) => TranscodePreserves(s, s', o);
    case Upload(_) => TranscodePreserves(s, s', o);
    case Recheck(_) => TranscodePreserves(s, s', o);
  }

  lemma Preserves(s: State, s': State, step: Step)
    requires Inv(s) && Next(s, step) == Some(s')
    ensures Inv(s')
  {
    match step
    case Gateway(g) => GatewayPreserves(s, s', g);
    case Queue(q) => QueuePreserves(s, s', q);
    case Work(o) => WorkPreserves(s, s', o);
  }

  /** Every reachable state satisfies the invariant. */
  lemma {:induction false} Reachable(trace: seq<Step>)
    requires Run(INITIAL, trace).Some?
    ensures Inv(Run(INITIAL, trace).value)
  {
    if trace != [] {
      var n := |trace| - 1;
      Reachable(trace[..n]);
      Preserves(Run(INITIAL, trace[..n]).value, Run(INITIAL, trace).value, trace[n]);
    }
  }

  /** The row the worker is about to write. */
  predicate AboutToWrite(w: Worker, v: VideoId) {
    w == Increment(v) || (w.Publish? && w.a.video == v) || (w.GiveUp? && w.video == v) || (w.PurgeRow? && w.video == v)
  }

  /** It is never locked by a confirm: that row is PENDING_UPLOAD, this one is past it. */
  lemma NeverLocked(s: State, v: VideoId)
    requires Inv(s) && AboutToWrite(s.worker, v)
    ensures !Locked(s, v)
  {
  }

  lemma RowsAreUsed(s: State, v: VideoId)
    requires Inv(s)
    ensures v in s.db.rows ==> v in s.db.used
  {
    if v in s.db.rows {
      assert RowInv(s, v);
    }
  }

  // ----- allowed changes -----

  /** The status changes a row can go through in one step. */
  predicate Allowed(before: Status, after: Status) {
    || before == after
    || (before == PendingUpload && after == Processing)
    || (before == Processing && (after == Ready || after == Failed))
    || after == Deleted
  }

  /** What one step may do to row `v`: keep its owner and change its status as allowed,
      remove a tombstone or the row of a user it makes inactive, or add a row under an id never used. */
  predicate Change(s: State, s': State, v: VideoId) {
    && (v in s.db.rows && v in s'.db.rows ==>
          Allowed(s.db.rows[v].status, s'.db.rows[v].status) && s.db.rows[v].owner == s'.db.rows[v].owner)
    && (v in s.db.rows && v !in s'.db.rows ==> s.db.rows[v].status == Deleted || !Active(s', s.db.rows[v].owner))
    && (v !in s.db.rows && v in s'.db.rows ==> v !in s.db.used && s'.db.rows[v].status == PendingUpload)
    && s.db.used <= s'.db.used
  }

  /** The gateway moves a row only to PROCESSING or to DELETED. */
  predicate GatewayMoves(s: State, s': State, v: VideoId) {
    && Change(s, s', v)
    && (v in s.db.rows && v in s'.db.rows && s'.db.rows[v].status != s.db.rows[v].status ==>
          s'.db.rows[v].status == Processing || s'.db.rows[v].status == Deleted)
  }

  lemma InsertChange(s: State, s': State, u: UserId, w: VideoId, upload: nat, v: VideoId)
    requires IntentInsertNext(s, u, w, upload) == Some(s')
    ensures GatewayMoves(s, s', v)
  {
  }

  lemma RotateChange(s: State, s': State, rid: nat, v: VideoId)
    requires IntentRotateNext(s, rid) == Some(s')
    ensures GatewayMoves(s, s', v)
  {
  }

  lemma CommitChange(s: State, s': State, w: VideoId, v: VideoId)
    requires ConfirmCommitNext(s, w) == Some(s')
    ensures GatewayMoves(s, s', v)
  {
  }

  lemma MarkChange(s: State, s': State, rid: nat, v: VideoId)
    requires DeleteMarkNext(s, rid) == Some(s')
    ensures GatewayMoves(s, s', v)
  {
  }

  lemma AccountChange(s: State, s': State, rid: nat, u: UserId, order: seq<VideoId>, v: VideoId)
    requires AccountDeleteNext(s, rid, u, order) == Some(s')
    ensures GatewayMoves(s, s', v)
  {
  }

  lemma GatewayChange(s: State, s': State, g: GatewayStep, v: VideoId)
    requires GatewayNext(s, g) == Some(s')
    ensures GatewayMoves(s, s', v)
  {
    match g
    case IntentInsert(u, w, upload) => InsertChange(s, s', u, w, upload, v);
    case IntentRotate(rid) => RotateChange(s, s', rid, v);
    case ConfirmCommit(w) => CommitChange(s, s', w, v);
    case DeleteMark(rid) => MarkChange(s, s', rid, v);
    case AccountDelete(rid, u, order) => AccountChange(s, s', rid, u, order, v);
    case _ => CalmGateway(s, s', g);
  }

  /** The worker writes rows in four calls only. */
  lemma ReadsOnly(s: State, s': State, o: Outcome)
    requires WorkNext(s, o) == Some(s')
    requires !s.worker.Increment? && !s.worker.Publish? && !s.worker.GiveUp? && !s.worker.PurgeRow?
    ensures s'.db == s.db && s'.gate == s.gate && s'.log.marks == s.log.marks && s'.log.tombstoned == s.log.tombstoned
  {
  }

  lemma IncrementChange(s: State, s': State, w: VideoId, o: Outcome, v: VideoId)
    requires Inv(s) && IncrementNext(s, w, o) == Some(s')
    ensures Change(s, s', v)
  {
  }

  lemma PublishChange(s: State, s': State, a: Attempt, o: Outcome, v: VideoId)
    requires Inv(s) && PublishNext(s, a, o) == Some(s')
    ensures Change(s, s', v)
  {
  }

  lemma GiveUpChange(s: State, s': State, w: VideoId, key: Key, o: Outcome, v: VideoId)
    requires Inv(s) && s.worker == GiveUp(w, key) && GiveUpNext(s, w, key, o) == Some(s')
    ensures Change(s, s', v)
  {
    if w in s.db.rows {
      assert RowInv(s, w);
    }
  }

  lemma PurgeRowChange(s: State, s': State, w: VideoId, seen: Stamp, row: Row, o: Outcome, v: VideoId)
    requires Inv(s) && s.worker == PurgeRow(w, seen, row) && PurgeRowNext(s, w, seen, row, o) == Some(s')
    ensures Change(s, s', v)
  {
  }

  lemma WorkChange(s: State, s': State, o: Outcome, v: VideoId)
    requires Inv(s) && WorkNext(s, o) == Some(s')
    ensures Change(s, s', v)
  {
    match s.worker
    case Increment(w) => IncrementChange(s, s', w, o, v);
    case Publish(a) => PublishChange(s, s', a, o, v);
    case GiveUp(w, key) => GiveUpChange(s, s', w, key, o, v);
    case PurgeRow(w, seen, row) => PurgeRowChange(s, s', w, seen, row, o, v);
    case _ => ReadsOnly(s, s', o);
  }

  lemma StepChange(s: State, s': State, step: Step, v: VideoId)
    requires Inv(s) && Next(s, step) == Some(s')
    ensures Change(s, s', v)
  {
    match step
    case Gateway(g) => GatewayChange(s, s', g, v);
    case Queue(q) =>
    case Work(o) => WorkChange(s, s', o, v);
  }

  /** `after` can be reached from `before` by allowed changes: a tombstone is final, a READY or
      FAILED video can only be tombstoned, nothing returns to an earlier stage. */
  predicate Later(before: Status, after: Status) {
    || before == after
    || after == Deleted
    || before == PendingUpload
    || (before == Processing && after != PendingUpload)
  }

  /** Over any run, with any faults: from the moment a video has a row, later states hold
      only later statuses of it, and once its row is gone it never comes back. */
  lemma {:induction false} StatusOnlyAdvances(trace: seq<Step>, n: nat, v: VideoId)
    requires n <= |trace| && Run(INITIAL, trace).Some? && Run(INITIAL, trace[..n]).Some?
    ensures
      var s, s' := Run(INITIAL, trace[..n]).value, Run(INITIAL, trace).value;
      && (v in s.db.rows && v in s'.db.rows ==>
            Later(s.db.rows[v].status, s'.db.rows[v].status) && s'.db.rows[v].owner == s.db.rows[v].owner)
      && (v in s.db.used && v !in s.db.rows ==> v !in s'.db.rows)
      && s.db.used <= s'.db.used
    decreases |trace|
  {
    if n == |trace| {
      assert trace[..n] == trace;
    } else {
      var m := |trace| - 1;
      assert trace[..m][..n] == trace[..n];
      StatusOnlyAdvances(trace[..m], n, v);
      Reachable(trace[..m]);
      Reachable(trace[..n]);
      StepChange(Run(INITIAL, trace[..m]).value, Run(INITIAL, trace).value, trace[m], v);
      if v in Run(INITIAL, trace[..n]).value.db.rows {
        assert RowInv(Run(INITIAL, trace[..n]).value, v);
      }
    }
  }

  /** The statement that marks a video FAILED has no status guard; it is the CHECK on
      deleted_at that refuses it, exactly for tombstones. */
  lemma FailureSparesTombstones(rows: Rows, v: VideoId)
    requires v in rows && RowOk(rows[v])
    ensures MarkVideoFailed(rows, v) == Violation <==> rows[v].status == Deleted
  {
  }
}
