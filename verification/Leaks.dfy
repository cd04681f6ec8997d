/** No transcoded object is forgotten: as long as cleanups can be enqueued and a failed put of a
    variant file stores nothing, every hls/ and thumbs/ object is at all times accounted for by
    its row, by a live cleanup, by the running attempt, or by its owner being inactive. */
module Leaks {
  import opened Model
  import opened Statements
  import opened Lifecycle
  import opened Frames
  import opened Lanes
  import Statuses
  import opened Published

  /** The row records the object, so the purge of its tombstone will delete it. */
  predicate Recorded(row: Row, k: Key) {
    && (row.status == Ready || row.status == Deleted)
    && !k.Raw?
    && (k.Hls? ==> row.hlsPrefix == Some(Prefix(k.owner, k.video)))
    && (k.Thumb? ==> row.thumbnail == Some(k))
  }

  predicate InHand(w: Worker, k: Key) {
    match w
    case Upload(a) => k in a.uploaded
    case Recheck(a) => k in a.uploaded
    case Publish(a) => k in a.uploaded
    case DropUploads(a, _) => k in a.uploaded
    case Deleting(keys) => k in keys
    case _ => false
  }

  predicate Covered(s: State, k: Key)
    requires !k.Raw?
  {
    || Inactive(s, k.owner)
    || (k.video in s.db.rows && Recorded(s.db.rows[k.video], k))
    || Holds(s.queues.pending, k)
    || Holds(s.queues.scheduled, k)
    || InHand(s.worker, k)
  }

  /** The purge removes the row only after the objects it records. */
  predicate PurgedSoFar(s: State, k: Key)
    requires !k.Raw?
  {
    match s.worker
    case PurgeKeys(v, _, row) => v == k.video && row.hlsPrefix.Some? && Under(k, row.hlsPrefix.value) ==> k !in s.store.keys
    case PurgeRow(v, _, row) =>
      && (v == k.video && row.hlsPrefix.Some? && Under(k, row.hlsPrefix.value) ==> k !in s.store.keys)
      && (v == k.video && row.thumbnail == Some(k) ==> k !in s.store.keys)
    case _ => true
  }

  predicate Inv(s: State, k: Key)
    requires !k.Raw?
  {
    && (k in s.store.keys ==> Covered(s, k))
    && PurgedSoFar(s, k)
  }

  /** The two faults that lose track of an object. */
  predicate Leaky(s: State, step: Step) {
    && step.Work?
    && (|| (s.worker.DropUploads? && step.o.NotEnqueued?)
        || (s.worker.Upload? && step.o.PutFailed? && step.o.stored && s.worker.a.todo != [] && VariantFile(s.worker.a.todo[0])))
  }

  /** A step that stores nothing new and takes no cover away. */
  lemma Keeps(s: State, s': State, k: Key)
    requires !k.Raw? && Inv(s, k)
    requires k in s'.store.keys ==> k in s.store.keys
    requires Inactive(s, k.owner) ==> Inactive(s', k.owner)
    requires k.video in s.db.rows && Recorded(s.db.rows[k.video], k) ==>
      || Inactive(s', k.owner) || k !in s'.store.keys
      || (k.video in s'.db.rows && Recorded(s'.db.rows[k.video], k))
    requires Holds(s.queues.pending, k) || Holds(s.queues.scheduled, k) || InHand(s.worker, k) ==>
      Covered(s', k) || k !in s'.store.keys
    requires PurgedSoFar(s', k)
    ensures Inv(s', k)
  {
  }

  lemma PushHolds(s: State, t: Task, k: Key)
    ensures Holds(Push(s, t).queues.pending, k) <==> Holds(s.queues.pending, k) || Deletes(t, k)
  {
    HoldsAppend(s.queues.pending, Entry(t, s.now), k);
  }

  lemma ScheduleHolds(s: State, t: Task, delay: nat, k: Key)
    ensures Holds(Schedule(s, t, delay).queues.scheduled, k) <==> Holds(s.queues.scheduled, k) || Deletes(t, k)
  {
    HoldsAppend(s.queues.scheduled, Entry(t, s.now + delay), k);
  }

  lemma EnqueueHolds(s: State, keys: seq<Key>, ok: bool, k: Key)
    ensures Holds(EnqueueIf(s, keys, ok).queues.pending, k) <==> Holds(s.queues.pending, k) || (ok && k in keys)
    ensures EnqueueIf(s, keys, ok).queues.scheduled == s.queues.scheduled
  {
    if ok && keys != [] {
      PushHolds(s, CleanupObjects(keys), k);
    }
  }

  lemma GatewayEnqueuePreserves(s: State, s': State, g: GatewayStep, k: Key)
    requires !k.Raw? && Inv(s, k) && GatewayNext(s, g) == Some(s') && Enqueues(g)
    ensures Inv(s', k)
  {
    match g {
      case ConfirmEnqueue(w) => PushHolds(s, Transcode(w), k);
      case IntentDrop(rid, ok) => EnqueueHolds(Close(s, rid), [s.gate.requests[rid].oldKey], ok, k);
      case ConfirmReject(_, w, ok) => EnqueueHolds(s, [s.db.rows[w].r2Key], ok, k);
      case DeleteEnqueue(rid, ok) =>
        var req := s.gate.requests[rid];
        ScheduleHolds(Close(s, rid), CleanupVideo(req.video, req.seen), GRACE, k);
      case AccountEnqueue(rid, ok) => EnqueueHolds(Close(s, rid), s.gate.requests[rid].keys, ok, k);
      case EnqueueTick(batch, dryRun) => PushHolds(s, ReconcileTick(batch, dryRun), k);
    }
    assert s'.db == s.db && s'.worker == s.worker && s'.store == s.store;
  }

  lemma AccountPreserves(s: State, s': State, rid: nat, u: UserId, order: seq<VideoId>, k: Key)
    requires !k.Raw? && Statuses.Inv(s) && Inv(s, k) && AccountDeleteNext(s, rid, u, order) == Some(s')
    ensures Inv(s', k)
  {
    if k.video in s.db.rows {
      assert Statuses.RowInv(s, k.video);
    }
    Keeps(s, s', k);
  }

  lemma GatewayPreserves(s: State, s': State, g: GatewayStep, k: Key)
    requires !k.Raw? && Statuses.Inv(s) && Inv(s, k) && GatewayNext(s, g) == Some(s')
    ensures Inv(s', k)
  {
    if Enqueues(g) {
      GatewayEnqueuePreserves(s, s', g, k);
    } else if g.AccountDelete? {
      AccountPreserves(s, s', g.rid, g.u, g.order, k);
    } else {
      GatewayRestPreserves(s, s', g, k);
    }
  }

  /** A row keeps recording its objects: READY rows are only tombstoned. */
  lemma RecordStays(s: State, s': State, g: GatewayStep, k: Key)
    requires !k.Raw? && Statuses.Inv(s) && GatewayNext(s, g) == Some(s') && !g.AccountDelete?
    requires k.video in s.db.rows && Recorded(s.db.rows[k.video], k)
    ensures k.video in s'.db.rows && Recorded(s'.db.rows[k.video], k)
  {
    match g
    case IntentInsert(u, w, upload) => assert IntentInsertNext(s, u, w, upload) == Some(s');
    case IntentRotate(rid) => assert IntentRotateNext(s, rid) == Some(s');
    case ConfirmCommit(w) => assert ConfirmCommitNext(s, w) == Some(s');
    case DeleteMark(rid) => MarkKeepsRecord(s, s', rid, k);
    case _ => CalmGateway(s, s', g);
  }

  lemma MarkKeepsRecord(s: State, s': State, rid: nat, k: Key)
    requires !k.Raw? && DeleteMarkNext(s, rid) == Some(s') && k.video in s.db.rows && Recorded(s.db.rows[k.video], k)
    ensures k.video in s'.db.rows && Recorded(s'.db.rows[k.video], k)
  {
  }

  lemma GatewayRestPreserves(s: State, s': State, g: GatewayStep, k: Key)
    requires !k.Raw? && Statuses.Inv(s) && Inv(s, k)
    requires GatewayNext(s, g) == Some(s') && !Enqueues(g) && !g.AccountDelete?
    ensures Inv(s', k)
  {
    OnlyTheGateway(s, s', g);
    StoresRawOnly(s, s', g);
    if k.video in s.db.rows && Recorded(s.db.rows[k.video], k) {
      RecordStays(s, s', g, k);
    }
    Keeps(s, s', k);
  }

  lemma StoresRawOnly(s: State, s': State, g: GatewayStep)
    requires GatewayNext(s, g) == Some(s')
    ensures forall k :: k in s'.store.keys && !k.Raw? ==> k in s.store.keys
  {
  }

  lemma QueuePreserves(s: State, s': State, q: QueueStep, k: Key)
    requires !k.Raw? && Inv(s, k) && QueueNext(s, q) == Some(s')
    ensures Inv(s', k)
  {
    var queues := s.queues;
    match q {
      case Advance(_) =>
      case Promote(i) =>
        HoldsRemove(queues.scheduled, i, k);
        HoldsAppend(queues.pending, queues.scheduled[i], k);
      case Dequeue => HoldsTail(queues.pending, k);
      case Redeliver(t) => PushHolds(s, t, k);
    }
    Keeps(s, s', k);
  }

  lemma UploadPreserves(s: State, s': State, a: Attempt, o: Outcome, k: Key)
    requires !k.Raw? && Inv(s, k) && s.worker == Upload(a) && UploadNext(s, a, o) == Some(s') && !Leaky(s, Work(o))
    ensures Inv(s', k)
  {
    assert s'.db == s.db && s'.queues == s.queues;
  }

  lemma PublishPreserves(s: State, s': State, a: Attempt, o: Outcome, k: Key)
    requires !k.Raw? && Statuses.Inv(s) && Shape(s)
    requires Inv(s, k) && s.worker == Publish(a) && PublishNext(s, a, o) == Some(s')
    ensures Inv(s', k)
  {
    AssetsAreMedia(a.owner, a.video, a.files);
    if k in a.uploaded {
      var i :| 0 <= i < |a.uploaded| && a.uploaded[i] == k;
      assert MediaOf(a.uploaded[i], a.owner, a.video);
    }
    if a.video in s.db.rows {
      assert Statuses.RowInv(s, a.video);
    }
    assert s'.queues == s.queues && s'.store == s.store;
  }

  lemma GiveUpPreserves(s: State, s': State, v: VideoId, key: Key, o: Outcome, k: Key)
    requires !k.Raw? && Statuses.Inv(s) && Inv(s, k)
    requires s.worker == GiveUp(v, key) && GiveUpNext(s, v, key, o) == Some(s')
    ensures Inv(s', k)
  {
    Keeps(s, s', k);
  }

  lemma IncrementPreserves(s: State, s': State, v: VideoId, o: Outcome, k: Key)
    requires !k.Raw? && Statuses.Inv(s) && Inv(s, k) && s.worker == Increment(v) && IncrementNext(s, v, o) == Some(s')
    ensures Inv(s', k)
  {
    Keeps(s, s', k);
  }

  /** The steps of an attempt that neither write rows nor queues nor objects. */
  lemma TryingPreserves(s: State, s': State, o: Outcome, k: Key)
    requires !k.Raw? && Inv(s, k) && WorkNext(s, o) == Some(s')
    requires s.worker.Load? || s.worker.Prepare? || s.worker.Fetch? || s.worker.Recheck?
    ensures Inv(s', k)
  {
    assert s'.db == s.db && s'.queues == s.queues && s'.store == s.store;
    Keeps(s, s', k);
  }

  lemma WindingDownPreserves(s: State, s': State, o: Outcome, k: Key)
    requires !k.Raw? && Inv(s, k) && WorkNext(s, o) == Some(s') && WindingDown(s.worker) && !s.worker.GiveUp?
    requires !Leaky(s, Work(o))
    ensures Inv(s', k)
  {
    match s.worker {
      case DropUploads(a, again) =>
        assert DropUploadsNext(s, a, again, o) == Some(s');
        EnqueueHolds(s, a.uploaded, o.Ok?, k);
      case Retry(a) =>
        assert RetryNext(s, a, o) == Some(s');
        ScheduleHolds(s, Transcode(a.video), RetryDelay(a.retry), k);
      case DropRaw(key) =>
        assert DropRawNext(s, key, o) == Some(s');
        EnqueueHolds(s, [key], o.Ok?, k);
    }
    Keeps(s, s', k);
  }

  lemma DeletingPreserves(s: State, s': State, keys: seq<Key>, o: Outcome, k: Key)
    requires !k.Raw? && Inv(s, k) && s.worker == Deleting(keys) && DeletingNext(s, keys, o) == Some(s')
    ensures Inv(s', k)
  {
    if o.Undeleted? {
      ScheduleHolds(s, CleanupObjects(keys), o.delay, k);
    }
    Keeps(s, s', k);
  }

  lemma PurgeKeysPreserves(s: State, s': State, v: VideoId, seen: Stamp, row: Row, o: Outcome, k: Key)
    requires !k.Raw? && Inv(s, k) && s.worker == PurgeKeys(v, seen, row)
    requires PurgeKeysNext(s, v, seen, row, o) == Some(s')
    ensures Inv(s', k)
  {
    if o.Fails? {
      ScheduleHolds(s, CleanupVideo(v, seen), o.delay, k);
    } else if row.thumbnail == Some(k) {
      assert RawAndThumb(row)[1] == k;
    }
    Keeps(s, s', k);
  }

  lemma PurgePrefixPreserves(s: State, s': State, v: VideoId, seen: Stamp, row: Row, o: Outcome, k: Key)
    requires !k.Raw? && Inv(s, k) && s.worker == PurgePrefix(v, seen, row)
    requires PurgePrefixNext(s, v, seen, row, o) == Some(s')
    ensures Inv(s', k)
  {
    if o.Fails? {
      ScheduleHolds(s, CleanupVideo(v, seen), o.delay, k);
    }
    Keeps(s, s', k);
  }

  lemma PurgeRowPreserves(s: State, s': State, v: VideoId, seen: Stamp, row: Row, o: Outcome, k: Key)
    requires !k.Raw? && Statuses.Inv(s) && Inv(s, k)
    requires s.worker == PurgeRow(v, seen, row) && PurgeRowNext(s, v, seen, row, o) == Some(s')
    ensures Inv(s', k)
  {
    if o.Fails? {
      ScheduleHolds(s, CleanupVideo(v, seen), o.delay, k);
    } else if v == k.video && v in s.db.rows && Recorded(s.db.rows[v], k) {
      assert k !in s.store.keys;
    }
    Keeps(s, s', k);
  }

  lemma LoadTombstonePreserves(s: State, s': State, v: VideoId, seen: Stamp, o: Outcome, k: Key)
    requires !k.Raw? && Inv(s, k) && s.worker == LoadTombstone(v, seen) && LoadTombstoneNext(s, v, seen, o) == Some(s')
    ensures Inv(s', k)
  {
    Keeps(s, s', k);
  }

  lemma PostponePreserves(s: State, s': State, v: VideoId, seen: Stamp, remaining: nat, o: Outcome, k: Key)
    requires !k.Raw? && Inv(s, k) && s.worker == Postpone(v, seen, remaining)
    requires PostponeNext(s, v, seen, remaining, o) == Some(s')
    ensures Inv(s', k)
  {
    ScheduleHolds(s, CleanupVideo(v, seen), remaining, k);
    Keeps(s, s', k);
  }

  lemma TickListPreserves(s: State, s': State, batch: nat, dryRun: bool, o: Outcome, k: Key)
    requires !k.Raw? && Inv(s, k) && s.worker == TickList(batch, dryRun)
    requires TickListNext(s, batch, dryRun, o) == Some(s')
    ensures Inv(s', k)
  {
    if o.Fails? {
      ScheduleHolds(s, ReconcileTick(batch, dryRun), o.delay, k);
    }
    Keeps(s, s', k);
  }

  lemma TickUserPreserves(s: State, s': State, users: seq<UserId>, dryRun: bool, o: Outcome, k: Key)
    requires !k.Raw? && Inv(s, k) && s.worker == TickUser(users, dryRun)
    requires TickUserNext(s, users, dryRun, o) == Some(s')
    ensures Inv(s', k)
  {
    Keeps(s, s', k);
  }

  lemma TickEnqueuePreserves(s: State, s': State, keys: seq<Key>, users: seq<UserId>, dryRun: bool, o: Outcome, k: Key)
    requires !k.Raw? && Inv(s, k)
    requires s.worker == TickEnqueue(keys, users, dryRun) && TickEnqueueNext(s, keys, users, dryRun, o) == Some(s')
    ensures Inv(s', k)
  {
    EnqueueHolds(s, keys, o.Ok?, k);
    Keeps(s, s', k);
  }

  lemma WorkPreserves(s: State, s': State, o: Outcome, k: Key)
    requires !k.Raw? && Statuses.Inv(s) && Shape(s) && Inv(s, k) && WorkNext(s, o) == Some(s') && !Leaky(s, Work(o))
    ensures Inv(s', k)
  {
    match s.worker
    case Increment(v) => IncrementPreserves(s, s', v, o, k);
    case Upload(a) => UploadPreserves(s, s', a, o, k);
    case Publish(a) => PublishPreserves(s, s', a, o, k);
    case GiveUp(v, key) => GiveUpPreserves(s, s', v, key, o, k);
    case DropUploads(_, _) => WindingDownPreserves(s, s', o, k);
    case Retry(_) => WindingDownPreserves(s, s', o, k);
    case DropRaw(_) => WindingDownPreserves(s, s', o, k);
    case Deleting(keys) => DeletingPreserves(s, s', keys, o, k);
    case LoadTombstone(v, seen) => LoadTombstonePreserves(s, s', v, seen, o, k);
    case Postpone(v, seen, remaining) => PostponePreserves(s, s', v, seen, remaining, o, k);
    case PurgePrefix(v, seen, row) => PurgePrefixPreserves(s, s', v, seen, row, o, k);
    case PurgeKeys(v, seen, row) => PurgeKeysPreserves(s, s', v, seen, row, o, k);
    case PurgeRow(v, seen, row) => PurgeRowPreserves(s, s', v, seen, row, o, k);
    case TickList(batch, dryRun) => TickListPreserves(s, s', batch, dryRun, o, k);
    case TickUser(users, dryRun) => TickUserPreserves(s, s', users, dryRun, o, k);
    case TickEnqueue(keys, users, dryRun) => TickEnqueuePreserves(s, s', keys, users, dryRun, o, k);
    case _ => TryingPreserves(s, s', o, k);
  }

  lemma Preserves(s: State, s': State, step: Step, k: Key)
    requires !k.Raw? && Statuses.Inv(s) && Shape(s) && Inv(s, k) && Next(s, step) == Some(s') && !Leaky(s, step)
    ensures Inv(s', k)
  {
    match step
    case Gateway(g) => GatewayPreserves(s, s', g, k);
    case Queue(q) => QueuePreserves(s, s', q, k);
    case Work(o) => WorkPreserves(s, s', o, k);
  }

  predicate NothingLeaky(trace: seq<Step>) {
    forall n :: 0 <= n < |trace| ==> Run(INITIAL, trace[..n]).Some? ==> !Leaky(Run(INITIAL, trace[..n]).value, trace[n])
  }

  /** The theorem, at every interleaving with video and account deletion, failed cleanups,
      rolled-back confirms and redelivered tasks included. */
  lemma {:induction false} NoObjectIsForgotten(trace: seq<Step>, k: Key)
    requires !k.Raw? && Run(INITIAL, trace).Some? && NothingLeaky(trace)
    ensures
      var s := Run(INITIAL, trace).value;
      Shape(s) && Inv(s, k) && (k in s.store.keys ==> Covered(s, k))
  {
    if trace != [] {
      var n := |trace| - 1;
      var s, s' := Run(INITIAL, trace[..n]).value, Run(INITIAL, trace).value;
      assert forall m :: 0 <= m < n ==> trace[..n][..m] == trace[..m] && trace[..n][m] == trace[m];
      NoObjectIsForgotten(trace[..n], k);
      Statuses.Reachable(trace[..n]);
      ShapePreserved(s, s', trace[n]);
      Preserves(s, s', trace[n], k);
    }
  }

  /** What a put costs that reports an error although it stored the object: uploadVariant's
      error drops the failing key, the thumbnail's and the master's do not. */
  lemma StoredPutIsCoveredIffReported(s: State, s': State, a: Attempt)
    requires s.worker == Upload(a) && a.todo != [] && UploadNext(s, a, PutFailed(true)) == Some(s')
    requires !a.todo[0].Raw? && a.todo[0] !in a.uploaded
    requires Active(s, a.todo[0].owner)
    requires a.todo[0].video in s.db.rows ==> !Recorded(s.db.rows[a.todo[0].video], a.todo[0])
    requires !Holds(s.queues.pending, a.todo[0]) && !Holds(s.queues.scheduled, a.todo[0])
    ensures a.todo[0] in s'.store.keys
    ensures Covered(s', a.todo[0]) <==> !VariantFile(a.todo[0])
  {
    var k := a.todo[0];
    assert s'.queues == s.queues && s'.db == s.db;
    if !VariantFile(k) {
      assert (a.uploaded + [k])[|a.uploaded|] == k;
    }
  }
}
