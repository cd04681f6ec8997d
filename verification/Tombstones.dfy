/** Tombstones: the hard delete waits out the grace period, each refresh of `deleted_at` buys
    at most one re-enqueue, and a purge that crashed anywhere is completed by its redelivery. */
module Tombstones {
  import opened Model
  import opened Statements
  import opened Lifecycle
  import opened Frames
  import Statuses

  // ----- the invariant -----

  function Marks(s: State, v: VideoId): nat {
    Count(s.log.marks, v)
  }

  /** If the row's tombstone is the one the task was created for, its grace ends by `due`. */
  predicate Timely(s: State, v: VideoId, seen: Stamp, due: int) {
    && seen.hops < seen.mark <= Marks(s, v)
    && (seen.mark == Marks(s, v) && v in s.db.rows && s.db.rows[v].deletedAt.Some? ==>
          s.db.rows[v].deletedAt.value + GRACE <= due)
  }

  /** A cleanup:video task that may run now. A task that has run once stays ripe. */
  predicate Ripe(s: State, t: Task) {
    t.CleanupVideo? ==> Timely(s, t.tombstone, t.seen, s.now)
  }

  predicate EntryOk(s: State, e: Entry) {
    e.task.CleanupVideo? ==> Timely(s, e.task.tombstone, e.task.seen, e.due)
  }

  predicate Purging(s: State, v: VideoId, seen: Stamp, row: Row) {
    && Timely(s, v, seen, s.now)
    && row.deletedAt.Some? && row.deletedAt.value + GRACE <= s.now
    && v in s.log.tombstoned && s.log.tombstoned[v] <= row.deletedAt.value
  }

  predicate WorkerOk(s: State) {
    match s.worker
    case LoadTombstone(v, seen) => Timely(s, v, seen, s.now)
    case Postpone(v, seen, remaining) => Timely(s, v, seen, s.now + remaining)
    case PurgePrefix(v, seen, row) => Purging(s, v, seen, row)
    case PurgeKeys(v, seen, row) => Purging(s, v, seen, row)
    case PurgeRow(v, seen, row) => Purging(s, v, seen, row)
    case _ => true
  }

  predicate RequestOk(s: State, r: Request) {
    r.EnqueuePurge? ==> Timely(s, r.video, r.seen, s.now + GRACE)
  }

  predicate Dated(s: State, v: VideoId) {
    && (v in s.log.tombstoned ==> s.log.tombstoned[v] <= s.now)
    && (v in s.db.rows && s.db.rows[v].deletedAt.Some? ==>
          v in s.log.tombstoned && s.log.tombstoned[v] <= s.db.rows[v].deletedAt.value <= s.now)
  }

  ghost predicate Inv(s: State) {
    && (forall v :: Dated(s, v))
    && (forall i :: 0 <= i < |s.queues.pending| ==> EntryOk(s, s.queues.pending[i]) && s.queues.pending[i].due <= s.now)
    && (forall i :: 0 <= i < |s.queues.scheduled| ==> EntryOk(s, s.queues.scheduled[i]))
    && (forall rid :: rid in s.gate.requests ==> RequestOk(s, s.gate.requests[rid]))
    && WorkerOk(s)
  }

  // ----- preservation -----

  /** Tombstones move only by a new mark. */
  predicate Settled(s: State, s': State, v: VideoId) {
    && Marks(s, v) <= Marks(s', v)
    && (v in s.log.tombstoned ==> v in s'.log.tombstoned && s'.log.tombstoned[v] == s.log.tombstoned[v])
    && (Marks(s', v) == Marks(s, v) && v in s'.log.tombstoned ==> v in s.log.tombstoned)
    && (Marks(s', v) == Marks(s, v) && v in s'.db.rows && s'.db.rows[v].deletedAt.Some? ==>
          v in s.db.rows && s'.db.rows[v].deletedAt == s.db.rows[v].deletedAt)
  }

  ghost predicate Onward(s: State, s': State) {
    s.now <= s'.now && forall v :: Settled(s, s', v)
  }

  lemma TimelyStays(s: State, s': State, v: VideoId, seen: Stamp, due: int, due': int)
    requires Timely(s, v, seen, due) && Settled(s, s', v) && due <= due'
    ensures Timely(s', v, seen, due')
  {
  }

  lemma EntryStays(s: State, s': State, e: Entry)
    requires EntryOk(s, e) && Onward(s, s')
    ensures EntryOk(s', e)
  {
    if e.task.CleanupVideo? {
      TimelyStays(s, s', e.task.tombstone, e.task.seen, e.due, e.due);
    }
  }

  lemma QueueStays(s: State, s': State, q: seq<Entry>, q': seq<Entry>)
    requires Onward(s, s')
    requires forall i :: 0 <= i < |q| ==> EntryOk(s, q[i])
    requires forall j :: 0 <= j < |q'| ==> q'[j] in q || EntryOk(s', q'[j])
    ensures forall j :: 0 <= j < |q'| ==> EntryOk(s', q'[j])
  {
    forall j | 0 <= j < |q'| ensures EntryOk(s', q'[j]) {
      if q'[j] in q {
        var i :| 0 <= i < |q| && q[i] == q'[j];
        EntryStays(s, s', q[i]);
      }
    }
  }

  lemma WorkerStays(s: State, s': State)
    requires WorkerOk(s) && Onward(s, s') && s'.worker == s.worker
    ensures WorkerOk(s')
  {
    match s.worker
    case LoadTombstone(v, seen) => TimelyStays(s, s', v, seen, s.now, s'.now);
    case Postpone(v, seen, remaining) => TimelyStays(s, s', v, seen, s.now + remaining, s'.now + remaining);
    case PurgePrefix(v, seen, row) => TimelyStays(s, s', v, seen, s.now, s'.now);
    case PurgeKeys(v, seen, row) => TimelyStays(s, s', v, seen, s.now, s'.now);
    case PurgeRow(v, seen, row) => TimelyStays(s, s', v, seen, s.now, s'.now);
    case _ =>
  }

  lemma RequestsStay(s: State, s': State)
    requires Onward(s, s')
    requires forall rid :: rid in s.gate.requests ==> RequestOk(s, s.gate.requests[rid])
    requires forall rid :: rid in s'.gate.requests ==>
      (rid in s.gate.requests && s'.gate.requests[rid] == s.gate.requests[rid]) || RequestOk(s', s'.gate.requests[rid])
    ensures forall rid :: rid in s'.gate.requests ==> RequestOk(s', s'.gate.requests[rid])
  {
    forall rid | rid in s'.gate.requests ensures RequestOk(s', s'.gate.requests[rid]) {
      if rid in s.gate.requests && s'.gate.requests[rid] == s.gate.requests[rid] {
        var r := s.gate.requests[rid];
        assert RequestOk(s, r);
        if r.EnqueuePurge? {
          TimelyStays(s, s', r.video, r.seen, s.now + GRACE, s'.now + GRACE);
        }
      }
    }
  }

  /** A step of somebody else than the running handler. */
  lemma Outside(s: State, s': State)
    requires Inv(s) && Onward(s, s') && s'.worker == s.worker
    requires forall v :: Marks(s', v) == Marks(s, v) || Dated(s', v)
    requires forall j :: 0 <= j < |s'.queues.pending| ==>
      s'.queues.pending[j] in s.queues.pending || (EntryOk(s', s'.queues.pending[j]) && s'.queues.pending[j].due <= s'.now)
    requires forall j :: 0 <= j < |s'.queues.scheduled| ==>
      s'.queues.scheduled[j] in s.queues.scheduled || EntryOk(s', s'.queues.scheduled[j])
    requires forall rid :: rid in s'.gate.requests ==>
      (rid in s.gate.requests && s'.gate.requests[rid] == s.gate.requests[rid]) || RequestOk(s', s'.gate.requests[rid])
    ensures Inv(s')
  {
    QueueStays(s, s', s.queues.pending, s'.queues.pending);
    QueueStays(s, s', s.queues.scheduled, s'.queues.scheduled);
    RequestsStay(s, s');
    WorkerStays(s, s');
    forall v ensures Dated(s', v) {
      assert Dated(s, v) && Settled(s, s', v);
    }
  }

  lemma QueuesKept(s: State, s': State)
    requires Inv(s) && Onward(s, s') && s'.worker == s.worker && s'.queues == s.queues
    requires forall v :: Marks(s', v) == Marks(s, v) || Dated(s', v)
    requires forall rid :: rid in s'.gate.requests ==>
      (rid in s.gate.requests && s'.gate.requests[rid] == s.gate.requests[rid]) || RequestOk(s', s'.gate.requests[rid])
    ensures Inv(s')
  {
    Outside(s, s');
  }

  lemma CalmOnward(s: State, s': State)
    requires Calm(s, s')
    ensures Onward(s, s')
  {
  }

  /** A new entry that is not a cleanup:video, and a request closed. */
  lemma PushPreserves(s: State, s': State, t: Task)
    requires Inv(s) && !t.CleanupVideo? && s'.db == s.db && s'.worker == s.worker && s'.log == s.log && s'.now == s.now
    requires s'.queues == s.queues || s'.queues == s.queues.(pending := s.queues.pending + [Entry(t, s.now)])
    requires forall rid :: rid in s'.gate.requests ==> rid in s.gate.requests && s'.gate.requests[rid] == s.gate.requests[rid]
    ensures Inv(s')
  {
    Outside(s, s');
  }

  lemma DeleteEnqueuePreserves(s: State, s': State, rid: nat, ok: bool)
    requires Inv(s) && GatewayNext(s, DeleteEnqueue(rid, ok)) == Some(s')
    ensures Inv(s')
  {
    var req := s.gate.requests[rid];
    assert RequestOk(s, req);
    Outside(s, s');
  }

  lemma EnqueuePreserves(s: State, s': State, g: GatewayStep)
    requires Inv(s) && GatewayNext(s, g) == Some(s') && Enqueues(g)
    ensures Inv(s')
  {
    match g
    case ConfirmEnqueue(v) => PushPreserves(s, s', Transcode(v));
    case IntentDrop(rid, ok) => PushPreserves(s, s', CleanupObjects([s.gate.requests[rid].oldKey]));
    case ConfirmReject(_, w, ok) => PushPreserves(s, s', CleanupObjects([s.db.rows[w].r2Key]));
    case DeleteEnqueue(rid, ok) => DeleteEnqueuePreserves(s, s', rid, ok);
    case AccountEnqueue(rid, ok) => PushPreserves(s, s', CleanupObjects(s.gate.requests[rid].keys));
    case EnqueueTick(batch, dryRun) => PushPreserves(s, s', ReconcileTick(batch, dryRun));
  }

  lemma CalmPreserves(s: State, s': State, g: GatewayStep)
    requires Inv(s) && GatewayNext(s, g) == Some(s') && !Enqueues(g) && !WritesRows(g)
    ensures Inv(s')
  {
    CalmGateway(s, s', g);
    CalmOnward(s, s');
    QueuesKept(s, s');
  }

  lemma InsertPreserves(s: State, s': State, u: UserId, v: VideoId, upload: nat)
    requires Inv(s) && IntentInsertNext(s, u, v, upload) == Some(s')
    ensures Inv(s')
  {
    QueuesKept(s, s');
  }

  lemma RotatePreserves(s: State, s': State, rid: nat)
    requires Inv(s) && IntentRotateNext(s, rid) == Some(s')
    ensures Inv(s')
  {
    QueuesKept(s, s');
  }

  lemma CommitPreserves(s: State, s': State, v: VideoId)
    requires Inv(s) && ConfirmCommitNext(s, v) == Some(s')
    ensures Inv(s')
  {
    QueuesKept(s, s');
  }

  lemma MarkPreserves(s: State, s': State, rid: nat)
    requires Inv(s) && DeleteMarkNext(s, rid) == Some(s')
    ensures Inv(s')
  {
    assert Dated(s, s.gate.requests[rid].video);
    QueuesKept(s, s');
  }

  lemma AccountPreserves(s: State, s': State, rid: nat, u: UserId, order: seq<VideoId>)
    requires Inv(s) && AccountDeleteNext(s, rid, u, order) == Some(s')
    ensures Inv(s')
  {
    QueuesKept(s, s');
  }

  lemma GatewayPreserves(s: State, s': State, g: GatewayStep)
    requires Inv(s) && GatewayNext(s, g) == Some(s')
    ensures Inv(s')
  {
    match g
    case IntentInsert(u, v, upload) => InsertPreserves(s, s', u, v, upload);
    case IntentRotate(rid) => RotatePreserves(s, s', rid);
    case ConfirmCommit(v) => CommitPreserves(s, s', v);
    case DeleteMark(rid) => MarkPreserves(s, s', rid);
    case AccountDelete(rid, u, order) => AccountPreserves(s, s', rid, u, order);
    case _ =>
      if Enqueues(g) {
        EnqueuePreserves(s, s', g);
      } else {
        CalmPreserves(s, s', g);
      }
  }

  lemma PromotePreserves(s: State, s': State, i: nat)
    requires Inv(s) && QueueNext(s, Promote(i)) == Some(s')
    ensures Inv(s')
  {
    var q := s.queues.scheduled;
    assert EntryOk(s, q[i]);
    forall j | 0 <= j < |s'.queues.scheduled| ensures s'.queues.scheduled[j] in q {
      assert s'.queues.scheduled[j] == if j < i then q[j] else q[j + 1];
    }
    Outside(s, s');
  }

  lemma DequeuePreserves(s: State, s': State)
    requires Inv(s) && QueueNext(s, Dequeue) == Some(s')
    ensures Inv(s')
  {
    var e := s.queues.pending[0];
    assert EntryOk(s, e) && e.due <= s.now;
    assert WorkerOk(s');
    Inside(s, s');
  }

  lemma QueuePreserves(s: State, s': State, q: QueueStep)
    requires Inv(s) && QueueNext(s, q) == Some(s') && (q.Redeliver? ==> Ripe(s, q.t))
    ensures Inv(s')
  {
    match q
    case Advance(d) => QueuesKept(s, s');
    case Promote(i) => PromotePreserves(s, s', i);
    case Dequeue => DequeuePreserves(s, s');
    case Redeliver(t) => Outside(s, s');
  }

  /** A step of the running handler. */
  lemma Inside(s: State, s': State)
    requires Inv(s) && Onward(s, s') && s'.gate.requests == s.gate.requests && WorkerOk(s') && s'.now == s.now
    requires forall v :: Marks(s', v) == Marks(s, v)
    requires forall j :: 0 <= j < |s'.queues.pending| ==>
      s'.queues.pending[j] in s.queues.pending || (EntryOk(s', s'.queues.pending[j]) && s'.queues.pending[j].due <= s'.now)
    requires forall j :: 0 <= j < |s'.queues.scheduled| ==>
      s'.queues.scheduled[j] in s.queues.scheduled || EntryOk(s', s'.queues.scheduled[j])
    ensures Inv(s')
  {
    QueueStays(s, s', s.queues.pending, s'.queues.pending);
    QueueStays(s, s', s.queues.scheduled, s'.queues.scheduled);
    RequestsStay(s, s');
    forall v ensures Dated(s', v) {
      assert Dated(s, v) && Settled(s, s', v);
    }
  }

  /** At most one new entry, and not a cleanup:video. */
  predicate AddsOther(q: seq<Entry>, q': seq<Entry>, now: nat) {
    q' == q || (|q'| == |q| + 1 && q' == q + [q'[|q|]] && !q'[|q|].task.CleanupVideo? && q'[|q|].due >= now)
  }

  predicate KeepsTombstones(s: State, s': State) {
    && s'.now == s.now && s'.gate == s.gate && s'.log.marks == s.log.marks && s'.log.tombstoned == s.log.tombstoned
    && (forall v :: v in s'.db.rows ==> v in s.db.rows && s'.db.rows[v].deletedAt == s.db.rows[v].deletedAt)
  }

  predicate Elsewhere(w: Worker) {
    !w.LoadTombstone? && !w.Postpone? && !w.PurgePrefix? && !w.PurgeKeys? && !w.PurgeRow?
  }

  /** The calls of the other handlers. */
  lemma TryingKeeps(s: State, s': State, o: Outcome)
    requires WorkNext(s, o) == Some(s') && Trying(s.worker)
    ensures KeepsTombstones(s, s') && s'.queues == s.queues && Elsewhere(s'.worker)
  {
  }

  lemma WindingDownKeeps(s: State, s': State, o: Outcome)
    requires WorkNext(s, o) == Some(s') && WindingDown(s.worker)
    ensures KeepsTombstones(s, s') && Elsewhere(s'.worker)
    ensures AddsOther(s.queues.scheduled, s'.queues.scheduled, s.now)
    ensures s'.queues.pending == s.queues.pending
      || (exists keys :: s'.queues.pending == s.queues.pending + [Entry(CleanupObjects(keys), s.now)])
  {
  }

  lemma TickingKeeps(s: State, s': State, o: Outcome)
    requires WorkNext(s, o) == Some(s') && (Ticking(s.worker) || s.worker.Deleting?)
    ensures KeepsTombstones(s, s') && Elsewhere(s'.worker)
    ensures AddsOther(s.queues.scheduled, s'.queues.scheduled, s.now)
    ensures s'.queues.pending == s.queues.pending
      || (exists keys :: s'.queues.pending == s.queues.pending + [Entry(CleanupObjects(keys), s.now)])
  {
  }

  lemma OthersPreserve(s: State, s': State, o: Outcome)
    requires Inv(s) && WorkNext(s, o) == Some(s') && Elsewhere(s.worker)
    ensures Inv(s')
  {
    if Trying(s.worker) {
      TryingKeeps(s, s', o);
    } else if WindingDown(s.worker) {
      WindingDownKeeps(s, s', o);
    } else {
      TickingKeeps(s, s', o);
    }
    Inside(s, s');
  }

  lemma LoadPreserves(s: State, s': State, v: VideoId, seen: Stamp, o: Outcome)
    requires Inv(s) && s.worker == LoadTombstone(v, seen) && LoadTombstoneNext(s, v, seen, o) == Some(s')
    ensures Inv(s')
  {
    assert Dated(s, v);
    assert WorkerOk(s');
    Inside(s, s');
  }

  /** The task is put back with the given delay, or the handler goes on. */
  lemma RequeuePreserves(s: State, s': State, v: VideoId, seen: Stamp, delay: nat)
    requires Inv(s) && Timely(s, v, seen, s.now + delay)
    requires s' == QueueRetries(s.(store := s'.store), CleanupVideo(v, seen), delay)
    ensures Inv(s')
  {
    Inside(s, s');
  }

  lemma PostponePreserves(s: State, s': State, v: VideoId, seen: Stamp, remaining: nat, o: Outcome)
    requires Inv(s) && s.worker == Postpone(v, seen, remaining) && PostponeNext(s, v, seen, remaining, o) == Some(s')
    ensures Inv(s')
  {
    if o.Ok? {
      RequeuePreserves(s, s', v, seen, remaining);
    } else {
      Inside(s, s');
    }
  }

  lemma PurgePrefixPreserves(s: State, s': State, v: VideoId, seen: Stamp, row: Row, o: Outcome)
    requires Inv(s) && s.worker == PurgePrefix(v, seen, row) && PurgePrefixNext(s, v, seen, row, o) == Some(s')
    ensures Inv(s')
  {
    if o.Fails? {
      RequeuePreserves(s, s', v, seen, o.delay);
    } else {
      Inside(s, s');
    }
  }

  lemma PurgeKeysPreserves(s: State, s': State, v: VideoId, seen: Stamp, row: Row, o: Outcome)
    requires Inv(s) && s.worker == PurgeKeys(v, seen, row) && PurgeKeysNext(s, v, seen, row, o) == Some(s')
    ensures Inv(s')
  {
    if o.Fails? {
      RequeuePreserves(s, s', v, seen, o.delay);
    } else {
      Inside(s, s');
    }
  }

  lemma PurgeRowPreserves(s: State, s': State, v: VideoId, seen: Stamp, row: Row, o: Outcome)
    requires Inv(s) && s.worker == PurgeRow(v, seen, row) && PurgeRowNext(s, v, seen, row, o) == Some(s')
    ensures Inv(s')
  {
    if o.Fails? {
      RequeuePreserves(s, s', v, seen, o.delay);
    } else {
      Inside(s, s');
    }
  }

  lemma WorkPreserves(s: State, s': State, o: Outcome)
    requires Inv(s) && WorkNext(s, o) == Some(s')
    ensures Inv(s')
  {
    match s.worker
    case LoadTombstone(v, seen) => LoadPreserves(s, s', v, seen, o);
    case Postpone(v, seen, remaining) => PostponePreserves(s, s', v, seen, remaining, o);
    case PurgePrefix(v, seen, row) => PurgePrefixPreserves(s, s', v, seen, row, o);
    case PurgeKeys(v, seen, row) => PurgeKeysPreserves(s, s', v, seen, row, o);
    case PurgeRow(v, seen, row) => PurgeRowPreserves(s, s', v, seen, row, o);
    case _ => OthersPreserve(s, s', o);
  }

  /** Redelivered cleanup:video tasks are tasks that could have run before. */
  predicate RipeRedelivery(s: State, step: Step) {
    step.Queue? && step.q.Redeliver? ==> Ripe(s, step.q.t)
  }

  lemma Preserves(s: State, s': State, step: Step)
    requires Inv(s) && Next(s, step) == Some(s') && RipeRedelivery(s, step)
    ensures Inv(s')
  {
    match step
    case Gateway(g) => GatewayPreserves(s, s', g);
    case Queue(q) => QueuePreserves(s, s', q);
    case Work(o) => WorkPreserves(s, s', o);
  }

  predicate RipeRedeliveries(trace: seq<Step>) {
    forall n :: 0 <= n < |trace| ==> Run(INITIAL, trace[..n]).Some? ==> RipeRedelivery(Run(INITIAL, trace[..n]).value, trace[n])
  }

  lemma {:induction false} Reachable(trace: seq<Step>)
    requires Run(INITIAL, trace).Some? && RipeRedeliveries(trace)
    ensures Inv(Run(INITIAL, trace).value)
  {
    if trace != [] {
      var n := |trace| - 1;
      assert forall m :: 0 <= m < n ==> trace[..n][..m] == trace[..m] && trace[..n][m] == trace[m];
      Reachable(trace[..n]);
      Preserves(Run(INITIAL, trace[..n]).value, Run(INITIAL, trace).value, trace[n]);
    }
  }

  // ----- the theorems -----

  lemma GatewaySettles(s: State, s': State, g: GatewayStep)
    requires GatewayNext(s, g) == Some(s')
    ensures Onward(s, s')
  {
    match g
    case IntentInsert(u, v, upload) => assert IntentInsertNext(s, u, v, upload) == Some(s');
    case IntentRotate(rid) => assert IntentRotateNext(s, rid) == Some(s');
    case ConfirmCommit(v) => assert ConfirmCommitNext(s, v) == Some(s');
    case DeleteMark(rid) => assert DeleteMarkNext(s, rid) == Some(s');
    case AccountDelete(rid, u, order) => assert AccountDeleteNext(s, rid, u, order) == Some(s');
    case _ => CalmGateway(s, s', g);
  }

  lemma WorkSettles(s: State, s': State, o: Outcome)
    requires WorkNext(s, o) == Some(s')
    ensures Onward(s, s')
  {
    if Trying(s.worker) {
      TryingKeeps(s, s', o);
    } else if WindingDown(s.worker) {
      WindingDownKeeps(s, s', o);
    } else if Ticking(s.worker) || s.worker.Deleting? {
      TickingKeeps(s, s', o);
    } else {
      assert s'.log == s.log && s'.now == s.now;
    }
  }

  /** A task that ran once may be delivered again at any later time: it stays ripe, whatever happens. */
  lemma {:induction false} RipeStays(s: State, trace: seq<Step>, t: Task)
    requires Ripe(s, t) && Run(s, trace).Some?
    ensures Ripe(Run(s, trace).value, t)
  {
    if trace != [] {
      var n := |trace| - 1;
      RipeStays(s, trace[..n], t);
      RipeStep(Run(s, trace[..n]).value, Run(s, trace).value, trace[n], t);
    }
  }

  lemma RipeStep(s: State, s': State, step: Step, t: Task)
    requires Ripe(s, t) && Next(s, step) == Some(s')
    ensures Ripe(s', t)
  {
    match step {
      case Gateway(g) => GatewaySettles(s, s', g);
      case Queue(_) =>
      case Work(o) => WorkSettles(s, s', o);
    }
    if t.CleanupVideo? {
      TimelyStays(s, s', t.tombstone, t.seen, s.now, s'.now);
    }
  }

  /** A row leaves the table only with its owner's account, or as a tombstone first written at
      least a grace period ago. */
  lemma HardDeleteAfterGrace(trace: seq<Step>, step: Step, v: VideoId)
    requires Run(INITIAL, trace).Some? && RipeRedeliveries(trace)
    requires
      var s := Run(INITIAL, trace).value;
      v in s.db.rows && Next(s, step).Some? && v !in Next(s, step).value.db.rows
    ensures
      var s := Run(INITIAL, trace).value;
      || (step.Gateway? && step.g.AccountDelete? && step.g.u == s.db.rows[v].owner)
      || (s.db.rows[v].status == Deleted && v in s.log.tombstoned && s.log.tombstoned[v] + GRACE <= s.now)
  {
    var s := Run(INITIAL, trace).value;
    Statuses.Reachable(trace);
    Reachable(trace);
    match step
    case Gateway(g) => GatewayRemoves(s, Next(s, step).value, g, v);
    case Queue(_) =>
    case Work(o) => WorkRemoves(s, Next(s, step).value, o, v);
  }

  lemma GatewayRemoves(s: State, s': State, g: GatewayStep, v: VideoId)
    requires GatewayNext(s, g) == Some(s') && v in s.db.rows
    ensures v in s'.db.rows || (g.AccountDelete? && g.u == s.db.rows[v].owner)
  {
    match g
    case IntentInsert(u, w, upload) => assert IntentInsertNext(s, u, w, upload) == Some(s');
    case IntentRotate(rid) => assert IntentRotateNext(s, rid) == Some(s');
    case ConfirmCommit(w) => assert ConfirmCommitNext(s, w) == Some(s');
    case DeleteMark(rid) => assert DeleteMarkNext(s, rid) == Some(s');
    case AccountDelete(rid, u, order) => assert AccountDeleteNext(s, rid, u, order) == Some(s');
    case _ => CalmGateway(s, s', g);
  }

  lemma WorkRemoves(s: State, s': State, o: Outcome, v: VideoId)
    requires Statuses.Inv(s) && Inv(s) && WorkNext(s, o) == Some(s') && v in s.db.rows
    ensures v in s'.db.rows
      || (s.db.rows[v].status == Deleted && v in s.log.tombstoned && s.log.tombstoned[v] + GRACE <= s.now)
  {
    match s.worker
    case Increment(w) => assert IncrementNext(s, w, o) == Some(s');
    case Publish(a) => assert PublishNext(s, a, o) == Some(s');
    case GiveUp(w, key) => assert GiveUpNext(s, w, key, o) == Some(s');
    case PurgeRow(w, seen, row) => assert Purging(s, w, seen, row) && Statuses.PurgeInv(s, w, row);
    case _ => Statuses.ReadsOnly(s, s', o);
  }

  /** How often a cleanup:video task has been re-enqueued is less than how often its video was
      tombstoned: every re-enqueue is paid for by a refresh of `deleted_at`. */
  lemma ReenqueuesPaidByRefreshes(trace: seq<Step>, v: VideoId, seen: Stamp)
    requires Run(INITIAL, trace).Some? && RipeRedeliveries(trace)
    requires
      var s := Run(INITIAL, trace).value;
      || (exists i :: 0 <= i < |s.queues.pending| && s.queues.pending[i].task == CleanupVideo(v, seen))
      || (exists i :: 0 <= i < |s.queues.scheduled| && s.queues.scheduled[i].task == CleanupVideo(v, seen))
      || s.worker == LoadTombstone(v, seen)
    ensures seen.hops <= Marks(Run(INITIAL, trace).value, v) - 1
  {
    var s := Run(INITIAL, trace).value;
    Reachable(trace);
    if i :| 0 <= i < |s.queues.pending| && s.queues.pending[i].task == CleanupVideo(v, seen) {
      assert EntryOk(s, s.queues.pending[i]);
    } else if i :| 0 <= i < |s.queues.scheduled| && s.queues.scheduled[i].task == CleanupVideo(v, seen) {
      assert EntryOk(s, s.queues.scheduled[i]);
    }
  }

  /** The task finds its video in grace exactly when a later delete has refreshed the tombstone
      and less than a grace period has passed since. */
  lemma PostponedIffRefreshed(trace: seq<Step>, v: VideoId, seen: Stamp)
    requires Run(INITIAL, trace).Some? && RipeRedeliveries(trace)
    requires
      var s := Run(INITIAL, trace).value;
      s.worker == LoadTombstone(v, seen) && v in s.db.rows && s.db.rows[v].status == Deleted
    ensures
      var s := Run(INITIAL, trace).value;
      && s.db.rows[v].deletedAt.Some?
      && (LoadTombstoneNext(s, v, seen, Ok).value.worker.Postpone?
          <==> seen.mark < Marks(s, v) && s.now < s.db.rows[v].deletedAt.value + GRACE)
  {
    Statuses.Reachable(trace);
    Reachable(trace);
    assert Statuses.RowInv(Run(INITIAL, trace).value, v);
  }

  /** The re-enqueued task is due at the end of the grace period, later only by the time the
      handler itself took; the new task has been re-enqueued once more. */
  lemma DueAtGraceEnd(s: State, s1: State, s2: State, s3: State, v: VideoId, seen: Stamp)
    requires Dated(s, v) && LoadTombstoneNext(s, v, seen, Ok) == Some(s1) && s1.worker.Postpone?
    requires s2.worker == s1.worker && s2.now >= s1.now
    requires PostponeNext(s2, v, s2.worker.seen, s2.worker.remaining, Ok) == Some(s3)
    ensures
      var e := s3.queues.scheduled[|s2.queues.scheduled|];
      && s3.queues.scheduled == s2.queues.scheduled + [e]
      && e.task == CleanupVideo(v, Stamp(Marks(s, v), seen.hops + 1))
      && e.due == s.db.rows[v].deletedAt.value + GRACE + (s2.now - s.now)
  {
  }

  // ----- crash and redelivery of the purge -----

  /** Everything the purge of a tombstone removes from the object store. */
  function Doomed(keys: set<Key>, row: Row): set<Key> {
    set k | k in keys && (k in RawAndThumb(row) || (row.hlsPrefix.Some? && Under(k, row.hlsPrefix.value)))
  }

  predicate PastGrace(s: State, v: VideoId) {
    v in s.db.rows && s.db.rows[v].status == Deleted && s.db.rows[v].deletedAt.Some?
    && s.db.rows[v].deletedAt.value + GRACE <= s.now && v !in s.gate.confirms
  }

  /** The handler's four calls, all successful, in their order. */
  lemma PurgeRuns(s: State, v: VideoId, seen: Stamp) returns (s1: State, s2: State, s3: State, s4: State)
    requires s.worker == LoadTombstone(v, seen) && PastGrace(s, v)
    ensures WorkNext(s, Ok) == Some(s1) && WorkNext(s1, Ok) == Some(s2)
    ensures WorkNext(s2, Ok) == Some(s3) && WorkNext(s3, Ok) == Some(s4)
    ensures s1.worker.PurgePrefix? && s2.worker.PurgeKeys? && s3.worker.PurgeRow? && s4.worker == Idle
    ensures s1.db == s.db && s2.db == s.db && s3.db == s.db && s4.db == s.db.(rows := s.db.rows - {v})
    ensures s1.store == s.store && s2.store.keys == s.store.keys - PrefixKeys(s, s.db.rows[v])
    ensures s3.store == s4.store && s4.store.keys == s.store.keys - Doomed(s.store.keys, s.db.rows[v])
  {
    s1 := WorkNext(s, Ok).value;
    s2 := WorkNext(s1, Ok).value;
    s3 := WorkNext(s2, Ok).value;
    s4 := WorkNext(s3, Ok).value;
    assert s4.store.keys == s.store.keys - Doomed(s.store.keys, s.db.rows[v]);
  }

  /** What a crash may leave behind: a subset of the doomed objects is gone, the row is still there;
      or everything is done. */
  predicate Crashed(s: State, c: State, v: VideoId)
    requires v in s.db.rows
  {
    || (c.db == s.db && s.store.keys - Doomed(s.store.keys, s.db.rows[v]) <= c.store.keys <= s.store.keys)
    || (c.db == s.db.(rows := s.db.rows - {v}) && c.store.keys == s.store.keys - Doomed(s.store.keys, s.db.rows[v]))
  }

  /** A crash inside any of the handler's calls is such a state: a call that deletes objects may
      have deleted some of them. */
  lemma CrashPoints(s: State, v: VideoId, seen: Stamp, at: State, gone: set<Key>)
    requires s.worker == LoadTombstone(v, seen) && PastGrace(s, v)
    requires
      var s1 := WorkNext(s, Ok).value;
      var s2 := WorkNext(s1, Ok).value;
      var s3 := WorkNext(s2, Ok).value;
      || at == s || (at == Keep(s1, s1.store.keys - gone) && gone <= PrefixKeys(s1, s.db.rows[v]))
      || (at == Keep(s2, s2.store.keys - gone) && gone <= KeySet(RawAndThumb(s.db.rows[v])))
      || at == s3 || at == WorkNext(s3, Ok).value
    ensures Crashed(s, Goto(at, Idle), v)
  {
    var s1, s2, s3, s4 := PurgeRuns(s, v, seen);
  }

  /** The theorem: after a crash anywhere the redelivered task ends in the same rows and objects
      as the undisturbed run. */
  lemma CrashedPurgeIsCompleted(s: State, c: State, v: VideoId, seen: Stamp)
    requires s.worker == LoadTombstone(v, seen) && PastGrace(s, v)
    requires c.worker == LoadTombstone(v, seen) && Crashed(s, c, v) && c.now >= s.now && c.gate == s.gate
    ensures exists n :: 1 <= n <= 4 && Completes(c, n, s.db.(rows := s.db.rows - {v}), s.store.keys - Doomed(s.store.keys, s.db.rows[v]))
  {
    var db, keys := s.db.(rows := s.db.rows - {v}), s.store.keys - Doomed(s.store.keys, s.db.rows[v]);
    if c.db == s.db {
      var s1, s2, s3, s4 := PurgeRuns(c, v, seen);
      assert Completes(c, 4, db, keys) by {
        assert Oks(c, 4) == Some(s4) by {
          assert Oks(c, 1) == Some(s1);
          assert Oks(c, 2) == Some(s2);
          assert Oks(c, 3) == Some(s3);
        }
        assert s4.store.keys == keys;
      }
    } else {
      assert Oks(c, 1) == Some(Goto(c, Idle));
      assert Completes(c, 1, db, keys);
    }
  }

  /** The worker after `n` successful calls. */
  function Oks(s: State, n: nat): Option<State> {
    if n == 0 then Some(s)
    else
      var before := Oks(s, n - 1);
      if before.None? then None else WorkNext(before.value, Ok)
  }

  predicate Completes(c: State, n: nat, db: Database, keys: set<Key>) {
    Oks(c, n).Some? && Oks(c, n).value.worker == Idle && Oks(c, n).value.db == db && Oks(c, n).value.store.keys == keys
  }

  /** Why the row goes last: had it gone first, a crash would leave objects that the redelivered
      task, finding no row, never deletes. */
  lemma RowFirstWouldForget(s: State, c: State, v: VideoId, seen: Stamp, k: Key)
    requires s.worker == LoadTombstone(v, seen) && PastGrace(s, v) && k in Doomed(s.store.keys, s.db.rows[v])
    requires c.worker == LoadTombstone(v, seen) && c.db == s.db.(rows := s.db.rows - {v}) && c.store == s.store
    ensures Oks(c, 1).Some? && Oks(c, 1).value.worker == Idle && k in Oks(c, 1).value.store.keys
  {
    assert Oks(c, 1) == WorkNext(c, Ok);
  }
}
