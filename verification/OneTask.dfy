/** From the confirm's commit on, a PROCESSING video has exactly one live transcode task: when
    its own handler's database calls, workdir and retry enqueue succeed, and its task is not
    dequeued before the commit. What happens to other videos does not matter. */
module OneTask {
  import opened Model
  import opened Statements
  import opened Lifecycle
  import opened Lanes
  import opened Handlers
  import opened Frames
  import opened Uniqueness
  import Statuses

  /** The worker takes the transcode task of `v` before its confirm has committed. */
  predicate Early(s: State, step: Step, v: VideoId) {
    step == Queue(Dequeue) && s.queues.pending != [] && s.queues.pending[0].task == Transcode(v) && QueuedConfirm(s, v)
  }

  /** The worker's failures after which the handler drops its task. */
  predicate Drops(w: Worker, o: Outcome) {
    || (o.Err? && (w.Load? || w.Increment? || w.Prepare? || w.GiveUp?))
    || (o.NotEnqueued? && w.Retry?)
  }

  /** No fault that costs `v` its task. */
  predicate Tame(s: State, step: Step, v: VideoId) {
    && !Duplicates(step, v)
    && !Early(s, step, v)
    && (step.Work? && Holding(s.worker, v) == 1 ==> !Drops(s.worker, step.o))
  }

  predicate IsProcessing(s: State, v: VideoId) {
    v in s.db.rows && s.db.rows[v].status == Processing
  }

  predicate Inv(s: State, v: VideoId) {
    && (IsProcessing(s, v) ==> Live(s, v) == 1)
    && (QueuedConfirm(s, v) ==> Codes(s.queues.pending, v) == 1)
    && (s.worker == Increment(v) && IsProcessing(s, v) ==> s.db.rows[v].retryCount < MAX_RETRIES)
  }

  /** The tasks of `v` and its row's life stay as they are. */
  lemma Keeps(s: State, s': State, v: VideoId)
    requires Inv(s, v) && Live(s', v) == Live(s, v)
    requires IsProcessing(s', v) ==> IsProcessing(s, v) && s'.db.rows[v].retryCount == s.db.rows[v].retryCount
    requires QueuedConfirm(s', v) ==> QueuedConfirm(s, v) && Codes(s'.queues.pending, v) == Codes(s.queues.pending, v)
    requires s'.worker == Increment(v) && IsProcessing(s', v) ==>
      s.worker == Increment(v) || s.db.rows[v].retryCount < MAX_RETRIES
    ensures Inv(s', v)
  {
  }

  lemma ConfirmEnqueuePreserves(s: State, s': State, v: VideoId)
    requires Statuses.Inv(s) && Uniqueness.Inv(s, v) && Inv(s, v) && GatewayNext(s, ConfirmEnqueue(v)) == Some(s')
    ensures Inv(s', v)
  {
    Append(s.queues.pending, Entry(Transcode(v), s.now), 0, v);
    assert s.db.rows[v].status == PendingUpload && Live(s, v) == 0;
  }

  lemma CommitPreserves(s: State, s': State, v: VideoId)
    requires Statuses.Inv(s) && Uniqueness.Inv(s, v) && Inv(s, v) && ConfirmCommitNext(s, v) == Some(s')
    ensures Inv(s', v)
  {
    assert Codes(s.queues.pending, v) == 1;
  }

  lemma GatewayPreserves(s: State, s': State, g: GatewayStep, v: VideoId)
    requires Statuses.Inv(s) && Uniqueness.Inv(s, v)
    requires Inv(s, v) && GatewayNext(s, g) == Some(s') && g != ConfirmRollback(v)
    ensures Inv(s', v)
  {
    if g == ConfirmEnqueue(v) {
      ConfirmEnqueuePreserves(s, s', v);
    } else if g == ConfirmCommit(v) {
      CommitPreserves(s, s', v);
    } else {
      GatewayLeaves(s, s', g, v);
      GrownCodes(s.queues.pending, s'.queues.pending, v);
      GrownCodes(s.queues.scheduled, s'.queues.scheduled, v);
      OtherGatewaySteps(s, s', g, v);
      Keeps(s, s', v);
    }
  }

  lemma RowsMeanwhile(s: State, s': State, g: GatewayStep, v: VideoId)
    requires Statuses.Inv(s) && GatewayNext(s, g) == Some(s') && g != ConfirmCommit(v) && WritesRows(g)
    ensures s'.worker == s.worker
    ensures IsProcessing(s', v) ==> IsProcessing(s, v) && s'.db.rows[v].retryCount == s.db.rows[v].retryCount
  {
  }

  lemma OtherGatewaySteps(s: State, s': State, g: GatewayStep, v: VideoId)
    requires Statuses.Inv(s) && GatewayNext(s, g) == Some(s') && g != ConfirmEnqueue(v) && g != ConfirmCommit(v)
    ensures s'.worker == s.worker
    ensures QueuedConfirm(s', v) ==> QueuedConfirm(s, v)
    ensures IsProcessing(s', v) ==> IsProcessing(s, v) && s'.db.rows[v].retryCount == s.db.rows[v].retryCount
  {
    LocksGateway(s, s', g);
    if WritesRows(g) {
      RowsMeanwhile(s, s', g, v);
    } else {
      CalmGateway(s, s', g);
    }
  }

  lemma QueuePreserves(s: State, s': State, q: QueueStep, v: VideoId)
    requires Uniqueness.Inv(s, v) && Inv(s, v) && QueueNext(s, q) == Some(s') && Tame(s, Queue(q), v)
    ensures Inv(s', v)
  {
    match q
    case Advance(_) =>
    case Promote(i) =>
      Remove(s.queues.scheduled, i, 0, v);
      Append(s.queues.pending, s.queues.scheduled[i], 0, v);
    case Dequeue => Tail(s.queues.pending, 0, v);
    case Redeliver(t) => Append(s.queues.pending, Entry(t, s.now), 0, v);
  }

  lemma OthersPreserve(s: State, s': State, o: Outcome, v: VideoId)
    requires Inv(s, v) && WorkNext(s, o) == Some(s') && Holding(s.worker, v) == 0
    ensures Inv(s', v)
  {
    OthersLeave(s, s', o, v);
    GrownCodes(s.queues.pending, s'.queues.pending, v);
    GrownCodes(s.queues.scheduled, s'.queues.scheduled, v);
    Keeps(s, s', v);
  }

  lemma LoadPreserves(s: State, s': State, v: VideoId, o: Outcome)
    requires Inv(s, v) && s.worker == Load(v) && LoadNext(s, v, o) == Some(s') && !o.Err?
    ensures Inv(s', v)
  {
  }

  lemma IncrementPreserves(s: State, s': State, v: VideoId, o: Outcome)
    requires Statuses.Inv(s) && Inv(s, v) && s.worker == Increment(v) && IncrementNext(s, v, o) == Some(s') && !o.Err?
    ensures Inv(s', v)
  {
    if v in s.db.rows {
      assert Statuses.RowInv(s, v);
    }
  }

  lemma PublishPreserves(s: State, s': State, a: Attempt, o: Outcome)
    requires Statuses.Inv(s) && Inv(s, a.video) && s.worker == Publish(a) && PublishNext(s, a, o) == Some(s')
    ensures Inv(s', a.video)
  {
    if a.video in s.db.rows {
      assert Statuses.RowInv(s, a.video);
    }
  }

  lemma GiveUpPreserves(s: State, s': State, v: VideoId, key: Key, o: Outcome)
    requires Statuses.Inv(s) && Inv(s, v) && s.worker == GiveUp(v, key)
    requires GiveUpNext(s, v, key, o) == Some(s') && !o.Err?
    ensures Inv(s', v)
  {
    if v in s.db.rows {
      assert Statuses.RowInv(s, v);
    }
  }

  lemma AttemptPreserves(s: State, s': State, o: Outcome, v: VideoId)
    requires Inv(s, v) && WorkNext(s, o) == Some(s') && !Drops(s.worker, o) && Holding(s.worker, v) == 1
    requires s.worker.Prepare? || s.worker.Fetch? || s.worker.Upload? || s.worker.Recheck?
    ensures Inv(s', v)
  {
    assert s'.db == s.db && s'.queues == s.queues && s'.gate == s.gate;
    Keeps(s, s', v);
  }

  lemma DropUploadsPreserves(s: State, s': State, a: Attempt, again: bool, o: Outcome)
    requires Statuses.Inv(s) && Inv(s, a.video) && s.worker == DropUploads(a, again)
    requires DropUploadsNext(s, a, again, o) == Some(s')
    ensures Inv(s', a.video)
  {
    if o.Ok? && a.uploaded != [] {
      Append(s.queues.pending, Entry(CleanupObjects(a.uploaded), s.now), 0, a.video);
    }
  }

  lemma RetryPreserves(s: State, s': State, a: Attempt, o: Outcome)
    requires Inv(s, a.video) && s.worker == Retry(a) && RetryNext(s, a, o) == Some(s') && !o.NotEnqueued?
    ensures Inv(s', a.video)
  {
    Append(s.queues.scheduled, Entry(Transcode(a.video), s.now + RetryDelay(a.retry)), 0, a.video);
    Keeps(s, s', a.video);
  }

  lemma OwnPreserves(s: State, s': State, o: Outcome, v: VideoId)
    requires Statuses.Inv(s) && Inv(s, v) && Holding(s.worker, v) == 1
    requires WorkNext(s, o) == Some(s') && !Drops(s.worker, o)
    ensures Inv(s', v)
  {
    match s.worker
    case Load(_) => LoadPreserves(s, s', v, o);
    case Increment(_) => IncrementPreserves(s, s', v, o);
    case Publish(a) => PublishPreserves(s, s', a, o);
    case GiveUp(_, key) => GiveUpPreserves(s, s', v, key, o);
    case DropUploads(a, again) => DropUploadsPreserves(s, s', a, again, o);
    case Retry(a) => RetryPreserves(s, s', a, o);
    case _ => AttemptPreserves(s, s', o, v);
  }

  lemma Preserves(s: State, s': State, step: Step, v: VideoId)
    requires Statuses.Inv(s) && Uniqueness.Inv(s, v) && Inv(s, v)
    requires Next(s, step) == Some(s') && Tame(s, step, v)
    ensures Inv(s', v)
  {
    match step
    case Gateway(g) => GatewayPreserves(s, s', g, v);
    case Queue(q) => QueuePreserves(s, s', q, v);
    case Work(o) =>
      if Holding(s.worker, v) == 0 {
        OthersPreserve(s, s', o, v);
      } else {
        OwnPreserves(s, s', o, v);
      }
  }

  predicate AllTame(trace: seq<Step>, v: VideoId) {
    forall n :: 0 <= n < |trace| ==> Run(INITIAL, trace[..n]).Some? ==> Tame(Run(INITIAL, trace[..n]).value, trace[n], v)
  }

  lemma {:induction false} ExactlyOneTask(trace: seq<Step>, v: VideoId)
    requires Run(INITIAL, trace).Some? && AllTame(trace, v)
    ensures
      var s := Run(INITIAL, trace).value;
      && Uniqueness.Inv(s, v) && Inv(s, v)
      && (v in s.db.rows && s.db.rows[v].status == Processing ==> Live(s, v) == 1)
  {
    if trace != [] {
      var n := |trace| - 1;
      var s, s' := Run(INITIAL, trace[..n]).value, Run(INITIAL, trace).value;
      assert forall m :: 0 <= m < n ==> trace[..n][..m] == trace[..m] && trace[..n][m] == trace[m];
      ExactlyOneTask(trace[..n], v);
      Statuses.Reachable(trace[..n]);
      Uniqueness.Preserves(s, s', trace[n], v);
      Preserves(s, s', trace[n], v);
    }
  }
}
