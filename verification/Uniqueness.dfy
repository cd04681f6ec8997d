/** A video never has two transcode tasks at once, and has none before its confirm and after
    READY or FAILED, unless a confirm of it rolls back after its enqueue or the queue redelivers
    its transcode task. */
module Uniqueness {
  import opened Model
  import opened Statements
  import opened Lifecycle
  import opened Lanes
  import opened Handlers
  import Frames
  import Statuses

  /** Transcode tasks of `v`: runnable, delayed or running. */
  function Live(s: State, v: VideoId): nat {
    Codes(s.queues.pending, v) + Codes(s.queues.scheduled, v) + Holding(s.worker, v)
  }

  /** The two faults that put a second transcode task of `v` beside a first. */
  predicate Duplicates(step: Step, v: VideoId) {
    step == Gateway(ConfirmRollback(v)) || step == Queue(Redeliver(Transcode(v)))
  }

  predicate QueuedConfirm(s: State, v: VideoId) {
    v in s.gate.confirms && s.gate.confirms[v] == Queued
  }

  predicate Inv(s: State, v: VideoId) {
    && Live(s, v) <= 1
    && (v !in s.db.used ==> Live(s, v) == 0)
    && (v in s.db.rows ==>
         match s.db.rows[v].status
         case PendingUpload => !QueuedConfirm(s, v) ==> Live(s, v) == 0
         case Ready => Live(s, v) == 0
         case Failed => Live(s, v) == 0
         case _ => true)
  }

  /** The queue and the worker keep `v`'s tasks, and row `v` does not become READY or FAILED
      or a pending row without a confirm. */
  lemma Keeps(s: State, s': State, v: VideoId)
    requires Inv(s, v) && Live(s', v) <= Live(s, v) && s.db.used <= s'.db.used
    requires v in s'.db.rows ==>
      if v in s.db.rows then
        || s'.db.rows[v].status == Processing || s'.db.rows[v].status == Deleted
        || (s'.db.rows[v].status == s.db.rows[v].status && (QueuedConfirm(s, v) ==> QueuedConfirm(s', v)))
      else v !in s.db.used
    ensures Inv(s', v)
  {
  }

  lemma ConfirmEnqueuePreserves(s: State, s': State, v: VideoId)
    requires Statuses.Inv(s) && Inv(s, v) && GatewayNext(s, ConfirmEnqueue(v)) == Some(s')
    ensures Inv(s', v)
  {
    Append(s.queues.pending, Entry(Transcode(v), s.now), 0, v);
  }

  lemma GatewayPreserves(s: State, s': State, g: GatewayStep, v: VideoId)
    requires Statuses.Inv(s) && Inv(s, v) && GatewayNext(s, g) == Some(s') && g != ConfirmRollback(v)
    ensures Inv(s', v)
  {
    if g == ConfirmEnqueue(v) {
      ConfirmEnqueuePreserves(s, s', v);
    } else {
      GatewayKeepsLive(s, s', g, v);
      Statuses.GatewayChange(s, s', g, v);
      if QueuedConfirm(s, v) {
        QueuedUntilCommit(s, s', g, v);
      }
      Keeps(s, s', v);
    }
  }

  lemma GatewayKeepsLive(s: State, s': State, g: GatewayStep, v: VideoId)
    requires GatewayNext(s, g) == Some(s') && g != ConfirmEnqueue(v)
    ensures Live(s', v) == Live(s, v)
  {
    GatewayLeaves(s, s', g, v);
    GrownCodes(s.queues.pending, s'.queues.pending, v);
    GrownCodes(s.queues.scheduled, s'.queues.scheduled, v);
  }

  lemma QueuedUntilCommit(s: State, s': State, g: GatewayStep, v: VideoId)
    requires GatewayNext(s, g) == Some(s') && QueuedConfirm(s, v) && g != ConfirmRollback(v)
    ensures QueuedConfirm(s', v) || (v in s'.db.rows && s'.db.rows[v].status == Processing)
  {
    Frames.LocksGateway(s, s', g);
    if g == ConfirmCommit(v) {
      assert ConfirmCommitNext(s, v) == Some(s');
    }
  }

  lemma QueuePreserves(s: State, s': State, q: QueueStep, v: VideoId)
    requires Inv(s, v) && QueueNext(s, q) == Some(s') && !Duplicates(Queue(q), v)
    ensures Inv(s', v)
  {
    QueueKeepsLive(s, s', q, v);
  }

  lemma QueueKeepsLive(s: State, s': State, q: QueueStep, v: VideoId)
    requires QueueNext(s, q) == Some(s') && !Duplicates(Queue(q), v)
    ensures Live(s', v) == Live(s, v)
  {
    match q
    case Advance(_) =>
    case Promote(i) =>
      Remove(s.queues.scheduled, i, 0, v);
      Append(s.queues.pending, s.queues.scheduled[i], 0, v);
    case Dequeue => Tail(s.queues.pending, 0, v);
    case Redeliver(t) => Append(s.queues.pending, Entry(t, s.now), 0, v);
  }

  lemma OthersKeepLive(s: State, s': State, o: Outcome, v: VideoId)
    requires WorkNext(s, o) == Some(s') && Holding(s.worker, v) == 0
    ensures Live(s', v) == Live(s, v)
  {
    OthersLeave(s, s', o, v);
    GrownCodes(s.queues.pending, s'.queues.pending, v);
    GrownCodes(s.queues.scheduled, s'.queues.scheduled, v);
  }

  lemma OthersPreserve(s: State, s': State, o: Outcome, v: VideoId)
    requires Inv(s, v) && WorkNext(s, o) == Some(s') && Holding(s.worker, v) == 0 && s.db.used <= s'.db.used
    ensures Inv(s', v)
  {
    OthersKeepLive(s, s', o, v);
    OthersLeave(s, s', o, v);
    Keeps(s, s', v);
  }

  lemma TryingPreserves(s: State, s': State, o: Outcome, v: VideoId)
    requires Inv(s, v) && WorkNext(s, o) == Some(s') && Trying(s.worker) && Holding(s.worker, v) == 1
    requires Statuses.Change(s, s', v)
    ensures Inv(s', v)
  {
    assert s'.queues == s.queues;
  }

  /** handleTransient's enqueue replaces the handler. */
  lemma WindingDownPreserves(s: State, s': State, o: Outcome, v: VideoId)
    requires Statuses.Inv(s) && Inv(s, v) && WorkNext(s, o) == Some(s')
    requires WindingDown(s.worker) && Holding(s.worker, v) == 1
    ensures Inv(s', v)
  {
    match s.worker
    case DropUploads(a, again) => DropUploadsPreserves(s, s', a, again, o);
    case Retry(a) => RetryPreserves(s, s', a, o);
    case GiveUp(_, key) => GiveUpPreserves(s, s', v, key, o);
  }

  lemma DropUploadsPreserves(s: State, s': State, a: Attempt, again: bool, o: Outcome)
    requires Inv(s, a.video) && s.worker == DropUploads(a, again) && DropUploadsNext(s, a, again, o) == Some(s')
    ensures Inv(s', a.video)
  {
    if o.Ok? && a.uploaded != [] {
      Append(s.queues.pending, Entry(CleanupObjects(a.uploaded), s.now), 0, a.video);
    }
    Keeps(s, s', a.video);
  }

  lemma RetryPreserves(s: State, s': State, a: Attempt, o: Outcome)
    requires Inv(s, a.video) && s.worker == Retry(a) && RetryNext(s, a, o) == Some(s')
    ensures Inv(s', a.video)
  {
    Append(s.queues.scheduled, Entry(Transcode(a.video), s.now + RetryDelay(a.retry)), 0, a.video);
    Keeps(s, s', a.video);
  }

  lemma GiveUpPreserves(s: State, s': State, v: VideoId, key: Key, o: Outcome)
    requires Statuses.Inv(s) && Inv(s, v) && s.worker == GiveUp(v, key) && GiveUpNext(s, v, key, o) == Some(s')
    ensures Inv(s', v)
  {
  }

  lemma Preserves(s: State, s': State, step: Step, v: VideoId)
    requires Statuses.Inv(s) && Inv(s, v) && Next(s, step) == Some(s') && !Duplicates(step, v)
    ensures Inv(s', v)
  {
    Statuses.StepChange(s, s', step, v);
    match step
    case Gateway(g) => GatewayPreserves(s, s', g, v);
    case Queue(q) => QueuePreserves(s, s', q, v);
    case Work(o) =>
      if Holding(s.worker, v) == 0 {
        OthersPreserve(s, s', o, v);
      } else if Trying(s.worker) {
        TryingPreserves(s, s', o, v);
      } else {
        WindingDownPreserves(s, s', o, v);
      }
  }

  predicate NoDuplicates(trace: seq<Step>, v: VideoId) {
    forall i :: 0 <= i < |trace| ==> !Duplicates(trace[i], v)
  }

  lemma {:induction false} OneTaskPerVideo(trace: seq<Step>, v: VideoId)
    requires Run(INITIAL, trace).Some? && NoDuplicates(trace, v)
    ensures Inv(Run(INITIAL, trace).value, v)
  {
    if trace != [] {
      var n := |trace| - 1;
      OneTaskPerVideo(trace[..n], v);
      Statuses.Reachable(trace[..n]);
      Preserves(Run(INITIAL, trace[..n]).value, Run(INITIAL, trace).value, trace[n], v);
    }
  }
}
