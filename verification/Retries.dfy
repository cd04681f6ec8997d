/** The retry budget: at most three attempts per video begin work and their back-off adds up
    to at most 90 seconds, in every run, redelivered tasks and deletes included. */
module Retries {
  import opened Model
  import opened Statements
  import opened Lifecycle
  import Frames
  import Statuses

  /** Seconds of back-off that `n` finished attempts may have scheduled: 30, then 60 more;
      the last attempt schedules nothing. */
  function Budget(n: nat): nat {
    if n == 0 then 0 else if n == 1 then 30 else 90
  }

  /** The attempt the worker is running, from the increment to its last decision. */
  function Running(w: Worker): Option<Attempt> {
    match w
    case Prepare(a) => Some(a)
    case Fetch(a) => Some(a)
    case Upload(a) => Some(a)
    case Recheck(a) => Some(a)
    case Publish(a) => Some(a)
    case DropUploads(a, _) => Some(a)
    case Retry(a) => Some(a)
    case _ => None
  }

  predicate Attempting(s: State, v: VideoId) {
    Running(s.worker).Some? && Running(s.worker).value.video == v
  }

  predicate Inv(s: State, v: VideoId) {
    var n := Count(s.log.started, v);
    && n <= MAX_RETRIES
    && (v in s.db.rows ==> s.db.rows[v].retryCount == n)
    && (v !in s.db.used ==> n == 0 && Count(s.log.backoff, v) == 0)
    && (if Attempting(s, v)
        then Running(s.worker).value.retry == n && n > 0 && Count(s.log.backoff, v) <= Budget(n - 1)
        else Count(s.log.backoff, v) <= Budget(n))
  }

  /** Neither the attempt counter nor the histories move. */
  lemma Keeps(s: State, s': State, v: VideoId)
    requires Inv(s, v) && s.db.used <= s'.db.used
    requires Count(s'.log.started, v) == Count(s.log.started, v) && Count(s'.log.backoff, v) == Count(s.log.backoff, v)
    requires v in s'.db.rows ==>
      if v in s.db.rows then s'.db.rows[v].retryCount == s.db.rows[v].retryCount
      else v !in s.db.used && s'.db.rows[v].retryCount == 0
    requires Running(s'.worker) == Running(s.worker)
      || (!Attempting(s', v) && (Attempting(s, v) ==> Running(s.worker).value.retry > 0))
      || (Attempting(s, v) && Attempting(s', v) && Running(s'.worker).value.retry == Running(s.worker).value.retry)
    ensures Inv(s', v)
  {
  }

  lemma InsertPreserves(s: State, s': State, u: UserId, w: VideoId, upload: nat, v: VideoId)
    requires Statuses.Inv(s) && Inv(s, v) && IntentInsertNext(s, u, w, upload) == Some(s')
    ensures Inv(s', v)
  {
    Keeps(s, s', v);
  }

  lemma RotatePreserves(s: State, s': State, rid: nat, v: VideoId)
    requires Inv(s, v) && IntentRotateNext(s, rid) == Some(s')
    ensures Inv(s', v)
  {
    Keeps(s, s', v);
  }

  lemma CommitPreserves(s: State, s': State, w: VideoId, v: VideoId)
    requires Statuses.Inv(s) && Inv(s, v) && ConfirmCommitNext(s, w) == Some(s')
    ensures Inv(s', v)
  {
    assert Statuses.RowInv(s, w);
    Keeps(s, s', v);
  }

  lemma MarkPreserves(s: State, s': State, rid: nat, v: VideoId)
    requires Inv(s, v) && DeleteMarkNext(s, rid) == Some(s')
    ensures Inv(s', v)
  {
    Keeps(s, s', v);
  }

  lemma AccountPreserves(s: State, s': State, rid: nat, u: UserId, order: seq<VideoId>, v: VideoId)
    requires Inv(s, v) && AccountDeleteNext(s, rid, u, order) == Some(s')
    ensures Inv(s', v)
  {
    Keeps(s, s', v);
  }

  lemma GatewayPreserves(s: State, s': State, g: GatewayStep, v: VideoId)
    requires Statuses.Inv(s) && Inv(s, v) && GatewayNext(s, g) == Some(s')
    ensures Inv(s', v)
  {
    match g
    case IntentInsert(u, w, upload) => InsertPreserves(s, s', u, w, upload, v);
    case IntentRotate(rid) => RotatePreserves(s, s', rid, v);
    case ConfirmCommit(w) => CommitPreserves(s, s', w, v);
    case DeleteMark(rid) => MarkPreserves(s, s', rid, v);
    case AccountDelete(rid, u, order) => AccountPreserves(s, s', rid, u, order, v);
    case _ => CalmPreserves(s, s', g, v);
  }

  lemma CalmPreserves(s: State, s': State, g: GatewayStep, v: VideoId)
    requires Inv(s, v) && GatewayNext(s, g) == Some(s') && !Frames.WritesRows(g)
    ensures Inv(s', v)
  {
    Frames.CalmGateway(s, s', g);
    Keeps(s, s', v);
  }

  lemma QueuePreserves(s: State, s': State, q: QueueStep, v: VideoId)
    requires Inv(s, v) && QueueNext(s, q) == Some(s')
    ensures Inv(s', v)
  {
    Keeps(s, s', v);
  }

  lemma IncrementPreserves(s: State, s': State, w: VideoId, o: Outcome, v: VideoId)
    requires Statuses.Inv(s) && Inv(s, v) && s.worker == Increment(w) && IncrementNext(s, w, o) == Some(s')
    ensures Inv(s', v)
  {
    if v in s.db.rows {
      assert Statuses.RowInv(s, v);
    }
  }

  lemma RetryPreserves(s: State, s': State, a: Attempt, o: Outcome, v: VideoId)
    requires Statuses.Inv(s) && Inv(s, v) && s.worker == Retry(a) && RetryNext(s, a, o) == Some(s')
    ensures Inv(s', v)
  {
  }

  /** Within an attempt nothing counts until it is retried. */
  lemma AttemptPreserves(s: State, s': State, o: Outcome, v: VideoId)
    requires Inv(s, v) && WorkNext(s, o) == Some(s')
    requires s.worker.Prepare? || s.worker.Fetch? || s.worker.Upload? || s.worker.Recheck? || s.worker.DropUploads?
    ensures Inv(s', v)
  {
    assert s'.db == s.db;
    Keeps(s, s', v);
  }

  lemma PublishPreserves(s: State, s': State, a: Attempt, o: Outcome, v: VideoId)
    requires Inv(s, v) && s.worker == Publish(a) && PublishNext(s, a, o) == Some(s')
    ensures Inv(s', v)
  {
    Keeps(s, s', v);
  }

  lemma GiveUpPreserves(s: State, s': State, w: VideoId, key: Key, o: Outcome, v: VideoId)
    requires Inv(s, v) && s.worker == GiveUp(w, key) && GiveUpNext(s, w, key, o) == Some(s')
    ensures Inv(s', v)
  {
    Keeps(s, s', v);
  }

  lemma CleaningPreserves(s: State, s': State, o: Outcome, v: VideoId)
    requires Inv(s, v) && WorkNext(s, o) == Some(s') && (Cleaning(s.worker) || Ticking(s.worker))
    ensures Inv(s', v)
  {
    assert s'.log == s.log && Running(s'.worker).None?;
    Keeps(s, s', v);
  }

  lemma OtherPreserves(s: State, s': State, o: Outcome, v: VideoId)
    requires Inv(s, v) && WorkNext(s, o) == Some(s') && (s.worker.Load? || s.worker.DropRaw?)
    ensures Inv(s', v)
  {
    assert s'.db == s.db && s'.log == s.log && Running(s'.worker).None?;
    Keeps(s, s', v);
  }

  lemma WorkPreserves(s: State, s': State, o: Outcome, v: VideoId)
    requires Statuses.Inv(s) && Inv(s, v) && WorkNext(s, o) == Some(s')
    ensures Inv(s', v)
  {
    match s.worker
    case Increment(w) => IncrementPreserves(s, s', w, o, v);
    case Publish(a) => PublishPreserves(s, s', a, o, v);
    case Retry(a) => RetryPreserves(s, s', a, o, v);
    case GiveUp(w, key) => GiveUpPreserves(s, s', w, key, o, v);
    case Load(_) => OtherPreserves(s, s', o, v);
    case DropRaw(_) => OtherPreserves(s, s', o, v);
    case _ =>
      if Cleaning(s.worker) || Ticking(s.worker) {
        CleaningPreserves(s, s', o, v);
      } else {
        AttemptPreserves(s, s', o, v);
      }
  }

  lemma Preserves(s: State, s': State, step: Step, v: VideoId)
    requires Statuses.Inv(s) && Inv(s, v) && Next(s, step) == Some(s')
    ensures Inv(s', v)
  {
    match step
    case Gateway(g) => GatewayPreserves(s, s', g, v);
    case Queue(q) => QueuePreserves(s, s', q, v);
    case Work(o) => WorkPreserves(s, s', o, v);
  }

  /** In every reachable state, faults and redeliveries included. */
  lemma {:induction false} RetriesAreBounded(trace: seq<Step>, v: VideoId)
    requires Run(INITIAL, trace).Some?
    ensures
      var s := Run(INITIAL, trace).value;
      && Inv(s, v)
      && Count(s.log.started, v) <= 3
      && Count(s.log.backoff, v) <= 90
      && (v in s.db.rows ==> s.db.rows[v].retryCount <= 3)
  {
    if trace != [] {
      var n := |trace| - 1;
      RetriesAreBounded(trace[..n], v);
      Statuses.Reachable(trace[..n]);
      Preserves(Run(INITIAL, trace[..n]).value, Run(INITIAL, trace).value, trace[n], v);
    }
  }

  /** What handleTransient does after the n-th attempt, in every run: the task comes back after 30 n
      seconds when n is 1 or 2, and is not scheduled again after the third. */
  lemma RetryIsDelayed(trace: seq<Step>, a: Attempt)
    requires Run(INITIAL, trace).Some? && Run(INITIAL, trace).value.worker == Retry(a)
    ensures
      var s := Run(INITIAL, trace).value;
      var n := Count(s.log.started, a.video);
      && 1 <= n <= 3 && (a.video in s.db.rows ==> s.db.rows[a.video].retryCount == n)
      && Next(s, Work(Ok)).Some? && Decided(s, Next(s, Work(Ok)).value, a, n)
  {
    RetriesAreBounded(trace, a.video);
  }

  predicate Decided(s: State, s': State, a: Attempt, n: nat) {
    if n < 3 then
      && s'.worker == Idle && s'.queues.pending == s.queues.pending
      && s'.queues.scheduled == s.queues.scheduled + [Entry(Transcode(a.video), s.now + 30 * n)]
      && Count(s'.log.backoff, a.video) == Count(s.log.backoff, a.video) + 30 * n
    else
      s'.worker == GiveUp(a.video, a.r2Key) && s'.queues == s.queues && s'.log == s.log
  }
}
