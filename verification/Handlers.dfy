/** What a call of the running handler leaves alone: it touches the transcode tasks and the row
    of no video but its own. */
module Handlers {
  import opened Model
  import opened Statements
  import opened Lifecycle
  import opened Lanes
  import opened Frames

  /** The worker's handler counts as the task until it has decided what follows. */
  function Holding(w: Worker, v: VideoId): nat {
    match w
    case Load(x) => if x == v then 1 else 0
    case Increment(x) => if x == v then 1 else 0
    case Prepare(a) => if a.video == v then 1 else 0
    case Fetch(a) => if a.video == v then 1 else 0
    case Upload(a) => if a.video == v then 1 else 0
    case Recheck(a) => if a.video == v then 1 else 0
    case Publish(a) => if a.video == v then 1 else 0
    case DropUploads(a, _) => if a.video == v then 1 else 0
    case Retry(a) => if a.video == v then 1 else 0
    case GiveUp(x, _) => if x == v then 1 else 0
    case _ => 0
  }

  /** No task of `v` is added and its row is kept or removed. */
  predicate Leaves(s: State, s': State, v: VideoId) {
    && Grown(s.queues.pending, s'.queues.pending, v) && Grown(s.queues.scheduled, s'.queues.scheduled, v)
    && s'.now == s.now && s'.gate == s.gate && Holding(s'.worker, v) == 0
    && (v in s'.db.rows ==> v in s.db.rows && s'.db.rows[v] == s.db.rows[v])
  }

  lemma TryingLeaves(s: State, s': State, o: Outcome, v: VideoId)
    requires WorkNext(s, o) == Some(s') && Holding(s.worker, v) == 0 && Trying(s.worker)
    ensures Leaves(s, s', v)
  {
  }

  lemma WindingDownLeaves(s: State, s': State, o: Outcome, v: VideoId)
    requires WorkNext(s, o) == Some(s') && Holding(s.worker, v) == 0 && WindingDown(s.worker)
    ensures Leaves(s, s', v)
  {
  }

  lemma CleaningLeaves(s: State, s': State, o: Outcome, v: VideoId)
    requires WorkNext(s, o) == Some(s') && Cleaning(s.worker)
    ensures Leaves(s, s', v)
  {
  }

  lemma TickingLeaves(s: State, s': State, o: Outcome, v: VideoId)
    requires WorkNext(s, o) == Some(s') && Ticking(s.worker)
    ensures Leaves(s, s', v)
  {
  }

  lemma OthersLeave(s: State, s': State, o: Outcome, v: VideoId)
    requires WorkNext(s, o) == Some(s') && Holding(s.worker, v) == 0
    ensures Leaves(s, s', v)
  {
    if Trying(s.worker) {
      TryingLeaves(s, s', o, v);
    } else if WindingDown(s.worker) {
      WindingDownLeaves(s, s', o, v);
    } else if Cleaning(s.worker) {
      CleaningLeaves(s, s', o, v);
    } else {
      TickingLeaves(s, s', o, v);
    }
  }

  // ----- the gateway -----

  lemma EnqueueGrows(s: State, s': State, g: GatewayStep, v: VideoId)
    requires GatewayNext(s, g) == Some(s') && Enqueues(g) && g != ConfirmEnqueue(v)
    ensures Grown(s.queues.pending, s'.queues.pending, v) && Grown(s.queues.scheduled, s'.queues.scheduled, v)
  {
  }

  /** A confirm of `v` is the gateway's only way to add a transcode task of it. */
  lemma GatewayLeaves(s: State, s': State, g: GatewayStep, v: VideoId)
    requires GatewayNext(s, g) == Some(s') && g != ConfirmEnqueue(v)
    ensures Grown(s.queues.pending, s'.queues.pending, v) && Grown(s.queues.scheduled, s'.queues.scheduled, v)
    ensures s'.worker == s.worker
  {
    if Enqueues(g) {
      EnqueueGrows(s, s', g, v);
      EnqueuesCalm(s, s', g);
    } else {
      assert s'.queues == s.queues;
    }
  }
}
