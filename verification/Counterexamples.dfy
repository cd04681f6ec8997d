/** Why `Published` excludes the faults it excludes: one concrete run for each, after which a
    READY video of an active owner misses a variant playlist. */
module Counterexamples {
  import opened Model
  import opened Statements
  import opened Lifecycle
  import Published
  import Uniqueness

  const U: UserId := 1
  const V: VideoId := 1
  const RAW := Raw(U, 7)
  const FILES := Files([INDEX], [INDEX])
  const PLAYLIST := Hls(U, V, SD + "/" + INDEX)
  const UPLOADED := Row(U, RAW, PendingUpload, 0, None, None, None)

  function Confirmed(retries: nat): Row {
    Row(U, RAW, Processing, retries, None, None, None)
  }

  /** A player of the READY video will not find the 480p playlist. */
  predicate LostPlaylist(s: State) {
    && V in s.db.rows && s.db.rows[V].status == Ready && s.db.rows[V].owner == U && Active(s, U)
    && V in s.log.published && PLAYLIST in Assets(U, V, s.log.published[V]) && PLAYLIST !in s.store.keys
  }

  datatype Fault = Rollback | RedeliveredTranscode | FailedCleanup | RedeliveredCleanup

  predicate Shows(f: Fault, step: Step) {
    match f
    case Rollback => step.Gateway? && step.g.ConfirmRollback?
    case RedeliveredTranscode => step.Queue? && step.q.Redeliver? && step.q.t.Transcode?
    case FailedCleanup => step.Work? && step.o.Undeleted?
    case RedeliveredCleanup => step.Queue? && step.q.Redeliver? && step.q.t.CleanupObjects?
  }

  /** Every step that `Published.Unsafe` could exclude for some video. */
  predicate Faulty(step: Step) {
    (step.Gateway? && step.g.ConfirmRollback?) || (step.Queue? && step.q.Redeliver?) || (step.Work? && step.o.Undeleted?)
  }

  lemma UnsafeIsFaulty(s: State, step: Step, u: UserId, v: VideoId)
    ensures Published.Unsafe(s, step, u, v) ==> Faulty(step)
  {
  }

  predicate Tolerates(f: Fault, step: Step) {
    Faulty(step) ==> Shows(f, step)
  }

  /** A run whose only faults against the safety of assets are of kind `f`. */
  predicate RunWith(f: Fault, trace: seq<Step>, s: State) {
    Run(INITIAL, trace) == Some(s) && forall i :: 0 <= i < |trace| ==> Tolerates(f, trace[i])
  }

  lemma Go(f: Fault, trace: seq<Step>, s: State, step: Step) returns (trace': seq<Step>, s': State)
    requires RunWith(f, trace, s) && Next(s, step).Some? && Tolerates(f, step)
    ensures Next(s, step) == Some(s') && RunWith(f, trace', s')
  {
    trace', s' := trace + [step], Next(s, step).value;
    assert trace'[..|trace|] == trace;
  }

  predicate Waiting(s: State, row: Row) {
    && s.worker == Idle && U in s.db.users && Active(s, U) && V in s.db.rows && s.db.rows[V] == row
    && V !in s.gate.confirms && RAW in s.store.keys
  }

  lemma Upload(f: Fault) returns (trace: seq<Step>, s: State)
    ensures RunWith(f, trace, s) && Waiting(s, UPLOADED) && s.queues == Queues([], []) && s.now == 0
  {
    trace, s := [], INITIAL;
    trace, s := Go(f, trace, s, Gateway(NewUser(U)));
    trace, s := Go(f, trace, s, Gateway(IntentInsert(U, V, 7)));
    trace, s := Go(f, trace, s, Gateway(ClientPut(RAW)));
  }

  lemma Confirm(f: Fault, trace: seq<Step>, s: State, rolledBack: bool) returns (trace': seq<Step>, s': State)
    requires RunWith(f, trace, s) && Waiting(s, UPLOADED) && (rolledBack ==> f == Rollback)
    ensures RunWith(f, trace', s') && Waiting(s', if rolledBack then UPLOADED else Confirmed(0))
    ensures s'.queues == s.queues.(pending := s.queues.pending + [Entry(Transcode(V), s.now)]) && s'.now == s.now
  {
    trace', s' := EnqueueTask(f, trace, s);
    if rolledBack {
      trace', s' := Go(f, trace', s', Gateway(ConfirmRollback(V)));
    } else {
      trace', s' := Go(f, trace', s', Gateway(ConfirmCommit(V)));
    }
  }

  /** The transaction up to its commit. */
  lemma EnqueueTask(f: Fault, trace: seq<Step>, s: State) returns (trace': seq<Step>, s': State)
    requires RunWith(f, trace, s) && Waiting(s, UPLOADED)
    ensures RunWith(f, trace', s') && s' == Lock(Push(s, Transcode(V)), V, Queued)
  {
    trace', s' := Go(f, trace, s, Gateway(ConfirmCheck(U, V)));
    trace', s' := Go(f, trace', s', Gateway(ConfirmEnqueue(V)));
  }

  predicate Head(s: State, t: Task, rest: seq<Entry>) {
    s.queues.pending != [] && s.queues.pending[0].task == t && s.queues.pending[1..] == rest
  }

  /** An attempt begins and has its files encoded. */
  lemma Begin(f: Fault, trace: seq<Step>, s: State, n: nat, rest: seq<Entry>)
    returns (trace': seq<Step>, s': State, a: Attempt)
    requires RunWith(f, trace, s) && Waiting(s, Confirmed(n)) && n < 3 && Head(s, Transcode(V), rest)
    ensures RunWith(f, trace', s') && s'.worker == Lifecycle.Upload(a) && Waiting(s'.(worker := Idle), Confirmed(n + 1))
    ensures a == Attempt(V, U, RAW, n + 1, FILES, Assets(U, V, FILES), [])
    ensures s'.queues == s.queues.(pending := rest) && s'.now == s.now && s'.store == s.store
  {
    trace', s' := Go(f, trace, s, Queue(Dequeue));
    trace', s' := Go(f, trace', s', Work(Ok));
    trace', s' := Go(f, trace', s', Work(Ok));
    trace', s' := Go(f, trace', s', Work(Ok));
    trace', s' := Go(f, trace', s', Work(Encoded(FILES)));
    a := s'.worker.a;
  }

  lemma AssetsListed()
    ensures Assets(U, V, FILES) == [PLAYLIST, Hls(U, V, HD + "/" + INDEX), Thumb(U, V), Hls(U, V, MASTER)]
    ensures PLAYLIST in Assets(U, V, FILES)
    ensures MASTER != SD + "/" + INDEX
  {
    var keys := Assets(U, V, FILES);
    assert keys[0] == PLAYLIST && keys[1] == Hls(U, V, HD + "/" + INDEX) && keys[2] == Thumb(U, V) && keys[3] == Hls(U, V, MASTER);
    assert MASTER[0] == 'm' && (SD + "/" + INDEX)[0] == '4';
  }

  lemma FirstPut(f: Fault, trace: seq<Step>, s: State, rest: seq<Entry>)
    returns (trace': seq<Step>, s': State, a: Attempt)
    requires RunWith(f, trace, s) && Waiting(s, Confirmed(0)) && Head(s, Transcode(V), rest)
    ensures RunWith(f, trace', s') && Waiting(s'.(worker := Idle), Confirmed(1)) && s'.worker == DropUploads(a, true)
    ensures a.video == V && a.retry == 1 && a.uploaded == [PLAYLIST]
    ensures s'.now == s.now && s'.queues == s.queues.(pending := rest)
  {
    AssetsListed();
    trace', s', a := Begin(f, trace, s, 0, rest);
    trace', s' := Go(f, trace', s', Work(Ok));
    a := s'.worker.a;
    trace', s' := Go(f, trace', s', Work(Err));
  }

  /** The first attempt uploads the 480p playlist and fails on the next put. */
  lemma FailingAttempt(f: Fault, trace: seq<Step>, s: State, rest: seq<Entry>) returns (trace': seq<Step>, s': State)
    requires RunWith(f, trace, s) && Waiting(s, Confirmed(0)) && Head(s, Transcode(V), rest)
    ensures RunWith(f, trace', s') && Waiting(s', Confirmed(1))
    ensures s'.now == s.now && s'.queues.pending == rest + [Entry(CleanupObjects([PLAYLIST]), s.now)]
    ensures s'.queues.scheduled == s.queues.scheduled + [Entry(Transcode(V), s.now + 30)]
  {
    var a;
    trace', s', a := FirstPut(f, trace, s, rest);
    trace', s' := DropThenRetry(f, trace', s', a);
  }

  lemma DropThenRetry(f: Fault, trace: seq<Step>, s: State, a: Attempt) returns (trace': seq<Step>, s': State)
    requires RunWith(f, trace, s) && s.worker == DropUploads(a, true)
    requires a.video == V && a.retry == 1 && a.uploaded == [PLAYLIST]
    ensures RunWith(f, trace', s') && s' == s.(worker := Idle, queues := s'.queues, log := s'.log)
    ensures s'.queues.pending == s.queues.pending + [Entry(CleanupObjects([PLAYLIST]), s.now)]
    ensures s'.queues.scheduled == s.queues.scheduled + [Entry(Transcode(V), s.now + 30)]
  {
    trace', s' := Go(f, trace, s, Work(Ok));
    assert s' == Goto(Push(s, CleanupObjects([PLAYLIST])), Retry(a));
    trace', s' := Go(f, trace', s', Work(Ok));
  }

  lemma UploadAll(f: Fault, trace: seq<Step>, s: State, n: nat, rest: seq<Entry>) returns (trace': seq<Step>, s': State)
    requires RunWith(f, trace, s) && Waiting(s, Confirmed(n)) && n < 3 && Head(s, Transcode(V), rest)
    ensures RunWith(f, trace', s') && s'.worker.Recheck? && Waiting(s'.(worker := Idle), Confirmed(n + 1))
    ensures s'.worker.a.video == V && s'.worker.a.owner == U && s'.worker.a.r2Key == RAW && s'.worker.a.files == FILES
    ensures s'.queues == s.queues.(pending := rest) && s'.now == s.now
  {
    var a;
    AssetsListed();
    trace', s', a := Begin(f, trace, s, n, rest);
    trace', s' := TwoPuts(f, trace', s', a);
    trace', s' := TwoPuts(f, trace', s', s'.worker.a);
    trace', s' := Go(f, trace', s', Work(Ok));
  }

  lemma TwoPuts(f: Fault, trace: seq<Step>, s: State, a: Attempt) returns (trace': seq<Step>, s': State)
    requires RunWith(f, trace, s) && s.worker == Lifecycle.Upload(a) && |a.todo| >= 2
    ensures RunWith(f, trace', s') && s' == s.(worker := s'.worker, store := s'.store) && s.store.keys <= s'.store.keys
    ensures s'.worker == Lifecycle.Upload(a.(todo := a.todo[2..], uploaded := a.uploaded + [a.todo[0], a.todo[1]]))
  {
    trace', s' := Go(f, trace, s, Work(Ok));
    trace', s' := Go(f, trace', s', Work(Ok));
    assert a.uploaded + [a.todo[0]] + [a.todo[1]] == a.uploaded + [a.todo[0], a.todo[1]];
  }

  predicate Finished(s: State) {
    && s.worker == Idle && V in s.db.rows && s.db.rows[V].status == Ready && s.db.rows[V].owner == U && Active(s, U)
    && V in s.log.published && s.log.published[V] == FILES
  }

  lemma PublishingAttempt(f: Fault, trace: seq<Step>, s: State, n: nat, rest: seq<Entry>)
    returns (trace': seq<Step>, s': State)
    requires RunWith(f, trace, s) && Waiting(s, Confirmed(n)) && n < 3 && Head(s, Transcode(V), rest)
    ensures RunWith(f, trace', s') && Finished(s')
    ensures s'.queues.pending == rest + [Entry(CleanupObjects([RAW]), s.now)] && s'.now == s.now
    ensures s'.queues.scheduled == s.queues.scheduled
  {
    trace', s' := UploadAll(f, trace, s, n, rest);
    trace', s' := Go(f, trace', s', Work(Ok));
    trace', s' := Go(f, trace', s', Work(Ok));
    trace', s' := Go(f, trace', s', Work(Ok));
  }

  /** The stale cleanup runs after the video was published. */
  lemma StaleCleanup(f: Fault, trace: seq<Step>, s: State, rest: seq<Entry>) returns (trace': seq<Step>, s': State)
    requires RunWith(f, trace, s) && Finished(s) && Head(s, CleanupObjects([PLAYLIST]), rest)
    ensures RunWith(f, trace', s') && LostPlaylist(s')
  {
    AssetsListed();
    trace', s' := Go(f, trace, s, Queue(Dequeue));
    trace', s' := Go(f, trace', s', Work(Ok));
    assert PLAYLIST in [PLAYLIST];
  }

  /** A delayed entry becomes due and runnable. */
  lemma Await(f: Fault, trace: seq<Step>, s: State, rest: seq<Entry>) returns (trace': seq<Step>, s': State)
    requires RunWith(f, trace, s) && s.queues.scheduled != [] && s.queues.scheduled[1..] == rest
    ensures RunWith(f, trace', s')
    ensures s' == s.(now := s'.now, queues := Queues(s.queues.pending + [s.queues.scheduled[0]], rest))
  {
    trace', s' := Go(f, trace, s, Queue(Advance(s.queues.scheduled[0].due)));
    trace', s' := Go(f, trace', s', Queue(Promote(0)));
    assert s.queues.scheduled[..0] + s.queues.scheduled[1..] == rest;
  }

  /** The cleanup of the raw object, in front of everything else. */
  lemma DropRawFirst(f: Fault, trace: seq<Step>, s: State, rest: seq<Entry>) returns (trace': seq<Step>, s': State)
    requires RunWith(f, trace, s) && Finished(s) && Head(s, CleanupObjects([RAW]), rest)
    ensures RunWith(f, trace', s') && Finished(s') && s'.queues == s.queues.(pending := rest)
  {
    trace', s' := Go(f, trace, s, Queue(Dequeue));
    trace', s' := Go(f, trace', s', Work(Ok));
  }

  /** A confirm whose commit fails leaves its task behind; the next confirm enqueues another. The
      second task publishes while the cleanup of the first one's failed attempt is still queued. */
  lemma RollbackRun() returns (trace: seq<Step>, s: State)
    ensures RunWith(Rollback, trace, s) && LostPlaylist(s)
  {
    trace, s := Upload(Rollback);
    trace, s := Confirm(Rollback, trace, s, true);
    trace, s := Confirm(Rollback, trace, s, false);
    trace, s := SecondTaskPublishes(Rollback, trace, s);
  }

  /** A transcode task that is delivered twice does the same. */
  lemma RedeliveredTranscodeRun() returns (trace: seq<Step>, s: State)
    ensures RunWith(RedeliveredTranscode, trace, s) && LostPlaylist(s)
  {
    var f := RedeliveredTranscode;
    trace, s := Upload(f);
    trace, s := Confirm(f, trace, s, false);
    trace, s := Go(f, trace, s, Queue(Redeliver(Transcode(V))));
    trace, s := SecondTaskPublishes(f, trace, s);
  }

  /** Two tasks for one video: the second publishes what the first one's cleanup then deletes. */
  lemma SecondTaskPublishes(f: Fault, trace: seq<Step>, s: State) returns (trace': seq<Step>, s': State)
    requires RunWith(f, trace, s) && Waiting(s, Confirmed(0)) && Head(s, Transcode(V), [Entry(Transcode(V), s.now)])
    ensures RunWith(f, trace', s') && LostPlaylist(s')
  {
    trace', s' := FailingAttempt(f, trace, s, [Entry(Transcode(V), s.now)]);
    var stale := Entry(CleanupObjects([PLAYLIST]), s'.now);
    trace', s' := PublishingAttempt(f, trace', s', 1, [stale]);
    trace', s' := StaleCleanup(f, trace', s', s'.queues.pending[1..]);
  }

  /** Up to the retry: the failed attempt's cleanup is at the head, the retry is delayed. */
  lemma FirstFailure(f: Fault) returns (trace: seq<Step>, s: State)
    ensures RunWith(f, trace, s) && Waiting(s, Confirmed(1))
    ensures Head(s, CleanupObjects([PLAYLIST]), []) && s.queues.scheduled == [Entry(Transcode(V), s.now + 30)]
  {
    trace, s := Upload(f);
    trace, s := Confirm(f, trace, s, false);
    trace, s := FailingAttempt(f, trace, s, []);
  }

  /** A cleanup that fails is retried later, and by then the video may be published. */
  lemma FailedCleanupRun() returns (trace: seq<Step>, s: State)
    ensures RunWith(FailedCleanup, trace, s) && LostPlaylist(s)
  {
    var f := FailedCleanup;
    trace, s := FirstFailure(f);
    trace, s := Go(f, trace, s, Queue(Dequeue));
    trace, s := Go(f, trace, s, Work(Undeleted({}, 60)));
    var stale := Entry(CleanupObjects([PLAYLIST]), s.now + 60);
    trace, s := Await(f, trace, s, [stale]);
    trace, s := PublishingAttempt(f, trace, s, 1, []);
    trace, s := Await(f, trace, s, []);
    trace, s := DropRawFirst(f, trace, s, [stale]);
    trace, s := StaleCleanup(f, trace, s, []);
  }

  /** A cleanup that ran may be delivered again after the video was published. */
  lemma RedeliveredCleanupRun() returns (trace: seq<Step>, s: State)
    ensures RunWith(RedeliveredCleanup, trace, s) && LostPlaylist(s)
  {
    var f := RedeliveredCleanup;
    trace, s := FirstFailure(f);
    trace, s := Go(f, trace, s, Queue(Dequeue));
    trace, s := Go(f, trace, s, Work(Ok));
    assert RAW !in KeySet([PLAYLIST]);
    trace, s := Await(f, trace, s, []);
    trace, s := PublishingAttempt(f, trace, s, 1, []);
    trace, s := Go(f, trace, s, Queue(Redeliver(CleanupObjects([PLAYLIST]))));
    trace, s := DropRawFirst(f, trace, s, s.queues.pending[1..]);
    trace, s := StaleCleanup(f, trace, s, []);
  }

  /** Of the steps that `Published` excludes for the video, the run has only such of kind `f`. */
  predicate UnsafeOnlyBy(f: Fault, trace: seq<Step>) {
    forall n :: 0 <= n < |trace| ==> Run(INITIAL, trace[..n]).Some? ==>
      Published.Unsafe(Run(INITIAL, trace[..n]).value, trace[n], U, V) ==> Shows(f, trace[n])
  }

  lemma FaultRun(f: Fault) returns (trace: seq<Step>, s: State)
    ensures RunWith(f, trace, s) && LostPlaylist(s)
  {
    match f {
      case Rollback => trace, s := RollbackRun();
      case RedeliveredTranscode => trace, s := RedeliveredTranscodeRun();
      case FailedCleanup => trace, s := FailedCleanupRun();
      case RedeliveredCleanup => trace, s := RedeliveredCleanupRun();
    }
  }

  /** For each of the faults there is a run with no other unsafe step that ends with the READY
      video's playlist gone. */
  lemma EachFaultLosesAssets(f: Fault)
    ensures exists trace :: Run(INITIAL, trace).Some? && UnsafeOnlyBy(f, trace) && LostPlaylist(Run(INITIAL, trace).value)
  {
    var trace, s := FaultRun(f);
    forall n | 0 <= n < |trace| && Run(INITIAL, trace[..n]).Some?
      ensures Published.Unsafe(Run(INITIAL, trace[..n]).value, trace[n], U, V) ==> Shows(f, trace[n])
    {
      UnsafeIsFaulty(Run(INITIAL, trace[..n]).value, trace[n], U, V);
      assert Tolerates(f, trace[n]);
    }
    assert Run(INITIAL, trace).Some? && UnsafeOnlyBy(f, trace) && LostPlaylist(Run(INITIAL, trace).value);
  }
}
