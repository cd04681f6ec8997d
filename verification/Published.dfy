/** Published assets are safe: as long as no cleanup of its own media fails or is redelivered and
    its transcode task is not duplicated, a READY video of an active owner has every object its
    players need, and nothing queued or running will delete one of them. This although failed
    attempts schedule the deletion of the very keys a later attempt publishes. */
module Published {
  import opened Model
  import opened Statements
  import opened Lifecycle
  import opened Lanes
  import opened Frames
  import opened Handlers
  import Statuses
  import Traces
  import Uniqueness

  // ----- the invariant -----

  /** A key that only an inactive user's cleanup can name. */
  predicate Abandoned(s: State, k: Key) {
    k.Raw? || (k.video in s.db.used && Inactive(s, k.owner))
  }

  /** Cleanups that are decided but not yet enqueued, apart from the running attempt's own. */
  predicate Quiet(s: State) {
    && (forall k :: k in s.store.keys && !k.Raw? ==> k.video in s.db.used)
    && (forall rid :: rid in s.gate.requests ==> QuietRequest(s, s.gate.requests[rid]))
    && QuietTick(s)
  }

  predicate QuietRequest(s: State, r: Request) {
    match r
    case RotateKey(_, _, key) => key.Raw?
    case DropOldKey(_, key) => key.Raw?
    case EnqueueKeys(keys) => forall i :: 0 <= i < |keys| ==> Abandoned(s, keys[i])
    case _ => true
  }

  predicate QuietTick(s: State) {
    match s.worker
    case TickUser(users, _) => forall i :: 0 <= i < |users| ==> Inactive(s, users[i])
    case TickEnqueue(keys, users, _) =>
      && (forall i :: 0 <= i < |users| ==> Inactive(s, users[i]))
      && (forall i :: 0 <= i < |keys| ==> Abandoned(s, keys[i]))
    case _ => true
  }

  predicate Stored(s: State, keys: seq<Key>) {
    forall i :: 0 <= i < |keys| ==> keys[i] in s.store.keys
  }

  predicate AllMedia(keys: seq<Key>, u: UserId, v: VideoId) {
    forall i :: 0 <= i < |keys| ==> MediaOf(keys[i], u, v)
  }

  /** What the running attempt has uploaded: only the worker deletes objects, so it is all there. */
  predicate Shape(s: State) {
    match s.worker
    case Upload(a) => a.uploaded + a.todo == Assets(a.owner, a.video, a.files) && FilesOk(a.files) && Stored(s, a.uploaded)
    case Recheck(a) => a.uploaded == Assets(a.owner, a.video, a.files) && FilesOk(a.files) && Stored(s, a.uploaded)
    case Publish(a) => a.uploaded == Assets(a.owner, a.video, a.files) && FilesOk(a.files) && Stored(s, a.uploaded)
    case DropUploads(a, _) => AllMedia(a.uploaded, a.owner, a.video)
    case _ => true
  }

  predicate DeletingMedia(w: Worker, u: UserId, v: VideoId) {
    w.Deleting? && NamesMedia(w.keys, u, v)
  }

  predicate TryingOn(w: Worker, v: VideoId) {
    Trying(w) && Holding(w, v) == 1
  }

  predicate Unnamed(s: State, u: UserId, v: VideoId) {
    && Cleans(s.queues.pending, u, v) == 0
    && Cleans(s.queues.scheduled, u, v) == 0
    && !DeletingMedia(s.worker, u, v)
  }

  predicate Safe(s: State, u: UserId, v: VideoId) {
    && Unnamed(s, u, v)
    && v in s.log.published && FilesOk(s.log.published[v])
    && Stored(s, Assets(u, v, s.log.published[v]))
  }

  predicate OwnedBy(s: State, u: UserId, v: VideoId) {
    v in s.db.rows && s.db.rows[v].owner == u && Active(s, u)
  }

  predicate Inv(s: State, u: UserId, v: VideoId) {
    && Cleans(s.queues.scheduled, u, v) == 0
    && (v !in s.db.used ==> Unnamed(s, u, v))
    && (OwnedBy(s, u, v) ==>
         && Ordered(s.queues.pending, u, v)
         && (TryingOn(s.worker, v) ==> Cleans(s.queues.pending, u, v) == 0)
         && (s.db.rows[v].status == Ready ==> Safe(s, u, v)))
  }

  /** The faults under which the published assets of `v` can be lost: a second transcode task of
      it, and a cleanup of its media that fails or is delivered again. */
  predicate Unsafe(s: State, step: Step, u: UserId, v: VideoId) {
    || Uniqueness.Duplicates(step, v)
    || (step.Queue? && step.q.Redeliver? && Names(step.q.t, u, v))
    || (step.Work? && step.o.Undeleted? && DeletingMedia(s.worker, u, v))
  }

  // ----- Quiet and Shape -----

  lemma AssetsAreMedia(u: UserId, v: VideoId, f: Files)
    ensures AllMedia(Assets(u, v, f), u, v)
  {
  }

  lemma {:induction false} AccountKeysAbandoned(s: State, s': State, u: UserId, order: seq<VideoId>)
    requires Statuses.Inv(s) && Inactive(s', u) && s.db.used <= s'.db.used
    requires forall v :: v in order ==> v in s.db.rows && s.db.rows[v].owner == u
    ensures forall i :: 0 <= i < |AccountKeys(s.db.rows, order)| ==> Abandoned(s', AccountKeys(s.db.rows, order)[i])
  {
    if order != [] {
      assert Statuses.RowInv(s, order[0]);
      AccountKeysAbandoned(s, s', u, order[1..]);
    }
  }

  /** Inactive users stay inactive and used ids used. */
  predicate Grows(s: State, s': State) {
    s.db.used <= s'.db.used && forall u :: u in s.db.users && Inactive(s, u) ==> Inactive(s', u)
  }

  lemma QuietKeeps(s: State, s': State)
    requires Quiet(s) && Grows(s, s')
    requires forall k :: k in s'.store.keys && !k.Raw? ==> k in s.store.keys || k.video in s'.db.used
    requires forall rid :: rid in s'.gate.requests ==>
      (rid in s.gate.requests && s'.gate.requests[rid] == s.gate.requests[rid]) || QuietRequest(s', s'.gate.requests[rid])
    requires s'.worker == s.worker || QuietTick(s')
    ensures Quiet(s')
  {
    forall rid | rid in s'.gate.requests ensures QuietRequest(s', s'.gate.requests[rid]) {
      if rid in s.gate.requests && s'.gate.requests[rid] == s.gate.requests[rid] {
        assert QuietRequest(s, s.gate.requests[rid]);
      }
    }
  }

  lemma AccountQuiet(s: State, s': State, rid: nat, u: UserId, order: seq<VideoId>)
    requires Statuses.Inv(s) && Quiet(s) && AccountDeleteNext(s, rid, u, order) == Some(s')
    ensures Quiet(s')
  {
    AccountKeysAbandoned(s, s', u, order);
    QuietKeeps(s, s');
  }

  lemma GatewayQuiet(s: State, s': State, g: GatewayStep)
    requires Statuses.Inv(s) && Quiet(s) && GatewayNext(s, g) == Some(s')
    ensures Quiet(s')
  {
    if g.AccountDelete? {
      AccountQuiet(s, s', g.rid, g.u, g.order);
    } else if g.IntentRotate? {
      RotateQuiet(s, s', g.rid);
    } else {
      OtherGatewayQuiet(s, s', g);
    }
  }

  lemma OtherGatewayQuiet(s: State, s': State, g: GatewayStep)
    requires Statuses.Inv(s) && Quiet(s) && GatewayNext(s, g) == Some(s') && !g.AccountDelete? && !g.IntentRotate?
    ensures Quiet(s')
  {
    if g.IntentRead? {
      assert Statuses.RowInv(s, g.v);
    }
    QuietKeeps(s, s');
  }

  lemma RotateQuiet(s: State, s': State, rid: nat)
    requires Quiet(s) && IntentRotateNext(s, rid) == Some(s')
    ensures Quiet(s')
  {
    assert QuietRequest(s, s.gate.requests[rid]);
    QuietKeeps(s, s');
  }

  lemma TickQuiet(s: State, s': State, o: Outcome)
    requires Statuses.Inv(s) && Quiet(s) && WorkNext(s, o) == Some(s') && Ticking(s.worker)
    ensures Quiet(s')
  {
    match s.worker {
      case TickUser(users, dryRun) =>
        assert TickUserNext(s, users, dryRun, o) == Some(s');
        if users != [] && o.Listed? {
          forall i | 0 <= i < |o.keys| ensures Abandoned(s, o.keys[i]) {
            assert o.keys[i] in o.keys && Inactive(s, users[0]);
          }
        }
      case TickList(batch, dryRun) =>
        assert TickListNext(s, batch, dryRun, o) == Some(s');
        if o.Users? {
          forall i | 0 <= i < |o.users| ensures Inactive(s, o.users[i]) {
            assert o.users[i] in o.users;
          }
        }
      case _ =>
    }
    QuietKeeps(s, s');
  }

  lemma UploadQuiet(s: State, s': State, a: Attempt, o: Outcome)
    requires Statuses.Inv(s) && Quiet(s) && Shape(s) && s.worker == Upload(a) && UploadNext(s, a, o) == Some(s')
    ensures Quiet(s')
  {
    AssetsAreMedia(a.owner, a.video, a.files);
    if a.todo != [] {
      assert (a.uploaded + a.todo)[|a.uploaded|] == a.todo[0];
    }
    QuietKeeps(s, s');
  }

  lemma AttemptQuiet(s: State, s': State, o: Outcome)
    requires Statuses.Inv(s) && Quiet(s) && WorkNext(s, o) == Some(s') && Trying(s.worker) && !s.worker.Upload?
    ensures Quiet(s')
  {
    QuietKeeps(s, s');
  }

  lemma WindingDownQuiet(s: State, s': State, o: Outcome)
    requires Statuses.Inv(s) && Quiet(s) && WorkNext(s, o) == Some(s') && WindingDown(s.worker)
    ensures Quiet(s')
  {
    QuietKeeps(s, s');
  }

  lemma CleaningQuiet(s: State, s': State, o: Outcome)
    requires Statuses.Inv(s) && Quiet(s) && WorkNext(s, o) == Some(s') && Cleaning(s.worker)
    ensures Quiet(s')
  {
    QuietKeeps(s, s');
  }

  lemma QuietPreserved(s: State, s': State, step: Step)
    requires Statuses.Inv(s) && Quiet(s) && Shape(s) && Next(s, step) == Some(s')
    ensures Quiet(s')
  {
    match step
    case Gateway(g) => GatewayQuiet(s, s', g);
    case Queue(q) => QuietKeeps(s, s');
    case Work(o) =>
      if s.worker.Upload? {
        UploadQuiet(s, s', s.worker.a, o);
      } else if Trying(s.worker) {
        AttemptQuiet(s, s', o);
      } else if WindingDown(s.worker) {
        WindingDownQuiet(s, s', o);
      } else if Cleaning(s.worker) {
        CleaningQuiet(s, s', o);
      } else {
        TickQuiet(s, s', o);
      }
  }

  lemma UploadShape(s: State, s': State, a: Attempt, o: Outcome)
    requires Shape(s) && s.worker == Upload(a) && UploadNext(s, a, o) == Some(s')
    ensures Shape(s')
  {
    AssetsAreMedia(a.owner, a.video, a.files);
    assert forall i :: 0 <= i < |a.uploaded| ==> a.uploaded[i] == (a.uploaded + a.todo)[i];
    if a.todo == [] {
      assert a.uploaded + a.todo == a.uploaded;
    } else {
      assert (a.uploaded + a.todo)[|a.uploaded|] == a.todo[0];
      assert (a.uploaded + [a.todo[0]]) + a.todo[1..] == a.uploaded + a.todo;
    }
  }

  lemma WorkShape(s: State, s': State, o: Outcome)
    requires Shape(s) && WorkNext(s, o) == Some(s')
    ensures Shape(s')
  {
    match s.worker
    case Upload(a) => UploadShape(s, s', a, o);
    case Fetch(a) =>
      assert FetchNext(s, a, o) == Some(s');
      if o.Encoded? {
        assert [] + Assets(a.owner, a.video, o.files) == Assets(a.owner, a.video, o.files);
      }
    case Recheck(a) => AssetsAreMedia(a.owner, a.video, a.files);
    case Publish(a) => AssetsAreMedia(a.owner, a.video, a.files);
    case _ =>
  }

  lemma ShapePreserved(s: State, s': State, step: Step)
    requires Shape(s) && Next(s, step) == Some(s')
    ensures Shape(s')
  {
    match step
    case Gateway(_) => assert s'.worker == s.worker && s.store.keys <= s'.store.keys;
    case Queue(_) => assert s'.store == s.store;
    case Work(o) => WorkShape(s, s', o);
  }

  // ----- Inv -----

  predicate KeepsMedia(s: State, s': State, u: UserId, v: VideoId) {
    forall k | k in s.store.keys :: MediaOf(k, u, v) ==> k in s'.store.keys
  }

  /** A step that adds no cleanup of the video's media, starts no attempt on it, deletes none
      of its media while it is READY and does not make it READY. */
  lemma Keeps(s: State, s': State, u: UserId, v: VideoId)
    requires Inv(s, u, v) && s.db.used <= s'.db.used
    requires Cleans(s'.queues.pending, u, v) <= Cleans(s.queues.pending, u, v)
    requires Cleans(s'.queues.scheduled, u, v) <= Cleans(s.queues.scheduled, u, v)
    requires Ordered(s.queues.pending, u, v) ==> Ordered(s'.queues.pending, u, v)
    requires TryingOn(s'.worker, v) ==> TryingOn(s.worker, v)
    requires DeletingMedia(s'.worker, u, v) ==> DeletingMedia(s.worker, u, v)
    requires OwnedBy(s', u, v) ==>
      if v in s.db.rows then
        && OwnedBy(s, u, v)
        && (s'.db.rows[v].status == Ready ==>
             s.db.rows[v].status == Ready && s'.log.published == s.log.published && KeepsMedia(s, s', u, v))
      else v !in s.db.used && s'.db.rows[v].status != Ready
    ensures Inv(s', u, v)
  {
    if v !in s.db.used {
      NoCleansOrdered(s'.queues.pending, u, v);
    }
    if OwnedBy(s', u, v) && s'.db.rows[v].status == Ready {
      AssetsAreMedia(u, v, s.log.published[v]);
    }
  }

  lemma PushKeeps(s: State, t: Task, u: UserId, v: VideoId)
    requires !Names(t, u, v)
    ensures
      var s' := Push(s, t);
      && Cleans(s'.queues.pending, u, v) == Cleans(s.queues.pending, u, v)
      && Cleans(s'.queues.scheduled, u, v) == Cleans(s.queues.scheduled, u, v)
      && (Ordered(s.queues.pending, u, v) <==> Ordered(s'.queues.pending, u, v))
  {
    Append(s.queues.pending, Entry(t, s.now), u, v);
  }

  lemma ScheduleKeeps(s: State, t: Task, delay: nat, u: UserId, v: VideoId)
    requires !Names(t, u, v)
    ensures Cleans(Schedule(s, t, delay).queues.scheduled, u, v) == Cleans(s.queues.scheduled, u, v)
  {
    Append(s.queues.scheduled, Entry(t, s.now + delay), u, v);
  }

  lemma EnqueueKeeps(s: State, keys: seq<Key>, ok: bool, u: UserId, v: VideoId)
    requires !(ok && NamesMedia(keys, u, v))
    ensures
      var s' := EnqueueIf(s, keys, ok);
      && Cleans(s'.queues.pending, u, v) == Cleans(s.queues.pending, u, v)
      && Cleans(s'.queues.scheduled, u, v) == Cleans(s.queues.scheduled, u, v)
      && (Ordered(s.queues.pending, u, v) <==> Ordered(s'.queues.pending, u, v))
  {
    if ok && keys != [] {
      PushKeeps(s, CleanupObjects(keys), u, v);
    }
  }

  /** A step that only touches the queues and the gateway. */
  lemma QueuesOnly(s: State, s': State, u: UserId, v: VideoId)
    requires Inv(s, u, v)
    requires s'.db == s.db && s'.worker == s.worker && s'.store == s.store && s'.log == s.log
    requires Cleans(s'.queues.pending, u, v) <= Cleans(s.queues.pending, u, v)
    requires Cleans(s'.queues.scheduled, u, v) <= Cleans(s.queues.scheduled, u, v)
    requires Ordered(s.queues.pending, u, v) ==> Ordered(s'.queues.pending, u, v)
    ensures Inv(s', u, v)
  {
    Keeps(s, s', u, v);
  }

  lemma PushPreserves(s: State, s1: State, t: Task, u: UserId, v: VideoId)
    requires Inv(s, u, v) && s1 == s.(gate := s1.gate) && !Names(t, u, v)
    ensures Inv(Push(s1, t), u, v)
  {
    PushKeeps(s1, t, u, v);
    QueuesOnly(s, Push(s1, t), u, v);
  }

  lemma SchedulePreserves(s: State, s1: State, t: Task, delay: nat, u: UserId, v: VideoId)
    requires Inv(s, u, v) && s1 == s.(gate := s1.gate) && !Names(t, u, v)
    ensures Inv(Schedule(s1, t, delay), u, v)
  {
    ScheduleKeeps(s1, t, delay, u, v);
    QueuesOnly(s, Schedule(s1, t, delay), u, v);
  }

  lemma EnqueuePreserves(s: State, s1: State, keys: seq<Key>, ok: bool, u: UserId, v: VideoId)
    requires Inv(s, u, v) && s1 == s.(gate := s1.gate) && !NamesMedia(keys, u, v)
    ensures Inv(EnqueueIf(s1, keys, ok), u, v)
  {
    EnqueueKeeps(s1, keys, ok, u, v);
    QueuesOnly(s, EnqueueIf(s1, keys, ok), u, v);
  }

  lemma GatePreserves(s: State, s1: State, u: UserId, v: VideoId)
    requires Inv(s, u, v) && s1 == s.(gate := s1.gate)
    ensures Inv(s1, u, v)
  {
  }

  lemma GatewayEnqueuePreserves(s: State, s': State, g: GatewayStep, u: UserId, v: VideoId)
    requires Statuses.Inv(s) && Quiet(s) && Inv(s, u, v) && GatewayNext(s, g) == Some(s')
    requires Enqueues(g) && !g.AccountEnqueue?
    ensures Inv(s', u, v)
  {
    match g {
      case ConfirmEnqueue(w) =>
        PushPreserves(s, s, Transcode(w), u, v);
        GatePreserves(Push(s, Transcode(w)), s', u, v);
      case IntentDrop(rid, ok) =>
        assert QuietRequest(s, s.gate.requests[rid]);
        EnqueuePreserves(s, Close(s, rid), [s.gate.requests[rid].oldKey], ok, u, v);
      case ConfirmReject(_, w, ok) =>
        assert Statuses.RowInv(s, w);
        EnqueuePreserves(s, s, [s.db.rows[w].r2Key], ok, u, v);
      case DeleteEnqueue(rid, ok) =>
        var req := s.gate.requests[rid];
        GatePreserves(s, Close(s, rid), u, v);
        SchedulePreserves(s, Close(s, rid), CleanupVideo(req.video, req.seen), GRACE, u, v);
      case EnqueueTick(batch, dryRun) => PushPreserves(s, s, ReconcileTick(batch, dryRun), u, v);
    }
  }

  lemma GatewayRestPreserves(s: State, s': State, g: GatewayStep, u: UserId, v: VideoId)
    requires Statuses.Inv(s) && Inv(s, u, v) && GatewayNext(s, g) == Some(s') && !Enqueues(g)
    ensures Inv(s', u, v)
  {
    Statuses.GatewayChange(s, s', g, v);
    OnlyTheGateway(s, s', g);
    Keeps(s, s', u, v);
  }

  lemma OnlyTheGateway(s: State, s': State, g: GatewayStep)
    requires GatewayNext(s, g) == Some(s') && !Enqueues(g)
    ensures s'.queues == s.queues && s'.worker == s.worker
    ensures s'.log.published == s.log.published && s.store.keys <= s'.store.keys
    ensures forall u :: u in s.db.users && Inactive(s, u) ==> Inactive(s', u)
  {
  }

  /** A cleanup for an inactive user says nothing about an active user's video. */
  lemma AbandonedEnqueue(s: State, s1: State, s': State, keys: seq<Key>, ok: bool, u: UserId, v: VideoId)
    requires Inv(s, u, v) && (forall i :: 0 <= i < |keys| ==> Abandoned(s, keys[i]))
    requires s1.queues == s.queues && s'.queues == EnqueueIf(s1, keys, ok).queues
    requires s'.db == s.db && s'.store == s.store && s'.log == s.log
    requires Trying(s'.worker) ==> s'.worker == s.worker
    requires s'.worker.Deleting? ==> s'.worker == s.worker
    ensures Inv(s', u, v)
  {
    if NamesMedia(keys, u, v) {
      assert Inactive(s, u) && v in s.db.used;
    } else {
      EnqueueKeeps(s1, keys, ok, u, v);
      Keeps(s, s', u, v);
    }
  }

  lemma AccountEnqueuePreserves(s: State, s': State, rid: nat, ok: bool, u: UserId, v: VideoId)
    requires Quiet(s) && Inv(s, u, v) && GatewayNext(s, AccountEnqueue(rid, ok)) == Some(s')
    ensures Inv(s', u, v)
  {
    assert QuietRequest(s, s.gate.requests[rid]);
    AbandonedEnqueue(s, Close(s, rid), s', s.gate.requests[rid].keys, ok, u, v);
  }

  lemma GatewayPreserves(s: State, s': State, g: GatewayStep, u: UserId, v: VideoId)
    requires Statuses.Inv(s) && Quiet(s) && Inv(s, u, v) && GatewayNext(s, g) == Some(s')
    ensures Inv(s', u, v)
  {
    if g.AccountEnqueue? {
      AccountEnqueuePreserves(s, s', g.rid, g.ok, u, v);
    } else if Enqueues(g) {
      GatewayEnqueuePreserves(s, s', g, u, v);
    } else {
      GatewayRestPreserves(s, s', g, u, v);
    }
  }

  lemma PromotePreserves(s: State, s': State, i: nat, u: UserId, v: VideoId)
    requires Inv(s, u, v) && QueueNext(s, Promote(i)) == Some(s')
    ensures Inv(s', u, v)
  {
    Remove(s.queues.scheduled, i, u, v);
    Append(s.queues.pending, s.queues.scheduled[i], u, v);
    QueuesOnly(s, s', u, v);
  }

  lemma DequeuePreserves(s: State, s': State, u: UserId, v: VideoId)
    requires Inv(s, u, v) && QueueNext(s, Dequeue) == Some(s')
    ensures Inv(s', u, v)
  {
    Tail(s.queues.pending, u, v);
    assert s'.db == s.db && s'.store == s.store && s'.log == s.log;
  }

  lemma QueuePreserves(s: State, s': State, q: QueueStep, u: UserId, v: VideoId)
    requires Inv(s, u, v) && QueueNext(s, q) == Some(s') && !Unsafe(s, Queue(q), u, v)
    ensures Inv(s', u, v)
  {
    match q
    case Advance(_) => QueuesOnly(s, s', u, v);
    case Promote(i) => PromotePreserves(s, s', i, u, v);
    case Dequeue => DequeuePreserves(s, s', u, v);
    case Redeliver(t) => PushPreserves(s, s, t, u, v);
  }

  lemma IncrementPreserves(s: State, s': State, w: VideoId, o: Outcome, u: UserId, v: VideoId)
    requires Statuses.Inv(s) && Inv(s, u, v) && s.worker == Increment(w) && IncrementNext(s, w, o) == Some(s')
    ensures Inv(s', u, v)
  {
    assert s'.queues == s.queues && s'.log.published == s.log.published;
    Keeps(s, s', u, v);
  }

  /** Attempt steps before the decision, other than the row updates. */
  lemma TryingPreserves(s: State, s': State, o: Outcome, u: UserId, v: VideoId)
    requires Inv(s, u, v) && WorkNext(s, o) == Some(s')
    requires Trying(s.worker) && !s.worker.Publish? && !s.worker.Increment?
    ensures Inv(s', u, v)
  {
    assert s'.queues == s.queues && s'.log == s.log && s'.db == s.db;
    Keeps(s, s', u, v);
  }

  lemma PublishPreserves(s: State, s': State, a: Attempt, o: Outcome, u: UserId, v: VideoId)
    requires Statuses.Inv(s) && Shape(s) && Inv(s, u, v)
    requires s.worker == Publish(a) && PublishNext(s, a, o) == Some(s')
    ensures Inv(s', u, v)
  {
    if o.Ok? && MarkVideoReady(s.db.rows, a.video, Prefix(a.owner, a.video), Thumb(a.owner, a.video)).Updated? && a.video == v {
      assert TryingOn(s.worker, v);
      assert s'.store == s.store && s'.queues == s.queues;
      assert OwnedBy(s', u, v) ==> OwnedBy(s, u, v) && a.owner == u;
    } else {
      assert s'.queues == s.queues && s'.store == s.store;
      assert v in s.db.rows && v in s'.db.rows ==> s'.db.rows[v] == s.db.rows[v];
      if OwnedBy(s', u, v) && s'.db.rows[v].status == Ready {
        assert Safe(s, u, v);
      }
    }
  }

  /** cleanupOnFailure: while the attempt's task is the only one, the new cleanup stands alone. */
  lemma DropOwnUploads(s: State, s': State, a: Attempt, again: bool, u: UserId, v: VideoId)
    requires Statuses.Inv(s) && Shape(s) && Inv(s, u, v) && Uniqueness.Inv(s, v)
    requires s.worker == DropUploads(a, again) && DropUploadsNext(s, a, again, Ok) == Some(s')
    requires NamesMedia(a.uploaded, u, v)
    ensures Inv(s', u, v)
  {
    assert a.owner == u && a.video == v;
    assert Codes(s.queues.pending, v) == 0;
    NoCodesOrdered(s.queues.pending, u, v);
    assert s'.queues == PushCleanup(s, a.uploaded).queues && s'.db == s.db;
    Append(s.queues.pending, Entry(CleanupObjects(a.uploaded), s.now), u, v);
  }

  lemma DropUploadsPreserves(s: State, s': State, a: Attempt, again: bool, o: Outcome, u: UserId, v: VideoId)
    requires Statuses.Inv(s) && Shape(s) && Inv(s, u, v) && Uniqueness.Inv(s, v)
    requires s.worker == DropUploads(a, again) && DropUploadsNext(s, a, again, o) == Some(s')
    ensures Inv(s', u, v)
  {
    if o.Ok? && NamesMedia(a.uploaded, u, v) {
      DropOwnUploads(s, s', a, again, u, v);
    } else {
      EnqueueKeeps(s, a.uploaded, o.Ok?, u, v);
      Keeps(s, s', u, v);
    }
  }

  lemma RetryPreserves(s: State, s': State, a: Attempt, o: Outcome, u: UserId, v: VideoId)
    requires Inv(s, u, v) && s.worker == Retry(a) && RetryNext(s, a, o) == Some(s')
    ensures Inv(s', u, v)
  {
    ScheduleKeeps(s, Transcode(a.video), RetryDelay(a.retry), u, v);
    Keeps(s, s', u, v);
  }

  lemma GiveUpPreserves(s: State, s': State, w: VideoId, key: Key, o: Outcome, u: UserId, v: VideoId)
    requires Statuses.Inv(s) && Inv(s, u, v) && s.worker == GiveUp(w, key) && GiveUpNext(s, w, key, o) == Some(s')
    ensures Inv(s', u, v)
  {
    Keeps(s, s', u, v);
  }

  lemma DropRawPreserves(s: State, s': State, key: Key, o: Outcome, u: UserId, v: VideoId)
    requires Statuses.Inv(s) && Inv(s, u, v) && s.worker == DropRaw(key) && DropRawNext(s, key, o) == Some(s')
    ensures Inv(s', u, v)
  {
    EnqueueKeeps(s, [key], o.Ok?, u, v);
    Keeps(s, s', u, v);
  }

  lemma NoneNamed(keys: seq<Key>, u: UserId, v: VideoId)
    requires !NamesMedia(keys, u, v)
    ensures forall k | k in keys :: !MediaOf(k, u, v)
  {
    forall k | k in keys ensures !MediaOf(k, u, v) {
      var i :| 0 <= i < |keys| && keys[i] == k;
    }
  }

  lemma DeletingPreserves(s: State, s': State, keys: seq<Key>, o: Outcome, u: UserId, v: VideoId)
    requires Inv(s, u, v) && s.worker == Deleting(keys) && DeletingNext(s, keys, o) == Some(s')
    requires o.Undeleted? ==> !DeletingMedia(s.worker, u, v)
    ensures Inv(s', u, v)
  {
    if !NamesMedia(keys, u, v) {
      NoneNamed(keys, u, v);
      if o.Undeleted? {
        ScheduleKeeps(s, CleanupObjects(keys), o.delay, u, v);
      }
      Keeps(s, s', u, v);
    }
  }

  /** The purge of a tombstone: its keys belong to a row that is DELETED or gone. */
  lemma PurgePreserves(s: State, s': State, w: VideoId, seen: Stamp, row: Row, gone: set<Key>, u: UserId, v: VideoId)
    requires Statuses.Inv(s) && Inv(s, u, v) && Statuses.PurgeInv(s, w, row)
    requires s'.db == s.db && s'.log == s.log && s'.queues.pending == s.queues.pending
    requires Cleans(s'.queues.scheduled, u, v) == Cleans(s.queues.scheduled, u, v)
    requires s'.store.keys == s.store.keys - gone
    requires forall k :: k in gone ==> k.Raw? || k.video == w
    requires !Trying(s'.worker) && !s'.worker.Deleting?
    ensures Inv(s', u, v)
  {
    if OwnedBy(s', u, v) && s'.db.rows[v].status == Ready {
      assert v != w;
    }
    Keeps(s, s', u, v);
  }

  lemma LoadTombstonePreserves(s: State, s': State, w: VideoId, seen: Stamp, o: Outcome, u: UserId, v: VideoId)
    requires Inv(s, u, v) && s.worker == LoadTombstone(w, seen) && LoadTombstoneNext(s, w, seen, o) == Some(s')
    ensures Inv(s', u, v)
  {
    Keeps(s, s', u, v);
  }

  lemma PostponePreserves(s: State, s': State, w: VideoId, seen: Stamp, remaining: nat, o: Outcome, u: UserId, v: VideoId)
    requires Inv(s, u, v) && s.worker == Postpone(w, seen, remaining)
    requires PostponeNext(s, w, seen, remaining, o) == Some(s')
    ensures Inv(s', u, v)
  {
    ScheduleKeeps(s, CleanupVideo(w, seen), remaining, u, v);
    Keeps(s, s', u, v);
  }

  lemma CleaningPreserves(s: State, s': State, o: Outcome, u: UserId, v: VideoId)
    requires Statuses.Inv(s) && Inv(s, u, v) && WorkNext(s, o) == Some(s') && Cleaning(s.worker)
    requires o.Undeleted? ==> !DeletingMedia(s.worker, u, v)
    ensures Inv(s', u, v)
  {
    match s.worker
    case Deleting(keys) => DeletingPreserves(s, s', keys, o, u, v);
    case LoadTombstone(w, seen) => LoadTombstonePreserves(s, s', w, seen, o, u, v);
    case Postpone(w, seen, remaining) => PostponePreserves(s, s', w, seen, remaining, o, u, v);
    case PurgePrefix(w, seen, row) => PurgePrefixPreserves(s, s', w, seen, row, o, u, v);
    case PurgeKeys(w, seen, row) => PurgeKeysPreserves(s, s', w, seen, row, o, u, v);
    case PurgeRow(w, seen, row) => PurgeRowPreserves(s, s', w, seen, row, o, u, v);
  }

  lemma PurgePrefixPreserves(s: State, s': State, w: VideoId, seen: Stamp, row: Row, o: Outcome, u: UserId, v: VideoId)
    requires Statuses.Inv(s) && Inv(s, u, v)
    requires s.worker == PurgePrefix(w, seen, row) && PurgePrefixNext(s, w, seen, row, o) == Some(s')
    ensures Inv(s', u, v)
  {
    if o.Fails? {
      ScheduleKeeps(s, CleanupVideo(w, seen), o.delay, u, v);
      PurgePreserves(s, s', w, seen, row, o.gone, u, v);
    } else {
      PurgePreserves(s, s', w, seen, row, PrefixKeys(s, row), u, v);
    }
  }

  lemma PurgeKeysPreserves(s: State, s': State, w: VideoId, seen: Stamp, row: Row, o: Outcome, u: UserId, v: VideoId)
    requires Statuses.Inv(s) && Inv(s, u, v)
    requires s.worker == PurgeKeys(w, seen, row) && PurgeKeysNext(s, w, seen, row, o) == Some(s')
    ensures Inv(s', u, v)
  {
    if o.Fails? {
      ScheduleKeeps(s, CleanupVideo(w, seen), o.delay, u, v);
      PurgePreserves(s, s', w, seen, row, o.gone, u, v);
    } else {
      PurgePreserves(s, s', w, seen, row, KeySet(RawAndThumb(row)), u, v);
    }
  }

  lemma PurgeRowPreserves(s: State, s': State, w: VideoId, seen: Stamp, row: Row, o: Outcome, u: UserId, v: VideoId)
    requires Statuses.Inv(s) && Inv(s, u, v)
    requires s.worker == PurgeRow(w, seen, row) && PurgeRowNext(s, w, seen, row, o) == Some(s')
    ensures Inv(s', u, v)
  {
    if o.Fails? {
      ScheduleKeeps(s, CleanupVideo(w, seen), o.delay, u, v);
    }
    Keeps(s, s', u, v);
  }

  lemma TickListPreserves(s: State, s': State, batch: nat, dryRun: bool, o: Outcome, u: UserId, v: VideoId)
    requires Inv(s, u, v) && s.worker == TickList(batch, dryRun) && TickListNext(s, batch, dryRun, o) == Some(s')
    ensures Inv(s', u, v)
  {
    if o.Fails? {
      ScheduleKeeps(s, ReconcileTick(batch, dryRun), o.delay, u, v);
    }
    Keeps(s, s', u, v);
  }

  lemma TickUserPreserves(s: State, s': State, users: seq<UserId>, dryRun: bool, o: Outcome, u: UserId, v: VideoId)
    requires Inv(s, u, v) && s.worker == TickUser(users, dryRun) && TickUserNext(s, users, dryRun, o) == Some(s')
    ensures Inv(s', u, v)
  {
    Keeps(s, s', u, v);
  }

  lemma TickingPreserves(s: State, s': State, o: Outcome, u: UserId, v: VideoId)
    requires Quiet(s) && Inv(s, u, v) && WorkNext(s, o) == Some(s') && Ticking(s.worker)
    ensures Inv(s', u, v)
  {
    match s.worker
    case TickList(batch, dryRun) => TickListPreserves(s, s', batch, dryRun, o, u, v);
    case TickUser(users, dryRun) => TickUserPreserves(s, s', users, dryRun, o, u, v);
    case TickEnqueue(keys, users, dryRun) =>
      assert TickEnqueueNext(s, keys, users, dryRun, o) == Some(s');
      AbandonedEnqueue(s, s, s', keys, o.Ok?, u, v);
  }

  lemma WorkPreserves(s: State, s': State, o: Outcome, u: UserId, v: VideoId)
    requires Statuses.Inv(s) && Quiet(s) && Shape(s) && Uniqueness.Inv(s, v) && Inv(s, u, v)
    requires WorkNext(s, o) == Some(s') && (o.Undeleted? ==> !DeletingMedia(s.worker, u, v))
    ensures Inv(s', u, v)
  {
    if Cleaning(s.worker) {
      CleaningPreserves(s, s', o, u, v);
    } else if Ticking(s.worker) {
      TickingPreserves(s, s', o, u, v);
    } else {
      match s.worker
      case Increment(w) => IncrementPreserves(s, s', w, o, u, v);
      case Publish(a) => PublishPreserves(s, s', a, o, u, v);
      case DropUploads(a, again) => DropUploadsPreserves(s, s', a, again, o, u, v);
      case Retry(a) => RetryPreserves(s, s', a, o, u, v);
      case GiveUp(w, key) => GiveUpPreserves(s, s', w, key, o, u, v);
      case DropRaw(key) => DropRawPreserves(s, s', key, o, u, v);
      case _ => TryingPreserves(s, s', o, u, v);
    }
  }

  lemma Preserves(s: State, s': State, step: Step, u: UserId, v: VideoId)
    requires Statuses.Inv(s) && Quiet(s) && Shape(s) && Uniqueness.Inv(s, v) && Inv(s, u, v)
    requires Next(s, step) == Some(s') && !Unsafe(s, step, u, v)
    ensures Inv(s', u, v)
  {
    match step
    case Gateway(g) => GatewayPreserves(s, s', g, u, v);
    case Queue(q) => QueuePreserves(s, s', q, u, v);
    case Work(o) => WorkPreserves(s, s', o, u, v);
  }

  predicate NothingUnsafe(trace: seq<Step>, u: UserId, v: VideoId) {
    forall n :: 0 <= n < |trace| ==> Run(INITIAL, trace[..n]).Some? ==> !Unsafe(Run(INITIAL, trace[..n]).value, trace[n], u, v)
  }

  lemma NothingDuplicates(trace: seq<Step>, u: UserId, v: VideoId)
    requires Run(INITIAL, trace).Some? && NothingUnsafe(trace, u, v)
    ensures Uniqueness.NoDuplicates(trace, v)
  {
    forall n | 0 <= n < |trace| ensures !Uniqueness.Duplicates(trace[n], v) {
      Traces.PrefixRuns(INITIAL, trace, n);
    }
  }

  lemma {:induction false} Reachable(trace: seq<Step>, u: UserId, v: VideoId)
    requires Run(INITIAL, trace).Some? && NothingUnsafe(trace, u, v)
    ensures
      var s := Run(INITIAL, trace).value;
      Quiet(s) && Shape(s) && Inv(s, u, v)
  {
    if trace != [] {
      var n := |trace| - 1;
      var s, s' := Run(INITIAL, trace[..n]).value, Run(INITIAL, trace).value;
      assert forall m :: 0 <= m < n ==> trace[..n][..m] == trace[..m] && trace[..n][m] == trace[m];
      Reachable(trace[..n], u, v);
      NothingDuplicates(trace[..n], u, v);
      Statuses.Reachable(trace[..n]);
      Uniqueness.OneTaskPerVideo(trace[..n], v);
      QuietPreserved(s, s', trace[n]);
      ShapePreserved(s, s', trace[n]);
      Preserves(s, s', trace[n], u, v);
    }
  }

  /** The media of `v` that some live cleanup names: runnable, delayed or running. */
  predicate LiveCleanupNames(s: State, u: UserId, v: VideoId) {
    || (exists i :: 0 <= i < |s.queues.pending| && Names(s.queues.pending[i].task, u, v))
    || (exists i :: 0 <= i < |s.queues.scheduled| && Names(s.queues.scheduled[i].task, u, v))
    || DeletingMedia(s.worker, u, v)
  }

  lemma {:induction false} CleansCount(q: seq<Entry>, u: UserId, v: VideoId, i: nat)
    requires i < |q| && Names(q[i].task, u, v)
    ensures Cleans(q, u, v) > 0
  {
    if i < |q| - 1 {
      CleansCount(q[..|q| - 1], u, v, i);
    }
  }

  lemma StoredIsPlayable(s: State, u: UserId, v: VideoId, f: Files)
    requires Stored(s, Assets(u, v, f))
    ensures Playable(s.store.keys, u, v, f)
  {
    AssetsAreTheFiles(u, v, f);
    forall k | k in KeySet(Assets(u, v, f)) ensures k in s.store.keys {
      var i :| 0 <= i < |Assets(u, v, f)| && Assets(u, v, f)[i] == k;
    }
  }

  lemma {:induction false} ReachableShape(trace: seq<Step>)
    requires Run(INITIAL, trace).Some?
    ensures Shape(Run(INITIAL, trace).value)
  {
    if trace != [] {
      var n := |trace| - 1;
      ReachableShape(trace[..n]);
      ShapePreserved(Run(INITIAL, trace[..n]).value, Run(INITIAL, trace).value, trace[n]);
    }
  }

  /** In every run the only media objects ever put are the files of the running attempt. */
  lemma OnlyFilesArePut(trace: seq<Step>, step: Step, k: Key)
    requires Run(INITIAL, trace).Some? && Next(Run(INITIAL, trace).value, step).Some? && !k.Raw?
    requires k !in Run(INITIAL, trace).value.store.keys && k in Next(Run(INITIAL, trace).value, step).value.store.keys
    ensures
      var w := Run(INITIAL, trace).value.worker;
      step.Work? && w.Upload? && FileOf(k, w.a.owner, w.a.video, w.a.files)
  {
    var s := Run(INITIAL, trace).value;
    ReachableShape(trace);
    OnlyUploadsPut(s, Next(s, step).value, step, k);
    var a := s.worker.a;
    AssetsAreTheFiles(a.owner, a.video, a.files);
    assert (a.uploaded + a.todo)[|a.uploaded|] == k;
  }

  lemma OnlyUploadsPut(s: State, s': State, step: Step, k: Key)
    requires Next(s, step) == Some(s') && !k.Raw? && k !in s.store.keys && k in s'.store.keys
    ensures step.Work? && s.worker.Upload? && s.worker.a.todo != [] && s.worker.a.todo[0] == k
  {
  }

  /** The theorem: whatever the interleaving of uploads, failures, retries, deletes, account
      deletions, ticks and lost enqueues. */
  lemma PublishedAssetsAreSafe(trace: seq<Step>, v: VideoId)
    requires Run(INITIAL, trace).Some?
    requires
      var s := Run(INITIAL, trace).value;
      && v in s.db.rows && s.db.rows[v].status == Ready && Active(s, s.db.rows[v].owner)
      && NothingUnsafe(trace, s.db.rows[v].owner, v)
    ensures
      var s := Run(INITIAL, trace).value;
      var u := s.db.rows[v].owner;
      && v in s.log.published && FilesOk(s.log.published[v])
      && Playable(s.store.keys, u, v, s.log.published[v])
      && !LiveCleanupNames(s, u, v)
  {
    var s := Run(INITIAL, trace).value;
    var u := s.db.rows[v].owner;
    Reachable(trace, u, v);
    assert Safe(s, u, v);
    StoredIsPlayable(s, u, v, s.log.published[v]);
    if LiveCleanupNames(s, u, v) {
      if i :| 0 <= i < |s.queues.pending| && Names(s.queues.pending[i].task, u, v) {
        CleansCount(s.queues.pending, u, v, i);
      } else if i :| 0 <= i < |s.queues.scheduled| && Names(s.queues.scheduled[i].task, u, v) {
        CleansCount(s.queues.scheduled, u, v, i);
      }
    }
  }
}
