/** A tombstone never loses its purge unless the purge's own enqueue or load fails; in every weakly
    fair run its row is finally removed; and when the worker removes the row, no object that it
    recorded is left. */
module Purges {
  import opened Model
  import opened Statements
  import opened Lifecycle
  import opened Frames
  import Liveness
  import Reconcile
  import Statuses
  import Tombstones

  // ----- the purge is under way -----

  predicate IsPurge(t: Task, v: VideoId) {
    t.CleanupVideo? && t.tombstone == v
  }

  predicate HasPurge(q: seq<Entry>, v: VideoId) {
    exists i :: 0 <= i < |q| && IsPurge(q[i].task, v)
  }

  /** The running handler deals with the tombstone. */
  predicate Handles(w: Worker, v: VideoId) {
    match w
    case LoadTombstone(x, _) => x == v
    case Postpone(x, _, _) => x == v
    case PurgePrefix(x, _, _) => x == v
    case PurgeKeys(x, _, _) => x == v
    case PurgeRow(x, _, _) => x == v
    case _ => false
  }

  predicate Requests(s: State, rid: nat, v: VideoId) {
    rid in s.gate.requests && s.gate.requests[rid].EnqueuePurge? && s.gate.requests[rid].video == v
  }

  predicate Requested(s: State, v: VideoId) {
    exists rid | rid in s.gate.requests :: Requests(s, rid, v)
  }

  /** A cleanup:video task is runnable, delayed, running or about to be enqueued. */
  predicate UnderWay(s: State, v: VideoId) {
    HasPurge(s.queues.pending, v) || HasPurge(s.queues.scheduled, v) || Handles(s.worker, v) || Requested(s, v)
  }

  predicate IsTombstone(s: State, v: VideoId) {
    v in s.db.rows && s.db.rows[v].status == Deleted
  }

  predicate Inv(s: State, v: VideoId) {
    IsTombstone(s, v) ==> UnderWay(s, v)
  }

  /** The failures that are only logged and cost a tombstone its purge task. */
  predicate Loses(s: State, step: Step, v: VideoId) {
    || (step.Gateway? && step.g.DeleteEnqueue? && !step.g.ok && Requests(s, step.g.rid, v))
    || (step.Work? && step.o.Err? && s.worker.LoadTombstone? && s.worker.video == v)
    || (step.Work? && step.o.NotEnqueued? && s.worker.Postpone? && s.worker.video == v)
  }

  // ----- preservation -----

  lemma PurgeAppended(q: seq<Entry>, q': seq<Entry>, v: VideoId)
    requires Reconcile.Appended(q, q') && HasPurge(q, v)
    ensures HasPurge(q', v)
  {
    var i :| 0 <= i < |q| && IsPurge(q[i].task, v);
    assert q'[i] == q[i];
  }

  /** A request to enqueue stays until it has enqueued. */
  lemma RequestStays(s: State, s': State, g: GatewayStep, rid: nat, v: VideoId)
    requires GatewayNext(s, g) == Some(s') && Requests(s, rid, v)
    ensures Requests(s', rid, v) || (g.DeleteEnqueue? && g.rid == rid)
  {
  }

  lemma EnqueuedPurge(s: State, s': State, rid: nat, v: VideoId)
    requires GatewayNext(s, DeleteEnqueue(rid, true)) == Some(s') && Requests(s, rid, v)
    ensures HasPurge(s'.queues.scheduled, v)
  {
    assert IsPurge(s'.queues.scheduled[|s.queues.scheduled|].task, v);
  }

  lemma GatewayKeepsScheduled(s: State, s': State, g: GatewayStep)
    requires GatewayNext(s, g) == Some(s')
    ensures Reconcile.Appended(s.queues.scheduled, s'.queues.scheduled)
  {
  }

  lemma GatewayKeepsPurge(s: State, s': State, g: GatewayStep, v: VideoId)
    requires UnderWay(s, v) && GatewayNext(s, g) == Some(s') && !Loses(s, Gateway(g), v)
    ensures UnderWay(s', v)
  {
    Reconcile.GatewayAppends(s, s', g);
    GatewayKeepsScheduled(s, s', g);
    if HasPurge(s.queues.pending, v) {
      PurgeAppended(s.queues.pending, s'.queues.pending, v);
    } else if HasPurge(s.queues.scheduled, v) {
      PurgeAppended(s.queues.scheduled, s'.queues.scheduled, v);
    } else if !Handles(s.worker, v) {
      var rid :| rid in s.gate.requests && Requests(s, rid, v);
      RequestStays(s, s', g, rid, v);
      if g.DeleteEnqueue? && g.rid == rid {
        EnqueuedPurge(s, s', rid, v);
      }
    }
  }

  /** A video becomes a tombstone together with the request for its purge. */
  lemma GatewayBuries(s: State, s': State, g: GatewayStep, v: VideoId)
    requires GatewayNext(s, g) == Some(s') && IsTombstone(s', v) && !IsTombstone(s, v)
    ensures UnderWay(s', v)
  {
    if WritesRows(g) {
      assert g.DeleteMark? && Requests(s', g.rid, v);
    } else {
      CalmGateway(s, s', g);
    }
  }

  /** Taking entry `i` out of the queue. */
  lemma PurgeWithout(q: seq<Entry>, i: nat, v: VideoId)
    requires i < |q| && HasPurge(q, v)
    ensures HasPurge(q[..i] + q[i + 1..], v) || IsPurge(q[i].task, v)
  {
    var j :| 0 <= j < |q| && IsPurge(q[j].task, v);
    if j != i {
      assert (q[..i] + q[i + 1..])[if j < i then j else j - 1] == q[j];
    }
  }

  lemma PurgeLast(q: seq<Entry>, e: Entry, v: VideoId)
    requires HasPurge(q, v) || IsPurge(e.task, v)
    ensures HasPurge(q + [e], v)
  {
    if IsPurge(e.task, v) {
      assert (q + [e])[|q|] == e;
    } else {
      PurgeAppended(q, q + [e], v);
    }
  }

  lemma QueueKeepsPurge(s: State, s': State, q: QueueStep, v: VideoId)
    requires UnderWay(s, v) && QueueNext(s, q) == Some(s')
    ensures UnderWay(s', v)
  {
    match q
    case Advance(_) =>
    case Promote(i) =>
      if HasPurge(s.queues.scheduled, v) {
        PurgeWithout(s.queues.scheduled, i, v);
      }
      if HasPurge(s.queues.pending, v) || IsPurge(s.queues.scheduled[i].task, v) {
        PurgeLast(s.queues.pending, s.queues.scheduled[i], v);
      }
    case Dequeue =>
      if HasPurge(s.queues.pending, v) {
        PurgeWithout(s.queues.pending, 0, v);
        assert s.queues.pending[..0] + s.queues.pending[1..] == s'.queues.pending;
      }
    case Redeliver(t) =>
      if HasPurge(s.queues.pending, v) {
        PurgeLast(s.queues.pending, Entry(t, s.now), v);
      }
  }

  /** The worker only appends to the queues. */
  lemma TranscodeAppends(s: State, s': State, o: Outcome)
    requires WorkNext(s, o) == Some(s') && (Trying(s.worker) || WindingDown(s.worker))
    ensures Reconcile.Appended(s.queues.pending, s'.queues.pending)
    ensures Reconcile.Appended(s.queues.scheduled, s'.queues.scheduled)
  {
  }

  lemma OthersAppend(s: State, s': State, o: Outcome)
    requires WorkNext(s, o) == Some(s') && (Cleaning(s.worker) || Ticking(s.worker))
    ensures Reconcile.Appended(s.queues.pending, s'.queues.pending)
    ensures Reconcile.Appended(s.queues.scheduled, s'.queues.scheduled)
  {
  }

  lemma WorkAppends(s: State, s': State, o: Outcome)
    requires WorkNext(s, o) == Some(s')
    ensures Reconcile.Appended(s.queues.pending, s'.queues.pending)
    ensures Reconcile.Appended(s.queues.scheduled, s'.queues.scheduled)
  {
    if Trying(s.worker) || WindingDown(s.worker) {
      TranscodeAppends(s, s', o);
    } else {
      OthersAppend(s, s', o);
    }
  }

  /** The handler of the tombstone ends with the row gone, or its task is put back. */
  lemma HandlerKeepsPurge(s: State, s': State, o: Outcome, v: VideoId)
    requires Handles(s.worker, v) && WorkNext(s, o) == Some(s') && !Loses(s, Work(o), v)
    ensures UnderWay(s', v) || !IsTombstone(s', v) || (IsTombstone(s, v) && s.db.rows[v].deletedAt.None?)
  {
    if s'.worker == Idle && |s'.queues.scheduled| > |s.queues.scheduled| {
      PurgeLast(s.queues.scheduled, s'.queues.scheduled[|s.queues.scheduled|], v);
    }
  }

  lemma WorkKeepsPurge(s: State, s': State, o: Outcome, v: VideoId)
    requires Statuses.Inv(s) && UnderWay(s, v) && WorkNext(s, o) == Some(s') && !Loses(s, Work(o), v)
    ensures UnderWay(s', v) || !IsTombstone(s', v)
  {
    if Handles(s.worker, v) {
      HandlerKeepsPurge(s, s', o, v);
      if v in s.db.rows {
        assert Statuses.RowInv(s, v);
      }
    } else {
      WorkAppends(s, s', o);
      WorkKeepsGate(s, s', o);
      if HasPurge(s.queues.pending, v) {
        PurgeAppended(s.queues.pending, s'.queues.pending, v);
      } else if HasPurge(s.queues.scheduled, v) {
        PurgeAppended(s.queues.scheduled, s'.queues.scheduled, v);
      } else {
        var rid :| rid in s.gate.requests && Requests(s, rid, v);
        assert Requests(s', rid, v);
      }
    }
  }

  lemma WorkKeepsGate(s: State, s': State, o: Outcome)
    requires WorkNext(s, o) == Some(s')
    ensures s'.gate == s.gate
  {
  }

  lemma WorkMarksNothing(s: State, s': State, o: Outcome)
    requires WorkNext(s, o) == Some(s')
    ensures s'.log.marks == s.log.marks
  {
  }

  lemma WorkBuriesNobody(s: State, s': State, o: Outcome, v: VideoId)
    requires Statuses.Inv(s) && Statuses.Inv(s') && WorkNext(s, o) == Some(s') && IsTombstone(s', v)
    ensures IsTombstone(s, v)
  {
    WorkMarksNothing(s, s', o);
    Tombstones.WorkSettles(s, s', o);
    assert Tombstones.Settled(s, s', v) && Statuses.RowInv(s', v) && Statuses.RowInv(s, v);
  }

  lemma Preserves(s: State, s': State, step: Step, v: VideoId)
    requires Statuses.Inv(s) && Statuses.Inv(s') && Inv(s, v) && Next(s, step) == Some(s') && !Loses(s, step, v)
    ensures Inv(s', v)
  {
    if IsTombstone(s', v) {
      match step
      case Gateway(g) =>
        if IsTombstone(s, v) {
          GatewayKeepsPurge(s, s', g, v);
        } else {
          GatewayBuries(s, s', g, v);
        }
      case Queue(q) => QueueKeepsPurge(s, s', q, v);
      case Work(o) =>
        WorkBuriesNobody(s, s', o, v);
        WorkKeepsPurge(s, s', o, v);
    }
  }

  predicate NothingLost(trace: seq<Step>, v: VideoId) {
    forall n :: 0 <= n < |trace| ==> Run(INITIAL, trace[..n]).Some? ==> !Loses(Run(INITIAL, trace[..n]).value, trace[n], v)
  }

  /** The theorem, for every run: unless an enqueue or a load of its purge failed, a tombstone has its
      purge task runnable, delayed, running or about to be enqueued. */
  lemma {:induction false} TombstoneHasItsPurge(trace: seq<Step>, v: VideoId)
    requires Run(INITIAL, trace).Some? && NothingLost(trace, v)
    ensures IsTombstone(Run(INITIAL, trace).value, v) ==> UnderWay(Run(INITIAL, trace).value, v)
  {
    if trace != [] {
      var n := |trace| - 1;
      assert forall m :: 0 <= m < n ==> trace[..n][..m] == trace[..m] && trace[..n][m] == trace[m];
      TombstoneHasItsPurge(trace[..n], v);
      Statuses.Reachable(trace[..n]);
      Statuses.Reachable(trace);
      Preserves(Run(INITIAL, trace[..n]).value, Run(INITIAL, trace).value, trace[n], v);
    }
  }

  // ----- nothing is left -----

  /** Nothing that the purge has dealt with is in the store again. */
  predicate Swept(s: State) {
    match s.worker
    case PurgeKeys(_, _, row) => NoneUnder(s.store, row)
    case PurgeRow(_, _, row) => NoneUnder(s.store, row) && NoThumbnail(s.store, row)
    case _ => true
  }

  lemma GatewayPutsRaw(s: State, s': State, g: GatewayStep)
    requires GatewayNext(s, g) == Some(s')
    ensures s'.worker == s.worker && forall k :: k in s'.store.keys ==> k in s.store.keys || k.Raw?
  {
    Reconcile.GatewayAppends(s, s', g);
  }

  lemma SweptPreserved(s: State, s': State, step: Step)
    requires Swept(s) && Next(s, step) == Some(s')
    ensures Swept(s')
  {
    match step
    case Gateway(g) => GatewayPutsRaw(s, s', g);
    case Queue(_) =>
    case Work(o) => WorkSweeps(s, s', o);
  }

  lemma WorkSweeps(s: State, s': State, o: Outcome)
    requires Swept(s) && WorkNext(s, o) == Some(s')
    ensures Swept(s')
  {
    match s.worker
    case PurgePrefix(v, seen, row) => assert PurgePrefixNext(s, v, seen, row, o) == Some(s');
    case PurgeKeys(v, seen, row) => assert PurgeKeysNext(s, v, seen, row, o) == Some(s');
    case _ =>
  }

  lemma {:induction false} ReachableIsSwept(trace: seq<Step>)
    requires Run(INITIAL, trace).Some?
    ensures Swept(Run(INITIAL, trace).value)
  {
    if trace != [] {
      var n := |trace| - 1;
      ReachableIsSwept(trace[..n]);
      SweptPreserved(Run(INITIAL, trace[..n]).value, Run(INITIAL, trace).value, trace[n]);
    }
  }

  /** The theorem, for every run and every fault: when the worker removes a row, no HLS object under
      its prefix and no thumbnail of it is left. */
  lemma RemovedRowsLeaveNothing(trace: seq<Step>, o: Outcome, v: VideoId)
    requires Run(INITIAL, trace).Some? && v in Run(INITIAL, trace).value.db.rows
    requires
      var s := Run(INITIAL, trace).value;
      WorkNext(s, o).Some? && v !in WorkNext(s, o).value.db.rows
    ensures
      var s := Run(INITIAL, trace).value;
      && s.db.rows[v].status == Deleted
      && NoneUnder(WorkNext(s, o).value.store, s.db.rows[v]) && NoThumbnail(WorkNext(s, o).value.store, s.db.rows[v])
  {
    var s := Run(INITIAL, trace).value;
    Statuses.Reachable(trace);
    ReachableIsSwept(trace);
    OnlyThePurgeRemoves(s, WorkNext(s, o).value, o, v);
  }

  lemma OnlyThePurgeRemoves(s: State, s': State, o: Outcome, v: VideoId)
    requires Statuses.Inv(s) && WorkNext(s, o) == Some(s') && v in s.db.rows && v !in s'.db.rows
    ensures s.worker.PurgeRow? && s.worker.video == v && s'.store == s.store
    ensures s.worker.row.hlsPrefix == s.db.rows[v].hlsPrefix && s.worker.row.thumbnail == s.db.rows[v].thumbnail
    ensures s.db.rows[v].status == Deleted
  {
    if s.worker.PurgeRow? {
      assert PurgeRowNext(s, s.worker.video, s.worker.seen, s.worker.row, o) == Some(s');
      assert Statuses.PurgeInv(s, s.worker.video, s.worker.row);
    } else {
      OthersKeepRows(s, s', o);
    }
  }

  lemma OthersKeepRows(s: State, s': State, o: Outcome)
    requires WorkNext(s, o) == Some(s') && !s.worker.PurgeRow?
    ensures s.db.rows.Keys <= s'.db.rows.Keys
  {
  }

  // ----- infinite runs -----

  /** The purge calls of the tombstone do not fail. */
  predicate Interrupts(s: State, step: Step, v: VideoId) {
    step.Work? && step.o.Fails? && Handles(s.worker, v)
  }

  ghost predicate StepOk(run: nat -> State, steps: nat -> Step, n: nat, v: VideoId) {
    && Next(run(n), steps(n)) == Some(run(n + 1))
    && !Loses(run(n), steps(n), v) && !Interrupts(run(n), steps(n), v)
  }

  ghost predicate SafeRun(run: nat -> State, steps: nat -> Step, v: VideoId) {
    run(0) == INITIAL && forall n: nat :: StepOk(run, steps, n, v)
  }

  ghost predicate QueueDrains(run: nat -> State, steps: nat -> Step, n: nat) {
    exists m: nat :: m >= n && (run(m).worker != Idle || run(m).queues.pending == [] || steps(m) == Queue(Dequeue))
  }

  ghost predicate DuePromoted(run: nat -> State, n: nat, e: Entry) {
    exists m: nat :: m >= n && (e !in run(m).queues.scheduled || e.due > run(m).now)
  }

  predicate Waits(s: State, rid: nat, r: Request) {
    rid in s.gate.requests && s.gate.requests[rid] == r
  }

  ghost predicate RequestServed(run: nat -> State, n: nat, rid: nat, r: Request) {
    exists m: nat :: m >= n && !Waits(run(m), rid, r)
  }

  /** Weak fairness of the worker, the clock, the queue, the scheduler and the gateway. */
  ghost predicate Fair(run: nat -> State, steps: nat -> Step) {
    && (forall n: nat :: Liveness.WorkerMoves(run, steps, n))
    && (forall n: nat :: Liveness.TimePasses(steps, n))
    && (forall n: nat :: QueueDrains(run, steps, n))
    && (forall n: nat, e: Entry :: DuePromoted(run, n, e))
    && (forall n: nat, rid: nat, r: Request :: RequestServed(run, n, rid, r))
  }

  /** The last time up to `m` at which `holds` has held throughout. */
  lemma {:induction false} LastTime(run: nat -> State, holds: State -> bool, n: nat, m: nat) returns (k: nat)
    requires n <= m && holds(run(n))
    ensures n <= k <= m && holds(run(k)) && (k == m || !holds(run(k + 1)))
    decreases m - n
  {
    k := n;
    if n < m && holds(run(n + 1)) {
      k := LastTime(run, holds, n + 1, m);
    }
  }

  lemma {:induction false} RunInv(run: nat -> State, steps: nat -> Step, n: nat, v: VideoId)
    requires SafeRun(run, steps, v)
    ensures Statuses.Inv(run(n)) && Inv(run(n), v)
  {
    if n > 0 {
      RunInv(run, steps, n - 1, v);
      assert StepOk(run, steps, n - 1, v);
      Statuses.Preserves(run(n - 1), run(n), steps(n - 1));
      Preserves(run(n - 1), run(n), steps(n - 1), v);
    }
  }

  lemma ClockStep(s: State, s': State, step: Step)
    requires Next(s, step) == Some(s')
    ensures s.now <= s'.now
  {
    match step
    case Gateway(g) => Tombstones.GatewaySettles(s, s', g);
    case Queue(_) =>
    case Work(o) => Tombstones.WorkSettles(s, s', o);
  }

  lemma {:induction false} ClockGrows(run: nat -> State, steps: nat -> Step, n: nat, m: nat, v: VideoId)
    requires SafeRun(run, steps, v) && n <= m
    ensures run(n).now <= run(m).now
    decreases m - n
  {
    if n < m {
      ClockGrows(run, steps, n, m - 1, v);
      assert StepOk(run, steps, m - 1, v);
      ClockStep(run(m - 1), run(m), steps(m - 1));
    }
  }

  /** Every time comes. */
  lemma {:induction false} TimeComes(run: nat -> State, steps: nat -> Step, n: nat, time: nat, v: VideoId)
    returns (m: nat)
    requires SafeRun(run, steps, v) && Fair(run, steps)
    ensures m >= n && run(m).now >= time
    decreases time - run(n).now
  {
    if run(n).now >= time {
      m := n;
    } else {
      assert Liveness.TimePasses(steps, n);
      var k: nat :| k >= n && steps(k).Queue? && steps(k).q.Advance? && steps(k).q.d > 0;
      ClockGrows(run, steps, n, k, v);
      assert StepOk(run, steps, k, v);
      m := TimeComes(run, steps, k + 1, time, v);
    }
  }

  // ----- from the request to the handler -----

  lemma RequestEnds(run: nat -> State, steps: nat -> Step, n: nat, rid: nat, v: VideoId) returns (m: nat)
    requires SafeRun(run, steps, v) && Fair(run, steps) && Requests(run(n), rid, v)
    ensures m >= n && HasPurge(run(m).queues.scheduled, v)
  {
    var request := run(n).gate.requests[rid];
    var holds := (s: State) => Waits(s, rid, request);
    assert RequestServed(run, n, rid, request);
    var at: nat :| at >= n && !Waits(run(at), rid, request);
    var k := LastTime(run, holds, n, at);
    m := k + 1;
    assert Waits(run(k), rid, request) && !Waits(run(m), rid, request);
    RequestStep(run, steps, k, rid, v);
  }

  lemma RequestStep(run: nat -> State, steps: nat -> Step, k: nat, rid: nat, v: VideoId)
    requires SafeRun(run, steps, v) && Requests(run(k), rid, v) && !Waits(run(k + 1), rid, run(k).gate.requests[rid])
    ensures HasPurge(run(k + 1).queues.scheduled, v)
  {
    assert StepOk(run, steps, k, v);
    RequestLeaves(run(k), run(k + 1), steps(k), rid, v);
  }

  lemma RequestLeaves(s: State, s': State, step: Step, rid: nat, v: VideoId)
    requires Next(s, step) == Some(s') && !Loses(s, step, v) && Requests(s, rid, v)
    requires !Waits(s', rid, s.gate.requests[rid])
    ensures HasPurge(s'.queues.scheduled, v)
  {
    match step
    case Gateway(g) =>
      RequestKept(s, s', g, rid, v);
      EnqueuedPurge(s, s', rid, v);
    case Queue(_) => assert false;
    case Work(o) =>
      WorkKeepsGate(s, s', o);
      assert false;
  }

  lemma RequestKept(s: State, s': State, g: GatewayStep, rid: nat, v: VideoId)
    requires GatewayNext(s, g) == Some(s') && Requests(s, rid, v) && !Loses(s, Gateway(g), v)
    requires !Waits(s', rid, s.gate.requests[rid])
    ensures g == DeleteEnqueue(rid, true)
  {
  }

  lemma OnlyTheTaken(q: seq<Entry>, i: nat, e: Entry)
    requires i < |q| && e in q
    ensures e in q[..i] + q[i + 1..] || q[i] == e
  {
    var j :| 0 <= j < |q| && q[j] == e;
    if j != i {
      assert (q[..i] + q[i + 1..])[if j < i then j else j - 1] == e;
    }
  }

  /** A delayed entry leaves the scheduled set by becoming runnable. */
  lemma EntryLeaves(s: State, s': State, step: Step, e: Entry)
    requires Next(s, step) == Some(s') && e in s.queues.scheduled && e !in s'.queues.scheduled
    ensures e in s'.queues.pending
  {
    match step
    case Gateway(g) =>
      GatewayKeepsScheduled(s, s', g);
      assert false;
    case Queue(q) =>
      if q.Promote? {
        OnlyTheTaken(s.queues.scheduled, q.i, e);
        assert s'.queues.pending[|s.queues.pending|] == s.queues.scheduled[q.i];
      }
    case Work(o) =>
      WorkAppends(s, s', o);
      assert false;
  }

  lemma EntryStep(run: nat -> State, steps: nat -> Step, k: nat, e: Entry, v: VideoId)
    requires SafeRun(run, steps, v) && e in run(k).queues.scheduled
    requires e !in run(k + 1).queues.scheduled && IsPurge(e.task, v)
    ensures HasPurge(run(k + 1).queues.pending, v)
  {
    assert StepOk(run, steps, k, v);
    EntryLeaves(run(k), run(k + 1), steps(k), e);
    var q := run(k + 1).queues.pending;
    var j :| 0 <= j < |q| && q[j] == e;
    assert IsPurge(q[j].task, v);
  }

  /** When the entry is due and has left the scheduled set, at the latest. */
  lemma NotDelayedFor(run: nat -> State, steps: nat -> Step, n: nat, e: Entry, v: VideoId) returns (at: nat)
    requires SafeRun(run, steps, v) && Fair(run, steps)
    ensures at >= n && e !in run(at).queues.scheduled
  {
    var due := TimeComes(run, steps, n, e.due, v);
    assert DuePromoted(run, due, e);
    at :| at >= due && (e !in run(at).queues.scheduled || e.due > run(at).now);
    ClockGrows(run, steps, due, at, v);
  }

  lemma DelayEnds(run: nat -> State, steps: nat -> Step, n: nat, v: VideoId) returns (m: nat)
    requires SafeRun(run, steps, v) && Fair(run, steps) && HasPurge(run(n).queues.scheduled, v)
    ensures m >= n && HasPurge(run(m).queues.pending, v)
  {
    var i :| 0 <= i < |run(n).queues.scheduled| && IsPurge(run(n).queues.scheduled[i].task, v);
    var e := run(n).queues.scheduled[i];
    var at := NotDelayedFor(run, steps, n, e, v);
    var k := LastTime(run, (s: State) => e in s.queues.scheduled, n, at);
    EntryStep(run, steps, k, e, v);
    m := k + 1;
  }

  // ----- from the queue to the worker -----

  /** The entry has its place in the queue while the worker is at one call. */
  predicate Behind(s: State, w: Worker, p: nat, e: Entry) {
    s.worker == w && p < |s.queues.pending| && s.queues.pending[p] == e
  }

  lemma PlaceKept(s: State, s': State, step: Step, p: nat, e: Entry)
    requires Next(s, step) == Some(s') && Behind(s, s.worker, p, e) && step != Queue(Dequeue)
    ensures Behind(s', s'.worker, p, e) && (s'.worker != s.worker ==> step.Work?)
  {
    match step
    case Gateway(g) => Reconcile.GatewayAppends(s, s', g);
    case Queue(_) =>
    case Work(o) => WorkAppends(s, s', o);
  }

  /** The queue hands over its head, sooner or later. */
  lemma {:induction false} NextDequeue(run: nat -> State, steps: nat -> Step, n: nat, p: nat, e: Entry, v: VideoId)
    returns (k: nat)
    requires SafeRun(run, steps, v) && Fair(run, steps) && Behind(run(n), run(n).worker, p, e)
    ensures k >= n && Behind(run(k), Idle, p, e) && steps(k) == Queue(Dequeue)
    decreases Liveness.Stage(run(n).worker), Liveness.Rounds(run(n).worker)
  {
    var w := run(n).worker;
    var holds := (s: State) => Behind(s, w, p, e);
    var at: nat;
    if w == Idle {
      assert QueueDrains(run, steps, n);
      at :| at >= n && (run(at).worker != Idle || run(at).queues.pending == [] || steps(at) == Queue(Dequeue));
    } else {
      assert Liveness.WorkerMoves(run, steps, n);
      at :| at >= n && (run(at).worker == Idle || steps(at).Work?);
    }
    k := LastTime(run, holds, n, at);
    assert StepOk(run, steps, k, v);
    if steps(k) != Queue(Dequeue) {
      PlaceKept(run(k), run(k + 1), steps(k), p, e);
      Liveness.HandlersFinish(run(k), run(k + 1), steps(k).o);
      k := NextDequeue(run, steps, k + 1, p, e, v);
    }
  }

  lemma {:induction false} WaitEnds(run: nat -> State, steps: nat -> Step, n: nat, p: nat, e: Entry, v: VideoId)
    returns (m: nat)
    requires SafeRun(run, steps, v) && Fair(run, steps) && Behind(run(n), run(n).worker, p, e) && IsPurge(e.task, v)
    ensures m >= n && run(m).worker.LoadTombstone? && run(m).worker.video == v
    decreases p
  {
    var k := NextDequeue(run, steps, n, p, e, v);
    assert StepOk(run, steps, k, v);
    m := k + 1;
    if p > 0 {
      assert Behind(run(m), run(m).worker, p - 1, e);
      m := WaitEnds(run, steps, m, p - 1, e, v);
    }
  }

  // ----- the handler -----

  /** The handler makes its next call. */
  lemma NextCall(run: nat -> State, steps: nat -> Step, n: nat, v: VideoId) returns (k: nat)
    requires SafeRun(run, steps, v) && Fair(run, steps) && run(n).worker != Idle
    ensures k >= n && run(k).worker == run(n).worker && steps(k).Work?
    ensures WorkNext(run(k), steps(k).o) == Some(run(k + 1))
  {
    var w := run(n).worker;
    var holds := (s: State) => s.worker == w;
    assert Liveness.WorkerMoves(run, steps, n);
    var at: nat :| at >= n && (run(at).worker == Idle || steps(at).Work?);
    k := LastTime(run, holds, n, at);
    assert StepOk(run, steps, k, v);
    if !steps(k).Work? {
      OnlyWorkMoves(run(k), run(k + 1), steps(k));
    }
  }

  lemma OnlyWorkMoves(s: State, s': State, step: Step)
    requires Next(s, step) == Some(s') && !step.Work? && s.worker != Idle
    ensures s'.worker == s.worker
  {
    if step.Gateway? {
      Reconcile.GatewayAppends(s, s', step.g);
    }
  }

  /** A put-off purge is scheduled again. */
  lemma PutOffEnds(run: nat -> State, steps: nat -> Step, n: nat, v: VideoId) returns (m: nat)
    requires SafeRun(run, steps, v) && Fair(run, steps) && run(n).worker.Postpone? && run(n).worker.video == v
    ensures m >= n && HasPurge(run(m).queues.scheduled, v)
  {
    var k := NextCall(run, steps, n, v);
    assert StepOk(run, steps, k, v);
    m := k + 1;
    var q := run(k).queues.scheduled;
    assert IsPurge(run(m).queues.scheduled[|q|].task, v);
  }

  /** The tombstone is the one of `time`, or the row is gone. */
  predicate Buried(s: State, v: VideoId, time: nat) {
    v in s.db.rows ==> s.db.rows[v].status == Deleted && s.db.rows[v].deletedAt == Some(time)
  }

  /** From its calls on the row is purged. */
  lemma PurgeEnds(run: nat -> State, steps: nat -> Step, n: nat, v: VideoId) returns (m: nat)
    requires SafeRun(run, steps, v) && Fair(run, steps)
    requires Handles(run(n).worker, v) && !run(n).worker.LoadTombstone? && !run(n).worker.Postpone?
    ensures m >= n && v !in run(m).db.rows
    decreases Liveness.Stage(run(n).worker)
  {
    var k := NextCall(run, steps, n, v);
    assert StepOk(run, steps, k, v);
    m := k + 1;
    if !run(n).worker.PurgeRow? {
      m := PurgeEnds(run, steps, m, v);
    }
  }

  /** Past the grace period the handler does not put the purge off. */
  lemma LoadEnds(run: nat -> State, steps: nat -> Step, n: nat, v: VideoId, time: nat) returns (m: nat)
    requires SafeRun(run, steps, v) && Fair(run, steps) && run(n).worker.LoadTombstone? && run(n).worker.video == v
    requires (forall m: nat :: m >= n ==> Buried(run(m), v, time)) && time + GRACE <= run(n).now
    ensures m >= n && v !in run(m).db.rows
  {
    var k := NextCall(run, steps, n, v);
    assert StepOk(run, steps, k, v);
    ClockGrows(run, steps, n, k, v);
    m := k;
    if v in run(k).db.rows {
      assert Buried(run(k), v, time);
      m := PurgeEnds(run, steps, k + 1, v);
    }
  }

  // ----- every tombstone is purged -----

  /** No later delete refreshes the tombstone. */
  ghost predicate LastMark(run: nat -> State, n: nat, v: VideoId) {
    forall m: nat :: m >= n ==> Tombstones.Marks(run(m), v) == Tombstones.Marks(run(n), v)
  }

  lemma BuriedStep(s: State, s': State, step: Step, v: VideoId, time: nat)
    requires Statuses.Inv(s) && Statuses.Inv(s') && Next(s, step) == Some(s') && Buried(s, v, time) && v in s.db.used
    requires Tombstones.Marks(s', v) == Tombstones.Marks(s, v)
    ensures Buried(s', v, time) && v in s'.db.used
  {
    Statuses.StepChange(s, s', step, v);
    match step {
      case Gateway(g) => Tombstones.GatewaySettles(s, s', g);
      case Queue(_) =>
      case Work(o) => Tombstones.WorkSettles(s, s', o);
    }
    assert Tombstones.Settled(s, s', v);
    if v in s'.db.rows {
      assert Statuses.RowInv(s', v);
    }
  }

  lemma {:induction false} StaysBuried(run: nat -> State, steps: nat -> Step, n: nat, m: nat, v: VideoId, time: nat)
    requires SafeRun(run, steps, v) && LastMark(run, n, v) && Buried(run(n), v, time) && v in run(n).db.used && n <= m
    ensures Buried(run(m), v, time) && v in run(m).db.used
    decreases m - n
  {
    if n < m {
      StaysBuried(run, steps, n, m - 1, v, time);
      assert Tombstones.Marks(run(m), v) == Tombstones.Marks(run(n), v) == Tombstones.Marks(run(m - 1), v);
      BuriedNext(run, steps, m - 1, v, time);
    }
  }

  lemma BuriedNext(run: nat -> State, steps: nat -> Step, n: nat, v: VideoId, time: nat)
    requires SafeRun(run, steps, v) && Buried(run(n), v, time) && v in run(n).db.used
    requires Tombstones.Marks(run(n + 1), v) == Tombstones.Marks(run(n), v)
    ensures Buried(run(n + 1), v, time) && v in run(n + 1).db.used
  {
    RunInv(run, steps, n, v);
    RunInv(run, steps, n + 1, v);
    assert StepOk(run, steps, n, v);
    BuriedStep(run(n), run(n + 1), steps(n), v, time);
  }

  ghost predicate PastGrace(run: nat -> State, n: nat, v: VideoId, time: nat) {
    time + GRACE <= run(n).now && forall m: nat :: m >= n ==> Buried(run(m), v, time)
  }

  lemma PastGraceStays(run: nat -> State, steps: nat -> Step, n: nat, m: nat, v: VideoId, time: nat)
    requires SafeRun(run, steps, v) && PastGrace(run, n, v, time) && n <= m
    ensures PastGrace(run, m, v, time)
  {
    ClockGrows(run, steps, n, m, v);
  }

  lemma PendingIsPurged(run: nat -> State, steps: nat -> Step, n: nat, v: VideoId, time: nat) returns (m: nat)
    requires SafeRun(run, steps, v) && Fair(run, steps)
    requires PastGrace(run, n, v, time) && HasPurge(run(n).queues.pending, v)
    ensures m >= n && v !in run(m).db.rows
  {
    var p :| 0 <= p < |run(n).queues.pending| && IsPurge(run(n).queues.pending[p].task, v);
    var k := WaitEnds(run, steps, n, p, run(n).queues.pending[p], v);
    PastGraceStays(run, steps, n, k, v, time);
    m := LoadEnds(run, steps, k, v, time);
  }

  lemma DelayedIsPurged(run: nat -> State, steps: nat -> Step, n: nat, v: VideoId, time: nat) returns (m: nat)
    requires SafeRun(run, steps, v) && Fair(run, steps)
    requires PastGrace(run, n, v, time) && HasPurge(run(n).queues.scheduled, v)
    ensures m >= n && v !in run(m).db.rows
  {
    var k := DelayEnds(run, steps, n, v);
    PastGraceStays(run, steps, n, k, v, time);
    m := PendingIsPurged(run, steps, k, v, time);
  }

  lemma UnderWayIsPurged(run: nat -> State, steps: nat -> Step, n: nat, v: VideoId, time: nat) returns (m: nat)
    requires SafeRun(run, steps, v) && Fair(run, steps) && PastGrace(run, n, v, time) && UnderWay(run(n), v)
    ensures m >= n && v !in run(m).db.rows
  {
    var s, k := run(n), n;
    if HasPurge(s.queues.pending, v) {
      m := PendingIsPurged(run, steps, n, v, time);
    } else if Handles(s.worker, v) && !s.worker.Postpone? {
      if s.worker.LoadTombstone? {
        m := LoadEnds(run, steps, n, v, time);
      } else {
        m := PurgeEnds(run, steps, n, v);
      }
    } else {
      if Handles(s.worker, v) {
        k := PutOffEnds(run, steps, n, v);
      } else if !HasPurge(s.queues.scheduled, v) {
        var rid :| rid in s.gate.requests && Requests(s, rid, v);
        k := RequestEnds(run, steps, n, rid, v);
      }
      PastGraceStays(run, steps, n, k, v, time);
      m := DelayedIsPurged(run, steps, k, v, time);
    }
  }

  // ----- refreshes end -----

  /** Delete requests that have read the video and will still mark it. */
  function Deleters(s: State, v: VideoId): set<nat> {
    set rid | rid in s.gate.requests && s.gate.requests[rid].MarkDeleted? && s.gate.requests[rid].video == v
  }

  /** A tombstone, or what is left of one. */
  predicate Dead(s: State, v: VideoId) {
    v in s.db.used && (v in s.db.rows ==> s.db.rows[v].status == Deleted)
  }

  /** No new delete of a dead video begins, and a mark uses one up. */
  lemma GatewayUsesDeleters(s: State, s': State, g: GatewayStep, v: VideoId)
    requires Dead(s, v) && GatewayNext(s, g) == Some(s')
    ensures Deleters(s', v) <= Deleters(s, v)
    ensures Tombstones.Marks(s', v) == Tombstones.Marks(s, v) || Deleters(s', v) < Deleters(s, v)
  {
    if g.DeleteMark? {
      assert DeleteMarkNext(s, g.rid) == Some(s') && g.rid !in Deleters(s', v);
    } else {
      OnlyDeletesMark(s, s', g);
    }
  }

  lemma OnlyDeletesMark(s: State, s': State, g: GatewayStep)
    requires GatewayNext(s, g) == Some(s') && !g.DeleteMark?
    ensures s'.log.marks == s.log.marks
  {
    if !WritesRows(g) {
      CalmGateway(s, s', g);
    }
  }

  lemma DeadStep(s: State, s': State, step: Step, v: VideoId)
    requires Statuses.Inv(s) && Next(s, step) == Some(s') && Dead(s, v)
    ensures Dead(s', v) && Deleters(s', v) <= Deleters(s, v)
    ensures Tombstones.Marks(s', v) == Tombstones.Marks(s, v) || Deleters(s', v) < Deleters(s, v)
  {
    Statuses.StepChange(s, s', step, v);
    match step
    case Gateway(g) => GatewayUsesDeleters(s, s', g, v);
    case Queue(_) =>
    case Work(o) =>
      WorkKeepsGate(s, s', o);
      WorkMarksNothing(s, s', o);
  }

  lemma {:induction false} StaysDead(run: nat -> State, steps: nat -> Step, n: nat, m: nat, v: VideoId)
    requires SafeRun(run, steps, v) && Dead(run(n), v) && n <= m
    ensures Dead(run(m), v) && Deleters(run(m), v) <= Deleters(run(n), v)
    ensures Tombstones.Marks(run(m), v) == Tombstones.Marks(run(n), v) || Deleters(run(m), v) < Deleters(run(n), v)
    decreases m - n
  {
    if n < m {
      StaysDead(run, steps, n, m - 1, v);
      RunInv(run, steps, m - 1, v);
      assert StepOk(run, steps, m - 1, v);
      DeadStep(run(m - 1), run(m), steps(m - 1), v);
    }
  }

  lemma SmallerSet(a: set<nat>, b: set<nat>)
    requires a < b
    ensures |a| < |b|
  {
    var rest := b - a;
    assert b == a + rest && rest != {};
  }

  /** Refreshing a tombstone comes to an end: the code begins no delete of a tombstone. */
  lemma {:induction false} LastMarkComes(run: nat -> State, steps: nat -> Step, n: nat, v: VideoId) returns (m: nat)
    requires SafeRun(run, steps, v) && Dead(run(n), v)
    ensures m >= n && LastMark(run, m, v)
    decreases |Deleters(run(n), v)|
  {
    m := n;
    if k: nat :| k >= n && Tombstones.Marks(run(k), v) != Tombstones.Marks(run(n), v) {
      StaysDead(run, steps, n, k, v);
      SmallerSet(Deleters(run(k), v), Deleters(run(n), v));
      m := LastMarkComes(run, steps, k, v);
    }
  }

  // ----- the theorem -----

  lemma LastTombstoneIsPurged(run: nat -> State, steps: nat -> Step, n: nat, v: VideoId) returns (m: nat)
    requires SafeRun(run, steps, v) && Fair(run, steps) && IsTombstone(run(n), v) && LastMark(run, n, v)
    ensures m >= n && v !in run(m).db.rows
  {
    RunInv(run, steps, n, v);
    assert Statuses.RowInv(run(n), v);
    var time := run(n).db.rows[v].deletedAt.value;
    m := TimeComes(run, steps, n, time + GRACE, v);
    forall i: nat | i >= n ensures Buried(run(i), v, time) {
      StaysBuried(run, steps, n, i, v, time);
    }
    RunInv(run, steps, m, v);
    if v in run(m).db.rows {
      assert Buried(run(m), v, time);
      m := UnderWayIsPurged(run, steps, m, v, time);
    }
  }

  /** The theorem: in every weakly fair run in which the purge of a video is neither lost nor
      interrupted, every tombstone of the video is finally removed. */
  lemma TombstonesArePurged(run: nat -> State, steps: nat -> Step, n: nat, v: VideoId)
    requires SafeRun(run, steps, v) && Fair(run, steps) && IsTombstone(run(n), v)
    ensures exists m: nat :: m >= n && v !in run(m).db.rows
  {
    RunInv(run, steps, n, v);
    assert Statuses.RowInv(run(n), v);
    var last := LastMarkComes(run, steps, n, v);
    StaysDead(run, steps, n, last, v);
    if v in run(last).db.rows {
      var m := LastTombstoneIsPurged(run, steps, last, v);
    }
  }
}
