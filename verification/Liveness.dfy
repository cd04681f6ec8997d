/** Every PROCESSING video comes out of PROCESSING: a lexicographic rank of its place in the
    system never rises on tame steps, some possible step always lowers it, and so under weak
    fairness every run brings the video to READY, FAILED, DELETED or gone. */
module Liveness {
  import opened Model
  import opened Statements
  import opened Lifecycle
  import opened Lanes
  import opened Frames
  import opened Handlers
  import opened Uniqueness
  import opened OneTask
  import Statuses
  import Traces

  /** No fault that costs any video its task. */
  predicate Tame(s: State, step: Step) {
    && !(step.Gateway? && step.g.ConfirmRollback?)
    && !(step.Queue? && step.q.Redeliver? && step.q.t.Transcode?)
    && !(step == Queue(Dequeue) && HeadEarly(s))
    && (step.Work? ==> !Drops(s.worker, step.o))
  }

  // ----- handlers finish -----

  /** The worker's distance to Idle: calls of other kinds left, then rounds of the current loop. */
  function Stage(w: Worker): nat {
    match w
    case Idle => 0
    case Load(_) => 12
    case Increment(_) => 11
    case Prepare(_) => 10
    case Fetch(_) => 9
    case Upload(_) => 8
    case Recheck(_) => 7
    case Publish(_) => 6
    case DropUploads(_, _) => 5
    case Retry(_) => 4
    case GiveUp(_, _) => 3
    case DropRaw(_) => 2
    case Deleting(_) => 1
    case LoadTombstone(_, _) => 5
    case Postpone(_, _, _) => 4
    case PurgePrefix(_, _, _) => 4
    case PurgeKeys(_, _, _) => 3
    case PurgeRow(_, _, _) => 2
    case TickList(_, _) => 2
    case TickUser(_, _) => 1
    case TickEnqueue(_, _, _) => 1
  }

  function Rounds(w: Worker): nat {
    match w
    case Upload(a) => |a.todo|
    case TickUser(users, _) => 2 * |users|
    case TickEnqueue(_, users, _) => 2 * |users| + 1
    case _ => 0
  }

  /** Every handler takes finitely many calls, whatever their outcomes. */
  lemma HandlersFinish(s: State, s': State, o: Outcome)
    requires WorkNext(s, o) == Some(s')
    ensures Stage(s'.worker) < Stage(s.worker) || (Stage(s'.worker) == Stage(s.worker) && Rounds(s'.worker) < Rounds(s.worker))
  {
  }

  /** The worker is never blocked: no row it must write is locked by a confirm. */
  lemma WorkerCanStep(s: State) returns (o: Outcome)
    requires Statuses.Inv(s) && s.worker != Idle
    ensures WorkNext(s, o).Some? && !Drops(s.worker, o)
  {
    match s.worker
    case Fetch(_) => o := Err;
    case TickList(_, _) => o := Users([]);
    case Deleting(keys) => o := if |keys| > DELETE_LIMIT then Undeleted({}, 0) else Ok;
    case TickUser(users, _) => o := if users == [] then Ok else Stop;
    case _ => o := Ok;
  }

  // ----- the rank -----

  /** Entries in front of the first transcode task of `v`. */
  function Ahead(q: seq<Entry>, v: VideoId): nat {
    if q == [] || q[0].task == Transcode(v) then 0 else 1 + Ahead(q[1..], v)
  }

  /** Seconds until the transcode task of `v` may run. */
  function Remaining(q: seq<Entry>, v: VideoId, now: nat): nat {
    if q == [] then 0
    else if q[0].task == Transcode(v) then (if q[0].due > now then q[0].due - now else 0)
    else Remaining(q[1..], v, now)
  }

  datatype Rank = Rank(budget: nat, phase: nat, place: nat, stage: nat, rounds: nat, early: nat)

  predicate Below(a: Rank, b: Rank) {
    || a.budget < b.budget
    || (a.budget == b.budget && (
         || a.phase < b.phase
         || (a.phase == b.phase && (
              || a.place < b.place
              || (a.place == b.place && (
                   || a.stage < b.stage
                   || (a.stage == b.stage && (
                        || a.rounds < b.rounds
                        || (a.rounds == b.rounds && a.early < b.early)))))))))
  }

  predicate HeadEarly(s: State) {
    s.queues.pending != [] && s.queues.pending[0].task.Transcode? && QueuedConfirm(s, s.queues.pending[0].task.video)
  }

  const RUNNING := 4
  const DELAYED := 3
  const WAITING := 2
  const STARTING := 1
  const ENDING := 0

  function Phase(s: State, v: VideoId): nat {
    if Holding(s.worker, v) == 1 then
      (if s.worker.Load? || s.worker.Increment? then STARTING else if s.worker.GiveUp? then ENDING else RUNNING)
    else if Codes(s.queues.pending, v) > 0 then WAITING
    else DELAYED
  }

  /** How far the task of PROCESSING video `v` is from its last decision. */
  function RankOf(s: State, v: VideoId): Rank
    requires IsProcessing(s, v)
  {
    var budget := if s.db.rows[v].retryCount >= MAX_RETRIES then 0 else MAX_RETRIES - s.db.rows[v].retryCount;
    var phase := Phase(s, v);
    if phase == DELAYED then Rank(budget, phase, Remaining(s.queues.scheduled, v, s.now), 0, 0, 0)
    else if phase == WAITING then
      Rank(budget, phase, Ahead(s.queues.pending, v), Stage(s.worker), Rounds(s.worker), if HeadEarly(s) then 1 else 0)
    else Rank(budget, phase, 0, Stage(s.worker), Rounds(s.worker), 0)
  }

  // ----- queue lemmas -----

  lemma {:induction false} AheadAppend(q: seq<Entry>, e: Entry, v: VideoId)
    requires Codes(q, v) > 0
    ensures Ahead(q + [e], v) == Ahead(q, v)
  {
    Tail(q, 0, v);
    if q[0].task != Transcode(v) {
      AheadAppend(q[1..], e, v);
      assert (q + [e])[1..] == q[1..] + [e];
    }
  }

  lemma {:induction false} RemainingAppend(q: seq<Entry>, e: Entry, v: VideoId, now: nat)
    requires Codes(q, v) > 0
    ensures Remaining(q + [e], v, now) == Remaining(q, v, now)
  {
    Tail(q, 0, v);
    if q[0].task != Transcode(v) {
      RemainingAppend(q[1..], e, v, now);
      assert (q + [e])[1..] == q[1..] + [e];
    }
  }

  lemma {:induction false} RemainingRemove(q: seq<Entry>, i: nat, v: VideoId, now: nat)
    requires i < |q| && q[i].task != Transcode(v)
    ensures Remaining(q[..i] + q[i + 1..], v, now) == Remaining(q, v, now)
  {
    var r := q[..i] + q[i + 1..];
    if i == 0 {
      assert r == q[1..];
    } else if q[0].task != Transcode(v) {
      RemainingRemove(q[1..], i - 1, v, now);
      assert r[1..] == q[1..][..i - 1] + q[1..][i..];
    }
  }

  lemma {:induction false} RemainingLater(q: seq<Entry>, v: VideoId, now: nat, d: nat)
    ensures
      var r := Remaining(q, v, now);
      Remaining(q, v, now + d) == if r > d then r - d else 0
  {
    if q != [] && q[0].task != Transcode(v) {
      RemainingLater(q[1..], v, now, d);
    }
  }

  /** A delayed task with no seconds left can be promoted. */
  lemma {:induction false} DueEntry(q: seq<Entry>, v: VideoId, now: nat) returns (i: nat)
    requires Codes(q, v) > 0 && Remaining(q, v, now) == 0
    ensures i < |q| && q[i].task == Transcode(v) && q[i].due <= now
  {
    Tail(q, 0, v);
    if q[0].task == Transcode(v) {
      i := 0;
    } else {
      i := DueEntry(q[1..], v, now);
      i := i + 1;
    }
  }

  // ----- the rank never rises -----

  ghost predicate Good(s: State) {
    Statuses.Inv(s) && forall v :: Uniqueness.Inv(s, v) && OneTask.Inv(s, v)
  }

  predicate NotAbove(s: State, s': State, v: VideoId)
    requires IsProcessing(s, v)
  {
    IsProcessing(s', v) ==> RankOf(s', v) == RankOf(s, v) || Below(RankOf(s', v), RankOf(s, v))
  }

  predicate Lower(s: State, s': State, v: VideoId)
    requires IsProcessing(s, v)
  {
    IsProcessing(s', v) ==> Below(RankOf(s', v), RankOf(s, v))
  }

  predicate SameHead(s: State, s': State) {
    s.queues.pending != [] ==> s'.queues.pending != [] && s'.queues.pending[0] == s.queues.pending[0]
  }

  lemma GrownKeeps(q: seq<Entry>, q': seq<Entry>, v: VideoId, now: nat)
    requires Grown(q, q', v)
    ensures Codes(q', v) == Codes(q, v)
    ensures Codes(q, v) > 0 ==>
      Ahead(q', v) == Ahead(q, v) && Remaining(q', v, now) == Remaining(q, v, now) && q != [] && q'[0] == q[0]
  {
    if q' != q {
      Append(q, q'[|q|], 0, v);
      if Codes(q, v) > 0 {
        AheadAppend(q, q'[|q|], v);
        RemainingAppend(q, q'[|q|], v, now);
      }
    }
    if Codes(q, v) > 0 {
      Tail(q, 0, v);
    }
  }

  /** A step that leaves the running handler and the row alone. */
  lemma QueuesGrow(s: State, s': State, v: VideoId)
    requires Good(s) && IsProcessing(s, v) && IsProcessing(s', v)
    requires s'.now == s.now && s'.worker == s.worker && s'.db.rows[v].retryCount == s.db.rows[v].retryCount
    requires Grown(s.queues.pending, s'.queues.pending, v) && Grown(s.queues.scheduled, s'.queues.scheduled, v)
    requires HeadEarly(s') && SameHead(s, s') && s.queues.pending != [] ==> HeadEarly(s)
    ensures NotAbove(s, s', v)
  {
    GrownKeeps(s.queues.pending, s'.queues.pending, v, s.now);
    GrownKeeps(s.queues.scheduled, s'.queues.scheduled, v, s.now);
    assert OneTask.Inv(s, v);
  }

  /** A task in the queue is not that of a confirm about to enqueue it. */
  lemma HeadStaysCommitted(s: State, w: VideoId)
    requires Good(s) && w in s.gate.confirms && s.gate.confirms[w] == Checked && s.queues.pending != []
    ensures s.queues.pending[0].task != Transcode(w)
  {
    assert Uniqueness.Inv(s, w) && s.db.rows[w].status == PendingUpload;
    Tail(s.queues.pending, 0, w);
  }

  lemma GatewayNotAbove(s: State, s': State, g: GatewayStep, v: VideoId)
    requires Good(s) && IsProcessing(s, v) && IsProcessing(s', v)
    requires GatewayNext(s, g) == Some(s') && !g.ConfirmRollback?
    ensures NotAbove(s, s', v)
  {
    OtherGatewaySteps(s, s', g, v);
    GatewayLeaves(s, s', g, v);
    if g.ConfirmEnqueue? {
      assert s.db.rows[g.v].status == PendingUpload;
      if s.queues.pending != [] {
        HeadStaysCommitted(s, g.v);
      }
    }
    QueuesGrow(s, s', v);
  }

  lemma PromoteOtherNotAbove(s: State, s': State, i: nat, v: VideoId)
    requires Good(s) && IsProcessing(s, v) && QueueNext(s, Promote(i)) == Some(s')
    requires s.queues.scheduled[i].task != Transcode(v)
    ensures NotAbove(s, s', v)
  {
    assert OneTask.Inv(s, v);
    Remove(s.queues.scheduled, i, 0, v);
    RemainingRemove(s.queues.scheduled, i, v, s.now);
    GrownKeeps(s.queues.pending, s'.queues.pending, v, s.now);
  }

  lemma PromoteLowers(s: State, s': State, i: nat, v: VideoId)
    requires Good(s) && IsProcessing(s, v) && QueueNext(s, Promote(i)) == Some(s')
    requires s.queues.scheduled[i].task == Transcode(v)
    ensures Lower(s, s', v)
  {
    assert OneTask.Inv(s, v);
    Remove(s.queues.scheduled, i, 0, v);
    Append(s.queues.pending, s.queues.scheduled[i], 0, v);
  }

  lemma DequeueNotAbove(s: State, s': State, v: VideoId)
    requires Good(s) && IsProcessing(s, v) && QueueNext(s, Dequeue) == Some(s')
    ensures NotAbove(s, s', v)
    ensures Phase(s, v) == WAITING ==> Lower(s, s', v)
  {
    assert OneTask.Inv(s, v);
    Tail(s.queues.pending, 0, v);
  }

  lemma AdvanceNotAbove(s: State, s': State, d: nat, v: VideoId)
    requires Good(s) && IsProcessing(s, v) && QueueNext(s, Advance(d)) == Some(s')
    ensures NotAbove(s, s', v)
    ensures d > 0 && RankOf(s, v).phase == DELAYED && RankOf(s, v).place > 0 ==> Lower(s, s', v)
  {
    RemainingLater(s.queues.scheduled, v, s.now, d);
  }

  // ----- the handler of another task -----

  lemma OthersNotAbove(s: State, s': State, o: Outcome, v: VideoId)
    requires Good(s) && IsProcessing(s, v) && WorkNext(s, o) == Some(s') && Holding(s.worker, v) == 0
    ensures NotAbove(s, s', v)
    ensures Phase(s, v) == WAITING ==> Lower(s, s', v)
  {
    assert OneTask.Inv(s, v);
    OthersLeave(s, s', o, v);
    HandlersFinish(s, s', o);
    GrownKeeps(s.queues.pending, s'.queues.pending, v, s.now);
    GrownKeeps(s.queues.scheduled, s'.queues.scheduled, v, s.now);
  }

  // ----- the video's own handler -----

  lemma AttemptLowers(s: State, s': State, o: Outcome, v: VideoId)
    requires Good(s) && IsProcessing(s, v) && WorkNext(s, o) == Some(s') && Holding(s.worker, v) == 1
    requires s.worker.Fetch? || s.worker.Upload? || s.worker.Recheck?
    ensures Lower(s, s', v)
  {
    HandlersFinish(s, s', o);
  }

  lemma PrepareLowers(s: State, s': State, a: Attempt, o: Outcome)
    requires IsProcessing(s, a.video) && s.worker == Prepare(a) && PrepareNext(s, a, o) == Some(s') && !o.Err?
    ensures Lower(s, s', a.video)
  {
  }

  lemma PublishLowers(s: State, s': State, a: Attempt, o: Outcome)
    requires Good(s) && IsProcessing(s, a.video) && s.worker == Publish(a) && PublishNext(s, a, o) == Some(s')
    ensures Lower(s, s', a.video)
  {
    assert Statuses.RowInv(s, a.video);
  }

  lemma DropUploadsLowers(s: State, s': State, a: Attempt, again: bool, o: Outcome)
    requires Good(s) && IsProcessing(s, a.video)
    requires s.worker == DropUploads(a, again) && DropUploadsNext(s, a, again, o) == Some(s')
    ensures Lower(s, s', a.video)
  {
    assert again;
  }

  lemma RetryLowers(s: State, s': State, a: Attempt, o: Outcome)
    requires Good(s) && IsProcessing(s, a.video) && s.worker == Retry(a)
    requires RetryNext(s, a, o) == Some(s') && !o.NotEnqueued?
    ensures Lower(s, s', a.video)
  {
    assert OneTask.Inv(s, a.video);
    assert Codes(s'.queues.pending, a.video) == 0;
  }

  lemma IncrementLowers(s: State, s': State, v: VideoId, o: Outcome)
    requires Good(s) && IsProcessing(s, v) && s.worker == Increment(v) && IncrementNext(s, v, o) == Some(s') && !o.Err?
    ensures Lower(s, s', v)
  {
    assert OneTask.Inv(s, v) && Statuses.RowInv(s, v);
  }

  lemma LoadLowers(s: State, s': State, v: VideoId, o: Outcome)
    requires IsProcessing(s, v) && s.worker == Load(v) && LoadNext(s, v, o) == Some(s') && !o.Err?
    ensures Lower(s, s', v)
  {
  }

  lemma GiveUpLowers(s: State, s': State, v: VideoId, key: Key, o: Outcome)
    requires Good(s) && IsProcessing(s, v) && s.worker == GiveUp(v, key)
    requires GiveUpNext(s, v, key, o) == Some(s') && !o.Err?
    ensures !IsProcessing(s', v)
  {
    assert Statuses.RowInv(s, v);
  }

  lemma OwnLowers(s: State, s': State, o: Outcome, v: VideoId)
    requires Good(s) && IsProcessing(s, v) && WorkNext(s, o) == Some(s')
    requires Holding(s.worker, v) == 1 && !Drops(s.worker, o)
    ensures Lower(s, s', v)
  {
    match s.worker
    case Load(_) => LoadLowers(s, s', v, o);
    case Increment(_) => IncrementLowers(s, s', v, o);
    case Prepare(a) => PrepareLowers(s, s', a, o);
    case Publish(a) => PublishLowers(s, s', a, o);
    case DropUploads(a, again) => DropUploadsLowers(s, s', a, again, o);
    case Retry(a) => RetryLowers(s, s', a, o);
    case GiveUp(_, key) => GiveUpLowers(s, s', v, key, o);
    case _ => AttemptLowers(s, s', o, v);
  }

  // ----- all steps -----

  /** The confirm of the task at the head commits. */
  lemma CommitLowers(s: State, s': State, v: VideoId)
    requires Good(s) && IsProcessing(s, v) && Phase(s, v) == WAITING && HeadEarly(s)
    requires ConfirmCommitNext(s, s.queues.pending[0].task.video) == Some(s')
    ensures Lower(s, s', v)
  {
    assert Statuses.RowInv(s, v);
  }

  /** The steps that carry PROCESSING video `v` forward. */
  predicate Helps(s: State, step: Step, v: VideoId)
    requires IsProcessing(s, v)
  {
    var r := RankOf(s, v);
    match step
    case Work(_) => r.phase != DELAYED
    case Queue(q) =>
      if r.phase == DELAYED then (if r.place > 0 then q.Advance? && q.d > 0 else Promotes(s, q, v))
      else r.phase == WAITING && q.Dequeue?
    case Gateway(g) => r.phase == WAITING && r.stage == 0 && r.early == 1 && g == ConfirmCommit(s.queues.pending[0].task.video)
  }

  predicate Promotes(s: State, q: QueueStep, v: VideoId) {
    q.Promote? && q.i < |s.queues.scheduled| && s.queues.scheduled[q.i].task == Transcode(v)
  }

  /** No tame step raises the rank, and a helpful one lowers it, until the video is out of PROCESSING. */
  lemma RankDescends(s: State, s': State, step: Step, v: VideoId)
    requires Good(s) && IsProcessing(s, v) && Next(s, step) == Some(s') && Tame(s, step)
    ensures NotAbove(s, s', v)
    ensures Helps(s, step, v) ==> Lower(s, s', v)
  {
    if IsProcessing(s', v) {
      match step
      case Gateway(g) =>
        GatewayNotAbove(s, s', g, v);
        if Helps(s, step, v) {
          CommitLowers(s, s', v);
        }
      case Queue(q) => QueueDescends(s, s', q, v);
      case Work(o) =>
        if Holding(s.worker, v) == 1 {
          OwnLowers(s, s', o, v);
        } else {
          OthersNotAbove(s, s', o, v);
        }
    }
  }

  lemma QueueDescends(s: State, s': State, q: QueueStep, v: VideoId)
    requires Good(s) && IsProcessing(s, v) && QueueNext(s, q) == Some(s') && Tame(s, Queue(q))
    ensures NotAbove(s, s', v)
    ensures Helps(s, Queue(q), v) ==> Lower(s, s', v)
  {
    match q
    case Advance(d) => AdvanceNotAbove(s, s', d, v);
    case Promote(i) =>
      if s.queues.scheduled[i].task == Transcode(v) {
        PromoteLowers(s, s', i, v);
      } else {
        PromoteOtherNotAbove(s, s', i, v);
      }
    case Dequeue => DequeueNotAbove(s, s', v);
    case Redeliver(t) => QueuesGrow(s, s', v);
  }

  /** Some tame step is always possible and helps: with the worker free and no confirm open at
      the head of the queue the video is never stuck. */
  lemma NeverStuck(s: State, v: VideoId) returns (step: Step)
    requires Good(s) && IsProcessing(s, v)
    ensures Next(s, step).Some? && Tame(s, step) && Helps(s, step, v)
  {
    assert OneTask.Inv(s, v);
    if Phase(s, v) == DELAYED {
      var place := Remaining(s.queues.scheduled, v, s.now);
      if place > 0 {
        step := Queue(Advance(place));
      } else {
        var i := DueEntry(s.queues.scheduled, v, s.now);
        step := Queue(Promote(i));
      }
    } else if s.worker != Idle {
      var o := WorkerCanStep(s);
      step := Work(o);
    } else if HeadEarly(s) {
      var w := s.queues.pending[0].task.video;
      assert Statuses.RowInv(s, w);
      step := Gateway(ConfirmCommit(w));
    } else {
      step := Queue(Dequeue);
    }
  }

  lemma GoodPreserved(s: State, s': State, step: Step)
    requires Good(s) && Next(s, step) == Some(s') && Tame(s, step)
    ensures Good(s')
  {
    Statuses.Preserves(s, s', step);
    forall v ensures Uniqueness.Inv(s', v) && OneTask.Inv(s', v) {
      assert Uniqueness.Inv(s, v) && OneTask.Inv(s, v);
      Uniqueness.Preserves(s, s', step, v);
      OneTask.Preserves(s, s', step, v);
    }
  }

  predicate TameFrom(s: State, trace: seq<Step>)
    decreases |trace|
  {
    trace != [] ==> Next(s, trace[0]).Some? && Tame(s, trace[0]) && TameFrom(Next(s, trace[0]).value, trace[1..])
  }

  /** From every tame reachable state there is a tame way on that takes the video out of PROCESSING. */
  lemma {:induction false} CanAlwaysFinish(s: State, v: VideoId) returns (trace: seq<Step>)
    requires Good(s) && IsProcessing(s, v)
    ensures TameFrom(s, trace) && Run(s, trace).Some? && !IsProcessing(Run(s, trace).value, v)
    decreases RankOf(s, v).budget, RankOf(s, v).phase, RankOf(s, v).place, RankOf(s, v).stage, RankOf(s, v).rounds, RankOf(s, v).early
  {
    var step := NeverStuck(s, v);
    var s' := Next(s, step).value;
    var rest: seq<Step> := [];
    GoodPreserved(s, s', step);
    RankDescends(s, s', step, v);
    if IsProcessing(s', v) {
      rest := CanAlwaysFinish(s', v);
    }
    trace := [step] + rest;
    assert trace[1..] == rest;
    Traces.RunCons(s, step, rest);
  }

  // ----- infinite runs -----

  ghost predicate StepOk(run: nat -> State, steps: nat -> Step, n: nat) {
    Next(run(n), steps(n)) == Some(run(n + 1)) && Tame(run(n), steps(n))
  }

  ghost predicate TameRun(run: nat -> State, steps: nat -> Step) {
    run(0) == INITIAL && forall n: nat :: StepOk(run, steps, n)
  }

  predicate DueNow(s: State, v: VideoId) {
    exists i :: 0 <= i < |s.queues.scheduled| && s.queues.scheduled[i].task == Transcode(v) && s.queues.scheduled[i].due <= s.now
  }

  predicate CanDequeue(s: State) {
    s.worker == Idle && s.queues.pending != [] && !HeadEarly(s)
  }

  ghost predicate WorkerMoves(run: nat -> State, steps: nat -> Step, n: nat) {
    exists m: nat :: m >= n && (run(m).worker == Idle || steps(m).Work?)
  }

  ghost predicate TimePasses(steps: nat -> Step, n: nat) {
    exists m: nat :: m >= n && steps(m).Queue? && steps(m).q.Advance? && steps(m).q.d > 0
  }

  ghost predicate DuePromoted(run: nat -> State, steps: nat -> Step, n: nat, v: VideoId) {
    exists m: nat :: m >= n && (!DueNow(run(m), v) || (steps(m).Queue? && Promotes(run(m), steps(m).q, v)))
  }

  ghost predicate QueueDrains(run: nat -> State, steps: nat -> Step, n: nat) {
    exists m: nat :: m >= n && (!CanDequeue(run(m)) || steps(m) == Queue(Dequeue))
  }

  ghost predicate ConfirmEnds(run: nat -> State, n: nat, v: VideoId) {
    exists m: nat :: m >= n && v !in run(m).gate.confirms
  }

  /** Weak fairness: the worker, the clock, the scheduler and the queue do not stop for ever
      while they could go on, and no transaction stays open for ever. */
  ghost predicate Fair(run: nat -> State, steps: nat -> Step) {
    && (forall n: nat :: WorkerMoves(run, steps, n))
    && (forall n: nat :: TimePasses(steps, n))
    && (forall n: nat, v: VideoId :: DuePromoted(run, steps, n, v))
    && (forall n: nat :: QueueDrains(run, steps, n))
    && (forall n: nat, v: VideoId :: ConfirmEnds(run, n, v))
  }

  lemma {:induction false} RunIsGood(run: nat -> State, steps: nat -> Step, n: nat)
    requires TameRun(run, steps)
    ensures Good(run(n))
  {
    if n > 0 {
      RunIsGood(run, steps, n - 1);
      assert StepOk(run, steps, n - 1);
      GoodPreserved(run(n - 1), run(n), steps(n - 1));
    }
  }

  lemma HeadStays(s: State, s': State, step: Step, v: VideoId)
    requires Good(s) && IsProcessing(s, v) && Phase(s, v) == WAITING
    requires Next(s, step) == Some(s') && step != Queue(Dequeue)
    ensures s.queues.pending != [] && SameHead(s, s')
  {
    if step.Work? {
      assert OneTask.Inv(s, v);
      OthersLeave(s, s', step.o, v);
    }
  }

  /** Everything about the video's place is as it was in `s0`. */
  predicate Held(s0: State, s: State, v: VideoId)
    requires IsProcessing(s0, v)
  {
    && IsProcessing(s, v) && RankOf(s, v) == RankOf(s0, v)
    && (Phase(s0, v) == WAITING ==> s0.queues.pending != [] && SameHead(s0, s))
  }

  lemma HeldAtFirst(s: State, v: VideoId)
    requires Good(s) && IsProcessing(s, v)
    ensures Held(s, s, v)
  {
  }

  lemma HeldOrLower(s0: State, s: State, s': State, step: Step, v: VideoId)
    requires IsProcessing(s0, v) && Good(s) && Held(s0, s, v) && Next(s, step) == Some(s') && Tame(s, step)
    ensures Held(s0, s', v) || Lower(s0, s', v)
  {
    RankDescends(s, s', step, v);
    if IsProcessing(s', v) && RankOf(s', v) == RankOf(s, v) && Phase(s, v) == WAITING {
      HeadStays(s, s', step, v);
    }
  }

  /** Between `n` and `m` the rank has dropped at some `k`, or everything is as it was. */
  lemma {:induction false} Stays(run: nat -> State, steps: nat -> Step, n: nat, m: nat, v: VideoId) returns (k: nat)
    requires TameRun(run, steps) && IsProcessing(run(n), v) && n <= m
    ensures n <= k <= m
    ensures if k < m then Lower(run(n), run(k + 1), v) else Held(run(n), run(m), v)
    decreases m - n
  {
    if m == n {
      k := n;
      RunIsGood(run, steps, n);
      HeldAtFirst(run(n), v);
    } else {
      k := Stays(run, steps, n, m - 1, v);
      if k == m - 1 {
        RunIsGood(run, steps, k);
        assert StepOk(run, steps, k);
        HeldOrLower(run(n), run(k), run(m), steps(k), v);
        if Held(run(n), run(m), v) {
          k := m;
        }
      }
    }
  }

  /** When the next event that fairness owes the video comes. */
  lemma NextEvent(run: nat -> State, steps: nat -> Step, n: nat, v: VideoId) returns (m: nat)
    requires TameRun(run, steps) && Fair(run, steps) && IsProcessing(run(n), v)
    ensures m >= n
    ensures Held(run(n), run(m), v) ==> Helps(run(m), steps(m), v)
  {
    var s := run(n);
    RunIsGood(run, steps, n);
    if Phase(s, v) == DELAYED {
      if RankOf(s, v).place > 0 {
        assert TimePasses(steps, n);
        m :| m >= n && steps(m).Queue? && steps(m).q.Advance? && steps(m).q.d > 0;
      } else {
        assert DuePromoted(run, steps, n, v);
        m :| m >= n && (!DueNow(run(m), v) || (steps(m).Queue? && Promotes(run(m), steps(m).q, v)));
        DueWhenDelayed(run, steps, m, v);
      }
    } else if s.worker != Idle {
      assert WorkerMoves(run, steps, n);
      m :| m >= n && (run(m).worker == Idle || steps(m).Work?);
    } else if HeadEarly(s) {
      var w := s.queues.pending[0].task.video;
      assert ConfirmEnds(run, n, w);
      m :| m >= n && w !in run(m).gate.confirms;
    } else {
      assert QueueDrains(run, steps, n);
      m :| m >= n && (!CanDequeue(run(m)) || steps(m) == Queue(Dequeue));
    }
  }

  lemma DueWhenDelayed(run: nat -> State, steps: nat -> Step, m: nat, v: VideoId)
    requires TameRun(run, steps)
    ensures IsProcessing(run(m), v) && RankOf(run(m), v).phase == DELAYED && RankOf(run(m), v).place == 0 ==>
      DueNow(run(m), v)
  {
    var s := run(m);
    RunIsGood(run, steps, m);
    if IsProcessing(s, v) && RankOf(s, v).phase == DELAYED && RankOf(s, v).place == 0 {
      assert OneTask.Inv(s, v);
      var i := DueEntry(s.queues.scheduled, v, s.now);
    }
  }

  /** Under fairness the rank drops again and again. */
  lemma RankDrops(run: nat -> State, steps: nat -> Step, n: nat, v: VideoId) returns (m: nat)
    requires TameRun(run, steps) && Fair(run, steps) && IsProcessing(run(n), v)
    ensures m > n && Lower(run(n), run(m), v)
  {
    var at := NextEvent(run, steps, n, v);
    var k := Stays(run, steps, n, at, v);
    m := k + 1;
    if k == at {
      EventLowers(run, steps, n, at, v);
    }
  }

  lemma EventLowers(run: nat -> State, steps: nat -> Step, n: nat, at: nat, v: VideoId)
    requires TameRun(run, steps) && IsProcessing(run(n), v) && Held(run(n), run(at), v) && Helps(run(at), steps(at), v)
    ensures Lower(run(n), run(at + 1), v)
  {
    RunIsGood(run, steps, at);
    assert StepOk(run, steps, at);
    HeldThenHelped(run(n), run(at), run(at + 1), steps(at), v);
  }

  lemma HeldThenHelped(s0: State, s: State, s': State, step: Step, v: VideoId)
    requires IsProcessing(s0, v) && Good(s) && Held(s0, s, v) && Next(s, step) == Some(s') && Tame(s, step)
    requires Helps(s, step, v)
    ensures Lower(s0, s', v)
  {
    RankDescends(s, s', step, v);
  }

  lemma {:induction false} LeavesProcessing(run: nat -> State, steps: nat -> Step, n: nat, v: VideoId) returns (m: nat)
    requires TameRun(run, steps) && Fair(run, steps) && IsProcessing(run(n), v)
    ensures m > n && !IsProcessing(run(m), v)
    decreases RankOf(run(n), v).budget, RankOf(run(n), v).phase, RankOf(run(n), v).place,
      RankOf(run(n), v).stage, RankOf(run(n), v).rounds, RankOf(run(n), v).early
  {
    m := RankDrops(run, steps, n, v);
    if IsProcessing(run(m), v) {
      m := LeavesProcessing(run, steps, m, v);
    }
  }

  predicate Underway(s: State, v: VideoId) {
    v in s.db.used && (v in s.db.rows ==> s.db.rows[v].status != PendingUpload)
  }

  lemma UnderwayStays(s: State, s': State, step: Step, v: VideoId)
    requires Statuses.Inv(s) && Underway(s, v) && Next(s, step) == Some(s')
    ensures Underway(s', v)
  {
    Statuses.StepChange(s, s', step, v);
  }

  /** Since it was PROCESSING the video can only have gone on. */
  lemma {:induction false} SinceProcessing(run: nat -> State, steps: nat -> Step, n: nat, m: nat, v: VideoId)
    requires TameRun(run, steps) && IsProcessing(run(n), v) && n <= m
    ensures Underway(run(m), v)
    decreases m - n
  {
    if m == n {
      RunIsGood(run, steps, n);
      assert Statuses.RowInv(run(n), v);
    } else {
      SinceProcessing(run, steps, n, m - 1, v);
      RunIsGood(run, steps, m - 1);
      assert StepOk(run, steps, m - 1);
      UnderwayStays(run(m - 1), run(m), steps(m - 1), v);
    }
  }

  /** The theorem: in every fair run without dropped or duplicated tasks, every video that is
      PROCESSING becomes READY, FAILED or DELETED, or loses its row. */
  lemma ProcessingEnds(run: nat -> State, steps: nat -> Step, n: nat, v: VideoId)
    requires TameRun(run, steps) && Fair(run, steps) && IsProcessing(run(n), v)
    ensures exists m: nat :: m > n && Settled(run(m), v)
  {
    var m := LeavesProcessing(run, steps, n, v);
    SinceProcessing(run, steps, n, m, v);
    assert Settled(run(m), v);
  }

  predicate Settled(s: State, v: VideoId) {
    v in s.db.rows ==> s.db.rows[v].status == Ready || s.db.rows[v].status == Failed || s.db.rows[v].status == Deleted
  }
}
