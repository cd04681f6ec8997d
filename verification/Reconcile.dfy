/** The reconcile sweep. In every run a tick names only objects of users who were past the grace
    period when it listed them. In every run without a reported failure, a tick and a drain of the
    queue leave the listed users without objects, and the next tick finds nothing to do. */
module Reconcile {
  import opened Model
  import opened Lifecycle
  import opened Frames
  import opened Lanes
  import Traces

  // ----- nobody else's keys -----

  predicate OneOwner(keys: seq<Key>, u: UserId) {
    forall i :: 0 <= i < |keys| ==> keys[i].owner == u
  }

  lemma InactiveStays(s: State, s': State, step: Step, u: UserId)
    requires Next(s, step) == Some(s') && Inactive(s, u)
    ensures Inactive(s', u)
  {
    if step.Gateway? && !WritesRows(step.g) {
      CalmGateway(s, s', step.g);
    }
  }

  /** Step `n` of the run is a tick's query, and it answers the user, who has been inactive for more than a day. */
  predicate Lists(trace: seq<Step>, n: nat, u: UserId) {
    && n < |trace| && Run(INITIAL, trace[..n]).Some?
    && var s := Run(INITIAL, trace[..n]).value;
       s.worker.TickList? && trace[n].Work? && trace[n].o.Users? && u in trace[n].o.users
       && u in s.db.users && !s.db.users[u].active
       && s.db.users[u].deletedAt.Some? && s.db.users[u].deletedAt.value + 86_400 < s.now
  }

  predicate Sweeping(w: Worker) {
    w.TickUser? || w.TickEnqueue?
  }

  predicate SweepingAfter(trace: seq<Step>, m: nat)
    requires m <= |trace|
  {
    Run(INITIAL, trace[..m]).Some? && Sweeping(Run(INITIAL, trace[..m]).value.worker)
  }

  /** Since step `n` the same tick has been running. */
  predicate SweepingSince(trace: seq<Step>, n: nat) {
    forall m :: n < m <= |trace| ==> SweepingAfter(trace, m)
  }

  /** The users the tick has not finished with. */
  predicate Concerns(w: Worker, u: UserId) {
    match w
    case TickUser(users, _) => u in users
    case TickEnqueue(keys, users, _) => u in users || (keys != [] && u == keys[0].owner)
    case _ => false
  }

  /** What is about to be enqueued belongs to one user. */
  predicate OneUserEach(w: Worker) {
    w.TickEnqueue? ==> w.keys != [] && OneOwner(w.keys, w.keys[0].owner)
  }

  lemma ListingStarts(s: State, s': State, batch: nat, dryRun: bool, o: Outcome)
    requires s.worker == TickList(batch, dryRun) && TickListNext(s, batch, dryRun, o) == Some(s') && Sweeping(s'.worker)
    ensures o.Users? && forall u :: Concerns(s'.worker, u) ==> u in o.users && Eligible(s, u) && Inactive(s', u)
  {
  }

  lemma SweepGoesOn(s: State, s': State, o: Outcome)
    requires Sweeping(s.worker) && OneUserEach(s.worker) && WorkNext(s, o) == Some(s')
    ensures OneUserEach(s'.worker) && s'.db == s.db
    ensures forall u :: Concerns(s'.worker, u) ==> Concerns(s.worker, u)
  {
    if s.worker.TickUser? && s.worker.users != [] {
      var users := s.worker.users;
      assert users[0] in users && forall u :: u in users[1..] ==> u in users;
      if o.Listed? && o.keys != [] {
        assert o.keys[0] in o.keys;
      }
    }
  }

  lemma OthersLeaveTheWorker(s: State, s': State, step: Step)
    requires Next(s, step) == Some(s') && !step.Work?
    ensures s'.worker == s.worker || !Sweeping(s'.worker)
  {
  }

  lemma OnlyTicksSweep(s: State, s': State, o: Outcome)
    requires WorkNext(s, o) == Some(s') && Sweeping(s'.worker)
    ensures Sweeping(s.worker) || s.worker.TickList?
  {
  }

  /** The tick that is running asked for its users at step `n`; those left are inactive. */
  ghost predicate ListedAt(trace: seq<Step>, n: nat) {
    && n < |trace| && Run(INITIAL, trace).Some? && SweepingSince(trace, n)
    && var s := Run(INITIAL, trace).value;
       OneUserEach(s.worker) && forall u :: Concerns(s.worker, u) ==> Lists(trace, n, u) && Inactive(s, u)
  }

  lemma AfterPrefix(trace: seq<Step>, m: nat)
    requires m < |trace|
    ensures SweepingAfter(trace[..|trace| - 1], m) == SweepingAfter(trace, m)
  {
    assert trace[..|trace| - 1][..m] == trace[..m];
  }

  lemma SweepingGoesOn(trace: seq<Step>, n: nat)
    requires trace != [] && n < |trace| && SweepingSince(trace[..|trace| - 1], n) && SweepingAfter(trace, |trace|)
    ensures SweepingSince(trace, n)
  {
    forall m | n < m <= |trace| ensures SweepingAfter(trace, m) {
      if m < |trace| {
        AfterPrefix(trace, m);
      }
    }
  }

  lemma ListsGoesOn(trace: seq<Step>, n: nat, u: UserId)
    requires trace != [] && Lists(trace[..|trace| - 1], n, u)
    ensures Lists(trace, n, u)
  {
    assert trace[..|trace| - 1][..n] == trace[..n];
  }

  lemma ListingGoesOn(trace: seq<Step>, n: nat, s: State, s': State, step: Step)
    requires trace != [] && ListedAt(trace[..|trace| - 1], n) && step == trace[|trace| - 1]
    requires Run(INITIAL, trace[..|trace| - 1]) == Some(s)
    requires Next(s, step) == Some(s') && Run(INITIAL, trace) == Some(s')
    requires Sweeping(s'.worker) && Sweeping(s.worker)
    ensures ListedAt(trace, n)
  {
    assert trace[..|trace|] == trace;
    SweepingGoesOn(trace, n);
    if step.Work? {
      SweepGoesOn(s, s', step.o);
    } else {
      OthersLeaveTheWorker(s, s', step);
    }
    forall u | Concerns(s'.worker, u) ensures Lists(trace, n, u) && Inactive(s', u) {
      ListsGoesOn(trace, n, u);
      InactiveStays(s, s', step, u);
    }
  }

  /** When the tick that is running asked for its users, and what has become of them. */
  lemma {:induction false} Listing(trace: seq<Step>) returns (n: nat)
    requires Run(INITIAL, trace).Some? && Sweeping(Run(INITIAL, trace).value.worker)
    ensures ListedAt(trace, n)
  {
    var last := |trace| - 1;
    var s, s', step := Run(INITIAL, trace[..last]).value, Run(INITIAL, trace).value, trace[last];
    if Sweeping(s.worker) {
      n := Listing(trace[..last]);
      ListingGoesOn(trace, n, s, s', step);
    } else {
      OnlyListingStarts(s, s', step);
      n := last;
      ListingStarts(s, s', s.worker.batch, s.worker.dryRun, step.o);
      assert trace[..|trace|] == trace;
    }
  }

  lemma OnlyListingStarts(s: State, s': State, step: Step)
    requires Next(s, step) == Some(s') && Sweeping(s'.worker) && !Sweeping(s.worker)
    ensures step.Work? && s.worker.TickList?
  {
    if step.Work? {
      OnlyTicksSweep(s, s', step.o);
    } else {
      OthersLeaveTheWorker(s, s', step);
    }
  }

  /** The theorem, for every run: a call of a tick enqueues at most one cleanup, and all keys in it
      belong to one and the same user, who is inactive and was inactive for more than the grace
      period when this tick listed him. */
  lemma TickNamesOnlyLapsedUsers(trace: seq<Step>, o: Outcome)
    requires Run(INITIAL, trace).Some?
    requires Ticking(Run(INITIAL, trace).value.worker) && WorkNext(Run(INITIAL, trace).value, o).Some?
    ensures
      var s := Run(INITIAL, trace).value;
      var q, q' := s.queues.pending, WorkNext(s, o).value.queues.pending;
      || q' == q
      || (exists u, keys, n ::
            && OneOwner(keys, u) && q' == q + [Entry(CleanupObjects(keys), s.now)]
            && Inactive(s, u) && Lists(trace, n, u) && SweepingSince(trace, n))
  {
    var s := Run(INITIAL, trace).value;
    if s.worker.TickEnqueue? {
      var n := Listing(trace);
      var keys := s.worker.keys;
      assert Concerns(s.worker, keys[0].owner);
      assert OneOwner(keys, keys[0].owner) && Lists(trace, n, keys[0].owner) && SweepingSince(trace, n);
      assert TickEnqueueNext(s, keys, s.worker.users, s.worker.dryRun, o).Some?;
    } else {
      assert WorkNext(s, o).value.queues.pending == s.queues.pending;
    }
  }

  // ----- a user who is being swept -----

  /** A transcode task for a row of the user. */
  predicate Transcodes(s: State, t: Task, u: UserId) {
    t.Transcode? && t.video in s.db.rows && s.db.rows[t.video].owner == u
  }

  predicate AnyOf(keys: seq<Key>, u: UserId) {
    exists k :: k in keys && k.owner == u
  }

  /** The step brings the user new objects, or work that will. */
  predicate Stirs(s: State, step: Step, u: UserId) {
    match step
    case Gateway(ClientPut(k)) => k.owner == u
    case Gateway(IntentInsert(w, _, _)) => w == u
    case Gateway(ConfirmEnqueue(v)) => Transcodes(s, Transcode(v), u)
    case Queue(Promote(i)) => i < |s.queues.scheduled| && Transcodes(s, s.queues.scheduled[i].task, u)
    case Queue(Redeliver(t)) => Transcodes(s, t, u)
    case _ => false
  }

  /** A failure is reported after which the user's objects wait for another tick or retry. */
  predicate Misses(s: State, step: Step, u: UserId) {
    step.Work? &&
    match s.worker
    case Deleting(keys) => step.o.Undeleted? && AnyOf(keys, u)
    case TickUser(users, _) => (step.o.Stop? && u in users) || (step.o.Err? && users != [] && users[0] == u)
    case TickEnqueue(keys, _, _) => step.o.NotEnqueued? && AnyOf(keys, u)
    case _ => false
  }

  /** No attempt on a video of the user is running or waits to be run. */
  predicate Quiet(s: State, u: UserId) {
    && (forall i :: 0 <= i < |s.queues.pending| ==> !Transcodes(s, s.queues.pending[i].task, u))
    && match s.worker
       case Load(v) => !Transcodes(s, Transcode(v), u)
       case Increment(v) => !Transcodes(s, Transcode(v), u)
       case Prepare(a) => a.owner != u
       case Fetch(a) => a.owner != u
       case Upload(a) => OneOwner(a.todo, a.owner) && a.owner != u
       case _ => true
  }

  /** The running handler still deals with the key. */
  predicate InHand(w: Worker, k: Key) {
    match w
    case Deleting(keys) => k in keys
    case TickUser(users, dryRun) => k.owner in users && !dryRun
    case TickEnqueue(keys, users, dryRun) => k in keys || (k.owner in users && !dryRun)
    case _ => false
  }

  /** Each stored object of the user is named by a runnable cleanup or in the worker's hands. */
  predicate Covered(s: State, u: UserId) {
    forall k :: k in s.store.keys && k.owner == u ==> Holds(s.queues.pending, k) || InHand(s.worker, k)
  }

  /** Rows do not change hands. */
  lemma GatewayKeepsOwners(s: State, s': State, g: GatewayStep, u: UserId)
    requires GatewayNext(s, g) == Some(s') && !(g.IntentInsert? && g.u == u)
    ensures forall t :: Transcodes(s', t, u) ==> Transcodes(s, t, u)
  {
    if !WritesRows(g) {
      CalmGateway(s, s', g);
    }
  }

  lemma TryingKeepsOwners(s: State, s': State, o: Outcome, u: UserId)
    requires WorkNext(s, o) == Some(s') && Trying(s.worker)
    ensures forall t :: Transcodes(s', t, u) ==> Transcodes(s, t, u)
  {
  }

  lemma TryingStaysQuiet(s: State, s': State, o: Outcome, u: UserId)
    requires Quiet(s, u) && WorkNext(s, o) == Some(s') && Trying(s.worker)
    ensures Quiet(s', u)
  {
    TryingKeepsOwners(s, s', o, u);
    assert s'.queues == s.queues;
  }

  lemma WindingDownStaysQuiet(s: State, s': State, o: Outcome, u: UserId)
    requires Quiet(s, u) && WorkNext(s, o) == Some(s') && WindingDown(s.worker)
    ensures Quiet(s', u)
  {
    assert !Trying(s'.worker);
  }

  lemma CleaningStaysQuiet(s: State, s': State, o: Outcome, u: UserId)
    requires Quiet(s, u) && WorkNext(s, o) == Some(s') && Cleaning(s.worker)
    ensures Quiet(s', u)
  {
    assert !Trying(s'.worker) && s'.queues.pending == s.queues.pending;
  }

  lemma TickingStaysQuiet(s: State, s': State, o: Outcome, u: UserId)
    requires Quiet(s, u) && WorkNext(s, o) == Some(s') && Ticking(s.worker)
    ensures Quiet(s', u)
  {
    assert !Trying(s'.worker) && s'.db == s.db;
  }

  lemma GatewayStaysQuiet(s: State, s': State, g: GatewayStep, u: UserId)
    requires Quiet(s, u) && GatewayNext(s, g) == Some(s') && !Stirs(s, Gateway(g), u)
    ensures Quiet(s', u)
  {
    GatewayKeepsOwners(s, s', g, u);
    if Enqueues(g) {
      EnqueuesCalm(s, s', g);
    } else {
      assert s'.queues == s.queues && s'.worker == s.worker;
    }
  }

  lemma QueueStaysQuiet(s: State, s': State, q: QueueStep, u: UserId)
    requires Quiet(s, u) && QueueNext(s, q) == Some(s') && !Stirs(s, Queue(q), u)
    ensures Quiet(s', u)
  {
  }

  lemma WorkStaysQuiet(s: State, s': State, o: Outcome, u: UserId)
    requires Quiet(s, u) && WorkNext(s, o) == Some(s')
    ensures Quiet(s', u)
  {
    if Trying(s.worker) {
      TryingStaysQuiet(s, s', o, u);
    } else if WindingDown(s.worker) {
      WindingDownStaysQuiet(s, s', o, u);
    } else if Cleaning(s.worker) {
      CleaningStaysQuiet(s, s', o, u);
    } else {
      TickingStaysQuiet(s, s', o, u);
    }
  }

  /** The queue as it was, or with one more entry. */
  predicate Appended(q: seq<Entry>, q': seq<Entry>) {
    q' == q || (|q'| == |q| + 1 && q' == q + [q'[|q|]])
  }

  lemma HeldStays(q: seq<Entry>, q': seq<Entry>, k: Key)
    requires Appended(q, q') && Holds(q, k)
    ensures Holds(q', k)
  {
    if q' != q {
      HoldsAppend(q, q'[|q|], k);
    }
  }

  lemma GatewayAppends(s: State, s': State, g: GatewayStep)
    requires GatewayNext(s, g) == Some(s')
    ensures Appended(s.queues.pending, s'.queues.pending) && s'.worker == s.worker
    ensures forall k :: k in s'.store.keys ==> k in s.store.keys || g == ClientPut(k)
  {
    if Enqueues(g) {
      EnqueuesCalm(s, s', g);
    }
  }

  lemma GatewayKeepsCovered(s: State, s': State, g: GatewayStep, u: UserId)
    requires Covered(s, u) && GatewayNext(s, g) == Some(s') && !Stirs(s, Gateway(g), u)
    ensures Covered(s', u)
  {
    GatewayAppends(s, s', g);
    forall k | k in s'.store.keys && k.owner == u ensures Holds(s'.queues.pending, k) || InHand(s'.worker, k) {
      if Holds(s.queues.pending, k) {
        HeldStays(s.queues.pending, s'.queues.pending, k);
      }
    }
  }

  lemma QueueKeepsCovered(s: State, s': State, q: QueueStep, u: UserId)
    requires Covered(s, u) && QueueNext(s, q) == Some(s')
    ensures Covered(s', u)
  {
    forall k | k in s'.store.keys && k.owner == u ensures Holds(s'.queues.pending, k) || InHand(s'.worker, k) {
      if Holds(s.queues.pending, k) {
        if q.Dequeue? {
          HoldsTail(s.queues.pending, k);
        } else {
          HeldStays(s.queues.pending, s'.queues.pending, k);
        }
      }
    }
  }

  /** A call that neither deletes nor sweeps stores nothing of a quiet user. */
  lemma OtherCallsAppend(s: State, s': State, o: Outcome, u: UserId)
    requires Quiet(s, u) && WorkNext(s, o) == Some(s') && !Sweeping(s.worker) && !s.worker.Deleting?
    ensures Appended(s.queues.pending, s'.queues.pending)
    ensures forall k :: k in s'.store.keys && k.owner == u ==> k in s.store.keys
  {
  }

  lemma OtherCallsKeepCovered(s: State, s': State, o: Outcome, u: UserId)
    requires Quiet(s, u) && Covered(s, u) && WorkNext(s, o) == Some(s') && !Sweeping(s.worker) && !s.worker.Deleting?
    ensures Covered(s', u)
  {
    OtherCallsAppend(s, s', o, u);
    forall k | k in s'.store.keys && k.owner == u ensures Holds(s'.queues.pending, k) || InHand(s'.worker, k) {
      HeldStays(s.queues.pending, s'.queues.pending, k);
    }
  }

  lemma DeletingKeepsCovered(s: State, s': State, keys: seq<Key>, o: Outcome, u: UserId)
    requires Covered(s, u) && s.worker == Deleting(keys)
    requires DeletingNext(s, keys, o) == Some(s') && !Misses(s, Work(o), u)
    ensures Covered(s', u)
  {
  }

  lemma ListingKeepsCovered(s: State, s': State, users: seq<UserId>, dryRun: bool, o: Outcome, u: UserId)
    requires Covered(s, u) && s.worker == TickUser(users, dryRun) && TickUserNext(s, users, dryRun, o) == Some(s')
    requires !Misses(s, Work(o), u)
    ensures Covered(s', u)
  {
  }

  lemma EnqueueKeepsCovered(s: State, s': State, keys: seq<Key>, users: seq<UserId>, dryRun: bool, o: Outcome, u: UserId)
    requires Covered(s, u) && s.worker == TickEnqueue(keys, users, dryRun)
    requires TickEnqueueNext(s, keys, users, dryRun, o) == Some(s') && !Misses(s, Work(o), u)
    ensures Covered(s', u)
  {
    forall k | k in s'.store.keys && k.owner == u ensures Holds(s'.queues.pending, k) || InHand(s'.worker, k) {
      if o.Ok? && keys != [] {
        HoldsAppend(s.queues.pending, Entry(CleanupObjects(keys), s.now), k);
      }
    }
  }

  lemma WorkKeepsCovered(s: State, s': State, o: Outcome, u: UserId)
    requires Quiet(s, u) && Covered(s, u) && WorkNext(s, o) == Some(s') && !Misses(s, Work(o), u)
    ensures Covered(s', u)
  {
    match s.worker
    case Deleting(keys) => DeletingKeepsCovered(s, s', keys, o, u);
    case TickUser(users, dryRun) => ListingKeepsCovered(s, s', users, dryRun, o, u);
    case TickEnqueue(keys, users, dryRun) => EnqueueKeepsCovered(s, s', keys, users, dryRun, o, u);
    case _ => OtherCallsKeepCovered(s, s', o, u);
  }

  lemma StepKeepsCovered(s: State, s': State, step: Step, u: UserId)
    requires Quiet(s, u) && Covered(s, u) && Next(s, step) == Some(s') && !Stirs(s, step, u) && !Misses(s, step, u)
    ensures Quiet(s', u) && Covered(s', u)
  {
    match step
    case Gateway(g) =>
      GatewayStaysQuiet(s, s', g, u);
      GatewayKeepsCovered(s, s', g, u);
    case Queue(q) =>
      QueueStaysQuiet(s, s', q, u);
      QueueKeepsCovered(s, s', q, u);
    case Work(o) =>
      WorkStaysQuiet(s, s', o, u);
      WorkKeepsCovered(s, s', o, u);
  }

  /** Nothing in the run stirs the user or loses an object of his. */
  predicate Undisturbed(s: State, trace: seq<Step>, u: UserId) {
    forall n :: 0 <= n < |trace| ==> Run(s, trace[..n]).Some? ==>
      !Stirs(Run(s, trace[..n]).value, trace[n], u) && !Misses(Run(s, trace[..n]).value, trace[n], u)
  }

  lemma {:induction false} StaysCovered(s: State, trace: seq<Step>, u: UserId)
    requires Quiet(s, u) && Covered(s, u) && Run(s, trace).Some? && Undisturbed(s, trace, u)
    ensures Quiet(Run(s, trace).value, u) && Covered(Run(s, trace).value, u)
  {
    if trace != [] {
      var n := |trace| - 1;
      assert forall m :: 0 <= m < n ==> trace[..n][..m] == trace[..m] && trace[..n][m] == trace[m];
      StaysCovered(s, trace[..n], u);
      StepKeepsCovered(Run(s, trace[..n]).value, Run(s, trace).value, trace[n], u);
    }
  }

  /** The theorem about one user, whatever everybody else does meanwhile: a tick lists him, nothing
      stirs him and no failure concerning him is reported. Then at any later time each object of his
      is named by a runnable cleanup or still in the worker's hands. */
  lemma SweptUserIsCovered(s: State, batch: nat, users: seq<UserId>, trace: seq<Step>, u: UserId)
    requires s.worker == TickList(batch, false) && u in users && Quiet(s, u)
    requires trace != [] && trace[0] == Work(Users(users)) && Run(s, trace).Some? && Undisturbed(s, trace, u)
    ensures Covered(Run(s, trace).value, u)
  {
    var rest := trace[1..];
    assert trace == [trace[0]] + rest;
    Traces.RunCons(s, trace[0], rest);
    var s1 := Next(s, trace[0]).value;
    assert s1 == Goto(s, TickUser(users, false));
    forall n | 0 <= n < |rest| && Run(s1, rest[..n]).Some?
      ensures !Stirs(Run(s1, rest[..n]).value, rest[n], u) && !Misses(Run(s1, rest[..n]).value, rest[n], u)
    {
      Traces.RunCons(s, trace[0], rest[..n]);
      assert trace[..n + 1] == [trace[0]] + rest[..n] && trace[n + 1] == rest[n];
    }
    StaysCovered(s1, rest, u);
  }

  // ----- one tick and a drain -----

  /** A call of the worker that reports no failure, or the queue handing over the next task. */
  predicate Smooth(step: Step) {
    match step
    case Gateway(_) => false
    case Queue(q) => q.Dequeue?
    case Work(o) => !o.Err? && !o.NotEnqueued? && !o.Fails? && !o.Undeleted? && !o.PutFailed? && !o.Stop?
  }

  predicate AllSmooth(trace: seq<Step>) {
    forall i :: 0 <= i < |trace| ==> Smooth(trace[i])
  }

  /** A tick, its query answering every eligible user, and a drain of the queue. */
  predicate TickAndDrain(s: State, batch: nat, users: seq<UserId>, trace: seq<Step>) {
    && s.worker == TickList(batch, false)
    && (forall u :: u in s.db.users && Eligible(s, u) ==> u in users && Quiet(s, u))
    && trace != [] && trace[0] == Work(Users(users)) && AllSmooth(trace)
    && Run(s, trace).Some? && Run(s, trace).value.worker == Idle && Run(s, trace).value.queues.pending == []
  }

  /** The worker and the queue are idle, nobody has become eligible, and no object of an eligible
      user is left. */
  predicate Emptied(s: State, s': State) {
    && s'.worker == Idle && s'.queues.pending == [] && s'.now == s.now && s'.db.users == s.db.users
    && forall k :: k in s'.store.keys ==> !Eligible(s, k.owner)
  }

  lemma SmoothKeepsUsers(s: State, s': State, step: Step)
    requires Next(s, step) == Some(s') && Smooth(step)
    ensures s'.now == s.now && s'.db.users == s.db.users
  {
  }

  lemma {:induction false} SmoothRun(s: State, trace: seq<Step>)
    requires Run(s, trace).Some? && AllSmooth(trace)
    ensures Run(s, trace).value.now == s.now && Run(s, trace).value.db.users == s.db.users
  {
    if trace != [] {
      var n := |trace| - 1;
      SmoothRun(s, trace[..n]);
      SmoothKeepsUsers(Run(s, trace[..n]).value, Run(s, trace).value, trace[n]);
    }
  }

  /** The theorem: every tick and drain of the queue in which no failure is reported leaves no
      object of an eligible user. */
  lemma TickAndDrainEmptyThePrefixes(s: State, batch: nat, users: seq<UserId>, trace: seq<Step>)
    requires TickAndDrain(s, batch, users, trace)
    ensures Emptied(s, Run(s, trace).value)
  {
    var s' := Run(s, trace).value;
    SmoothRun(s, trace);
    forall k | k in s'.store.keys ensures !Eligible(s, k.owner) {
      if Eligible(s, k.owner) {
        SweptUserIsCovered(s, batch, users, trace, k.owner);
      }
    }
  }

  // ----- such ticks exist -----

  /** A listing for each user, none longer than one delete request may be. */
  predicate Listings(keys: set<Key>, users: seq<UserId>, lists: seq<seq<Key>>) {
    && |lists| == |users|
    && forall i :: 0 <= i < |users| ==> ListsKeysOf(keys, users[i], lists[i]) && |lists[i]| <= DELETE_LIMIT
  }

  predicate OnlyCleanups(q: seq<Entry>) {
    forall i :: 0 <= i < |q| ==> q[i].task.CleanupObjects? && |q[i].task.keys| <= DELETE_LIMIT
  }

  /** The tick goes through its users without a failure. */
  lemma {:induction false} Sweep(s: State, users: seq<UserId>, lists: seq<seq<Key>>)
    returns (trace: seq<Step>, s': State)
    requires s.worker == TickUser(users, false)
    requires Listings(s.store.keys, users, lists) && OnlyCleanups(s.queues.pending)
    ensures Run(s, trace) == Some(s') && AllSmooth(trace) && s'.worker == Idle && OnlyCleanups(s'.queues.pending)
    decreases |users|
  {
    if users == [] {
      trace, s' := [Work(Ok)], Goto(s, Idle);
      Traces.RunCons(s, Work(Ok), []);
    } else {
      var listed := Work(Listed(lists[0]));
      var s1 := Next(s, listed).value;
      if lists[0] == [] {
        trace, s' := Sweep(s1, users[1..], lists[1..]);
      } else {
        var s2 := Next(s1, Work(Ok)).value;
        trace, s' := Sweep(s2, users[1..], lists[1..]);
        Traces.RunCons(s1, Work(Ok), trace);
        trace := [Work(Ok)] + trace;
      }
      Traces.RunCons(s, listed, trace);
      trace := [listed] + trace;
    }
  }

  /** The queue runs empty, every cleanup succeeding. */
  lemma {:induction false} Drain(s: State) returns (trace: seq<Step>, s': State)
    requires s.worker == Idle && OnlyCleanups(s.queues.pending)
    ensures Run(s, trace) == Some(s') && AllSmooth(trace) && s'.worker == Idle && s'.queues.pending == []
    decreases |s.queues.pending|
  {
    if s.queues.pending == [] {
      trace, s' := [], s;
    } else {
      var s1 := Next(s, Queue(Dequeue)).value;
      var s2 := Next(s1, Work(Ok)).value;
      var rest;
      rest, s' := Drain(s2);
      trace := [Queue(Dequeue)] + ([Work(Ok)] + rest);
      Traces.RunCons(s1, Work(Ok), rest);
      Traces.RunCons(s, Queue(Dequeue), [Work(Ok)] + rest);
    }
  }

  lemma TickAndDrainRun(s: State, batch: nat, users: seq<UserId>, lists: seq<seq<Key>>) returns (trace: seq<Step>)
    requires s.worker == TickList(batch, false) && OnlyCleanups(s.queues.pending)
    requires |users| <= batch && (forall u :: u in users <==> Eligible(s, u)) && Listings(s.store.keys, users, lists)
    ensures TickAndDrain(s, batch, users, trace)
  {
    var listed := Work(Users(users));
    var s1 := Next(s, listed).value;
    var sweep, swept := Sweep(s1, users, lists);
    var drain, drained := Drain(swept);
    trace := [listed] + (sweep + drain);
    Traces.RunConcat(s1, sweep, drain);
    Traces.RunCons(s, listed, sweep + drain);
  }

  /** With the eligible users within the batch and at most 1000 keys each, a tick and a drain without
      a failure is possible. */
  lemma TickAndDrainIsPossible(s: State, batch: nat, users: seq<UserId>, lists: seq<seq<Key>>)
    requires s.worker == TickList(batch, false) && OnlyCleanups(s.queues.pending)
    requires |users| <= batch && (forall u :: u in users <==> Eligible(s, u)) && Listings(s.store.keys, users, lists)
    ensures exists trace :: TickAndDrain(s, batch, users, trace)
  {
    var trace := TickAndDrainRun(s, batch, users, lists);
    assert TickAndDrain(s, batch, users, trace);
  }

  // ----- the next tick -----

  predicate OnlyWork(trace: seq<Step>) {
    forall i :: 0 <= i < |trace| ==> trace[i].Work?
  }

  predicate HaveObjects(keys: set<Key>, users: seq<UserId>) {
    exists k :: k in keys && k.owner in users
  }

  /** Only a user who holds something makes the tick enqueue. */
  lemma CallIsQuiet(s: State, s': State, users: seq<UserId>, o: Outcome)
    requires s.worker.TickUser? && (forall u :: u in s.worker.users ==> u in users) && WorkNext(s, o) == Some(s')
    ensures s'.queues == s.queues && s'.store == s.store
    ensures
      || HaveObjects(s.store.keys, users) || s'.worker == Idle
      || (s'.worker.TickUser? && forall u :: u in s'.worker.users ==> u in users)
  {
    if s.worker.users != [] && o.Listed? && o.keys != [] {
      assert o.keys[0] in o.keys;
      assert s.worker.users[0] in s.worker.users;
    }
  }

  /** When the swept users hold nothing, the calls of the tick enqueue nothing, however they turn out. */
  lemma {:induction false} SweepOverNothing(s: State, users: seq<UserId>, trace: seq<Step>)
    requires s.worker.TickUser? && s.worker.users == users && !HaveObjects(s.store.keys, users)
    requires OnlyWork(trace) && Run(s, trace).Some?
    ensures
      var s' := Run(s, trace).value;
      && s'.queues == s.queues && s'.store == s.store
      && (s'.worker == Idle || (s'.worker.TickUser? && forall u :: u in s'.worker.users ==> u in users))
  {
    if trace != [] {
      var n := |trace| - 1;
      SweepOverNothing(s, users, trace[..n]);
      var before := Run(s, trace[..n]).value;
      if before.worker != Idle {
        CallIsQuiet(before, Run(s, trace).value, users, trace[n].o);
      }
    }
  }

  /** Nothing is enqueued and nothing deleted; a tick whose query fails is put back. */
  predicate NothingDone(s: State, s': State)
    requires s.worker.TickList?
  {
    && s'.queues.pending == s.queues.pending && s'.store == s.store
    && Appended(s.queues.scheduled, s'.queues.scheduled)
    && (s'.queues.scheduled != s.queues.scheduled ==>
         s'.queues.scheduled[|s.queues.scheduled|].task == ReconcileTick(s.worker.batch, s.worker.dryRun))
  }

  lemma {:induction false} IdleStays(s: State, trace: seq<Step>)
    requires s.worker == Idle && OnlyWork(trace) && Run(s, trace).Some?
    ensures trace == []
  {
    if trace != [] {
      IdleStays(s, trace[..|trace| - 1]);
    }
  }

  lemma TickOverNothing(s: State, trace: seq<Step>)
    requires s.worker.TickList? && (forall k :: k in s.store.keys ==> !Eligible(s, k.owner))
    requires OnlyWork(trace) && Run(s, trace).Some?
    ensures NothingDone(s, Run(s, trace).value)
  {
    if trace != [] {
      var rest := trace[1..];
      assert trace == [trace[0]] + rest;
      Traces.RunCons(s, trace[0], rest);
      var s1 := Next(s, trace[0]).value;
      if s1.worker == Idle {
        IdleStays(s1, rest);
      } else {
        SweepOverNothing(s1, s1.worker.users, rest);
      }
    }
  }

  /** The theorem: after a tick and a drain without failures, the next tick - whatever its batch and
      however its calls turn out - enqueues no cleanup and deletes nothing. */
  lemma NextTickEnqueuesNothing(s: State, batch: nat, users: seq<UserId>, trace: seq<Step>, again: nat, dryRun: bool, calls: seq<Step>)
    requires TickAndDrain(s, batch, users, trace) && again > 0 && OnlyWork(calls)
    requires Run(s, trace + [Gateway(EnqueueTick(again, dryRun)), Queue(Dequeue)] + calls).Some?
    ensures
      var s', next := Run(s, trace).value, [Gateway(EnqueueTick(again, dryRun)), Queue(Dequeue)];
      && Run(s, trace + next).Some? && Run(s, trace + next).value == Goto(s', TickList(again, dryRun))
      && NothingDone(Run(s, trace + next).value, Run(s, trace + next + calls).value)
  {
    var s', next := Run(s, trace).value, [Gateway(EnqueueTick(again, dryRun)), Queue(Dequeue)];
    TickAndDrainEmptyThePrefixes(s, batch, users, trace);
    var queued := Next(s', next[0]).value;
    var started := Next(queued, next[1]).value;
    assert started == Goto(s', TickList(again, dryRun));
    Traces.RunSnoc(s, trace, s', next[0], queued);
    Traces.RunSnoc(s, trace + [next[0]], queued, next[1], started);
    assert trace + next == trace + [next[0]] + [next[1]];
    Traces.RunConcat(s, trace + next, calls);
    TickOverNothing(started, calls);
  }

  // ----- when a user becomes eligible -----

  predicate DeletesAccount(step: Step, u: UserId) {
    step.Gateway? && step.g.AccountDelete? && step.g.u == u
  }

  /** An active user has no time of deletion; an inactive one's changes with the deletion of her account only. */
  predicate UserStep(s: State, s': State, step: Step, u: UserId) {
    u in s.db.users ==>
      && u in s'.db.users
      && (s.db.users[u].active && s.db.users[u].deletedAt.None? ==>
           if step == Gateway(Deactivate(u)) || DeletesAccount(step, u) then s'.db.users[u] == User(false, Some(s.now))
           else s'.db.users[u] == s.db.users[u])
      && (!s.db.users[u].active && s.db.users[u].deletedAt.Some? ==>
           s'.db.users[u] == if DeletesAccount(step, u) then User(false, Some(s.now)) else s.db.users[u])
  }

  lemma UserSteps(s: State, s': State, step: Step, u: UserId)
    requires Next(s, step) == Some(s')
    ensures UserStep(s, s', step, u)
    ensures u in s'.db.users && u !in s.db.users ==> s'.db.users[u] == User(true, None)
  {
    if step.Gateway? && !WritesRows(step.g) {
      CalmGateway(s, s', step.g);
    }
  }

  lemma {:induction false} ActiveIffUndeleted(trace: seq<Step>, u: UserId)
    requires Run(INITIAL, trace).Some? && u in Run(INITIAL, trace).value.db.users
    ensures Run(INITIAL, trace).value.db.users[u].active <==> Run(INITIAL, trace).value.db.users[u].deletedAt.None?
  {
    if trace != [] {
      var n := |trace| - 1;
      var s := Run(INITIAL, trace[..n]).value;
      UserSteps(s, Run(INITIAL, trace).value, trace[n], u);
      if u in s.db.users {
        ActiveIffUndeleted(trace[..n], u);
      }
    }
  }

  lemma {:induction false} DeletionTimeStays(trace: seq<Step>, n: nat, u: UserId, time: nat)
    requires n <= |trace| && Run(INITIAL, trace).Some? && Run(INITIAL, trace[..n]).Some?
    requires u in Run(INITIAL, trace[..n]).value.db.users && Run(INITIAL, trace[..n]).value.db.users[u] == User(false, Some(time))
    requires forall i :: n <= i < |trace| ==> !DeletesAccount(trace[i], u)
    ensures u in Run(INITIAL, trace).value.db.users && Run(INITIAL, trace).value.db.users[u] == User(false, Some(time))
    decreases |trace|
  {
    if n == |trace| {
      assert trace[..n] == trace;
    } else {
      var m := |trace| - 1;
      assert trace[..m][..n] == trace[..n];
      DeletionTimeStays(trace[..m], n, u, time);
      UserSteps(Run(INITIAL, trace[..m]).value, Run(INITIAL, trace).value, trace[m], u);
    }
  }

  /** The theorem: an active user who is deactivated is eligible for the sweep exactly when more than a day has passed
      since; deactivating again postpones nothing. */
  lemma EligibleAfterADay(trace: seq<Step>, n: nat, u: UserId)
    requires n < |trace| && Run(INITIAL, trace).Some? && Run(INITIAL, trace[..n]).Some? && trace[n] == Gateway(Deactivate(u))
    requires u in Run(INITIAL, trace[..n]).value.db.users && Run(INITIAL, trace[..n]).value.db.users[u].active
    requires forall i :: n < i < |trace| ==> !DeletesAccount(trace[i], u)
    ensures Eligible(Run(INITIAL, trace).value, u)
      <==> Run(INITIAL, trace[..n]).value.now + 86_400 < Run(INITIAL, trace).value.now
  {
    var s := Run(INITIAL, trace[..n]).value;
    ActiveIffUndeleted(trace[..n], u);
    Traces.PrefixRuns(INITIAL, trace, n + 1);
    assert trace[..n + 1][..n] == trace[..n];
    UserSteps(s, Run(INITIAL, trace[..n + 1]).value, trace[n], u);
    DeletionTimeStays(trace, n + 1, u, s.now);
  }
}
