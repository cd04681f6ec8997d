/** The evicting token-bucket store of the rate-limit middleware against one that never evicts:
    they give the same answers to every request trace if and only if an idle bucket refills
    within the eviction time. Exact real arithmetic. */
module RateLimit {

  /** A limiter's knobs: refill per second, bucket size, and seconds of idleness before eviction. */
  datatype Config = Config(rate: real, burst: nat, ttl: real)

  predicate Sane(c: Config) {
    c.rate > 0.0 && c.burst >= 1 && c.ttl >= 0.0
  }

  /** An idle bucket is full again before it is evicted. */
  predicate Refills(c: Config) {
    Sane(c) && c.rate * c.ttl >= c.burst as real
  }

  datatype Bucket = Bucket(tokens: real, last: real)

  datatype Entry = Entry(bucket: Bucket, lastSeen: real)

  type Store = map<string, Entry>

  type Buckets = map<string, Bucket>

  /** One request, or one run of the janitor. */
  datatype Event =
    | Request(id: string, at: real)
    | Sweep(at: real)

  function Min(a: real, b: real): real {
    if a <= b then a else b
  }

  /** Time counted in tokens. */
  function Drip(c: Config, at: real): real {
    c.rate * at
  }

  /** The refill of a span of time, rate times elapsed seconds, is a difference of drips. */
  lemma RefillIsElapsed(c: Config, from: real, to: real)
    ensures Drip(c, to) - Drip(c, from) == c.rate * (to - from)
    ensures Sane(c) && from <= to ==> Drip(c, from) <= Drip(c, to)
  {
    assert Sane(c) && from <= to ==> c.rate * (to - from) >= 0.0;
  }

  /** Tokens at a later time: refilled, up to the bucket size. */
  function Level(c: Config, b: Bucket, now: real): real {
    Min(c.burst as real, b.tokens + (if now > b.last then Drip(c, now) - Drip(c, b.last) else 0.0))
  }

  function Full(c: Config, now: real): Bucket {
    Bucket(c.burst as real, now)
  }

  /** AllowN(now, 1): a refused call leaves the limiter alone. */
  function Take(c: Config, b: Bucket, now: real): (bool, Bucket) {
    var level := Level(c, b, now);
    if level >= 1.0 then (true, Bucket(level - 1.0, now)) else (false, b)
  }

  // ----- the two stores -----

  function AllowNext(c: Config, m: Store, id: string, now: real): (bool, Store) {
    var before := if id in m then m[id].bucket else Full(c, now);
    var (ok, after) := Take(c, before, now);
    (ok, m[id := Entry(after, now)])
  }

  predicate Stale(c: Config, e: Entry, now: real) {
    now - e.lastSeen > c.ttl
  }

  function SweepNext(c: Config, m: Store, now: real): Store {
    map id | id in m && !Stale(c, m[id], now) :: m[id]
  }

  /** The store that never forgets. */
  function KeepNext(c: Config, m: Buckets, id: string, now: real): (bool, Buckets) {
    var before := if id in m then m[id] else Full(c, now);
    var (ok, after) := Take(c, before, now);
    (ok, m[id := after])
  }

  /** An answered request. */
  datatype Answer = Answer(id: string, at: real, ok: bool)

  datatype Outcome<S> = Outcome(state: S, answers: seq<Answer>)

  function RunEvicting(c: Config, trace: seq<Event>): Outcome<Store> {
    if trace == [] then Outcome(map[], [])
    else
      var before := RunEvicting(c, trace[..|trace| - 1]);
      match trace[|trace| - 1]
      case Request(id, now) =>
        var (ok, m) := AllowNext(c, before.state, id, now);
        Outcome(m, before.answers + [Answer(id, now, ok)])
      case Sweep(now) => Outcome(SweepNext(c, before.state, now), before.answers)
  }

  function RunKeeping(c: Config, trace: seq<Event>): Outcome<Buckets> {
    if trace == [] then Outcome(map[], [])
    else
      var before := RunKeeping(c, trace[..|trace| - 1]);
      match trace[|trace| - 1]
      case Request(id, now) =>
        var (ok, m) := KeepNext(c, before.state, id, now);
        Outcome(m, before.answers + [Answer(id, now, ok)])
      case Sweep(now) => before
  }

  /** The clock does not run backwards. */
  predicate Chronological(trace: seq<Event>) {
    forall i, j :: 0 <= i <= j < |trace| ==> trace[i].at <= trace[j].at
  }

  // ----- they agree -----

  /** A forgotten bucket is full again by now, a remembered one is the same in both stores. */
  predicate Agrees(c: Config, m: Store, k: Buckets, id: string, now: real) {
    && (id in m ==> id in k && m[id].bucket == k[id])
    && (id in m ==> m[id].bucket.last <= m[id].lastSeen <= now && m[id].bucket.tokens >= 0.0)
    && (id in k && id !in m ==> Level(c, k[id], now) == c.burst as real)
  }

  lemma LaterIsFuller(c: Config, b: Bucket, now: real, later: real)
    requires Sane(c) && now <= later
    ensures Level(c, b, now) <= Level(c, b, later)
  {
    RefillIsElapsed(c, now, later);
    RefillIsElapsed(c, b.last, later);
  }

  /** An entry idle for longer than the eviction time has refilled. */
  lemma StaleIsFull(c: Config, e: Entry, now: real)
    requires Refills(c)
    requires e.bucket.tokens >= 0.0 && e.bucket.last <= e.lastSeen && Stale(c, e, now)
    ensures Level(c, e.bucket, now) == c.burst as real
  {
    RefillIsElapsed(c, e.bucket.last, now);
    RefillIsElapsed(c, c.ttl, now - e.bucket.last);
    assert Drip(c, c.ttl) <= Drip(c, now - e.bucket.last);
  }

  lemma {:induction false} StoresAgree(c: Config, trace: seq<Event>, now: real)
    requires Refills(c) && Chronological(trace)
    requires trace != [] ==> trace[|trace| - 1].at <= now
    ensures RunEvicting(c, trace).answers == RunKeeping(c, trace).answers
    ensures forall id :: Agrees(c, RunEvicting(c, trace).state, RunKeeping(c, trace).state, id, now)
  {
    if trace != [] {
      var n := |trace| - 1;
      var e := trace[n];
      StoresAgree(c, trace[..n], e.at);
      var m, k := RunEvicting(c, trace[..n]).state, RunKeeping(c, trace[..n]).state;
      forall id ensures Agrees(c, RunEvicting(c, trace).state, RunKeeping(c, trace).state, id, now) {
        assert Agrees(c, m, k, id, e.at);
        match e
        case Request(who, at) => RequestAgrees(c, m, k, who, at, id, now);
        case Sweep(at) => SweepAgrees(c, m, k, at, id, now);
      }
      if e.Request? {
        assert Agrees(c, m, k, e.id, e.at);
        RequestAnswers(c, m, k, e.id, e.at);
      }
    }
  }

  lemma RequestAnswers(c: Config, m: Store, k: Buckets, who: string, at: real)
    requires Sane(c) && Agrees(c, m, k, who, at)
    ensures AllowNext(c, m, who, at).0 == KeepNext(c, k, who, at).0
    ensures AllowNext(c, m, who, at).1[who].bucket == KeepNext(c, k, who, at).1[who]
    ensures AllowNext(c, m, who, at).1[who].bucket.tokens >= 0.0 && AllowNext(c, m, who, at).1[who].bucket.last <= at
  {
  }

  lemma RequestAgrees(c: Config, m: Store, k: Buckets, who: string, at: real, id: string, now: real)
    requires Sane(c) && at <= now && Agrees(c, m, k, id, at)
    ensures Agrees(c, AllowNext(c, m, who, at).1, KeepNext(c, k, who, at).1, id, now)
  {
    if id == who {
      RequestAnswers(c, m, k, who, at);
    } else if id in k {
      LaterIsFuller(c, k[id], at, now);
    }
  }

  lemma SweepAgrees(c: Config, m: Store, k: Buckets, at: real, id: string, now: real)
    requires Refills(c) && at <= now && Agrees(c, m, k, id, at)
    ensures Agrees(c, SweepNext(c, m, at), k, id, now)
  {
    if id in m && Stale(c, m[id], at) {
      StaleIsFull(c, m[id], at);
    }
    if id in k {
      LaterIsFuller(c, k[id], at, now);
    }
  }

  // ----- how much an identity gets -----

  /** Allowed requests of `id` at or after time `from`. */
  function Allowed(answers: seq<Answer>, id: string, from: real): nat {
    if answers == [] then 0
    else
      var a := answers[|answers| - 1];
      Allowed(answers[..|answers| - 1], id, from) + (if a.id == id && a.at >= from && a.ok then 1 else 0)
  }

  lemma AllowedAppend(answers: seq<Answer>, a: Answer, id: string, from: real)
    ensures Allowed(answers + [a], id, from) == Allowed(answers, id, from) + (if a.id == id && a.at >= from && a.ok then 1 else 0)
  {
    assert (answers + [a])[..|answers|] == answers;
  }

  lemma {:induction false} AllowedConcat(p: seq<Answer>, q: seq<Answer>, id: string, from: real)
    ensures Allowed(p + q, id, from) == Allowed(p, id, from) + Allowed(q, id, from)
  {
    if q == [] {
      assert p + q == p;
    } else {
      var n := |q| - 1;
      AllowedConcat(p, q[..n], id, from);
      AllowedAppend(p + q[..n], q[n], id, from);
      assert p + q == (p + q[..n]) + [q[n]];
    }
  }

  function LevelOf(c: Config, k: Buckets, id: string, now: real): real {
    if id in k then Level(c, k[id], now) else c.burst as real
  }

  lemma AtMostFull(c: Config, k: Buckets, id: string, now: real)
    ensures LevelOf(c, k, id, now) <= c.burst as real
  {
  }

  lemma {:induction false} NothingYet(c: Config, trace: seq<Event>, id: string, from: real)
    requires Chronological(trace) && trace != [] && trace[|trace| - 1].at < from
    ensures Allowed(RunKeeping(c, trace).answers, id, from) == 0
  {
    var n := |trace| - 1;
    if n > 0 {
      NothingYet(c, trace[..n], id, from);
    } else {
      assert trace[..0] == [];
    }
    KeepingStep(c, trace, id, from);
  }

  /** How the last event of a run counts. */
  lemma KeepingStep(c: Config, trace: seq<Event>, id: string, from: real)
    requires trace != []
    ensures
      var n, e := |trace| - 1, trace[|trace| - 1];
      var before, after := RunKeeping(c, trace[..n]), RunKeeping(c, trace);
      if e.Sweep? then after == before
      else
        var (ok, k) := KeepNext(c, before.state, e.id, e.at);
        after.state == k && Allowed(after.answers, id, from)
          == Allowed(before.answers, id, from) + (if e.id == id && e.at >= from && ok then 1 else 0)
  {
    var n, e := |trace| - 1, trace[|trace| - 1];
    if e.Request? {
      var before := RunKeeping(c, trace[..n]);
      AllowedAppend(before.answers, Answer(e.id, e.at, KeepNext(c, before.state, e.id, e.at).0), id, from);
    }
  }

  lemma {:induction false} LastIsPast(c: Config, trace: seq<Event>, id: string)
    requires Chronological(trace) && id in RunKeeping(c, trace).state
    ensures trace != [] && RunKeeping(c, trace).state[id].last <= trace[|trace| - 1].at
  {
    var n := |trace| - 1;
    if trace[n].Sweep? || trace[n].id != id || id in RunKeeping(c, trace[..n]).state {
      LastIsPast(c, trace[..n], id);
    }
  }

  lemma RefillBound(c: Config, b: Bucket, at: real, now: real)
    requires Sane(c) && b.last <= at <= now
    ensures Level(c, b, now) <= Level(c, b, at) + Drip(c, now) - Drip(c, at)
  {
    RefillIsElapsed(c, at, now);
    RefillIsElapsed(c, b.last, at);
  }

  lemma LevelGrows(c: Config, k: Buckets, id: string, at: real, now: real)
    requires Sane(c) && at <= now && (id in k ==> k[id].last <= at)
    ensures LevelOf(c, k, id, now) <= LevelOf(c, k, id, at) + Drip(c, now) - Drip(c, at)
  {
    RefillIsElapsed(c, at, now);
    if id in k {
      RefillBound(c, k[id], at, now);
    }
  }

  /** An allowed request costs its identity a token, anything else costs it nothing. */
  lemma TokenTaken(c: Config, k: Buckets, who: string, at: real, id: string)
    requires Sane(c)
    ensures
      var (ok, k') := KeepNext(c, k, who, at);
      LevelOf(c, k', id, at) <= LevelOf(c, k, id, at) - (if ok && who == id then 1.0 else 0.0)
  {
  }

  /** Tokens are conserved: what an identity got since `from`, and what it could still get, is at
      most a full bucket and the refill since. */
  lemma {:induction false} AllowedBounded(c: Config, trace: seq<Event>, id: string, from: real, now: real)
    requires Sane(c) && Chronological(trace) && from <= now
    requires trace != [] ==> trace[|trace| - 1].at <= now
    ensures Spent(c, trace, id, from, now) <= (c.burst as real) + Drip(c, now) - Drip(c, from)
  {
    if trace == [] || trace[|trace| - 1].at < from {
      NothingSpent(c, trace, id, from, now);
      RefillIsElapsed(c, from, now);
    } else {
      var n, at := |trace| - 1, trace[|trace| - 1].at;
      AllowedBounded(c, trace[..n], id, from, at);
      SpentStep(c, trace, id, from, now);
    }
  }

  /** What the identity got since `from` and what it could still get at `now`. */
  function Spent(c: Config, trace: seq<Event>, id: string, from: real, now: real): real {
    var r := RunKeeping(c, trace);
    (Allowed(r.answers, id, from) as real) + LevelOf(c, r.state, id, now)
  }

  lemma NothingSpent(c: Config, trace: seq<Event>, id: string, from: real, now: real)
    requires Chronological(trace) && (trace == [] || trace[|trace| - 1].at < from)
    ensures Spent(c, trace, id, from, now) <= c.burst as real
  {
    AtMostFull(c, RunKeeping(c, trace).state, id, now);
    if trace != [] {
      NothingYet(c, trace, id, from);
    }
  }

  lemma SpentStep(c: Config, trace: seq<Event>, id: string, from: real, now: real)
    requires Sane(c) && Chronological(trace) && trace != [] && from <= trace[|trace| - 1].at <= now
    ensures
      var n, at := |trace| - 1, trace[|trace| - 1].at;
      Spent(c, trace, id, from, now) <= Spent(c, trace[..n], id, from, at) + Drip(c, now) - Drip(c, at)
  {
    var n, e := |trace| - 1, trace[|trace| - 1];
    var before, after := RunKeeping(c, trace[..n]), RunKeeping(c, trace);
    if id in after.state {
      LastIsPast(c, trace, id);
    }
    LevelGrows(c, after.state, id, e.at, now);
    KeepingStep(c, trace, id, from);
    if e.Request? {
      TokenTaken(c, before.state, e.id, e.at, id);
    }
  }

  lemma KeepingBound(c: Config, trace: seq<Event>, id: string, from: real, now: real)
    requires Sane(c) && Chronological(trace) && from <= now
    requires trace != [] ==> trace[|trace| - 1].at <= now
    ensures (Allowed(RunKeeping(c, trace).answers, id, from) as real) <= (c.burst as real) + Drip(c, now) - Drip(c, from)
  {
    AllowedBounded(c, trace, id, from, now);
    LevelNotNegative(c, trace, id, now);
  }

  /** In any window of length `span` an identity gets at most burst + rate * span requests through,
      sweeps or not. (`trace` is the run up to the end of the window.) */
  lemma WindowBound(c: Config, trace: seq<Event>, id: string, from: real, span: real)
    requires Refills(c) && Chronological(trace) && span >= 0.0
    requires trace != [] ==> trace[|trace| - 1].at <= from + span
    ensures (Allowed(RunEvicting(c, trace).answers, id, from) as real) <= (c.burst as real) + c.rate * span
  {
    StoresAgree(c, trace, from + span);
    KeepingBound(c, trace, id, from, from + span);
    DripOfSpan(c, from, span);
  }

  lemma DripOfSpan(c: Config, from: real, span: real)
    ensures Drip(c, from + span) - Drip(c, from) == c.rate * span
  {
  }

  lemma {:induction false} LevelNotNegative(c: Config, trace: seq<Event>, id: string, now: real)
    requires Sane(c) && Chronological(trace) && (trace != [] ==> trace[|trace| - 1].at <= now)
    ensures LevelOf(c, RunKeeping(c, trace).state, id, now) >= 0.0
    ensures id in RunKeeping(c, trace).state ==> RunKeeping(c, trace).state[id].tokens >= 0.0
  {
    if trace != [] {
      var n := |trace| - 1;
      LevelNotNegative(c, trace[..n], id, trace[n].at);
    }
    var k := RunKeeping(c, trace).state;
    if id in k {
      RefillIsElapsed(c, k[id].last, now);
    }
  }

  // ----- and not less -----

  /** One request more of the identity would be within the limit of the window that began at `from`. */
  predicate Room(c: Config, answers: seq<Answer>, id: string, from: real, now: real) {
    ((Allowed(answers, id, from) + 1) as real) <= (c.burst as real) + c.rate * (now - from)
  }

  /** At the time of an event nothing is lost: a token less is a request more. */
  lemma SpentExactly(c: Config, trace: seq<Event>, id: string, from: real)
    requires Sane(c) && trace != [] && from <= trace[|trace| - 1].at
    ensures
      var n, at := |trace| - 1, trace[|trace| - 1].at;
      Spent(c, trace, id, from, at) == Spent(c, trace[..n], id, from, at)
  {
    KeepingStep(c, trace, id, from);
  }

  /** A bucket that is not full has lost nothing to its rim. */
  lemma RefillExactly(c: Config, k: Buckets, id: string, at: real, now: real)
    requires Sane(c) && at <= now && (id in k ==> k[id].last <= at) && LevelOf(c, k, id, now) < c.burst as real
    ensures LevelOf(c, k, id, now) == LevelOf(c, k, id, at) + Drip(c, now) - Drip(c, at)
    ensures LevelOf(c, k, id, at) < c.burst as real
  {
    RefillIsElapsed(c, at, now);
    RefillIsElapsed(c, k[id].last, at);
  }

  /** Since the bucket was last full, all of it and of the refill has been let through or is still there. */
  lemma {:induction false} TightWindow(c: Config, trace: seq<Event>, id: string, now: real) returns (from: real)
    requires Sane(c) && Chronological(trace) && (trace != [] ==> trace[|trace| - 1].at <= now)
    requires LevelOf(c, RunKeeping(c, trace).state, id, now) < c.burst as real
    ensures from <= now && Spent(c, trace, id, from, now) == (c.burst as real) + Drip(c, now) - Drip(c, from)
  {
    var n, at := |trace| - 1, trace[|trace| - 1].at;
    var before, after := RunKeeping(c, trace[..n]).state, RunKeeping(c, trace).state;
    if id in after {
      LastIsPast(c, trace, id);
    }
    RefillExactly(c, after, id, at, now);
    if LevelOf(c, before, id, at) < c.burst as real {
      from := TightWindow(c, trace[..n], id, at);
    } else {
      from := at;
      AtMostFull(c, before, id, at);
      AllowedBounded(c, trace[..n], id, at, at);
    }
    SpentExactly(c, trace, id, from);
  }

  /** The theorem: a request is let through if and only if, with it, its identity is within the limit of every
      window that ends now. */
  lemma GrantedIff(c: Config, trace: seq<Event>, id: string, now: real)
    requires Sane(c) && Chronological(trace) && (trace != [] ==> trace[|trace| - 1].at <= now)
    ensures KeepNext(c, RunKeeping(c, trace).state, id, now).0
      <==> forall from :: from <= now ==> Room(c, RunKeeping(c, trace).answers, id, from, now)
  {
    var r := RunKeeping(c, trace);
    if LevelOf(c, r.state, id, now) >= 1.0 {
      forall from | from <= now ensures Room(c, r.answers, id, from, now) {
        AllowedBounded(c, trace, id, from, now);
        RefillIsElapsed(c, from, now);
      }
    } else {
      var from := TightWindow(c, trace, id, now);
      RefillIsElapsed(c, from, now);
      assert !Room(c, r.answers, id, from, now);
    }
  }

  // ----- and only then -----

  /** `n` requests at once. */
  function Volley(id: string, at: real, n: nat): seq<Event> {
    if n == 0 then [] else Volley(id, at, n - 1) + [Request(id, at)]
  }

  function Granted(id: string, at: real, n: nat): seq<Answer> {
    if n == 0 then [] else Granted(id, at, n - 1) + [Answer(id, at, true)]
  }

  lemma {:induction false} VolleyTimes(id: string, at: real, n: nat)
    ensures |Volley(id, at, n)| == n
    ensures forall i :: 0 <= i < n ==> Volley(id, at, n)[i] == Request(id, at)
  {
    if n > 0 {
      VolleyTimes(id, at, n - 1);
    }
  }

  lemma {:induction false} GrantedAllowed(id: string, at: real, n: nat, from: real)
    requires from <= at
    ensures Allowed(Granted(id, at, n), id, from) == n
  {
    if n > 0 {
      GrantedAllowed(id, at, n - 1, from);
      AllowedAppend(Granted(id, at, n - 1), Answer(id, at, true), id, from);
    }
  }

  lemma NextOfVolley(c: Config, m: Store, id: string, at: real, left: nat)
    requires Sane(c) && left < c.burst
    requires if id in m then m[id] == Entry(Bucket((left + 1) as real, at), at) else left + 1 == c.burst
    ensures AllowNext(c, m, id, at).0
    ensures AllowNext(c, m, id, at).1 == m[id := Entry(Bucket(left as real, at), at)]
  {
    var b := if id in m then m[id].bucket else Full(c, at);
    assert b == Bucket((left + 1) as real, at);
    assert Level(c, b, at) == (left + 1) as real;
  }

  predicate Drained(c: Config, m: Store, id: string, at: real, n: nat) {
    if n == 0 then id !in m else id in m && m[id] == Entry(Bucket(c.burst as real - n as real, at), at)
  }

  lemma VolleyStep(c: Config, trace: seq<Event>, id: string, at: real, n: nat)
    requires Sane(c) && n < c.burst && Drained(c, RunEvicting(c, trace).state, id, at, n)
    ensures
      var r := RunEvicting(c, trace + [Request(id, at)]);
      && r.answers == RunEvicting(c, trace).answers + [Answer(id, at, true)]
      && Drained(c, r.state, id, at, n + 1)
  {
    RequestLast(c, trace, id, at);
    NextOfVolley(c, RunEvicting(c, trace).state, id, at, c.burst - n - 1);
  }

  /** One more request of a volley: `p` is the run before it, `q` with it. */
  lemma VolleyGoesOn(c: Config, p: seq<Event>, q: seq<Event>, before: seq<Answer>, id: string, at: real, n: nat)
    requires Sane(c) && n < c.burst && q == p + [Request(id, at)]
    requires RunEvicting(c, p).answers == before + Granted(id, at, n) && Drained(c, RunEvicting(c, p).state, id, at, n)
    ensures RunEvicting(c, q).answers == before + Granted(id, at, n + 1)
    ensures Drained(c, RunEvicting(c, q).state, id, at, n + 1)
  {
    VolleyStep(c, p, id, at, n);
    Join(before, Granted(id, at, n), Answer(id, at, true));
  }

  /** A volley of an unknown identity is let through up to the bucket size. */
  lemma {:induction false} FreshVolley(c: Config, trace: seq<Event>, id: string, at: real, n: nat)
    requires Sane(c) && n <= c.burst && id !in RunEvicting(c, trace).state
    ensures RunEvicting(c, trace + Volley(id, at, n)).answers == RunEvicting(c, trace).answers + Granted(id, at, n)
    ensures Drained(c, RunEvicting(c, trace + Volley(id, at, n)).state, id, at, n)
  {
    if n == 0 {
      assert trace + Volley(id, at, 0) == trace;
      assert RunEvicting(c, trace).answers + Granted(id, at, 0) == RunEvicting(c, trace).answers;
    } else {
      FreshVolley(c, trace, id, at, n - 1);
      Join(trace, Volley(id, at, n - 1), Request(id, at));
      VolleyGoesOn(c, trace + Volley(id, at, n - 1), trace + Volley(id, at, n), RunEvicting(c, trace).answers, id, at, n - 1);
    }
  }

  lemma Join<T>(p: seq<T>, q: seq<T>, x: T)
    ensures p + (q + [x]) == (p + q) + [x]
  {
  }

  lemma RequestLast(c: Config, trace: seq<Event>, id: string, at: real)
    ensures
      var before := RunEvicting(c, trace);
      var (ok, m) := AllowNext(c, before.state, id, at);
      RunEvicting(c, trace + [Request(id, at)]) == Outcome(m, before.answers + [Answer(id, at, ok)])
  {
    var all := trace + [Request(id, at)];
    assert all[..|all| - 1] == trace;
  }

  /** The two volleys that a store forgetting too early lets through in full. */
  function Witness(c: Config, id: string, gap: real): seq<Event> {
    Volley(id, 0.0, c.burst) + [Sweep(gap)] + Volley(id, gap, c.burst)
  }

  lemma WitnessChronological(c: Config, id: string, gap: real)
    requires gap >= 0.0
    ensures Chronological(Witness(c, id, gap)) && Witness(c, id, gap) != []
    ensures Witness(c, id, gap)[|Witness(c, id, gap)| - 1].at == gap
  {
    VolleyTimes(id, 0.0, c.burst);
    VolleyTimes(id, gap, c.burst);
    var w, n := Witness(c, id, gap), c.burst;
    assert forall i :: 0 <= i < n ==> w[i].at == 0.0;
    assert w[n].at == gap;
    assert forall i :: n < i < |w| ==> w[i] == Volley(id, gap, n)[i - n - 1];
  }

  lemma WitnessLetThrough(c: Config, id: string, gap: real)
    requires Sane(c) && gap > c.ttl
    ensures RunEvicting(c, Witness(c, id, gap)).answers == Granted(id, 0.0, c.burst) + Granted(id, gap, c.burst)
  {
    var n := c.burst;
    var first := Volley(id, 0.0, n);
    FreshVolley(c, [], id, 0.0, n);
    assert [] + first == first && [] + Granted(id, 0.0, n) == Granted(id, 0.0, n);
    SweptClean(c, first, id, gap);
    FreshVolley(c, first + [Sweep(gap)], id, gap, n);
  }

  lemma SweptClean(c: Config, trace: seq<Event>, id: string, gap: real)
    requires id in RunEvicting(c, trace).state && RunEvicting(c, trace).state[id].lastSeen + c.ttl < gap
    ensures RunEvicting(c, trace + [Sweep(gap)]).answers == RunEvicting(c, trace).answers
    ensures id !in RunEvicting(c, trace + [Sweep(gap)]).state
  {
    var swept := trace + [Sweep(gap)];
    assert swept[..|swept| - 1] == trace;
  }

  /** The exact condition: evicting after `ttl` is invisible if and only if rate * ttl >= burst. */
  lemma EvictionInvisibleIff(c: Config)
    requires Sane(c)
    ensures c.rate * c.ttl >= c.burst as real
      <==> forall trace: seq<Event> :: Chronological(trace) ==> RunEvicting(c, trace).answers == RunKeeping(c, trace).answers
  {
    if c.rate * c.ttl >= c.burst as real {
      forall trace: seq<Event> | Chronological(trace) ensures RunEvicting(c, trace).answers == RunKeeping(c, trace).answers {
        StoresAgree(c, trace, if trace == [] then 0.0 else trace[|trace| - 1].at);
      }
    } else {
      var w := EvictionShows(c);
      assert !(Chronological(w) ==> RunEvicting(c, w).answers == RunKeeping(c, w).answers);
    }
  }

  lemma EvictionShows(c: Config) returns (w: seq<Event>)
    requires Sane(c) && c.rate * c.ttl < c.burst as real
    ensures Chronological(w) && RunEvicting(c, w).answers != RunKeeping(c, w).answers
  {
    var gap := GapBetween(c);
    w := Witness(c, "", gap);
    WitnessChronological(c, "", gap);
    WitnessLetThrough(c, "", gap);
    var first, second := Granted("", 0.0, c.burst), Granted("", gap, c.burst);
    GrantedAllowed("", 0.0, c.burst, 0.0);
    GrantedAllowed("", gap, c.burst, 0.0);
    AllowedConcat(first, second, "", 0.0);
    KeepingBound(c, w, "", 0.0, gap);
  }

  /** A pause long enough to be forgotten and too short to refill. */
  lemma GapBetween(c: Config) returns (gap: real)
    requires Sane(c) && c.rate * c.ttl < c.burst as real
    ensures gap > c.ttl && Drip(c, gap) - Drip(c, 0.0) < c.burst as real
  {
    var slack := (c.burst as real - c.rate * c.ttl) / (2.0 * c.rate);
    gap := c.ttl + slack;
    assert c.rate * slack == (c.burst as real - c.rate * c.ttl) / 2.0;
    assert c.rate * gap == c.rate * c.ttl + c.rate * slack;
  }

  // ----- the deployed limits -----

  const AUTHENTICATED := Config(1.0, 60, 600.0)
  const WEBHOOK := Config(0.5, 30, 600.0)

  lemma DeployedLimitsQualify()
    ensures Refills(AUTHENTICATED) && Refills(WEBHOOK)
  {
  }

  // ----- the store as it is written -----

  /** Since `from` the identity got no more through than its bucket and the refill. */
  predicate LimitedSince(c: Config, answers: seq<Answer>, now: real, id: string, from: real) {
    from <= now ==> (Allowed(answers, id, from) as real) <= (c.burst as real) + c.rate * (now - from)
  }

  ghost predicate Limited(c: Config, answers: seq<Answer>, now: real) {
    forall id, from :: LimitedSince(c, answers, now, id, from)
  }

  lemma StaysLimitedSince(c: Config, trace: seq<Event>, now: real, id: string, from: real)
    requires Refills(c) && Chronological(trace) && trace != [] && trace[|trace| - 1].at == now
    ensures LimitedSince(c, RunEvicting(c, trace).answers, now, id, from)
  {
    if from <= now {
      WindowBound(c, trace, id, from, now - from);
    }
  }

  lemma StaysLimited(c: Config, trace: seq<Event>, now: real)
    requires Refills(c) && Chronological(trace) && trace != [] && trace[|trace| - 1].at == now
    ensures RunEvicting(c, trace).answers == RunKeeping(c, trace).answers
    ensures Limited(c, RunEvicting(c, trace).answers, now)
  {
    StoresAgree(c, trace, now);
    forall id, from ensures LimitedSince(c, RunEvicting(c, trace).answers, now, id, from) {
      StaysLimitedSince(c, trace, now, id, from);
    }
  }

  lemma AnswersExactly(c: Config, trace: seq<Event>, id: string, now: real)
    requires Refills(c) && Chronological(trace + [Request(id, now)])
    ensures AllowNext(c, RunEvicting(c, trace).state, id, now).0
      <==> forall from :: from <= now ==> Room(c, RunEvicting(c, trace).answers, id, from, now)
  {
    var all := trace + [Request(id, now)];
    assert forall i :: 0 <= i < |trace| ==> trace[i] == all[i];
    assert all[|trace|].at == now;
    StoresAgree(c, trace, now);
    assert Agrees(c, RunEvicting(c, trace).state, RunKeeping(c, trace).state, id, now);
    RequestAnswers(c, RunEvicting(c, trace).state, RunKeeping(c, trace).state, id, now);
    GrantedIff(c, trace, id, now);
  }

  class RateLimiterStore {
    const config: Config
    var m: Store
    ghost var trace: seq<Event>       // what has happened to the store
    ghost var answers: seq<Answer>    // and what it has answered

    /** The map is what the evicting store has become by its history. */
    ghost predicate Valid()
      reads this
    {
      RunEvicting(config, trace) == Outcome(m, answers)
    }

    constructor (config: Config)
      ensures Valid() && this.config == config && trace == []
    {
      this.config, m := config, map[];
      trace, answers := [], [];
    }

    /** Answers as a store that never evicts would, and never lets through more than the limit. */
    method Allow(identity: string, now: real) returns (ok: bool)
      requires Valid()
      modifies this
      ensures Valid() && trace == old(trace) + [Request(identity, now)]
      ensures answers == old(answers) + [Answer(identity, now, ok)]
      ensures Refills(config) && Chronological(trace) ==>
        answers == RunKeeping(config, trace).answers && Limited(config, answers, now)
      ensures Refills(config) && Chronological(trace) ==>
        (ok <==> forall from :: from <= now ==> Room(config, old(answers), identity, from, now))
    {
      if identity in m {
        var entry := m[identity];
        var taken := Take(config, entry.bucket, now);
        m := m[identity := Entry(taken.1, now)];
        ok := taken.0;
      } else {
        var limiter := Full(config, now);
        var taken := Take(config, limiter, now);
        m := m[identity := Entry(taken.1, now)];
        ok := taken.0;
      }
      RequestLast(config, trace, identity, now);
      trace, answers := trace + [Request(identity, now)], answers + [Answer(identity, now, ok)];
      if Refills(config) && Chronological(trace) {
        StaysLimited(config, trace, now);
        AnswersExactly(config, old(trace), identity, now);
      }
    }

    /** Collects the stale identities first, then deletes them: exactly those idle for longer than
        the eviction time are gone. */
    method Sweep(now: real)
      requires Valid()
      modifies this
      ensures Valid() && trace == old(trace) + [Event.Sweep(now)] && answers == old(answers)
      ensures forall id :: id in m <==> id in old(m) && now - old(m)[id].lastSeen <= config.ttl
      ensures forall id :: id in m ==> m[id] == old(m)[id]
    {
      var stale: seq<string> := [];
      var left := m.Keys;
      while left != {}
        invariant left <= m.Keys && unchanged(this)
        invariant forall id :: id in stale <==> id in m && id !in left && Stale(config, m[id], now)
        decreases left
      {
        var id :| id in left;
        left := left - {id};
        if now - m[id].lastSeen > config.ttl {
          stale := stale + [id];
        }
      }
      for i := 0 to |stale|
        invariant trace == old(trace) && answers == old(answers)
        invariant forall id :: id in m <==> id in old(m) && id !in stale[..i]
        invariant forall id :: id in m ==> m[id] == old(m)[id]
      {
        m := m - {stale[i]};
        assert stale[..i + 1] == stale[..i] + [stale[i]];
      }
      assert stale[..|stale|] == stale;
      SweepLast(config, trace, now);
      assert m == SweepNext(config, old(m), now);
      trace := trace + [Event.Sweep(now)];
    }
  }

  lemma SweepLast(c: Config, trace: seq<Event>, now: real)
    ensures RunEvicting(c, trace + [Sweep(now)])
      == Outcome(SweepNext(c, RunEvicting(c, trace).state, now), RunEvicting(c, trace).answers)
  {
    var all := trace + [Sweep(now)];
    assert all[..|all| - 1] == trace;
  }
}
