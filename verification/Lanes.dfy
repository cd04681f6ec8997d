/** One video's view of a queue: how many of its transcode tasks and of the cleanups naming
    its media it holds, and whether every such cleanup stands before the transcode task. */
module Lanes {
  import opened Model

  function Code(e: Entry, v: VideoId): nat {
    if e.task == Transcode(v) then 1 else 0
  }

  predicate Names(t: Task, u: UserId, v: VideoId) {
    t.CleanupObjects? && NamesMedia(t.keys, u, v)
  }

  function Clean(e: Entry, u: UserId, v: VideoId): nat {
    if Names(e.task, u, v) then 1 else 0
  }

  function Codes(q: seq<Entry>, v: VideoId): nat {
    if q == [] then 0 else Codes(q[..|q| - 1], v) + Code(q[|q| - 1], v)
  }

  function Cleans(q: seq<Entry>, u: UserId, v: VideoId): nat {
    if q == [] then 0 else Cleans(q[..|q| - 1], u, v) + Clean(q[|q| - 1], u, v)
  }

  /** No cleanup of the video's media stands behind a transcode task of the video. */
  predicate Ordered(q: seq<Entry>, u: UserId, v: VideoId) {
    q != [] ==>
      && Ordered(q[..|q| - 1], u, v)
      && (Names(q[|q| - 1].task, u, v) ==> Codes(q[..|q| - 1], v) == 0)
  }

  lemma Append(q: seq<Entry>, e: Entry, u: UserId, v: VideoId)
    ensures Codes(q + [e], v) == Codes(q, v) + Code(e, v)
    ensures Cleans(q + [e], u, v) == Cleans(q, u, v) + Clean(e, u, v)
    ensures Ordered(q + [e], u, v) <==> Ordered(q, u, v) && (Names(e.task, u, v) ==> Codes(q, v) == 0)
  {
    assert (q + [e])[..|q|] == q;
  }

  /** The queue as it was, or with one more entry that is not a transcode task of `v`. */
  predicate Grown(q: seq<Entry>, q': seq<Entry>, v: VideoId) {
    q' == q || (|q'| == |q| + 1 && q' == q + [q'[|q|]] && q'[|q|].task != Transcode(v))
  }

  lemma GrownCodes(q: seq<Entry>, q': seq<Entry>, v: VideoId)
    requires Grown(q, q', v)
    ensures Codes(q', v) == Codes(q, v)
  {
    if q' != q {
      Append(q, q'[|q|], 0, v);
    }
  }

  lemma {:induction false} Concat(p: seq<Entry>, q: seq<Entry>, u: UserId, v: VideoId)
    ensures Codes(p + q, v) == Codes(p, v) + Codes(q, v)
    ensures Cleans(p + q, u, v) == Cleans(p, u, v) + Cleans(q, u, v)
  {
    if q == [] {
      assert p + q == p;
    } else {
      var n := |q| - 1;
      Concat(p, q[..n], u, v);
      assert p + q == (p + q[..n]) + [q[n]];
      Append(p + q[..n], q[n], u, v);
    }
  }

  /** Taking entry `i` out. */
  lemma Remove(q: seq<Entry>, i: nat, u: UserId, v: VideoId)
    requires i < |q|
    ensures Codes(q, v) == Codes(q[..i] + q[i + 1..], v) + Code(q[i], v)
    ensures Cleans(q, u, v) == Cleans(q[..i] + q[i + 1..], u, v) + Clean(q[i], u, v)
  {
    assert q == (q[..i] + [q[i]]) + q[i + 1..];
    Append(q[..i], q[i], u, v);
    Concat(q[..i] + [q[i]], q[i + 1..], u, v);
    Concat(q[..i], q[i + 1..], u, v);
  }

  /** Dequeuing keeps the order, and a transcode task at the head means no cleanup of the video waits. */
  lemma {:induction false} Tail(q: seq<Entry>, u: UserId, v: VideoId)
    requires q != []
    ensures Codes(q, v) == Code(q[0], v) + Codes(q[1..], v)
    ensures Cleans(q, u, v) == Clean(q[0], u, v) + Cleans(q[1..], u, v)
    ensures Ordered(q, u, v) ==> Ordered(q[1..], u, v)
    ensures Ordered(q, u, v) && q[0].task == Transcode(v) ==> Cleans(q, u, v) == 0
  {
    var n := |q| - 1;
    if n == 0 {
      assert q[..0] == [] && q[1..] == [];
    } else {
      Tail(q[..n], u, v);
      assert q[1..] == q[..n][1..] + [q[n]];
      Append(q[..n][1..], q[n], u, v);
      assert q == q[..n] + [q[n]];
      Append(q[..n], q[n], u, v);
    }
  }

  lemma {:induction false} NoCleansOrdered(q: seq<Entry>, u: UserId, v: VideoId)
    requires Cleans(q, u, v) == 0
    ensures Ordered(q, u, v)
  {
    if q != [] {
      NoCleansOrdered(q[..|q| - 1], u, v);
    }
  }

  lemma {:induction false} NoCodesOrdered(q: seq<Entry>, u: UserId, v: VideoId)
    requires Codes(q, v) == 0
    ensures Ordered(q, u, v)
  {
    if q != [] {
      NoCodesOrdered(q[..|q| - 1], u, v);
    }
  }

  // ----- one key's view of a queue -----

  predicate Deletes(t: Task, k: Key) {
    t.CleanupObjects? && k in t.keys
  }

  /** Some cleanup in the queue deletes `k`. */
  predicate Holds(q: seq<Entry>, k: Key) {
    exists i :: 0 <= i < |q| && Deletes(q[i].task, k)
  }

  lemma HoldsAppend(q: seq<Entry>, e: Entry, k: Key)
    ensures Holds(q + [e], k) <==> Holds(q, k) || Deletes(e.task, k)
  {
    if i :| 0 <= i < |q| && Deletes(q[i].task, k) {
      assert (q + [e])[i] == q[i];
    }
    if Deletes(e.task, k) {
      assert (q + [e])[|q|] == e;
    }
  }

  lemma HoldsTail(q: seq<Entry>, k: Key)
    requires q != []
    ensures Holds(q, k) <==> Deletes(q[0].task, k) || Holds(q[1..], k)
  {
    if i :| 0 <= i < |q| && Deletes(q[i].task, k) {
      if i > 0 {
        assert q[1..][i - 1] == q[i];
      }
    }
    if i :| 0 <= i < |q[1..]| && Deletes(q[1..][i].task, k) {
      assert q[i + 1] == q[1..][i];
    }
  }

  lemma HoldsRemove(q: seq<Entry>, i: nat, k: Key)
    requires i < |q|
    ensures Holds(q, k) ==> Deletes(q[i].task, k) || Holds(q[..i] + q[i + 1..], k)
  {
    var r := q[..i] + q[i + 1..];
    if j :| 0 <= j < |q| && Deletes(q[j].task, k) {
      if j < i {
        assert r[j] == q[j];
      } else if j > i {
        assert r[j - 1] == q[j];
      }
    }
  }
}
