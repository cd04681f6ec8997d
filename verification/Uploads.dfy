/** Upload keys: in every run no two rows share an r2_key, a user has at most one pending row, and
    a key that a rotation has dropped, whose object is about to be deleted, is not the key of its row. */
module Uploads {
  import opened Model
  import opened Statements
  import opened Lifecycle
  import opened Frames
  import Statuses

  // ----- the invariant -----

  predicate Distinct(s: State, v: VideoId, w: VideoId) {
    v in s.db.rows && w in s.db.rows && v != w ==>
      && s.db.rows[v].r2Key != s.db.rows[w].r2Key
      && !(s.db.rows[v].owner == s.db.rows[w].owner
           && s.db.rows[v].status == PendingUpload && s.db.rows[w].status == PendingUpload)
  }

  /** A rotation in flight is the owner's, from another key than the canonical one; a dropped key is
      neither the row's nor the canonical one. */
  predicate RequestOk(s: State, r: Request) {
    match r
    case RotateKey(u, v, key) => v in s.db.used && key != Raw(u, v) && (v in s.db.rows ==> s.db.rows[v].owner == u)
    case DropOldKey(v, key) =>
      v in s.db.used && (v in s.db.rows ==> key != s.db.rows[v].r2Key && key != Raw(s.db.rows[v].owner, v))
    case _ => true
  }

  ghost predicate Inv(s: State) {
    && (forall v, w :: Distinct(s, v, w))
    && (forall rid :: rid in s.gate.requests ==> RequestOk(s, s.gate.requests[rid]))
  }

  // ----- preservation -----

  /** The row's upload is as it was. */
  predicate Same(s: State, s': State, v: VideoId) {
    v in s'.db.rows ==>
      && v in s.db.rows && s'.db.rows[v].owner == s.db.rows[v].owner && s'.db.rows[v].r2Key == s.db.rows[v].r2Key
      && (s'.db.rows[v].status == PendingUpload ==> s.db.rows[v].status == PendingUpload)
  }

  /** No row's upload changes, and new requests are in order. */
  lemma Keeps(s: State, s': State)
    requires Inv(s) && s.db.used <= s'.db.used && forall v :: Same(s, s', v)
    requires forall rid :: rid in s'.gate.requests ==>
      (rid in s.gate.requests && s'.gate.requests[rid] == s.gate.requests[rid]) || RequestOk(s', s'.gate.requests[rid])
    ensures Inv(s')
  {
    forall v, w ensures Distinct(s', v, w) {
      assert Same(s, s', v) && Same(s, s', w) && Distinct(s, v, w);
    }
    forall rid | rid in s'.gate.requests ensures RequestOk(s', s'.gate.requests[rid]) {
      if rid in s.gate.requests && s'.gate.requests[rid] == s.gate.requests[rid] {
        assert RequestOk(s, s.gate.requests[rid]);
        RequestStays(s, s', s.gate.requests[rid]);
      }
    }
  }

  lemma RequestStays(s: State, s': State, r: Request)
    requires RequestOk(s, r) && s.db.used <= s'.db.used && forall v :: Same(s, s', v)
    ensures RequestOk(s', r)
  {
    match r
    case RotateKey(_, v, _) => assert Same(s, s', v);
    case DropOldKey(v, _) => assert Same(s, s', v);
    case _ =>
  }

  lemma InsertPreserves(s: State, s': State, u: UserId, v: VideoId, upload: nat)
    requires Statuses.Inv(s) && Inv(s) && IntentInsertNext(s, u, v, upload) == Some(s')
    ensures Inv(s')
  {
    forall x, y ensures Distinct(s', x, y) {
      assert Distinct(s, x, y);
    }
    forall rid | rid in s'.gate.requests ensures RequestOk(s', s'.gate.requests[rid]) {
      assert RequestOk(s, s.gate.requests[rid]);
    }
  }

  lemma RotatePreserves(s: State, s': State, rid: nat)
    requires Statuses.Inv(s) && Inv(s) && IntentRotateNext(s, rid) == Some(s')
    ensures Inv(s')
  {
    var req := s.gate.requests[rid];
    assert RequestOk(s, req);
    forall x, y ensures Distinct(s', x, y) {
      assert Distinct(s, x, y);
    }
    forall r | r in s'.gate.requests ensures RequestOk(s', s'.gate.requests[r]) {
      if r != rid {
        assert RequestOk(s, s.gate.requests[r]);
      }
    }
  }

  lemma ReadPreserves(s: State, s': State, rid: nat, u: UserId, v: VideoId)
    requires Statuses.Inv(s) && Inv(s) && GatewayNext(s, IntentRead(rid, u, v)) == Some(s')
    ensures Inv(s')
  {
    assert Statuses.RowInv(s, v);
    Keeps(s, s');
  }

  lemma CalmPreserves(s: State, s': State, g: GatewayStep)
    requires Inv(s) && GatewayNext(s, g) == Some(s') && !WritesRows(g) && !g.IntentRead?
    ensures Inv(s')
  {
    CalmGateway(s, s', g);
    Keeps(s, s');
  }

  lemma CommitPreserves(s: State, s': State, v: VideoId)
    requires Inv(s) && ConfirmCommitNext(s, v) == Some(s')
    ensures Inv(s')
  {
    Keeps(s, s');
  }

  lemma MarkPreserves(s: State, s': State, rid: nat)
    requires Inv(s) && DeleteMarkNext(s, rid) == Some(s')
    ensures Inv(s')
  {
    Keeps(s, s');
  }

  lemma AccountPreserves(s: State, s': State, rid: nat, u: UserId, order: seq<VideoId>)
    requires Inv(s) && AccountDeleteNext(s, rid, u, order) == Some(s')
    ensures Inv(s')
  {
    Keeps(s, s');
  }

  lemma GatewayPreserves(s: State, s': State, g: GatewayStep)
    requires Statuses.Inv(s) && Inv(s) && GatewayNext(s, g) == Some(s')
    ensures Inv(s')
  {
    match g
    case IntentInsert(u, v, upload) => InsertPreserves(s, s', u, v, upload);
    case IntentRotate(rid) => RotatePreserves(s, s', rid);
    case ConfirmCommit(v) => CommitPreserves(s, s', v);
    case DeleteMark(rid) => MarkPreserves(s, s', rid);
    case AccountDelete(rid, u, order) => AccountPreserves(s, s', rid, u, order);
    case IntentRead(rid, u, v) => ReadPreserves(s, s', rid, u, v);
    case _ => CalmPreserves(s, s', g);
  }

  lemma WorkKeepsUploads(s: State, s': State, o: Outcome, v: VideoId)
    requires Statuses.Inv(s) && WorkNext(s, o) == Some(s')
    ensures Same(s, s', v)
  {
    Statuses.WorkChange(s, s', o, v);
  }

  lemma WorkKeepsGate(s: State, s': State, o: Outcome)
    requires WorkNext(s, o) == Some(s')
    ensures s'.gate == s.gate && s'.db.used == s.db.used
  {
  }

  lemma WorkPreserves(s: State, s': State, o: Outcome)
    requires Statuses.Inv(s) && Inv(s) && WorkNext(s, o) == Some(s')
    ensures Inv(s')
  {
    forall v ensures Same(s, s', v) {
      WorkKeepsUploads(s, s', o, v);
    }
    WorkKeepsGate(s, s', o);
    Keeps(s, s');
  }

  lemma Preserves(s: State, s': State, step: Step)
    requires Statuses.Inv(s) && Inv(s) && Next(s, step) == Some(s')
    ensures Inv(s')
  {
    match step
    case Gateway(g) => GatewayPreserves(s, s', g);
    case Queue(_) => Keeps(s, s');
    case Work(o) => WorkPreserves(s, s', o);
  }

  lemma {:induction false} Reachable(trace: seq<Step>)
    requires Run(INITIAL, trace).Some?
    ensures Inv(Run(INITIAL, trace).value)
  {
    if trace != [] {
      var n := |trace| - 1;
      Reachable(trace[..n]);
      Statuses.Reachable(trace[..n]);
      Preserves(Run(INITIAL, trace[..n]).value, Run(INITIAL, trace).value, trace[n]);
    }
  }

  // ----- the theorems -----

  /** r2_key identifies its row, and a user has one upload at a time. */
  lemma KeysAreUnique(trace: seq<Step>, v: VideoId, w: VideoId)
    requires Run(INITIAL, trace).Some?
    ensures
      var rows := Run(INITIAL, trace).value.db.rows;
      v in rows && w in rows && v != w ==>
        && rows[v].r2Key != rows[w].r2Key
        && !(rows[v].owner == rows[w].owner && rows[v].status == PendingUpload && rows[w].status == PendingUpload)
  {
    Reachable(trace);
    assert Distinct(Run(INITIAL, trace).value, v, w);
  }

  /** The object a rotation gives up is not the one its row is waiting for. */
  lemma DroppedKeyIsNotInUse(trace: seq<Step>, rid: nat)
    requires Run(INITIAL, trace).Some?
    requires
      var requests := Run(INITIAL, trace).value.gate.requests;
      rid in requests && requests[rid].DropOldKey?
    ensures
      var s := Run(INITIAL, trace).value;
      s.gate.requests[rid].video in s.db.rows ==> s.db.rows[s.gate.requests[rid].video].r2Key != s.gate.requests[rid].oldKey
  {
    Reachable(trace);
    assert RequestOk(Run(INITIAL, trace).value, Run(INITIAL, trace).value.gate.requests[rid]);
  }

  /** Once a row has the key made of its own id it keeps it. */
  predicate Canonical(s: State, v: VideoId) {
    v in s.db.rows ==> s.db.rows[v].r2Key == Raw(s.db.rows[v].owner, v)
  }

  lemma CanonicalStep(s: State, s': State, step: Step, v: VideoId)
    requires Statuses.Inv(s) && Inv(s) && Next(s, step) == Some(s') && Canonical(s, v) && v in s.db.used
    ensures Canonical(s', v) && v in s'.db.used
  {
    Statuses.StepChange(s, s', step, v);
    match step
    case Gateway(g) => GatewayKeepsCanonical(s, s', g, v);
    case Queue(_) =>
    case Work(o) => WorkKeepsUploads(s, s', o, v);
  }

  lemma GatewayKeepsCanonical(s: State, s': State, g: GatewayStep, v: VideoId)
    requires Inv(s) && GatewayNext(s, g) == Some(s') && Canonical(s, v) && v in s.db.used
    ensures v in s'.db.rows && v in s.db.rows ==> s'.db.rows[v].r2Key == s.db.rows[v].r2Key
  {
    if g.IntentRotate? {
      assert RequestOk(s, s.gate.requests[g.rid]);
    } else if !WritesRows(g) {
      CalmGateway(s, s', g);
    }
  }
}
