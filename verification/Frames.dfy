/** What most gateway steps leave alone: only five of them write rows. */
module Frames {
  import opened Model
  import opened Statements
  import opened Lifecycle

  predicate WritesRows(g: GatewayStep) {
    g.IntentInsert? || g.IntentRotate? || g.ConfirmCommit? || g.DeleteMark? || g.AccountDelete?
  }

  predicate Enqueues(g: GatewayStep) {
    g.ConfirmEnqueue? || g.IntentDrop? || g.ConfirmReject? || g.DeleteEnqueue? || g.AccountEnqueue? || g.EnqueueTick?
  }

  predicate Inactive(s: State, u: UserId) {
    u in s.db.users && !s.db.users[u].active
  }

  predicate Calm(s: State, s': State) {
    && s'.db.rows == s.db.rows && s'.db.used == s.db.used
    && s'.worker == s.worker && s'.log == s.log && s'.now == s.now
    && s.store.keys <= s'.store.keys
    && s.db.users.Keys <= s'.db.users.Keys
    && (forall u :: u in s.db.users && Inactive(s, u) ==> Inactive(s', u))
  }

  lemma EnqueuesCalm(s: State, s': State, g: GatewayStep)
    requires GatewayNext(s, g) == Some(s') && Enqueues(g)
    ensures s'.db == s.db && s'.worker == s.worker && s'.log == s.log && s'.now == s.now && s'.store == s.store
  {
  }

  lemma CalmGateway(s: State, s': State, g: GatewayStep)
    requires GatewayNext(s, g) == Some(s') && !WritesRows(g)
    ensures Calm(s, s')
  {
    if Enqueues(g) {
      EnqueuesCalm(s, s', g);
    }
  }

  /** A confirm step changes one lock; no other step changes any, but the commit. */
  predicate LocksStep(s: State, s': State, g: GatewayStep) {
    match g
    case ConfirmCheck(u, v) => Confirmable(s, u, v) && s'.gate.confirms == s.gate.confirms[v := Checked]
    case ConfirmEnqueue(v) => v in s.gate.confirms && s.gate.confirms[v] == Checked && s'.gate.confirms == s.gate.confirms[v := Queued]
    case ConfirmAbort(v) => v in s.gate.confirms && s.gate.confirms[v] == Checked && s'.gate.confirms == s.gate.confirms - {v}
    case ConfirmRollback(v) => s'.gate.confirms == s.gate.confirms - {v}
    case ConfirmCommit(v) => s'.gate.confirms == s.gate.confirms - {v}
    case _ => s'.gate.confirms == s.gate.confirms
  }

  lemma LocksGateway(s: State, s': State, g: GatewayStep)
    requires GatewayNext(s, g) == Some(s')
    ensures LocksStep(s, s', g)
  {
  }
}
