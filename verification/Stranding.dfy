/** What goes wrong without the assumptions of `OneTask`: a PROCESSING video loses its task
    exactly when its own handler drops it, and a video without a task stays PROCESSING until
    it is deleted. */
module Stranding {
  import opened Model
  import opened Statements
  import opened Lifecycle
  import opened Lanes
  import opened Handlers
  import opened Uniqueness
  import opened OneTask
  import Statuses

  /** The running handler of `v` ends without deciding. */
  predicate DropsTaskOf(s: State, step: Step, v: VideoId) {
    step.Work? && Holding(s.worker, v) == 1 && Drops(s.worker, step.o)
  }

  lemma DropEmpties(s: State, s': State, o: Outcome, v: VideoId)
    requires Live(s, v) <= 1 && Holding(s.worker, v) == 1 && WorkNext(s, o) == Some(s') && Drops(s.worker, o)
    ensures Live(s', v) == 0
  {
    assert s'.queues == s.queues;
  }

  /** The exact condition: a step that duplicates nothing leaves a PROCESSING video without a
      task if and only if its own handler drops it. */
  lemma StrandedIffDropped(s: State, s': State, step: Step, v: VideoId)
    requires Statuses.Inv(s) && Uniqueness.Inv(s, v)
    requires OneTask.Inv(s, v) && Next(s, step) == Some(s') && !Duplicates(step, v)
    requires IsProcessing(s, v) && IsProcessing(s', v)
    ensures Live(s', v) == 0 <==> DropsTaskOf(s, step, v)
    ensures Live(s', v) == 1 <==> !DropsTaskOf(s, step, v)
  {
    match step
    case Gateway(g) => GatewayKeepsLive(s, s', g, v);
    case Queue(q) => QueueKeepsLive(s, s', q, v);
    case Work(o) =>
      if Holding(s.worker, v) == 0 {
        OthersKeepLive(s, s', o, v);
      } else if Drops(s.worker, o) {
        DropEmpties(s, s', o, v);
      } else {
        OneTask.Preserves(s, s', step, v);
      }
  }

  predicate Stranded(s: State, v: VideoId) {
    IsProcessing(s, v) && Live(s, v) == 0
  }

  lemma StrandedStays(s: State, s': State, step: Step, v: VideoId)
    requires Statuses.Inv(s) && Stranded(s, v) && Next(s, step) == Some(s') && !Duplicates(step, v)
    ensures v in s'.db.rows ==> Stranded(s', v) || s'.db.rows[v].status == Deleted
  {
    match step
    case Gateway(g) =>
      GatewayKeepsLive(s, s', g, v);
      Statuses.GatewayChange(s, s', g, v);
    case Queue(q) => QueueKeepsLive(s, s', q, v);
    case Work(o) =>
      OthersKeepLive(s, s', o, v);
      OthersLeave(s, s', o, v);
  }

  /** Nothing but a delete rescues a stranded video. */
  lemma {:induction false} StrandedUntilDeleted(s: State, trace: seq<Step>, v: VideoId)
    requires Statuses.Inv(s) && Stranded(s, v) && Run(s, trace).Some? && NoDuplicates(trace, v)
    ensures
      var s' := Run(s, trace).value;
      Statuses.Inv(s') && (v in s'.db.rows ==> Stranded(s', v) || s'.db.rows[v].status == Deleted)
      && v in s'.db.used
  {
    assert Statuses.RowInv(s, v);
    if trace != [] {
      var n := |trace| - 1;
      StrandedUntilDeleted(s, trace[..n], v);
      var before, after := Run(s, trace[..n]).value, Run(s, trace).value;
      Statuses.Preserves(before, after, trace[n]);
      Statuses.StepChange(before, after, trace[n], v);
      if Stranded(before, v) {
        StrandedStays(before, after, trace[n], v);
      }
    }
  }

  /** Why the task must not be taken before the confirm commits: the handler finds a row that
      is not PROCESSING yet and returns, and the commit then strands the video. */
  lemma EarlyDequeueStrands(s: State, s1: State, s2: State, v: VideoId)
    requires Live(s, v) == 1 && s.worker == Load(v) && LoadNext(s, v, Ok) == Some(s1)
    requires ConfirmCommitNext(s1, v) == Some(s2)
    ensures Stranded(s2, v)
  {
  }
}
