/** Runs taken apart from the front. */
module Traces {
  import opened Model
  import opened Lifecycle

  lemma {:induction false} RunCons(s: State, step: Step, rest: seq<Step>)
    ensures Run(s, [step] + rest) == if Next(s, step).None? then None else Run(Next(s, step).value, rest)
  {
    var trace := [step] + rest;
    if rest == [] {
      assert trace[..0] == [];
    } else {
      var n := |rest| - 1;
      RunCons(s, step, rest[..n]);
      assert trace[..|trace| - 1] == [step] + rest[..n];
      assert trace[|trace| - 1] == rest[n];
    }
  }

  lemma {:induction false} PrefixRuns(s: State, trace: seq<Step>, n: nat)
    requires Run(s, trace).Some? && n <= |trace|
    ensures Run(s, trace[..n]).Some?
  {
    if n == |trace| {
      assert trace[..n] == trace;
    } else {
      PrefixRuns(s, trace[..|trace| - 1], n);
      assert trace[..|trace| - 1][..n] == trace[..n];
    }
  }

  lemma RunSnoc(s: State, trace: seq<Step>, before: State, step: Step, after: State)
    requires Run(s, trace) == Some(before) && Next(before, step) == Some(after)
    ensures Run(s, trace + [step]) == Some(after)
  {
    assert (trace + [step])[..|trace|] == trace;
  }

  lemma {:induction false} RunConcat(s: State, first: seq<Step>, rest: seq<Step>)
    requires Run(s, first).Some?
    ensures Run(s, first + rest) == Run(Run(s, first).value, rest)
  {
    if rest == [] {
      assert first + rest == first;
    } else {
      var n := |rest| - 1;
      RunConcat(s, first, rest[..n]);
      assert (first + rest)[..|first + rest| - 1] == first + rest[..n];
      assert (first + rest)[|first + rest| - 1] == rest[n];
    }
  }
}
