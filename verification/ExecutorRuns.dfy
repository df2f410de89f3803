/** Runs of the executor that reach what its promises speak of, and one that shows where they stop. */
module ExecutorRuns {
  import opened Options
  import opened RunIds
  import opened ExecutorProtocol

  function Started(): State { Initial().(started := true) }

  lemma StartReached()
    ensures Reachable(Started())
  {
    assert Possible(Initial(), []) && After(Initial(), []) == Initial();
    StepStaysReachable(Initial(), Start);
  }

  function OneRun(id: CheckRunID): State { Started().(active := map[id := 0], wg := 1, runs := [Run(id, Running)]) }

  lemma RunReached(id: CheckRunID)
    ensures Reachable(OneRun(id))
  {
    StartReached();
    StepStaysReachable(Started(), Submit(id));
  }

  /** A call of CancelByPrefix that starts in `s` and has returned after the steps `es`. */
  ghost predicate CancelsAndReturns(s: State, prefix: string, order: seq<CheckRunID>, es: seq<Event>) {
    && Reachable(s) && Enabled(s, CallCancelByPrefix(prefix, order))
    && var s1 := Next(s, CallCancelByPrefix(prefix, order));
    && Possible(s1, es) && |s.calls| < |After(s1, es).calls| && After(s1, es).calls[|s.calls|].HasReturned()
  }

  lemma TwoSteps(s: State, e: Event, f: Event)
    requires Enabled(s, e) && Enabled(Next(s, e), f)
    ensures Possible(s, [e, f]) && After(s, [e, f]) == Next(Next(s, e), f)
  {
    var s1 := Next(s, e);
    assert [e, f][1..] == [f] && [f][1..] == [];
    assert Possible(Next(s1, f), []) && After(Next(s1, f), []) == Next(s1, f);
    assert Possible(s1, [f]) && After(s1, [f]) == Next(s1, f);
  }

  /** Every identifier can be active, be selected by every prefix of it, and be cancelled. */
  lemma CancelByPrefixReturns(id: CheckRunID, prefix: string)
    requires HasPrefix(id, prefix)
    ensures exists s, order, es :: CancelsAndReturns(s, prefix, order, es) && id in s.active
  {
    var s, call := OneRun(id), CallCancelByPrefix(prefix, [id]);
    RunReached(id);
    assert Enabled(s, call);
    var s1 := Next(s, call);
    var s2 := Next(s1, LookUp(0));
    assert s1.calls[0].todo[1..] == [];
    TwoSteps(s1, LookUp(0), CancelFound(0));
    assert CancelsAndReturns(s, prefix, [id], [LookUp(0), CancelFound(0)]);
  }

  /** A run that is submitted after the snapshot is not cancelled, although the call has not returned when it is. */
  lemma LaterSubmissionEscapes(id: CheckRunID, other: CheckRunID, prefix: string)
    requires HasPrefix(id, prefix) && HasPrefix(other, prefix) && id != other
    ensures exists s, order, es, t: nat ::
              && CancelsAndReturns(s, prefix, order, es) && es != [] && es[0] == Submit(other)
              && var last := After(Next(s, CallCancelByPrefix(prefix, order)), es);
              t < |last.runs| && last.runs[t] == Run(other, Running) && t !in last.cancelled
  {
    var s, call := OneRun(id), CallCancelByPrefix(prefix, [id]);
    RunReached(id);
    assert Enabled(s, call);
    var s1 := Next(s, call);
    var s2 := Next(s1, Submit(other));
    assert s1.calls == [Call([id], None, s1.calls[0].snapshot)];
    assert s1.calls[0].todo[1..] == [];
    TwoSteps(s2, LookUp(0), CancelFound(0));
    var es := [Submit(other), LookUp(0), CancelFound(0)];
    assert es[1..] == [LookUp(0), CancelFound(0)];
    assert Possible(s1, es) && After(s1, es) == After(s2, es[1..]);
    assert CancelsAndReturns(s, prefix, [id], es);
    assert s2.runs[1] == Run(other, Running);
  }

  /** The wait at shutdown can end. */
  lemma ShutdownReached(id: CheckRunID)
    ensures exists s :: Reachable(s) && s.waited == Some(1) && |s.runs| == 1 && s.runs[0].id == id
  {
    var s := OneRun(id);
    RunReached(id);
    StepStaysReachable(s, FunctionEnds(0));
    var s1 := s.(runs := [Run(id, Returned)]);
    assert Next(s, FunctionEnds(0)) == s1;
    StepStaysReachable(s1, RemoveRun(0));
    var s2 := s1.(active := map[], cancelled := {0}, runs := [Run(id, Removed)]);
    assert Next(s1, RemoveRun(0)) == s2;
    StepStaysReachable(s2, Done(0));
    var s3 := s2.(wg := 0, runs := [Run(id, Ended)]);
    assert Next(s2, Done(0)) == s3;
    StepStaysReachable(s3, Shutdown);
    StepStaysReachable(s3.(shutdown := true), WaitReturns);
  }
}
