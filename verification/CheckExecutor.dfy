/** The critical sections of the check executor as methods of an object. Each of them makes one or more steps of the
    transition system, whose state the ghost field `protocol` records. */
module CheckExecutor {
  import opened Options
  import opened RunIds
  import opened ExecutorProtocol

  class CheckExecutor {
    var activeRuns: map<CheckRunID, Token>
    var wg: int
    var cancelled: set<Token>  // contexts whose cancel function was called
    var runs: seq<Run>         // the goroutines, by token
    var started: bool
    ghost var protocol: State

    ghost predicate Valid()
      reads this
    {
      && Reachable(protocol)
      && protocol.active == activeRuns && protocol.wg == wg && protocol.cancelled == cancelled
      && protocol.runs == runs && protocol.started == started
    }

    constructor ()
      ensures Valid() && protocol == Initial()
    {
      activeRuns, wg, cancelled, runs, started := map[], 0, {}, [], false;
      protocol := Initial();
      assert Possible(Initial(), []) && After(Initial(), []) == Initial();
    }

    method Start()
      requires Valid() && !started
      modifies this
      ensures Valid() && protocol == Next(old(protocol), ExecutorProtocol.Start)
    {
      StepStaysReachable(protocol, ExecutorProtocol.Start);
      started := true;
      protocol := Next(protocol, ExecutorProtocol.Start);
    }

    /** Before Start there is no context to derive from, and a submission panics without any effect. */
    method Submit(id: CheckRunID) returns (submitted: bool)
      requires Valid() && started
      modifies this
      ensures Valid() && protocol == Next(old(protocol), ExecutorProtocol.Submit(id))
      ensures submitted <==> id !in old(activeRuns)
    {
      StepStaysReachable(protocol, ExecutorProtocol.Submit(id));
      protocol := Next(protocol, ExecutorProtocol.Submit(id));
      if id in activeRuns { return false; }
      activeRuns := activeRuns[id := |runs|];
      wg := wg + 1;
      runs := runs + [Run(id, Running)];
      return true;
    }

    method IsRunning(id: CheckRunID) returns (running: bool)
      requires Valid()
      ensures running <==> exists t :: 0 <= t < |runs| && runs[t].id == id && Live(runs[t].phase)
    {
      ActiveRunsExact(protocol, id);
      running := id in activeRuns;
    }

    method ActiveRunCount() returns (n: nat)
      requires Valid()
      ensures n == Count(runs, LIVE)
    {
      ReachableInv(protocol);
      n := |activeRuns|;
    }

    method RemoveRun(t: Token, id: CheckRunID)
      requires Valid() && InPhase(protocol, t, Returned) && id == runs[t].id
      modifies this
      ensures Valid() && protocol == Next(old(protocol), ExecutorProtocol.RemoveRun(t))
    {
      StepStaysReachable(protocol, ExecutorProtocol.RemoveRun(t));
      protocol := Next(protocol, ExecutorProtocol.RemoveRun(t));
      if id in activeRuns {
        cancelled := cancelled + {activeRuns[id]};
        activeRuns := activeRuns - {id};
      }
      runs := runs[t := runs[t].(phase := Removed)];
    }

    /** What safeRun defers, in the order in which it runs. */
    method FinishRun(t: Token)
      requires Valid() && InPhase(protocol, t, Running)
      modifies this
      ensures Valid()
      ensures Possible(old(protocol), [FunctionEnds(t), ExecutorProtocol.RemoveRun(t), Done(t)])
      ensures protocol == After(old(protocol), [FunctionEnds(t), ExecutorProtocol.RemoveRun(t), Done(t)])
      ensures wg == old(wg) - 1 && activeRuns == old(activeRuns) - {old(runs)[t].id}
    {
      ghost var s0 := protocol;
      StepStaysReachable(protocol, FunctionEnds(t));
      protocol := Next(protocol, FunctionEnds(t));
      runs := runs[t := runs[t].(phase := Returned)];
      ghost var s1 := protocol;
      RemoveRunNeverMisses(protocol, t);
      RemoveRun(t, runs[t].id);
      ghost var s2 := protocol;
      StepStaysReachable(protocol, Done(t));
      protocol := Next(protocol, Done(t));
      runs := runs[t := runs[t].(phase := Ended)];
      wg := wg - 1;
      ThreeSteps(s0, FunctionEnds(t), ExecutorProtocol.RemoveRun(t), Done(t));
    }

    static lemma OneStep(s: State, e: Event, es: seq<Event>)
      requires Enabled(s, e) && Possible(Next(s, e), es)
      ensures Possible(s, [e] + es) && After(s, [e] + es) == After(Next(s, e), es)
    {
      assert ([e] + es)[0] == e && ([e] + es)[1..] == es;
    }

    static lemma ThreeSteps(s: State, e: Event, f: Event, g: Event)
      requires Enabled(s, e) && Enabled(Next(s, e), f) && Enabled(Next(Next(s, e), f), g)
      ensures Possible(s, [e, f, g]) && After(s, [e, f, g]) == Next(Next(Next(s, e), f), g)
    {
      var s1 := Next(s, e);
      var s2 := Next(s1, f);
      OneStep(s2, g, []);
      OneStep(s1, f, [g] + []);
      OneStep(s, e, [f] + ([g] + []));
      assert [e, f, g] == [e] + ([f] + ([g] + []));
    }

    /** Undisturbed, Cancel cancels the run under the identifier, if there is one, and changes nothing else. */
    method Cancel(id: CheckRunID)
      requires Valid()
      modifies this`cancelled, this`protocol
      ensures Valid()
      ensures cancelled == old(cancelled) + if id in activeRuns then {activeRuns[id]} else {}
    {
      ghost var c := |protocol.calls|;
      StepStaysReachable(protocol, CallCancel(id));
      protocol := Next(protocol, CallCancel(id));
      StepStaysReachable(protocol, LookUp(c));
      protocol := Next(protocol, LookUp(c));
      if id in activeRuns {
        var run := activeRuns[id];
        StepStaysReachable(protocol, CancelFound(c));
        protocol := Next(protocol, CancelFound(c));
        cancelled := cancelled + {run};
      }
    }

    method SnapshotByPrefix(prefix: string) returns (toCancel: seq<CheckRunID>)
      requires Valid()
      ensures SnapshotOrder(protocol, prefix, toCancel)
    {
      toCancel := [];
      var todo := activeRuns.Keys;
      while todo != {}
        invariant todo <= activeRuns.Keys
        invariant forall i, j | 0 <= i < j < |toCancel| :: toCancel[i] != toCancel[j]
        invariant forall id :: id in toCancel <==> id in activeRuns && id !in todo && HasPrefix(id, prefix)
        decreases todo
      {
        var id :| id in todo;
        todo := todo - {id};
        if HasPrefix(id, prefix) { toCancel := toCancel + [id]; }
      }
    }

    /** Undisturbed, CancelByPrefix cancels exactly the active runs with the prefix. */
    method CancelByPrefix(prefix: string)
      requires Valid()
      modifies this`cancelled, this`protocol
      ensures Valid()
      ensures cancelled == old(cancelled) + set id | id in activeRuns && HasPrefix(id, prefix) :: activeRuns[id]
    {
      var toCancel := SnapshotByPrefix(prefix);
      for k := 0 to |toCancel|
        invariant Valid()
        invariant cancelled == old(cancelled) + set i | 0 <= i < k :: activeRuns[toCancel[i]]
      {
        Cancel(toCancel[k]);
      }
      assert forall id | id in activeRuns && HasPrefix(id, prefix) ::
               exists i :: 0 <= i < |toCancel| && toCancel[i] == id;
    }
  }
}
