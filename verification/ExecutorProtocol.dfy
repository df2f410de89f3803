/** The check executor as a transition system. Every critical section, and every action that other goroutines can
    observe in between, is a step of its own: the end of a submitted function, removeRun and wg.Done are three
    steps, a Cancel looks up its run in one step and cancels it in another, and CancelByPrefix takes a snapshot
    and then cancels one identifier after the other while everything else goes on. */
module ExecutorProtocol {
  import opened Options
  import opened RunIds

  /** Identifies one accepted submission: its entry, its context and its goroutine. */
  type Token = nat

  /** Running: inside the submitted function. Returned: it returned or its panic was recovered. Removed: removeRun
      has run, wg.Done has not. */
  datatype Phase = Running | Returned | Removed | Ended

  datatype Run = Run(id: CheckRunID, phase: Phase)

  /** A Cancel or CancelByPrefix call: the identifiers still to look up, the run that was found and is about to be
      cancelled, and (for the record) the runs that the snapshot selected. */
  datatype Call = Call(todo: seq<CheckRunID>, found: Option<Token>, snapshot: map<CheckRunID, Token>) {
    predicate HasReturned() { todo == [] && found.None? }
  }

  /** `lookups` records, for the statements below, which lookups found which run. `waited` is set when the wait
      for active runs at shutdown ends, to the number of submissions accepted by then. */
  datatype State = State(
    started: bool,
    shutdown: bool,
    active: map<CheckRunID, Token>,
    wg: int,
    runs: seq<Run>,
    cancelled: set<Token>,
    calls: seq<Call>,
    lookups: set<(CheckRunID, Token)>,
    waited: Option<nat>)

  function Initial(): State {
    State(false, false, map[], 0, [], {}, [], {}, None)
  }

  datatype Event =
    | Start
    | Submit(id: CheckRunID)
    | FunctionEnds(t: Token)        // returns, or panics and is recovered
    | RemoveRun(t: Token)
    | Done(t: Token)
    | CallCancel(id: CheckRunID)
    | CallCancelByPrefix(prefix: string, order: seq<CheckRunID>) // the map iteration order is arbitrary
    | LookUp(call: nat)
    | CancelFound(call: nat)
    | Shutdown
    | WaitReturns

  predicate InPhase(s: State, t: Token, p: Phase) { t < |s.runs| && s.runs[t].phase == p }

  ghost predicate SnapshotOrder(s: State, prefix: string, order: seq<CheckRunID>) {
    && (forall i, j | 0 <= i < j < |order| :: order[i] != order[j])
    && (forall id :: id in order <==> id in s.active && HasPrefix(id, prefix))
  }

  ghost predicate Enabled(s: State, e: Event) {
    match e
    case Start => !s.started
    case Submit(_) => s.started
    case FunctionEnds(t) => InPhase(s, t, Running)
    case RemoveRun(t) => InPhase(s, t, Returned)
    case Done(t) => InPhase(s, t, Removed)
    case CallCancel(_) => true
    case CallCancelByPrefix(prefix, order) => SnapshotOrder(s, prefix, order)
    case LookUp(c) => c < |s.calls| && s.calls[c].found.None? && s.calls[c].todo != []
    case CancelFound(c) => c < |s.calls| && s.calls[c].found.Some?
    case Shutdown => s.started && !s.shutdown
    case WaitReturns => s.shutdown && s.wg == 0 && s.waited.None?
  }

  function SetPhase(s: State, t: Token, p: Phase): seq<Run>
    requires t < |s.runs|
  {
    s.runs[t := s.runs[t].(phase := p)]
  }

  function Submitted(s: State, id: CheckRunID): State {
    if id in s.active then s
    else s.(active := s.active[id := |s.runs|], wg := s.wg + 1, runs := s.runs + [Run(id, Running)])
  }

  /** removeRun acts on whatever entry stands under the identifier. */
  function RunRemoved(s: State, t: Token): State
    requires t < |s.runs|
  {
    var id, runs := s.runs[t].id, SetPhase(s, t, Removed);
    if id in s.active
    then s.(active := s.active - {id}, cancelled := s.cancelled + {s.active[id]}, runs := runs)
    else s.(runs := runs)
  }

  function LookedUp(s: State, c: nat): State
    requires c < |s.calls| && s.calls[c].todo != []
  {
    var call := s.calls[c];
    var id := call.todo[0];
    if id in s.active
    then s.(calls := s.calls[c := call.(todo := call.todo[1..], found := Some(s.active[id]))],
            lookups := s.lookups + {(id, s.active[id])})
    else s.(calls := s.calls[c := call.(todo := call.todo[1..])])
  }

  ghost function Next(s: State, e: Event): State
    requires Enabled(s, e)
  {
    match e
    case Start => s.(started := true)
    case Submit(id) => Submitted(s, id)
    case FunctionEnds(t) => s.(runs := SetPhase(s, t, Returned))
    case RemoveRun(t) => RunRemoved(s, t)
    case Done(t) => s.(runs := SetPhase(s, t, Ended), wg := s.wg - 1)
    case CallCancel(id) => s.(calls := s.calls + [Call([id], None, map[])])
    case CallCancelByPrefix(prefix, order) =>
      s.(calls := s.calls + [Call(order, None, map id | id in s.active && HasPrefix(id, prefix) :: s.active[id])])
    case LookUp(c) => LookedUp(s, c)
    case CancelFound(c) =>
      s.(cancelled := s.cancelled + {s.calls[c].found.value}, calls := s.calls[c := s.calls[c].(found := None)])
    case Shutdown => s.(shutdown := true)
    case WaitReturns => s.(waited := Some(|s.runs|))
  }

  ghost predicate Possible(s: State, es: seq<Event>)
    decreases |es|
  {
    es == [] || (Enabled(s, es[0]) && Possible(Next(s, es[0]), es[1..]))
  }

  ghost function After(s: State, es: seq<Event>): State
    requires Possible(s, es)
    decreases |es|
  {
    if es == [] then s else After(Next(s, es[0]), es[1..])
  }

  ghost predicate Reachable(s: State) {
    exists es :: Possible(Initial(), es) && After(Initial(), es) == s
  }

  // ---------- Counting ----------

  predicate Live(p: Phase) { p == Running || p == Returned }

  /** How many runs are in one of the phases `ps`. */
  function Count(runs: seq<Run>, ps: set<Phase>): nat {
    if runs == [] then 0
    else Count(runs[..|runs| - 1], ps) + if runs[|runs| - 1].phase in ps then 1 else 0
  }

  const LIVE: set<Phase> := {Running, Returned}
  const UNDONE: set<Phase> := {Running, Returned, Removed}

  lemma {:induction false} CountUpdate(runs: seq<Run>, t: nat, r: Run, ps: set<Phase>)
    requires t < |runs|
    ensures Count(runs[t := r], ps) + (if runs[t].phase in ps then 1 else 0)
         == Count(runs, ps) + (if r.phase in ps then 1 else 0)
  {
    var n := |runs| - 1;
    if t < n {
      assert runs[t := r][..n] == runs[..n][t := r];
      CountUpdate(runs[..n], t, r, ps);
    } else {
      assert runs[t := r][..n] == runs[..n];
    }
  }

  lemma CountAppend(runs: seq<Run>, r: Run, ps: set<Phase>)
    ensures Count(runs + [r], ps) == Count(runs, ps) + if r.phase in ps then 1 else 0
  {
    assert (runs + [r])[..|runs|] == runs;
  }

  lemma {:induction false} CountZero(runs: seq<Run>, ps: set<Phase>)
    requires Count(runs, ps) == 0
    ensures forall t | 0 <= t < |runs| :: runs[t].phase !in ps
  {
    if runs != [] {
      CountZero(runs[..|runs| - 1], ps);
      assert forall t | 0 <= t < |runs| - 1 :: runs[t] == runs[..|runs| - 1][t];
    }
  }

  lemma {:induction false} CountSplit(runs: seq<Run>)
    ensures Count(runs, UNDONE) == Count(runs, LIVE) + Count(runs, {Removed})
  {
    if runs != [] { CountSplit(runs[..|runs| - 1]); }
  }

  // ---------- The invariant ----------

  /** The entries are exactly the goroutines that have not run removeRun, one per identifier. */
  ghost predicate EntriesMatch(active: map<CheckRunID, Token>, runs: seq<Run>) {
    && (forall id | id in active :: active[id] < |runs| && runs[active[id]].id == id && Live(runs[active[id]].phase))
    && (forall t | 0 <= t < |runs| && Live(runs[t].phase) :: runs[t].id in active && active[runs[t].id] == t)
  }

  ghost predicate CountersMatch(s: State) {
    s.wg == Count(s.runs, UNDONE) && |s.active| == Count(s.runs, LIVE)
  }

  /** Removed runs are cancelled; a live one is only if a Cancel looked it up under its own identifier. */
  ghost predicate CancelledRightly(runs: seq<Run>, cancelled: set<Token>, lookups: set<(CheckRunID, Token)>) {
    && (forall t | 0 <= t < |runs| && !Live(runs[t].phase) :: t in cancelled)
    && (forall t | t in cancelled :: t < |runs| && (Live(runs[t].phase) ==> (runs[t].id, t) in lookups))
    && (forall l | l in lookups :: l.1 < |runs| && runs[l.1].id == l.0)
  }

  /** What a call found it found under the identifier it looked for, and nothing of its snapshot is forgotten. */
  ghost predicate CallOnTrack(s: State, c: Call) {
    && (c.found.Some? ==> c.found.value < |s.runs| && (s.runs[c.found.value].id, c.found.value) in s.lookups)
    && (forall id | id in c.snapshot ::
          && c.snapshot[id] < |s.runs| && s.runs[c.snapshot[id]].id == id
          && (id in c.todo || c.snapshot[id] in s.cancelled || c.found == Some(c.snapshot[id])))
  }

  ghost predicate CallsOnTrack(s: State) { forall k | 0 <= k < |s.calls| :: CallOnTrack(s, s.calls[k]) }

  ghost predicate WaitedForAll(s: State) {
    s.waited.Some? ==> s.waited.value <= |s.runs| && forall t | 0 <= t < s.waited.value :: s.runs[t].phase == Ended
  }

  ghost predicate Inv(s: State) {
    && EntriesMatch(s.active, s.runs)
    && CountersMatch(s)
    && CancelledRightly(s.runs, s.cancelled, s.lookups)
    && CallsOnTrack(s)
    && WaitedForAll(s)
  }

  /** Runs keep their identifiers, and nothing is un-cancelled. */
  ghost predicate Grows(s: State, s': State) {
    && |s.runs| <= |s'.runs| && (forall t | 0 <= t < |s.runs| :: s'.runs[t].id == s.runs[t].id)
    && s.cancelled <= s'.cancelled && s.lookups <= s'.lookups
  }

  lemma CallStaysOnTrack(s: State, s': State, c: Call)
    requires CallOnTrack(s, c) && Grows(s, s')
    ensures CallOnTrack(s', c)
  {
  }

  lemma CallsStayOnTrack(s: State, s': State)
    requires CallsOnTrack(s) && Grows(s, s') && s'.calls == s.calls
    ensures CallsOnTrack(s')
  {
    forall k | 0 <= k < |s.calls| ensures CallOnTrack(s', s.calls[k]) { CallStaysOnTrack(s, s', s.calls[k]); }
  }

  lemma EntriesAfterSubmit(active: map<CheckRunID, Token>, runs: seq<Run>, id: CheckRunID)
    requires EntriesMatch(active, runs) && id !in active
    ensures EntriesMatch(active[id := |runs|], runs + [Run(id, Running)])
  {
  }

  lemma EntriesAfterRemove(active: map<CheckRunID, Token>, runs: seq<Run>, t: Token, r: Run)
    requires EntriesMatch(active, runs) && t < |runs| && Live(runs[t].phase) && r.id == runs[t].id && !Live(r.phase)
    ensures EntriesMatch(active - {runs[t].id}, runs[t := r])
  {
  }

  lemma EntriesAfterPhase(active: map<CheckRunID, Token>, runs: seq<Run>, t: Token, r: Run)
    requires EntriesMatch(active, runs) && t < |runs| && r.id == runs[t].id && Live(r.phase) == Live(runs[t].phase)
    ensures EntriesMatch(active, runs[t := r])
  {
  }

  lemma CancelledAfterPhase(runs: seq<Run>, cancelled: set<Token>, lookups: set<(CheckRunID, Token)>, t: Token, r: Run)
    requires CancelledRightly(runs, cancelled, lookups) && t < |runs| && r.id == runs[t].id
    requires Live(runs[t].phase) || !Live(r.phase)
    ensures !Live(r.phase) ==> CancelledRightly(runs[t := r], cancelled + {t}, lookups)
    ensures Live(r.phase) == Live(runs[t].phase) ==> CancelledRightly(runs[t := r], cancelled, lookups)
  {
  }

  lemma CancelledAfterSubmit(runs: seq<Run>, cancelled: set<Token>, lookups: set<(CheckRunID, Token)>, r: Run)
    requires CancelledRightly(runs, cancelled, lookups) && Live(r.phase)
    ensures CancelledRightly(runs + [r], cancelled, lookups)
  {
  }

  lemma CancelledAfterLookUp(runs: seq<Run>, cancelled: set<Token>, lookups: set<(CheckRunID, Token)>, t: Token)
    requires CancelledRightly(runs, cancelled, lookups) && t < |runs|
    ensures CancelledRightly(runs, cancelled, lookups + {(runs[t].id, t)})
  {
  }

  lemma CancelledAfterCancel(runs: seq<Run>, cancelled: set<Token>, lookups: set<(CheckRunID, Token)>, t: Token)
    requires CancelledRightly(runs, cancelled, lookups) && t < |runs| && (runs[t].id, t) in lookups
    ensures CancelledRightly(runs, cancelled + {t}, lookups)
  {
  }

  lemma SubmitKeepsInv(s: State, id: CheckRunID)
    requires Inv(s)
    ensures Inv(Submitted(s, id))
  {
    if id !in s.active {
      var s' := Submitted(s, id);
      CountAppend(s.runs, Run(id, Running), UNDONE);
      CountAppend(s.runs, Run(id, Running), LIVE);
      assert s'.active.Keys == s.active.Keys + {id};
      EntriesAfterSubmit(s.active, s.runs, id);
      CancelledAfterSubmit(s.runs, s.cancelled, s.lookups, Run(id, Running));
      CallsStayOnTrack(s, s');
    }
  }

  /** removeRun finds its own entry, never that of a later submission. */
  lemma RemoveRunFindsItself(s: State, t: Token)
    requires Inv(s) && InPhase(s, t, Returned)
    ensures s.runs[t].id in s.active && s.active[s.runs[t].id] == t
    ensures RunRemoved(s, t).active == s.active - {s.runs[t].id} && RunRemoved(s, t).cancelled == s.cancelled + {t}
  {
  }

  lemma SetPhaseCounts(s: State, t: Token, p: Phase)
    requires CountersMatch(s) && t < |s.runs|
    ensures Count(SetPhase(s, t, p), UNDONE) ==
            s.wg - (if s.runs[t].phase in UNDONE then 1 else 0) + (if p in UNDONE then 1 else 0)
    ensures Count(SetPhase(s, t, p), LIVE) ==
            |s.active| - (if s.runs[t].phase in LIVE then 1 else 0) + (if p in LIVE then 1 else 0)
  {
    CountUpdate(s.runs, t, s.runs[t].(phase := p), UNDONE);
    CountUpdate(s.runs, t, s.runs[t].(phase := p), LIVE);
  }

  lemma RemoveRunKeepsInv(s: State, t: Token)
    requires Inv(s) && InPhase(s, t, Returned)
    ensures Inv(RunRemoved(s, t))
  {
    RemoveRunFindsItself(s, t);
    var s', r := RunRemoved(s, t), s.runs[t].(phase := Removed);
    SetPhaseCounts(s, t, Removed);
    assert s'.active.Keys == s.active.Keys - {s.runs[t].id};
    EntriesAfterRemove(s.active, s.runs, t, r);
    CancelledAfterPhase(s.runs, s.cancelled, s.lookups, t, r);
    CallsStayOnTrack(s, s');
  }

  lemma FunctionEndsKeepsInv(s: State, t: Token)
    requires Inv(s) && InPhase(s, t, Running)
    ensures Inv(Next(s, FunctionEnds(t)))
  {
    var r := s.runs[t].(phase := Returned);
    SetPhaseCounts(s, t, Returned);
    EntriesAfterPhase(s.active, s.runs, t, r);
    CancelledAfterPhase(s.runs, s.cancelled, s.lookups, t, r);
    CallsStayOnTrack(s, Next(s, FunctionEnds(t)));
  }

  lemma DoneKeepsInv(s: State, t: Token)
    requires Inv(s) && InPhase(s, t, Removed)
    ensures Inv(Next(s, Done(t)))
  {
    var r := s.runs[t].(phase := Ended);
    SetPhaseCounts(s, t, Ended);
    EntriesAfterPhase(s.active, s.runs, t, r);
    CancelledAfterPhase(s.runs, s.cancelled, s.lookups, t, r);
    CallsStayOnTrack(s, Next(s, Done(t)));
  }

  lemma NewCallKeepsInv(s: State, e: Event)
    requires Inv(s) && Enabled(s, e) && (e.CallCancel? || e.CallCancelByPrefix?)
    ensures Inv(Next(s, e))
  {
    var s' := Next(s, e);
    forall k | 0 <= k < |s.calls| ensures CallOnTrack(s', s'.calls[k]) { CallStaysOnTrack(s, s', s.calls[k]); }
  }

  lemma FoundCallOnTrack(s: State, c: nat)
    requires EntriesMatch(s.active, s.runs) && Enabled(s, LookUp(c)) && CallOnTrack(s, s.calls[c])
    requires forall t | 0 <= t < |s.runs| && !Live(s.runs[t].phase) :: t in s.cancelled
    ensures CallOnTrack(LookedUp(s, c), LookedUp(s, c).calls[c])
  {
    var call := s.calls[c];
    assert call.todo == [call.todo[0]] + call.todo[1..];
  }

  lemma LookUpKeepsInv(s: State, c: nat)
    requires Inv(s) && Enabled(s, LookUp(c))
    ensures Inv(LookedUp(s, c))
  {
    var s', id := LookedUp(s, c), s.calls[c].todo[0];
    if id in s.active { CancelledAfterLookUp(s.runs, s.cancelled, s.lookups, s.active[id]); }
    FoundCallOnTrack(s, c);
    forall k | 0 <= k < |s.calls| ensures CallOnTrack(s', s'.calls[k]) {
      if k != c { CallStaysOnTrack(s, s', s.calls[k]); }
    }
  }

  lemma CancelFoundKeepsInv(s: State, c: nat)
    requires Inv(s) && Enabled(s, CancelFound(c))
    ensures Inv(Next(s, CancelFound(c)))
  {
    var s' := Next(s, CancelFound(c));
    assert CallOnTrack(s, s.calls[c]);
    CancelledAfterCancel(s.runs, s.cancelled, s.lookups, s.calls[c].found.value);
    forall k | 0 <= k < |s.calls| ensures CallOnTrack(s', s'.calls[k]) { CallStaysOnTrack(s, s', s.calls[k]); }
  }

  lemma StepKeepsInv(s: State, e: Event)
    requires Inv(s) && Enabled(s, e)
    ensures Inv(Next(s, e))
  {
    match e
    case Submit(id) => SubmitKeepsInv(s, id);
    case RemoveRun(t) => RemoveRunKeepsInv(s, t);
    case FunctionEnds(t) => FunctionEndsKeepsInv(s, t);
    case Done(t) => DoneKeepsInv(s, t);
    case CallCancel(_) => NewCallKeepsInv(s, e);
    case CallCancelByPrefix(_, _) => NewCallKeepsInv(s, e);
    case LookUp(c) => LookUpKeepsInv(s, c);
    case CancelFound(c) => CancelFoundKeepsInv(s, c);
    case WaitReturns => CountZero(s.runs, UNDONE); CallsStayOnTrack(s, Next(s, e));
    case Start => CallsStayOnTrack(s, Next(s, e));
    case Shutdown => CallsStayOnTrack(s, Next(s, e));
  }

  lemma {:induction false} RunKeepsInv(s: State, es: seq<Event>)
    requires Inv(s) && Possible(s, es)
    ensures Inv(After(s, es))
    decreases |es|
  {
    if es != [] {
      StepKeepsInv(s, es[0]);
      RunKeepsInv(Next(s, es[0]), es[1..]);
    }
  }

  lemma ReachableInv(s: State)
    requires Reachable(s)
    ensures Inv(s)
  {
    var es :| Possible(Initial(), es) && After(Initial(), es) == s;
    RunKeepsInv(Initial(), es);
  }

  // ---------- What holds in every reachable state ----------

  /** The identifiers with an entry are those of the goroutines that have not run removeRun, and no identifier has
      two of them; so a submission is accepted exactly when no such goroutine exists. */
  lemma ActiveRunsExact(s: State, id: CheckRunID)
    requires Reachable(s)
    ensures id in s.active <==> exists t :: 0 <= t < |s.runs| && s.runs[t].id == id && Live(s.runs[t].phase)
    ensures forall t, u | 0 <= t < |s.runs| && 0 <= u < |s.runs| && s.runs[t].id == s.runs[u].id
                          && Live(s.runs[t].phase) && Live(s.runs[u].phase) :: t == u
    ensures |Submitted(s, id).runs| == |s.runs| + 1
            <==> forall t | 0 <= t < |s.runs| && Live(s.runs[t].phase) :: s.runs[t].id != id
  {
    ReachableInv(s);
  }

  /** removeRun always finds an entry, its own. */
  lemma RemoveRunNeverMisses(s: State, t: Token)
    requires Reachable(s) && Enabled(s, RemoveRun(t))
    ensures Next(s, RemoveRun(t)).active == s.active - {s.runs[t].id}
    ensures Next(s, RemoveRun(t)).cancelled == s.cancelled + {t}
    ensures forall u | 0 <= u < |s.runs| && u != t && Live(s.runs[u].phase) ::
              s.runs[u].id in Next(s, RemoveRun(t)).active
  {
    ReachableInv(s);
    RemoveRunFindsItself(s, t);
  }

  /** The wait group counts the entries and the goroutines between removeRun and Done; at zero, nothing is active and
      every submitted function has ended. */
  lemma WaitGroupExact(s: State)
    requires Reachable(s)
    ensures s.wg == |s.active| + Count(s.runs, {Removed})
    ensures s.wg == 0 <==> forall t | 0 <= t < |s.runs| :: s.runs[t].phase == Ended
    ensures s.wg == 0 ==> s.active == map[]
  {
    ReachableInv(s);
    CountSplit(s.runs);
    if s.wg == 0 { CountZero(s.runs, UNDONE); }
    if forall t | 0 <= t < |s.runs| :: s.runs[t].phase == Ended { CountNone(s.runs); }
  }

  lemma {:induction false} CountNone(runs: seq<Run>)
    requires forall t | 0 <= t < |runs| :: runs[t].phase == Ended
    ensures Count(runs, UNDONE) == 0
  {
    if runs != [] { CountNone(runs[..|runs| - 1]); }
  }

  /** If the shutdown wait ended, every run submitted before that moment has ended, also in all later states. */
  lemma ShutdownWaitedForAll(s: State, t: Token)
    requires Reachable(s) && s.waited.Some? && t < s.waited.value
    ensures t < |s.runs| && s.runs[t].phase == Ended
  {
    ReachableInv(s);
  }

  lemma {:induction false} SnapshotStays(s: State, es: seq<Event>, c: nat)
    requires Possible(s, es) && c < |s.calls|
    ensures c < |After(s, es).calls| && After(s, es).calls[c].snapshot == s.calls[c].snapshot
    decreases |es|
  {
    if es != [] { SnapshotStays(Next(s, es[0]), es[1..], c); }
  }

  lemma {:induction false} AfterConcat(s: State, es: seq<Event>, fs: seq<Event>)
    requires Possible(s, es) && Possible(After(s, es), fs)
    ensures Possible(s, es + fs) && After(s, es + fs) == After(After(s, es), fs)
    decreases |es|
  {
    if es == [] {
      assert es + fs == fs;
    } else {
      AfterConcat(Next(s, es[0]), es[1..], fs);
      assert (es + fs)[0] == es[0] && (es + fs)[1..] == es[1..] + fs;
    }
  }

  lemma StepStaysReachable(s: State, e: Event)
    requires Reachable(s) && Enabled(s, e)
    ensures Reachable(Next(s, e))
  {
    var es :| Possible(Initial(), es) && After(Initial(), es) == s;
    assert Possible(Next(s, e), [e][1..]);
    AfterConcat(Initial(), es, [e]);
  }

  /** However submissions, returns, panics, other cancellations and shutdown interleave with it, when CancelByPrefix
      returns, every run that was active under the prefix when it took its snapshot has a cancelled context. */
  lemma CancelByPrefixCancelsSnapshot(s: State, prefix: string, order: seq<CheckRunID>, es: seq<Event>, id: CheckRunID)
    requires Reachable(s) && Enabled(s, CallCancelByPrefix(prefix, order))
    requires var s1 := Next(s, CallCancelByPrefix(prefix, order));
             Possible(s1, es) && |s.calls| < |After(s1, es).calls| && After(s1, es).calls[|s.calls|].HasReturned()
    requires id in s.active && HasPrefix(id, prefix)
    ensures s.active[id] in After(Next(s, CallCancelByPrefix(prefix, order)), es).cancelled
  {
    var s1 := Next(s, CallCancelByPrefix(prefix, order));
    var c := |s.calls|;
    ReachableInv(s);
    StepKeepsInv(s, CallCancelByPrefix(prefix, order));
    RunKeepsInv(s1, es);
    SnapshotStays(s1, es, c);
    assert id in s1.calls[c].snapshot;
    assert CallOnTrack(After(s1, es), After(s1, es).calls[c]);
  }

  /** The identifier that a step looks up, if it does. */
  predicate LooksUp(s: State, e: Event, id: CheckRunID) {
    e.LookUp? && e.call < |s.calls| && s.calls[e.call].todo != [] && s.calls[e.call].todo[0] == id
  }

  ghost predicate NeverLooksUp(s: State, es: seq<Event>, id: CheckRunID)
    requires Possible(s, es)
    decreases |es|
  {
    es == [] || (!LooksUp(s, es[0], id) && NeverLooksUp(Next(s, es[0]), es[1..], id))
  }

  lemma {:induction false} NoNewLookups(s: State, es: seq<Event>, id: CheckRunID, t: Token)
    requires Possible(s, es) && NeverLooksUp(s, es, id) && (id, t) !in s.lookups
    ensures (id, t) !in After(s, es).lookups
    decreases |es|
  {
    if es != [] { NoNewLookups(Next(s, es[0]), es[1..], id, t); }
  }

  /** Cancelling concerns the looked-up run only: a run submitted after `s` that has not run removeRun is not
      cancelled, whatever cancellations were under way in `s` and whatever other identifiers are cancelled since,
      unless its own identifier is looked up after `s`. */
  lemma OnlyLaterLookupsCancel(s: State, es: seq<Event>, t: Token)
    requires Reachable(s) && Possible(s, es) && |s.runs| <= t < |After(s, es).runs|
    requires Live(After(s, es).runs[t].phase) && NeverLooksUp(s, es, After(s, es).runs[t].id)
    ensures t !in After(s, es).cancelled
  {
    var id := After(s, es).runs[t].id;
    ReachableInv(s);
    RunKeepsInv(s, es);
    assert (id, t) !in s.lookups by { assert forall l | l in s.lookups :: l.1 < |s.runs|; }
    NoNewLookups(s, es, id, t);
  }
}
