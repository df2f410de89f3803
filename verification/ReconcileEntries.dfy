/** When a recommendation merges every check run that is recorded. The condition of a check is set before its entry is
    written, and the analysis writes back entries that it read before, so an entry can be missing or get lost. */
module ReconcileEntries {
  import opened Options
  import opened SecurityContexts
  import opened Checks
  import opened Recommendation
  import opened Manager
  import opened ReconcileProtocol
  import opened ReconcileInvariant
  import opened ReconcileSafety
  import opened ReconcileHistory

  /** The entry of the check is filed, or its runner is about to file it. */
  predicate HasEntry(s: State, k: Kind) { KindName(k) in s.status.checkRuns || IsFiling(s.runners, k) }

  /** The steps that drop the entry of a check: filing it fails, its runner ends or the operator restarts before it is
      filed, and the analysis overwrites it because it was filed after the entries had been read. */
  predicate DropsEntry(s: State, e: Event, k: Kind) {
    match e
    case Begin => false
    case Restart => IsFiling(s.runners, k)
    case OfRunner(t, act) =>
      t == Check(k) && IsFiling(s.runners, k) && (act.Ends? || (act.Files? && act.outcome != Stored))
    case OfPass(step) =>
      && step == FilesAnalysis(Stored) && s.pass.Some? && s.pass.value.pc.FileAnalysis?
      && KindName(k) in s.status.checkRuns && KindName(k) !in s.pass.value.pc.runs
  }

  ghost predicate KeepsEntry(cfg: Config, s: State, events: seq<Event>, k: Kind)
    decreases |events|
  {
    events == [] ||
    (KeepsEntry(cfg, s, Front(events), k) && !DropsEntry(After(cfg, s, Front(events)), Last(events), k))
  }

  // ---------- Entries stay ----------

  lemma PassKeepsEntry(cfg: Config, s: State, e: PassEvent, k: Kind)
    requires s.pass.Some? && !DropsEntry(s, OfPass(e), k) && HasEntry(s, k)
    ensures HasEntry(PassNext(cfg, s, e), k)
  {
  }

  lemma RunnerKeepsEntry(cfg: Config, s: State, t: CheckType, e: RunnerEvent, k: Kind)
    requires t in s.runners && RunnerCan(t, s.runners[t], e) && !DropsEntry(s, OfRunner(t, e), k) && HasEntry(s, k)
    ensures HasEntry(RunnerNext(cfg, s, t, e), k)
  {
    RunnerChanges(cfg, s, t, e);
  }

  /** A runner changes itself and files its entry. */
  lemma RunnerChanges(cfg: Config, s: State, t: CheckType, e: RunnerEvent)
    requires t in s.runners && RunnerCan(t, s.runners[t], e)
    ensures var next := RunnerNext(cfg, s, t, e);
            && (forall u | u != t && u in s.runners :: u in next.runners && next.runners[u] == s.runners[u])
            && (t in next.runners <==> !e.Ends?)
            && (e.Files? || e.Ends? || !s.runners[t].phase.Filing?)
            && next.status.checkRuns ==
               if t.Check? && e.Files? && e.outcome == Stored then s.status.checkRuns[TypeName(t) := e.run]
               else s.status.checkRuns
  {
  }

  lemma EntryStays(cfg: Config, s: State, e: Event, k: Kind)
    requires Enabled(cfg, s, e) && !DropsEntry(s, e, k) && HasEntry(s, k)
    ensures HasEntry(Next(cfg, s, e), k)
  {
    match e
    case OfPass(step) => PassKeepsEntry(cfg, s, step, k);
    case OfRunner(t, act) => RunnerKeepsEntry(cfg, s, t, act, k);
    case _ =>
  }

  // ---------- The invariant ----------

  predicate SaysRecorded(st: Status, k: Kind) { Is(st, CheckCondition(k), True) }

  /** Whatever the status, a copy or a test of the pass says is recorded has an entry. */
  ghost predicate Filed(s: State, m: Memory, k: Kind) {
    && (SaysRecorded(s.status, k) ==> HasEntry(s, k))
    && (s.pass.Some? ==>
          var p := s.pass.value;
          SaysRecorded(p.started, k) || SaysRecorded(p.view, k) || CheckCondition(k) in m.seen ==> HasEntry(s, k))
  }

  /** If its runner was not about to file its entry when the analysis read the entries, the analysis has read that of a
      check that it requires. */
  predicate HasRead(m: Memory, pc: Pc, k: Kind) {
    && (pc.FileAnalysis? || pc.Recommends?) && m.reading.Some? && k in SeenChecks(pc)
    && k !in m.reading.value.filing ==>
      KindName(k) in m.reading.value.entries
  }

  /** What the status and the copies of a pass say. */
  predicate Said(s: State, k: Kind)
    requires s.pass.Some?
  {
    SaysRecorded(s.status, k) || SaysRecorded(s.pass.value.started, k) || SaysRecorded(s.pass.value.view, k)
  }

  lemma WriteSays(s: State, o: Outcome, changed: Status, pc: Option<Pc>, k: Kind)
    requires s.pass.Some? && (SaysRecorded(changed, k) ==> SaysRecorded(s.status, k))
    ensures SaysRecorded(Write(s, o, changed, pc).status, k) ==> Said(s, k)
    ensures pc.Some? && Said(Write(s, o, changed, pc), k) ==> Said(s, k)
  {
  }

  lemma SetsSay(st: Status, pc: Pc, o: Outcome, k: Kind)
    requires PassSets(pc, o).Some?
    ensures var w := PassSets(pc, o).value; SaysRecorded(SetCondition(st, w.0, w.1), k) ==> SaysRecorded(st, k)
  {
  }

  lemma SetStepSays(cfg: Config, s: State, o: Outcome, k: Kind)
    requires s.pass.Some? && PassSets(s.pass.value.pc, o).Some?
    ensures var next := PassNext(cfg, s, PassEvent.SetsCondition(o));
            (SaysRecorded(next.status, k) ==> Said(s, k)) && (next.pass.Some? && Said(next, k) ==> Said(s, k))
  {
    var w := PassSets(s.pass.value.pc, o).value;
    SetsSay(s.status, s.pass.value.pc, o, k);
    WriteSays(s, o, SetCondition(s.status, w.0, w.1), w.2, k);
  }

  lemma PassStepSays(cfg: Config, s: State, e: PassEvent, k: Kind)
    requires s.pass.Some? && PassCan(cfg, s, e)
    ensures var next := PassNext(cfg, s, e);
            (SaysRecorded(next.status, k) ==> Said(s, k)) && (next.pass.Some? && Said(next, k) ==> Said(s, k))
  {
    match e
    case SetsCondition(o) => SetStepSays(cfg, s, o, k);
    case RemovesConditions(o) => WriteSays(s, o, RemoveConditions(s.status), None, k);
    case _ => OtherStepSays(cfg, s, e, k);
  }

  lemma OtherStepSays(cfg: Config, s: State, e: PassEvent, k: Kind)
    requires s.pass.Some? && !e.SetsCondition? && !e.RemovesConditions?
    ensures var next := PassNext(cfg, s, e);
            (SaysRecorded(next.status, k) ==> Said(s, k)) && (next.pass.Some? && Said(next, k) ==> Said(s, k))
  {
  }

  lemma RunnerStepSays(cfg: Config, s: State, t: CheckType, e: RunnerEvent, k: Kind)
    requires t in s.runners && RunnerCan(t, s.runners[t], e)
    ensures var next := RunnerNext(cfg, s, t, e);
            next.pass == s.pass && (SaysRecorded(next.status, k) ==> SaysRecorded(s.status, k) || HasEntry(next, k))
  {
  }

  lemma SeenSays(s: State, m: Memory, e: Event, k: Kind)
    ensures CheckCondition(k) in Remember(s, m, e).seen ==>
              CheckCondition(k) in m.seen || (s.pass.Some? && SaysRecorded(s.pass.value.view, k))
  {
  }

  lemma FiledStep(cfg: Config, s: State, m: Memory, e: Event, k: Kind)
    requires Enabled(cfg, s, e) && !DropsEntry(s, e, k) && Filed(s, m, k)
    ensures Filed(Next(cfg, s, e), Remember(s, m, e), k)
  {
    SeenSays(s, m, e, k);
    if HasEntry(s, k) { EntryStays(cfg, s, e, k); }
    match e
    case OfPass(step) => PassStepSays(cfg, s, step, k);
    case OfRunner(t, act) => RunnerStepSays(cfg, s, t, act, k);
    case _ =>
  }

  lemma JudgesReads(cfg: Config, s: State, m: Memory, e: PassEvent, k: Kind)
    requires s.pass.Some? && e.Judges? && CanJudge(cfg, s, e) && SeenRequired(m, s.pass.value.pc) && Filed(s, m, k)
    ensures HasRead(Remember(s, m, OfPass(e)), PassNext(cfg, s, e).pass.value.pc, k)
  {
    var pc := PassNext(cfg, s, e).pass.value.pc;
    assert SeenChecks(pc) <= SeenChecks(s.pass.value.pc);
    assert k in AllKinds();
  }

  lemma OnlyJudgesReads(cfg: Config, s: State, m: Memory, e: PassEvent)
    requires s.pass.Some? && PassCan(cfg, s, e) && !e.Judges?
    ensures Remember(s, m, OfPass(e)).reading == m.reading
    ensures var next := PassNext(cfg, s, e).pass;
            next.Some? && (next.value.pc.FileAnalysis? || next.value.pc.Recommends?) ==>
              && (s.pass.value.pc.FileAnalysis? || s.pass.value.pc.Recommends?)
              && next.value.pc.lookup == s.pass.value.pc.lookup
  {
    match e
    case BranchesTo(next) => NoBranchToFiling(cfg, s.pass.value, s.runners.Keys, next);
    case _ =>
  }

  lemma NoBranchToFiling(cfg: Config, p: Pass, runners: set<CheckType>, next: Pc)
    requires Branches(cfg, p, runners, next)
    ensures !next.FileAnalysis? && !next.Recommends?
  {
    if FinalBranches(p, runners, next) {
      FinalBranchSees(p, runners, next);
    } else if AsksForChecks(p, next) {
      AskingFinds(p, next);
    } else {
      RecordingFinds(cfg, p, runners, next);
    }
  }

  lemma HasReadStep(cfg: Config, s: State, m: Memory, e: Event, k: Kind)
    requires Enabled(cfg, s, e) && Filed(s, m, k)
    requires s.pass.Some? ==> SeenRequired(m, s.pass.value.pc) && HasRead(m, s.pass.value.pc, k)
    ensures Next(cfg, s, e).pass.Some? ==> HasRead(Remember(s, m, e), Next(cfg, s, e).pass.value.pc, k)
  {
    match e
    case OfPass(step) =>
      if step.Judges? { JudgesReads(cfg, s, m, step, k); } else { OnlyJudgesReads(cfg, s, m, step); }
    case OfRunner(t, act) => RunnersStay(cfg, s, t, act);
    case _ =>
  }

  lemma {:induction false} RunFiled(cfg: Config, stored: map<string, Manager.Recording>, events: seq<Event>, k: Kind)
    requires Possible(cfg, Initial(stored), events) && KeepsEntry(cfg, Initial(stored), events, k)
    ensures var s, m := After(cfg, Initial(stored), events), Recall(cfg, Initial(stored), events);
            Filed(s, m, k) && (s.pass.Some? ==> HasRead(m, s.pass.value.pc, k))
    decreases |events|
  {
    if events != [] {
      var front := Front(events);
      var s, m := After(cfg, Initial(stored), front), Recall(cfg, Initial(stored), front);
      LastStep(cfg, Initial(stored), events);
      RunFiled(cfg, stored, front, k);
      RunTold(cfg, stored, front);
      FiledStep(cfg, s, m, Last(events), k);
      HasReadStep(cfg, s, m, Last(events), k);
    }
  }

  // ---------- What a recommendation merges ----------

  /** As long as no step drops its entry, a check whose condition is True has its entry, or its runner is about to file
      it. */
  lemma RecordedChecksHaveEntries(cfg: Config, stored: map<string, Manager.Recording>, events: seq<Event>, k: Kind)
    requires Possible(cfg, Initial(stored), events) && KeepsEntry(cfg, Initial(stored), events, k)
    ensures var s := After(cfg, Initial(stored), events);
            Is(s.status, CheckCondition(k), True) ==> HasEntry(s, k)
  {
    RunFiled(cfg, stored, events, k);
  }

  /** If no step has dropped the entry of a check that the workload requires, and its runner was not about to file it
      when the analysis read the entries, the recommendation merges its context, unless its run is marked failed. */
  lemma RecommendationMergesRecorded(cfg: Config, stored: map<string, Manager.Recording>, events: seq<Event>,
                                     o: Outcome, spec: PodSpec, order: seq<Defaults>, k: Kind)
    requires Possible(cfg, Initial(stored), events) && KeepsEntry(cfg, Initial(stored), events, k)
    requires Enabled(cfg, After(cfg, Initial(stored), events), OfPass(FilesRecommendation(o, Some(spec), order)))
    requires var reading := Recall(cfg, Initial(stored), events).reading; reading.Some? ==> k !in reading.value.filing
    requires var lookup := After(cfg, Initial(stored), events).pass.value.pc.lookup;
             lookup.Some? && ShouldRun(k, lookup.value)
    ensures var runs := After(cfg, Initial(stored), events).pass.value.view.checkRuns;
            && KindName(k) in runs
            && (runs[KindName(k)].checkSuccessful != Some(false) ==>
                  runs[KindName(k)].securityContext.Some? && runs[KindName(k)].securityContext.value in order)
  {
    var s, m := After(cfg, Initial(stored), events), Recall(cfg, Initial(stored), events);
    RunTold(cfg, stored, events);
    RunFiled(cfg, stored, events, k);
    assert HasReading(m, s.pass.value) && Judged(cfg, m.reading.value);
    assert k in AllKinds() && k in SeenChecks(s.pass.value.pc);
    var runs := s.pass.value.view.checkRuns;
    assert KindName(k) in m.reading.value.entries && KindName(k) in runs;
    assert RunSound(cfg, Known(s), KindName(k), runs[KindName(k)]);
    EntryIsMerged(cfg, Known(s), runs, order, k);
  }

  lemma EntryIsMerged(cfg: Config, f: Facts, runs: CheckRuns, order: seq<Defaults>, k: Kind)
    requires RunsSound(cfg, f, runs) && ContextsOf(runs, order) && KindName(k) in runs
    ensures runs[KindName(k)].checkSuccessful != Some(false) ==>
              runs[KindName(k)].securityContext.Some? && runs[KindName(k)].securityContext.value in order
  {
    var n := KindName(k);
    assert RunSound(cfg, f, n, runs[n]);
    assert KeyedByName(runs) by { assert forall m | m in runs :: RunSound(cfg, f, m, runs[m]); }
    KindNameIsNoBaseline(k);
    if Accepted(runs[n]) {
      var d :| d in order && runs[n].securityContext == Some(d);
    }
  }

  lemma KindNameIsNoBaseline(k: Kind)
    ensures KindName(k) != "baseline"
  {
    assert "baseline"[0] == 'b' && KindName(k)[0] != 'b';
  }

  // ---------- Careful runs ----------

  /** A step that drops the entry of the check, or an analysis that reads the entries while it is about to be filed. */
  predicate CarelessFor(s: State, e: Event, k: Kind) {
    DropsEntry(s, e, k) || (e.OfPass? && e.step.Judges? && IsFiling(s.runners, k))
  }

  ghost predicate CarefulFor(cfg: Config, s: State, events: seq<Event>, k: Kind)
    decreases |events|
  {
    events == [] ||
    (CarefulFor(cfg, s, Front(events), k) && !CarelessFor(After(cfg, s, Front(events)), Last(events), k))
  }

  lemma {:induction false} CarefulRun(cfg: Config, s: State, events: seq<Event>, k: Kind)
    requires CarefulFor(cfg, s, events, k)
    ensures KeepsEntry(cfg, s, events, k)
    ensures var reading := Recall(cfg, s, events).reading; reading.Some? ==> k !in reading.value.filing
    decreases |events|
  {
    if events != [] { CarefulRun(cfg, s, Front(events), k); }
  }

  /** In a run that takes no careless step for a check, whatever happens to the others, no recommendation misses it if
      the workload requires it, unless its run is marked failed. */
  lemma CarefulRunsMissNothing(cfg: Config, stored: map<string, Manager.Recording>, events: seq<Event>,
                               o: Outcome, spec: PodSpec, order: seq<Defaults>, k: Kind)
    requires Possible(cfg, Initial(stored), events) && CarefulFor(cfg, Initial(stored), events, k)
    requires Enabled(cfg, After(cfg, Initial(stored), events), OfPass(FilesRecommendation(o, Some(spec), order)))
    requires var lookup := After(cfg, Initial(stored), events).pass.value.pc.lookup;
             lookup.Some? && ShouldRun(k, lookup.value)
    ensures var runs := After(cfg, Initial(stored), events).pass.value.view.checkRuns;
            && KindName(k) in runs
            && (runs[KindName(k)].checkSuccessful != Some(false) ==>
                  runs[KindName(k)].securityContext.Some? && runs[KindName(k)].securityContext.value in order)
  {
    CarefulRun(cfg, Initial(stored), events, k);
    RecommendationMergesRecorded(cfg, stored, events, o, spec, order, k);
  }

  // ---------- Which entries there are ----------

  /** The entry of the check is stored. */
  predicate FilesEntry(e: Event, k: Kind) {
    e.OfRunner? && e.t == Check(k) && e.act.Files? && e.act.outcome == Stored
  }

  /** The analysis reads the entries. */
  predicate ReadsEntries(e: Event) { e.OfPass? && e.step.Judges? }

  /** The analysis stores the entries that it has read last. */
  predicate WritesBack(e: Event) { e.OfPass? && e.step.FilesAnalysis? && e.step.outcome == Stored }

  /** The entry was stored, and every analysis that has written entries back since had read them after that. */
  ghost predicate FiledAndKept(events: seq<Event>, k: Kind) {
    exists n | 0 <= n < |events| :: FilesEntry(events[n], k) && ReadSince(events, n)
  }

  ghost predicate ReadSince(events: seq<Event>, n: nat) {
    forall m | n < m < |events| && WritesBack(events[m]) :: ReadBetween(events, n, m)
  }

  ghost predicate ReadBetween(events: seq<Event>, n: nat, m: nat)
    requires m <= |events|
  {
    exists j | n < j < m :: ReadsEntries(events[j])
  }

  /** The last reading of a run. */
  ghost predicate LastReading(events: seq<Event>, j: nat) {
    j < |events| && ReadsEntries(events[j]) && forall m | j < m < |events| :: !ReadsEntries(events[m])
  }

  lemma RememberReading(s: State, m: Memory, e: Event)
    requires s.pass.Some? || !e.OfPass?
    ensures var reading := Remember(s, m, e).reading;
            if ReadsEntries(e) then reading.Some? && reading.value.entries == s.status.checkRuns
            else reading.Some? ==> reading == m.reading
  {
  }

  /** The entries that the pass under way has read are those of the status at the last reading. */
  lemma {:induction false} EntriesAtReading(cfg: Config, s: State, events: seq<Event>) returns (j: nat)
    requires Possible(cfg, s, events) && Recall(cfg, s, events).reading.Some?
    ensures LastReading(events, j) && Possible(cfg, s, events[..j])
    ensures Recall(cfg, s, events).reading.value.entries == After(cfg, s, events[..j]).status.checkRuns
    decreases |events|
  {
    var front, e := Front(events), Last(events);
    LastStep(cfg, s, events);
    RememberReading(After(cfg, s, front), Recall(cfg, s, front), e);
    if ReadsEntries(e) {
      j := |front|;
    } else {
      j := EntriesAtReading(cfg, s, front);
      assert front[..j] == events[..j];
    }
  }

  lemma FilesChangeOne(cfg: Config, s: State, e: Event, k: Kind)
    requires Enabled(cfg, s, e) && !WritesBack(e)
    ensures KindName(k) in Next(cfg, s, e).status.checkRuns <==> KindName(k) in s.status.checkRuns || FilesEntry(e, k)
  {
    match e
    case OfPass(step) => PassFilesNothing(cfg, s, step);
    case OfRunner(t, act) =>
      RunnerChanges(cfg, s, t, act);
      if t.Check? && t.kind != k { NamesDiffer(t.kind, k); }
    case _ =>
  }

  lemma PassFilesNothing(cfg: Config, s: State, e: PassEvent)
    requires s.pass.Some? && e != FilesAnalysis(Stored)
    ensures PassNext(cfg, s, e).status.checkRuns == s.status.checkRuns
  {
  }

  lemma NamesDiffer(j: Kind, k: Kind)
    requires j != k
    ensures KindName(j) != KindName(k)
  {
    assert KindName(j)[0] != KindName(k)[0];
  }

  /** Nothing but filing and writing back matters. */
  lemma KeptOneMore(events: seq<Event>, k: Kind)
    requires events != [] && !WritesBack(Last(events))
    ensures FiledAndKept(events, k) <==> FiledAndKept(Front(events), k) || FilesEntry(Last(events), k)
  {
    var front := Front(events);
    if n: nat :| n < |front| && FilesEntry(front[n], k) && ReadSince(front, n) {
      SinceOneMore(events, n);
      assert FilesEntry(events[n], k);
    }
    if FilesEntry(Last(events), k) { assert ReadSince(events, |front|); }
    if n: nat :| n < |front| && FilesEntry(events[n], k) && ReadSince(events, n) {
      SinceOneMore(events, n);
      assert FilesEntry(front[n], k);
    }
  }

  lemma SinceOneMore(events: seq<Event>, n: nat)
    requires n < |events| - 1 && !WritesBack(Last(events))
    ensures ReadSince(events, n) <==> ReadSince(Front(events), n)
  {
    PrefixSince(events, |events| - 1, n);
  }

  lemma PrefixSince(events: seq<Event>, j: nat, n: nat)
    requires n < j <= |events|
    ensures ReadSince(events[..j], n) <==> forall m | n < m < j && WritesBack(events[m]) :: ReadBetween(events, n, m)
  {
    forall m | n < m < j
      ensures events[..j][m] == events[m] && (ReadBetween(events[..j], n, m) <==> ReadBetween(events, n, m))
    {
      PrefixReads(events, j, n, m);
    }
  }

  /** What is written back was kept until it was read. */
  lemma KeptAtReading(events: seq<Event>, k: Kind, j: nat)
    requires events != [] && WritesBack(Last(events)) && LastReading(events, j)
    ensures FiledAndKept(events, k) <==> FiledAndKept(events[..j], k)
  {
    if n: nat :| n < j && FilesEntry(events[..j][n], k) && ReadSince(events[..j], n) { KeptOn(events, n, j); }
    if n: nat :| n < |events| && FilesEntry(events[n], k) && ReadSince(events, n) {
      KeptBefore(events, n, j);
      assert FilesEntry(events[..j][n], k);
    }
  }

  lemma KeptOn(events: seq<Event>, n: nat, j: nat)
    requires n < j && LastReading(events, j) && ReadSince(events[..j], n)
    ensures ReadSince(events, n)
  {
    PrefixSince(events, j, n);
    forall m | n < m < |events| && WritesBack(events[m]) ensures ReadBetween(events, n, m) {
      if m >= j { assert m != j && ReadsEntries(events[j]); }
    }
  }

  lemma KeptBefore(events: seq<Event>, n: nat, j: nat)
    requires n < |events| - 1 && WritesBack(Last(events)) && LastReading(events, j) && ReadSince(events, n)
    ensures n < j && ReadSince(events[..j], n)
  {
    assert ReadBetween(events, n, |events| - 1);
    PrefixSince(events, j, n);
  }

  lemma PrefixReads(events: seq<Event>, j: nat, n: nat, m: nat)
    requires m < j <= |events|
    ensures ReadBetween(events[..j], n, m) <==> ReadBetween(events, n, m)
  {
    assert forall i | 0 <= i < j :: events[..j][i] == events[i];
    if i: nat :| n < i < m && ReadsEntries(events[i]) { assert ReadsEntries(events[..j][i]); }
  }

  /** In every run, a check has an entry exactly if it was stored, and every analysis that has written entries back
      since had read them after that. */
  lemma {:induction false} EntryExactly(cfg: Config, stored: map<string, Manager.Recording>, events: seq<Event>,
                                        k: Kind)
    requires Possible(cfg, Initial(stored), events)
    ensures KindName(k) in After(cfg, Initial(stored), events).status.checkRuns <==> FiledAndKept(events, k)
    decreases |events|
  {
    if events != [] {
      var front, e := Front(events), Last(events);
      LastStep(cfg, Initial(stored), events);
      if WritesBack(e) {
        var j := WritesReading(cfg, stored, events);
        EntryExactly(cfg, stored, events[..j], k);
        KeptAtReading(events, k, j);
      } else {
        EntryExactly(cfg, stored, front, k);
        KeptOneMore(events, k);
        FilesChangeOne(cfg, After(cfg, Initial(stored), front), e, k);
      }
    }
  }

  /** What is written back has the entries of the status at the last reading. */
  lemma WritesReading(cfg: Config, stored: map<string, Manager.Recording>, events: seq<Event>) returns (j: nat)
    requires Possible(cfg, Initial(stored), events) && events != [] && WritesBack(Last(events))
    ensures LastReading(events, j) && Possible(cfg, Initial(stored), events[..j])
    ensures After(cfg, Initial(stored), events).status.checkRuns.Keys
         == After(cfg, Initial(stored), events[..j]).status.checkRuns.Keys
  {
    var front := Front(events);
    LastStep(cfg, Initial(stored), events);
    RunTold(cfg, stored, front);
    WrittenBack(cfg, After(cfg, Initial(stored), front), Recall(cfg, Initial(stored), front));
    j := EntriesAtReading(cfg, Initial(stored), front);
    assert front[..j] == events[..j];
  }

  lemma WrittenBack(cfg: Config, s: State, m: Memory)
    requires s.pass.Some? && s.pass.value.pc.FileAnalysis? && Told(cfg, s.pass.value, m)
    ensures m.reading.Some?
    ensures Next(cfg, s, OfPass(FilesAnalysis(Stored))).status.checkRuns.Keys == m.reading.value.entries.Keys
  {
  }

  /** Whenever a recommendation is made, it merges the run of a check, unless it is marked failed, exactly if the entry
      of the check had been stored and kept when the analysis read the entries. */
  lemma RecommendationMergesExactly(cfg: Config, stored: map<string, Manager.Recording>, events: seq<Event>,
                                    o: Outcome, spec: PodSpec, order: seq<Defaults>, k: Kind)
    requires Possible(cfg, Initial(stored), events)
    requires Enabled(cfg, After(cfg, Initial(stored), events), OfPass(FilesRecommendation(o, Some(spec), order)))
    ensures exists j: nat :: LastReading(events, j)
    ensures var runs := After(cfg, Initial(stored), events).pass.value.view.checkRuns;
            && (forall j: nat | LastReading(events, j) :: KindName(k) in runs <==> FiledAndKept(events[..j], k))
            && (KindName(k) in runs && runs[KindName(k)].checkSuccessful != Some(false) ==>
                  runs[KindName(k)].securityContext.Some? && runs[KindName(k)].securityContext.value in order)
  {
    var s, m := After(cfg, Initial(stored), events), Recall(cfg, Initial(stored), events);
    var runs := s.pass.value.view.checkRuns;
    RunTold(cfg, stored, events);
    assert HasReading(m, s.pass.value) && Judged(cfg, m.reading.value);
    var j := EntriesAtReading(cfg, Initial(stored), events);
    EntryExactly(cfg, stored, events[..j], k);
    forall i: nat | LastReading(events, i) ensures i == j {
      assert ReadsEntries(events[i]) && ReadsEntries(events[j]);
    }
    if KindName(k) in runs {
      assert RunSound(cfg, Known(s), KindName(k), runs[KindName(k)]);
      EntryIsMerged(cfg, Known(s), runs, order, k);
    }
  }
}
