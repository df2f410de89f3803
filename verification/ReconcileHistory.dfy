/** What a pass has done before the place where it is: which conditions its tests have found recorded, and which
    entries it has read and judged. */
module ReconcileHistory {
  import opened Options
  import opened SecurityContexts
  import opened Checks
  import opened Recommendation
  import opened FinalRun
  import opened Manager
  import opened ReconcileProtocol
  import opened ReconcileInvariant
  import opened ReconcileSafety

  // ---------- Runs, from their end ----------

  function Front(events: seq<Event>): seq<Event>
    requires events != []
  {
    events[..|events| - 1]
  }

  function Last(events: seq<Event>): Event
    requires events != []
  {
    events[|events| - 1]
  }

  lemma {:induction false} LastStep(cfg: Config, s: State, events: seq<Event>)
    requires events != [] && Possible(cfg, s, events)
    ensures Possible(cfg, s, Front(events)) && Enabled(cfg, After(cfg, s, Front(events)), Last(events))
    ensures After(cfg, s, events) == Next(cfg, After(cfg, s, Front(events)), Last(events))
    decreases |events|
  {
    if |events| == 1 {
      assert events[1..] == [] && Front(events) == [];
      assert After(cfg, Next(cfg, s, events[0]), []) == Next(cfg, s, events[0]);
    } else {
      LastStep(cfg, Next(cfg, s, events[0]), events[1..]);
      assert Front(events)[1..] == Front(events[1..]) && Front(events)[0] == events[0];
      assert Last(events) == Last(events[1..]);
    }
  }

  // ---------- What a pass remembers ----------

  /** The entries that the analysis has read, the recordings at that moment, the checks whose runners were about to
      file their entries then, and the outcome. */
  datatype Reading = Reading(entries: CheckRuns, stored: map<string, Manager.Recording>, filing: set<Kind>,
                             result: Analysis, judge: Manager.Recording -> Verdict)

  /** The conditions that tests of the pass have found recorded, and the last reading of the pass. */
  datatype Memory = Memory(seen: set<ConditionType>, reading: Option<Reading>)

  const NOTHING := Memory({}, None)

  /** The runner of the check is about to file its entry. */
  predicate IsFiling(runners: map<CheckType, Runner>, k: Kind) {
    Check(k) in runners && runners[Check(k)].phase.Filing?
  }

  function FilingChecks(runners: map<CheckType, Runner>): set<Kind> { set k | k in AllKinds() && IsFiling(runners, k) }

  /** The places whose test is BaselineRecorded. */
  predicate TestsBaseline(pc: Pc) {
    pc.AskBaseline? || pc.BaselineGiven? || pc.BaselineMissing? || pc.BaselineChecked? || pc.ChecksMissing?
  }

  /** The checks that CheckRecorded is asked about when a pass goes on to `next`. */
  function TestedChecks(pc: Pc, next: Pc): set<Kind> {
    if pc.AskChecks? && next.AskChecks? then pc.todo - next.todo
    else if pc.NextCheck? && next.NextCheck? then pc.todo - next.todo
    else {}
  }

  /** A test of the pass finds the condition recorded in its copy. */
  predicate FindsRecorded(s: State, e: Event, c: ConditionType) {
    && s.pass.Some? && e.OfPass? && e.step.BranchesTo? && Recorded(s.pass.value.view, c)
    && ((c.BaselineCondition? && TestsBaseline(s.pass.value.pc))
        || (c.CheckCondition? && c.kind in TestedChecks(s.pass.value.pc, e.step.next)))
  }

  function Found(p: Pass, next: Pc): set<ConditionType> {
    (if TestsBaseline(p.pc) && Recorded(p.view, BaselineCondition) then {BaselineCondition} else {})
    + set k | k in TestedChecks(p.pc, next) && Recorded(p.view, CheckCondition(k)) :: CheckCondition(k)
  }

  function Remember(s: State, m: Memory, e: Event): Memory {
    match e
    case Begin => NOTHING
    case Restart => NOTHING
    case OfRunner(_, _) => m
    case OfPass(step) =>
      if s.pass.None? then m
      else match step
        case BranchesTo(next) => m.(seen := m.seen + Found(s.pass.value, next))
        case Judges(result, _, judge) =>
          m.(reading := Some(Reading(s.status.checkRuns, s.stored, FilingChecks(s.runners), result, judge)))
        case _ => m
  }

  /** What the pass that is under way after a run remembers. */
  function Recall(cfg: Config, s: State, events: seq<Event>): Memory
    decreases |events|
  {
    if events == [] then NOTHING
    else Remember(After(cfg, s, Front(events)), Recall(cfg, s, Front(events)), Last(events))
  }

  /** Some step of the same pass was a test that found the condition recorded. */
  ghost predicate SawRecorded(cfg: Config, s: State, events: seq<Event>, c: ConditionType) {
    exists n | 0 <= n < |events| ::
      && FindsRecorded(After(cfg, s, events[..n]), events[n], c)
      && forall m | n < m < |events| :: !events[m].Begin? && !events[m].Restart?
  }

  lemma {:induction false} RememberedWasSeen(cfg: Config, s: State, events: seq<Event>, c: ConditionType)
    requires c in Recall(cfg, s, events).seen
    ensures SawRecorded(cfg, s, events, c)
    decreases |events|
  {
    var front, e := Front(events), Last(events);
    var before := After(cfg, s, front);
    if FindsRecorded(before, e, c) {
      assert events[..|events| - 1] == front;
    } else {
      assert c in Recall(cfg, s, front).seen;
      RememberedWasSeen(cfg, s, front, c);
      var n :| 0 <= n < |front| && FindsRecorded(After(cfg, s, front[..n]), front[n], c)
               && forall m | n < m < |front| :: !front[m].Begin? && !front[m].Restart?;
      assert front[..n] == events[..n] && front[n] == events[n];
      forall m | n < m < |events| ensures !events[m].Begin? && !events[m].Restart? {
        if m < |front| { assert events[m] == front[m]; }
      }
    }
  }

  // ---------- What the place of a pass tells about its memory ----------

  predicate SeenBaseline(m: Memory, pc: Pc) { SawBaseline(pc) ==> BaselineCondition in m.seen }

  predicate SeenRequired(m: Memory, pc: Pc) { forall k | k in SeenChecks(pc) :: CheckCondition(k) in m.seen }

  /** The result of the analysis that a recommendation is built from. */
  predicate HasReading(m: Memory, p: Pass) {
    && (p.pc.FileAnalysis? ==> m.reading.Some? && m.reading.value.result == Updated(p.pc.runs))
    && (p.pc.Recommends? ==>
          && m.reading.Some? && !m.reading.value.result.Error?
          && p.view.checkRuns ==
             if m.reading.value.result.Skipped? then m.reading.value.entries else m.reading.value.result.runs)
  }

  /** Every run of an analysis is the entry of that name, judged by the verdict on its own recording. */
  predicate Judged(cfg: Config, r: Reading) {
    r.result.Updated? ==>
      && r.result.runs.Keys == r.entries.Keys
      && forall n | n in r.entries ::
           var key := RecordingKey(cfg.ns, cfg.suffix, n);
           key in r.stored && r.result.runs[n] == Analyzed(r.entries[n], r.stored[key], r.judge(r.stored[key]))
  }

  predicate Told(cfg: Config, p: Pass, m: Memory) {
    && SeenBaseline(m, p.pc) && SeenRequired(m, p.pc) && HasReading(m, p)
    && (m.reading.Some? ==> Judged(cfg, m.reading.value))
  }

  lemma AskingFinds(p: Pass, next: Pc)
    requires AsksForChecks(p, next)
    ensures SawBaseline(next) ==> SawBaseline(p.pc) || BaselineCondition in Found(p, next)
    ensures !p.pc.AskChecks? ==> SeenChecks(next) == {}
    ensures !next.FileAnalysis? && !next.Recommends?
  {
  }

  lemma AskingChecksFinds(p: Pass, next: Pc, k: Kind)
    requires AsksForChecks(p, next) && p.pc.AskChecks? && k in SeenChecks(next)
    ensures k in SeenChecks(p.pc) || CheckCondition(k) in Found(p, next)
  {
  }

  lemma RecordingFinds(cfg: Config, p: Pass, runners: set<CheckType>, next: Pc)
    requires RecordingBranches(cfg, p, runners, next)
    ensures SawBaseline(next) ==> SawBaseline(p.pc) || BaselineCondition in Found(p, next)
    ensures !SawChecks(next) && !next.AskChecks?
  {
  }

  lemma BranchTold(cfg: Config, p: Pass, runners: set<CheckType>, next: Pc, m: Memory)
    requires Told(cfg, p, m) && Branches(cfg, p, runners, next)
    ensures Told(cfg, p.(pc := next), m.(seen := m.seen + Found(p, next)))
  {
    var after := m.(seen := m.seen + Found(p, next));
    if FinalBranches(p, runners, next) {
      FinalBranchSees(p, runners, next);
    } else if AsksForChecks(p, next) {
      AskingFinds(p, next);
      forall k | k in SeenChecks(next) ensures CheckCondition(k) in after.seen {
        if p.pc.AskChecks? { AskingChecksFinds(p, next, k); }
      }
    } else {
      RecordingFinds(cfg, p, runners, next);
    }
  }

  lemma SetTold(cfg: Config, p: Pass, o: Outcome, view: Status, m: Memory)
    requires Told(cfg, p, m) && PassSets(p.pc, o).Some? && PassSets(p.pc, o).value.2.Some?
    ensures Told(cfg, Pass(PassSets(p.pc, o).value.2.value, p.started, view), m)
  {
    var next := PassSets(p.pc, o).value.2.value;
    SetKeepsPlace(p.pc, o);
    assert SeenChecks(next) <= SeenChecks(p.pc);
  }

  lemma SetKeepsPlace(pc: Pc, o: Outcome)
    requires PassSets(pc, o).Some? && PassSets(pc, o).value.2.Some?
    ensures var next := PassSets(pc, o).value.2.value;
            && (SawBaseline(next) ==> SawBaseline(pc)) && !next.AskChecks? && !next.FileAnalysis? && !next.Recommends?
            && (SawChecks(next) ==> SawChecks(pc) && next.lookup == pc.lookup)
  {
  }

  lemma JudgedReading(cfg: Config, s: State, e: PassEvent)
    requires Inv(cfg, s) && e.Judges? && s.pass.Some? && CanJudge(cfg, s, e)
    ensures Judged(cfg, Reading(s.status.checkRuns, s.stored, FilingChecks(s.runners), e.result, e.judge))
  {
    var runs := s.status.checkRuns;
    assert RunsSound(cfg, Known(s), runs);
    assert KeyedByName(runs) by { assert forall n | n in runs :: RunSound(cfg, Known(s), n, runs[n]); }
    if e.result.Updated? {
      AnalysisOnlyFails(runs, e.result.runs, cfg.ns, cfg.suffix, e.get, e.judge, "");
      forall n | n in runs
        ensures var key := RecordingKey(cfg.ns, cfg.suffix, n);
                key in s.stored && e.result.runs[n] == Analyzed(runs[n], s.stored[key], e.judge(s.stored[key]))
      {
        assert AnalyzedFrom(runs, e.result.runs[n], n, cfg.ns, cfg.suffix, e.get, e.judge);
      }
    }
  }

  lemma JudgesTold(cfg: Config, s: State, m: Memory, e: PassEvent)
    requires Inv(cfg, s) && e.Judges? && s.pass.Some? && CanJudge(cfg, s, e) && Told(cfg, s.pass.value, m)
    ensures Told(cfg, PassNext(cfg, s, e).pass.value, Remember(s, m, OfPass(e)))
  {
    JudgedReading(cfg, s, e);
    var pc, next := s.pass.value.pc, PassNext(cfg, s, e).pass.value.pc;
    assert SeenChecks(next) <= SeenChecks(pc) && SawBaseline(pc);
  }

  lemma PassStepTold(cfg: Config, s: State, m: Memory, e: PassEvent)
    requires Inv(cfg, s) && s.pass.Some? && PassCan(cfg, s, e) && Told(cfg, s.pass.value, m)
    ensures PassNext(cfg, s, e).pass.Some? ==> Told(cfg, PassNext(cfg, s, e).pass.value, Remember(s, m, OfPass(e)))
  {
    match e
    case BranchesTo(next) => BranchStepTold(cfg, s, m, next);
    case SetsCondition(o) => SetStepTold(cfg, s, m, o);
    case Judges(_, _, _) => JudgesTold(cfg, s, m, e);
    case SubmitsWith(_) => SubmitStepTold(cfg, s, m, e);
    case Refreshes => QuietStepTold(cfg, s, m, e);
    case Returns => QuietStepTold(cfg, s, m, e);
    case RemovesConditions(_) => QuietStepTold(cfg, s, m, e);
    case _ => FilingStepTold(cfg, s, m, e);
  }

  lemma BranchStepTold(cfg: Config, s: State, m: Memory, next: Pc)
    requires s.pass.Some? && Branches(cfg, s.pass.value, s.runners.Keys, next) && Told(cfg, s.pass.value, m)
    ensures Told(cfg, PassNext(cfg, s, BranchesTo(next)).pass.value, Remember(s, m, OfPass(BranchesTo(next))))
  {
    BranchTold(cfg, s.pass.value, s.runners.Keys, next, m);
  }

  lemma SetStepTold(cfg: Config, s: State, m: Memory, o: Outcome)
    requires s.pass.Some? && PassSets(s.pass.value.pc, o).Some? && Told(cfg, s.pass.value, m)
    ensures var next := PassNext(cfg, s, PassEvent.SetsCondition(o)).pass; next.Some? ==> Told(cfg, next.value, m)
  {
    if PassSets(s.pass.value.pc, o).value.2.Some? {
      SetTold(cfg, s.pass.value, o, PassNext(cfg, s, PassEvent.SetsCondition(o)).pass.value.view, m);
    }
  }

  lemma QuietStepTold(cfg: Config, s: State, m: Memory, e: PassEvent)
    requires s.pass.Some? && PassCan(cfg, s, e) && Told(cfg, s.pass.value, m)
    requires e.Refreshes? || e.Returns? || e.RemovesConditions?
    ensures PassNext(cfg, s, e).pass.Some? ==> Told(cfg, PassNext(cfg, s, e).pass.value, m)
  {
  }

  lemma FilingStepTold(cfg: Config, s: State, m: Memory, e: PassEvent)
    requires s.pass.Some? && PassCan(cfg, s, e) && Told(cfg, s.pass.value, m)
    requires e.FilesAnalysis? || e.FilesRecommendation? || e.FilesBaselines?
    ensures PassNext(cfg, s, e).pass.Some? ==> Told(cfg, PassNext(cfg, s, e).pass.value, m)
  {
    FilingKeepsPlace(cfg, s, e);
  }

  lemma FilingKeepsPlace(cfg: Config, s: State, e: PassEvent)
    requires s.pass.Some? && PassCan(cfg, s, e)
    requires e.FilesAnalysis? || e.FilesRecommendation? || e.FilesBaselines?
    ensures var next := PassNext(cfg, s, e).pass;
            next.Some? ==>
              && (SawBaseline(next.value.pc) ==> SawBaseline(s.pass.value.pc))
              && SeenChecks(next.value.pc) <= SeenChecks(s.pass.value.pc)
              && !next.value.pc.FileAnalysis?
              && (next.value.pc.Recommends? ==>
                    s.pass.value.pc.FileAnalysis? && next.value.view.checkRuns == s.pass.value.pc.runs)
  {
    match e
    case FilesAnalysis(o) => FiledAnalysisKeepsPlace(cfg, s, o);
    case FilesRecommendation(o, spec, order) =>
    case FilesBaselines(o) =>
  }

  lemma FiledAnalysisKeepsPlace(cfg: Config, s: State, o: Outcome)
    requires s.pass.Some? && s.pass.value.pc.FileAnalysis?
    ensures var next := PassNext(cfg, s, FilesAnalysis(o)).pass;
            && next.Some? && (next.value.pc.FailAnalysis? || next.value.pc == Recommends(s.pass.value.pc.lookup))
            && (next.value.pc.Recommends? ==> next.value.view.checkRuns == s.pass.value.pc.runs)
  {
  }

  lemma SubmitStepTold(cfg: Config, s: State, m: Memory, e: PassEvent)
    requires s.pass.Some? && PassCan(cfg, s, e) && Told(cfg, s.pass.value, m) && e.SubmitsWith?
    ensures PassNext(cfg, s, e).pass.Some? ==> Told(cfg, PassNext(cfg, s, e).pass.value, m)
  {
  }

  lemma StepTold(cfg: Config, s: State, m: Memory, e: Event)
    requires Inv(cfg, s) && Enabled(cfg, s, e) && (s.pass.Some? ==> Told(cfg, s.pass.value, m))
    ensures Next(cfg, s, e).pass.Some? ==> Told(cfg, Next(cfg, s, e).pass.value, Remember(s, m, e))
  {
    match e
    case OfPass(step) => PassStepTold(cfg, s, m, step);
    case OfRunner(t, act) => RunnersStay(cfg, s, t, act);
    case _ =>
  }

  lemma {:induction false} RunTold(cfg: Config, stored: map<string, Manager.Recording>, events: seq<Event>)
    requires Possible(cfg, Initial(stored), events)
    ensures Inv(cfg, After(cfg, Initial(stored), events))
    ensures var s := After(cfg, Initial(stored), events);
            s.pass.Some? ==> Told(cfg, s.pass.value, Recall(cfg, Initial(stored), events))
    decreases |events|
  {
    RunKeepsInv(cfg, Initial(stored), events);
    if events != [] {
      LastStep(cfg, Initial(stored), events);
      RunTold(cfg, stored, Front(events));
      StepTold(cfg, After(cfg, Initial(stored), Front(events)), Recall(cfg, Initial(stored), Front(events)),
               Last(events));
    }
  }

  // ---------- The order of tests, submissions and recommendations ----------

  lemma OnlySubmitCheckStarts(cfg: Config, s: State, e: Event, k: Kind)
    requires Enabled(cfg, s, e) && Check(k) !in s.runners && Check(k) in Next(cfg, s, e).runners
    ensures s.pass.Some? && s.pass.value.pc.SubmitCheck? && s.pass.value.pc.kind == k
  {
    match e
    case OfPass(step) => assert step.SubmitsWith?;
    case OfRunner(t, act) => RunnersStay(cfg, s, t, act);
    case _ =>
  }

  lemma RunnersStay(cfg: Config, s: State, t: CheckType, e: RunnerEvent)
    requires t in s.runners
    ensures RunnerNext(cfg, s, t, e).runners.Keys <= s.runners.Keys && RunnerNext(cfg, s, t, e).pass == s.pass
  {
  }

  /** A check run is submitted only by a pass in which an earlier test has found the baseline recorded. */
  lemma ChecksFollowBaseline(cfg: Config, stored: map<string, Manager.Recording>, events: seq<Event>, e: Event, k: Kind)
    requires Possible(cfg, Initial(stored), events) && Enabled(cfg, After(cfg, Initial(stored), events), e)
    requires Check(k) !in After(cfg, Initial(stored), events).runners
    requires Check(k) in Next(cfg, After(cfg, Initial(stored), events), e).runners
    ensures SawRecorded(cfg, Initial(stored), events, BaselineCondition)
  {
    RunTold(cfg, stored, events);
    OnlySubmitCheckStarts(cfg, After(cfg, Initial(stored), events), e, k);
    RememberedWasSeen(cfg, Initial(stored), events, BaselineCondition);
  }

  /** A recommendation first appears, or changes, only by a pass in which earlier tests have found the baseline
      recorded and, if the pass could look up the workload, every check that its template requires. Without the
      lookup nothing is required, and nothing is known about the checks. */
  lemma RecommendationFollowsChecks(cfg: Config, stored: map<string, Manager.Recording>, events: seq<Event>, e: Event)
    requires Possible(cfg, Initial(stored), events) && Enabled(cfg, After(cfg, Initial(stored), events), e)
    requires var s := After(cfg, Initial(stored), events);
             s.status.recommendation != Next(cfg, s, e).status.recommendation
    ensures var s := After(cfg, Initial(stored), events);
            && s.pass.Some? && s.pass.value.pc.Recommends?
            && SawRecorded(cfg, Initial(stored), events, BaselineCondition)
            && (s.pass.value.pc.lookup.Some? ==> forall k | ShouldRun(k, s.pass.value.pc.lookup.value) ::
                  SawRecorded(cfg, Initial(stored), events, CheckCondition(k)))
  {
    var s := After(cfg, Initial(stored), events);
    RunTold(cfg, stored, events);
    OnlyRecommends(cfg, s, e);
    RememberedWasSeen(cfg, Initial(stored), events, BaselineCondition);
    RequiredWereSeen(cfg, Initial(stored), events);
  }

  lemma RequiredWereSeen(cfg: Config, s: State, events: seq<Event>)
    requires After(cfg, s, events).pass.Some?
    requires var pc := After(cfg, s, events).pass.value.pc; pc.Recommends? && SeenRequired(Recall(cfg, s, events), pc)
    ensures var lookup := After(cfg, s, events).pass.value.pc.lookup;
            lookup.Some? ==> forall k | ShouldRun(k, lookup.value) :: SawRecorded(cfg, s, events, CheckCondition(k))
  {
    var pc := After(cfg, s, events).pass.value.pc;
    if pc.lookup.Some? {
      forall k | ShouldRun(k, pc.lookup.value) ensures SawRecorded(cfg, s, events, CheckCondition(k)) {
        assert k in AllKinds() && k in SeenChecks(pc);
        RememberedWasSeen(cfg, s, events, CheckCondition(k));
      }
    }
  }

  /** The pass that made the recommendation of a run had found the baseline recorded, and a baseline is available. */
  lemma {:induction false} RecommendationNeedsBaseline(cfg: Config, stored: map<string, Manager.Recording>,
                                                       events: seq<Event>)
    requires Possible(cfg, Initial(stored), events)
    requires After(cfg, Initial(stored), events).status.recommendation.Some?
    ensures BaselineAvailable(cfg, Known(After(cfg, Initial(stored), events)))
    ensures exists n | 0 <= n < |events| :: MadeAt(cfg, Initial(stored), events, n)
    decreases |events|
  {
    RecommendationNeedsBaselineFrom(cfg, Initial(stored), events);
    var front, e := Front(events), Last(events);
    LastStep(cfg, Initial(stored), events);
    var before, after := After(cfg, Initial(stored), front), After(cfg, Initial(stored), events);
    if before.status.recommendation == after.status.recommendation {
      RecommendationNeedsBaseline(cfg, stored, front);
      var n :| 0 <= n < |front| && MadeAt(cfg, Initial(stored), front, n);
      assert front[..n] == events[..n] && front[n] == events[n];
      assert MadeAt(cfg, Initial(stored), events, n);
    } else {
      RecommendationFollowsChecks(cfg, stored, front, e);
      OnlyRecommends(cfg, After(cfg, Initial(stored), front), e);
      assert events[..|front|] == front;
      assert MadeAt(cfg, Initial(stored), events, |front|);
    }
  }

  /** Step `n` writes a recommendation, in a pass that has found the baseline recorded. */
  ghost predicate MadeAt(cfg: Config, s: State, events: seq<Event>, n: nat)
    requires n < |events|
  {
    events[n].OfPass? && events[n].step.FilesRecommendation? && SawRecorded(cfg, s, events[..n], BaselineCondition)
  }

  /** Unless the analysis was skipped, every context that is merged into a recommendation is that of an entry that
      the pass has read and judged by the verdict on its own recording, which was good. */
  lemma RecommendationIsJudged(cfg: Config, stored: map<string, Manager.Recording>, events: seq<Event>,
                               o: Outcome, spec: PodSpec, order: seq<Defaults>, d: Defaults)
    requires Possible(cfg, Initial(stored), events)
    requires Enabled(cfg, After(cfg, Initial(stored), events), OfPass(FilesRecommendation(o, Some(spec), order)))
    requires d in order
    ensures var reading := Recall(cfg, Initial(stored), events).reading;
            && reading.Some?
            && (!reading.value.result.Skipped? ==>
                  exists n | n in reading.value.entries :: MergedWell(cfg, reading.value, n, d))
  {
    RunTold(cfg, stored, events);
    var s, reading := After(cfg, Initial(stored), events), Recall(cfg, Initial(stored), events).reading;
    assert HasReading(Recall(cfg, Initial(stored), events), s.pass.value);
    if !reading.value.result.Skipped? { JudgedContext(cfg, reading.value, order, d); }
  }

  /** The entry may be merged: it was not marked failed, its pods ran if nothing else was known, and the verdict on
      its recording is good. */
  ghost predicate MergedWell(cfg: Config, r: Reading, n: string, d: Defaults)
    requires n in r.entries
  {
    var key := RecordingKey(cfg.ns, cfg.suffix, n);
    && r.entries[n].securityContext == Some(d) && r.entries[n].checkSuccessful != Some(false)
    && key in r.stored && r.judge(r.stored[key]).success
    && (r.entries[n].checkSuccessful.Some? || r.stored[key].podStateRunning)
  }

  lemma JudgedContext(cfg: Config, r: Reading, order: seq<Defaults>, d: Defaults)
    requires Judged(cfg, r) && r.result.Updated? && ContextsOf(r.result.runs, order) && d in order
    ensures exists n | n in r.entries :: MergedWell(cfg, r, n, d)
  {
    var runs := r.result.runs;
    var n :| n in runs && Accepted(runs[n]) && runs[n].securityContext == Some(d);
    var key := RecordingKey(cfg.ns, cfg.suffix, n);
    assert n in r.entries && key in r.stored;
    assert runs[n] == Analyzed(r.entries[n], r.stored[key], r.judge(r.stored[key]));
    BoolOption(r.entries[n].checkSuccessful);
    assert MergedWell(cfg, r, n, d);
  }
}
