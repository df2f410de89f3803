/** What every step of reconcile passes and runners keeps. */
module ReconcileInvariant {
  import opened Options
  import opened SecurityContexts
  import opened Checks
  import opened Recommendation
  import opened FinalRun
  import opened Manager
  import opened ReconcileProtocol

  // ---------- The invariant ----------

  /** The facts that only grow: the stored recordings, the recommendation, and whether one was lost. */
  datatype Facts = Facts(keys: set<string>, recommended: bool, lost: bool)

  function Known(s: State): Facts { Facts(s.stored.Keys, s.status.recommendation.Some?, s.lost) }

  predicate Below(f: Facts, g: Facts) { f.keys <= g.keys && (f.recommended ==> g.recommended) && (f.lost ==> g.lost) }

  predicate BaselineAvailable(cfg: Config, f: Facts) {
    |cfg.reference| > 0 || Key(cfg, Baseline) in f.keys || Key(cfg, SecondBaseline) in f.keys
  }

  ghost predicate RunSound(cfg: Config, f: Facts, name: string, run: CheckRun) {
    && run.name == name && RecordingKey(cfg.ns, cfg.suffix, name) in f.keys
    && exists k :: name == KindName(k) && FitsCheck(cfg, k, run.securityContext)
  }

  ghost predicate RunsSound(cfg: Config, f: Facts, runs: CheckRuns) {
    forall n | n in runs :: RunSound(cfg, f, n, runs[n])
  }

  predicate BaselineSound(cfg: Config, f: Facts, st: Status) {
    Is(st, BaselineCondition, True) ==> BaselineAvailable(cfg, f)
  }

  ghost predicate ChecksSound(cfg: Config, f: Facts, st: Status) {
    forall k :: Is(st, CheckCondition(k), True) ==> Key(cfg, Check(k)) in f.keys
  }

  predicate FinalSound(f: Facts, st: Status) {
    && (FinalCondition in st.conditions ==> st.recommendation.Some? || f.lost)
    && (st.recommendation.Some? ==> f.recommended || f.lost)
  }

  /** What a status says is backed by the facts. It stays so after the status was replaced. */
  ghost predicate Sound(cfg: Config, f: Facts, st: Status) {
    BaselineSound(cfg, f, st) && ChecksSound(cfg, f, st) && FinalSound(f, st) && RunsSound(cfg, f, st.checkRuns)
  }

  ghost predicate RunnerSound(cfg: Config, f: Facts, t: CheckType, r: Runner) {
    && (t.Check? ==> BaselineAvailable(cfg, f) && FitsCheck(cfg, t.kind, r.context))
    && (t.Final? ==> (f.recommended && r.context.Some?) || f.lost)
    && (r.phase.Publishing? || r.phase.Filing? ==> Key(cfg, t) in f.keys)
  }

  ghost predicate RunnersSound(cfg: Config, f: Facts, runners: map<CheckType, Runner>) {
    forall t | t in runners :: RunnerSound(cfg, f, t, runners[t])
  }

  /** The places after the pass has seen the baseline recorded. */
  predicate SawBaseline(pc: Pc) {
    || pc.LookUp? || pc.Require? || pc.AddCondition? || pc.AskChecks?
    || pc.ChecksStarted? || pc.NextCheck? || pc.CheckOverdue? || pc.SubmitCheck?
    || (pc.AskBaseline? && pc.purpose != ToAnalyze) || SawChecks(pc)
  }

  /** The places after the pass has seen the baseline and every required check recorded. */
  predicate SawChecks(pc: Pc) {
    pc.AnnounceAnalysis? || pc.StartAnalysis? || pc.Analyze? || pc.FileAnalysis? || pc.Recommends?
  }

  function SeenChecks(pc: Pc): set<Kind> {
    if pc.AskChecks? then Required(pc.lookup) - pc.todo
    else if SawChecks(pc) then Required(pc.lookup)
    else {}
  }

  predicate PcBaseline(cfg: Config, f: Facts, pc: Pc) { SawBaseline(pc) ==> BaselineAvailable(cfg, f) }

  predicate PcChecks(cfg: Config, f: Facts, pc: Pc) { forall k | k in SeenChecks(pc) :: Key(cfg, Check(k)) in f.keys }

  /** The places after the pass has seen a recommendation, up to the final run. */
  predicate HasRecommendation(pc: Pc) { pc.FinalUnrecorded? || pc.SubmitFinal? }

  ghost predicate PcWrites(cfg: Config, f: Facts, pc: Pc) {
    && (pc.FileAnalysis? ==> RunsSound(cfg, f, pc.runs))
    && (pc.FinalOverdue? || HasRecommendation(pc) ==> f.recommended || f.lost)
    && (pc.AcceptBaseline? || pc.FileBaselines? ==> |cfg.reference| > 0)
  }

  ghost predicate PcSound(cfg: Config, f: Facts, pc: Pc) {
    PcBaseline(cfg, f, pc) && PcChecks(cfg, f, pc) && PcWrites(cfg, f, pc)
  }

  ghost predicate PassSound(cfg: Config, f: Facts, p: Pass) {
    && Sound(cfg, f, p.started) && Sound(cfg, f, p.view) && PcSound(cfg, f, p.pc)
    && (p.started.recommendation.Some? ==> p.view.recommendation.Some?)
    && (HasRecommendation(p.pc) ==> p.view.recommendation.Some? || f.lost)
  }

  /** A pass goes on with a finished resource only to find it finished, or to clean up after finishing it itself. */
  predicate FinishedSound(st: Status, pass: Option<Pass>) {
    Is(st, FinishedCondition, True) && pass.Some? ==>
      pass.value.pc.Removing? || (pass.value.pc.Begun? && Is(pass.value.started, FinishedCondition, True))
  }

  /** The recommendation that a pass has read is still there. */
  predicate StartSound(st: Status, pass: Option<Pass>) {
    pass.Some? && pass.value.started.recommendation.Some? ==> st.recommendation.Some?
  }

  ghost predicate Inv(cfg: Config, s: State) {
    && Sound(cfg, Known(s), s.status)
    && RunnersSound(cfg, Known(s), s.runners)
    && (s.pass.Some? ==> PassSound(cfg, Known(s), s.pass.value))
    && FinishedSound(s.status, s.pass)
    && StartSound(s.status, s.pass)
  }

  // ---------- Facts only grow ----------

  lemma SoundLater(cfg: Config, f: Facts, g: Facts, st: Status)
    requires Below(f, g) && Sound(cfg, f, st)
    ensures Sound(cfg, g, st)
  {
    RunsLater(cfg, f, g, st.checkRuns);
  }

  lemma RunsLater(cfg: Config, f: Facts, g: Facts, runs: CheckRuns)
    requires Below(f, g) && RunsSound(cfg, f, runs)
    ensures RunsSound(cfg, g, runs)
  {
    forall n | n in runs ensures RunSound(cfg, g, n, runs[n]) { assert RunSound(cfg, f, n, runs[n]); }
  }

  lemma RunnersLater(cfg: Config, f: Facts, g: Facts, runners: map<CheckType, Runner>)
    requires Below(f, g) && RunnersSound(cfg, f, runners)
    ensures RunnersSound(cfg, g, runners)
  {
    forall t | t in runners ensures RunnerSound(cfg, g, t, runners[t]) { assert RunnerSound(cfg, f, t, runners[t]); }
  }

  lemma PcLater(cfg: Config, f: Facts, g: Facts, pc: Pc)
    requires Below(f, g) && PcSound(cfg, f, pc)
    ensures PcSound(cfg, g, pc)
  {
    if pc.FileAnalysis? { RunsLater(cfg, f, g, pc.runs); }
  }

  lemma PassLater(cfg: Config, f: Facts, g: Facts, p: Pass)
    requires Below(f, g) && PassSound(cfg, f, p)
    ensures PassSound(cfg, g, p)
  {
    SoundLater(cfg, f, g, p.started);
    SoundLater(cfg, f, g, p.view);
    PcLater(cfg, f, g, p.pc);
  }

  lemma PassFactsGrow(cfg: Config, s: State, e: PassEvent)
    requires s.pass.Some?
    ensures Below(Known(s), Known(PassNext(cfg, s, e)))
  {
  }

  lemma RunnerFactsGrow(cfg: Config, s: State, t: CheckType, e: RunnerEvent)
    requires t in s.runners
    ensures Below(Known(s), Known(RunnerNext(cfg, s, t, e)))
    ensures RunnerNext(cfg, s, t, e).status.recommendation == s.status.recommendation
  {
  }

  /** Recordings, the recommendation and the note of a lost one are never removed. */
  lemma FactsGrow(cfg: Config, s: State, e: Event)
    ensures Below(Known(s), Known(Next(cfg, s, e)))
  {
    match e
    case OfPass(step) => if s.pass.Some? { PassFactsGrow(cfg, s, step); }
    case OfRunner(t, act) => if t in s.runners { RunnerFactsGrow(cfg, s, t, act); }
    case _ =>
  }

  // ---------- Conditions ----------

  predicate Backed(cfg: Config, f: Facts, st: Status, c: ConditionType, v: Condition) {
    && (c.BaselineCondition? && v.status == True ==> BaselineAvailable(cfg, f))
    && (c.CheckCondition? && v.status == True ==> Key(cfg, Check(c.kind)) in f.keys)
    && (c.FinalCondition? ==> st.recommendation.Some? || f.lost)
  }

  lemma SetConditionSound(cfg: Config, f: Facts, st: Status, c: ConditionType, v: Condition)
    requires Sound(cfg, f, st) && Backed(cfg, f, st, c, v)
    ensures Sound(cfg, f, SetCondition(st, c, v))
  {
    forall k | Is(SetCondition(st, c, v), CheckCondition(k), True) ensures Key(cfg, Check(k)) in f.keys {
      if c != CheckCondition(k) { assert Is(st, CheckCondition(k), True); }
    }
  }

  lemma SameConditions(cfg: Config, f: Facts, st: Status, changed: Status)
    requires BaselineSound(cfg, f, st) && ChecksSound(cfg, f, st) && changed.conditions == st.conditions
    ensures BaselineSound(cfg, f, changed) && ChecksSound(cfg, f, changed)
  {
    forall k | Is(changed, CheckCondition(k), True) ensures Key(cfg, Check(k)) in f.keys {
      assert Is(st, CheckCondition(k), True);
    }
  }

  lemma RemoveConditionsSound(cfg: Config, f: Facts, st: Status)
    requires Sound(cfg, f, st)
    ensures Sound(cfg, f, RemoveConditions(st))
  {
  }

  // ---------- Steps of a pass ----------

  /** A write of a sound status: whatever comes of it, the status and the copy are sound. */
  lemma WriteSound(cfg: Config, s: State, o: Outcome, changed: Status, pc: Option<Pc>)
    requires Inv(cfg, s) && s.pass.Some? && Sound(cfg, Known(s), changed)
    requires changed.recommendation == s.status.recommendation
    requires pc.Some? ==> PcSound(cfg, Known(s), pc.value) && !HasRecommendation(pc.value)
    requires FinishedSound(if o == Stored then changed else s.status, Write(s, o, changed, pc).pass)
    ensures Inv(cfg, Write(s, o, changed, pc))
  {
    assert Known(Write(s, o, changed, pc)) == Known(s);
  }

  lemma PlannedBacked(cfg: Config, s: State, o: Outcome)
    requires Inv(cfg, s) && s.pass.Some? && PassSets(s.pass.value.pc, o).Some?
    ensures var w := PassSets(s.pass.value.pc, o).value; Backed(cfg, Known(s), s.status, w.0, w.1)
  {
  }

  lemma PlannedBaseline(cfg: Config, f: Facts, pc: Pc, o: Outcome)
    requires PcBaseline(cfg, f, pc) && PassSets(pc, o).Some? && PassSets(pc, o).value.2.Some?
    ensures PcBaseline(cfg, f, PassSets(pc, o).value.2.value)
  {
  }

  lemma PlannedWrites(cfg: Config, f: Facts, pc: Pc, o: Outcome)
    requires PcWrites(cfg, f, pc) && PassSets(pc, o).Some? && PassSets(pc, o).value.2.Some?
    ensures var next := PassSets(pc, o).value.2.value; PcWrites(cfg, f, next) && !HasRecommendation(next)
  {
  }

  lemma PlannedChecks(cfg: Config, f: Facts, pc: Pc, o: Outcome)
    requires PcChecks(cfg, f, pc) && PassSets(pc, o).Some? && PassSets(pc, o).value.2.Some?
    ensures PcChecks(cfg, f, PassSets(pc, o).value.2.value)
  {
    var next := PassSets(pc, o).value.2.value;
    assert !next.AskChecks? && (SawChecks(next) ==> SawChecks(pc) && next.lookup == pc.lookup);
  }

  lemma PassSetsConditionKeepsInv(cfg: Config, s: State, o: Outcome)
    requires Inv(cfg, s) && s.pass.Some? && PassSets(s.pass.value.pc, o).Some?
    ensures var w := PassSets(s.pass.value.pc, o).value; Inv(cfg, Write(s, o, SetCondition(s.status, w.0, w.1), w.2))
  {
    var w := PassSets(s.pass.value.pc, o).value;
    PlannedBacked(cfg, s, o);
    if w.2.Some? {
      PlannedBaseline(cfg, Known(s), s.pass.value.pc, o);
      PlannedWrites(cfg, Known(s), s.pass.value.pc, o);
      PlannedChecks(cfg, Known(s), s.pass.value.pc, o);
    }
    SetConditionSound(cfg, Known(s), s.status, w.0, w.1);
    FinishingEnds(s, o);
    WriteSound(cfg, s, o, SetCondition(s.status, w.0, w.1), w.2);
  }

  /** A pass that finishes the resource stops there, but for removing the conditions of the checks. */
  lemma FinishingEnds(s: State, o: Outcome)
    requires s.pass.Some? && PassSets(s.pass.value.pc, o).Some? && FinishedSound(s.status, s.pass)
    ensures var w := PassSets(s.pass.value.pc, o).value;
            var after := Write(s, o, SetCondition(s.status, w.0, w.1), w.2);
            FinishedSound(after.status, after.pass)
  {
  }

  lemma FinalBranchSees(p: Pass, runners: set<CheckType>, next: Pc)
    requires FinalBranches(p, runners, next)
    ensures !SawBaseline(next)
  {
  }

  lemma RecordingBranchSees(cfg: Config, p: Pass, runners: set<CheckType>, next: Pc)
    requires RecordingBranches(cfg, p, runners, next)
    ensures SawBaseline(next) ==> p.pc.NextCheck? || Is(p.view, BaselineCondition, True)
    ensures !SawChecks(next) && !next.AskChecks?
  {
  }

  lemma AskingSees(p: Pass, next: Pc)
    requires AsksForChecks(p, next)
    ensures SawBaseline(next) ==> SawBaseline(p.pc) || Is(p.view, BaselineCondition, True)
    ensures !p.pc.AskChecks? ==> !SawChecks(next) && (next.AskChecks? ==> next.todo == Required(next.lookup))
  {
  }

  lemma AskChecksSees(cfg: Config, f: Facts, p: Pass, next: Pc)
    requires PcChecks(cfg, f, p.pc) && ChecksSound(cfg, f, p.view) && AsksForChecks(p, next) && p.pc.AskChecks?
    ensures PcChecks(cfg, f, next)
  {
    forall k | k in SeenChecks(next) ensures Key(cfg, Check(k)) in f.keys {
      if k in p.pc.todo { assert Is(p.view, CheckCondition(k), True); } else { assert k in SeenChecks(p.pc); }
    }
  }

  lemma BranchSees(cfg: Config, f: Facts, p: Pass, runners: set<CheckType>, next: Pc)
    requires PcBaseline(cfg, f, p.pc) && PcChecks(cfg, f, p.pc) && BaselineSound(cfg, f, p.view)
             && ChecksSound(cfg, f, p.view)
    requires Branches(cfg, p, runners, next)
    ensures PcBaseline(cfg, f, next) && PcChecks(cfg, f, next)
  {
    if FinalBranches(p, runners, next) {
      FinalBranchSees(p, runners, next);
    } else if AsksForChecks(p, next) {
      AskingSees(p, next);
      if p.pc.AskChecks? { AskChecksSees(cfg, f, p, next); }
    } else {
      RecordingBranchSees(cfg, p, runners, next);
    }
  }

  lemma FinalBranchWrites(f: Facts, p: Pass, runners: set<CheckType>, next: Pc)
    requires FinalSound(f, p.view) && FinalSound(f, p.started) && FinalBranches(p, runners, next)
    requires p.started.recommendation.Some? ==> p.view.recommendation.Some?
    requires HasRecommendation(p.pc) ==> p.view.recommendation.Some? || f.lost
    ensures next.FinalOverdue? || HasRecommendation(next) ==> p.view.recommendation.Some? || f.lost
    ensures !next.FileAnalysis? && !next.AcceptBaseline? && !next.FileBaselines?
  {
  }

  lemma OtherBranchWrites(cfg: Config, p: Pass, runners: set<CheckType>, next: Pc)
    requires AsksForChecks(p, next) || RecordingBranches(cfg, p, runners, next)
    ensures !next.FinalOverdue? && !HasRecommendation(next) && !next.FileAnalysis? && !next.FileBaselines?
    ensures next.AcceptBaseline? ==> |cfg.reference| > 0
  {
  }

  lemma BranchWrites(cfg: Config, f: Facts, p: Pass, runners: set<CheckType>, next: Pc)
    requires FinalSound(f, p.view) && FinalSound(f, p.started) && Branches(cfg, p, runners, next)
    requires p.started.recommendation.Some? ==> p.view.recommendation.Some?
    requires HasRecommendation(p.pc) ==> p.view.recommendation.Some? || f.lost
    ensures PcWrites(cfg, f, next)
    ensures HasRecommendation(next) ==> p.view.recommendation.Some? || f.lost
  {
    if FinalBranches(p, runners, next) {
      FinalBranchWrites(f, p, runners, next);
    } else {
      OtherBranchWrites(cfg, p, runners, next);
    }
  }

  lemma MoveSound(cfg: Config, s: State, pc: Option<Pc>)
    requires Inv(cfg, s) && s.pass.Some?
    requires pc.Some? ==> PcSound(cfg, Known(s), pc.value) && !Is(s.status, FinishedCondition, True)
                          && (HasRecommendation(pc.value) ==> s.pass.value.view.recommendation.Some? || s.lost)
    ensures Inv(cfg, Move(s, pc))
  {
    assert Known(Move(s, pc)) == Known(s);
  }

  lemma BranchSound(cfg: Config, f: Facts, p: Pass, runners: set<CheckType>, next: Pc)
    requires PassSound(cfg, f, p) && Branches(cfg, p, runners, next)
    ensures PcSound(cfg, f, next) && (HasRecommendation(next) ==> p.view.recommendation.Some? || f.lost)
  {
    BranchSees(cfg, f, p, runners, next);
    BranchWrites(cfg, f, p, runners, next);
  }

  lemma BranchesKeepInv(cfg: Config, s: State, next: Pc)
    requires Inv(cfg, s) && s.pass.Some? && Branches(cfg, s.pass.value, s.runners.Keys, next)
    ensures Inv(cfg, Move(s, Some(next)))
  {
    BranchSound(cfg, Known(s), s.pass.value, s.runners.Keys, next);
    NoBranchFromFinished(cfg, s.status, s.pass.value, s.runners.Keys, next);
    MoveSound(cfg, s, Some(next));
  }

  lemma NoBranchFromFinished(cfg: Config, st: Status, p: Pass, runners: set<CheckType>, next: Pc)
    requires FinishedSound(st, Some(p)) && Branches(cfg, p, runners, next)
    ensures !Is(st, FinishedCondition, True)
  {
  }

  lemma JudgesKeepInv(cfg: Config, s: State, e: PassEvent)
    requires Inv(cfg, s) && e.Judges? && s.pass.Some? && CanJudge(cfg, s, e)
    ensures Inv(cfg, PassNext(cfg, s, e))
  {
    var f, pc := Known(s), s.pass.value.pc;
    assert PcSound(cfg, f, pc);
    var next :=
      if e.result.Error? then FailAnalysis
      else if e.result.Skipped? then Recommends(pc.lookup)
      else FileAnalysis(e.result.runs, pc.lookup);
    assert SeenChecks(next) <= SeenChecks(pc);
    if e.result.Updated? {
      forall n | n in e.result.runs ensures RunSound(cfg, f, n, e.result.runs[n]) {
        AnalyzedRunSound(cfg, f, s.status.checkRuns, e, n);
      }
    }
    WriteSound(cfg, s, Unstored, s.status, Some(next));
  }

  lemma AnalyzedRunSound(cfg: Config, f: Facts, runs: CheckRuns, e: PassEvent, n: string)
    requires RunsSound(cfg, f, runs) && e.Judges? && e.result.Updated? && n in e.result.runs
    requires Analyzes(runs, e.result.runs, cfg.ns, cfg.suffix, e.get, e.judge)
    ensures RunSound(cfg, f, n, e.result.runs[n])
  {
    assert forall m | m in runs :: RunSound(cfg, f, m, runs[m]);
    AnalysisOnlyFails(runs, e.result.runs, cfg.ns, cfg.suffix, e.get, e.judge, n);
    assert RunSound(cfg, f, n, runs[n]);
  }

  lemma FilesAnalysisKeepsInv(cfg: Config, s: State, o: Outcome)
    requires Inv(cfg, s) && s.pass.Some? && s.pass.value.pc.FileAnalysis?
    ensures Inv(cfg, PassNext(cfg, s, FilesAnalysis(o)))
  {
    var f, pc := Known(s), s.pass.value.pc;
    assert PcSound(cfg, f, pc);
    var changed := s.status.(checkRuns := pc.runs);
    SameConditions(cfg, f, s.status, changed);
    WriteSound(cfg, s, o, changed, Some(if o == Stored then Recommends(pc.lookup) else FailAnalysis));
  }

  lemma RecommendsKeepInv(cfg: Config, s: State, o: Outcome, spec: Option<PodSpec>, order: seq<Defaults>)
    requires Inv(cfg, s) && s.pass.Some? && CanRecommend(s.pass.value, spec, order)
    ensures Inv(cfg, PassNext(cfg, s, FilesRecommendation(o, spec, order)))
  {
    if spec.None? {
      MoveSound(cfg, s, Some(FinishAnalysis));
    } else {
      var next := PassNext(cfg, s, FilesRecommendation(o, spec, order));
      var f, g := Known(s), Known(next);
      RunnersLater(cfg, f, g, s.runners);
      PassLater(cfg, f, g, s.pass.value);
      SoundLater(cfg, f, g, s.status);
      var changed := s.status.(recommendation := Some(Recommend(spec.value, order)));
      if o != Unread {
        SameConditions(cfg, g, s.status, changed);
      }
    }
  }

  lemma BaselineRunsSound(cfg: Config, f: Facts, st: Status, runs: seq<CheckRun>)
    requires Sound(cfg, f, st)
    ensures Sound(cfg, f, st.(baselineRuns := runs))
  {
    SameConditions(cfg, f, st, st.(baselineRuns := runs));
  }

  lemma FilesBaselinesKeepsInv(cfg: Config, s: State, o: Outcome)
    requires Inv(cfg, s) && s.pass.Some? && s.pass.value.pc.FileBaselines?
    ensures Inv(cfg, Write(s, o, s.status.(baselineRuns := BASELINE_ENTRIES), Some(BaselineMissing)))
  {
    BaselineRunsSound(cfg, Known(s), s.status, BASELINE_ENTRIES);
    WriteSound(cfg, s, o, s.status.(baselineRuns := BASELINE_ENTRIES), Some(BaselineMissing));
  }

  lemma RemovesKeepInv(cfg: Config, s: State, o: Outcome)
    requires Inv(cfg, s) && s.pass.Some? && s.pass.value.pc.Removing?
    ensures Inv(cfg, PassNext(cfg, s, RemovesConditions(o)))
  {
    RemoveConditionsSound(cfg, Known(s), s.status);
    WriteSound(cfg, s, o, RemoveConditions(s.status), None);
  }

  lemma SubmittedSound(cfg: Config, f: Facts, p: Pass, context: Option<Defaults>)
    requires PassSound(cfg, f, p) && Submits(cfg, p, context)
    ensures RunnerSound(cfg, f, SubmittedType(p.pc), Runner(Starting, context))
    ensures AfterSubmit(cfg, p.pc).Some? ==>
              PcSound(cfg, f, AfterSubmit(cfg, p.pc).value) && !HasRecommendation(AfterSubmit(cfg, p.pc).value)
  {
    assert PcSound(cfg, f, p.pc);
  }

  lemma SubmitSound(cfg: Config, s: State, t: CheckType, context: Option<Defaults>)
    requires Inv(cfg, s) && RunnerSound(cfg, Known(s), t, Runner(Starting, context))
    ensures Inv(cfg, Submit(s, t, context))
  {
    assert Known(Submit(s, t, context)) == Known(s);
  }

  lemma SubmitsKeepInv(cfg: Config, s: State, context: Option<Defaults>)
    requires Inv(cfg, s) && s.pass.Some? && Submits(cfg, s.pass.value, context)
    ensures Inv(cfg, Move(Submit(s, SubmittedType(s.pass.value.pc), context), AfterSubmit(cfg, s.pass.value.pc)))
  {
    var t := SubmittedType(s.pass.value.pc);
    SubmittedSound(cfg, Known(s), s.pass.value, context);
    SubmitSound(cfg, s, t, context);
    assert !Is(s.status, FinishedCondition, True);
    assert Known(Submit(s, t, context)) == Known(s);
    MoveSound(cfg, Submit(s, t, context), AfterSubmit(cfg, s.pass.value.pc));
  }

  // ---------- Steps of a runner ----------

  /** A runner changes its phase, and perhaps the status or the recordings. */
  lemma RunnerStepSound(cfg: Config, s: State, next: State, t: CheckType)
    requires Inv(cfg, s) && next.pass == s.pass && Below(Known(s), Known(next))
    requires next.status.recommendation == s.status.recommendation
    requires forall u | u in next.runners && u != t :: u in s.runners && next.runners[u] == s.runners[u]
    requires t in next.runners ==> RunnerSound(cfg, Known(next), t, next.runners[t])
    requires next.status != s.status ==> Sound(cfg, Known(next), next.status)
    requires Is(next.status, FinishedCondition, True) ==> Is(s.status, FinishedCondition, True)
    ensures Inv(cfg, next)
  {
    var f, g := Known(s), Known(next);
    RunnersLater(cfg, f, g, s.runners);
    SoundLater(cfg, f, g, s.status);
    if s.pass.Some? { PassLater(cfg, f, g, s.pass.value); }
    forall u | u in next.runners ensures RunnerSound(cfg, g, u, next.runners[u]) {
      if u != t { assert RunnerSound(cfg, g, u, s.runners[u]); }
    }
  }

  lemma RunnerSetsKeepsInv(cfg: Config, s: State, t: CheckType, o: Outcome, v: Condition, phase: Phase)
    requires Inv(cfg, s) && t in s.runners
    requires v.status == True || phase.Publishing? || phase.Filing? ==> Key(cfg, t) in s.stored
    ensures Inv(cfg, Store(SetPhase(s, t, phase), o, SetCondition(s.status, ConditionOf(t), v)))
  {
    var next := Store(SetPhase(s, t, phase), o, SetCondition(s.status, ConditionOf(t), v));
    assert RunnerSound(cfg, Known(s), t, s.runners[t]);
    assert Known(next) == Known(s);
    SetConditionSound(cfg, Known(s), s.status, ConditionOf(t), v);
    RunnerStepSound(cfg, s, next, t);
  }

  lemma RunnerStoresKeepsInv(cfg: Config, s: State, t: CheckType, recording: Option<Manager.Recording>)
    requires Inv(cfg, s) && t in s.runners
    ensures Inv(cfg, RunnerNext(cfg, s, t, Stores(recording)))
  {
    var next := RunnerNext(cfg, s, t, Stores(recording));
    assert RunnerSound(cfg, Known(s), t, s.runners[t]);
    RunnerStepSound(cfg, s, next, t);
  }

  lemma FileSound(cfg: Config, f: Facts, st: Status, t: CheckType, r: Runner, run: CheckRun)
    requires Sound(cfg, f, st) && RunnerSound(cfg, f, t, r) && FiledBy(t, r, run)
    ensures Sound(cfg, f, File(st, t, run))
  {
    SameConditions(cfg, f, st, File(st, t, run));
    if t.Check? {
      forall n | n in File(st, t, run).checkRuns ensures RunSound(cfg, f, n, File(st, t, run).checkRuns[n]) {
        if n == run.name { assert n == KindName(t.kind); } else { assert RunSound(cfg, f, n, st.checkRuns[n]); }
      }
    }
  }

  lemma RunnerFilesKeepsInv(cfg: Config, s: State, t: CheckType, run: CheckRun, o: Outcome)
    requires Inv(cfg, s) && t in s.runners && FiledBy(t, s.runners[t], run)
    ensures Inv(cfg, Store(SetPhase(s, t, Leaving), o, File(s.status, t, run)))
  {
    var next := Store(SetPhase(s, t, Leaving), o, File(s.status, t, run));
    assert RunnerSound(cfg, Known(s), t, s.runners[t]);
    FileSound(cfg, Known(s), s.status, t, s.runners[t], run);
    FileKeeps(s.status, t, run);
    RunnerStepSound(cfg, s, next, t);
  }

  lemma FileKeeps(st: Status, t: CheckType, run: CheckRun)
    ensures File(st, t, run).recommendation == st.recommendation && File(st, t, run).conditions == st.conditions
  {
  }
}
