/** Safety of whole runs of reconcile passes, check runners and operator restarts. */
module ReconcileSafety {
  import opened Options
  import opened SecurityContexts
  import opened Checks
  import opened ContextFields
  import opened Recommendation
  import opened FinalRun
  import opened Manager
  import opened ReconcileProtocol
  import opened ReconcileInvariant

  // ---------- Every reachable state ----------

  lemma PassStepKeepsInv(cfg: Config, s: State, e: PassEvent)
    requires Inv(cfg, s) && s.pass.Some? && PassCan(cfg, s, e)
    ensures Inv(cfg, PassNext(cfg, s, e))
  {
    match e
    case BranchesTo(next) => BranchesKeepInv(cfg, s, next);
    case SetsCondition(o) => PassSetsConditionKeepsInv(cfg, s, o);
    case RemovesConditions(o) => RemovesKeepInv(cfg, s, o);
    case Judges(_, _, _) => JudgesKeepInv(cfg, s, e);
    case FilesAnalysis(o) => FilesAnalysisKeepsInv(cfg, s, o);
    case FilesRecommendation(o, spec, order) => RecommendsKeepInv(cfg, s, o, spec, order);
    case FilesBaselines(o) => FilesBaselinesKeepsInv(cfg, s, o);
    case SubmitsWith(context) => SubmitsKeepInv(cfg, s, context);
    case Refreshes => RefreshKeepsInv(cfg, s);
    case Returns => MoveSound(cfg, s, None);
  }

  lemma RefreshKeepsInv(cfg: Config, s: State)
    requires Inv(cfg, s) && s.pass.Some?
    ensures Inv(cfg, s.(pass := Some(s.pass.value.(view := s.status))))
  {
    assert PcWrites(cfg, Known(s), s.pass.value.pc);
    assert Known(s.(pass := Some(s.pass.value.(view := s.status)))) == Known(s);
  }

  /** A runner that goes on without publishing, or leaves. */
  lemma QuietRunnerKeepsInv(cfg: Config, s: State, t: CheckType)
    requires Inv(cfg, s) && t in s.runners
    ensures Inv(cfg, SetPhase(s, t, Failing)) && Inv(cfg, s.(runners := s.runners - {t}))
  {
    assert RunnerSound(cfg, Known(s), t, s.runners[t]);
    RunnerStepSound(cfg, s, SetPhase(s, t, Failing), t);
    RunnerStepSound(cfg, s, s.(runners := s.runners - {t}), t);
  }

  lemma PublishesKeepsInv(cfg: Config, s: State, t: CheckType, o: Outcome)
    requires Inv(cfg, s) && t in s.runners && RunnerSets(s.runners[t].phase).Some?
    ensures Inv(cfg, RunnerNext(cfg, s, t, Publishes(o)))
  {
    assert RunnerSound(cfg, Known(s), t, s.runners[t]);
    var w := RunnerSets(s.runners[t].phase).value;
    RunnerSetsKeepsInv(cfg, s, t, o, w.0, w.1);
  }

  lemma RunnerStepKeepsInv(cfg: Config, s: State, t: CheckType, e: RunnerEvent)
    requires Inv(cfg, s) && t in s.runners && RunnerCan(t, s.runners[t], e)
    ensures Inv(cfg, RunnerNext(cfg, s, t, e))
  {
    match e
    case Publishes(o) => PublishesKeepsInv(cfg, s, t, o);
    case TimesOut(o) => RunnerSetsKeepsInv(cfg, s, t, o, Condition(Unknown, Unsuccessful), TimedOut);
    case Stores(recording) => RunnerStoresKeepsInv(cfg, s, t, recording);
    case Files(run, o) => RunnerFilesKeepsInv(cfg, s, t, run, o);
    case Fails => QuietRunnerKeepsInv(cfg, s, t);
    case Ends => QuietRunnerKeepsInv(cfg, s, t);
  }

  lemma OthersKeepInv(cfg: Config, s: State)
    requires Inv(cfg, s)
    ensures s.pass.None? ==> Inv(cfg, s.(pass := Some(Pass(Begun, s.status, s.status))))
    ensures Inv(cfg, s.(runners := map[], pass := None))
  {
    assert Known(s.(pass := Some(Pass(Begun, s.status, s.status)))) == Known(s);
    assert Known(s.(runners := map[], pass := None)) == Known(s);
  }

  lemma StepKeepsInv(cfg: Config, s: State, e: Event)
    requires Inv(cfg, s) && Enabled(cfg, s, e)
    ensures Inv(cfg, Next(cfg, s, e))
  {
    match e
    case OfPass(step) => PassStepKeepsInv(cfg, s, step);
    case OfRunner(t, act) => RunnerStepKeepsInv(cfg, s, t, act);
    case Begin => OthersKeepInv(cfg, s);
    case Restart => OthersKeepInv(cfg, s);
  }

  lemma {:induction false} RunKeepsInv(cfg: Config, s: State, events: seq<Event>)
    requires Inv(cfg, s) && Possible(cfg, s, events)
    ensures Inv(cfg, After(cfg, s, events))
    decreases |events|
  {
    if events != [] {
      StepKeepsInv(cfg, s, events[0]);
      RunKeepsInv(cfg, Next(cfg, s, events[0]), events[1..]);
    }
  }

  lemma ReachableInv(cfg: Config, s: State)
    requires Reachable(cfg, s)
    ensures Inv(cfg, s)
  {
    var stored, events :| Possible(cfg, Initial(stored), events) && s == After(cfg, Initial(stored), events);
    RunKeepsInv(cfg, Initial(stored), events);
  }

  // ---------- A finished resource ----------

  lemma FinishedPassStep(cfg: Config, s: State, e: PassEvent)
    requires s.pass.Some? && FinishedSound(s.status, s.pass) && PassCan(cfg, s, e)
             && Is(s.status, FinishedCondition, True)
    ensures e.Refreshes? || e.Returns? || e.RemovesConditions?
  {
  }

  lemma FinishedRunnerStep(cfg: Config, s: State, t: CheckType, e: RunnerEvent)
    requires t in s.runners && Is(s.status, FinishedCondition, True)
    ensures Is(RunnerNext(cfg, s, t, e).status, FinishedCondition, True)
            && RunnerNext(cfg, s, t, e).runners.Keys <= s.runners.Keys
  {
  }

  lemma FinishedStep(cfg: Config, s: State, e: Event)
    requires FinishedSound(s.status, s.pass) && Enabled(cfg, s, e) && Is(s.status, FinishedCondition, True)
    ensures Is(Next(cfg, s, e).status, FinishedCondition, True) && Next(cfg, s, e).runners.Keys <= s.runners.Keys
  {
    match e
    case OfPass(step) => FinishedPassStep(cfg, s, step);
    case OfRunner(t, act) => FinishedRunnerStep(cfg, s, t, act);
    case _ =>
  }

  /** Finished = True is absorbing: whatever later passes, active runners and restarts do, it stays, and no check
      run is submitted any more. */
  lemma {:induction false} FinishedForever(cfg: Config, s: State, events: seq<Event>)
    requires Inv(cfg, s) && Possible(cfg, s, events) && Is(s.status, FinishedCondition, True)
    ensures Is(After(cfg, s, events).status, FinishedCondition, True)
            && After(cfg, s, events).runners.Keys <= s.runners.Keys
    decreases |events|
  {
    if events != [] {
      FinishedStep(cfg, s, events[0]);
      StepKeepsInv(cfg, s, events[0]);
      FinishedForever(cfg, Next(cfg, s, events[0]), events[1..]);
    }
  }

  // ---------- The order of baseline, checks, recommendation and final run ----------

  /** A check run is only ever active when a baseline is available: a stored recording of one of the two baseline
      runs, or the recordings that the resource refers to. */
  lemma CheckRunsNeedBaseline(cfg: Config, s: State, k: Kind)
    requires Reachable(cfg, s) && Check(k) in s.runners
    ensures BaselineAvailable(cfg, Known(s))
    ensures FitsCheck(cfg, k, s.runners[Check(k)].context)
    ensures AsksFor(cfg, k, s.runners[Check(k)].context)
  {
    ReachableInv(cfg, s);
    assert RunnerSound(cfg, Known(s), Check(k), s.runners[Check(k)]);
    FitsAsks(cfg, k, s.runners[Check(k)].context);
  }

  /** The context sets what the check is about, and beyond what the resource presets it asks for nothing but what the
      checks ask for. */
  predicate AsksFor(cfg: Config, k: Kind, context: Option<Defaults>) {
    context.Some? && AsksItsOwn(k, context.value)
    && OnlyAsked(context.value, if cfg.base.Some? then cfg.base.value else UNSET)
  }

  lemma FitsAsks(cfg: Config, k: Kind, context: Option<Defaults>)
    requires FitsCheck(cfg, k, context)
    ensures AsksFor(cfg, k, context)
  {
    if cfg.base.None? {
      OwnContextAsks(k);
    } else {
      var ks: seq<Kind> :| HasPartsForAll(ks, cfg.base.value)
                        && k in ks && context == Some(Accumulated(cfg.base.value, ks));
      SharedContextAsks(cfg.base.value, ks, k);
    }
  }

  /** When a recommendation first appears, a baseline is available, and, if the pass could look up the workload, the
      recording of every check that its template requires is stored; the recommendation merges the contexts of the
      accepted runs in the copy of the pass. */
  lemma RecommendationAppears(cfg: Config, s: State, e: Event)
    requires Reachable(cfg, s) && Enabled(cfg, s, e)
    requires s.status.recommendation.None? && Next(cfg, s, e).status.recommendation.Some?
    ensures s.pass.Some? && s.pass.value.pc.Recommends? && BaselineAvailable(cfg, Known(s))
    ensures s.pass.value.pc.lookup.Some? ==>
              forall k | ShouldRun(k, s.pass.value.pc.lookup.value) :: Key(cfg, Check(k)) in s.stored
    ensures exists spec, order ::
              && Next(cfg, s, e).status.recommendation == Some(Recommend(spec, order))
              && ContextsOf(s.pass.value.view.checkRuns, order)
  {
    ReachableInv(cfg, s);
    OnlyRecommends(cfg, s, e);
    var pc := s.pass.value.pc;
    assert PcSound(cfg, Known(s), pc);
    if pc.lookup.Some? {
      forall k | ShouldRun(k, pc.lookup.value) ensures Key(cfg, Check(k)) in s.stored {
        assert k in AllKinds() && k in SeenChecks(pc);
      }
    }
  }

  lemma {:induction false} RecommendationNeedsBaselineFrom(cfg: Config, s: State, events: seq<Event>)
    requires Inv(cfg, s) && Possible(cfg, s, events)
    requires s.status.recommendation.Some? ==> BaselineAvailable(cfg, Known(s))
    ensures var t := After(cfg, s, events); t.status.recommendation.Some? ==> BaselineAvailable(cfg, Known(t))
    decreases |events|
  {
    if events != [] {
      var next := Next(cfg, s, events[0]);
      StepKeepsInv(cfg, s, events[0]);
      FactsGrow(cfg, s, events[0]);
      if s.status.recommendation != next.status.recommendation {
        OnlyRecommends(cfg, s, events[0]);
        assert PcBaseline(cfg, Known(s), s.pass.value.pc);
      }
      RecommendationNeedsBaselineFrom(cfg, next, events[1..]);
    }
  }

  lemma OnlyRecommends(cfg: Config, s: State, e: Event)
    requires Enabled(cfg, s, e) && s.status.recommendation != Next(cfg, s, e).status.recommendation
    ensures e.OfPass? && e.step.FilesRecommendation? && e.step.spec.Some? && s.pass.Some?
            && CanRecommend(s.pass.value, e.step.spec, e.step.order)
    ensures Next(cfg, s, e).status.recommendation == Some(Recommend(e.step.spec.value, e.step.order))
  {
    match e
    case OfPass(step) => OnlyFilesRecommendation(cfg, s, step);
    case OfRunner(t, act) => RunnerFactsGrow(cfg, s, t, act);
    case _ =>
  }

  lemma OnlyFilesRecommendation(cfg: Config, s: State, e: PassEvent)
    requires s.pass.Some? && PassCan(cfg, s, e) && s.status.recommendation != PassNext(cfg, s, e).status.recommendation
    ensures e.FilesRecommendation? && e.spec.Some?
            && PassNext(cfg, s, e).status.recommendation == Some(Recommend(e.spec.value, e.order))
  {
  }

  /** Unless a recommendation was lost, a FinalCheck condition exists only together with a recommendation, so every
      final run, resubmitted or not, is given a context. */
  lemma FinalRunHasRecommendation(cfg: Config, s: State)
    requires Reachable(cfg, s) && !s.lost
    ensures FinalCondition in s.status.conditions ==> s.status.recommendation.Some?
    ensures Final in s.runners ==> s.status.recommendation.Some? && s.runners[Final].context.Some?
    ensures s.pass.Some? && s.pass.value.pc.SubmitFinal? ==> s.pass.value.view.recommendation.Some?
  {
    ReachableInv(cfg, s);
    if Final in s.runners { assert RunnerSound(cfg, Known(s), Final, s.runners[Final]); }
  }

  predicate LosesRecommendation(e: Event) {
    e.OfPass? && e.step.FilesRecommendation? && e.step.spec.Some? && e.step.outcome == Unstored
  }

  /** A recommendation is lost exactly if the update that should store it failed after it was put into the copy of
      the pass. */
  lemma {:induction false} LostExactly(cfg: Config, s: State, events: seq<Event>)
    requires Possible(cfg, s, events)
    ensures After(cfg, s, events).lost <==> s.lost || exists e :: e in events && LosesRecommendation(e)
    decreases |events|
  {
    if events != [] {
      LostStep(cfg, s, events[0]);
      LostExactly(cfg, Next(cfg, s, events[0]), events[1..]);
      assert forall e :: e in events <==> e == events[0] || e in events[1..];
    }
  }

  lemma LostStep(cfg: Config, s: State, e: Event)
    requires Enabled(cfg, s, e)
    ensures Next(cfg, s, e).lost <==> s.lost || LosesRecommendation(e)
  {
  }

  // ---------- Recordings ----------

  /** Store before publish: the condition of a check is True, and an entry for it is filed, only when its recording
      is stored under the key by which the analysis asks for it. */
  lemma RecordingsComeFirst(cfg: Config, s: State)
    requires Reachable(cfg, s)
    ensures forall k :: Is(s.status, CheckCondition(k), True) ==> Key(cfg, Check(k)) in s.stored
    ensures forall n | n in s.status.checkRuns ::
              RecordingKey(cfg.ns, cfg.suffix, s.status.checkRuns[n].name) in s.stored
    ensures Is(s.status, BaselineCondition, True) ==> BaselineAvailable(cfg, Known(s))
  {
    ReachableInv(cfg, s);
    forall n | n in s.status.checkRuns
      ensures RecordingKey(cfg.ns, cfg.suffix, s.status.checkRuns[n].name) in s.stored
    {
      assert RunSound(cfg, Known(s), n, s.status.checkRuns[n]);
    }
  }

  /** So an analysis never finds a run without a recording; when Valkey answers for what is stored and the
      baselines load, it does not fail. */
  lemma AnalysisFindsRecordings(cfg: Config, s: State, get: string -> Lookup, judge: Manager.Recording -> Verdict,
                                r: Analysis)
    requires Reachable(cfg, s)
    ensures Faithful(s.stored, get) ==>
              forall n | n in s.status.checkRuns ::
                    !get(RecordingKey(cfg.ns, cfg.suffix, s.status.checkRuns[n].name)).Missing?
    ensures Faithful(s.stored, get)
            && AnalysisOutcome(s.status.checkRuns, cfg.ns, cfg.suffix, cfg.reference, get, judge, r)
            && BaselinesLoad(BaselineKeys(cfg.ns, cfg.suffix, cfg.reference), get)
            && (forall key | key in s.stored :: !get(key).Failed?) ==>
              !r.Error?
  {
    RecordingsComeFirst(cfg, s);
  }

  /** The entries that a pass builds a recommendation from are filed under their names and carry the context they
      ran with, as SetRecommendation demands. */
  lemma EntriesHaveContexts(cfg: Config, s: State)
    requires Reachable(cfg, s) && s.pass.Some?
    ensures KeyedByName(s.pass.value.view.checkRuns)
    ensures var runs := s.pass.value.view.checkRuns;
            forall n | n in runs ::
              && runs[n].securityContext.Some?
              && exists k ::
                   && n == KindName(k) && FitsCheck(cfg, k, runs[n].securityContext)
                   && AsksFor(cfg, k, runs[n].securityContext)
  {
    ReachableInv(cfg, s);
    var runs := s.pass.value.view.checkRuns;
    assert RunsSound(cfg, Known(s), runs);
    forall n | n in runs
      ensures runs[n].name == n && runs[n].securityContext.Some?
      ensures exists k ::
                && n == KindName(k) && FitsCheck(cfg, k, runs[n].securityContext)
                && AsksFor(cfg, k, runs[n].securityContext)
    {
      assert RunSound(cfg, Known(s), n, runs[n]);
      var k :| n == KindName(k) && FitsCheck(cfg, k, runs[n].securityContext);
      FitsAsks(cfg, k, runs[n].securityContext);
    }
  }
}
