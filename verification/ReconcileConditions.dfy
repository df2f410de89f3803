/** When conditions become True, when runs are submitted, and how a resource is finished: exactly which steps do it, by
    what a pass and a runner did before. */
module ReconcileConditions {
  import opened Options
  import opened SecurityContexts
  import opened Checks
  import opened RecommendedFields
  import opened Manager
  import opened ReconcileProtocol
  import opened ReconcileInvariant
  import opened ReconcileSafety
  import opened ReconcileHistory
  import opened ReconcileTrace

  // ---------- Steps that make a condition True ----------

  predicate BecomesTrue(cfg: Config, s: State, e: Event, c: ConditionType) {
    !Is(s.status, c, True) && Is(Next(cfg, s, e).status, c, True)
  }

  /** A condition is written by a pass, and the update succeeds. */
  predicate WritesCondition(e: Event) { e.OfPass? && e.step.SetsCondition? && e.step.outcome == Stored }

  /** A runner with a stored recording says so, and the update succeeds. */
  predicate SaysRecording(s: State, e: Event, t: CheckType) {
    && e == OfRunner(t, Publishes(Stored)) && t in s.runners && s.runners[t].phase.Publishing?
  }

  lemma OnlyWrites(cfg: Config, s: State, e: PassEvent, c: ConditionType)
    requires s.pass.Some? && PassCan(cfg, s, e) && BecomesTrue(cfg, s, OfPass(e), c)
    ensures WritesCondition(OfPass(e))
    ensures var w := PassSets(s.pass.value.pc, Stored); w.Some? && w.value.0 == c && w.value.1.status == True
  {
    match e
    case SetsCondition(o) =>
    case RemovesConditions(o) =>
    case _ => PassKeepsConditions(cfg, s, e);
  }

  lemma PassKeepsConditions(cfg: Config, s: State, e: PassEvent)
    requires s.pass.Some? && !e.SetsCondition? && !e.RemovesConditions?
    ensures PassNext(cfg, s, e).status.conditions == s.status.conditions
  {
  }

  lemma RunnerWrites(cfg: Config, s: State, t: CheckType, e: RunnerEvent, c: ConditionType)
    requires t in s.runners && RunnerCan(t, s.runners[t], e)
    ensures BecomesTrue(cfg, s, OfRunner(t, e), c) <==>
            !Is(s.status, c, True) && SaysRecording(s, OfRunner(t, e), t) && c == ConditionOf(t)
  {
  }

  /** The places of a pass at which it makes a condition True. */
  lemma WhereTrue(pc: Pc, c: ConditionType)
    ensures var w := PassSets(pc, Stored);
            w.Some? && w.value.0 == c && w.value.1.status == True <==>
            || (c == FinishedCondition && (pc.Finishing? || pc.FinishFailed? || pc.BaselineFailed?))
            || (c == AnalysisCondition && (pc.FailAnalysis? || pc.FinishAnalysis?))
            || (c == BaselineCondition && pc.AcceptBaseline?)
  {
  }

  /** Only a stored write of a pass, or of a runner, makes a condition True. */
  lemma TrueExactly(cfg: Config, s: State, e: Event, c: ConditionType)
    requires Enabled(cfg, s, e) && !Is(s.status, c, True)
    ensures BecomesTrue(cfg, s, e, c) <==>
            || (exists t :: SaysRecording(s, e, t) && c == ConditionOf(t))
            || (WritesCondition(e) && s.pass.Some? && var pc := s.pass.value.pc;
                || (c == FinishedCondition && (pc.Finishing? || pc.FinishFailed? || pc.BaselineFailed?))
                || (c == AnalysisCondition && (pc.FailAnalysis? || pc.FinishAnalysis?))
                || (c == BaselineCondition && pc.AcceptBaseline?))
  {
    match e
    case OfPass(act) =>
      WhereTrue(s.pass.value.pc, c);
      if BecomesTrue(cfg, s, e, c) { OnlyWrites(cfg, s, act, c); }
    case OfRunner(t, act) => RunnerWrites(cfg, s, t, act, c);
    case _ =>
  }

  // ---------- Finished, analysed, recorded ----------

  /** The pass found a recommendation and a recorded final run; or the analysis failed, and that was written; or the
      baseline is recorded and some run of it failed. */
  predicate Concluded(tr: seq<Step>) {
    || (tr != [] && (FoundFinal(tr[|tr| - 1]) || FoundBadBaseline(tr[|tr| - 1])))
    || (|tr| >= 2 && tr[|tr| - 1].act.SetsCondition? && FailedAnalysis(tr[|tr| - 2]))
  }

  /** In every run, a step makes Finished True exactly if it is a stored condition write of a pass whose last steps have
      concluded that the resource is finished. */
  lemma FinishedExactly(cfg: Config, stored: map<string, Manager.Recording>, events: seq<Event>, e: Event)
    requires Possible(cfg, Initial(stored), events) && Enabled(cfg, After(cfg, Initial(stored), events), e)
    requires !Is(After(cfg, Initial(stored), events).status, FinishedCondition, True)
    ensures BecomesTrue(cfg, After(cfg, Initial(stored), events), e, FinishedCondition)
       <==> WritesCondition(e) && Concluded(Trace(cfg, Initial(stored), events))
  {
    RunTells(cfg, Initial(stored), events);
    TrueExactly(cfg, After(cfg, Initial(stored), events), e, FinishedCondition);
  }

  /** The same for the analysis: it failed, or the recommendation was to be stored. */
  lemma AnalysedExactly(cfg: Config, stored: map<string, Manager.Recording>, events: seq<Event>, e: Event)
    requires Possible(cfg, Initial(stored), events) && Enabled(cfg, After(cfg, Initial(stored), events), e)
    requires !Is(After(cfg, Initial(stored), events).status, AnalysisCondition, True)
    ensures var tr := Trace(cfg, Initial(stored), events);
            BecomesTrue(cfg, After(cfg, Initial(stored), events), e, AnalysisCondition) <==>
            && WritesCondition(e) && tr != []
            && (FailedAnalysis(tr[|tr| - 1]) || tr[|tr| - 1].act.FilesRecommendation?)
  {
    RunTells(cfg, Initial(stored), events);
    TrueExactly(cfg, After(cfg, Initial(stored), events), e, AnalysisCondition);
  }

  /** The baseline becomes recorded exactly by a baseline run that stored its recording, or by a pass that found that
      the resource refers to recordings. */
  lemma BaselineExactly(cfg: Config, stored: map<string, Manager.Recording>, events: seq<Event>, e: Event)
    requires Possible(cfg, Initial(stored), events) && Enabled(cfg, After(cfg, Initial(stored), events), e)
    requires !Is(After(cfg, Initial(stored), events).status, BaselineCondition, True)
    ensures var s, tr := After(cfg, Initial(stored), events), Trace(cfg, Initial(stored), events);
            BecomesTrue(cfg, s, e, BaselineCondition) <==>
            || SaysRecording(s, e, Baseline) || SaysRecording(s, e, SecondBaseline)
            || (WritesCondition(e) && tr != [] && FoundReference(cfg, tr[|tr| - 1]))
  {
    RunTells(cfg, Initial(stored), events);
    TrueExactly(cfg, After(cfg, Initial(stored), events), e, BaselineCondition);
  }

  /** A check, or the final run, becomes recorded exactly by its own run that stored its recording. */
  lemma RecordedExactly(cfg: Config, s: State, e: Event, t: CheckType)
    requires Enabled(cfg, s, e) && (t.Check? || t.Final?) && !Is(s.status, ConditionOf(t), True)
    ensures BecomesTrue(cfg, s, e, ConditionOf(t)) <==> SaysRecording(s, e, t)
    ensures BecomesTrue(cfg, s, e, ConditionOf(t)) ==> FoundRecorded(Next(cfg, s, e).status, ConditionOf(t))
  {
    TrueExactly(cfg, s, e, ConditionOf(t));
  }

  // ---------- When the analysis is made ----------

  predicate NotAnalysed(st: Status) {
    AnalysisCondition in st.conditions ==> st.conditions[AnalysisCondition].status != True
  }

  /** On its way to the analysis, a pass has found that no analysis was made when it started. */
  predicate WantsAnalysis(p: Pass) { SawChecks(p.pc) ==> NotAnalysed(p.started) }

  lemma BranchWants(cfg: Config, p: Pass, runners: set<CheckType>, next: Pc)
    requires Branches(cfg, p, runners, next)
    ensures SawChecks(next) ==> NotAnalysed(p.started)
  {
    if FinalBranches(p, runners, next) {
      FinalBranchSees(p, runners, next);
    } else if AsksForChecks(p, next) {
      AskingWants(p, next);
    } else {
      RecordingFinds(cfg, p, runners, next);
    }
  }

  lemma AskingWants(p: Pass, next: Pc)
    requires AsksForChecks(p, next)
    ensures SawChecks(next) ==> NotAnalysed(p.started)
  {
  }

  lemma ActWants(cfg: Config, s: State, act: PassEvent)
    requires s.pass.Some? && PassCan(cfg, s, act) && PassNext(cfg, s, act).pass.Some?
    requires !act.BranchesTo? && !act.SetsCondition?
    ensures var next := PassNext(cfg, s, act).pass.value;
            next.started == s.pass.value.started && (SawChecks(next.pc) ==> SawChecks(s.pass.value.pc))
  {
  }

  lemma StepWants(cfg: Config, s: State, act: PassEvent)
    requires s.pass.Some? && PassCan(cfg, s, act) && PassNext(cfg, s, act).pass.Some? && WantsAnalysis(s.pass.value)
    ensures WantsAnalysis(PassNext(cfg, s, act).pass.value)
  {
    match act
    case BranchesTo(next) => BranchWants(cfg, s.pass.value, s.runners.Keys, next);
    case SetsCondition(o) => SetKeepsPlace(s.pass.value.pc, o);
    case _ => ActWants(cfg, s, act);
  }

  lemma {:induction false} RunWants(cfg: Config, s: State, events: seq<Event>)
    requires Possible(cfg, s, events) && (s.pass.Some? ==> WantsAnalysis(s.pass.value))
    ensures var t := After(cfg, s, events); t.pass.Some? ==> WantsAnalysis(t.pass.value)
    decreases |events|
  {
    if events != [] {
      match events[0] {
        case OfPass(act) => if PassNext(cfg, s, act).pass.Some? { StepWants(cfg, s, act); }
        case OfRunner(t, act) => RunnersStay(cfg, s, t, act);
        case _ =>
      }
      RunWants(cfg, Next(cfg, s, events[0]), events[1..]);
    }
  }

  /** The entries are analysed, and a recommendation is made, only by a pass on a resource that had not been analysed
      when the pass started. */
  lemma AnalysesUnanalysed(cfg: Config, stored: map<string, Manager.Recording>, events: seq<Event>, act: PassEvent)
    requires Possible(cfg, Initial(stored), events)
    requires Enabled(cfg, After(cfg, Initial(stored), events), OfPass(act))
    requires act.Judges? || act.FilesAnalysis? || act.FilesRecommendation?
    ensures NotAnalysed(After(cfg, Initial(stored), events).pass.value.started)
  {
    RunWants(cfg, Initial(stored), events);
  }

  /** Once it has found every required check recorded, a pass on such a resource goes on to the analysis; on another
      one, it does not. */
  lemma AnalysisFollows(cfg: Config, p: Pass, runners: set<CheckType>, lookup: Option<PodSpec>, next: Pc)
    requires p.pc == AskChecks({}, lookup, ToAnalyze) && Branches(cfg, p, runners, next)
    ensures if NotAnalysed(p.started) then next == AnnounceAnalysis(lookup) else next == FinalRetry
  {
  }

  // ---------- Submissions ----------

  lemma OnlySubmits(cfg: Config, s: State, e: Event, t: CheckType)
    requires Enabled(cfg, s, e) && t !in s.runners
    ensures t in Next(cfg, s, e).runners <==>
            e.OfPass? && e.step.SubmitsWith? && s.pass.Some? && t == SubmittedType(s.pass.value.pc)
  {
    match e
    case OfPass(act) => PassSubmits(cfg, s, act, t);
    case OfRunner(u, act) => RunnersStay(cfg, s, u, act);
    case _ =>
  }

  lemma PassSubmits(cfg: Config, s: State, e: PassEvent, t: CheckType)
    requires s.pass.Some? && PassCan(cfg, s, e) && t !in s.runners
    ensures t in PassNext(cfg, s, e).runners <==> e.SubmitsWith? && t == SubmittedType(s.pass.value.pc)
  {
  }

  predicate Submits(e: Event) { e.OfPass? && e.step.SubmitsWith? }

  /** A run becomes active exactly by a submission of a pass whose last step found that it is needed and not active: the
      first baseline run if no baseline is recorded, the second one right after it, the final run if it is overdue, has
      failed or is not recorded. */
  lemma SubmittedExactly(cfg: Config, stored: map<string, Manager.Recording>, events: seq<Event>, e: Event)
    requires Possible(cfg, Initial(stored), events) && Enabled(cfg, After(cfg, Initial(stored), events), e)
    ensures var s, tr := After(cfg, Initial(stored), events), Trace(cfg, Initial(stored), events);
            && (Baseline !in s.runners ==>
                  (Baseline in Next(cfg, s, e).runners <==> Submits(e) && tr != [] && FoundNoBaseline(tr[|tr| - 1])))
            && (SecondBaseline !in s.runners ==>
                  (SecondBaseline in Next(cfg, s, e).runners <==>
                     Submits(e) && tr != [] && tr[|tr| - 1].act.SubmitsWith? && tr[|tr| - 1].before.pc.SubmitBaseline?))
            && (Final !in s.runners ==>
                  (Final in Next(cfg, s, e).runners <==> Submits(e) && tr != [] && FoundNoFinal(tr[|tr| - 1])))
  {
    var s := After(cfg, Initial(stored), events);
    RunTells(cfg, Initial(stored), events);
    forall t: CheckType | t !in s.runners
      ensures t in Next(cfg, s, e).runners <==>
              e.OfPass? && e.step.SubmitsWith? && s.pass.Some? && t == SubmittedType(s.pass.value.pc)
    {
      OnlySubmits(cfg, s, e, t);
    }
    if Submits(e) { SubmissionPlaces(cfg, s.pass.value, e.step.context); }
  }

  lemma SubmissionPlaces(cfg: Config, p: Pass, context: Option<Defaults>)
    requires ReconcileProtocol.Submits(cfg, p, context)
    ensures p.pc.SubmitFinal? || p.pc.SubmitBaseline? || p.pc.SubmitSecondBaseline? || p.pc.SubmitCheck?
    ensures SubmittedType(p.pc) == Final <==> p.pc.SubmitFinal?
    ensures SubmittedType(p.pc) == Baseline <==> p.pc.SubmitBaseline?
    ensures SubmittedType(p.pc) == SecondBaseline <==> p.pc.SubmitSecondBaseline?
    ensures forall k :: SubmittedType(p.pc) == Check(k) <==> p.pc.SubmitCheck? && p.pc.kind == k
  {
  }

  /** A check run becomes active only by a submission of a pass whose last step found the check neither recorded nor
      active, or declared it overdue. */
  lemma CheckSubmitted(cfg: Config, stored: map<string, Manager.Recording>, events: seq<Event>, e: Event, k: Kind)
    requires Possible(cfg, Initial(stored), events) && Enabled(cfg, After(cfg, Initial(stored), events), e)
    requires Check(k) !in After(cfg, Initial(stored), events).runners
    requires Check(k) in Next(cfg, After(cfg, Initial(stored), events), e).runners
    ensures var tr := Trace(cfg, Initial(stored), events);
            Submits(e) && tr != [] && FoundNoCheck(tr[|tr| - 1], k)
  {
    var s := After(cfg, Initial(stored), events);
    RunTells(cfg, Initial(stored), events);
    OnlySubmits(cfg, s, e, Check(k));
    SubmissionPlaces(cfg, s.pass.value, e.step.context);
  }

  /** What a run is started with: the final run with the recommendation in the copy of the pass, the baseline runs with
      what the resource presets, and a check with what it asks for. */
  lemma SubmittedContexts(cfg: Config, s: State, e: Event, t: CheckType)
    requires Enabled(cfg, s, e) && t !in s.runners && t in Next(cfg, s, e).runners
    ensures s.pass.Some?
    ensures var r, rec := Next(cfg, s, e).runners[t], s.pass.value.view.recommendation;
            && r.phase.Starting?
            && (t.Final? && rec.None? ==> r.context.None?)
            && (t.Final? && rec.Some? ==> r.context.Some? && Carries(rec.value, r.context.value))
            && (t.Baseline? || t.SecondBaseline? ==> r.context == cfg.base)
            && (t.Check? ==> AsksFor(cfg, t.kind, r.context))
  {
    OnlySubmits(cfg, s, e, t);
    SubmissionPlaces(cfg, s.pass.value, e.step.context);
    var context, rec := e.step.context, s.pass.value.view.recommendation;
    if t.Final? && rec.Some? { ProjectsFields(rec.value, context.value); }
    if t.Check? { FitsAsks(cfg, t.kind, context); }
  }

  // ---------- Finishing a resource ----------

  /** Steps of the pass, all of whose writes are stored; it does not return at its start. */
  predicate Undisturbed(e: Event) {
    && e.OfPass? && !e.step.Returns?
    && (e.step.SetsCondition? || e.step.RemovesConditions? ==> e.step.outcome == Stored)
  }

  /** The stages of such a pass, from a status with a recommendation and a recorded final run. */
  ghost predicate OnTheWay(start: Status, s: State) {
    if s.pass.None? then
      && (forall c :: c in s.status.conditions <==>
            c == FinishedCondition || (c == AnalysisCondition && c in start.conditions))
      && s.status.conditions[FinishedCondition].status == True
      && (AnalysisCondition in start.conditions ==>
            s.status.conditions[AnalysisCondition] == start.conditions[AnalysisCondition])
      && s.status == start.(conditions := s.status.conditions)
    else if s.pass.value.pc.Removing? then
      && FinishedCondition in s.status.conditions && s.status.conditions[FinishedCondition].status == True
      && s.status == start.(conditions := start.conditions[FinishedCondition := s.status.conditions[FinishedCondition]])
    else
      && s.status == start && s.pass.value.view == start && s.pass.value.started == start
      && (s.pass.value.pc.Begun? || s.pass.value.pc.FinalDone? || s.pass.value.pc.Finishing?)
  }

  lemma StepOnTheWay(cfg: Config, start: Status, s: State, e: Event)
    requires OnTheWay(start, s) && s.pass.Some? && Enabled(cfg, s, e) && Undisturbed(e)
    requires start.recommendation.Some? && FoundRecorded(start, FinalCondition) && !Is(start, FinishedCondition, True)
    ensures OnTheWay(start, Next(cfg, s, e))
  {
    var pc := s.pass.value.pc;
    if pc.Removing? {
      assert PassSets(pc, Stored).None? && !Branches(cfg, s.pass.value, s.runners.Keys, Begun);
    }
  }

  /** From the start of a pass on an unfinished resource with a recommendation and a recorded final run: however it
      goes, if its writes are stored, it ends with Finished True and no other condition left than Analysis; nothing else
      in the status has changed. */
  lemma {:induction false} FinishesResource(cfg: Config, start: Status, s: State, events: seq<Event>)
    requires OnTheWay(start, s) && s.pass.Some? && Possible(cfg, s, events)
    requires start.recommendation.Some? && FoundRecorded(start, FinalCondition) && !Is(start, FinishedCondition, True)
    requires forall i | 0 <= i < |events| :: Undisturbed(events[i])
    ensures OnTheWay(start, After(cfg, s, events))
    decreases |events|
  {
    if events != [] {
      StepOnTheWay(cfg, start, s, events[0]);
      if Next(cfg, s, events[0]).pass.Some? {
        FinishesResource(cfg, start, Next(cfg, s, events[0]), events[1..]);
      } else if |events| > 1 {
        NoStepAfter(cfg, s, events);
      }
    }
  }

  lemma NoStepAfter(cfg: Config, s: State, events: seq<Event>)
    requires Possible(cfg, s, events) && |events| > 1 && Next(cfg, s, events[0]).pass.None?
    ensures !Undisturbed(events[1])
  {
    assert events[1..][0] == events[1];
  }

  /** The start of a pass on an unfinished resource with a recommendation and a recorded final run. */
  predicate AboutToFinish(s: State) {
    && s.pass == Some(Pass(Begun, s.status, s.status)) && s.status.recommendation.Some?
    && FoundRecorded(s.status, FinalCondition) && !Is(s.status, FinishedCondition, True)
  }

  ghost predicate OnlyFinishedLeft(before: Status, after: Status) {
    && FinishedCondition in after.conditions && after.conditions[FinishedCondition].status == True
    && (forall c | c in after.conditions :: c == FinishedCondition || c == AnalysisCondition)
    && after.recommendation == before.recommendation && after.checkRuns == before.checkRuns
    && after.baselineRuns == before.baselineRuns && after.finalRun == before.finalRun
  }

  /** Every such pass finishes the resource when it ends, and it can end. */
  lemma FinishesExactly(cfg: Config, s: State)
    requires AboutToFinish(s)
    ensures forall events |
              && Possible(cfg, s, events) && (forall i | 0 <= i < |events| :: Undisturbed(events[i]))
              && After(cfg, s, events).pass.None? ::
              OnlyFinishedLeft(s.status, After(cfg, s, events).status)
    ensures CanEnd(cfg, s)
  {
    forall events |
      && Possible(cfg, s, events) && (forall i | 0 <= i < |events| :: Undisturbed(events[i]))
      && After(cfg, s, events).pass.None?
      ensures OnlyFinishedLeft(s.status, After(cfg, s, events).status)
    {
      FinishesResource(cfg, s.status, s, events);
    }
    ItCanEnd(cfg, s);
  }

  ghost predicate CanEnd(cfg: Config, s: State) {
    exists events ::
      && Possible(cfg, s, events) && (forall i | 0 <= i < |events| :: Undisturbed(events[i]))
      && After(cfg, s, events).pass.None?
  }

  lemma ItCanEnd(cfg: Config, s: State)
    requires AboutToFinish(s)
    ensures CanEnd(cfg, s)
  {
    var s1, s2 := Move(s, Some(FinalDone)), Move(s, Some(Finishing));
    RecordedIsFound(s.status, FinalCondition);
    CanEndFromFinishing(cfg, s2);
    OneBefore(cfg, s1, OfPass(BranchesTo(Finishing)));
    OneBefore(cfg, s, OfPass(BranchesTo(FinalDone)));
  }

  lemma CanEndFromFinishing(cfg: Config, s: State)
    requires s.pass.Some? && s.pass.value.pc.Finishing?
    ensures CanEnd(cfg, s)
  {
    var sets, removes := OfPass(PassEvent.SetsCondition(Stored)), OfPass(RemovesConditions(Stored));
    LastOne(cfg, Next(cfg, s, sets), removes);
    OneBefore(cfg, s, sets);
  }

  lemma LastOne(cfg: Config, s: State, e: Event)
    requires Enabled(cfg, s, e) && Undisturbed(e) && Next(cfg, s, e).pass.None?
    ensures CanEnd(cfg, s)
  {
    assert [e][1..] == [] && Possible(cfg, Next(cfg, s, e), []);
    assert After(cfg, Next(cfg, s, e), []) == Next(cfg, s, e);
    assert Possible(cfg, s, [e]) && After(cfg, s, [e]).pass.None?;
  }

  lemma OneBefore(cfg: Config, s: State, e: Event)
    requires Enabled(cfg, s, e) && Undisturbed(e) && CanEnd(cfg, Next(cfg, s, e))
    ensures CanEnd(cfg, s)
  {
    var events :|
      && Possible(cfg, Next(cfg, s, e), events) && (forall i | 0 <= i < |events| :: Undisturbed(events[i]))
      && After(cfg, Next(cfg, s, e), events).pass.None?;
    var all := [e] + events;
    assert all[1..] == events;
    forall i | 0 <= i < |all| ensures Undisturbed(all[i]) {
      if i > 0 { assert all[i] == events[i - 1]; }
    }
    assert Possible(cfg, s, all) && After(cfg, s, all).pass.None?;
  }
}
