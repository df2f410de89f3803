/** What a pass has done and found, step by step, and which of its steps make a condition True. */
module ReconcileTrace {
  import opened Options
  import opened SecurityContexts
  import opened Checks
  import opened Manager
  import opened ReconcileProtocol
  import opened ReconcileInvariant
  import opened ReconcileSafety
  import opened ReconcileHistory

  /** A step of a pass, with its copies and the active runs before it. */
  datatype Step = Step(before: Pass, runners: set<CheckType>, act: PassEvent)

  /** The steps of the pass under way. */
  function Trace(cfg: Config, s: State, events: seq<Event>): seq<Step>
    decreases |events|
  {
    if events == [] then []
    else Extended(After(cfg, s, Front(events)), Trace(cfg, s, Front(events)), Last(events))
  }

  function Extended(s: State, tr: seq<Step>, e: Event): seq<Step> {
    match e
    case OfPass(act) => if s.pass.Some? then tr + [Step(s.pass.value, s.runners.Keys, act)] else tr
    case OfRunner(_, _) => tr
    case _ => []
  }

  // ---------- What a step has found ----------

  /** The condition is True, for a run that was recorded, successful or not. */
  predicate FoundRecorded(st: Status, c: ConditionType) {
    && c in st.conditions && st.conditions[c].status == True
    && (st.conditions[c].reason == Finished || st.conditions[c].reason == Unsuccessful)
  }

  /** There is a recommendation and a recorded final run. */
  predicate FoundFinal(step: Step) {
    && step.act.BranchesTo? && step.before.pc.FinalDone?
    && step.before.view.recommendation.Some? && FoundRecorded(step.before.view, FinalCondition)
  }

  /** The analysis failed, or its results could not be stored. */
  predicate FailedAnalysis(step: Step) {
    || (step.act.Judges? && step.act.result.Error?)
    || (step.act.FilesAnalysis? && step.act.outcome != Stored)
  }

  /** The baseline is recorded, but some run of it has failed. */
  predicate FoundBadBaseline(step: Step) {
    && step.act.BranchesTo? && step.before.pc.BaselineChecked? && FoundRecorded(step.before.view, BaselineCondition)
    && exists r | r in step.before.started.baselineRuns :: r.checkSuccessful.None? || !r.checkSuccessful.value
  }

  /** The resource refers to recordings, and no baseline is recorded. */
  predicate FoundReference(cfg: Config, step: Step) {
    && step.act.BranchesTo? && step.before.pc.BaselineGiven?
    && cfg.reference != [] && !FoundRecorded(step.before.view, BaselineCondition)
  }

  predicate FoundNoBaseline(step: Step) {
    step.act.BranchesTo? && step.before.pc.BaselineMissing? && !FoundRecorded(step.before.view, BaselineCondition)
  }

  /** The final run is not active; it is overdue or has failed, or it was not recorded. */
  predicate FoundNoFinal(step: Step) {
    && step.act.BranchesTo? && Final !in step.runners
    && ((step.before.pc.FinalRetry? && FinalCondition in step.before.started.conditions
         && step.before.started.conditions[FinalCondition].status == Unknown)
        || (step.before.pc.FinalUnrecorded? && !FoundRecorded(step.before.view, FinalCondition)))
  }

  /** The check is to be run, and is neither recorded nor active; or it is active for too long. */
  predicate FoundNoCheck(step: Step, k: Kind) {
    || (step.act.BranchesTo? && step.before.pc.NextCheck? && k in step.before.pc.todo
        && !FoundRecorded(step.before.view, CheckCondition(k)) && Check(k) !in step.runners)
    || (step.act.SetsCondition? && step.before.pc.CheckOverdue? && step.before.pc.kind == k)
  }

  // ---------- Where a step leads ----------

  /** The places that are left by a write or a submission, and the steps that lead there. */
  ghost predicate EndsTold(p: Pass, tr: seq<Step>) {
    && (p.pc.Finishing? <==> tr != [] && FoundFinal(tr[|tr| - 1]))
    && (p.pc.FailAnalysis? <==> tr != [] && FailedAnalysis(tr[|tr| - 1]))
    && (p.pc.FinishFailed? <==> |tr| >= 2 && tr[|tr| - 1].act.SetsCondition? && FailedAnalysis(tr[|tr| - 2]))
    && (p.pc.BaselineFailed? <==> tr != [] && FoundBadBaseline(tr[|tr| - 1]))
    && (p.pc.FinishAnalysis? <==> tr != [] && tr[|tr| - 1].act.FilesRecommendation?)
  }

  ghost predicate StartsTold(cfg: Config, p: Pass, tr: seq<Step>) {
    && (p.pc.AcceptBaseline? <==> tr != [] && FoundReference(cfg, tr[|tr| - 1]))
    && (p.pc.SubmitBaseline? <==> tr != [] && FoundNoBaseline(tr[|tr| - 1]))
    && (p.pc.SubmitSecondBaseline? <==>
          tr != [] && tr[|tr| - 1].act.SubmitsWith? && tr[|tr| - 1].before.pc.SubmitBaseline?)
    && (p.pc.SubmitFinal? <==> tr != [] && FoundNoFinal(tr[|tr| - 1]))
    && (p.pc.SubmitCheck? ==> tr != [] && FoundNoCheck(tr[|tr| - 1], p.pc.kind))
  }

  ghost predicate Told(cfg: Config, p: Pass, tr: seq<Step>) { EndsTold(p, tr) && StartsTold(cfg, p, tr) }

  lemma RecordedIsFound(st: Status, c: ConditionType)
    ensures Recorded(st, c) <==> FoundRecorded(st, c)
  {
  }

  lemma FinalBranchEnds(p: Pass, runners: set<CheckType>, next: Pc)
    requires FinalBranches(p, runners, next)
    ensures next.Finishing? <==> FoundFinal(Step(p, runners, BranchesTo(next)))
    ensures next.SubmitFinal? <==> FoundNoFinal(Step(p, runners, BranchesTo(next)))
    ensures !next.FailAnalysis? && !next.FinishFailed? && !next.BaselineFailed? && !next.FinishAnalysis?
    ensures !next.AcceptBaseline? && !next.SubmitBaseline? && !next.SubmitSecondBaseline? && !next.SubmitCheck?
    ensures !p.pc.BaselineChecked? && !p.pc.BaselineGiven? && !p.pc.BaselineMissing? && !p.pc.NextCheck?
  {
  }

  lemma AskingEnds(p: Pass, next: Pc)
    requires AsksForChecks(p, next)
    ensures !next.Finishing? && !next.SubmitFinal?
    ensures !next.FailAnalysis? && !next.FinishFailed? && !next.BaselineFailed? && !next.FinishAnalysis?
    ensures !next.AcceptBaseline? && !next.SubmitBaseline? && !next.SubmitSecondBaseline? && !next.SubmitCheck?
    ensures p.pc.AskBaseline? || p.pc.LookUp? || p.pc.Require? || p.pc.AskChecks?
  {
  }

  lemma RecordingBranchEnds(cfg: Config, p: Pass, runners: set<CheckType>, next: Pc)
    requires RecordingBranches(cfg, p, runners, next)
    ensures var step := Step(p, runners, BranchesTo(next));
            && (next.BaselineFailed? <==> FoundBadBaseline(step))
            && (next.AcceptBaseline? <==> FoundReference(cfg, step))
            && (next.SubmitBaseline? <==> FoundNoBaseline(step))
            && (next.SubmitCheck? ==> FoundNoCheck(step, next.kind))
    ensures !next.Finishing? && !next.SubmitFinal? && !next.SubmitSecondBaseline?
    ensures !next.FailAnalysis? && !next.FinishFailed? && !next.FinishAnalysis?
    ensures !p.pc.FinalDone? && !p.pc.FinalRetry? && !p.pc.FinalUnrecorded?
  {
    if p.pc.BaselineChecked? { BadBaseline(p.started); }
  }

  lemma BadBaseline(st: Status)
    ensures SomeBaselineFailed(st) <==>
            exists r | r in st.baselineRuns :: r.checkSuccessful.None? || !r.checkSuccessful.value
  {
    if r :| r in st.baselineRuns && r.checkSuccessful != Some(true) { BoolOption(r.checkSuccessful); }
  }

  lemma BranchTells(cfg: Config, p: Pass, runners: set<CheckType>, next: Pc, tr: seq<Step>)
    requires Branches(cfg, p, runners, next)
    ensures Told(cfg, p.(pc := next), tr + [Step(p, runners, BranchesTo(next))])
  {
    var step := Step(p, runners, BranchesTo(next));
    assert (tr + [step])[|tr + [step]| - 1] == step;
    if FinalBranches(p, runners, next) {
      FinalBranchEnds(p, runners, next);
    } else if AsksForChecks(p, next) {
      AskingEnds(p, next);
    } else {
      RecordingBranchEnds(cfg, p, runners, next);
    }
  }

  lemma SetTells(cfg: Config, p: Pass, runners: set<CheckType>, o: Outcome, next: Pass, tr: seq<Step>)
    requires Told(cfg, p, tr) && PassSets(p.pc, o).Some? && PassSets(p.pc, o).value.2 == Some(next.pc)
    ensures Told(cfg, next, tr + [Step(p, runners, PassEvent.SetsCondition(o))])
  {
    var step := Step(p, runners, PassEvent.SetsCondition(o));
    var all := tr + [step];
    assert all[|all| - 1] == step && (tr != [] ==> all[|all| - 2] == tr[|tr| - 1]);
  }

  /** The other steps that go on. */
  lemma ActTells(cfg: Config, s: State, act: PassEvent, tr: seq<Step>)
    requires s.pass.Some? && PassCan(cfg, s, act) && PassNext(cfg, s, act).pass.Some?
    requires act.Judges? || act.FilesAnalysis? || act.FilesRecommendation? || act.FilesBaselines? || act.SubmitsWith?
    ensures Told(cfg, PassNext(cfg, s, act).pass.value, tr + [Step(s.pass.value, s.runners.Keys, act)])
  {
    var step := Step(s.pass.value, s.runners.Keys, act);
    assert (tr + [step])[|tr + [step]| - 1] == step;
  }

  /** Where the resource is asked for again, the pass stays, and it is at none of those places. */
  lemma RefreshTells(cfg: Config, s: State, tr: seq<Step>)
    requires s.pass.Some? && PassCan(cfg, s, Refreshes)
    ensures Told(cfg, PassNext(cfg, s, Refreshes).pass.value, tr + [Step(s.pass.value, s.runners.Keys, Refreshes)])
  {
    var step := Step(s.pass.value, s.runners.Keys, Refreshes);
    assert (tr + [step])[|tr + [step]| - 1] == step;
  }

  lemma StepTells(cfg: Config, s: State, e: Event, tr: seq<Step>)
    requires Enabled(cfg, s, e) && (s.pass.Some? ==> Told(cfg, s.pass.value, tr))
    ensures Next(cfg, s, e).pass.Some? ==> Told(cfg, Next(cfg, s, e).pass.value, Extended(s, tr, e))
  {
    match e
    case OfPass(act) => if PassNext(cfg, s, act).pass.Some? { PassStepTells(cfg, s, act, tr); }
    case OfRunner(t, act) => RunnersStay(cfg, s, t, act);
    case _ =>
  }

  lemma PassStepTells(cfg: Config, s: State, act: PassEvent, tr: seq<Step>)
    requires s.pass.Some? && PassCan(cfg, s, act) && Told(cfg, s.pass.value, tr) && PassNext(cfg, s, act).pass.Some?
    ensures Told(cfg, PassNext(cfg, s, act).pass.value, tr + [Step(s.pass.value, s.runners.Keys, act)])
  {
    match act
    case BranchesTo(next) => BranchTells(cfg, s.pass.value, s.runners.Keys, next, tr);
    case SetsCondition(o) =>
      SetTells(cfg, s.pass.value, s.runners.Keys, o, PassNext(cfg, s, act).pass.value, tr);
    case Refreshes => RefreshTells(cfg, s, tr);
    case Returns =>
    case RemovesConditions(_) =>
    case _ => ActTells(cfg, s, act, tr);
  }

  /** The place of a pass tells what its last steps were. */
  lemma {:induction false} RunTells(cfg: Config, s: State, events: seq<Event>)
    requires Possible(cfg, s, events) && s.pass.None?
    ensures var t := After(cfg, s, events); t.pass.Some? ==> Told(cfg, t.pass.value, Trace(cfg, s, events))
    decreases |events|
  {
    if events != [] {
      LastStep(cfg, s, events);
      RunTells(cfg, s, Front(events));
      StepTells(cfg, After(cfg, s, Front(events)), Last(events), Trace(cfg, s, Front(events)));
    }
  }
}
