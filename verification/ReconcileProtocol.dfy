/** One WorkloadHardeningCheck as a transition system: reconcile passes, one at a time, interleave with the runners of
    its check runs, and all of them write the same status.

    Every access to the status store is a step. A write reads the stored status, changes it and stores it atomically;
    when the API fails, nothing is stored, but the change may be left in the pass's own copy. A pass decides on two
    copies: the resource it was started with, and the copy of its manager, which writes and refreshes replace. The
    tests refresh that copy first, but drop the error, so where one is made a refresh may happen or not. */
module ReconcileProtocol {
  import opened Options
  import opened SecurityContexts
  import opened Checks
  import opened Recommendation
  import opened FinalRun
  import opened Manager

  // ---------- Status ----------

  datatype ConditionStatus = True | False | Unknown

  datatype Reason = InProgress | Finished | Unsuccessful | NotStarted | Requeue | Analyzing

  datatype ConditionType =
    BaselineCondition | CheckCondition(kind: Kind) | FinalCondition | AnalysisCondition | FinishedCondition

  datatype Condition = Condition(status: ConditionStatus, reason: Reason)

  datatype Status = Status(
    conditions: map<ConditionType, Condition>,
    baselineRuns: seq<CheckRun>,
    checkRuns: CheckRuns,
    finalRun: Option<CheckRun>,
    recommendation: Option<Recommended>)

  const NO_STATUS := Status(map[], [], map[], None, None)

  predicate Is(st: Status, c: ConditionType, v: ConditionStatus) { c in st.conditions && st.conditions[c].status == v }

  predicate Recorded(st: Status, c: ConditionType) {
    Is(st, c, True) && (st.conditions[c].reason == Finished || st.conditions[c].reason == Unsuccessful)
  }

  predicate IsInProgress(st: Status, c: ConditionType) { Is(st, c, False) && st.conditions[c].reason == InProgress }

  function SetCondition(st: Status, c: ConditionType, v: Condition): Status { st.(conditions := st.conditions[c := v]) }

  function RemoveConditions(st: Status): Status {
    st.(conditions :=
          map c | c in st.conditions && (c == FinishedCondition || c == AnalysisCondition) :: st.conditions[c])
  }

  // ---------- Check runs ----------

  /** The two baseline runs share one condition. */
  datatype CheckType = Baseline | SecondBaseline | Final | Check(kind: Kind)

  function KindName(k: Kind): string {
    match k
    case User => "user"
    case Group => "group"
    case DropAllCapabilities => "dropAllCapabilities"
    case ReadOnlyRootFilesystem => "readOnlyRootFilesystem"
    case AllowPrivilegeEscalation => "allowPrivilegeEscalation"
  }

  function TypeName(t: CheckType): string {
    match t
    case Baseline => "baseline"
    case SecondBaseline => "baseline-2"
    case Final => "Final"
    case Check(k) => KindName(k)
  }

  function ConditionOf(t: CheckType): ConditionType {
    match t
    case Check(k) => CheckCondition(k)
    case Final => FinalCondition
    case _ => BaselineCondition
  }

  /** Where RunCheck is. TimedOut: the workload was not updated in time. Publishing: the recording is stored. Filing:
      the condition was set to True, the entry in the status is still to be written. */
  datatype Phase =
    | Starting | Preparing | Measuring | TimedOut | Failing
    | Publishing(success: bool) | Filing(success: bool) | Leaving

  datatype Runner = Runner(phase: Phase, context: Option<Defaults>)

  /** The condition that a runner sets in its phase, and the phase that follows. */
  function RunnerSets(phase: Phase): Option<(Condition, Phase)> {
    match phase
    case Starting => Some((Condition(False, InProgress), Preparing))
    case Preparing => Some((Condition(False, InProgress), Measuring))
    case TimedOut => None
    case Failing => Some((Condition(Unknown, Unsuccessful), Leaving))
    case Publishing(success) => Some((Condition(True, if success then Finished else Unsuccessful), Filing(success)))
    case _ => None
  }

  function File(st: Status, t: CheckType, run: CheckRun): Status {
    match t
    case Check(_) => st.(checkRuns := st.checkRuns[run.name := run])
    case Final => st.(finalRun := Some(run))
    case _ => st.(baselineRuns := st.baselineRuns + [run])
  }

  // ---------- Reconcile passes ----------

  /** Why the required checks are asked for: to decide about the analysis, to decide whether checks are missing, to
      submit them. */
  datatype Purpose = ToAnalyze | ToRecord | ToSubmit

  /** Where a pass is. `lookup` is the pod template found by the last GetRequiredCheckRuns of the pass, if it was
      found. */
  datatype Pc =
    | Begun | FinalDone | Finishing | Removing
    | AskBaseline(purpose: Purpose) | LookUp(purpose: Purpose)
    | Require(todo: set<Kind>, lookup: Option<PodSpec>, purpose: Purpose)
    | AddCondition(kind: Kind, todo: set<Kind>, lookup: Option<PodSpec>, purpose: Purpose)
    | AskChecks(todo: set<Kind>, lookup: Option<PodSpec>, purpose: Purpose)
    | AnnounceAnalysis(lookup: Option<PodSpec>) | StartAnalysis(lookup: Option<PodSpec>)
    | Analyze(lookup: Option<PodSpec>)
    | FileAnalysis(runs: CheckRuns, lookup: Option<PodSpec>) | FailAnalysis | FinishFailed
    | Recommends(lookup: Option<PodSpec>) | FinishAnalysis | AnnounceFinal
    | FinalRetry | FinalRunning | FinalOverdue | FinalMissing | FinalUnrecorded
    | SubmitFinal(again: bool) | FinalStarted
    | BaselineRunning | BaselineOverdue | BaselineGiven | AcceptBaseline | FileBaselines
    | BaselineMissing | SubmitBaseline | SubmitSecondBaseline | BaselineStarted
    | BaselineChecked | BaselineFailed
    | ChecksMissing | ChecksStarted(lookup: Option<PodSpec>) | NextCheck(todo: set<Kind>)
    | CheckOverdue(kind: Kind, todo: set<Kind>) | SubmitCheck(kind: Kind, todo: set<Kind>)

  /** `started` is the resource as it was read at the start, `view` the copy of the manager. */
  datatype Pass = Pass(pc: Pc, started: Status, view: Status)

  datatype Config = Config(ns: string, suffix: string, reference: seq<string>, base: Option<Defaults>, parallel: bool)

  /** `stored` holds the recordings by their key. `lost` records, for the statements below, that a recommendation
      was left in the copy of a pass by an update that failed. */
  datatype State = State(status: Status, stored: map<string, Manager.Recording>, runners: map<CheckType, Runner>,
                         pass: Option<Pass>, lost: bool)

  /** Other resources may have stored recordings before. */
  function Initial(stored: map<string, Manager.Recording>): State { State(NO_STATUS, stored, map[], None, false) }

  function Required(lookup: Option<PodSpec>): set<Kind> {
    if lookup.None? then {} else set k | k in AllKinds() && ShouldRun(k, lookup.value)
  }

  // ---------- Decisions of a pass ----------

  function Unfinished(purpose: Purpose): Pc { if purpose == ToAnalyze then FinalRetry else LookUp(ToSubmit) }

  predicate SomeBaselineFailed(st: Status) { exists r | r in st.baselineRuns :: r.checkSuccessful != Some(true) }

  /** The steps of AllChecksFinished and GetRequiredCheckRuns. */
  ghost predicate AsksForChecks(p: Pass, next: Pc) {
    match p.pc
    case AskBaseline(purpose) =>
      next == if Recorded(p.view, BaselineCondition) then LookUp(purpose) else Unfinished(purpose)
    case LookUp(purpose) => next.Require? && next.todo == Required(next.lookup) && next.purpose == purpose
    case Require(todo, lookup, purpose) =>
      if todo == {} then
        next == if purpose == ToSubmit then ChecksStarted(lookup) else AskChecks(Required(lookup), lookup, purpose)
      else
        exists k | k in todo ::
          next == if CheckCondition(k) in p.view.conditions then Require(todo - {k}, lookup, purpose)
                  else AddCondition(k, todo - {k}, lookup, purpose)
    case AskChecks(todo, lookup, purpose) =>
      if todo == {} then
        && purpose == ToAnalyze
        && next == if Is(p.started, AnalysisCondition, True) then FinalRetry else AnnounceAnalysis(lookup)
      else
        exists k | k in todo ::
          next == if Recorded(p.view, CheckCondition(k)) then AskChecks(todo - {k}, lookup, purpose)
                  else Unfinished(purpose)
    case _ => false
  }

  /** The tests about the final run, from the start of a pass. */
  predicate FinalBranches(p: Pass, runners: set<CheckType>, next: Pc) {
    match p.pc
    case Begun => !Is(p.started, FinishedCondition, True) && next == FinalDone
    case FinalDone =>
      next == if p.view.recommendation.Some? && Recorded(p.view, FinalCondition) then Finishing
          else AskBaseline(ToAnalyze)
    case FinalRetry =>
      if Is(p.started, FinalCondition, Unknown) then Final !in runners && next == SubmitFinal(true)
          else next == FinalRunning
    case FinalRunning => next == if IsInProgress(p.view, FinalCondition) then FinalOverdue else FinalMissing
    case FinalMissing => next == if p.view.recommendation.None? then BaselineRunning else FinalUnrecorded
    case FinalUnrecorded =>
      next == if Recorded(p.view, FinalCondition) then BaselineRunning
              else if Final in runners then FinalStarted else SubmitFinal(false)
    case _ => false
  }

  /** The tests about the baseline and the checks that are not recorded yet. */
  predicate RecordingBranches(cfg: Config, p: Pass, runners: set<CheckType>, next: Pc) {
    match p.pc
    case BaselineRunning => next == if IsInProgress(p.view, BaselineCondition) then BaselineOverdue else BaselineGiven
    case BaselineGiven =>
      next == if |cfg.reference| > 0 && !Recorded(p.view, BaselineCondition) then AcceptBaseline else BaselineMissing
    case BaselineMissing => next == if Recorded(p.view, BaselineCondition) then BaselineChecked else SubmitBaseline
    case BaselineChecked =>
      next == if Recorded(p.view, BaselineCondition) && SomeBaselineFailed(p.started) then BaselineFailed
          else ChecksMissing
    case ChecksMissing => Recorded(p.view, BaselineCondition) && next == AskBaseline(ToRecord)
    case NextCheck(todo) => exists k | k in todo :: ChecksBranch(cfg, p, runners, k, todo - {k}, next)
    case _ => false
  }

  predicate ChecksBranch(cfg: Config, p: Pass, runners: set<CheckType>, k: Kind, todo: set<Kind>, next: Pc) {
    if Recorded(p.view, CheckCondition(k)) then next == NextCheck(todo)
    else if Check(k) !in runners then next == SubmitCheck(k, todo)
    else
      || (cfg.parallel && next == NextCheck(todo))
      || (IsInProgress(p.view, CheckCondition(k)) && next == CheckOverdue(k, todo))
  }

  /** The next place of a pass, where it only tests its copies and the executor. */
  ghost predicate Branches(cfg: Config, p: Pass, runners: set<CheckType>, next: Pc) {
    FinalBranches(p, runners, next) || AsksForChecks(p, next) || RecordingBranches(cfg, p, runners, next)
  }

  /** Where a pass can return without another step. At the start it does so for a finished resource, a resource
      that is being deleted or gets its finalizer; in progress, while a run is not overdue. */
  predicate MayReturn(cfg: Config, p: Pass, runners: set<CheckType>) {
    match p.pc
    case Begun => true
    case AskChecks(todo, _, purpose) => todo == {} && purpose == ToRecord
    case FinalRetry => Is(p.started, FinalCondition, Unknown) && Final in runners
    case FinalRunning => IsInProgress(p.view, FinalCondition)
    case BaselineRunning => IsInProgress(p.view, BaselineCondition)
    case ChecksMissing => !Recorded(p.view, BaselineCondition)
    case NextCheck(todo) =>
      todo == {} ||
      (!cfg.parallel && exists k | k in todo :: !Recorded(p.view, CheckCondition(k)) && Check(k) in runners)
    case _ => false
  }

  /** The places whose test asks for the resource again first. */
  predicate AsksAgain(pc: Pc) {
    || pc.FinalDone? || pc.AskBaseline? || pc.AskChecks? || pc.FinalRunning? || pc.FinalUnrecorded?
    || pc.BaselineRunning? || pc.BaselineGiven? || pc.BaselineMissing? || pc.BaselineChecked? || pc.ChecksMissing?
    || pc.NextCheck?
  }

  // ---------- Writes of a pass ----------

  /** Stored: the update succeeded. Unread: the status could not be read. Unstored: it was read and changed, and
      the update failed, which leaves the change in the copy of the manager only. */
  datatype Outcome = Stored | Unread | Unstored

  /** The condition that is set, and the place that follows, or None at the end of the pass. */
  function PassSets(pc: Pc, o: Outcome): Option<(ConditionType, Condition, Option<Pc>)> {
    match pc
    case Finishing => Some((FinishedCondition, Condition(True, Finished), if o == Stored then Some(Removing) else None))
    case AddCondition(k, todo, lookup, purpose) =>
      Some((CheckCondition(k), Condition(Unknown, NotStarted), Some(Require(todo, lookup, purpose))))
    case AnnounceAnalysis(lookup) => Some((FinishedCondition, Condition(False, Analyzing), Some(StartAnalysis(lookup))))
    case StartAnalysis(lookup) => Some((AnalysisCondition, Condition(False, Analyzing), Some(Analyze(lookup))))
    case FailAnalysis => Some((AnalysisCondition, Condition(True, Unsuccessful), Some(FinishFailed)))
    case FinishFailed => Some((FinishedCondition, Condition(True, Unsuccessful), None))
    case FinishAnalysis => Some((AnalysisCondition, Condition(True, Finished), Some(AnnounceFinal)))
    case AnnounceFinal => Some((FinishedCondition, Condition(False, Analyzing), Some(FinalRetry)))
    case FinalOverdue => Some((FinalCondition, Condition(Unknown, Requeue), None))
    case FinalStarted => Some((FinishedCondition, Condition(False, InProgress), None))
    case BaselineOverdue => Some((BaselineCondition, Condition(Unknown, Requeue), None))
    case AcceptBaseline =>
      Some((BaselineCondition, Condition(True, Finished), Some(if o == Stored then FileBaselines else BaselineMissing)))
    case BaselineStarted => Some((FinishedCondition, Condition(False, InProgress), None))
    case BaselineFailed => Some((FinishedCondition, Condition(True, Unsuccessful), None))
    case ChecksStarted(lookup) =>
      Some((FinishedCondition, Condition(False, InProgress), Some(NextCheck(Required(lookup)))))
    case CheckOverdue(k, todo) => Some((CheckCondition(k), Condition(Unknown, Requeue), Some(SubmitCheck(k, todo))))
    case _ => None
  }

  function Move(s: State, pc: Option<Pc>): State
    requires s.pass.Some?
  {
    s.(pass := if pc.None? then None else Some(s.pass.value.(pc := pc.value)))
  }

  function Write(s: State, o: Outcome, changed: Status, pc: Option<Pc>): State
    requires s.pass.Some?
  {
    var status := if o == Stored then changed else s.status;
    var view := if o == Unread then s.pass.value.view else changed;
    s.(status := status, pass := if pc.None? then None else Some(Pass(pc.value, s.pass.value.started, view)))
  }

  /** Submitting a type that is running changes nothing. */
  function Submit(s: State, t: CheckType, context: Option<Defaults>): State {
    if t in s.runners then s else s.(runners := s.runners[t := Runner(Starting, context)])
  }

  // ---------- Steps ----------

  datatype PassEvent =
    | Refreshes
    | Returns
    | BranchesTo(next: Pc)
    | SetsCondition(outcome: Outcome)
    | RemovesConditions(outcome: Outcome)
    | Judges(result: Analysis, get: string -> Lookup, judge: Manager.Recording -> Verdict)
    | FilesAnalysis(outcome: Outcome)
    | FilesRecommendation(outcome: Outcome, spec: Option<PodSpec>, order: seq<Defaults>)
    | FilesBaselines(outcome: Outcome)
    | SubmitsWith(context: Option<Defaults>)

  datatype RunnerEvent =
    | Publishes(outcome: Outcome)
    | Fails
    | TimesOut(outcome: Outcome)
    | Stores(recording: Option<Manager.Recording>)
    | Files(run: CheckRun, outcome: Outcome)
    | Ends       // RunCheck returns, or panics, and the executor removes the run

  /** A restart of the operator ends all runners and the pass. */
  datatype Event = Begin | Restart | OfPass(step: PassEvent) | OfRunner(t: CheckType, act: RunnerEvent)

  /** Asking Valkey for a key answers with the stored recording, or fails. */
  ghost predicate Faithful(stored: map<string, Manager.Recording>, get: string -> Lookup) {
    forall key :: (get(key).Found? ==> key in stored && get(key).recording == stored[key])
        && (get(key).Missing? ==> key !in stored)
  }

  /** The context that a check run gets: one of its own, or what the resource presets, filled in by the check and
      perhaps by others, which share the preset object and find each other's fields in it. */
  ghost predicate FitsCheck(cfg: Config, k: Kind, context: Option<Defaults>) {
    if cfg.base.None? then context == Some(WithDefaults(k, UNSET))
    else
      exists ks: seq<Kind> | HasPartsForAll(ks, cfg.base.value) ::
        k in ks && context == Some(Accumulated(cfg.base.value, ks))
  }

  ghost predicate Submits(cfg: Config, p: Pass, context: Option<Defaults>) {
    match p.pc
    case SubmitFinal(_) =>
      if p.view.recommendation.None? then context.None?
          else context.Some? && Projects(p.view.recommendation.value, context.value)
    case SubmitBaseline => context == cfg.base
    case SubmitSecondBaseline => context == cfg.base
    case SubmitCheck(k, _) => FitsCheck(cfg, k, context)
    case _ => false
  }

  ghost predicate CanRecommend(p: Pass, spec: Option<PodSpec>, order: seq<Defaults>) {
    p.pc.Recommends? && (spec.Some? ==> ContextsOf(p.view.checkRuns, order))
  }

  ghost predicate CanJudge(cfg: Config, s: State, e: PassEvent)
    requires e.Judges? && s.pass.Some?
  {
    && s.pass.value.pc.Analyze? && Faithful(s.stored, e.get)
    && (e.result.Error? ||
        AnalysisOutcome(s.status.checkRuns, cfg.ns, cfg.suffix, cfg.reference, e.get, e.judge, e.result))
  }

  /** The entry that a runner files. */
  predicate FiledBy(t: CheckType, r: Runner, run: CheckRun) {
    && r.phase.Filing? && run.name == TypeName(t) && run.securityContext == r.context
    && run.recordingSuccessful == Some(r.phase.success) && run.checkSuccessful == Some(r.phase.success)
  }

  ghost predicate PassCan(cfg: Config, s: State, e: PassEvent)
    requires s.pass.Some?
  {
    var p := s.pass.value;
    match e
    case Refreshes => AsksAgain(p.pc)
    case Returns => MayReturn(cfg, p, s.runners.Keys)
    case BranchesTo(next) => Branches(cfg, p, s.runners.Keys, next)
    case SetsCondition(o) => PassSets(p.pc, o).Some?
    case RemovesConditions(o) => p.pc.Removing?
    case Judges(_, _, _) => CanJudge(cfg, s, e)
    case FilesAnalysis(o) => p.pc.FileAnalysis?
    case FilesRecommendation(o, spec, order) => CanRecommend(p, spec, order)
    case FilesBaselines(o) => p.pc.FileBaselines?
    case SubmitsWith(context) => Submits(cfg, p, context)
  }

  predicate RunnerCan(t: CheckType, r: Runner, e: RunnerEvent) {
    match e
    case Publishes(o) => RunnerSets(r.phase).Some?
    case Fails => r.phase.Preparing? || r.phase.Measuring?
    case TimesOut(o) => r.phase.Preparing?
    case Stores(recording) =>
      r.phase.Measuring? || (r.phase.TimedOut? && (recording.Some? ==> !recording.value.podStateRunning))
    case Files(run, o) => FiledBy(t, r, run)
    case Ends => true
  }

  ghost predicate Enabled(cfg: Config, s: State, e: Event) {
    match e
    case Begin => s.pass.None?
    case Restart => true
    case OfPass(step) => s.pass.Some? && PassCan(cfg, s, step)
    case OfRunner(t, act) => t in s.runners && RunnerCan(t, s.runners[t], act)
  }

  const BASELINE_ENTRIES := [CheckRun("baseline", Some(true), Some(true), None, "", None),
                             CheckRun("baseline-2", Some(true), Some(true), None, "", None)]

  function AfterSubmit(cfg: Config, pc: Pc): Option<Pc> {
    match pc
    case SubmitFinal(again) => if again then None else Some(FinalStarted)
    case SubmitBaseline => Some(SubmitSecondBaseline)
    case SubmitSecondBaseline => Some(BaselineStarted)
    case SubmitCheck(_, todo) => if cfg.parallel then Some(NextCheck(todo)) else None
    case _ => None
  }

  function SubmittedType(pc: Pc): CheckType {
    match pc
    case SubmitBaseline => Baseline
    case SubmitSecondBaseline => SecondBaseline
    case SubmitCheck(k, _) => Check(k)
    case _ => Final
  }

  function PassNext(cfg: Config, s: State, e: PassEvent): State
    requires s.pass.Some?
  {
    var p := s.pass.value;
    match e
    case Refreshes => s.(pass := Some(p.(view := s.status)))
    case Returns => Move(s, None)
    case BranchesTo(next) => Move(s, Some(next))
    case SetsCondition(o) =>
      var w := PassSets(p.pc, o);
      if w.None? then s else Write(s, o, SetCondition(s.status, w.value.0, w.value.1), w.value.2)
    case RemovesConditions(o) => Write(s, o, RemoveConditions(s.status), None)
    case Judges(result, _, _) =>
      if !p.pc.Analyze? then s
      else Write(s, Unstored, s.status,
                 Some(if result.Error? then FailAnalysis
                      else if result.Skipped? then Recommends(p.pc.lookup)
                      else FileAnalysis(result.runs, p.pc.lookup)))
    case FilesAnalysis(o) =>
      if !p.pc.FileAnalysis? then s
      else Write(s, o, s.status.(checkRuns := p.pc.runs),
                 Some(if o == Stored then Recommends(p.pc.lookup) else FailAnalysis))
    case FilesRecommendation(o, spec, order) =>
      if spec.None? then Move(s, Some(FinishAnalysis))
      else Write(s, o, s.status.(recommendation := Some(Recommend(spec.value, order))), Some(FinishAnalysis))
           .(lost := s.lost || o == Unstored)
    case FilesBaselines(o) => Write(s, o, s.status.(baselineRuns := BASELINE_ENTRIES), Some(BaselineMissing))
    case SubmitsWith(context) => Move(Submit(s, SubmittedType(p.pc), context), AfterSubmit(cfg, p.pc))
  }

  function SetPhase(s: State, t: CheckType, phase: Phase): State
    requires t in s.runners
  {
    s.(runners := s.runners[t := s.runners[t].(phase := phase)])
  }

  function Store(s: State, o: Outcome, changed: Status): State { if o == Stored then s.(status := changed) else s }

  function Key(cfg: Config, t: CheckType): string { RecordingKey(cfg.ns, cfg.suffix, TypeName(t)) }

  function RunnerNext(cfg: Config, s: State, t: CheckType, e: RunnerEvent): State
    requires t in s.runners
  {
    var phase := s.runners[t].phase;
    match e
    case Publishes(o) =>
      var w := RunnerSets(phase);
      if w.None? then s else Store(SetPhase(s, t, w.value.1), o, SetCondition(s.status, ConditionOf(t), w.value.0))
    case Fails => SetPhase(s, t, Failing)
    case TimesOut(o) =>
      Store(SetPhase(s, t, TimedOut), o, SetCondition(s.status, ConditionOf(t), Condition(Unknown, Unsuccessful)))
    case Stores(recording) =>
      if recording.None? then SetPhase(s, t, Failing)
      else SetPhase(s, t, if phase.TimedOut? then Failing else Publishing(recording.value.podStateRunning)).
             (stored := s.stored[Key(cfg, t) := recording.value])
    case Files(run, o) => Store(SetPhase(s, t, Leaving), o, File(s.status, t, run))
    case Ends => s.(runners := s.runners - {t})
  }

  function Next(cfg: Config, s: State, e: Event): State {
    match e
    case Begin => s.(pass := Some(Pass(Begun, s.status, s.status)))
    case Restart => s.(runners := map[], pass := None)
    case OfPass(step) => if s.pass.Some? then PassNext(cfg, s, step) else s
    case OfRunner(t, act) => if t in s.runners then RunnerNext(cfg, s, t, act) else s
  }

  // ---------- Runs ----------

  ghost predicate Possible(cfg: Config, s: State, events: seq<Event>)
    decreases |events|
  {
    events == [] || (Enabled(cfg, s, events[0]) && Possible(cfg, Next(cfg, s, events[0]), events[1..]))
  }

  function After(cfg: Config, s: State, events: seq<Event>): State
    decreases |events|
  {
    if events == [] then s else After(cfg, Next(cfg, s, events[0]), events[1..])
  }

  ghost predicate Reachable(cfg: Config, s: State) {
    exists stored, events :: Possible(cfg, Initial(stored), events) && s == After(cfg, Initial(stored), events)
  }
}
