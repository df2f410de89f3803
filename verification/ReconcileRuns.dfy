/** Runs that show what reconciling does not guarantee. */
module ReconcileRuns {
  import opened Options
  import opened SecurityContexts
  import opened Checks
  import opened Recommendation
  import opened FinalRun
  import opened Manager
  import opened ReconcileProtocol
  import opened ReconcileInvariant
  import opened ReconcileSafety
  import opened ReconcileHistory
  import opened ReconcileEntries
  import opened ReconcileRoutes

  // ---------- Without a lookup of the workload nothing is required ----------

  /** From every reachable state between two passes in which a baseline is recorded and no analysis was made, a pass
      that cannot look up the workload at first can recommend something, whatever checks its template requires and are
      not done. The baselines must be stored, unless asking for an absent recording is no error. */
  lemma FailedLookupRecommends(cfg: Config, s: State, spec: PodSpec, absent: Lookup)
    requires Reachable(cfg, s) && s.pass.None? && !Is(s.status, FinishedCondition, True)
    requires s.status.recommendation.None? && Recorded(s.status, BaselineCondition)
             && !Is(s.status, AnalysisCondition, True)
    requires absent.Missing? || (absent.Failed? && HasBaselines(cfg, s.stored))
    ensures exists t :: Leads(Route(cfg, s, false, absent), t) && RecommendedWithoutChecks(s, t, spec)
  {
    var r := Route(cfg, s, false, absent);
    Stays(r);
    ToAnalysis(r, s, None);
    EntriesHaveRecordings(cfg, s);
    var runs, order := RecommendsSome(r, s, None, spec);
    var st := s.status.(checkRuns := runs, recommendation := Some(Recommend(spec, order)));
    var t := s.(status := st, pass := Some(Pass(FinishAnalysis, s.status, st)));
    assert RecommendedWithoutChecks(s, t, spec);
  }

  lemma EntriesHaveRecordings(cfg: Config, s: State)
    requires Reachable(cfg, s)
    ensures HaveRecordings(cfg, s.status.checkRuns, s.stored)
  {
    ReachableInv(cfg, s);
    forall n | n in s.status.checkRuns
      ensures s.status.checkRuns[n].name == n && s.status.checkRuns[n].securityContext.Some?
      ensures RecordingKey(cfg.ns, cfg.suffix, n) in s.stored
    {
      assert RunSound(cfg, Known(s), n, s.status.checkRuns[n]);
    }
  }

  /** A recommendation was made from the runs that were filed, and no condition, recording, runner or entry has been
      added. */
  ghost predicate RecommendedWithoutChecks(s: State, t: State, spec: PodSpec) {
    && t.status.conditions == s.status.conditions && t.stored == s.stored && t.runners == s.runners
    && t.status.checkRuns.Keys == s.status.checkRuns.Keys
    && exists order ::
         ContextsOf(t.status.checkRuns, order) && t.status.recommendation == Some(Recommend(spec, order))
  }

  // ---------- If an absent recording is an error, the baselines must be stored ----------

  /** A recommendation, and the places that lead to one. */
  predicate NearRecommendation(s: State) {
    || s.status.recommendation.Some?
    || (s.pass.Some? && (s.pass.value.pc.FileAnalysis? || s.pass.value.pc.Recommends?))
  }

  lemma GoodAnalysisHasBaselines(cfg: Config, s: State, e: PassEvent)
    requires s.pass.Some? && e.Judges? && CanJudge(cfg, s, e) && AnswersWith(OfPass(e), Lookup.Failed)
    requires !e.result.Error?
    ensures HasBaselines(cfg, s.stored)
  {
    var keys := BaselineKeys(cfg.ns, cfg.suffix, cfg.reference);
    assert BaselinesLoad(keys, e.get);
    forall key | key in keys ensures key in s.stored {
      var i :| 0 <= i < |keys| && keys[i] == key;
      assert e.get(keys[i]).Found?;
    }
  }

  lemma NearStep(cfg: Config, s: State, e: Event)
    requires Enabled(cfg, s, e) && AnswersWith(e, Lookup.Failed) && NearRecommendation(Next(cfg, s, e))
    ensures NearRecommendation(s) || HasBaselines(cfg, s.stored)
  {
    if s.status.recommendation != Next(cfg, s, e).status.recommendation {
      OnlyRecommends(cfg, s, e);
    } else {
      match e
      case OfPass(step) =>
        if step.Judges? {
          if !step.result.Error? { GoodAnalysisHasBaselines(cfg, s, step); }
        } else {
          OnlyJudgesReads(cfg, s, NOTHING, step);
        }
      case OfRunner(t, act) => RunnersStay(cfg, s, t, act);
      case _ =>
    }
  }

  /** Then there is no recommendation without all baselines. */
  lemma {:induction false} RecommendationNeedsBaselines(cfg: Config, stored: map<string, Manager.Recording>,
                                                        events: seq<Event>)
    requires Possible(cfg, Initial(stored), events) && forall e | e in events :: AnswersWith(e, Lookup.Failed)
    requires NearRecommendation(After(cfg, Initial(stored), events))
    ensures HasBaselines(cfg, After(cfg, Initial(stored), events).stored)
    decreases |events|
  {
    if events != [] {
      var s, e := After(cfg, Initial(stored), Front(events)), Last(events);
      LastStep(cfg, Initial(stored), events);
      NearStep(cfg, s, e);
      FactsGrow(cfg, s, e);
      if !HasBaselines(cfg, s.stored) { RecommendationNeedsBaselines(cfg, stored, Front(events)); }
    }
  }

  // ---------- A resource with two required checks ----------

  const CONFIG := Config("ns", "suffix", ["reference"], None, true)

  /** Two checks are required for this workload. */
  const BOTH := PodSpec(None, [], [])

  /** Its template may change: here a group is set, there a user. */
  const USER_ONLY := PodSpec(Some(NO_POD_CONTEXT.(runAsGroup := Some(1), fsGroup := Some(1))), [], [])
  const GROUP_ONLY := PodSpec(Some(NO_POD_CONTEXT.(runAsUser := Some(1), runAsNonRoot := Some(true))), [], [])

  lemma RequiredChecks()
    ensures Required(Some(BOTH)) == {User, Group} && Required(Some(USER_ONLY)) == {User}
            && Required(Some(GROUP_ONLY)) == {Group}
  {
  }

  const BEFORE: map<string, Manager.Recording> := map["reference" := RECORDING]

  const ACCEPTED := NO_STATUS.(conditions := map[BaselineCondition := Condition(True, Finished)])

  function FromStart(): Route { Route(CONFIG, Initial(BEFORE), true, Lookup.Failed) }

  lemma LeadsToReachable(t: State)
    requires Leads(FromStart(), t)
    ensures Reachable(CONFIG, t)
  {
  }

  /** The first pass accepts the baselines. */
  lemma PassAcceptsBaseline()
    ensures Leads(FromStart(), State(ACCEPTED, BEFORE, map[], Some(Pass(FileBaselines, NO_STATUS, ACCEPTED)), false))
  {
    var r, s := FromStart(), Initial(BEFORE);
    var p := AtStart(s);
    Stays(r);
    ToAskBaseline(r, s);
    ToAcceptBaseline(r, s, p);
    SetsStored(r, s, p.(pc := AcceptBaseline), BaselineCondition, Condition(True, Finished), FileBaselines);
    assert SetCondition(NO_STATUS, BaselineCondition, Condition(True, Finished)) == ACCEPTED;
  }

  lemma BaselineIsAccepted()
    ensures Leads(FromStart(), State(ACCEPTED, BEFORE, map[], None, false))
  {
    PassAcceptsBaseline();
    Takes(FromStart(), State(ACCEPTED, BEFORE, map[], Some(Pass(FileBaselines, NO_STATUS, ACCEPTED)), false), Restart);
  }

  /** A check that is required is not recorded, its recording is not stored, and no run of it was ever submitted; but
      there is a recommendation. */
  lemma RecommendationWithoutChecks()
    ensures exists s :: Reachable(CONFIG, s) && s.status.recommendation.Some? && User in Required(Some(BOTH))
                     && Key(CONFIG, Check(User)) !in s.stored && CheckCondition(User) !in s.status.conditions
                     && s.runners == map[]
  {
    var r := FromStart();
    BaselineIsAccepted();
    RequiredChecks();
    var s := State(ACCEPTED, BEFORE, map[], None, false);
    ToAnalysis(r, s, None);
    RecommendsOwn(r, s, None, BOTH);
    var st := ACCEPTED.(recommendation := Some(Recommend(BOTH, [])));
    LeadsToReachable(s.(status := st, pass := Some(Pass(FinishAnalysis, ACCEPTED, st))));
    assert |Key(CONFIG, Check(User))| != |"reference"|;
  }

  // ---------- Both checks run ----------

  const USER_CONTEXT := Some(WithDefaults(User, UNSET))
  const GROUP_CONTEXT := Some(WithDefaults(Group, UNSET))

  function Runners(user: Phase, group: Phase): map<CheckType, Runner> {
    map[Check(User) := Runner(user, USER_CONTEXT), Check(Group) := Runner(group, GROUP_CONTEXT)]
  }

  lemma PassReachesChecks()
    ensures Leads(FromStart(),
                  State(ACCEPTED, BEFORE, map[], Some(Pass(NextCheck({User, Group}), NO_STATUS, ACCEPTED)), false))
  {
    var r, s, p := FromStart(), State(ACCEPTED, BEFORE, map[], None, false), Pass(FileBaselines, NO_STATUS, ACCEPTED);
    PassAcceptsBaseline();
    RequiredChecks();
    Takes(r, InPass(s, p, FileBaselines), OfPass(FilesBaselines(Unread)));
    ToRecordChecks(r, s, p);
    ToRequired(r, s, p, Some(BOTH), ToRecord);
    ToSubmission(r, s, p, Some(BOTH), User);
    ToNextCheck(r, s, p, Some(BOTH));
  }

  lemma ContextsFit()
    ensures FitsCheck(CONFIG, User, USER_CONTEXT) && FitsCheck(CONFIG, Group, GROUP_CONTEXT)
  {
  }

  const USER_STARTED: map<CheckType, Runner> := map[Check(User) := Runner(Phase.Starting, USER_CONTEXT)]

  lemma UserStarts()
    ensures Leads(FromStart(),
                  State(ACCEPTED, BEFORE, USER_STARTED, Some(Pass(NextCheck({Group}), NO_STATUS, ACCEPTED)), false))
  {
    var r, s, p := FromStart(), State(ACCEPTED, BEFORE, map[], None, false), Pass(Begun, NO_STATUS, ACCEPTED);
    PassReachesChecks();
    ContextsFit();
    SubmitsCheck(r, s, p, {User, Group}, User, USER_CONTEXT);
    assert {User, Group} - {User} == {Group};
    assert s.runners[Check(User) := Runner(Phase.Starting, USER_CONTEXT)] == USER_STARTED;
  }

  lemma ChecksStart()
    ensures Leads(FromStart(), State(ACCEPTED, BEFORE, Runners(Phase.Starting, Phase.Starting), None, false))
  {
    var r, s, p := FromStart(), State(ACCEPTED, BEFORE, USER_STARTED, None, false), Pass(Begun, NO_STATUS, ACCEPTED);
    UserStarts();
    ContextsFit();
    SubmitsCheck(r, s, p, {Group}, Group, GROUP_CONTEXT);
    var started := s.(runners := Runners(Phase.Starting, Phase.Starting));
    assert s.runners[Check(Group) := Runner(Phase.Starting, GROUP_CONTEXT)] == started.runners
           && {Group} - {Group} == {};
    ReturnsAfterChecks(r, started, p);
  }

  function Recordings(): map<string, Manager.Recording> {
    BEFORE[Key(CONFIG, Check(User)) := RECORDING][Key(CONFIG, Check(Group)) := RECORDING]
  }

  lemma ChecksAreStored()
    ensures Leads(FromStart(), State(ACCEPTED, Recordings(), Runners(Publishing(true), Publishing(true)), None, false))
  {
    var r := FromStart();
    ChecksStart();
    var s := State(ACCEPTED, BEFORE, Runners(Phase.Starting, Phase.Starting), None, false);
    assert s.runners[Check(User) := Runner(Phase.Starting, USER_CONTEXT)] == s.runners;
    RunnerStores(r, s, Check(User), USER_CONTEXT);
    var s1 := WithRecording(CONFIG, s, Check(User), USER_CONTEXT);
    assert s1.runners[Check(Group) := Runner(Phase.Starting, GROUP_CONTEXT)] == s1.runners;
    RunnerStores(r, s1, Check(Group), GROUP_CONTEXT);
    assert WithRecording(CONFIG, s1, Check(Group), GROUP_CONTEXT).runners ==
           Runners(Publishing(true), Publishing(true));
  }

  const PUBLISHED := SetCondition(ACCEPTED, CheckCondition(User), Condition(True, Finished))

  /** The user check is recorded; its entry is still to be filed. */
  function UserFiling(): State { State(PUBLISHED, Recordings(), Runners(Filing(true), Publishing(true)), None, false) }

  lemma UserIsFiling()
    ensures Leads(FromStart(), UserFiling())
  {
    ChecksAreStored();
    var s := State(ACCEPTED, Recordings(), Runners(Publishing(true), Publishing(true)), None, false);
    RunnerPublishes(FromStart(), s, User, USER_CONTEXT);
    assert Published(s, User, USER_CONTEXT) == UserFiling();
  }

  // ---------- One careless step, and a recommendation misses a check ----------

  const OWN := Recommend(USER_ONLY, [])

  /** The only required check is recorded and successful, but the recommendation is what the workload had already. */
  ghost predicate MissesUser(s: State) {
    && s.status.recommendation == Some(OWN) && OWN != Recommend(USER_ONLY, [USER_CONTEXT.value])
    && Required(Some(USER_ONLY)) == {User} && Recorded(s.status, CheckCondition(User))
    && Key(CONFIG, Check(User)) in s.stored
  }

  /** A run that is careful but for one step, after which it misses the check. */
  ghost predicate MissesAfter(s: State, e: Event) {
    && Leads(FromStart(), s) && Enabled(CONFIG, s, e)
    && exists t :: Leads(Route(CONFIG, Next(CONFIG, s, e), true, Lookup.Failed), t) && MissesUser(t)
  }

  lemma OwnDiffers()
    ensures OWN != Recommend(USER_ONLY, [USER_CONTEXT.value])
  {
    FoldStep(Original(USER_ONLY), [], USER_CONTEXT.value);
    assert [USER_CONTEXT.value] + [] == [USER_CONTEXT.value];
    assert Recommend(USER_ONLY, [USER_CONTEXT.value]).pod.value.runAsUser == Some(DEFAULT_USER);
  }

  /** The next pass finds the check recorded, reads no entry, and recommends. */
  lemma NextPassMisses(s: State)
    requires s.status == PUBLISHED && s.stored == Recordings() && s.pass.None? && Quiet(s.runners)
    ensures exists t :: Leads(Route(CONFIG, s, true, Lookup.Failed), t) && MissesUser(t)
  {
    var r := Route(CONFIG, s, true, Lookup.Failed);
    RequiredChecks();
    OwnDiffers();
    Stays(r);
    ToAnalysis(r, s, Some(USER_ONLY));
    RecommendsOwn(r, s, Some(USER_ONLY), USER_ONLY);
    var st := PUBLISHED.(recommendation := Some(OWN));
    var t := s.(status := st, pass := Some(Pass(FinishAnalysis, PUBLISHED, st)));
    assert Leads(r, t) && MissesUser(t);
  }

  /** Filing the entry fails. */
  lemma FailedFilingMisses()
    ensures exists s, run ::
              var e := OfRunner(Check(User), Files(run, Unread));
              DropsEntry(s, e, User) && MissesAfter(s, e)
  {
    UserIsFiling();
    var s, run := UserFiling(), Entry(User, USER_CONTEXT);
    var e := OfRunner(Check(User), Files(run, Unread));
    NextPassMisses(Next(CONFIG, s, e));
    assert DropsEntry(s, e, User) && MissesAfter(s, e);
  }

  /** The runner ends before it files the entry. */
  lemma EndedRunnerMisses()
    ensures exists s :: var e := OfRunner(Check(User), Ends); DropsEntry(s, e, User) && MissesAfter(s, e)
  {
    UserIsFiling();
    var s, e := UserFiling(), OfRunner(Check(User), Ends);
    NextPassMisses(Next(CONFIG, s, e));
    assert DropsEntry(s, e, User) && MissesAfter(s, e);
  }

  /** The operator restarts before the entry is filed. */
  lemma RestartMisses()
    ensures exists s :: DropsEntry(s, Restart, User) && MissesAfter(s, Restart)
  {
    UserIsFiling();
    var s := UserFiling();
    assert Check(User) in s.runners && s.runners[Check(User)].phase.Filing?;
    NextPassMisses(Next(CONFIG, s, Restart));
    assert DropsEntry(s, Restart, User) && MissesAfter(s, Restart);
  }

  function ReadsEarly(): State { InPass(UserFiling(), AtStart(UserFiling()), Analyze(Some(USER_ONLY))) }

  lemma ReachesEarly()
    ensures Leads(FromStart(), ReadsEarly())
  {
    UserIsFiling();
    RequiredChecks();
    ToAnalysis(FromStart(), UserFiling(), Some(USER_ONLY));
  }

  lemma EarlyReading(e: Event)
    requires e == OfPass(Judges(Skipped, Answers(Recordings(), Lookup.Failed), Approves()))
    ensures Enabled(CONFIG, ReadsEarly(), e) && !DropsEntry(ReadsEarly(), e, User) && CarelessFor(ReadsEarly(), e, User)
    ensures Next(CONFIG, ReadsEarly(), e) == InPass(UserFiling(), AtStart(UserFiling()), Recommends(Some(USER_ONLY)))
  {
    SkipsWithout(CONFIG, map[], Recordings(), Lookup.Failed);
    assert Check(User) in UserFiling().runners && UserFiling().runners[Check(User)].phase.Filing?;
  }

  lemma MissesAfterReading(read: State)
    requires read == InPass(UserFiling(), AtStart(UserFiling()), Recommends(Some(USER_ONLY)))
    ensures exists t :: Leads(Route(CONFIG, read, true, Lookup.Failed), t) && MissesUser(t)
  {
    var r := Route(CONFIG, read, true, Lookup.Failed);
    RequiredChecks();
    OwnDiffers();
    Stays(r);
    FilesMerged(r, UserFiling(), Some(USER_ONLY), USER_ONLY, [], Stored);
    var t := Next(CONFIG, read, OfPass(FilesRecommendation(Stored, Some(USER_ONLY), [])));
    assert Leads(r, t) && MissesUser(t);
  }

  /** The analysis reads the entries while the runner is about to file one. */
  lemma EarlyReadingMisses()
    ensures exists s, get, judge ::
              var e := OfPass(Judges(Skipped, get, judge));
              !DropsEntry(s, e, User) && CarelessFor(s, e, User) && MissesAfter(s, e)
  {
    var e := OfPass(Judges(Skipped, Answers(Recordings(), Lookup.Failed), Approves()));
    ReachesEarly();
    EarlyReading(e);
    MissesAfterReading(Next(CONFIG, ReadsEarly(), e));
    assert !DropsEntry(ReadsEarly(), e, User) && CarelessFor(ReadsEarly(), e, User) && MissesAfter(ReadsEarly(), e);
  }

  /** So a recommendation can be made without a check that is recorded and successful, whose entry its runner is still
      to file. */
  lemma RecommendationCanMissARun()
    ensures exists s ::
              && Reachable(CONFIG, s) && MissesUser(s)
              && s.runners == Runners(Filing(true), Publishing(true)) && s.status.checkRuns == map[]
  {
    var r, s := FromStart().(careful := false), UserFiling();
    ReachesEarly();
    LeadsCarelessly(FromStart(), ReadsEarly());
    RequiredChecks();
    OwnDiffers();
    RecommendsOwn(r, s, Some(USER_ONLY), USER_ONLY);
    var st := PUBLISHED.(recommendation := Some(OWN));
    var t := s.(status := st, pass := Some(Pass(FinishAnalysis, PUBLISHED, st)));
    assert Reachable(CONFIG, t) && MissesUser(t);
  }

  // ---------- The analysis overwrites an entry ----------

  const USER_ENTRIES: CheckRuns := map[KindName(User) := Entry(User, USER_CONTEXT)]

  const USER_DONE := PUBLISHED.(checkRuns := USER_ENTRIES)

  /** The user check is done, the group check is about to publish. */
  function UserFiled(): State { State(USER_DONE, Recordings(), Runners(Leaving, Publishing(true)), None, false) }

  lemma UserIsFiled()
    ensures Leads(FromStart(), UserFiled())
  {
    UserIsFiling();
    RunnerFiles(FromStart(), UserFiling(), User, USER_CONTEXT);
    assert WithEntry(UserFiling(), User, USER_CONTEXT) == UserFiled();
  }

  lemma EntriesApprovable()
    ensures AllSuccessful(CONFIG, USER_ENTRIES, Recordings())
    ensures HasBaselines(CONFIG, Recordings())
    ensures ContextsOf(USER_ENTRIES, [USER_CONTEXT.value])
  {
    KindNameIsNoBaseline(User);
    assert KindName(User) in USER_ENTRIES && Accepted(USER_ENTRIES[KindName(User)]);
    assert USER_ENTRIES[KindName(User)].securityContext == Some(USER_CONTEXT.value)
           && USER_CONTEXT.value in [USER_CONTEXT.value];
  }

  const ANALYSED := Pass(FileAnalysis(USER_ENTRIES, Some(USER_ONLY)), USER_DONE, USER_DONE)

  lemma PassJudges()
    ensures Leads(FromStart(), UserFiled().(pass := Some(ANALYSED)))
  {
    UserIsFiled();
    RequiredChecks();
    EntriesApprovable();
    ToAnalysis(FromStart(), UserFiled(), Some(USER_ONLY));
    JudgesAll(FromStart(), UserFiled(), Some(USER_ONLY));
  }

  const GROUP_PUBLISHED := SetCondition(USER_DONE, CheckCondition(Group), Condition(True, Finished))

  const BOTH_DONE := GROUP_PUBLISHED.(checkRuns := USER_ENTRIES[KindName(Group) := Entry(Group, GROUP_CONTEXT)])

  /** Meanwhile the group check is published and filed. */
  function BothFiled(): State { State(BOTH_DONE, Recordings(), Runners(Leaving, Leaving), Some(ANALYSED), false) }

  lemma GroupIsFiled()
    ensures Leads(FromStart(), BothFiled())
  {
    var r, s := FromStart(), UserFiled().(pass := Some(ANALYSED));
    PassJudges();
    RunnerPublishes(r, s, Group, GROUP_CONTEXT);
    var published := State(GROUP_PUBLISHED, Recordings(), Runners(Leaving, Filing(true)), Some(ANALYSED), false);
    assert Published(s, Group, GROUP_CONTEXT) == published;
    RunnerFiles(r, published, Group, GROUP_CONTEXT);
    assert WithEntry(published, Group, GROUP_CONTEXT).runners == Runners(Leaving, Leaving);
  }

  /** The group check is required, recorded and successful, but its context is not merged, and its entry is gone. */
  ghost predicate MissesGroup(s: State) {
    && s.status.recommendation == Some(Recommend(GROUP_ONLY, [USER_CONTEXT.value]))
    && Recommend(GROUP_ONLY, [USER_CONTEXT.value]) != Recommend(GROUP_ONLY, [USER_CONTEXT.value, GROUP_CONTEXT.value])
    && Required(Some(GROUP_ONLY)) == {Group} && Recorded(s.status, CheckCondition(Group))
    && Key(CONFIG, Check(Group)) in s.stored
    && KindName(Group) !in s.status.checkRuns && s.runners == map[]
  }

  lemma GroupMatters()
    ensures Recommend(GROUP_ONLY, [USER_CONTEXT.value]) !=
            Recommend(GROUP_ONLY, [USER_CONTEXT.value, GROUP_CONTEXT.value])
  {
    var own, u, g := Original(GROUP_ONLY), USER_CONTEXT.value, GROUP_CONTEXT.value;
    FoldEnd(own, [], u);
    FoldEnd(own, [u], g);
    assert [] + [u] == [u] && [u] + [g] == [u, g];
    ExtendFields(own, u, PodGroup);
    ExtendFields(Extend(own, u), g, PodGroup);
    assert Fold(own, [u]).pod.runAsGroup == None;
    assert Fold(own, [u, g]).pod.runAsGroup == Some(DEFAULT_USER);
    assert Recommend(GROUP_ONLY, [u]).pod.value.runAsGroup != Recommend(GROUP_ONLY, [u, g]).pod.value.runAsGroup;
  }

  const OVERWRITTEN := GROUP_PUBLISHED

  function Idle(): State { State(OVERWRITTEN, Recordings(), map[], None, false) }

  lemma GroupAnalysed(r: Route)
    requires r.cfg == CONFIG && Leads(r, Idle()) && !r.absent.Found?
    ensures Leads(r, InPass(Idle(), AtStart(Idle()), FileAnalysis(USER_ENTRIES, Some(GROUP_ONLY))))
  {
    RequiredChecks();
    EntriesApprovable();
    ToAnalysis(r, Idle(), Some(GROUP_ONLY));
    JudgesAll(r, Idle(), Some(GROUP_ONLY));
  }

  const GROUP_MISSED := OVERWRITTEN.(recommendation := Some(Recommend(GROUP_ONLY, [USER_CONTEXT.value])))

  lemma NextPassMissesGroup(s: State)
    requires s == State(OVERWRITTEN, Recordings(), Runners(Leaving, Leaving), s.pass, false)
    ensures exists t :: Leads(Route(CONFIG, s, true, Lookup.Failed), t) && MissesGroup(t)
  {
    var r := Route(CONFIG, s, true, Lookup.Failed);
    Stays(r);
    Takes(r, s, Restart);
    GroupAnalysed(r);
    EntriesApprovable();
    RecommendsEntries(r, Idle(), Some(GROUP_ONLY), USER_ENTRIES, GROUP_ONLY, [USER_CONTEXT.value]);
    var t := Idle().(status := GROUP_MISSED, pass := Some(Pass(FinishAnalysis, OVERWRITTEN, GROUP_MISSED)));
    GroupIsMissed(t);
    assert Leads(r, t) && MissesGroup(t);
  }

  lemma GroupIsMissed(t: State)
    requires t.status == GROUP_MISSED && t.stored == Recordings() && t.runners == map[]
    ensures MissesGroup(t)
  {
    RequiredChecks();
    GroupMatters();
    assert KindName(Group) != KindName(User) by { assert KindName(Group)[0] != KindName(User)[0]; }
  }

  /** The analysis writes back the entries that it read before another one was filed. */
  lemma LostUpdateMisses()
    ensures exists s :: var e := OfPass(FilesAnalysis(Stored));
              && Leads(FromStart(), s) && Enabled(CONFIG, s, e) && DropsEntry(s, e, Group)
              && exists t :: Leads(Route(CONFIG, Next(CONFIG, s, e), true, Lookup.Failed), t) && MissesGroup(t)
  {
    GroupIsFiled();
    var s, e := BothFiled(), OfPass(FilesAnalysis(Stored));
    assert KindName(Group) in s.status.checkRuns && KindName(Group) !in USER_ENTRIES;
    assert BOTH_DONE.(checkRuns := USER_ENTRIES) == OVERWRITTEN;
    NextPassMissesGroup(Next(CONFIG, s, e));
    assert DropsEntry(s, e, Group);
  }

  // ---------- A lost recommendation ----------

  /** The update that should store the first recommendation has just failed. */
  predicate JustLost(s: State) {
    && s.lost && s.status.recommendation.None? && FinalCondition !in s.status.conditions
    && s.pass.Some? && s.pass.value.pc.FinishAnalysis? && s.pass.value.view.recommendation.Some?
    && FinalCondition !in s.pass.value.started.conditions && FinalCondition !in s.pass.value.view.conditions
  }

  /** That is the state after the first loss. */
  lemma FirstLossIsJustLost(cfg: Config, s: State, e: Event)
    requires Reachable(cfg, s) && Enabled(cfg, s, e) && LosesRecommendation(e)
    requires !s.lost && s.status.recommendation.None?
    ensures JustLost(Next(cfg, s, e))
  {
    ReachableInv(cfg, s);
  }

  /** So every first loss of a first recommendation can lead to a FinalCheck condition without a recommendation. */
  lemma EveryFirstLossCanShow(cfg: Config, s: State, e: Event)
    requires Reachable(cfg, s) && Enabled(cfg, s, e) && LosesRecommendation(e)
    requires !s.lost && s.status.recommendation.None?
    ensures exists events :: Possible(cfg, s, events) && FinalCondition in After(cfg, s, events).status.conditions
                          && After(cfg, s, events).status.recommendation.None?
  {
    FirstLossIsJustLost(cfg, s, e);
    LostRecommendationShows(cfg, Next(cfg, s, e));
    var next := Next(cfg, s, e);
    var events :| Possible(cfg, next, events) && FinalCondition in After(cfg, next, events).status.conditions
                  && After(cfg, next, events).status.recommendation.None?;
    assert ([e] + events)[1..] == events;
    assert Possible(cfg, s, [e] + events) && After(cfg, s, [e] + events) == After(cfg, next, events);
  }

  lemma {:induction false} ListOfAny(s: set<Capability>) returns (list: seq<Capability>)
    ensures Members(list) == s
    decreases |s|
  {
    if s == {} {
      list := [];
    } else {
      var c :| c in s;
      var rest := ListOfAny(s - {c});
      list := [c] + rest;
      assert Members(list) == {c} + Members(rest);
    }
  }

  lemma SomeProjection(rec: Recommended) returns (d: Defaults)
    ensures Projects(rec, d)
  {
    var drop := ListOfAny(if rec.container.None? then {} else Dropped(rec.container.value.capabilities));
    d := Defaults(Some(PodProjection(rec.pod)), Some(ContainerProjection(rec.container, drop)));
  }

  lemma FinalRunStarts(r: Route, s: State)
    requires Leads(r, s) && JustLost(s) && Final !in s.runners
    ensures exists t ::
              && Leads(r, t) && t.status == s.status && Final in t.runners
              && t.runners[Final].phase == Phase.Starting
  {
    var p := s.pass.value;
    assert InPass(s, p, FinishAnalysis) == s;
    ToSubmitFinal(r, s, p);
    var d := SomeProjection(p.view.recommendation.value);
    var at := InPass(s, p, SubmitFinal(false));
    Takes(r, at, OfPass(SubmitsWith(Some(d))));
    var t := Next(r.cfg, at, OfPass(SubmitsWith(Some(d))));
    assert t.status == s.status && Final in t.runners && t.runners[Final].phase == Phase.Starting;
  }

  /** From every state in which a first recommendation was just lost and no final condition exists, some continuation
      leads to a FinalCheck condition without a recommendation. */
  lemma LostRecommendationShows(cfg: Config, s: State)
    requires JustLost(s)
    ensures exists events :: Possible(cfg, s, events) && FinalCondition in After(cfg, s, events).status.conditions
                          && After(cfg, s, events).status.recommendation.None?
  {
    var r := Route(cfg, s, false, Lookup.Failed);
    Stays(r);
    var s1 := s.(runners := s.runners - {Final});
    if Final in s.runners { Takes(r, s, OfRunner(Final, Ends)); } else { assert s1.runners == s.runners; }
    FinalRunStarts(r, s1);
    var t :| Leads(r, t) && t.status == s1.status && Final in t.runners && t.runners[Final].phase == Phase.Starting;
    var e := OfRunner(Final, Publishes(Stored));
    Takes(r, t, e);
    var events :| Possible(cfg, s, events) && Next(cfg, t, e) == After(cfg, s, events);
    assert FinalCondition in After(cfg, s, events).status.conditions;
  }

  lemma LosesOwn(s: State)
    requires s == State(ACCEPTED, BEFORE, map[], None, false) && Leads(FromStart(), s)
    ensures exists t :: Leads(FromStart(), t) && JustLost(t)
  {
    var r := FromStart();
    ToAnalysis(r, s, None);
    SkipsAnalysis(r, s, None);
    FilesMerged(r, s, None, BOTH, [], Unstored);
    var t := Next(CONFIG, InPass(s, AtStart(s), Recommends(None)),
                  OfPass(FilesRecommendation(Unstored, Some(BOTH), [])));
    assert JustLost(t);
  }

  /** Such a state is reachable, so after a lost recommendation a FinalCheck condition can exist without one. */
  lemma FinalCheckWithoutRecommendation()
    ensures exists s :: Reachable(CONFIG, s) && JustLost(s)
    ensures exists s :: Reachable(CONFIG, s) && FinalCondition in s.status.conditions && s.status.recommendation.None?
  {
    var r := FromStart();
    BaselineIsAccepted();
    LosesOwn(State(ACCEPTED, BEFORE, map[], None, false));
    var s :| Leads(r, s) && JustLost(s);
    LeadsToReachable(s);
    LostRecommendationShows(CONFIG, s);
    var events :| Possible(CONFIG, s, events) && FinalCondition in After(CONFIG, s, events).status.conditions
                  && After(CONFIG, s, events).status.recommendation.None?;
    ReachableOn(CONFIG, s, events);
  }

  lemma {:induction false} ReachableOn(cfg: Config, s: State, events: seq<Event>)
    requires Reachable(cfg, s) && Possible(cfg, s, events)
    ensures Reachable(cfg, After(cfg, s, events))
    decreases |events|
  {
    if events != [] {
      var stored, before :| Possible(cfg, Initial(stored), before) && s == After(cfg, Initial(stored), before);
      AfterOneMore(cfg, Initial(stored), before, events[0]);
      ReachableOn(cfg, Next(cfg, s, events[0]), events[1..]);
    }
  }
}
