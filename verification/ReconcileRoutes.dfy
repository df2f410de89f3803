/** Pieces of runs, from which the runs that show what is not guaranteed are put together. */
module ReconcileRoutes {
  import opened Options
  import opened SecurityContexts
  import opened Checks
  import opened Recommendation
  import opened FinalRun
  import opened Manager
  import opened ReconcileProtocol
  import opened ReconcileHistory
  import opened ReconcileEntries

  /** Some check is treated carelessly. */
  ghost predicate Careless(s: State, e: Event) { exists k :: CarelessFor(s, e, k) }

  /** No check is about to file its entry. */
  ghost predicate Quiet(runners: map<CheckType, Runner>) { forall k :: !IsFiling(runners, k) }

  /** Asking for a recording that is not stored, or cannot be read, answers `absent`. */
  ghost predicate AnswersWith(e: Event, absent: Lookup) {
    e.OfPass? && e.step.Judges? ==> forall key :: e.step.get(key).Found? || e.step.get(key) == absent
  }

  /** Where a run starts, whether it has to be careful for all checks, and what is answered for absent recordings. */
  datatype Route = Route(cfg: Config, origin: State, careful: bool, absent: Lookup)

  ghost predicate Heeds(r: Route, s: State, e: Event) { (r.careful ==> !Careless(s, e)) && AnswersWith(e, r.absent) }

  ghost predicate AllHeed(r: Route, events: seq<Event>)
    decreases |events|
  {
    events == [] ||
    (AllHeed(r, Front(events)) && Heeds(r, After(r.cfg, r.origin, Front(events)), Last(events)))
  }

  ghost predicate Leads(r: Route, t: State) {
    exists events :: Possible(r.cfg, r.origin, events) && AllHeed(r, events) && t == After(r.cfg, r.origin, events)
  }

  lemma Stays(r: Route)
    ensures Leads(r, r.origin)
  {
    assert Possible(r.cfg, r.origin, []) && AllHeed(r, []) && r.origin == After(r.cfg, r.origin, []);
  }

  lemma {:induction false} AfterOneMore(cfg: Config, s: State, events: seq<Event>, e: Event)
    requires Possible(cfg, s, events) && Enabled(cfg, After(cfg, s, events), e)
    ensures Possible(cfg, s, events + [e]) && After(cfg, s, events + [e]) == Next(cfg, After(cfg, s, events), e)
    decreases |events|
  {
    if events == [] {
      assert ([] + [e])[1..] == [];
      assert Possible(cfg, Next(cfg, s, e), []);
    } else {
      AfterOneMore(cfg, Next(cfg, s, events[0]), events[1..], e);
      assert (events + [e])[1..] == events[1..] + [e];
    }
  }

  lemma Takes(r: Route, s: State, e: Event)
    requires Leads(r, s) && Enabled(r.cfg, s, e) && Heeds(r, s, e)
    ensures Leads(r, Next(r.cfg, s, e))
  {
    var events :| Possible(r.cfg, r.origin, events) && AllHeed(r, events) && s == After(r.cfg, r.origin, events);
    AfterOneMore(r.cfg, r.origin, events, e);
    assert Front(events + [e]) == events && Last(events + [e]) == e;
    assert AllHeed(r, events + [e]);
  }

  lemma {:induction false} NeedNotBeCareful(r: Route, events: seq<Event>)
    requires AllHeed(r, events)
    ensures AllHeed(r.(careful := false), events)
    decreases |events|
  {
    if events != [] { NeedNotBeCareful(r, Front(events)); }
  }

  lemma LeadsCarelessly(r: Route, t: State)
    requires Leads(r, t)
    ensures Leads(r.(careful := false), t)
  {
    var events :| Possible(r.cfg, r.origin, events) && AllHeed(r, events) && t == After(r.cfg, r.origin, events);
    NeedNotBeCareful(r, events);
  }

  // ---------- Single steps of a pass ----------

  function InPass(s: State, p: Pass, pc: Pc): State { s.(pass := Some(p.(pc := pc))) }

  function AtStart(s: State): Pass { Pass(Begun, s.status, s.status) }

  lemma Begins(r: Route, s: State)
    requires Leads(r, s) && s.pass.None?
    ensures Leads(r, InPass(s, AtStart(s), Begun))
  {
    Takes(r, s, Begin);
  }

  lemma Goes(r: Route, s: State, p: Pass, next: Pc)
    requires Leads(r, InPass(s, p, p.pc)) && Branches(r.cfg, p, s.runners.Keys, next)
    ensures Leads(r, InPass(s, p, next))
  {
    Takes(r, InPass(s, p, p.pc), OfPass(BranchesTo(next)));
  }

  lemma GoesFinal(r: Route, s: State, p: Pass, next: Pc)
    requires Leads(r, InPass(s, p, p.pc)) && FinalBranches(p, s.runners.Keys, next)
    ensures Leads(r, InPass(s, p, next))
  {
    Goes(r, s, p, next);
  }

  lemma GoesAsking(r: Route, s: State, p: Pass, next: Pc)
    requires Leads(r, InPass(s, p, p.pc)) && AsksForChecks(p, next)
    ensures Leads(r, InPass(s, p, next))
  {
    Goes(r, s, p, next);
  }

  lemma GoesRecording(r: Route, s: State, p: Pass, next: Pc)
    requires Leads(r, InPass(s, p, p.pc)) && RecordingBranches(r.cfg, p, s.runners.Keys, next)
    ensures Leads(r, InPass(s, p, next))
  {
    Goes(r, s, p, next);
  }

  /** The condition cannot be stored. */
  lemma SetsUnread(r: Route, s: State, p: Pass, next: Pc)
    requires Leads(r, InPass(s, p, p.pc)) && PassSets(p.pc, Unread).Some?
             && PassSets(p.pc, Unread).value.2 == Some(next)
    ensures Leads(r, InPass(s, p, next))
  {
    Takes(r, InPass(s, p, p.pc), OfPass(PassEvent.SetsCondition(Unread)));
  }

  lemma SetsStored(r: Route, s: State, p: Pass, c: ConditionType, v: Condition, next: Pc)
    requires Leads(r, InPass(s, p, p.pc)) && PassSets(p.pc, Stored) == Some((c, v, Some(next)))
    ensures var st := SetCondition(s.status, c, v); Leads(r, s.(status := st, pass := Some(Pass(next, p.started, st))))
  {
    Takes(r, InPass(s, p, p.pc), OfPass(PassEvent.SetsCondition(Stored)));
  }

  // ---------- Parts of a pass ----------

  lemma ToAskBaseline(r: Route, s: State)
    requires Leads(r, s) && s.pass.None? && !Is(s.status, FinishedCondition, True) && s.status.recommendation.None?
    ensures Leads(r, InPass(s, AtStart(s), AskBaseline(ToAnalyze)))
  {
    var p := AtStart(s);
    Begins(r, s);
    GoesFinal(r, s, p, FinalDone);
    GoesFinal(r, s, p.(pc := FinalDone), AskBaseline(ToAnalyze));
  }

  lemma ToFinalMissing(r: Route, s: State, p: Pass)
    requires Leads(r, InPass(s, p, FinalRetry)) && FinalCondition !in p.started.conditions
             && FinalCondition !in p.view.conditions
    ensures Leads(r, InPass(s, p, FinalMissing))
  {
    GoesFinal(r, s, p.(pc := FinalRetry), FinalRunning);
    GoesFinal(r, s, p.(pc := FinalRunning), FinalMissing);
  }

  lemma ToBaselineGiven(r: Route, s: State, p: Pass)
    requires Leads(r, InPass(s, p, FinalMissing)) && p.view.recommendation.None?
             && BaselineCondition !in p.view.conditions
    ensures Leads(r, InPass(s, p, BaselineGiven))
  {
    GoesFinal(r, s, p.(pc := FinalMissing), BaselineRunning);
    GoesRecording(r, s, p.(pc := BaselineRunning), BaselineGiven);
  }

  lemma ToAcceptBaseline(r: Route, s: State, p: Pass)
    requires Leads(r, InPass(s, p, AskBaseline(ToAnalyze))) && p.view.conditions == map[]
             && p.started.conditions == map[]
    requires p.view.recommendation.None? && |r.cfg.reference| > 0
    ensures Leads(r, InPass(s, p, AcceptBaseline))
  {
    GoesAsking(r, s, p.(pc := AskBaseline(ToAnalyze)), FinalRetry);
    ToFinalMissing(r, s, p);
    ToBaselineGiven(r, s, p);
    GoesRecording(r, s, p.(pc := BaselineGiven), AcceptBaseline);
  }

  lemma ToRecordChecks(r: Route, s: State, p: Pass)
    requires Leads(r, InPass(s, p, BaselineMissing)) && Recorded(p.view, BaselineCondition)
             && p.started.baselineRuns == []
    ensures Leads(r, InPass(s, p, LookUp(ToRecord)))
  {
    GoesRecording(r, s, p.(pc := BaselineMissing), BaselineChecked);
    GoesRecording(r, s, p.(pc := BaselineChecked), ChecksMissing);
    GoesRecording(r, s, p.(pc := ChecksMissing), AskBaseline(ToRecord));
    GoesAsking(r, s, p.(pc := AskBaseline(ToRecord)), LookUp(ToRecord));
  }

  lemma AddsCondition(r: Route, s: State, p: Pass, k: Kind, todo: set<Kind>, lookup: Option<PodSpec>, purpose: Purpose)
    requires Leads(r, InPass(s, p, Require(todo, lookup, purpose))) && k in todo
             && CheckCondition(k) !in p.view.conditions
    ensures Leads(r, InPass(s, p, Require(todo - {k}, lookup, purpose)))
  {
    GoesAsking(r, s, p.(pc := Require(todo, lookup, purpose)), AddCondition(k, todo - {k}, lookup, purpose));
    SetsUnread(r, s, p.(pc := AddCondition(k, todo - {k}, lookup, purpose)), Require(todo - {k}, lookup, purpose));
  }

  lemma RequiresOne(r: Route, s: State, p: Pass, k: Kind, todo: set<Kind>, lookup: Option<PodSpec>, purpose: Purpose)
    requires Leads(r, InPass(s, p, Require(todo, lookup, purpose))) && k in todo
    ensures Leads(r, InPass(s, p, Require(todo - {k}, lookup, purpose)))
  {
    if CheckCondition(k) in p.view.conditions {
      GoesAsking(r, s, p.(pc := Require(todo, lookup, purpose)), Require(todo - {k}, lookup, purpose));
    } else {
      AddsCondition(r, s, p, k, todo, lookup, purpose);
    }
  }

  lemma {:induction false} RequiresAll(r: Route, s: State, p: Pass, todo: set<Kind>, lookup: Option<PodSpec>,
                                       purpose: Purpose)
    requires Leads(r, InPass(s, p, Require(todo, lookup, purpose)))
    ensures Leads(r, InPass(s, p, Require({}, lookup, purpose)))
    decreases |todo|
  {
    if todo != {} {
      var k :| k in todo;
      RequiresOne(r, s, p, k, todo, lookup, purpose);
      RequiresAll(r, s, p, todo - {k}, lookup, purpose);
    }
  }

  /** GetRequiredCheckRuns; the conditions that are missing cannot be stored. */
  lemma ToRequired(r: Route, s: State, p: Pass, lookup: Option<PodSpec>, purpose: Purpose)
    requires Leads(r, InPass(s, p, LookUp(purpose)))
    ensures Leads(r, InPass(s, p, Require({}, lookup, purpose)))
  {
    GoesAsking(r, s, p.(pc := LookUp(purpose)), Require(Required(lookup), lookup, purpose));
    RequiresAll(r, s, p, Required(lookup), lookup, purpose);
  }

  lemma {:induction false} AsksAll(r: Route, s: State, p: Pass, todo: set<Kind>, lookup: Option<PodSpec>)
    requires Leads(r, InPass(s, p, AskChecks(todo, lookup, ToAnalyze)))
             && forall k | k in todo :: Recorded(p.view, CheckCondition(k))
    ensures Leads(r, InPass(s, p, AskChecks({}, lookup, ToAnalyze)))
    decreases |todo|
  {
    if todo != {} {
      var k :| k in todo;
      GoesAsking(r, s, p.(pc := AskChecks(todo, lookup, ToAnalyze)), AskChecks(todo - {k}, lookup, ToAnalyze));
      AsksAll(r, s, p, todo - {k}, lookup);
    }
  }

  lemma ToAskChecks(r: Route, s: State, p: Pass, lookup: Option<PodSpec>)
    requires Leads(r, InPass(s, p, AskBaseline(ToAnalyze))) && Recorded(p.view, BaselineCondition)
    ensures Leads(r, InPass(s, p, AskChecks(Required(lookup), lookup, ToAnalyze)))
  {
    GoesAsking(r, s, p.(pc := AskBaseline(ToAnalyze)), LookUp(ToAnalyze));
    ToRequired(r, s, p, lookup, ToAnalyze);
    GoesAsking(r, s, p.(pc := Require({}, lookup, ToAnalyze)), AskChecks(Required(lookup), lookup, ToAnalyze));
  }

  /** A pass that finds everything recorded that it requires goes on to the analysis. */
  lemma ToAnalysis(r: Route, s: State, lookup: Option<PodSpec>)
    requires Leads(r, s) && s.pass.None? && !Is(s.status, FinishedCondition, True) && s.status.recommendation.None?
    requires Recorded(s.status, BaselineCondition) && !Is(s.status, AnalysisCondition, True)
    requires forall k | k in Required(lookup) :: Recorded(s.status, CheckCondition(k))
    ensures Leads(r, InPass(s, AtStart(s), Analyze(lookup)))
  {
    var p := AtStart(s);
    ToAskBaseline(r, s);
    ToAskChecks(r, s, p, lookup);
    AsksAll(r, s, p, Required(lookup), lookup);
    StartsAnalysis(r, s, p, lookup);
  }

  lemma StartsAnalysis(r: Route, s: State, p: Pass, lookup: Option<PodSpec>)
    requires Leads(r, InPass(s, p, AskChecks({}, lookup, ToAnalyze))) && !Is(p.started, AnalysisCondition, True)
    ensures Leads(r, InPass(s, p, Analyze(lookup)))
  {
    GoesAsking(r, s, p.(pc := AskChecks({}, lookup, ToAnalyze)), AnnounceAnalysis(lookup));
    SetsUnread(r, s, p.(pc := AnnounceAnalysis(lookup)), StartAnalysis(lookup));
    SetsUnread(r, s, p.(pc := StartAnalysis(lookup)), Analyze(lookup));
  }

  lemma ToSubmission(r: Route, s: State, p: Pass, lookup: Option<PodSpec>, k: Kind)
    requires Leads(r, InPass(s, p, Require({}, lookup, ToRecord))) && k in Required(lookup)
             && !Recorded(p.view, CheckCondition(k))
    ensures Leads(r, InPass(s, p, LookUp(ToSubmit)))
  {
    GoesAsking(r, s, p.(pc := Require({}, lookup, ToRecord)), AskChecks(Required(lookup), lookup, ToRecord));
    GoesAsking(r, s, p.(pc := AskChecks(Required(lookup), lookup, ToRecord)), LookUp(ToSubmit));
  }

  lemma ToNextCheck(r: Route, s: State, p: Pass, lookup: Option<PodSpec>)
    requires Leads(r, InPass(s, p, LookUp(ToSubmit)))
    ensures Leads(r, InPass(s, p, NextCheck(Required(lookup))))
  {
    ToRequired(r, s, p, lookup, ToSubmit);
    GoesAsking(r, s, p.(pc := Require({}, lookup, ToSubmit)), ChecksStarted(lookup));
    SetsUnread(r, s, p.(pc := ChecksStarted(lookup)), NextCheck(Required(lookup)));
  }

  /** In parallel mode, the pass goes on with the other checks. */
  lemma SubmitsCheck(r: Route, s: State, p: Pass, todo: set<Kind>, k: Kind, context: Option<Defaults>)
    requires Leads(r, InPass(s, p, NextCheck(todo))) && k in todo && r.cfg.parallel && FitsCheck(r.cfg, k, context)
    requires !Recorded(p.view, CheckCondition(k)) && Check(k) !in s.runners
    ensures Leads(r, InPass(s.(runners := s.runners[Check(k) := Runner(Phase.Starting, context)]), p,
                            NextCheck(todo - {k})))
  {
    GoesRecording(r, s, p.(pc := NextCheck(todo)), SubmitCheck(k, todo - {k}));
    Submitted(r, s, p, todo - {k}, k, context);
  }

  lemma Submitted(r: Route, s: State, p: Pass, todo: set<Kind>, k: Kind, context: Option<Defaults>)
    requires Leads(r, InPass(s, p, SubmitCheck(k, todo))) && r.cfg.parallel && FitsCheck(r.cfg, k, context)
    requires Check(k) !in s.runners
    ensures Leads(r, InPass(s.(runners := s.runners[Check(k) := Runner(Phase.Starting, context)]), p, NextCheck(todo)))
  {
    Takes(r, InPass(s, p, SubmitCheck(k, todo)), OfPass(SubmitsWith(context)));
  }

  lemma ReturnsAfterChecks(r: Route, s: State, p: Pass)
    requires Leads(r, InPass(s, p, NextCheck({}))) && s.pass.None?
    ensures Leads(r, s)
  {
    Takes(r, InPass(s, p, NextCheck({})), OfPass(Returns));
  }

  // ---------- Analysis and recommendation ----------

  /** Valkey answers with what is stored. */
  function Answers(stored: map<string, Manager.Recording>, absent: Lookup): string -> Lookup {
    (key: string) => if key in stored then Found(stored[key]) else absent
  }

  ghost predicate HasBaselines(cfg: Config, stored: map<string, Manager.Recording>) {
    forall key | key in BaselineKeys(cfg.ns, cfg.suffix, cfg.reference) :: key in stored
  }

  function Approves(): Manager.Recording -> Verdict { (r: Manager.Recording) => Verdict(true, "", "") }

  /** Without entries there is nothing to judge; without baselines there is nothing to judge by, if an absent recording
      is no error. */
  lemma SkipsWithout(cfg: Config, runs: CheckRuns, stored: map<string, Manager.Recording>, absent: Lookup)
    requires if HasBaselines(cfg, stored) then runs == map[] else absent.Missing?
    ensures AnalysisOutcome(runs, cfg.ns, cfg.suffix, cfg.reference, Answers(stored, absent), Approves(), Skipped)
  {
    var keys, get := BaselineKeys(cfg.ns, cfg.suffix, cfg.reference), Answers(stored, absent);
    if BaselinesLoad(keys, get) {
      if !absent.Found? { assert forall key | key in keys :: key in stored; }
    } else {
      StopsAtMissing(keys, stored, absent, 0);
    }
  }

  lemma {:induction false} StopsAtMissing(keys: seq<string>, stored: map<string, Manager.Recording>, absent: Lookup,
                                          i: nat)
    requires i <= |keys| && !BaselinesLoad(keys, Answers(stored, absent))
    requires forall j | 0 <= j < i :: Answers(stored, absent)(keys[j]).Found?
    ensures exists n: nat ::
              BaselinesStopAt(keys, Answers(stored, absent), n) && Answers(stored, absent)(keys[n]) == absent
    decreases |keys| - i
  {
    if i < |keys| && Answers(stored, absent)(keys[i]).Found? {
      StopsAtMissing(keys, stored, absent, i + 1);
    } else {
      assert BaselinesStopAt(keys, Answers(stored, absent), i);
    }
  }

  /** Without entries, a pass at the analysis can recommend what the workload has already. */
  lemma RecommendsOwn(r: Route, s: State, lookup: Option<PodSpec>, spec: PodSpec)
    requires Leads(r, InPass(s, AtStart(s), Analyze(lookup))) && s.status.checkRuns == map[]
             && (r.careful ==> Quiet(s.runners)) && HasBaselines(r.cfg, s.stored) && !r.absent.Found?
    ensures var st := s.status.(recommendation := Some(Recommend(spec, [])));
            Leads(r, s.(status := st, pass := Some(Pass(FinishAnalysis, s.status, st))))
  {
    SkipsAnalysis(r, s, lookup);
    FilesMerged(r, s, lookup, spec, [], Stored);
  }

  lemma SkipsAnalysis(r: Route, s: State, lookup: Option<PodSpec>)
    requires Leads(r, InPass(s, AtStart(s), Analyze(lookup))) && !r.absent.Found?
    requires if HasBaselines(r.cfg, s.stored) then s.status.checkRuns == map[] else r.absent.Missing?
    requires r.careful ==> Quiet(s.runners)
    ensures Leads(r, InPass(s, AtStart(s), Recommends(lookup)))
  {
    SkipsWithout(r.cfg, s.status.checkRuns, s.stored, r.absent);
    Takes(r, InPass(s, AtStart(s), Analyze(lookup)), OfPass(Judges(Skipped, Answers(s.stored, r.absent), Approves())));
  }

  lemma FilesMerged(r: Route, s: State, lookup: Option<PodSpec>, spec: PodSpec, order: seq<Defaults>, o: Outcome)
    requires Leads(r, InPass(s, AtStart(s), Recommends(lookup))) && ContextsOf(s.status.checkRuns, order)
    ensures Leads(r, Next(r.cfg, InPass(s, AtStart(s), Recommends(lookup)),
                          OfPass(FilesRecommendation(o, Some(spec), order))))
  {
    Takes(r, InPass(s, AtStart(s), Recommends(lookup)), OfPass(FilesRecommendation(o, Some(spec), order)));
  }

  /** Entries of successful runs, whose recordings are stored. */
  predicate AllSuccessful(cfg: Config, runs: CheckRuns, stored: map<string, Manager.Recording>) {
    forall n | n in runs ::
      runs[n].name == n && runs[n].checkSuccessful == Some(true) && RecordingKey(cfg.ns, cfg.suffix, n) in stored
  }

  /** The analysis can approve them all, and leaves them as they are. */
  lemma ApprovesAll(cfg: Config, runs: CheckRuns, stored: map<string, Manager.Recording>, absent: Lookup)
    requires AllSuccessful(cfg, runs, stored) && runs != map[] && HasBaselines(cfg, stored)
    ensures AnalysisOutcome(runs, cfg.ns, cfg.suffix, cfg.reference, Answers(stored, absent), Approves(), Updated(runs))
  {
    var get := Answers(stored, absent);
    assert BaselinesLoad(BaselineKeys(cfg.ns, cfg.suffix, cfg.reference), get);
    forall n | n in runs ensures AnalyzedFrom(runs, runs[n], n, cfg.ns, cfg.suffix, get, Approves()) {
      assert n in runs && runs[n].name == n;
    }
  }

  lemma JudgesAs(r: Route, s: State, lookup: Option<PodSpec>, runs: CheckRuns)
    requires Leads(r, InPass(s, AtStart(s), Analyze(lookup))) && (r.careful ==> Quiet(s.runners)) && !r.absent.Found?
    requires AnalysisOutcome(s.status.checkRuns, r.cfg.ns, r.cfg.suffix, r.cfg.reference,
                             Answers(s.stored, r.absent), Approves(), Updated(runs))
    ensures Leads(r, InPass(s, AtStart(s), FileAnalysis(runs, lookup)))
  {
    Takes(r, InPass(s, AtStart(s), Analyze(lookup)),
          OfPass(Judges(Updated(runs), Answers(s.stored, r.absent), Approves())));
  }

  lemma JudgesAll(r: Route, s: State, lookup: Option<PodSpec>)
    requires Leads(r, InPass(s, AtStart(s), Analyze(lookup))) && (r.careful ==> Quiet(s.runners)) && !r.absent.Found?
    requires AllSuccessful(r.cfg, s.status.checkRuns, s.stored) && s.status.checkRuns != map[]
    requires HasBaselines(r.cfg, s.stored)
    ensures Leads(r, InPass(s, AtStart(s), FileAnalysis(s.status.checkRuns, lookup)))
  {
    ApprovesAll(r.cfg, s.status.checkRuns, s.stored, r.absent);
    JudgesAs(r, s, lookup, s.status.checkRuns);
  }

  // ---------- Whatever entries there are ----------

  predicate HaveRecordings(cfg: Config, runs: CheckRuns, stored: map<string, Manager.Recording>) {
    forall n | n in runs ::
      runs[n].name == n && runs[n].securityContext.Some? && RecordingKey(cfg.ns, cfg.suffix, n) in stored
  }

  /** The entries after an analysis with good verdicts. */
  function Approved(cfg: Config, runs: CheckRuns, stored: map<string, Manager.Recording>): CheckRuns
    requires HaveRecordings(cfg, runs, stored)
  {
    map n | n in runs ::
      Analyzed(runs[n], stored[RecordingKey(cfg.ns, cfg.suffix, n)], Verdict(true, "", ""))
  }

  lemma ApprovesEntries(cfg: Config, runs: CheckRuns, stored: map<string, Manager.Recording>, absent: Lookup)
    requires HaveRecordings(cfg, runs, stored) && runs != map[] && HasBaselines(cfg, stored)
    ensures AnalysisOutcome(runs, cfg.ns, cfg.suffix, cfg.reference, Answers(stored, absent), Approves(),
                            Updated(Approved(cfg, runs, stored)))
  {
    var get, updated := Answers(stored, absent), Approved(cfg, runs, stored);
    assert BaselinesLoad(BaselineKeys(cfg.ns, cfg.suffix, cfg.reference), get);
    forall n | n in updated ensures AnalyzedFrom(runs, updated[n], n, cfg.ns, cfg.suffix, get, Approves()) {
      assert n in runs && runs[n].name == n;
    }
  }

  /** Some order of the accepted contexts. */
  lemma {:induction false} SomeOrder(runs: CheckRuns, keys: set<string>) returns (order: seq<Defaults>)
    requires keys <= runs.Keys && forall n | n in runs :: runs[n].securityContext.Some?
    ensures forall d | d in order :: exists n :: n in runs && Accepted(runs[n]) && runs[n].securityContext == Some(d)
    ensures forall n | n in keys && Accepted(runs[n]) ::
              exists d :: d in order && runs[n].securityContext == Some(d)
    decreases |keys|
  {
    order := [];
    if keys != {} {
      var n :| n in keys;
      var rest := SomeOrder(runs, keys - {n});
      order := if Accepted(runs[n]) then [runs[n].securityContext.value] + rest else rest;
      forall m | m in keys && Accepted(runs[m])
        ensures exists d :: d in order && runs[m].securityContext == Some(d)
      {
        if m == n {
          assert runs[n].securityContext.value in order;
        } else {
          var d :| d in rest && runs[m].securityContext == Some(d);
          assert d in order;
        }
      }
    }
  }

  lemma OrderOfAll(runs: CheckRuns) returns (order: seq<Defaults>)
    requires forall n | n in runs :: runs[n].securityContext.Some?
    ensures ContextsOf(runs, order)
  {
    order := SomeOrder(runs, runs.Keys);
  }

  /** Whatever entries there are, a pass at the analysis can go on to a recommendation, unless a baseline is absent and
      that is an error. */
  lemma RecommendsSome(r: Route, s: State, lookup: Option<PodSpec>, spec: PodSpec)
    returns (runs: CheckRuns, order: seq<Defaults>)
    requires Leads(r, InPass(s, AtStart(s), Analyze(lookup))) && !r.careful && !r.absent.Found?
    requires HaveRecordings(r.cfg, s.status.checkRuns, s.stored)
    requires HasBaselines(r.cfg, s.stored) || r.absent.Missing?
    ensures runs.Keys == s.status.checkRuns.Keys && ContextsOf(runs, order)
    ensures var st := s.status.(checkRuns := runs, recommendation := Some(Recommend(spec, order)));
            Leads(r, s.(status := st, pass := Some(Pass(FinishAnalysis, s.status, st))))
  {
    runs := s.status.checkRuns;
    if HasBaselines(r.cfg, s.stored) && runs != map[] {
      runs := Approved(r.cfg, runs, s.stored);
      order := OrderOfAll(runs);
      FilesApproved(r, s, lookup, spec, order);
    } else {
      order := OrderOfAll(runs);
      SkipsAnalysis(r, s, lookup);
      FilesMerged(r, s, lookup, spec, order, Stored);
    }
  }

  lemma FilesApproved(r: Route, s: State, lookup: Option<PodSpec>, spec: PodSpec, order: seq<Defaults>)
    requires Leads(r, InPass(s, AtStart(s), Analyze(lookup))) && !r.careful && !r.absent.Found?
    requires HaveRecordings(r.cfg, s.status.checkRuns, s.stored) && s.status.checkRuns != map[]
    requires HasBaselines(r.cfg, s.stored) && ContextsOf(Approved(r.cfg, s.status.checkRuns, s.stored), order)
    ensures var st := s.status.(checkRuns := Approved(r.cfg, s.status.checkRuns, s.stored),
                                recommendation := Some(Recommend(spec, order)));
            Leads(r, s.(status := st, pass := Some(Pass(FinishAnalysis, s.status, st))))
  {
    var runs := Approved(r.cfg, s.status.checkRuns, s.stored);
    ApprovesEntries(r.cfg, s.status.checkRuns, s.stored, r.absent);
    JudgesAs(r, s, lookup, runs);
    RecommendsEntries(r, s, lookup, runs, spec, order);
  }

  /** A pass that files what it has analysed recommends what that merges to. */
  lemma RecommendsEntries(r: Route, s: State, lookup: Option<PodSpec>, runs: CheckRuns, spec: PodSpec,
                          order: seq<Defaults>)
    requires Leads(r, InPass(s, AtStart(s), FileAnalysis(runs, lookup))) && ContextsOf(runs, order)
    requires r.careful ==> runs.Keys == s.status.checkRuns.Keys
    ensures var st := s.status.(checkRuns := runs, recommendation := Some(Recommend(spec, order)));
            Leads(r, s.(status := st, pass := Some(Pass(FinishAnalysis, s.status, st))))
  {
    var p, st := AtStart(s), s.status.(checkRuns := runs);
    Takes(r, InPass(s, p, FileAnalysis(runs, lookup)), OfPass(FilesAnalysis(Stored)));
    Takes(r, s.(status := st, pass := Some(Pass(Recommends(lookup), s.status, st))),
          OfPass(FilesRecommendation(Stored, Some(spec), order)));
  }

  // ---------- The final run ----------

  lemma ToSubmitFinal(r: Route, s: State, p: Pass)
    requires Leads(r, InPass(s, p, FinishAnalysis)) && FinalCondition !in p.started.conditions
             && FinalCondition !in p.view.conditions
    requires p.view.recommendation.Some? && Final !in s.runners
    ensures Leads(r, InPass(s, p, SubmitFinal(false)))
  {
    AfterAnalysis(r, s, p);
    ToFinalMissing(r, s, p);
    FinalUnmade(r, s, p);
  }

  lemma AfterAnalysis(r: Route, s: State, p: Pass)
    requires Leads(r, InPass(s, p, FinishAnalysis))
    ensures Leads(r, InPass(s, p, FinalRetry))
  {
    SetsUnread(r, s, p.(pc := FinishAnalysis), AnnounceFinal);
    SetsUnread(r, s, p.(pc := AnnounceFinal), FinalRetry);
  }

  lemma FinalUnmade(r: Route, s: State, p: Pass)
    requires Leads(r, InPass(s, p, FinalMissing)) && FinalCondition !in p.view.conditions
    requires p.view.recommendation.Some? && Final !in s.runners
    ensures Leads(r, InPass(s, p, SubmitFinal(false)))
  {
    GoesFinal(r, s, p.(pc := FinalMissing), FinalUnrecorded);
    GoesFinal(r, s, p.(pc := FinalUnrecorded), SubmitFinal(false));
  }

  // ---------- Runners ----------

  const RECORDING := Manager.Recording(true, "")

  lemma RunnerMoves(r: Route, s: State, t: CheckType, context: Option<Defaults>, phase: Phase, next: Phase)
    requires Leads(r, s.(runners := s.runners[t := Runner(phase, context)]))
    requires RunnerSets(phase).Some? && RunnerSets(phase).value.1 == next
    ensures Leads(r, s.(runners := s.runners[t := Runner(next, context)]))
  {
    var before := s.(runners := s.runners[t := Runner(phase, context)]);
    Takes(r, before, OfRunner(t, Publishes(Unread)));
    assert before.runners[t := Runner(next, context)] == s.runners[t := Runner(next, context)];
  }

  function WithRecording(cfg: Config, s: State, t: CheckType, context: Option<Defaults>): State {
    s.(stored := s.stored[Key(cfg, t) := RECORDING], runners := s.runners[t := Runner(Publishing(true), context)])
  }

  /** A runner that was started stores its recording. */
  lemma RunnerStores(r: Route, s: State, t: CheckType, context: Option<Defaults>)
    requires Leads(r, s.(runners := s.runners[t := Runner(Phase.Starting, context)]))
    ensures Leads(r, WithRecording(r.cfg, s, t, context))
  {
    RunnerMoves(r, s, t, context, Phase.Starting, Preparing);
    RunnerMoves(r, s, t, context, Preparing, Measuring);
    var before := s.(runners := s.runners[t := Runner(Measuring, context)]);
    Takes(r, before, OfRunner(t, Stores(Some(RECORDING))));
    assert before.runners[t := Runner(Publishing(true), context)] == s.runners[t := Runner(Publishing(true), context)];
  }

  function Published(s: State, k: Kind, context: Option<Defaults>): State {
    s.(status := SetCondition(s.status, CheckCondition(k), Condition(True, Finished)),
       runners := s.runners[Check(k) := Runner(Filing(true), context)])
  }

  /** It sets its condition. */
  lemma RunnerPublishes(r: Route, s: State, k: Kind, context: Option<Defaults>)
    requires Leads(r, s) && Check(k) in s.runners && s.runners[Check(k)] == Runner(Publishing(true), context)
    ensures Leads(r, Published(s, k, context))
  {
    Takes(r, s, OfRunner(Check(k), Publishes(Stored)));
  }

  function Entry(k: Kind, context: Option<Defaults>): CheckRun {
    CheckRun(KindName(k), Some(true), Some(true), context, "", None)
  }

  function WithEntry(s: State, k: Kind, context: Option<Defaults>): State {
    s.(status := s.status.(checkRuns := s.status.checkRuns[KindName(k) := Entry(k, context)]),
       runners := s.runners[Check(k) := Runner(Leaving, context)])
  }

  /** It files its entry. */
  lemma RunnerFiles(r: Route, s: State, k: Kind, context: Option<Defaults>)
    requires Leads(r, s) && Check(k) in s.runners && s.runners[Check(k)] == Runner(Filing(true), context)
    ensures Leads(r, WithEntry(s, k, context))
  {
    Takes(r, s, OfRunner(Check(k), Files(Entry(k, context), Stored)));
  }
}
