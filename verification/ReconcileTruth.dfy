/** What runners write: their conditions, and entries that say what their recordings say. */
module ReconcileTruth {
  import opened Options
  import opened SecurityContexts
  import opened Checks
  import opened Manager
  import opened ReconcileProtocol
  import opened ReconcileInvariant
  import opened ReconcileSafety
  import opened ReconcileHistory

  // ---------- Keys ----------

  /** The names under which runs are recorded and filed. */
  lemma TypeNames()
    ensures TypeName(Baseline) == "baseline" && TypeName(SecondBaseline) == "baseline-2" && TypeName(Final) == "Final"
    ensures TypeName(Check(User)) == "user" && TypeName(Check(Group)) == "group"
    ensures TypeName(Check(DropAllCapabilities)) == "dropAllCapabilities"
    ensures TypeName(Check(ReadOnlyRootFilesystem)) == "readOnlyRootFilesystem"
    ensures TypeName(Check(AllowPrivilegeEscalation)) == "allowPrivilegeEscalation"
  {
  }

  lemma NamesApart(t: CheckType, u: CheckType)
    requires t != u
    ensures TypeName(t) != TypeName(u)
  {
    TypeNames();
    assert |"baseline"| != |"baseline-2"|;
    assert "Final"[0] == 'F' && "user"[0] == 'u' && "group"[0] == 'g' && "baseline"[0] == 'b' && "baseline-2"[0] == 'b';
    assert "dropAllCapabilities"[0] == 'd' && "readOnlyRootFilesystem"[0] == 'r';
    assert "allowPrivilegeEscalation"[0] == 'a';
  }

  /** Each type of run has its own recording, under the namespace and the suffix of the resource. */
  lemma KeysApart(cfg: Config, t: CheckType, u: CheckType)
    ensures Key(cfg, t) == cfg.ns + ":" + cfg.suffix + ":" + TypeName(t)
    ensures Key(cfg, t) == Key(cfg, u) <==> t == u
  {
    var prefix := cfg.ns + ":" + cfg.suffix + ":";
    assert Key(cfg, t) == prefix + TypeName(t) && Key(cfg, u) == prefix + TypeName(u);
    if t != u {
      NamesApart(t, u);
      assert Key(cfg, t)[|prefix|..] == TypeName(t) && Key(cfg, u)[|prefix|..] == TypeName(u);
    }
  }

  // ---------- Entries tell what was recorded ----------

  predicate HasRecording(r: Runner) { r.phase.Publishing? || r.phase.Filing? }

  /** A runner with a recording knows whether the pods were running in it. */
  ghost predicate Truthful(cfg: Config, s: State) {
    forall t | t in s.runners && HasRecording(s.runners[t]) ::
      Key(cfg, t) in s.stored && s.stored[Key(cfg, t)].podStateRunning == s.runners[t].phase.success
  }

  lemma RunnerStaysTruthful(cfg: Config, s: State, t: CheckType, e: RunnerEvent)
    requires Truthful(cfg, s) && t in s.runners && RunnerCan(t, s.runners[t], e)
    ensures Truthful(cfg, RunnerNext(cfg, s, t, e))
  {
    var next := RunnerNext(cfg, s, t, e);
    OthersStay(cfg, s, t, e);
    if t in next.runners { OwnIsTruthful(cfg, s, t, e); }
    forall u | u in next.runners && HasRecording(next.runners[u])
      ensures Key(cfg, u) in next.stored && next.stored[Key(cfg, u)].podStateRunning == next.runners[u].phase.success
    {
      if u != t { assert u in s.runners && next.runners[u] == s.runners[u]; }
    }
  }

  lemma OthersStay(cfg: Config, s: State, t: CheckType, e: RunnerEvent)
    requires t in s.runners
    ensures var next := RunnerNext(cfg, s, t, e);
            && next.runners.Keys <= s.runners.Keys
            && forall u | u in next.runners && u != t ::
                 && next.runners[u] == s.runners[u]
                 && (Key(cfg, u) in s.stored ==>
                       Key(cfg, u) in next.stored && next.stored[Key(cfg, u)] == s.stored[Key(cfg, u)])
  {
    forall u: CheckType ensures Key(cfg, t) == Key(cfg, u) <==> t == u { KeysApart(cfg, t, u); }
  }

  lemma OwnIsTruthful(cfg: Config, s: State, t: CheckType, e: RunnerEvent)
    requires Truthful(cfg, s) && t in s.runners && RunnerCan(t, s.runners[t], e)
    requires t in RunnerNext(cfg, s, t, e).runners
    ensures var next := RunnerNext(cfg, s, t, e);
            HasRecording(next.runners[t]) ==>
              && Key(cfg, t) in next.stored
              && next.stored[Key(cfg, t)].podStateRunning == next.runners[t].phase.success
  {
  }

  lemma PassStaysTruthful(cfg: Config, s: State, e: PassEvent)
    requires Truthful(cfg, s) && s.pass.Some?
    ensures Truthful(cfg, PassNext(cfg, s, e))
  {
    var next := PassNext(cfg, s, e);
    assert next.stored == s.stored;
    assert forall t | t in next.runners && HasRecording(next.runners[t]) ::
             t in s.runners && next.runners[t] == s.runners[t];
  }

  lemma {:induction false} RunIsTruthful(cfg: Config, s: State, events: seq<Event>)
    requires Truthful(cfg, s) && Possible(cfg, s, events)
    ensures Truthful(cfg, After(cfg, s, events))
    decreases |events|
  {
    if events != [] {
      match events[0] {
        case OfPass(act) => PassStaysTruthful(cfg, s, act);
        case OfRunner(t, act) => RunnerStaysTruthful(cfg, s, t, act);
        case _ =>
      }
      RunIsTruthful(cfg, Next(cfg, s, events[0]), events[1..]);
    }
  }

  /** The entry of a check stands under its name, that of the final run alone, and those of the baseline one after the
      other; nothing else changes, and nothing at all if the update fails. */
  ghost predicate IsFiled(before: Status, after: Status, t: CheckType, run: CheckRun, o: Outcome) {
    if o != Stored then after == before
    else
      && after.conditions == before.conditions && after.recommendation == before.recommendation
      && (if t.Check? then
            && run.name in after.checkRuns && after.checkRuns[run.name] == run
            && (forall n | n != run.name :: n in after.checkRuns <==> n in before.checkRuns)
            && (forall n | n != run.name && n in before.checkRuns :: after.checkRuns[n] == before.checkRuns[n])
          else after.checkRuns == before.checkRuns)
      && after.finalRun == (if t.Final? then Some(run) else before.finalRun)
      && after.baselineRuns == before.baselineRuns + (if t.Baseline? || t.SecondBaseline? then [run] else [])
  }

  /** A recording is stored as it is, under the namespace, the suffix and the type of its run, and nothing else is. */
  lemma StoresRecording(cfg: Config, s: State, t: CheckType, recording: Manager.Recording)
    requires t in s.runners && RunnerCan(t, s.runners[t], Stores(Some(recording)))
    ensures var key, after := cfg.ns + ":" + cfg.suffix + ":" + TypeName(t),
                              Next(cfg, s, OfRunner(t, Stores(Some(recording))));
            && after.stored == s.stored[key := recording] && after.status == s.status
            && t in after.runners && after.runners[t].context == s.runners[t].context
  {
    KeysApart(cfg, t, t);
  }

  /** Whatever is filed, in every run: the entry has the name of the run and the context that it was given, and it is
      successful exactly if the pods were running in the recording that is stored for it. */
  lemma EntriesTellTruth(cfg: Config, stored: map<string, Manager.Recording>, events: seq<Event>, t: CheckType,
                         run: CheckRun, o: Outcome)
    requires Possible(cfg, Initial(stored), events)
    requires Enabled(cfg, After(cfg, Initial(stored), events), OfRunner(t, Files(run, o)))
    ensures var s := After(cfg, Initial(stored), events);
            && run.name == TypeName(t) && run.securityContext == s.runners[t].context
            && Key(cfg, t) in s.stored
            && run.checkSuccessful == Some(s.stored[Key(cfg, t)].podStateRunning)
            && run.recordingSuccessful == run.checkSuccessful
    ensures var s := After(cfg, Initial(stored), events);
            IsFiled(s.status, Next(cfg, s, OfRunner(t, Files(run, o))).status, t, run, o)
  {
    assert Truthful(cfg, Initial(stored));
    RunIsTruthful(cfg, Initial(stored), events);
  }

  // ---------- What conditions say ----------

  /** A runner says that it is in progress, until it has failed, which makes its condition Unknown, or has a recording,
      which makes it True. */
  lemma RunnerConditions(cfg: Config, s: State, t: CheckType)
    requires t in s.runners && RunnerCan(t, s.runners[t], Publishes(Stored))
    ensures var phase, st := s.runners[t].phase, Next(cfg, s, OfRunner(t, Publishes(Stored))).status;
            && ConditionOf(t) in st.conditions
            && st == s.status.(conditions := s.status.conditions[ConditionOf(t) := st.conditions[ConditionOf(t)]])
            && (phase.Starting? || phase.Preparing? ==> IsInProgress(st, ConditionOf(t)))
            && (phase.Failing? ==> st.conditions[ConditionOf(t)].status == Unknown)
            && (phase.Publishing? ==> Recorded(st, ConditionOf(t)))
            && (phase.Starting? || phase.Preparing? || phase.Failing? || phase.Publishing?)
  {
  }

  /** The final run, the baseline and a check that are overdue become Unknown, which lets them be submitted again. */
  lemma OverdueIsUnknown(cfg: Config, s: State)
    requires s.pass.Some?
    requires s.pass.value.pc.FinalOverdue? || s.pass.value.pc.BaselineOverdue? || s.pass.value.pc.CheckOverdue?
    ensures var pc, st := s.pass.value.pc, Next(cfg, s, OfPass(PassEvent.SetsCondition(Stored))).status;
            && (pc.FinalOverdue? ==> Is(st, FinalCondition, Unknown))
            && (pc.BaselineOverdue? ==> Is(st, BaselineCondition, Unknown))
            && (pc.CheckOverdue? ==> Is(st, CheckCondition(pc.kind), Unknown))
  {
  }

  /** An accepted baseline counts as two successful baseline runs. */
  lemma AcceptedIsSuccessful(cfg: Config, s: State)
    requires s.pass.Some? && s.pass.value.pc.FileBaselines?
    ensures var runs := Next(cfg, s, OfPass(FilesBaselines(Stored))).status.baselineRuns;
            |runs| == 2
            && forall r | r in runs :: r.checkSuccessful == Some(true) && r.recordingSuccessful == Some(true)
  {
  }
}
