/** The workload check manager: the analysis of the check runs and the recommendation built from them. */
module Manager {
  import opened Options
  import opened SecurityContexts
  import opened Checks
  import opened Recommendation
  import opened FinalRun
  import opened ContextFields
  import opened RecommendedFields

  datatype CheckRun = CheckRun(
    name: string,
    recordingSuccessful: Option<bool>,
    checkSuccessful: Option<bool>,
    securityContext: Option<Defaults>,
    failureReason: string,
    anomalies: Option<Opaque>)

  /** Status.CheckRuns, which the runner and the analysis write under the name of the run. */
  type CheckRuns = map<string, CheckRun>

  predicate KeyedByName(runs: CheckRuns) { forall n | n in runs :: runs[n].name == n }

  // ---------- Analysis ----------

  datatype Recording = Recording(podStateRunning: bool, signals: Opaque)

  /** What asking for a recording can answer. */
  datatype Lookup = Found(recording: Recording) | Missing | Failed

  datatype Verdict = Verdict(success: bool, reason: string, anomalies: Opaque)

  datatype Analysis = Skipped | Error | Updated(runs: CheckRuns)

  /** A run fails if it was marked failed, if its pods were not running and nothing else is known, or by the
      verdict. */
  function Analyzed(run: CheckRun, recording: Recording, verdict: Verdict): CheckRun {
    var before := if run.checkSuccessful.Some? then run.checkSuccessful.value else recording.podStateRunning;
    if verdict.success then run.(checkSuccessful := Some(before))
    else run.(checkSuccessful := Some(false), anomalies := Some(verdict.anomalies),
              failureReason :=
                if run.failureReason == "" then verdict.reason else run.failureReason + ", " + verdict.reason)
  }

  function RecordingKey(ns: string, suffix: string, name: string): string { ns + ":" + suffix + ":" + name }

  function BaselineKeys(ns: string, suffix: string, reference: seq<string>): seq<string> {
    if |reference| > 0 then reference
    else [RecordingKey(ns, suffix, "baseline"), RecordingKey(ns, suffix, "baseline-2")]
  }

  /** The baselines are loaded in order; the first one that cannot be loaded decides. */
  ghost predicate BaselinesStopAt(keys: seq<string>, get: string -> Lookup, i: nat) {
    i < |keys| && !get(keys[i]).Found? && forall j | 0 <= j < i :: get(keys[j]).Found?
  }

  ghost predicate BaselinesLoad(keys: seq<string>, get: string -> Lookup) {
    forall j | 0 <= j < |keys| :: get(keys[j]).Found?
  }

  /** Every analyzed run is filed under its name, with the verdict on its own recording; nothing else is. */
  ghost predicate Analyzes(runs: CheckRuns, updated: CheckRuns, ns: string, suffix: string, get: string -> Lookup,
                           judge: Recording -> Verdict)
  {
    && (forall n | n in runs :: runs[n].name in updated && get(RecordingKey(ns, suffix, runs[n].name)).Found?)
    && (forall m | m in updated :: AnalyzedFrom(runs, updated[m], m, ns, suffix, get, judge))
  }

  ghost predicate AnalyzedFrom(runs: CheckRuns, result: CheckRun, m: string, ns: string, suffix: string,
                               get: string -> Lookup, judge: Recording -> Verdict) {
    exists n | n in runs && runs[n].name == m ::
      var answer := get(RecordingKey(ns, suffix, m));
      answer.Found? && result == Analyzed(runs[n], answer.recording, judge(answer.recording))
  }

  method LoadBaselines(keys: seq<string>, get: string -> Lookup) returns (stopped: Option<Analysis>)
    ensures stopped.None? <==> BaselinesLoad(keys, get)
    ensures stopped.Some? ==> exists i: nat ::
              BaselinesStopAt(keys, get, i) && stopped.value == if get(keys[i]).Failed? then Error else Skipped
  {
    for i := 0 to |keys|
      invariant forall j | 0 <= j < i :: get(keys[j]).Found?
    {
      var answer := get(keys[i]);
      if !answer.Found? {
        assert BaselinesStopAt(keys, get, i);
        return Some(if answer.Failed? then Error else Skipped);
      }
    }
    return None;
  }

  /** The analysis is all or nothing: without its baselines or without runs it leaves the status alone, with a missing
      recording it fails, and otherwise it judges every run. */
  ghost predicate AnalysisOutcome(runs: CheckRuns, ns: string, suffix: string, reference: seq<string>,
                                  get: string -> Lookup, judge: Recording -> Verdict, r: Analysis) {
    var baselines := BaselineKeys(ns, suffix, reference);
    && (!BaselinesLoad(baselines, get) ==>
          exists i: nat ::
            BaselinesStopAt(baselines, get, i) && r == if get(baselines[i]).Failed? then Error else Skipped)
    && (BaselinesLoad(baselines, get) ==>
          && (r.Skipped? <==> runs == map[])
          && (r.Error? <==> exists n :: n in runs && !get(RecordingKey(ns, suffix, runs[n].name)).Found?))
    && (r.Updated? ==> Analyzes(runs, r.runs, ns, suffix, get, judge))
  }

  method AnalyzeCheckRuns(runs: CheckRuns, ns: string, suffix: string, reference: seq<string>,
                          get: string -> Lookup, judge: Recording -> Verdict) returns (r: Analysis)
    ensures AnalysisOutcome(runs, ns, suffix, reference, get, judge, r)
  {
    var stopped := LoadBaselines(BaselineKeys(ns, suffix, reference), get);
    if stopped.Some? { return stopped.value; }
    if |runs| == 0 { return Skipped; }
    var updated: CheckRuns := map[];
    var rest := runs.Keys;
    while rest != {}
      invariant rest <= runs.Keys
      invariant forall n | n in runs.Keys - rest ::
                  runs[n].name in updated && get(RecordingKey(ns, suffix, runs[n].name)).Found?
      invariant forall m | m in updated :: AnalyzedFrom(runs, updated[m], m, ns, suffix, get, judge)
      decreases |rest|
    {
      var n :| n in rest;
      rest := rest - {n};
      var run := runs[n];
      var answer := get(RecordingKey(ns, suffix, run.name));
      if !answer.Found? { return Error; }
      updated := updated[run.name := Analyzed(run, answer.recording, judge(answer.recording))];
      assert AnalyzedFrom(runs, updated[run.name], run.name, ns, suffix, get, judge);
    }
    r := Updated(updated);
  }

  /** Analysis keeps the names and contexts of all runs, never turns a failed run into a successful one, and leaves
      a run successful exactly if it was (or, when unknown, its pods ran) and the verdict agrees. */
  lemma AnalysisOnlyFails(runs: CheckRuns, updated: CheckRuns, ns: string, suffix: string,
                          get: string -> Lookup, judge: Recording -> Verdict, n: string)
    requires KeyedByName(runs) && Analyzes(runs, updated, ns, suffix, get, judge)
    ensures KeyedByName(updated) && updated.Keys == runs.Keys
    ensures n in runs ==>
      var recording := get(RecordingKey(ns, suffix, n)).recording;
      && updated[n].securityContext == runs[n].securityContext && updated[n].checkSuccessful.Some?
      && (updated[n].checkSuccessful.value <==> runs[n].checkSuccessful != Some(false) && judge(recording).success
                                                && (runs[n].checkSuccessful.Some? || recording.podStateRunning))
  {
    forall m | m in updated ensures m in runs && updated[m].name == m {
      assert AnalyzedFrom(runs, updated[m], m, ns, suffix, get, judge);
    }
    forall m | m in runs ensures m in updated { assert runs[m].name in updated; }
    if n in runs {
      assert AnalyzedFrom(runs, updated[n], n, ns, suffix, get, judge);
      BoolOption(runs[n].checkSuccessful);
    }
  }

  /** Analyzing the analyzed runs again confirms which of them are successful; a second failure only repeats its
      reason. */
  lemma AnalyzeAgain(run: CheckRun, recording: Recording, verdict: Verdict)
    ensures var once := Analyzed(run, recording, verdict);
            Analyzed(once, recording, verdict).checkSuccessful == once.checkSuccessful
    ensures var once := Analyzed(run, recording, verdict);
            Analyzed(once, recording, verdict) == once <==> verdict.success || (once.failureReason == "")
  {
  }

  /** What the analysis of one run says, whatever was known of it before. */
  lemma JudgedFully(run: CheckRun, recording: Recording, verdict: Verdict)
    ensures var a := Analyzed(run, recording, verdict);
            && a.name == run.name && a.recordingSuccessful == run.recordingSuccessful
            && a.securityContext == run.securityContext && a.checkSuccessful.Some?
            && (a.checkSuccessful.value <==>
                  && verdict.success
                  && (run.checkSuccessful == Some(true) || (run.checkSuccessful.None? && recording.podStateRunning)))
            && (verdict.success ==> a.failureReason == run.failureReason && a.anomalies == run.anomalies)
            && (!verdict.success ==> a.anomalies == Some(verdict.anomalies))
            && (!verdict.success && run.failureReason == "" ==> a.failureReason == verdict.reason)
            && (!verdict.success && run.failureReason != "" ==>
                  a.failureReason == run.failureReason + ", " + verdict.reason)
  {
    BoolOption(run.checkSuccessful);
  }

  /** Entries are judged only by recordings under the keys of this resource: two baselines, unless the resource refers
      to others, and the recording of each run. */
  lemma AnalysisKeys(runs: CheckRuns, ns: string, suffix: string, reference: seq<string>,
                     get: string -> Lookup, judge: Recording -> Verdict, r: Analysis, n: string)
    requires AnalysisOutcome(runs, ns, suffix, reference, get, judge, r) && r.Updated? && KeyedByName(runs)
    ensures reference == [] ==>
              get(ns + ":" + suffix + ":baseline").Found? && get(ns + ":" + suffix + ":baseline-2").Found?
    ensures forall key | key in reference :: get(key).Found?
    ensures n in runs ==>
              && n in r.runs && get(ns + ":" + suffix + ":" + n).Found?
              && var recording := get(ns + ":" + suffix + ":" + n).recording;
              r.runs[n] == Analyzed(runs[n], recording, judge(recording))
  {
    var keys := BaselineKeys(ns, suffix, reference);
    assert BaselinesLoad(keys, get);
    if reference == [] {
      assert keys[0] == ns + ":" + suffix + ":baseline" && keys[1] == ns + ":" + suffix + ":baseline-2";
      assert get(keys[0]).Found? && get(keys[1]).Found?;
    } else {
      forall key | key in reference ensures get(key).Found? {
        var i :| 0 <= i < |keys| && keys[i] == key;
        assert get(keys[i]).Found?;
      }
    }
    if n in runs {
      assert runs[n].name in r.runs && RecordingKey(ns, suffix, n) == ns + ":" + suffix + ":" + n;
      assert AnalyzedFrom(runs, r.runs[n], n, ns, suffix, get, judge);
    }
  }

  // ---------- Recommendation ----------

  predicate Accepted(run: CheckRun) { run.name != "baseline" && run.checkSuccessful != Some(false) }

  /** `order` holds the contexts of the accepted runs. */
  ghost predicate ContextsOf(runs: CheckRuns, order: seq<Defaults>) {
    && (forall d | d in order :: exists n :: n in runs && Accepted(runs[n]) && runs[n].securityContext == Some(d))
    && (KeyedByName(runs) ==>
          forall n | n in runs && Accepted(runs[n]) :: exists d :: d in order && runs[n].securityContext == Some(d))
  }

  /** The contexts by the name of their run. */
  ghost predicate Collected(runs: CheckRuns, done: set<string>, contexts: map<string, Defaults>) {
    && (forall m | m in contexts :: exists n :: n in done && n in runs && runs[n].name == m && Accepted(runs[n])
                                                && runs[n].securityContext == Some(contexts[m]))
    && (forall n | n in done && n in runs && Accepted(runs[n]) :: runs[n].name in contexts)
  }

  method CollectContexts(runs: CheckRuns) returns (contexts: map<string, Defaults>)
    requires forall n | n in runs && Accepted(runs[n]) :: runs[n].securityContext.Some?
    ensures Collected(runs, runs.Keys, contexts)
  {
    contexts := map[];
    var rest := runs.Keys;
    while rest != {}
      invariant rest <= runs.Keys && Collected(runs, runs.Keys - rest, contexts)
      decreases |rest|
    {
      var n :| n in rest;
      ghost var before, done := contexts, runs.Keys - rest;
      rest := rest - {n};
      if Accepted(runs[n]) { contexts := contexts[runs[n].name := runs[n].securityContext.value]; }
      CollectedStep(runs, done, before, n, contexts);
      assert runs.Keys - rest == done + {n};
    }
    assert runs.Keys - rest == runs.Keys;
  }

  lemma CollectedStep(runs: CheckRuns, done: set<string>, before: map<string, Defaults>,
                      n: string, after: map<string, Defaults>)
    requires Collected(runs, done, before) && n in runs
    requires Accepted(runs[n]) ==>
               runs[n].securityContext.Some? && after == before[runs[n].name := runs[n].securityContext.value]
    requires !Accepted(runs[n]) ==> after == before
    ensures Collected(runs, done + {n}, after)
  {
    forall m | m in after
      ensures exists k ::
                && k in done + {n} && k in runs && runs[k].name == m && Accepted(runs[k])
                && runs[k].securityContext == Some(after[m])
    {
      if Accepted(runs[n]) && m == runs[n].name {
        assert n in done + {n} && runs[n].securityContext == Some(after[m]);
      } else {
        var k :| k in done && k in runs && runs[k].name == m && Accepted(runs[k])
            && runs[k].securityContext == Some(before[m]);
        assert k in done + {n};
      }
    }
  }

  ghost predicate Lists(contexts: map<string, Defaults>, names: set<string>, order: seq<Defaults>) {
    && (forall d | d in order :: exists m :: m in names && m in contexts && contexts[m] == d)
    && (forall m | m in names && m in contexts :: contexts[m] in order)
  }

  method OwnContexts(spec: PodSpec) returns (pod: PodContext, container: ContainerContext)
    ensures Contexts(pod, container) == Original(spec) && IsOwn(spec, pod, container)
  {
    pod, container := NO_POD_CONTEXT, NO_CONTAINER_CONTEXT;
    if spec.securityContext.Some? { pod := spec.securityContext.value; }
    if |spec.containers| > 0 && spec.containers[0].Some? { container := spec.containers[0].value; }
  }

  method MergeOne(pod: PodContext, container: ContainerContext, d: Defaults)
    returns (p: PodContext, c: ContainerContext)
    ensures Contexts(p, c) == Extend(Contexts(pod, container), d)
  {
    p := MergePod(Some(pod), PodToK8s(d.pod)).value;
    c := MergeContainer(Some(container), ContainerToK8s(d.container)).value;
  }

  lemma ListsOneMore(contexts: map<string, Defaults>, names: set<string>, order: seq<Defaults>, m: string)
    requires Lists(contexts, names, order) && m in contexts
    ensures Lists(contexts, names + {m}, order + [contexts[m]])
  {
  }

  /** Merges the contexts into the workload's own, in the order in which the map is iterated. */
  method MergeContexts(spec: PodSpec, contexts: map<string, Defaults>)
    returns (r: Recommended, ghost order: seq<Defaults>)
    ensures Lists(contexts, contexts.Keys, order) && r == Recommend(spec, order)
  {
    var pod, container := OwnContexts(spec);
    order := [];
    var rest := contexts.Keys;
    while rest != {}
      invariant rest <= contexts.Keys && Lists(contexts, contexts.Keys - rest, order)
      invariant Contexts(pod, container) == Fold(Original(spec), order)
      decreases |rest|
    {
      var m :| m in rest;
      FoldEnd(Original(spec), order, contexts[m]);
      ListsOneMore(contexts, contexts.Keys - rest, order, m);
      assert contexts.Keys - (rest - {m}) == contexts.Keys - rest + {m};
      rest := rest - {m};
      order := order + [contexts[m]];
      pod, container := MergeOne(pod, container, contexts[m]);
    }
    assert contexts.Keys - rest == contexts.Keys;
    r := Recommended(Some(pod), Some(container));
  }

  /** The recommendation is the workload's own context with the contexts of the accepted runs merged into it, in some
      order; without any such run it is just the own context. The runs carry the context they were given. */
  method SetRecommendation(spec: PodSpec, runs: CheckRuns) returns (r: Recommended)
    requires forall n | n in runs && Accepted(runs[n]) :: runs[n].securityContext.Some?
    ensures exists order :: ContextsOf(runs, order) && r == Recommend(spec, order)
    ensures KeepsOwn(spec, r)
    ensures (forall n | n in runs :: runs[n].name == "baseline" || runs[n].checkSuccessful == Some(false)) ==>
              IsOnlyOwn(spec, r)
  {
    var contexts := CollectContexts(runs);
    ghost var order;
    r, order := MergeContexts(spec, contexts);
    OrderHoldsContexts(runs, contexts, order);
    RecommendedFrom(spec, runs, order);
  }

  lemma RecommendedFrom(spec: PodSpec, runs: CheckRuns, order: seq<Defaults>)
    requires ContextsOf(runs, order)
    ensures KeepsOwn(spec, Recommend(spec, order))
    ensures (forall n | n in runs :: runs[n].name == "baseline" || runs[n].checkSuccessful == Some(false)) ==>
              IsOnlyOwn(spec, Recommend(spec, order))
  {
    RecommendKeepsOwn(spec, order);
    if forall n | n in runs :: runs[n].name == "baseline" || runs[n].checkSuccessful == Some(false) {
      NothingAccepted(runs, order);
    }
  }

  lemma FirstIsMember(order: seq<Defaults>)
    ensures order != [] ==> exists d :: d in order
  {
    if order != [] { assert order[0] in order; }
  }

  lemma NothingAccepted(runs: CheckRuns, order: seq<Defaults>)
    requires ContextsOf(runs, order)
    requires forall n | n in runs :: runs[n].name == "baseline" || runs[n].checkSuccessful == Some(false)
    ensures order == []
  {
    FirstIsMember(order);
  }

  lemma OrderHoldsContexts(runs: CheckRuns, contexts: map<string, Defaults>, order: seq<Defaults>)
    requires Collected(runs, runs.Keys, contexts) && Lists(contexts, contexts.Keys, order)
    ensures ContextsOf(runs, order)
  {
    forall d | d in order ensures exists n :: n in runs && Accepted(runs[n]) && runs[n].securityContext == Some(d) {
      var m :| m in contexts && contexts[m] == d;
    }
    if KeyedByName(runs) {
      forall n | n in runs && Accepted(runs[n]) ensures exists d :: d in order && runs[n].securityContext == Some(d) {
        assert runs[n].name in contexts && contexts[n] in order;
      }
    }
  }

  lemma {:induction false} FoldEnd(acc: Contexts, runs: seq<Defaults>, d: Defaults)
    ensures Fold(acc, runs + [d]) == Extend(Fold(acc, runs), d)
    decreases |runs|
  {
    if runs == [] {
      FoldStep(acc, [], d);
      assert [] + [d] == [d] + [];
    } else {
      FoldEnd(Extend(acc, runs[0]), runs[1..], d);
      assert (runs + [d])[1..] == runs[1..] + [d];
    }
  }

  /** The recommendation is a function of the runs: where the accepted runs agree with each other, every execution
      gives the same one, whatever the iteration orders. */
  lemma RecommendationUnique(spec: PodSpec, runs: CheckRuns, xs: seq<Defaults>, ys: seq<Defaults>)
    requires KeyedByName(runs) && ContextsOf(runs, xs) && ContextsOf(runs, ys)
    requires PairwiseAgree(Original(spec), xs)
    ensures Recommend(spec, xs) == Recommend(spec, ys)
  {
    ContextsIncluded(runs, xs, ys);
    ContextsIncluded(runs, ys, xs);
    AgreementSuffices(Original(spec), xs, ys);
  }

  lemma ContextsIncluded(runs: CheckRuns, xs: seq<Defaults>, ys: seq<Defaults>)
    requires KeyedByName(runs) && ContextsOf(runs, xs) && ContextsOf(runs, ys)
    ensures forall d | d in xs :: d in ys
  {
    forall d | d in xs ensures d in ys {
      var n :| n in runs && Accepted(runs[n]) && runs[n].securityContext == Some(d);
      var e :| e in ys && runs[n].securityContext == Some(e);
    }
  }

  /** The recommendation drops a capability exactly if the workload's main container does, or the context of a run that
      is neither called "baseline" nor marked failed lists it. */
  lemma RecommendedDrop(spec: PodSpec, runs: CheckRuns, order: seq<Defaults>, x: Capability)
    requires KeyedByName(runs) && ContextsOf(runs, order)
    ensures var c := Recommend(spec, order).container;
            && c.Some?
            && (c.value.capabilities.Some? && x in c.value.capabilities.value.drop <==>
                  || (|spec.containers| > 0 && spec.containers[0].Some? && spec.containers[0].value.capabilities.Some?
                      && x in spec.containers[0].value.capabilities.value.drop)
                  || exists n :: n in runs && RunDrops(runs[n], x))
  {
    DropProvenance(Original(spec), order, x);
    if d :| d in order && x in DroppedBy(d) {
      var n :| n in runs && Accepted(runs[n]) && runs[n].securityContext == Some(d);
      if d.container.Some? { ContainerConverted(d.container.value); }
      assert RunDrops(runs[n], x);
    }
    if n :| n in runs && RunDrops(runs[n], x) {
      assert Accepted(runs[n]);
      var d :| d in order && runs[n].securityContext == Some(d);
      ContainerConverted(d.container.value);
      assert d in order && x in DroppedBy(d);
    }
  }

  predicate RunDrops(run: CheckRun, x: Capability) {
    && run.name != "baseline" && (run.checkSuccessful.None? || run.checkSuccessful.value)
    && run.securityContext.Some? && run.securityContext.value.container.Some?
    && run.securityContext.value.container.value.capabilitiesDrop.Some?
    && x in run.securityContext.value.container.value.capabilitiesDrop.value
  }
}
