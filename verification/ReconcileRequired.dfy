/** Which checks a pass submits: those that the template it has looked up last needs, and, in parallel mode, all of them
    that are neither recorded nor active. */
module ReconcileRequired {
  import opened Options
  import opened SecurityContexts
  import opened Checks
  import opened Manager
  import opened ReconcileProtocol
  import opened ReconcileInvariant
  import opened ReconcileSafety
  import opened ReconcileHistory
  import opened ReconcileTrace
  import opened ReconcileConditions

  /** The result of the last lookup of the workload in a pass. */
  function LastLookup(tr: seq<Step>): Option<Option<PodSpec>> {
    if tr == [] then None
    else
      var last := tr[|tr| - 1];
      if last.act.BranchesTo? && last.before.pc.LookUp? && last.act.next.Require? then Some(last.act.next.lookup)
      else LastLookup(tr[..|tr| - 1])
  }

  /** The workload was found, and its template needs the check. */
  predicate Needed(l: Option<Option<PodSpec>>, k: Kind) { l.Some? && l.value.Some? && ShouldRun(k, l.value.value) }

  /** The step passes over a check that is recorded or active, or submits it. */
  predicate Handles(step: Step, k: Kind) {
    || (step.act.BranchesTo? && step.before.pc.NextCheck? && step.act.next.NextCheck?
        && (FoundRecorded(step.before.view, CheckCondition(k)) || Check(k) in step.runners))
    || (step.act.SubmitsWith? && step.before.pc.SubmitCheck? && step.before.pc.kind == k)
  }

  ghost predicate Handled(tr: seq<Step>, k: Kind) { exists i | 0 <= i < |tr| :: Handles(tr[i], k) }

  /** The checks that a pass still has to deal with. */
  function Open(pc: Pc): set<Kind> {
    if pc.NextCheck? then pc.todo else if pc.CheckOverdue? || pc.SubmitCheck? then pc.todo + {pc.kind} else {}
  }

  predicate IsSubmitting(pc: Pc) { pc.NextCheck? || pc.CheckOverdue? || pc.SubmitCheck? }

  predicate KnowsLookup(pc: Pc) { pc.Require? || pc.AddCondition? || pc.AskChecks? || pc.ChecksStarted? }

  ghost predicate RequiredTold(pc: Pc, tr: seq<Step>) {
    && (KnowsLookup(pc) ==> LastLookup(tr) == Some(pc.lookup))
    && (IsSubmitting(pc) ==> forall k ::
          && (k in Open(pc) ==> Needed(LastLookup(tr), k))
          && (Needed(LastLookup(tr), k) ==> k in Open(pc) || Handled(tr, k)))
  }

  lemma LookupStays(tr: seq<Step>, step: Step)
    ensures step.act.BranchesTo? && step.before.pc.LookUp? && step.act.next.Require? ==>
              LastLookup(tr + [step]) == Some(step.act.next.lookup)
    ensures !(step.act.BranchesTo? && step.before.pc.LookUp?) ==> LastLookup(tr + [step]) == LastLookup(tr)
  {
    assert (tr + [step])[..|tr|] == tr;
  }

  lemma HandledStays(tr: seq<Step>, step: Step, k: Kind)
    ensures Handled(tr, k) ==> Handled(tr + [step], k)
    ensures Handles(step, k) ==> Handled(tr + [step], k)
  {
    if i :| 0 <= i < |tr| && Handles(tr[i], k) { assert Handles((tr + [step])[i], k); }
    if Handles(step, k) { assert Handles((tr + [step])[|tr|], k); }
  }

  lemma FinalBranchRequires(p: Pass, runners: set<CheckType>, next: Pc)
    requires FinalBranches(p, runners, next)
    ensures !IsSubmitting(next) && !KnowsLookup(next)
  {
  }

  lemma AskingRequires(p: Pass, next: Pc)
    requires AsksForChecks(p, next)
    ensures !IsSubmitting(next)
    ensures KnowsLookup(next) ==>
              (p.pc.LookUp? && next.Require?) || (KnowsLookup(p.pc) && !p.pc.LookUp? && next.lookup == p.pc.lookup)
  {
  }

  lemma RecordingRequires(cfg: Config, p: Pass, runners: set<CheckType>, next: Pc)
    requires RecordingBranches(cfg, p, runners, next)
    ensures !KnowsLookup(next) && !p.pc.LookUp? && (IsSubmitting(next) ==> p.pc.NextCheck?)
    ensures IsSubmitting(next) ==> Open(next) <= p.pc.todo
    ensures IsSubmitting(next) ==>
              forall k | k in p.pc.todo && k !in Open(next) :: Handles(Step(p, runners, BranchesTo(next)), k)
  {
  }

  lemma BranchRequires(cfg: Config, p: Pass, runners: set<CheckType>, next: Pc, tr: seq<Step>)
    requires Branches(cfg, p, runners, next) && RequiredTold(p.pc, tr)
    ensures RequiredTold(next, tr + [Step(p, runners, BranchesTo(next))])
  {
    var step := Step(p, runners, BranchesTo(next));
    LookupStays(tr, step);
    forall k: Kind
      ensures Handled(tr, k) ==> Handled(tr + [step], k)
      ensures Handles(step, k) ==> Handled(tr + [step], k)
    {
      HandledStays(tr, step, k);
    }
    if FinalBranches(p, runners, next) {
      FinalBranchRequires(p, runners, next);
    } else if AsksForChecks(p, next) {
      AskingRequires(p, next);
    } else {
      RecordingRequires(cfg, p, runners, next);
    }
  }

  lemma SetPlaces(pc: Pc, o: Outcome)
    requires PassSets(pc, o).Some? && PassSets(pc, o).value.2.Some?
    ensures var next := PassSets(pc, o).value.2.value;
            && (KnowsLookup(next) ==> KnowsLookup(pc) && next.lookup == pc.lookup)
            && (IsSubmitting(next) ==>
                  || (pc.ChecksStarted? && next == NextCheck(Required(pc.lookup)))
                  || (pc.CheckOverdue? && Open(next) == Open(pc)))
  {
  }

  lemma IsKind(k: Kind)
    ensures k in AllKinds()
  {
  }

  lemma SetRequires(pc: Pc, o: Outcome, step: Step, tr: seq<Step>)
    requires PassSets(pc, o).Some? && PassSets(pc, o).value.2.Some? && RequiredTold(pc, tr) && step.act.SetsCondition?
    ensures RequiredTold(PassSets(pc, o).value.2.value, tr + [step])
  {
    SetPlaces(pc, o);
    LookupStays(tr, step);
    forall k: Kind ensures Handled(tr, k) ==> Handled(tr + [step], k) { HandledStays(tr, step, k); }
    if pc.ChecksStarted? {
      forall k: Kind ensures k in Required(pc.lookup) <==> Needed(Some(pc.lookup), k) { IsKind(k); }
    }
  }

  lemma SubmissionRequires(cfg: Config, s: State, act: PassEvent, tr: seq<Step>)
    requires s.pass.Some? && PassCan(cfg, s, act) && act.SubmitsWith? && PassNext(cfg, s, act).pass.Some?
    requires RequiredTold(s.pass.value.pc, tr)
    ensures RequiredTold(PassNext(cfg, s, act).pass.value.pc, tr + [Step(s.pass.value, s.runners.Keys, act)])
  {
    var pc, step := s.pass.value.pc, Step(s.pass.value, s.runners.Keys, act);
    LookupStays(tr, step);
    forall k: Kind
      ensures Handled(tr, k) ==> Handled(tr + [step], k)
      ensures Handles(step, k) ==> Handled(tr + [step], k)
    {
      HandledStays(tr, step, k);
    }
    assert pc.SubmitCheck? ==> Handles(step, pc.kind);
  }

  lemma OtherPlaces(cfg: Config, s: State, act: PassEvent)
    requires s.pass.Some? && PassCan(cfg, s, act) && PassNext(cfg, s, act).pass.Some?
    requires !act.BranchesTo? && !act.SetsCondition? && !act.SubmitsWith?
    ensures var next := PassNext(cfg, s, act).pass.value.pc;
            next == s.pass.value.pc || (!KnowsLookup(next) && !IsSubmitting(next))
  {
  }

  lemma PassStepRequires(cfg: Config, s: State, act: PassEvent, tr: seq<Step>)
    requires s.pass.Some? && PassCan(cfg, s, act) && PassNext(cfg, s, act).pass.Some?
    requires RequiredTold(s.pass.value.pc, tr)
    ensures RequiredTold(PassNext(cfg, s, act).pass.value.pc, tr + [Step(s.pass.value, s.runners.Keys, act)])
  {
    var step := Step(s.pass.value, s.runners.Keys, act);
    match act
    case BranchesTo(next) => BranchRequires(cfg, s.pass.value, s.runners.Keys, next, tr);
    case SetsCondition(o) => SetRequires(s.pass.value.pc, o, step, tr);
    case SubmitsWith(_) => SubmissionRequires(cfg, s, act, tr);
    case _ => OtherRequires(cfg, s, act, tr);
  }

  lemma OtherRequires(cfg: Config, s: State, act: PassEvent, tr: seq<Step>)
    requires s.pass.Some? && PassCan(cfg, s, act) && PassNext(cfg, s, act).pass.Some?
    requires !act.BranchesTo? && !act.SetsCondition? && !act.SubmitsWith? && RequiredTold(s.pass.value.pc, tr)
    ensures RequiredTold(PassNext(cfg, s, act).pass.value.pc, tr + [Step(s.pass.value, s.runners.Keys, act)])
  {
    var step := Step(s.pass.value, s.runners.Keys, act);
    OtherPlaces(cfg, s, act);
    LookupStays(tr, step);
    forall k: Kind ensures Handled(tr, k) ==> Handled(tr + [step], k) { HandledStays(tr, step, k); }
  }

  lemma {:induction false} RunRequires(cfg: Config, s: State, events: seq<Event>)
    requires Possible(cfg, s, events) && s.pass.None?
    ensures var t := After(cfg, s, events); t.pass.Some? ==> RequiredTold(t.pass.value.pc, Trace(cfg, s, events))
    decreases |events|
  {
    if events != [] {
      var t, e := After(cfg, s, Front(events)), Last(events);
      LastStep(cfg, s, events);
      RunRequires(cfg, s, Front(events));
      match e
      case OfPass(act) =>
        if PassNext(cfg, t, act).pass.Some? { PassStepRequires(cfg, t, act, Trace(cfg, s, Front(events))); }
      case OfRunner(u, act) => RunnersStay(cfg, t, u, act);
      case _ =>
    }
  }

  /** A check run becomes active only if the template that its pass has looked up last needs the check. */
  lemma SubmittedIsNeeded(cfg: Config, stored: map<string, Manager.Recording>, events: seq<Event>, e: Event, k: Kind)
    requires Possible(cfg, Initial(stored), events) && Enabled(cfg, After(cfg, Initial(stored), events), e)
    requires Check(k) !in After(cfg, Initial(stored), events).runners
    requires Check(k) in Next(cfg, After(cfg, Initial(stored), events), e).runners
    ensures Needed(LastLookup(Trace(cfg, Initial(stored), events)), k)
  {
    var s := After(cfg, Initial(stored), events);
    RunRequires(cfg, Initial(stored), events);
    OnlySubmits(cfg, s, e, Check(k));
    SubmissionPlaces(cfg, s.pass.value, e.step.context);
    assert k in Open(s.pass.value.pc);
  }

  /** In parallel mode, a pass that has started to submit checks ends with having submitted every check that the
      template needs, or found it recorded or active. */
  lemma ParallelPassHandlesAll(cfg: Config, stored: map<string, Manager.Recording>, events: seq<Event>, k: Kind)
    requires Possible(cfg, Initial(stored), events) && cfg.parallel
    requires var s := After(cfg, Initial(stored), events);
             s.pass.Some? && s.pass.value.pc.NextCheck? && Enabled(cfg, s, OfPass(Returns))
    requires Needed(LastLookup(Trace(cfg, Initial(stored), events)), k)
    ensures Handled(Trace(cfg, Initial(stored), events), k)
  {
    RunRequires(cfg, Initial(stored), events);
  }
}
