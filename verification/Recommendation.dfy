/** The recommendation: the contexts of the check runs that did not fail, merged one after the other into the
    workload's own context. The runs come out of a Go map, in arbitrary order. */
module Recommendation {
  import opened Options
  import opened SecurityContexts
  import opened Checks

  /** The pod context and the context of the main container. */
  datatype Contexts = Contexts(pod: PodContext, container: ContainerContext)

  function PodPart(d: Defaults): PodContext { if d.pod.None? then NO_POD_CONTEXT else PodToK8s(d.pod).value }

  function ContainerPart(d: Defaults): ContainerContext {
    if d.container.None? then NO_CONTAINER_CONTEXT else ContainerToK8s(d.container).value
  }

  function Extend(acc: Contexts, d: Defaults): Contexts {
    Contexts(MergePod(Some(acc.pod), PodToK8s(d.pod)).value,
             MergeContainer(Some(acc.container), ContainerToK8s(d.container)).value)
  }

  function Fold(acc: Contexts, runs: seq<Defaults>): Contexts
    decreases |runs|
  {
    if runs == [] then acc else Fold(Extend(acc, runs[0]), runs[1..])
  }

  // ---------- Fields ----------

  datatype Field = PodUser | PodGroup | PodFsGroup | PodNonRoot | PodSeccomp | PodSupplementalGroups
    | ContainerUser | ContainerGroup | ContainerPrivileged | ContainerEscalation | ContainerReadOnly | ContainerSeccomp

  datatype Value = Num(n: int) | Flag(b: bool) | Nums(ns: seq<int>) | Profile(p: Seccomp)

  function Wrap<T>(o: Option<T>, f: T -> Value): Option<Value> { if o.None? then None else Some(f(o.value)) }

  /** The scalar fields that the merges copy and a check run can set. */
  function Get(x: Contexts, f: Field): Option<Value> {
    match f
    case PodUser => Wrap(x.pod.runAsUser, n => Num(n))
    case PodGroup => Wrap(x.pod.runAsGroup, n => Num(n))
    case PodFsGroup => Wrap(x.pod.fsGroup, n => Num(n))
    case PodNonRoot => Wrap(x.pod.runAsNonRoot, b => Flag(b))
    case PodSeccomp => Wrap(x.pod.seccompProfile, p => Profile(p))
    case PodSupplementalGroups => Wrap(x.pod.supplementalGroups, ns => Nums(ns))
    case ContainerUser => Wrap(x.container.runAsUser, n => Num(n))
    case ContainerGroup => Wrap(x.container.runAsGroup, n => Num(n))
    case ContainerPrivileged => Wrap(x.container.privileged, b => Flag(b))
    case ContainerEscalation => Wrap(x.container.allowPrivilegeEscalation, b => Flag(b))
    case ContainerReadOnly => Wrap(x.container.readOnlyRootFilesystem, b => Flag(b))
    case ContainerSeccomp => Wrap(x.container.seccompProfile, p => Profile(p))
  }

  function SetBy(d: Defaults, f: Field): Option<Value> { Get(Contexts(PodPart(d), ContainerPart(d)), f) }

  function Dropped(c: Option<Capabilities>): set<Capability> { if c.None? then {} else c.value.drop }

  function Added(c: Option<Capabilities>): Option<seq<Capability>> { if c.None? then None else c.value.add }

  function DroppedBy(d: Defaults): set<Capability> { Dropped(ContainerPart(d).capabilities) }

  /** The fields that no check run can influence. */
  function Untouched(x: Contexts): Contexts {
    Contexts(x.pod.(runAsUser := None, runAsGroup := None, fsGroup := None, runAsNonRoot := None,
                    seccompProfile := None, supplementalGroups := None),
             x.container.(runAsUser := None, runAsGroup := None, capabilities := None, privileged := None,
                          allowPrivilegeEscalation := None, readOnlyRootFilesystem := None, seccompProfile := None))
  }

  lemma ExtendFields(acc: Contexts, d: Defaults, f: Field)
    ensures Get(Extend(acc, d), f) == Or(Get(acc, f), SetBy(d, f))
    ensures Dropped(Extend(acc, d).container.capabilities) == Dropped(acc.container.capabilities) + DroppedBy(d)
    ensures Added(Extend(acc, d).container.capabilities) == Added(acc.container.capabilities)
    ensures Untouched(Extend(acc, d)) == Untouched(acc)
  {
  }

  lemma FoldStep(acc: Contexts, runs: seq<Defaults>, d: Defaults)
    ensures Fold(acc, [d] + runs) == Fold(Extend(acc, d), runs)
  {
    assert ([d] + runs)[1..] == runs;
  }

  // ---------- Provenance ----------

  /** Every value of the result is the workload's own or was set by a run; the workload's own values survive; what
      some run sets is set. */
  lemma {:induction false} Provenance(acc: Contexts, runs: seq<Defaults>, f: Field)
    ensures Get(acc, f).Some? ==> Get(Fold(acc, runs), f) == Get(acc, f)
    ensures Get(Fold(acc, runs), f).Some? && Get(acc, f).None? ==>
              exists d :: d in runs && SetBy(d, f) == Get(Fold(acc, runs), f)
    ensures Get(Fold(acc, runs), f).None? ==> forall d | d in runs :: SetBy(d, f).None?
    decreases |runs|
  {
    if runs != [] {
      var d := runs[0];
      ExtendFields(acc, d, f);
      Provenance(Extend(acc, d), runs[1..], f);
      if Get(Fold(acc, runs), f).Some? && Get(acc, f).None? {
        if SetBy(d, f).Some? {
          assert d in runs && SetBy(d, f) == Get(Fold(acc, runs), f);
        } else {
          var e :| e in runs[1..] && SetBy(e, f) == Get(Fold(acc, runs), f);
          assert e in runs;
        }
      }
      assert forall e | e in runs :: e == d || e in runs[1..];
    }
  }

  /** Drop is exactly the union; the capabilities added and the fields that the merges do not copy stay the
      workload's own. */
  lemma {:induction false} DropProvenance(acc: Contexts, runs: seq<Defaults>, c: Capability)
    ensures c in Dropped(Fold(acc, runs).container.capabilities)
       <==> c in Dropped(acc.container.capabilities) || exists d :: d in runs && c in DroppedBy(d)
    ensures Added(Fold(acc, runs).container.capabilities) == Added(acc.container.capabilities)
    ensures Untouched(Fold(acc, runs)) == Untouched(acc)
    decreases |runs|
  {
    if runs != [] {
      var d := runs[0];
      ExtendFields(acc, d, PodUser);
      DropProvenance(Extend(acc, d), runs[1..], c);
      assert forall e :: e in runs <==> e == d || e in runs[1..];
    }
  }

  /** A capabilities structure is present if the workload has one or something is dropped. */
  lemma {:induction false} CapabilitiesPresent(acc: Contexts, runs: seq<Defaults>)
    ensures var c := Fold(acc, runs).container.capabilities;
            c.Some? <==> acc.container.capabilities.Some? || Dropped(c) != {}
    decreases |runs|
  {
    if runs != [] {
      var next := Extend(acc, runs[0]);
      ExtendFields(acc, runs[0], PodUser);
      CapabilitiesPresent(next, runs[1..]);
      DropListed(runs[0]);
      if next.container.capabilities.Some? && acc.container.capabilities.None? {
        var c :| c in Dropped(next.container.capabilities);
        DropProvenance(next, runs[1..], c);
      }
    }
  }

  lemma DropListed(d: Defaults)
    ensures ContainerPart(d).capabilities.Some? ==> DroppedBy(d) != {}
  {
    if d.container.Some? && d.container.value.capabilitiesDrop.Some? && d.container.value.capabilitiesDrop.value != [] {
      assert d.container.value.capabilitiesDrop.value[0] in DroppedBy(d);
    }
  }

  // ---------- The order of the runs ----------

  /** Where the workload leaves a field unset, two runs that set it agree on it. */
  ghost predicate AgreeOn(acc: Contexts, x: Defaults, y: Defaults, f: Field) {
    Get(acc, f).Some? || SetBy(x, f).None? || SetBy(y, f).None? || SetBy(x, f) == SetBy(y, f)
  }

  ghost predicate PairwiseAgree(acc: Contexts, runs: seq<Defaults>) {
    forall x, y, f | x in runs && y in runs :: AgreeOn(acc, x, y, f)
  }

  ghost predicate IsOrderOf(order: seq<Defaults>, runs: seq<Defaults>) { multiset(order) == multiset(runs) }

  ghost predicate OrderIrrelevant(acc: Contexts, runs: seq<Defaults>) {
    forall order | IsOrderOf(order, runs) :: Fold(acc, order) == Fold(acc, runs)
  }

  lemma SameRuns(order: seq<Defaults>, runs: seq<Defaults>)
    requires IsOrderOf(order, runs)
    ensures forall d :: d in order <==> d in runs
  {
    forall d ensures d in order <==> d in runs {
      assert d in order <==> d in multiset(order);
      assert d in runs <==> d in multiset(runs);
    }
  }

  lemma PodsEqual(x: Contexts, y: Contexts)
    requires forall f :: Get(x, f) == Get(y, f)
    requires Untouched(x) == Untouched(y)
    ensures x.pod == y.pod
  {
    assert Get(x, PodUser) == Get(y, PodUser) && Get(x, PodGroup) == Get(y, PodGroup)
           && Get(x, PodFsGroup) == Get(y, PodFsGroup);
    assert Get(x, PodNonRoot) == Get(y, PodNonRoot) && Get(x, PodSeccomp) == Get(y, PodSeccomp);
    assert Get(x, PodSupplementalGroups) == Get(y, PodSupplementalGroups);
  }

  lemma ContainersEqual(x: Contexts, y: Contexts)
    requires forall f :: Get(x, f) == Get(y, f)
    requires Untouched(x) == Untouched(y)
    requires x.container.capabilities == y.container.capabilities
    ensures x.container == y.container
  {
    assert Get(x, ContainerUser) == Get(y, ContainerUser) && Get(x, ContainerGroup) == Get(y, ContainerGroup);
    assert Get(x, ContainerPrivileged) == Get(y, ContainerPrivileged)
           && Get(x, ContainerEscalation) == Get(y, ContainerEscalation);
    assert Get(x, ContainerReadOnly) == Get(y, ContainerReadOnly)
           && Get(x, ContainerSeccomp) == Get(y, ContainerSeccomp);
  }

  /** Where the runs agree, a scalar field does not even depend on how often a run is merged. */
  lemma FieldOrderIrrelevant(acc: Contexts, xs: seq<Defaults>, ys: seq<Defaults>, f: Field)
    requires PairwiseAgree(acc, xs)
    requires forall d :: d in xs <==> d in ys
    ensures Get(Fold(acc, xs), f) == Get(Fold(acc, ys), f)
  {
    Provenance(acc, xs, f);
    Provenance(acc, ys, f);
    if Get(acc, f).None? && Get(Fold(acc, xs), f).Some? && Get(Fold(acc, ys), f).Some? {
      var x :| x in xs && SetBy(x, f) == Get(Fold(acc, xs), f);
      var y :| y in ys && SetBy(y, f) == Get(Fold(acc, ys), f);
      assert AgreeOn(acc, x, y, f);
    }
  }

  lemma CapabilitiesOrderIrrelevant(acc: Contexts, xs: seq<Defaults>, ys: seq<Defaults>)
    requires forall d :: d in xs <==> d in ys
    ensures Fold(acc, xs).container.capabilities == Fold(acc, ys).container.capabilities
    ensures Untouched(Fold(acc, xs)) == Untouched(Fold(acc, ys))
  {
    var a, b := Fold(acc, xs).container.capabilities, Fold(acc, ys).container.capabilities;
    forall c: Capability ensures c in Dropped(a) <==> c in Dropped(b) {
      DropProvenance(acc, xs, c);
      DropProvenance(acc, ys, c);
    }
    assert Dropped(a) == Dropped(b);
    DropProvenance(acc, xs, "");
    DropProvenance(acc, ys, "");
    CapabilitiesPresent(acc, xs);
    CapabilitiesPresent(acc, ys);
  }

  lemma AgreementSuffices(acc: Contexts, xs: seq<Defaults>, ys: seq<Defaults>)
    requires PairwiseAgree(acc, xs)
    requires forall d :: d in xs <==> d in ys
    ensures Fold(acc, xs) == Fold(acc, ys)
  {
    forall f ensures Get(Fold(acc, xs), f) == Get(Fold(acc, ys), f) { FieldOrderIrrelevant(acc, xs, ys, f); }
    CapabilitiesOrderIrrelevant(acc, xs, ys);
    PodsEqual(Fold(acc, xs), Fold(acc, ys));
    ContainersEqual(Fold(acc, xs), Fold(acc, ys));
  }

  /** A run that is merged first decides every field that it sets and the workload does not. */
  lemma FirstDecides(acc: Contexts, d: Defaults, runs: seq<Defaults>, f: Field)
    requires Get(acc, f).None? && SetBy(d, f).Some?
    ensures Get(Fold(acc, [d] + runs), f) == SetBy(d, f)
  {
    FoldStep(acc, runs, d);
    ExtendFields(acc, d, f);
    Provenance(Extend(acc, d), runs, f);
  }

  function FirstRun(runs: seq<Defaults>, i: nat): seq<Defaults>
    requires i < |runs|
  {
    [runs[i]] + (runs[..i] + runs[i + 1..])
  }

  lemma FirstRunIsOrder(runs: seq<Defaults>, i: nat)
    requires i < |runs|
    ensures IsOrderOf(FirstRun(runs, i), runs)
  {
    assert runs == runs[..i] + ([runs[i]] + runs[i + 1..]);
    assert multiset(runs) == multiset(runs[..i]) + (multiset([runs[i]]) + multiset(runs[i + 1..]));
  }

  lemma AgreementNeeded(acc: Contexts, runs: seq<Defaults>, x: Defaults, y: Defaults, f: Field)
    requires OrderIrrelevant(acc, runs) && x in runs && y in runs
    ensures AgreeOn(acc, x, y, f)
  {
    if !AgreeOn(acc, x, y, f) {
      var i :| 0 <= i < |runs| && runs[i] == x;
      var j :| 0 <= j < |runs| && runs[j] == y;
      FirstRunIsOrder(runs, i);
      FirstRunIsOrder(runs, j);
      FirstDecides(acc, x, runs[..i] + runs[i + 1..], f);
      FirstDecides(acc, y, runs[..j] + runs[j + 1..], f);
    }
  }

  /** The recommendation is the same for every order of the runs exactly if the runs agree, pair by pair, on each
      scalar field that several of them set and the workload does not. */
  lemma OrderIrrelevantExactlyIfAgree(acc: Contexts, runs: seq<Defaults>)
    ensures OrderIrrelevant(acc, runs) <==> PairwiseAgree(acc, runs)
  {
    if PairwiseAgree(acc, runs) {
      forall order | IsOrderOf(order, runs) ensures Fold(acc, order) == Fold(acc, runs) {
        SameRuns(order, runs);
        AgreementSuffices(acc, runs, order);
      }
    }
    if OrderIrrelevant(acc, runs) {
      forall x, y, f | x in runs && y in runs ensures AgreeOn(acc, x, y, f) { AgreementNeeded(acc, runs, x, y, f); }
    }
  }

  // ---------- Runs of the five checks ----------

  function BuiltFrom(base: Defaults, ks: seq<Kind>): seq<Defaults>
    requires HasPartsForAll(ks, base)
  {
    seq(|ks|, i requires 0 <= i < |ks| => assert ks[i] in ks; WithDefaults(ks[i], base))
  }

  /** The user check asks for user 1000 where the group check asks for the user preset for the pod. */
  predicate UserAndGroupDisagree(acc: Contexts, base: Defaults, ks: seq<Kind>)
    requires HasPartsForAll(ks, base)
  {
    && User in ks && Group in ks
    && base.container.value.runAsUser.None? && acc.container.runAsUser.None?
    && base.pod.value.runAsUser.Some? && base.pod.value.runAsUser.value != DEFAULT_USER
  }

  lemma PairAgrees(acc: Contexts, base: Defaults, j: Kind, k: Kind, f: Field)
    requires HasParts(j, base) && HasParts(k, base) && !UserAndGroupDisagree(acc, base, [j, k])
    ensures AgreeOn(acc, WithDefaults(j, base), WithDefaults(k, base), f)
  {
  }

  /** Runs of the checks from one unshared base have an order-independent recommendation exactly if not both user and
      group ran on a base that presets a pod user other than 1000 and no container user, for a workload that has no
      container user of its own. The base has the parts that its checks dereference. */
  lemma ChecksOrderIrrelevant(acc: Contexts, base: Defaults, ks: seq<Kind>)
    requires HasPartsForAll(ks, base)
    ensures OrderIrrelevant(acc, BuiltFrom(base, ks)) <==> !UserAndGroupDisagree(acc, base, ks)
  {
    var runs := BuiltFrom(base, ks);
    OrderIrrelevantExactlyIfAgree(acc, runs);
    if UserAndGroupDisagree(acc, base, ks) {
      var i :| 0 <= i < |ks| && ks[i] == User;
      var j :| 0 <= j < |ks| && ks[j] == Group;
      assert runs[i] in runs && runs[j] in runs;
      assert !AgreeOn(acc, runs[i], runs[j], ContainerUser);
    } else {
      forall x, y, f | x in runs && y in runs ensures AgreeOn(acc, x, y, f) {
        var i :| 0 <= i < |ks| && runs[i] == x;
        var j :| 0 <= j < |ks| && runs[j] == y;
        assert ks[i] in ks && ks[j] in ks;
        PairAgrees(acc, base, ks[i], ks[j], f);
      }
    }
  }
}
