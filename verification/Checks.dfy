/** The five checks: the context each of them tests, and when a workload needs it. */
module Checks {
  import opened Options
  import opened SecurityContexts

  datatype Kind = User | Group | DropAllCapabilities | ReadOnlyRootFilesystem | AllowPrivilegeEscalation

  function AllKinds(): set<Kind> {
    {User, Group, DropAllCapabilities, ReadOnlyRootFilesystem, AllowPrivilegeEscalation}
  }

  const DEFAULT_USER := 1000

  /** A check dereferences both parts of the base context, unless it touches only the container part. */
  predicate HasParts(k: Kind, base: Defaults) {
    base.container.Some? && (k == User || k == Group ==> base.pod.Some?)
  }

  function WithDefaults(k: Kind, base: Defaults): Defaults
    requires HasParts(k, base)
  {
    var c := base.container.value;
    match k
    case User =>
      var p := base.pod.value;
      Defaults(
        Some(p.(runAsUser := Or(p.runAsUser, Some(DEFAULT_USER)), runAsNonRoot := Or(p.runAsNonRoot, Some(true)))),
        Some(c.(runAsUser := Or(c.runAsUser, Some(DEFAULT_USER)), runAsNonRoot := Or(c.runAsNonRoot, Some(true)))))
    case Group =>
      var p := base.pod.value;
      var user := Or(p.runAsUser, Some(DEFAULT_USER));
      var group := Or(p.runAsGroup, user);
      Defaults(Some(p.(runAsUser := user, runAsGroup := group, fsGroup := Or(p.fsGroup, group))),
               Some(c.(runAsUser := Or(c.runAsUser, user), runAsGroup := Or(c.runAsGroup, group))))
    case DropAllCapabilities =>
      base.(container := Some(c.(capabilitiesDrop := Or(c.capabilitiesDrop, Some(["ALL"])))))
    case ReadOnlyRootFilesystem =>
      base.(container := Some(c.(readOnlyRootFilesystem := Or(c.readOnlyRootFilesystem, Some(true)))))
    case AllowPrivilegeEscalation =>
      base.(container := Some(c.(allowPrivilegeEscalation := Or(c.allowPrivilegeEscalation, Some(false)))))
  }

  // ---------- Which checks a workload needs ----------

  /** Containers that do not hold the hardened value yet. */
  predicate Weak(k: Kind, c: Option<ContainerContext>) {
    c.None? || match k
      case DropAllCapabilities => c.value.capabilities.None? || c.value.capabilities.value.drop == {}
      case ReadOnlyRootFilesystem => c.value.readOnlyRootFilesystem != Some(true)
      case AllowPrivilegeEscalation => c.value.allowPrivilegeEscalation != Some(false)
      case _ => false
  }

  function ShouldRun(k: Kind, spec: PodSpec): bool {
    match k
    case User =>
      || spec.securityContext.None?
      || spec.securityContext.value.runAsUser.None?
      || spec.securityContext.value.runAsNonRoot.None?
    case Group =>
      || spec.securityContext.None?
      || spec.securityContext.value.runAsGroup.None?
      || spec.securityContext.value.fsGroup.None?
    case _ => exists c | c in spec.containers :: Weak(k, c)
  }

  /** The loop over containers, with its early return. */
  method AnyContainerWeak(k: Kind, spec: PodSpec) returns (run: bool)
    requires k != User && k != Group
    ensures run == ShouldRun(k, spec)
  {
    for i := 0 to |spec.containers|
      invariant forall j | 0 <= j < i :: !Weak(k, spec.containers[j])
    {
      if Weak(k, spec.containers[i]) { return true; }
    }
    return false;
  }

  function AppliedTo(spec: PodSpec, d: Defaults): PodSpec { Apply(spec, ContainerToK8s(d.container), PodToK8s(d.pod)) }

  /** The value that a workload's own setting can hold against the check. */
  predicate HoldsWeakValue(k: Kind, c: Option<ContainerContext>) {
    c.Some? && match k
      case ReadOnlyRootFilesystem => c.value.readOnlyRootFilesystem == Some(false)
      case AllowPrivilegeEscalation => c.value.allowPrivilegeEscalation == Some(true)
      case _ => false
  }

  lemma WeakAfterOwnContext(k: Kind, c: Option<ContainerContext>)
    requires k != User && k != Group
    ensures Weak(k, MergeContainer(c, ContainerToK8s(WithDefaults(k, UNSET).container))) <==> HoldsWeakValue(k, c)
  {
    if k == DropAllCapabilities {
      assert ["ALL"][0] in Members(["ALL"]);
      var after := MergeContainer(c, ContainerToK8s(WithDefaults(k, UNSET).container));
      assert "ALL" in after.value.capabilities.value.drop;
    } else if c.Some? {
      BoolOption(c.value.readOnlyRootFilesystem);
      BoolOption(c.value.allowPrivilegeEscalation);
    }
  }

  lemma BoolOption(o: Option<bool>)
    ensures o == None || o == Some(true) || o == Some(false)
  {
    if o.Some? { assert if o.value then o == Some(true) else o == Some(false); }
  }

  /** After its own context, built from an unset base, was applied to any pod spec, a check is needed again exactly
      if some container explicitly held the weak value; for user, group and dropAllCapabilities it never is. */
  lemma ChecksConverge(k: Kind, spec: PodSpec)
    ensures ShouldRun(k, AppliedTo(spec, WithDefaults(k, UNSET)))
            <==> exists c | c in spec.containers :: HoldsWeakValue(k, c)
    ensures k == User || k == Group || k == DropAllCapabilities ==>
              !ShouldRun(k, AppliedTo(spec, WithDefaults(k, UNSET)))
  {
    if k != User && k != Group {
      var x := ContainerToK8s(WithDefaults(k, UNSET).container);
      var after := AppliedTo(spec, WithDefaults(k, UNSET)).containers;
      forall i | 0 <= i < |spec.containers| ensures Weak(k, after[i]) <==> HoldsWeakValue(k, spec.containers[i]) {
        WeakAfterOwnContext(k, spec.containers[i]);
      }
      if c :| c in after && Weak(k, c) {
        var i :| 0 <= i < |after| && after[i] == c;
        assert spec.containers[i] in spec.containers && HoldsWeakValue(k, spec.containers[i]);
      }
      if c :| c in spec.containers && HoldsWeakValue(k, c) {
        var i :| 0 <= i < |spec.containers| && spec.containers[i] == c;
        assert after[i] in after && Weak(k, after[i]);
      }
    }
  }

  // ---------- Sharing the base context ----------

  /** Every field that is set in `a` has the same value in `b`. */
  ghost predicate Preserves(a: Defaults, b: Defaults) {
    && (a.pod.Some? ==> b.pod.Some? && var p, q := a.pod.value, b.pod.value;
          && (p.fsGroup.Some? ==> q.fsGroup == p.fsGroup) && (p.runAsUser.Some? ==> q.runAsUser == p.runAsUser)
          && (p.runAsGroup.Some? ==> q.runAsGroup == p.runAsGroup)
          && (p.runAsNonRoot.Some? ==> q.runAsNonRoot == p.runAsNonRoot)
          && q.supplementalGroups == p.supplementalGroups && q.seccompProfile == p.seccompProfile)
    && (a.container.Some? ==> b.container.Some? && var c, d := a.container.value, b.container.value;
          && (c.runAsNonRoot.Some? ==> d.runAsNonRoot == c.runAsNonRoot)
          && (c.readOnlyRootFilesystem.Some? ==> d.readOnlyRootFilesystem == c.readOnlyRootFilesystem)
          && (c.allowPrivilegeEscalation.Some? ==> d.allowPrivilegeEscalation == c.allowPrivilegeEscalation)
          && (c.capabilitiesDrop.Some? ==> d.capabilitiesDrop == c.capabilitiesDrop)
          && d.seccompProfile == c.seccompProfile
          && (c.runAsUser.Some? ==> d.runAsUser == c.runAsUser)
          && (c.runAsGroup.Some? ==> d.runAsGroup == c.runAsGroup))
  }

  /** The container part is dereferenced by every check, the pod part by user and group only. */
  predicate HasPartsForAll(ks: seq<Kind>, base: Defaults) { forall k | k in ks :: HasParts(k, base) }

  /** The base after a sequence of checks has filled it in, one after the other. */
  function Accumulated(base: Defaults, ks: seq<Kind>): Defaults
    requires HasPartsForAll(ks, base)
    decreases |ks|
  {
    if ks == [] then base
    else
      PartsStay(ks[0], base, ks[1..]);
      Accumulated(WithDefaults(ks[0], base), ks[1..])
  }

  lemma PartsStay(k: Kind, base: Defaults, ks: seq<Kind>)
    requires HasParts(k, base)
    ensures WithDefaults(k, base).pod.Some? <==> base.pod.Some?
    ensures HasPartsForAll(ks, base) ==> HasPartsForAll(ks, WithDefaults(k, base))
  {
  }

  /** No sequence of checks on a shared base overwrites a field that was set before; running a check again changes
      nothing, since by then all its fields are set. A base without a pod part will do for the checks that concern
      containers only. */
  lemma {:induction false} ChecksNeverOverwrite(base: Defaults, ks: seq<Kind>)
    requires HasPartsForAll(ks, base)
    ensures var acc := Accumulated(base, ks);
            && Preserves(base, acc) && (acc.pod.Some? <==> base.pod.Some?) && HasPartsForAll(ks, acc)
            && forall k | k in ks :: WithDefaults(k, acc) == acc
    decreases |ks|
  {
    if ks != [] {
      var next := WithDefaults(ks[0], base);
      assert HasParts(ks[0], base);
      PartsStay(ks[0], base, ks[1..]);
      ChecksNeverOverwrite(next, ks[1..]);
      var acc := Accumulated(base, ks);
      CheckPreserves(ks[0], base);
      PreservesTransitive(base, next, acc);
      SettledStaysSettled(ks[0], base, acc);
      forall k | k in ks ensures HasParts(k, acc) && WithDefaults(k, acc) == acc { assert k == ks[0] || k in ks[1..]; }
    }
  }

  lemma CheckPreserves(k: Kind, base: Defaults)
    requires HasParts(k, base)
    ensures Preserves(base, WithDefaults(k, base))
  {
  }

  lemma PreservesTransitive(a: Defaults, b: Defaults, c: Defaults)
    requires Preserves(a, b) && Preserves(b, c)
    ensures Preserves(a, c)
  {
  }

  lemma SettledStaysSettled(k: Kind, base: Defaults, acc: Defaults)
    requires HasParts(k, base) && Preserves(WithDefaults(k, base), acc)
    ensures HasParts(k, acc) && WithDefaults(k, acc) == acc
  {
  }

  /** The base context as an object. In a manager, the one in the spec is used by all checks; without it, each check
      gets an object of its own. */
  class DefaultsObject {
    var pod: Option<PodDefaults>
    var container: Option<ContainerDefaults>

    constructor (d: Defaults)
      ensures Value() == d
    {
      pod, container := d.pod, d.container;
    }

    function Value(): Defaults
      reads this
    {
      Defaults(pod, container)
    }

    /** Fills in the argument and returns it. */
    method GetSecurityContextDefaults(k: Kind) returns (result: DefaultsObject)
      requires HasParts(k, Value())
      modifies this
      ensures result == this && Value() == WithDefaults(k, old(Value()))
    {
      match k {
        case User =>
          if pod.value.runAsUser.None? { pod := Some(pod.value.(runAsUser := Some(DEFAULT_USER))); }
          if pod.value.runAsNonRoot.None? { pod := Some(pod.value.(runAsNonRoot := Some(true))); }
          if container.value.runAsUser.None? { container := Some(container.value.(runAsUser := Some(DEFAULT_USER))); }
          if container.value.runAsNonRoot.None? { container := Some(container.value.(runAsNonRoot := Some(true))); }
        case Group =>
          if pod.value.runAsUser.None? { pod := Some(pod.value.(runAsUser := Some(DEFAULT_USER))); }
          if pod.value.runAsGroup.None? { pod := Some(pod.value.(runAsGroup := pod.value.runAsUser)); }
          if pod.value.fsGroup.None? { pod := Some(pod.value.(fsGroup := pod.value.runAsGroup)); }
          if container.value.runAsUser.None? { container := Some(container.value.(runAsUser := pod.value.runAsUser)); }
          if container.value.runAsGroup.None? {
            container := Some(container.value.(runAsGroup := pod.value.runAsGroup));
          }
        case DropAllCapabilities =>
          if container.value.capabilitiesDrop.None? {
            container := Some(container.value.(capabilitiesDrop := Some(["ALL"])));
          }
        case ReadOnlyRootFilesystem =>
          if container.value.readOnlyRootFilesystem.None? {
            container := Some(container.value.(readOnlyRootFilesystem := Some(true)));
          }
        case AllowPrivilegeEscalation =>
          if container.value.allowPrivilegeEscalation.None? {
            container := Some(container.value.(allowPrivilegeEscalation := Some(false)));
          }
      }
      return this;
    }
  }

  /** The context of a check, from the spec's context if it has one. */
  method GetSecurityContextForCheckType(spec: DefaultsObject?, k: Kind) returns (context: DefaultsObject)
    requires spec != null ==> HasParts(k, spec.Value())
    modifies spec
    ensures if spec == null then fresh(context) && context.Value() == WithDefaults(k, UNSET)
            else context == spec && context.Value() == WithDefaults(k, old(spec.Value()))
  {
    var base := spec;
    if base == null { base := new DefaultsObject(UNSET); }
    context := base.GetSecurityContextDefaults(k);
  }

  /** A pass that asks for the contexts of several checks without fetching the resource again in between. With a
      context in the spec, all of them are the same object, and each check run sees what every other check of the
      pass asked for. */
  method GetContexts(spec: DefaultsObject?, ks: seq<Kind>) returns (contexts: seq<DefaultsObject>)
    requires spec != null ==> HasPartsForAll(ks, spec.Value())
    modifies spec
    ensures |contexts| == |ks|
    ensures spec != null ==> spec.Value() == Accumulated(old(spec.Value()), ks)
    ensures forall i | 0 <= i < |ks| :: if spec == null then contexts[i].Value() == WithDefaults(ks[i], UNSET)
                                        else contexts[i] == spec
  {
    contexts := [];
    for i := 0 to |ks|
      invariant |contexts| == i
      invariant spec != null ==> HasPartsForAll(ks[i..], spec.Value()) && HasPartsForAll(ks, old(spec.Value()))
      invariant spec != null ==> Accumulated(old(spec.Value()), ks) == Accumulated(spec.Value(), ks[i..])
      invariant forall j | 0 <= j < i ::
                  if spec == null then fresh(contexts[j]) && contexts[j].Value() == WithDefaults(ks[j], UNSET)
                  else contexts[j] == spec
    {
      assert ks[i..][1..] == ks[i + 1..] && ks[i..][0] == ks[i] && ks[i] in ks[i..];
      if spec != null { PartsStay(ks[i], spec.Value(), ks[i + 1..]); }
      var context := GetSecurityContextForCheckType(spec, ks[i]);
      contexts := contexts + [context];
    }
  }
}
