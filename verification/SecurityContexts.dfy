/** Kubernetes security contexts as values, their merge, and its application to pod specs. A Drop list is compared as
    the set of its members, since the merge rebuilds it in no fixed order; an absent list and an empty one drop the
    same capabilities. */
module SecurityContexts {
  import opened Options

  type Capability = string

  /** Contents of structures that are only passed on as a whole. */
  type Opaque = string

  datatype Seccomp = Seccomp(profileType: string, localhostProfile: Option<string>)

  datatype Capabilities = Capabilities(add: Option<seq<Capability>>, drop: set<Capability>)

  datatype PodContext = PodContext(
    runAsUser: Option<int>,
    runAsGroup: Option<int>,
    fsGroup: Option<int>,
    runAsNonRoot: Option<bool>,
    seccompProfile: Option<Seccomp>,
    seLinuxOptions: Option<Opaque>,
    supplementalGroups: Option<seq<int>>,
    supplementalGroupsPolicy: Option<string>,
    // never merged
    windowsOptions: Option<Opaque>,
    sysctls: Option<Opaque>,
    fsGroupChangePolicy: Option<string>,
    appArmorProfile: Option<Opaque>,
    seLinuxChangePolicy: Option<string>)

  datatype ContainerContext = ContainerContext(
    runAsUser: Option<int>,
    runAsGroup: Option<int>,
    capabilities: Option<Capabilities>,
    privileged: Option<bool>,
    allowPrivilegeEscalation: Option<bool>,
    readOnlyRootFilesystem: Option<bool>,
    seccompProfile: Option<Seccomp>,
    seLinuxOptions: Option<Opaque>,
    // never merged
    runAsNonRoot: Option<bool>,
    windowsOptions: Option<Opaque>,
    procMount: Option<string>,
    appArmorProfile: Option<Opaque>)

  const NO_POD_CONTEXT := PodContext(None, None, None, None, None, None, None, None, None, None, None, None, None)
  const NO_CONTAINER_CONTEXT := ContainerContext(None, None, None, None, None, None, None, None, None, None, None, None)

  function Or<T>(a: Option<T>, b: Option<T>): Option<T> { if a.Some? then a else b }

  // ---------- Merging ----------

  function MergePod(base: Option<PodContext>, ext: Option<PodContext>): Option<PodContext> {
    if base.None? then ext
    else if ext.None? then base
    else
      var b, x := base.value, ext.value;
      Some(b.(runAsUser := Or(b.runAsUser, x.runAsUser),
              runAsGroup := Or(b.runAsGroup, x.runAsGroup),
              fsGroup := Or(b.fsGroup, x.fsGroup),
              runAsNonRoot := Or(b.runAsNonRoot, x.runAsNonRoot),
              seccompProfile := Or(b.seccompProfile, x.seccompProfile),
              seLinuxOptions := Or(b.seLinuxOptions, x.seLinuxOptions),
              supplementalGroups := Or(b.supplementalGroups, x.supplementalGroups),
              supplementalGroupsPolicy := Or(b.supplementalGroupsPolicy, x.supplementalGroupsPolicy)))
  }

  /** A copy of the base takes over, field by field, what it leaves unset. */
  method MergePodSecurityContexts(base: Option<PodContext>, ext: Option<PodContext>)
    returns (merged: Option<PodContext>)
    ensures merged == MergePod(base, ext)
  {
    if base.None? { return ext; }
    if ext.None? { return base; }
    var m, x := base.value, ext.value;
    m := m.(runAsUser := Or(m.runAsUser, x.runAsUser));
    m := m.(runAsGroup := Or(m.runAsGroup, x.runAsGroup));
    m := m.(fsGroup := Or(m.fsGroup, x.fsGroup));
    m := m.(runAsNonRoot := Or(m.runAsNonRoot, x.runAsNonRoot));
    m := m.(seccompProfile := Or(m.seccompProfile, x.seccompProfile));
    m := m.(seLinuxOptions := Or(m.seLinuxOptions, x.seLinuxOptions));
    m := m.(supplementalGroups := Or(m.supplementalGroups, x.supplementalGroups));
    m := m.(supplementalGroupsPolicy := Or(m.supplementalGroupsPolicy, x.supplementalGroupsPolicy));
    return Some(m);
  }

  function MergeCapabilities(b: Option<Capabilities>, x: Option<Capabilities>): Option<Capabilities> {
    if b.None? then x
    else if x.None? then b
    else Some(Capabilities(b.value.add, b.value.drop + x.value.drop))
  }

  function MergeContainer(base: Option<ContainerContext>, ext: Option<ContainerContext>): Option<ContainerContext> {
    if base.None? then ext
    else if ext.None? then base
    else
      var b, x := base.value, ext.value;
      Some(b.(runAsUser := Or(b.runAsUser, x.runAsUser),
              runAsGroup := Or(b.runAsGroup, x.runAsGroup),
              capabilities := MergeCapabilities(b.capabilities, x.capabilities),
              privileged := Or(b.privileged, x.privileged),
              allowPrivilegeEscalation := Or(b.allowPrivilegeEscalation, x.allowPrivilegeEscalation),
              readOnlyRootFilesystem := Or(b.readOnlyRootFilesystem, x.readOnlyRootFilesystem),
              seccompProfile := Or(b.seccompProfile, x.seccompProfile),
              seLinuxOptions := Or(b.seLinuxOptions, x.seLinuxOptions)))
  }

  /** Merging pod contexts is an idempotent monoid with nil as unit; it never overrides, and a context absorbs
      what was already merged into it. */
  lemma MergePodLaws(a: Option<PodContext>, b: Option<PodContext>, c: Option<PodContext>)
    ensures MergePod(MergePod(a, b), c) == MergePod(a, MergePod(b, c))
    ensures MergePod(None, a) == a && MergePod(a, None) == a
    ensures MergePod(a, a) == a
    ensures MergePod(a, MergePod(a, b)) == MergePod(a, b)
  {
  }

  lemma MergeCapabilitiesLaws(a: Option<Capabilities>, b: Option<Capabilities>, c: Option<Capabilities>)
    ensures MergeCapabilities(MergeCapabilities(a, b), c) == MergeCapabilities(a, MergeCapabilities(b, c))
    ensures MergeCapabilities(a, a) == a
    ensures MergeCapabilities(a, MergeCapabilities(a, b)) == MergeCapabilities(a, b)
  {
    if a.Some? && b.Some? && c.Some? {
      assert (a.value.drop + b.value.drop) + c.value.drop == a.value.drop + (b.value.drop + c.value.drop);
    }
    if a.Some? {
      assert a.value.drop + a.value.drop == a.value.drop;
      if b.Some? { assert a.value.drop + (a.value.drop + b.value.drop) == a.value.drop + b.value.drop; }
    }
  }

  lemma MergeContainerLaws(a: Option<ContainerContext>, b: Option<ContainerContext>, c: Option<ContainerContext>)
    ensures MergeContainer(MergeContainer(a, b), c) == MergeContainer(a, MergeContainer(b, c))
    ensures MergeContainer(None, a) == a && MergeContainer(a, None) == a
    ensures MergeContainer(a, a) == a
    ensures MergeContainer(a, MergeContainer(a, b)) == MergeContainer(a, b)
  {
    if a.Some? {
      var x := a.value.capabilities;
      var y := if b.Some? then b.value.capabilities else None;
      var z := if c.Some? then c.value.capabilities else None;
      MergeCapabilitiesLaws(x, y, z);
    }
  }

  // ---------- Applying a context to a workload ----------

  datatype PodSpec = PodSpec(
    securityContext: Option<PodContext>,
    containers: seq<Option<ContainerContext>>,
    initContainers: seq<Option<ContainerContext>>)

  function MergeIntoAll(cs: seq<Option<ContainerContext>>, x: Option<ContainerContext>): seq<Option<ContainerContext>> {
    seq(|cs|, i requires 0 <= i < |cs| => MergeContainer(cs[i], x))
  }

  function Apply(spec: PodSpec, container: Option<ContainerContext>, pod: Option<PodContext>): PodSpec {
    PodSpec(MergePod(spec.securityContext, pod), MergeIntoAll(spec.containers, container),
            MergeIntoAll(spec.initContainers, container))
  }

  lemma MergeIntoAllAction(cs: seq<Option<ContainerContext>>, x: Option<ContainerContext>, y: Option<ContainerContext>)
    ensures MergeIntoAll(MergeIntoAll(cs, x), y) == MergeIntoAll(cs, MergeContainer(x, y))
    ensures MergeIntoAll(cs, None) == cs
  {
    forall i | 0 <= i < |cs|
      ensures MergeContainer(MergeContainer(cs[i], x), y) == MergeContainer(cs[i], MergeContainer(x, y))
      ensures MergeContainer(cs[i], None) == cs[i]
    {
      MergeContainerLaws(cs[i], x, y);
      MergeContainerLaws(cs[i], None, None);
    }
  }

  /** Applying is an action of the merge monoid: two contexts one after the other are the merged context at once,
      on any number of containers and init containers, and nil changes nothing. */
  lemma ApplyIsAction(spec: PodSpec, c1: Option<ContainerContext>, p1: Option<PodContext>,
                      c2: Option<ContainerContext>, p2: Option<PodContext>)
    ensures Apply(Apply(spec, c1, p1), c2, p2) == Apply(spec, MergeContainer(c1, c2), MergePod(p1, p2))
    ensures Apply(spec, None, None) == spec
  {
    MergeIntoAllAction(spec.containers, c1, c2);
    MergeIntoAllAction(spec.initContainers, c1, c2);
    MergePodLaws(spec.securityContext, p1, p2);
    MergePodLaws(spec.securityContext, None, None);
  }

  // ---------- The context defaults of a check ----------

  datatype PodDefaults = PodDefaults(
    fsGroup: Option<int>,
    runAsUser: Option<int>,
    runAsGroup: Option<int>,
    runAsNonRoot: Option<bool>,
    supplementalGroups: Option<seq<int>>,
    seccompProfile: Option<string>)

  datatype ContainerDefaults = ContainerDefaults(
    runAsNonRoot: Option<bool>,
    readOnlyRootFilesystem: Option<bool>,
    allowPrivilegeEscalation: Option<bool>,
    capabilitiesDrop: Option<seq<Capability>>,
    seccompProfile: Option<string>,
    runAsUser: Option<int>,
    runAsGroup: Option<int>)

  datatype Defaults = Defaults(pod: Option<PodDefaults>, container: Option<ContainerDefaults>)

  const UNSET := Defaults(Some(PodDefaults(None, None, None, None, None, None)),
                          Some(ContainerDefaults(None, None, None, None, None, None, None)))

  function Profile(t: Option<string>): Option<Seccomp> {
    if t.None? then None else Some(Seccomp(t.value, None))
  }

  function PodToK8s(p: Option<PodDefaults>): Option<PodContext> {
    if p.None? then None
    else Some(NO_POD_CONTEXT.(fsGroup := p.value.fsGroup, runAsUser := p.value.runAsUser,
                              runAsGroup := p.value.runAsGroup,
                              runAsNonRoot := p.value.runAsNonRoot, supplementalGroups := p.value.supplementalGroups,
                              seccompProfile := Profile(p.value.seccompProfile)))
  }

  function Members<T>(s: seq<T>): set<T> { set x | x in s }

  /** An empty list of capabilities to drop leaves the capabilities unset. */
  function DropToK8s(drop: Option<seq<Capability>>): Option<Capabilities> {
    if drop.None? || drop.value == [] then None else Some(Capabilities(None, Members(drop.value)))
  }

  function ContainerToK8s(c: Option<ContainerDefaults>): Option<ContainerContext> {
    if c.None? then None
    else Some(NO_CONTAINER_CONTEXT.(runAsNonRoot := c.value.runAsNonRoot,
                                    readOnlyRootFilesystem := c.value.readOnlyRootFilesystem,
                                    allowPrivilegeEscalation := c.value.allowPrivilegeEscalation,
                                    runAsUser := c.value.runAsUser, runAsGroup := c.value.runAsGroup,
                                    capabilities := DropToK8s(c.value.capabilitiesDrop),
                                    seccompProfile := Profile(c.value.seccompProfile)))
  }

  predicate PodIsEmpty(p: Option<PodDefaults>) {
    p.None? || (var v := p.value;
      && v.fsGroup.None? && v.runAsUser.None? && v.runAsGroup.None? && v.runAsNonRoot.None?
      && (v.supplementalGroups.None? || v.supplementalGroups.value == [])
      && (v.seccompProfile.None? || v.seccompProfile.value == ""))
  }

  predicate ContainerIsEmpty(c: Option<ContainerDefaults>) {
    c.None? || (var v := c.value;
      && v.runAsNonRoot.None? && v.readOnlyRootFilesystem.None? && v.allowPrivilegeEscalation.None?
      && (v.capabilitiesDrop.None? || v.capabilitiesDrop.value == [])
      && (v.seccompProfile.None? || v.seccompProfile.value == "")
      && v.runAsUser.None? && v.runAsGroup.None?)
  }

  predicate IsEmpty(d: Option<Defaults>) {
    d.None? || (PodIsEmpty(d.value.pod) && ContainerIsEmpty(d.value.container))
  }
}
