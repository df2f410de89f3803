/** The merges, conversions and checks field by field: which value a workload ends up with, and where it comes from. */
module ContextFields {
  import opened Options
  import opened SecurityContexts
  import opened Checks

  // ---------- Merges ----------

  /** The base's value where it is set, and that of the extending context otherwise. */
  predicate Fills<T(==)>(result: Option<T>, base: Option<T>, ext: Option<T>) {
    (base.Some? ==> result == base) && (base.None? ==> result == ext)
  }

  predicate PodFills(m: PodContext, b: PodContext, x: PodContext) {
    && Fills(m.runAsUser, b.runAsUser, x.runAsUser) && Fills(m.runAsGroup, b.runAsGroup, x.runAsGroup)
    && Fills(m.fsGroup, b.fsGroup, x.fsGroup) && Fills(m.runAsNonRoot, b.runAsNonRoot, x.runAsNonRoot)
    && Fills(m.seccompProfile, b.seccompProfile, x.seccompProfile)
    && Fills(m.seLinuxOptions, b.seLinuxOptions, x.seLinuxOptions)
    && Fills(m.supplementalGroups, b.supplementalGroups, x.supplementalGroups)
    && Fills(m.supplementalGroupsPolicy, b.supplementalGroupsPolicy, x.supplementalGroupsPolicy)
  }

  /** The fields that the pod merge does not copy. */
  predicate PodKeeps(m: PodContext, b: PodContext) {
    && m.windowsOptions == b.windowsOptions && m.sysctls == b.sysctls
    && m.fsGroupChangePolicy == b.fsGroupChangePolicy && m.appArmorProfile == b.appArmorProfile
    && m.seLinuxChangePolicy == b.seLinuxChangePolicy
  }

  /** Drop is united; what is added stays that of the base, if it has capabilities. */
  ghost predicate CapabilitiesFill(m: Option<Capabilities>, b: Option<Capabilities>, x: Option<Capabilities>) {
    && (b.None? ==> m == x) && (x.None? ==> m == b)
    && (b.Some? && x.Some? ==>
          && m.Some? && m.value.add == b.value.add
          && forall c :: c in m.value.drop <==> c in b.value.drop || c in x.value.drop)
  }

  ghost predicate ContainerFills(m: ContainerContext, b: ContainerContext, x: ContainerContext) {
    && Fills(m.runAsUser, b.runAsUser, x.runAsUser) && Fills(m.runAsGroup, b.runAsGroup, x.runAsGroup)
    && CapabilitiesFill(m.capabilities, b.capabilities, x.capabilities)
    && Fills(m.privileged, b.privileged, x.privileged)
    && Fills(m.allowPrivilegeEscalation, b.allowPrivilegeEscalation, x.allowPrivilegeEscalation)
    && Fills(m.readOnlyRootFilesystem, b.readOnlyRootFilesystem, x.readOnlyRootFilesystem)
    && Fills(m.seccompProfile, b.seccompProfile, x.seccompProfile)
    && Fills(m.seLinuxOptions, b.seLinuxOptions, x.seLinuxOptions)
  }

  /** The fields that the container merge does not copy. */
  predicate ContainerKeeps(m: ContainerContext, b: ContainerContext) {
    && m.runAsNonRoot == b.runAsNonRoot && m.windowsOptions == b.windowsOptions && m.procMount == b.procMount
    && m.appArmorProfile == b.appArmorProfile
  }

  ghost predicate PodMerged(m: Option<PodContext>, b: Option<PodContext>, x: Option<PodContext>) {
    && (b.None? ==> m == x) && (x.None? ==> m == b)
    && (b.Some? && x.Some? ==> m.Some? && PodFills(m.value, b.value, x.value) && PodKeeps(m.value, b.value))
  }

  ghost predicate ContainerMerged(m: Option<ContainerContext>, b: Option<ContainerContext>,
                                  x: Option<ContainerContext>)
  {
    && (b.None? ==> m == x) && (x.None? ==> m == b)
    && (b.Some? && x.Some? ==> m.Some? && ContainerFills(m.value, b.value, x.value) && ContainerKeeps(m.value, b.value))
  }

  lemma MergesFill(b: Option<PodContext>, x: Option<PodContext>,
                   c: Option<ContainerContext>, y: Option<ContainerContext>)
    ensures PodMerged(MergePod(b, x), b, x) && ContainerMerged(MergeContainer(c, y), c, y)
  {
  }

  ghost predicate AllMerged(ms: seq<Option<ContainerContext>>, bs: seq<Option<ContainerContext>>,
                            x: Option<ContainerContext>)
  {
    |ms| == |bs| && forall i | 0 <= i < |bs| :: ContainerMerged(ms[i], bs[i], x)
  }

  /** Applying contexts to a workload fills what it leaves unset, field by field, in the pod and in each of its
      containers and init containers; everything that the workload sets, and every field that is not copied, stays. A
      container without a context of its own gets the whole of the new one. */
  lemma ApplyFills(spec: PodSpec, container: Option<ContainerContext>, pod: Option<PodContext>)
    ensures var applied := Apply(spec, container, pod);
            && PodMerged(applied.securityContext, spec.securityContext, pod)
            && AllMerged(applied.containers, spec.containers, container)
            && AllMerged(applied.initContainers, spec.initContainers, container)
  {
    forall c: Option<ContainerContext> ensures ContainerMerged(MergeContainer(c, container), c, container) {
      MergesFill(None, None, c, container);
    }
    MergesFill(spec.securityContext, pod, None, None);
  }

  /** Whatever was merged is determined by that: the laws of the merges hold of nothing else. */
  lemma FillsDetermines(m: Option<PodContext>, b: Option<PodContext>, x: Option<PodContext>,
                        n: Option<ContainerContext>, c: Option<ContainerContext>, y: Option<ContainerContext>)
    ensures PodMerged(m, b, x) <==> m == MergePod(b, x)
    ensures ContainerMerged(n, c, y) <==> n == MergeContainer(c, y)
  {
    MergesFill(b, x, c, y);
    if ContainerMerged(n, c, y) && c.Some? && y.Some? {
      var caps, merged := n.value.capabilities, MergeContainer(c, y).value.capabilities;
      if c.value.capabilities.Some? && y.value.capabilities.Some? { assert caps.value.drop == merged.value.drop; }
      assert caps == merged;
    }
  }

  // ---------- Conversions ----------

  predicate ProfileIs(s: Option<Seccomp>, t: Option<string>) {
    (t.None? ==> s.None?) && (t.Some? ==> s.Some? && s.value.profileType == t.value && s.value.localhostProfile.None?)
  }

  /** The conversions carry every field over and set no other. */
  lemma PodConverted(p: PodDefaults)
    ensures PodToK8s(None).None? && PodToK8s(Some(p)).Some?
    ensures var k := PodToK8s(Some(p)).value;
            && k.fsGroup == p.fsGroup && k.runAsUser == p.runAsUser && k.runAsGroup == p.runAsGroup
            && k.runAsNonRoot == p.runAsNonRoot && k.supplementalGroups == p.supplementalGroups
            && ProfileIs(k.seccompProfile, p.seccompProfile)
            && k.seLinuxOptions.None? && k.supplementalGroupsPolicy.None? && k.windowsOptions.None? && k.sysctls.None?
            && k.fsGroupChangePolicy.None? && k.appArmorProfile.None? && k.seLinuxChangePolicy.None?
  {
  }

  lemma ContainerConverted(c: ContainerDefaults)
    ensures ContainerToK8s(None).None? && ContainerToK8s(Some(c)).Some?
    ensures var k := ContainerToK8s(Some(c)).value;
            && k.runAsNonRoot == c.runAsNonRoot && k.readOnlyRootFilesystem == c.readOnlyRootFilesystem
            && k.allowPrivilegeEscalation == c.allowPrivilegeEscalation && k.runAsUser == c.runAsUser
            && k.runAsGroup == c.runAsGroup && ProfileIs(k.seccompProfile, c.seccompProfile)
            && (k.capabilities.Some? <==> c.capabilitiesDrop.Some? && c.capabilitiesDrop.value != [])
            && (k.capabilities.Some? ==>
                  && k.capabilities.value.add.None?
                  && forall x :: x in k.capabilities.value.drop <==> x in c.capabilitiesDrop.value)
            && k.privileged.None? && k.seLinuxOptions.None? && k.windowsOptions.None? && k.procMount.None?
            && k.appArmorProfile.None?
  {
  }

  // ---------- What the checks ask for ----------

  /** What is preset, or else the value that the check asks for. */
  predicate Asks<T(==)>(d: Option<T>, preset: Option<T>, default: T) {
    d == if preset.Some? then preset else Some(default)
  }

  /** The user check asks for user 1000 and no root, in the pod and in the containers. */
  lemma UserAsks(base: Defaults)
    requires base.pod.Some? && base.container.Some?
    ensures var d := WithDefaults(User, base);
            && d.pod.Some? && d.container.Some?
            && Asks(d.pod.value.runAsUser, base.pod.value.runAsUser, 1000)
            && Asks(d.pod.value.runAsNonRoot, base.pod.value.runAsNonRoot, true)
            && Asks(d.container.value.runAsUser, base.container.value.runAsUser, 1000)
            && Asks(d.container.value.runAsNonRoot, base.container.value.runAsNonRoot, true)
            && d.pod.value.(runAsUser := base.pod.value.runAsUser, runAsNonRoot := base.pod.value.runAsNonRoot)
               == base.pod.value
            && d.container.value.(runAsUser := base.container.value.runAsUser,
                                  runAsNonRoot := base.container.value.runAsNonRoot) == base.container.value
  {
  }

  /** The group check asks for user 1000, the group of the user, the file system group of the group, and the same user
      and group in the containers. */
  lemma GroupAsks(base: Defaults)
    requires base.pod.Some? && base.container.Some?
    ensures var d := WithDefaults(Group, base);
            && d.pod.Some? && d.container.Some?
            && d.pod.value.runAsUser.Some? && d.pod.value.runAsGroup.Some?
            && Asks(d.pod.value.runAsUser, base.pod.value.runAsUser, 1000)
            && Asks(d.pod.value.runAsGroup, base.pod.value.runAsGroup, d.pod.value.runAsUser.value)
            && Asks(d.pod.value.fsGroup, base.pod.value.fsGroup, d.pod.value.runAsGroup.value)
            && Asks(d.container.value.runAsUser, base.container.value.runAsUser, d.pod.value.runAsUser.value)
            && Asks(d.container.value.runAsGroup, base.container.value.runAsGroup, d.pod.value.runAsGroup.value)
            && d.pod.value.(runAsUser := base.pod.value.runAsUser, runAsGroup := base.pod.value.runAsGroup,
                            fsGroup := base.pod.value.fsGroup) == base.pod.value
            && d.container.value.(runAsUser := base.container.value.runAsUser,
                                  runAsGroup := base.container.value.runAsGroup) == base.container.value
  {
  }

  /** The other three ask for one value in the containers. */
  lemma ContainerChecksAsk(base: Defaults)
    requires base.container.Some?
    ensures var c, d := base.container.value, WithDefaults(DropAllCapabilities, base);
            && d.pod == base.pod && d.container.Some?
            && Asks(d.container.value.capabilitiesDrop, c.capabilitiesDrop, ["ALL"])
            && d.container.value.(capabilitiesDrop := c.capabilitiesDrop) == c
    ensures var c, d := base.container.value, WithDefaults(ReadOnlyRootFilesystem, base);
            && d.pod == base.pod && d.container.Some?
            && Asks(d.container.value.readOnlyRootFilesystem, c.readOnlyRootFilesystem, true)
            && d.container.value.(readOnlyRootFilesystem := c.readOnlyRootFilesystem) == c
    ensures var c, d := base.container.value, WithDefaults(AllowPrivilegeEscalation, base);
            && d.pod == base.pod && d.container.Some?
            && Asks(d.container.value.allowPrivilegeEscalation, c.allowPrivilegeEscalation, false)
            && d.container.value.(allowPrivilegeEscalation := c.allowPrivilegeEscalation) == c
  {
  }

  // ---------- The workload under test ----------

  function Part<T, U>(o: Option<T>, f: T -> Option<U>): Option<U> { if o.None? then None else f(o.value) }

  /** The workload's own value, or else what is preset, or else what the check asks for. */
  predicate Tested<T(==)>(value: Option<T>, own: Option<T>, preset: Option<T>, default: T) {
    value == if own.Some? then own else if preset.Some? then preset else Some(default)
  }

  /** A container before and after. The merge does not copy runAsNonRoot into a context that is there. */
  predicate UserTestedIn(own: Option<ContainerContext>, now: Option<ContainerContext>, c: ContainerDefaults) {
    && now.Some?
    && Tested(now.value.runAsUser, Part(own, (x: ContainerContext) => x.runAsUser), c.runAsUser, 1000)
    && (if own.Some? then now.value.runAsNonRoot == own.value.runAsNonRoot
        else Tested(now.value.runAsNonRoot, None, c.runAsNonRoot, true))
  }

  /** The user check tests a workload with a user and without root, in the pod and in all its containers. */
  lemma UserTested(spec: PodSpec, base: Defaults)
    requires base.pod.Some? && base.container.Some?
    ensures var tested, p, own := AppliedTo(spec, WithDefaults(User, base)), base.pod.value, spec.securityContext;
            && tested.securityContext.Some?
            && Tested(tested.securityContext.value.runAsUser, Part(own, (x: PodContext) => x.runAsUser),
                      p.runAsUser, 1000)
            && Tested(tested.securityContext.value.runAsNonRoot, Part(own, (x: PodContext) => x.runAsNonRoot),
                      p.runAsNonRoot, true)
            && |tested.containers| == |spec.containers| && |tested.initContainers| == |spec.initContainers|
            && (forall i | 0 <= i < |spec.containers| ::
                  UserTestedIn(spec.containers[i], tested.containers[i], base.container.value))
            && (forall i | 0 <= i < |spec.initContainers| ::
                  UserTestedIn(spec.initContainers[i], tested.initContainers[i], base.container.value))
  {
    var d := WithDefaults(User, base);
    UserAsks(base);
    PodConverted(d.pod.value);
    ContainerConverted(d.container.value);
    ApplyFills(spec, ContainerToK8s(d.container), PodToK8s(d.pod));
  }

  predicate GroupTestedIn(own: Option<ContainerContext>, now: Option<ContainerContext>, c: ContainerDefaults,
                          user: int, group: int)
  {
    && now.Some?
    && Tested(now.value.runAsUser, Part(own, (x: ContainerContext) => x.runAsUser), c.runAsUser, user)
    && Tested(now.value.runAsGroup, Part(own, (x: ContainerContext) => x.runAsGroup), c.runAsGroup, group)
  }

  function Otherwise(preset: Option<int>, default: int): int { if preset.Some? then preset.value else default }

  /** The group check tests a workload with a user, its group and a file system group, in the pod and in all its
      containers. What is unset follows along the chain user, group, file system group. */
  lemma GroupTested(spec: PodSpec, base: Defaults)
    requires base.pod.Some? && base.container.Some?
    ensures var tested, p, own := AppliedTo(spec, WithDefaults(Group, base)), base.pod.value, spec.securityContext;
            var user := Otherwise(p.runAsUser, 1000);
            var group := Otherwise(p.runAsGroup, user);
            && tested.securityContext.Some?
            && Tested(tested.securityContext.value.runAsUser, Part(own, (x: PodContext) => x.runAsUser), None, user)
            && Tested(tested.securityContext.value.runAsGroup, Part(own, (x: PodContext) => x.runAsGroup), None, group)
            && Tested(tested.securityContext.value.fsGroup, Part(own, (x: PodContext) => x.fsGroup), p.fsGroup, group)
            && |tested.containers| == |spec.containers| && |tested.initContainers| == |spec.initContainers|
            && (forall i | 0 <= i < |spec.containers| ::
                  GroupTestedIn(spec.containers[i], tested.containers[i], base.container.value, user, group))
            && (forall i | 0 <= i < |spec.initContainers| ::
                  GroupTestedIn(spec.initContainers[i], tested.initContainers[i], base.container.value, user, group))
  {
    var d := WithDefaults(Group, base);
    GroupAsks(base);
    PodConverted(d.pod.value);
    ContainerConverted(d.container.value);
    ApplyFills(spec, ContainerToK8s(d.container), PodToK8s(d.pod));
  }

  /** The capability is dropped by the container itself, or by the preset list, or is "ALL" when nothing is listed. */
  predicate DropTested(own: Option<ContainerContext>, now: Option<ContainerContext>, c: ContainerDefaults,
                       x: Capability)
  {
    var before := own.Some? && own.value.capabilities.Some? && x in own.value.capabilities.value.drop;
    var asked := if c.capabilitiesDrop.Some? then x in c.capabilitiesDrop.value else x == "ALL";
    && now.Some?
    && ((now.value.capabilities.Some? && x in now.value.capabilities.value.drop) <==> before || asked)
  }

  lemma DropAllTested(spec: PodSpec, base: Defaults, x: Capability)
    requires base.container.Some?
    ensures var tested := AppliedTo(spec, WithDefaults(DropAllCapabilities, base));
            && |tested.containers| == |spec.containers| && |tested.initContainers| == |spec.initContainers|
            && (forall i | 0 <= i < |spec.containers| ::
                  DropTested(spec.containers[i], tested.containers[i], base.container.value, x))
            && (forall i | 0 <= i < |spec.initContainers| ::
                  DropTested(spec.initContainers[i], tested.initContainers[i], base.container.value, x))
  {
    var d := WithDefaults(DropAllCapabilities, base);
    ContainerChecksAsk(base);
    ContainerConverted(d.container.value);
    ApplyFills(spec, ContainerToK8s(d.container), PodToK8s(d.pod));
    if base.container.value.capabilitiesDrop.None? { assert x in ["ALL"] <==> x == "ALL"; }
  }

  predicate FlagTestedIn(k: Kind, own: Option<ContainerContext>, now: Option<ContainerContext>, c: ContainerDefaults) {
    && now.Some?
    && (k == ReadOnlyRootFilesystem ==>
          Tested(now.value.readOnlyRootFilesystem, Part(own, (x: ContainerContext) => x.readOnlyRootFilesystem),
                 c.readOnlyRootFilesystem, true))
    && (k == AllowPrivilegeEscalation ==>
          Tested(now.value.allowPrivilegeEscalation, Part(own, (x: ContainerContext) => x.allowPrivilegeEscalation),
                 c.allowPrivilegeEscalation, false))
  }

  /** The two flags are tested as true and as false. */
  lemma FlagTested(k: Kind, spec: PodSpec, base: Defaults)
    requires base.container.Some? && (k == ReadOnlyRootFilesystem || k == AllowPrivilegeEscalation)
    ensures var tested := AppliedTo(spec, WithDefaults(k, base));
            && |tested.containers| == |spec.containers| && |tested.initContainers| == |spec.initContainers|
            && (forall i | 0 <= i < |spec.containers| ::
                  FlagTestedIn(k, spec.containers[i], tested.containers[i], base.container.value))
            && (forall i | 0 <= i < |spec.initContainers| ::
                  FlagTestedIn(k, spec.initContainers[i], tested.initContainers[i], base.container.value))
  {
    var d := WithDefaults(k, base);
    ContainerChecksAsk(base);
    ContainerConverted(d.container.value);
    ApplyFills(spec, ContainerToK8s(d.container), PodToK8s(d.pod));
  }

  // ---------- Which checks are needed ----------

  /** A container that does not hold what the check would test. */
  ghost predicate Lacks(k: Kind, c: Option<ContainerContext>) {
    || c.None?
    || (k == DropAllCapabilities
        && (c.value.capabilities.None? || forall x :: x !in c.value.capabilities.value.drop))
    || (k == ReadOnlyRootFilesystem
        && (c.value.readOnlyRootFilesystem.None? || !c.value.readOnlyRootFilesystem.value))
    || (k == AllowPrivilegeEscalation
        && (c.value.allowPrivilegeEscalation.None? || c.value.allowPrivilegeEscalation.value))
  }

  /** A check is needed exactly if the pod, or some container, does not set what it is about. Init containers do not
      matter. */
  lemma NeededExactly(k: Kind, spec: PodSpec)
    ensures ShouldRun(User, spec) <==>
            !(spec.securityContext.Some? && spec.securityContext.value.runAsUser.Some?
              && spec.securityContext.value.runAsNonRoot.Some?)
    ensures ShouldRun(Group, spec) <==>
            !(spec.securityContext.Some? && spec.securityContext.value.runAsGroup.Some?
              && spec.securityContext.value.fsGroup.Some?)
    ensures k != User && k != Group ==>
              (ShouldRun(k, spec) <==> exists i | 0 <= i < |spec.containers| :: Lacks(k, spec.containers[i]))
  {
    if k != User && k != Group {
      forall c: Option<ContainerContext> ensures Weak(k, c) <==> Lacks(k, c) { WeakLacks(k, c); }
      if i: nat :| i < |spec.containers| && Lacks(k, spec.containers[i]) {
        assert spec.containers[i] in spec.containers && Weak(k, spec.containers[i]);
      }
    }
  }

  lemma WeakLacks(k: Kind, c: Option<ContainerContext>)
    requires k != User && k != Group
    ensures Weak(k, c) <==> Lacks(k, c)
  {
    if c.Some? {
      BoolOption(c.value.readOnlyRootFilesystem);
      BoolOption(c.value.allowPrivilegeEscalation);
    }
  }

  // ---------- Checks that share their base ----------

  /** The value of the base, or, where it is unset, none or the one that some check asks for. */
  predicate AskedOrUnset<T(==)>(d: Option<T>, preset: Option<T>, default: T) {
    if preset.Some? then d == preset else d.None? || d == Some(default)
  }

  /** Whatever checks fill in a shared base, they set nothing but what they ask for. */
  predicate OnlyAsked(d: Defaults, base: Defaults) {
    && (base.pod.Some? <==> d.pod.Some?) && (base.container.Some? <==> d.container.Some?)
    && (base.pod.Some? ==>
          && AskedOrUnset(d.pod.value.runAsNonRoot, base.pod.value.runAsNonRoot, true)
          && AskedOrUnset(d.pod.value.runAsUser, base.pod.value.runAsUser, 1000)
          && d.pod.value.supplementalGroups == base.pod.value.supplementalGroups
          && d.pod.value.seccompProfile == base.pod.value.seccompProfile)
    && (base.container.Some? ==>
          && AskedOrUnset(d.container.value.runAsNonRoot, base.container.value.runAsNonRoot, true)
          && AskedOrUnset(d.container.value.readOnlyRootFilesystem, base.container.value.readOnlyRootFilesystem, true)
          && AskedOrUnset(d.container.value.allowPrivilegeEscalation, base.container.value.allowPrivilegeEscalation,
                          false)
          && AskedOrUnset(d.container.value.capabilitiesDrop, base.container.value.capabilitiesDrop, ["ALL"])
          && d.container.value.seccompProfile == base.container.value.seccompProfile)
  }

  lemma {:induction false} AccumulatedAsks(base: Defaults, ks: seq<Kind>)
    requires HasPartsForAll(ks, base)
    ensures OnlyAsked(Accumulated(base, ks), base)
    decreases |ks|
  {
    if ks != [] {
      assert HasParts(ks[0], base);
      PartsStay(ks[0], base, ks[1..]);
      AccumulatedAsks(WithDefaults(ks[0], base), ks[1..]);
      OneAsks(base, ks[0]);
    }
  }

  lemma OneAsks(base: Defaults, k: Kind)
    requires HasParts(k, base)
    ensures OnlyAsked(WithDefaults(k, base), base)
  {
    match k
    case User => UserAsks(base);
    case Group => GroupAsks(base);
    case _ => ContainerChecksAsk(base);
  }

  /** What the check itself is about is set. */
  predicate AsksItsOwn(k: Kind, d: Defaults) {
    match k
    case User =>
      && d.pod.Some? && d.pod.value.runAsUser.Some? && d.pod.value.runAsNonRoot.Some?
      && d.container.Some? && d.container.value.runAsUser.Some? && d.container.value.runAsNonRoot.Some?
    case Group =>
      && d.pod.Some? && d.pod.value.runAsUser.Some? && d.pod.value.runAsGroup.Some? && d.pod.value.fsGroup.Some?
      && d.container.Some? && d.container.value.runAsUser.Some? && d.container.value.runAsGroup.Some?
    case DropAllCapabilities => d.container.Some? && d.container.value.capabilitiesDrop.Some?
    case ReadOnlyRootFilesystem => d.container.Some? && d.container.value.readOnlyRootFilesystem.Some?
    case AllowPrivilegeEscalation => d.container.Some? && d.container.value.allowPrivilegeEscalation.Some?
  }

  lemma SettledAsks(k: Kind, d: Defaults)
    requires HasParts(k, d) && WithDefaults(k, d) == d
    ensures AsksItsOwn(k, d)
  {
    match k
    case User => UserAsks(d);
    case Group => GroupAsks(d);
    case _ => ContainerChecksAsk(d);
  }

  /** Among the checks on a shared base, each has what it is about in the context, and nothing else is asked for. */
  lemma SharedContextAsks(base: Defaults, ks: seq<Kind>, k: Kind)
    requires HasPartsForAll(ks, base) && k in ks
    ensures AsksItsOwn(k, Accumulated(base, ks)) && OnlyAsked(Accumulated(base, ks), base)
  {
    ChecksNeverOverwrite(base, ks);
    assert HasParts(k, Accumulated(base, ks));
    SettledAsks(k, Accumulated(base, ks));
    AccumulatedAsks(base, ks);
  }

  /** Without a preset base, each check asks for its own fields only. */
  lemma OwnContextAsks(k: Kind)
    ensures AsksItsOwn(k, WithDefaults(k, UNSET)) && OnlyAsked(WithDefaults(k, UNSET), UNSET)
  {
    ChecksNeverOverwrite(UNSET, [k]);
    assert [k][1..] == [] && Accumulated(UNSET, [k]) == WithDefaults(k, UNSET);
    SharedContextAsks(UNSET, [k], k);
  }
}
