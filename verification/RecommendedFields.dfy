/** The recommendation and the final run field by field, in terms of the pod spec and of what was recommended. */
module RecommendedFields {
  import opened Options
  import opened SecurityContexts
  import opened Checks
  import opened ContextFields
  import opened Recommendation
  import opened FinalRun

  // ---------- What the workload has of its own ----------

  /** What is set in the own context is kept. */
  predicate Kept<T(==)>(now: Option<T>, own: Option<T>) { own.Some? ==> now == own }

  /** The merges copy these fields, so they may be filled, but they are never changed. */
  predicate PodValuesKept(own: PodContext, now: PodContext) {
    && Kept(now.runAsUser, own.runAsUser) && Kept(now.runAsGroup, own.runAsGroup) && Kept(now.fsGroup, own.fsGroup)
    && Kept(now.runAsNonRoot, own.runAsNonRoot) && Kept(now.seccompProfile, own.seccompProfile)
    && Kept(now.supplementalGroups, own.supplementalGroups)
    && now.seLinuxOptions == own.seLinuxOptions && now.supplementalGroupsPolicy == own.supplementalGroupsPolicy
  }

  ghost predicate ContainerValuesKept(own: ContainerContext, now: ContainerContext) {
    && Kept(now.runAsUser, own.runAsUser) && Kept(now.runAsGroup, own.runAsGroup)
    && now.privileged == own.privileged && now.seLinuxOptions == own.seLinuxOptions
    && Kept(now.allowPrivilegeEscalation, own.allowPrivilegeEscalation)
    && Kept(now.readOnlyRootFilesystem, own.readOnlyRootFilesystem) && Kept(now.seccompProfile, own.seccompProfile)
    && (own.capabilities.Some? ==>
          && now.capabilities.Some? && now.capabilities.value.add == own.capabilities.value.add
          && forall x | x in own.capabilities.value.drop :: x in now.capabilities.value.drop)
  }

  /** Nothing is set. */
  predicate PodUnset(p: PodContext) {
    && p.runAsUser.None? && p.runAsGroup.None? && p.fsGroup.None? && p.runAsNonRoot.None? && p.seccompProfile.None?
    && p.seLinuxOptions.None? && p.supplementalGroups.None? && p.supplementalGroupsPolicy.None?
    && p.windowsOptions.None? && p.sysctls.None? && p.fsGroupChangePolicy.None? && p.appArmorProfile.None?
    && p.seLinuxChangePolicy.None?
  }

  predicate ContainerUnset(c: ContainerContext) {
    && c.runAsUser.None? && c.runAsGroup.None? && c.capabilities.None? && c.privileged.None?
    && c.allowPrivilegeEscalation.None? && c.readOnlyRootFilesystem.None? && c.seccompProfile.None?
    && c.seLinuxOptions.None? && c.runAsNonRoot.None? && c.windowsOptions.None? && c.procMount.None?
    && c.appArmorProfile.None?
  }

  /** The context of the pod, and of the first container if there is one; an unset one stands for nil. */
  predicate IsOwn(spec: PodSpec, pod: PodContext, container: ContainerContext) {
    && (spec.securityContext.Some? ==> pod == spec.securityContext.value)
    && (spec.securityContext.None? ==> PodUnset(pod))
    && (if |spec.containers| > 0 && spec.containers[0].Some? then container == spec.containers[0].value
        else ContainerUnset(container))
  }

  /** What no run can set is unset. */
  predicate PodUncopiedUnset(p: PodContext) {
    && p.seLinuxOptions.None? && p.supplementalGroupsPolicy.None? && p.windowsOptions.None? && p.sysctls.None?
    && p.fsGroupChangePolicy.None? && p.appArmorProfile.None? && p.seLinuxChangePolicy.None?
  }

  predicate ContainerUncopiedUnset(c: ContainerContext) {
    && c.privileged.None? && c.seLinuxOptions.None? && c.runAsNonRoot.None? && c.windowsOptions.None?
    && c.procMount.None? && c.appArmorProfile.None?
  }

  predicate PodKept(own: Option<PodContext>, now: PodContext) {
    if own.Some? then PodValuesKept(own.value, now) && PodKeeps(now, own.value) else PodUncopiedUnset(now)
  }

  ghost predicate ContainerKept(own: Option<ContainerContext>, now: ContainerContext) {
    if own.Some? then ContainerValuesKept(own.value, now) && ContainerKeeps(now, own.value)
    else ContainerUncopiedUnset(now)
  }

  /** The recommendation starts from the workload's own contexts, those of the pod and of the first container: what they
      set survives, and what the merges do not copy is theirs. */
  ghost predicate KeepsOwn(spec: PodSpec, r: Recommended) {
    && r.pod.Some? && r.container.Some? && PodKept(spec.securityContext, r.pod.value)
    && ContainerKept(if |spec.containers| > 0 then spec.containers[0] else None, r.container.value)
  }

  predicate IsOnlyOwn(spec: PodSpec, r: Recommended) {
    r.pod.Some? && r.container.Some? && IsOwn(spec, r.pod.value, r.container.value)
  }

  lemma StartIsOwn(spec: PodSpec)
    ensures IsOwn(spec, Original(spec).pod, Original(spec).container)
  {
  }

  lemma {:induction false} FoldKeeps(acc: Contexts, runs: seq<Defaults>)
    ensures var now := Fold(acc, runs);
            && PodValuesKept(acc.pod, now.pod) && PodKeeps(now.pod, acc.pod)
            && ContainerValuesKept(acc.container, now.container) && ContainerKeeps(now.container, acc.container)
    decreases |runs|
  {
    if runs != [] {
      ExtendKeeps(acc, runs[0]);
      FoldKeeps(Extend(acc, runs[0]), runs[1..]);
    }
  }

  lemma ExtendKeeps(acc: Contexts, d: Defaults)
    ensures var now := Extend(acc, d);
            && PodValuesKept(acc.pod, now.pod) && PodKeeps(now.pod, acc.pod)
            && ContainerValuesKept(acc.container, now.container) && ContainerKeeps(now.container, acc.container)
  {
    if d.pod.Some? { PodConverted(d.pod.value); }
    if d.container.Some? { ContainerConverted(d.container.value); }
    MergesFill(Some(acc.pod), PodToK8s(d.pod), Some(acc.container), ContainerToK8s(d.container));
  }

  lemma RecommendKeepsOwn(spec: PodSpec, order: seq<Defaults>)
    ensures KeepsOwn(spec, Recommend(spec, order))
    ensures order == [] ==> IsOnlyOwn(spec, Recommend(spec, order))
  {
    StartIsOwn(spec);
    FoldKeeps(Original(spec), order);
  }

  // ---------- What the final run tests ----------

  /** The context carries these fields of the recommendation, and no others. */
  ghost predicate Carries(r: Recommended, d: Defaults) {
    && d.pod.Some? && d.container.Some?
    && (var p := d.pod.value;
        && p.runAsUser == Part(r.pod, (x: PodContext) => x.runAsUser)
        && p.runAsGroup == Part(r.pod, (x: PodContext) => x.runAsGroup)
        && p.fsGroup == Part(r.pod, (x: PodContext) => x.fsGroup)
        && p.runAsNonRoot == Part(r.pod, (x: PodContext) => x.runAsNonRoot)
        && p.supplementalGroups.None? && p.seccompProfile.None?)
    && (var c := d.container.value;
        && c.runAsUser == Part(r.container, (x: ContainerContext) => x.runAsUser)
        && c.runAsGroup == Part(r.container, (x: ContainerContext) => x.runAsGroup)
        && c.runAsNonRoot == Part(r.container, (x: ContainerContext) => x.runAsNonRoot)
        && c.readOnlyRootFilesystem == Part(r.container, (x: ContainerContext) => x.readOnlyRootFilesystem)
        && c.allowPrivilegeEscalation == Part(r.container, (x: ContainerContext) => x.allowPrivilegeEscalation)
        && c.seccompProfile.None?
        && (forall x :: c.capabilitiesDrop.Some? && x in c.capabilitiesDrop.value <==>
              r.container.Some? && r.container.value.capabilities.Some?
              && x in r.container.value.capabilities.value.drop))
  }

  lemma ProjectsFields(r: Recommended, d: Defaults)
    requires Projects(r, d)
    ensures Carries(r, d)
  {
    var drop: seq<Capability> :|
      && Members(drop) == (if r.container.None? then {} else Dropped(r.container.value.capabilities))
      && d == Defaults(Some(PodProjection(r.pod)), Some(ContainerProjection(r.container, drop)));
    forall x ensures x in drop <==> x in Members(drop) {}
  }

  /** A container before and under the final run. */
  ghost predicate FinalTestedIn(own: Option<ContainerContext>, now: Option<ContainerContext>, r: ContainerContext) {
    && now.Some?
    && Fills(now.value.runAsUser, Part(own, (x: ContainerContext) => x.runAsUser), r.runAsUser)
    && Fills(now.value.runAsGroup, Part(own, (x: ContainerContext) => x.runAsGroup), r.runAsGroup)
    && Fills(now.value.readOnlyRootFilesystem, Part(own, (x: ContainerContext) => x.readOnlyRootFilesystem),
             r.readOnlyRootFilesystem)
    && Fills(now.value.allowPrivilegeEscalation, Part(own, (x: ContainerContext) => x.allowPrivilegeEscalation),
             r.allowPrivilegeEscalation)
    && now.value.runAsNonRoot == (if own.Some? then own.value.runAsNonRoot else r.runAsNonRoot)
    && forall c ::
         now.value.capabilities.Some? && c in now.value.capabilities.value.drop <==>
         || (own.Some? && own.value.capabilities.Some? && c in own.value.capabilities.value.drop)
         || (r.capabilities.Some? && c in r.capabilities.value.drop)
  }

  /** The final run gives the recommended values to the pod and to every container and init container, where they set
      none of their own. */
  lemma FinalRunFills(spec: PodSpec, r: Recommended, d: Defaults)
    requires r.pod.Some? && r.container.Some? && Projects(r, d)
    ensures var tested := AppliedTo(spec, d);
            && tested.securityContext.Some?
            && Fills(tested.securityContext.value.runAsUser,
                     Part(spec.securityContext, (x: PodContext) => x.runAsUser), r.pod.value.runAsUser)
            && Fills(tested.securityContext.value.runAsGroup,
                     Part(spec.securityContext, (x: PodContext) => x.runAsGroup), r.pod.value.runAsGroup)
            && Fills(tested.securityContext.value.fsGroup,
                     Part(spec.securityContext, (x: PodContext) => x.fsGroup), r.pod.value.fsGroup)
            && Fills(tested.securityContext.value.runAsNonRoot,
                     Part(spec.securityContext, (x: PodContext) => x.runAsNonRoot), r.pod.value.runAsNonRoot)
            && |tested.containers| == |spec.containers| && |tested.initContainers| == |spec.initContainers|
            && (forall i | 0 <= i < |spec.containers| ::
                  FinalTestedIn(spec.containers[i], tested.containers[i], r.container.value))
            && (forall i | 0 <= i < |spec.initContainers| ::
                  FinalTestedIn(spec.initContainers[i], tested.initContainers[i], r.container.value))
  {
    ProjectsFields(r, d);
    PodConverted(d.pod.value);
    ContainerConverted(d.container.value);
    ApplyFills(spec, ContainerToK8s(d.container), PodToK8s(d.pod));
    forall own: Option<ContainerContext>, now: Option<ContainerContext> |
      ContainerMerged(now, own, ContainerToK8s(d.container))
      ensures FinalTestedIn(own, now, r.container.value)
    {
      FinalContainer(own, now, r, d);
    }
  }

  lemma FinalContainer(own: Option<ContainerContext>, now: Option<ContainerContext>, r: Recommended, d: Defaults)
    requires r.container.Some? && Projects(r, d) && ContainerMerged(now, own, ContainerToK8s(d.container))
    ensures FinalTestedIn(own, now, r.container.value)
  {
    ProjectsFields(r, d);
    ContainerConverted(d.container.value);
  }

  /** A context in which nothing is set is not installed; any other one is applied. */
  lemma InstalledExactly(spec: PodSpec, d: Defaults)
    ensures var somePod := d.pod.Some? && (var p := d.pod.value;
              || p.fsGroup.Some? || p.runAsUser.Some? || p.runAsGroup.Some? || p.runAsNonRoot.Some?
              || (p.supplementalGroups.Some? && p.supplementalGroups.value != [])
              || (p.seccompProfile.Some? && p.seccompProfile.value != ""));
            var someContainer := d.container.Some? && (var c := d.container.value;
              || c.runAsNonRoot.Some? || c.readOnlyRootFilesystem.Some? || c.allowPrivilegeEscalation.Some?
              || c.runAsUser.Some? || c.runAsGroup.Some?
              || (c.capabilitiesDrop.Some? && c.capabilitiesDrop.value != [])
              || (c.seccompProfile.Some? && c.seccompProfile.value != ""));
            Installed(spec, d) == if somePod || someContainer then AppliedTo(spec, d) else spec
  {
  }
}
