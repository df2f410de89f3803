/** The container merge as it works on the heap. The merged context may share the Capabilities object of the
    context it was extended by, and then rewrites its Drop list in place; one context object may end up in many
    containers. The results below say that this never shows: every object keeps its meaning, and every container
    gets the value of the pure merge. */
module ContextHeap {
  import opened Options
  import opened SecurityContexts

  function DropSet(drop: Option<seq<Capability>>): set<Capability> {
    if drop.None? then {} else Members(drop.value)
  }

  class CapabilitiesObject {
    var add: Option<seq<Capability>>
    var drop: Option<seq<Capability>>  // None is Go's nil

    constructor (add: Option<seq<Capability>>, drop: Option<seq<Capability>>)
      ensures this.add == add && this.drop == drop
    {
      this.add, this.drop := add, drop;
    }

    function Meaning(): Capabilities
      reads this
    {
      Capabilities(add, DropSet(drop))
    }
  }

  class SecurityContext {
    var runAsUser: Option<int>
    var runAsGroup: Option<int>
    var capabilities: CapabilitiesObject?
    var privileged: Option<bool>
    var allowPrivilegeEscalation: Option<bool>
    var readOnlyRootFilesystem: Option<bool>
    var seccompProfile: Option<Seccomp>
    var seLinuxOptions: Option<Opaque>
    var runAsNonRoot: Option<bool>
    var windowsOptions: Option<Opaque>
    var procMount: Option<string>
    var appArmorProfile: Option<Opaque>

    constructor ()
      ensures capabilities == null && Meaning() == NO_CONTAINER_CONTEXT
    {
      runAsUser, runAsGroup, capabilities, privileged := None, None, null, None;
      allowPrivilegeEscalation, readOnlyRootFilesystem, seccompProfile, seLinuxOptions := None, None, None, None;
      runAsNonRoot, windowsOptions, procMount, appArmorProfile := None, None, None, None;
    }

    function Meaning(): ContainerContext
      reads this, capabilities
    {
      ContainerContext(runAsUser, runAsGroup, if capabilities == null then None else Some(capabilities.Meaning()),
                       privileged, allowPrivilegeEscalation, readOnlyRootFilesystem, seccompProfile, seLinuxOptions,
                       runAsNonRoot, windowsOptions, procMount, appArmorProfile)
    }

    constructor Like(o: SecurityContext, capabilities: CapabilitiesObject?)
      ensures this.capabilities == capabilities
      ensures Meaning() ==
              o.Meaning().(capabilities := if capabilities == null then None else Some(capabilities.Meaning()))
    {
      this.capabilities := capabilities;
      runAsUser, runAsGroup, privileged := o.runAsUser, o.runAsGroup, o.privileged;
      allowPrivilegeEscalation, readOnlyRootFilesystem := o.allowPrivilegeEscalation, o.readOnlyRootFilesystem;
      seccompProfile, seLinuxOptions, runAsNonRoot := o.seccompProfile, o.seLinuxOptions, o.runAsNonRoot;
      windowsOptions, procMount, appArmorProfile := o.windowsOptions, o.procMount, o.appArmorProfile;
    }

    method DeepCopy() returns (copy: SecurityContext)
      ensures fresh(copy) && copy.Meaning() == Meaning()
      ensures copy.capabilities != null ==> fresh(copy.capabilities)
    {
      var c: CapabilitiesObject? := null;
      if capabilities != null { c := new CapabilitiesObject(capabilities.add, capabilities.drop); }
      copy := new SecurityContext.Like(this, c);
    }
  }

  function MeaningOf(c: SecurityContext?): Option<ContainerContext>
    reads c, if c == null then null else c.capabilities
  {
    if c == null then None else Some(c.Meaning())
  }

  /** The meaning of an object is that of its fields; a list of capabilities to drop is read as a set. */
  lemma MeaningIsFields(o: SecurityContext, x: Capability)
    ensures var m := o.Meaning();
            && m.runAsUser == o.runAsUser && m.runAsGroup == o.runAsGroup && m.privileged == o.privileged
            && m.allowPrivilegeEscalation == o.allowPrivilegeEscalation
            && m.readOnlyRootFilesystem == o.readOnlyRootFilesystem && m.seccompProfile == o.seccompProfile
            && m.seLinuxOptions == o.seLinuxOptions && m.runAsNonRoot == o.runAsNonRoot
            && m.windowsOptions == o.windowsOptions && m.procMount == o.procMount
            && m.appArmorProfile == o.appArmorProfile
            && (m.capabilities.None? <==> o.capabilities == null)
            && (o.capabilities != null ==>
                  && m.capabilities.value.add == o.capabilities.add
                  && (x in m.capabilities.value.drop <==> o.capabilities.drop.Some? && x in o.capabilities.drop.value))
  {
  }

  /** The keys of a Go map, in arbitrary order; no keys give nil. */
  method CollectKeys(keys: set<Capability>) returns (list: Option<seq<Capability>>)
    ensures DropSet(list) == keys && (keys == {} ==> list.None?)
  {
    var done, todo := [], keys;
    while todo != {}
      invariant todo <= keys && Members(done) == keys - todo
      decreases todo
    {
      var k :| k in todo;
      todo := todo - {k};
      assert Members(done + [k]) == Members(done) + {k};
      done := done + [k];
    }
    if done == [] { return None; }
    assert done[0] in Members(done);
    return Some(done);
  }

  lemma MembersOfConcat<T>(a: seq<T>, b: seq<T>)
    ensures Members(a + b) == Members(a) + Members(b)
  {
  }

  /** Gives `merged`, a private copy of the base, the Drop list of both contexts. */
  method MergeDrop(merged: SecurityContext, ext: SecurityContext)
    requires merged != ext && (merged.capabilities == null || merged.capabilities != ext.capabilities)
    modifies merged`capabilities, merged.capabilities, ext.capabilities
    ensures merged.capabilities ==
            if old(merged.capabilities) == null then ext.capabilities else old(merged.capabilities)
    ensures merged.Meaning().capabilities ==
            MergeCapabilities(old(merged.Meaning().capabilities), old(ext.Meaning().capabilities))
    ensures ext.capabilities != null ==> ext.capabilities.Meaning() == old(ext.capabilities.Meaning())
  {
    if merged.capabilities == null && ext.capabilities != null {
      merged.capabilities := ext.capabilities;
    }
    if merged.capabilities != null && ext.capabilities != null {
      if merged.capabilities.drop.None? && ext.capabilities.drop.Some? {
        merged.capabilities.drop := ext.capabilities.drop;
      }
      if merged.capabilities.drop.Some? && ext.capabilities.drop.Some? {
        var list := merged.capabilities.drop.value + ext.capabilities.drop.value;
        MembersOfConcat(merged.capabilities.drop.value, ext.capabilities.drop.value);
        var drop := CollectKeys(Members(list));
        merged.capabilities.drop := drop;
      }
      assert DropSet(merged.capabilities.drop) ==
             old(if merged.capabilities == null then {} else DropSet(merged.capabilities.drop)) +
             old(DropSet(ext.capabilities.drop));
      ghost var dropped := old(DropSet(ext.capabilities.drop));
      assert dropped + dropped == dropped;
    }
  }

  /** The result has the value of the pure merge, and every context that existed before keeps its meaning, whoever
      shares what with whom. Only the Capabilities object of the extending context is written to. */
  method MergeContainerSecurityContexts(base: SecurityContext?, ext: SecurityContext?)
    returns (merged: SecurityContext?)
    modifies if ext == null then null else ext.capabilities
    ensures MeaningOf(merged) == MergeContainer(old(MeaningOf(base)), old(MeaningOf(ext)))
    ensures merged == base || merged == ext || fresh(merged)
    ensures forall o: SecurityContext {:trigger o.Meaning()} | old(allocated(o)) :: o.Meaning() == old(o.Meaning())
  {
    if base == null { return ext; }
    if ext == null { return base; }
    merged := base.DeepCopy();
    MergeScalars(merged, ext);
    MergeDrop(merged, ext);
  }

  /** Takes over the fields that are unset in `merged`, apart from the capabilities. */
  method MergeScalars(merged: SecurityContext, ext: SecurityContext)
    requires merged != ext
    modifies merged`runAsUser, merged`runAsGroup, merged`privileged, merged`allowPrivilegeEscalation,
             merged`readOnlyRootFilesystem, merged`seccompProfile, merged`seLinuxOptions
    ensures merged.runAsUser == Or(old(merged.runAsUser), ext.runAsUser)
    ensures merged.runAsGroup == Or(old(merged.runAsGroup), ext.runAsGroup)
    ensures merged.privileged == Or(old(merged.privileged), ext.privileged)
    ensures merged.allowPrivilegeEscalation == Or(old(merged.allowPrivilegeEscalation), ext.allowPrivilegeEscalation)
    ensures merged.readOnlyRootFilesystem == Or(old(merged.readOnlyRootFilesystem), ext.readOnlyRootFilesystem)
    ensures merged.seccompProfile == Or(old(merged.seccompProfile), ext.seccompProfile)
    ensures merged.seLinuxOptions == Or(old(merged.seLinuxOptions), ext.seLinuxOptions)
  {
    merged.runAsUser := Or(merged.runAsUser, ext.runAsUser);
    merged.runAsGroup := Or(merged.runAsGroup, ext.runAsGroup);
    merged.privileged := Or(merged.privileged, ext.privileged);
    merged.allowPrivilegeEscalation := Or(merged.allowPrivilegeEscalation, ext.allowPrivilegeEscalation);
    merged.readOnlyRootFilesystem := Or(merged.readOnlyRootFilesystem, ext.readOnlyRootFilesystem);
    merged.seccompProfile := Or(merged.seccompProfile, ext.seccompProfile);
    merged.seLinuxOptions := Or(merged.seLinuxOptions, ext.seLinuxOptions);
  }

  function Meanings(cs: seq<SecurityContext?>): seq<Option<ContainerContext>>
    reads cs, set c: SecurityContext | c in cs :: c.capabilities
  {
    seq(|cs|, i requires 0 <= i < |cs| reads cs, set c: SecurityContext | c in cs :: c.capabilities => MeaningOf(cs[i]))
  }

  twostate lemma SameMeanings(cs: seq<SecurityContext?>)
    requires forall o: SecurityContext {:trigger o.Meaning()} | old(allocated(o)) :: o.Meaning() == old(o.Meaning())
    ensures Meanings(cs) == old(Meanings(cs))
  {
    forall i | 0 <= i < |cs| ensures MeaningOf(cs[i]) == old(MeaningOf(cs[i])) {}
  }

  method MergeIntoContainer(containers: array<SecurityContext?>, i: nat, ext: SecurityContext?)
    requires i < containers.Length
    modifies containers, if ext == null then null else ext.capabilities
    ensures MeaningOf(containers[i]) == MergeContainer(old(MeaningOf(containers[i])), old(MeaningOf(ext)))
    ensures forall j | 0 <= j < containers.Length && j != i :: containers[j] == old(containers[j])
    ensures forall o: SecurityContext {:trigger o.Meaning()} | old(allocated(o)) :: o.Meaning() == old(o.Meaning())
  {
    if containers[i] == null {
      containers[i] := ext;
    } else {
      var merged := MergeContainerSecurityContexts(containers[i], ext);
      containers[i] := merged;
    }
  }

  /** The loop over containers. One object may be installed in many of them; each gets the value of the pure merge,
      and every context that existed before keeps its meaning. */
  method MergeIntoContainers(containers: array<SecurityContext?>, ext: SecurityContext?)
    modifies containers, if ext == null then null else ext.capabilities
    ensures Meanings(containers[..]) == MergeIntoAll(old(Meanings(containers[..])), old(MeaningOf(ext)))
    ensures forall o: SecurityContext {:trigger o.Meaning()} | old(allocated(o)) :: o.Meaning() == old(o.Meaning())
  {
    for i := 0 to containers.Length
      invariant forall j | 0 <= j < i ::
                  MeaningOf(containers[j]) == MergeContainer(old(MeaningOf(containers[j])), old(MeaningOf(ext)))
      invariant forall j | i <= j < containers.Length :: containers[j] == old(containers[j])
      invariant forall o: SecurityContext {:trigger o.Meaning()} | old(allocated(o)) :: o.Meaning() == old(o.Meaning())
    {
      MergeIntoContainer(containers, i, ext);
    }
  }

  /** Builds a new object each time. */
  method ToK8sSecurityContext(c: Option<ContainerDefaults>) returns (o: SecurityContext?)
    ensures MeaningOf(o) == ContainerToK8s(c)
    ensures o != null ==> fresh(o) && (o.capabilities != null ==> fresh(o.capabilities))
  {
    if c.None? { return null; }
    var sc := new SecurityContext();
    sc.runAsNonRoot, sc.readOnlyRootFilesystem := c.value.runAsNonRoot, c.value.readOnlyRootFilesystem;
    sc.allowPrivilegeEscalation := c.value.allowPrivilegeEscalation;
    sc.runAsUser, sc.runAsGroup := c.value.runAsUser, c.value.runAsGroup;
    if c.value.capabilitiesDrop.Some? && c.value.capabilitiesDrop.value != [] {
      sc.capabilities := new CapabilitiesObject(None, c.value.capabilitiesDrop);
    }
    sc.seccompProfile := Profile(c.value.seccompProfile);
    return sc;
  }

  /** The loop of a check run: every container is extended by an object of its own. */
  method ApplyDefaultsToContainers(containers: array<SecurityContext?>, c: Option<ContainerDefaults>)
    modifies containers
    ensures Meanings(containers[..]) == MergeIntoAll(old(Meanings(containers[..])), ContainerToK8s(c))
    ensures forall o: SecurityContext {:trigger o.Meaning()} | old(allocated(o)) :: o.Meaning() == old(o.Meaning())
  {
    for i := 0 to containers.Length
      invariant forall j | 0 <= j < i ::
                  MeaningOf(containers[j]) == MergeContainer(old(MeaningOf(containers[j])), ContainerToK8s(c))
      invariant forall j | i <= j < containers.Length :: containers[j] == old(containers[j])
      invariant forall o: SecurityContext {:trigger o.Meaning()} | old(allocated(o)) :: o.Meaning() == old(o.Meaning())
    {
      var ext := ToK8sSecurityContext(c);
      MergeIntoContainer(containers, i, ext);
    }
  }

  /** The workload under test. The contexts of pods are never shared and written to, so they are plain values. */
  class Workload {
    var securityContext: Option<PodContext>
    const containers: array<SecurityContext?>
    const initContainers: array<SecurityContext?>

    constructor (pod: Option<PodContext>, containers: array<SecurityContext?>, initContainers: array<SecurityContext?>)
      requires containers != initContainers
      ensures Valid() && securityContext == pod && this.containers == containers
              && this.initContainers == initContainers
    {
      securityContext := pod;
      this.containers, this.initContainers := containers, initContainers;
    }

    ghost predicate Valid() { containers != initContainers }

    ghost function Spec(): PodSpec
      reads this, containers, initContainers, containers[..], initContainers[..]
      reads set c: SecurityContext | c in containers[..] :: c.capabilities
      reads set c: SecurityContext | c in initContainers[..] :: c.capabilities
    {
      PodSpec(securityContext, Meanings(containers[..]), Meanings(initContainers[..]))
    }

    /** One shared context for all containers. */
    method MergeIntoAllContainers(container: SecurityContext?)
      requires Valid()
      modifies containers, initContainers, if container == null then null else container.capabilities
      ensures Meanings(containers[..]) == MergeIntoAll(old(Meanings(containers[..])), old(MeaningOf(container)))
      ensures Meanings(initContainers[..]) == MergeIntoAll(old(Meanings(initContainers[..])), old(MeaningOf(container)))
      ensures forall o: SecurityContext {:trigger o.Meaning()} | old(allocated(o)) :: o.Meaning() == old(o.Meaning())
    {
      MergeIntoContainers(containers, container);
      label first:
      MergeIntoContainers(initContainers, container);
      SameMeanings@first(containers[..]);
    }

    /** Installs one shared context in the pod spec. */
    method ApplySecurityContext(container: SecurityContext?, pod: Option<PodContext>)
      requires Valid()
      modifies this, containers, initContainers, if container == null then null else container.capabilities
      ensures Spec() == Apply(old(Spec()), old(MeaningOf(container)), pod)
      ensures forall o: SecurityContext {:trigger o.Meaning()} | old(allocated(o)) :: o.Meaning() == old(o.Meaning())
    {
      MergeIntoAllContainers(container);
      securityContext := MergePod(securityContext, pod);
    }

    /** Applies the defaults of a check. */
    method ApplySecurityContextToPodSpec(container: Option<ContainerDefaults>, pod: Option<PodDefaults>)
      requires Valid()
      modifies this, containers, initContainers
      ensures Spec() == Apply(old(Spec()), ContainerToK8s(container), PodToK8s(pod))
      ensures forall o: SecurityContext {:trigger o.Meaning()} | old(allocated(o)) :: o.Meaning() == old(o.Meaning())
    {
      securityContext := MergePod(securityContext, PodToK8s(pod));
      ApplyDefaultsToContainers(containers, container);
      label first:
      ApplyDefaultsToContainers(initContainers, container);
      SameMeanings@first(containers[..]);
    }
  }
}
