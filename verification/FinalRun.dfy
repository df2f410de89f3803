/** The final run: the recommendation is projected to a check context and applied to the original workload. */
module FinalRun {
  import opened Options
  import opened SecurityContexts
  import opened Checks
  import opened Recommendation

  datatype Recommended = Recommended(pod: Option<PodContext>, container: Option<ContainerContext>)

  predicate RecommendationExists(r: Option<Recommended>) {
    r.Some? && (r.value.pod.Some? || r.value.container.Some?)
  }

  /** The projection keeps these fields and the capabilities to drop. */
  predicate Carried(f: Field) {
    f == PodUser || f == PodGroup || f == PodFsGroup || f == PodNonRoot
    || f == ContainerUser || f == ContainerGroup || f == ContainerEscalation || f == ContainerReadOnly
  }

  function PodProjection(p: Option<PodContext>): PodDefaults {
    if p.None? then UNSET.pod.value
    else PodDefaults(p.value.fsGroup, p.value.runAsUser, p.value.runAsGroup, p.value.runAsNonRoot, None, None)
  }

  /** `drop` lists the capabilities in any order. */
  function ContainerProjection(c: Option<ContainerContext>, drop: seq<Capability>): ContainerDefaults {
    if c.None? then UNSET.container.value
    else ContainerDefaults(c.value.runAsNonRoot, c.value.readOnlyRootFilesystem, c.value.allowPrivilegeEscalation,
                           Some(drop), None, c.value.runAsUser, c.value.runAsGroup)
  }

  ghost predicate Projects(r: Recommended, d: Defaults) {
    exists drop: seq<Capability> |
      Members(drop) == (if r.container.None? then {} else Dropped(r.container.value.capabilities)) ::
      d == Defaults(Some(PodProjection(r.pod)), Some(ContainerProjection(r.container, drop)))
  }

  method ListOf(s: set<Capability>) returns (list: seq<Capability>)
    ensures Members(list) == s
  {
    list := [];
    var rest := s;
    while rest != {}
      invariant rest <= s && Members(list) == s - rest
      decreases |rest|
    {
      var c :| c in rest;
      ghost var before := list;
      list := list + [c];
      rest := rest - {c};
      assert Members(list) == Members(before) + {c};
    }
  }

  method GetRecommendedSecurityContext(r: Option<Recommended>) returns (d: Option<Defaults>)
    ensures d.Some? <==> RecommendationExists(r)
    ensures d.Some? ==> Projects(r.value, d.value)
  {
    if !RecommendationExists(r) { return None; }
    var drop := [];
    if r.value.container.Some? && r.value.container.value.capabilities.Some? {
      drop := ListOf(r.value.container.value.capabilities.value.drop);
    } else {
      assert Members<Capability>([]) == {};
    }
    d := Some(Defaults(Some(PodProjection(r.value.pod)), Some(ContainerProjection(r.value.container, drop))));
  }

  /** What a check run installs in the cloned workload. */
  function Installed(spec: PodSpec, d: Defaults): PodSpec { if IsEmpty(Some(d)) then spec else AppliedTo(spec, d) }

  /** The pod context and the context of the main container, where the recommendation starts from. */
  function Original(spec: PodSpec): Contexts {
    Contexts(if spec.securityContext.None? then NO_POD_CONTEXT else spec.securityContext.value,
             if |spec.containers| == 0 || spec.containers[0].None? then NO_CONTAINER_CONTEXT
             else spec.containers[0].value)
  }

  function Recommend(spec: PodSpec, runs: seq<Defaults>): Recommended {
    var contexts := Fold(Original(spec), runs);
    Recommended(Some(contexts.pod), Some(contexts.container))
  }

  lemma ProjectionFields(r: Contexts, d: Defaults, f: Field)
    requires Projects(Recommended(Some(r.pod), Some(r.container)), d)
    ensures SetBy(d, f) == if Carried(f) then Get(r, f) else None
    ensures DroppedBy(d) == Dropped(r.container.capabilities)
    ensures d.container.value.runAsNonRoot == r.container.runAsNonRoot
  {
    var drop: seq<Capability> :| Members(drop) == Dropped(r.container.capabilities)
      && d == Defaults(Some(PodProjection(Some(r.pod))), Some(ContainerProjection(Some(r.container), drop)));
    if drop != [] { assert drop[0] in Members(drop); }
  }

  /** Installing a context merges it into the pod context and the context of the main container. */
  lemma InstalledExtends(spec: PodSpec, d: Defaults)
    requires |spec.containers| > 0 && d.pod.Some? && d.container.Some?
    requires d.pod.value.seccompProfile.None? && d.container.value.seccompProfile.None?
             && d.pod.value.supplementalGroups.None?
    requires spec.containers[0].None? ==> d.container.value.runAsNonRoot.None?
    ensures Original(Installed(spec, d)) == Extend(Original(spec), d)
  {
  }

  /** The final run tests what is recommended: for every field that the projection carries, and for the capabilities,
      the workload under test has exactly the recommended value. */
  lemma FinalRunTestsRecommendation(spec: PodSpec, runs: seq<Defaults>, d: Defaults, f: Field)
    requires |spec.containers| > 0 && Projects(Recommend(spec, runs), d)
    ensures var tested, recommended := Original(Installed(spec, d)), Fold(Original(spec), runs);
            && Get(tested, f) == (if Carried(f) then Get(recommended, f) else Get(Original(spec), f))
            && Dropped(tested.container.capabilities) == Dropped(recommended.container.capabilities)
            && Untouched(tested) == Untouched(recommended)
  {
    var own, recommended := Original(spec), Fold(Original(spec), runs);
    ProjectionFields(recommended, d, f);
    DropProvenance(own, runs, "");
    InstalledExtends(spec, d);
    ExtendFields(own, d, f);
    Provenance(own, runs, f);
    forall c | c in Dropped(own.container.capabilities) ensures c in Dropped(recommended.container.capabilities) {
      DropProvenance(own, runs, c);
    }
  }

  /** The recommendation also names the seccomp profiles and supplemental groups that the runs were given; the
      projection drops them. All that is recommended is tested exactly if the workload already has these values. */
  lemma FinalRunTestsEverything(spec: PodSpec, runs: seq<Defaults>, d: Defaults)
    requires |spec.containers| > 0 && Projects(Recommend(spec, runs), d)
    ensures (forall f :: Get(Original(Installed(spec, d)), f) == Get(Fold(Original(spec), runs), f))
       <==> (forall f | f == PodSeccomp || f == ContainerSeccomp || f == PodSupplementalGroups ::
               Get(Original(spec), f).Some? || forall r | r in runs :: SetBy(r, f).None?)
  {
    var own, recommended, tested := Original(spec), Fold(Original(spec), runs), Original(Installed(spec, d));
    forall f
      ensures Get(tested, f) == (if Carried(f) then Get(recommended, f) else Get(own, f))
      ensures Get(recommended, f) == Get(own, f) <==> Get(own, f).Some? || forall r | r in runs :: SetBy(r, f).None?
      ensures f == ContainerPrivileged ==> Get(recommended, f) == Get(own, f)
    {
      FinalRunTestsRecommendation(spec, runs, d, f);
      Provenance(own, runs, f);
    }
  }
}
