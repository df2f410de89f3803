/** Cluster role bindings across the cloning and deletion of namespaces. */
module Bindings {
  import opened Options

  datatype Subject = Subject(kind: string, name: string, namespace: string, apiGroup: string)

  /** The labels by which the operator finds what it created, and all others. */
  datatype Label = ManagedBy | SourceNamespace | TargetNamespace | Suffix | Other(key: string)

  datatype Binding = Binding(subjects: seq<Subject>, roleRef: string, labels: map<Label, string>)

  const OPERATOR := "orakel-of-funk"
  const MAX_NAME := 253

  predicate IsAccountIn(s: Subject, ns: string) { s.kind == "ServiceAccount" && s.namespace == ns }

  predicate Refers(b: Binding, ns: string) { exists i | 0 <= i < |b.subjects| :: IsAccountIn(b.subjects[i], ns) }

  predicate Labelled(b: Binding, target: string) {
    TargetNamespace in b.labels && b.labels[TargetNamespace] == target
  }

  // ---------- One clone ----------

  function Moved(s: Subject, source: string, target: string): Subject {
    if IsAccountIn(s, source) then s.(namespace := target) else s
  }

  function Retargeted(subjects: seq<Subject>, source: string, target: string): seq<Subject> {
    seq(|subjects|, i requires 0 <= i < |subjects| => Moved(subjects[i], source, target))
  }

  /** The subjects of the copy are changed in place. */
  method RetargetSubjects(subjects: array<Subject>, source: string, target: string)
    modifies subjects
    ensures subjects[..] == Retargeted(old(subjects[..]), source, target)
  {
    for i := 0 to subjects.Length
      invariant forall j | 0 <= j < i :: subjects[j] == Moved(old(subjects[j]), source, target)
      invariant forall j | i <= j < subjects.Length :: subjects[j] == old(subjects[j])
    {
      if subjects[i].kind == "ServiceAccount" && subjects[i].namespace == source {
        subjects[i] := subjects[i].(namespace := target);
      }
    }
  }

  function CloneLabels(labels: map<Label, string>, source: string, target: string, suffix: string): map<Label, string> {
    labels[ManagedBy := OPERATOR][SourceNamespace := source][TargetNamespace := target][Suffix := suffix]
  }

  function CloneOf(b: Binding, source: string, target: string, suffix: string): Binding {
    Binding(Retargeted(b.subjects, source, target), b.roleRef, CloneLabels(b.labels, source, target, suffix))
  }

  /** `random` is the draw for a binding, of the given length. */
  function CloneName(name: string, target: string, random: (string, nat) -> string): string
    requires |name| <= MAX_NAME
  {
    var full := name + "-" + target;
    if |full| <= 250 then full
    else
      var drawn := name + "-" + random(name, if |name| > 245 then MAX_NAME - |name| else 10);
      if |drawn| > MAX_NAME then drawn[..MAX_NAME] else drawn
  }

  /** Clone names fit the limit of Kubernetes; only for a name that already has the greatest length, the clone gets
      the name of the original, so that creating it fails. */
  lemma CloneNameDiffers(name: string, target: string, random: (string, nat) -> string)
    requires |name| <= MAX_NAME && forall n, k :: |random(n, k)| == k
    ensures |CloneName(name, target, random)| <= MAX_NAME
    ensures CloneName(name, target, random) == name <==> |name| == MAX_NAME
  {
    if |name| == MAX_NAME {
      assert (name + "-" + random(name, 0))[..MAX_NAME] == name;
    }
  }

  /** A clone differs from its original exactly in the namespaces of the service accounts of the source and in the four
      labels of the operator. */
  lemma CloneExactly(b: Binding, source: string, target: string, suffix: string, i: nat, key: Label)
    ensures var c := CloneOf(b, source, target, suffix);
            && c.roleRef == b.roleRef && |c.subjects| == |b.subjects|
            && (i < |b.subjects| ==>
                  && c.subjects[i].kind == b.subjects[i].kind && c.subjects[i].name == b.subjects[i].name
                  && c.subjects[i].apiGroup == b.subjects[i].apiGroup
                  && c.subjects[i].namespace ==
                     if b.subjects[i].kind == "ServiceAccount" && b.subjects[i].namespace == source then target
                     else b.subjects[i].namespace)
            && (key.Other? && key in b.labels ==> key in c.labels && c.labels[key] == b.labels[key])
            && (key.Other? && key in c.labels ==> key in b.labels)
            && (key == ManagedBy ==> key in c.labels && c.labels[key] == "orakel-of-funk")
            && (key == SourceNamespace ==> key in c.labels && c.labels[key] == source)
            && (key == TargetNamespace ==> key in c.labels && c.labels[key] == target)
            && (key == Suffix ==> key in c.labels && c.labels[key] == suffix)
  {
  }

  /** A clone is called like its original and the target. If that has more than 250 characters, ten random ones replace
      the target; for a name with more than 242, they fill the name up to 253 characters. */
  lemma CloneNameExactly(name: string, target: string, random: (string, nat) -> string)
    requires |name| <= MAX_NAME && forall n, k :: |random(n, k)| == k
    ensures var c := CloneName(name, target, random);
            if |name| + 1 + |target| <= 250 then c == name + "-" + target
            else if |name| <= 242 then c == name + "-" + random(name, 10)
            else
              && |c| == 253 && c[..|name|] == name && (|name| < 253 ==> c[|name|] == '-')
              && forall j | |name| < j < 253 ::
                   c[j] == random(name, if |name| > 245 then 253 - |name| else 10)[j - |name| - 1]
  {
    var drawn := name + "-" + random(name, if |name| > 245 then MAX_NAME - |name| else 10);
    assert drawn[..|name|] == name && drawn[|name|] == '-';
    if |drawn| >= MAX_NAME {
      assert drawn[..MAX_NAME][..|name|] == drawn[..|name|];
    }
  }

  /** A clone has no service account of the source namespace left; every other subject is kept, in order, and the
      accounts of the source now belong to the target. It is labelled for its target. */
  lemma CloneMovesAccounts(b: Binding, source: string, target: string, suffix: string, ns: string)
    requires source != target
    ensures var c := CloneOf(b, source, target, suffix);
            && !Refers(c, source) && Labelled(c, target) && |c.subjects| == |b.subjects|
            && (forall i | 0 <= i < |b.subjects| && !IsAccountIn(b.subjects[i], source) ::
                  c.subjects[i] == b.subjects[i])
            && (Refers(c, ns) <==> ns != source && (Refers(b, ns) || (ns == target && Refers(b, source))))
  {
    var c := CloneOf(b, source, target, suffix);
    if ns != source {
      if i :| 0 <= i < |b.subjects| && IsAccountIn(b.subjects[i], ns) { assert IsAccountIn(c.subjects[i], ns); }
    }
    if i :| 0 <= i < |b.subjects| && IsAccountIn(b.subjects[i], source) { assert IsAccountIn(c.subjects[i], target); }
    if i :| 0 <= i < |c.subjects| && IsAccountIn(c.subjects[i], ns) {
      assert IsAccountIn(b.subjects[i], ns) || (ns == target && IsAccountIn(b.subjects[i], source));
    }
  }

  // ---------- Steps on the cluster ----------

  datatype State = State(namespaces: set<string>, bindings: map<string, Binding>)

  predicate Keeps(before: map<string, Binding>, after: map<string, Binding>) {
    forall n | n in before :: n in after && after[n] == before[n]
  }

  /** Every new binding is the clone of a binding that refers to the source. */
  ghost predicate OnlyClones(before: map<string, Binding>, after: map<string, Binding>,
                             source: string, target: string, suffix: string)
  {
    forall n | n in after && n !in before :: exists m | m in before ::
          Refers(before[m], source) && after[n] == CloneOf(before[m], source, target, suffix)
  }

  /** Nothing happens if the target exists, or its namespace cannot be created. */
  ghost predicate Cloned(s: State, t: State, source: string, target: string, suffix: string) {
    || t == s
    || (target !in s.namespaces && t.namespaces == s.namespaces + {target} && Keeps(s.bindings, t.bindings)
        && OnlyClones(s.bindings, t.bindings, source, target, suffix))
  }

  function WithoutLabel(bindings: map<string, Binding>, target: string): map<string, Binding> {
    map n | n in bindings && !Labelled(bindings[n], target) :: bindings[n]
  }

  function Deleted(s: State, target: string): State {
    if target !in s.namespaces then s else State(s.namespaces - {target}, WithoutLabel(s.bindings, target))
  }

  /** Nothing happens without the namespace, or if its deletion is refused; otherwise it goes, and so do some or all of
      the bindings labelled for it. */
  ghost predicate DeletedPartly(s: State, t: State, target: string) {
    || t == s
    || (target in s.namespaces && t.namespaces == s.namespaces - {target} && Keeps(t.bindings, s.bindings)
        && forall n | n in s.bindings && !Labelled(s.bindings[n], target) :: n in t.bindings)
  }

  /** Bindings in the order in which the API lists them. */
  ghost predicate Listing(order: seq<string>, bindings: map<string, Binding>) {
    forall i | 0 <= i < |order| :: order[i] in bindings && |order[i]| <= MAX_NAME
  }

  /** A binding that refers to the source has a new clone, under the name that is made for it. */
  predicate HasClone(before: map<string, Binding>, n: string, now: map<string, Binding>,
                     source: string, target: string, suffix: string, random: (string, nat) -> string)
    requires n in before && |n| <= MAX_NAME
  {
    Refers(before[n], source) ==>
      var name := CloneName(n, target, random);
      name !in before && name in now && now[name] == CloneOf(before[n], source, target, suffix)
  }

  /** The first `done` bindings have been dealt with. */
  ghost predicate Progress(before: map<string, Binding>, order: seq<string>, done: nat, now: map<string, Binding>,
                           source: string, target: string, suffix: string, random: (string, nat) -> string)
    requires Listing(order, before) && done <= |order|
  {
    && Keeps(before, now) && OnlyClones(before, now, source, target, suffix)
    && forall i | 0 <= i < done :: HasClone(before, order[i], now, source, target, suffix, random)
  }

  lemma ProgressCreated(before: map<string, Binding>, order: seq<string>, done: nat, last: map<string, Binding>,
                        name: string, source: string, target: string, suffix: string, random: (string, nat) -> string)
    requires Listing(order, before) && done < |order|
    requires Progress(before, order, done, last, source, target, suffix, random)
    requires Refers(before[order[done]], source) && name == CloneName(order[done], target, random) && name !in last
    ensures Progress(before, order, done + 1, last[name := CloneOf(before[order[done]], source, target, suffix)],
            source, target, suffix, random)
  {
    var now := last[name := CloneOf(before[order[done]], source, target, suffix)];
    forall i | 0 <= i < done ensures HasClone(before, order[i], now, source, target, suffix, random) {
      assert HasClone(before, order[i], last, source, target, suffix, random);
    }
  }

  lemma ProgressSkipped(before: map<string, Binding>, order: seq<string>, done: nat, now: map<string, Binding>,
                        source: string, target: string, suffix: string, random: (string, nat) -> string)
    requires Listing(order, before) && done < |order|
    requires Progress(before, order, done, now, source, target, suffix, random) && !Refers(before[order[done]], source)
    ensures Progress(before, order, done + 1, now, source, target, suffix, random)
  {
  }

  /** When the API lists all bindings and nothing fails, every binding that refers to the source has its clone. */
  lemma AllCloned(before: map<string, Binding>, order: seq<string>, now: map<string, Binding>, n: string,
                  source: string, target: string, suffix: string, random: (string, nat) -> string)
    requires Listing(order, before) && (forall m | m in before :: m in order) && n in before
    requires Progress(before, order, |order|, now, source, target, suffix, random)
    ensures |n| <= MAX_NAME && HasClone(before, n, now, source, target, suffix, random)
  {
    var i :| 0 <= i < |order| && order[i] == n;
    assert HasClone(before, order[i], now, source, target, suffix, random);
  }

  /** How many of the first `done` bindings refer to the source. */
  function Referring(bindings: map<string, Binding>, order: seq<string>, done: nat, source: string): nat
    requires done <= |order|
  {
    if done == 0 then 0
    else
      Referring(bindings, order, done - 1, source) +
      if order[done - 1] in bindings && Refers(bindings[order[done - 1]], source) then 1 else 0
  }

  /** The clone of a binding that refers to the source cannot be created. */
  predicate Blocked(n: string, b: Binding, source: string, target: string, random: (string, nat) -> string,
                    bindings: map<string, Binding>, refused: set<string>)
    requires |n| <= MAX_NAME
  {
    Refers(b, source) && (CloneName(n, target, random) in bindings || CloneName(n, target, random) in refused)
  }

  class Cluster {
    var namespaces: set<string>
    var bindings: map<string, Binding>

    function Contents(): State
      reads this
    {
      State(namespaces, bindings)
    }

    /** Creating fails for a name that is taken, or when the API refuses. */
    method Create(name: string, b: Binding, refused: set<string>) returns (ok: bool)
      modifies this`bindings
      ensures ok <==> name !in old(bindings) && name !in refused
      ensures bindings == if ok then old(bindings)[name := b] else old(bindings)
    {
      ok := name !in bindings && name !in refused;
      if ok { bindings := bindings[name := b]; }
    }

    /** Copies a binding, changes the copy and creates it. */
    method CreateClone(name: string, b: Binding, source: string, target: string, suffix: string, refused: set<string>)
      returns (ok: bool)
      modifies this`bindings
      ensures ok <==> name !in old(bindings) && name !in refused
      ensures bindings == if ok then old(bindings)[name := CloneOf(b, source, target, suffix)] else old(bindings)
    {
      var subjects := new Subject[|b.subjects|](i requires 0 <= i < |b.subjects| => b.subjects[i]);
      assert subjects[..] == b.subjects;
      RetargetSubjects(subjects, source, target);
      ok := Create(name, Binding(subjects[..], b.roleRef, CloneLabels(b.labels, source, target, suffix)), refused);
    }

    /** One turn of the loop over the listed bindings. */
    method CloneIfReferring(order: seq<string>, i: nat, b: Binding, source: string, target: string, suffix: string,
                            random: (string, nat) -> string, refused: set<string>, ghost before: map<string, Binding>)
      returns (ok: bool)
      requires Listing(order, before) && i < |order| && b == before[order[i]]
      requires Progress(before, order, i, bindings, source, target, suffix, random)
      modifies this`bindings
      ensures Progress(before, order, if ok then i + 1 else 0, bindings, source, target, suffix, random)
      ensures !ok ==> Blocked(order[i], b, source, target, random, bindings, refused)
    {
      if !Refers(b, source) {
        ProgressSkipped(before, order, i, bindings, source, target, suffix, random);
        return true;
      }
      ghost var last := bindings;
      var name := CloneName(order[i], target, random);
      ok := CreateClone(name, b, source, target, suffix, refused);
      if ok { ProgressCreated(before, order, i, last, name, source, target, suffix, random); }
    }

    /** Clones every listed binding that refers to the source namespace, and stops at the first that cannot be
        created. */
    method CloneClusterRoleBindings(source: string, target: string, suffix: string, random: (string, nat) -> string,
                                    refused: set<string>, order: seq<string>)
      returns (count: nat, ok: bool)
      requires Listing(order, bindings)
      modifies this`bindings
      ensures Progress(old(bindings), order, if ok then |order| else 0, bindings, source, target, suffix, random)
      ensures ok ==> count == Referring(old(bindings), order, |order|, source)
      ensures !ok ==>
                exists i | 0 <= i < |order| ::
                  Blocked(order[i], old(bindings)[order[i]], source, target, random, bindings, refused)
    {
      var listed := bindings;
      count := 0;
      for i := 0 to |order|
        invariant Progress(listed, order, i, bindings, source, target, suffix, random)
        invariant count == Referring(listed, order, i, source)
      {
        if Refers(listed[order[i]], source) { count := count + 1; }
        var cloned := CloneIfReferring(order, i, listed[order[i]], source, target, suffix, random, refused, listed);
        if !cloned { return count, false; }
      }
      return count, true;
    }

    /** Clone refuses a target that exists, and stops if the API refuses the namespace; otherwise it leaves the
        namespace, and whatever bindings were created. */
    method Clone(source: string, target: string, suffix: string, random: (string, nat) -> string,
                 namespaceRefused: bool, refused: set<string>, order: seq<string>)
      returns (ok: bool)
      requires Listing(order, bindings)
      modifies this
      ensures Cloned(old(Contents()), Contents(), source, target, suffix)
      ensures target in old(namespaces) || namespaceRefused ==> !ok && Contents() == old(Contents())
      ensures target !in old(namespaces) && !namespaceRefused ==> namespaces == old(namespaces) + {target}
      ensures ok ==> Progress(old(bindings), order, |order|, bindings, source, target, suffix, random)
    {
      if target in namespaces { return false; }
      if namespaceRefused { return false; }
      namespaces := namespaces + {target};
      var _, cloned := CloneClusterRoleBindings(source, target, suffix, random, refused, order);
      return cloned;
    }

    /** Deletes the namespace and then, one after the other, the bindings labelled for it; without the namespace, or
        if the API refuses to delete it, it does nothing. The bindings in `refused` cannot be deleted, which is only
        logged. */
    method Delete(target: string, namespaceRefused: bool, refused: set<string>)
      modifies this
      ensures DeletedPartly(old(Contents()), Contents(), target)
      ensures target !in old(namespaces) || namespaceRefused ==> Contents() == old(Contents())
      ensures !namespaceRefused && refused == {} ==> Contents() == Deleted(old(Contents()), target)
      ensures target in old(namespaces) && !namespaceRefused ==>
                && namespaces == old(namespaces) - {target}
                && forall n ::
                     n in bindings <==> n in old(bindings) && (Labelled(old(bindings)[n], target) ==> n in refused)
      ensures Keeps(bindings, old(bindings))
    {
      if target !in namespaces { return; }
      if namespaceRefused { return; }
      namespaces := namespaces - {target};
      ghost var before := bindings;
      var listed := set n | n in bindings && Labelled(bindings[n], target);
      var rest := listed;
      while rest != {}
        invariant rest <= listed && namespaces == old(namespaces) - {target}
        invariant forall n :: n in bindings <==> n in before && (n in listed - rest ==> n in refused)
        invariant Keeps(bindings, before)
        decreases |rest|
      {
        var n :| n in rest;
        rest := rest - {n};
        if n !in refused { bindings := bindings - {n}; }
      }
      assert listed - rest == listed;
      assert refused == {} ==> bindings == WithoutLabel(before, target);
    }
  }

  // ---------- Runs of clones and deletions ----------

  datatype Op = CloneTo(target: string) | DeleteOf(target: string)

  /** Clones may fail or stop in the middle, and deletions may be refused; if they need not be complete, they may also
      leave bindings behind. */
  ghost predicate Steps(s: State, op: Op, t: State, source: string, suffix: string, complete: bool) {
    match op
    case CloneTo(target) => Cloned(s, t, source, target, suffix)
    case DeleteOf(target) => if complete then t == s || t == Deleted(s, target) else DeletedPartly(s, t, target)
  }

  ghost predicate Runs(s: State, ops: seq<Op>, t: State, source: string, suffix: string, complete: bool)
    decreases |ops|
  {
    if ops == [] then s == t
    else exists m :: Steps(s, ops[0], m, source, suffix, complete) && Runs(m, ops[1..], t, source, suffix, complete)
  }

  /** A target is fresh if neither its namespace nor bindings labelled for it exist. */
  predicate Fresh(s: State, target: string) {
    target !in s.namespaces && forall n | n in s.bindings :: !Labelled(s.bindings[n], target)
  }

  function ReferringTo(bindings: map<string, Binding>, ns: string): set<string> {
    set n | n in bindings && Refers(bindings[n], ns)
  }

  predicate LabelledForSome(b: Binding, targets: set<string>) { exists u | u in targets :: Labelled(b, u) }

  /** Beyond the original bindings there are only clones for the targets, after complete deletions only for those that
      exist, and none refers to the source. */
  ghost predicate OnlyAdds(orig: State, s: State, source: string, targets: set<string>, complete: bool) {
    && orig.namespaces <= s.namespaces <= orig.namespaces + targets
    && Keeps(orig.bindings, s.bindings)
    && forall n | n in s.bindings && n !in orig.bindings ::
         && !Refers(s.bindings[n], source)
         && LabelledForSome(s.bindings[n], if complete then targets * s.namespaces else targets)
  }

  lemma CloneOnlyAdds(orig: State, s: State, t: State, source: string, target: string, suffix: string,
                      targets: set<string>, complete: bool)
    requires OnlyAdds(orig, s, source, targets, complete) && Cloned(s, t, source, target, suffix)
    requires target in targets && source != target
    ensures OnlyAdds(orig, t, source, targets, complete)
  {
    if t != s {
      forall n | n in t.bindings && n !in orig.bindings
        ensures !Refers(t.bindings[n], source)
        ensures LabelledForSome(t.bindings[n], if complete then targets * t.namespaces else targets)
      {
        if n in s.bindings {
          var u :| u in (if complete then targets * s.namespaces else targets) && Labelled(s.bindings[n], u);
          assert u in targets && (complete ==> u in t.namespaces) && Labelled(t.bindings[n], u);
        } else {
          var m :| m in s.bindings && Refers(s.bindings[m], source)
              && t.bindings[n] == CloneOf(s.bindings[m], source, target, suffix);
          CloneMovesAccounts(s.bindings[m], source, target, suffix, source);
          assert target in t.namespaces && Labelled(t.bindings[n], target);
        }
      }
    }
  }

  lemma DeleteOnlyAdds(orig: State, s: State, t: State, source: string, target: string, targets: set<string>,
                       complete: bool)
    requires OnlyAdds(orig, s, source, targets, complete) && Fresh(orig, target)
    requires if complete then t == Deleted(s, target) else DeletedPartly(s, t, target)
    ensures OnlyAdds(orig, t, source, targets, complete)
  {
    forall n | n in t.bindings && n !in orig.bindings
      ensures LabelledForSome(t.bindings[n], if complete then targets * t.namespaces else targets)
    {
      var u :| u in (if complete then targets * s.namespaces else targets) && Labelled(s.bindings[n], u);
      assert Labelled(t.bindings[n], u) && (complete ==> u in t.namespaces);
    }
  }

  lemma {:induction false} RunOnlyAdds(orig: State, s: State, ops: seq<Op>, t: State, source: string, suffix: string,
                                       targets: set<string>, complete: bool)
    requires OnlyAdds(orig, s, source, targets, complete) && Runs(s, ops, t, source, suffix, complete)
    requires source !in targets && forall op | op in ops :: op.target in targets && Fresh(orig, op.target)
    ensures OnlyAdds(orig, t, source, targets, complete)
    decreases |ops|
  {
    if ops != [] {
      var m :| Steps(s, ops[0], m, source, suffix, complete) && Runs(m, ops[1..], t, source, suffix, complete);
      assert ops[0] in ops;
      match ops[0] {
        case CloneTo(target) => CloneOnlyAdds(orig, s, m, source, target, suffix, targets, complete);
        case DeleteOf(target) => if m != s { DeleteOnlyAdds(orig, s, m, source, target, targets, complete); }
      }
      RunOnlyAdds(orig, m, ops[1..], t, source, suffix, targets, complete);
    }
  }

  /** However clones to fresh targets and deletions of targets follow each other, also those that stop in the middle,
      the original bindings stay as they are and the set of bindings that refer to the source does not change. The
      cluster is what it was before exactly if all targets are fresh again; after complete deletions, it is enough
      that their namespaces are gone. */
  lemma BindingsConserved(orig: State, ops: seq<Op>, t: State, source: string, suffix: string, complete: bool)
    requires Runs(orig, ops, t, source, suffix, complete)
    requires forall op | op in ops :: op.target != source && Fresh(orig, op.target)
    ensures Keeps(orig.bindings, t.bindings)
    ensures ReferringTo(t.bindings, source) == ReferringTo(orig.bindings, source)
    ensures t == orig <==> forall op | op in ops :: Fresh(t, op.target)
    ensures complete && t.namespaces == orig.namespaces ==> t == orig
  {
    var targets := set op | op in ops :: op.target;
    RunOnlyAdds(orig, orig, ops, t, source, suffix, targets, complete);
    if forall op | op in ops :: Fresh(t, op.target) {
      forall u | u in targets ensures Fresh(t, u) {
        var op :| op in ops && op.target == u;
      }
      Restored(orig, t, source, targets, complete);
    }
    if complete && t.namespaces == orig.namespaces {
      forall u | u in targets ensures u !in t.namespaces {
        var op :| op in ops && op.target == u;
      }
      assert t.bindings == orig.bindings;
    }
  }

  lemma Restored(orig: State, t: State, source: string, targets: set<string>, complete: bool)
    requires OnlyAdds(orig, t, source, targets, complete) && forall u | u in targets :: Fresh(t, u)
    ensures t == orig
  {
    assert t.bindings == orig.bindings;
    assert t.namespaces == orig.namespaces;
  }

  /** Cloning to a namespace that does not exist and deleting it again restores the cluster exactly if no binding was
      labelled for it before; if the namespace could not be created, there is nothing to delete. */
  lemma CloneThenDelete(s: State, t: State, source: string, target: string, suffix: string)
    requires target !in s.namespaces && source != target && Cloned(s, t, source, target, suffix)
    ensures target in t.namespaces ==> (Deleted(t, target) == s <==> Fresh(s, target))
    ensures target !in t.namespaces ==> t == s && Deleted(t, target) == s
  {
    if target in t.namespaces { CreatedThenDeleted(s, t, source, target, suffix); }
  }

  lemma CreatedThenDeleted(s: State, t: State, source: string, target: string, suffix: string)
    requires target !in s.namespaces && source != target && Cloned(s, t, source, target, suffix)
             && target in t.namespaces
    ensures Deleted(t, target) == s <==> Fresh(s, target)
  {
    forall n | n in t.bindings && n !in s.bindings ensures Labelled(t.bindings[n], target) {
      var m :| m in s.bindings && Refers(s.bindings[m], source)
          && t.bindings[n] == CloneOf(s.bindings[m], source, target, suffix);
      CloneMovesAccounts(s.bindings[m], source, target, suffix, source);
    }
    assert s.namespaces + {target} - {target} == s.namespaces;
    if Fresh(s, target) {
      assert Deleted(t, target).bindings == s.bindings;
    } else {
      var n :| n in s.bindings && Labelled(s.bindings[n], target);
      assert n !in Deleted(t, target).bindings;
    }
  }
}
