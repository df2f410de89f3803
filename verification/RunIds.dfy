/** Check-run identifiers, printed as "namespace/name:type". */
module RunIds {
  import opened Options

  type CheckRunID = string

  datatype Parsed = Parsed(namespace: string, name: string, checkType: string) | Malformed(missing: char)

  function NewCheckRunID(namespace: string, name: string, checkType: string): CheckRunID {
    namespace + "/" + name + ":" + checkType
  }

  predicate Absent(s: string, c: char, lo: nat, hi: nat) { forall m | lo <= m < hi && m < |s| :: s[m] != c }

  function FirstIndex(s: string, c: char): (k: Option<nat>)
    ensures k.None? ==> Absent(s, c, 0, |s|)
    ensures k.Some? ==> k.value < |s| && s[k.value] == c && Absent(s, c, 0, k.value)
  {
    if s == [] then None
    else if s[0] == c then Some(0)
    else
      var rest := FirstIndex(s[1..], c);
      assert forall m | 0 < m < |s| :: s[m] == s[1..][m - 1];
      if rest.None? then None else Some(rest.value + 1)
  }

  function LastIndex(s: string, c: char): (k: Option<nat>)
    ensures k.None? ==> Absent(s, c, 0, |s|)
    ensures k.Some? ==> k.value < |s| && s[k.value] == c && Absent(s, c, k.value + 1, |s|)
  {
    if s == [] then None
    else if s[|s| - 1] == c then Some(|s| - 1)
    else LastIndex(s[..|s| - 1], c)
  }

  function ParseCheckRunID(id: CheckRunID): Parsed {
    var slash := FirstIndex(id, '/');
    if slash.None? then Malformed('/')
    else
      var colon := LastIndex(id, ':');
      if colon.None? || colon.value <= slash.value then Malformed(':')
      else Parsed(id[..slash.value], id[slash.value + 1..colon.value], id[colon.value + 1..])
  }

  predicate HasPrefix(id: CheckRunID, prefix: string) { prefix <= id }

  function DeletionPrefix(namespace: string, name: string): string { namespace + "/" + name + ":" }

  /** Parsing restores the three parts exactly when the namespace has no slash and the type no colon. */
  lemma ParseAfterPrint(namespace: string, name: string, checkType: string)
    ensures ParseCheckRunID(NewCheckRunID(namespace, name, checkType)) == Parsed(namespace, name, checkType)
       <==> '/' !in namespace && ':' !in checkType
  {
    var id := NewCheckRunID(namespace, name, checkType);
    var a, b := |namespace|, |namespace| + 1 + |name|;
    assert id[a] == '/' && id[b] == ':' && id[..a] == namespace && id[b + 1..] == checkType && id[a + 1..b] == name;
    assert forall m | 0 <= m < a :: id[m] == namespace[m];
    assert forall m | b < m < |id| :: id[m] == checkType[m - b - 1];
    var f, l := FirstIndex(id, '/').value, LastIndex(id, ':').value;
    assert f <= a && b <= l;
    if ParseCheckRunID(id) == Parsed(namespace, name, checkType) {
      assert |id[..f]| == f && |id[l + 1..]| == |id| - l - 1;
      assert f == a && l == b;
    }
  }

  /** Printing restores every string that parses; a string fails to parse exactly when no colon follows its
      first slash. */
  lemma PrintAfterParse(id: CheckRunID)
    ensures var p := ParseCheckRunID(id);
            p.Parsed? ==> NewCheckRunID(p.namespace, p.name, p.checkType) == id
                          && '/' !in p.namespace && ':' !in p.checkType
    ensures ParseCheckRunID(id).Parsed? <==> exists i, j :: 0 <= i < j < |id| && id[i] == '/' && id[j] == ':'
  {
    var p := ParseCheckRunID(id);
    if p.Parsed? {
      var f, l := FirstIndex(id, '/').value, LastIndex(id, ':').value;
      assert id == id[..f] + [id[f]] + id[f + 1..l] + [id[l]] + id[l + 1..];
      assert 0 <= f < l < |id| && id[f] == '/' && id[l] == ':';
    }
    if i, j :| 0 <= i < j < |id| && id[i] == '/' && id[j] == ':' {
      assert FirstIndex(id, '/').value <= i && j <= LastIndex(id, ':').value;
    }
  }

  /** Texts split at the first occurrence of a character in one way only. */
  lemma SameHead(a: string, x: string, b: string, y: string, c: char)
    requires c !in a && c !in b && a + [c] + x == b + [c] + y
    ensures a == b && x == y
  {
    var s := a + [c] + x;
    assert s[|a|] == c && s[|b|] == c;
    assert forall k | 0 <= k < |a| :: s[k] == a[k] && a[k] in a;
    assert forall k | 0 <= k < |b| :: s[k] == b[k] && b[k] in b;
    assert |a| == |b|;
    assert a == s[..|a|] == b;
    assert x == s[|a| + 1..] == y;
  }

  /** The prefix used on deletion selects the runs of that namespace and name and no others, provided that
      namespaces have no slash and names no colon, as in Kubernetes. */
  lemma DeletionPrefixExact(namespace: string, name: string, ns: string, nm: string, checkType: string)
    requires '/' !in namespace && '/' !in ns && ':' !in name && ':' !in nm
    ensures HasPrefix(NewCheckRunID(ns, nm, checkType), DeletionPrefix(namespace, name))
       <==> ns == namespace && nm == name
  {
    var id, prefix := NewCheckRunID(ns, nm, checkType), DeletionPrefix(namespace, name);
    if ns == namespace && nm == name { assert id == prefix + checkType; }
    if prefix <= id {
      var tail := id[|prefix|..];
      assert id == prefix + tail;
      assert ns + ['/'] + (nm + [':'] + checkType) == id == namespace + ['/'] + (name + [':'] + tail);
      SameHead(ns, nm + [':'] + checkType, namespace, name + [':'] + tail, '/');
      SameHead(nm, checkType, name, tail, ':');
    }
  }

  /** In general, the prefix selects in its namespace the runs whose name and type, joined by a colon, start with the
      name and a colon. */
  lemma DeletionPrefixSelects(namespace: string, name: string, ns: string, nm: string, checkType: string)
    requires '/' !in namespace && '/' !in ns
    ensures HasPrefix(NewCheckRunID(ns, nm, checkType), DeletionPrefix(namespace, name))
       <==> ns == namespace && name + ":" <= nm + ":" + checkType
  {
    var id, prefix := NewCheckRunID(ns, nm, checkType), DeletionPrefix(namespace, name);
    var rest, wanted := nm + ":" + checkType, name + ":";
    assert id == ns + ['/'] + rest && prefix == namespace + ['/'] + wanted;
    if prefix <= id {
      var tail := id[|prefix|..];
      assert ns + ['/'] + rest == namespace + ['/'] + (wanted + tail);
      SameHead(ns, rest, namespace, wanted + tail, '/');
      assert rest[..|wanted|] == wanted;
    }
    if ns == namespace && wanted <= rest {
      assert rest == wanted + rest[|wanted|..];
      assert id == prefix + rest[|wanted|..];
    }
  }

  /** Names that may contain a colon break the selection: the runs of every resource whose name goes on with a colon are
      selected too. */
  lemma DeletionPrefixNeedsColonFreeNames(namespace: string, name: string, more: string, checkType: string)
    ensures HasPrefix(NewCheckRunID(namespace, name + ":" + more, checkType), DeletionPrefix(namespace, name))
  {
    assert NewCheckRunID(namespace, name + ":" + more, checkType) ==
           DeletionPrefix(namespace, name) + (more + ":" + checkType);
  }
}
