/** The conditions of a status as the list that is stored, and the loop that removes the conditions of the checks. */
module ConditionList {
  import opened ReconcileProtocol

  datatype Entry = Entry(kind: ConditionType, condition: Condition)

  /** A list with one entry for each condition. */
  ghost predicate Lists(list: seq<Entry>, st: Status) {
    && (forall i, j | 0 <= i < j < |list| :: list[i].kind != list[j].kind)
    && (forall i | 0 <= i < |list| :: list[i].kind in st.conditions && st.conditions[list[i].kind] == list[i].condition)
    && (forall c | c in st.conditions :: exists i | 0 <= i < |list| :: list[i].kind == c)
  }

  predicate IsKept(c: ConditionType) { c == FinishedCondition || c == AnalysisCondition }

  method RemoveCheckConditions(list: seq<Entry>, ghost st: Status) returns (remaining: seq<Entry>)
    requires Lists(list, st)
    ensures Lists(remaining, RemoveConditions(st))
    ensures forall e :: e in remaining <==> e in list && IsKept(e.kind)
  {
    remaining := [];
    for n := 0 to |list|
      invariant forall e :: e in remaining <==> e in list[..n] && IsKept(e.kind)
      invariant forall i, j | 0 <= i < j < |remaining| :: remaining[i].kind != remaining[j].kind
    {
      ghost var before := remaining;
      if list[n].kind == FinishedCondition { remaining := remaining + [list[n]]; }
      if list[n].kind == AnalysisCondition { remaining := remaining + [list[n]]; }
      assert list[..n + 1] == list[..n] + [list[n]];
      forall i | 0 <= i < |before| ensures before[i].kind != list[n].kind {
        assert before[i] in list[..n];
      }
      assert forall e :: e in remaining <==> e in list[..n + 1] && IsKept(e.kind);
    }
    assert list[..|list|] == list;
    KeptAreListed(list, remaining, st);
  }

  lemma KeptAreListed(list: seq<Entry>, remaining: seq<Entry>, st: Status)
    requires Lists(list, st) && (forall e :: e in remaining <==> e in list && IsKept(e.kind))
    requires forall i, j | 0 <= i < j < |remaining| :: remaining[i].kind != remaining[j].kind
    ensures Lists(remaining, RemoveConditions(st))
  {
    forall i | 0 <= i < |remaining|
      ensures remaining[i].kind in RemoveConditions(st).conditions
              && RemoveConditions(st).conditions[remaining[i].kind] == remaining[i].condition
    {
      assert remaining[i] in list;
    }
    forall c | c in RemoveConditions(st).conditions ensures exists i | 0 <= i < |remaining| :: remaining[i].kind == c {
      var i :| 0 <= i < |list| && list[i].kind == c;
      assert list[i] in remaining;
    }
  }
}
