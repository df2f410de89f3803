/** Regular expressions with Go's leftmost-first, greedy meaning. `Ends(r, s, i)` lists the positions where a
    match of `r` that starts at `i` may end, in the order in which a backtracking matcher tries them; Go picks
    the first one. */
module Regex {
  import opened Options
  import opened Replace

  datatype Class = Digit | Space | Lit(c: char) | AnyOf(cs: string)

  datatype Re =
    | Chr(k: Class)
    | Str(w: string)        // the characters of w
    | Rep(k: Class, n: nat) // k{n}
    | Plus(k: Class)        // k+, greedy
    | Cat(a: Re, b: Re)
    | Alt(a: Re, b: Re)     // a|b, a preferred
    | Opt(a: Re)            // a?, greedy
    | WordBoundary          // \b over ASCII word characters

  predicate IsDigit(c: char) { '0' <= c <= '9' }

  predicate IsWord(c: char) {
    IsDigit(c) || 'a' <= c <= 'z' || 'A' <= c <= 'Z' || c == '_'
  }

  predicate In(k: Class, c: char) {
    match k
    case Digit => IsDigit(c)
    case Space => c in "\t\n\r " || c as int == 12
    case Lit(x) => c == x
    case AnyOf(cs) => c in cs
  }

  /** Whether position `k` of `s` exists and holds a word character. */
  predicate WordAt(s: string, k: int) { 0 <= k < |s| && IsWord(s[k]) }

  predicate Boundary(s: string, i: int) { WordAt(s, i - 1) != WordAt(s, i) }

  /** Positions `i` to `i + n` of `s` exist and hold characters of `k`. */
  predicate Run(k: Class, s: string, i: nat, n: nat) {
    i + n <= |s| && forall m | i <= m < i + n :: In(k, s[m])
  }

  function Ends(r: Re, s: string, i: nat): (es: seq<nat>)
    requires i <= |s|
    ensures forall e | e in es :: i <= e <= |s|
    decreases r, 0, |s| - i
  {
    match r
    case Chr(k) => if i < |s| && In(k, s[i]) then [i + 1] else []
    case Str(w) => if w <= s[i..] then [i + |w|] else []
    case Rep(k, n) => if Run(k, s, i, n) then [i + n] else []
    case Plus(k) => if i < |s| && In(k, s[i]) then Ends(r, s, i + 1) + [i + 1] else []
    case Cat(a, b) => Then(b, s, Ends(a, s, i), i)
    case Alt(a, b) => Ends(a, s, i) + Ends(b, s, i)
    case Opt(a) => Ends(a, s, i) + [i]
    case WordBoundary => if Boundary(s, i) then [i] else []
  }

  /** Continues with `r` from each position of `es` in turn; `lo` bounds the positions from below. */
  function Then(r: Re, s: string, es: seq<nat>, lo: nat): (fs: seq<nat>)
    requires forall e | e in es :: lo <= e <= |s|
    ensures forall f | f in fs :: lo <= f <= |s|
    decreases r, 1, |es|
  {
    if es == [] then []
    else
      assert es[0] in es && forall e | e in es[1..] :: e in es;
      Ends(r, s, es[0]) + Then(r, s, es[1..], lo)
  }

  /** Whether `r` matches exactly `s[i..j]`, in the context of `s`. */
  predicate Matches(r: Re, s: string, i: nat, j: nat)
    requires i <= |s|
  {
    j in Ends(r, s, i)
  }

  ghost predicate NoMatch(r: Re, s: string) {
    forall i: nat, j: nat | i <= |s| :: !Matches(r, s, i, j)
  }

  lemma {:induction false} ThenMember(r: Re, s: string, es: seq<nat>, lo: nat, j: nat)
    requires forall e | e in es :: lo <= e <= |s|
    ensures j in Then(r, s, es, lo) <==> exists e :: e in es && j in Ends(r, s, e)
    decreases |es|
  {
    if es != [] {
      assert es[0] in es && forall e | e in es[1..] :: e in es;
      ThenMember(r, s, es[1..], lo, j);
      assert forall e :: e in es <==> e == es[0] || e in es[1..];
    }
  }

  /** The point where the first half of a concatenation ended. */
  lemma CatSplit(r: Re, s: string, i: nat, j: nat) returns (e: nat)
    requires r.Cat? && i <= |s| && Matches(r, s, i, j)
    ensures i <= e <= j <= |s| && Matches(r.a, s, i, e) && Matches(r.b, s, e, j)
  {
    ThenMember(r.b, s, Ends(r.a, s, i), i, j);
    e :| e in Ends(r.a, s, i) && j in Ends(r.b, s, e);
  }

  lemma CatJoin(r: Re, s: string, i: nat, e: nat, j: nat)
    requires r.Cat? && i <= |s| && Matches(r.a, s, i, e) && Matches(r.b, s, e, j)
    ensures Matches(r, s, i, j)
  {
    ThenMember(r.b, s, Ends(r.a, s, i), i, j);
  }

  // ---------- What every match of an expression looks like ----------

  /** No match of `r` can contain `c`. */
  predicate Avoids(r: Re, c: char) {
    match r
    case Chr(k) => !In(k, c)
    case Str(w) => c !in w
    case Rep(k, _) => !In(k, c)
    case Plus(k) => !In(k, c)
    case Cat(a, b) => Avoids(a, c) && Avoids(b, c)
    case Alt(a, b) => Avoids(a, c) && Avoids(b, c)
    case Opt(a) => Avoids(a, c)
    case WordBoundary => true
  }

  lemma {:induction false} AvoidsHolds(r: Re, c: char, s: string, i: nat, j: nat)
    requires Avoids(r, c) && i <= |s| && Matches(r, s, i, j)
    ensures c !in s[i..j]
    decreases r, |s| - i
  {
    match r
    case Chr(k) =>
    case Str(w) => assert s[i..j] == w;
    case Rep(_, _) =>
    case Plus(k) =>
      if j > i + 1 {
        AvoidsHolds(r, c, s, i + 1, j);
        assert s[i..j] == [s[i]] + s[i + 1..j];
      }
    case Cat(a, b) =>
      var e := CatSplit(r, s, i, j);
      AvoidsHolds(a, c, s, i, e);
      AvoidsHolds(b, c, s, e, j);
      assert s[i..j] == s[i..e] + s[e..j];
    case Alt(a, b) => if Matches(a, s, i, j) { AvoidsHolds(a, c, s, i, j); } else { AvoidsHolds(b, c, s, i, j); }
    case Opt(a) => if Matches(a, s, i, j) { AvoidsHolds(a, c, s, i, j); }
    case WordBoundary =>
  }

  function MinLen(r: Re): nat {
    match r
    case Chr(_) => 1
    case Str(w) => |w|
    case Rep(_, n) => n
    case Plus(_) => 1
    case Cat(a, b) => MinLen(a) + MinLen(b)
    case Alt(a, b) => if MinLen(a) < MinLen(b) then MinLen(a) else MinLen(b)
    case Opt(_) => 0
    case WordBoundary => 0
  }

  lemma {:induction false} MinLenHolds(r: Re, s: string, i: nat, j: nat)
    requires i <= |s| && Matches(r, s, i, j)
    ensures j - i >= MinLen(r)
    decreases r
  {
    match r
    case Chr(k) =>
    case Str(_) =>
    case Rep(_, _) =>
    case Plus(k) =>
    case Cat(a, b) =>
      var e := CatSplit(r, s, i, j);
      MinLenHolds(a, s, i, e);
      MinLenHolds(b, s, e, j);
    case Alt(a, b) => if Matches(a, s, i, j) { MinLenHolds(a, s, i, j); } else { MinLenHolds(b, s, i, j); }
    case Opt(a) =>
    case WordBoundary =>
  }

  /** Every match is non-empty and starts with a word character. */
  predicate StartsWord(r: Re) {
    match r
    case Chr(k) => k == Digit
    case Rep(k, n) => k == Digit && n > 0
    case Plus(k) => k == Digit
    case Cat(a, b) => StartsWord(a)
    case Alt(a, b) => StartsWord(a) && StartsWord(b)
    case _ => false
  }

  lemma {:induction false} StartsWordHolds(r: Re, s: string, i: nat, j: nat)
    requires StartsWord(r) && i <= |s| && Matches(r, s, i, j)
    ensures i < j && WordAt(s, i)
    decreases r
  {
    match r
    case Chr(k) =>
    case Rep(_, _) =>
    case Plus(k) =>
    case Cat(a, b) => var e := CatSplit(r, s, i, j); StartsWordHolds(a, s, i, e);
    case Alt(a, b) => if Matches(a, s, i, j) { StartsWordHolds(a, s, i, j); } else { StartsWordHolds(b, s, i, j); }
  }

  /** Every match is non-empty and ends with a word character. */
  predicate EndsWord(r: Re) {
    match r
    case Chr(k) => k == Digit
    case Rep(k, n) => k == Digit && n > 0
    case Plus(k) => k == Digit
    case Cat(a, b) => EndsWord(b)
    case Alt(a, b) => EndsWord(a) && EndsWord(b)
    case _ => false
  }

  lemma {:induction false} EndsWordHolds(r: Re, s: string, i: nat, j: nat)
    requires EndsWord(r) && i <= |s| && Matches(r, s, i, j)
    ensures i < j && WordAt(s, j - 1)
    decreases r, |s| - i
  {
    match r
    case Chr(k) =>
    case Rep(_, _) =>
    case Plus(k) => if j > i + 1 { EndsWordHolds(r, s, i + 1, j); }
    case Cat(a, b) => var e := CatSplit(r, s, i, j); EndsWordHolds(b, s, e, j);
    case Alt(a, b) => if Matches(a, s, i, j) { EndsWordHolds(a, s, i, j); } else { EndsWordHolds(b, s, i, j); }
  }

  /** \b body \b, the body beginning and ending with a digit. */
  predicate Delimited(r: Re) {
    r.Cat? && r.a.WordBoundary? && r.b.Cat? && r.b.b.WordBoundary? && StartsWord(r.b.a) && EndsWord(r.b.a)
  }

  /** A delimited match has a word character at each end, inside, and none just outside. */
  lemma DelimitedHolds(r: Re, s: string, i: nat, j: nat)
    requires Delimited(r) && i <= |s| && Matches(r, s, i, j)
    ensures i < j <= |s|
    ensures WordAt(s, i) && !WordAt(s, i - 1) && WordAt(s, j - 1) && !WordAt(s, j)
  {
    var e := CatSplit(r, s, i, j);
    var f := CatSplit(r.b, s, e, j);
    StartsWordHolds(r.b.a, s, e, f);
    EndsWordHolds(r.b.a, s, e, f);
  }

  /** `r` has no \b, so whether it matches depends on the matched text only. */
  predicate ContextFree(r: Re) {
    match r
    case Cat(a, b) => ContextFree(a) && ContextFree(b)
    case Alt(a, b) => ContextFree(a) && ContextFree(b)
    case Opt(a) => ContextFree(a)
    case WordBoundary => false
    case _ => true
  }

  /** Texts s[i..j] and t[p..q] are equal and, if `context` is set, their neighbours agree on being word
      characters. */
  ghost predicate SameText(context: bool, s: string, i: nat, j: nat, t: string, p: nat, q: nat) {
    && i <= j <= |s| && p <= q <= |t| && j - i == q - p
    && (forall k | i <= k < j :: s[k] == t[k - i + p])
    && (context ==> WordAt(s, i - 1) == WordAt(t, p - 1) && WordAt(s, j) == WordAt(t, q))
  }

  lemma SamePart(context: bool, s: string, i: nat, j: nat, t: string, p: nat, q: nat, e: nat, f: nat)
    requires SameText(context, s, i, j, t, p, q) && i <= e <= f <= j
    ensures SameText(context, s, e, f, t, p + (e - i), p + (f - i))
  {
    if context {
      if e > i { assert s[e - 1] == t[p + (e - i) - 1]; }
      if f < j { assert s[f] == t[p + (f - i)]; }
    }
  }

  lemma SamePrefix(w: string, s: string, i: nat, t: string, p: nat)
    requires i <= |s| && w <= s[i..] && SameText(false, s, i, i + |w|, t, p, p + |w|)
    ensures w <= t[p..]
  {
    forall k | 0 <= k < |w| ensures t[p..][k] == w[k] {
      assert s[i..][k] == w[k] && s[i + k] == t[p + k];
    }
  }

  /** Equal texts match alike; their neighbours matter only if the pattern looks at them. */
  lemma {:induction false} MatchesSameText(r: Re, s: string, i: nat, j: nat, t: string, p: nat, q: nat)
    requires SameText(!ContextFree(r), s, i, j, t, p, q) && Matches(r, s, i, j)
    ensures Matches(r, t, p, q)
    decreases r, 1, j - i
  {
    match r
    case Chr(k) => assert s[i] == t[p];
    case Str(w) => SamePrefix(w, s, i, t, p);
    case Rep(k, n) =>
      forall m | p <= m < q ensures In(k, t[m]) { assert s[i + (m - p)] == t[m]; }
    case Plus(k) =>
      assert s[i] == t[p];
      if j > i + 1 {
        SamePart(false, s, i, j, t, p, q, i + 1, j);
        MatchesSameText(r, s, i + 1, j, t, p + 1, q);
      }
    case Cat(a, b) => MatchesSameCat(r, s, i, j, t, p, q);
    case Alt(a, b) =>
      if Matches(a, s, i, j) { MatchesSameText(a, s, i, j, t, p, q); } else { MatchesSameText(b, s, i, j, t, p, q); }
    case Opt(a) => if Matches(a, s, i, j) { MatchesSameText(a, s, i, j, t, p, q); }
    case WordBoundary =>
  }

  lemma {:induction false} MatchesSameCat(r: Re, s: string, i: nat, j: nat, t: string, p: nat, q: nat)
    requires r.Cat? && SameText(!ContextFree(r), s, i, j, t, p, q) && Matches(r, s, i, j)
    ensures Matches(r, t, p, q)
    decreases r, 0, 0
  {
    var e := CatSplit(r, s, i, j);
    var f := p + (e - i);
    var context := !ContextFree(r);
    SamePart(context, s, i, j, t, p, q, i, e);
    SamePart(context, s, i, j, t, p, q, e, j);
    MatchesSameText(r.a, s, i, e, t, p, f);
    MatchesSameText(r.b, s, e, j, t, f, q);
    CatJoin(r, t, p, f, q);
  }

  // ---------- Replacement ----------

  /** The preferred match at each position. */
  function Preferred(r: Re, s: string): Finder {
    (i: nat) => if i <= |s| && Ends(r, s, i) != [] then Some(Ends(r, s, i)[0]) else None
  }

  lemma PreferredProgress(r: Re, s: string)
    requires MinLen(r) > 0
    ensures Progress(Preferred(r, s), |s|)
  {
    forall i: nat | i <= |s| && Ends(r, s, i) != [] ensures i < Ends(r, s, i)[0] <= |s| {
      assert Ends(r, s, i)[0] in Ends(r, s, i);
      MinLenHolds(r, s, i, Ends(r, s, i)[0]);
    }
  }

  function ReplaceAll(r: Re, s: string): string
    requires MinLen(r) > 0
  {
    PreferredProgress(r, s);
    Scan(Preferred(r, s), TIME_TOKEN, s, 0)
  }

  /** With nothing to replace, the text is unchanged. */
  lemma ReplaceNothing(r: Re, s: string)
    requires MinLen(r) > 0 && NoMatch(r, s)
    ensures ReplaceAll(r, s) == s
  {
    forall k: nat | k <= |s| ensures Preferred(r, s)(k).None? {
      if Ends(r, s, k) != [] { assert Matches(r, s, k, Ends(r, s, k)[0]); }
    }
    PreferredProgress(r, s);
    ScanNothing(Preferred(r, s), TIME_TOKEN, s, 0);
  }
}
