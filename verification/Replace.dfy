/** Replacement of all matches by a token, for any way of finding matches: `f(i)` is the end of the match
    that starts at `i`, if there is one. The scan goes from left to right, replaces a match at the first
    position that has one, and goes on where the match ended. */
module Replace {
  import opened Options

  type Finder = nat -> Option<nat>

  /** Matches are non-empty and lie in a text of length `n`. */
  ghost predicate Progress(f: Finder, n: nat) {
    forall i: nat | i <= n && f(i).Some? :: i < f(i).value <= n
  }

  function Scan(f: Finder, token: string, s: string, i: nat): string
    requires Progress(f, |s|) && i <= |s|
    decreases |s| - i
  {
    if i == |s| then []
    else if f(i).None? then [s[i]] + Scan(f, token, s, i + 1)
    else token + Scan(f, token, s, f(i).value)
  }

  /** One step of the scan: what it writes for position `i`, and where it goes on. */
  lemma ScanStep(f: Finder, token: string, s: string, i: nat) returns (head: string, next: nat)
    requires Progress(f, |s|) && i < |s|
    ensures i < next <= |s|
    ensures head == if f(i).None? then [s[i]] else token
    ensures next == if f(i).None? then i + 1 else f(i).value
    ensures Scan(f, token, s, i) == head + Scan(f, token, s, next)
  {
    if f(i).None? { head, next := [s[i]], i + 1; } else { head, next := token, f(i).value; }
  }

  lemma Assoc(x: string, y: string, z: string)
    ensures (x + y) + z == x + (y + z)
  {
  }

  lemma {:induction false} ScanNothing(f: Finder, token: string, s: string, i: nat)
    requires Progress(f, |s|) && i <= |s| && forall k: nat | i <= k <= |s| :: f(k).None?
    ensures Scan(f, token, s, i) == s[i..]
    decreases |s| - i
  {
    if i < |s| { ScanNothing(f, token, s, i + 1); }
  }

  /** Matches found alike in a text and at the end of another are replaced alike. */
  lemma {:induction false} ScanTail(f: Finder, g: Finder, token: string, s: string, n: nat, b: string, i: nat)
    requires |s| == n + |b| && forall k | 0 <= k < |b| :: s[n + k] == b[k]
    requires Progress(f, |s|) && Progress(g, |b|) && i <= |b|
    requires forall k: nat {:trigger g(k)} | k <= |b| :: f(n + k) == if g(k).None? then None else Some(n + g(k).value)
    ensures Scan(f, token, s, n + i) == Scan(g, token, b, i)
    decreases |b| - i
  {
    if i < |b| {
      var head, next := ScanStep(g, token, b, i);
      var head', next' := ScanStep(f, token, s, n + i);
      ScanTail(f, g, token, s, n, b, next);
    }
  }

  lemma ScanShift(f: Finder, g: Finder, token: string, a: string, b: string, i: nat)
    requires Progress(f, |a + b|) && Progress(g, |b|) && i <= |b|
    requires forall k: nat {:trigger g(k)} | k <= |b| ::
               f(|a| + k) == if g(k).None? then None else Some(|a| + g(k).value)
    ensures Scan(f, token, a + b, |a| + i) == Scan(g, token, b, i)
  {
    ScanTail(f, g, token, a + b, |a|, b, i);
  }

  /** A match of the whole of `a` at the start becomes one token. */
  lemma ScanLeading(f: Finder, g: Finder, token: string, a: string, b: string)
    requires Progress(f, |a + b|) && Progress(g, |b|) && a != [] && f(0) == Some(|a|)
    requires forall k: nat {:trigger g(k)} | k <= |b| ::
               f(|a| + k) == if g(k).None? then None else Some(|a| + g(k).value)
    ensures Scan(f, token, a + b, 0) == token + Scan(g, token, b, 0)
  {
    var head, next := ScanStep(f, token, a + b, 0);
    ScanShift(f, g, token, a, b, 0);
  }

  /** If no match crosses the end of `a`, the two sides are replaced separately. */
  lemma {:induction false} ScanCut(f: Finder, g: Finder, h: Finder, token: string, a: string, b: string, i: nat)
    requires Progress(f, |a + b|) && Progress(g, |a|) && Progress(h, |b|) && i <= |a|
    requires forall k: nat {:trigger g(k)} | k < |a| :: f(k) == g(k)
    requires forall k: nat {:trigger h(k)} | k <= |b| ::
               f(|a| + k) == if h(k).None? then None else Some(|a| + h(k).value)
    ensures Scan(f, token, a + b, i) == Scan(g, token, a, i) + Scan(h, token, b, 0)
    decreases |a| - i
  {
    if i == |a| {
      ScanShift(f, h, token, a, b, 0);
    } else {
      var head, next := ScanStep(g, token, a, i);
      var head', next' := ScanStep(f, token, a + b, i);
      assert (a + b)[i] == a[i];
      ScanCut(f, g, h, token, a, b, next);
      Assoc(head, Scan(g, token, a, next), Scan(h, token, b, 0));
    }
  }

  // ---------- Matches that go on behind a part of the text ----------

  /** Where the scan, in the first `n` characters of a text, comes to a match that ends behind them. */
  function Crossing(f: Finder, length: nat, n: nat, i: nat): (c: Option<nat>)
    requires Progress(f, length) && i <= n <= length
    ensures c.Some? ==> i <= c.value < n && f(c.value).Some? && f(c.value).value > n
    decreases n - i
  {
    if i == n then None
    else if f(i).None? then Crossing(f, length, n, i + 1)
    else if f(i).value > n then Some(i)
    else Crossing(f, length, n, f(i).value)
  }

  lemma {:induction false} SameCrossing(f: Finder, g: Finder, fLength: nat, gLength: nat, n: nat, i: nat)
    requires Progress(f, fLength) && Progress(g, gLength) && i <= n <= fLength && n <= gLength
    requires forall k: nat {:trigger f(k)} | k < n :: f(k) == g(k)
    ensures Crossing(f, fLength, n, i) == Crossing(g, gLength, n, i)
    decreases n - i
  {
    if i < n && f(i).None? {
      SameCrossing(f, g, fLength, gLength, n, i + 1);
    } else if i < n && f(i).value <= n {
      SameCrossing(f, g, fLength, gLength, n, f(i).value);
    }
  }

  /** In a text, matches are found as in its first part alone, but for some that end behind that part. */
  ghost predicate AlikeBefore(f: Finder, g: Finder, n: nat) {
    forall k: nat {:trigger g(k)} | k < n :: f(k) == g(k) || (g(k).None? && f(k).Some? && f(k).value > n)
  }

  /** If the scan comes to no such match, the two parts are replaced separately. */
  lemma {:induction false} ScanUncrossed(f: Finder, g: Finder, h: Finder, token: string, a: string, b: string, i: nat)
    requires Progress(f, |a + b|) && Progress(g, |a|) && Progress(h, |b|) && i <= |a| && AlikeBefore(f, g, |a|)
    requires forall k: nat {:trigger h(k)} | k <= |b| ::
               f(|a| + k) == if h(k).None? then None else Some(|a| + h(k).value)
    requires Crossing(f, |a + b|, |a|, i).None?
    ensures Scan(f, token, a + b, i) == Scan(g, token, a, i) + Scan(h, token, b, 0)
    decreases |a| - i
  {
    if i == |a| {
      ScanShift(f, h, token, a, b, 0);
    } else {
      var head, next := ScanStep(g, token, a, i);
      var head', next' := ScanStep(f, token, a + b, i);
      assert (a + b)[i] == a[i];
      ScanUncrossed(f, g, h, token, a, b, next);
      Assoc(head, Scan(g, token, a, next), Scan(h, token, b, 0));
    }
  }

  /** Otherwise a token stands for that match, behind what both scans have written before. */
  lemma {:induction false} ScanCrossed(f: Finder, g: Finder, token: string, a: string, b: string, i: nat, c: nat)
    returns (x: string)
    requires Progress(f, |a + b|) && Progress(g, |a|) && i <= |a| && AlikeBefore(f, g, |a|)
    requires Crossing(f, |a + b|, |a|, i) == Some(c)
    ensures Scan(f, token, a + b, i) == x + (token + Scan(f, token, a + b, f(c).value))
    ensures Scan(g, token, a, i) == x + Scan(g, token, a, c)
    decreases |a| - i
  {
    if i == c {
      x := [];
    } else {
      var head, next := ScanStep(g, token, a, i);
      var head', next' := ScanStep(f, token, a + b, i);
      assert (a + b)[i] == a[i];
      var y := ScanCrossed(f, g, token, a, b, next, c);
      x := head + y;
      Assoc(head, y, token + Scan(f, token, a + b, f(c).value));
      Assoc(head, y, Scan(g, token, a, c));
    }
  }

  /** A tail without matches stays, if no match reaches into it. */
  lemma {:induction false} ScanKeepsTail(f: Finder, token: string, s: string, i: nat, n: nat) returns (x: string)
    requires Progress(f, |s|) && i <= n <= |s|
    requires forall k: nat | n <= k <= |s| :: f(k).None?
    requires forall k: nat | k < n && f(k).Some? :: f(k).value <= n
    ensures Scan(f, token, s, i) == x + s[n..]
    decreases n - i
  {
    if i == n {
      ScanNothing(f, token, s, i);
      x := [];
    } else {
      var head, next := ScanStep(f, token, s, i);
      var y := ScanKeepsTail(f, token, s, next, n);
      x := head + y;
    }
  }

  // ---------- Where text of the output comes from, for a token in angle brackets ----------

  const TIME_TOKEN := "<TIME>"

  predicate NoAngle(t: string) { '<' !in t && '>' !in t }

  lemma SliceHas(s: string, i: nat, j: nat, k: nat)
    requires i <= k < j <= |s|
    ensures s[k] in s[i..j]
  {
    assert s[k] == s[i..j][k - i];
  }

  lemma SliceTail(a: string, b: string, i: nat, j: nat)
    requires |a| <= i <= j <= |a + b|
    ensures (a + b)[i..j] == b[i - |a|..j - |a|]
  {
  }

  /** `t` stands in `s` at position `i`. */
  predicate At(s: string, i: nat, t: string) { i + |t| <= |s| && s[i..i + |t|] == t }

  lemma AtTail(head: string, rest: string, i: nat, t: string)
    requires |head| <= i && At(head + rest, i, t)
    ensures At(rest, i - |head|, t)
  {
    SliceTail(head, rest, i, i + |t|);
  }

  lemma AtSplit(s: string, i: nat, t: string)
    requires At(s, i, t) && t != []
    ensures t[0] == s[i] && t[0] in t && At(s, i + 1, t[1..])
    ensures NoAngle(t) ==> NoAngle(t[1..])
  {
    assert s[i..i + |t|][0] == s[i];
    assert s[i..i + |t|][1..] == s[i + 1..i + |t|];
  }

  lemma AtJoin(s: string, i: nat, t: string)
    requires t != [] && i < |s| && s[i] == t[0] && At(s, i + 1, t[1..])
    ensures At(s, i, t)
  {
    assert s[i..i + |t|] == [s[i]] + s[i + 1..i + |t|];
    assert t == [t[0]] + t[1..];
  }

  /** Text `t`, which stands at `i` in the output `out` of the scan from `pos`, was copied from position `p` of
      the input. Its neighbours were copied along with it, or belong to a token that stands where a match ended
      or started. */
  ghost predicate CopiedFrom(f: Finder, s: string, pos: nat, out: string, i: nat, t: string, p: nat)
    requires pos <= |s| && i + |t| <= |out|
  {
    var j, q := i + |t|, p + |t|;
    && pos <= p && At(s, p, t) && (t != [] ==> f(p).None?)
    && (if i == 0 then p == pos else p > pos && (out[i - 1] == s[p - 1] || EndsMatch(f, p)))
    && (if j == |out| then q == |s| else q < |s| && (out[j] == s[q] || f(q).Some?))
  }

  ghost predicate EndsMatch(f: Finder, p: nat) { exists m: nat :: m < p && f(m) == Some(p) }

  lemma CopiedBefore(f: Finder, s: string, pos: nat, rest: string, t: string)
    requires pos < |s| && f(pos).None? && t != [] && t[0] == s[pos] && |t| <= |rest| + 1
    requires CopiedFrom(f, s, pos + 1, rest, 0, t[1..], pos + 1)
    ensures CopiedFrom(f, s, pos, [s[pos]] + rest, 0, t, pos)
  {
    AtJoin(s, pos, t);
  }

  /** Output text before the first token was copied from the input, where no match started. */
  lemma {:induction false} CopiedPrefix(f: Finder, s: string, pos: nat, t: string)
    requires Progress(f, |s|) && pos <= |s| && NoAngle(t) && At(Scan(f, TIME_TOKEN, s, pos), 0, t)
    ensures CopiedFrom(f, s, pos, Scan(f, TIME_TOKEN, s, pos), 0, t, pos)
    decreases |s| - pos
  {
    if pos < |s| {
      var head, next := ScanStep(f, TIME_TOKEN, s, pos);
      var rest := Scan(f, TIME_TOKEN, s, next);
      if t != [] {
        AtSplit(head + rest, 0, t);
        assert f(pos).None?;
        AtTail(head, rest, 1, t[1..]);
        CopiedPrefix(f, s, next, t[1..]);
        CopiedBefore(f, s, pos, rest, t);
      }
    }
  }

  lemma CopiedAfter(f: Finder, s: string, pos: nat, head: string, next: nat, rest: string, i: nat, t: string, p: nat)
    requires pos < next <= |s| && 0 < |head| <= i && i + |t| <= |head + rest|
    requires head == if f(pos).None? then [s[pos]] else TIME_TOKEN
    requires next == if f(pos).None? then pos + 1 else f(pos).value
    requires CopiedFrom(f, s, next, rest, i - |head|, t, p)
    ensures CopiedFrom(f, s, pos, head + rest, i, t, p)
  {
    if i == |head| && f(pos).Some? { assert pos < p && f(pos) == Some(p); }
  }

  /** Any stretch of output that is too long to fit inside a token, and holds none of its brackets, was copied. */
  lemma {:induction false} Locate(f: Finder, s: string, pos: nat, i: nat, t: string) returns (p: nat)
    requires Progress(f, |s|) && pos <= |s| && At(Scan(f, TIME_TOKEN, s, pos), i, t)
    requires |t| >= 5 && NoAngle(t)
    ensures CopiedFrom(f, s, pos, Scan(f, TIME_TOKEN, s, pos), i, t, p)
    decreases |s| - pos
  {
    if i == 0 {
      CopiedPrefix(f, s, pos, t);
      return pos;
    }
    var head, next := ScanStep(f, TIME_TOKEN, s, pos);
    var rest := Scan(f, TIME_TOKEN, s, next);
    if i < |head| {
      SliceHas(head + rest, i, i + |t|, 5);
      assert false;
    }
    AtTail(head, rest, i, t);
    p := Locate(f, s, next, i - |head|, t);
    CopiedAfter(f, s, pos, head, next, rest, i, t, p);
  }
}
