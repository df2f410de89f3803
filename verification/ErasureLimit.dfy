/** When date-times are erased: always, unless the text before them ends in a date-time that lacks the last digits of
    its offset, which takes them from the year that follows. */
module ErasureLimit {
  import opened Options
  import opened Replace
  import opened Regex
  import opened Normalize
  import opened Formats
  import opened WholeLines
  import Erasure

  // ---------- Matches of the first pattern, by position ----------

  const HEAD := DATE + [Lit('T')] + CLOCK

  predicate HeadAt(s: string, i: nat) { i + 19 <= |s| && forall m | 0 <= m < 19 :: In(HEAD[m], s[i + m]) }

  predicate FractionAt(s: string, i: nat, e: nat) {
    i <= e <= |s| && (i < e ==> s[i] == '.' && i + 1 < e && forall m | i < m < e :: IsDigit(s[m]))
  }

  /** A sign, an hour and a colon. */
  predicate HourAt(s: string, z: nat) {
    z + 4 <= |s| && s[z] in "+-" && IsDigit(s[z + 1]) && IsDigit(s[z + 2]) && s[z + 3] == ':'
  }

  predicate OffsetAt(s: string, z: nat) {
    z + 6 <= |s| && HourAt(s, z) && IsDigit(s[z + 4]) && IsDigit(s[z + 5])
  }

  /** Date, T, clock and fraction, up to the zone at `z`. */
  predicate UpToZone(s: string, i: nat, z: nat) { HeadAt(s, i) && i + 19 <= z && FractionAt(s, i + 19, z) }

  predicate IsoAt(s: string, i: nat, z: nat, j: nat) {
    UpToZone(s, i, z) && z < j <= |s| && (if s[z] == 'Z' then j == z + 1 else j == z + 6 && OffsetAt(s, z))
  }

  lemma HeadParts()
    ensures |HEAD| == 19 && HEAD[4] == Lit('-') && HEAD[7] == Lit('-') && HEAD[10] == Lit('T')
    ensures HEAD[13] == Lit(':') && HEAD[16] == Lit(':')
    ensures forall m | 0 <= m < 19 && m !in {4, 7, 10, 13, 16} :: HEAD[m] == Digit
  {
  }

  lemma HeadMeans(s: string, i: nat, j: nat)
    requires i + 19 <= j <= |s|
    ensures Fits(HEAD, s[i..j][..19]) <==> HeadAt(s, i)
  {
    HeadParts();
    var t := s[i..j][..19];
    forall m | 0 <= m < 19 ensures t[m] == s[i + m] {}
    if Fits(HEAD, t) { forall m | 0 <= m < 19 ensures In(HEAD[m], s[i + m]) { assert In(HEAD[m], t[m]); } }
  }

  lemma FractionTextAt(s: string, i: nat, e: nat)
    requires i <= e <= |s|
    ensures FractionText(s[i..e]) <==> FractionAt(s, i, e)
  {
    if i < e {
      var t := s[i..e];
      assert t[0] == s[i] && t[..1] == [s[i]] && t[1..] == s[i + 1..e];
      forall m | i < m < e ensures t[1..][m - i - 1] == s[m] {}
      if FractionText(t) {
        assert In(Lit('.'), t[..1][0]);
        forall m | i < m < e ensures IsDigit(s[m]) { assert In(Digit, t[1..][m - i - 1]); }
      }
    }
  }

  const OFFSET := [AnyOf("+-")] + TWO + [Lit(':')] + TWO

  lemma OffsetTextAt(s: string, z: nat)
    requires z + 6 <= |s|
    ensures OffsetText(s[z..z + 6]) <==> OffsetAt(s, z)
  {
    var t := s[z..z + 6];
    assert |OFFSET| == 6 && OFFSET[0] == AnyOf("+-") && OFFSET[1] == Digit && OFFSET[2] == Digit;
    assert OFFSET[3] == Lit(':') && OFFSET[4] == Digit && OFFSET[5] == Digit;
    forall m | 0 <= m < 6 ensures t[m] == s[z + m] {}
    if OffsetText(t) {
      assert In(OFFSET[0], t[0]) && In(OFFSET[1], t[1]) && In(OFFSET[2], t[2]);
      assert In(OFFSET[3], t[3]) && In(OFFSET[4], t[4]) && In(OFFSET[5], t[5]);
    }
    if OffsetAt(s, z) {
      forall m | 0 <= m < 6 ensures In(OFFSET[m], t[m]) {
        assert t[m] == s[z + m];
      }
    }
  }

  lemma ZoneTextAt(s: string, z: nat, j: nat)
    requires z <= j <= |s|
    ensures ZoneText(s[z..j]) <==> z < j && if s[z] == 'Z' then j == z + 1 else j == z + 6 && OffsetAt(s, z)
  {
    var t := s[z..j];
    if |t| > 0 { assert t[0] == s[z]; }
    if |t| == 1 { assert t == [s[z]]; }
    if |t| == 6 { OffsetTextAt(s, z); }
    assert |OFFSET| == 6;
  }

  /** The first pattern matches exactly there. */
  lemma IsoMatches(s: string, i: nat, j: nat)
    requires i <= |s|
    ensures Matches(IsoDateTime(), s, i, j) <==> exists z: nat :: IsoAt(s, i, z, j)
  {
    IsoMeans();
    if Matches(IsoDateTime(), s, i, j) { var z := IsoZone(s, i, j); }
    if z: nat :| IsoAt(s, i, z, j) { IsoAtIsText(s, i, z, j); }
  }

  lemma IsoAtIsText(s: string, i: nat, z: nat, j: nat)
    requires IsoAt(s, i, z, j)
    ensures i <= j <= |s| && IsoText(s[i..j])
  {
    HeadParts();
    HeadMeans(s, i, j);
    var u := s[i..j][19..];
    assert u == s[i + 19..j];
    SliceSplit(s, i + 19, z, j);
    FractionTextAt(s, i + 19, z);
    ZoneTextAt(s, z, j);
    assert FractionText(u[..z - i - 19]) && ZoneText(u[z - i - 19..]);
  }

  lemma IsoZone(s: string, i: nat, j: nat) returns (z: nat)
    requires i <= j <= |s| && IsoText(s[i..j])
    ensures IsoAt(s, i, z, j)
  {
    HeadParts();
    HeadMeans(s, i, j);
    var u := s[i..j][19..];
    assert u == s[i + 19..j];
    var k :| 0 <= k <= |u| && FractionText(u[..k]) && ZoneText(u[k..]);
    z := i + 19 + k;
    SliceSplit(s, i + 19, z, j);
    FractionTextAt(s, i + 19, z);
    ZoneTextAt(s, z, j);
  }

  /** Matches that start at the same place end at the same place. */
  lemma OneEnd(s: string, i: nat, z: nat, j: nat, z': nat, j': nat)
    requires IsoAt(s, i, z, j) && IsoAt(s, i, z', j')
    ensures z == z' && j == j'
  {
  }

  lemma FirstEnd(s: string, i: nat, z: nat, j: nat)
    requires IsoAt(s, i, z, j)
    ensures Preferred(IsoDateTime(), s)(i) == Some(j)
  {
    IsoMatches(s, i, j);
    var e := Ends(IsoDateTime(), s, i)[0];
    assert Matches(IsoDateTime(), s, i, e);
    IsoMatches(s, i, e);
    var z' :| IsoAt(s, i, z', e);
    OneEnd(s, i, z, j, z', e);
  }

  lemma NoEnd(s: string, i: nat)
    requires forall z: nat, j: nat :: !IsoAt(s, i, z, j)
    ensures Preferred(IsoDateTime(), s)(i).None?
  {
    if i <= |s| && Ends(IsoDateTime(), s, i) != [] {
      var e := Ends(IsoDateTime(), s, i)[0];
      assert Matches(IsoDateTime(), s, i, e);
      IsoMatches(s, i, e);
    }
  }

  lemma IsoLength()
    ensures MinLen(IsoDateTime()) == 20
  {
    DateShape(); ClockShape();
  }

  // ---------- Date-times that lack digits ----------

  /** From `i` to its end, the text is a date-time that lacks the minutes of its offset, or their last digit. */
  predicate UnfinishedFrom(s: string, i: nat, z: nat) {
    UpToZone(s, i, z) && HourAt(s, z) && (|s| == z + 4 || (|s| == z + 5 && IsDigit(s[z + 4])))
  }

  ghost predicate Unfinished(s: string, i: nat) { exists z: nat :: UnfinishedFrom(s, i, z) }

  function Missing(s: string): (m: nat)
    ensures 1 <= m <= 2
  {
    if s != [] && s[|s| - 1] == ':' then 2 else 1
  }

  /** At `n` stands what may be a year and a month, as in the text of every date-time. */
  predicate YearAt(s: string, n: nat) {
    n + 8 <= |s| && (forall m | n <= m < n + 4 :: IsDigit(s[m])) && s[n + 4] == '-' && s[n + 7] == '-'
  }

  /** Only the offset of a date-time can go on into a year. */
  lemma OnlyOffsetCrosses(s: string, n: nat, i: nat, z: nat, j: nat)
    requires YearAt(s, n) && IsoAt(s, i, z, j) && i < n < j
    ensures s[z] != 'Z' && (n == z + 4 || n == z + 5)
  {
    HeadParts();
    assert In(HEAD[4], s[i + 4]) && In(HEAD[7], s[i + 7]) && In(HEAD[10], s[i + 10]);
    assert In(HEAD[13], s[i + 13]) && In(HEAD[16], s[i + 16]);
    assert !IsDigit(s[i + 19]);
    assert n > i + 19;
  }

  lemma SameUpToZone(a: string, b: string, i: nat, z: nat)
    requires z <= |a|
    ensures UpToZone(a + b, i, z) <==> UpToZone(a, i, z)
  {
    assert forall m | 0 <= m < |a| :: (a + b)[m] == a[m];
  }

  lemma CrossingIsUnfinished(a: string, b: string, i: nat, z: nat, j: nat)
    requires YearAt(a + b, |a|) && IsoAt(a + b, i, z, j) && i < |a| < j
    ensures UnfinishedFrom(a, i, z) && j == |a| + Missing(a)
  {
    OnlyOffsetCrosses(a + b, |a|, i, z, j);
    SameUpToZone(a, b, i, z);
    assert forall m | z <= m < |a| :: (a + b)[m] == a[m];
  }

  lemma UnfinishedCrosses(a: string, b: string, i: nat, z: nat)
    requires YearAt(a + b, |a|) && UnfinishedFrom(a, i, z)
    ensures IsoAt(a + b, i, z, |a| + Missing(a))
  {
    SameUpToZone(a, b, i, z);
    assert forall m | z <= m < |a| :: (a + b)[m] == a[m];
  }

  lemma InsideSame(a: string, b: string, i: nat, z: nat, j: nat)
    requires j <= |a|
    ensures IsoAt(a + b, i, z, j) <==> IsoAt(a, i, z, j)
  {
    if z <= |a| { SameUpToZone(a, b, i, z); }
    if z < j { assert forall m | z <= m < j :: (a + b)[m] == a[m]; }
  }

  /** No match starts in an unfinished date-time: there is no second T. */
  lemma NothingInside(s: string, i: nat, z: nat, k: nat, y: nat, j: nat)
    requires UnfinishedFrom(s, i, z) && i <= k
    ensures !IsoAt(s, k, y, j)
  {
    HeadParts();
    assert HeadAt(s, k) ==> In(HEAD[10], s[k + 10]);
  }

  /** The matches of a text that a year follows. */
  lemma MatchesBeforeYear(a: string, b: string, k: nat)
    requires YearAt(a + b, |a|) && k < |a|
    ensures var f, g := Preferred(IsoDateTime(), a + b)(k), Preferred(IsoDateTime(), a)(k);
            if Unfinished(a, k) then g.None? && f == Some(|a| + Missing(a))
            else f == g && (f.Some? ==> f.value <= |a|)
  {
    var s := a + b;
    if z: nat :| UnfinishedFrom(a, k, z) {
      UnfinishedCrosses(a, b, k, z);
      FirstEnd(s, k, z, |a| + Missing(a));
      forall y: nat, j: nat ensures !IsoAt(a, k, y, j) { NothingInside(a, k, z, k, y, j); }
      NoEnd(a, k);
    } else if z: nat, j: nat :| IsoAt(s, k, z, j) {
      if j > |a| {
        CrossingIsUnfinished(a, b, k, z, j);
        assert false;
      }
      InsideSame(a, b, k, z, j);
      FirstEnd(s, k, z, j);
      FirstEnd(a, k, z, j);
    } else {
      NoEnd(s, k);
      forall z: nat, j: nat ensures !IsoAt(a, k, z, j) {
        if IsoAt(a, k, z, j) { InsideSame(a, b, k, z, j); }
      }
      NoEnd(a, k);
    }
  }

  // ---------- The first pass over a text that a year follows ----------

  function FirstPass(s: string): string {
    IsoShape();
    ReplaceAll(IsoDateTime(), s)
  }

  lemma IsFirstPass(line: string)
    ensures AfterPasses(line, 1) == FirstPass(line)
  {
    IsoShape();
    assert AfterPasses(line, 0) == line;
    assert TimestampPatterns()[0] == IsoDateTime();
  }

  /** The first pass leaves the text with an unfinished date-time at its end. */
  ghost predicate Dangling(pre: string) { exists k: nat :: Unfinished(FirstPass(pre), k) }

  /** Where the first pass comes to a match that takes a part of the year. */
  function CrossingOf(pre: string, rest: string): (c: Option<nat>)
    ensures c.Some? ==> c.value < |pre|
  {
    IsoShape();
    PreferredProgress(IsoDateTime(), pre + rest);
    Crossing(Preferred(IsoDateTime(), pre + rest), |pre + rest|, |pre|, 0)
  }

  lemma CrossingAlike(pre: string, x: string, y: string)
    requires YearAt(pre + x, |pre|) && YearAt(pre + y, |pre|)
    ensures CrossingOf(pre, x) == CrossingOf(pre, y)
  {
    var f, g := Preferred(IsoDateTime(), pre + x), Preferred(IsoDateTime(), pre + y);
    IsoShape();
    PreferredProgress(IsoDateTime(), pre + x);
    PreferredProgress(IsoDateTime(), pre + y);
    forall k: nat | k < |pre| ensures f(k) == g(k) {
      MatchesBeforeYear(pre, x, k);
      MatchesBeforeYear(pre, y, k);
    }
    SameCrossing(f, g, |pre + x|, |pre + y|, |pre|, 0);
  }

  lemma AlikeBeforeYear(pre: string, rest: string)
    requires YearAt(pre + rest, |pre|)
    ensures AlikeBefore(Preferred(IsoDateTime(), pre + rest), Preferred(IsoDateTime(), pre), |pre|)
  {
    forall k: nat | k < |pre|
      ensures var f, g := Preferred(IsoDateTime(), pre + rest), Preferred(IsoDateTime(), pre);
              f(k) == g(k) || (g(k).None? && f(k).Some? && f(k).value > |pre|)
    {
      MatchesBeforeYear(pre, rest, k);
    }
  }

  lemma Uncrossed(pre: string, rest: string)
    requires YearAt(pre + rest, |pre|) && CrossingOf(pre, rest).None?
    ensures FirstPass(pre + rest) == FirstPass(pre) + FirstPass(rest)
  {
    var r := IsoDateTime();
    IsoShape();
    PreferredProgress(r, pre + rest);
    PreferredProgress(r, pre);
    PreferredProgress(r, rest);
    Erasure.PreferredShift(r, pre, rest);
    AlikeBeforeYear(pre, rest);
    ScanUncrossed(Preferred(r, pre + rest), Preferred(r, pre), Preferred(r, rest), TIME_TOKEN, pre, rest, 0);
  }

  /** The match that the crossing is about. */
  lemma CrossingEnd(pre: string, rest: string, c: nat)
    requires YearAt(pre + rest, |pre|) && CrossingOf(pre, rest) == Some(c)
    ensures Unfinished(pre, c) && Missing(pre) <= |rest|
    ensures Preferred(IsoDateTime(), pre + rest)(c) == Some(|pre| + Missing(pre))
  {
    IsoShape();
    PreferredProgress(IsoDateTime(), pre + rest);
    MatchesBeforeYear(pre, rest, c);
  }

  /** The unfinished date-time takes its missing digits from the year. */
  lemma Crossed(pre: string, rest: string, c: nat) returns (x: string)
    requires YearAt(pre + rest, |pre|) && CrossingOf(pre, rest) == Some(c)
    ensures Unfinished(pre, c) && FirstPass(pre) == x + pre[c..]
    ensures Missing(pre) <= |rest| && FirstPass(pre + rest) == x + (TIME_TOKEN + FirstPass(rest[Missing(pre)..]))
  {
    var r := IsoDateTime();
    IsoShape();
    PreferredProgress(r, pre + rest);
    PreferredProgress(r, pre);
    AlikeBeforeYear(pre, rest);
    CrossingEnd(pre, rest, c);
    x := ScanCrossed(Preferred(r, pre + rest), Preferred(r, pre), TIME_TOKEN, pre, rest, 0, c);
    UnfinishedStays(pre, c);
    FirstPassBehind(pre, rest, Missing(pre));
  }

  lemma UnfinishedStays(s: string, c: nat)
    requires Unfinished(s, c)
    ensures MinLen(IsoDateTime()) > 0 && Progress(Preferred(IsoDateTime(), s), |s|)
    ensures c <= |s| && Scan(Preferred(IsoDateTime(), s), TIME_TOKEN, s, c) == s[c..]
  {
    IsoShape();
    PreferredProgress(IsoDateTime(), s);
    NothingFrom(s, c);
    ScanNothing(Preferred(IsoDateTime(), s), TIME_TOKEN, s, c);
  }

  lemma FirstPassBehind(pre: string, rest: string, m: nat)
    requires m <= |rest|
    ensures MinLen(IsoDateTime()) > 0 && Progress(Preferred(IsoDateTime(), pre + rest), |pre + rest|)
    ensures Scan(Preferred(IsoDateTime(), pre + rest), TIME_TOKEN, pre + rest, |pre| + m) == FirstPass(rest[m..])
  {
    FirstPassFrom(pre + rest[..m], rest[m..]);
    assert (pre + rest[..m]) + rest[m..] == pre + rest;
  }

  lemma NothingFrom(s: string, c: nat)
    requires Unfinished(s, c)
    ensures forall k: nat | c <= k :: Preferred(IsoDateTime(), s)(k).None?
  {
    var z: nat :| UnfinishedFrom(s, c, z);
    forall k: nat | c <= k ensures Preferred(IsoDateTime(), s)(k).None? {
      forall y: nat, j: nat ensures !IsoAt(s, k, y, j) { NothingInside(s, c, z, k, y, j); }
      NoEnd(s, k);
    }
  }

  lemma FirstPassFrom(a: string, b: string)
    ensures MinLen(IsoDateTime()) > 0 && Progress(Preferred(IsoDateTime(), a + b), |a + b|)
    ensures Scan(Preferred(IsoDateTime(), a + b), TIME_TOKEN, a + b, |a|) == FirstPass(b)
  {
    var r := IsoDateTime();
    IsoShape();
    PreferredProgress(r, a + b);
    PreferredProgress(r, b);
    Erasure.PreferredShift(r, a, b);
    ScanShift(Preferred(r, a + b), Preferred(r, b), TIME_TOKEN, a, b, 0);
  }

  // ---------- Such a match exists exactly behind a dangling text ----------

  lemma UnfinishedSuffix(x: string, s: string, c: nat)
    requires Unfinished(s, c)
    ensures c <= |s| && Unfinished(x + s[c..], |x|)
  {
    var z: nat :| UnfinishedFrom(s, c, z);
    var t, d := x + s[c..], |x|;
    assert |t| == d + (|s| - c) && forall m | c <= m < |s| :: t[m - c + d] == s[m];
    forall m | 0 <= m < 19 ensures In(HEAD[m], t[d + m]) { assert In(HEAD[m], s[c + m]); }
    assert FractionAt(t, d + 19, z - c + d);
    assert UnfinishedFrom(t, d, z - c + d);
  }

  lemma CrossedDangles(pre: string, rest: string)
    requires YearAt(pre + rest, |pre|) && CrossingOf(pre, rest).Some?
    ensures Dangling(pre)
  {
    var c := CrossingOf(pre, rest).value;
    var x := Crossed(pre, rest, c);
    UnfinishedSuffix(x, pre, c);
    assert Unfinished(FirstPass(pre), |x|);
  }

  const ZEROS := "0000-00-"

  lemma ZerosStay(pre: string)
    requires CrossingOf(pre, ZEROS).None?
    ensures NoMatch(IsoDateTime(), FirstPass(pre) + ZEROS)
  {
    IsoShape();
    IsoLength();
    Uncrossed(pre, ZEROS);
    TooShort(IsoDateTime(), ZEROS);
    ReplaceNothing(IsoDateTime(), ZEROS);
    PassRemoves(IsoDateTime(), pre + ZEROS);
  }

  lemma UnfinishedMatches(s: string, k: nat)
    requires Unfinished(s, k)
    ensures !NoMatch(IsoDateTime(), s + ZEROS)
  {
    var z: nat :| UnfinishedFrom(s, k, z);
    UnfinishedCrosses(s, ZEROS, k, z);
    IsoMatches(s + ZEROS, k, |s| + Missing(s));
    assert Matches(IsoDateTime(), s + ZEROS, k, |s| + Missing(s));
  }

  /** Otherwise the first pass would leave a match behind. */
  lemma DanglingCrosses(pre: string)
    requires Dangling(pre)
    ensures CrossingOf(pre, ZEROS).Some?
  {
    var k: nat :| Unfinished(FirstPass(pre), k);
    UnfinishedMatches(FirstPass(pre), k);
    if CrossingOf(pre, ZEROS).None? { ZerosStay(pre); }
  }

  lemma YearOf(pre: string, t: Erasure.DateTime, post: string)
    requires t.Valid()
    ensures YearAt(pre + (Erasure.Print(t) + post), |pre|)
  {
    var u := Erasure.Print(t);
    Erasure.AtConcat(u, 0, Erasure.PrintDate(t), u[10..]);
    assert u[..10] == Erasure.PrintDate(t);
    assert forall m | 0 <= m < 10 :: (pre + (u + post))[|pre| + m] == u[m];
  }

  // ---------- What the later passes leave ----------

  /** Text that ends in a token and `y`. */
  ghost predicate EndsIn(s: string, y: string) { exists x :: s == x + (TIME_TOKEN + y) }

  lemma NoMatchFrom(r: Re, x: string, y: string, k: nat, j: nat)
    requires Safe(r) && NoMatch(r, TIME_TOKEN + y) && |x| <= k <= |x + (TIME_TOKEN + y)|
    ensures !Matches(r, x + (TIME_TOKEN + y), k, j)
  {
    var s, t := x + (TIME_TOKEN + y), TIME_TOKEN + y;
    if Matches(r, s, k, j) {
      AvoidsHolds(r, '<', s, k, j);
      MinLenHolds(r, s, k, j);
      if k == |x| {
        SliceHas(s, k, j, k);
      } else {
        MatchesSameText(r, s, k, j, t, k - |x|, j - |x|);
      }
    }
  }

  lemma EndsBefore(r: Re, x: string, y: string, k: nat, j: nat)
    requires Avoids(r, '<') && k < |x| && Matches(r, x + (TIME_TOKEN + y), k, j)
    ensures j <= |x|
  {
    var s := x + (TIME_TOKEN + y);
    AvoidsHolds(r, '<', s, k, j);
    if j > |x| { SliceHas(s, k, j, |x|); }
  }

  /** A pass that finds nothing in the token and `y` leaves them. */
  lemma PassKeepsEnd(r: Re, s: string, y: string)
    requires Safe(r) && NoMatch(r, TIME_TOKEN + y) && EndsIn(s, y)
    ensures EndsIn(ReplaceAll(r, s), y)
  {
    var x :| s == x + (TIME_TOKEN + y);
    var f := Preferred(r, s);
    PreferredProgress(r, s);
    forall k: nat | |x| <= k <= |s| ensures f(k).None? {
      if f(k).Some? {
        assert Matches(r, s, k, f(k).value);
        NoMatchFrom(r, x, y, k, f(k).value);
      }
    }
    forall k: nat | k < |x| && f(k).Some? ensures f(k).value <= |x| {
      assert Matches(r, s, k, f(k).value);
      EndsBefore(r, x, y, k, f(k).value);
    }
    var x' := ScanKeepsTail(f, TIME_TOKEN, s, 0, |x|);
    assert s[|x|..] == TIME_TOKEN + y;
  }

  const TAIL := "-07-07T13:59:39Z"

  /** What is left of a date-time whose year lacks digits. */
  function Left(d: string): string { TIME_TOKEN + (d + TAIL) }

  predicate SomeDigits(d: string) { 2 <= |d| <= 3 && AllIn(Digit, d) }

  lemma LeftChars(d: string)
    requires SomeDigits(d)
    ensures var y, n := Left(d), 6 + |d|;
            && |y| == n + 16 && y[n] == '-' && y[n + 3] == '-' && y[n + 6] == 'T'
            && y[n + 9] == ':' && y[n + 12] == ':' && y[n + 15] == 'Z'
            && (forall m | 0 <= m < 6 :: !IsDigit(y[m]))
            && (forall m | 0 <= m < |y| :: !In(Space, y[m]) && y[m] != '.' && y[m] != ',')
            && (forall m | 0 <= m < |y| :: y[m] == ':' ==> m == n + 9 || m == n + 12)
  {
    forall m | 6 <= m < 6 + |d| ensures IsDigit(Left(d)[m]) { assert In(Digit, d[m - 6]); }
  }

  lemma NoSecondsLeft(d: string)
    requires SomeDigits(d)
    ensures NoMatch(UnixSeconds(), Left(d))
  {
    var y, n := Left(d), 6 + |d|;
    LeftChars(d);
    forall i: nat, j: nat | i <= |y| ensures !Matches(UnixSeconds(), y, i, j) {
      UnixSecondsMatches(y, i, j);
      if i <= j <= |y| && UnixSecondsText(y[i..j]) {
        var m := if i < 6 then i else if i <= n then n else if i <= n + 3 then n + 3 else n + 6;
        TenDigits(y, i, m);
      }
    }
  }

  lemma TenDigits(y: string, i: nat, m: nat)
    requires i + 10 <= |y| && UnixSecondsText(y[i..i + 10]) && i <= m < i + 10
    ensures IsDigit(y[m])
  {
    assert In(TEN[m - i], y[i..i + 10][m - i]);
  }

  lemma NoTimeLeft(d: string)
    requires SomeDigits(d)
    ensures NoMatch(TimeOnly(), Left(d))
  {
    var y, n := Left(d), 6 + |d|;
    LeftChars(d);
    forall i: nat, j: nat | i <= |y| ensures !Matches(TimeOnly(), y, i, j) {
      TimeOnlyMatches(y, i, j);
      if i <= j <= |y| && PlainClockText(y[i..j]) {
        assert i + 8 == j && y[i..i + 8] == y[i..j];
        ClockChars(y, i);
        assert i == n + 7 && WordAt(y, n + 6);
      }
    }
  }

  lemma LeftUntouched(d: string)
    requires SomeDigits(d)
    ensures forall k | 1 <= k < 7 :: NoMatch(TimestampPatterns()[k], Left(d))
  {
    LeftChars(d);
    SyslogNeeds();
    UnixMillisNeeds();
    NeededMissing(CommonDateTime(), Space, Left(d));
    NeededMissing(Syslog(), Space, Left(d));
    NeededMissing(UnixMillis(), Lit('.'), Left(d));
    NeededMissing(TimeMillis(), AnyOf(".,"), Left(d));
    NoSecondsLeft(d);
    NoTimeLeft(d);
    PatternNames();
  }

  lemma {:induction false} LeftStays(d: string, line: string, n: nat)
    requires SomeDigits(d) && EndsIn(AfterPasses(line, 1), d + TAIL) && 1 <= n <= |TimestampPatterns()|
    ensures EndsIn(AfterPasses(line, n), d + TAIL)
    decreases n
  {
    if n > 1 {
      LeftStays(d, line, n - 1);
      LeftUntouched(d);
      PatternsWellOrdered();
      NextPass(line, n - 1);
      PassKeepsEnd(TimestampPatterns()[n - 1], AfterPasses(line, n - 1), d + TAIL);
    }
  }

  // ---------- The theorem ----------

  function InYear(year: nat): Erasure.DateTime { Erasure.DateTime(year, 7, 7, 13, 59, 39, "", Erasure.Zulu) }

  lemma YearText(year: nat)
    requires year <= 9999
    ensures InYear(year).Valid() && Erasure.Print(InYear(year)) == Erasure.Four(year) + TAIL
  {
    var t := InYear(year);
    DateText(year);
    assert Erasure.PrintClock(t) == "13:59:39";
    assert Erasure.PrintFraction(t.fraction) + Erasure.PrintOffset(t.offset) == "Z";
  }

  const EXAMPLE := Erasure.DateTime(2025, 7, 8, 13, 59, 39, "378", Erasure.Numeric('+', 2, 30))

  /** A date-time as section 5.6 of RFC 3339 writes it. */
  lemma PrintExample()
    ensures EXAMPLE.Valid() && Erasure.Print(EXAMPLE) == "2025-07-08T13:59:39.378+02:30"
  {
    DatePrinted();
    ClockPrinted();
    ZonePrinted();
    assert "T" + ("13:59:39" + ".378+02:30") == "T13:59:39.378+02:30";
  }

  lemma DatePrinted()
    ensures EXAMPLE.Valid() && Erasure.PrintDate(EXAMPLE) == "2025-07-08"
  {
  }

  lemma ClockPrinted()
    ensures EXAMPLE.Valid() && Erasure.PrintClock(EXAMPLE) == "13:59:39"
  {
  }

  lemma ZonePrinted()
    ensures Erasure.PrintFraction(EXAMPLE.fraction) + Erasure.PrintOffset(EXAMPLE.offset) == ".378+02:30"
  {
    assert Erasure.PrintFraction(EXAMPLE.fraction) == ".378" && Erasure.PrintOffset(EXAMPLE.offset) == "+02:30";
  }

  lemma DateText(year: nat)
    requires year <= 9999
    ensures Erasure.PrintDate(InYear(year)) == Erasure.Four(year) + "-07-07"
  {
  }

  /** Behind a dangling text, the last digits of the year are left. */
  lemma YearIsLeft(pre: string, year: nat)
    requires Dangling(pre) && year <= 9999
    ensures InYear(year).Valid()
    ensures EndsIn(Normalized(pre + Erasure.Print(InYear(year))), Erasure.Four(year)[Missing(pre)..] + TAIL)
  {
    var rest, d := Erasure.Print(InYear(year)), Erasure.Four(year)[Missing(pre)..];
    YearText(year);
    YearOf(pre, InYear(year), "");
    assert rest + "" == rest;
    YearIsCut(pre, rest);
    assert rest[Missing(pre)..] == d + TAIL;
    NothingInLeft(d);
    LeftStays(d, pre + rest, |TimestampPatterns()|);
  }

  lemma YearIsCut(pre: string, rest: string)
    requires Dangling(pre) && YearAt(pre + rest, |pre|)
    ensures Missing(pre) <= |rest| && EndsIn(AfterPasses(pre + rest, 1), FirstPass(rest[Missing(pre)..]))
  {
    DanglingCrosses(pre);
    CrossingAlike(pre, ZEROS, rest);
    var x := Crossed(pre, rest, CrossingOf(pre, rest).value);
    IsFirstPass(pre + rest);
  }

  lemma NothingInLeft(d: string)
    requires |d| <= 3
    ensures FirstPass(d + TAIL) == d + TAIL
  {
    IsoShape();
    IsoLength();
    TooShort(IsoDateTime(), d + TAIL);
    ReplaceNothing(IsoDateTime(), d + TAIL);
  }

  lemma EndsDiffer(s: string, y: string, z: string)
    requires EndsIn(s, y) && EndsIn(s, z) && |y| == |z|
    ensures y == z
  {
    assert y == s[|s| - |y|..] == z;
  }

  /** Whatever follows, date-times behind `pre` are erased. */
  ghost predicate Erased(pre: string) {
    forall t: Erasure.DateTime, u: Erasure.DateTime, post: string | t.Valid() && u.Valid() ::
      Normalized(pre + (Erasure.Print(t) + post)) == Normalized(pre + (Erasure.Print(u) + post))
  }

  lemma NotErased(pre: string)
    requires Dangling(pre)
    ensures !Erased(pre)
  {
    YearIsLeft(pre, 2025);
    YearIsLeft(pre, 2026);
    var x, y := Erasure.Print(InYear(2025)), Erasure.Print(InYear(2026));
    assert x + "" == x && y + "" == y;
    YearsDiffer(Missing(pre));
    if Erased(pre) {
      assert Normalized(pre + (x + "")) == Normalized(pre + (y + ""));
      EndsDiffer(Normalized(pre + x), Erasure.Four(2025)[Missing(pre)..] + TAIL,
                 Erasure.Four(2026)[Missing(pre)..] + TAIL);
    }
  }

  lemma YearsDiffer(m: nat)
    requires m <= 2
    ensures Erasure.Four(2025)[m..] + TAIL != Erasure.Four(2026)[m..] + TAIL
  {
    var x, y := Erasure.Four(2025)[m..] + TAIL, Erasure.Four(2026)[m..] + TAIL;
    assert x[3 - m] == '5' && y[3 - m] == '6';
  }

  lemma ErasedBehind(pre: string, t: Erasure.DateTime, post: string)
    requires t.Valid() && !Dangling(pre)
    ensures AfterPasses(pre + (Erasure.Print(t) + post), 1) == FirstPass(pre) + (TIME_TOKEN + FirstPass(post))
  {
    var rest := Erasure.Print(t) + post;
    YearOf(pre, t, post);
    if CrossingOf(pre, rest).Some? { CrossedDangles(pre, rest); }
    Uncrossed(pre, rest);
    IsoShape();
    Erasure.PrintedFirst(t, post);
    Erasure.ReplaceAllLeading(IsoDateTime(), Erasure.Print(t), post);
    IsFirstPass(pre + rest);
  }

  /** Lines that differ in one date-time only normalise alike, whatever the date-times and what follows them, exactly if
      the first pass over the text before them leaves no unfinished date-time at its end. */
  lemma DateTimesErasedExactly(pre: string)
    ensures Erased(pre) <==> !Dangling(pre)
  {
    if Dangling(pre) {
      NotErased(pre);
    } else {
      forall t: Erasure.DateTime, u: Erasure.DateTime, post: string | t.Valid() && u.Valid()
        ensures Normalized(pre + (Erasure.Print(t) + post)) == Normalized(pre + (Erasure.Print(u) + post))
      {
        ErasedBehind(pre, t, post);
        ErasedBehind(pre, u, post);
        var x, y := pre + (Erasure.Print(t) + post), pre + (Erasure.Print(u) + post);
        Erasure.SameAfterFirstPass(x, y, |TimestampPatterns()|);
      }
    }
  }

  /** A text that is empty or ends in a character that no date-time contains is never the beginning of one. */
  lemma CleanCutsDoNotDangle(pre: string)
    requires Erasure.CleanCut(IsoDateTime(), pre)
    ensures !Dangling(pre)
  {
    DateTimesErasedExactly(pre);
    forall t: Erasure.DateTime, u: Erasure.DateTime, post: string | t.Valid() && u.Valid()
      ensures Normalized(pre + (Erasure.Print(t) + post)) == Normalized(pre + (Erasure.Print(u) + post))
    {
      Assoc(pre, Erasure.Print(t), post);
      Assoc(pre, Erasure.Print(u), post);
      Erasure.DateTimesErased(pre, t, u, post);
    }
  }

  /** An unfinished date-time. */
  const BEFORE := "2025-07-07T13:59:39+20:"

  /** Behind it date-times are not erased. */
  lemma UnfinishedDangles()
    ensures Dangling(BEFORE) && !Erased(BEFORE)
  {
    HeadParts();
    assert UnfinishedFrom(BEFORE, 0, 19);
    MatchesBeforeYear(BEFORE, ZEROS, 0);
    CrossedDangles(BEFORE, ZEROS);
    NotErased(BEFORE);
  }
}
