/** A line that is one timestamp normalises to one token: the order of the patterns and their greed see to it that no
    earlier pattern takes a part of it. There is one exception. */
module WholeLines {
  import opened Options
  import opened Replace
  import opened Regex
  import opened Normalize
  import opened Formats

  // ---------- The first end that is tried ----------

  predicate EndsFirstAt(r: Re, s: string, i: nat, j: nat)
    requires i <= |s|
  {
    Ends(r, s, i) != [] && Ends(r, s, i)[0] == j
  }

  /** Cat goes on at the first end of its first half, if its second half matches there. */
  lemma CatFirst(a: Re, b: Re, s: string, i: nat, e: nat, j: nat)
    requires i <= |s| && e <= |s| && EndsFirstAt(a, s, i, e) && EndsFirstAt(b, s, e, j)
    ensures EndsFirstAt(Cat(a, b), s, i, j)
  {
  }

  /** k+ tries the whole run of k first. */
  lemma {:induction false} PlusFirst(k: Class, s: string, i: nat, n: nat)
    requires 0 < n && Run(k, s, i, n) && (i + n < |s| ==> !In(k, s[i + n]))
    ensures EndsFirstAt(Plus(k), s, i, i + n)
    decreases n
  {
    if n > 1 { PlusFirst(k, s, i + 1, n - 1); }
  }

  lemma {:induction false} FixedSingle(r: Re, s: string, i: nat)
    requires IsFixed(r) && i <= |s|
    ensures |Ends(r, s, i)| <= 1
    decreases r
  {
    if r.Cat? {
      FixedSingle(r.a, s, i);
      var es := Ends(r.a, s, i);
      if es != [] {
        assert es[0] in es && es[1..] == [];
        FixedSingle(r.b, s, es[0]);
        assert Then(r.b, s, es, i) == Ends(r.b, s, es[0]) + Then(r.b, s, es[1..], i);
      }
    }
  }

  lemma FixedFirst(r: Re, template: seq<Class>, s: string, i: nat, j: nat)
    requires IsFixed(r) && Template(r) == template && i <= j <= |s| && Fits(template, s[i..j])
    ensures EndsFirstAt(r, s, i, j)
  {
    FixedMatches(r, s, i, j);
    FixedSingle(r, s, i);
  }

  /** The characters of a part of a text. */
  lemma PartRuns(k: Class, s: string, i: nat, j: nat)
    requires i <= j <= |s| && AllIn(k, s[i..j])
    ensures Run(k, s, i, j - i)
  {
    forall m | i <= m < j ensures In(k, s[m]) { assert s[i..j][m - i] == s[m]; }
  }

  // ---------- Lines without a match ----------

  /** Every match of `r` contains a character of the class `k`. */
  predicate Needs(r: Re, k: Class) {
    match r
    case Chr(k') => k' == k
    case Rep(k', n) => k' == k && n > 0
    case Plus(k') => k' == k
    case Cat(a, b) => Needs(a, k) || Needs(b, k)
    case Alt(a, b) => Needs(a, k) && Needs(b, k)
    case _ => false
  }

  lemma {:induction false} NeedsHolds(r: Re, k: Class, s: string, i: nat, j: nat) returns (m: nat)
    requires Needs(r, k) && i <= |s| && Matches(r, s, i, j)
    ensures m < |s| && In(k, s[m])
    decreases r
  {
    match r
    case Chr(_) => m := i;
    case Rep(_, _) => m := i;
    case Plus(_) => m := i;
    case Cat(a, b) =>
      var e := CatSplit(r, s, i, j);
      if Needs(a, k) { m := NeedsHolds(a, k, s, i, e); } else { m := NeedsHolds(b, k, s, e, j); }
    case Alt(a, b) =>
      if Matches(a, s, i, j) { m := NeedsHolds(a, k, s, i, j); } else { m := NeedsHolds(b, k, s, i, j); }
  }

  lemma NeededMissing(r: Re, k: Class, s: string)
    requires Needs(r, k) && forall m | 0 <= m < |s| :: !In(k, s[m])
    ensures NoMatch(r, s)
  {
    forall i: nat, j: nat | i <= |s| ensures !Matches(r, s, i, j) {
      if Matches(r, s, i, j) { var m := NeedsHolds(r, k, s, i, j); }
    }
  }

  lemma IsoNeeds() ensures Needs(IsoDateTime(), Lit('T')) && Needs(IsoDateTime(), Lit('-')) {}

  lemma CommonNeeds() ensures Needs(CommonDateTime(), Lit('-')) {}

  lemma SyslogNeeds() ensures Needs(Syslog(), Lit(':')) && Needs(Syslog(), Space) {}

  lemma UnixMillisNeeds() ensures Needs(UnixMillis(), Lit('.')) {}

  // ---------- From the pass that erases to the result ----------

  lemma ErasesWhole(r: Re, t: string)
    requires MinLen(r) > 0 && t != [] && EndsFirstAt(r, t, 0, |t|)
    ensures ReplaceAll(r, t) == TIME_TOKEN
  {
    PreferredProgress(r, t);
    var head, next := ScanStep(Preferred(r, t), TIME_TOKEN, t, 0);
    assert Scan(Preferred(r, t), TIME_TOKEN, t, |t|) == [];
  }

  lemma TokenHasNoMatch(r: Re)
    requires Safe(r)
    ensures NoMatch(r, TIME_TOKEN)
  {
    forall i: nat, j: nat | i <= |TIME_TOKEN| ensures !Matches(r, TIME_TOKEN, i, j) {
      if Matches(r, TIME_TOKEN, i, j) {
        AvoidsHolds(r, '<', TIME_TOKEN, i, j);
        AvoidsHolds(r, '>', TIME_TOKEN, i, j);
        MinLenHolds(r, TIME_TOKEN, i, j);
        SliceHas(TIME_TOKEN, i, j, if i == 0 then 0 else 5);
      }
    }
  }

  lemma {:induction false} UntouchedBefore(t: string, k: nat)
    requires k <= |TimestampPatterns()| && forall m | 0 <= m < k :: NoMatch(TimestampPatterns()[m], t)
    ensures AfterPasses(t, k) == t
  {
    if k > 0 {
      UntouchedBefore(t, k - 1);
      PatternsWellOrdered();
      ReplaceNothing(TimestampPatterns()[k - 1], t);
    }
  }

  lemma {:induction false} TokenStays(t: string, k: nat, n: nat)
    requires k <= n <= |TimestampPatterns()| && AfterPasses(t, k) == TIME_TOKEN
    ensures AfterPasses(t, n) == TIME_TOKEN
    decreases n
  {
    if k < n {
      TokenStays(t, k, n - 1);
      PatternsWellOrdered();
      TokenHasNoMatch(TimestampPatterns()[n - 1]);
      ReplaceNothing(TimestampPatterns()[n - 1], TIME_TOKEN);
    }
  }

  /** The first pattern that matches takes the whole line. */
  lemma ErasedByPass(t: string, k: nat)
    requires k < |TimestampPatterns()| && t != [] && forall m | 0 <= m < k :: NoMatch(TimestampPatterns()[m], t)
    requires EndsFirstAt(TimestampPatterns()[k], t, 0, |t|)
    ensures Normalized(t) == TIME_TOKEN
  {
    PatternsWellOrdered();
    UntouchedBefore(t, k);
    ErasesWhole(TimestampPatterns()[k], t);
    assert AfterPasses(t, k + 1) == ReplaceAll(TimestampPatterns()[k], AfterPasses(t, k));
    TokenStays(t, k + 1, |TimestampPatterns()|);
  }

  lemma PatternNames()
    ensures var ps := TimestampPatterns();
            && |ps| == 7 && ps[0] == IsoDateTime() && ps[1] == CommonDateTime() && ps[2] == Syslog()
            && ps[3] == UnixMillis()
            && ps[4] == UnixSeconds() && ps[5] == TimeMillis() && ps[6] == TimeOnly()
  {
  }

  // ---------- Parts ----------

  lemma FractionFirst(s: string, i: nat, j: nat)
    requires i <= j <= |s| && FractionText(s[i..j]) && (j < |s| ==> !IsDigit(s[j]) && s[j] != '.')
    ensures EndsFirstAt(Fraction(), s, i, j)
  {
    if i < j {
      assert s[i..j][..1] == [s[i]] && s[i..j][1..] == s[i + 1..j];
      assert In(Lit('.'), s[i..j][..1][0]);
      PartRuns(Digit, s, i + 1, j);
      PlusFirst(Digit, s, i + 1, j - (i + 1));
      CatFirst(C('.'), Plus(Digit), s, i, i + 1, j);
    } else {
      assert Ends(C('.'), s, i) == [];
      assert Ends(Cat(C('.'), Plus(Digit)), s, i) == [];
    }
  }

  lemma OffsetFirst(s: string, i: nat, j: nat)
    requires i <= j <= |s| && OffsetText(s[i..j])
    ensures EndsFirstAt(NumericOffset(), s, i, j) && j == i + 6 && s[i] in "+-"
  {
    TwoDigits();
    var template := [AnyOf("+-")] + TWO + [Lit(':')] + TWO;
    assert Template(NumericOffset()) == template && |template| == 6 && template[0] == AnyOf("+-");
    assert Fits(template, s[i..j]) && s[i..j][0] == s[i] && In(template[0], s[i..j][0]);
    FixedFirst(NumericOffset(), template, s, i, j);
  }

  lemma IsoWhole(t: string)
    requires IsoText(t)
    ensures EndsFirstAt(IsoDateTime(), t, 0, |t|) && t != []
  {
    var rest := t[19..];
    var k :| 0 <= k <= |rest| && FractionText(rest[..k]) && ZoneText(rest[k..]);
    assert rest[..k] == t[19..19 + k] && rest[k..] == t[19 + k..] == t[19 + k..|t|];
    var zone := Alt(C('Z'), NumericOffset());
    ZoneFirst(t, 19 + k);
    FractionFirst(t, 19, 19 + k);
    CatFirst(Fraction(), zone, t, 19, 19 + k, |t|);
    IsoHead(t, Cat(Fraction(), zone));
  }

  lemma ZoneFirst(t: string, i: nat)
    requires i <= |t| && ZoneText(t[i..])
    ensures EndsFirstAt(Alt(C('Z'), NumericOffset()), t, i, |t|) && i < |t| && !IsDigit(t[i]) && t[i] != '.'
  {
    assert t[i..] == t[i..|t|];
    if t[i..] == ['Z'] {
      assert t[i] == t[i..][0] == 'Z';
    } else {
      OffsetFirst(t, i, |t|);
      assert Ends(C('Z'), t, i) == [];
    }
  }

  lemma IsoHead(t: string, rest: Re)
    requires |t| >= 19 && Fits(DATE + [Lit('T')] + CLOCK, t[..19]) && EndsFirstAt(rest, t, 19, |t|)
    ensures EndsFirstAt(Cat(Date(), Cat(C('T'), Cat(Clock(), rest))), t, 0, |t|)
  {
    DateFixed();
    ClockFixed();
    FitsConcat(DATE + [Lit('T')], CLOCK, t[..19]);
    FitsConcat(DATE, [Lit('T')], t[..19][..11]);
    assert t[..19][..11][..10] == t[0..10] && t[..19][..11][10..] == t[10..11] && t[..19][11..] == t[11..19];
    FixedFirst(Clock(), CLOCK, t, 11, 19);
    FixedFirst(C('T'), [Lit('T')], t, 10, 11);
    FixedFirst(Date(), DATE, t, 0, 10);
    CatFirst(Clock(), rest, t, 11, 19, |t|);
    CatFirst(C('T'), Cat(Clock(), rest), t, 10, 11, |t|);
    CatFirst(Date(), Cat(C('T'), Cat(Clock(), rest)), t, 0, 10, |t|);
  }

  lemma IsoErased(t: string)
    requires IsoText(t)
    ensures Normalized(t) == TIME_TOKEN
  {
    PatternNames();
    IsoWhole(t);
    ErasedByPass(t, 0);
  }

  // ---------- Missing characters ----------

  predicate Lacks(s: string, i: nat, j: nat, c: char)
    requires j <= |s|
  {
    forall m | i <= m < j :: s[m] != c
  }

  lemma FitsLacks(template: seq<Class>, s: string, i: nat, j: nat, c: char)
    requires i <= j <= |s| && Fits(template, s[i..j]) && forall m | 0 <= m < |template| :: !In(template[m], c)
    ensures Lacks(s, i, j, c)
  {
    forall m | i <= m < j ensures s[m] != c { assert In(template[m - i], s[i..j][m - i]); }
  }

  lemma RunLacks(k: Class, s: string, i: nat, j: nat, c: char)
    requires i <= j <= |s| && AllIn(k, s[i..j]) && !In(k, c)
    ensures Lacks(s, i, j, c)
  {
    PartRuns(k, s, i, j);
  }

  lemma FractionLacks(s: string, i: nat, j: nat, c: char)
    requires i <= j <= |s| && FractionText(s[i..j]) && c != '.' && !IsDigit(c)
    ensures Lacks(s, i, j, c)
  {
    if i < j {
      assert s[i..j][..1] == s[i..i + 1] && s[i..j][1..] == s[i + 1..j];
      FitsLacks([Lit('.')], s, i, i + 1, c);
      RunLacks(Digit, s, i + 1, j, c);
    }
  }

  lemma LacksNeeded(r: Re, c: char, t: string)
    requires Needs(r, Lit(c)) && Lacks(t, 0, |t|, c)
    ensures NoMatch(r, t)
  {
    NeededMissing(r, Lit(c), t);
  }

  lemma ClockChars(s: string, i: nat)
    requires i + 8 <= |s| && Fits(CLOCK, s[i..i + 8])
    ensures IsDigit(s[i]) && s[i + 2] == ':' && s[i + 5] == ':'
    ensures forall c: char | !IsDigit(c) && c != ':' :: Lacks(s, i, i + 8, c)
  {
    var t := s[i..i + 8];
    assert In(CLOCK[0], t[0]) && In(CLOCK[2], t[2]) && In(CLOCK[5], t[5]);
    forall c: char | !IsDigit(c) && c != ':' ensures Lacks(s, i, i + 8, c) { FitsLacks(CLOCK, s, i, i + 8, c); }
  }

  lemma SpacesThen(rest: Re, t: string, i: nat, e: nat)
    requires i <= e < |t| && Spaces(t[i..e]) && IsDigit(t[e]) && EndsFirstAt(rest, t, e, |t|)
    ensures EndsFirstAt(Cat(Plus(Space), rest), t, i, |t|) && i < |t| && !IsDigit(t[i])
    ensures Lacks(t, i, e, 'T') && Lacks(t, i, e, '-')
  {
    PartRuns(Space, t, i, e);
    PlusFirst(Space, t, i, e - i);
    CatFirst(Plus(Space), rest, t, i, e, |t|);
    RunLacks(Space, t, i, e, 'T');
    RunLacks(Space, t, i, e, '-');
  }

  // ---------- Date and time with a space ----------

  lemma ClockWhole(t: string, i: nat)
    requires i <= |t| && ClockText(t[i..])
    ensures EndsFirstAt(Cat(Clock(), Cat(Fraction(), Opt(NumericOffset()))), t, i, |t|)
    ensures i < |t| && IsDigit(t[i]) && Lacks(t, i, |t|, 'T')
  {
    assert t[i..][..8] == t[i..i + 8] && t[i..][8..] == t[i + 8..];
    var e := CutOf(FractionText, OptionalOffsetText, t, i + 8);
    ClockChars(t, i);
    FractionLacks(t, i + 8, e, 'T');
    OptionalOffsetFirst(t, e);
    FractionFirst(t, i + 8, e);
    CatFirst(Fraction(), Opt(NumericOffset()), t, i + 8, e, |t|);
    ClockFixed();
    FixedFirst(Clock(), CLOCK, t, i, i + 8);
    CatFirst(Clock(), Cat(Fraction(), Opt(NumericOffset())), t, i, i + 8, |t|);
  }

  lemma OptionalOffsetFirst(t: string, i: nat)
    requires i <= |t| && OptionalOffsetText(t[i..])
    ensures EndsFirstAt(Opt(NumericOffset()), t, i, |t|) && Lacks(t, i, |t|, 'T')
    ensures i < |t| ==> !IsDigit(t[i]) && t[i] != '.'
  {
    if t[i..] == [] {
      assert Ends(Chr(AnyOf("+-")), t, i) == [];
      assert Ends(NumericOffset(), t, i) == [];
    } else {
      assert t[i..] == t[i..|t|];
      OffsetFirst(t, i, |t|);
      FitsLacks([AnyOf("+-")] + TWO + [Lit(':')] + TWO, t, i, |t|, 'T');
    }
  }

  function ClockRest(): Re { Cat(Clock(), Cat(Fraction(), Opt(NumericOffset()))) }

  lemma SpacedClockWhole(t: string, i: nat)
    requires i <= |t| && SpacedClockText(t[i..])
    ensures EndsFirstAt(Cat(Plus(Space), ClockRest()), t, i, |t|) && Lacks(t, i, |t|, 'T')
  {
    var e := CutOf(Spaces, ClockText, t, i);
    ClockWhole(t, e);
    SpacesThen(ClockRest(), t, i, e);
  }

  lemma CommonWhole(t: string)
    requires CommonText(t)
    ensures EndsFirstAt(CommonDateTime(), t, 0, |t|) && Lacks(t, 0, |t|, 'T') && t != []
  {
    assert t[..10] == t[0..10];
    SpacedClockWhole(t, 10);
    DateFixed();
    FixedFirst(Date(), DATE, t, 0, 10);
    CatFirst(Date(), Cat(Plus(Space), ClockRest()), t, 0, 10, |t|);
    FitsLacks(DATE, t, 0, 10, 'T');
  }

  lemma CommonErased(t: string)
    requires CommonText(t)
    ensures Normalized(t) == TIME_TOKEN
  {
    CommonWhole(t);
    IsoNeeds();
    LacksNeeded(IsoDateTime(), 'T', t);
    PatternNames();
    ErasedByPass(t, 1);
  }

  // ---------- Syslog ----------

  lemma MonthFirst(t: string, k: nat)
    requires k <= |t| && MonthText(t[..k])
    ensures EndsFirstAt(Months(), t, 0, k) && Lacks(t, 0, k, '-')
  {
    MonthsMean();
    assert t[0..k] == t[..k];
    MeansAt(Months(), MonthText, t, 0, k);
    var e := Ends(Months(), t, 0)[0];
    FirstEndMeans(Months(), MonthText, t, 0);
    MonthWord(t[..k]);
    MonthWord(t[0..e]);
    forall m | 0 <= m < k ensures t[m] != '-' { assert t[m] == t[..k][m]; }
  }

  lemma FirstEndMeans(r: Re, text: string -> bool, s: string, i: nat)
    requires Means(r, text) && i <= |s| && Ends(r, s, i) != []
    ensures var e := Ends(r, s, i)[0]; i <= e <= |s| && text(s[i..e])
  {
    assert Matches(r, s, i, Ends(r, s, i)[0]);
  }

  lemma MonthWord(w: string)
    requires w in MONTHS
    ensures |w| == 3 && w[0] != '-' && w[1] != '-' && w[2] != '-'
  {
  }

  lemma DayFirst(t: string, i: nat, j: nat)
    requires i <= j < |t| && DayText(t[i..j]) && !IsDigit(t[j])
    ensures EndsFirstAt(Cat(Chr(Digit), Opt(Chr(Digit))), t, i, j)
  {
    PartRuns(Digit, t, i, j);
    if j == i + 1 { assert Ends(Chr(Digit), t, j) == []; }
    assert EndsFirstAt(Opt(Chr(Digit)), t, i + 1, j);
    CatFirst(Chr(Digit), Opt(Chr(Digit)), t, i, i + 1, j);
  }

  lemma ClockAtEnd(t: string, e: nat)
    requires e <= |t| && PlainClockText(t[e..])
    ensures EndsFirstAt(Clock(), t, e, |t|) && e < |t| && IsDigit(t[e]) && Lacks(t, e, |t|, '-')
  {
    assert t[e..] == t[e..|t|] && |t[e..]| == 8;
    assert t[e..e + 8] == t[e..];
    ClockChars(t, e);
    ClockFixed();
    FixedFirst(Clock(), CLOCK, t, e, |t|);
  }

  lemma SpacesClockWhole(t: string, i: nat)
    requires i <= |t| && SpacesClockText(t[i..])
    ensures EndsFirstAt(Cat(Plus(Space), Clock()), t, i, |t|) && i < |t| && !IsDigit(t[i]) && Lacks(t, i, |t|, '-')
  {
    var e := CutOf(Spaces, PlainClockText, t, i);
    ClockAtEnd(t, e);
    SpacesThen(Clock(), t, i, e);
  }

  lemma DayClockWhole(t: string, i: nat)
    requires i <= |t| && DayClockText(t[i..])
    ensures EndsFirstAt(Cat(Cat(Chr(Digit), Opt(Chr(Digit))), Cat(Plus(Space), Clock())), t, i, |t|)
    ensures i < |t| && IsDigit(t[i]) && Lacks(t, i, |t|, '-')
  {
    var e := CutOf(DayText, SpacesClockText, t, i);
    SpacesClockWhole(t, e);
    DayFirst(t, i, e);
    CatFirst(Cat(Chr(Digit), Opt(Chr(Digit))), Cat(Plus(Space), Clock()), t, i, e, |t|);
    PartRuns(Digit, t, i, e);
    RunLacks(Digit, t, i, e, '-');
  }

  function DayClock(): Re { Cat(Cat(Chr(Digit), Opt(Chr(Digit))), Cat(Plus(Space), Clock())) }

  lemma SpacesDayWhole(t: string, i: nat)
    requires i <= |t| && SpacesDayText(t[i..])
    ensures EndsFirstAt(Cat(Plus(Space), DayClock()), t, i, |t|) && Lacks(t, i, |t|, '-')
  {
    var e := CutOf(Spaces, DayClockText, t, i);
    DayClockWhole(t, e);
    SpacesThen(DayClock(), t, i, e);
  }

  lemma SyslogWhole(t: string)
    requires SyslogText(t)
    ensures EndsFirstAt(Syslog(), t, 0, |t|) && Lacks(t, 0, |t|, '-') && t != []
  {
    var k :| 0 <= k <= |t| && MonthText(t[..k]) && SpacesDayText(t[k..]);
    MonthWord(t[..k]);
    MonthFirst(t, k);
    SpacesDayWhole(t, k);
    CatFirst(Months(), Cat(Plus(Space), DayClock()), t, 0, k, |t|);
  }

  lemma SyslogErased(t: string)
    requires SyslogText(t)
    ensures Normalized(t) == TIME_TOKEN
  {
    SyslogWhole(t);
    NoDates(t);
    PatternNames();
    ErasedByPass(t, 2);
  }

  lemma NoDates(t: string)
    requires Lacks(t, 0, |t|, '-')
    ensures NoMatch(IsoDateTime(), t) && NoMatch(CommonDateTime(), t)
  {
    IsoNeeds();
    CommonNeeds();
    LacksNeeded(IsoDateTime(), '-', t);
    LacksNeeded(CommonDateTime(), '-', t);
  }

  // ---------- Numbers and times alone ----------

  lemma BoundedFirst(body: Re, t: string)
    requires EndsFirstAt(body, t, 0, |t|) && t != [] && IsDigit(t[0]) && IsDigit(t[|t| - 1])
    ensures EndsFirstAt(Bounded(body), t, 0, |t|)
  {
    assert Ends(WordBoundary, t, 0) == [0] && Ends(WordBoundary, t, |t|) == [|t|];
    CatFirst(body, WordBoundary, t, 0, |t|, |t|);
    CatFirst(WordBoundary, Cat(body, WordBoundary), t, 0, 0, |t|);
  }

  /** A separator and a fraction after a part of fixed length. */
  lemma SeparatedWhole(head: Re, template: seq<Class>, separator: Class, t: string)
    requires IsFixed(head) && Template(head) == template && Prefixed(template + [separator], t, Digits)
    ensures EndsFirstAt(Cat(head, Cat(Chr(separator), Plus(Digit))), t, 0, |t|)
    ensures var n := |template|;
            && n + 1 < |t| && Fits(template, t[0..n]) && In(separator, t[n]) && AllIn(Digit, t[n + 1..|t|])
  {
    var n := |template|;
    assert t[..n + 1][..n] == t[0..n] && t[..n + 1][n..] == [t[n]] && t[n + 1..] == t[n + 1..|t|];
    FitsConcat(template, [separator], t[..n + 1]);
    assert In([separator][0], t[..n + 1][n..][0]);
    PartRuns(Digit, t, n + 1, |t|);
    PlusFirst(Digit, t, n + 1, |t| - (n + 1));
    CatFirst(Chr(separator), Plus(Digit), t, n, n + 1, |t|);
    FixedFirst(head, template, t, 0, n);
    CatFirst(head, Cat(Chr(separator), Plus(Digit)), t, 0, n, |t|);
  }

  lemma NoSyslog(t: string)
    requires Lacks(t, 0, |t|, ':') || forall m | 0 <= m < |t| :: !In(Space, t[m])
    ensures NoMatch(Syslog(), t)
  {
    SyslogNeeds();
    if Lacks(t, 0, |t|, ':') { LacksNeeded(Syslog(), ':', t); } else { NeededMissing(Syslog(), Space, t); }
  }

  lemma TenChars(t: string)
    requires |t| >= 10 && Fits(TEN, t[0..10])
    ensures IsDigit(t[0]) && Lacks(t, 0, 10, '-') && Lacks(t, 0, 10, ':') && Lacks(t, 0, 10, '.')
  {
    assert In(TEN[0], t[0..10][0]);
    FitsLacks(TEN, t, 0, 10, '-');
    FitsLacks(TEN, t, 0, 10, ':');
    FitsLacks(TEN, t, 0, 10, '.');
  }

  lemma UnixMillisErased(t: string)
    requires UnixMillisText(t)
    ensures Normalized(t) == TIME_TOKEN
  {
    TwoDigits();
    SeparatedWhole(D(10), TEN, Lit('.'), t);
    TenChars(t);
    RunLacks(Digit, t, 11, |t|, '-');
    RunLacks(Digit, t, 11, |t|, ':');
    PartRuns(Digit, t, 11, |t|);
    BoundedFirst(Cat(D(10), Cat(C('.'), Plus(Digit))), t);
    NoDates(t);
    NoSyslog(t);
    PatternNames();
    ErasedByPass(t, 3);
  }

  lemma UnixSecondsErased(t: string)
    requires UnixSecondsText(t)
    ensures Normalized(t) == TIME_TOKEN
  {
    assert t[0..10] == t == t[0..|t|];
    TenChars(t);
    TwoDigits();
    FixedFirst(D(10), TEN, t, 0, 10);
    assert In(TEN[9], t[9]);
    BoundedFirst(D(10), t);
    NoDates(t);
    NoSyslog(t);
    UnixMillisNeeds();
    LacksNeeded(UnixMillis(), '.', t);
    PatternNames();
    ErasedByPass(t, 4);
  }

  lemma TooShort(r: Re, t: string)
    requires MinLen(r) > |t|
    ensures NoMatch(r, t)
  {
    forall i: nat, j: nat | i <= |t| ensures !Matches(r, t, i, j) {
      if Matches(r, t, i, j) { MinLenHolds(r, t, i, j); }
    }
  }

  lemma ClockOnlyChars(t: string, i: nat)
    requires i + 8 <= |t| && Fits(CLOCK, t[i..i + 8])
    ensures forall m | i <= m < i + 8 :: IsDigit(t[m]) || t[m] == ':'
    ensures IsDigit(t[i + 7])
  {
    assert In(CLOCK[7], t[i..i + 8][7]);
    forall m | i <= m < i + 8 ensures IsDigit(t[m]) || t[m] == ':' { assert In(CLOCK[m - i], t[i..i + 8][m - i]); }
  }

  lemma TimeOnlyErased(t: string)
    requires PlainClockText(t)
    ensures Normalized(t) == TIME_TOKEN
  {
    assert t[0..8] == t == t[0..|t|];
    ClockOnlyChars(t, 0);
    ClockChars(t, 0);
    ClockFixed();
    FixedFirst(Clock(), CLOCK, t, 0, 8);
    BoundedFirst(Clock(), t);
    NoDates(t);
    NoSyslog(t);
    TooShort(UnixMillis(), t);
    TooShort(UnixSeconds(), t);
    ClockShape();
    TooShort(TimeMillis(), t);
    PatternNames();
    ErasedByPass(t, 6);
  }

  // ---------- Times with a fraction ----------

  predicate TimeMillisShapeOf(t: string) {
    && |t| >= 10 && (t[8] == '.' || t[8] == ',') && !IsDigit(t[2]) && !IsDigit(t[5])
    && (forall m | 0 <= m < 8 :: IsDigit(t[m]) || t[m] == ':') && (forall m | 9 <= m < |t| :: IsDigit(t[m]))
  }

  lemma TimeMillisWhole(t: string)
    requires TimeMillisText(t)
    ensures EndsFirstAt(TimeMillis(), t, 0, |t|) && TimeMillisShapeOf(t) && Fits(CLOCK, t[0..8])
  {
    ClockFixed();
    SeparatedWhole(Clock(), CLOCK, AnyOf(".,"), t);
    ClockOnlyChars(t, 0);
    ClockChars(t, 0);
    PartRuns(Digit, t, 9, |t|);
    BoundedFirst(Cat(Clock(), Cat(Chr(AnyOf(".,")), Plus(Digit))), t);
  }

  lemma UnixMillisDot(s: string, i: nat, j: nat)
    requires i <= |s| && Matches(UnixMillis(), s, i, j)
    ensures i + 10 < |s| && s[i + 10] == '.'
  {
    UnixMillisMatches(s, i, j);
    TwoDigits();
    SeparatedWhole(D(10), TEN, Lit('.'), s[i..j]);
    assert s[i..j][10] == s[i + 10];
  }

  lemma NoUnixMillisInTime(t: string)
    requires TimeMillisShapeOf(t)
    ensures NoMatch(UnixMillis(), t)
  {
    forall i: nat, j: nat | i <= |t| ensures !Matches(UnixMillis(), t, i, j) {
      if Matches(UnixMillis(), t, i, j) { UnixMillisDot(t, i, j); }
    }
  }

  /** Ten digits stand alone in such a time only if they are all of its fraction. */
  lemma UnixSecondsInTime(t: string, i: nat, j: nat)
    requires TimeMillisShapeOf(t) && i <= |t|
    ensures Matches(UnixSeconds(), t, i, j) <==> i == 9 && j == 19 == |t|
  {
    UnixSecondsMatches(t, i, j);
    if Matches(UnixSeconds(), t, i, j) {
      assert j == i + 10;
      forall m | i <= m < j ensures IsDigit(t[m]) { assert In(TEN[m - i], t[i..j][m - i]); }
      assert i > 8;
      assert i > 9 ==> WordAt(t, i - 1);
      assert j < |t| ==> WordAt(t, j);
    }
    if i == 9 && j == 19 == |t| {
      forall m | 0 <= m < 10 ensures In(TEN[m], t[9..19][m]) { assert t[9..19][m] == t[9 + m]; }
    }
  }

  lemma TimeMillisUntouched(t: string)
    requires TimeMillisShapeOf(t)
    ensures NoMatch(IsoDateTime(), t) && NoMatch(CommonDateTime(), t) && NoMatch(Syslog(), t)
            && NoMatch(UnixMillis(), t)
  {
    NoDates(t);
    NoSyslog(t);
    NoUnixMillisInTime(t);
  }

  lemma {:induction false} ScanCopies(f: Finder, token: string, s: string, i: nat, k: nat)
    requires Progress(f, |s|) && i <= k <= |s| && forall m: nat | i <= m < k :: f(m).None?
    ensures Scan(f, token, s, i) == s[i..k] + Scan(f, token, s, k)
    decreases k - i
  {
    if i < k {
      var head, next := ScanStep(f, token, s, i);
      ScanCopies(f, token, s, i + 1, k);
      Assoc(head, s[i + 1..k], Scan(f, token, s, k));
      assert head + s[i + 1..k] == s[i..k];
    } else {
      assert s[i..k] == [];
    }
  }

  /** The pass for seconds takes a fraction of ten digits for a timestamp of its own. */
  lemma FractionTaken(t: string)
    requires TimeMillisShapeOf(t) && |t| == 19
    ensures MinLen(UnixSeconds()) > 0 && ReplaceAll(UnixSeconds(), t) == t[..9] + TIME_TOKEN
  {
    var f := Preferred(UnixSeconds(), t);
    PreferredProgress(UnixSeconds(), t);
    forall m: nat | m <= 19 ensures f(m) == if m == 9 then Some(19) else None {
      UnixSecondsInTime(t, m, 19);
      if Ends(UnixSeconds(), t, m) != [] { UnixSecondsInTime(t, m, Ends(UnixSeconds(), t, m)[0]); }
    }
    ScanCopies(f, TIME_TOKEN, t, 0, 9);
    var head, next := ScanStep(f, TIME_TOKEN, t, 9);
    assert Scan(f, TIME_TOKEN, t, 19) == [];
  }

  lemma TimeMillisMarks(s: string, i: nat, j: nat)
    requires i <= |s| && Matches(TimeMillis(), s, i, j)
    ensures i + 9 < |s| && (s[i + 8] == '.' || s[i + 8] == ',') && IsDigit(s[i + 9])
  {
    TimeMillisMatches(s, i, j);
    TimeMillisWhole(s[i..j]);
    assert s[i..j][8] == s[i + 8] && s[i..j][9] == s[i + 9];
  }

  lemma NoTimeMillisLeft(t: string)
    requires TimeMillisShapeOf(t)
    ensures NoMatch(TimeMillis(), t[..9] + TIME_TOKEN)
  {
    var u := t[..9] + TIME_TOKEN;
    assert u[9] == '<' && forall m | 0 <= m < |u| && m != 8 :: u[m] != '.' && u[m] != ',';
    forall i: nat, j: nat | i <= |u| ensures !Matches(TimeMillis(), u, i, j) {
      if Matches(TimeMillis(), u, i, j) { TimeMillisMarks(u, i, j); }
    }
  }

  lemma ClockTaken(t: string)
    requires TimeMillisShapeOf(t) && Fits(CLOCK, t[0..8])
    ensures MinLen(TimeOnly()) > 0 && |ReplaceAll(TimeOnly(), t[..9] + TIME_TOKEN)| > 6
  {
    var u := t[..9] + TIME_TOKEN;
    var f := Preferred(TimeOnly(), u);
    ClockShape();
    PreferredProgress(TimeOnly(), u);
    assert u[0..8] == t[0..8];
    TimeOnlyMatches(u, 0, 8);
    var e := Ends(TimeOnly(), u, 0)[0];
    assert Matches(TimeOnly(), u, 0, e);
    TimeOnlyMatches(u, 0, e);
    var head, next := ScanStep(f, TIME_TOKEN, u, 0);
    var head', next' := ScanStep(f, TIME_TOKEN, u, 8);
  }

  lemma NextPass(t: string, k: nat)
    requires k < |TimestampPatterns()|
    ensures MinLen(TimestampPatterns()[k]) > 0
            && AfterPasses(t, k + 1) == ReplaceAll(TimestampPatterns()[k], AfterPasses(t, k))
  {
    PatternsWellOrdered();
  }

  lemma FractionOfTenPasses(t: string)
    requires TimeMillisShapeOf(t) && |t| == 19
    ensures AfterPasses(t, 5) == t[..9] + TIME_TOKEN
  {
    PatternNames();
    TimeMillisUntouched(t);
    UntouchedBefore(t, 4);
    NextPass(t, 4);
    FractionTaken(t);
  }

  lemma TimeMillisPasses(t: string)
    requires TimeMillisShapeOf(t) && AfterPasses(t, 5) == t[..9] + TIME_TOKEN
    ensures AfterPasses(t, 6) == t[..9] + TIME_TOKEN
  {
    PatternNames();
    NextPass(t, 5);
    NoTimeMillisLeft(t);
    ReplaceNothing(TimeMillis(), t[..9] + TIME_TOKEN);
  }

  lemma ClockPasses(t: string)
    requires TimeMillisShapeOf(t) && Fits(CLOCK, t[0..8]) && AfterPasses(t, 6) == t[..9] + TIME_TOKEN
    ensures |AfterPasses(t, 7)| > 6
  {
    PatternNames();
    NextPass(t, 6);
    ClockTaken(t);
  }

  lemma FractionOfTenSplits(t: string)
    requires TimeMillisShapeOf(t) && Fits(CLOCK, t[0..8]) && |t| == 19
    ensures Normalized(t) != TIME_TOKEN
  {
    FractionOfTenPasses(t);
    TimeMillisPasses(t);
    ClockPasses(t);
    PatternNames();
  }

  lemma TimeMillisErased(t: string)
    requires TimeMillisText(t)
    ensures Normalized(t) == TIME_TOKEN <==> |t| != 19
  {
    TimeMillisWhole(t);
    if |t| == 19 {
      FractionOfTenSplits(t);
    } else {
      TimeMillisUntouched(t);
      forall i: nat, j: nat | i <= |t| ensures !Matches(UnixSeconds(), t, i, j) { UnixSecondsInTime(t, i, j); }
      PatternNames();
      ErasedByPass(t, 5);
    }
  }

  /** A line that is one timestamp of any of the seven formats normalises to one token, except for a time whose
      fraction has exactly ten digits, which pass for seconds since 1970. */
  lemma WholeTimestampErased(t: string)
    requires IsTimestamp(t, 0, |t|)
    ensures Normalized(t) == TIME_TOKEN <==> !(TimeMillisText(t) && |t| == 19)
  {
    assert t[0..|t|] == t;
    if TimeMillisText(t) {
      TimeMillisErased(t);
    } else if IsoText(t) {
      IsoErased(t);
    } else if CommonText(t) {
      CommonErased(t);
    } else if SyslogText(t) {
      SyslogErased(t);
    } else if UnixMillisText(t) {
      UnixMillisErased(t);
    } else if UnixSecondsText(t) {
      UnixSecondsErased(t);
    } else {
      TimeOnlyErased(t);
    }
  }
}
