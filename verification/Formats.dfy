/** What the seven patterns match, said without regular expressions: which texts, and next to what. */
module Formats {
  import opened Options
  import opened Replace
  import opened Regex
  import opened Normalize

  // ---------- The formats ----------

  predicate AllIn(k: Class, t: string) { forall m | 0 <= m < |t| :: In(k, t[m]) }

  /** Texts of a fixed length, one class for each character. */
  predicate Fits(template: seq<Class>, t: string) {
    |t| == |template| && forall m | 0 <= m < |t| :: In(template[m], t[m])
  }

  const TWO := [Digit, Digit]
  const DATE := TWO + TWO + [Lit('-')] + TWO + [Lit('-')] + TWO
  const CLOCK := TWO + [Lit(':')] + TWO + [Lit(':')] + TWO
  const TEN := TWO + TWO + TWO + TWO + TWO

  predicate Prefixed(template: seq<Class>, t: string, rest: string -> bool) {
    |t| >= |template| && Fits(template, t[..|template|]) && rest(t[|template|..])
  }

  predicate Digits(t: string) { t != [] && AllIn(Digit, t) }

  predicate Spaces(t: string) { t != [] && AllIn(Space, t) }

  predicate FractionText(t: string) { t == [] || Prefixed([Lit('.')], t, Digits) }

  predicate OffsetText(t: string) { Fits([AnyOf("+-")] + TWO + [Lit(':')] + TWO, t) }

  predicate ZoneText(t: string) { t == ['Z'] || OffsetText(t) }

  predicate FractionZoneText(t: string) { exists k | 0 <= k <= |t| :: FractionText(t[..k]) && ZoneText(t[k..]) }

  /** 2025-07-07T13:59:39.378Z */
  predicate IsoText(t: string) { Prefixed(DATE + [Lit('T')] + CLOCK, t, FractionZoneText) }

  predicate OptionalOffsetText(t: string) { t == [] || OffsetText(t) }

  predicate FractionOffsetText(t: string) {
    exists k | 0 <= k <= |t| :: FractionText(t[..k]) && OptionalOffsetText(t[k..])
  }

  predicate ClockText(t: string) { Prefixed(CLOCK, t, FractionOffsetText) }

  predicate SpacedClockText(t: string) { exists k | 0 <= k <= |t| :: Spaces(t[..k]) && ClockText(t[k..]) }

  /** 2026-08-02 11:39:31.123+02:00 */
  predicate CommonText(t: string) { Prefixed(DATE, t, SpacedClockText) }

  const MONTHS := ["Jan", "Feb", "Mar", "Apr", "May", "Jun", "Jul", "Aug", "Sep", "Oct", "Nov", "Dec"]

  predicate MonthText(t: string) { t in MONTHS }

  predicate DayText(t: string) { 1 <= |t| <= 2 && AllIn(Digit, t) }

  predicate PlainClockText(t: string) { Fits(CLOCK, t) }

  predicate SpacesClockText(t: string) { exists k | 0 <= k <= |t| :: Spaces(t[..k]) && PlainClockText(t[k..]) }

  predicate DayClockText(t: string) { exists k | 0 <= k <= |t| :: DayText(t[..k]) && SpacesClockText(t[k..]) }

  predicate SpacesDayText(t: string) { exists k | 0 <= k <= |t| :: Spaces(t[..k]) && DayClockText(t[k..]) }

  /** Aug  2 11:39:31 */
  predicate SyslogText(t: string) { exists k | 0 <= k <= |t| :: MonthText(t[..k]) && SpacesDayText(t[k..]) }

  /** 1719319179.378 */
  predicate UnixMillisText(t: string) { Prefixed(TEN + [Lit('.')], t, Digits) }

  /** 1719319179 */
  predicate UnixSecondsText(t: string) { Fits(TEN, t) }

  /** 13:59:39,378 */
  predicate TimeMillisText(t: string) { Prefixed(CLOCK + [AnyOf(".,")], t, Digits) }

  // ---------- Meanings of expressions ----------

  /** Wherever it is tried, `r` matches exactly these texts. */
  ghost predicate Means(r: Re, text: string -> bool) {
    forall s: string, i: nat, j: nat | i <= |s| :: Matches(r, s, i, j) <==> i <= j <= |s| && text(s[i..j])
  }

  lemma SliceSplit(s: string, i: nat, e: nat, j: nat)
    requires i <= e <= j <= |s|
    ensures s[i..j][..e - i] == s[i..e] && s[i..j][e - i..] == s[e..j]
  {
  }

  /** Some cut of the text leaves an `x` and a `y`. */
  ghost predicate Splits(x: string -> bool, y: string -> bool, t: string) {
    exists k | 0 <= k <= |t| :: x(t[..k]) && y(t[k..])
  }

  lemma CatGivesSplit(a: Re, b: Re, x: string -> bool, y: string -> bool, s: string, i: nat, j: nat)
    requires Means(a, x) && Means(b, y) && i <= |s| && Matches(Cat(a, b), s, i, j)
    ensures i <= j <= |s| && Splits(x, y, s[i..j])
  {
    var e := CatSplit(Cat(a, b), s, i, j);
    assert x(s[i..e]) && y(s[e..j]);
    SliceSplit(s, i, e, j);
  }

  lemma MeansAt(r: Re, text: string -> bool, s: string, i: nat, j: nat)
    requires Means(r, text) && i <= j <= |s| && text(s[i..j])
    ensures Matches(r, s, i, j)
  {
  }

  /** The place of the cut in the whole text. */
  lemma CutOf(x: string -> bool, y: string -> bool, t: string, i: nat) returns (e: nat)
    requires i <= |t| && Splits(x, y, t[i..])
    ensures i <= e <= |t| && x(t[i..e]) && y(t[e..])
  {
    var u := t[i..];
    var k :| 0 <= k <= |u| && x(u[..k]) && y(u[k..]);
    Cut(t, i, k);
    e := i + k;
  }

  lemma Cut(t: string, i: nat, k: nat)
    requires i + k <= |t|
    ensures t[i..][..k] == t[i..i + k] && t[i..][k..] == t[i + k..]
  {
  }

  lemma SplitPlace(x: string -> bool, y: string -> bool, s: string, i: nat, j: nat) returns (e: nat)
    requires i <= j <= |s| && Splits(x, y, s[i..j])
    ensures i <= e <= j && x(s[i..e]) && y(s[e..j])
  {
    var k :| 0 <= k <= |s[i..j]| && x(s[i..j][..k]) && y(s[i..j][k..]);
    e := i + k;
    SliceSplit(s, i, e, j);
  }

  lemma SplitGivesCat(a: Re, b: Re, x: string -> bool, y: string -> bool, s: string, i: nat, j: nat) returns (e: nat)
    requires Means(a, x) && Means(b, y) && i <= j <= |s| && Splits(x, y, s[i..j])
    ensures i <= e <= j && Matches(a, s, i, e) && Matches(b, s, e, j)
  {
    e := SplitPlace(x, y, s, i, j);
    MeansAt(a, x, s, i, e);
    MeansAt(b, y, s, e, j);
  }

  lemma CatMeans(a: Re, b: Re, x: string -> bool, y: string -> bool, z: string -> bool)
    requires Means(a, x) && Means(b, y) && forall t :: z(t) <==> Splits(x, y, t)
    ensures Means(Cat(a, b), z)
  {
    forall s: string, i: nat, j: nat | i <= |s| ensures Matches(Cat(a, b), s, i, j) <==> i <= j <= |s| && z(s[i..j]) {
      if Matches(Cat(a, b), s, i, j) { CatGivesSplit(a, b, x, y, s, i, j); }
      if i <= j <= |s| && z(s[i..j]) {
        var e := SplitGivesCat(a, b, x, y, s, i, j);
        CatJoin(Cat(a, b), s, i, e, j);
      }
    }
  }

  lemma AltMeans(a: Re, b: Re, x: string -> bool, y: string -> bool, z: string -> bool)
    requires Means(a, x) && Means(b, y) && forall t :: z(t) <==> x(t) || y(t)
    ensures Means(Alt(a, b), z)
  {
  }

  lemma OptMeans(a: Re, x: string -> bool, z: string -> bool)
    requires Means(a, x) && forall t :: z(t) <==> t == [] || x(t)
    ensures Means(Opt(a), z)
  {
  }

  lemma {:induction false} PlusEnds(k: Class, s: string, i: nat, j: nat)
    requires i <= |s|
    ensures Matches(Plus(k), s, i, j) <==> i < j <= |s| && Run(k, s, i, j - i)
    decreases |s| - i
  {
    if i < |s| && In(k, s[i]) {
      PlusEnds(k, s, i + 1, j);
    }
  }

  lemma PlusMeans(k: Class, z: string -> bool)
    requires forall t :: z(t) <==> t != [] && AllIn(k, t)
    ensures Means(Plus(k), z)
  {
    forall s: string, i: nat, j: nat | i <= |s| ensures Matches(Plus(k), s, i, j) <==> i <= j <= |s| && z(s[i..j]) {
      PlusEnds(k, s, i, j);
      if i <= j <= |s| {
        assert forall m | 0 <= m < j - i :: s[i..j][m] == s[i + m];
        if AllIn(k, s[i..j]) {
          forall m | i <= m < j ensures In(k, s[m]) { assert s[i..j][m - i] == s[m]; }
        }
      }
    }
  }

  // ---------- Expressions of fixed length ----------

  predicate IsFixed(r: Re) { r.Chr? || r.Rep? || (r.Cat? && IsFixed(r.a) && IsFixed(r.b)) }

  function Template(r: Re): seq<Class>
    requires IsFixed(r)
  {
    if r.Chr? then [r.k] else if r.Rep? then seq(r.n, _ => r.k) else Template(r.a) + Template(r.b)
  }

  lemma {:induction false} FixedMatches(r: Re, s: string, i: nat, j: nat)
    requires IsFixed(r) && i <= |s|
    ensures Matches(r, s, i, j) <==> i <= j <= |s| && Fits(Template(r), s[i..j])
    decreases r
  {
    if r.Rep? {
      if i <= j <= |s| && Fits(Template(r), s[i..j]) {
        forall m | i <= m < j ensures In(r.k, s[m]) { assert s[i..j][m - i] == s[m]; }
      }
    } else if r.Cat? {
      if Matches(r, s, i, j) {
        var e := CatSplit(r, s, i, j);
        FixedMatches(r.a, s, i, e);
        FixedMatches(r.b, s, e, j);
        FitsJoin(Template(r.a), Template(r.b), s, i, e, j);
      }
      var e := i + |Template(r.a)|;
      if i <= j <= |s| && Fits(Template(r), s[i..j]) {
        FitsJoin(Template(r.a), Template(r.b), s, i, e, j);
        FixedMatches(r.a, s, i, e);
        FixedMatches(r.b, s, e, j);
        CatJoin(r, s, i, e, j);
      }
    }
  }

  lemma FitsConcat(x: seq<Class>, y: seq<Class>, t: string)
    requires |t| >= |x|
    ensures Fits(x + y, t) <==> Fits(x, t[..|x|]) && Fits(y, t[|x|..])
  {
    if Fits(x + y, t) {
      forall m | 0 <= m < |y| ensures In(y[m], t[|x|..][m]) { assert In((x + y)[|x| + m], t[|x| + m]); }
      forall m | 0 <= m < |x| ensures In(x[m], t[..|x|][m]) { assert In((x + y)[m], t[m]); }
    }
    if Fits(x, t[..|x|]) && Fits(y, t[|x|..]) {
      forall m | 0 <= m < |t| ensures In((x + y)[m], t[m]) {
        if m < |x| { assert t[m] == t[..|x|][m]; } else { assert t[m] == t[|x|..][m - |x|]; }
      }
    }
  }

  lemma FitsJoin(x: seq<Class>, y: seq<Class>, s: string, i: nat, e: nat, j: nat)
    requires i <= e <= j <= |s| && e - i == |x|
    ensures Fits(x + y, s[i..j]) <==> Fits(x, s[i..e]) && Fits(y, s[e..j])
  {
    SliceSplit(s, i, e, j);
    FitsConcat(x, y, s[i..j]);
  }

  lemma FixedMeans(r: Re, template: seq<Class>, z: string -> bool)
    requires IsFixed(r) && Template(r) == template && forall t :: z(t) <==> Fits(template, t)
    ensures Means(r, z)
  {
    forall s: string, i: nat, j: nat | i <= |s|
      ensures Matches(r, s, i, j) <==> i <= j <= |s| && z(s[i..j])
    {
      FixedMatches(r, s, i, j);
    }
  }

  /** A part of fixed length before another part. */
  lemma PrefixMeans(a: Re, template: seq<Class>, b: Re, y: string -> bool, z: string -> bool)
    requires IsFixed(a) && Template(a) == template && Means(b, y)
    requires forall t :: z(t) <==> Prefixed(template, t, y)
    ensures Means(Cat(a, b), z)
  {
    var x := t => Fits(template, t);
    FixedMeans(a, template, x);
    forall t ensures z(t) <==> Splits(x, y, t) {
      if z(t) { assert x(t[..|template|]) && y(t[|template|..]); }
    }
    CatMeans(a, b, x, y, z);
  }

  // ---------- The parts of the patterns ----------

  lemma TwoDigits()
    ensures IsFixed(D(2)) && Template(D(2)) == TWO && IsFixed(D(4)) && Template(D(4)) == TWO + TWO
    ensures IsFixed(D(10)) && Template(D(10)) == TEN
  {
  }

  lemma DateFixed()
    ensures IsFixed(Date()) && Template(Date()) == DATE
  {
    TwoDigits();
  }

  lemma ClockFixed()
    ensures IsFixed(Clock()) && Template(Clock()) == CLOCK
  {
    TwoDigits();
  }

  lemma OffsetMeans()
    ensures Means(NumericOffset(), OffsetText)
  {
    TwoDigits();
    var template := [AnyOf("+-")] + TWO + [Lit(':')] + TWO;
    assert Template(NumericOffset()) == template;
    FixedMeans(NumericOffset(), template, OffsetText);
  }

  lemma FractionMeans()
    ensures Means(Fraction(), FractionText)
  {
    PlusMeans(Digit, Digits);
    var dotted := t => Prefixed([Lit('.')], t, Digits);
    PrefixMeans(C('.'), [Lit('.')], Plus(Digit), Digits, dotted);
    OptMeans(Cat(C('.'), Plus(Digit)), dotted, FractionText);
  }

  lemma FractionZoneMeans()
    ensures Means(Cat(Fraction(), Alt(C('Z'), NumericOffset())), FractionZoneText)
  {
    FractionMeans();
    OffsetMeans();
    var z := t => t == ['Z'];
    FixedMeans(C('Z'), [Lit('Z')], z);
    AltMeans(C('Z'), NumericOffset(), z, OffsetText, ZoneText);
    CatMeans(Fraction(), Alt(C('Z'), NumericOffset()), FractionText, ZoneText, FractionZoneText);
  }

  lemma FractionOffsetMeans()
    ensures Means(Cat(Fraction(), Opt(NumericOffset())), FractionOffsetText)
  {
    FractionMeans();
    OffsetMeans();
    OptMeans(NumericOffset(), OffsetText, OptionalOffsetText);
    CatMeans(Fraction(), Opt(NumericOffset()), FractionText, OptionalOffsetText, FractionOffsetText);
  }

  ghost predicate MeansWords(r: Re, ws: seq<string>) {
    forall s: string, i: nat, j: nat | i <= |s| :: Matches(r, s, i, j) <==> i <= j <= |s| && s[i..j] in ws
  }

  lemma WordMeans(w: string)
    requires w != []
    ensures MeansWords(Str(w), [w])
  {
    forall s: string, i: nat, j: nat | i <= |s| ensures Matches(Str(w), s, i, j) <==> i <= j <= |s| && s[i..j] in [w] {
      if w <= s[i..] { assert s[i..][..|w|] == s[i..i + |w|]; }
      if i <= j <= |s| && s[i..j] == w { assert s[i..][..|w|] == w; }
    }
  }

  lemma WordsMean(a: Re, xs: seq<string>, b: Re, ys: seq<string>)
    requires MeansWords(a, xs) && MeansWords(b, ys)
    ensures MeansWords(Alt(a, b), xs + ys)
  {
  }

  lemma SixWordsMean(a: string, b: string, c: string, d: string, e: string, f: string)
    requires a != [] && b != [] && c != [] && d != [] && e != [] && f != []
    ensures MeansWords(Alt(Str(a), Alt(Str(b), Alt(Str(c), Alt(Str(d), Alt(Str(e), Str(f)))))), [a, b, c, d, e, f])
  {
    WordMeans(a); WordMeans(b); WordMeans(c); WordMeans(d); WordMeans(e); WordMeans(f);
    WordsMean(Str(e), [e], Str(f), [f]);
    WordsMean(Str(d), [d], Alt(Str(e), Str(f)), [e] + [f]);
    WordsMean(Str(c), [c], Alt(Str(d), Alt(Str(e), Str(f))), [d] + ([e] + [f]));
    var four := Alt(Str(c), Alt(Str(d), Alt(Str(e), Str(f))));
    WordsMean(Str(b), [b], four, [c] + ([d] + ([e] + [f])));
    WordsMean(Str(a), [a], Alt(Str(b), four), [b] + ([c] + ([d] + ([e] + [f]))));
    assert [a] + ([b] + ([c] + ([d] + ([e] + [f])))) == [a, b, c, d, e, f];
  }

  lemma MonthsMean()
    ensures Means(Months(), MonthText)
  {
    SixWordsMean("Jan", "Feb", "Mar", "Apr", "May", "Jun");
    SixWordsMean("Jul", "Aug", "Sep", "Oct", "Nov", "Dec");
    var first, second := ["Jan", "Feb", "Mar", "Apr", "May", "Jun"], ["Jul", "Aug", "Sep", "Oct", "Nov", "Dec"];
    WordsMean(JanToJun(), first, JulToDec(), second);
    assert MONTHS == first + second;
  }

  lemma DayMeans()
    ensures Means(Cat(Chr(Digit), Opt(Chr(Digit))), DayText)
  {
    var x := (t: string) => Fits([Digit], t);
    var y := (t: string) => t == [] || Fits([Digit], t);
    FixedMeans(Chr(Digit), [Digit], x);
    OptMeans(Chr(Digit), x, y);
    forall t ensures DayText(t) <==> Prefixed([Digit], t, y) {
      if DayText(t) { assert t[1..] == [] || |t[1..]| == 1; }
      if Prefixed([Digit], t, y) {
        assert t[0] == t[..1][0];
        if |t| == 2 { assert t[1] == t[1..][0]; }
      }
    }
    PrefixMeans(Chr(Digit), [Digit], Opt(Chr(Digit)), y, DayText);
  }

  lemma SpacesClockMeans()
    ensures Means(Cat(Plus(Space), Clock()), SpacesClockText)
  {
    ClockFixed();
    FixedMeans(Clock(), CLOCK, PlainClockText);
    PlusMeans(Space, Spaces);
    CatMeans(Plus(Space), Clock(), Spaces, PlainClockText, SpacesClockText);
  }

  // ---------- The patterns ----------

  lemma IsoMeans()
    ensures Means(IsoDateTime(), IsoText)
  {
    DateFixed();
    ClockFixed();
    FractionZoneMeans();
    var zone := Cat(Fraction(), Alt(C('Z'), NumericOffset()));
    var clock: string -> bool := t => Prefixed(CLOCK, t, FractionZoneText);
    var tee: string -> bool := t => Prefixed([Lit('T')], t, clock);
    PrefixMeans(Clock(), CLOCK, zone, FractionZoneText, clock);
    PrefixMeans(C('T'), [Lit('T')], Cat(Clock(), zone), clock, tee);
    forall t ensures IsoText(t) <==> Prefixed(DATE, t, tee) {
      PrefixesJoin(DATE, [Lit('T')], CLOCK, t, FractionZoneText, clock, tee);
    }
    PrefixMeans(Date(), DATE, Cat(C('T'), Cat(Clock(), zone)), tee, IsoText);
  }

  lemma PrefixesJoin(x: seq<Class>, y: seq<Class>, z: seq<Class>, t: string,
                     rest: string -> bool, p: string -> bool, q: string -> bool)
    requires (forall u :: p(u) <==> Prefixed(z, u, rest)) && (forall u :: q(u) <==> Prefixed(y, u, p))
    ensures Prefixed(x + y + z, t, rest) <==> Prefixed(x, t, q)
  {
    if |t| >= |x + y + z| {
      var u := t[|x|..];
      var v := u[|y|..];
      assert v[|z|..] == t[|x + y + z|..];
      var head := t[..|x + y + z|];
      FitsConcat(x + y, z, head);
      FitsConcat(x, y, head[..|x + y|]);
      assert head[..|x + y|][..|x|] == t[..|x|] && head[..|x + y|][|x|..] == u[..|y|] && head[|x + y|..] == v[..|z|];
    }
  }

  lemma CommonMeans()
    ensures Means(CommonDateTime(), CommonText)
  {
    DateFixed();
    ClockFixed();
    FractionOffsetMeans();
    PlusMeans(Space, Spaces);
    var rest := Cat(Fraction(), Opt(NumericOffset()));
    PrefixMeans(Clock(), CLOCK, rest, FractionOffsetText, ClockText);
    CatMeans(Plus(Space), Cat(Clock(), rest), Spaces, ClockText, SpacedClockText);
    PrefixMeans(Date(), DATE, Cat(Plus(Space), Cat(Clock(), rest)), SpacedClockText, CommonText);
  }

  lemma SyslogMeans()
    ensures Means(Syslog(), SyslogText)
  {
    MonthsMean();
    DayMeans();
    SpacesClockMeans();
    PlusMeans(Space, Spaces);
    var day, clock := Cat(Chr(Digit), Opt(Chr(Digit))), Cat(Plus(Space), Clock());
    CatMeans(day, clock, DayText, SpacesClockText, DayClockText);
    CatMeans(Plus(Space), Cat(day, clock), Spaces, DayClockText, SpacesDayText);
    CatMeans(Months(), Cat(Plus(Space), Cat(day, clock)), MonthText, SpacesDayText, SyslogText);
  }

  /** Between word boundaries: the text starts and ends with a word character and no other adjoins it. */
  predicate Alone(s: string, i: nat, j: nat) { !WordAt(s, i - 1) && !WordAt(s, j) }

  lemma BoundedMatches(body: Re, text: string -> bool, s: string, i: nat, j: nat)
    requires Means(body, text) && StartsWord(body) && EndsWord(body) && MinLen(body) > 0 && i <= |s|
    ensures Matches(Bounded(body), s, i, j) <==> i <= j <= |s| && text(s[i..j]) && Alone(s, i, j)
  {
    var r := Bounded(body);
    if Matches(r, s, i, j) {
      var e := CatSplit(r, s, i, j);
      var e' := CatSplit(r.b, s, e, j);
      StartsWordHolds(body, s, i, j);
      EndsWordHolds(body, s, i, j);
    }
    if i <= j <= |s| && text(s[i..j]) && Alone(s, i, j) {
      MeansAt(body, text, s, i, j);
      StartsWordHolds(body, s, i, j);
      EndsWordHolds(body, s, i, j);
      CatJoin(r.b, s, i, j, j);
      CatJoin(r, s, i, i, j);
    }
  }

  /** Seconds since 1970 with a fraction. */
  lemma UnixMillisMatches(s: string, i: nat, j: nat)
    requires i <= |s|
    ensures Matches(UnixMillis(), s, i, j) <==> i <= j <= |s| && UnixMillisText(s[i..j]) && Alone(s, i, j)
  {
    TwoDigits();
    PlusMeans(Digit, Digits);
    var dotted: string -> bool := t => Prefixed([Lit('.')], t, Digits);
    PrefixMeans(C('.'), [Lit('.')], Plus(Digit), Digits, dotted);
    forall t ensures UnixMillisText(t) <==> Prefixed(TEN, t, dotted) {
      PrefixJoins(TEN, [Lit('.')], t, Digits, dotted);
    }
    PrefixMeans(D(10), TEN, Cat(C('.'), Plus(Digit)), dotted, UnixMillisText);
    BoundedMatches(Cat(D(10), Cat(C('.'), Plus(Digit))), UnixMillisText, s, i, j);
  }

  lemma UnixSecondsMatches(s: string, i: nat, j: nat)
    requires i <= |s|
    ensures Matches(UnixSeconds(), s, i, j) <==> i <= j <= |s| && UnixSecondsText(s[i..j]) && Alone(s, i, j)
  {
    TwoDigits();
    FixedMeans(D(10), TEN, UnixSecondsText);
    BoundedMatches(D(10), UnixSecondsText, s, i, j);
  }

  lemma TimeMillisMatches(s: string, i: nat, j: nat)
    requires i <= |s|
    ensures Matches(TimeMillis(), s, i, j) <==> i <= j <= |s| && TimeMillisText(s[i..j]) && Alone(s, i, j)
  {
    ClockFixed();
    ClockShape();
    PlusMeans(Digit, Digits);
    var separator := Chr(AnyOf(".,"));
    var marked: string -> bool := t => Prefixed([AnyOf(".,")], t, Digits);
    PrefixMeans(separator, [AnyOf(".,")], Plus(Digit), Digits, marked);
    forall t ensures TimeMillisText(t) <==> Prefixed(CLOCK, t, marked) {
      PrefixJoins(CLOCK, [AnyOf(".,")], t, Digits, marked);
    }
    PrefixMeans(Clock(), CLOCK, Cat(separator, Plus(Digit)), marked, TimeMillisText);
    BoundedMatches(Cat(Clock(), Cat(separator, Plus(Digit))), TimeMillisText, s, i, j);
  }

  lemma TimeOnlyMatches(s: string, i: nat, j: nat)
    requires i <= |s|
    ensures Matches(TimeOnly(), s, i, j) <==> i <= j <= |s| && PlainClockText(s[i..j]) && Alone(s, i, j)
  {
    ClockFixed();
    ClockShape();
    FixedMeans(Clock(), CLOCK, PlainClockText);
    BoundedMatches(Clock(), PlainClockText, s, i, j);
  }

  lemma PrefixJoins(x: seq<Class>, y: seq<Class>, t: string, rest: string -> bool, p: string -> bool)
    requires forall u :: p(u) <==> Prefixed(y, u, rest)
    ensures Prefixed(x + y, t, rest) <==> Prefixed(x, t, p)
  {
    if |t| >= |x + y| {
      var u, head := t[|x|..], t[..|x + y|];
      assert u[|y|..] == t[|x + y|..];
      FitsConcat(x, y, head);
      assert head[..|x|] == t[..|x|] && head[|x|..] == u[..|y|];
    }
  }

  // ---------- Normal forms ----------

  /** A text of one of the seven formats; the last four count only where they stand alone. */
  predicate IsTimestamp(line: string, i: nat, j: nat)
    requires i <= j <= |line|
  {
    var t := line[i..j];
    || IsoText(t) || CommonText(t) || SyslogText(t)
    || (Alone(line, i, j) && (UnixMillisText(t) || UnixSecondsText(t) || TimeMillisText(t) || PlainClockText(t)))
  }

  ghost predicate SomeMatch(line: string, i: nat, j: nat)
    requires i <= |line|
  {
    || Matches(IsoDateTime(), line, i, j) || Matches(CommonDateTime(), line, i, j) || Matches(Syslog(), line, i, j)
    || Matches(UnixMillis(), line, i, j) || Matches(UnixSeconds(), line, i, j) || Matches(TimeMillis(), line, i, j)
    || Matches(TimeOnly(), line, i, j)
  }

  lemma MatchesAreTimestamps(line: string, i: nat, j: nat)
    requires i <= |line|
    ensures SomeMatch(line, i, j) <==> i <= j <= |line| && IsTimestamp(line, i, j)
  {
    IsoMeans();
    CommonMeans();
    SyslogMeans();
    UnixMillisMatches(line, i, j);
    UnixSecondsMatches(line, i, j);
    TimeMillisMatches(line, i, j);
    TimeOnlyMatches(line, i, j);
  }

  lemma SomeMatchIsOfPattern(line: string, i: nat, j: nat)
    requires i <= |line|
    ensures SomeMatch(line, i, j) <==> exists k | 0 <= k < 7 :: Matches(TimestampPatterns()[k], line, i, j)
  {
    var ps := TimestampPatterns();
    assert ps[0] == IsoDateTime() && ps[1] == CommonDateTime() && ps[2] == Syslog() && ps[3] == UnixMillis();
    assert ps[4] == UnixSeconds() && ps[5] == TimeMillis() && ps[6] == TimeOnly();
  }

  /** A line is in normal form exactly if no timestamp of the seven formats occurs in it. */
  lemma NormalFormHasNoTimestamps(line: string)
    ensures NormalForm(line) <==> forall i, j | 0 <= i <= j <= |line| :: !IsTimestamp(line, i, j)
  {
    if forall i, j | 0 <= i <= j <= |line| :: !IsTimestamp(line, i, j) {
      forall p | p in TimestampPatterns() ensures NoMatch(p, line) { NoTimestampNoMatch(line, p); }
    }
    if NormalForm(line) {
      forall i, j | 0 <= i <= j <= |line| ensures !IsTimestamp(line, i, j) {
        MatchesAreTimestamps(line, i, j);
        SomeMatchIsOfPattern(line, i, j);
        forall k | 0 <= k < 7 ensures !Matches(TimestampPatterns()[k], line, i, j) {
          assert NoMatch(TimestampPatterns()[k], line);
        }
      }
    }
  }

  lemma NoTimestampNoMatch(line: string, p: Re)
    requires p in TimestampPatterns() && forall i, j | 0 <= i <= j <= |line| :: !IsTimestamp(line, i, j)
    ensures NoMatch(p, line)
  {
    var k :| 0 <= k < 7 && TimestampPatterns()[k] == p;
    forall i: nat, j: nat | i <= |line| ensures !Matches(p, line, i, j) {
      MatchesAreTimestamps(line, i, j);
      SomeMatchIsOfPattern(line, i, j);
    }
  }

  /** So a line is left alone exactly if it holds no timestamp, and the result of normalising never holds one. */
  lemma NormalizedHasNoTimestamps(line: string)
    ensures Normalized(line) == line <==> forall i, j | 0 <= i <= j <= |line| :: !IsTimestamp(line, i, j)
    ensures forall i, j | 0 <= i <= j <= |Normalized(line)| :: !IsTimestamp(Normalized(line), i, j)
  {
    FixedExactlyInNormalForm(line);
    OutputInNormalForm(line);
    NormalFormHasNoTimestamps(line);
    NormalFormHasNoTimestamps(Normalized(line));
  }
}
