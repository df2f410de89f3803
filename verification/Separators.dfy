/** Characters that no timestamp contains split a line into parts that are normalised separately. */
module Separators {
  import opened Options
  import opened Replace
  import opened Regex
  import opened Normalize
  import opened Formats
  import opened WholeLines
  import Erasure
  import ErasureLimit

  // ---------- A character that a pattern avoids ----------

  /** What follows such a character is not seen before it. */
  lemma {:induction false} EndsBefore(r: Re, a: string, b: string, i: nat)
    requires b != [] && Avoids(r, b[0]) && !IsWord(b[0]) && i <= |a|
    ensures Ends(r, a + b, i) == Ends(r, a, i)
    decreases r, 0, |a| - i
  {
    match r
    case Chr(k) =>
    case Str(w) => WordBefore(w, a, b, i);
    case Rep(k, n) => RunBefore(k, a, b, i, n);
    case Plus(k) => if i < |a| { EndsBefore(r, a, b, i + 1); }
    case Cat(x, y) =>
      EndsBefore(x, a, b, i);
      ThenBefore(y, a, b, Ends(x, a, i), i);
    case Alt(x, y) =>
      EndsBefore(x, a, b, i);
      EndsBefore(y, a, b, i);
    case Opt(x) => EndsBefore(x, a, b, i);
    case WordBoundary =>
  }

  lemma WordBefore(w: string, a: string, b: string, i: nat)
    requires b != [] && b[0] !in w && i <= |a|
    ensures w <= (a + b)[i..] <==> w <= a[i..]
  {
    var s := (a + b)[i..];
    if |w| <= |a| - i {
      assert forall m | 0 <= m < |w| :: s[m] == a[i..][m];
    } else {
      assert s[|a| - i] == b[0] && w[|a| - i] in w;
    }
  }

  lemma RunBefore(k: Class, a: string, b: string, i: nat, n: nat)
    requires b != [] && !In(k, b[0]) && i <= |a|
    ensures Run(k, a + b, i, n) <==> Run(k, a, i, n)
  {
    assert !In(k, (a + b)[|a|]);
    assert forall m | 0 <= m < |a| :: (a + b)[m] == a[m];
  }

  lemma {:induction false} ThenBefore(r: Re, a: string, b: string, es: seq<nat>, lo: nat)
    requires b != [] && Avoids(r, b[0]) && !IsWord(b[0])
    requires forall e | e in es :: lo <= e <= |a|
    ensures forall e | e in es :: lo <= e <= |a + b|
    ensures Then(r, a + b, es, lo) == Then(r, a, es, lo)
    decreases r, 1, |es|
  {
    if es != [] {
      assert es[0] in es && forall e | e in es[1..] :: e in es;
      EndsBefore(r, a, b, es[0]);
      ThenBefore(r, a, b, es[1..], lo);
    }
  }

  lemma NoneAtEnd(r: Re, a: string, b: string)
    requires MinLen(r) > 0 && b != [] && Avoids(r, b[0]) && !IsWord(b[0])
    ensures Preferred(r, a + b)(|a|).None?
  {
    EndsBefore(r, a, b, |a|);
    PreferredProgress(r, a);
    assert Preferred(r, a)(|a|).None?;
  }

  lemma NoneAtStart(r: Re, c: char, b: string)
    requires MinLen(r) > 0 && Avoids(r, c) && !IsWord(c)
    ensures Preferred(r, [c] + b)(0).None?
  {
    NoneAtEnd(r, [], [c] + b);
    assert [] + ([c] + b) == [c] + b;
  }

  // ---------- One pass ----------

  lemma PassSkips(r: Re, c: char, b: string)
    requires MinLen(r) > 0 && Avoids(r, c) && !IsWord(c)
    ensures ReplaceAll(r, [c] + b) == [c] + ReplaceAll(r, b)
  {
    PreferredProgress(r, [c] + b);
    PreferredProgress(r, b);
    NoneAtStart(r, c, b);
    Erasure.PreferredShift(r, [c], b);
    ScanShift(Preferred(r, [c] + b), Preferred(r, b), TIME_TOKEN, [c], b, 0);
  }

  /** Behind the character it does not matter what stands before it. */
  lemma MatchBehind(r: Re, a: string, c: char, b: string, k: nat)
    requires MinLen(r) > 0 && Avoids(r, c) && !IsWord(c) && 0 < k <= |[c] + b|
    ensures var f, h := Preferred(r, a + ([c] + b))(|a| + k), Preferred(r, [c] + b)(k);
            f == if h.None? then None else Some(|a| + h.value)
  {
    Erasure.PreferredAt(r, a + [c], b, k - 1);
    Erasure.PreferredAt(r, [c], b, k - 1);
    assert (a + [c]) + b == a + ([c] + b);
  }

  lemma MatchesBehind(r: Re, a: string, c: char, b: string)
    requires MinLen(r) > 0 && Avoids(r, c) && !IsWord(c)
    ensures var f, h := Preferred(r, a + ([c] + b)), Preferred(r, [c] + b);
            forall k: nat {:trigger h(k)} | k <= |[c] + b| ::
              f(|a| + k) == if h(k).None? then None else Some(|a| + h(k).value)
  {
    var f, h := Preferred(r, a + ([c] + b)), Preferred(r, [c] + b);
    forall k: nat | k <= |[c] + b| ensures f(|a| + k) == if h(k).None? then None else Some(|a| + h(k).value) {
      if k > 0 {
        MatchBehind(r, a, c, b, k);
      } else {
        NoneAtEnd(r, a, [c] + b);
        NoneAtStart(r, c, b);
      }
    }
  }

  /** The two sides are replaced separately, and the character stays. */
  lemma PassSplits(r: Re, a: string, c: char, b: string)
    requires MinLen(r) > 0 && Avoids(r, c) && !IsWord(c)
    ensures ReplaceAll(r, a + ([c] + b)) == ReplaceAll(r, a) + ([c] + ReplaceAll(r, b))
  {
    var f, g, h := Preferred(r, a + ([c] + b)), Preferred(r, a), Preferred(r, [c] + b);
    PreferredProgress(r, a + ([c] + b));
    PreferredProgress(r, a);
    PreferredProgress(r, [c] + b);
    MatchesBehind(r, a, c, b);
    forall k: nat | k < |a| ensures f(k) == g(k) { EndsBefore(r, a, [c] + b, k); }
    ScanCut(f, g, h, TIME_TOKEN, a, [c] + b, 0);
    PassSkips(r, c, b);
  }

  // ---------- Separators ----------

  predicate Separator(c: char) { !IsWord(c) && !In(Space, c) && c !in "-:.,+" }

  lemma SeparatorIsNot(c: char)
    requires Separator(c)
    ensures c != '-' && c != ':' && c != '.' && c != ',' && c != '+' && c != 'T' && c != 'Z'
  {
    var marks := "-:.,+";
    assert marks[0] in marks && marks[1] in marks && marks[2] in marks && marks[3] in marks && marks[4] in marks;
  }

  lemma WordAvoids(w: string, c: char)
    requires !IsWord(c) && forall x | x in w :: IsWord(x)
    ensures Avoids(Str(w), c)
  {
  }

  lemma DigitsAvoid(c: char)
    requires Separator(c)
    ensures forall n :: Avoids(D(n), c)
    ensures Avoids(Plus(Digit), c) && Avoids(Plus(Space), c)
    ensures Avoids(Date(), c) && Avoids(Clock(), c)
  {
    SeparatorIsNot(c);
    TwoPartsAvoid('-', c);
    TwoPartsAvoid(':', c);
    CatAvoids(D(4), Cat(C('-'), Cat(D(2), Cat(C('-'), D(2)))), c);
    CatAvoids(D(2), Cat(C(':'), Cat(D(2), Cat(C(':'), D(2)))), c);
  }

  lemma TwoPartsAvoid(x: char, c: char)
    requires c != x && !IsDigit(c)
    ensures Avoids(Cat(D(2), Cat(C(x), D(2))), c) && Avoids(Cat(C(x), Cat(D(2), Cat(C(x), D(2)))), c)
  {
    CatAvoids(C(x), D(2), c);
    CatAvoids(D(2), Cat(C(x), D(2)), c);
    CatAvoids(C(x), Cat(D(2), Cat(C(x), D(2))), c);
  }

  lemma PartsAvoid(c: char)
    requires Separator(c)
    ensures Avoids(Fraction(), c) && Avoids(NumericOffset(), c) && Avoids(C('T'), c) && Avoids(C('Z'), c)
  {
    DigitsAvoid(c);
    SeparatorIsNot(c);
    assert Avoids(Cat(C('.'), Plus(Digit)), c);
    assert Avoids(Cat(C(':'), D(2)), c) && Avoids(Cat(D(2), Cat(C(':'), D(2))), c);
  }

  lemma FirstMonthsAvoid(c: char)
    requires Separator(c)
    ensures Avoids(JanToJun(), c)
  {
    WordAvoids("Jan", c); WordAvoids("Feb", c); WordAvoids("Mar", c);
    WordAvoids("Apr", c); WordAvoids("May", c); WordAvoids("Jun", c);
    assert Avoids(Alt(Str("May"), Str("Jun")), c);
    assert Avoids(Alt(Str("Apr"), Alt(Str("May"), Str("Jun"))), c);
    assert Avoids(Alt(Str("Mar"), Alt(Str("Apr"), Alt(Str("May"), Str("Jun")))), c);
  }

  lemma LastMonthsAvoid(c: char)
    requires Separator(c)
    ensures Avoids(JulToDec(), c)
  {
    WordAvoids("Jul", c); WordAvoids("Aug", c); WordAvoids("Sep", c);
    WordAvoids("Oct", c); WordAvoids("Nov", c); WordAvoids("Dec", c);
    assert Avoids(Alt(Str("Nov"), Str("Dec")), c);
    assert Avoids(Alt(Str("Oct"), Alt(Str("Nov"), Str("Dec"))), c);
    assert Avoids(Alt(Str("Sep"), Alt(Str("Oct"), Alt(Str("Nov"), Str("Dec")))), c);
  }

  lemma CatAvoids(a: Re, b: Re, c: char)
    requires Avoids(a, c) && Avoids(b, c)
    ensures Avoids(Cat(a, b), c) && Avoids(Alt(a, b), c) && Avoids(Opt(a), c)
  {
  }

  lemma DateTimesAvoid(c: char)
    requires Separator(c)
    ensures Avoids(IsoDateTime(), c) && Avoids(CommonDateTime(), c)
  {
    DigitsAvoid(c);
    PartsAvoid(c);
    var zone, offset := Alt(C('Z'), NumericOffset()), Opt(NumericOffset());
    CatAvoids(C('Z'), NumericOffset(), c);
    CatAvoids(NumericOffset(), NumericOffset(), c);
    CatAvoids(Fraction(), zone, c);
    CatAvoids(Fraction(), offset, c);
    CatAvoids(Clock(), Cat(Fraction(), zone), c);
    CatAvoids(Clock(), Cat(Fraction(), offset), c);
    CatAvoids(C('T'), Cat(Clock(), Cat(Fraction(), zone)), c);
    CatAvoids(Plus(Space), Cat(Clock(), Cat(Fraction(), offset)), c);
  }

  lemma SyslogAvoids(c: char)
    requires Separator(c)
    ensures Avoids(Syslog(), c)
  {
    DigitsAvoid(c);
    FirstMonthsAvoid(c);
    LastMonthsAvoid(c);
    CatAvoids(JanToJun(), JulToDec(), c);
    var day := Cat(Chr(Digit), Opt(Chr(Digit)));
    assert Avoids(Opt(Chr(Digit)), c);
    CatAvoids(Plus(Space), Clock(), c);
    CatAvoids(day, Cat(Plus(Space), Clock()), c);
    CatAvoids(Plus(Space), Cat(day, Cat(Plus(Space), Clock())), c);
  }

  lemma BoundedAvoid(c: char)
    requires Separator(c)
    ensures Avoids(UnixMillis(), c) && Avoids(UnixSeconds(), c) && Avoids(TimeMillis(), c) && Avoids(TimeOnly(), c)
  {
    DigitsAvoid(c);
    SeparatorIsNot(c);
    var millis := Cat(Chr(AnyOf(".,")), Plus(Digit));
    assert Avoids(Cat(C('.'), Plus(Digit)), c) && Avoids(millis, c);
    CatAvoids(D(10), Cat(C('.'), Plus(Digit)), c);
    CatAvoids(Clock(), millis, c);
    BodyAvoids(Cat(D(10), Cat(C('.'), Plus(Digit))), c);
    BodyAvoids(D(10), c);
    BodyAvoids(Cat(Clock(), millis), c);
    BodyAvoids(Clock(), c);
  }

  lemma BodyAvoids(body: Re, c: char)
    requires Avoids(body, c)
    ensures Avoids(Bounded(body), c)
  {
    CatAvoids(body, WordBoundary, c);
  }

  lemma PatternsAvoid(c: char)
    requires Separator(c)
    ensures forall k | 0 <= k < |TimestampPatterns()| :: Avoids(TimestampPatterns()[k], c)
  {
    DateTimesAvoid(c);
    SyslogAvoids(c);
    BoundedAvoid(c);
    PatternNames();
  }

  lemma NextSplits(line: string, a: string, c: char, b: string, k: nat)
    requires Separator(c) && k < |TimestampPatterns()|
    requires AfterPasses(line, k) == AfterPasses(a, k) + ([c] + AfterPasses(b, k))
    ensures AfterPasses(line, k + 1) == AfterPasses(a, k + 1) + ([c] + AfterPasses(b, k + 1))
  {
    PatternsAvoid(c);
    NextPass(line, k);
    NextPass(a, k);
    NextPass(b, k);
    PassSplits(TimestampPatterns()[k], AfterPasses(a, k), c, AfterPasses(b, k));
  }

  lemma {:induction false} PassesSplit(a: string, c: char, b: string, n: nat)
    requires Separator(c) && n <= |TimestampPatterns()|
    ensures AfterPasses(a + ([c] + b), n) == AfterPasses(a, n) + ([c] + AfterPasses(b, n))
  {
    if n > 0 {
      PassesSplit(a, c, b, n - 1);
      NextSplits(a + ([c] + b), a, c, b, n - 1);
    }
  }

  /** A line can be split at the character: its two sides are normalised separately, whatever they are. */
  ghost predicate Splits(c: char) {
    forall a, b :: Normalized(a + ([c] + b)) == Normalized(a) + ([c] + Normalized(b))
  }

  lemma SeparatorsSplit(c: char)
    requires Separator(c)
    ensures Splits(c)
  {
    forall a, b ensures Normalized(a + ([c] + b)) == Normalized(a) + ([c] + Normalized(b)) {
      PassesSplit(a, c, b, |TimestampPatterns()|);
    }
  }

  // ---------- Other characters do not split ----------

  /** Inside a timestamp. */
  lemma InsideTimestamp(a: string, c: char, b: string)
    requires Normalized(a + ([c] + b)) == TIME_TOKEN && c !in TIME_TOKEN
    ensures !Splits(c)
  {
    var t := Normalized(a) + ([c] + Normalized(b));
    assert t[|Normalized(a)|] == c;
  }

  lemma ErasedText(t: string)
    requires IsTimestamp(t, 0, |t|) && !(TimeMillisText(t) && |t| == 19)
    ensures Normalized(t) == TIME_TOKEN
  {
    WholeTimestampErased(t);
  }

  const ZULU := "2025-07-07T13:59:39Z"
  const AHEAD := "2025-07-07T13:59:39+02:00"

  lemma IsoExamples()
    ensures Normalized(ZULU) == TIME_TOKEN && Normalized(AHEAD) == TIME_TOKEN
  {
    ZuluAt();
    AheadAt();
    IsoErasedText(ZULU);
    IsoErasedText(AHEAD);
  }

  lemma ZuluAt()
    ensures ErasureLimit.IsoAt(ZULU, 0, 19, |ZULU|)
  {
    ErasureLimit.HeadParts();
    assert |ZULU| == 20 && ErasureLimit.IsoAt(ZULU, 0, 19, 20);
  }

  lemma AheadAt()
    ensures ErasureLimit.IsoAt(AHEAD, 0, 19, |AHEAD|)
  {
    ErasureLimit.HeadParts();
    assert |AHEAD| == 25 && ErasureLimit.IsoAt(AHEAD, 0, 19, 25);
  }

  lemma IsoErasedText(t: string)
    requires ErasureLimit.IsoAt(t, 0, 19, |t|)
    ensures Normalized(t) == TIME_TOKEN
  {
    ErasureLimit.IsoAtIsText(t, 0, 19, |t|);
    assert t[0..|t|] == t;
    ErasedText(t);
  }

  lemma ClockFits(t: string)
    requires t == "13:59:39"
    ensures Fits(CLOCK, t)
  {
    assert |CLOCK| == 8 && CLOCK[2] == Lit(':') && CLOCK[5] == Lit(':');
    assert forall m | 0 <= m < 8 && m != 2 && m != 5 :: CLOCK[m] == Digit;
  }

  lemma DateFits(t: string)
    requires t == "2025-07-07"
    ensures Fits(DATE, t)
  {
    assert |DATE| == 10 && DATE[4] == Lit('-') && DATE[7] == Lit('-');
    assert forall m | 0 <= m < 10 && m != 4 && m != 7 :: DATE[m] == Digit;
  }

  lemma ClockIsText(v: string)
    requires v == "13:59:39"
    ensures ClockText(v)
  {
    ClockFits(v[..8]);
    assert |CLOCK| == 8 && v[8..] == "";
    assert FractionText(v[8..][..0]) && OptionalOffsetText(v[8..][0..]);
  }

  lemma SpacedIsText(u: string)
    requires |u| == 9 && In(Space, u[0]) && u[1..] == "13:59:39"
    ensures SpacedClockText(u)
  {
    ClockIsText(u[1..]);
    assert u[..1] == [u[0]] && Spaces(u[..1]);
  }

  lemma CommonExample(c: char)
    requires In(Space, c)
    ensures Normalized("2025-07-07" + ([c] + "13:59:39")) == TIME_TOKEN
  {
    var t := "2025-07-07" + ([c] + "13:59:39");
    DateFits(t[..10]);
    assert |DATE| == 10 && t[10..] == [c] + "13:59:39";
    SpacedIsText(t[10..]);
    assert CommonText(t) && t[0..|t|] == t;
    NoTimeMillis(t);
    ErasedText(t);
  }

  lemma NoTimeMillis(t: string)
    requires |t| > 2 && t[2] != ':'
    ensures !TimeMillisText(t)
  {
    var template := CLOCK + [AnyOf(".,")];
    assert |template| == 9 && template[2] == Lit(':');
    if |t| >= 9 { assert t[..9][2] == t[2]; }
  }

  lemma TimeExample(c: char)
    requires c in ".,"
    ensures Normalized("13:59:39" + ([c] + "1")) == TIME_TOKEN
  {
    var t := "13:59:39" + ([c] + "1");
    ClockFits(t[..8]);
    assert |CLOCK + [AnyOf(".,")]| == 9;
    assert t[..9] == "13:59:39" + [c] && t[..9][..8] == "13:59:39" && t[..9][8..] == [c];
    FitsConcat(CLOCK, [AnyOf(".,")], t[..9]);
    assert t[9..] == "1" && Digits(t[9..]);
    assert TimeMillisText(t);
    assert t[0..|t|] == t && Alone(t, 0, |t|);
    ErasedText(t);
  }

  /** A word character next to a time of day. */
  lemma NextToTime(c: char)
    requires IsWord(c)
    ensures !Splits(c)
  {
    var t := "13:59:39" + ([c] + "");
    NotErased(c);
    ClockFits("13:59:39");
    assert "13:59:39"[0..8] == "13:59:39" && Alone("13:59:39", 0, 8);
    ErasedText("13:59:39");
    assert Normalized(t)[0] == '1';
  }

  lemma NotErased(c: char)
    requires IsWord(c)
    ensures Normalized("13:59:39" + ([c] + "")) == "13:59:39" + ([c] + "")
  {
    var t := "13:59:39" + ([c] + "");
    forall k | 0 <= k < 7 ensures NoMatch(TimestampPatterns()[k], t) {
      PatternNames();
      if k < 6 { Longer(); TooShort(TimestampPatterns()[k], t); } else { NoTimeBefore(c); }
    }
    FixedExactlyInNormalForm(t);
  }

  lemma Longer()
    ensures forall k | 0 <= k < 6 :: MinLen(TimestampPatterns()[k]) > 9
  {
    DateShape();
    ClockShape();
    PatternNames();
  }

  lemma NoTimeBefore(c: char)
    requires IsWord(c)
    ensures NoMatch(TimeOnly(), "13:59:39" + ([c] + ""))
  {
    var t := "13:59:39" + ([c] + "");
    forall i: nat, j: nat | i <= |t| ensures !Matches(TimeOnly(), t, i, j) {
      TimeOnlyMatches(t, i, j);
      if i <= j <= |t| && PlainClockText(t[i..j]) {
        assert i + 8 == j && t[i..i + 8] == t[i..j];
        ClockChars(t, i);
        assert i == 0 && WordAt(t, 8);
      }
    }
  }

  /** A character splits every line exactly if it is a separator. */
  lemma SplitsExactly(c: char)
    ensures Splits(c) <==> Separator(c)
  {
    if Separator(c) {
      SeparatorsSplit(c);
    } else if IsWord(c) {
      NextToTime(c);
    } else if In(Space, c) {
      CommonExample(c);
      InsideTimestamp("2025-07-07", c, "13:59:39");
    } else if c in ".," {
      TimeExample(c);
      InsideTimestamp("13:59:39", c, "1");
    } else {
      PunctuationInside(c);
    }
  }

  lemma PunctuationInside(c: char)
    requires c in "-:+"
    ensures !Splits(c)
  {
    IsoExamples();
    if c == '-' {
      assert "2025" + ([c] + "07-07T13:59:39Z") == ZULU;
      InsideTimestamp("2025", c, "07-07T13:59:39Z");
    } else if c == ':' {
      assert "2025-07-07T13" + ([c] + "59:39Z") == ZULU;
      InsideTimestamp("2025-07-07T13", c, "59:39Z");
    } else {
      assert "2025-07-07T13:59:39" + ([c] + "02:00") == AHEAD;
      InsideTimestamp("2025-07-07T13:59:39", c, "02:00");
    }
  }

  // ---------- Timestamps between separators ----------

  /** Nothing stands before or behind, or a separator. */
  predicate SeparatedBefore(pre: string) { pre == [] || Separator(pre[|pre| - 1]) }

  predicate SeparatedBehind(post: string) { post == [] || Separator(post[0]) }

  lemma EmptyStays()
    ensures Normalized([]) == []
  {
    forall p | p in TimestampPatterns() ensures NoMatch(p, []) {
      PatternsWellOrdered();
      TooShort(p, []);
    }
    FixedExactlyInNormalForm([]);
  }

  lemma SplitBehind(pre: string, rest: string)
    requires SeparatedBefore(pre)
    ensures Normalized(pre + rest) == Normalized(pre) + Normalized(rest)
  {
    EmptyStays();
    if pre == [] {
      assert pre + rest == rest;
    } else {
      var a, c := pre[..|pre| - 1], pre[|pre| - 1];
      SeparatorsSplit(c);
      assert pre == a + ([c] + []) && pre + rest == a + ([c] + rest);
      assert Normalized(pre) == Normalized(a) + ([c] + Normalized([]));
    }
  }

  lemma SplitBefore(t: string, post: string)
    requires SeparatedBehind(post)
    ensures Normalized(t + post) == Normalized(t) + Normalized(post)
  {
    EmptyStays();
    if post == [] {
      assert t + post == t;
    } else {
      var c, b := post[0], post[1..];
      SeparatorsSplit(c);
      assert post == [] + ([c] + b) && t + post == t + ([c] + b);
      assert Normalized(post) == Normalized([]) + ([c] + Normalized(b));
    }
  }

  /** A timestamp of any of the seven formats that stands between separators becomes one token, whatever the rest of the
      line is, except for a time whose fraction has exactly ten digits. */
  lemma SeparatedTimestampErased(pre: string, t: string, post: string)
    requires SeparatedBefore(pre) && SeparatedBehind(post) && IsTimestamp(t, 0, |t|)
    ensures Normalized(pre + (t + post)) == Normalized(pre) + (TIME_TOKEN + Normalized(post))
       <==> !(TimeMillisText(t) && |t| == 19)
  {
    SplitBehind(pre, t + post);
    SplitBefore(t, post);
    WholeTimestampErased(t);
    var x, y, z := Normalized(pre), Normalized(t), Normalized(post);
    if x + (y + z) == x + (TIME_TOKEN + z) {
      assert y + z == (x + (y + z))[|x|..] == (x + (TIME_TOKEN + z))[|x|..] == TIME_TOKEN + z;
      assert |y| == |TIME_TOKEN|;
      assert y == (y + z)[..|y|] == (TIME_TOKEN + z)[..|y|] == TIME_TOKEN;
    }
  }
}
