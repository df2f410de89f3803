/** Which characters the formats accept, spelled out: the white space and the digits of timestamps, the characters that
    may adjoin a time, and the names of the months. */
module Characters {
  import opened Options
  import opened Replace
  import opened Regex
  import opened Normalize
  import opened Formats
  import opened WholeLines
  import ErasureLimit
  import opened Separators

  // ---------- Lines in which only a time of day can match ----------

  predicate TenFrom(line: string, i: nat) { i + 10 <= |line| && forall m | i <= m < i + 10 :: IsDigit(line[m]) }

  predicate ColonsFrom(line: string, i: nat) { i + 8 <= |line| && line[i + 2] == ':' && line[i + 5] == ':' }

  predicate FractionFrom(line: string, i: nat) { ColonsFrom(line, i) && i + 8 < |line| && line[i + 8] in ".," }

  /** No ten digits in a row, and no clock before a fraction. */
  ghost predicate HasNoNumbers(line: string) { forall i: nat :: !TenFrom(line, i) && !FractionFrom(line, i) }

  lemma TenDigitsFrom(line: string, i: nat, j: nat)
    requires i <= j <= |line| && (UnixMillisText(line[i..j]) || UnixSecondsText(line[i..j]))
    ensures TenFrom(line, i)
  {
    var t := line[i..j];
    assert |TEN| == 10 && forall m | 0 <= m < 10 :: TEN[m] == Digit;
    if UnixMillisText(t) {
      assert |TEN + [Lit('.')]| == 11;
      FitsConcat(TEN, [Lit('.')], t[..11]);
      assert forall m | 0 <= m < 10 :: t[..11][..10][m] == line[i + m];
    }
    forall m | i <= m < i + 10 ensures IsDigit(line[m]) {
      assert In(TEN[m - i], (if UnixMillisText(t) then t[..11][..10] else t)[m - i]);
    }
  }

  lemma ClockColons(line: string, i: nat)
    requires i + 8 <= |line| && Fits(CLOCK, line[i..i + 8])
    ensures ColonsFrom(line, i) && IsDigit(line[i + 7])
  {
    var t := line[i..i + 8];
    assert |CLOCK| == 8 && CLOCK[2] == Lit(':') && CLOCK[5] == Lit(':') && CLOCK[7] == Digit;
    assert In(CLOCK[2], t[2]) && In(CLOCK[5], t[5]) && In(CLOCK[7], t[7]);
  }

  lemma FractionOf(line: string, i: nat, j: nat)
    requires i <= j <= |line| && TimeMillisText(line[i..j])
    ensures FractionFrom(line, i)
  {
    var t := line[i..j];
    assert |CLOCK| == 8 && |CLOCK + [AnyOf(".,")]| == 9;
    FitsConcat(CLOCK, [AnyOf(".,")], t[..9]);
    var u := t[..9];
    assert |t| >= 9 && forall m | 0 <= m < 9 :: u[m] == line[i + m];
    assert u[..8] == line[i..i + 8];
    assert In([AnyOf(".,")][0], u[8..][0]);
    ClockColons(line, i);
  }

  lemma ColonsOf(line: string, i: nat, j: nat)
    requires i <= j <= |line| && PlainClockText(line[i..j])
    ensures j == i + 8 && ColonsFrom(line, i) && IsDigit(line[i + 7])
  {
    assert |CLOCK| == 8 && line[i..j] == line[i..i + 8];
    ClockColons(line, i);
  }

  lemma NoNumbers(line: string)
    requires HasNoNumbers(line)
    ensures NoMatch(UnixMillis(), line) && NoMatch(UnixSeconds(), line) && NoMatch(TimeMillis(), line)
  {
    forall i: nat, j: nat | i <= |line|
      ensures !Matches(UnixMillis(), line, i, j) && !Matches(UnixSeconds(), line, i, j)
      ensures !Matches(TimeMillis(), line, i, j)
    {
      UnixMillisMatches(line, i, j);
      UnixSecondsMatches(line, i, j);
      TimeMillisMatches(line, i, j);
      if i <= j <= |line| && (UnixMillisText(line[i..j]) || UnixSecondsText(line[i..j])) { TenDigitsFrom(line, i, j); }
      if i <= j <= |line| && TimeMillisText(line[i..j]) { FractionOf(line, i, j); }
    }
  }

  /** A clock needs its colons. */
  lemma NoTimeAt(line: string, i: nat, j: nat)
    requires i <= |line| && !ColonsFrom(line, i)
    ensures !Matches(TimeOnly(), line, i, j)
  {
    TimeOnlyMatches(line, i, j);
    if i <= j <= |line| && PlainClockText(line[i..j]) { ColonsOf(line, i, j); }
  }

  lemma NoneAt(line: string, i: nat)
    requires i <= |line| && !ColonsFrom(line, i)
    ensures Preferred(TimeOnly(), line)(i).None?
  {
    var es := Ends(TimeOnly(), line, i);
    if es != [] {
      NoTimeAt(line, i, es[0]);
      assert Matches(TimeOnly(), line, i, es[0]);
    }
  }

  /** Up to the first time, such a line is left alone. */
  lemma StartStays(line: string, n: nat)
    requires n <= |line| && forall k | 0 <= k < 6 :: NoMatch(TimestampPatterns()[k], line)
    requires forall i: nat | i < n :: !ColonsFrom(line, i)
    ensures n <= |Normalized(line)| && Normalized(line)[..n] == line[..n]
  {
    var r := TimeOnly();
    UntouchedBefore(line, 6);
    PatternNames();
    NextPass(line, 6);
    PreferredProgress(r, line);
    forall i: nat | i < n ensures Preferred(r, line)(i).None? { NoneAt(line, i); }
    ScanCopies(Preferred(r, line), TIME_TOKEN, line, 0, n);
  }

  lemma WithoutDates(line: string, n: nat)
    requires NoMatch(IsoDateTime(), line) && NoMatch(CommonDateTime(), line) && NoMatch(Syslog(), line)
    requires n <= |line| && HasNoNumbers(line) && forall i: nat | i < n :: !ColonsFrom(line, i)
    ensures n <= |Normalized(line)| && Normalized(line)[..n] == line[..n]
  {
    NoNumbers(line);
    PatternNames();
    StartStays(line, n);
  }

  lemma DatesAreLong()
    ensures MinLen(CommonDateTime()) == 19 && MinLen(Syslog()) == 14
  {
    DateShape();
    ClockShape();
    assert MinLen(Cat(Chr(Digit), Opt(Chr(Digit)))) == 1;
    MonthsAreLong();
  }

  lemma MonthsAreLong()
    ensures MinLen(Months()) == 3
  {
    assert MinLen(JanToJun()) == 3 && MinLen(JulToDec()) == 3;
  }

  // ---------- White space ----------

  lemma DateAndTime(line: string, c: char)
    requires line == "2025-07-07" + ([c] + "13:59:39")
    ensures |line| == 19 && line[0] == '2' && HasNoNumbers(line) && !ColonsFrom(line, 0)
    ensures !In(Space, c) ==> forall m | 0 <= m < |line| :: !In(Space, line[m])
  {
    assert !IsDigit(line[4]) && !IsDigit(line[7]) && !IsDigit(line[13]);
    forall i: nat ensures !TenFrom(line, i) {
      var m := if i <= 4 then 4 else if i <= 7 then 7 else 13;
      assert i + 10 <= |line| ==> i <= m < i + 10;
    }
  }

  lemma NoSpaceNoDate(line: string)
    requires |line| < 20 && forall m | 0 <= m < |line| :: !In(Space, line[m])
    ensures NoMatch(IsoDateTime(), line) && NoMatch(CommonDateTime(), line) && NoMatch(Syslog(), line)
  {
    ErasureLimit.IsoLength();
    TooShort(IsoDateTime(), line);
    SyslogNeeds();
    NeededMissing(CommonDateTime(), Space, line);
    NeededMissing(Syslog(), Space, line);
  }

  lemma OtherBetween(c: char)
    requires !In(Space, c)
    ensures Normalized("2025-07-07" + ([c] + "13:59:39")) != TIME_TOKEN
  {
    var line := "2025-07-07" + ([c] + "13:59:39");
    DateAndTime(line, c);
    NoSpaceNoDate(line);
    WithoutDates(line, 1);
    assert Normalized(line)[..1][0] == '2';
  }

  /** Between date and time stands a tab, newline, form feed, carriage return or blank, and nothing else. */
  lemma SpaceExactly(c: char)
    ensures Normalized("2025-07-07" + ([c] + "13:59:39")) == "<TIME>"
       <==> c == '\t' || c == '\n' || c as int == 12 || c == '\r' || c == ' '
  {
    if In(Space, c) { CommonExample(c); } else { OtherBetween(c); }
  }

  // ---------- Digits ----------

  lemma LastDigit(c: char)
    requires IsDigit(c)
    ensures Normalized("13:59:3" + [c]) == TIME_TOKEN
  {
    var t := "13:59:3" + [c];
    assert |CLOCK| == 8 && CLOCK[2] == Lit(':') && CLOCK[5] == Lit(':');
    assert forall m | 0 <= m < 8 && m != 2 && m != 5 :: CLOCK[m] == Digit;
    assert Fits(CLOCK, t) && t[0..|t|] == t && Alone(t, 0, |t|);
    ErasedText(t);
  }

  lemma NoLastDigit(c: char)
    requires !IsDigit(c)
    ensures Normalized("13:59:3" + [c]) != TIME_TOKEN
  {
    var t := "13:59:3" + [c];
    forall k | 0 <= k < 7 ensures NoMatch(TimestampPatterns()[k], t) {
      PatternNames();
      Longer();
      if k < 6 { TooShort(TimestampPatterns()[k], t); } else { NoTimeIn(c); }
    }
    FixedExactlyInNormalForm(t);
  }

  lemma NoTimeIn(c: char)
    requires !IsDigit(c)
    ensures NoMatch(TimeOnly(), "13:59:3" + [c])
  {
    var t := "13:59:3" + [c];
    forall i: nat, j: nat | i <= |t| ensures !Matches(TimeOnly(), t, i, j) {
      TimeOnlyMatches(t, i, j);
      if i <= j <= |t| && PlainClockText(t[i..j]) { ColonsOf(t, i, j); }
    }
  }

  /** A time ends in one of the ten digits. */
  lemma DigitExactly(c: char)
    ensures Normalized("13:59:3" + [c]) == "<TIME>" <==> '0' <= c <= '9'
  {
    if IsDigit(c) { LastDigit(c); } else { NoLastDigit(c); }
  }

  // ---------- Word characters ----------

  /** ASCII letters, digits and the underscore. */
  predicate WordCharacter(c: char) { '0' <= c <= '9' || 'a' <= c <= 'z' || 'A' <= c <= 'Z' || c == '_' }

  lemma TimeMatchesAt(line: string, i: nat)
    requires i + 8 <= |line| && line[i..i + 8] == "13:59:39" && Alone(line, i, i + 8)
    ensures Preferred(TimeOnly(), line)(i) == Some(i + 8)
  {
    ClockFits(line[i..i + 8]);
    TimeOnlyMatches(line, i, i + 8);
    var e := Ends(TimeOnly(), line, i)[0];
    assert Matches(TimeOnly(), line, i, e);
    TimeOnlyMatches(line, i, e);
    assert |CLOCK| == 8;
  }

  lemma OnlyTimePass(line: string)
    requires |line| == 9
    ensures MinLen(TimeOnly()) > 0 && Normalized(line) == ReplaceAll(TimeOnly(), line)
  {
    forall k | 0 <= k < 6 ensures NoMatch(TimestampPatterns()[k], line) {
      Longer();
      PatternNames();
      TooShort(TimestampPatterns()[k], line);
    }
    UntouchedBefore(line, 6);
    PatternNames();
    NextPass(line, 6);
  }

  lemma ReplacedBefore(c: char)
    requires !IsWord(c)
    ensures Normalized("13:59:39" + [c]) == TIME_TOKEN + [c]
  {
    var line := "13:59:39" + [c];
    OnlyTimePass(line);
    assert line[0..8] == "13:59:39";
    TimeMatchesAt(line, 0);
    PreferredProgress(TimeOnly(), line);
    var f := Preferred(TimeOnly(), line);
    var head, next := ScanStep(f, TIME_TOKEN, line, 0);
    NoTimeAfter(line, 8);
    ScanNothing(f, TIME_TOKEN, line, 8);
  }

  lemma NoTimeAfter(line: string, n: nat)
    requires |line| == 9 && 2 <= n
    ensures forall k: nat | n <= k <= |line| :: Preferred(TimeOnly(), line)(k).None?
  {
    forall k: nat | n <= k <= |line| ensures Preferred(TimeOnly(), line)(k).None? { NoneAt(line, k); }
  }

  lemma ReplacedBehind(c: char)
    requires !IsWord(c)
    ensures Normalized([c] + "13:59:39") == [c] + TIME_TOKEN
  {
    var line := [c] + "13:59:39";
    OnlyTimePass(line);
    assert line[1..9] == "13:59:39";
    TimeMatchesAt(line, 1);
    PreferredProgress(TimeOnly(), line);
    var f := Preferred(TimeOnly(), line);
    NoneAt(line, 0);
    var head, next := ScanStep(f, TIME_TOKEN, line, 0);
    var head', next' := ScanStep(f, TIME_TOKEN, line, 1);
  }

  lemma NotReplacedBehind(c: char)
    requires IsWord(c)
    ensures Normalized([c] + "13:59:39") == [c] + "13:59:39"
  {
    var line := [c] + "13:59:39";
    OnlyTimePass(line);
    forall i: nat, j: nat | i <= |line| ensures !Matches(TimeOnly(), line, i, j) {
      if i != 1 {
        NoTimeAt(line, i, j);
      } else {
        TimeOnlyMatches(line, i, j);
        assert WordAt(line, 0);
      }
    }
    ReplaceNothing(TimeOnly(), line);
  }

  /** A time stands alone exactly if no letter, digit or underscore adjoins it. */
  lemma WordExactly(c: char)
    ensures Normalized("13:59:39" + [c]) == "<TIME>" + [c] <==> !WordCharacter(c)
    ensures Normalized([c] + "13:59:39") == [c] + "<TIME>" <==> !WordCharacter(c)
  {
    if IsWord(c) {
      NotErased(c);
      NotReplacedBehind(c);
      assert [c] + "" == [c];
      assert ("13:59:39" + [c])[0] != ("<TIME>" + [c])[0] && ([c] + "13:59:39")[1] != ([c] + "<TIME>")[1];
    } else {
      ReplacedBefore(c);
      ReplacedBehind(c);
    }
  }

  // ---------- Months ----------

  lemma MonthStarts(w: string)
    requires w in MONTHS
    ensures Normalized(w + " 7 13:59:39") == TIME_TOKEN
  {
    var t := w + " 7 13:59:39";
    MonthWord(w);
    assert t[..3] == w && t[3..] == " 7 13:59:39";
    AfterMonth(t[3..]);
    assert MonthText(t[..3]) && SpacesDayText(t[3..]) && SyslogText(t);
    assert t[0..|t|] == t;
    ErasedText(t);
  }

  lemma AfterMonth(u: string)
    requires u == " 7 13:59:39"
    ensures SpacesDayText(u)
  {
    var v := u[1..];
    var w := v[1..];
    assert u[..1] == " " && Spaces(u[..1]);
    assert v == "7 13:59:39" && v[..1] == "7" && DayText(v[..1]);
    assert w == " 13:59:39" && w[..1] == " " && w[1..] == "13:59:39" && Spaces(w[..1]);
    ClockFits(w[1..]);
    assert SpacesClockText(w) && DayClockText(v);
  }

  lemma SyslogHasMonth(t: string)
    requires SyslogText(t)
    ensures |t| >= 3 && t[..3] in MONTHS
  {
    var k :| 0 <= k <= |t| && MonthText(t[..k]) && SpacesDayText(t[k..]);
    MonthWord(t[..k]);
  }

  lemma NoMonthNoSyslog(t: string)
    requires |t| == 14 && t[..3] !in MONTHS
    ensures NoMatch(Syslog(), t)
  {
    DatesAreLong();
    SyslogMeans();
    forall i: nat, j: nat | i <= |t| ensures !Matches(Syslog(), t, i, j) {
      if Matches(Syslog(), t, i, j) {
        MinLenHolds(Syslog(), t, i, j);
        assert t[i..j] == t;
        SyslogHasMonth(t);
      }
    }
  }

  lemma WordAndTime(t: string, w: string)
    requires |w| == 3 && t == w + " 7 13:59:39"
    ensures |t| == 14 && t[..3] == w && t[3] == ' ' && HasNoNumbers(t) && forall i: nat | i < 4 :: !ColonsFrom(t, i)
  {
    assert t[3] == ' ' && t[5] == ' ' && t[8] == ':' && t[11] == ':' && t[4] == '7';
    forall i: nat ensures !TenFrom(t, i) {
      assert i + 10 <= |t| ==> i <= 5 < i + 10 && !IsDigit(t[5]);
    }
  }

  lemma NoMonthStarts(w: string)
    requires |w| == 3 && w !in MONTHS
    ensures Normalized(w + " 7 13:59:39") != TIME_TOKEN
  {
    var t := w + " 7 13:59:39";
    WordAndTime(t, w);
    ErasureLimit.IsoLength();
    DatesAreLong();
    TooShort(IsoDateTime(), t);
    TooShort(CommonDateTime(), t);
    NoMonthNoSyslog(t);
    WithoutDates(t, 4);
    assert Normalized(t)[..4][3] == ' ';
  }

  /** The month is one of these twelve names. */
  lemma MonthExactly(w: string)
    requires |w| == 3
    ensures Normalized(w + " 7 13:59:39") == "<TIME>"
       <==> w in ["Jan", "Feb", "Mar", "Apr", "May", "Jun", "Jul", "Aug", "Sep", "Oct", "Nov", "Dec"]
  {
    if w in MONTHS { MonthStarts(w); } else { NoMonthStarts(w); }
  }
}
