/** Date-times of section 5.6 of RFC 3339 are erased: whatever the instant, its fraction and its offset,
    the normaliser sees the same line. */
module Erasure {
  import opened Options
  import opened Regex
  import opened Replace
  import opened Normalize

  // ---------- Cutting a line where a pattern cannot match across ----------

  /** Matches of `r` that start left of a character `r` avoids do not depend on what follows it. */
  lemma {:induction false} EndsCut(r: Re, s: string, n: nat, i: nat)
    requires ContextFree(r) && i < n <= |s| && Avoids(r, s[n - 1])
    ensures Ends(r, s, i) == Ends(r, s[..n], i)
    ensures forall e | e in Ends(r, s, i) :: e < n
    decreases r, 0, n - i
  {
    match r
    case Chr(k) =>
    case Str(w) =>
      if i + |w| < n { assert s[i..][..|w|] == s[..n][i..][..|w|]; }
    case Rep(k, m) =>
    case Plus(k) => if In(k, s[i]) { EndsCut(r, s, n, i + 1); }
    case Cat(a, b) =>
      EndsCut(a, s, n, i);
      ThenCut(b, s, n, Ends(a, s, i), i);
    case Alt(a, b) => EndsCut(a, s, n, i); EndsCut(b, s, n, i);
    case Opt(a) => EndsCut(a, s, n, i);
  }

  lemma {:induction false} ThenCut(r: Re, s: string, n: nat, es: seq<nat>, lo: nat)
    requires ContextFree(r) && 0 < n <= |s| && Avoids(r, s[n - 1])
    requires forall e | e in es :: lo <= e < n
    ensures Then(r, s, es, lo) == Then(r, s[..n], es, lo)
    ensures forall e | e in Then(r, s, es, lo) :: e < n
    decreases r, 1, |es|
  {
    if es != [] {
      assert es[0] in es && forall e | e in es[1..] :: e in es;
      EndsCut(r, s, n, es[0]);
      ThenCut(r, s, n, es[1..], lo);
    }
  }

  function Shift(es: seq<nat>, n: nat): seq<nat> { seq(|es|, k requires 0 <= k < |es| => es[k] + n) }

  lemma ShiftConcat(es: seq<nat>, fs: seq<nat>, n: nat)
    ensures Shift(es + fs, n) == Shift(es, n) + Shift(fs, n)
  {
  }

  lemma RunShift(k: Class, a: string, b: string, i: nat, m: nat)
    ensures Run(k, a + b, |a| + i, m) == Run(k, b, i, m)
  {
    if Run(k, a + b, |a| + i, m) {
      forall x | i <= x < i + m ensures In(k, b[x]) { assert In(k, (a + b)[|a| + x]); }
    }
  }

  lemma WordShift(w: string, a: string, b: string, i: nat)
    requires i <= |b|
    ensures Ends(Str(w), a + b, |a| + i) == Shift(Ends(Str(w), b, i), |a|)
  {
    assert (a + b)[|a| + i..] == b[i..];
  }

  lemma PlusShift(k: Class, a: string, b: string, i: nat)
    requires i <= |b| && (i < |b| ==> Ends(Plus(k), a + b, |a| + (i + 1)) == Shift(Ends(Plus(k), b, i + 1), |a|))
    ensures Ends(Plus(k), a + b, |a| + i) == Shift(Ends(Plus(k), b, i), |a|)
  {
    if i < |b| {
      assert (a + b)[|a| + i] == b[i];
      ShiftConcat(Ends(Plus(k), b, i + 1), [i + 1], |a|);
    }
  }

  lemma AltShift(x: Re, y: Re, a: string, b: string, i: nat)
    requires i <= |b|
    requires Ends(x, a + b, |a| + i) == Shift(Ends(x, b, i), |a|)
             && Ends(y, a + b, |a| + i) == Shift(Ends(y, b, i), |a|)
    ensures Ends(Alt(x, y), a + b, |a| + i) == Shift(Ends(Alt(x, y), b, i), |a|)
  {
    ShiftConcat(Ends(x, b, i), Ends(y, b, i), |a|);
  }

  lemma OptShift(x: Re, a: string, b: string, i: nat)
    requires i <= |b| && Ends(x, a + b, |a| + i) == Shift(Ends(x, b, i), |a|)
    ensures Ends(Opt(x), a + b, |a| + i) == Shift(Ends(Opt(x), b, i), |a|)
  {
    ShiftConcat(Ends(x, b, i), [i], |a|);
  }

  /** A pattern with word boundaries may see the last character of `a`, unless that is no word character. */
  predicate Unseen(r: Re, a: string) { ContextFree(r) || a == [] || !IsWord(a[|a| - 1]) }

  lemma BoundaryShift(a: string, b: string, i: nat)
    requires i <= |b| && (a == [] || !IsWord(a[|a| - 1]))
    ensures Boundary(a + b, |a| + i) == Boundary(b, i)
  {
  }

  /** Then it does not see what stands before its match. */
  lemma {:induction false} EndsShift(r: Re, a: string, b: string, i: nat)
    requires Unseen(r, a) && i <= |b|
    ensures Ends(r, a + b, |a| + i) == Shift(Ends(r, b, i), |a|)
    decreases r, 0, |b| - i
  {
    match r
    case Chr(k) =>
    case Str(w) => WordShift(w, a, b, i);
    case Rep(k, m) => RunShift(k, a, b, i, m);
    case Plus(k) =>
      if i < |b| { EndsShift(r, a, b, i + 1); }
      PlusShift(k, a, b, i);
    case Cat(x, y) =>
      EndsShift(x, a, b, i);
      ThenShift(y, a, b, Ends(x, b, i), i);
    case Alt(x, y) =>
      EndsShift(x, a, b, i);
      EndsShift(y, a, b, i);
      AltShift(x, y, a, b, i);
    case Opt(x) =>
      EndsShift(x, a, b, i);
      OptShift(x, a, b, i);
    case WordBoundary => BoundaryShift(a, b, i);
  }

  lemma {:induction false} ThenShift(r: Re, a: string, b: string, es: seq<nat>, lo: nat)
    requires Unseen(r, a) && forall e | e in es :: lo <= e <= |b|
    ensures forall e | e in Shift(es, |a|) :: |a| + lo <= e <= |a + b|
    ensures Then(r, a + b, Shift(es, |a|), |a| + lo) == Shift(Then(r, b, es, lo), |a|)
    decreases r, 1, |es|
  {
    forall e | e in Shift(es, |a|) ensures |a| + lo <= e <= |a + b| {
      var k :| 0 <= k < |es| && e == es[k] + |a|;
      assert es[k] in es;
    }
    if es != [] {
      assert es[0] in es && forall e | e in es[1..] :: e in es;
      EndsShift(r, a, b, es[0]);
      ThenShift(r, a, b, es[1..], lo);
      assert Shift(es, |a|)[1..] == Shift(es[1..], |a|);
      ShiftConcat(Ends(r, b, es[0]), Then(r, b, es[1..], lo), |a|);
    }
  }

  /** `pre` is empty or ends in a character that no match of `r` contains. */
  predicate CleanCut(r: Re, pre: string) { pre == [] || Avoids(r, pre[|pre| - 1]) }

  lemma EndsBeforeCut(r: Re, pre: string, rest: string, i: nat)
    requires ContextFree(r) && CleanCut(r, pre) && i < |pre|
    ensures Ends(r, pre + rest, i) == Ends(r, pre, i)
  {
    EndsCut(r, pre + rest, |pre|, i);
    assert (pre + rest)[..|pre|] == pre;
  }

  lemma PreferredAt(r: Re, a: string, b: string, k: nat)
    requires Unseen(r, a) && k <= |b|
    ensures var f, g := Preferred(r, a + b)(|a| + k), Preferred(r, b)(k);
            f == if g.None? then None else Some(|a| + g.value)
  {
    EndsShift(r, a, b, k);
  }

  /** The preferred matches of two sides of a clean cut, seen from the whole text. */
  lemma PreferredShift(r: Re, a: string, b: string)
    requires Unseen(r, a)
    ensures forall k: nat {:trigger Preferred(r, b)(k)} | k <= |b| ::
              Preferred(r, a + b)(|a| + k) ==
              if Preferred(r, b)(k).None? then None else Some(|a| + Preferred(r, b)(k).value)
  {
    forall k: nat | k <= |b|
      ensures Preferred(r, a + b)(|a| + k) ==
              if Preferred(r, b)(k).None? then None else Some(|a| + Preferred(r, b)(k).value)
    {
      PreferredAt(r, a, b, k);
    }
  }

  /** Replacement acts on the two sides of a clean cut separately. */
  lemma ReplaceAllCut(r: Re, pre: string, rest: string)
    requires ContextFree(r) && MinLen(r) > 0 && CleanCut(r, pre)
    ensures ReplaceAll(r, pre + rest) == ReplaceAll(r, pre) + ReplaceAll(r, rest)
  {
    PreferredProgress(r, pre + rest);
    PreferredProgress(r, pre);
    PreferredProgress(r, rest);
    PreferredShift(r, pre, rest);
    forall k: nat | k < |pre| ensures Preferred(r, pre + rest)(k) == Preferred(r, pre)(k) {
      EndsBeforeCut(r, pre, rest, k);
    }
    ScanCut(Preferred(r, pre + rest), Preferred(r, pre), Preferred(r, rest), TIME_TOKEN, pre, rest, 0);
  }

  /** A match of the whole of `a` at the start of a line becomes one token. */
  lemma ReplaceAllLeading(r: Re, a: string, b: string)
    requires ContextFree(r) && MinLen(r) > 0 && a != []
    requires Ends(r, a + b, 0) != [] && Ends(r, a + b, 0)[0] == |a|
    ensures ReplaceAll(r, a + b) == TIME_TOKEN + ReplaceAll(r, b)
  {
    PreferredProgress(r, a + b);
    PreferredProgress(r, b);
    PreferredShift(r, a, b);
    ScanLeading(Preferred(r, a + b), Preferred(r, b), TIME_TOKEN, a, b);
  }

  // ---------- RFC 3339 ----------

  datatype Offset = Zulu | Numeric(sign: char, hour: nat, minute: nat)

  /** date-time = full-date "T" full-time, with upper-case letters; `fraction` holds the digits of
      time-secfrac, none if it is absent. Days are bounded by 31 whatever the month. */
  datatype DateTime = DateTime(
    year: nat, month: nat, day: nat, hour: nat, minute: nat, second: nat, fraction: string, offset: Offset)
  {
    ghost predicate Valid() {
      && year <= 9999 && 1 <= month <= 12 && 1 <= day <= 31
      && hour <= 23 && minute <= 59 && second <= 60
      && (forall c | c in fraction :: IsDigit(c))
      && (offset.Numeric? ==> offset.sign in "+-" && offset.hour <= 23 && offset.minute <= 59)
    }
  }

  function DigitChar(n: nat): (c: char)
    requires n <= 9
    ensures IsDigit(c)
  {
    ('0' as int + n) as char
  }

  function Two(n: nat): string
    requires n <= 99
  {
    [DigitChar(n / 10), DigitChar(n % 10)]
  }

  function Four(n: nat): string
    requires n <= 9999
  {
    Two(n / 100) + Two(n % 100)
  }

  function PrintOffset(o: Offset): string
    requires o.Numeric? ==> o.hour <= 23 && o.minute <= 59
  {
    match o
    case Zulu => "Z"
    case Numeric(sign, h, m) => [sign] + (Two(h) + ([':'] + Two(m)))
  }

  function PrintFraction(digits: string): string { if digits == [] then [] else ['.'] + digits }

  function PrintDate(t: DateTime): string
    requires t.Valid()
  {
    Four(t.year) + (['-'] + (Two(t.month) + (['-'] + Two(t.day))))
  }

  function PrintClock(t: DateTime): string
    requires t.Valid()
  {
    Two(t.hour) + ([':'] + (Two(t.minute) + ([':'] + Two(t.second))))
  }

  function Print(t: DateTime): string
    requires t.Valid()
  {
    PrintDate(t) + (['T'] + (PrintClock(t) + (PrintFraction(t.fraction) + PrintOffset(t.offset))))
  }

  lemma AtConcat(s: string, i: nat, u: string, v: string)
    requires At(s, i, u + v)
    ensures At(s, i, u) && At(s, i + |u|, v)
  {
    assert s[i..i + |u + v|][..|u|] == s[i..i + |u|];
    assert s[i..i + |u + v|][|u|..] == s[i + |u|..i + |u| + |v|];
  }

  lemma AtIndex(s: string, i: nat, u: string, k: nat)
    requires At(s, i, u) && k < |u|
    ensures s[i + k] == u[k] && u[k] in u
  {
    assert s[i..i + |u|][k] == s[i + k];
  }

  /** Where `u` stands, `r` consumes it, and nothing else is tried. */
  ghost predicate Eats(r: Re, u: string) {
    forall s: string, i: nat {:trigger Ends(r, s, i)} | At(s, i, u) :: Ends(r, s, i) == [i + |u|]
  }

  lemma EatsChar(k: Class, c: char)
    requires In(k, c)
    ensures Eats(Chr(k), [c])
  {
    forall s: string, i: nat | At(s, i, [c]) ensures Ends(Chr(k), s, i) == [i + 1] { AtIndex(s, i, [c], 0); }
  }

  lemma EatsDigits(n: nat, u: string)
    requires |u| == n && forall c | c in u :: IsDigit(c)
    ensures Eats(D(n), u)
  {
    forall s: string, i: nat | At(s, i, u) ensures Ends(D(n), s, i) == [i + n] {
      forall m | i <= m < i + n ensures In(Digit, s[m]) { AtIndex(s, i, u, m - i); }
    }
  }

  lemma ThenOne(q: Re, s: string, e: nat, lo: nat)
    requires lo <= e <= |s|
    ensures Then(q, s, [e], lo) == Ends(q, s, e)
  {
    assert [e][1..] == [];
  }

  lemma EatsAt(r: Re, u: string, s: string, i: nat)
    requires Eats(r, u) && At(s, i, u)
    ensures Ends(r, s, i) == [i + |u|]
  {
  }

  /** If the first half can end in one place only, a concatenation goes on there. */
  lemma ThenOnly(r: Re, q: Re, s: string, i: nat, e: nat)
    requires i <= |s| && i <= e <= |s| && Ends(r, s, i) == [e]
    ensures Ends(Cat(r, q), s, i) == Ends(q, s, e)
  {
    ThenOne(q, s, e, i);
  }

  lemma EatsCat(r: Re, q: Re, u: string, v: string)
    requires Eats(r, u) && Eats(q, v)
    ensures Eats(Cat(r, q), u + v)
  {
    forall s: string, i: nat | At(s, i, u + v) ensures Ends(Cat(r, q), s, i) == [i + |u + v|] {
      AtConcat(s, i, u, v);
      EatsAt(r, u, s, i);
      EatsAt(q, v, s, i + |u|);
      ThenOnly(r, q, s, i, i + |u|);
    }
  }

  lemma EatsDate(t: DateTime)
    requires t.Valid()
    ensures Eats(Date(), PrintDate(t))
  {
    EatsDigits(4, Four(t.year)); EatsDigits(2, Two(t.month)); EatsDigits(2, Two(t.day));
    EatsChar(Lit('-'), '-');
    EatsCat(C('-'), D(2), ['-'], Two(t.day));
    EatsCat(D(2), Cat(C('-'), D(2)), Two(t.month), ['-'] + Two(t.day));
    EatsCat(C('-'), Cat(D(2), Cat(C('-'), D(2))), ['-'], Two(t.month) + (['-'] + Two(t.day)));
    EatsCat(D(4), Cat(C('-'), Cat(D(2), Cat(C('-'), D(2)))),
            Four(t.year), ['-'] + (Two(t.month) + (['-'] + Two(t.day))));
  }

  lemma EatsClock(t: DateTime)
    requires t.Valid()
    ensures Eats(Clock(), PrintClock(t))
  {
    EatsDigits(2, Two(t.hour)); EatsDigits(2, Two(t.minute)); EatsDigits(2, Two(t.second));
    EatsChar(Lit(':'), ':');
    EatsCat(C(':'), D(2), [':'], Two(t.second));
    EatsCat(D(2), Cat(C(':'), D(2)), Two(t.minute), [':'] + Two(t.second));
    EatsCat(C(':'), Cat(D(2), Cat(C(':'), D(2))), [':'], Two(t.minute) + ([':'] + Two(t.second)));
    EatsCat(D(2), Cat(C(':'), Cat(D(2), Cat(C(':'), D(2)))),
            Two(t.hour), [':'] + (Two(t.minute) + ([':'] + Two(t.second))));
  }

  function Zone(): Re { Alt(C('Z'), NumericOffset()) }

  lemma StuckAt(k: Class, q: Re, s: string, i: nat)
    requires i <= |s| && (i < |s| ==> !In(k, s[i]))
    ensures Ends(Cat(Chr(k), q), s, i) == []
  {
  }

  lemma EatsNumericOffset(o: Offset)
    requires o.Numeric? && o.sign in "+-" && o.hour <= 23 && o.minute <= 59
    ensures Eats(NumericOffset(), PrintOffset(o))
  {
    EatsDigits(2, Two(o.hour)); EatsDigits(2, Two(o.minute));
    EatsChar(Lit(':'), ':'); EatsChar(AnyOf("+-"), o.sign);
    EatsCat(C(':'), D(2), [':'], Two(o.minute));
    EatsCat(D(2), Cat(C(':'), D(2)), Two(o.hour), [':'] + Two(o.minute));
    EatsCat(Chr(AnyOf("+-")), Cat(D(2), Cat(C(':'), D(2))), [o.sign], Two(o.hour) + ([':'] + Two(o.minute)));
  }

  lemma EatsZone(o: Offset)
    requires o.Numeric? ==> o.sign in "+-" && o.hour <= 23 && o.minute <= 59
    ensures Eats(Zone(), PrintOffset(o))
  {
    if o.Numeric? { EatsNumericOffset(o); }
    var u := PrintOffset(o);
    forall s: string, i: nat | At(s, i, u) ensures Ends(Zone(), s, i) == [i + |u|] {
      AtIndex(s, i, u, 0);
      if o.Zulu? { StuckAt(AnyOf("+-"), Cat(D(2), Cat(C(':'), D(2))), s, i); }
      assert Ends(Zone(), s, i) == Ends(C('Z'), s, i) + Ends(NumericOffset(), s, i);
    }
  }

  /** \d+ in front of a non-digit tries the whole run of digits first. */
  lemma {:induction false} DigitsFirst(s: string, i: nat, n: nat)
    requires 0 < n && Run(Digit, s, i, n) && (i + n < |s| ==> !IsDigit(s[i + n]))
    ensures Ends(Plus(Digit), s, i) != [] && Ends(Plus(Digit), s, i)[0] == i + n
    decreases n
  {
    if n > 1 { DigitsFirst(s, i + 1, n - 1); }
  }

  /** The first end of a concatenation stems from the first end of its first half, if the second half goes on
      there. */
  lemma FirstOfCat(r: Re, q: Re, s: string, i: nat)
    requires i <= |s| && Ends(r, s, i) != [] && Ends(r, s, i)[0] <= |s| && Ends(q, s, Ends(r, s, i)[0]) != []
    ensures Ends(Cat(r, q), s, i) != [] && Ends(Cat(r, q), s, i)[0] == Ends(q, s, Ends(r, s, i)[0])[0]
  {
  }

  /** An optional fraction in front of a non-digit, other than a dot, is taken in full. */
  lemma FractionFirst(s: string, i: nat, digits: string)
    requires At(s, i, PrintFraction(digits)) && forall c | c in digits :: IsDigit(c)
    requires var after := i + |PrintFraction(digits)|;
             after < |s| ==> !IsDigit(s[after]) && s[after] != '.'
    ensures Ends(Fraction(), s, i) != [] && Ends(Fraction(), s, i)[0] == i + |PrintFraction(digits)|
  {
    if digits == [] {
      StuckAt(Lit('.'), Plus(Digit), s, i);
    } else {
      var after := i + 1 + |digits|;
      AtIndex(s, i, PrintFraction(digits), 0);
      forall m | i + 1 <= m < after ensures In(Digit, s[m]) {
        AtIndex(s, i, PrintFraction(digits), m - i);
        assert s[m] == digits[m - i - 1] && digits[m - i - 1] in digits;
      }
      DigitsFirst(s, i + 1, |digits|);
      FirstOfCat(C('.'), Plus(Digit), s, i);
    }
  }

  lemma FractionThen(s: string, i: nat, digits: string, z: string, q: Re)
    requires At(s, i, PrintFraction(digits) + z) && (forall c | c in digits :: IsDigit(c))
    requires z != [] && !IsDigit(z[0]) && z[0] != '.'
    requires var e := i + |PrintFraction(digits)|; e <= |s| && Ends(q, s, e) == [e + |z|]
    ensures var es := Ends(Cat(Fraction(), q), s, i); es != [] && es[0] == i + |PrintFraction(digits)| + |z|
  {
    var f := PrintFraction(digits);
    AtConcat(s, i, f, z);
    AtIndex(s, i + |f|, z, 0);
    FractionFirst(s, i, digits);
    FirstOfCat(Fraction(), q, s, i);
  }

  lemma OffsetStarts(o: Offset)
    requires o.Numeric? ==> o.sign in "+-" && o.hour <= 23 && o.minute <= 59
    ensures PrintOffset(o) != [] && !IsDigit(PrintOffset(o)[0]) && PrintOffset(o)[0] != '.'
  {
  }

  lemma FractionThenZone(s: string, i: nat, t: DateTime)
    requires t.Valid() && At(s, i, PrintFraction(t.fraction) + PrintOffset(t.offset))
    ensures var es := Ends(Cat(Fraction(), Zone()), s, i);
            es != [] && es[0] == i + |PrintFraction(t.fraction)| + |PrintOffset(t.offset)|
  {
    var z := PrintOffset(t.offset);
    AtConcat(s, i, PrintFraction(t.fraction), z);
    OffsetStarts(t.offset);
    EatsZone(t.offset);
    EatsAt(Zone(), z, s, i + |PrintFraction(t.fraction)|);
    FractionThen(s, i, t.fraction, z, Zone());
  }

  lemma ThenOnlyThree(r1: Re, r2: Re, r3: Re, q: Re, s: string, i0: nat, i1: nat, i2: nat, i3: nat)
    requires i0 <= i1 <= i2 <= i3 <= |s|
    requires Ends(r1, s, i0) == [i1] && Ends(r2, s, i1) == [i2] && Ends(r3, s, i2) == [i3]
    ensures Ends(Cat(r1, Cat(r2, Cat(r3, q))), s, i0) == Ends(q, s, i3)
  {
    ThenOnly(r1, Cat(r2, Cat(r3, q)), s, i0, i1);
    ThenOnly(r2, Cat(r3, q), s, i1, i2);
    ThenOnly(r3, q, s, i2, i3);
  }

  /** The date, the T and the clock of a date-time are each matched in one way. */
  lemma DateTAndClock(s: string, i: nat, t: DateTime, v: string)
    requires t.Valid() && At(s, i, PrintDate(t) + (['T'] + (PrintClock(t) + v)))
    ensures var i1 := i + |PrintDate(t)|;
            var i3 := i1 + 1 + |PrintClock(t)|;
            At(s, i3, v) && Ends(Date(), s, i) == [i1] && Ends(C('T'), s, i1) == [i1 + 1]
                && Ends(Clock(), s, i1 + 1) == [i3]
  {
    var d, c := PrintDate(t), PrintClock(t);
    var i1 := i + |d|;
    EatsDate(t);
    EatsChar(Lit('T'), 'T');
    EatsClock(t);
    AtConcat(s, i, d, ['T'] + (c + v));
    AtConcat(s, i1, ['T'], c + v);
    AtConcat(s, i1 + 1, c, v);
    EatsAt(Date(), d, s, i);
    EatsAt(C('T'), ['T'], s, i1);
    EatsAt(Clock(), c, s, i1 + 1);
  }

  /** The first pattern consumes every date-time exactly, fraction and offset included. */
  lemma IsoConsumesDateTime(s: string, i: nat, t: DateTime)
    requires t.Valid() && At(s, i, Print(t))
    ensures Ends(IsoDateTime(), s, i) != [] && Ends(IsoDateTime(), s, i)[0] == i + |Print(t)|
  {
    var v := PrintFraction(t.fraction) + PrintOffset(t.offset);
    var i1 := i + |PrintDate(t)|;
    var i3 := i1 + 1 + |PrintClock(t)|;
    DateTAndClock(s, i, t, v);
    ThenOnlyThree(Date(), C('T'), Clock(), Cat(Fraction(), Zone()), s, i, i1, i1 + 1, i3);
    FractionThenZone(s, i3, t);
  }

  /** A text that is matched as a whole behind a clean cut becomes one token. */
  lemma MiddleErased(r: Re, pre: string, u: string, post: string)
    requires ContextFree(r) && MinLen(r) > 0 && CleanCut(r, pre) && u != []
    requires Ends(r, u + post, 0) != [] && Ends(r, u + post, 0)[0] == |u|
    ensures ReplaceAll(r, pre + u + post) == ReplaceAll(r, pre) + TIME_TOKEN + ReplaceAll(r, post)
  {
    Assoc(pre, u, post);
    ReplaceAllCut(r, pre, u + post);
    ReplaceAllLeading(r, u, post);
    Assoc(ReplaceAll(r, pre), TIME_TOKEN, ReplaceAll(r, post));
  }

  lemma FirstPassErases(pre: string, t: DateTime, post: string)
    requires t.Valid() && CleanCut(IsoDateTime(), pre)
    ensures MinLen(IsoDateTime()) > 0
    ensures ReplaceAll(IsoDateTime(), pre + Print(t) + post)
         == ReplaceAll(IsoDateTime(), pre) + TIME_TOKEN + ReplaceAll(IsoDateTime(), post)
  {
    IsoShape();
    PrintedFirst(t, post);
    MiddleErased(IsoDateTime(), pre, Print(t), post);
  }

  lemma PrintedFirst(t: DateTime, post: string)
    requires t.Valid()
    ensures var es := Ends(IsoDateTime(), Print(t) + post, 0); Print(t) != [] && es != [] && es[0] == |Print(t)|
  {
    assert At(Print(t) + post, 0, Print(t));
    IsoConsumesDateTime(Print(t) + post, 0, t);
  }

  lemma {:induction false} SameAfterFirstPass(x: string, y: string, n: nat)
    requires 0 < n <= |TimestampPatterns()| && AfterPasses(x, 1) == AfterPasses(y, 1)
    ensures AfterPasses(x, n) == AfterPasses(y, n)
  {
    if n > 1 { SameAfterFirstPass(x, y, n - 1); }
  }

  /** Two lines that differ in one date-time only normalise to the same line, provided that the text before it
      is empty or ends in a character that cannot belong to a date-time of the first pattern. */
  lemma DateTimesErased(pre: string, t: DateTime, u: DateTime, post: string)
    requires t.Valid() && u.Valid() && CleanCut(IsoDateTime(), pre)
    ensures Normalized(pre + Print(t) + post) == Normalized(pre + Print(u) + post)
  {
    FirstPassErases(pre, t, post);
    FirstPassErases(pre, u, post);
    var x, y := pre + Print(t) + post, pre + Print(u) + post;
    assert AfterPasses(x, 0) == x && AfterPasses(y, 0) == y;
    assert TimestampPatterns()[0] == IsoDateTime();
    SameAfterFirstPass(x, y, |TimestampPatterns()|);
  }
}
