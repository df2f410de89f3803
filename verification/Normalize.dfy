/** The log-line normaliser: seven timestamp patterns, each replaced everywhere by `<TIME>`, in a fixed
    order. The main result is that the output is a joint normal form of all seven patterns, although each
    pass changes the text and the word boundaries that the other patterns look at. */
module Normalize {
  import opened Options
  import opened Regex
  import opened Replace

  // ---------- The patterns ----------

  function D(n: nat): Re { Rep(Digit, n) }

  function C(c: char): Re { Chr(Lit(c)) }

  function Date(): Re { Cat(D(4), Cat(C('-'), Cat(D(2), Cat(C('-'), D(2))))) }

  function Clock(): Re { Cat(D(2), Cat(C(':'), Cat(D(2), Cat(C(':'), D(2))))) }

  function Fraction(): Re { Opt(Cat(C('.'), Plus(Digit))) }

  function NumericOffset(): Re { Cat(Chr(AnyOf("+-")), Cat(D(2), Cat(C(':'), D(2)))) }

  function Bounded(body: Re): Re { Cat(WordBoundary, Cat(body, WordBoundary)) }

  function IsoDateTime(): Re {
    Cat(Date(), Cat(C('T'), Cat(Clock(), Cat(Fraction(), Alt(C('Z'), NumericOffset())))))
  }

  function CommonDateTime(): Re {
    Cat(Date(), Cat(Plus(Space), Cat(Clock(), Cat(Fraction(), Opt(NumericOffset())))))
  }

  function JanToJun(): Re {
    Alt(Str("Jan"), Alt(Str("Feb"), Alt(Str("Mar"), Alt(Str("Apr"), Alt(Str("May"), Str("Jun"))))))
  }

  function JulToDec(): Re {
    Alt(Str("Jul"), Alt(Str("Aug"), Alt(Str("Sep"), Alt(Str("Oct"), Alt(Str("Nov"), Str("Dec"))))))
  }

  function Months(): Re { Alt(JanToJun(), JulToDec()) }

  function Syslog(): Re {
    Cat(Months(), Cat(Plus(Space), Cat(Cat(Chr(Digit), Opt(Chr(Digit))), Cat(Plus(Space), Clock()))))
  }

  function UnixMillis(): Re { Bounded(Cat(D(10), Cat(C('.'), Plus(Digit)))) }

  function UnixSeconds(): Re { Bounded(D(10)) }

  function TimeMillis(): Re { Bounded(Cat(Clock(), Cat(Chr(AnyOf(".,")), Plus(Digit)))) }

  function TimeOnly(): Re { Bounded(Clock()) }

  function TimestampPatterns(): seq<Re> {
    [IsoDateTime(), CommonDateTime(), Syslog(), UnixMillis(), UnixSeconds(), TimeMillis(), TimeOnly()]
  }

  // ---------- What the proof needs of the patterns ----------

  /** No match can overlap an inserted token: it holds no angle bracket and does not fit between them. */
  predicate Safe(r: Re) { Avoids(r, '<') && Avoids(r, '>') && MinLen(r) >= 5 }

  /** A later pass `later` cannot make `earlier` match anew. */
  predicate Independent(earlier: Re, later: Re) {
    ContextFree(earlier) || (Delimited(earlier) && Delimited(later))
  }

  /** The first `n` patterns look at the matched text only; the others are delimited on both sides. */
  ghost predicate WellOrdered(ps: seq<Re>, n: nat) {
    && (forall k | 0 <= k < |ps| :: Safe(ps[k]))
    && (forall k | 0 <= k < |ps| :: if k < n then ContextFree(ps[k]) else Delimited(ps[k]))
  }

  predicate Plain(r: Re) { Avoids(r, '<') && Avoids(r, '>') && ContextFree(r) }

  lemma DateShape() ensures Plain(Date()) && MinLen(Date()) == 10 {}

  lemma ClockShape() ensures Plain(Clock()) && MinLen(Clock()) == 8 && StartsWord(Clock()) && EndsWord(Clock()) {}

  lemma FractionShape() ensures Plain(Fraction()) {}

  lemma OffsetShape() ensures Plain(NumericOffset()) {}

  lemma CatPlain(a: Re, b: Re)
    requires Plain(a) && Plain(b)
    ensures Plain(Cat(a, b)) && Plain(Alt(a, b)) && Plain(Opt(a)) && MinLen(Cat(a, b)) == MinLen(a) + MinLen(b)
  {
  }

  lemma IsoShape()
    ensures Safe(IsoDateTime()) && ContextFree(IsoDateTime())
  {
    DateShape(); ClockShape(); FractionShape(); OffsetShape();
    var zone := Alt(C('Z'), NumericOffset());
    CatPlain(C('Z'), NumericOffset());
    CatPlain(Fraction(), zone);
    CatPlain(Clock(), Cat(Fraction(), zone));
    CatPlain(C('T'), Cat(Clock(), Cat(Fraction(), zone)));
    CatPlain(Date(), Cat(C('T'), Cat(Clock(), Cat(Fraction(), zone))));
  }

  lemma CommonShape()
    ensures Safe(CommonDateTime()) && ContextFree(CommonDateTime())
  {
    DateShape(); ClockShape(); FractionShape(); OffsetShape();
    var rest := Cat(Fraction(), Opt(NumericOffset()));
    CatPlain(NumericOffset(), Clock());
    CatPlain(Fraction(), Opt(NumericOffset()));
    CatPlain(Clock(), rest);
    CatPlain(Plus(Space), Cat(Clock(), rest));
    CatPlain(Date(), Cat(Plus(Space), Cat(Clock(), rest)));
  }

  lemma JanToJunShape() ensures Plain(JanToJun()) {}

  lemma JulToDecShape() ensures Plain(JulToDec()) {}

  lemma SyslogShape()
    ensures Safe(Syslog()) && ContextFree(Syslog())
  {
    JanToJunShape(); JulToDecShape(); ClockShape();
    CatPlain(JanToJun(), JulToDec());
    var day := Cat(Chr(Digit), Opt(Chr(Digit)));
    CatPlain(Plus(Space), Clock());
    CatPlain(day, Cat(Plus(Space), Clock()));
    CatPlain(Plus(Space), Cat(day, Cat(Plus(Space), Clock())));
    CatPlain(Months(), Cat(Plus(Space), Cat(day, Cat(Plus(Space), Clock()))));
  }

  lemma UnixMillisShape() ensures Safe(UnixMillis()) && Delimited(UnixMillis()) {}

  lemma UnixSecondsShape() ensures Safe(UnixSeconds()) && Delimited(UnixSeconds()) {}

  lemma TimeMillisShape()
    ensures Safe(TimeMillis()) && Delimited(TimeMillis())
  {
    ClockShape();
    CatPlain(Clock(), Cat(Chr(AnyOf(".,")), Plus(Digit)));
  }

  lemma TimeOnlyShape()
    ensures Safe(TimeOnly()) && Delimited(TimeOnly())
  {
    ClockShape();
  }

  lemma PatternsWellOrdered()
    ensures WellOrdered(TimestampPatterns(), 3)
  {
    IsoShape();
    CommonShape();
    SyslogShape();
    UnixMillisShape();
    UnixSecondsShape();
    TimeMillisShape();
    TimeOnlyShape();
  }

  // ---------- One pass ----------

  /** A match of `q` in the output of a pass with `r` overlaps no token, so its text was copied. */
  lemma MatchIsCopied(r: Re, q: Re, s: string, i: nat, j: nat) returns (p: nat)
    requires MinLen(r) > 0 && Safe(q)
    requires i <= |ReplaceAll(r, s)| && Matches(q, ReplaceAll(r, s), i, j)
    ensures i + 5 <= j <= |ReplaceAll(r, s)|
    ensures CopiedFrom(Preferred(r, s), s, 0, ReplaceAll(r, s), i, ReplaceAll(r, s)[i..j], p)
  {
    PreferredProgress(r, s);
    var out := ReplaceAll(r, s);
    AvoidsHolds(q, '<', out, i, j);
    AvoidsHolds(q, '>', out, i, j);
    MinLenHolds(q, out, i, j);
    p := Locate(Preferred(r, s), s, 0, i, out[i..j]);
  }

  lemma CopiedText(s: string, p: nat, out: string, i: nat, j: nat)
    requires i <= j <= |out| && At(s, p, out[i..j])
    ensures SameText(false, out, i, j, s, p, p + (j - i))
  {
    forall k | i <= k < j ensures out[k] == s[k - i + p] {
      assert out[k] == out[i..j][k - i] == s[p..p + (j - i)][k - i];
    }
  }

  /** Next to a token stands no word character, and neither does one next to a match it replaced. */
  lemma SameNeighbours(r: Re, f: Finder, q: Re, s: string, out: string, i: nat, j: nat, p: nat)
    requires Delimited(r) && Delimited(q)
    requires f == Preferred(r, s) && i < j <= |out| && Matches(q, out, i, j)
    requires CopiedFrom(f, s, 0, out, i, out[i..j], p)
    ensures SameText(true, out, i, j, s, p, p + (j - i))
  {
    var e := p + (j - i);
    DelimitedHolds(q, out, i, j);
    CopiedText(s, p, out, i, j);
    assert s[p] == out[i] && s[e - 1] == out[j - 1];
    if i > 0 && out[i - 1] != s[p - 1] {
      var m: nat :| m < p && f(m) == Some(p);
      DelimitedHolds(r, s, m, p);
      assert false;
    }
    if j < |out| && out[j] != s[e] {
      DelimitedHolds(r, s, e, Ends(r, s, e)[0]);
      assert false;
    }
  }

  /** Every match of `q` in the output of a pass with `r` was already there in the input, at a position
      where `r` did not match. */
  lemma OldMatch(r: Re, q: Re, s: string, i: nat, j: nat) returns (p: nat)
    requires Safe(r) && Safe(q) && Independent(q, r)
    requires i <= |ReplaceAll(r, s)| && Matches(q, ReplaceAll(r, s), i, j)
    ensures p <= |s| && Ends(r, s, p) == [] && Matches(q, s, p, p + (j - i))
  {
    var out := ReplaceAll(r, s);
    p := MatchIsCopied(r, q, s, i, j);
    var e := p + (j - i);
    if ContextFree(q) {
      CopiedText(s, p, out, i, j);
    } else {
      SameNeighbours(r, Preferred(r, s), q, s, out, i, j, p);
    }
    MatchesSameText(q, out, i, j, s, p, e);
  }

  /** One pass removes all matches of its own pattern, tokens included. */
  lemma PassRemoves(r: Re, s: string)
    requires Safe(r) && Independent(r, r)
    ensures NoMatch(r, ReplaceAll(r, s))
  {
    var out := ReplaceAll(r, s);
    forall i: nat, j: nat | i <= |out| ensures !Matches(r, out, i, j) {
      if Matches(r, out, i, j) { var p := OldMatch(r, r, s, i, j); }
    }
  }

  /** A later pass brings no match of an earlier pattern back. */
  lemma PassPreserves(r: Re, q: Re, s: string)
    requires Safe(r) && Safe(q) && Independent(q, r) && NoMatch(q, s)
    ensures NoMatch(q, ReplaceAll(r, s))
  {
    var out := ReplaceAll(r, s);
    forall i: nat, j: nat | i <= |out| ensures !Matches(q, out, i, j) {
      if Matches(q, out, i, j) { var p := OldMatch(r, q, s, i, j); }
    }
  }

  // ---------- The normaliser ----------

  /** The line after the first `n` passes. */
  function AfterPasses(line: string, n: nat): string
    requires n <= |TimestampPatterns()|
  {
    if n == 0 then line
    else
      PatternsWellOrdered();
      ReplaceAll(TimestampPatterns()[n - 1], AfterPasses(line, n - 1))
  }

  function Normalized(line: string): string { AfterPasses(line, |TimestampPatterns()|) }

  ghost predicate NormalForm(line: string) {
    forall p | p in TimestampPatterns() :: NoMatch(p, line)
  }

  /** After the passes up to any point, the patterns applied so far have no match left. */
  lemma {:induction false} PassesReachNormalForm(line: string, n: nat)
    requires n <= |TimestampPatterns()|
    ensures forall k | 0 <= k < n :: NoMatch(TimestampPatterns()[k], AfterPasses(line, n))
  {
    if n > 0 {
      var ps := TimestampPatterns();
      PatternsWellOrdered();
      var before := AfterPasses(line, n - 1);
      PassesReachNormalForm(line, n - 1);
      PassRemoves(ps[n - 1], before);
      forall k | 0 <= k < n - 1 ensures NoMatch(ps[k], AfterPasses(line, n)) {
        PassPreserves(ps[n - 1], ps[k], before);
      }
    }
  }

  lemma OutputInNormalForm(line: string)
    ensures NormalForm(Normalized(line))
  {
    PassesReachNormalForm(line, |TimestampPatterns()|);
  }

  method NormalizeTimestamps(line: string) returns (out: string)
    ensures out == Normalized(line)
    ensures NormalForm(out)
  {
    var patterns := TimestampPatterns();
    PatternsWellOrdered();
    out := line;
    for n := 0 to |patterns|
      invariant out == AfterPasses(line, n)
    {
      out := ReplaceAll(patterns[n], out);
    }
    OutputInNormalForm(line);
  }

  lemma {:induction false} NormalFormFixed(line: string, n: nat)
    requires NormalForm(line) && n <= |TimestampPatterns()|
    ensures AfterPasses(line, n) == line
  {
    if n > 0 {
      NormalFormFixed(line, n - 1);
      PatternsWellOrdered();
      ReplaceNothing(TimestampPatterns()[n - 1], line);
    }
  }

  /** A line is left alone exactly when it is in normal form; normalising twice is normalising once. */
  lemma FixedExactlyInNormalForm(line: string)
    ensures Normalized(line) == line <==> NormalForm(line)
    ensures Normalized(Normalized(line)) == Normalized(line)
  {
    OutputInNormalForm(line);
    if NormalForm(line) { NormalFormFixed(line, |TimestampPatterns()|); }
    NormalFormFixed(Normalized(line), |TimestampPatterns()|);
  }
}
