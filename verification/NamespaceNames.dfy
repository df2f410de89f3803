/** The names of the namespaces that check runs are cloned into. Namespaces, suffixes and check types are ASCII. */
module NamespaceNames {
  const MAX_BASE := 45
  const MAX_NAME := 63

  function LowerChar(c: char): char { if 'A' <= c <= 'Z' then (c as int + 32) as char else c }

  function Lower(s: string): string { seq(|s|, i requires 0 <= i < |s| => LowerChar(s[i])) }

  function Take(s: string, n: int): string { if n <= 0 then "" else if |s| <= n then s else s[..n] }

  function GenerateTargetNamespaceName(base: string, suffix: string, checkType: string): string {
    Take(Lower(Take(base, MAX_BASE) + "-" + suffix + "-" + checkType), MAX_NAME)
  }

  /** How many characters of the check type fit into the name. */
  function Room(base: string, suffix: string): int { MAX_NAME - (|Take(base, MAX_BASE)| + |suffix| + 2) }

  lemma LowerConcat(a: string, b: string)
    ensures Lower(a + b) == Lower(a) + Lower(b)
  {
  }

  lemma TakeConcat(a: string, b: string, n: int)
    ensures Take(a + b, n) == if |a| <= n then a + Take(b, n - |a|) else Take(a, n)
  {
  }

  lemma NameParts(base: string, suffix: string, checkType: string)
    ensures var prefix := Lower(Take(base, MAX_BASE) + "-" + suffix + "-");
            && |prefix| == MAX_NAME - Room(base, suffix)
            && GenerateTargetNamespaceName(base, suffix, checkType) ==
                 if Room(base, suffix) >= 0 then prefix + Take(Lower(checkType), Room(base, suffix))
                 else Take(prefix, MAX_NAME)
  {
    var prefix := Take(base, MAX_BASE) + "-" + suffix + "-";
    LowerConcat(prefix, checkType);
    TakeConcat(Lower(prefix), Lower(checkType), MAX_NAME);
  }

  /** Names fit the limit of Kubernetes, and two check types of one resource share a namespace exactly if their
      lower-case forms agree on the characters that there is room for. */
  lemma NamesClashExactly(base: string, suffix: string, s: string, t: string)
    ensures |GenerateTargetNamespaceName(base, suffix, s)| <= MAX_NAME
    ensures GenerateTargetNamespaceName(base, suffix, s) == GenerateTargetNamespaceName(base, suffix, t)
       <==> Take(Lower(s), Room(base, suffix)) == Take(Lower(t), Room(base, suffix))
  {
    NameParts(base, suffix, s);
    NameParts(base, suffix, t);
    var prefix := Lower(Take(base, MAX_BASE) + "-" + suffix + "-");
    var room := Room(base, suffix);
    if room >= 0 && prefix + Take(Lower(s), room) == prefix + Take(Lower(t), room) {
      assert (prefix + Take(Lower(s), room))[|prefix|..] == Take(Lower(s), room);
      assert (prefix + Take(Lower(t), room))[|prefix|..] == Take(Lower(t), room);
    }
  }

  /** Lower case by the alphabet, and nothing else changes. */
  lemma LowerExactly(s: string, i: nat, m: nat)
    requires i < |s| && m < 26
    ensures var upper, lower := "ABCDEFGHIJKLMNOPQRSTUVWXYZ", "abcdefghijklmnopqrstuvwxyz";
            && |Lower(s)| == |s|
            && (s[i] == upper[m] ==> Lower(s)[i] == lower[m])
            && (s[i] !in upper ==> Lower(s)[i] == s[i])
  {
    InAlphabet(s[i]);
    AlphabetAt(m);
  }

  lemma AlphabetAt(m: nat)
    requires m < 26
    ensures "ABCDEFGHIJKLMNOPQRSTUVWXYZ"[m] as int == 'A' as int + m
    ensures "abcdefghijklmnopqrstuvwxyz"[m] as int == 'a' as int + m
  {
  }

  lemma InAlphabet(c: char)
    ensures 'A' <= c <= 'Z' <==> c in "ABCDEFGHIJKLMNOPQRSTUVWXYZ"
  {
    var upper := "ABCDEFGHIJKLMNOPQRSTUVWXYZ";
    forall m | 0 <= m < 26 ensures upper[m] as int == 'A' as int + m { AlphabetAt(m); }
    if 'A' <= c <= 'Z' {
      var m := c as int - 'A' as int;
      assert upper[m] == c;
    }
  }

  /** A name is the namespace, cut to 45 characters, the suffix and the check type, joined by dashes, in lower case and
      cut to 63 characters. */
  lemma NameReads(base: string, suffix: string, checkType: string)
    ensures var cut := if |base| <= 45 then base else base[..45];
            var full := cut + "-" + suffix + "-" + checkType;
            var name := GenerateTargetNamespaceName(base, suffix, checkType);
            && |name| == (if |full| <= 63 then |full| else 63)
            && forall i | 0 <= i < |name| :: name[i] == Lower(full)[i]
  {
  }

  /** The two baseline runs get namespaces of their own exactly if the namespace, cut to 45 characters, and the
      suffix have fewer than 53 characters together. */
  lemma BaselinesApart(base: string, suffix: string)
    ensures GenerateTargetNamespaceName(base, suffix, "baseline") !=
            GenerateTargetNamespaceName(base, suffix, "baseline-2")
       <==> (if |base| < MAX_BASE then |base| else MAX_BASE) + |suffix| < 53
  {
    NamesClashExactly(base, suffix, "baseline", "baseline-2");
    var n := Room(base, suffix);
    assert Lower("baseline") == "baseline" && Lower("baseline-2") == "baseline-2";
    if n >= 9 {
      assert |Take("baseline", n)| == 8 && |Take("baseline-2", n)| >= 9;
    } else if n > 0 {
      assert forall i | 0 <= i < 8 :: "baseline-2"[i] == "baseline"[i];
      assert Take("baseline", n) == Take("baseline-2", n);
    }
  }
}
