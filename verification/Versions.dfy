/** The version order that gates self-update. */
module Versions {
  import opened Text

  /** `Number(part)`; None stands for NaN. Which texts are numbers, and which,
      is left to this function. */
  type Number = string -> Option<real>

  function Part(num: Number, parts: seq<string>, i: nat): real {
    if i < |parts| then num(parts[i]).GetOr(0.0) else 0.0
  }

  predicate SameParts(num: Number, a: seq<string>, b: seq<string>, n: nat) {
    forall i | 0 <= i < n :: Part(num, a, i) == Part(num, b, i)
  }

  /** The first differing part decides; missing parts count as zero. */
  ghost predicate Before(num: Number, a: seq<string>, b: seq<string>) {
    exists i: nat :: SameParts(num, a, b, i) && Part(num, a, i) < Part(num, b, i)
  }

  ghost predicate Equal(num: Number, a: seq<string>, b: seq<string>) {
    forall i: nat :: Part(num, a, i) == Part(num, b, i)
  }

  method CompareVersions(num: Number, a: string, b: string) returns (r: int)
    ensures r == -1 || r == 0 || r == 1
    ensures r == -1 <==> Before(num, Split(a, '.'), Split(b, '.'))
    ensures r == 1 <==> Before(num, Split(b, '.'), Split(a, '.'))
    ensures r == 0 <==> Equal(num, Split(a, '.'), Split(b, '.'))
  {
    var aParts, bParts := Split(a, '.'), Split(b, '.');
    var n := if |aParts| > |bParts| then |aParts| else |bParts|;
    for i := 0 to n
      invariant SameParts(num, aParts, bParts, i)
    {
      var aPart, bPart := Part(num, aParts, i), Part(num, bParts, i);
      if aPart < bPart {
        Trichotomy(num, aParts, bParts);
        return -1;
      }
      if aPart > bPart {
        Trichotomy(num, aParts, bParts);
        assert SameParts(num, bParts, aParts, i);
        return 1;
      }
    }
    assert forall i | i >= n :: Part(num, aParts, i) == 0.0 && Part(num, bParts, i) == 0.0;
    assert Equal(num, aParts, bParts) by {
      forall i: nat ensures Part(num, aParts, i) == Part(num, bParts, i) {
      }
    }
    Trichotomy(num, aParts, bParts);
    return 0;
  }

  lemma {:induction false} FirstDifference(num: Number, a: seq<string>, b: seq<string>, k: nat)
    requires Part(num, a, k) != Part(num, b, k)
    ensures Before(num, a, b) || Before(num, b, a)
  {
    if SameParts(num, a, b, k) {
      assert SameParts(num, b, a, k);
    } else {
      var j :| 0 <= j < k && Part(num, a, j) != Part(num, b, j);
      FirstDifference(num, a, b, j);
    }
  }

  /** Exactly one of before, after and equal holds. */
  lemma Trichotomy(num: Number, a: seq<string>, b: seq<string>)
    ensures Before(num, a, b) || Before(num, b, a) || Equal(num, a, b)
    ensures !(Before(num, a, b) && Before(num, b, a))
    ensures !(Before(num, a, b) && Equal(num, a, b))
  {
    if !Equal(num, a, b) {
      var k: nat :| Part(num, a, k) != Part(num, b, k);
      FirstDifference(num, a, b, k);
    }
  }

  /** No later than: the order of the comparison. */
  ghost predicate NotAfter(num: Number, a: seq<string>, b: seq<string>) {
    Before(num, a, b) || Equal(num, a, b)
  }

  /** A total preorder. */
  lemma TotalPreorder(num: Number, a: seq<string>, b: seq<string>, c: seq<string>)
    ensures NotAfter(num, a, a)
    ensures NotAfter(num, a, b) || NotAfter(num, b, a)
    ensures NotAfter(num, a, b) && NotAfter(num, b, c) ==> NotAfter(num, a, c)
    ensures NotAfter(num, a, b) && NotAfter(num, b, a) <==> Equal(num, a, b)
  {
    Trichotomy(num, a, b);
    assert Equal(num, a, b) ==> Equal(num, b, a);
    assert Equal(num, b, a) ==> Equal(num, a, b);
    Trichotomy(num, b, a);
    if Before(num, a, b) && Before(num, b, c) {
      var i: nat :| SameParts(num, a, b, i) && Part(num, a, i) < Part(num, b, i);
      var j: nat :| SameParts(num, b, c, j) && Part(num, b, j) < Part(num, c, j);
      var k: nat := if i < j then i else j;
      assert SameParts(num, a, c, k) && Part(num, a, k) < Part(num, c, k);
    } else if Before(num, a, b) && Equal(num, b, c) {
      var i: nat :| SameParts(num, a, b, i) && Part(num, a, i) < Part(num, b, i);
      assert SameParts(num, a, c, i);
    } else if Equal(num, a, b) && Before(num, b, c) {
      var i: nat :| SameParts(num, b, c, i) && Part(num, b, i) < Part(num, c, i);
      assert SameParts(num, a, c, i);
    }
  }

  predicate Zeros(num: Number, parts: seq<string>) {
    forall i | 0 <= i < |parts| :: num(parts[i]).GetOr(0.0) == 0.0
  }

  /** Versions are equal exactly when they agree up to trailing parts that count
      as zero. */
  lemma TrailingZeros(num: Number, a: seq<string>, b: seq<string>)
    ensures Equal(num, a, a + b) <==> Zeros(num, b)
  {
    if Zeros(num, b) {
      forall i: nat ensures Part(num, a, i) == Part(num, a + b, i) {
        if |a| <= i < |a + b| {
          assert (a + b)[i] == b[i - |a|];
        }
      }
    } else {
      var i :| 0 <= i < |b| && num(b[i]).GetOr(0.0) != 0.0;
      assert (a + b)[|a| + i] == b[i];
      assert Part(num, a, |a| + i) != Part(num, a + b, |a| + i);
    }
  }

  // ---- The format check ----

  predicate IsNumeral(s: string) {
    s != "" && AllDigits(s)
  }

  /** The characters of `[\w.]`. */
  predicate IsWord(c: char) {
    'a' <= c <= 'z' || 'A' <= c <= 'Z' || IsDigit(c) || c == '_' || c == '.'
  }

  predicate AllWord(s: string) {
    forall i | 0 <= i < |s| :: IsWord(s[i])
  }

  datatype Version = Version(major: string, minor: string, patch: string, pre: Option<string>)

  predicate WellFormed(v: Version) {
    && IsNumeral(v.major) && IsNumeral(v.minor) && IsNumeral(v.patch)
    && (v.pre.Some? ==> v.pre.value != "" && AllWord(v.pre.value))
  }

  function Ending(v: Version): string {
    match v.pre
    case None => v.patch
    case Some(x) => v.patch + "-" + x
  }

  function Show(v: Version): string {
    v.major + "." + (v.minor + "." + Ending(v))
  }

  /** The match of the format check, with its groups. */
  function Parse(s: string): Option<Version> {
    var i := DigitRun(s);
    if i == 0 || i == |s| || s[i] != '.' then None else ParseMinor(s[..i], s[i + 1..])
  }

  function ParseMinor(major: string, s: string): Option<Version> {
    var i := DigitRun(s);
    if i == 0 || i == |s| || s[i] != '.' then None else ParseEnding(major, s[..i], s[i + 1..])
  }

  function ParseEnding(major: string, minor: string, s: string): Option<Version> {
    var i := DigitRun(s);
    if i == 0 then None
    else if i == |s| then Some(Version(major, minor, s, None))
    else if s[i] == '-' && i + 1 < |s| && AllWord(s[i + 1..]) then
      Some(Version(major, minor, s[..i], Some(s[i + 1..])))
    else None
  }

  /** A run of digits ends before a character that is none. */
  lemma NumeralFirst(d: string, c: char, rest: string)
    requires AllDigits(d) && !IsDigit(c)
    ensures var s := d + [c] + rest;
            DigitRun(s) == |d| && s[..|d|] == d && s[|d|] == c && s[|d| + 1..] == rest
  {
    DigitRunIs(d + [c] + rest, |d|);
  }

  lemma EndingShown(v: Version)
    requires WellFormed(v)
    ensures ParseEnding(v.major, v.minor, Ending(v)) == Some(v)
  {
    hide DigitRun;
    match v.pre
    case None =>
      DigitRunIs(v.patch, |v.patch|);
    case Some(x) =>
      NumeralFirst(v.patch, '-', x);
  }

  /** A printed version is read as itself. */
  lemma ParseShow(v: Version)
    requires WellFormed(v)
    ensures Parse(Show(v)) == Some(v)
  {
    hide DigitRun, Ending, ParseEnding;
    NumeralFirst(v.major, '.', v.minor + "." + Ending(v));
    NumeralFirst(v.minor, '.', Ending(v));
    EndingShown(v);
  }

  lemma Around(s: string, k: nat)
    requires 0 < k < |s| && k == DigitRun(s)
    ensures IsNumeral(s[..k]) && s == s[..k] + [s[k]] + s[k + 1..]
  {
    hide DigitRun;
  }

  lemma ShowEnding(major: string, minor: string, s: string)
    requires ParseEnding(major, minor, s).Some?
    ensures var v := ParseEnding(major, minor, s).value;
            && v.major == major && v.minor == minor && Ending(v) == s
            && IsNumeral(v.patch) && (v.pre.Some? ==> v.pre.value != "" && AllWord(v.pre.value))
  {
    hide DigitRun, IsNumeral, AllWord;
    if DigitRun(s) < |s| {
      Around(s, DigitRun(s));
    } else {
      AllRun(s);
    }
  }

  lemma ShowParse(s: string)
    requires Parse(s).Some?
    ensures WellFormed(Parse(s).value) && Show(Parse(s).value) == s
  {
    hide DigitRun, IsNumeral, AllWord, ParseEnding, Ending;
    var i := DigitRun(s);
    var t := s[i + 1..];
    var j := DigitRun(t);
    Around(s, i);
    Around(t, j);
    ShowEnding(s[..i], t[..j], t[j + 1..]);
  }

  lemma AllRun(s: string)
    requires s != "" && DigitRun(s) == |s|
    ensures IsNumeral(s)
  {
  }

  /** The check accepts exactly the printed versions. */
  lemma ParseIff(s: string, v: Version)
    ensures Parse(s) == Some(v) <==> WellFormed(v) && s == Show(v)
  {
    hide Parse, Show, WellFormed;
    if Parse(s).Some? {
      ShowParse(s);
    }
    if WellFormed(v) {
      ParseShow(v);
    }
  }

  // ---- The gate ----

  datatype Verdict = Invalid | Same | Downgrade | Proceed

  /** What the gate lets through without force. */
  ghost predicate Admits(num: Number, current: string, version: string) {
    version != current && !Before(num, Split(version, '.'), Split(current, '.'))
  }

  /** The first checks of `performUpdate`, in their order. */
  method Gate(num: Number, version: string, current: string, force: bool) returns (verdict: Verdict)
    ensures verdict == Invalid <==> forall v | WellFormed(v) :: version != Show(v)
    ensures verdict == Same <==> verdict != Invalid && !force && version == current
    ensures verdict == Downgrade <==>
            verdict != Invalid && !force && version != current && Before(num, Split(version, '.'), Split(current, '.'))
    ensures verdict == Proceed && !force ==> Admits(num, current, version)
  {
    hide Parse, Show, WellFormed;
    forall v ensures Parse(version) == Some(v) <==> WellFormed(v) && version == Show(v) {
      ParseIff(version, v);
    }
    if Parse(version).None? {
      return Invalid;
    }
    if !force && version == current {
      return Same;
    }
    var versionComparison := CompareVersions(num, version, current);
    Trichotomy(num, Split(version, '.'), Split(current, '.'));
    if !force && versionComparison < 0 {
      return Downgrade;
    }
    assert Equal(num, Split(version, '.'), Split(current, '.')) ==>
        Equal(num, Split(current, '.'), Split(version, '.'));
    return Proceed;
  }

  /** A chain of unforced updates: each version was admitted after the one before. */
  ghost predicate Chain(num: Number, versions: seq<string>) {
    forall i | 0 < i < |versions| :: Admits(num, versions[i - 1], versions[i])
  }

  /** Any chain of unforced updates ends no lower than it began. */
  lemma {:induction false} NeverLower(num: Number, versions: seq<string>)
    requires versions != [] && Chain(num, versions)
    ensures NotAfter(num, Split(versions[0], '.'), Split(versions[|versions| - 1], '.'))
  {
    hide Split, Before, Equal;
    var n := |versions| - 1;
    var first, last := Split(versions[0], '.'), Split(versions[n], '.');
    if n == 0 {
      TotalPreorder(num, first, first, first);
    } else {
      NeverLower(num, versions[..n]);
      var prev := Split(versions[n - 1], '.');
      assert Admits(num, versions[n - 1], versions[n]);
      TotalPreorder(num, last, prev, last);
      TotalPreorder(num, prev, last, prev);
      TotalPreorder(num, first, prev, last);
    }
  }
}
