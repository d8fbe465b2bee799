/** The order of the updater against the precedence of section 11 of SemVer
    2.0.0: where the two agree and where they do not. */
module SemVer {
  import opened Text
  import opened Versions
  import Serialised

  // ---- Precedence ----

  function Value(s: string): nat {
    if AllDigits(s) then DecValue(s) else 0
  }

  predicate LineBefore(a: Version, b: Version) {
    Value(a.major) < Value(b.major) || (Value(a.major) == Value(b.major) && Value(a.minor) < Value(b.minor))
  }

  /** The same major and minor version. */
  predicate SameLine(a: Version, b: Version) {
    Value(a.major) == Value(b.major) && Value(a.minor) == Value(b.minor)
  }

  /** Numeric identifiers by value and below the others, which compare as text. */
  predicate IdBefore(x: string, y: string) {
    if IsNumeral(x) && IsNumeral(y) then Value(x) < Value(y)
    else if IsNumeral(x) then true
    else if IsNumeral(y) then false
    else x != y && Serialised.LexLe(x, y)
  }

  /** The first difference decides; otherwise fewer identifiers come first. */
  predicate IdsBefore(xs: seq<string>, ys: seq<string>) {
    if ys == [] then false
    else if xs == [] then true
    else IdBefore(xs[0], ys[0]) || (!IdBefore(ys[0], xs[0]) && IdsBefore(xs[1..], ys[1..]))
  }

  function Identifiers(v: Version): seq<string>
    requires v.pre.Some?
  {
    Split(v.pre.value, '.')
  }

  predicate Precedes(a: Version, b: Version) {
    || LineBefore(a, b)
    || (SameLine(a, b) && Value(a.patch) < Value(b.patch))
    || (SameLine(a, b) && Value(a.patch) == Value(b.patch) && PreBefore(a, b))
  }

  /** A pre-release comes before its release. */
  predicate PreBefore(a: Version, b: Version) {
    a.pre.Some? && (b.pre.Some? ==> IdsBefore(Identifiers(a), Identifiers(b)))
  }

  // ---- The order of the updater ----

  ghost predicate Earlier(num: Number, a: Version, b: Version) {
    Before(num, Split(Show(a), '.'), Split(Show(b), '.'))
  }

  ghost predicate Agree(num: Number, a: Version, b: Version) {
    (Earlier(num, a, b) <==> Precedes(a, b)) && (Earlier(num, b, a) <==> Precedes(b, a))
  }

  /** What `Number` makes of the parts of a valid version: digits are their
      decimal value, a numeral with a hyphen after it is no number, and a part
      without a hyphen is never negative. */
  ghost predicate Sensible(num: Number) {
    && (forall s | IsNumeral(s) :: num(s) == Some(Value(s) as real))
    && (forall d, x | IsNumeral(d) :: num(d + "-" + x) == None)
    && (forall s | AllWord(s) :: num(s).GetOr(0.0) >= 0.0)
  }

  lemma SplitPrefix(x: string, s: string, c: char)
    requires c !in x
    ensures Split(x + s, c) == [x + Split(s, c)[0]] + Split(s, c)[1..]
  {
    hide Split;
    var i := IndexOf(s, c);
    SplitMore(s, c);
    if i == |s| {
      assert c !in x + s;
      SplitNone(x + s, c);
    } else {
      var rest := s[i + 1..];
      assert x + s == x + s[..i] + [c] + rest;
      SplitFirst(x + s[..i], c, rest);
    }
  }

  lemma NumeralNoDot(s: string)
    requires IsNumeral(s)
    ensures '.' !in s
  {
  }

  /** The parts that the updater compares. */
  function Parts(v: Version): seq<string> {
    [v.major, v.minor] + match v.pre
                         case None => [v.patch]
                         case Some(_) => [v.patch + "-" + Identifiers(v)[0]] + Identifiers(v)[1..]
  }

  lemma SplitShow(v: Version)
    requires WellFormed(v)
    ensures Split(Show(v), '.') == Parts(v)
  {
    hide Split, IsNumeral;
    NumeralNoDot(v.major);
    NumeralNoDot(v.minor);
    NumeralNoDot(v.patch);
    SplitFirst(v.major, '.', v.minor + "." + Ending(v));
    SplitFirst(v.minor, '.', Ending(v));
    match v.pre
    case None => SplitNone(v.patch, '.');
    case Some(x) =>
      SplitPrefix(v.patch + "-", x, '.');
      assert Ending(v) == v.patch + "-" + x;
  }

  lemma {:induction false} SplitWords(s: string, c: char)
    requires AllWord(s)
    ensures forall x | x in Split(s, c) :: AllWord(x)
    decreases |s|
  {
    hide Split;
    var i := IndexOf(s, c);
    SplitMore(s, c);
    if i < |s| {
      SplitWords(s[i + 1..], c);
    }
  }

  // ---- Comparing part by part ----

  function At(num: Number, s: string): real {
    num(s).GetOr(0.0)
  }

  lemma BeforeCons(num: Number, x: string, xs: seq<string>, y: string, ys: seq<string>)
    ensures Before(num, [x] + xs, [y] + ys) <==>
            At(num, x) < At(num, y) || (At(num, x) == At(num, y) && Before(num, xs, ys))
  {
    var a, b := [x] + xs, [y] + ys;
    assert forall i: nat :: Part(num, a, i + 1) == Part(num, xs, i) && Part(num, b, i + 1) == Part(num, ys, i);
    assert Part(num, a, 0) == At(num, x) && Part(num, b, 0) == At(num, y);
    if Before(num, a, b) {
      var i: nat :| SameParts(num, a, b, i) && Part(num, a, i) < Part(num, b, i);
      if i > 0 {
        assert SameParts(num, xs, ys, i - 1) by {
          forall j | 0 <= j < i - 1 ensures Part(num, xs, j) == Part(num, ys, j) {
            assert Part(num, a, j + 1) == Part(num, b, j + 1);
          }
        }
        assert Part(num, xs, i - 1) == Part(num, a, i - 1 + 1);
      }
    }
    if At(num, x) < At(num, y) {
      assert SameParts(num, a, b, 0);
    } else if At(num, x) == At(num, y) && Before(num, xs, ys) {
      var i: nat :| SameParts(num, xs, ys, i) && Part(num, xs, i) < Part(num, ys, i);
      assert SameParts(num, a, b, i + 1) by {
        forall j | 0 <= j < i + 1 ensures Part(num, a, j) == Part(num, b, j) {
          assert j > 0 ==> Part(num, a, j - 1 + 1) == Part(num, xs, j - 1);
        }
      }
    }
  }

  /** Against nothing, only a positive part counts. */
  lemma BeforeNothing(num: Number, ys: seq<string>)
    requires forall y | y in ys :: At(num, y) >= 0.0
    ensures Before(num, [], ys) <==> exists y :: y in ys && At(num, y) > 0.0
    ensures !Before(num, ys, []) && !Before(num, [], [])
  {
    forall i: nat ensures Part(num, [], i) == 0.0 && Part(num, ys, i) >= 0.0 {
      assert i < |ys| ==> ys[i] in ys;
    }
    if Before(num, [], ys) {
      var i: nat :| Part(num, [], i) < Part(num, ys, i);
      assert ys[i] in ys && At(num, ys[i]) > 0.0;
    }
    if y :| y in ys && At(num, y) > 0.0 {
      var i :| 0 <= i < |ys| && ys[i] == y;
      assert Part(num, [], i) != Part(num, ys, i);
      FirstDifference(num, [], ys, i);
    }
  }

  lemma NumeralAt(num: Number, s: string)
    requires Sensible(num) && IsNumeral(s)
    ensures At(num, s) == Value(s) as real
  {
  }

  /** The updater compares major and minor versions as SemVer does, and then
      whatever comes after them. */
  lemma EarlierIs(num: Number, a: Version, b: Version)
    requires Sensible(num) && WellFormed(a) && WellFormed(b)
    ensures Earlier(num, a, b) <==>
            LineBefore(a, b) || (SameLine(a, b) && Before(num, Parts(a)[2..], Parts(b)[2..]))
  {
    hide Before, Sensible, Split, Show, IsNumeral, Value;
    SplitShow(a);
    SplitShow(b);
    var xs, ys := Parts(a)[2..], Parts(b)[2..];
    assert Parts(a) == [a.major] + ([a.minor] + xs) && Parts(b) == [b.major] + ([b.minor] + ys);
    BeforeCons(num, a.major, [a.minor] + xs, b.major, [b.minor] + ys);
    BeforeCons(num, a.minor, xs, b.minor, ys);
    NumeralAt(num, a.major);
    NumeralAt(num, b.major);
    NumeralAt(num, a.minor);
    NumeralAt(num, b.minor);
  }

  /** Some identifier after the first counts as a positive number. */
  ghost predicate LaterNumber(num: Number, v: Version)
    requires v.pre.Some?
  {
    exists x :: x in Identifiers(v)[1..] && At(num, x) > 0.0
  }

  lemma LaterParts(num: Number, v: Version)
    requires Sensible(num) && WellFormed(v) && v.pre.Some?
    ensures Parts(v)[2..] == [v.patch + "-" + Identifiers(v)[0]] + Identifiers(v)[1..]
    ensures At(num, v.patch + "-" + Identifiers(v)[0]) == 0.0
    ensures forall x | x in Identifiers(v)[1..] :: At(num, x) >= 0.0
  {
    hide Split, IsNumeral;
    SplitWords(v.pre.value, '.');
  }

  /** What is compared after major and minor: the patch of a release, but of a
      pre-release only the identifiers after the first. */
  lemma EndingsCompared(num: Number, a: Version, b: Version)
    requires Sensible(num) && WellFormed(a) && WellFormed(b)
    ensures a.pre.None? && b.pre.None? ==>
              (Before(num, Parts(a)[2..], Parts(b)[2..]) <==> Value(a.patch) < Value(b.patch))
    ensures a.pre.None? && b.pre.Some? ==>
              (Before(num, Parts(a)[2..], Parts(b)[2..]) <==> Value(a.patch) == 0 && LaterNumber(num, b))
    ensures a.pre.Some? && b.pre.None? ==>
              (Before(num, Parts(a)[2..], Parts(b)[2..]) <==> Value(b.patch) > 0)
    ensures a.pre.Some? && b.pre.Some? ==>
              (Before(num, Parts(a)[2..], Parts(b)[2..]) <==> Before(num, Identifiers(a)[1..], Identifiers(b)[1..]))
  {
    hide Before, Sensible, Split, IsNumeral, Value;
    if a.pre.None? {
      NumeralAt(num, a.patch);
      assert Parts(a)[2..] == [a.patch] + [];
    } else {
      LaterParts(num, a);
      BeforeNothing(num, Identifiers(a)[1..]);
    }
    if b.pre.None? {
      NumeralAt(num, b.patch);
      assert Parts(b)[2..] == [b.patch] + [];
    } else {
      LaterParts(num, b);
      BeforeNothing(num, Identifiers(b)[1..]);
    }
    var x, y := Parts(a)[2..], Parts(b)[2..];
    BeforeNothing(num, []);
    BeforeCons(num, x[0], x[1..], y[0], y[1..]);
    assert x == [x[0]] + x[1..] && y == [y[0]] + y[1..];
  }

  // ---- Where the two orders agree ----

  /** Releases are compared as SemVer says. */
  lemma ReleasesAgree(num: Number, a: Version, b: Version)
    requires Sensible(num) && WellFormed(a) && WellFormed(b) && a.pre.None? && b.pre.None?
    ensures Agree(num, a, b)
  {
    hide Earlier, Before, Sensible, IsNumeral, Value, Parts;
    EarlierIs(num, a, b);
    EarlierIs(num, b, a);
    EndingsCompared(num, a, b);
    EndingsCompared(num, b, a);
  }

  /** A release against a pre-release: right if major or minor differ; otherwise
      a release with a positive patch always counts as the later one, and one
      with patch zero as the earlier one if a later identifier is positive, and
      else as equal. */
  lemma MixedAgree(num: Number, a: Version, b: Version)
    requires Sensible(num) && WellFormed(a) && WellFormed(b) && a.pre.None? && b.pre.Some?
    ensures Agree(num, a, b) <==>
            || !SameLine(a, b)
            || (0 < Value(a.patch) && Value(b.patch) <= Value(a.patch))
            || (Value(a.patch) == 0 < Value(b.patch) && LaterNumber(num, b))
  {
    hide Earlier, Before, Sensible, IsNumeral, Value, Parts, LaterNumber;
    EarlierIs(num, a, b);
    EarlierIs(num, b, a);
    EndingsCompared(num, a, b);
    EndingsCompared(num, b, a);
  }

  /** Two pre-releases: beyond major and minor only the identifiers after the
      first are compared, and those as numbers. */
  lemma PreReleases(num: Number, a: Version, b: Version)
    requires Sensible(num) && WellFormed(a) && WellFormed(b) && a.pre.Some? && b.pre.Some?
    ensures Earlier(num, a, b) <==>
            LineBefore(a, b) || (SameLine(a, b) && Before(num, Identifiers(a)[1..], Identifiers(b)[1..]))
  {
    hide Earlier, Before, Sensible, IsNumeral, Value, Parts;
    EarlierIs(num, a, b);
    EndingsCompared(num, a, b);
  }

  /** So pre-releases of one line are told apart exactly if those differ. */
  lemma ToldApart(num: Number, a: Version, b: Version)
    requires Sensible(num) && WellFormed(a) && WellFormed(b) && a.pre.Some? && b.pre.Some?
    ensures Earlier(num, a, b) || Earlier(num, b, a) <==>
            !SameLine(a, b) || !Equal(num, Identifiers(a)[1..], Identifiers(b)[1..])
  {
    hide Earlier, Before, Equal, Sensible, IsNumeral, Value, Parts, Split, WellFormed;
    PreReleases(num, a, b);
    PreReleases(num, b, a);
    Trichotomy(num, Identifiers(a)[1..], Identifiers(b)[1..]);
    Trichotomy(num, Identifiers(b)[1..], Identifiers(a)[1..]);
    EqualBack(num, Identifiers(a)[1..], Identifiers(b)[1..]);
  }

  lemma EqualBack(num: Number, xs: seq<string>, ys: seq<string>)
    ensures Equal(num, xs, ys) <==> Equal(num, ys, xs)
  {
  }

  ghost predicate Numerals(xs: seq<string>) {
    forall x | x in xs :: IsNumeral(x)
  }

  lemma EqualCons(num: Number, x: string, xs: seq<string>, y: string, ys: seq<string>)
    ensures Equal(num, [x] + xs, [y] + ys) <==> At(num, x) == At(num, y) && Equal(num, xs, ys)
  {
    var a, b := [x] + xs, [y] + ys;
    assert forall i: nat :: Part(num, a, i + 1) == Part(num, xs, i) && Part(num, b, i + 1) == Part(num, ys, i);
    assert Part(num, a, 0) == At(num, x) && Part(num, b, 0) == At(num, y);
    if At(num, x) == At(num, y) && Equal(num, xs, ys) {
      forall i: nat ensures Part(num, a, i) == Part(num, b, i) {
        assert i > 0 ==> Part(num, a, i - 1 + 1) == Part(num, xs, i - 1);
      }
    }
    if Equal(num, a, b) {
      forall i: nat ensures Part(num, xs, i) == Part(num, ys, i) {
        assert Part(num, a, i + 1) == Part(num, b, i + 1);
      }
    }
  }

  /** On numerals SemVer refines the updater's order: it puts the shorter of two
      lists that the updater takes for equal first. */
  lemma {:induction false} NumeralLists(num: Number, xs: seq<string>, ys: seq<string>)
    requires Sensible(num) && Numerals(xs) && Numerals(ys)
    ensures IdsBefore(xs, ys) <==> Before(num, xs, ys) || (Equal(num, xs, ys) && |xs| < |ys|)
  {
    hide Sensible, Before, Equal, IsNumeral, Value;
    if xs == [] || ys == [] {
      forall s | s in xs + ys ensures At(num, s) >= 0.0 {
        NumeralAt(num, s);
      }
      BeforeNothing(num, if xs == [] then ys else xs);
      Trichotomy(num, xs, ys);
      Trichotomy(num, ys, xs);
      EqualBack(num, xs, ys);
    } else {
      assert xs == [xs[0]] + xs[1..] && ys == [ys[0]] + ys[1..];
      NumeralAt(num, xs[0]);
      NumeralAt(num, ys[0]);
      NumeralLists(num, xs[1..], ys[1..]);
      BeforeCons(num, xs[0], xs[1..], ys[0], ys[1..]);
      EqualCons(num, xs[0], xs[1..], ys[0], ys[1..]);
    }
  }

  /** Within one series, such as 1.0.0-rc.1 and 1.0.0-rc.2, the orders agree
      unless the later numbers are the same up to zeros at the end. */
  lemma SeriesAgree(num: Number, a: Version, b: Version)
    requires Sensible(num) && WellFormed(a) && WellFormed(b) && a.pre.Some? && b.pre.Some?
    requires SameLine(a, b) && Value(a.patch) == Value(b.patch) && Identifiers(a)[0] == Identifiers(b)[0]
    requires Numerals(Identifiers(a)[1..]) && Numerals(Identifiers(b)[1..])
    ensures var xs, ys := Identifiers(a)[1..], Identifiers(b)[1..];
            Agree(num, a, b) <==> (Equal(num, xs, ys) ==> |xs| == |ys|)
  {
    hide Earlier, Before, Equal, Sensible, IsNumeral, Value, Split, Numerals, WellFormed;
    var xs, ys := Identifiers(a)[1..], Identifiers(b)[1..];
    PreReleases(num, a, b);
    PreReleases(num, b, a);
    NumeralLists(num, xs, ys);
    NumeralLists(num, ys, xs);
    Trichotomy(num, xs, ys);
    Trichotomy(num, ys, xs);
    EqualBack(num, xs, ys);
    SameFirst(Identifiers(a), Identifiers(b));
    SameFirst(Identifiers(b), Identifiers(a));
  }

  /** The later numbers put two lists in the order in which SemVer puts them:
      where SemVer first tells them apart, they decide the same way. */
  ghost predicate Confirmed(num: Number, xs: seq<string>, ys: seq<string>) {
    if xs == [] || ys == [] then xs == ys || exists x :: x in xs + ys && At(num, x) > 0.0
    else if IdBefore(xs[0], ys[0]) then Before(num, xs, ys)
    else if IdBefore(ys[0], xs[0]) then Before(num, ys, xs)
    else Confirmed(num, xs[1..], ys[1..])
  }

  lemma IdsCompare(num: Number, x: string, y: string)
    requires Sensible(num)
    ensures !(IdBefore(x, y) && IdBefore(y, x))
    ensures !IdBefore(x, y) && !IdBefore(y, x) ==> At(num, x) == At(num, y)
  {
    if IsNumeral(x) && IsNumeral(y) {
      NumeralAt(num, x);
      NumeralAt(num, y);
    } else if !IsNumeral(x) && !IsNumeral(y) {
      Serialised.LexTotal(x, y);
      if Serialised.LexLe(x, y) && Serialised.LexLe(y, x) {
        Serialised.LexAntisymmetric(x, y);
      }
    }
  }

  lemma {:induction false} ConfirmedIff(num: Number, xs: seq<string>, ys: seq<string>)
    requires Sensible(num) && forall x | x in xs + ys :: At(num, x) >= 0.0
    ensures Confirmed(num, xs, ys) <==>
            (Before(num, xs, ys) <==> IdsBefore(xs, ys)) && (Before(num, ys, xs) <==> IdsBefore(ys, xs))
    ensures !(IdsBefore(xs, ys) && IdsBefore(ys, xs))
  {
    hide Sensible, Before, IdBefore;
    Trichotomy(num, xs, ys);
    Trichotomy(num, ys, xs);
    if xs == [] || ys == [] {
      assert xs + ys == if xs == [] then ys else xs;
      BeforeNothing(num, xs + ys);
    } else {
      var x, y := xs[0], ys[0];
      assert xs == [x] + xs[1..] && ys == [y] + ys[1..];
      assert forall z | z in xs[1..] + ys[1..] :: z in xs + ys;
      IdsCompare(num, x, y);
      if !IdBefore(x, y) && !IdBefore(y, x) {
        BeforeCons(num, x, xs[1..], y, ys[1..]);
        BeforeCons(num, y, ys[1..], x, xs[1..]);
      }
      ConfirmedIff(num, xs[1..], ys[1..]);
    }
  }

  /** Two pre-releases of one line: what is first different to SemVer - the
      patches, the first identifiers, or two later ones - must put them in the
      order of the later numbers, which is all that the updater compares. */
  lemma PreReleasesAgree(num: Number, a: Version, b: Version)
    requires Sensible(num) && WellFormed(a) && WellFormed(b) && a.pre.Some? && b.pre.Some? && SameLine(a, b)
    ensures var xs, ys := Identifiers(a), Identifiers(b);
            var up, down := Before(num, xs[1..], ys[1..]), Before(num, ys[1..], xs[1..]);
            Agree(num, a, b) <==>
              if Value(a.patch) < Value(b.patch) then up
              else if Value(b.patch) < Value(a.patch) then down
              else if IdBefore(xs[0], ys[0]) then up
              else if IdBefore(ys[0], xs[0]) then down
              else Confirmed(num, xs[1..], ys[1..])
  {
    hide Earlier, Before, Sensible, IsNumeral, Value, Split, WellFormed, IdBefore, Confirmed;
    var xs, ys := Identifiers(a), Identifiers(b);
    PreReleases(num, a, b);
    PreReleases(num, b, a);
    Trichotomy(num, xs[1..], ys[1..]);
    LaterParts(num, a);
    LaterParts(num, b);
    IdsCompare(num, xs[0], ys[0]);
    ConfirmedIff(num, xs[1..], ys[1..]);
  }

  lemma SameFirst(xs: seq<string>, ys: seq<string>)
    requires xs != [] && ys != [] && xs[0] == ys[0]
    ensures IdsBefore(xs, ys) <==> IdsBefore(xs[1..], ys[1..])
  {
  }

  // ---- What that means for updates ----

  lemma ShowDiffers(a: Version, b: Version)
    requires WellFormed(a) && WellFormed(b) && a.pre.None? && b.pre.Some?
    ensures Show(a) != Show(b)
  {
    hide Show, Parse;
    ParseShow(a);
    ParseShow(b);
  }

  /** An unforced update goes from a release back to a pre-release of it exactly
      if its patch number is zero; SemVer has it earlier always. */
  lemma BackToPreRelease(num: Number, a: Version, b: Version)
    requires Sensible(num) && WellFormed(a) && WellFormed(b) && a.pre.None? && b.pre.Some?
    requires SameLine(a, b) && Value(a.patch) == Value(b.patch)
    ensures Admits(num, Show(a), Show(b)) <==> Value(a.patch) == 0
    ensures Precedes(b, a)
  {
    hide Before, Sensible, IsNumeral, Value, Parts, Show, LaterNumber;
    ShowDiffers(a, b);
    EarlierIs(num, b, a);
    EndingsCompared(num, b, a);
  }

  /** An unforced update goes from a pre-release on to its release unless the
      patch number is zero and a later identifier is positive. */
  lemma OnToRelease(num: Number, a: Version, b: Version)
    requires Sensible(num) && WellFormed(a) && WellFormed(b) && a.pre.None? && b.pre.Some?
    requires SameLine(a, b) && Value(a.patch) == Value(b.patch)
    ensures Admits(num, Show(b), Show(a)) <==> !(Value(a.patch) == 0 && LaterNumber(num, b))
  {
    hide Before, Sensible, IsNumeral, Value, Parts, Show, LaterNumber;
    ShowDiffers(a, b);
    EarlierIs(num, a, b);
    EndingsCompared(num, a, b);
  }

  /** The release 1.0.0 and its pre-release 1.0.0-rc.1: the updater takes the
      wrong one for the earlier one, goes back without force, and not on. */
  lemma ReleaseCandidate(num: Number)
    requires Sensible(num)
    ensures Precedes(Version("1", "0", "0", Some("rc.1")), Version("1", "0", "0", None))
    ensures Before(num, Split("1.0.0", '.'), Split("1.0.0-rc.1", '.'))
    ensures Admits(num, "1.0.0", "1.0.0-rc.1") && !Admits(num, "1.0.0-rc.1", "1.0.0")
  {
    hide Before, Sensible, Split;
    var a, b := Version("1", "0", "0", None), Version("1", "0", "0", Some("rc.1"));
    assert Show(a) == "1.0.0" && Show(b) == "1.0.0-rc.1";
    assert "rc.1" == "rc" + ['.'] + "1";
    SplitFirst("rc", '.', "1");
    SplitNone("1", '.');
    assert Identifiers(b)[1..] == ["1"];
    assert Value("1") == 1 && Value("0") == 0 by { assert "1"[..0] == "" && "0"[..0] == ""; }
    assert WellFormed(a) && WellFormed(b);
    NumeralAt(num, "1");
    assert LaterNumber(num, b) by { assert "1" in Identifiers(b)[1..]; }
    BackToPreRelease(num, a, b);
    OnToRelease(num, a, b);
    EarlierIs(num, a, b);
    EndingsCompared(num, a, b);
  }
}
