/** String helpers of the JavaScript runtime that the modelled code relies on:
    decimal printing and reading of natural numbers, splitting on one character,
    prefixes, and the character classes of regular expressions. */
module Text {
  datatype Option<+T> = None | Some(value: T) {
    function GetOr(default: T): T {
      match this
      case Some(v) => v
      case None => default
    }
  }

  predicate IsDigit(c: char) {
    '0' <= c <= '9'
  }

  predicate AllDigits(s: string) {
    forall i | 0 <= i < |s| :: IsDigit(s[i])
  }

  /** The characters that `\s` matches and `trim` removes. */
  predicate IsSpace(c: char) {
    var n := c as int;
    || 9 <= n <= 13 || n == 32 || n == 0xA0 || n == 0x1680
    || 0x2000 <= n <= 0x200A || n == 0x2028 || n == 0x2029
    || n == 0x202F || n == 0x205F || n == 0x3000 || n == 0xFEFF
  }

  predicate NoSpace(s: string) {
    forall i | 0 <= i < |s| :: !IsSpace(s[i])
  }

  predicate HasPrefix(s: string, p: string) {
    |p| <= |s| && s[..|p|] == p
  }

  // ---- Decimal numbers ----

  function Digit(d: nat): (c: char)
    requires d < 10
    ensures IsDigit(c) && DigitValue(c) == d
  {
    ('0' as int + d) as char
  }

  function DigitValue(c: char): (d: nat)
    requires IsDigit(c)
    ensures d < 10
  {
    c as int - '0' as int
  }

  /** `String(n)` for a natural number. */
  function Dec(n: nat): (s: string)
    ensures |s| > 0 && AllDigits(s)
  {
    if n < 10 then [Digit(n)] else Dec(n / 10) + [Digit(n % 10)]
  }

  function DecValue(s: string): nat
    requires AllDigits(s)
  {
    if s == [] then 0 else 10 * DecValue(s[..|s| - 1]) + DigitValue(s[|s| - 1])
  }

  /** Printing a number and reading the digits back is the identity. */
  lemma {:induction false} DecRoundTrip(n: nat)
    ensures DecValue(Dec(n)) == n
  {
    if n < 10 {
      assert Dec(n)[..0] == [];
    } else {
      DecRoundTrip(n / 10);
      assert Dec(n)[..|Dec(n)| - 1] == Dec(n / 10);
    }
  }

  lemma DecInjective(m: nat, n: nat)
    requires Dec(m) == Dec(n)
    ensures m == n
  {
    DecRoundTrip(m);
    DecRoundTrip(n);
  }

  /** The length of the longest run of digits at the start of `s`. */
  function DigitRun(s: string): (k: nat)
    ensures k <= |s| && (forall i | 0 <= i < k :: IsDigit(s[i]))
    ensures k < |s| ==> !IsDigit(s[k])
  {
    if s == [] || !IsDigit(s[0]) then 0
    else
      var k := 1 + DigitRun(s[1..]);
      assert forall i | 1 <= i < k :: s[i] == s[1..][i - 1];
      k
  }

  lemma DigitRunIs(s: string, k: nat)
    requires k <= |s| && (forall i | 0 <= i < k :: IsDigit(s[i])) && (k < |s| ==> !IsDigit(s[k]))
    ensures DigitRun(s) == k
  {
  }

  /** `parseInt` on text that starts with a digit; None stands for NaN. */
  function ParseNat(s: string): Option<nat> {
    var k := DigitRun(s);
    if k == 0 then None else Some(DecValue(s[..k]))
  }

  lemma ParseDec(n: nat)
    ensures ParseNat(Dec(n)) == Some(n)
  {
    assert Dec(n)[..|Dec(n)|] == Dec(n);
    DigitRunIs(Dec(n), |Dec(n)|);
    DecRoundTrip(n);
  }

  // ---- Names built around a number ----

  /** `${n}_${name}`, the shape of Docker network and volume names. */
  function Scoped(n: nat, name: string): string {
    Dec(n) + "_" + name
  }

  lemma ScopedRun(n: nat, name: string)
    ensures DigitRun(Scoped(n, name)) == |Dec(n)|
    ensures Scoped(n, name)[..|Dec(n)|] == Dec(n)
    ensures Scoped(n, name)[|Dec(n)|] == '_'
    ensures Scoped(n, name)[|Dec(n)| + 1..] == name
  {
    var s := Scoped(n, name);
    assert s[..|Dec(n)|] == Dec(n);
    DigitRunIs(s, |Dec(n)|);
  }

  /** Different (number, name) pairs give different scoped names. */
  lemma ScopedInjective(m: nat, a: string, n: nat, b: string)
    requires Scoped(m, a) == Scoped(n, b)
    ensures m == n && a == b
  {
    ScopedRun(m, a);
    ScopedRun(n, b);
    DecInjective(m, n);
  }

  /** A name that ends in `_` and a number determines the number. */
  lemma SuffixNumber(a: string, m: nat, b: string, n: nat)
    requires a + "_" + Dec(m) == b + "_" + Dec(n)
    ensures m == n
  {
    var s := a + "_" + Dec(m);
    var t := b + "_" + Dec(n);
    var i, j := |Dec(m)|, |Dec(n)|;
    assert s[|s| - i..] == Dec(m);
    assert t[|t| - j..] == Dec(n);
    assert s[|s| - i - 1] == t[|t| - j - 1] == '_';
    assert forall k | |s| - i <= k < |s| :: IsDigit(s[k]) by {
      assert forall k | |s| - i <= k < |s| :: s[k] == Dec(m)[k - |s| + i];
    }
    assert forall k | |t| - j <= k < |t| :: IsDigit(t[k]) by {
      assert forall k | |t| - j <= k < |t| :: t[k] == Dec(n)[k - |t| + j];
    }
    DecInjective(m, n);
  }

  // ---- Splitting ----

  /** The position of the first `c` in `s`, or `|s|`. */
  function IndexOf(s: string, c: char): (i: nat)
    ensures i <= |s| && (forall k | 0 <= k < i :: s[k] != c)
    ensures i < |s| ==> s[i] == c
  {
    if s == [] || s[0] == c then 0
    else
      var i := 1 + IndexOf(s[1..], c);
      assert forall k | 1 <= k < i :: s[k] == s[1..][k - 1];
      i
  }

  lemma IndexOfIs(a: string, c: char, b: string)
    requires c !in a
    ensures IndexOf(a + [c] + b, c) == |a|
  {
    var s := a + [c] + b;
    assert forall k | 0 <= k < |a| :: s[k] == a[k];
    assert s[|a|] == c;
  }

  /** `s.split(c)` */
  function Split(s: string, c: char): (parts: seq<string>)
    ensures |parts| >= 1
    decreases |s|
  {
    var i := IndexOf(s, c);
    if i == |s| then [s] else [s[..i]] + Split(s[i + 1..], c)
  }

  /** `parts.join(c)` */
  function Join(parts: seq<string>, c: char): string {
    if parts == [] then []
    else if |parts| == 1 then parts[0]
    else parts[0] + [c] + Join(parts[1..], c)
  }

  lemma SplitNone(s: string, c: char)
    requires c !in s
    ensures Split(s, c) == [s]
  {
  }

  lemma SplitFirst(a: string, c: char, b: string)
    requires c !in a
    ensures Split(a + [c] + b, c) == [a] + Split(b, c)
  {
    var s := a + [c] + b;
    IndexOfIs(a, c, b);
    assert s[..|a|] == a && s[|a| + 1..] == b;
  }

  lemma {:induction false} JoinMore(x: string, parts: seq<string>, c: char)
    ensures Join([x], c) == x
    ensures parts != [] ==> Join([x] + parts, c) == x + [c] + Join(parts, c)
  {
    assert ([x] + parts)[1..] == parts;
  }

  lemma {:induction false} SplitMore(s: string, c: char)
    ensures var i := IndexOf(s, c); Split(s, c) == if i == |s| then [s] else [s[..i]] + Split(s[i + 1..], c)
  {
  }

  /** Joining what was split gives the text back. */
  lemma {:induction false} JoinSplit(s: string, c: char)
    ensures Join(Split(s, c), c) == s
    decreases |s|
  {
    hide Join, Split, IndexOf;
    var i := IndexOf(s, c);
    SplitMore(s, c);
    if i == |s| {
      JoinMore(s, [], c);
    } else {
      var rest := s[i + 1..];
      JoinSplit(rest, c);
      JoinMore(s[..i], Split(rest, c), c);
      assert s == s[..i] + [s[i]] + rest;
    }
  }

  // ---- Sequences without duplicates ----

  predicate Distinct<T(==)>(s: seq<T>) {
    forall i, j | 0 <= i < j < |s| :: s[i] != s[j]
  }

  /** `Array.from(new Set(s))`: the first occurrences, in order. */
  function Uniq<T(==, !new)>(s: seq<T>): (r: seq<T>)
    ensures Distinct(r)
    ensures forall x :: x in r <==> x in s
  {
    if s == [] then []
    else
      var r := Uniq(s[..|s| - 1]);
      var x := s[|s| - 1];
      assert s == s[..|s| - 1] + [x];
      if x in r then r else r + [x]
  }

  lemma UniqMore(s: seq<string>, x: string)
    ensures Uniq(s + [x]) == if x in s then Uniq(s) else Uniq(s) + [x]
  {
    assert (s + [x])[..|s|] == s && (s + [x])[|s|] == x;
  }

  lemma UniqOfDistinct<T(!new)>(s: seq<T>)
    requires Distinct(s)
    ensures Uniq(s) == s
  {
    if s != [] {
      UniqOfDistinct(s[..|s| - 1]);
      assert s == s[..|s| - 1] + [s[|s| - 1]];
    }
  }

  /** In a list every element occurs once exactly if no two positions agree. */
  lemma {:induction false} DistinctCounts(s: seq<string>)
    ensures Distinct(s) <==> forall x | x in s :: multiset(s)[x] == 1
    ensures Distinct(s) ==> forall x :: multiset(s)[x] == if x in s then 1 else 0
  {
    if s != [] {
      var n := |s| - 1;
      var init, last := s[..n], s[n];
      assert s == init + [last];
      DistinctCounts(init);
      if Distinct(s) {
        assert last !in init;
      } else if Distinct(init) {
        assert last in init;
        assert multiset(s)[last] == multiset(init)[last] + 1;
      } else {
        var x :| x in init && multiset(init)[x] != 1;
        assert multiset(s)[x] >= multiset(init)[x] > 1;
      }
    }
  }

  lemma DistinctSame(a: seq<string>, b: seq<string>)
    requires Distinct(a) && Distinct(b) && forall x :: x in a <==> x in b
    ensures multiset(a) == multiset(b)
  {
    hide Distinct;
    DistinctCounts(a);
    DistinctCounts(b);
    forall x ensures multiset(a)[x] == multiset(b)[x] {
    }
  }

  lemma DistinctMoves(a: seq<string>, b: seq<string>)
    requires multiset(a) == multiset(b) && Distinct(a)
    ensures Distinct(b)
  {
    hide Distinct;
    DistinctCounts(a);
    DistinctCounts(b);
    forall x | x in b ensures multiset(b)[x] == 1 {
      assert x in multiset(b);
    }
  }
}
