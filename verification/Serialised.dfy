/** The comparisons of the planner work on text: lists are sorted in place and
    printed by `JSON.stringify`, environments are filtered and printed. This
    module writes that text out and proves which relations the comparisons of
    texts decide. */
module Serialised {
  import opened Text

  // ---- Sorting, as Array.prototype.sort does on strings ----

  predicate LexLe(a: string, b: string) {
    a == [] || (b != [] && (a[0] < b[0] || (a[0] == b[0] && LexLe(a[1..], b[1..]))))
  }

  lemma {:induction false} LexTotal(a: string, b: string)
    ensures LexLe(a, b) || LexLe(b, a)
  {
    if a != [] && b != [] {
      LexTotal(a[1..], b[1..]);
    }
  }

  lemma {:induction false} LexAntisymmetric(a: string, b: string)
    requires LexLe(a, b) && LexLe(b, a)
    ensures a == b
  {
    if a != [] && b != [] {
      LexAntisymmetric(a[1..], b[1..]);
      assert a == [a[0]] + a[1..] && b == [b[0]] + b[1..];
    }
  }

  lemma {:induction false} LexTransitive(a: string, b: string, c: string)
    requires LexLe(a, b) && LexLe(b, c)
    ensures LexLe(a, c)
  {
    if a != [] && a[0] == b[0] == c[0] {
      LexTransitive(a[1..], b[1..], c[1..]);
    }
  }

  predicate Ordered(s: seq<string>) {
    forall i, j | 0 <= i < j < |s| :: LexLe(s[i], s[j])
  }

  function Insert(x: string, s: seq<string>): (r: seq<string>)
    ensures multiset(r) == multiset(s) + multiset{x}
  {
    if s == [] then [x]
    else if LexLe(x, s[0]) then
      [x] + s
    else
      assert s == [s[0]] + s[1..];
      [s[0]] + Insert(x, s[1..])
  }

  lemma {:induction false} InsertOrdered(x: string, s: seq<string>)
    requires Ordered(s)
    ensures Ordered(Insert(x, s))
  {
    if s == [] {
    } else if LexLe(x, s[0]) {
      forall j | 0 <= j < |s| ensures LexLe(x, s[j]) {
        if j > 0 { LexTransitive(x, s[0], s[j]); }
      }
    } else {
      var r := Insert(x, s[1..]);
      InsertOrdered(x, s[1..]);
      LexTotal(x, s[0]);
      forall j | 0 <= j < |r| ensures LexLe(s[0], r[j]) {
        assert r[j] in multiset(r);
        assert r[j] == x || r[j] in s[1..];
      }
    }
  }

  /** The contents of a list after `.sort()`. */
  function Sorted(s: seq<string>): (r: seq<string>)
    ensures multiset(r) == multiset(s)
  {
    if s == [] then []
    else
      assert s == [s[0]] + s[1..];
      Insert(s[0], Sorted(s[1..]))
  }

  lemma {:induction false} SortedOrdered(s: seq<string>)
    ensures Ordered(Sorted(s))
  {
    if s != [] {
      SortedOrdered(s[1..]);
      InsertOrdered(s[0], Sorted(s[1..]));
    }
  }

  lemma LeastFirst(s: seq<string>, x: string)
    requires Ordered(s) && x in s
    ensures LexLe(s[0], x)
  {
    LexTotal(s[0], s[0]);
    var i :| 0 <= i < |s| && s[i] == x;
  }

  lemma SameMembers(a: seq<string>, b: seq<string>)
    requires multiset(a) == multiset(b)
    ensures |a| == |b| && forall x | x in a :: x in b
  {
    assert |a| == |multiset(a)| == |multiset(b)| == |b|;
    forall x | x in a ensures x in b {
      assert x in multiset(a);
    }
  }

  lemma OrderedRest(s: seq<string>)
    requires Ordered(s) && s != []
    ensures Ordered(s[1..]) && s == [s[0]] + s[1..] && multiset(s[1..]) == multiset(s) - multiset{s[0]}
  {
    hide LexLe;
    assert s == [s[0]] + s[1..];
  }

  /** An ordered list is determined by its multiset. */
  lemma {:induction false} OrderedUnique(a: seq<string>, b: seq<string>)
    requires Ordered(a) && Ordered(b) && multiset(a) == multiset(b)
    ensures a == b
  {
    hide LexLe, Ordered;
    SameMembers(a, b);
    SameMembers(b, a);
    if a != [] {
      LeastFirst(a, b[0]);
      LeastFirst(b, a[0]);
      LexAntisymmetric(a[0], b[0]);
      OrderedRest(a);
      OrderedRest(b);
      OrderedUnique(a[1..], b[1..]);
    }
  }

  lemma SortedDecides(a: seq<string>, b: seq<string>)
    ensures Sorted(a) == Sorted(b) <==> multiset(a) == multiset(b)
  {
    if multiset(a) == multiset(b) {
      SortedOrdered(a);
      SortedOrdered(b);
      OrderedUnique(Sorted(a), Sorted(b));
    }
  }

  lemma SortedIdempotent(a: seq<string>)
    ensures Sorted(Sorted(a)) == Sorted(a)
  {
    SortedDecides(Sorted(a), a);
  }

  // ---- JSON text of strings and lists of strings ----

  function Hex(d: nat): (c: char)
    requires d < 16
  {
    if d < 10 then Digit(d) else (('a' as int) + d - 10) as char
  }

  const QUOTE: char := '\"'
  const BACKSLASH: char := '\\'

  function EscapeChar(c: char): (e: string)
    ensures |e| > 0
  {
    if c == QUOTE then [BACKSLASH, QUOTE]
    else if c == BACKSLASH then [BACKSLASH, BACKSLASH]
    else if c as int == 8 then [BACKSLASH, 'b']
    else if c as int == 12 then [BACKSLASH, 'f']
    else if c == '\n' then [BACKSLASH, 'n']
    else if c == '\r' then [BACKSLASH, 'r']
    else if c == '\t' then [BACKSLASH, 't']
    else if c as int < 0x20 then
      [BACKSLASH, 'u', '0', '0', Hex(c as int / 16), Hex(c as int % 16)]
    else [c]
  }

  /** Escapes form a prefix code: what follows an escape can be told from it. */
  lemma EscapePrefixFree(c: char, x: string, d: char, y: string)
    requires EscapeChar(c) + x == EscapeChar(d) + y
    ensures c == d && x == y
  {
    var u, v := EscapeChar(c) + x, EscapeChar(d) + y;
    var k := |EscapeChar(c)|;
    assert u[0] == EscapeChar(c)[0] && v[0] == EscapeChar(d)[0];
    assert k > 1 && |EscapeChar(d)| > 1 ==> u[1] == EscapeChar(c)[1] && v[1] == EscapeChar(d)[1];
    assert k == 6 && |EscapeChar(d)| == 6 ==>
      u[4] == EscapeChar(c)[4] && v[4] == EscapeChar(d)[4] && u[5] == EscapeChar(c)[5] && v[5] == EscapeChar(d)[5];
    assert c == d;
    assert x == u[k..] && y == v[k..];
  }

  function EscapeAll(s: string): string {
    if s == [] then [] else EscapeChar(s[0]) + EscapeAll(s[1..])
  }

  function Quote(s: string): string {
    [QUOTE] + EscapeAll(s) + [QUOTE]
  }

  /** The printed form of `s` up to its closing quote, followed by `x`. */
  function Closed(s: string, x: string): (u: string)
    ensures |u| > 0
  {
    EscapeAll(s) + [QUOTE] + x
  }

  lemma ClosedStep(s: string, x: string)
    ensures s == [] ==> Closed(s, x)[0] == QUOTE && Closed(s, x)[1..] == x
    ensures s != [] ==> Closed(s, x) == EscapeChar(s[0]) + Closed(s[1..], x) && Closed(s, x)[0] != QUOTE
  {
    if s != [] {
      var e, r := EscapeChar(s[0]), EscapeAll(s[1..]);
      assert e[0] != QUOTE;
      assert (e + r) + [QUOTE] + x == e + (r + [QUOTE] + x);
    }
  }

  lemma {:induction false} ClosedPrefixFree(s: string, x: string, t: string, y: string)
    requires Closed(s, x) == Closed(t, y)
    ensures s == t && x == y
    decreases |s|
  {
    ClosedStep(s, x);
    ClosedStep(t, y);
    if s != [] && t != [] {
      EscapePrefixFree(s[0], Closed(s[1..], x), t[0], Closed(t[1..], y));
      ClosedPrefixFree(s[1..], x, t[1..], y);
      assert s == [s[0]] + s[1..] && t == [t[0]] + t[1..];
    }
  }

  lemma QuotePrefixFree(s: string, x: string, t: string, y: string)
    requires Quote(s) + x == Quote(t) + y
    ensures s == t && x == y
  {
    var u, v := Quote(s) + x, Quote(t) + y;
    assert u[1..] == Closed(s, x);
    assert v[1..] == Closed(t, y);
    ClosedPrefixFree(s, x, t, y);
  }

  /** The text between the brackets: each item is followed by `,` or `]`. */
  function Items(a: seq<string>): string
    decreases |a|, 1
  {
    if a == [] then "]" else Quote(a[0]) + ItemsTail(a)
  }

  function ItemsTail(a: seq<string>): (t: string)
    requires a != []
    ensures |t| > 0
    decreases |a|, 0
  {
    if |a| == 1 then "]" else [','] + Items(a[1..])
  }

  /** `JSON.stringify` of a list of strings. */
  function Stringify(a: seq<string>): string {
    ['['] + Items(a)
  }

  lemma ItemsStart(a: seq<string>)
    ensures |Items(a)| > 0 && (Items(a)[0] == QUOTE <==> a != [])
  {
  }

  lemma ItemsTailStart(a: seq<string>)
    requires a != []
    ensures ItemsTail(a)[0] == ',' <==> |a| > 1
    ensures |a| > 1 ==> ItemsTail(a)[1..] == Items(a[1..])
  {
  }

  lemma {:induction false} ItemsInjective(a: seq<string>, b: seq<string>)
    requires Items(a) == Items(b)
    ensures a == b
  {
    ItemsStart(a);
    ItemsStart(b);
    if a != [] {
      QuotePrefixFree(a[0], ItemsTail(a), b[0], ItemsTail(b));
      ItemsTailStart(a);
      ItemsTailStart(b);
      if |a| > 1 {
        ItemsInjective(a[1..], b[1..]);
      }
      assert a == [a[0]] + a[1..] && b == [b[0]] + b[1..];
    }
  }

  /** The planner's list comparison: sort both lists, print both, compare. */
  predicate ListsDiffer(current: seq<string>, target: seq<string>) {
    Stringify(Sorted(current)) != Stringify(Sorted(target))
  }

  /** Ports, volumes and networks are reported as changed exactly when their
      multisets differ. */
  lemma ListsDifferIff(current: seq<string>, target: seq<string>)
    ensures ListsDiffer(current, target) <==> multiset(current) != multiset(target)
  {
    SortedDecides(current, target);
    if Stringify(Sorted(current)) == Stringify(Sorted(target)) {
      assert Stringify(Sorted(current))[1..] == Items(Sorted(current));
      assert Stringify(Sorted(target))[1..] == Items(Sorted(target));
      ItemsInjective(Sorted(current), Sorted(target));
    }
  }

  // ---- Environments: objects with keys in insertion order ----

  datatype EnvVar = EnvVar(key: string, value: string)
  type Env = seq<EnvVar>

  predicate DistinctKeys(env: Env) {
    forall i, j | 0 <= i < j < |env| :: env[i].key != env[j].key
  }

  function Get(env: Env, key: string): (r: Option<string>)
    ensures r.None? <==> forall e | e in env :: e.key != key
    ensures r.Some? ==> EnvVar(key, r.value) in env
  {
    if env == [] then None
    else if env[0].key == key then Some(env[0].value)
    else Get(env[1..], key)
  }

  /** `env[key] = value` */
  function Put(env: Env, key: string, value: string): (r: Env)
    ensures forall e | e in r :: e == EnvVar(key, value) || (e in env && e.key != key)
    ensures EnvVar(key, value) in r
    ensures forall e | e in env && e.key != key :: e in r
  {
    if env == [] then [EnvVar(key, value)]
    else if env[0].key == key then
      [EnvVar(key, value)] + Without(env[1..], key)
    else [env[0]] + Put(env[1..], key, value)
  }

  function Without(env: Env, key: string): (r: Env)
    ensures forall e :: e in r <==> e in env && e.key != key
    ensures DistinctKeys(env) ==> DistinctKeys(r)
  {
    if env == [] then []
    else if env[0].key == key then Without(env[1..], key)
    else [env[0]] + Without(env[1..], key)
  }

  lemma {:induction false} PutDistinct(env: Env, key: string, value: string)
    requires DistinctKeys(env)
    ensures DistinctKeys(Put(env, key, value))
  {
    if env != [] && env[0].key != key {
      PutDistinct(env[1..], key, value);
      var r := Put(env[1..], key, value);
      forall j | 0 <= j < |r| ensures r[j].key != env[0].key {
        assert r[j] in r;
      }
    } else if env != [] {
      var r := Without(env[1..], key);
      forall j | 0 <= j < |r| ensures r[j].key != key {
        assert r[j] in r;
      }
    }
  }

  lemma {:induction false} PutNew(env: Env, key: string, value: string)
    requires Get(env, key).None?
    ensures Put(env, key, value) == env + [EnvVar(key, value)]
  {
    if env != [] {
      assert env[0] in env;
      PutNew(env[1..], key, value);
    }
  }

  lemma {:induction false} GetPut(env: Env, key: string, value: string, k: string)
    ensures Get(Put(env, key, value), k) == if k == key then Some(value) else Get(env, k)
  {
    if env != [] {
      if env[0].key == key {
        if k != key {
          GetWithout(env[1..], key, k);
        }
      } else {
        GetPut(env[1..], key, value, k);
      }
    }
  }

  lemma {:induction false} GetWithout(env: Env, key: string, k: string)
    requires k != key
    ensures Get(Without(env, key), k) == Get(env, k)
  {
    if env != [] {
      GetWithout(env[1..], key, k);
    }
  }

  lemma {:induction false} GetMember(env: Env, i: nat)
    requires DistinctKeys(env) && i < |env|
    ensures Get(env, env[i].key) == Some(env[i].value)
  {
    if i > 0 {
      GetMember(env[1..], i - 1);
    }
  }

  /** Every variable of `part` has the same value in `whole`. */
  predicate Contained(part: Env, whole: Env) {
    forall i | 0 <= i < |part| :: Get(whole, part[i].key) == Some(part[i].value)
  }

  /** The current environment restricted to the target's keys, in their order. */
  function Restricted(current: Env, target: Env): Env {
    if target == [] then []
    else
      var r := Restricted(current, target[..|target| - 1]);
      var key := target[|target| - 1].key;
      match Get(current, key)
      case Some(value) => Put(r, key, value)
      case None => r
  }

  function EnvItems(env: Env): string
    decreases |env|, 2
  {
    if env == [] then "}" else Quote(env[0].key) + EnvValue(env)
  }

  function EnvValue(env: Env): (t: string)
    requires env != []
    decreases |env|, 1
  {
    [':'] + (Quote(env[0].value) + EnvTail(env))
  }

  function EnvTail(env: Env): (t: string)
    requires env != []
    ensures |t| > 0
    decreases |env|, 0
  {
    if |env| == 1 then "}" else [','] + EnvItems(env[1..])
  }

  /** `JSON.stringify` of an object whose values are strings. */
  function StringifyEnv(env: Env): string {
    ['{'] + EnvItems(env)
  }

  lemma EnvItemsStart(env: Env)
    ensures |EnvItems(env)| > 0 && (EnvItems(env)[0] == QUOTE <==> env != [])
  {
  }

  lemma EnvTailStart(env: Env)
    requires env != []
    ensures EnvTail(env)[0] == ',' <==> |env| > 1
    ensures |env| > 1 ==> EnvTail(env)[1..] == EnvItems(env[1..])
    ensures EnvValue(env)[1..] == Quote(env[0].value) + EnvTail(env)
  {
  }

  lemma {:induction false} EnvItemsInjective(a: Env, b: Env)
    requires EnvItems(a) == EnvItems(b)
    ensures a == b
  {
    EnvItemsStart(a);
    EnvItemsStart(b);
    if a != [] {
      QuotePrefixFree(a[0].key, EnvValue(a), b[0].key, EnvValue(b));
      EnvTailStart(a);
      EnvTailStart(b);
      QuotePrefixFree(a[0].value, EnvTail(a), b[0].value, EnvTail(b));
      if |a| > 1 {
        EnvItemsInjective(a[1..], b[1..]);
      }
      assert a == [a[0]] + a[1..] && b == [b[0]] + b[1..];
    }
  }

  predicate EnvDiffers(current: Env, target: Env) {
    StringifyEnv(Restricted(current, target)) != StringifyEnv(target)
  }

  lemma {:induction false} RestrictedKeys(current: Env, target: Env)
    ensures forall e | e in Restricted(current, target) ::
              Get(current, e.key) == Some(e.value) && exists t | t in target :: t.key == e.key
  {
    if target != [] {
      var init := target[..|target| - 1];
      RestrictedKeys(current, init);
      assert target[|target| - 1] in target;
      forall e | e in Restricted(current, target)
        ensures Get(current, e.key) == Some(e.value) && exists t | t in target :: t.key == e.key
      {
        if e in Restricted(current, init) {
          var t :| t in init && t.key == e.key;
          assert t in target;
        }
      }
    }
  }

  lemma {:induction false} RestrictedContained(current: Env, target: Env)
    requires DistinctKeys(target) && Contained(target, current)
    ensures Restricted(current, target) == target
  {
    if target != [] {
      var init, last := target[..|target| - 1], target[|target| - 1];
      assert forall i | 0 <= i < |init| :: init[i] == target[i];
      RestrictedContained(current, init);
      PutNew(init, last.key, last.value);
      assert target == init + [last];
    }
  }

  /** The environment is reported as changed exactly when the target's
      variables are not all present, with equal values, in the current one. */
  lemma EnvDiffersIff(current: Env, target: Env)
    requires DistinctKeys(target)
    ensures EnvDiffers(current, target) <==> !Contained(target, current)
  {
    if Contained(target, current) {
      RestrictedContained(current, target);
    } else if StringifyEnv(Restricted(current, target)) == StringifyEnv(target) {
      assert StringifyEnv(Restricted(current, target))[1..] == EnvItems(Restricted(current, target));
      assert StringifyEnv(target)[1..] == EnvItems(target);
      EnvItemsInjective(Restricted(current, target), target);
      RestrictedKeys(current, target);
      assert false;
    }
  }
}
