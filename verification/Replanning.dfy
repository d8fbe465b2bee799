/** Planning a second time without executing. The comparison sorts the lists of
    both states in place, so the second plan is not always the first one: the
    creations may come in another order. This module says exactly when. */
module Replanning {
  import opened Text
  import opened Serialised
  import opened Types
  import opened Planner
  import opened NetworkPlanning

  // ---- Sorting does not change what the comparison says ----

  lemma TidyTwice(x: Service)
    ensures Tidy(Tidy(x)) == Tidy(x)
  {
    SortedIdempotent(x.config.ports);
    SortedIdempotent(x.config.volumes);
    SortedIdempotent(x.config.networks);
  }

  lemma TidyCompared(c: Service, t: Service)
    ensures NeedsUpdate(Tidy(c), Tidy(t)) == NeedsUpdate(c, t)
  {
    hide Stringify, Sorted, EnvDiffers, SettingDiffers;
    SortedIdempotent(c.config.ports);
    SortedIdempotent(c.config.volumes);
    SortedIdempotent(c.config.networks);
    SortedIdempotent(t.config.ports);
    SortedIdempotent(t.config.volumes);
    SortedIdempotent(t.config.networks);
  }

  /** A pass over one service leaves this record of it. */
  function TidyOne(x: Option<Service>, compared: bool): Option<Service> {
    match x
    case Some(s) => Some(if compared then Tidy(s) else s)
    case None => None
  }

  predicate Meets(c: Option<Service>, t: Option<Service>) {
    c.Some? && t.Some? && !Transition(c.value, t.value)
  }

  lemma ServiceStepsTidy(a: nat, c: Option<Service>, t: Option<Service>, mayPull: bool)
    ensures ServiceSteps(a, TidyOne(c, Meets(c, t)), TidyOne(t, Meets(c, t)), mayPull) == ServiceSteps(a, c, t, mayPull)
  {
    hide NeedsUpdate, Sorted;
    if Meets(c, t) {
      TidyCompared(c.value, t.value);
      TidyTwice(t.value);
    }
  }

  // ---- Services ----

  function MeetsIn(own: seq<Service>, other: seq<Service>, ownIsCurrent: bool, id: nat): bool {
    if ownIsCurrent then Meets(FindLast(own, id), FindLast(other, id)) else Meets(FindLast(other, id),
        FindLast(own, id))
  }

  lemma FindTidied(own: seq<Service>, other: seq<Service>, ownIsCurrent: bool, id: nat)
    ensures FindLast(TidyServices(own, other, ownIsCurrent), id) ==
            TidyOne(FindLast(own, id), MeetsIn(own, other, ownIsCurrent, id))
  {
    hide Transition, Sorted;
    var tidied := TidyServices(own, other, ownIsCurrent);
    if FindLast(own, id).Some? {
      var k := LastIndex(own, id);
      LastFound(tidied, k);
    } else {
      forall y | y in tidied ensures y.serviceId != id {
        var i :| 0 <= i < |own| && tidied[i] == y;
        assert own[i] in own;
      }
    }
  }

  lemma TransitionTidy(c: Service, t: Service, x: bool, y: bool)
    ensures Transition(if x then Tidy(c) else c, if y then Tidy(t) else t) == Transition(c, t)
  {
    hide Sorted;
  }

  lemma MeetsTidied(own: seq<Service>, other: seq<Service>, ownIsCurrent: bool, id: nat)
    ensures MeetsIn(TidyServices(own, other, ownIsCurrent), TidyServices(other, own, !ownIsCurrent), ownIsCurrent, id)
            == MeetsIn(own, other, ownIsCurrent, id)
  {
    hide TidyServices, Tidy, Transition;
    FindTidied(own, other, ownIsCurrent, id);
    FindTidied(other, own, !ownIsCurrent, id);
    var x, y := FindLast(own, id), FindLast(other, id);
    if x.Some? && y.Some? {
      var m := MeetsIn(own, other, ownIsCurrent, id);
      assert m == MeetsIn(other, own, !ownIsCurrent, id);
      TransitionTidy(x.value, y.value, m, m);
      TransitionTidy(y.value, x.value, m, m);
    }
  }

  lemma ComparedMeets(own: seq<Service>, other: seq<Service>, ownIsCurrent: bool, i: nat)
    requires i < |own|
    ensures Compared(own, other, ownIsCurrent, i) <==>
            (forall j | i < j < |own| :: own[j].serviceId != own[i].serviceId)
            && MeetsIn(own, other, ownIsCurrent, own[i].serviceId)
  {
    hide Transition;
    if forall j | i < j < |own| :: own[j].serviceId != own[i].serviceId {
      LastFound(own, i);
    }
  }

  /** A second pass changes nothing more. */
  lemma TidyServicesTwice(own: seq<Service>, other: seq<Service>, ownIsCurrent: bool)
    ensures var own', other' := TidyServices(own, other, ownIsCurrent), TidyServices(other, own, !ownIsCurrent);
            TidyServices(own', other', ownIsCurrent) == own'
  {
    hide Compared, MeetsIn, TidyConfig;
    var own', other' := TidyServices(own, other, ownIsCurrent), TidyServices(other, own, !ownIsCurrent);
    assert forall i | 0 <= i < |own| :: own'[i].serviceId == own[i].serviceId;
    forall i | 0 <= i < |own| ensures TidyServices(own', other', ownIsCurrent)[i] == own'[i] {
      ComparedMeets(own, other, ownIsCurrent, i);
      ComparedMeets(own', other', ownIsCurrent, i);
      MeetsTidied(own, other, ownIsCurrent, own[i].serviceId);
      TidyTwice(own[i]);
    }
  }

  lemma {:induction false} UpdateStepsTidy(a: nat, current: seq<Service>, target: seq<Service>, ids: seq<nat>,
      mayPull: Retryable)
    ensures UpdateSteps(a, TidyServices(current, target, true), TidyServices(target, current, false), ids, mayPull)
            == UpdateSteps(a, current, target, ids, mayPull)
  {
    hide ServiceSteps, TidyServices, Transition, Tidy;
    if ids != [] {
      var id := ids[|ids| - 1];
      UpdateStepsTidy(a, current, target, ids[..|ids| - 1], mayPull);
      FindTidied(current, target, true, id);
      FindTidied(target, current, false, id);
      var c, t := FindLast(current, id), FindLast(target, id);
      assert MayPull(TidyOne(t, Meets(c, t)), mayPull) == MayPull(t, mayPull) by {
        if t.Some? { assert Tidy(t.value).imageName == t.value.imageName by { TidyKeeps(t.value); } }
      }
      ServiceStepsTidy(a, c, t, MayPull(t, mayPull));
    }
  }

  lemma TidyKeeps(x: Service)
    ensures Tidy(x).imageName == x.imageName && Tidy(x).serviceId == x.serviceId
  {
  }

  // ---- Apps ----

  lemma ContainerStepsTidy(a: nat, cur: Option<App>, tgt: Option<App>, mayPull: Retryable)
    ensures ContainerSteps(a, TidyCurrent(cur, tgt), TidyTarget(cur, tgt), mayPull) == ContainerSteps(a, cur, tgt,
            mayPull)
  {
    hide UpdateSteps, AllIds;
    if cur.Some? && tgt.Some? {
      var c, t := cur.value.services, tgt.value.services;
      assert AllIds(TidyServices(c, t, true), TidyServices(t, c, false)) == AllIds(c, t) by { AllIdsTidy(c, t); }
      UpdateStepsTidy(a, c, t, AllIds(c, t), mayPull);
    }
  }

  lemma AllIdsTidy(c: seq<Service>, t: seq<Service>)
    ensures AllIds(TidyServices(c, t, true), TidyServices(t, c, false)) == AllIds(c, t)
  {
    hide Compared;
    assert Ids(TidyServices(c, t, true)) == Ids(c);
    assert Ids(TidyServices(t, c, false)) == Ids(t);
  }

  lemma AppTidyTwice(cur: Option<App>, tgt: Option<App>)
    ensures TidyCurrent(TidyCurrent(cur, tgt), TidyTarget(cur, tgt)) == TidyCurrent(cur, tgt)
    ensures TidyTarget(TidyCurrent(cur, tgt), TidyTarget(cur, tgt)) == TidyTarget(cur, tgt)
  {
    hide TidyServices;
    if cur.Some? && tgt.Some? {
      TidyServicesTwice(cur.value.services, tgt.value.services, true);
      TidyServicesTwice(tgt.value.services, cur.value.services, false);
    }
  }

  // ---- When sorting keeps the order of the creations ----

  datatype Kind = Nets | Vols

  /** The list that a service gives, and the name that an entry stands for. */
  function ListOf(s: Service, kind: Kind): seq<string> {
    match kind
    case Nets => s.config.networks
    case Vols => s.config.volumes
  }

  function NameIn(kind: Kind, entry: string): Option<string> {
    match kind
    case Nets => Some(entry)
    case Vols => if HasPrefix(entry, "/") then None else Some(Split(entry, ':')[0])
  }

  function Picked(list: seq<string>, kind: Kind): seq<string> {
    if list == [] then []
    else
      var r := Picked(list[..|list| - 1], kind);
      match NameIn(kind, list[|list| - 1])
      case Some(n) => r + [n]
      case None => r
  }

  function AllPicked(services: seq<Service>, kind: Kind): seq<string> {
    if services == [] then []
    else AllPicked(services[..|services| - 1], kind) + Picked(ListOf(services[|services| - 1], kind), kind)
  }

  function CurrentNames(app: Option<App>, kind: Kind): seq<string> {
    match kind
    case Nets => NetworkNames(app)
    case Vols => NamedVolumes(app)
  }

  function NewNames(cur: Option<App>, tgt: Option<App>, kind: Kind): seq<string> {
    match kind
    case Nets => NewNetworks(cur, tgt)
    case Vols => NewVolumes(cur, tgt)
  }

  lemma {:induction false} PickedIs(list: seq<string>)
    ensures Picked(list, Nets) == list && Picked(list, Vols) == VolumeNames(list)
  {
    hide HasPrefix, Split;
    if list != [] {
      PickedIs(list[..|list| - 1]);
      assert list == list[..|list| - 1] + [list[|list| - 1]];
    }
  }

  lemma {:induction false} AllPickedIs(services: seq<Service>)
    ensures AllPicked(services, Nets) == AllNetworks(services) && AllPicked(services, Vols) == AllVolumes(services)
  {
    hide Picked, VolumeNames;
    if services != [] {
      AllPickedIs(services[..|services| - 1]);
      PickedIs(services[|services| - 1].config.networks);
      PickedIs(services[|services| - 1].config.volumes);
    }
  }

  /** The new names that service `i` is the first of the target to introduce. */
  function Introduced(services: seq<Service>, i: nat, kind: Kind, current: seq<string>): seq<string>
    requires i < |services|
  {
    Missing(Missing(Uniq(Picked(ListOf(services[i], kind), kind)), AllPicked(services[..i], kind)), current)
  }

  /** Some entry that stands for `x` sorts before every entry that stands for `y`. */
  predicate SortsBefore(list: seq<string>, kind: Kind, x: string, y: string) {
    exists e | e in list :: NameIn(kind, e) == Some(x)
                            && forall f | f in list && NameIn(kind, f) == Some(y) :: LexLe(e, f)
  }

  predicate InOrder(list: seq<string>, kind: Kind, names: seq<string>) {
    forall i, j | 0 <= i < j < |names| :: SortsBefore(list, kind, names[i], names[j])
  }

  /** The new names that a compared target service is the first to introduce
      already come in the order in which its sorted list would give them. */
  predicate CreationsInOrder(cur: Option<App>, tgt: Option<App>) {
    cur.Some? && tgt.Some? ==>
      forall i | 0 <= i < |tgt.value.services| && Compared(tgt.value.services, cur.value.services, false, i) ::
        && InOrder(ListOf(tgt.value.services[i], Nets), Nets,
                   Introduced(tgt.value.services, i, Nets, CurrentNames(cur, Nets)))
        && InOrder(ListOf(tgt.value.services[i], Vols), Vols,
                   Introduced(tgt.value.services, i, Vols, CurrentNames(cur, Vols)))
  }

  lemma {:induction false} MissingMore(xs: seq<string>, x: string, ys: seq<string>)
    ensures Missing(xs + [x], ys) == if x in ys then Missing(xs, ys) else Missing(xs, ys) + [x]
  {
    assert (xs + [x])[..|xs|] == xs && (xs + [x])[|xs|] == x;
  }

  lemma {:induction false} MissingLast(xs: seq<string>, init: seq<string>, z: string, ys: seq<string>)
    requires Missing(xs + init, ys) == Missing(xs, ys) + Missing(init, ys)
    ensures Missing(xs + (init + [z]), ys) == Missing(xs, ys) + Missing(init + [z], ys)
  {
    hide Missing;
    assert xs + (init + [z]) == (xs + init) + [z];
    MissingMore(xs + init, z, ys);
    MissingMore(init, z, ys);
    if z !in ys {
      var a, b := Missing(xs, ys), Missing(init, ys);
      assert (a + b) + [z] == a + (b + [z]);
    }
  }

  lemma {:induction false} MissingConcat(xs: seq<string>, zs: seq<string>, ys: seq<string>)
    ensures Missing(xs + zs, ys) == Missing(xs, ys) + Missing(zs, ys)
  {
    hide Missing;
    if zs == [] {
      assert xs + zs == xs;
      NoneMissing(ys);
    } else {
      var n := |zs| - 1;
      var init, z := zs[..n], zs[n];
      assert zs == init + [z];
      MissingConcat(xs, init, ys);
      MissingLast(xs, init, z, ys);
    }
  }

  lemma {:induction false} MissingSame(xs: seq<string>, ys: seq<string>, zs: seq<string>)
    requires forall x :: x in ys <==> x in zs
    ensures Missing(xs, ys) == Missing(xs, zs)
  {
    if xs != [] {
      MissingSame(xs[..|xs| - 1], ys, zs);
    }
  }

  lemma {:induction false} UniqLast(xs: seq<string>, init: seq<string>, y: string)
    requires Uniq(xs + init) == Uniq(xs) + Missing(Uniq(init), xs)
    ensures Uniq(xs + (init + [y])) == Uniq(xs) + Missing(Uniq(init + [y]), xs)
  {
    hide Uniq, Missing;
    assert xs + (init + [y]) == (xs + init) + [y];
    UniqMore(xs + init, y);
    UniqMore(init, y);
    if y !in xs + init {
      var a, b := Uniq(xs), Missing(Uniq(init), xs);
      MissingMore(Uniq(init), y, xs);
      assert (a + b) + [y] == a + (b + [y]);
    } else if y !in init {
      MissingMore(Uniq(init), y, xs);
    }
  }

  /** Later names come after the earlier ones that are not repeated. */
  lemma {:induction false} UniqConcat(xs: seq<string>, ys: seq<string>)
    ensures Uniq(xs + ys) == Uniq(xs) + Missing(Uniq(ys), xs)
  {
    hide Uniq, Missing;
    if ys == [] {
      assert xs + ys == xs && ys == [];
      NoneUniq();
      NoneMissing(xs);
    } else {
      var n := |ys| - 1;
      var init, y := ys[..n], ys[n];
      assert ys == init + [y];
      UniqConcat(xs, init);
      UniqLast(xs, init, y);
    }
  }

  lemma NoneMissing(ys: seq<string>)
    ensures Missing([], ys) == []
  {
  }

  lemma NewMore(services: seq<Service>, i: nat, kind: Kind, current: seq<string>)
    requires i < |services|
    ensures Missing(Uniq(AllPicked(services[..i + 1], kind)), current)
            == Missing(Uniq(AllPicked(services[..i], kind)), current) + Introduced(services, i, kind, current)
  {
    hide Uniq, Missing, Picked;
    assert services[..i + 1][..i] == services[..i] && services[..i + 1][i] == services[i];
    UniqConcat(AllPicked(services[..i], kind), Picked(ListOf(services[i], kind), kind));
    MissingConcat(Uniq(AllPicked(services[..i], kind)),
                  Missing(Uniq(Picked(ListOf(services[i], kind), kind)), AllPicked(services[..i], kind)), current);
  }

  lemma {:induction false} PickedMember(list: seq<string>, kind: Kind, n: string)
    ensures n in Picked(list, kind) <==> exists e :: e in list && NameIn(kind, e) == Some(n)
  {
    hide NameIn;
    if list != [] {
      var k := |list| - 1;
      PickedMember(list[..k], kind, n);
      assert list == list[..k] + [list[k]];
    }
  }

  /** A sorted list introduces its names in order. */
  lemma {:induction false} OrderedPicked(s: seq<string>, kind: Kind)
    requires Ordered(s)
    ensures InOrder(s, kind, Uniq(Picked(s, kind)))
  {
    hide NameIn, LexLe, Uniq;
    if s == [] {
      assert Uniq<string>([]) == [] by { NoneUniq(); }
    } else {
      var k := |s| - 1;
      var init, v := s[..k], s[k];
      OrderedPicked(init, kind);
      var r := Uniq(Picked(init, kind));
      assert s == init + [v];
      match NameIn(kind, v)
      case None => LaterEntry(init, v, kind, r);
      case Some(n) =>
        UniqMore(Picked(init, kind), n);
        LaterEntry(init, v, kind, r);
        if n !in Picked(init, kind) {
          LastName(init, v, kind, r, n);
        }
    }
  }

  lemma NoneUniq()
    ensures Uniq<string>([]) == []
  {
  }

  /** An entry that sorts last does not disturb the order. */
  lemma LaterEntry(init: seq<string>, v: string, kind: Kind, names: seq<string>)
    requires InOrder(init, kind, names) && Ordered(init + [v])
    ensures InOrder(init + [v], kind, names)
  {
    hide NameIn, LexLe;
    var s := init + [v];
    forall i, j | 0 <= i < j < |names| ensures SortsBefore(s, kind, names[i], names[j]) {
      assert SortsBefore(init, kind, names[i], names[j]);
      var e :| e in init && NameIn(kind, e) == Some(names[i])
               && forall f | f in init && NameIn(kind, f) == Some(names[j]) :: LexLe(e, f);
      var m :| 0 <= m < |init| && init[m] == e;
      assert LexLe(s[m], s[|init|]);
      assert e in s;
    }
  }

  lemma LastName(init: seq<string>, v: string, kind: Kind, names: seq<string>, n: string)
    requires InOrder(init + [v], kind, names) && Ordered(init + [v]) && NameIn(kind, v) == Some(n)
    requires n !in Picked(init, kind) && forall x | x in names :: x in Picked(init, kind)
    ensures InOrder(init + [v], kind, names + [n])
  {
    hide NameIn, LexLe;
    var s := init + [v];
    PickedMember(init, kind, n);
    forall i | 0 <= i < |names| ensures SortsBefore(s, kind, names[i], n) {
      PickedMember(init, kind, names[i]);
      var e :| e in init && NameIn(kind, e) == Some(names[i]);
      var m :| 0 <= m < |init| && init[m] == e;
      assert LexLe(s[m], s[|init|]);
      assert e in s;
    }
  }

  lemma SortsSame(list: seq<string>, list': seq<string>, kind: Kind, names: seq<string>)
    requires InOrder(list, kind, names) && forall e :: e in list <==> e in list'
    ensures InOrder(list', kind, names)
  {
    hide NameIn, LexLe;
    forall i, j | 0 <= i < j < |names| ensures SortsBefore(list', kind, names[i], names[j]) {
      assert SortsBefore(list, kind, names[i], names[j]);
    }
  }

  /** Leaving names out keeps the order of the others. */
  lemma {:induction false} MissingOrder(list: seq<string>, kind: Kind, xs: seq<string>, ys: seq<string>)
    requires InOrder(list, kind, xs)
    ensures InOrder(list, kind, Missing(xs, ys))
  {
    hide SortsBefore;
    if xs != [] {
      var n := |xs| - 1;
      MissingOrder(list, kind, xs[..n], ys);
      var r := Missing(xs[..n], ys);
      if xs[n] !in ys {
        forall i | 0 <= i < |r| ensures SortsBefore(list, kind, r[i], xs[n]) {
          assert r[i] in r && r[i] in xs[..n];
          var m :| 0 <= m < n && xs[m] == r[i];
        }
      }
    }
  }

  lemma BeforeBoth(list: seq<string>, kind: Kind, x: string, y: string)
    requires SortsBefore(list, kind, x, y) && SortsBefore(list, kind, y, x)
    ensures x == y
  {
    hide NameIn, LexLe;
    var e :| e in list && NameIn(kind, e) == Some(x) && forall f | f in list && NameIn(kind, f)
        == Some(y) :: LexLe(e, f);
    var g :| g in list && NameIn(kind, g) == Some(y) && forall f | f in list && NameIn(kind, f)
        == Some(x) :: LexLe(g, f);
    LexAntisymmetric(e, g);
  }

  lemma InTail(a: seq<string>)
    requires a != [] && Distinct(a)
    ensures forall n :: n in a[1..] <==> n in a && n != a[0]
  {
    assert a == [a[0]] + a[1..];
  }

  /** There is only one order. */
  lemma {:induction false} OrderUnique(list: seq<string>, kind: Kind, a: seq<string>, b: seq<string>)
    requires InOrder(list, kind, a) && InOrder(list, kind, b) && Distinct(a) && Distinct(b)
    requires forall n :: n in a <==> n in b
    ensures a == b
  {
    hide SortsBefore;
    if a == [] {
      assert b == [] by { assert forall k | 0 <= k < |b| :: b[k] in b; }
    } else {
      assert a[0] in b && b[0] in a by { assert a[0] in a; assert b != [] && b[0] in b; }
      var x, y := a[0], b[0];
      if x != y {
        var i :| 0 <= i < |b| && b[i] == x;
        var j :| 0 <= j < |a| && a[j] == y;
        BeforeBoth(list, kind, x, y);
      }
      InTail(a);
      InTail(b);
      OrderUnique(list, kind, a[1..], b[1..]);
    }
  }

  lemma PickedSame(list: seq<string>, list': seq<string>, kind: Kind, n: string)
    requires forall e :: e in list <==> e in list'
    ensures n in Picked(list, kind) <==> n in Picked(list', kind)
  {
    hide NameIn;
    PickedMember(list, kind, n);
    PickedMember(list', kind, n);
  }

  /** Before and after a pass the lists of each service have the same entries. */
  ghost predicate SameEntries(p: seq<Service>, q: seq<Service>, kind: Kind) {
    |p| == |q| && forall i, e | 0 <= i < |p| :: e in ListOf(p[i], kind) <==> e in ListOf(q[i], kind)
  }

  lemma {:induction false} AllPickedSame(p: seq<Service>, q: seq<Service>, kind: Kind, n: string)
    requires SameEntries(p, q, kind)
    ensures n in AllPicked(p, kind) <==> n in AllPicked(q, kind)
  {
    hide Picked, ListOf;
    if p != [] {
      var k := |p| - 1;
      AllPickedSame(p[..k], q[..k], kind, n);
      PickedSame(ListOf(p[k], kind), ListOf(q[k], kind), kind, n);
    }
  }

  /** A service introduces the same names with a sorted list, in sorted order. */
  lemma SortedIntroduces(p: seq<Service>, q: seq<Service>, i: nat, kind: Kind, cur: seq<string>, cur': seq<string>)
    requires i < |p| && SameEntries(p, q, kind) && forall n :: n in cur <==> n in cur'
    ensures ListOf(q[i], kind) == ListOf(p[i], kind) ==> Introduced(q, i, kind, cur') == Introduced(p, i, kind, cur)
    ensures ListOf(q[i], kind) == Sorted(ListOf(p[i], kind)) ==>
              (Introduced(q, i, kind, cur') == Introduced(p, i, kind, cur) <==>
               InOrder(ListOf(p[i], kind), kind, Introduced(p, i, kind, cur)))
  {
    hide ListOf, Picked, AllPicked, Missing, Uniq, Sorted, SortsBefore, InOrder, Distinct;
    var list, list' := ListOf(p[i], kind), ListOf(q[i], kind);
    var names, names' := Uniq(Picked(list, kind)), Uniq(Picked(list', kind));
    var before, before' := AllPicked(p[..i], kind), AllPicked(q[..i], kind);
    var a, b := Introduced(p, i, kind, cur), Introduced(q, i, kind, cur');
    forall n ensures n in before <==> n in before' {
      AllPickedSame(p[..i], q[..i], kind, n);
    }
    MissingSame(names', before', before);
    MissingSame(Missing(names', before), cur', cur);
    assert b == Missing(Missing(names', before), cur);
    if list' == Sorted(list) {
      SortedOrdered(list);
      OrderedPicked(list', kind);
      MissingOrder(list', kind, names', before);
      MissingOrder(list', kind, Missing(names', before), cur);
      assert forall e :: e in list <==> e in list';
      forall n ensures n in a <==> n in b {
        PickedSame(list, list', kind, n);
      }
      if InOrder(list, kind, a) {
        SortsSame(list, list', kind, a);
        OrderUnique(list', kind, a, b);
      }
      if a == b {
        SortsSame(list', list, kind, a);
      }
    }
  }

  /** The new names are the services' introductions one after the other, so they
      keep their order exactly if each service's do. */
  lemma {:induction false} OrderOfBlocks(p: seq<Service>, q: seq<Service>, kind: Kind, cur: seq<string>,
      cur': seq<string>, n: nat)
    requires n <= |p| && SameEntries(p, q, kind) && forall x :: x in cur <==> x in cur'
    ensures Missing(Uniq(AllPicked(q[..n], kind)), cur') == Missing(Uniq(AllPicked(p[..n], kind)), cur) <==>
            forall i | 0 <= i < n :: Introduced(q, i, kind, cur') == Introduced(p, i, kind, cur)
  {
    hide ListOf, Picked, AllPicked, Missing, Uniq, Introduced, Distinct;
    if n == 0 {
      assert p[..0] == [] && q[..0] == [];
      NothingPicked(kind);
      NoneUniq();
      NoneMissing(cur);
      NoneMissing(cur');
    } else {
      var i := n - 1;
      OrderOfBlocks(p, q, kind, cur, cur', i);
      NewMore(p, i, kind, cur);
      NewMore(q, i, kind, cur');
      SameLength(p, q, i, kind, cur, cur');
      SameBlocks(Missing(Uniq(AllPicked(q[..i], kind)), cur'), Introduced(q, i, kind, cur'),
                 Missing(Uniq(AllPicked(p[..i], kind)), cur), Introduced(p, i, kind, cur));
    }
  }

  lemma NothingPicked(kind: Kind)
    ensures AllPicked([], kind) == []
  {
  }

  lemma SameLength(p: seq<Service>, q: seq<Service>, i: nat, kind: Kind, cur: seq<string>, cur': seq<string>)
    requires i < |p| && SameEntries(p, q, kind) && forall x :: x in cur <==> x in cur'
    ensures |Introduced(q, i, kind, cur')| == |Introduced(p, i, kind, cur)|
  {
    hide ListOf, Picked, AllPicked, Distinct;
    var a, b := Introduced(p, i, kind, cur), Introduced(q, i, kind, cur');
    forall n ensures n in a <==> n in b {
      PickedSame(ListOf(p[i], kind), ListOf(q[i], kind), kind, n);
      AllPickedSame(p[..i], q[..i], kind, n);
    }
    DistinctSame(a, b);
    assert |a| == |multiset(a)| && |b| == |multiset(b)|;
  }

  lemma SameBlocks(x: seq<string>, y: seq<string>, x': seq<string>, y': seq<string>)
    requires |y| == |y'|
    ensures x + y == x' + y' <==> x == x' && y == y'
  {
    if x + y == x' + y' {
      assert |x| == |x'|;
      assert (x + y)[..|x|] == x && (x' + y')[..|x'|] == x';
      assert (x + y)[|x|..] == y && (x' + y')[|x'|..] == y';
    }
  }

  /** The creations of an app come in the same order after the lists of the
      compared services have been sorted. */
  predicate SameCreations(cur: Option<App>, tgt: Option<App>) {
    && NewNetworks(TidyCurrent(cur, tgt), TidyTarget(cur, tgt)) == NewNetworks(cur, tgt)
    && NewVolumes(TidyCurrent(cur, tgt), TidyTarget(cur, tgt)) == NewVolumes(cur, tgt)
  }

  /** Sorting permutes the creations. */
  lemma CreationsPermuted(cur: Option<App>, tgt: Option<App>)
    ensures var cur', tgt' := TidyCurrent(cur, tgt), TidyTarget(cur, tgt);
            && multiset(NewNetworks(cur', tgt')) == multiset(NewNetworks(cur, tgt))
            && multiset(NewVolumes(cur', tgt')) == multiset(NewVolumes(cur, tgt))
  {
    hide NetworkNames, NamedVolumes, TidyCurrent, TidyTarget, NamesNetwork, NamesVolume;
    var cur', tgt' := TidyCurrent(cur, tgt), TidyTarget(cur, tgt);
    DistinctLists(cur, tgt);
    DistinctLists(cur', tgt');
    forall n
      ensures n in NewNetworks(cur', tgt') <==> n in NewNetworks(cur, tgt)
      ensures n in NewVolumes(cur', tgt') <==> n in NewVolumes(cur, tgt)
    {
      NameLists(cur, n);
      NameLists(tgt, n);
      NameLists(cur', n);
      NameLists(tgt', n);
      TidiedNames(cur, tgt, n);
    }
    DistinctSame(NewNetworks(cur', tgt'), NewNetworks(cur, tgt));
    DistinctSame(NewVolumes(cur', tgt'), NewVolumes(cur, tgt));
  }

  lemma NewNamesAre(cur: Option<App>, tgt: Option<App>, kind: Kind)
    ensures NewNames(cur, tgt, kind)
            == Missing(Uniq(AllPicked(ServicesOf(tgt), kind)), CurrentNames(cur, kind))
  {
    hide Missing, Uniq, AllPicked, AllNetworks, AllVolumes;
    AllPickedIs(ServicesOf(tgt));
  }

  lemma CurrentNamesSame(cur: Option<App>, tgt: Option<App>, kind: Kind, n: string)
    ensures n in CurrentNames(TidyCurrent(cur, tgt), kind) <==> n in CurrentNames(cur, kind)
  {
    hide NetworkNames, NamedVolumes, TidyCurrent, NamesNetwork, NamesVolume;
    TidiedNames(cur, tgt, n);
    NameLists(cur, n);
    NameLists(TidyCurrent(cur, tgt), n);
  }

  lemma TidiedList(own: seq<Service>, other: seq<Service>, i: nat, kind: Kind)
    requires i < |own|
    ensures ListOf(TidyServices(own, other, false)[i], kind)
            == if Compared(own, other, false, i) then Sorted(ListOf(own[i], kind)) else ListOf(own[i], kind)
  {
    hide Compared, Sorted;
  }

  lemma TidiedEntries(own: seq<Service>, other: seq<Service>, kind: Kind)
    ensures SameEntries(own, TidyServices(own, other, false), kind)
  {
    hide Compared, TidyServices;
    TidyMembers(own, other, false);
  }

  /** For one kind of names: their order survives exactly if every compared
      service already introduces its own in order. */
  lemma KindInOrder(cur: App, tgt: App, kind: Kind)
    ensures NewNames(TidyCurrent(Some(cur), Some(tgt)), TidyTarget(Some(cur), Some(tgt)), kind)
            == NewNames(Some(cur), Some(tgt), kind) <==>
            forall i | 0 <= i < |tgt.services| && Compared(tgt.services, cur.services, false, i) ::
              InOrder(ListOf(tgt.services[i], kind), kind,
                      Introduced(tgt.services, i, kind, CurrentNames(Some(cur), kind)))
  {
    hide NewNames, CurrentNames, Compared, InOrder, Introduced, ListOf, Missing, Uniq, AllPicked, SameEntries;
    var c, t := Some(cur), Some(tgt);
    var c', t' := TidyCurrent(c, t), TidyTarget(c, t);
    var p, q := tgt.services, TidyServices(tgt.services, cur.services, false);
    var names, names' := CurrentNames(c, kind), CurrentNames(c', kind);
    forall n ensures n in names <==> n in names' {
      CurrentNamesSame(c, t, kind, n);
    }
    TidiedEntries(p, cur.services, kind);
    NewNamesAre(c, t, kind);
    NewNamesAre(c', t', kind);
    assert p[..|p|] == p && q[..|p|] == q && |q| == |p| && ServicesOf(t') == q;
    hide TidyServices;
    OrderOfBlocks(p, q, kind, names, names', |p|);
    forall i | 0 <= i < |p|
      ensures Introduced(q, i, kind, names') == Introduced(p, i, kind, names) <==>
              (Compared(p, cur.services, false, i) ==> InOrder(ListOf(p[i], kind), kind, Introduced(p, i, kind, names)))
    {
      TidiedList(p, cur.services, i, kind);
      SortedIntroduces(p, q, i, kind, names, names');
    }
  }

  /** The creations keep their order exactly if the lists introduce them in it. */
  lemma OrderDecides(cur: Option<App>, tgt: Option<App>)
    ensures SameCreations(cur, tgt) <==> CreationsInOrder(cur, tgt)
  {
    hide Compared, InOrder, Introduced, ListOf, TidyServices, NewNetworks, NewVolumes, CurrentNames;
    if cur.Some? && tgt.Some? {
      KindInOrder(cur.value, tgt.value, Nets);
      KindInOrder(cur.value, tgt.value, Vols);
    }
  }

  function Creations(a: nat, volumes: seq<string>, networks: seq<string>): seq<Step> {
    VolumeCreations(a, volumes) + NetworkCreations(a, networks)
  }

  /** The creation steps determine, and as a multiset are determined by, the names. */
  lemma CreationsCompare(a: nat, v: seq<string>, n: seq<string>, v': seq<string>, n': seq<string>)
    requires multiset(v) == multiset(v') && multiset(n) == multiset(n')
    ensures |Creations(a, v, n)| == |Creations(a, v', n')|
    ensures multiset(Creations(a, v, n)) == multiset(Creations(a, v', n'))
    ensures Creations(a, v, n) == Creations(a, v', n') <==> v == v' && n == n'
  {
    assert |v| == |multiset(v)| == |multiset(v')| == |v'|;
    assert |n| == |multiset(n)| == |multiset(n')| == |n'|;
    var volume, network := x => CreateVolume(a, x), x => CreateNetwork(a, x);
    MappedCounts(v, v', volume);
    MappedCounts(n, n', network);
    assert VolumeCreations(a, v) == Mapped(v, volume) && VolumeCreations(a, v') == Mapped(v', volume);
    assert NetworkCreations(a, n) == Mapped(n, network) && NetworkCreations(a, n') == Mapped(n', network);
    if Creations(a, v, n) == Creations(a, v', n') {
      forall i | 0 <= i < |v| ensures v[i] == v'[i] {
        assert Creations(a, v, n)[i] == CreateVolume(a, v[i]) && Creations(a, v', n')[i] == CreateVolume(a, v'[i]);
      }
      forall i | 0 <= i < |n| ensures n[i] == n'[i] {
        assert Creations(a, v, n)[|v| + i] == CreateNetwork(a, n[i]);
        assert Creations(a, v', n')[|v'| + i] == CreateNetwork(a, n'[i]);
      }
    }
  }

  function Mapped(names: seq<string>, make: string -> Step): seq<Step> {
    seq(|names|, i requires 0 <= i < |names| => make(names[i]))
  }

  lemma MappedConcat(x: seq<string>, y: seq<string>, make: string -> Step)
    ensures Mapped(x + y, make) == Mapped(x, make) + Mapped(y, make)
  {
  }

  lemma TakeOut(v: seq<string>, x: string) returns (left: seq<string>, right: seq<string>)
    requires x in multiset(v)
    ensures v == left + [x] + right && multiset(left + right) == multiset(v) - multiset{x}
  {
    var k :| 0 <= k < |v| && v[k] == x;
    left, right := v[..k], v[k + 1..];
    assert v == left + [x] + right;
  }

  lemma {:induction false} MappedCounts(v: seq<string>, v': seq<string>, make: string -> Step)
    requires multiset(v) == multiset(v')
    ensures multiset(Mapped(v, make)) == multiset(Mapped(v', make))
    decreases |v|
  {
    if v == [] {
      assert v' == [] by { assert |v'| == |multiset(v')|; }
    } else {
      var x, rest := v[0], v[1..];
      assert v == [x] + rest;
      var left, right := TakeOut(v', x);
      MappedCounts(rest, left + right, make);
      hide Mapped;
      MappedConcat([x], rest, make);
      MappedConcat(left, right, make);
      MappedConcat(left, [x], make);
      MappedConcat(left + [x], right, make);
    }
  }

  lemma SameTail(x: seq<Step>, y: seq<Step>, rest: seq<Step>)
    requires |x| == |y| && multiset(x) == multiset(y)
    ensures x + rest == y + rest <==> x == y
    ensures |x + rest| == |y + rest| && multiset(x + rest) == multiset(y + rest)
  {
    assert (x + rest)[..|x|] == x && (y + rest)[..|y|] == y;
  }

  function AfterCreations(a: nat, cur: Option<App>, tgt: Option<App>, mayPull: Retryable): seq<Step> {
    ContainerSteps(a, cur, tgt, mayPull)
    + NetworkRemovals(a, OldNetworks(TidyCurrent(cur, tgt), TidyTarget(cur, tgt)))
    + VolumeRemovals(a, OldVolumes(TidyCurrent(cur, tgt), TidyTarget(cur, tgt)))
  }

  lemma CreationsFirst(a: nat, cur: Option<App>, tgt: Option<App>, mayPull: Retryable)
    ensures AppSteps(a, cur, tgt, mayPull)
            == Creations(a, NewVolumes(cur, tgt), NewNetworks(cur, tgt)) + AfterCreations(a, cur, tgt, mayPull)
  {
    hide ContainerSteps, TidyCurrent, TidyTarget, NewNetworks, NewVolumes, OldNetworks, OldVolumes;
    hide NetworkCreations, NetworkRemovals, VolumeCreations, VolumeRemovals;
  }

  lemma RestTwice(a: nat, cur: Option<App>, tgt: Option<App>, mayPull: Retryable)
    ensures AfterCreations(a, TidyCurrent(cur, tgt), TidyTarget(cur, tgt), mayPull) == AfterCreations(a, cur, tgt,
            mayPull)
  {
    hide ContainerSteps, TidyCurrent, TidyTarget, OldNetworks, OldVolumes, NetworkRemovals, VolumeRemovals;
    AppTidyTwice(cur, tgt);
    ContainerStepsTidy(a, cur, tgt, mayPull);
  }

  lemma AppStepsTwice(a: nat, cur: Option<App>, tgt: Option<App>, mayPull: Retryable)
    ensures var again := AppSteps(a, TidyCurrent(cur, tgt), TidyTarget(cur, tgt), mayPull);
            var first := AppSteps(a, cur, tgt, mayPull);
            && |again| == |first| && multiset(again) == multiset(first)
            && (again == first <==> SameCreations(cur, tgt))
  {
    hide AppSteps, AfterCreations, Creations, TidyCurrent, TidyTarget, NewNetworks, NewVolumes;
    var cur', tgt' := TidyCurrent(cur, tgt), TidyTarget(cur, tgt);
    CreationsFirst(a, cur, tgt, mayPull);
    CreationsFirst(a, cur', tgt', mayPull);
    RestTwice(a, cur, tgt, mayPull);
    CreationsPermuted(cur, tgt);
    CreationsCompare(a, NewVolumes(cur', tgt'), NewNetworks(cur', tgt'), NewVolumes(cur, tgt), NewNetworks(cur, tgt));
    SameTail(Creations(a, NewVolumes(cur', tgt'), NewNetworks(cur', tgt')),
             Creations(a, NewVolumes(cur, tgt), NewNetworks(cur, tgt)), AfterCreations(a, cur, tgt, mayPull));
  }

  // ---- The whole plan ----

  lemma SameParts(x: seq<Step>, y: seq<Step>, x': seq<Step>, y': seq<Step>)
    requires |x| == |x'| && |y| == |y'|
    ensures x + y == x' + y' <==> x == x' && y == y'
  {
    assert (x + y)[..|x|] == x && (x' + y')[..|x'|] == x';
    assert (x + y)[|x|..] == y && (x' + y')[|x'|..] == y';
  }

  lemma {:induction false} StepsForTwice(ids: seq<nat>, current: Apps, target: Apps, mayPull: Retryable)
    ensures var again := StepsFor(ids, TidyCurrentApps(current, target), TidyTargetApps(current, target), mayPull);
            var first := StepsFor(ids, current, target, mayPull);
            && |again| == |first| && multiset(again) == multiset(first)
            && (again == first <==> forall a | a in ids :: SameCreations(AppAt(current, a), AppAt(target, a)))
  {
    hide AppSteps, SameCreations, TidyCurrent, TidyTarget;
    if ids != [] {
      var n := |ids| - 1;
      var a := ids[n];
      assert ids == ids[..n] + [a];
      StepsForTwice(ids[..n], current, target, mayPull);
      var c, t := TidyCurrentApps(current, target), TidyTargetApps(current, target);
      TidyAt(current, target, a);
      AppStepsTwice(a, AppAt(current, a), AppAt(target, a), mayPull);
      SameParts(StepsFor(ids[..n], c, t, mayPull), AppSteps(a, AppAt(c, a), AppAt(t, a), mayPull),
                StepsFor(ids[..n], current, target, mayPull), AppSteps(a, AppAt(current, a), AppAt(target, a),
                    mayPull));
    }
  }

  /** Planning twice without executing gives the same steps with the same
      multiplicities, and the same plan exactly when in every app each compared
      target service introduces its new networks and volumes in sorted order. */
  lemma PlanTwice(current: Apps, target: Apps, mayPull: Retryable)
    ensures var again := Plan(TidyCurrentApps(current, target), TidyTargetApps(current, target), mayPull);
            var first := Plan(current, target, mayPull);
            && multiset(again) == multiset(first)
            && (again == first <==>
                forall a | a in current && a in target :: CreationsInOrder(Some(current[a]), Some(target[a])))
  {
    hide StepsFor, AppIds, SameCreations, Compared, InOrder, TidyCurrent, TidyTarget;
    assert TidyCurrentApps(current, target).Keys == current.Keys && TidyTargetApps(current, target).Keys == target.Keys;
    AppIdsOnly(TidyCurrentApps(current, target), TidyTargetApps(current, target), current, target);
    StepsForTwice(AppIds(current, target), current, target, mayPull);
    forall a ensures SameCreations(AppAt(current, a), AppAt(target, a)) <==>
                     (a in current && a in target ==> CreationsInOrder(Some(current[a]), Some(target[a]))) {
      OrderDecides(AppAt(current, a), AppAt(target, a));
    }
  }

  lemma AppIdsOnly(c: Apps, t: Apps, c': Apps, t': Apps)
    requires c.Keys == c'.Keys && t.Keys == t'.Keys
    ensures AppIds(c, t) == AppIds(c', t')
  {
  }

  /** From the second plan on every further plan is the same. */
  lemma PlanSettles(current: Apps, target: Apps, mayPull: Retryable)
    ensures var c, t := TidyCurrentApps(current, target), TidyTargetApps(current, target);
            TidyCurrentApps(c, t) == c && TidyTargetApps(c, t) == t
            && Plan(TidyCurrentApps(c, t), TidyTargetApps(c, t), mayPull) == Plan(c, t, mayPull)
  {
    hide Plan, TidyCurrent, TidyTarget;
    var c, t := TidyCurrentApps(current, target), TidyTargetApps(current, target);
    forall a ensures AppAt(TidyCurrentApps(c, t), a) == AppAt(c, a) && AppAt(TidyTargetApps(c, t), a) == AppAt(t, a) {
      TidyAt(current, target, a);
      TidyAt(c, t, a);
      AppTidyTwice(AppAt(current, a), AppAt(target, a));
    }
    SameApps(TidyCurrentApps(c, t), c);
    SameApps(TidyTargetApps(c, t), t);
  }

  lemma SameApps(x: Apps, y: Apps)
    requires forall a :: AppAt(x, a) == AppAt(y, a)
    ensures x == y
  {
    forall a ensures (a in x <==> a in y) && (a in x ==> x[a] == y[a]) {
      assert AppAt(x, a) == AppAt(y, a);
    }
  }

  // ---- The order can change ----

  function Plain(id: nat, state: RunState, networks: seq<string>): Service {
    Service(id, "web", "nginx", 1, "app", Some(state), Config([], [], [], networks, None, None, map[]), Some(7),
        Some(Up), Unmarked)
  }

  function OnlyService(x: Service): App {
    App(1, "app", [x])
  }

  lemma TidySingle(c: Service, t: Service)
    requires Meets(Some(c), Some(t)) && c.serviceId == t.serviceId
    ensures TidyTarget(Some(OnlyService(c)), Some(OnlyService(t))) == Some(OnlyService(Tidy(t)))
    ensures TidyCurrent(Some(OnlyService(c)), Some(OnlyService(t))) == Some(OnlyService(Tidy(c)))
  {
    hide Sorted, Transition;
    assert FindLast([c], c.serviceId) == Some(c) && FindLast([t], t.serviceId) == Some(t);
    assert TidyServices([t], [c], false) == [Tidy(t)] by { assert Compared([t], [c], false, 0); }
    assert TidyServices([c], [t], true) == [Tidy(c)] by { assert Compared([c], [t], true, 0); }
  }

  lemma PlainReorders()
    ensures var c, t := Plain(5, Running, []), Plain(5, Running, ["b", "a"]);
            !SameCreations(Some(OnlyService(c)), Some(OnlyService(t)))
  {
    hide Sorted, NetworkNames, NewVolumes, TidyCurrent, TidyTarget, Missing;
    var c, t := Plain(5, Running, []), Plain(5, Running, ["b", "a"]);
    TidySingle(c, t);
    SortTwo();
    SortNone();
    SingleNetworks(c);
    SingleNetworks(t);
    SingleNetworks(Tidy(c));
    SingleNetworks(Tidy(t));
    MissingNothing(["b", "a"]);
    MissingNothing(["a", "b"]);
    assert ["b", "a"][0] != ["a", "b"][0];
  }

  /** A running service that is to join networks b and a: the first plan creates
      b before a, the second one a before b. */
  lemma PlanTwiceReorders(mayPull: Retryable)
    ensures var current: Apps := map[1 := OnlyService(Plain(5, Running, []))];
            var target: Apps := map[1 := OnlyService(Plain(5, Running, ["b", "a"]))];
            Plan(TidyCurrentApps(current, target), TidyTargetApps(current, target), mayPull)
            != Plan(current, target, mayPull)
  {
    hide Plan, Plain, OnlyService, CreationsInOrder, SameCreations, TidyCurrentApps, TidyTargetApps;
    var cur, tgt := OnlyService(Plain(5, Running, [])), OnlyService(Plain(5, Running, ["b", "a"]));
    var current: Apps := map[1 := cur];
    var target: Apps := map[1 := tgt];
    PlanTwice(current, target, mayPull);
    PlainReorders();
    OrderDecides(Some(cur), Some(tgt));
    assert 1 in current && 1 in target && current[1] == cur && target[1] == tgt;
  }

  lemma SortNone()
    ensures Sorted([]) == []
  {
  }

  lemma SortTwo()
    ensures Sorted(["b", "a"]) == ["a", "b"]
  {
    assert ["b", "a"][1..] == ["a"];
    assert Sorted(["a"]) == ["a"];
    assert !LexLe("b", "a");
    assert ["a"][1..] == [];
  }

  lemma SingleNetworks(x: Service)
    requires Distinct(x.config.networks)
    ensures NetworkNames(Some(OnlyService(x))) == x.config.networks
  {
    assert [x][..0] == [];
    assert AllNetworks([x]) == x.config.networks;
    UniqOfDistinct(x.config.networks);
  }

  lemma MissingNothing(xs: seq<string>)
    ensures Missing(xs, []) == xs
  {
  }
}
