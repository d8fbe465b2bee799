/** Networks and volumes in a plan: which are created and removed, in which
    order relative to the containers, and which are there when a container is
    started. */
module NetworkPlanning {
  import opened Text
  import opened Types
  import Serialised
  import opened Planner
  import opened PlanFacts

  // ---- Where the steps of a plan come from ----

  function Phase(step: Step): nat {
    match step
    case CreateVolume(_, _) => 0
    case CreateNetwork(_, _) => 1
    case RemoveNetwork(_, _) => 3
    case RemoveVolume(_, _) => 4
    case _ => 2
  }

  /** A container step made from a current and a target record of its app. */
  ghost predicate Arises(cur: seq<Service>, tgt: seq<Service>, step: Step) {
    exists c: Option<Service>, t: Option<Service>, s: nat ::
      && OwnStep(step.appId, s, c, t, step)
      && (c.Some? ==> c.value in cur && c.value.serviceId == s)
      && (t.Some? ==> t.value in tgt && t.value.serviceId == s)
  }

  ghost predicate AllArise(a: nat, cur: seq<Service>, tgt: seq<Service>, steps: seq<Step>) {
    forall x | x in steps :: x.appId == a && Phase(x) == 2 && Arises(cur, tgt, x)
  }

  lemma GroupArises(a: nat, s: nat, cur: seq<Service>, tgt: seq<Service>, c: Option<Service>, t: Option<Service>,
      mayPull: bool)
    requires c.Some? ==> c.value in cur && c.value.serviceId == s
    requires t.Some? ==> t.value in tgt && t.value.serviceId == s
    ensures AllArise(a, cur, tgt, ServiceSteps(a, c, t, mayPull))
  {
    hide ServiceSteps, Tidy;
    ServiceStepsOwn(a, s, c, t, mayPull);
    forall x | x in ServiceSteps(a, c, t, mayPull)
      ensures x.appId == a && Phase(x) == 2 && Arises(cur, tgt, x)
    {
      var i :| 0 <= i < |ServiceSteps(a, c, t, mayPull)| && ServiceSteps(a, c, t, mayPull)[i] == x;
      assert OwnStep(x.appId, s, c, t, x);
    }
  }

  lemma {:induction false} UpdateArises(a: nat, cur: seq<Service>, tgt: seq<Service>, ids: seq<nat>, mayPull: Retryable)
    ensures AllArise(a, cur, tgt, UpdateSteps(a, cur, tgt, ids, mayPull))
  {
    hide ServiceSteps, Arises, Phase;
    if ids != [] {
      var id := ids[|ids| - 1];
      UpdateArises(a, cur, tgt, ids[..|ids| - 1], mayPull);
      GroupArises(a, id, cur, tgt, FindLast(cur, id), FindLast(tgt, id), MayPull(FindLast(tgt, id), mayPull));
    }
  }

  lemma {:induction false} RemoveArises(a: nat, all: seq<Service>, cur: seq<Service>)
    requires forall x | x in cur :: x in all
    ensures AllArise(a, all, [], RemoveSteps(a, cur))
  {
    hide ServiceSteps, Arises, Phase;
    if cur != [] {
      var c := cur[|cur| - 1];
      RemoveArises(a, all, cur[..|cur| - 1]);
      GroupArises(a, c.serviceId, all, [], Some(c), None, true);
    }
  }

  lemma {:induction false} AddArises(a: nat, all: seq<Service>, tgt: seq<Service>)
    requires forall x | x in tgt :: x in all
    ensures AllArise(a, [], all, AddSteps(a, tgt))
  {
    hide ServiceSteps, Arises, Phase;
    if tgt != [] {
      var t := tgt[|tgt| - 1];
      AddArises(a, all, tgt[..|tgt| - 1]);
      GroupArises(a, t.serviceId, [], all, None, Some(t), true);
    }
  }

  lemma ContainerStepsArise(a: nat, cur: Option<App>, tgt: Option<App>, mayPull: Retryable)
    ensures AllArise(a, ServicesOf(cur), ServicesOf(tgt), ContainerSteps(a, cur, tgt, mayPull))
  {
    hide UpdateSteps, RemoveSteps, AddSteps, Arises, Phase;
    match (cur, tgt)
    case (Some(c), None) => RemoveArises(a, c.services, c.services);
    case (None, Some(t)) => AddArises(a, t.services, t.services);
    case (Some(c), Some(t)) => UpdateArises(a, c.services, t.services, AllIds(c.services, t.services), mayPull);
    case (None, None) =>
  }

  // ---- Exactness within one app ----

  ghost predicate NamesNetwork(app: Option<App>, n: string) {
    exists s :: s in ServicesOf(app) && n in s.config.networks
  }

  ghost predicate NamesVolume(app: Option<App>, v: string) {
    exists s, x :: s in ServicesOf(app) && x in s.config.volumes && !HasPrefix(x, "/") && Split(x, ':')[0] == v
  }

  lemma {:induction false} AllNetworksMember(services: seq<Service>, n: string)
    ensures n in AllNetworks(services) <==> exists s :: s in services && n in s.config.networks
  {
    if services != [] {
      var k := |services| - 1;
      AllNetworksMember(services[..k], n);
      assert services == services[..k] + [services[k]];
      assert forall s :: s in services <==> s in services[..k] || s == services[k];
    }
  }

  lemma {:induction false} VolumeNamesMember(volumes: seq<string>, v: string)
    ensures v in VolumeNames(volumes) <==> exists x :: x in volumes && !HasPrefix(x, "/") && Split(x, ':')[0] == v
  {
    hide HasPrefix, Split;
    if volumes != [] {
      var k := |volumes| - 1;
      VolumeNamesMember(volumes[..k], v);
      assert volumes == volumes[..k] + [volumes[k]];
      assert forall x :: x in volumes <==> x in volumes[..k] || x == volumes[k];
    }
  }

  lemma {:induction false} AllVolumesMember(services: seq<Service>, v: string)
    ensures v in AllVolumes(services) <==>
            exists s, x :: s in services && x in s.config.volumes && !HasPrefix(x, "/") && Split(x, ':')[0] == v
  {
    hide HasPrefix, Split, VolumeNames;
    if services != [] {
      var k := |services| - 1;
      AllVolumesMember(services[..k], v);
      VolumeNamesMember(services[k].config.volumes, v);
      assert services == services[..k] + [services[k]];
      assert forall s :: s in services <==> s in services[..k] || s == services[k];
    }
  }

  lemma NameLists(app: Option<App>, n: string)
    ensures n in NetworkNames(app) <==> NamesNetwork(app, n)
    ensures n in NamedVolumes(app) <==> NamesVolume(app, n)
  {
    hide HasPrefix, Split;
    AllNetworksMember(ServicesOf(app), n);
    AllVolumesMember(ServicesOf(app), n);
  }

  lemma SortedMember(xs: seq<string>, x: string)
    ensures x in Serialised.Sorted(xs) <==> x in xs
  {
    assert x in xs <==> x in multiset(xs);
    assert x in Serialised.Sorted(xs) <==> x in multiset(Serialised.Sorted(xs));
  }

  /** The lists of corresponding services have the same members. */
  ghost predicate SameMembers(p: seq<Service>, q: seq<Service>) {
    && |p| == |q|
    && (forall i, x | 0 <= i < |p| :: x in p[i].config.networks <==> x in q[i].config.networks)
    && (forall i, x | 0 <= i < |p| :: x in p[i].config.volumes <==> x in q[i].config.volumes)
  }

  lemma NamesFollow(app: Option<App>, app': Option<App>, n: string)
    requires SameMembers(ServicesOf(app), ServicesOf(app'))
    ensures NamesNetwork(app, n) ==> NamesNetwork(app', n)
    ensures NamesVolume(app, n) ==> NamesVolume(app', n)
  {
    hide HasPrefix, Split;
    var p, q := ServicesOf(app), ServicesOf(app');
    if NamesNetwork(app, n) {
      var s :| s in p && n in s.config.networks;
      var i :| 0 <= i < |p| && p[i] == s;
      assert q[i] in q && n in q[i].config.networks;
    }
    if NamesVolume(app, n) {
      var s, x :| s in p && x in s.config.volumes && !HasPrefix(x, "/") && Split(x, ':')[0] == n;
      var i :| 0 <= i < |p| && p[i] == s;
      assert q[i] in q && x in q[i].config.volumes;
    }
  }

  lemma TidyMembers(own: seq<Service>, other: seq<Service>, ownIsCurrent: bool)
    ensures SameMembers(own, TidyServices(own, other, ownIsCurrent))
            && SameMembers(TidyServices(own, other, ownIsCurrent), own)
  {
    hide Compared;
    var tidied := TidyServices(own, other, ownIsCurrent);
    forall i, x | 0 <= i < |own|
      ensures x in tidied[i].config.networks <==> x in own[i].config.networks
      ensures x in tidied[i].config.volumes <==> x in own[i].config.volumes
    {
      SortedMember(own[i].config.networks, x);
      SortedMember(own[i].config.volumes, x);
    }
  }

  lemma SameSelf(p: seq<Service>)
    ensures SameMembers(p, p)
  {
  }

  lemma TidiedNames(cur: Option<App>, tgt: Option<App>, n: string)
    ensures NamesNetwork(TidyCurrent(cur, tgt), n) <==> NamesNetwork(cur, n)
    ensures NamesVolume(TidyCurrent(cur, tgt), n) <==> NamesVolume(cur, n)
    ensures NamesNetwork(TidyTarget(cur, tgt), n) <==> NamesNetwork(tgt, n)
    ensures NamesVolume(TidyTarget(cur, tgt), n) <==> NamesVolume(tgt, n)
  {
    hide NamesNetwork, NamesVolume, TidyServices, SameMembers;
    SameSelf(ServicesOf(cur));
    SameSelf(ServicesOf(tgt));
    if cur.Some? && tgt.Some? {
      TidyMembers(cur.value.services, tgt.value.services, true);
      TidyMembers(tgt.value.services, cur.value.services, false);
    }
    NamesFollow(cur, TidyCurrent(cur, tgt), n);
    NamesFollow(TidyCurrent(cur, tgt), cur, n);
    NamesFollow(tgt, TidyTarget(cur, tgt), n);
    NamesFollow(TidyTarget(cur, tgt), tgt, n);
  }

  lemma FrameMembers(a: nat, names: seq<string>, n: string)
    ensures CreateNetwork(a, n) in NetworkCreations(a, names) <==> n in names
    ensures RemoveNetwork(a, n) in NetworkRemovals(a, names) <==> n in names
    ensures CreateVolume(a, n) in VolumeCreations(a, names) <==> n in names
    ensures RemoveVolume(a, n) in VolumeRemovals(a, names) <==> n in names
  {
    if n in names {
      var i :| 0 <= i < |names| && names[i] == n;
      assert NetworkCreations(a, names)[i] == CreateNetwork(a, n);
      assert NetworkRemovals(a, names)[i] == RemoveNetwork(a, n);
      assert VolumeCreations(a, names)[i] == CreateVolume(a, n);
      assert VolumeRemovals(a, names)[i] == RemoveVolume(a, n);
    }
  }

  lemma FrameKinds(a: nat, names: seq<string>)
    ensures forall x | x in NetworkCreations(a, names) :: x.appId == a && Phase(x) == 1
    ensures forall x | x in NetworkRemovals(a, names) :: x.appId == a && Phase(x) == 3
    ensures forall x | x in VolumeCreations(a, names) :: x.appId == a && Phase(x) == 0
    ensures forall x | x in VolumeRemovals(a, names) :: x.appId == a && Phase(x) == 4
  {
  }

  /** The create and remove steps of an app are the two set differences. */
  lemma AppExact(a: nat, cur: Option<App>, tgt: Option<App>, mayPull: Retryable, n: string)
    ensures CreateNetwork(a, n) in AppSteps(a, cur, tgt, mayPull) <==> NamesNetwork(tgt, n) && !NamesNetwork(cur, n)
    ensures RemoveNetwork(a, n) in AppSteps(a, cur, tgt, mayPull) <==> NamesNetwork(cur, n) && !NamesNetwork(tgt, n)
    ensures CreateVolume(a, n) in AppSteps(a, cur, tgt, mayPull) <==> NamesVolume(tgt, n) && !NamesVolume(cur, n)
    ensures RemoveVolume(a, n) in AppSteps(a, cur, tgt, mayPull) <==> NamesVolume(cur, n) && !NamesVolume(tgt, n)
  {
    hide NamesNetwork, NamesVolume, NetworkNames, NamedVolumes, ContainerSteps, TidyCurrent, TidyTarget, AllArise;
    hide NetworkCreations, NetworkRemovals, VolumeCreations, VolumeRemovals;
    var cur', tgt' := TidyCurrent(cur, tgt), TidyTarget(cur, tgt);
    NameLists(cur, n);
    NameLists(tgt, n);
    NameLists(cur', n);
    NameLists(tgt', n);
    TidiedNames(cur, tgt, n);
    FrameMembers(a, NewVolumes(cur, tgt), n);
    FrameMembers(a, NewNetworks(cur, tgt), n);
    FrameMembers(a, OldNetworks(cur', tgt'), n);
    FrameMembers(a, OldVolumes(cur', tgt'), n);
    FrameKinds(a, NewVolumes(cur, tgt));
    FrameKinds(a, NewNetworks(cur, tgt));
    FrameKinds(a, OldNetworks(cur', tgt'));
    FrameKinds(a, OldVolumes(cur', tgt'));
    ContainerPhase(a, cur, tgt, mayPull);
  }

  lemma ContainerPhase(a: nat, cur: Option<App>, tgt: Option<App>, mayPull: Retryable)
    ensures forall x | x in ContainerSteps(a, cur, tgt, mayPull) :: x.appId == a && Phase(x) == 2
  {
    hide ContainerSteps, Arises;
    ContainerStepsArise(a, cur, tgt, mayPull);
  }

  // ---- Order within one app ----

  /** Phases never go back, and no network or volume step comes twice. */
  ghost predicate Phased(steps: seq<Step>) {
    forall i, j | 0 <= i < j < |steps| && steps[i].appId == steps[j].appId ::
      Phase(steps[i]) <= Phase(steps[j]) && (Phase(steps[i]) != 2 ==> steps[i] != steps[j])
  }

  lemma PhasedConcat(x: seq<Step>, y: seq<Step>, k: nat)
    requires Phased(x) && Phased(y)
    requires (forall s | s in x :: Phase(s) < k) && (forall s | s in y :: Phase(s) >= k)
    ensures Phased(x + y)
  {
  }

  lemma FramePhased(a: nat, names: seq<string>)
    requires Distinct(names)
    ensures Phased(NetworkCreations(a, names)) && Phased(NetworkRemovals(a, names))
    ensures Phased(VolumeCreations(a, names)) && Phased(VolumeRemovals(a, names))
  {
  }

  lemma AppPhased(a: nat, cur: Option<App>, tgt: Option<App>, mayPull: Retryable)
    ensures Phased(AppSteps(a, cur, tgt, mayPull))
    ensures forall x | x in AppSteps(a, cur, tgt, mayPull) :: x.appId == a
  {
    hide Phased, ContainerSteps, TidyCurrent, TidyTarget, NetworkNames, NamedVolumes;
    hide NetworkCreations, NetworkRemovals, VolumeCreations, VolumeRemovals;
    var cur', tgt' := TidyCurrent(cur, tgt), TidyTarget(cur, tgt);
    var nv, nn, on, ov := NewVolumes(cur, tgt), NewNetworks(cur, tgt), OldNetworks(cur', tgt'), OldVolumes(cur', tgt');
    assert Distinct(nv) && Distinct(nn) && Distinct(on)
        && Distinct(ov) by { DistinctLists(cur, tgt); DistinctLists(cur', tgt'); }
    hide NewVolumes, NewNetworks, OldNetworks, OldVolumes, Distinct;
    FrameKinds(a, nv);
    FrameKinds(a, nn);
    FrameKinds(a, on);
    FrameKinds(a, ov);
    FramePhased(a, nv);
    FramePhased(a, nn);
    FramePhased(a, on);
    FramePhased(a, ov);
    ContainerPhase(a, cur, tgt, mayPull);
    var mid := ContainerSteps(a, cur, tgt, mayPull);
    ContainersPhased(mid);
    var two := VolumeCreations(a, nv) + NetworkCreations(a, nn);
    PhasedConcat(VolumeCreations(a, nv), NetworkCreations(a, nn), 1);
    PhasedConcat(two, mid, 2);
    PhasedConcat(two + mid, NetworkRemovals(a, on), 3);
    PhasedConcat(two + mid + NetworkRemovals(a, on), VolumeRemovals(a, ov), 4);
  }

  lemma ContainersPhased(steps: seq<Step>)
    requires forall x | x in steps :: Phase(x) == 2
    ensures Phased(steps)
  {
  }

  lemma DistinctLists(cur: Option<App>, tgt: Option<App>)
    ensures Distinct(NewVolumes(cur, tgt)) && Distinct(NewNetworks(cur, tgt))
    ensures Distinct(OldVolumes(cur, tgt)) && Distinct(OldNetworks(cur, tgt))
  {
  }

  // ---- The whole plan ----

  lemma {:induction false} StepsForMember(ids: seq<nat>, current: Apps, target: Apps, mayPull: Retryable, x: Step)
    ensures x in StepsFor(ids, current, target, mayPull) <==>
            x.appId in ids && x in AppSteps(x.appId, AppAt(current, x.appId), AppAt(target, x.appId), mayPull)
  {
    hide AppSteps;
    if ids != [] {
      var n := |ids| - 1;
      assert ids == ids[..n] + [ids[n]];
      StepsForMember(ids[..n], current, target, mayPull, x);
      AppPhased(ids[n], AppAt(current, ids[n]), AppAt(target, ids[n]), mayPull);
    }
  }

  lemma {:induction false} StepsForPhased(ids: seq<nat>, current: Apps, target: Apps, mayPull: Retryable)
    requires Distinct(ids)
    ensures Phased(StepsFor(ids, current, target, mayPull))
  {
    hide AppSteps;
    if ids != [] {
      var n := |ids| - 1;
      var a := ids[n];
      assert ids == ids[..n] + [a];
      StepsForPhased(ids[..n], current, target, mayPull);
      AppPhased(a, AppAt(current, a), AppAt(target, a), mayPull);
      var first := StepsFor(ids[..n], current, target, mayPull);
      forall i | 0 <= i < |first| ensures first[i].appId != a {
        assert first[i] in first;
        StepsForMember(ids[..n], current, target, mayPull, first[i]);
      }
    }
  }

  /** Network and volume planning is exact: the steps are the set differences
      of what the target and the current services of the app name, each once,
      and an app's steps come as volume creations, network creations, container
      steps, network removals, volume removals. */
  lemma PlanExact(current: Apps, target: Apps, mayPull: Retryable, a: nat, n: string)
    ensures var plan := Plan(current, target, mayPull);
            var cur, tgt := AppAt(current, a), AppAt(target, a);
            && (CreateNetwork(a, n) in plan <==> NamesNetwork(tgt, n) && !NamesNetwork(cur, n))
            && (RemoveNetwork(a, n) in plan <==> NamesNetwork(cur, n) && !NamesNetwork(tgt, n))
            && (CreateVolume(a, n) in plan <==> NamesVolume(tgt, n) && !NamesVolume(cur, n))
            && (RemoveVolume(a, n) in plan <==> NamesVolume(cur, n) && !NamesVolume(tgt, n))
    ensures Phased(Plan(current, target, mayPull))
  {
    hide NamesNetwork, NamesVolume, AppSteps, Phased, StepsFor, AppIds;
    var ids := AppIds(current, target);
    StepsForPhased(ids, current, target, mayPull);
    AppExact(a, AppAt(current, a), AppAt(target, a), mayPull, n);
    StepsForMember(ids, current, target, mayPull, CreateNetwork(a, n));
    StepsForMember(ids, current, target, mayPull, RemoveNetwork(a, n));
    StepsForMember(ids, current, target, mayPull, CreateVolume(a, n));
    StepsForMember(ids, current, target, mayPull, RemoveVolume(a, n));
    if a !in ids {
      NamesNothing(n);
    }
  }

  lemma NamesNothing(n: string)
    ensures !NamesNetwork(None, n) && !NamesVolume(None, n)
  {
  }

  /** Every container step of a plan is made from records of its own app. */
  lemma PlanArises(current: Apps, target: Apps, mayPull: Retryable, x: Step)
    requires x in Plan(current, target, mayPull) && Phase(x) == 2
    ensures Arises(ServicesOf(AppAt(current, x.appId)), ServicesOf(AppAt(target, x.appId)), x)
  {
    hide Arises, ContainerSteps, NewVolumes, NewNetworks, OldNetworks, OldVolumes, StepsFor, AppIds, TidyCurrent,
         TidyTarget;
    hide NetworkCreations, NetworkRemovals, VolumeCreations, VolumeRemovals;
    var a := x.appId;
    var cur, tgt := AppAt(current, a), AppAt(target, a);
    StepsForMember(AppIds(current, target), current, target, mayPull, x);
    ContainerStepsArise(a, cur, tgt, mayPull);
    FrameKinds(a, NewVolumes(cur, tgt));
    FrameKinds(a, NewNetworks(cur, tgt));
    FrameKinds(a, OldNetworks(TidyCurrent(cur, tgt), TidyTarget(cur, tgt)));
    FrameKinds(a, OldVolumes(TidyCurrent(cur, tgt), TidyTarget(cur, tgt)));
  }
}
