/** The shape of a plan: which steps a service contributes, what decides them,
    and that they stand together. */
module PlanFacts {
  import opened Text
  import opened Serialised
  import opened Types
  import opened Planner
  import opened Isolation

  // ---- The steps of one service ----

  /** A container step of service `s` made from its own two records. */
  ghost predicate OwnStep(a: nat, s: nat, cur: Option<Service>, tgt: Option<Service>, step: Step) {
    match step
    case DownloadImage(b, image) => b == a && tgt.Some? && image == tgt.value.imageName
    case StopContainer(b, x, id) => b == a && x == s && cur.Some? && cur.value.containerId == Some(id)
    case PauseContainer(b, x, id) => b == a && x == s && cur.Some? && cur.value.containerId == Some(id)
    case UnpauseContainer(b, x, id) => b == a && x == s && cur.Some? && cur.value.containerId == Some(id)
    case StartStoppedContainer(b, x, id) => b == a && x == s && cur.Some? && cur.value.containerId == Some(id)
    case RemoveContainer(b, x, id) => b == a && x == s && cur.Some? && cur.value.containerId == Some(id)
    case StartContainer(b, x) => b == a && tgt.Some? && (x == tgt.value || x == Tidy(tgt.value))
    case _ => false
  }

  ghost predicate OwnSteps(a: nat, s: nat, cur: Option<Service>, tgt: Option<Service>, steps: seq<Step>) {
    forall i | 0 <= i < |steps| :: OwnStep(a, s, cur, tgt, steps[i])
  }

  lemma TransitionOwn(a: nat, c: Service, t: Service)
    requires Transition(c, t)
    ensures OwnSteps(a, c.serviceId, Some(c), Some(t), TransitionSteps(a, c, t))
  {
    hide Tidy;
  }

  lemma OwnConcat(a: nat, s: nat, cur: Option<Service>, tgt: Option<Service>, x: seq<Step>, y: seq<Step>)
    requires OwnSteps(a, s, cur, tgt, x) && OwnSteps(a, s, cur, tgt, y)
    ensures OwnSteps(a, s, cur, tgt, x + y)
  {
    hide OwnStep;
  }

  lemma OwnOne(a: nat, s: nat, cur: Option<Service>, tgt: Option<Service>, x: Step)
    requires OwnStep(a, s, cur, tgt, x)
    ensures OwnSteps(a, s, cur, tgt, [x])
  {
    hide OwnStep;
  }

  lemma ReplaceOwn(a: nat, c: Service, t: Service)
    requires c.containerId.Some?
    ensures OwnSteps(a, c.serviceId, Some(c), Some(t), ReplaceSteps(a, c, Tidy(t)))
  {
    assert Tidy(t).imageName == t.imageName;
    hide Tidy, OwnSteps;
    var s, id, cur, tgt := c.serviceId, c.containerId.value, Some(c), Some(t);
    var x, y, z := StopContainer(a, s, id), RemoveContainer(a, s, id), StartContainer(a, Tidy(t));
    OwnOne(a, s, cur, tgt, x);
    OwnOne(a, s, cur, tgt, y);
    OwnOne(a, s, cur, tgt, z);
    OwnConcat(a, s, cur, tgt, [x], [y]);
    OwnConcat(a, s, cur, tgt, [x] + [y], [z]);
    OwnOne(a, s, cur, tgt, DownloadImage(a, t.imageName));
    OwnConcat(a, s, cur, tgt, [DownloadImage(a, t.imageName)], [x] + [y] + [z]);
    assert ReplaceSteps(a, c, Tidy(t)) ==
      if c.imageName != t.imageName then [DownloadImage(a, t.imageName)] + ([x] + [y] + [z]) else [x] + [y] + [z];
  }

  /** A service's steps concern its own container and its own target record. */
  lemma ServiceStepsOwn(a: nat, s: nat, cur: Option<Service>, tgt: Option<Service>, mayPull: bool)
    requires cur.Some? ==> cur.value.serviceId == s
    ensures OwnSteps(a, s, cur, tgt, ServiceSteps(a, cur, tgt, mayPull))
  {
    hide TransitionSteps, ReplaceSteps, NeedsUpdate, Tidy;
    match (cur, tgt)
    case (Some(c), Some(t)) =>
      if Transition(c, t) {
        TransitionOwn(a, c, t);
      } else if c.containerId.Some? {
        ReplaceOwn(a, c, t);
      }
    case _ =>
  }

  // ---- Splitting a plan around one service ----

  /** `group` stands together in `steps`, and nothing else works on service `s`. */
  ghost predicate Splits(steps: seq<Step>, s: nat, group: seq<Step>) {
    exists before, after :: steps == before + group + after && Avoids(before, s) && Avoids(after, s)
  }

  lemma AvoidsConcat(x: seq<Step>, y: seq<Step>, s: nat)
    requires Avoids(x, s) && Avoids(y, s)
    ensures Avoids(x + y, s)
  {
  }

  lemma SplitWider(left: seq<Step>, steps: seq<Step>, right: seq<Step>, s: nat, group: seq<Step>)
    requires Splits(steps, s, group) && Avoids(left, s) && Avoids(right, s)
    ensures Splits(left + steps + right, s, group)
  {
    hide Avoids;
    var before, after :| steps == before + group + after && Avoids(before, s) && Avoids(after, s);
    AvoidsConcat(left, before, s);
    AvoidsConcat(after, right, s);
    assert left + steps + right == (left + before) + group + (after + right);
  }

  lemma SplitSelf(group: seq<Step>, s: nat)
    ensures Splits(group, s, group)
  {
    var none: seq<Step> := [];
    assert Avoids(none, s) && group == none + group + none;
  }

  lemma SplitNothing(steps: seq<Step>, s: nat)
    requires Avoids(steps, s)
    ensures Splits(steps, s, [])
  {
    var none: seq<Step> := [];
    assert Avoids(none, s) && steps == steps + none + none;
  }

  lemma OwnAvoids(a: nat, s: nat, cur: Option<Service>, tgt: Option<Service>, steps: seq<Step>, t: nat)
    requires OwnSteps(a, s, cur, tgt, steps) && s != t
    requires tgt.Some? ==> tgt.value.serviceId == s
    ensures Avoids(steps, t)
  {
    assert tgt.Some? ==> Tidy(tgt.value).serviceId == s;
    hide Tidy;
  }

  /** The steps of service `s` avoid every other service. */
  lemma GroupAvoids(a: nat, s: nat, cur: Option<Service>, tgt: Option<Service>, mayPull: bool, t: nat)
    requires (cur.Some? ==> cur.value.serviceId == s) && (tgt.Some? ==> tgt.value.serviceId == s) && s != t
    ensures Avoids(ServiceSteps(a, cur, tgt, mayPull), t)
  {
    hide ServiceSteps;
    ServiceStepsOwn(a, s, cur, tgt, mayPull);
    OwnAvoids(a, s, cur, tgt, ServiceSteps(a, cur, tgt, mayPull), t);
  }

  lemma {:induction false} UpdateSplit(a: nat, current: seq<Service>, target: seq<Service>, ids: seq<nat>,
      mayPull: Retryable, s: nat)
    requires Distinct(ids)
    ensures var t := FindLast(target, s);
            s in ids ==> Splits(UpdateSteps(a, current, target, ids, mayPull), s,
                                ServiceSteps(a, FindLast(current, s), t, MayPull(t, mayPull)))
    ensures s !in ids ==> Avoids(UpdateSteps(a, current, target, ids, mayPull), s)
  {
    hide ServiceSteps, Splits, Avoids, MayPull;
    if ids == [] {
      assert Avoids([], s) by { AvoidsEmpty(s); }
    } else {
      var n := |ids| - 1;
      var id := ids[n];
      assert ids == ids[..n] + [id] && id !in ids[..n];
      UpdateSplit(a, current, target, ids[..n], mayPull, s);
      var first := UpdateSteps(a, current, target, ids[..n], mayPull);
      var t := FindLast(target, id);
      var last := ServiceSteps(a, FindLast(current, id), t, MayPull(t, mayPull));
      AvoidsEmpty(s);
      if id == s {
        SplitSelf(last, s);
        SplitWider(first, last, [], s, last);
        assert first + last + [] == first + last;
      } else {
        GroupAvoids(a, id, FindLast(current, id), t, MayPull(t, mayPull), s);
        if s in ids {
          SplitWider([], first, last, s, ServiceSteps(a, FindLast(current, s), FindLast(target, s),
              MayPull(FindLast(target, s), mayPull)));
          assert [] + first + last == first + last;
        } else {
          AvoidsConcat(first, last, s);
        }
      }
    }
  }

  lemma AvoidsEmpty(s: nat)
    ensures Avoids([], s)
  {
  }

  lemma {:induction false} RemoveSplit(a: nat, services: seq<Service>, s: nat)
    requires UniqueIds(services)
    ensures Splits(RemoveSteps(a, services), s, ServiceSteps(a, FindLast(services, s), None, true))
    ensures FindLast(services, s).None? ==> Avoids(RemoveSteps(a, services), s)
  {
    hide ServiceSteps, Splits, Avoids;
    AvoidsEmpty(s);
    EmptyGroup(a, true);
    if services == [] {
      SplitSelf([], s);
    } else {
      var n := |services| - 1;
      var x := services[n];
      RemoveSplit(a, services[..n], s);
      var first, last := RemoveSteps(a, services[..n]), ServiceSteps(a, Some(x), None, true);
      if x.serviceId == s {
        assert forall y | y in services[..n] :: y.serviceId != s;
        SplitSelf(last, s);
        SplitWider(first, last, [], s, last);
        assert first + last + [] == first + last;
      } else {
        GroupAvoids(a, x.serviceId, Some(x), None, true, s);
        SplitWider([], first, last, s, ServiceSteps(a, FindLast(services[..n], s), None, true));
        assert [] + first + last == first + last;
        if FindLast(services[..n], s).None? {
          AvoidsConcat(first, last, s);
        }
      }
    }
  }

  lemma EmptyGroup(a: nat, mayPull: bool)
    ensures ServiceSteps(a, None, None, mayPull) == []
  {
  }

  lemma {:induction false} AddSplit(a: nat, services: seq<Service>, s: nat)
    requires UniqueIds(services)
    ensures Splits(AddSteps(a, services), s, ServiceSteps(a, None, FindLast(services, s), true))
    ensures FindLast(services, s).None? ==> Avoids(AddSteps(a, services), s)
  {
    hide ServiceSteps, Splits, Avoids;
    AvoidsEmpty(s);
    EmptyGroup(a, true);
    if services == [] {
      SplitSelf([], s);
    } else {
      var n := |services| - 1;
      var x := services[n];
      AddSplit(a, services[..n], s);
      var first, last := AddSteps(a, services[..n]), ServiceSteps(a, None, Some(x), true);
      if x.serviceId == s {
        assert forall y | y in services[..n] :: y.serviceId != s;
        SplitSelf(last, s);
        SplitWider(first, last, [], s, last);
        assert first + last + [] == first + last;
      } else {
        GroupAvoids(a, x.serviceId, None, Some(x), true, s);
        SplitWider([], first, last, s, ServiceSteps(a, None, FindLast(services[..n], s), true));
        assert [] + first + last == first + last;
        if FindLast(services[..n], s).None? {
          AvoidsConcat(first, last, s);
        }
      }
    }
  }

  /** The retry answer that enters. Whether it is asked depends on the app, not
      on the service: adding a whole app asks nobody. */
  function Asked(cur: Option<App>, t: Option<Service>, mayPull: Retryable): bool {
    if cur.Some? then MayPull(t, mayPull) else true
  }

  function Group(a: nat, cur: Option<App>, tgt: Option<App>, mayPull: Retryable, s: nat): seq<Step> {
    var t := FindLast(ServicesOf(tgt), s);
    ServiceSteps(a, FindLast(ServicesOf(cur), s), t, Asked(cur, t, mayPull))
  }

  /** A service's steps depend on its two records, on its image's retry answer
      and on one thing more: whether its app has a current record. That last one
      does not matter exactly when the service itself is current, has no target
      record, is not wanted running, or its image is not blocked. */
  lemma GroupDepends(a: nat, cur: Option<App>, tgt: Option<App>, cur': Option<App>, tgt': Option<App>,
                     mayPull: Retryable, mayPull': Retryable, s: nat)
    requires FindLast(ServicesOf(cur), s) == FindLast(ServicesOf(cur'), s)
    requires FindLast(ServicesOf(tgt), s) == FindLast(ServicesOf(tgt'), s)
    requires MayPull(FindLast(ServicesOf(tgt), s), mayPull) == MayPull(FindLast(ServicesOf(tgt), s), mayPull')
    ensures var c, t := FindLast(ServicesOf(cur), s), FindLast(ServicesOf(tgt), s);
            Group(a, cur, tgt, mayPull, s) == Group(a, cur', tgt', mayPull', s) <==>
            (cur.Some? == cur'.Some? || c.Some? || t.None? || Desired(t.value) != Running || mayPull(t.value.imageName))
  {
    hide TransitionSteps, ReplaceSteps, NeedsUpdate, Tidy;
    var t := FindLast(ServicesOf(tgt), s);
    if t.Some? {
      assert [DownloadImage(a, t.value.imageName), StartContainer(a, t.value)] != [];
    }
  }

  /** One absent service, one blocked image, two answers: nothing if another
      service of the app is current, a start if none is. */
  lemma NeighbourDecides(a: nat, neighbour: Service, t: Service, mayPull: Retryable)
    requires neighbour.serviceId != t.serviceId && Desired(t) == Running && !mayPull(t.imageName)
    ensures var tgt := Some(App(a, "app", [t]));
            && Group(a, Some(App(a, "app", [neighbour])), tgt, mayPull, t.serviceId) == []
            && Group(a, None, tgt, mayPull, t.serviceId) == [DownloadImage(a, t.imageName), StartContainer(a, t)]
  {
    assert FindLast([t], t.serviceId) == Some(t);
  }

  lemma UnlistedGroup(a: nat, cur: Option<App>, tgt: Option<App>, mayPull: Retryable, s: nat)
    requires FindLast(ServicesOf(cur), s).None? && FindLast(ServicesOf(tgt), s).None?
    ensures Group(a, cur, tgt, mayPull, s) == []
  {
  }

  lemma AllIdsMember(current: seq<Service>, target: seq<Service>, s: nat)
    ensures s in AllIds(current, target) <==> FindLast(current, s).Some? || FindLast(target, s).Some?
  {
    if x :| x in current && x.serviceId == s {
      var i :| 0 <= i < |current| && current[i] == x;
      assert Ids(current)[i] in Ids(current);
    }
    if x :| x in target && x.serviceId == s {
      var i :| 0 <= i < |target| && target[i] == x;
      assert Ids(target)[i] in Ids(target);
    }
    if s in Ids(current) {
      var i :| 0 <= i < |current| && Ids(current)[i] == s;
      assert current[i] in current;
    }
    if s in Ids(target) {
      var i :| 0 <= i < |target| && Ids(target)[i] == s;
      assert target[i] in target;
    }
  }

  lemma ContainerSplit(a: nat, cur: Option<App>, tgt: Option<App>, mayPull: Retryable, s: nat)
    requires UniqueIds(ServicesOf(cur)) && UniqueIds(ServicesOf(tgt))
    ensures Splits(ContainerSteps(a, cur, tgt, mayPull), s, Group(a, cur, tgt, mayPull, s))
    ensures FindLast(ServicesOf(cur), s).None? && FindLast(ServicesOf(tgt), s).None? ==> Avoids(ContainerSteps(a,
            cur, tgt, mayPull), s)
  {
    hide ServiceSteps, Splits, Avoids, UpdateSteps, RemoveSteps, AddSteps, UniqueIds, AllIds;
    match (cur, tgt)
    case (Some(c), None) =>
      RemoveSplit(a, c.services, s);
    case (None, Some(t)) =>
      AddSplit(a, t.services, s);
    case (Some(c), Some(t)) =>
      var ids := AllIds(c.services, t.services);
      AllIdsMember(c.services, t.services, s);
      AllIdsDistinct(c.services, t.services);
      UpdateSplit(a, c.services, t.services, ids, mayPull, s);
      if s !in ids {
        EmptyGroup(a, Asked(cur, None, mayPull));
        SplitNothing(UpdateSteps(a, c.services, t.services, ids, mayPull), s);
      }
    case (None, None) =>
      EmptyGroup(a, true);
      AvoidsEmpty(s);
      SplitSelf([], s);
  }

  lemma AllIdsDistinct(current: seq<Service>, target: seq<Service>)
    ensures Distinct(AllIds(current, target))
  {
  }

  lemma FrameAvoids(a: nat, names: seq<string>, s: nat)
    ensures Avoids(VolumeCreations(a, names), s) && Avoids(NetworkCreations(a, names), s)
    ensures Avoids(VolumeRemovals(a, names), s) && Avoids(NetworkRemovals(a, names), s)
  {
  }

  lemma AppSplit(a: nat, cur: Option<App>, tgt: Option<App>, mayPull: Retryable, s: nat)
    requires UniqueIds(ServicesOf(cur)) && UniqueIds(ServicesOf(tgt))
    ensures Splits(AppSteps(a, cur, tgt, mayPull), s, Group(a, cur, tgt, mayPull, s))
    ensures FindLast(ServicesOf(cur), s).None? && FindLast(ServicesOf(tgt), s).None? ==> Avoids(AppSteps(a, cur, tgt,
            mayPull), s)
  {
    hide Splits, Avoids, ContainerSteps, Group, UniqueIds, NewVolumes, NewNetworks, OldNetworks, OldVolumes;
    hide VolumeCreations, NetworkCreations, NetworkRemovals, VolumeRemovals, TidyCurrent, TidyTarget;
    ContainerSplit(a, cur, tgt, mayPull, s);
    var cur', tgt' := TidyCurrent(cur, tgt), TidyTarget(cur, tgt);
    FrameAvoids(a, NewVolumes(cur, tgt), s);
    FrameAvoids(a, NewNetworks(cur, tgt), s);
    FrameAvoids(a, OldNetworks(cur', tgt'), s);
    FrameAvoids(a, OldVolumes(cur', tgt'), s);
    var left := VolumeCreations(a, NewVolumes(cur, tgt)) + NetworkCreations(a, NewNetworks(cur, tgt));
    var right := NetworkRemovals(a, OldNetworks(cur', tgt')) + VolumeRemovals(a, OldVolumes(cur', tgt'));
    AvoidsConcat(VolumeCreations(a, NewVolumes(cur, tgt)), NetworkCreations(a, NewNetworks(cur, tgt)), s);
    AvoidsConcat(NetworkRemovals(a, OldNetworks(cur', tgt')), VolumeRemovals(a, OldVolumes(cur', tgt')), s);
    var mid := ContainerSteps(a, cur, tgt, mayPull);
    SplitWider(left, mid, right, s, Group(a, cur, tgt, mayPull, s));
    assert AppSteps(a, cur, tgt, mayPull) == left + mid + right;
    if FindLast(ServicesOf(cur), s).None? && FindLast(ServicesOf(tgt), s).None? {
      AvoidsConcat(left, mid, s);
      AvoidsConcat(left + mid, right, s);
    }
  }

  ghost predicate AllUnique(apps: Apps) {
    forall a | a in apps :: UniqueIds(apps[a].services)
  }

  /** Service `s` occurs in no app but `a`. */
  ghost predicate OnlyIn(apps: Apps, a: nat, s: nat) {
    forall b, x | b in apps && x in apps[b].services && x.serviceId == s :: b == a
  }

  lemma {:induction false} StepsForSplit(ids: seq<nat>, current: Apps, target: Apps, mayPull: Retryable, a: nat, s: nat)
    requires AllUnique(current) && AllUnique(target) && OnlyIn(current, a, s) && OnlyIn(target, a, s) && Distinct(ids)
    ensures a in ids ==> Splits(StepsFor(ids, current, target, mayPull), s,
                                Group(a, AppAt(current, a), AppAt(target, a), mayPull, s))
    ensures a !in ids ==> Avoids(StepsFor(ids, current, target, mayPull), s)
  {
    hide Splits, Avoids, Group, AppSteps, UniqueIds;
    AvoidsEmpty(s);
    if ids != [] {
      var n := |ids| - 1;
      var b := ids[n];
      assert ids == ids[..n] + [b] && b !in ids[..n];
      StepsForSplit(ids[..n], current, target, mayPull, a, s);
      assert UniqueIds([]) by { UniqueEmpty(); }
      AppSplit(b, AppAt(current, b), AppAt(target, b), mayPull, s);
      var first, last := StepsFor(ids[..n], current, target, mayPull), AppSteps(b, AppAt(current, b), AppAt(target,
          b), mayPull);
      if b == a {
        SplitWider(first, last, [], s, Group(a, AppAt(current, a), AppAt(target, a), mayPull, s));
        assert first + last + [] == first + last;
      } else {
        assert Avoids(last, s);
        if a in ids {
          SplitWider([], first, last, s, Group(a, AppAt(current, a), AppAt(target, a), mayPull, s));
          assert [] + first + last == first + last;
        } else {
          AvoidsConcat(first, last, s);
        }
      }
    }
  }

  lemma UniqueEmpty()
    ensures UniqueIds([])
  {
  }

  /** The container steps of a service stand together in the plan. They are a
      function of its own two records, its image's retry answer and whether its
      app has a current record. */
  lemma PlanSplit(current: Apps, target: Apps, mayPull: Retryable, a: nat, s: nat)
    requires AllUnique(current) && AllUnique(target) && OnlyIn(current, a, s) && OnlyIn(target, a, s)
    ensures Splits(Plan(current, target, mayPull), s, Group(a, AppAt(current, a), AppAt(target, a), mayPull, s))
  {
    hide Splits, Avoids, Group, StepsFor, AppIds;
    var ids := AppIds(current, target);
    StepsForSplit(ids, current, target, mayPull, a, s);
    if a !in ids {
      UnlistedGroup(a, AppAt(current, a), AppAt(target, a), mayPull, s);
      SplitNothing(StepsFor(ids, current, target, mayPull), s);
    }
  }

  /** The running service has the target's image and configuration: the same
      ports, volumes and networks in any order, and the target's variables. */
  predicate Matches(c: Service, t: Service) {
    && c.imageName == t.imageName && c.status != Some(Exited) && c.status != Some(Dead)
    && multiset(c.config.ports) == multiset(t.config.ports)
    && multiset(c.config.volumes) == multiset(t.config.volumes)
    && multiset(c.config.networks) == multiset(t.config.networks)
    && DistinctKeys(t.config.environment) && Contained(t.config.environment, c.config.environment)
    && !SettingDiffers(c.config.restart, t.config.restart, "no")
    && !SettingDiffers(c.config.networkMode, t.config.networkMode, "bridge")
  }

  /** A service whose state, image and compared configuration match and whose
      container has not stopped gets no container step. */
  lemma MatchingUndisturbed(current: Apps, target: Apps, mayPull: Retryable, a: nat, c: Service, t: Service)
    requires AllUnique(current) && AllUnique(target)
    requires OnlyIn(current, a, c.serviceId) && OnlyIn(target, a, c.serviceId) && t.serviceId == c.serviceId
    requires a in current && c in current[a].services && a in target && t in target[a].services
    requires Desired(c) == Desired(t) && Matches(c, t)
    ensures Avoids(Plan(current, target, mayPull), c.serviceId)
  {
    hide Splits, UniqueIds, ListsDiffer, EnvDiffers, Plan;
    ListsDifferIff(c.config.ports, t.config.ports);
    ListsDifferIff(c.config.volumes, t.config.volumes);
    ListsDifferIff(c.config.networks, t.config.networks);
    EnvDiffersIff(c.config.environment, t.config.environment);
    var i :| 0 <= i < |current[a].services| && current[a].services[i] == c;
    var j :| 0 <= j < |target[a].services| && target[a].services[j] == t;
    FindUnique(current[a].services, i);
    FindUnique(target[a].services, j);
    PlanSplit(current, target, mayPull, a, c.serviceId);
    assert Group(a, AppAt(current, a), AppAt(target, a), mayPull, c.serviceId) == [];
    SplitAvoids(Plan(current, target, mayPull), c.serviceId);
  }

  lemma SplitAvoids(steps: seq<Step>, s: nat)
    requires Splits(steps, s, [])
    ensures Avoids(steps, s)
  {
    var before, after :| steps == before + [] + after && Avoids(before, s) && Avoids(after, s);
    AvoidsConcat(before, after, s);
    assert steps == before + after;
  }

  // ---- Which steps of a service are planned ----

  lemma GroupMember(steps: seq<Step>, s: nat, group: seq<Step>, x: Step)
    requires Splits(steps, s, group) && ServiceOf(x) == Some(s)
    ensures x in steps <==> x in group
  {
    var before, after :| steps == before + group + after && Avoids(before, s) && Avoids(after, s);
    assert forall i | 0 <= i < |before| :: before[i] != x;
    assert forall i | 0 <= i < |after| :: after[i] != x;
  }

  /** The service is replaced: it has a container, keeps its state, and differs. */
  predicate Replaced(c: Option<Service>, t: Service) {
    c.Some? && c.value.containerId.Some? && !Transition(c.value, t) && NeedsUpdate(c.value, t)
  }

  /** The service is added: it is absent, wanted running, and either its whole
      app is new or its image may be pulled. */
  predicate Added(cur: Option<App>, c: Option<Service>, t: Service, mayPull: Retryable) {
    c.None? && Desired(t) == Running && (cur.None? || mayPull(t.imageName))
  }

  lemma StartInGroup(a: nat, cur: Option<App>, c: Option<Service>, t: Service, mayPull: Retryable, x: Service)
    requires c.Some? ==> cur.Some?
    ensures StartContainer(a, x) in ServiceSteps(a, c, Some(t), Asked(cur, Some(t), mayPull)) <==>
            (Added(cur, c, t, mayPull) && x == t) || (Replaced(c, t) && x == Tidy(t))
  {
    hide NeedsUpdate, Tidy;
    if c.Some? && c.value.containerId.Some? && !Transition(c.value, t) {
      var steps := ReplaceSteps(a, c.value, Tidy(t));
      assert steps[|steps| - 1] == StartContainer(a, Tidy(t));
    }
    if c.None? {
      var steps := [DownloadImage(a, t.imageName), StartContainer(a, t)];
      assert steps[1] == StartContainer(a, t);
    }
  }

  lemma RemoveInGroup(a: nat, cur: Option<App>, c: Option<Service>, t: Service, mayPull: Retryable,
                      id: ContainerId)
    requires c.Some? ==> c.value.serviceId == t.serviceId
    ensures RemoveContainer(a, t.serviceId, id) in ServiceSteps(a, c, Some(t), Asked(cur, Some(t), mayPull)) <==>
            Replaced(c, t) && c.value.containerId.value == id
  {
    hide NeedsUpdate, Tidy;
    if Replaced(c, t) {
      var steps := ReplaceSteps(a, c.value, Tidy(t));
      assert steps[|steps| - 2] == RemoveContainer(a, t.serviceId, c.value.containerId.value);
    }
  }

  ghost predicate Starts(steps: seq<Step>, a: nat, s: nat) {
    exists x :: StartContainer(a, x) in steps && x.serviceId == s
  }

  /** The steps of a target service in a plan. */
  lemma TargetGroup(current: Apps, target: Apps, mayPull: Retryable, a: nat, t: Service)
    requires AllUnique(current) && AllUnique(target) && OnlyIn(current, a, t.serviceId) && OnlyIn(target, a,
             t.serviceId)
    requires a in target && t in target[a].services
    ensures var cur := AppAt(current, a);
            Splits(Plan(current, target, mayPull), t.serviceId,
                   ServiceSteps(a, FindLast(ServicesOf(cur), t.serviceId), Some(t), Asked(cur, Some(t), mayPull)))
  {
    hide Plan, Splits, UniqueIds, ServiceSteps, Asked;
    var i :| 0 <= i < |target[a].services| && target[a].services[i] == t;
    FindUnique(target[a].services, i);
    PlanSplit(current, target, mayPull, a, t.serviceId);
  }

  /** Exactly when a plan starts a target service: an addition asks the retry
      manager only if the app is known, a replacement never. */
  lemma PlanStarts(current: Apps, target: Apps, mayPull: Retryable, a: nat, t: Service)
    requires AllUnique(current) && AllUnique(target) && OnlyIn(current, a, t.serviceId) && OnlyIn(target, a,
             t.serviceId)
    requires a in target && t in target[a].services
    ensures var cur := AppAt(current, a);
            var c := FindLast(ServicesOf(cur), t.serviceId);
            Starts(Plan(current, target, mayPull), a, t.serviceId) <==> Added(cur, c, t, mayPull) || Replaced(c, t)
  {
    hide Plan, Splits, AllUnique, OnlyIn, ServiceSteps, Added, Replaced, Tidy, Asked, Starts;
    TargetGroup(current, target, mayPull, a, t);
    var plan, cur, s := Plan(current, target, mayPull), AppAt(current, a), t.serviceId;
    var c := FindLast(ServicesOf(cur), s);
    var group := ServiceSteps(a, c, Some(t), Asked(cur, Some(t), mayPull));
    forall x: Service | x.serviceId == s
      ensures StartContainer(a, x) in plan <==> (Added(cur, c, t, mayPull) && x == t) || (Replaced(c, t) && x == Tidy(t))
    {
      GroupMember(plan, s, group, StartContainer(a, x));
      StartInGroup(a, cur, c, t, mayPull, x);
    }
    TidyId(t);
    StartsIff(plan, a, s, Added(cur, c, t, mayPull), t, Replaced(c, t), Tidy(t));
  }

  /** Exactly when a plan removes a target service's container: the retry answer
      does not enter. */
  lemma PlanRemoves(current: Apps, target: Apps, mayPull: Retryable, a: nat, t: Service, id: ContainerId)
    requires AllUnique(current) && AllUnique(target) && OnlyIn(current, a, t.serviceId) && OnlyIn(target, a,
             t.serviceId)
    requires a in target && t in target[a].services
    ensures var c := FindLast(ServicesOf(AppAt(current, a)), t.serviceId);
            RemoveContainer(a, t.serviceId, id) in Plan(current, target, mayPull) <==>
            Replaced(c, t) && c.value.containerId == Some(id)
  {
    hide Plan, Splits, AllUnique, OnlyIn, ServiceSteps, NeedsUpdate, Transition, Tidy, Asked;
    TargetGroup(current, target, mayPull, a, t);
    var plan, cur, s := Plan(current, target, mayPull), AppAt(current, a), t.serviceId;
    var c := FindLast(ServicesOf(cur), s);
    GroupMember(plan, s, ServiceSteps(a, c, Some(t), Asked(cur, Some(t), mayPull)), RemoveContainer(a, s, id));
    RemoveInGroup(a, cur, c, t, mayPull, id);
  }

  lemma TidyId(t: Service)
    ensures Tidy(t).serviceId == t.serviceId
  {
  }

  lemma StartsIff(plan: seq<Step>, a: nat, s: nat, added: bool, x: Service, replaced: bool, y: Service)
    requires x.serviceId == s && y.serviceId == s
    requires forall z: Service | z.serviceId == s ::
               StartContainer(a, z) in plan <==> (added && z == x) || (replaced && z == y)
    ensures Starts(plan, a, s) <==> added || replaced
  {
    if added { assert StartContainer(a, x) in plan; }
    if replaced { assert StartContainer(a, y) in plan; }
  }
}
