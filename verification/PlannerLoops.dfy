/** The planner as the program runs it: loops that push steps, fill sets and
    sort configuration lists in place. Each method is proved to compute the
    plan that module Planner specifies. */
module PlannerLoops {
  import opened Text
  import opened Serialised
  import opened Types
  import opened Planner

  /** Entering the elements of a list into a set, kept in insertion order. */
  method AddAll(names: seq<string>, list: seq<string>, ghost before: seq<string>) returns (r: seq<string>)
    requires names == Uniq(before)
    ensures r == Uniq(before + list)
  {
    hide Uniq;
    r := names;
    assert before + list[..0] == before;
    for i := 0 to |list|
      invariant r == Uniq(before + list[..i])
    {
      UniqMore(before + list[..i], list[i]);
      assert before + list[..i + 1] == before + list[..i] + [list[i]];
      if list[i] !in r {
        r := r + [list[i]];
      }
    }
    assert list[..|list|] == list;
  }

  method CollectNetworks(app: Option<App>) returns (names: seq<string>)
    ensures names == NetworkNames(app)
  {
    names := [];
    if app.Some? {
      var services := app.value.services;
      for i := 0 to |services|
        invariant names == Uniq(AllNetworks(services[..i]))
      {
        assert services[..i + 1][..i] == services[..i];
        names := AddAll(names, services[i].config.networks, AllNetworks(services[..i]));
      }
      assert services[..|services|] == services;
    }
  }

  method VolumeNamesOf(volumes: seq<string>) returns (names: seq<string>)
    ensures names == VolumeNames(volumes)
  {
    names := [];
    for i := 0 to |volumes|
      invariant names == VolumeNames(volumes[..i])
    {
      assert volumes[..i + 1][..i] == volumes[..i];
      if !HasPrefix(volumes[i], "/") {
        names := names + [Split(volumes[i], ':')[0]];
      }
    }
    assert volumes[..|volumes|] == volumes;
  }

  method CollectVolumes(app: Option<App>) returns (names: seq<string>)
    ensures names == NamedVolumes(app)
  {
    names := [];
    if app.Some? {
      var services := app.value.services;
      for i := 0 to |services|
        invariant names == Uniq(AllVolumes(services[..i]))
      {
        assert services[..i + 1][..i] == services[..i];
        var list := VolumeNamesOf(services[i].config.volumes);
        names := AddAll(names, list, AllVolumes(services[..i]));
      }
      assert services[..|services|] == services;
    }
  }

  method PushNetworkCreations(a: nat, xs: seq<string>, ys: seq<string>) returns (steps: seq<Step>)
    ensures steps == NetworkCreations(a, Missing(xs, ys))
  {
    steps := [];
    for i := 0 to |xs|
      invariant steps == NetworkCreations(a, Missing(xs[..i], ys))
    {
      assert xs[..i + 1][..i] == xs[..i];
      if xs[i] !in ys {
        steps := steps + [CreateNetwork(a, xs[i])];
      }
    }
    assert xs[..|xs|] == xs;
  }

  method PushNetworkRemovals(a: nat, xs: seq<string>, ys: seq<string>) returns (steps: seq<Step>)
    ensures steps == NetworkRemovals(a, Missing(xs, ys))
  {
    steps := [];
    for i := 0 to |xs|
      invariant steps == NetworkRemovals(a, Missing(xs[..i], ys))
    {
      assert xs[..i + 1][..i] == xs[..i];
      if xs[i] !in ys {
        steps := steps + [RemoveNetwork(a, xs[i])];
      }
    }
    assert xs[..|xs|] == xs;
  }

  /** `reconcileNetworksForApp` */
  method ReconcileNetworksForApp(a: nat, cur: Option<App>, tgt: Option<App>) returns (steps: seq<Step>)
    ensures steps == NetworkSteps(a, cur, tgt)
  {
    var currentNetworks := CollectNetworks(cur);
    var targetNetworks := CollectNetworks(tgt);
    steps := PushNetworkCreations(a, targetNetworks, currentNetworks);
    var more := PushNetworkRemovals(a, currentNetworks, targetNetworks);
    steps := steps + more;
  }

  method PushVolumeCreations(a: nat, xs: seq<string>, ys: seq<string>) returns (steps: seq<Step>)
    ensures steps == VolumeCreations(a, Missing(xs, ys))
  {
    steps := [];
    for i := 0 to |xs|
      invariant steps == VolumeCreations(a, Missing(xs[..i], ys))
    {
      assert xs[..i + 1][..i] == xs[..i];
      if xs[i] !in ys {
        steps := steps + [CreateVolume(a, xs[i])];
      }
    }
    assert xs[..|xs|] == xs;
  }

  method PushVolumeRemovals(a: nat, xs: seq<string>, ys: seq<string>) returns (steps: seq<Step>)
    ensures steps == VolumeRemovals(a, Missing(xs, ys))
  {
    steps := [];
    for i := 0 to |xs|
      invariant steps == VolumeRemovals(a, Missing(xs[..i], ys))
    {
      assert xs[..i + 1][..i] == xs[..i];
      if xs[i] !in ys {
        steps := steps + [RemoveVolume(a, xs[i])];
      }
    }
    assert xs[..|xs|] == xs;
  }

  /** `reconcileVolumesForApp` */
  method ReconcileVolumesForApp(a: nat, cur: Option<App>, tgt: Option<App>) returns (steps: seq<Step>)
    ensures steps == VolumeSteps(a, cur, tgt)
  {
    var currentVolumes := CollectVolumes(cur);
    var targetVolumes := CollectVolumes(tgt);
    steps := PushVolumeCreations(a, targetVolumes, currentVolumes);
    var more := PushVolumeRemovals(a, currentVolumes, targetVolumes);
    steps := steps + more;
  }

  /** `planStepsToRemoveApp` */
  method PlanStepsToRemoveApp(app: App) returns (steps: seq<Step>)
    ensures steps == RemoveSteps(app.appId, app.services)
  {
    steps := [];
    for i := 0 to |app.services|
      invariant steps == RemoveSteps(app.appId, app.services[..i])
    {
      assert app.services[..i + 1][..i] == app.services[..i];
      var s := app.services[i];
      if s.containerId.Some? {
        steps := steps + [StopContainer(app.appId, s.serviceId, s.containerId.value),
                          RemoveContainer(app.appId, s.serviceId, s.containerId.value)];
      }
    }
    assert app.services[..|app.services|] == app.services;
  }

  /** `planStepsToAddApp` */
  method PlanStepsToAddApp(app: App) returns (steps: seq<Step>)
    ensures steps == AddSteps(app.appId, app.services)
  {
    steps := [];
    for i := 0 to |app.services|
      invariant steps == AddSteps(app.appId, app.services[..i])
    {
      assert app.services[..i + 1][..i] == app.services[..i];
      var s := app.services[i];
      if s.state.GetOr(Running) == Running {
        steps := steps + [DownloadImage(app.appId, s.imageName), StartContainer(app.appId, s)];
      }
    }
    assert app.services[..|app.services|] == app.services;
  }

  /** The filtered copy of the current environment that is compared with the target's. */
  method FilterEnv(current: Env, target: Env) returns (filtered: Env)
    ensures filtered == Restricted(current, target)
  {
    filtered := [];
    for i := 0 to |target|
      invariant filtered == Restricted(current, target[..i])
    {
      assert target[..i + 1][..i] == target[..i];
      var value := Get(current, target[i].key);
      if value.Some? {
        filtered := Put(filtered, target[i].key, value.value);
      }
    }
    assert target[..|target|] == target;
  }

  /** The part of the loop body that compares two records; sorting included. */
  method Compare(c: Service, t: Service) returns (needsUpdate: bool, c': Service, t': Service)
    ensures needsUpdate == NeedsUpdate(c, t) && c' == Tidy(c) && t' == Tidy(t)
  {
    c', t' := c, t;
    var imageChanged := c.imageName != t.imageName;

    c' := c'.(config := c'.config.(ports := Sorted(c'.config.ports)));
    t' := t'.(config := t'.config.(ports := Sorted(t'.config.ports)));
    var portsChanged := Stringify(c'.config.ports) != Stringify(t'.config.ports);

    var filtered := FilterEnv(c.config.environment, t.config.environment);
    var envChanged := StringifyEnv(filtered) != StringifyEnv(t.config.environment);

    c' := c'.(config := c'.config.(volumes := Sorted(c'.config.volumes)));
    t' := t'.(config := t'.config.(volumes := Sorted(t'.config.volumes)));
    var volumesChanged := Stringify(c'.config.volumes) != Stringify(t'.config.volumes);

    c' := c'.(config := c'.config.(networks := Sorted(c'.config.networks)));
    t' := t'.(config := t'.config.(networks := Sorted(t'.config.networks)));
    var networksChanged := Stringify(c'.config.networks) != Stringify(t'.config.networks);

    var currentRestart := OrElse(c.config.restart, "no");
    var targetRestart := OrElse(t.config.restart, "no");
    var restartChanged := t.config.restart.Some? && currentRestart != targetRestart;

    var currentMode := OrElse(c.config.networkMode, "bridge");
    var targetMode := OrElse(t.config.networkMode, "bridge");
    var modeChanged := t.config.networkMode.Some? && currentMode != targetMode;

    var configChanged :=
      portsChanged || envChanged || volumesChanged || networksChanged || restartChanged || modeChanged;
    var stopped := c.status == Some(Exited) || c.status == Some(Dead);
    needsUpdate := imageChanged || configChanged || stopped;
  }

  /** The replacement steps of a compared pair. */
  method PushReplacement(a: nat, c: Service, t: Service) returns (steps: seq<Step>)
    requires c.containerId.Some?
    ensures steps == ReplaceSteps(a, c, t)
  {
    steps := [];
    if c.imageName != t.imageName {
      steps := steps + [DownloadImage(a, t.imageName)];
    }
    steps := steps + [StopContainer(a, c.serviceId, c.containerId.value),
                      RemoveContainer(a, c.serviceId, c.containerId.value),
                      StartContainer(a, t)];
  }

  /** The loop body of `planStepsToUpdateApp` for one service id. */
  method PlanService(a: nat, cur: Option<Service>, tgt: Option<Service>, mayPull: Retryable)
    returns (steps: seq<Step>, compared: bool, cur': Option<Service>, tgt': Option<Service>)
    ensures steps == ServiceSteps(a, cur, tgt, MayPull(tgt, mayPull))
    ensures compared <==> cur.Some? && tgt.Some? && !Transition(cur.value, tgt.value)
    ensures compared ==> cur' == Some(Tidy(cur.value)) && tgt' == Some(Tidy(tgt.value))
  {
    steps, compared, cur', tgt' := [], false, cur, tgt;
    if cur.Some? && tgt.None? && cur.value.containerId.Some? {
      steps := [StopContainer(a, cur.value.serviceId, cur.value.containerId.value),
                RemoveContainer(a, cur.value.serviceId, cur.value.containerId.value)];
    }
    if cur.None? && tgt.Some? {
      if Desired(tgt.value) != Running {
        return;
      }
      if !mayPull(tgt.value.imageName) {
        return;
      }
      steps := [DownloadImage(a, tgt.value.imageName), StartContainer(a, tgt.value)];
    }
    if cur.Some? && tgt.Some? {
      var c, t := cur.value, tgt.value;
      if Desired(c) != Desired(t) && c.containerId.Some? {
        steps := TransitionSteps(a, c, t);
        return;
      }
      var needsUpdate, c', t' := Compare(c, t);
      compared, cur', tgt' := true, Some(c'), Some(t');
      if needsUpdate && c.containerId.Some? {
        steps := PushReplacement(a, c, t');
      }
    }
  }

  predicate Touched(own: seq<Service>, other: seq<Service>, ownIsCurrent: bool, ids: seq<nat>, i: nat)
    requires i < |own|
  {
    own[i].serviceId in ids && Compared(own, other, ownIsCurrent, i)
  }

  /** The services after the ids of `ids` have been visited. */
  ghost predicate Visited(now: seq<Service>, own: seq<Service>, other: seq<Service>, ownIsCurrent: bool,
      ids: seq<nat>) {
    && |now| == |own|
    && forall i | 0 <= i < |own| :: now[i] == if Touched(own, other, ownIsCurrent, ids, i) then Tidy(own[i]) else own[i]
  }

  lemma {:induction false} FindLastSame(own: seq<Service>, now: seq<Service>, id: nat)
    requires |now| == |own| && forall i | 0 <= i < |own| :: now[i].serviceId == own[i].serviceId
    requires forall i | 0 <= i < |own| && own[i].serviceId == id :: now[i] == own[i]
    ensures FindLast(now, id) == FindLast(own, id)
  {
    if own != [] {
      FindLastSame(own[..|own| - 1], now[..|now| - 1], id);
    }
  }

  /** Sorting in place of the last record with an id. */
  method SortLast(now: seq<Service>, ghost own: seq<Service>, ghost other: seq<Service>, ghost ownIsCurrent: bool,
                  ghost ids: seq<nat>, id: nat, sorted: Service) returns (r: seq<Service>)
    requires Visited(now, own, other, ownIsCurrent, ids) && id !in ids
    requires FindLast(own, id).Some? && sorted == Tidy(FindLast(own, id).value)
    requires FindLast(other, id).Some?
    requires !(if ownIsCurrent then Transition(FindLast(own, id).value, FindLast(other, id).value)
               else Transition(FindLast(other, id).value, FindLast(own, id).value))
    ensures Visited(r, own, other, ownIsCurrent, ids + [id])
  {
    FindLastSame(own, now, id);
    var k := LastIndex(now, id);
    r := now[k := sorted];
    assert own[k].serviceId == id && own[k] == now[k];
    forall i | 0 <= i < |own|
      ensures r[i] == if Touched(own, other, ownIsCurrent, ids + [id], i) then Tidy(own[i]) else own[i]
    {
      assert now[i].serviceId == own[i].serviceId;
      assert forall j | k < j < |own| :: own[j].serviceId == now[j].serviceId != id;
      if i == k {
        assert Compared(own, other, ownIsCurrent, k);
      } else if own[i].serviceId == id {
        assert i < k;
        assert !Compared(own, other, ownIsCurrent, i);
      }
    }
  }

  lemma SkipVisited(now: seq<Service>, own: seq<Service>, other: seq<Service>, ownIsCurrent: bool, ids: seq<nat>,
      id: nat)
    requires Visited(now, own, other, ownIsCurrent, ids)
    requires FindLast(own, id).None? || FindLast(other, id).None?
             || (if ownIsCurrent then Transition(FindLast(own, id).value, FindLast(other, id).value)
                 else Transition(FindLast(other, id).value, FindLast(own, id).value))
    ensures Visited(now, own, other, ownIsCurrent, ids + [id])
  {
    forall i | 0 <= i < |own| && own[i].serviceId == id
      ensures !Compared(own, other, ownIsCurrent, i)
    {
      if Compared(own, other, ownIsCurrent, i) {
        LastFound(own, i);
        assert false;
      }
    }
  }

  lemma NoneVisited(own: seq<Service>, other: seq<Service>, ownIsCurrent: bool)
    ensures Visited(own, own, other, ownIsCurrent, [])
  {
  }

  lemma AllIdsCovers(current: seq<Service>, target: seq<Service>)
    ensures Distinct(AllIds(current, target))
    ensures forall x | x in Ids(current) :: x in AllIds(current, target)
    ensures forall x | x in Ids(target) :: x in AllIds(current, target)
  {
  }

  lemma AllVisited(now: seq<Service>, own: seq<Service>, other: seq<Service>, ownIsCurrent: bool, ids: seq<nat>)
    requires Visited(now, own, other, ownIsCurrent, ids)
    requires forall x | x in Ids(own) :: x in ids
    ensures now == TidyServices(own, other, ownIsCurrent)
  {
    forall i | 0 <= i < |own| ensures own[i].serviceId in ids {
      assert Ids(own)[i] in Ids(own);
    }
  }

  /** One turn of the loop: the steps of one id and both lists afterwards. */
  method VisitId(a: nat, cs: seq<Service>, ts: seq<Service>, id: nat, mayPull: Retryable,
                 ghost current: seq<Service>, ghost target: seq<Service>, ghost ids: seq<nat>)
    returns (more: seq<Step>, cs': seq<Service>, ts': seq<Service>)
    requires Visited(cs, current, target, true, ids) && Visited(ts, target, current, false, ids) && id !in ids
    ensures more == ServiceSteps(a, FindLast(current, id), FindLast(target, id), MayPull(FindLast(target, id), mayPull))
    ensures Visited(cs', current, target, true, ids + [id]) && Visited(ts', target, current, false, ids + [id])
  {
    FindLastSame(current, cs, id);
    FindLastSame(target, ts, id);
    var compared, cur', tgt';
    more, compared, cur', tgt' := PlanService(a, FindLast(cs, id), FindLast(ts, id), mayPull);
    if compared {
      cs' := SortLast(cs, current, target, true, ids, id, cur'.value);
      ts' := SortLast(ts, target, current, false, ids, id, tgt'.value);
    } else {
      SkipVisited(cs, current, target, true, ids, id);
      SkipVisited(ts, target, current, false, ids, id);
      cs', ts' := cs, ts;
    }
  }

  /** `planStepsToUpdateApp` */
  method PlanStepsToUpdateApp(current: App, target: App, mayPull: Retryable)
    returns (steps: seq<Step>, current': App, target': App)
    requires current.appId == target.appId
    ensures steps == UpdateSteps(current.appId, current.services, target.services,
                                 AllIds(current.services, target.services), mayPull)
    ensures Some(current') == TidyCurrent(Some(current), Some(target))
    ensures Some(target') == TidyTarget(Some(current), Some(target))
  {
    hide ServiceSteps, TidyServices, Visited, AllIds;
    var cs, ts := current.services, target.services;
    var ids := AllIds(current.services, target.services);
    NoneVisited(current.services, target.services, true);
    NoneVisited(target.services, current.services, false);
    AllIdsCovers(current.services, target.services);
    steps := [];
    for n := 0 to |ids|
      invariant steps == UpdateSteps(current.appId, current.services, target.services, ids[..n], mayPull)
      invariant Visited(cs, current.services, target.services, true, ids[..n])
      invariant Visited(ts, target.services, current.services, false, ids[..n])
    {
      assert ids[..n + 1][..n] == ids[..n] && ids[..n + 1] == ids[..n] + [ids[n]];
      assert ids[n] !in ids[..n];
      var more;
      more, cs, ts := VisitId(current.appId, cs, ts, ids[n], mayPull, current.services, target.services, ids[..n]);
      steps := steps + more;
    }
    assert ids[..|ids|] == ids;
    assert ids[..0] == [];
    AllVisited(cs, current.services, target.services, true, ids);
    AllVisited(ts, target.services, current.services, false, ids);
    current', target' := current.(services := cs), target.(services := ts);
  }

  // ---- calculateSteps ----

  function OnlyNetworkCreations(steps: seq<Step>): seq<Step> {
    if steps == [] then []
    else (if steps[0].CreateNetwork? then [steps[0]] else []) + OnlyNetworkCreations(steps[1..])
  }

  function OnlyNetworkRemovals(steps: seq<Step>): seq<Step> {
    if steps == [] then []
    else (if steps[0].RemoveNetwork? then [steps[0]] else []) + OnlyNetworkRemovals(steps[1..])
  }

  function OnlyVolumeCreations(steps: seq<Step>): seq<Step> {
    if steps == [] then []
    else (if steps[0].CreateVolume? then [steps[0]] else []) + OnlyVolumeCreations(steps[1..])
  }

  function OnlyVolumeRemovals(steps: seq<Step>): seq<Step> {
    if steps == [] then []
    else (if steps[0].RemoveVolume? then [steps[0]] else []) + OnlyVolumeRemovals(steps[1..])
  }

  lemma {:induction false} FilterNetworks(creations: seq<Step>, removals: seq<Step>)
    requires forall s | s in creations :: s.CreateNetwork?
    requires forall s | s in removals :: s.RemoveNetwork?
    ensures OnlyNetworkCreations(creations + removals) == creations
    ensures OnlyNetworkRemovals(creations + removals) == removals
    decreases |creations| + |removals|
  {
    var all := creations + removals;
    if creations != [] {
      assert creations[0] in creations && all[1..] == creations[1..] + removals;
      FilterNetworks(creations[1..], removals);
    } else if removals != [] {
      assert removals[0] in removals && all[1..] == creations + removals[1..];
      FilterNetworks(creations, removals[1..]);
    }
  }

  lemma {:induction false} FilterVolumes(creations: seq<Step>, removals: seq<Step>)
    requires forall s | s in creations :: s.CreateVolume?
    requires forall s | s in removals :: s.RemoveVolume?
    ensures OnlyVolumeCreations(creations + removals) == creations
    ensures OnlyVolumeRemovals(creations + removals) == removals
    decreases |creations| + |removals|
  {
    var all := creations + removals;
    if creations != [] {
      assert creations[0] in creations && all[1..] == creations[1..] + removals;
      FilterVolumes(creations[1..], removals);
    } else if removals != [] {
      assert removals[0] in removals && all[1..] == creations + removals[1..];
      FilterVolumes(creations, removals[1..]);
    }
  }

  lemma FilterPlanned(a: nat, xs: seq<string>, ys: seq<string>)
    ensures OnlyVolumeCreations(VolumeCreations(a, xs) + VolumeRemovals(a, ys)) == VolumeCreations(a, xs)
    ensures OnlyVolumeRemovals(VolumeCreations(a, xs) + VolumeRemovals(a, ys)) == VolumeRemovals(a, ys)
    ensures OnlyNetworkCreations(NetworkCreations(a, xs) + NetworkRemovals(a, ys)) == NetworkCreations(a, xs)
    ensures OnlyNetworkRemovals(NetworkCreations(a, xs) + NetworkRemovals(a, ys)) == NetworkRemovals(a, ys)
  {
    FilterVolumes(VolumeCreations(a, xs), VolumeRemovals(a, ys));
    FilterNetworks(NetworkCreations(a, xs), NetworkRemovals(a, ys));
  }

  /** The container steps of one app, and both records afterwards. */
  method PlanContainers(a: nat, cur: Option<App>, tgt: Option<App>, mayPull: Retryable)
    returns (steps: seq<Step>, cur': Option<App>, tgt': Option<App>)
    requires cur.Some? ==> cur.value.appId == a
    requires tgt.Some? ==> tgt.value.appId == a
    ensures steps == ContainerSteps(a, cur, tgt, mayPull)
    ensures cur' == TidyCurrent(cur, tgt) && tgt' == TidyTarget(cur, tgt)
  {
    hide UpdateSteps, RemoveSteps, AddSteps, TidyServices, AllIds;
    steps, cur', tgt' := [], cur, tgt;
    if cur.Some? && tgt.None? {
      steps := PlanStepsToRemoveApp(cur.value);
    } else if cur.None? && tgt.Some? {
      steps := PlanStepsToAddApp(tgt.value);
    } else if cur.Some? && tgt.Some? {
      var c, t;
      steps, c, t := PlanStepsToUpdateApp(cur.value, tgt.value, mayPull);
      cur', tgt' := Some(c), Some(t);
    }
  }

  /** The steps of one app, and both records after planning. */
  method PlanApp(a: nat, cur: Option<App>, tgt: Option<App>, mayPull: Retryable)
    returns (steps: seq<Step>, cur': Option<App>, tgt': Option<App>)
    requires cur.Some? ==> cur.value.appId == a
    requires tgt.Some? ==> tgt.value.appId == a
    ensures steps == AppSteps(a, cur, tgt, mayPull)
    ensures cur' == TidyCurrent(cur, tgt) && tgt' == TidyTarget(cur, tgt)
  {
    hide ContainerSteps, TidyCurrent, TidyTarget, NewNetworks, OldNetworks, NewVolumes, OldVolumes;
    hide NetworkCreations, NetworkRemovals, VolumeCreations, VolumeRemovals;
    hide OnlyNetworkCreations, OnlyNetworkRemovals, OnlyVolumeCreations, OnlyVolumeRemovals;
    var volumes := ReconcileVolumesForApp(a, cur, tgt);
    FilterPlanned(a, NewVolumes(cur, tgt), OldVolumes(cur, tgt));
    steps := OnlyVolumeCreations(volumes);
    var networks := ReconcileNetworksForApp(a, cur, tgt);
    FilterPlanned(a, NewNetworks(cur, tgt), OldNetworks(cur, tgt));
    steps := steps + OnlyNetworkCreations(networks);
    var more;
    more, cur', tgt' := PlanContainers(a, cur, tgt, mayPull);
    steps := steps + more;
    networks := ReconcileNetworksForApp(a, cur', tgt');
    FilterPlanned(a, NewNetworks(cur', tgt'), OldNetworks(cur', tgt'));
    steps := steps + OnlyNetworkRemovals(networks);
    volumes := ReconcileVolumesForApp(a, cur', tgt');
    FilterPlanned(a, NewVolumes(cur', tgt'), OldVolumes(cur', tgt'));
    steps := steps + OnlyVolumeRemovals(volumes);
  }

  /** Records are keyed by their own app ids. */
  predicate Keyed(apps: Apps) {
    forall a | a in apps :: apps[a].appId == a
  }

  /** The apps after the ids of `ids` have been planned. */
  ghost predicate Planned(now: Apps, own: Apps, tidy: Apps, ids: seq<nat>) {
    && now.Keys == own.Keys == tidy.Keys
    && forall a | a in own :: now[a] == if a in ids then tidy[a] else own[a]
  }

  lemma PlanOne(now: Apps, own: Apps, tidy: Apps, ids: seq<nat>, a: nat, app: Option<App>)
    requires Planned(now, own, tidy, ids) && app == AppAt(tidy, a)
    ensures Planned(if app.Some? then now[a := app.value] else now, own, tidy, ids + [a])
  {
  }

  lemma PlannedAll(now: Apps, own: Apps, tidy: Apps, ids: seq<nat>)
    requires Planned(now, own, tidy, ids) && forall a | a in own :: a in ids
    ensures now == tidy
  {
  }

  lemma StepsForNext(ids: seq<nat>, n: nat, current: Apps, target: Apps, mayPull: Retryable)
    requires n < |ids|
    ensures ids[..n + 1] == ids[..n] + [ids[n]]
    ensures StepsFor(ids[..n + 1], current, target, mayPull) ==
            StepsFor(ids[..n], current, target, mayPull) + AppSteps(ids[n], AppAt(current, ids[n]), AppAt(target,
                ids[n]), mayPull)
  {
    assert ids[..n + 1][..n] == ids[..n];
  }

  /** One turn of the loop over the apps. */
  method VisitApp(a: nat, current': Apps, target': Apps, mayPull: Retryable,
                  ghost current: Apps, ghost target: Apps, ghost ids: seq<nat>)
    returns (more: seq<Step>, current'': Apps, target'': Apps)
    requires Keyed(current) && Keyed(target) && a !in ids
    requires Planned(current', current, TidyCurrentApps(current, target), ids)
    requires Planned(target', target, TidyTargetApps(current, target), ids)
    ensures more == AppSteps(a, AppAt(current, a), AppAt(target, a), mayPull)
    ensures Planned(current'', current, TidyCurrentApps(current, target), ids + [a])
    ensures Planned(target'', target, TidyTargetApps(current, target), ids + [a])
  {
    assert AppAt(current', a) == AppAt(current, a) && AppAt(target', a) == AppAt(target, a);
    var cur', tgt';
    more, cur', tgt' := PlanApp(a, AppAt(current', a), AppAt(target', a), mayPull);
    TidyAt(current, target, a);
    PlanOne(current', current, TidyCurrentApps(current, target), ids, a, cur');
    PlanOne(target', target, TidyTargetApps(current, target), ids, a, tgt');
    current'' := if cur'.Some? then current'[a := cur'.value] else current';
    target'' := if tgt'.Some? then target'[a := tgt'.value] else target';
  }

  lemma TidyKeys(current: Apps, target: Apps)
    ensures TidyCurrentApps(current, target).Keys == current.Keys && TidyTargetApps(current, target).Keys == target.Keys
  {
    hide TidyCurrent, TidyTarget;
  }

  /** `calculateSteps`; the states come back with the compared lists sorted. */
  method CalculateSteps(current: Apps, target: Apps, mayPull: Retryable)
    returns (steps: seq<Step>, current': Apps, target': Apps)
    requires Keyed(current) && Keyed(target)
    ensures steps == Plan(current, target, mayPull)
    ensures current' == TidyCurrentApps(current, target) && target' == TidyTargetApps(current, target)
  {
    hide AppSteps, TidyCurrentApps, TidyTargetApps;
    var ids := AppIds(current, target);
    steps, current', target' := [], current, target;
    ghost var tidyC, tidyT := TidyCurrentApps(current, target), TidyTargetApps(current, target);
    TidyKeys(current, target);
    assert ids[..0] == [];
    for n := 0 to |ids|
      invariant steps == StepsFor(ids[..n], current, target, mayPull)
      invariant Planned(current', current, tidyC, ids[..n]) && Planned(target', target, tidyT, ids[..n])
    {
      StepsForNext(ids, n, current, target, mayPull);
      var more;
      more, current', target' := VisitApp(ids[n], current', target', mayPull, current, target, ids[..n]);
      steps := steps + more;
    }
    assert ids[..|ids|] == ids;
    PlannedAll(current', current, tidyC, ids);
    PlannedAll(target', target, tidyT, ids);
  }
}
