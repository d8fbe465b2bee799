/** The reconciliation planner: from the current and the target state to an
    ordered list of steps. Every function here has the method that computes it
    with the loops of the program; `Tidy` records the in-place sorting. */
module Planner {
  import opened Text
  import opened Serialised
  import opened Types

  // ---- Networks and volumes ----

  function AllNetworks(services: seq<Service>): seq<string> {
    if services == [] then []
    else AllNetworks(services[..|services| - 1]) + services[|services| - 1].config.networks
  }

  /** The named volumes of a list; bind mounts start with a slash. */
  function VolumeNames(volumes: seq<string>): seq<string> {
    if volumes == [] then []
    else
      var names := VolumeNames(volumes[..|volumes| - 1]);
      var v := volumes[|volumes| - 1];
      if HasPrefix(v, "/") then names else names + [Split(v, ':')[0]]
  }

  function AllVolumes(services: seq<Service>): seq<string> {
    if services == [] then []
    else AllVolumes(services[..|services| - 1]) + VolumeNames(services[|services| - 1].config.volumes)
  }

  function ServicesOf(app: Option<App>): seq<Service> {
    match app
    case Some(x) => x.services
    case None => []
  }

  function NetworkNames(app: Option<App>): seq<string> {
    Uniq(AllNetworks(ServicesOf(app)))
  }

  function NamedVolumes(app: Option<App>): seq<string> {
    Uniq(AllVolumes(ServicesOf(app)))
  }

  /** The elements of `xs` that are not in `ys`, in order. */
  function Missing(xs: seq<string>, ys: seq<string>): (r: seq<string>)
    ensures forall x :: x in r <==> x in xs && x !in ys
    ensures Distinct(xs) ==> Distinct(r)
  {
    if xs == [] then []
    else
      var r := Missing(xs[..|xs| - 1], ys);
      var x := xs[|xs| - 1];
      assert xs == xs[..|xs| - 1] + [x];
      if x in ys then r else r + [x]
  }

  function NetworkCreations(a: nat, names: seq<string>): seq<Step> {
    seq(|names|, i requires 0 <= i < |names| => CreateNetwork(a, names[i]))
  }

  function NetworkRemovals(a: nat, names: seq<string>): seq<Step> {
    seq(|names|, i requires 0 <= i < |names| => RemoveNetwork(a, names[i]))
  }

  function VolumeCreations(a: nat, names: seq<string>): seq<Step> {
    seq(|names|, i requires 0 <= i < |names| => CreateVolume(a, names[i]))
  }

  function VolumeRemovals(a: nat, names: seq<string>): seq<Step> {
    seq(|names|, i requires 0 <= i < |names| => RemoveVolume(a, names[i]))
  }

  function NewNetworks(cur: Option<App>, tgt: Option<App>): seq<string> {
    Missing(NetworkNames(tgt), NetworkNames(cur))
  }

  function OldNetworks(cur: Option<App>, tgt: Option<App>): seq<string> {
    Missing(NetworkNames(cur), NetworkNames(tgt))
  }

  function NewVolumes(cur: Option<App>, tgt: Option<App>): seq<string> {
    Missing(NamedVolumes(tgt), NamedVolumes(cur))
  }

  function OldVolumes(cur: Option<App>, tgt: Option<App>): seq<string> {
    Missing(NamedVolumes(cur), NamedVolumes(tgt))
  }

  /** The result of `reconcileNetworksForApp`. */
  function NetworkSteps(a: nat, cur: Option<App>, tgt: Option<App>): seq<Step> {
    NetworkCreations(a, NewNetworks(cur, tgt)) + NetworkRemovals(a, OldNetworks(cur, tgt))
  }

  /** The result of `reconcileVolumesForApp`. */
  function VolumeSteps(a: nat, cur: Option<App>, tgt: Option<App>): seq<Step> {
    VolumeCreations(a, NewVolumes(cur, tgt)) + VolumeRemovals(a, OldVolumes(cur, tgt))
  }

  // ---- One service ----

  predicate Transition(c: Service, t: Service) {
    Desired(c) != Desired(t) && c.containerId.Some?
  }

  function TransitionSteps(a: nat, c: Service, t: Service): seq<Step>
    requires Transition(c, t)
  {
    var s, id := c.serviceId, c.containerId.value;
    match (Desired(c), Desired(t))
    case (Running, Stopped) => [StopContainer(a, s, id)]
    case (Running, _) => [PauseContainer(a, s, id)]
    case (Stopped, Running) => [StartStoppedContainer(a, s, id)]
    case (Stopped, _) => [StartStoppedContainer(a, s, id), PauseContainer(a, s, id)]
    case (Paused, Running) => [UnpauseContainer(a, s, id)]
    case (Paused, _) => [UnpauseContainer(a, s, id), StopContainer(a, s, id)]
  }

  function OrElse(o: Option<string>, default: string): string {
    if Truthy(o) then o.value else default
  }

  /** The setting counts as changed only if the target gives one. */
  predicate SettingDiffers(c: Option<string>, t: Option<string>, default: string) {
    t.Some? && OrElse(c, default) != OrElse(t, default)
  }

  predicate ConfigDiffers(c: Config, t: Config) {
    || ListsDiffer(c.ports, t.ports)
    || EnvDiffers(c.environment, t.environment)
    || ListsDiffer(c.volumes, t.volumes)
    || ListsDiffer(c.networks, t.networks)
    || SettingDiffers(c.restart, t.restart, "no")
    || SettingDiffers(c.networkMode, t.networkMode, "bridge")
  }

  predicate NeedsUpdate(c: Service, t: Service) {
    c.imageName != t.imageName || ConfigDiffers(c.config, t.config) || c.status == Some(Exited)
        || c.status == Some(Dead)
  }

  /** The comparison sorts the lists of both configurations in place. */
  function TidyConfig(c: Config): Config {
    c.(ports := Sorted(c.ports), volumes := Sorted(c.volumes), networks := Sorted(c.networks))
  }

  function Tidy(s: Service): Service {
    s.(config := TidyConfig(s.config))
  }

  function ReplaceSteps(a: nat, c: Service, t: Service): seq<Step>
    requires c.containerId.Some?
  {
    (if c.imageName != t.imageName then [DownloadImage(a, t.imageName)] else [])
    + [StopContainer(a, c.serviceId, c.containerId.value),
       RemoveContainer(a, c.serviceId, c.containerId.value),
       StartContainer(a, t)]
  }

  /** The container steps of one service: nothing but its own two records and
      the retry answer for its image enters. */
  function ServiceSteps(a: nat, cur: Option<Service>, tgt: Option<Service>, mayPull: bool): seq<Step> {
    match (cur, tgt)
    case (None, None) => []
    case (Some(c), None) =>
      if c.containerId.None? then []
      else [StopContainer(a, c.serviceId, c.containerId.value), RemoveContainer(a, c.serviceId, c.containerId.value)]
    case (None, Some(t)) =>
      if Desired(t) != Running || !mayPull then []
      else [DownloadImage(a, t.imageName), StartContainer(a, t)]
    case (Some(c), Some(t)) =>
      if Transition(c, t) then TransitionSteps(a, c, t)
      else if NeedsUpdate(c, t) && c.containerId.Some? then ReplaceSteps(a, c, Tidy(t))
      else []
  }

  // ---- One app ----

  type Retryable = string -> bool

  function MayPull(t: Option<Service>, mayPull: Retryable): bool {
    match t
    case Some(s) => mayPull(s.imageName)
    case None => true
  }

  function AllIds(current: seq<Service>, target: seq<Service>): seq<nat> {
    Uniq(Uniq(Ids(current)) + Uniq(Ids(target)))
  }

  function UpdateSteps(a: nat, current: seq<Service>, target: seq<Service>, ids: seq<nat>,
      mayPull: Retryable): seq<Step> {
    if ids == [] then []
    else
      var id := ids[|ids| - 1];
      var t := FindLast(target, id);
      UpdateSteps(a, current, target, ids[..|ids| - 1], mayPull)
      + ServiceSteps(a, FindLast(current, id), t, MayPull(t, mayPull))
  }

  function RemoveSteps(a: nat, services: seq<Service>): seq<Step> {
    if services == [] then []
    else
      RemoveSteps(a, services[..|services| - 1]) + ServiceSteps(a, Some(services[|services| - 1]), None, true)
  }

  /** Adding a whole app does not ask the retry manager. */
  function AddSteps(a: nat, services: seq<Service>): seq<Step> {
    if services == [] then []
    else
      AddSteps(a, services[..|services| - 1]) + ServiceSteps(a, None, Some(services[|services| - 1]), true)
  }

  function LastIndex(services: seq<Service>, id: nat): (k: nat)
    requires exists s :: s in services && s.serviceId == id
    ensures k < |services| && services[k].serviceId == id && FindLast(services, id) == Some(services[k])
    ensures forall i | k < i < |services| :: services[i].serviceId != id
  {
    var n := |services| - 1;
    assert services == services[..n] + [services[n]];
    if services[n].serviceId == id then n else LastIndex(services[..n], id)
  }

  /** Whether the comparison of this pass sorts the lists of `own[i]`. */
  predicate Compared(own: seq<Service>, other: seq<Service>, ownIsCurrent: bool, i: nat)
    requires i < |own|
  {
    var id := own[i].serviceId;
    var o := FindLast(other, id);
    && (forall j | i < j < |own| :: own[j].serviceId != id)
    && o.Some?
    && !(if ownIsCurrent then Transition(own[i], o.value) else Transition(o.value, own[i]))
  }

  /** The services of one state after a pass that compared them with the other's. */
  function TidyServices(own: seq<Service>, other: seq<Service>, ownIsCurrent: bool): (r: seq<Service>)
    ensures |r| == |own|
  {
    seq(|own|, i requires 0 <= i < |own| => if Compared(own, other, ownIsCurrent, i) then Tidy(own[i]) else own[i])
  }

  function TidyCurrent(cur: Option<App>, tgt: Option<App>): Option<App> {
    match (cur, tgt)
    case (Some(c), Some(t)) => Some(c.(services := TidyServices(c.services, t.services, true)))
    case _ => cur
  }

  function TidyTarget(cur: Option<App>, tgt: Option<App>): Option<App> {
    match (cur, tgt)
    case (Some(c), Some(t)) => Some(t.(services := TidyServices(t.services, c.services, false)))
    case _ => tgt
  }

  function ContainerSteps(a: nat, cur: Option<App>, tgt: Option<App>, mayPull: Retryable): seq<Step> {
    match (cur, tgt)
    case (Some(c), None) => RemoveSteps(a, c.services)
    case (None, Some(t)) => AddSteps(a, t.services)
    case (Some(c), Some(t)) => UpdateSteps(a, c.services, t.services, AllIds(c.services, t.services), mayPull)
    case (None, None) => []
  }

  /** Volumes and networks first, then containers, then the removals. */
  function AppSteps(a: nat, cur: Option<App>, tgt: Option<App>, mayPull: Retryable): seq<Step> {
    VolumeCreations(a, NewVolumes(cur, tgt))
    + NetworkCreations(a, NewNetworks(cur, tgt))
    + ContainerSteps(a, cur, tgt, mayPull)
    + NetworkRemovals(a, OldNetworks(TidyCurrent(cur, tgt), TidyTarget(cur, tgt)))
    + VolumeRemovals(a, OldVolumes(TidyCurrent(cur, tgt), TidyTarget(cur, tgt)))
  }

  // ---- All apps ----

  predicate IsLeast(x: nat, s: set<nat>) {
    x in s && forall y | y in s :: x <= y
  }

  lemma LeastExists(s: set<nat>)
    requires s != {}
    ensures exists x :: IsLeast(x, s)
  {
    var x :| x in s;
    var rest := s - {x};
    if rest == {} {
      assert s == {x};
      assert IsLeast(x, s);
    } else {
      LeastExists(rest);
      var z :| IsLeast(z, rest);
      assert forall y | y in s :: y == x || y in rest;
      assert IsLeast(if x <= z then x else z, s);
    }
  }

  /** `Object.keys` of a record with natural numbers as keys: ascending. */
  function Ascending(s: set<nat>): (r: seq<nat>)
    ensures forall x :: x in r <==> x in s
  {
    if s == {} then []
    else
      LeastExists(s);
      var x :| IsLeast(x, s);
      var r := Ascending(s - {x});
      assert forall y :: y in s <==> y == x || y in s - {x};
      [x] + r
  }

  function AppIds(current: Apps, target: Apps): (ids: seq<nat>)
    ensures Distinct(ids)
    ensures forall a :: a in ids <==> a in current || a in target
  {
    Uniq(Ascending(current.Keys) + Ascending(target.Keys))
  }

  function StepsFor(ids: seq<nat>, current: Apps, target: Apps, mayPull: Retryable): seq<Step> {
    if ids == [] then []
    else
      var a := ids[|ids| - 1];
      StepsFor(ids[..|ids| - 1], current, target, mayPull) + AppSteps(a, AppAt(current, a), AppAt(target, a), mayPull)
  }

  /** The result of `calculateSteps`. */
  function Plan(current: Apps, target: Apps, mayPull: Retryable): seq<Step> {
    StepsFor(AppIds(current, target), current, target, mayPull)
  }

  /** The last record with an id is the one that is found. */
  lemma {:induction false} LastFound(services: seq<Service>, i: nat)
    requires i < |services| && forall j | i < j < |services| :: services[j].serviceId != services[i].serviceId
    ensures FindLast(services, services[i].serviceId) == Some(services[i])
  {
    if i < |services| - 1 {
      LastFound(services[..|services| - 1], i);
    }
  }

  /** The current apps after planning. */
  function TidyCurrentApps(current: Apps, target: Apps): Apps {
    map a | a in current :: TidyCurrent(Some(current[a]), AppAt(target, a)).value
  }

  function TidyTargetApps(current: Apps, target: Apps): Apps {
    map a | a in target :: TidyTarget(AppAt(current, a), Some(target[a])).value
  }

  lemma TidyAt(current: Apps, target: Apps, a: nat)
    ensures AppAt(TidyCurrentApps(current, target), a) == TidyCurrent(AppAt(current, a), AppAt(target, a))
    ensures AppAt(TidyTargetApps(current, target), a) == TidyTarget(AppAt(current, a), AppAt(target, a))
  {
    hide TidyServices;
  }
}
