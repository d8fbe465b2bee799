/** A start that fails after its container was created. The container stays in
    the state `created`, which a sync reads as running, so the next round starts
    the service only if the planner notices something else: exactly when. */
module FailedStart {
  import opened Text
  import opened Serialised
  import opened Types
  import opened Retry
  import opened Docker
  import opened DockerSync
  import opened Planner
  import opened Executor
  import opened RoundTrip
  import opened Isolation
  import opened PlanFacts
  import opened RoundFacts
  import opened Outcomes
  import opened OneRound

  // ---- What the failed start leaves ----

  /** The create succeeds and the start fails: no id is returned, and the service
      has a container that was never started. */
  lemma StartFails(d: DockerState, x: Service, l: Luck)
    requires Sane(d) && Faithful(x) && Slot(d, x.serviceId) == map[]
    requires !l.find && !l.create && l.start && (x.imageName in d.images || l.failedPulls < 3)
    ensures var r := Start(d, x, l);
            r.id.None? && Slot(r.docker, x.serviceId) == map[d.nextId := PrintContainer(x, l.imageEnv)]
  {
    hide PrintContainer, ServiceIdOf, Faithful, NameOf, Sound;
    SlotNone(d, x.serviceId);
    forall id | id in d.containers ensures d.containers[id].name != NameOf(x) {
      if d.containers[id].name == NameOf(x) {
        NameDecides(x, d.containers[id]);
      }
    }
    PrintedFacts(x, l.imageEnv, Created, []);
    assert PrintContainer(x, l.imageEnv).(status := Created, networks := []) == PrintContainer(x, l.imageEnv) by {
      NeverStarted(x, l.imageEnv);
    }
    SlotAdded(d, x.serviceId, PrintContainer(x, l.imageEnv), Start(d, x, l).docker);
  }

  lemma NeverStarted(x: Service, imageEnv: seq<string>)
    ensures PrintContainer(x, imageEnv).status == Created && PrintContainer(x, imageEnv).networks == []
  {
  }

  // ---- What the planner notices ----

  /** Something of the configuration is not found in a container that was never
      started: a port, a variable or volume that is never read back, a network
      besides the one that is the mode, or the empty restart policy. */
  predicate Noticed(c: Config, a: nat) {
    || c.ports != [] || !PlainKeys(c.environment) || !TwoParts(c.volumes)
    || c.networks != ModeName(ModeOf(c), a) || c.restart == Some("")
  }

  /** A service of one image and nothing else to compare: nothing is noticed. */
  lemma BareUnnoticed(t: Service)
    requires t.config == Config([], [], [], [], None, None, map[])
    ensures !Noticed(t.config, t.appId)
  {
    BridgePlain(t.appId);
  }

  /** The record that was started: the target's, sorted or not. */
  predicate OfTarget(x: Service, t: Service) {
    x == t || x == Tidy(t)
  }

  lemma SortedVolumes(volumes: seq<string>)
    ensures TwoParts(Sorted(volumes)) <==> TwoParts(volumes)
    ensures multiset(Sorted(volumes)) == multiset(volumes)
  {
    hide TwoPart, Sorted;
    assert forall v :: v in volumes <==> v in multiset(volumes);
    assert forall v :: v in Sorted(volumes) <==> v in multiset(Sorted(volumes));
    assert TwoParts(volumes) <==> forall v | v in volumes :: TwoPart(v);
    assert TwoParts(Sorted(volumes)) <==> forall v | v in Sorted(volumes) :: TwoPart(v);
  }

  lemma FewNetworks(names: seq<string>, own: seq<string>)
    requires |own| <= 1
    ensures multiset(own) == multiset(names) <==> names == own
  {
    if multiset(own) == multiset(names) {
      assert |names| == |multiset(names)| == |multiset(own)| == |own|;
      if |own| == 1 {
        assert names[0] in multiset(names) && names[0] in multiset(own);
      }
    }
  }

  /** The container of a failed start is judged in need of an update exactly if
      something is noticed. */
  lemma UnstartedStale(x: Service, t: Service, imageEnv: seq<string>, id: ContainerId)
    requires OfTarget(x, t) && DistinctKeys(t.config.environment) && OwnLabelsKept(t.config.labels)
    ensures NeedsUpdate(Read(id, PrintContainer(x, imageEnv), true), t) <==> Noticed(t.config, t.appId)
  {
    hide PlainKeys, TwoParts, EnvDiffers, SettingDiffers, Sorted, OwnLabelsKept, AppIdOf, ServiceIdOf, DistinctKeys;
    hide ListsDiffer, PrintPorts, MergeEnv, ParseBinds, NameOf, PrintLabels, ReadEnv, OwnNetworks, ReadMounts;
    var c := PrintContainer(x, imageEnv);
    var read := ReadConfig(c, true);
    assert OwnLabelsKept(x.config.labels) && x.config.environment == t.config.environment;
    IdsReadBack(x, imageEnv, Created, []);
    assert c.(status := Created, networks := []) == c;
    ListsDifferIff(read.ports, t.config.ports);
    assert multiset(t.config.ports) == multiset([]) <==> t.config.ports == [] by {
      assert |multiset(t.config.ports)| == |t.config.ports|;
    }
    EnvReadBack(t.config.environment, imageEnv);
    EnvDiffersIff(read.environment, t.config.environment);
    VolumesReadBack(x.config.volumes);
    SortedVolumes(t.config.volumes);
    ListsDifferIff(read.volumes, t.config.volumes);
    OwnNetworksOf(t.appId, c.mode, []);
    assert FullNames(t.appId, []) == [] && [c.mode] + [] == [c.mode];
    FewNetworks(t.config.networks, ModeName(c.mode, t.appId));
    ListsDifferIff(read.networks, t.config.networks);
    SettingsReadBack(t.config);
  }

  // ---- The next round ----

  lemma GroupOf(p: Policy, w: World, a: nat, s: nat)
    requires AllUnique(w.apps) && AllUnique(w.target) && Lookup(w.apps, a, s).Some?
    ensures Group(a, AppAt(w.apps, a), AppAt(w.target, a), Answers(p, w), s)
            == ServiceSteps(a, Lookup(w.apps, a, s), Lookup(w.target, a, s), true)
  {
    hide AllUnique, Lookup, NeedsUpdate, TransitionSteps, ReplaceSteps;
    FoundInApp(w.apps, a, s);
    FoundInApp(w.target, a, s);
  }

  /** The record of the one container of a service, whatever its state. */
  lemma SyncedSlot(w: World, sl: SyncLuck, a: nat, s: nat, id: ContainerId, c: Container)
    requires Sane(w.docker) && OnePerService(w.docker.containers) && AtHome(w, a, s) && Clear(w.docker, sl)
    requires Slot(w.docker, s) == map[id := c]
    ensures Lookup(Resync(w, sl).apps, a, s) == Some(Read(id, c, true))
  {
    hide Sane, Sync, Read, AppIdOf, ServiceIdOf, Slot, OnePerService;
    var d := w.docker;
    SoundManaged(d);
    SlotOne(d, s, id, c);
    SyncFinds(d.containers, sl.listing, sl.inspectFails, a, s);
    assert Listed(d.containers, sl.listing, a, s, id);
  }

  /** Pausing a container that does not run fails and changes nothing. */
  lemma PauseIdle(p: Policy, v: World, a: nat, s: nat, id: ContainerId, c: Container, l: Luck)
    requires p.intervals != [] && WorldSane(v) && Slot(v.docker, s) == map[id := c] && c.status != Up
    ensures Leaves(v, Exec(p, v, PauseContainer(a, s, id), l).world, s, map[id := c])
  {
    hide Slot, Sane, Leaves, Exec, Remembered, Owned;
    OwnedSlot(v.docker, s, id, c);
    SlotOne(v.docker, s, id, c);
    StepLeaves(p, v, PauseContainer(a, s, id), l, s, map[id := c]);
  }

  /** The service's own steps, when its only container was never started. */
  lemma OwnRun(p: Policy, v: World, a: nat, r: Service, t: Service, c: Container, f: Fortune, base: nat)
    requires p.intervals != [] && WorldSane(v) && Calm(f) && c.status == Created
    requires r.containerId.Some? && r.serviceId == t.serviceId && Desired(r) == Running
    requires Slot(v.docker, t.serviceId) == map[r.containerId.value := c]
    requires Faithful(t) && t.appId == a
    ensures var d := ExecAll(p, v, ServiceSteps(a, Some(r), Some(t), true), f, base).docker;
            if Desired(t) == Running && NeedsUpdate(r, t) then exists c' :: Holds(d, t.serviceId, Some(c')) && c'.status == Up
            else Slot(d, t.serviceId) == Slot(v.docker, t.serviceId)
  {
    hide WorldSane, Slot, Exec, Benign, Faithful, Holds, NeedsUpdate, Tidy, ReplaceSteps, IsLaunched;
    var id, s := r.containerId.value, t.serviceId;
    if Desired(t) == Paused {
      PauseIdle(p, v, a, s, id, c, f(base));
      ExecOne(p, v, PauseContainer(a, s, id), f, base);
    } else if Desired(t) == Stopped {
      assert Benign(f(base));
      StopIdle(p, v, a, s, id, c, f(base));
      ExecOne(p, v, StopContainer(a, s, id), f, base);
    } else if NeedsUpdate(r, t) {
      TidyFaithful(t);
      assert Tidy(t).serviceId == s by { TidyId(t); }
      var c' := ReplaceRun(p, v, a, r, c, Tidy(t), f, base);
      StartedUp(c', v.docker, Tidy(t));
    }
  }

  lemma StartedUp(c: Container, d: DockerState, x: Service)
    requires IsLaunched(c, d, x)
    ensures c.status == Up
  {
  }

  lemma TargetUnique(target: Apps, a: nat, t: Service)
    requires AllUnique(target) && a in target && t in target[a].services
    ensures Lookup(target, a, t.serviceId) == Some(t)
  {
    var i :| 0 <= i < |target[a].services| && target[a].services[i] == t;
    FindUnique(target[a].services, i);
  }

  /** A running container of the service. */
  ghost predicate Runs(d: DockerState, s: nat) {
    exists c :: Holds(d, s, Some(c)) && c.status == Up
  }

  /** A failed start is repaired by the next calm round exactly if the service is
      wanted running and something of its configuration is noticed. Otherwise
      that round leaves the container that was never started. */
  lemma RepairedIff(p: Policy, w: World, sl: SyncLuck, f: Fortune, a: nat, t: Service, x: Service,
      imageEnv: seq<string>, id: ContainerId)
    requires p.intervals != [] && Sane(w.docker) && OnePerService(w.docker.containers) && Filed(w.target)
    requires AllUnique(w.target) && a in w.target && t in w.target[a].services && AtHome(w, a, t.serviceId)
    requires Clear(w.docker, sl) && Calm(f)
    requires Slot(w.docker, t.serviceId) == map[id := PrintContainer(x, imageEnv)]
    requires OfTarget(x, t) && DistinctKeys(t.config.environment) && OwnLabelsKept(t.config.labels)
    ensures var d := Round(p, w, sl, f).docker;
            && (Runs(d, t.serviceId) <==> Desired(t) == Running && Noticed(t.config, t.appId))
            && (!Runs(d, t.serviceId) ==> Slot(d, t.serviceId) == Slot(w.docker, t.serviceId))
  {
    hide Sane, Sync, Slot, ExecAll, Plan, Group, ServiceSteps, OnlyIn, Avoids, RecordsKept, WorldSane, Evolves, Read;
    hide Grounded, AllUnique, TidyCurrentApps, TidyTargetApps, Lookup, Calm, OnePerService, AtHome, Noticed, Holds;
    hide AppIdOf, ServiceIdOf, Clear, Apply, NextPlan, Planned, PrintContainer, NeedsUpdate, Faithful, OwnLabelsKept;
    hide Tidy;
    var r, s := Resync(w, sl), t.serviceId;
    var c := PrintContainer(x, imageEnv);
    assert r.docker == w.docker && r.target == w.target && !sl.listFails by { ClearLists(w, sl); }
    SyncGrounded(w, sl);
    SyncedUnique(w, sl);
    SyncedHome(w, sl, a, s);
    HomeTarget(w, a, s);
    SyncedSlot(w, sl, a, s, id, c);
    TargetUnique(w.target, a, t);
    GroupOf(p, r, a, s);
    var cur := Read(id, c, true);
    SlotOne(w.docker, s, id, c);
    UnstartedRead(id, x, imageEnv);
    var before, after := GroupReached(p, r, f, a, s);
    var v := ExecAll(p, Planned(r), before, f, 0);
    OwnRun(p, v, a, cur, t, c, f, |before|);
    UnstartedStale(x, t, imageEnv, id);
    var d := ExecAll(p, v, ServiceSteps(a, Some(cur), Some(t), true), f, |before|).docker;
    RunsMoves(d, Round(p, w, sl, f).docker, s);
    NotRunning(w.docker, Round(p, w, sl, f).docker, s, id, c);
  }

  lemma ClearLists(w: World, sl: SyncLuck)
    requires Clear(w.docker, sl)
    ensures Resync(w, sl).docker == w.docker && Resync(w, sl).target == w.target && !sl.listFails
  {
  }

  lemma HomeTarget(w: World, a: nat, s: nat)
    requires AtHome(w, a, s)
    ensures OnlyIn(w.target, a, s)
  {
  }

  lemma UnstartedRead(id: ContainerId, x: Service, imageEnv: seq<string>)
    ensures PrintContainer(x, imageEnv).status == Created
    ensures var r := Read(id, PrintContainer(x, imageEnv), true);
            && r.containerId == Some(id) && Desired(r) == Running
            && r.serviceId == ServiceIdOf(PrintContainer(x, imageEnv))
  {
    hide AppIdOf, ServiceIdOf, ReadConfig, PrintLabels, PrintPorts, MergeEnv, ParseBinds, NameOf;
  }

  lemma RunsMoves(d: DockerState, d': DockerState, s: nat)
    requires Slot(d', s) == Slot(d, s)
    ensures Runs(d', s) <==> Runs(d, s)
  {
    hide Slot, Holds;
    if c :| Holds(d, s, Some(c)) && c.status == Up { SlotHolds(d, d', s, Some(c)); }
    if c :| Holds(d', s, Some(c)) && c.status == Up { SlotHolds(d', d, s, Some(c)); }
  }

  lemma NotRunning(d: DockerState, d': DockerState, s: nat, id: ContainerId, c: Container)
    requires Slot(d, s) == map[id := c] && c.status != Up
    ensures Slot(d', s) == Slot(d, s) ==> !Runs(d', s)
  {
    hide Slot;
    if Slot(d', s) == Slot(d, s) {
      forall y | Holds(d', s, Some(y)) ensures y == c {
        var i: ContainerId :| Slot(d', s) == map[i := y];
        assert i in Slot(d, s);
      }
    }
  }

  // ---- A device that stays as it is ----

  function Bare(): Service {
    Service(5, "web", "nginx", 1, "app", Some(Running), Config([], [], [], [], None, None, map[]), None, None, Unmarked)
  }

  /** The start of the one service has failed after the create. */
  function Device(): DockerState {
    DockerState(map[7 := PrintContainer(Bare(), [])], {}, {}, {"nginx"}, 8, multiset{})
  }

  function Down(now: int): World {
    World(map[], map[1 := App(1, "app", [Bare()])], Device(), map[], now)
  }

  lemma BareIs()
    ensures Faithful(Bare()) && OwnLabelsKept(Bare().config.labels) && DistinctKeys(Bare().config.environment)
    ensures Bare().serviceId == 5 && Bare().appId == 1
  {
    hide Dec, ParseNat;
    ParseDec(1);
    ParseDec(5);
  }

  lemma DeviceIs()
    ensures Sane(Device()) && OnePerService(Device().containers)
    ensures Slot(Device(), 5) == map[7 := PrintContainer(Bare(), [])]
    ensures forall id | id in Device().containers :: AppIdOf(Device().containers[id]) == 1
  {
    hide Sound, AppIdOf, ServiceIdOf, PrintContainer, Bare, Faithful, NameOf;
    BareIs();
    PrintedFacts(Bare(), [], Created, []);
    NeverStarted(Bare(), []);
    assert PrintContainer(Bare(), []).(status := Created, networks := []) == PrintContainer(Bare(), []);
  }

  lemma DownFits(now: int)
    ensures Filed(Down(now).target) && AllUnique(Down(now).target) && AtHome(Down(now), 1, 5)
  {
    hide Device, AppIdOf, ServiceIdOf, Faithful, Bare;
    BareIs();
    DeviceIs();
  }

  /** A calm round finds nothing to do for it. */
  lemma BareStaysDown(p: Policy, now: int, sl: SyncLuck, f: Fortune)
    requires p.intervals != [] && Clear(Device(), sl) && Calm(f)
    ensures Slot(Round(p, Down(now), sl, f).docker, 5) == map[7 := PrintContainer(Bare(), [])]
  {
    hide Sane, OnePerService, Filed, AllUnique, AtHome, Clear, Calm, Slot, Round, PrintContainer, Device, Noticed;
    BareIs();
    DeviceIs();
    DownFits(now);
    BareUnnoticed(Bare());
    RepairedIff(p, Down(now), sl, f, 1, Bare(), Bare(), [], 7);
  }
}
