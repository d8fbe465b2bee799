/** A device on which a network has vanished while an exited container still
    lists it. Such a world is ready, the planner takes the network for an
    existing one, and what is started in the round does not find it. */
module LostNetwork {
  import opened Text
  import opened Serialised
  import opened Types
  import opened Retry
  import opened Docker
  import opened DockerSync
  import opened Planner
  import opened Executor
  import opened RoundTrip
  import opened Isolation
  import opened PlanFacts
  import opened NetworkPlanning
  import opened RoundFacts
  import opened Outcomes
  import opened Readiness
  import opened OneRound
  import opened Convergence

  // ---- Two canonical services that share a network ----

  function Sample(id: nat, host: nat): Service {
    Service(id, "web", "nginx", 1, "app", Some(Running),
            Config([EnvVar("MODE", "a=b")], [PortLine(host, 80)], ["data:/data"], ["net"], None, None, map[]),
            None, None, Unmarked)
  }

  lemma SampleCanonical(id: nat, host: nat)
    requires host > 0
    ensures Canonical(Sample(id, host)) && Faithful(Sample(id, host))
  {
    hide Dec, ParseNat, PortLine, PlainPort, ContainerPort, Split, HasPrefix;
    PlainLine(host, 80);
    assert "data:/data" == "data" + ":" + "/data";
    TwoPartIs("data", "/data");
    BridgePlain(1);
    assert ModeOf(Sample(id, host).config) == "bridge";
    ParseDec(1);
    ParseDec(id);
  }

  /** The target: a new service 5 beside a service 6 that has stopped. */
  const WANTED: Apps := map[1 := App(1, "app", [Sample(5, 8080), Sample(6, 8081)])]

  lemma WantedIn(a: nat, t: Service)
    requires a in WANTED && t in WANTED[a].services
    ensures a == 1 && (t == Sample(5, 8080) || t == Sample(6, 8081))
  {
    hide Sample;
  }

  lemma SampleIds(id: nat, host: nat)
    ensures Sample(id, host).serviceId == id && Sample(id, host).appId == 1 && Desired(Sample(id, host)) == Running
  {
  }

  lemma WantedShape()
    ensures AllUnique(WANTED) && OneApp(WANTED)
  {
    hide Sample;
    SampleIds(5, 8080);
    SampleIds(6, 8081);
    forall a, b, x, y | a in WANTED && x in WANTED[a].services && b in WANTED && y in WANTED[b].services
      ensures a == b
    {
      WantedIn(a, x);
      WantedIn(b, y);
    }
  }

  lemma WantedGoal()
    ensures Goal(WANTED)
  {
    hide Canonical, Faithful, Sample, AllUnique, OneApp, Desired;
    WantedShape();
    forall a, t | a in WANTED && t in WANTED[a].services
      ensures t.appId == a && Faithful(t) && Canonical(t) && Desired(t) != Stopped
    {
      WantedIn(a, t);
      SampleCanonical(5, 8080);
      SampleCanonical(6, 8081);
      SampleIds(5, 8080);
      SampleIds(6, 8081);
    }
  }

  // ---- The device ----

  /** What is left of service 6: exited, and once joined to the network. */
  function Leftover(): Container {
    PrintContainer(Sample(6, 8081), []).(status := Exited, networks := [Scoped(1, "net")])
  }

  function Device(): DockerState {
    DockerState(map[7 := Leftover()], {}, {}, {}, 8, multiset{})
  }

  function Vanished(now: int): World {
    World(map[], WANTED, Device(), map[], now)
  }

  lemma LeftoverIs()
    ensures AppIdOf(Leftover()) == 1 && ServiceIdOf(Leftover()) == 6 && Managed(Leftover())
    ensures Sound(Leftover()) && PlainContainer(Leftover())
    ensures Leftover().status == Exited && Scoped(1, "net") in Leftover().networks
    ensures Record(Leftover()).config.networks == ["net"]
  {
    hide Dec, ParseNat, PrintPorts, ParseBinds, MergeEnv, HasPrefix, ReadEnv, ReadPorts, ReadMounts, OwnNetworks;
    var s := Sample(6, 8081);
    assert OwnLabelsKept(s.config.labels);
    IdsReadBack(s, [], Exited, [Scoped(1, "net")]);
    ParseDec(1);
    ParseDec(6);
    NameEnds(s);
    BridgePlain(1);
    OwnNetworksOf(1, "bridge", ["net"]);
    assert FullNames(1, ["net"]) == [Scoped(1, "net")];
  }

  /** The container lists a network that is gone. */
  lemma Disconnected()
    ensures !Connected(Device())
  {
    hide Leftover;
    LeftoverIs();
    var id: ContainerId := 7;
    assert id in Device().containers && Scoped(1, "net") in Device().containers[id].networks;
    assert Scoped(1, "net") !in Device().networks;
  }

  lemma DeviceFits()
    ensures Sane(Device()) && OnePerService(Device().containers) && Attached(Device()) && PlainContainers(Device())
    ensures Agree(Device(), WANTED)
  {
    hide Sound, PlainContainer, AppIdOf, ServiceIdOf, Leftover, Sample;
    LeftoverIs();
    forall a, t | a in WANTED && t in WANTED[a].services ensures a == 1 {
      WantedIn(a, t);
    }
  }

  lemma VanishedReady(p: Policy, now: int)
    requires p.intervals != []
    ensures Ready(p, Vanished(now)) && !Connected(Vanished(now).docker)
  {
    hide Goal, Sane, OnePerService, Attached, PlainContainers, Agree, Connected, Leftover, Sample;
    DeviceFits();
    WantedGoal();
    Disconnected();
  }

  // ---- The round ----

  lemma Slots()
    ensures Holds(Device(), 5, None) && Holds(Device(), 6, Some(Leftover()))
  {
    hide AppIdOf, ServiceIdOf, Leftover;
    LeftoverIs();
    assert Slot(Device(), 5) == map[];
    assert Slot(Device(), 6) == map[7 := Leftover()];
  }

  lemma Homes(now: int)
    ensures AtHome(Vanished(now), 1, 5) && AtHome(Vanished(now), 1, 6)
  {
    hide AppIdOf, ServiceIdOf, Leftover;
    LeftoverIs();
  }

  /** The records that the round works with. */
  lemma Synced(now: int, sl: SyncLuck) returns (c: Service)
    requires Clear(Device(), sl)
    ensures Lookup(Resync(Vanished(now), sl).apps, 1, 5) == None
    ensures Lookup(Resync(Vanished(now), sl).apps, 1, 6) == Some(c) && c.config.networks == ["net"]
    ensures c.serviceId == 6 && c.containerId.Some? && Desired(c) == Stopped
    ensures Lookup(WANTED, 1, 5) == Some(Sample(5, 8080)) && Lookup(WANTED, 1, 6) == Some(Sample(6, 8081))
  {
    hide Sync, AppIdOf, ServiceIdOf, Leftover, Clear, AtHome, Holds, Slot, Sound;
    var w := Vanished(now);
    LeftoverIs();
    Slots();
    Homes(now);
    assert Sane(w.docker) && OnePerService(w.docker.containers) && PlainContainers(w.docker);
    SyncedRecord(w, sl, 1, 5, None);
    SyncedRecord(w, sl, 1, 6, Some(Leftover()));
    c := Lookup(Resync(w, sl).apps, 1, 6).value;
    RecordOf(c.containerId.value, Leftover());
  }

  lemma TheirSteps(c: Service)
    requires c.containerId.Some? && Desired(c) == Stopped && c.serviceId == 6
    ensures ServiceSteps(1, None, Some(Sample(5, 8080)), true)
            == [DownloadImage(1, "nginx"), StartContainer(1, Sample(5, 8080))]
    ensures ServiceSteps(1, Some(c), Some(Sample(6, 8081)), true)
            == [StartStoppedContainer(1, 6, c.containerId.value)]
  {
    hide NeedsUpdate;
  }

  /** The first step of service 6 in the plan, and the second one of service 5. */
  lemma Steps(p: Policy, now: int, sl: SyncLuck, f: Fortune) returns (start: nat, restart: nat, id: ContainerId)
    requires p.intervals != [] && Clear(Device(), sl)
    ensures var plan := NextPlan(p, Resync(Vanished(now), sl));
            && start < |plan| && plan[start] == StartContainer(1, Sample(5, 8080))
            && restart < |plan| && plan[restart] == StartStoppedContainer(1, 6, id)
  {
    hide Ready, Clear, Resync, NextPlan, ServiceSteps, Group, Grounded, AllUnique, OnlyIn, Slot, Apply, WorldSane,
         Evolves, Unblocked, AtHome, RecordsKept, ExecAll, Planned, Avoids, Lookup, Sample, Goal;
    var w := Vanished(now);
    var r := Resync(w, sl);
    VanishedReady(p, now);
    SyncedReady(p, w, sl);
    WantedGoal();
    GoalUnique(WANTED);
    Homes(now);
    var c := Synced(now, sl);
    assert r.target == WANTED && r.docker == Device() by { KeptBySync(w, sl); }
    OnlyHere(now, sl, 5);
    OnlyHere(now, sl, 6);
    GroupIs(p, r, 1, 5);
    GroupIs(p, r, 1, 6);
    var before, after := GroupReached(p, r, f, 1, 5);
    start := |before| + 1;
    var before', after' := GroupReached(p, r, f, 1, 6);
    restart := |before'|;
    id := c.containerId.value;
    TheirSteps(c);
  }

  lemma KeptBySync(w: World, sl: SyncLuck)
    ensures Resync(w, sl).target == w.target && Resync(w, sl).docker == w.docker
  {
  }

  lemma OnlyHere(now: int, sl: SyncLuck, s: nat)
    requires Clear(Device(), sl) && AtHome(Vanished(now), 1, s)
    ensures OnlyIn(Resync(Vanished(now), sl).apps, 1, s) && OnlyIn(WANTED, 1, s)
  {
    hide Resync, Clear, OnlyIn;
    SyncedHome(Vanished(now), sl, 1, s);
  }

  /** When the turn of step `k` comes the network is not there. */
  ghost predicate Alone(p: Policy, w: World, f: Fortune, k: nat)
    requires p.intervals != []
  {
    k < |NextPlan(p, w)| && !AllPresent(ExecAll(p, Planned(w), NextPlan(p, w)[..k], f, 0).docker, 1, ["net"])
  }

  /** The round starts service 5 and restarts service 6, and when their turns
      come the network that both name is not there. */
  lemma StartsWithoutNetwork(p: Policy, now: int, sl: SyncLuck, f: Fortune)
      returns (start: nat, restart: nat, id: ContainerId)
    requires p.intervals != [] && Clear(Device(), sl) && Calm(f)
    ensures var r := Resync(Vanished(now), sl);
            && Alone(p, r, f, start) && NextPlan(p, r)[start] == StartContainer(1, Sample(5, 8080))
            && Alone(p, r, f, restart) && NextPlan(p, r)[restart] == StartStoppedContainer(1, 6, id)
  {
    hide Ready, Clear, Resync, NextPlan, Grounded, AllUnique, OnlyIn, AtHome, ExecAll, Planned, Calm, Goal;
    hide NamesNetwork, CreationsSucceed, Scoped, Lookup;
    var w := Vanished(now);
    var r := Resync(w, sl);
    VanishedReady(p, now);
    SyncedReady(p, w, sl);
    WantedGoal();
    GoalUnique(WANTED);
    Homes(now);
    var c := Synced(now, sl);
    KeptBySync(w, sl);
    OnlyHere(now, sl, 6);
    LookupNames(r.apps, 1, 6, "net");
    start, restart, id := Steps(p, now, sl, f);
    CalmCreations(NextPlan(p, r)[..start], f);
    CalmCreations(NextPlan(p, r)[..restart], f);
    assert "net" in ["net"];
    StartHasNetworks(p, r, f, start, 1, Sample(5, 8080));
    RestartHasNetworks(p, r, f, restart, 1, 6, id);
  }

  /** So the round leaves service 5 in need of an update. */
  lemma StillStale(p: Policy, now: int, sl: SyncLuck, f: Fortune) returns (c: Container)
    requires p.intervals != [] && Clear(Device(), sl) && Calm(f)
    ensures Holds(Round(p, Vanished(now), sl, f).docker, 5, Some(c)) && NeedsUpdate(Record(c), Sample(5, 8080))
  {
    hide Ready, Clear, Resync, NeedsUpdate, AtHome, Calm, NamesNetwork, Holds, Record, Round, Supplied, Scoped;
    hide Canonical, Faithful, Lookup;
    var w := Vanished(now);
    var r := Resync(w, sl);
    VanishedReady(p, now);
    Homes(now);
    Slots();
    var was := Synced(now, sl);
    KeptBySync(w, sl);
    LookupNames(r.apps, 1, 6, "net");
    var after := RoundOutcome(p, w, sl, f, 1, 5, None);
    c := after.value;
    SampleCanonical(5, 8080);
    var imageEnv :| c == Launched(Supplied(r, 1), Sample(5, 8080), imageEnv);
    SuppliedNetwork(r, 1, "net");
    assert "net" in ["net"];
    FreshRealises(Supplied(r, 1), Sample(5, 8080), imageEnv);
  }
}
