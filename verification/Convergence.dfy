/** The convergence theorems: two rounds reach a target whose services are all
    wanted running, and for mixed targets a rank falls until nothing is planned. */
module Convergence {
  import opened Text
  import opened Serialised
  import opened Types
  import opened Retry
  import opened Docker
  import opened StateHelpers
  import opened DockerSync
  import opened Planner
  import opened Executor
  import opened RoundTrip
  import opened Isolation
  import opened PlanFacts
  import opened NetworkPlanning
  import opened RoundFacts
  import opened Outcomes
  import opened Readiness
  import opened OneRound

  // ---- The container a round leaves ----

  lemma LaunchedFacts(c: Container, d: DockerState, x: Service, a: nat)
    requires IsLaunched(c, d, x) && Faithful(x) && x.appId == a && !HasPrefix(ModeOf(x.config), Dec(a) + "_")
    ensures AppIdOf(c) == a && ServiceIdOf(c) == x.serviceId && PlainContainer(c) && c.status == Up
  {
    hide JoinNetworks, Faithful, AppIdOf, ServiceIdOf, PrintLabels, PrintPorts, MergeEnv, ParseBinds, NameOf,
         ModeOf, HasPrefix;
    var imageEnv :| c == Launched(d, x, imageEnv);
    PrintedFacts(x, imageEnv, Up, JoinNetworks(d, x, x.config.networks, {}));
  }

  lemma RecordFacts(c: Container)
    requires Sound(c) && PlainContainer(c)
    ensures var x := Record(c);
            Faithful(x) && x.appId == AppIdOf(c) && x.serviceId == ServiceIdOf(c)
                && !HasPrefix(ModeOf(x.config), Dec(AppIdOf(c)) + "_")
  {
    ReadFaithful(0, c, true);
    assert (Dec(AppIdOf(c)) + "_")[0] == Dec(AppIdOf(c))[0] != 'b';
  }

  lemma TidyMode(t: Service)
    ensures ModeOf(Tidy(t).config) == ModeOf(t.config)
  {
  }

  lemma LeftFacts(before: Option<Container>, t: Option<Service>, d: DockerState, after: Option<Container>, a: nat,
      s: nat)
    requires Becomes(before, t, d, after)
    requires before.Some? ==> Sound(before.value) && PlainContainer(before.value) && AppIdOf(before.value) == a && ServiceIdOf(before.value) == s
    requires t.Some? ==> Wanted(t.value, a, s) && Canonical(t.value)
    ensures after.Some? ==> AppIdOf(after.value) == a && PlainContainer(after.value) && Active(after.value.status)
  {
    hide IsLaunched, Faithful, NeedsUpdate, AppIdOf, ServiceIdOf, Record, Sound, Tidy, HasPrefix, ModeOf;
    if after.Some? {
      if t.Some? && IsLaunched(after.value, d, t.value) { LaunchedFacts(after.value, d, t.value, a); }
      if t.Some? && IsLaunched(after.value, d, Tidy(t.value)) {
        TidyWanted(t.value, a, s);
        TidyMode(t.value);
        LaunchedFacts(after.value, d, Tidy(t.value), a);
      }
      if before.Some? {
        RecordFacts(before.value);
        if IsLaunched(after.value, d, Record(before.value)) { LaunchedFacts(after.value, d, Record(before.value), a); }
        StatusFacts(before.value, Up);
        StatusFacts(before.value, Held);
      }
    }
  }

  lemma HoldsSomething(d: DockerState, s: nat) returns (c: Option<Container>)
    requires OnePerService(d.containers)
    ensures Holds(d, s, c)
    ensures c.Some? ==> exists id :: id in d.containers && d.containers[id] == c.value && ServiceIdOf(c.value) == s
  {
    hide ServiceIdOf;
    if id :| id in d.containers && ServiceIdOf(d.containers[id]) == s {
      c := Some(d.containers[id]);
      assert Slot(d, s) == map[id := d.containers[id]];
    } else {
      c := None;
    }
  }

  lemma HeldContainer(d: DockerState, s: nat, c: Container)
    requires Holds(d, s, Some(c))
    ensures exists id :: id in d.containers && d.containers[id] == c && ServiceIdOf(c) == s
  {
    hide ServiceIdOf, Slot;
    var id: ContainerId :| Slot(d, s) == map[id := c];
    SlotOne(d, s, id, c);
  }

  lemma HeldIs(d: DockerState, s: nat, c: Option<Container>, id: ContainerId)
    requires Holds(d, s, c) && id in d.containers && ServiceIdOf(d.containers[id]) == s
    ensures c == Some(d.containers[id])
    ensures forall i | i in d.containers && ServiceIdOf(d.containers[i]) == s :: i == id
  {
    hide ServiceIdOf, Slot;
    match c
    case None => SlotNone(d, s);
    case Some(x) =>
      var k: ContainerId :| Slot(d, s) == map[k := x];
      SlotOne(d, s, k, x);
  }

  /** What is known of a ready service's container and target. */
  lemma ReadySlot(p: Policy, w: World, a: nat, s: nat, c: Option<Container>)
    requires Ready(p, w) && AtHome(w, a, s) && Holds(w.docker, s, c)
    ensures c.Some? ==> Sound(c.value) && PlainContainer(c.value) && AppIdOf(c.value) == a && ServiceIdOf(c.value) == s
    ensures var t := Lookup(w.target, a, s); t.Some? ==> Wanted(t.value, a, s) && Canonical(t.value)
  {
    hide Canonical, Faithful, UniqueNames, Sound, AppIdOf, ServiceIdOf, Wanted, Unblocked, Agree, PlainContainer, Slot;
    if c.Some? {
      HeldContainer(w.docker, s, c.value);
    }
    if Lookup(w.target, a, s).Some? {
      WantedTarget(w.target, a, s);
    }
  }

  /** One round for service `s`, with its home found. */
  lemma RoundSlot(p: Policy, w: World, sl: SyncLuck, f: Fortune, a: nat,
      s: nat) returns (before: Option<Container>, after: Option<Container>)
    requires Ready(p, w) && Clear(w.docker, sl) && Calm(f) && AtHome(w, a, s)
    ensures Holds(w.docker, s, before) && Holds(Round(p, w, sl, f).docker, s, after)
    ensures Becomes(before, Lookup(w.target, a, s), Supplied(Resync(w, sl), a), after)
    ensures after.Some? ==> AppIdOf(after.value) == a && PlainContainer(after.value) && Active(after.value.status)
  {
    hide Becomes, Supplied, Round, Holds, Goal, Agree, Unblocked, Attached, PlainContainers, PlainContainer,
         Canonical, Wanted, AppIdOf, ServiceIdOf, Sane, AtHome;
    before := HoldsSomething(w.docker, s);
    after := RoundOutcome(p, w, sl, f, a, s, before);
    ReadySlot(p, w, a, s, before);
    LeftFacts(before, Lookup(w.target, a, s), Supplied(Resync(w, sl), a), after, a, s);
  }

  // ---- The next round can start ----

  lemma RoundWorld(p: Policy, w: World, sl: SyncLuck, f: Fortune)
    requires Ready(p, w) && Clear(w.docker, sl) && Calm(f)
    ensures var w' := Round(p, w, sl, f);
            Sane(w'.docker) && Attached(w'.docker) && Unblocked(p, w') && AppsAlike(w.target, w'.target)
  {
    hide Sane, Goal, Agree, Attached, Unblocked, PlainContainers, OnePerService, Clear, Calm, ExecAll, NextPlan,
         Sync, TidyCurrentApps, TidyTargetApps;
    hide AllOwned, Filed, Remembered, AllUnique, StepsSane, Evolves, AppsAlike, SameAppsButMarks;
    var r := Resync(w, sl);
    SyncedReady(p, w, sl);
    PlanSane(p, r);
    PlannedSane(r);
    MinimalDisturbance(p, Planned(r), NextPlan(p, r), f, 0, 0);
    assert Unblocked(p, Planned(r)) by { LaterAllowed(p, r, Planned(r)); }
    RunKeeps(p, Planned(r), NextPlan(p, r), f, 0);
    TargetPlanned(r.apps, r.target);
    MarksAlike(w.target, Planned(r).target, Round(p, w, sl, f).target);
  }

  /** A service of the later target comes from one of the earlier target's. */
  lemma ServiceMoves(target: Apps, target': Apps, a: nat, y: Service) returns (x: Service)
    requires AppsAlike(target, target') && a in target' && y in target'[a].services
    ensures a in target && x in target[a].services && Alike(x, y) && x.serviceId == y.serviceId
            && x.appId == y.appId && x.state == y.state
  {
    hide Alike;
    assert ServicesAlike(target[a].services, target'[a].services);
    var i :| 0 <= i < |target'[a].services| && target'[a].services[i] == y;
    x := target[a].services[i];
    AlikeLists(x, y);
  }

  ghost predicate ComesFrom(target: Apps, a: nat, y: Service) {
    exists x :: a in target && x in target[a].services && x.serviceId == y.serviceId
  }

  lemma GoalMoves(target: Apps, target': Apps)
    requires Goal(target) && AppsAlike(target, target')
    ensures Goal(target')
  {
    hide Canonical, Faithful, Alike, UniqueIds, AppsAlike;
    forall a, y | a in target' && y in target'[a].services
      ensures ComesFrom(target, a, y)
      ensures y.appId == a && Faithful(y) && Canonical(y) && Desired(y) != Stopped
    {
      var x := ServiceMoves(target, target', a, y);
      FaithfulAlike(x, y);
      CanonicalMoves(x, y);
    }
    assert OneApp(target') by { OneAppMoves(target, target'); }
    forall a | a in target' ensures UniqueIds(target'[a].services) {
      SameApp(target, target', a);
      UniqueAlike(target[a].services, target'[a].services);
    }
  }

  lemma SameApp(target: Apps, target': Apps, a: nat)
    requires AppsAlike(target, target') && a in target'
    ensures a in target && ServicesAlike(target[a].services, target'[a].services)
  {
    hide Alike;
  }

  lemma OneAppMoves(target: Apps, target': Apps)
    requires OneApp(target)
    requires forall a, y | a in target' && y in target'[a].services :: ComesFrom(target, a, y)
    ensures OneApp(target')
  {
  }

  lemma UniqueAlike(p: seq<Service>, q: seq<Service>)
    requires UniqueIds(p) && ServicesAlike(p, q)
    ensures UniqueIds(q)
  {
    hide Alike;
    forall i | 0 <= i < |p| ensures p[i].serviceId == q[i].serviceId {
      AlikeLists(p[i], q[i]);
    }
  }

  lemma HomeMoves(w: World, w': World, a: nat, s: nat, after: Option<Container>)
    requires AtHome(w, a, s) && AppsAlike(w.target, w'.target) && Holds(w'.docker, s, after)
    requires after.Some? ==> AppIdOf(after.value) == a
    ensures AtHome(w', a, s)
  {
    hide Alike, AppIdOf, ServiceIdOf, Holds;
    forall b, y | b in w'.target && y in w'.target[b].services && y.serviceId == s ensures b == a {
      assert ServicesAlike(w.target[b].services, w'.target[b].services);
      var i :| 0 <= i < |w'.target[b].services| && w'.target[b].services[i] == y;
      AlikeLists(w.target[b].services[i], y);
      assert w.target[b].services[i] in w.target[b].services;
    }
    forall id | id in w'.docker.containers && ServiceIdOf(w'.docker.containers[id]) == s
      ensures AppIdOf(w'.docker.containers[id]) == a
    {
      HeldIs(w'.docker, s, after, id);
    }
  }

  ghost predicate AllActive(d: DockerState) {
    forall id | id in d.containers :: Active(d.containers[id].status)
  }

  /** A round leaves a ready world without exited containers. */
  lemma RoundReady(p: Policy, w: World, sl: SyncLuck, f: Fortune)
    requires Ready(p, w) && Clear(w.docker, sl) && Calm(f)
    ensures Ready(p, Round(p, w, sl, f)) && AllActive(Round(p, w, sl, f).docker)
  {
    hide Sane, Goal, Agree, Attached, Unblocked, OnePerService, Clear, Calm, Round, Supplied, Becomes, AppsAlike,
         AppIdOf, ServiceIdOf, Holds;
    hide PlainContainer, AtHome;
    var w' := Round(p, w, sl, f);
    RoundWorld(p, w, sl, f);
    GoalMoves(w.target, w'.target);
    forall id | id in w'.docker.containers
      ensures PlainContainer(w'.docker.containers[id]) && Active(w'.docker.containers[id].status)
      ensures exists a :: AtHome(w', a, ServiceIdOf(w'.docker.containers[id]))
      ensures forall i | i in w'.docker.containers
              && ServiceIdOf(w'.docker.containers[i]) == ServiceIdOf(w'.docker.containers[id]) :: i == id
    {
      var s := ServiceIdOf(w'.docker.containers[id]);
      var a := HomeExists(p, w, s);
      var before, after := RoundSlot(p, w, sl, f, a, s);
      HeldIs(w'.docker, s, after, id);
      HomeMoves(w, w', a, s, after);
    }
    assert OnePerService(w'.docker.containers) by { OneEach(w'.docker.containers); }
    assert Agree(w'.docker, w'.target) by { HomesAgree(w'); }
  }

  lemma OneEach(containers: map<ContainerId, Container>)
    requires forall id | id in containers :: forall i | i in containers
             && ServiceIdOf(containers[i]) == ServiceIdOf(containers[id]) :: i == id
    ensures OnePerService(containers)
  {
    hide ServiceIdOf;
  }

  lemma HomesAgree(w: World)
    requires forall id | id in w.docker.containers :: exists a :: AtHome(w, a, ServiceIdOf(w.docker.containers[id]))
    ensures Agree(w.docker, w.target)
  {
    hide AppIdOf, ServiceIdOf;
    forall id, b, t | id in w.docker.containers && b in w.target && t in w.target[b].services
        && ServiceIdOf(w.docker.containers[id]) == t.serviceId
      ensures AppIdOf(w.docker.containers[id]) == b
    {
      var a :| AtHome(w, a, ServiceIdOf(w.docker.containers[id]));
    }
  }

  // ---- When a container realises its target ----

  /** The container runs the target's image with the target's configuration. */
  ghost predicate Realises(c: Container, t: Service) {
    var r := Record(c).config;
    && c.image == t.imageName
    && multiset(r.ports) == multiset(t.config.ports)
    && multiset(r.volumes) == multiset(t.config.volumes)
    && multiset(r.networks) == multiset(t.config.networks)
    && Contained(t.config.environment, r.environment)
    && !SettingDiffers(r.restart, t.config.restart, "no")
    && !SettingDiffers(r.networkMode, t.config.networkMode, "bridge")
  }

  lemma RealisesIff(c: Container, t: Service)
    requires DistinctKeys(t.config.environment) && Active(c.status)
    ensures Realises(c, t) <==> !NeedsUpdate(Record(c), t)
  {
    hide ReadConfig, ListsDiffer, EnvDiffers, SettingDiffers;
    var r := Record(c).config;
    ListsDifferIff(r.ports, t.config.ports);
    ListsDifferIff(r.volumes, t.config.volumes);
    ListsDifferIff(r.networks, t.config.networks);
    EnvDiffersIff(r.environment, t.config.environment);
  }

  lemma {:induction false} OwnNetworksMember(a: nat, names: seq<string>, n: string)
    requires n in OwnNetworks(a, names)
    ensures Scoped(a, n) in names
  {
    var k := |names| - 1;
    var full, prefix := names[k], Dec(a) + "_";
    if n in OwnNetworks(a, names[..k]) {
      OwnNetworksMember(a, names[..k], n);
    } else {
      assert full == full[..|prefix|] + full[|prefix|..];
    }
  }

  /** A network that is read of a plain container is one that it joined. */
  lemma ReadNetwork(c: Container, n: string)
    requires PlainContainer(c) && n in Record(c).config.networks
    ensures Scoped(AppIdOf(c), n) in c.networks
  {
    hide ReadEnv, ReadPorts, AppIdOf, Dec;
    var a := AppIdOf(c);
    OwnNetworksMember(a, ListedNetworks(c), n);
    assert HasPrefix(Scoped(a, n), Dec(a) + "_");
  }

  /** A fresh start realises a canonical target exactly when all the target's
      networks are there. */
  lemma FreshRealises(d: DockerState, t: Service, imageEnv: seq<string>)
    requires Canonical(t) && Faithful(t)
    ensures !NeedsUpdate(Record(Launched(d, t, imageEnv)), t) <==> AllPresent(d, t.appId, t.config.networks)
  {
    hide NameOf, PrintPorts, MergeEnv, PrintLabels, ParseBinds, PlainPorts, DistinctContainerPorts, PlainKeys,
         TwoParts, HasPrefix, ModeOf;
    hide ReadEnv, ReadPorts, ReadMounts, SettingDiffers, EnvDiffers, ListsDiffer, Faithful, Scoped, AppIdOf,
         ServiceIdOf, OwnNetworks, PrintEnv;
    var c := Launched(d, t, imageEnv);
    if AllPresent(d, t.appId, t.config.networks) {
      CanonicalReadable(t);
      CreateReadBack(d, t, imageEnv, 0, Up);
    } else {
      var n :| n in t.config.networks && Scoped(t.appId, n) !in d.networks;
      assert IsLaunched(c, d, t);
      LaunchedFacts(c, d, t, t.appId);
      JoinedExist(d, t, t.config.networks, {});
      if n in Record(c).config.networks {
        ReadNetwork(c, n);
        assert false;
      }
      ListsDifferIff(Record(c).config.networks, t.config.networks);
      assert n in multiset(t.config.networks) && n !in multiset(Record(c).config.networks);
    }
  }

  /** A fresh start settles a service wanted running exactly when its networks
      are there; otherwise the service stays one round away. */
  lemma FreshRank(d: DockerState, t: Service, imageEnv: seq<string>)
    requires Canonical(t) && Faithful(t) && Desired(t) == Running
    ensures Distance(d, t.appId, None, Some(t)) == if AllPresent(d, t.appId, t.config.networks) then 1 else 2
    ensures Rank(Some(Launched(d, t, imageEnv)), Some(t)) == if AllPresent(d, t.appId, t.config.networks) then 0 else 1
  {
    hide NeedsUpdate, Record, JoinNetworks, Canonical, Faithful, AllPresent;
    FreshRealises(d, t, imageEnv);
  }

  /** Every network that a container has joined exists. */
  ghost predicate Connected(d: DockerState) {
    forall id, n | id in d.containers && n in d.containers[id].networks :: n in d.networks
  }

  lemma ActiveConnected(d: DockerState)
    requires Attached(d) && AllActive(d)
    ensures Connected(d)
  {
  }

  lemma ListedPresent(p: Policy, w: World, sl: SyncLuck, a: nat, n: string)
    requires Ready(p, w) && Clear(w.docker, sl) && Connected(w.docker)
    requires NamesNetwork(AppAt(Resync(w, sl).apps, a), n)
    ensures Scoped(a, n) in w.docker.networks
  {
    hide Sane, Sync, Read, Goal, Agree, Unblocked, Attached, OnePerService, AppIdOf, PlainContainer;
    var x :| x in ServicesOf(AppAt(Resync(w, sl).apps, a)) && n in x.config.networks;
    SyncMembers(w.docker.containers, sl.listing, sl.inspectFails, a, x);
    var id :| id in w.docker.containers && x == Read(id, w.docker.containers[id], id !in sl.inspectFails)
        && x.appId == a;
    ReadParts(id, w.docker.containers[id]);
    ReadNetwork(w.docker.containers[id], n);
  }

  lemma ReadParts(id: ContainerId, c: Container)
    ensures Read(id, c, true).config == Record(c).config && Read(id, c, true).appId == AppIdOf(c)
  {
  }

  /** With every joined network in place, a start finds all of its networks. */
  lemma AllSupplied(p: Policy, w: World, sl: SyncLuck, a: nat, t: Service)
    requires Ready(p, w) && Clear(w.docker, sl) && Connected(w.docker) && a in w.target && t in w.target[a].services
    ensures AllPresent(Supplied(Resync(w, sl), a), a, t.config.networks)
  {
    hide Ready, Clear, Connected, Sync, Scoped, Supplied;
    var r := Resync(w, sl);
    forall n | n in t.config.networks ensures Scoped(a, n) in Supplied(r, a).networks {
      SuppliedNetwork(r, a, n);
      assert NamesNetwork(AppAt(w.target, a), n);
      if NamesNetwork(AppAt(r.apps, a), n) {
        ListedPresent(p, w, sl, a, n);
      }
    }
  }

  lemma LaunchRealises(c: Container, d: DockerState, t: Service, a: nat, s: nat)
    requires Canonical(t) && Wanted(t, a, s) && AllPresent(d, a, t.config.networks)
    requires IsLaunched(c, d, t) || IsLaunched(c, d, Tidy(t))
    ensures !NeedsUpdate(Record(c), t)
  {
    hide Canonical, Launched, Record, Tidy, Faithful, Scoped, NeedsUpdate;
    if IsLaunched(c, d, t) {
      var imageEnv :| c == Launched(d, t, imageEnv);
      FreshRealises(d, t, imageEnv);
    } else {
      var imageEnv :| c == Launched(d, Tidy(t), imageEnv);
      AlikeTidy(t);
      CanonicalMoves(t, Tidy(t));
      TidyWanted(t, a, s);
      AlikeLists(t, Tidy(t));
      SameElements(t.config.networks, Tidy(t).config.networks);
      FreshRealises(d, Tidy(t), imageEnv);
      UpdateAlike(Record(c), t, Tidy(t));
    }
  }

  // ---- The rank of a service ----

  /** How many rounds a service is from its target at most. */
  function Rank(c: Option<Container>, t: Option<Service>): (k: nat)
    ensures k <= 4
  {
    match (c, t)
    case (None, None) => 0
    case (Some(_), None) => 1
    case (None, Some(x)) => if Desired(x) == Running then 1 else 0
    case (Some(y), Some(x)) =>
      var stale := NeedsUpdate(Record(y), x);
      if Desired(x) == Running then
        if y.status == Exited then 2
        else (if y.status == Up then 0 else 1) + (if stale then 1 else 0)
      else
        if y.status == Exited then 4
        else (if y.status == Up then 1 else 0) + (if stale then 2 else 0)
  }

  lemma StaleStatus(c: Container, status: Status, t: Service)
    requires Active(c.status) && Active(status) && c.status != Dead && status != Dead
    ensures NeedsUpdate(Record(c.(status := status)), t) == NeedsUpdate(Record(c), t)
  {
    hide ReadEnv, ReadMounts, OwnNetworks, ConfigDiffers, PortLines;
  }

  lemma RankAlike(c: Option<Container>, t: Option<Service>, t': Option<Service>)
    requires BothAlike(t, t')
    ensures Rank(c, t) == Rank(c, t')
  {
    hide Alike, NeedsUpdate, Record;
    if t.Some? {
      AlikeLists(t.value, t'.value);
      if c.Some? {
        UpdateAlike(Record(c.value), t.value, t'.value);
      }
    }
  }

  /** The coming round starts the service from its target record. */
  predicate FromTarget(c: Option<Container>, t: Service) {
    match c
    case None => Desired(t) == Running
    case Some(y) => y.status == (if Desired(t) == Running then Up else Held) && NeedsUpdate(Record(y), t)
  }

  /** The rank that takes the networks into account: a service that is about to
      be started from its target record without all of its networks needs one
      round more if it is wanted running, and two if it is wanted paused. */
  ghost function Distance(d: DockerState, a: nat, c: Option<Container>, t: Option<Service>): (k: nat)
    ensures k <= 4 && (k == 0 <==> Rank(c, t) == 0)
  {
    if t.Some? && FromTarget(c, t.value) && !AllPresent(d, a, t.value.config.networks) then
      if Desired(t.value) == Running then 2 else 4
    else Rank(c, t)
  }

  /** The outcome of a round has a rank below the distance before it; at
      distance zero it is the same container. */
  lemma OutcomeRank(before: Option<Container>, t: Option<Service>, d: DockerState, after: Option<Container>,
                    a: nat, s: nat)
    requires Becomes(before, t, d, after) && (before.Some? ==> Plainly(before.value))
    requires after.Some? ==> Active(after.value.status)
    requires t.Some? ==> Canonical(t.value) && Wanted(t.value, a, s)
    ensures if Distance(d, a, before, t) == 0 then after == before else Rank(after, t) < Distance(d, a, before, t)
  {
    hide Canonical, NeedsUpdate, Record, Faithful, Scoped, IsLaunched, AllPresent;
    if after.Some? && t.Some? {
      var c, x := after.value, t.value;
      if AllPresent(d, a, x.config.networks) && (IsLaunched(c, d, x) || IsLaunched(c, d, Tidy(x))) {
        LaunchRealises(c, d, x, a, s);
      }
      if before.Some? && Active(before.value.status) {
        StaleStatus(before.value, Held, x);
        StaleStatus(before.value, Up, x);
      }
      LaunchedUp(c, d);
    }
  }

  lemma LaunchedUp(c: Container, d: DockerState)
    ensures forall x: Service | IsLaunched(c, d, x) :: c.status == Up
  {
    forall x: Service | IsLaunched(c, d, x) ensures c.status == Up {
      var imageEnv :| c == Launched(d, x, imageEnv);
    }
  }

  lemma RankStep(p: Policy, w: World, sl: SyncLuck, f: Fortune, a: nat, s: nat)
      returns (before: Option<Container>, after: Option<Container>)
    requires Ready(p, w) && Clear(w.docker, sl) && Calm(f) && AtHome(w, a, s)
    ensures var w' := Round(p, w, sl, f);
            var t, t' := Lookup(w.target, a, s), Lookup(w'.target, a, s);
            var k := Distance(Supplied(Resync(w, sl), a), a, before, t);
            && Holds(w.docker, s, before) && Holds(w'.docker, s, after)
            && (if k == 0 then Rank(after, t') == 0 && after == before else Rank(after, t') < k)
            && AtHome(w', a, s) && BothAlike(t, t')
            && (before.Some? && t.Some? ==> after.Some?)
  {
    hide Clear, Round, Becomes, Supplied, Rank, Distance, Holds, AppsAlike, Alike, Canonical, Wanted, AppIdOf, Sane;
    hide Attached, Goal, Agree, Unblocked, PlainContainers, OnePerService, AtHome;
    before, after := RoundSlot(p, w, sl, f, a, s);
    var w' := Round(p, w, sl, f);
    var t := Lookup(w.target, a, s);
    ReadySlot(p, w, a, s, before);
    OutcomeRank(before, t, Supplied(Resync(w, sl), a), after, a, s);
    RoundWorld(p, w, sl, f);
    HomeMoves(w, w', a, s, after);
    LookupAlike(w.target, w'.target, a, s);
    RankAlike(after, t, Lookup(w'.target, a, s));
    StaysFound(before, t, Supplied(Resync(w, sl), a), after);
  }

  /** Where every joined network exists the distance is the rank. */
  lemma ConnectedDistance(p: Policy, w: World, sl: SyncLuck, a: nat, s: nat, c: Option<Container>)
    requires Ready(p, w) && Clear(w.docker, sl) && Connected(w.docker)
    ensures var t := Lookup(w.target, a, s); Distance(Supplied(Resync(w, sl), a), a, c, t) == Rank(c, t)
  {
    hide Ready, Clear, Connected, Supplied, Rank, FromTarget, AllPresent;
    var t := Lookup(w.target, a, s);
    if t.Some? {
      AllSupplied(p, w, sl, a, t.value);
    }
  }

  /** Termination. In every ready world a round strictly lowers the distance of
      every service that is not settled, and leaves the container of every
      service that is. The distance is at most four. */
  lemma RankFalls(p: Policy, w: World, sl: SyncLuck, f: Fortune, next: SyncLuck, a: nat, s: nat)
      returns (before: Option<Container>, after: Option<Container>)
    requires Ready(p, w) && Clear(w.docker, sl) && Calm(f) && AtHome(w, a, s)
    requires Clear(Round(p, w, sl, f).docker, next)
    ensures var w' := Round(p, w, sl, f);
            var k := Distance(Supplied(Resync(w, sl), a), a, before, Lookup(w.target, a, s));
            var k' := Distance(Supplied(Resync(w', next), a), a, after, Lookup(w'.target, a, s));
            && Holds(w.docker, s, before) && Holds(w'.docker, s, after) && AtHome(w', a, s)
            && k <= 4 && (if k == 0 then k' == 0 && after == before else k' < k)
  {
    hide Ready, Clear, Calm, Connected, Round, Supplied, Rank, Holds, AtHome, Lookup, BothAlike, FromTarget;
    ReadyAttached(p, w);
    before, after := RankStep(p, w, sl, f, a, s);
    RoundReady(p, w, sl, f);
    var w' := Round(p, w, sl, f);
    ReadyAttached(p, w');
    ActiveConnected(w'.docker);
    ConnectedDistance(p, w', next, a, s, after);
  }

  lemma StaysFound(before: Option<Container>, t: Option<Service>, d: DockerState, after: Option<Container>)
    requires Becomes(before, t, d, after)
    ensures before.Some? && t.Some? ==> after.Some?
  {
    hide NeedsUpdate, Record, IsLaunched;
  }

  // ---- When nothing is planned ----

  /** Services skipped because they are absent name no networks or volumes. */
  ghost predicate Modest(w: World) {
    forall a, t | a in w.target && t in w.target[a].services && Desired(t) != Running
        && Holds(w.docker, t.serviceId, None) ::
      t.config.networks == [] && forall v | v in t.config.volumes :: HasPrefix(v, "/")
  }

  /** Every service's rank is zero. */
  ghost predicate Settled(w: World) {
    forall a, s, c | AtHome(w, a, s) && Holds(w.docker, s, c) :: Rank(c, Lookup(w.target, a, s)) == 0
  }

  lemma RankZero(a: nat, s: nat, cur: Option<Service>, t: Option<Service>, d: DockerState, c: Option<Container>)
    requires Reads(cur, d, a, s, c) && (t.Some? ==> Desired(t.value) != Stopped)
    ensures ServiceSteps(a, cur, t, true) == [] <==> Rank(c, t) == 0
  {
    hide NeedsUpdate, Read, Record, Slot, AppIdOf, Tidy;
    if c.Some? && cur.Some? {
      RecordOf(cur.value.containerId.value, c.value);
      if t.Some? {
        IdUpdate(cur.value, Record(c.value), t.value);
      }
    }
  }

  lemma TargetHome(w: World, a: nat, t: Service)
    requires OneApp(w.target) && Agree(w.docker, w.target) && a in w.target && t in w.target[a].services
    ensures AtHome(w, a, t.serviceId)
  {
    hide AppIdOf, ServiceIdOf;
  }

  lemma ContainerHome(w: World, id: ContainerId)
    requires OnePerService(w.docker.containers) && Agree(w.docker, w.target) && id in w.docker.containers
    ensures AtHome(w, AppIdOf(w.docker.containers[id]), ServiceIdOf(w.docker.containers[id]))
  {
    hide AppIdOf, ServiceIdOf;
  }

  /** A service found by the sync or in the target is at home where it is found. */
  lemma FoundHome(p: Policy, w: World, sl: SyncLuck, a: nat, s: nat)
    requires Ready(p, w) && Clear(w.docker, sl)
    requires Lookup(Resync(w, sl).apps, a, s).Some? || Lookup(w.target, a, s).Some?
    ensures AtHome(w, a, s)
  {
    hide Sane, Sync, AppIdOf, ServiceIdOf, PlainContainers, Unblocked, Attached, AtHome, Agree, OneApp,
         OnePerService, Filed, AllUnique, Canonical;
    if Lookup(w.target, a, s).Some? {
      TargetHome(w, a, Lookup(w.target, a, s).value);
    } else {
      var x := Lookup(Resync(w, sl).apps, a, s).value;
      SyncMembers(w.docker.containers, sl.listing, sl.inspectFails, a, x);
      var id :| id in w.docker.containers && x == Read(id, w.docker.containers[id], id !in sl.inspectFails)
          && x.appId == a;
      ReadParts(id, w.docker.containers[id]);
      RecordOf(id, w.docker.containers[id]);
      ContainerHome(w, id);
    }
  }

  /** What planning sees of a service at home. */
  lemma SeenService(p: Policy, w: World, sl: SyncLuck, a: nat, s: nat) returns (c: Option<Container>)
    requires Ready(p, w) && Clear(w.docker, sl) && AtHome(w, a, s)
    ensures Holds(w.docker, s, c) && Reads(Lookup(Resync(w, sl).apps, a, s), w.docker, a, s, c)
    ensures var r := Resync(w, sl);
            Group(a, AppAt(r.apps, a), AppAt(r.target, a), Answers(p, r), s)
            == ServiceSteps(a, Lookup(r.apps, a, s), Lookup(r.target, a, s), true)
    ensures Group(a, AppAt(Resync(w, sl).apps, a), AppAt(w.target, a), Answers(p, Resync(w, sl)), s) == []
            <==> Rank(c, Lookup(w.target, a, s)) == 0
  {
    hide Sane, Sync, Read, Goal, Agree, Attached, Allowed, OnePerService, PlainContainers, AtHome, Clear, Group,
         ServiceSteps, Lookup, Rank, Reads, Holds;
    hide Wanted, Canonical, AllUnique;
    c := HoldsSomething(w.docker, s);
    SyncedRecord(w, sl, a, s, c);
    SyncedReady(p, w, sl);
    GoalUnique(w.target);
    var r := Resync(w, sl);
    GroupIs(p, r, a, s);
    var t := Lookup(w.target, a, s);
    assert t.Some? ==> Desired(t.value) != Stopped by {
      if t.Some? { WantedTarget(w.target, a, s); assert Wanted(t.value, a, s); WantedState(t.value, a, s); }
    }
    RankZero(a, s, Lookup(r.apps, a, s), t, w.docker, c);
  }

  lemma WantedState(t: Service, a: nat, s: nat)
    requires Wanted(t, a, s)
    ensures Desired(t) != Stopped
  {
  }

  lemma {:induction false} UpdateNothing(a: nat, cur: seq<Service>, tgt: seq<Service>, ids: seq<nat>,
      mayPull: Retryable)
    requires forall s :: ServiceSteps(a, FindLast(cur, s), FindLast(tgt, s), MayPull(FindLast(tgt, s), mayPull)) == []
    ensures UpdateSteps(a, cur, tgt, ids, mayPull) == []
  {
    hide ServiceSteps, MayPull;
    if ids != [] {
      UpdateNothing(a, cur, tgt, ids[..|ids| - 1], mayPull);
    }
  }

  lemma {:induction false} RemoveNothing(a: nat, services: seq<Service>)
    requires forall c | c in services :: ServiceSteps(a, Some(c), None, true) == []
    ensures RemoveSteps(a, services) == []
  {
    hide ServiceSteps;
    if services != [] {
      RemoveNothing(a, services[..|services| - 1]);
    }
  }

  lemma {:induction false} AddNothing(a: nat, services: seq<Service>)
    requires forall t | t in services :: ServiceSteps(a, None, Some(t), true) == []
    ensures AddSteps(a, services) == []
  {
    hide ServiceSteps;
    if services != [] {
      AddNothing(a, services[..|services| - 1]);
    }
  }

  lemma MemberFound(services: seq<Service>, x: Service)
    requires UniqueIds(services) && x in services
    ensures FindLast(services, x.serviceId) == Some(x) && FindFirst(services, x.serviceId) == Some(x)
  {
    var k :| 0 <= k < |services| && services[k] == x;
    FindUnique(services, k);
  }

  /** Without steps for any service an app has no container steps. */
  lemma ContainersNothing(a: nat, cur: Option<App>, tgt: Option<App>, mayPull: Retryable)
    requires UniqueIds(ServicesOf(cur)) && UniqueIds(ServicesOf(tgt))
    requires forall s :: Group(a, cur, tgt, mayPull, s) == []
    ensures ContainerSteps(a, cur, tgt, mayPull) == []
  {
    hide ServiceSteps, UniqueIds, AllIds, MayPull;
    match (cur, tgt)
    case (Some(c), None) =>
      forall x | x in c.services ensures ServiceSteps(a, Some(x), None, true) == [] {
        MemberFound(c.services, x);
        assert Group(a, cur, tgt, mayPull, x.serviceId) == [];
        AskedNone(cur, mayPull);
      }
      RemoveNothing(a, c.services);
    case (None, Some(t)) =>
      forall x | x in t.services ensures ServiceSteps(a, None, Some(x), true) == [] {
        MemberFound(t.services, x);
        assert Group(a, cur, tgt, mayPull, x.serviceId) == [];
      }
      AddNothing(a, t.services);
    case (Some(c), Some(t)) =>
      forall s ensures ServiceSteps(a, FindLast(c.services, s), FindLast(t.services, s),
          MayPull(FindLast(t.services, s), mayPull)) == [] {
        assert Group(a, cur, tgt, mayPull, s) == [];
      }
      UpdateNothing(a, c.services, t.services, AllIds(c.services, t.services), mayPull);
    case (None, None) =>
  }

  lemma AskedNone(cur: Option<App>, mayPull: Retryable)
    ensures Asked(cur, None, mayPull)
  {
  }

  /** A settled service lists what its target lists. */
  lemma SettledLists(p: Policy, w: World, sl: SyncLuck, a: nat, s: nat)
    requires Ready(p, w) && Clear(w.docker, sl) && Settled(w) && AtHome(w, a, s)
    ensures var x, t := Lookup(Resync(w, sl).apps, a, s), Lookup(w.target, a, s);
            && (x.Some? ==> t.Some? && multiset(x.value.config.networks) == multiset(t.value.config.networks)
                            && multiset(x.value.config.volumes) == multiset(t.value.config.volumes))
            && (x.None? && t.Some? ==> Desired(t.value) != Running && Holds(w.docker, s, None))
  {
    hide Ready, Clear, AtHome, Sync, Read, Canonical, Wanted, NeedsUpdate, Record, Holds, Slot, AppIdOf, Group;
    var x, t := Lookup(Resync(w, sl).apps, a, s), Lookup(w.target, a, s);
    var c := SeenService(p, w, sl, a, s);
    assert Rank(c, t) == 0;
    ReadySlot(p, w, a, s, c);
    if x.Some? && t.Some? {
      assert c.Some? && Active(c.value.status) && !NeedsUpdate(Record(c.value), t.value);
      CanonicalEnv(t.value);
      RealisesIff(c.value, t.value);
      ReadParts(x.value.containerId.value, c.value);
    }
  }

  lemma CanonicalEnv(t: Service)
    requires Canonical(t)
    ensures DistinctKeys(t.config.environment)
  {
  }

  /** All that a record lists is listed by a service of the app. */
  ghost predicate Covers(app: Option<App>, x: Service) {
    exists y :: y in ServicesOf(app) && (forall m | m in x.config.networks :: m in y.config.networks)
                && (forall v | v in x.config.volumes :: v in y.config.volumes)
  }

  lemma TargetCovers(p: Policy, w: World, sl: SyncLuck, a: nat, x: Service)
    requires Ready(p, w) && Clear(w.docker, sl) && Settled(w) && x in ServicesOf(AppAt(Resync(w, sl).apps, a))
    ensures Covers(AppAt(w.target, a), x)
  {
    hide Ready, Clear, AtHome, Sync, Settled, UniqueIds;
    ReadyAttached(p, w);
    assert AllUnique(Resync(w, sl).apps) by { SyncedReady(p, w, sl); }
    MemberFound(Resync(w, sl).apps[a].services, x);
    FoundHome(p, w, sl, a, x.serviceId);
    SettledLists(p, w, sl, a, x.serviceId);
    var t := Lookup(w.target, a, x.serviceId).value;
    LookupMember(w.target, a, x.serviceId);
    SameElements(x.config.networks, t.config.networks);
    SameElements(x.config.volumes, t.config.volumes);
    assert t in ServicesOf(AppAt(w.target, a));
  }

  lemma CurrentCovers(p: Policy, w: World, sl: SyncLuck, a: nat, t: Service)
    requires Ready(p, w) && Clear(w.docker, sl) && Settled(w) && Modest(w) && t in ServicesOf(AppAt(w.target, a))
    ensures Covers(AppAt(Resync(w, sl).apps, a), t) || (t.config.networks == []
            && forall v | v in t.config.volumes :: HasPrefix(v, "/"))
  {
    hide Ready, Clear, AtHome, Sync, Settled, UniqueIds, HasPrefix, Holds;
    assert AllUnique(w.target) by { ReadyUnique(p, w); }
    MemberFound(w.target[a].services, t);
    FoundHome(p, w, sl, a, t.serviceId);
    SettledLists(p, w, sl, a, t.serviceId);
    var apps := Resync(w, sl).apps;
    if Lookup(apps, a, t.serviceId).Some? {
      var x := Lookup(apps, a, t.serviceId).value;
      LookupMember(apps, a, t.serviceId);
      SameElements(x.config.networks, t.config.networks);
      SameElements(x.config.volumes, t.config.volumes);
      assert x in ServicesOf(AppAt(apps, a));
    }
  }

  lemma SettledNames(p: Policy, w: World, sl: SyncLuck, a: nat, n: string)
    requires Ready(p, w) && Clear(w.docker, sl) && Settled(w) && Modest(w)
    ensures NamesNetwork(AppAt(Resync(w, sl).apps, a), n) <==> NamesNetwork(AppAt(w.target, a), n)
    ensures NamesVolume(AppAt(Resync(w, sl).apps, a), n) <==> NamesVolume(AppAt(w.target, a), n)
  {
    hide Ready, Clear, Sync, Settled, Modest, HasPrefix, Split;
    forall x | x in ServicesOf(AppAt(Resync(w, sl).apps, a)) ensures Covers(AppAt(w.target, a), x) {
      TargetCovers(p, w, sl, a, x);
    }
    forall t | t in ServicesOf(AppAt(w.target, a))
      ensures Covers(AppAt(Resync(w, sl).apps, a), t) || (t.config.networks == []
              && forall v | v in t.config.volumes :: HasPrefix(v, "/"))
    {
      CurrentCovers(p, w, sl, a, t);
    }
  }

  lemma NoSteps(p: Policy, r: World)
    requires AllUnique(r.apps) && AllUnique(r.target)
    requires forall a, s :: Group(a, AppAt(r.apps, a), AppAt(r.target, a), Answers(p, r), s) == []
    requires forall a, n :: NamesNetwork(AppAt(r.apps, a), n) <==> NamesNetwork(AppAt(r.target, a), n)
    requires forall a, n :: NamesVolume(AppAt(r.apps, a), n) <==> NamesVolume(AppAt(r.target, a), n)
    ensures NextPlan(p, r) == []
  {
    hide Plan, Group, NamesNetwork, NamesVolume, UniqueIds, AppSteps;
    var steps := NextPlan(p, r);
    if steps != [] {
      var x := steps[0];
      var a := x.appId;
      var cur, tgt := AppAt(r.apps, a), AppAt(r.target, a);
      assert UniqueIds([]) by { UniqueEmpty(); }
      ContainersNothing(a, cur, tgt, Answers(p, r));
      match x
      case CreateNetwork(_, n) => PlanExact(r.apps, r.target, Answers(p, r), a, n);
      case RemoveNetwork(_, n) => PlanExact(r.apps, r.target, Answers(p, r), a, n);
      case CreateVolume(_, n) => PlanExact(r.apps, r.target, Answers(p, r), a, n);
      case RemoveVolume(_, n) => PlanExact(r.apps, r.target, Answers(p, r), a, n);
      case _ => ContainerOrFrame(p, r, x);
    }
  }

  lemma ContainerOrFrame(p: Policy, r: World, x: Step)
    requires x in NextPlan(p, r) && Phase(x) == 2
    ensures x in ContainerSteps(x.appId, AppAt(r.apps, x.appId), AppAt(r.target, x.appId), Answers(p, r))
  {
    hide ContainerSteps, StepsFor, AppIds, TidyCurrent, TidyTarget, NewNetworks, NewVolumes, OldNetworks, OldVolumes;
    hide NetworkCreations, NetworkRemovals, VolumeCreations, VolumeRemovals;
    var a := x.appId;
    var cur, tgt := AppAt(r.apps, a), AppAt(r.target, a);
    StepsForMember(AppIds(r.apps, r.target), r.apps, r.target, Answers(p, r), x);
    FrameKinds(a, NewVolumes(cur, tgt));
    FrameKinds(a, NewNetworks(cur, tgt));
    FrameKinds(a, OldNetworks(TidyCurrent(cur, tgt), TidyTarget(cur, tgt)));
    FrameKinds(a, OldVolumes(TidyCurrent(cur, tgt), TidyTarget(cur, tgt)));
  }

  /** Nothing is planned exactly when every service's rank is zero. */
  lemma NothingPlanned(p: Policy, w: World, sl: SyncLuck)
    requires Ready(p, w) && Clear(w.docker, sl) && Modest(w)
    ensures NextPlan(p, Resync(w, sl)) == [] <==> Settled(w)
  {
    hide Ready, Clear, AtHome, Modest, Sync, Holds, Group, NextPlan, NamesNetwork, NamesVolume, Rank, Reads,
         Lookup, AllUnique, ServiceSteps;
    var r := Resync(w, sl);
    assert AllUnique(r.apps) && AllUnique(r.target) by { SyncedReady(p, w, sl); ReadyUnique(p, w); }
    if Settled(w) {
      forall a, s ensures Group(a, AppAt(r.apps, a), AppAt(r.target, a), Answers(p, r), s) == [] {
        FoundInApp(r.apps, a, s);
        FoundInApp(r.target, a, s);
        if Lookup(r.apps, a, s).Some? || Lookup(w.target, a, s).Some? {
          FoundHome(p, w, sl, a, s);
          var c := SeenService(p, w, sl, a, s);
        } else {
          UnlistedGroup(a, AppAt(r.apps, a), AppAt(r.target, a), Answers(p, r), s);
        }
      }
      forall a, n
        ensures NamesNetwork(AppAt(r.apps, a), n) <==> NamesNetwork(AppAt(r.target, a), n)
        ensures NamesVolume(AppAt(r.apps, a), n) <==> NamesVolume(AppAt(r.target, a), n)
      {
        SettledNames(p, w, sl, a, n);
      }
      NoSteps(p, r);
    }
    if NextPlan(p, r) == [] {
      forall a, s, c | AtHome(w, a, s) && Holds(w.docker, s, c) ensures Rank(c, Lookup(w.target, a, s)) == 0 {
        EmptyGroups(p, w, sl, a, s);
        var c' := SeenService(p, w, sl, a, s);
        HoldsSame(w.docker, s, c, c');
      }
    }
  }

  lemma ReadyUnique(p: Policy, w: World)
    requires Ready(p, w)
    ensures AllUnique(w.target)
  {
  }

  lemma HoldsSame(d: DockerState, s: nat, c: Option<Container>, c': Option<Container>)
    requires Holds(d, s, c) && Holds(d, s, c')
    ensures c == c'
  {
    hide ServiceIdOf, Slot;
    if c.Some? {
      HeldContainer(d, s, c.value);
      var id :| id in d.containers && d.containers[id] == c.value && ServiceIdOf(c.value) == s;
      HeldIs(d, s, c', id);
    } else if c'.Some? {
      HeldContainer(d, s, c'.value);
      var id :| id in d.containers && d.containers[id] == c'.value && ServiceIdOf(c'.value) == s;
      HeldIs(d, s, c, id);
    }
  }

  lemma EmptyGroups(p: Policy, w: World, sl: SyncLuck, a: nat, s: nat)
    requires Ready(p, w) && Clear(w.docker, sl) && AtHome(w, a, s) && NextPlan(p, Resync(w, sl)) == []
    ensures var r := Resync(w, sl); Group(a, AppAt(r.apps, a), AppAt(r.target, a), Answers(p, r), s) == []
  {
    hide Ready, Clear, Sync, Group, Plan, AllUnique, Avoids;
    var r := Resync(w, sl);
    SyncedReady(p, w, sl);
    ReadyUnique(p, w);
    SyncedHome(w, sl, a, s);
    PlanSplit(r.apps, r.target, Answers(p, r), a, s);
  }

  // ---- Runs ----

  /** Docker does for service `t` of app `a` what the target asks: its one
      container runs or is paused with the target's configuration. A service
      wanted paused may also have no container. */
  ghost predicate Reached(d: DockerState, a: nat, t: Service) {
    exists c :: Holds(d, t.serviceId, c) &&
      match c
      case None => Desired(t) != Running
      case Some(x) => AppIdOf(x) == a && x.status == (if Desired(t) == Running then Up else Held) && Realises(x, t)
  }

  /** Exactly the target: every service is reached and no other is there. */
  ghost predicate Exactly(d: DockerState, target: Apps) {
    && (forall a, t | a in target && t in target[a].services :: Reached(d, a, t))
    && (forall id | id in d.containers ::
        Lookup(target, AppIdOf(d.containers[id]), ServiceIdOf(d.containers[id])).Some?)
  }

  lemma HomeLookup(w: World, a: nat, b: nat, s: nat)
    requires AtHome(w, a, s) && AtHome(w, b, s)
    ensures Lookup(w.target, a, s) == Lookup(w.target, b, s)
  {
    hide AppIdOf, ServiceIdOf;
  }

  lemma ZeroMeans(c: Option<Container>, t: Service)
    requires Canonical(t) && Desired(t) != Stopped && Rank(c, Some(t)) == 0 && (c.Some? ==> Plainly(c.value))
    ensures match c
            case None => Desired(t) != Running
            case Some(x) => x.status == (if Desired(t) == Running then Up else Held) && Realises(x, t)
  {
    hide NeedsUpdate, Record, Realises;
    CanonicalEnv(t);
    if c.Some? {
      RealisesIff(c.value, t);
    }
  }

  /** `w'` is what some rounds make of `w`, and is settled for service `s`. */
  ghost predicate SettledFor(w: World, w': World, s: nat) {
    exists a, c :: AtHome(w, a, s) && AtHome(w', a, s) && Holds(w'.docker, s, c)
        && Rank(c, Lookup(w'.target, a, s)) == 0
                   && BothAlike(Lookup(w.target, a, s), Lookup(w'.target, a, s))
  }

  lemma AllSettled(w: World, w': World)
    requires forall s :: SettledFor(w, w', s)
    ensures Settled(w')
  {
    hide Rank, AtHome, Holds, BothAlike, Lookup;
    forall a, s, c | AtHome(w', a, s) && Holds(w'.docker, s, c) ensures Rank(c, Lookup(w'.target, a, s)) == 0 {
      assert SettledFor(w, w', s);
      var b, c' :| AtHome(w, b, s) && AtHome(w', b, s) && Holds(w'.docker, s, c')
          && Rank(c', Lookup(w'.target, b, s)) == 0;
      HomeLookup(w', a, b, s);
      HoldsSame(w'.docker, s, c, c');
    }
  }

  /** A settled world is exactly the target it started towards. */
  lemma SettledExactly(p: Policy, w: World, w': World)
    requires Ready(p, w) && Ready(p, w') && forall s :: SettledFor(w, w', s)
    ensures Exactly(w'.docker, w.target)
  {
    hide Ready, Rank, AtHome, Holds, BothAlike, Lookup, Canonical, Wanted, AppIdOf, ServiceIdOf, Realises;
    forall a, t | a in w.target && t in w.target[a].services ensures Reached(w'.docker, a, t) {
      assert SettledFor(w, w', t.serviceId);
      var b, c :| AtHome(w, b, t.serviceId) && AtHome(w', b, t.serviceId) && Holds(w'.docker, t.serviceId, c)
                  && Rank(c, Lookup(w'.target, b, t.serviceId)) == 0
                  && BothAlike(Lookup(w.target, b, t.serviceId), Lookup(w'.target, b, t.serviceId));
      TargetFound(p, w, a, b, t);
      var now := HeldNow(p, w, t.serviceId);
      ReadySlot(p, w, b, t.serviceId, now);
      ReadySlot(p, w', b, t.serviceId, c);
      RankAlike(c, Some(t), Lookup(w'.target, b, t.serviceId));
      WantedState(t, b, t.serviceId);
      assert c.Some? ==> Plainly(c.value);
      ZeroMeans(c, t);
    }
    forall id | id in w'.docker.containers
      ensures Lookup(w.target, AppIdOf(w'.docker.containers[id]), ServiceIdOf(w'.docker.containers[id])).Some?
    {
      var s := ServiceIdOf(w'.docker.containers[id]);
      assert SettledFor(w, w', s);
      var b, c :| AtHome(w, b, s) && AtHome(w', b, s) && Holds(w'.docker, s, c) && Rank(c, Lookup(w'.target, b, s)) == 0
                  && BothAlike(Lookup(w.target, b, s), Lookup(w'.target, b, s));
      HeldIs(w'.docker, s, c, id);
      ReadySlot(p, w', b, s, c);
      SomeRank(c, Lookup(w'.target, b, s));
      AlikeFound(Lookup(w.target, b, s), Lookup(w'.target, b, s));
    }
  }

  lemma SomeRank(c: Option<Container>, t: Option<Service>)
    requires c.Some? && Rank(c, t) == 0
    ensures t.Some?
  {
    hide NeedsUpdate;
  }

  lemma AlikeFound(x: Option<Service>, y: Option<Service>)
    requires BothAlike(x, y)
    ensures x.Some? <==> y.Some?
  {
  }

  lemma TargetFound(p: Policy, w: World, a: nat, b: nat, t: Service)
    requires Ready(p, w) && a in w.target && t in w.target[a].services && AtHome(w, b, t.serviceId)
    ensures a == b && Lookup(w.target, b, t.serviceId) == Some(t)
  {
    hide Canonical, Faithful, AppIdOf, ServiceIdOf, UniqueIds, Sane, Unblocked, Attached, PlainContainers;
    MemberFound(w.target[a].services, t);
  }

  lemma HeldNow(p: Policy, w: World, s: nat) returns (c: Option<Container>)
    requires Ready(p, w)
    ensures Holds(w.docker, s, c)
  {
    c := HoldsSomething(w.docker, s);
  }

  /** The services are all wanted running. */
  ghost predicate AllRunning(target: Apps) {
    forall a, t | a in target && t in target[a].services :: Desired(t) == Running
  }

  lemma FirstRank(before: Option<Container>, t: Option<Service>, d: DockerState, after: Option<Container>)
    requires Becomes(before, t, d, after) && (before.Some? ==> Plainly(before.value))
    requires after.Some? ==> Active(after.value.status)
    ensures Rank(after, t) <= 3
    ensures t.Some? && Desired(t.value) == Running ==> Rank(after, t) <= 1
  {
    hide NeedsUpdate, Record, IsLaunched;
    if after.Some? {
      LaunchedUp(after.value, d);
    }
  }

  /** After one round no service is more than three rounds away, and one wanted
      running no more than one, whether or not the networks were there. */
  lemma FirstRound(p: Policy, w: World, sl: SyncLuck, f: Fortune, a: nat,
      s: nat) returns (before: Option<Container>, after: Option<Container>)
    requires Ready(p, w) && Clear(w.docker, sl) && Calm(f) && AtHome(w, a, s)
    ensures var w' := Round(p, w, sl, f);
            var t, t' := Lookup(w.target, a, s), Lookup(w'.target, a, s);
            && Holds(w.docker, s, before) && Holds(w'.docker, s, after) && AtHome(w', a, s) && BothAlike(t, t')
            && Rank(after, t') <= 3 && (t.Some? && Desired(t.value) == Running ==> Rank(after, t') <= 1)
            && (t.None? ==> Rank(after, t') <= 1)
            && (before.Some? && t.Some? ==> after.Some?)
  {
    hide Ready, Clear, Round, Becomes, Supplied, Rank, Holds, AppsAlike, Alike, Canonical, AppIdOf, AtHome;
    ReadyAttached(p, w);
    before, after := RoundSlot(p, w, sl, f, a, s);
    var w' := Round(p, w, sl, f);
    var t := Lookup(w.target, a, s);
    ReadySlot(p, w, a, s, before);
    FirstRank(before, t, Supplied(Resync(w, sl), a), after);
    RoundWorld(p, w, sl, f);
    HomeMoves(w, w', a, s, after);
    LookupAlike(w.target, w'.target, a, s);
    RankAlike(after, t, Lookup(w'.target, a, s));
    StaysFound(before, t, Supplied(Resync(w, sl), a), after);
    NoTargetRank(after);
  }

  lemma NoTargetRank(c: Option<Container>)
    ensures Rank(c, None) <= 1
  {
  }

  lemma BothTransitive(x: Option<Service>, y: Option<Service>, z: Option<Service>)
    requires BothAlike(x, y) && BothAlike(y, z)
    ensures BothAlike(x, z)
  {
    hide Tidy;
  }

  lemma RunningModest(p: Policy, w: World, w': World)
    requires Ready(p, w) && Ready(p, w') && AllRunning(w.target) && forall s :: SettledFor(w, w', s)
    ensures Modest(w')
  {
    hide Ready, Rank, AtHome, Holds, Lookup, Alike, HasPrefix;
    forall a, t | a in w'.target && t in w'.target[a].services ensures Desired(t) == Running {
      assert SettledFor(w, w', t.serviceId);
      var b :| AtHome(w, b, t.serviceId) && AtHome(w', b, t.serviceId)
          && BothAlike(Lookup(w.target, b, t.serviceId), Lookup(w'.target, b, t.serviceId));
      TargetFound(p, w', a, b, t);
      AlikeFound(Lookup(w.target, b, t.serviceId), Lookup(w'.target, b, t.serviceId));
      var x := Lookup(w.target, b, t.serviceId).value;
      AlikeLists(x, t);
      LookupMember(w.target, b, t.serviceId);
      assert x in w.target[b].services && Desired(x) == Running;
    }
  }

  lemma LookupMember(apps: Apps, a: nat, s: nat)
    requires Lookup(apps, a, s).Some?
    ensures a in apps && Lookup(apps, a, s).value in apps[a].services
  {
  }

  lemma RunningTarget(target: Apps, a: nat, s: nat)
    requires AllRunning(target)
    ensures Lookup(target, a, s).Some? ==> Desired(Lookup(target, a, s).value) == Running
  {
  }

  /** Convergence. From any ready world, towards a canonical target whose
      services are all wanted running, two rounds in which Docker refuses only
      what it must leave exactly the target's services running with the
      target's configuration, and nothing is planned any more. */
  lemma TwoRounds(p: Policy, w: World, sl: SyncLuck, f: Fortune, sl': SyncLuck, f': Fortune, last: SyncLuck)
    requires Ready(p, w) && AllRunning(w.target) && Clear(w.docker, sl) && Calm(f) && Calm(f')
    requires Clear(Round(p, w, sl, f).docker, sl')
    requires Clear(Round(p, Round(p, w, sl, f), sl', f').docker, last)
    ensures var w2 := Round(p, Round(p, w, sl, f), sl', f');
            Exactly(w2.docker, w.target) && NextPlan(p, Resync(w2, last)) == []
  {
    hide Ready, Clear, Round, Rank, Holds, Calm, AtHome, Lookup, Settled, Modest, AllRunning, BothAlike, NextPlan,
         Resync, Exactly;
    ReadyAttached(p, w);
    var w1 := Round(p, w, sl, f);
    var w2 := Round(p, w1, sl', f');
    RoundReady(p, w, sl, f);
    RoundReady(p, w1, sl', f');
    assert Connected(w1.docker) by { ReadyAttached(p, w1); ActiveConnected(w1.docker); }
    forall s ensures SettledFor(w, w2, s) {
      var a := HomeExists(p, w, s);
      var c0, c1 := FirstRound(p, w, sl, f, a, s);
      RunningTarget(w.target, a, s);
      var b, c2 := RankStep(p, w1, sl', f', a, s);
      ConnectedDistance(p, w1, sl', a, s, b);
      HoldsSame(w1.docker, s, c1, b);
      BothTransitive(Lookup(w.target, a, s), Lookup(w1.target, a, s), Lookup(w2.target, a, s));
    }
    SettledExactly(p, w, w2);
    AllSettled(w, w2);
    RunningModest(p, w, w2);
    NothingPlanned(p, w2, last);
  }

  lemma ReadyAttached(p: Policy, w: World)
    requires Ready(p, w)
    ensures Attached(w.docker) && p.intervals != []
  {
  }

  // ---- Any number of rounds ----

  /** A calm turn with a complete sync that keeps the target. */
  ghost predicate Quiet(d: DockerState, turn: Turn) {
    turn.change.None? && Calm(turn.steps) && Clear(d, turn.sync)
  }

  ghost predicate Good(p: Policy, w: World, turns: seq<Turn>)
    requires p.intervals != []
  {
    forall k | 0 <= k < |turns| :: Quiet(Rounds(p, w, turns[..k]).docker, turns[k])
  }

  /** A restart before a quiet turn makes no difference to its round. */
  lemma QuietRound(p: Policy, w: World, turn: Turn)
    requires p.intervals != [] && Quiet(w.docker, turn)
    ensures Round(p, Opening(w, turn), turn.sync, turn.steps) == Round(p, w, turn.sync, turn.steps)
  {
    hide Apply, Sync, Calm;
    OpeningIs(w, turn);
  }

  lemma GoodInit(p: Policy, w: World, turns: seq<Turn>)
    requires p.intervals != [] && Good(p, w, turns) && turns != []
    ensures Good(p, w, turns[..|turns| - 1])
  {
    hide Quiet, Rounds;
    var init := turns[..|turns| - 1];
    forall k | 0 <= k < |init| ensures Quiet(Rounds(p, w, init[..k]).docker, init[k]) {
      assert init[..k] == turns[..k] && init[k] == turns[k];
    }
  }

  /** The rank of a service after some rounds. */
  lemma {:induction false} RankAfter(p: Policy, w: World, turns: seq<Turn>, a: nat,
      s: nat) returns (before: Option<Container>, after: Option<Container>)
    requires Ready(p, w) && Connected(w.docker) && Good(p, w, turns) && AtHome(w, a, s)
    ensures var w' := Rounds(p, w, turns);
            var t, t' := Lookup(w.target, a, s), Lookup(w'.target, a, s);
            && Ready(p, w') && Connected(w'.docker) && AtHome(w', a, s) && BothAlike(t, t')
            && Holds(w.docker, s, before) && Holds(w'.docker, s, after)
            && Rank(after, t') <= (if Rank(before, t) < |turns| then 0 else Rank(before, t) - |turns|)
            && (before.Some? && t.Some? ==> after.Some?)
  {
    hide Ready, Clear, Round, Opening, Rank, Distance, Holds, Calm, AtHome, Lookup, Alike, Connected, Good, Resync;
    if turns == [] {
      before := HeldNow(p, w, s);
      after := before;
      LookupSelf(w, a, s);
    } else {
      var n := |turns| - 1;
      ReadyAttached(p, w);
      GoodInit(p, w, turns);
      var m;
      before, m := RankAfter(p, w, turns[..n], a, s);
      var w1 := Rounds(p, w, turns[..n]);
      GoodLast(p, w, turns);
      QuietRound(p, w1, turns[n]);
      var m';
      m', after := RankStep(p, w1, turns[n].sync, turns[n].steps, a, s);
      ConnectedDistance(p, w1, turns[n].sync, a, s, m');
      HoldsSame(w1.docker, s, m, m');
      RoundReady(p, w1, turns[n].sync, turns[n].steps);
      var w2 := Round(p, w1, turns[n].sync, turns[n].steps);
      ReadyAttached(p, w2);
      ActiveConnected(w2.docker);
      BothTransitive(Lookup(w.target, a, s), Lookup(w1.target, a, s), Lookup(w2.target, a, s));
      AlikeFound(Lookup(w.target, a, s), Lookup(w1.target, a, s));
    }
  }

  lemma LookupSelf(w: World, a: nat, s: nat)
    ensures BothAlike(Lookup(w.target, a, s), Lookup(w.target, a, s))
  {
    hide Lookup, Tidy;
  }

  lemma GoodLast(p: Policy, w: World, turns: seq<Turn>)
    requires p.intervals != [] && Good(p, w, turns) && turns != []
    ensures var n := |turns| - 1; Quiet(Rounds(p, w, turns[..n]).docker, turns[n])
  {
  }

  /** A service that is absent and skipped later was so before. */
  lemma ModestMoves(p: Policy, w: World, w': World)
    requires Ready(p, w) && Ready(p, w') && Modest(w)
    requires forall s :: Onward(w, w', s)
    ensures Modest(w')
  {
    hide Ready, Rank, Holds, AtHome, Lookup, Alike, HasPrefix;
    forall a, t | a in w'.target && t in w'.target[a].services && Desired(t) != Running
        && Holds(w'.docker, t.serviceId, None)
      ensures t.config.networks == [] && forall v | v in t.config.volumes :: HasPrefix(v, "/")
    {
      var s := t.serviceId;
      assert Onward(w, w', s);
      var b, before, after :| AtHome(w, b, s) && AtHome(w', b, s)
          && BothAlike(Lookup(w.target, b, s), Lookup(w'.target, b, s))
                              && Holds(w.docker, s, before) && Holds(w'.docker, s, after)
                              && (before.Some? && Lookup(w.target, b, s).Some? ==> after.Some?);
      HoldsSame(w'.docker, s, after, None);
      TargetFound(p, w', a, b, t);
      AlikeFound(Lookup(w.target, b, s), Lookup(w'.target, b, s));
      var x := Lookup(w.target, b, s).value;
      LookupMember(w.target, b, s);
      AlikeLists(x, t);
      FoundFirst(w.target, b, s);
      SameElements(x.config.networks, t.config.networks);
      SameElements(x.config.volumes, t.config.volumes);
    }
  }

  /** What some rounds keep of service `s`: its home, its target and, if it has
      a target, that it has a container. */
  ghost predicate Onward(w: World, w': World, s: nat) {
    exists a, before, after ::
      && AtHome(w, a, s) && AtHome(w', a, s) && BothAlike(Lookup(w.target, a, s), Lookup(w'.target, a, s))
      && Holds(w.docker, s, before) && Holds(w'.docker, s, after)
      && (before.Some? && Lookup(w.target, a, s).Some? ==> after.Some?)
  }

  lemma FoundFirst(apps: Apps, a: nat, s: nat)
    requires Lookup(apps, a, s).Some?
    ensures Lookup(apps, a, s).value.serviceId == s
  {
  }

  lemma {:induction false} RoundsFirst(p: Policy, w: World, turn: Turn, rest: seq<Turn>)
    requires p.intervals != []
    ensures Rounds(p, w, [turn] + rest) == Rounds(p, Round(p, Opening(w, turn), turn.sync, turn.steps), rest)
  {
    hide Round, Opening;
    var all := [turn] + rest;
    if rest == [] {
      assert all[..0] == [] && all[0] == turn;
    } else {
      var n := |rest| - 1;
      RoundsFirst(p, w, turn, rest[..n]);
      assert all[..|all| - 1] == [turn] + rest[..n];
      assert all[|all| - 1] == rest[n];
    }
  }

  lemma GoodRest(p: Policy, w: World, turn: Turn, rest: seq<Turn>)
    requires p.intervals != [] && Good(p, w, [turn] + rest)
    ensures Quiet(w.docker, turn) && Good(p, Round(p, Opening(w, turn), turn.sync, turn.steps), rest)
  {
    hide Quiet, Round, Opening;
    var all := [turn] + rest;
    assert all[0] == turn && all[..0] == [];
    assert Quiet(Rounds(p, w, all[..0]).docker, all[0]);
    forall k | 0 <= k < |rest|
      ensures Quiet(Rounds(p, Round(p, Opening(w, turn), turn.sync, turn.steps), rest[..k]).docker, rest[k])
    {
      assert all[..k + 1] == [turn] + rest[..k] && all[k + 1] == rest[k];
      RoundsFirst(p, w, turn, rest[..k]);
      assert Quiet(Rounds(p, w, all[..k + 1]).docker, all[k + 1]);
    }
  }

  /** Termination. Towards a target that mixes running and paused services, four
      rounds settle everything: exactly the target is reached and nothing is
      planned any more. */
  lemma FourRounds(p: Policy, w: World, turns: seq<Turn>, last: SyncLuck)
    requires Ready(p, w) && Modest(w) && Good(p, w, turns) && |turns| >= 4
    requires Clear(Rounds(p, w, turns).docker, last)
    ensures Exactly(Rounds(p, w, turns).docker, w.target)
    ensures NextPlan(p, Resync(Rounds(p, w, turns), last)) == []
  {
    hide Ready, Clear, Rank, Holds, AtHome, Lookup, Connected, Good, Rounds, Round, Opening, Calm, Modest, Settled,
         BothAlike, NextPlan, Resync, Exactly;
    ReadyAttached(p, w);
    var turn, rest := turns[0], turns[1..];
    assert turns == [turn] + rest;
    GoodRest(p, w, turn, rest);
    RoundsFirst(p, w, turn, rest);
    QuietRound(p, w, turn);
    var w1 := Round(p, w, turn.sync, turn.steps);
    var w' := Rounds(p, w1, rest);
    RoundReady(p, w, turn.sync, turn.steps);
    ReadyAttached(p, w1);
    ActiveConnected(w1.docker);
    RunReady(p, w1, rest);
    forall s ensures SettledFor(w, w', s) && Onward(w, w', s) {
      var a := HomeExists(p, w, s);
      var c0, c1 := FirstRound(p, w, turn.sync, turn.steps, a, s);
      var b, c2 := RankAfter(p, w1, rest, a, s);
      HoldsSame(w1.docker, s, c1, b);
      BothTransitive(Lookup(w.target, a, s), Lookup(w1.target, a, s), Lookup(w'.target, a, s));
      AlikeFound(Lookup(w.target, a, s), Lookup(w1.target, a, s));
    }
    SettledExactly(p, w, w');
    AllSettled(w, w');
    ModestMoves(p, w, w');
    NothingPlanned(p, w', last);
  }

  lemma RunReady(p: Policy, w: World, turns: seq<Turn>)
    requires Ready(p, w) && Connected(w.docker) && Good(p, w, turns)
    ensures Ready(p, Rounds(p, w, turns))
  {
    hide Ready, Connected, Good, AtHome, Holds, Rank, BothAlike, Lookup;
    var a := HomeExists(p, w, 0);
    var before, after := RankAfter(p, w, turns, a, 0);
  }

  // ---- Where a run may start ----

  /** A device without containers and without retry records is ready for every
      canonical target. */
  lemma FreshDevice(p: Policy, target: Apps, docker: DockerState, now: int)
    requires p.intervals != [] && docker.containers == map[] && Goal(target)
    ensures Ready(p, World(map[], target, docker, map[], now))
  {
    hide Goal, Sound, PlainContainer;
  }
}
