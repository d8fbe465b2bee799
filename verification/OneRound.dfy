/** One round - sync, plan, execute - seen from a single service, and that a
    round leaves a world the next round can start from. */
module OneRound {
  import opened Text
  import opened Types
  import opened Retry
  import opened Docker
  import opened DockerSync
  import opened Planner
  import opened Executor
  import opened RoundTrip
  import opened Isolation
  import opened PlanFacts
  import opened NetworkPlanning
  import opened RoundFacts
  import opened Outcomes
  import opened Readiness

  // ---- The worlds considered ----

  /** No service id occurs in two apps. */
  ghost predicate OneApp(target: Apps) {
    forall a, b, x, y | a in target && x in target[a].services && b in target && y in target[b].services
        && x.serviceId == y.serviceId ::
      a == b
  }

  /** A canonical target: filed under unique ids, printable, and nothing wanted
      stopped. */
  ghost predicate Goal(target: Apps) {
    && Filed(target) && AllUnique(target) && OneApp(target)
    && forall a, t | a in target && t in target[a].services :: Canonical(t) && Desired(t) != Stopped
  }

  /** A running, paused or exited container whose mode is no network of its app. */
  predicate PlainContainer(c: Container) {
    Plainly(c) && !HasPrefix(c.mode, Dec(AppIdOf(c)) + "_")
  }

  ghost predicate PlainContainers(d: DockerState) {
    forall id | id in d.containers :: PlainContainer(d.containers[id])
  }

  /** Containers and target agree on the app of a service. */
  ghost predicate Agree(d: DockerState, target: Apps) {
    forall id, a, t | id in d.containers && a in target && t in target[a].services
        && ServiceIdOf(d.containers[id]) == t.serviceId ::
      AppIdOf(d.containers[id]) == a
  }

  ghost predicate Ready(p: Policy, w: World) {
    && p.intervals != []
    && Sane(w.docker) && OnePerService(w.docker.containers) && Attached(w.docker) && PlainContainers(w.docker)
    && Goal(w.target) && Agree(w.docker, w.target) && Unblocked(p, w)
  }

  /** The sync lists and inspects every container. */
  ghost predicate Clear(d: DockerState, sl: SyncLuck) {
    !sl.listFails && sl.inspectFails == {} && IsListing(d, sl.listing)
  }

  /** Service `s` belongs to app `a`, for the target and for Docker. */
  ghost predicate AtHome(w: World, a: nat, s: nat) {
    OnlyIn(w.target, a, s) && forall id | id in w.docker.containers
        && ServiceIdOf(w.docker.containers[id]) == s :: AppIdOf(w.docker.containers[id]) == a
  }

  lemma HomeExists(p: Policy, w: World, s: nat) returns (a: nat)
    requires Ready(p, w)
    ensures AtHome(w, a, s)
  {
    hide Sane, Canonical, AppIdOf, ServiceIdOf, PlainContainers, Faithful, UniqueIds;
    if b, t :| b in w.target && t in w.target[b].services && t.serviceId == s {
      a := b;
    } else if id :| id in w.docker.containers && ServiceIdOf(w.docker.containers[id]) == s {
      a := AppIdOf(w.docker.containers[id]);
    } else {
      a := 0;
    }
  }

  // ---- What the sync and the planner see of one service ----

  lemma SoundManaged(d: DockerState)
    requires Sane(d)
    ensures AllManaged(d.containers)
  {
    hide UniqueNames;
    forall id | id in d.containers ensures Managed(d.containers[id]) {
      assert Sound(d.containers[id]);
    }
  }

  lemma SyncedUnique(w: World, sl: SyncLuck)
    requires Sane(w.docker) && OnePerService(w.docker.containers) && Clear(w.docker, sl)
    ensures AllUnique(Resync(w, sl).apps)
  {
    hide Sane, Sync, Read;
    SoundManaged(w.docker);
    SyncShape(w.docker.containers, sl.listing, sl.inspectFails);
    var apps := Resync(w, sl).apps;
    forall a | a in apps ensures UniqueIds(apps[a].services) {
      assert AppSynced(w.docker.containers, sl.listing, a, apps[a]);
    }
  }

  lemma SyncedHome(w: World, sl: SyncLuck, a: nat, s: nat)
    requires AtHome(w, a, s) && Clear(w.docker, sl)
    ensures OnlyIn(Resync(w, sl).apps, a, s)
  {
    hide Sync;
    var apps := Resync(w, sl).apps;
    forall b, x | b in apps && x in apps[b].services && x.serviceId == s ensures b == a {
      SyncMembers(w.docker.containers, sl.listing, sl.inspectFails, b, x);
    }
  }

  /** The record of a service is what is read of its container. */
  lemma SyncedRecord(w: World, sl: SyncLuck, a: nat, s: nat, before: Option<Container>)
    requires Sane(w.docker) && OnePerService(w.docker.containers) && PlainContainers(w.docker) && AtHome(w, a, s)
    requires Clear(w.docker, sl) && Holds(w.docker, s, before)
    ensures Reads(Lookup(Resync(w, sl).apps, a, s), w.docker, a, s, before)
  {
    hide Sane, Sync, Read, AppIdOf, ServiceIdOf, Slot, OnePerService, Plainly;
    var d := w.docker;
    SoundManaged(d);
    SyncFinds(d.containers, sl.listing, sl.inspectFails, a, s);
    match before
    case None =>
      SlotNone(d, s);
      assert forall id :: !Listed(d.containers, sl.listing, a, s, id);
    case Some(c) =>
      var id: ContainerId :| Slot(d, s) == map[id := c];
      SlotOne(d, s, id, c);
      assert PlainContainer(c);
      assert Listed(d.containers, sl.listing, a, s, id);
      ReadId(id, c);
  }

  lemma ReadId(id: ContainerId, c: Container)
    ensures Read(id, c, true).containerId == Some(id)
  {
  }

  lemma FoundInApp(apps: Apps, a: nat, s: nat)
    requires AllUnique(apps)
    ensures FindLast(ServicesOf(AppAt(apps, a)), s) == Lookup(apps, a, s)
  {
    if a in apps {
      FindSameUnique(apps[a].services, s);
    }
  }

  lemma GroupIs(p: Policy, w: World, a: nat, s: nat)
    requires AllUnique(w.apps) && AllUnique(w.target) && Unblocked(p, w)
    ensures Group(a, AppAt(w.apps, a), AppAt(w.target, a), Answers(p, w), s)
            == ServiceSteps(a, Lookup(w.apps, a, s), Lookup(w.target, a, s), true)
  {
    hide ServiceSteps, AllUnique, Lookup;
    FoundInApp(w.apps, a, s);
    FoundInApp(w.target, a, s);
    var t := Lookup(w.target, a, s);
    if t.Some? {
      assert Allowed(p, w.retry, ImageKey(t.value.imageName), w.now);
    }
  }

  lemma WantedTarget(target: Apps, a: nat, s: nat)
    requires Goal(target) && Lookup(target, a, s).Some?
    ensures Wanted(Lookup(target, a, s).value, a, s) && Canonical(Lookup(target, a, s).value)
  {
    hide Canonical, Faithful, UniqueIds;
  }

  /** The record of an exited service is not touched by planning. */
  lemma ExitedRecord(w: World, a: nat, s: nat, c: Container)
    requires AllUnique(w.apps) && AllUnique(w.target)
    requires Lookup(w.apps, a, s).Some? && Lookup(w.target, a, s).Some?
    requires var r := Lookup(w.apps, a, s).value; r == Read(r.containerId.GetOr(0), c, true) && r.containerId.Some?
    requires c.status == Exited && Desired(Lookup(w.target, a, s).value) != Stopped
    ensures Lookup(Planned(w).apps, a, s) == Lookup(w.apps, a, s)
  {
    hide AllUnique, Planned;
    FoundInApp(w.apps, a, s);
    FoundInApp(w.target, a, s);
    TransitionUntidy(w, a, Lookup(w.apps, a, s).value, Lookup(w.target, a, s).value);
  }

  // ---- The networks a launch finds ----

  /** Docker as the container steps of app `a` find its networks. */
  function Supplied(w: World, a: nat): DockerState {
    var names := NewNetworks(AppAt(w.apps, a), AppAt(w.target, a));
    w.docker.(networks := w.docker.networks + set n | n in names :: Scoped(a, n))
  }

  lemma SuppliedNetwork(w: World, a: nat, n: string)
    ensures Scoped(a, n) in Supplied(w, a).networks <==>
            Scoped(a, n) in w.docker.networks || (NamesNetwork(AppAt(w.target, a), n)
                && !NamesNetwork(AppAt(w.apps, a), n))
  {
    hide Scoped, NetworkNames, NamesNetwork;
    var names := NewNetworks(AppAt(w.apps, a), AppAt(w.target, a));
    NameLists(AppAt(w.apps, a), n);
    NameLists(AppAt(w.target, a), n);
    forall m | m in names && Scoped(a, m) == Scoped(a, n) ensures m == n {
      ScopedInjective(a, m, a, n);
    }
  }

  ghost predicate SameAppNetworks(d: DockerState, d': DockerState, a: nat) {
    forall n :: Scoped(a, n) in d.networks <==> Scoped(a, n) in d'.networks
  }

  lemma LaunchedMoves(c: Container, d: DockerState, d': DockerState, x: Service)
    requires IsLaunched(c, d, x) && SameAppNetworks(d, d', x.appId)
    ensures IsLaunched(c, d', x)
  {
    hide Scoped;
    var imageEnv :| c == Launched(d, x, imageEnv);
    JoinSame(d, d', x, x.config.networks, {});
    assert c == Launched(d', x, imageEnv);
  }

  lemma OutcomeMoves(before: Option<Container>, t: Option<Service>, d: DockerState, d': DockerState,
      after: Option<Container>, a: nat)
    requires Becomes(before, t, d, after) && SameAppNetworks(d, d', a)
    requires (t.Some? ==> t.value.appId == a) && (before.Some? ==> AppIdOf(before.value) == a)
    ensures Becomes(before, t, d', after)
  {
    hide NeedsUpdate, IsLaunched, SameAppNetworks;
    if after.Some? {
      if t.Some? && IsLaunched(after.value, d, t.value) { LaunchedMoves(after.value, d, d', t.value); }
      if t.Some? && IsLaunched(after.value, d, Tidy(t.value)) { LaunchedMoves(after.value, d, d', Tidy(t.value)); }
      if before.Some? && IsLaunched(after.value, d, Record(before.value)) { LaunchedMoves(after.value, d, d',
          Record(before.value)); }
    }
  }

  /** Without steps nothing is launched. */
  lemma EmptyOutcome(a: nat, s: nat, cur: Option<Service>, t: Option<Service>, before: Option<Container>,
      d: DockerState, d': DockerState, after: Option<Container>)
    requires Reads(cur, d, a, s, before) && ServiceSteps(a, cur, t, true) == [] && Becomes(before, t, d, after)
    requires t.Some? ==> Desired(t.value) != Stopped
    ensures Becomes(before, t, d', after)
  {
    hide NeedsUpdate, IsLaunched, Slot, Read, Record;
    if cur.Some? && t.Some? {
      RecordOf(cur.value.containerId.value, before.value);
      IdUpdate(cur.value, Record(before.value), t.value);
    }
  }

  lemma GroupPhase(a: nat, cur: Option<Service>, t: Option<Service>, mayPull: bool)
    ensures forall i | 0 <= i < |ServiceSteps(a, cur, t, mayPull)| ::
              Phase(ServiceSteps(a, cur, t, mayPull)[i]) == 2 && ServiceSteps(a, cur, t, mayPull)[i].appId == a
  {
    hide NeedsUpdate, Tidy;
  }

  lemma AtGroup(p: Policy, w: World, f: Fortune, a: nat, before: seq<Step>, group: seq<Step>, after: seq<Step>)
    requires p.intervals != [] && Calm(f) && NextPlan(p, w) == before + group + after
    requires group != [] && Phase(group[0]) == 2 && group[0].appId == a
    ensures SameAppNetworks(ExecAll(p, Planned(w), before, f, 0).docker, Supplied(w, a), a)
  {
    hide ExecAll, Planned, NextPlan, NamesNetwork, Supplied, Scoped;
    var steps := NextPlan(p, w);
    var k := |before|;
    assert steps[k] == group[0] && steps[..k] == before;
    assert CreationsSucceed(before, f, 0) by { CalmCreations(before, f); }
    hide CreationsSucceed;
    forall n ensures
      Scoped(a, n) in ExecAll(p, Planned(w), before, f, 0).docker.networks <==> Scoped(a, n) in Supplied(w, a).networks
    {
      NetworksAtStep(p, w, f, k, n);
      SuppliedNetwork(w, a, n);
    }
  }

  lemma CalmCreations(steps: seq<Step>, f: Fortune)
    requires Calm(f)
    ensures CreationsSucceed(steps, f, 0)
  {
    forall i | 0 <= i < |steps| && steps[i].CreateNetwork? ensures !f(0 + i).fails {
      assert Benign(f(i));
    }
  }

  // ---- One round, one service ----

  lemma SyncedReady(p: Policy, w: World, sl: SyncLuck)
    requires Ready(p, w) && Clear(w.docker, sl)
    ensures Grounded(Resync(w, sl)) && AllUnique(Resync(w, sl).apps) && Unblocked(p, Resync(w, sl))
  {
    hide Sane, Sync, Canonical, PlainContainers, Agree, OneApp, Filed, AllUnique, Attached, OnePerService, Allowed,
         Remembered, AllOwned;
    SyncGrounded(w, sl);
    SyncedUnique(w, sl);
  }

  /** What a round makes of the container of service `s`. */
  lemma RoundOutcome(p: Policy, w: World, sl: SyncLuck, f: Fortune, a: nat, s: nat, before: Option<Container>)
      returns (after: Option<Container>)
    requires Ready(p, w) && Clear(w.docker, sl) && Calm(f) && AtHome(w, a, s) && Holds(w.docker, s, before)
    ensures Holds(Round(p, w, sl, f).docker, s, after)
    ensures Becomes(before, Lookup(w.target, a, s), Supplied(Resync(w, sl), a), after)
  {
    hide Sane, Sync, Slot, ExecAll, Plan, Group, Supplied, Becomes, ServiceSteps, OnlyIn, Avoids, RecordsKept,
         WorldSane, Evolves;
    hide Grounded, AllUnique, TidyCurrentApps, TidyTargetApps, Lookup, Unblocked, Calm, OnePerService, Goal, Agree,
         Attached, PlainContainers;
    hide AppIdOf, ServiceIdOf, Clear, Apply, NextPlan, Planned, SameAppNetworks;
    var r := Resync(w, sl);
    assert r.docker == w.docker && r.target == w.target;
    SyncedReady(p, w, sl);
    SyncedHome(w, sl, a, s);
    SyncedRecord(w, sl, a, s, before);
    assert AllUnique(w.target) by { GoalUnique(w.target); }
    GroupIs(p, r, a, s);
    var cur, t := Lookup(r.apps, a, s), Lookup(r.target, a, s);
    var left, right := GroupReached(p, r, f, a, s);
    var v := ExecAll(p, Planned(r), left, f, 0);
    assert t.Some? ==> Wanted(t.value, a, s) by { if t.Some? { WantedTarget(w.target, a, s); } }
    assert Reads(cur, v.docker, a, s, before) by { assert Slot(v.docker, s) == Slot(w.docker, s); }
    assert before.Some? && t.Some? && before.value.status == Exited ==> Plain(Lookup(v.apps, a, s)) == Plain(cur) by {
      if before.Some? && t.Some? && before.value.status == Exited {
        ExitedRecord(r, a, s, before.value);
        KeptRecord(Planned(r).apps, v.apps, a, s);
      }
    }
    after := GroupOutcome(p, v, a, s, before, cur, t, f, |left|);
    SlotHolds(ExecAll(p, v, ServiceSteps(a, cur, t, true), f, |left|).docker, Round(p, w, sl, f).docker, s, after);
    if ServiceSteps(a, cur, t, true) == [] {
      EmptyOutcome(a, s, cur, t, before, v.docker, Supplied(r, a), after);
    } else {
      GroupPhase(a, cur, t, true);
      AtGroup(p, r, f, a, left, ServiceSteps(a, cur, t, true), right);
      OutcomeMoves(before, t, v.docker, Supplied(r, a), after, a);
    }
  }

  lemma GoalUnique(target: Apps)
    requires Goal(target)
    ensures AllUnique(target)
  {
  }

  lemma KeptRecord(apps: Apps, apps': Apps, a: nat, s: nat)
    requires RecordsKept(apps, apps', s)
    ensures Plain(Lookup(apps', a, s)) == Plain(Lookup(apps, a, s))
  {
  }

  lemma SlotHolds(d: DockerState, d': DockerState, s: nat, c: Option<Container>)
    requires Slot(d', s) == Slot(d, s) && Holds(d, s, c)
    ensures Holds(d', s, c)
  {
    hide Slot;
    if c.Some? {
      var id: ContainerId :| Slot(d, s) == map[id := c.value];
      assert Slot(d', s) == map[id := c.value];
    }
  }
}
