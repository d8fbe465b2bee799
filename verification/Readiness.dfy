/** What a round of reconciliation needs of the world it starts from, and that
    it leaves a world that the next round can start from. */
module Readiness {
  import opened Text
  import opened Serialised
  import opened Types
  import opened Retry
  import opened Docker
  import opened StateHelpers
  import opened Planner
  import opened Executor
  import opened RoundTrip
  import opened Isolation
  import opened Outcomes
  import Replanning

  // ---- Active containers stay attached to existing networks ----

  ghost predicate Attached(d: DockerState) {
    forall id, n | id in d.containers && Active(d.containers[id].status)
        && n in d.containers[id].networks :: n in d.networks
  }

  lemma {:induction false} JoinedExist(d: DockerState, x: Service, names: seq<string>, bad: set<string>)
    ensures forall n | n in JoinNetworks(d, x, names, bad) :: n in d.networks
  {
    hide Scoped, ModeOf, Joinable;
    if names != [] {
      JoinedExist(d, x, names[..|names| - 1], bad);
    }
  }

  lemma LaunchAttached(d: DockerState, x: Service, l: Luck)
    requires Attached(d)
    ensures Attached(Launch(d, x, l).docker)
  {
    JoinedExist(d, x, x.config.networks, l.badNetworks);
    hide JoinNetworks, NameOf, PrintPorts, MergeEnv, PrintLabels, ParseBinds;
  }

  lemma StartAttached(d: DockerState, x: Service, l: Luck)
    requires Attached(d)
    ensures Attached(Start(d, x, l).docker)
  {
    hide Launch, NameOf;
    var pulled := PullWithRetry(d, x.imageName, l.failedPulls).docker;
    LaunchAttached(d, x, l);
    LaunchAttached(pulled, x, l);
  }

  lemma CallsAttached(d: DockerState, id: ContainerId, fails: bool, name: string)
    requires Attached(d)
    ensures Attached(Stop(d, id, fails).docker) && Attached(Pause(d, id, fails).docker)
    ensures Attached(Unpause(d, id, fails).docker) && Attached(Remove(d, id, fails).docker)
    ensures Attached(MakeNetwork(d, name, fails).docker)
  {
  }

  lemma DropAttached(d: DockerState, name: string, fails: bool)
    requires Attached(d)
    ensures Attached(DropNetwork(d, name, fails).docker)
  {
  }

  lemma AttachedSame(d: DockerState, d': DockerState)
    requires Attached(d) && d'.containers == d.containers && d'.networks == d.networks
    ensures Attached(d')
  {
  }

  lemma EffectAttached(p: Policy, w: World, step: Step, l: Luck)
    requires Attached(w.docker)
    ensures Attached(Effect(p, w, step, l))
  {
    hide Attached, Start, Stop, Pause, Unpause, Remove, MakeNetwork, DropNetwork, Scoped;
    var d := w.docker;
    match step
    case StartContainer(_, x) => StartAttached(d, x, l);
    case StartStoppedContainer(a, s, id) =>
      CallsAttached(d, id, l.fails, "");
      if Lookup(w.apps, a, s).Some? {
        StartAttached(Remove(d, id, l.fails).docker, Lookup(w.apps, a, s).value, l);
      }
    case StopContainer(_, _, id) => CallsAttached(d, id, l.fails, "");
    case PauseContainer(_, _, id) => CallsAttached(d, id, l.fails, "");
    case UnpauseContainer(_, _, id) => CallsAttached(d, id, l.fails, "");
    case RemoveContainer(_, _, id) => CallsAttached(d, id, l.fails, "");
    case CreateNetwork(a, n) => CallsAttached(d, 0, l.fails, Scoped(a, n));
    case RemoveNetwork(a, n) => DropAttached(d, Scoped(a, n), l.fails);
    case _ => AttachedSame(d, Effect(p, w, step, l));
  }

  // ---- The retry table does not block anything new ----

  ghost predicate Unblocked(p: Policy, w: World) {
    forall key :: Allowed(p, w.retry, key, w.now)
  }

  lemma LaterAllowed(p: Policy, w: World, later: World)
    requires Unblocked(p, w) && later.now >= w.now
    requires forall key | key in later.retry :: key in w.retry && later.retry[key] == w.retry[key]
    ensures Unblocked(p, later)
  {
    forall key ensures Allowed(p, later.retry, key, later.now) {
      assert Allowed(p, w.retry, key, w.now);
    }
  }

  lemma DownloadUnblocked(p: Policy, w: World, a: nat, image: string, l: Luck)
    requires p.intervals != [] && Unblocked(p, w) && Benign(l)
    ensures var w' := ExecDownload(p, w, a, image, l).world;
            w'.now == w.now && (w'.retry == w.retry || w'.retry == AfterSuccess(w.retry, ImageKey(image)))
  {
    hide MarkError, AfterFailure, IsRetryableError;
  }

  lemma RetryOnlyDownload(p: Policy, w: World, step: Step, l: Luck)
    requires p.intervals != [] && !step.DownloadImage?
    ensures Exec(p, w, step, l).world.retry == w.retry && Exec(p, w, step, l).world.now == w.now + l.elapsed
  {
    hide Start, Stop, Pause, Unpause, Remove, MakeNetwork, DropNetwork, MakeVolume, DropVolume, MarkError, Lookup;
    hide AddService, MarkRunning, UpdateState, RemoveService, ExecDownload, Scoped;
  }

  lemma StepUnblocked(p: Policy, w: World, step: Step, l: Luck)
    requires p.intervals != [] && Unblocked(p, w) && Benign(l)
    ensures Unblocked(p, Exec(p, w, step, l).world)
  {
    hide ExecDownload, Unblocked, Benign, ImageKey;
    var w1 := w.(now := w.now + l.elapsed);
    LaterAllowed(p, w, w1);
    var w' := Exec(p, w, step, l).world;
    if step.DownloadImage? {
      DownloadUnblocked(p, w1, step.appId, step.imageName, l);
    } else {
      RetryOnlyDownload(p, w, step, l);
    }
    hide Exec;
    LaterAllowed(p, w1, w');
  }

  lemma {:induction false} RunKeeps(p: Policy, w: World, steps: seq<Step>, f: Fortune, base: nat)
    requires p.intervals != [] && Attached(w.docker) && Unblocked(p, w) && Calm(f)
    ensures var w' := ExecAll(p, w, steps, f, base); Attached(w'.docker) && Unblocked(p, w')
  {
    hide Attached, Unblocked, Exec, Effect, Benign;
    if steps != [] {
      var n := |steps| - 1;
      RunKeeps(p, w, steps[..n], f, base);
      var m := ExecAll(p, w, steps[..n], f, base);
      assert Benign(f(base + n));
      EffectIs(p, m, steps[n], f(base + n));
      EffectAttached(p, m, steps[n], f(base + n));
      StepUnblocked(p, m, steps[n], f(base + n));
    }
  }

  // ---- Targets that differ in marks and in the order of lists ----

  ghost predicate Alike(x: Service, y: Service) {
    Tidy(Unmark(x)) == Tidy(Unmark(y))
  }

  lemma AlikeLists(x: Service, y: Service)
    requires Alike(x, y)
    ensures multiset(x.config.ports) == multiset(y.config.ports)
    ensures multiset(x.config.volumes) == multiset(y.config.volumes)
    ensures multiset(x.config.networks) == multiset(y.config.networks)
    ensures x.serviceId == y.serviceId && x.appId == y.appId && x.imageName == y.imageName && x.state == y.state
    ensures x.appName == y.appName && x.serviceName == y.serviceName
    ensures x.config == y.config.(ports := x.config.ports, volumes := x.config.volumes, networks := x.config.networks)
  {
    assert Tidy(Unmark(x)).config == TidyConfig(x.config) && Tidy(Unmark(y)).config == TidyConfig(y.config);
    SortedDecides(x.config.ports, y.config.ports);
    SortedDecides(x.config.volumes, y.config.volumes);
    SortedDecides(x.config.networks, y.config.networks);
  }

  lemma SameElements(x: seq<string>, y: seq<string>)
    requires multiset(x) == multiset(y)
    ensures forall e :: e in x <==> e in y
    ensures |x| == |y|
  {
    forall e ensures e in x <==> e in y {
      assert e in x <==> e in multiset(x);
      assert e in y <==> e in multiset(y);
    }
    assert |x| == |multiset(x)| && |y| == |multiset(y)|;
  }

  lemma PortsMove(x: seq<string>, y: seq<string>)
    requires multiset(x) == multiset(y) && PlainPorts(x) && DistinctContainerPorts(x)
    ensures PlainPorts(y) && DistinctContainerPorts(y)
  {
    hide PlainPort, ContainerPort;
    SameElements(x, y);
    assert Distinct(x);
    DistinctMoves(x, y);
    forall i | 0 <= i < |y| ensures PlainPort(y[i]) {
      assert y[i] in x;
    }
    forall i, j | 0 <= i < j < |y| ensures ContainerPort(y[i]) != ContainerPort(y[j]) {
      assert y[i] in x && y[j] in x && y[i] != y[j];
    }
  }

  lemma PartsMove(x: seq<string>, y: seq<string>)
    requires multiset(x) == multiset(y) && TwoParts(x)
    ensures TwoParts(y)
  {
    hide TwoPart;
    SameElements(x, y);
    forall i | 0 <= i < |y| ensures TwoPart(y[i]) {
      assert y[i] in x;
    }
  }

  /** Being canonical does not depend on marks or on the order of lists. */
  lemma CanonicalMoves(x: Service, y: Service)
    requires Canonical(x) && Alike(x, y)
    ensures Canonical(y)
  {
    hide PlainPorts, DistinctContainerPorts, TwoParts, Tidy, PlainKeys, HasPrefix, ModeOf;
    AlikeLists(x, y);
    PortsMove(x.config.ports, y.config.ports);
    PartsMove(x.config.volumes, y.config.volumes);
    DistinctMoves(x.config.networks, y.config.networks);
    SameElements(x.config.networks, y.config.networks);
    SameElements(x.config.ports, y.config.ports);
    ModeAlike(x.config, y.config);
  }

  lemma ModeAlike(x: Config, y: Config)
    requires x == y.(ports := x.ports, volumes := x.volumes, networks := x.networks)
    ensures ModeOf(x) == ModeOf(y)
  {
  }

  lemma UpdateAlike(r: Service, x: Service, y: Service)
    requires Alike(x, y)
    ensures NeedsUpdate(r, x) == NeedsUpdate(r, y)
  {
    hide Tidy, ListsDiffer, EnvDiffers, SettingDiffers;
    AlikeLists(x, y);
    ListsDifferIff(r.config.ports, x.config.ports);
    ListsDifferIff(r.config.ports, y.config.ports);
    ListsDifferIff(r.config.volumes, x.config.volumes);
    ListsDifferIff(r.config.volumes, y.config.volumes);
    ListsDifferIff(r.config.networks, x.config.networks);
    ListsDifferIff(r.config.networks, y.config.networks);
  }

  lemma FaithfulAlike(x: Service, y: Service)
    requires Alike(x, y) && Faithful(x)
    ensures Faithful(y)
  {
    AlikeLists(x, y);
    assert PrintLabels(x) == PrintLabels(y);
  }

  lemma AlikeTidy(x: Service)
    ensures Alike(x, x) && Alike(x, Tidy(x)) && Alike(Tidy(x), x)
  {
    Replanning.TidyTwice(Unmark(x));
  }

  /** Two targets with the same services, alike in order. */
  ghost predicate AppsAlike(p: Apps, q: Apps) {
    && p.Keys == q.Keys
    && forall a | a in p :: ServicesAlike(p[a].services, q[a].services)
  }

  ghost predicate ServicesAlike(p: seq<Service>, q: seq<Service>) {
    |p| == |q| && forall i | 0 <= i < |p| :: Alike(p[i], q[i])
  }

  lemma TargetPlanned(current: Apps, target: Apps)
    ensures AppsAlike(target, TidyTargetApps(current, target))
  {
    hide Alike, Tidy, Compared;
    forall x ensures Alike(x, x) && Alike(x, Tidy(x)) {
      AlikeTidy(x);
    }
  }

  lemma MarksAlike(p: Apps, q: Apps, r: Apps)
    requires AppsAlike(p, q) && SameAppsButMarks(r, q)
    ensures AppsAlike(p, r)
  {
    hide Tidy;
    forall a | a in p ensures ServicesAlike(p[a].services, r[a].services) {
      assert ServicesAlike(p[a].services, q[a].services) && SameButMarks(r[a].services, q[a].services);
      forall i | 0 <= i < |p[a].services| ensures Alike(p[a].services[i], r[a].services[i]) {
        assert Unmark(r[a].services[i]) == Unmark(q[a].services[i]);
      }
    }
  }

  lemma {:induction false} FindAlike(p: seq<Service>, q: seq<Service>, s: nat)
    requires ServicesAlike(p, q)
    ensures FindFirst(p, s).Some? <==> FindFirst(q, s).Some?
    ensures FindFirst(p, s).Some? ==> Alike(FindFirst(p, s).value, FindFirst(q, s).value)
  {
    hide Alike;
    if p != [] {
      assert p[0].serviceId == q[0].serviceId by { AlikeLists(p[0], q[0]); }
      assert forall i | 0 <= i < |p| - 1 :: p[1..][i] == p[i + 1] && q[1..][i] == q[i + 1];
      FindAlike(p[1..], q[1..], s);
    }
  }

  /** Services found by the same ids are alike. */
  ghost predicate BothAlike(x: Option<Service>, y: Option<Service>) {
    (x.Some? <==> y.Some?) && (x.Some? ==> Alike(x.value, y.value))
  }

  lemma LookupAlike(p: Apps, q: Apps, a: nat, s: nat)
    requires AppsAlike(p, q)
    ensures BothAlike(Lookup(p, a, s), Lookup(q, a, s))
  {
    hide Alike;
    if a in p {
      FindAlike(p[a].services, q[a].services, s);
    }
  }
}
