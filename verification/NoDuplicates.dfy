/** At most one container per service over whole runs, under any failures, as
    long as the app and service names of a service id stay the same. */
module NoDuplicates {
  import opened Text
  import opened Types
  import opened Retry
  import opened Docker
  import opened StateHelpers
  import opened DockerSync
  import opened Planner
  import opened Executor
  import opened Isolation
  import opened PlanFacts
  import opened NetworkPlanning

  /** The app name and the service name of an (app id, service id) pair. */
  type Naming = (nat, nat) -> (string, string)

  predicate NamedBy(x: Service, naming: Naming) {
    (x.appName, x.serviceName) == naming(x.appId, x.serviceId)
  }

  ghost predicate AllNamed(apps: Apps, naming: Naming) {
    forall a, x | a in apps && x in apps[a].services :: Faithful(x) && NamedBy(x, naming)
  }

  /** A container that carries its service's labels and name. */
  predicate Registered(c: Container, naming: Naming) {
    var (appName, serviceName) := naming(AppIdOf(c), ServiceIdOf(c));
    && Sound(c) && Managed(c)
    && Label(c, APP_NAME) == appName && Label(c, SERVICE_NAME) == serviceName
    && c.name == ContainerName(appName, serviceName, ServiceIdOf(c))
  }

  ghost predicate Registry(d: DockerState, naming: Naming) {
    UniqueNames(d) && forall id | id in d.containers :: Registered(d.containers[id], naming)
  }

  ghost predicate OnePerPair(d: DockerState) {
    forall i, j | i in d.containers && j in d.containers && i != j ::
      AppIdOf(d.containers[i]) != AppIdOf(d.containers[j])
          || ServiceIdOf(d.containers[i]) != ServiceIdOf(d.containers[j])
  }

  ghost predicate Orderly(w: World, naming: Naming) {
    Registry(w.docker, naming) && AllNamed(w.apps, naming) && AllNamed(w.target, naming)
  }

  lemma RegistryUnique(d: DockerState, naming: Naming)
    requires Registry(d, naming)
    ensures OnePerPair(d)
  {
    hide Sound, ContainerName, AppIdOf, ServiceIdOf;
    forall i, j | i in d.containers && j in d.containers && i != j
      ensures AppIdOf(d.containers[i]) != AppIdOf(d.containers[j])
              || ServiceIdOf(d.containers[i]) != ServiceIdOf(d.containers[j])
    {
      assert d.containers[i].name != d.containers[j].name;
      assert Registered(d.containers[i], naming) && Registered(d.containers[j], naming);
    }
  }

  // ---- Docker's side ----

  /** Containers are old ones, status and networks aside, or a new one of `s`. */
  ghost predicate Derived(d: DockerState, d': DockerState, s: Option<Service>) {
    forall id | id in d'.containers ::
      || (id in d.containers && d'.containers[id].name == d.containers[id].name
          && d'.containers[id].labels == d.containers[id].labels)
      || (s.Some? && d'.containers[id].name == NameOf(s.value) && d'.containers[id].labels == PrintLabels(s.value))
  }

  lemma StatusDerived(d: DockerState, id: ContainerId, status: Status, s: Option<Service>)
    requires id in d.containers
    ensures Derived(d, WithStatus(d, id, status), s)
  {
    hide NameOf, PrintLabels;
  }

  lemma SameDerived(d: DockerState, d': DockerState, s: Option<Service>)
    requires forall id | id in d'.containers :: id in d.containers && d'.containers[id] == d.containers[id]
    ensures Derived(d, d', s)
  {
    hide NameOf, PrintLabels;
  }

  lemma CallsDerived(d: DockerState, id: ContainerId, fails: bool, s: Option<Service>)
    ensures Derived(d, Stop(d, id, fails).docker, s) && Derived(d, Pause(d, id, fails).docker, s)
    ensures Derived(d, Unpause(d, id, fails).docker, s) && Derived(d, Remove(d, id, fails).docker, s)
  {
    hide Derived, WithStatus;
    SameDerived(d, d, s);
    SameDerived(d, Remove(d, id, fails).docker, s);
    if id in d.containers {
      StatusDerived(d, id, Exited, s);
      StatusDerived(d, id, Held, s);
      StatusDerived(d, id, Up, s);
    }
  }

  lemma LaunchDerived(d: DockerState, s: Service, l: Luck)
    ensures Derived(d, Launch(d, s, l).docker, Some(s))
  {
    hide NameOf, PrintLabels, JoinNetworks, MergeEnv, PrintPorts, ParseBinds, PrintEnv, SharesNetwork, ModeOf,
         RestartOf;
  }

  lemma PulledDerived(d: DockerState, d0: DockerState, d': DockerState, s: Option<Service>)
    requires d.containers == d0.containers && Derived(d0, d', s)
    ensures Derived(d, d', s)
  {
    hide NameOf, PrintLabels;
  }

  lemma StartDerived(d: DockerState, s: Service, l: Luck)
    ensures Derived(d, Start(d, s, l).docker, Some(s))
  {
    hide NameOf, Launch, Startable, Derived, WithStatus;
    var pulled := PullWithRetry(d, s.imageName, l.failedPulls).docker;
    SameDerived(d, d, Some(s));
    SameDerived(d, pulled, Some(s));
    LaunchDerived(d, s, l);
    LaunchDerived(pulled, s, l);
    PulledDerived(d, pulled, Launch(pulled, s, l).docker, Some(s));
    if FindByName(d, NameOf(s)).Some? {
      StatusDerived(d, FindByName(d, NameOf(s)).value, Up, Some(s));
    }
  }

  /** The service record that a step may start from. */
  ghost function StartedBy(w: World, step: Step): Option<Service> {
    match step
    case StartContainer(_, s) => Some(s)
    case StartStoppedContainer(a, s, _) => Lookup(w.apps, a, s)
    case _ => None
  }

  lemma EffectDerived(p: Policy, w: World, step: Step, l: Luck)
    ensures Derived(w.docker, Effect(p, w, step, l), StartedBy(w, step))
  {
    hide Start, NameOf, PrintLabels, Stop, Pause, Unpause, Remove;
    match step
    case StartContainer(a, s) => StartDerived(w.docker, s, l);
    case StartStoppedContainer(a, s, id) =>
      if Lookup(w.apps, a, s).Some? {
        var service := Lookup(w.apps, a, s).value;
        var d := Remove(w.docker, id, l.fails).docker;
        CallsDerived(w.docker, id, l.fails, Some(service));
        StartDerived(d, service, l);
      }
    case StopContainer(a, s, id) => CallsDerived(w.docker, id, l.fails, None);
    case PauseContainer(a, s, id) => CallsDerived(w.docker, id, l.fails, None);
    case UnpauseContainer(a, s, id) => CallsDerived(w.docker, id, l.fails, None);
    case RemoveContainer(a, s, id) => CallsDerived(w.docker, id, l.fails, None);
    case _ => OtherSame(p, w, step, l);
  }

  lemma RegisteredFrom(c: Container, c': Container, naming: Naming)
    requires Registered(c, naming) && c'.name == c.name && c'.labels == c.labels
    ensures Registered(c', naming)
  {
    hide Dec, ParseNat, ContainerName;
  }

  lemma RegisteredNew(s: Service, c: Container, naming: Naming)
    requires Faithful(s) && NamedBy(s, naming) && c.name == NameOf(s) && c.labels == PrintLabels(s)
    ensures Registered(c, naming)
  {
    NameEnds(s);
    hide Dec, ParseNat, ContainerName;
  }

  lemma DerivedRegistered(d: DockerState, d': DockerState, s: Option<Service>, naming: Naming)
    requires forall id | id in d.containers :: Registered(d.containers[id], naming)
    requires Derived(d, d', s) && (s.Some? ==> Faithful(s.value) && NamedBy(s.value, naming))
    ensures forall id | id in d'.containers :: Registered(d'.containers[id], naming)
  {
    hide Registered, Faithful, NamedBy, NameOf, PrintLabels;
    forall id | id in d'.containers ensures Registered(d'.containers[id], naming) {
      var c' := d'.containers[id];
      if id in d.containers && c'.name == d.containers[id].name && c'.labels == d.containers[id].labels {
        RegisteredFrom(d.containers[id], c', naming);
      } else {
        RegisteredNew(s.value, c', naming);
      }
    }
  }

  // ---- The memory's side ----

  lemma NamedMarks(apps: Apps, apps': Apps, naming: Naming)
    requires AllNamed(apps, naming) && SameAppsButMarks(apps', apps)
    ensures AllNamed(apps', naming)
  {
    hide Faithful;
    forall a, y | a in apps' && y in apps'[a].services ensures Faithful(y) && NamedBy(y, naming) {
      var i :| 0 <= i < |apps'[a].services| && apps'[a].services[i] == y;
      var x := apps[a].services[i];
      assert x in apps[a].services && Unmark(y) == Unmark(x);
      FaithfulMarks(x, y);
    }
  }

  lemma NamedChange(apps: Apps, a: nat, s: nat, change: Service -> Service, naming: Naming)
    requires AllNamed(apps, naming)
    requires forall x: Service :: Faithful(x) && NamedBy(x, naming) ==> Faithful(change(x)) && NamedBy(change(x),
             naming)
    ensures AllNamed(ChangeService(apps, a, s, change), naming)
  {
    hide Faithful, NamedBy;
    var apps' := ChangeService(apps, a, s, change);
    forall b, y | b in apps' && y in apps'[b].services ensures Faithful(y) && NamedBy(y, naming) {
      if b == a {
        ChangeFirstMember(apps[a].services, s, change, y);
      }
    }
  }

  lemma NamedState(apps: Apps, a: nat, s: nat, state: RunState, naming: Naming)
    requires AllNamed(apps, naming)
    ensures AllNamed(UpdateState(apps, a, s, state), naming)
  {
    NamedChange(apps, a, s, (x: Service) => x.(state := Some(state)), naming);
  }

  lemma NamedRemove(apps: Apps, a: nat, s: nat, naming: Naming)
    requires AllNamed(apps, naming)
    ensures AllNamed(RemoveService(apps, a, s), naming)
  {
    hide Faithful, NamedBy;
  }

  lemma NamedEnlist(w: World, a: nat, s: Service, id: ContainerId, naming: Naming)
    requires AllNamed(w.apps, naming) && Faithful(s) && NamedBy(s, naming)
    ensures AllNamed(Enlist(w, a, s, id).apps, naming)
  {
    var added := s.(containerId := Some(id), status := Some(Up));
    assert PrintLabels(added) == PrintLabels(s);
    assert Faithful(added) && NamedBy(added, naming);
    NamedAdded(w.apps, a, s, id, naming);
    NamedChange(AddService(w.apps, a, s, id), a, s.serviceId, (x: Service) => x.(mark := Healthy), naming);
  }

  lemma NamedAdded(apps: Apps, a: nat, s: Service, id: ContainerId, naming: Naming)
    requires AllNamed(apps, naming)
    requires var added := s.(containerId := Some(id), status := Some(Up)); Faithful(added) && NamedBy(added, naming)
    ensures AllNamed(AddService(apps, a, s, id), naming)
  {
    hide Faithful, NamedBy;
  }

  lemma NamedBlame(w: World, a: nat, who: Who, kind: ErrorKind, naming: Naming)
    requires AllNamed(w.apps, naming)
    ensures AllNamed(Blame(w, a, who, kind).apps, naming)
  {
    hide AllNamed;
    MarkErrorSame(w.apps, a, who, kind);
    SameMarksRefl(w.apps);
    NamedMarks(w.apps, Blame(w, a, who, kind).apps, naming);
  }

  lemma NamedStart(w: World, a: nat, s: Service, l: Luck, naming: Naming)
    requires AllNamed(w.apps, naming) && Faithful(s) && NamedBy(s, naming)
    ensures AllNamed(ExecStart(w, a, s, l).world.apps, naming)
  {
    hide AllNamed, Start, Enlist, Blame, Faithful, NamedBy;
    var started := Start(w.docker, s, l);
    match started.id
    case Some(id) => NamedEnlist(w.(docker := started.docker), a, s, id, naming);
    case None => NamedBlame(w.(docker := started.docker), a, ById(s.serviceId), StartFailure, naming);
  }

  lemma NamedRestart(w: World, a: nat, s: nat, id: ContainerId, l: Luck, naming: Naming)
    requires AllNamed(w.apps, naming)
    ensures AllNamed(ExecRestart(w, a, s, id, l).world.apps, naming)
  {
    hide ExecStart, Remove, RemoveService, Blame, Faithful, NamedBy;
    match Lookup(w.apps, a, s)
    case None => NamedBlame(w, a, ById(s), StartFailure, naming);
    case Some(service) =>
      var removed := Remove(w.docker, id, l.fails);
      if removed.ok {
        NamedRemove(w.apps, a, s, naming);
        NamedStart(w.(docker := removed.docker, apps := RemoveService(w.apps, a, s)), a, service, l, naming);
      } else {
        NamedBlame(w.(docker := removed.docker), a, ById(s), StartFailure, naming);
      }
  }

  lemma NamedDownload(p: Policy, w: World, a: nat, image: string, l: Luck, naming: Naming)
    requires p.intervals != [] && AllNamed(w.apps, naming)
    ensures AllNamed(ExecDownload(p, w, a, image, l).world.apps, naming)
  {
    hide AllNamed, Blame, Pull, Allowed, AfterFailure, AfterSuccess, IsRetryableError;
    var key := ImageKey(image);
    var pulled := Pull(w.docker, image, l.failedPulls > 0);
    var after := AfterFailure(p, w.retry, key, l.error, IsRetryableError(l.error), w.now, l.jitter);
    NamedBlame(w, a, ByImage(image), ImagePullBackOff, naming);
    NamedBlame(w.(docker := pulled.docker, retry := after), a, ByImage(image), ImagePullBackOff, naming);
  }

  /** A start step takes its record from a state whose names are fixed. */
  ghost predicate StepNamed(step: Step, naming: Naming) {
    step.StartContainer? ==> Faithful(step.service) && NamedBy(step.service, naming)
  }

  lemma NamedStep(p: Policy, before: World, step: Step, l: Luck, naming: Naming)
    requires p.intervals != [] && AllNamed(before.apps, naming) && StepNamed(step, naming)
    ensures AllNamed(Exec(p, before, step, l).world.apps, naming)
  {
    hide AllNamed, Faithful, NamedBy, ExecStart, ExecRestart, ExecDownload, UpdateState, RemoveService;
    hide Stop, Pause, Unpause, Remove, MakeNetwork, DropNetwork, MakeVolume, DropVolume;
    var w := before.(now := before.now + l.elapsed);
    match step
    case DownloadImage(a, image) => NamedDownload(p, w, a, image, l, naming);
    case StopContainer(a, s, id) => NamedState(w.apps, a, s, Stopped, naming);
    case PauseContainer(a, s, id) => NamedState(w.apps, a, s, Paused, naming);
    case UnpauseContainer(a, s, id) => NamedState(w.apps, a, s, Running, naming);
    case StartStoppedContainer(a, s, id) => NamedRestart(w, a, s, id, l, naming);
    case RemoveContainer(a, s, id) => NamedRemove(w.apps, a, s, naming);
    case StartContainer(a, s) => NamedStart(w, a, s, l, naming);
    case _ =>
  }

  lemma TargetMarks(p: Policy, w: World, step: Step, l: Luck)
    requires p.intervals != []
    ensures SameAppsButMarks(Exec(p, w, step, l).world.target, w.target)
  {
    hide Stop, Pause, Unpause, Remove, MakeNetwork, DropNetwork, MakeVolume, DropVolume, Start, MarkError, Pull, Lookup;
    hide Allowed, AfterFailure, AfterSuccess, IsRetryableError, AddService, MarkRunning, UpdateState, RemoveService;
    hide SameAppsButMarks;
    SameMarksRefl(w.target);
    forall a, who, kind ensures SameAppsButMarks(MarkError(w.target, a, who, kind), w.target) {
      MarkErrorSame(w.target, a, who, kind);
    }
  }

  lemma OrderlyStep(p: Policy, w: World, step: Step, l: Luck, naming: Naming)
    requires p.intervals != [] && Orderly(w, naming) && StepNamed(step, naming)
    ensures Orderly(Exec(p, w, step, l).world, naming)
  {
    hide Exec, Effect, Registered, Faithful, NamedBy, UniqueNames, SameAppsButMarks;
    EffectIs(p, w, step, l);
    EffectKeepsNames(p, w, step, l);
    EffectDerived(p, w, step, l);
    var s := StartedBy(w, step);
    assert s.Some? ==> Faithful(s.value) && NamedBy(s.value, naming);
    DerivedRegistered(w.docker, Effect(p, w, step, l), s, naming);
    NamedStep(p, w, step, l, naming);
    TargetMarks(p, w, step, l);
    NamedMarks(w.target, Exec(p, w, step, l).world.target, naming);
  }

  // ---- Planning and syncing ----

  ghost predicate StepsNamed(steps: seq<Step>, naming: Naming) {
    forall i | 0 <= i < |steps| :: StepNamed(steps[i], naming)
  }

  lemma TidyNamed(x: Service, naming: Naming)
    requires Faithful(x) && NamedBy(x, naming)
    ensures Faithful(Tidy(x)) && NamedBy(Tidy(x), naming)
  {
    assert PrintLabels(Tidy(x)) == PrintLabels(x);
  }

  ghost predicate ServicesNamed(services: seq<Service>, naming: Naming) {
    forall x | x in services :: Faithful(x) && NamedBy(x, naming)
  }

  lemma PlanNamed(current: Apps, target: Apps, mayPull: Retryable, naming: Naming)
    requires AllNamed(target, naming)
    ensures StepsNamed(Plan(current, target, mayPull), naming)
  {
    hide Plan, Faithful, NamedBy, Tidy;
    var steps := Plan(current, target, mayPull);
    forall i | 0 <= i < |steps| ensures StepNamed(steps[i], naming) {
      if steps[i].StartContainer? {
        PlanArises(current, target, mayPull, steps[i]);
        var c, t, s :| OwnStep(steps[i].appId, s, c, t, steps[i])
                       && (t.Some? ==> t.value in ServicesOf(AppAt(target, steps[i].appId)));
        TidyNamed(t.value, naming);
      }
    }
  }

  lemma TidyServicesNamed(own: seq<Service>, other: seq<Service>, ownIsCurrent: bool, naming: Naming)
    requires ServicesNamed(own, naming)
    ensures ServicesNamed(TidyServices(own, other, ownIsCurrent), naming)
  {
    hide Faithful, NamedBy, Tidy, Compared;
    forall y | y in TidyServices(own, other, ownIsCurrent) ensures Faithful(y) && NamedBy(y, naming) {
      var i :| 0 <= i < |own| && y == TidyServices(own, other, ownIsCurrent)[i];
      TidyNamed(own[i], naming);
    }
  }

  lemma TidyAppsNamed(current: Apps, target: Apps, naming: Naming)
    requires AllNamed(current, naming) && AllNamed(target, naming)
    ensures AllNamed(TidyCurrentApps(current, target), naming) && AllNamed(TidyTargetApps(current, target), naming)
  {
    hide Faithful, NamedBy, TidyServices;
    forall a | a in current
      ensures ServicesNamed(TidyCurrentApps(current, target)[a].services, naming)
    {
      if a in target {
        TidyServicesNamed(current[a].services, target[a].services, true, naming);
      }
    }
    forall a | a in target
      ensures ServicesNamed(TidyTargetApps(current, target)[a].services, naming)
    {
      if a in current {
        TidyServicesNamed(target[a].services, current[a].services, false, naming);
      }
    }
  }

  lemma ReadNamed(id: ContainerId, c: Container, inspected: bool, naming: Naming)
    requires Registered(c, naming)
    ensures var x := Read(id, c, inspected); Faithful(x) && NamedBy(x, naming)
  {
    hide Faithful;
    ReadFaithful(id, c, inspected);
  }

  lemma {:induction false} SyncNamed(d: DockerState, listing: seq<ContainerId>, bad: set<ContainerId>, naming: Naming)
    requires forall id | id in d.containers :: Registered(d.containers[id], naming)
    ensures AllNamed(Sync(d.containers, listing, bad), naming)
  {
    hide Faithful, NamedBy, Registered, Read, Managed;
    if listing != [] {
      var n := |listing| - 1;
      var id := listing[n];
      SyncNamed(d, listing[..n], bad, naming);
      if id in d.containers {
        ReadNamed(id, d.containers[id], id !in bad, naming);
      }
    }
  }

  // ---- Runs ----

  lemma {:induction false} OrderlyExec(p: Policy, w: World, steps: seq<Step>, f: Fortune, base: nat, naming: Naming)
    requires p.intervals != [] && Orderly(w, naming) && StepsNamed(steps, naming)
    ensures Orderly(ExecAll(p, w, steps, f, base), naming)
  {
    hide Orderly, Exec, StepNamed;
    if steps != [] {
      var n := |steps| - 1;
      assert forall i | 0 <= i < n :: steps[..n][i] == steps[i];
      OrderlyExec(p, w, steps[..n], f, base, naming);
      OrderlyStep(p, ExecAll(p, w, steps[..n], f, base), steps[n], f(base + n), naming);
    }
  }

  /** No duplicates at any point of a round: after the sync and after each
      prefix of the plan, whatever has failed, a service has at most one
      container, and the invariant carries over to the next round. */
  lemma NoDuplicatesInRound(p: Policy, w: World, sl: SyncLuck, f: Fortune, naming: Naming, k: nat)
    requires p.intervals != [] && Orderly(w, naming)
    requires k <= |NextPlan(p, Resync(w, sl))|
    ensures var s := Resync(w, sl); OnePerPair(ExecAll(p, Planned(s), NextPlan(p, s)[..k], f, 0).docker)
    ensures Orderly(Round(p, w, sl, f), naming)
  {
    hide ExecAll, AllNamed, Plan, Registry, Sync, OnePerPair, StepNamed, TidyCurrentApps, TidyTargetApps, Answers;
    var s := Resync(w, sl);
    assert Registry(s.docker, naming) by { assert s.docker == w.docker; }
    assert forall id | id in w.docker.containers :: Registered(w.docker.containers[id], naming) by {
      RegistryMembers(w.docker, naming);
    }
    SyncNamed(w.docker, sl.listing, sl.inspectFails, naming);
    PlanNamed(s.apps, s.target, Answers(p, s), naming);
    TidyAppsNamed(s.apps, s.target, naming);
    var steps := NextPlan(p, s);
    OrderlyExec(p, Planned(s), steps, f, 0, naming);
    assert forall i | 0 <= i < k :: steps[..k][i] == steps[i];
    OrderlyExec(p, Planned(s), steps[..k], f, 0, naming);
    RegistryUnique(ExecAll(p, Planned(s), steps[..k], f, 0).docker, naming);
  }

  lemma RegistryMembers(d: DockerState, naming: Naming)
    requires Registry(d, naming)
    ensures forall id | id in d.containers :: Registered(d.containers[id], naming)
  {
  }

  /** Every new target keeps the names that the services have. */
  ghost predicate TurnsNamed(turns: seq<Turn>, naming: Naming) {
    forall i | 0 <= i < |turns| && turns[i].change.Some? :: AllNamed(turns[i].change.value, naming)
  }

  lemma OpeningOrderly(w: World, turn: Turn, naming: Naming)
    requires Orderly(w, naming) && (turn.change.Some? ==> AllNamed(turn.change.value, naming))
    ensures Orderly(Opening(w, turn), naming)
  {
    hide Registry, Faithful, NamedBy;
    OpeningIs(w, turn);
  }

  /** No duplicates over any number of rounds, under any failure pattern, with
      targets that change and agents that restart on the way. */
  lemma {:induction false} NoDuplicatesEver(p: Policy, w: World, turns: seq<Turn>, naming: Naming)
    requires p.intervals != [] && Orderly(w, naming) && TurnsNamed(turns, naming)
    ensures Orderly(Rounds(p, w, turns), naming)
    ensures OnePerPair(Rounds(p, w, turns).docker)
  {
    hide Registry, AllNamed, Round, OnePerPair, Opening;
    if turns != [] {
      var n := |turns| - 1;
      assert forall i | 0 <= i < n :: turns[..n][i] == turns[i];
      NoDuplicatesEver(p, w, turns[..n], naming);
      var w' := Rounds(p, w, turns[..n]);
      OpeningOrderly(w', turns[n], naming);
      NoDuplicatesInRound(p, Opening(w', turns[n]), turns[n].sync, turns[n].steps, naming, 0);
    }
    RegistryUnique(Rounds(p, w, turns).docker, naming);
  }
}
