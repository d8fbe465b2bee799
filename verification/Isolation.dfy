/** Whatever fails, a step touches the container and the record of its own
    service only, and never makes a second container for a service. */
module Isolation {
  import opened Text
  import opened Types
  import opened Retry
  import opened Docker
  import opened StateHelpers
  import opened DockerSync
  import opened Executor

  predicate EndsWith(s: string, suffix: string) {
    |suffix| <= |s| && s[|s| - |suffix|..] == suffix
  }

  /** The printed labels read back as the service's ids and names. */
  predicate Faithful(x: Service) {
    var labels := PrintLabels(x);
    && ParseNat(labels[APP_ID]) == Some(x.appId) && ParseNat(labels[SERVICE_ID]) == Some(x.serviceId)
    && labels[APP_NAME] == x.appName && labels[SERVICE_NAME] == x.serviceName
  }

  /** A container whose labels carry numbers, named after its service id. */
  predicate Sound(c: Container) {
    && APP_ID in c.labels && ParseNat(c.labels[APP_ID]).Some?
    && SERVICE_ID in c.labels && ParseNat(c.labels[SERVICE_ID]).Some?
    && EndsWith(c.name, "_" + Dec(ServiceIdOf(c)))
  }

  ghost predicate Sane(d: DockerState) {
    && UniqueNames(d)
    && forall id | id in d.containers :: id < d.nextId && Sound(d.containers[id])
  }

  ghost predicate Remembered(apps: Apps) {
    forall a, x | a in apps && x in apps[a].services :: Faithful(x)
  }

  /** The containers of one service. */
  function Slot(d: DockerState, s: nat): map<ContainerId, Container> {
    map id | id in d.containers && ServiceIdOf(d.containers[id]) == s :: d.containers[id]
  }

  /** Nothing but the containers of service `s` differs. */
  ghost predicate SameOutside(d: DockerState, d': DockerState, s: nat) {
    && (forall id | id in d.containers && ServiceIdOf(d.containers[id]) != s ::
          id in d'.containers && d'.containers[id] == d.containers[id])
    && (forall id | id in d'.containers && ServiceIdOf(d'.containers[id]) != s ::
          id in d.containers && d'.containers[id] == d.containers[id])
  }

  lemma SlotOutside(d: DockerState, d': DockerState, s: nat, t: nat)
    requires SameOutside(d, d', s) && s != t
    ensures Slot(d', t) == Slot(d, t)
  {
  }

  /** Ids are not reused and labels do not change. */
  ghost predicate Evolves(d: DockerState, d': DockerState) {
    && d.nextId <= d'.nextId
    && forall id | id in d'.containers && id < d.nextId ::
         id in d.containers && d'.containers[id].labels == d.containers[id].labels
  }

  lemma EvolvesTransitive(a: DockerState, b: DockerState, c: DockerState)
    requires Evolves(a, b) && Evolves(b, c)
    ensures Evolves(a, c)
  {
  }

  /** The id belongs to service `s`, whether or not its container still exists. */
  ghost predicate Owned(d: DockerState, id: ContainerId, s: nat) {
    id < d.nextId && (id in d.containers ==> ServiceIdOf(d.containers[id]) == s)
  }

  lemma OwnedLater(d: DockerState, d': DockerState, id: ContainerId, s: nat)
    requires Owned(d, id, s) && Evolves(d, d')
    ensures Owned(d', id, s)
  {
  }

  // ---- Docker calls ----

  /** What a call on behalf of service `s` keeps. */
  ghost predicate Gentle(d: DockerState, d': DockerState, s: nat) {
    Sane(d') && Evolves(d, d') && SameOutside(d, d', s)
  }

  lemma StatusFacts(c: Container, status: Status)
    ensures var c' := c.(status := status);
            (Sound(c) ==> Sound(c')) && ServiceIdOf(c') == ServiceIdOf(c) && AppIdOf(c') == AppIdOf(c)
  {
  }

  lemma StatusGentle(d: DockerState, id: ContainerId, s: nat, status: Status)
    requires Sane(d) && id in d.containers && ServiceIdOf(d.containers[id]) == s
    ensures Gentle(d, WithStatus(d, id, status), s)
  {
    hide Sound, ServiceIdOf;
    StatusFacts(d.containers[id], status);
  }

  lemma RemoveGentle(d: DockerState, id: ContainerId, s: nat, fails: bool)
    requires Sane(d) && Owned(d, id, s)
    ensures Gentle(d, Remove(d, id, fails).docker, s)
  {
    hide Sound, ServiceIdOf;
  }

  lemma SameGentle(d: DockerState, d': DockerState, s: nat)
    requires Sane(d) && d'.containers == d.containers && d'.nextId == d.nextId
    ensures Gentle(d, d', s)
  {
    hide Sound, ServiceIdOf;
  }

  lemma CallsGentle(d: DockerState, id: ContainerId, s: nat, fails: bool)
    requires Sane(d) && Owned(d, id, s)
    ensures Gentle(d, Stop(d, id, fails).docker, s)
    ensures Gentle(d, Pause(d, id, fails).docker, s)
    ensures Gentle(d, Unpause(d, id, fails).docker, s)
  {
    hide Gentle, WithStatus, Sound, ServiceIdOf;
    SameGentle(d, d, s);
    if id in d.containers {
      StatusGentle(d, id, s, Exited);
      StatusGentle(d, id, s, Held);
      StatusGentle(d, id, s, Up);
    }
  }

  // ---- Starting ----

  lemma NameEnds(s: Service)
    ensures EndsWith(NameOf(s), "_" + Dec(s.serviceId))
  {
    var head := SanitizeNamePart(s.appName) + "_" + SanitizeNamePart(s.serviceName);
    assert NameOf(s) == head + ("_" + Dec(s.serviceId));
  }

  /** A container that carries the service's name is the service's. */
  lemma NameDecides(s: Service, c: Container)
    requires Sound(c) && c.name == NameOf(s)
    ensures ServiceIdOf(c) == s.serviceId
  {
    hide NameOf, Dec, ServiceIdOf;
    NameEnds(s);
    var n, t := c.name, ServiceIdOf(c);
    var i, j := |n| - |"_" + Dec(t)|, |n| - |"_" + Dec(s.serviceId)|;
    assert n == n[..i] + ("_" + Dec(t)) && n == n[..j] + ("_" + Dec(s.serviceId));
    assert n == n[..i] + "_" + Dec(t) && n == n[..j] + "_" + Dec(s.serviceId);
    SuffixNumber(n[..i], t, n[..j], s.serviceId);
  }

  lemma PrintedFacts(s: Service, imageEnv: seq<string>, status: Status, networks: seq<string>)
    requires Faithful(s)
    ensures var c := PrintContainer(s, imageEnv).(status := status, networks := networks);
            && Sound(c) && c.name == NameOf(s)
            && AppIdOf(c) == s.appId && ServiceIdOf(c) == s.serviceId
            && Label(c, APP_NAME) == s.appName && Label(c, SERVICE_NAME) == s.serviceName
  {
    hide NameOf, PrintPorts, MergeEnv, ParseBinds, Dec, ParseNat;
    NameEnds(s);
  }

  lemma AddGentle(d: DockerState, c: Container, s: nat)
    requires Sane(d) && Sound(c) && ServiceIdOf(c) == s
    requires forall id | id in d.containers :: d.containers[id].name != c.name
    ensures Gentle(d, d.(containers := d.containers[d.nextId := c], nextId := d.nextId + 1), s)
  {
    hide Sound, ServiceIdOf;
  }

  lemma LaunchGentle(d: DockerState, s: Service, l: Luck)
    requires Sane(d) && Faithful(s)
    requires forall id | id in d.containers :: d.containers[id].name != NameOf(s)
    ensures Gentle(d, Launch(d, s, l).docker, s.serviceId)
  {
    hide Gentle, Sound, ServiceIdOf, NameOf, PrintContainer, JoinNetworks, Sane, Faithful;
    SameGentle(d, d, s.serviceId);
    var c := PrintContainer(s, l.imageEnv);
    PrintedFacts(s, l.imageEnv, c.status, c.networks);
    AddGentle(d, c, s.serviceId);
    var networks := JoinNetworks(d, s, s.config.networks, l.badNetworks);
    PrintedFacts(s, l.imageEnv, Up, networks);
    AddGentle(d, c.(status := Up, networks := networks), s.serviceId);
  }

  lemma PulledGentle(d: DockerState, d0: DockerState, s: nat, d': DockerState)
    requires d.containers == d0.containers && d.nextId == d0.nextId && Gentle(d0, d', s)
    ensures Gentle(d, d', s)
  {
    hide Sane, ServiceIdOf;
  }

  lemma SaneSame(d: DockerState, d': DockerState)
    requires Sane(d) && d'.containers == d.containers && d'.nextId == d.nextId
    ensures Sane(d')
  {
    hide Sound;
  }

  /** A start creates, starts or reuses a container of its own service only. */
  lemma StartGentle(d: DockerState, s: Service, l: Luck)
    requires Sane(d) && Faithful(s)
    ensures Gentle(d, Start(d, s, l).docker, s.serviceId)
  {
    hide Gentle, Sound, ServiceIdOf, NameOf, Launch, WithStatus, Faithful, Startable;
    SameGentle(d, d, s.serviceId);
    match FindByName(d, NameOf(s))
    case Some(id) =>
      NameDecides(s, d.containers[id]);
      StatusGentle(d, id, s.serviceId, Up);
    case None =>
      var pulled := PullWithRetry(d, s.imageName, l.failedPulls).docker;
      SaneSame(d, pulled);
      SameGentle(d, pulled, s.serviceId);
      LaunchGentle(d, s, l);
      LaunchGentle(pulled, s, l);
      PulledGentle(d, pulled, s.serviceId, Launch(pulled, s, l).docker);
  }

  // ---- Steps ----

  /** The service whose container the step works on, if there is one. */
  function ServiceOf(step: Step): Option<nat> {
    match step
    case StopContainer(_, s, _) => Some(s)
    case PauseContainer(_, s, _) => Some(s)
    case UnpauseContainer(_, s, _) => Some(s)
    case StartStoppedContainer(_, s, _) => Some(s)
    case RemoveContainer(_, s, _) => Some(s)
    case StartContainer(_, s) => Some(s.serviceId)
    case _ => None
  }

  /** A step as the planner makes it from a synced state. */
  ghost predicate StepSane(d: DockerState, step: Step) {
    match step
    case StopContainer(_, s, id) => Owned(d, id, s)
    case PauseContainer(_, s, id) => Owned(d, id, s)
    case UnpauseContainer(_, s, id) => Owned(d, id, s)
    case StartStoppedContainer(_, s, id) => Owned(d, id, s)
    case RemoveContainer(_, s, id) => Owned(d, id, s)
    case StartContainer(a, s) => s.appId == a && Faithful(s)
    case _ => true
  }

  lemma RestartGentle(d: DockerState, id: ContainerId, s: Service, l: Luck)
    requires Sane(d) && Owned(d, id, s.serviceId) && Faithful(s)
    ensures Gentle(d, Start(Remove(d, id, l.fails).docker, s, l).docker, s.serviceId)
  {
    hide Start, Sane, ServiceIdOf, Faithful;
    RemoveGentle(d, id, s.serviceId, l.fails);
    var d' := Remove(d, id, l.fails).docker;
    StartGentle(d', s, l);
    EvolvesTransitive(d, d', Start(d', s, l).docker);
  }

  lemma RememberedLookup(apps: Apps, a: nat, s: nat)
    requires Remembered(apps) && Lookup(apps, a, s).Some?
    ensures Faithful(Lookup(apps, a, s).value) && Lookup(apps, a, s).value.serviceId == s
  {
  }

  /** Docker's side of a step: sane, ids not reused, and nothing but the
      containers of the step's own service changed. */
  lemma EffectGentle(p: Policy, w: World, step: Step, l: Luck, t: nat)
    requires Sane(w.docker) && Remembered(w.apps) && StepSane(w.docker, step)
    requires ServiceOf(step).Some? ==> ServiceOf(step).value == t
    ensures Gentle(w.docker, Effect(p, w, step, l), t)
  {
    hide Gentle, Sane, Start, Stop, Pause, Unpause, Remove, MakeNetwork, DropNetwork, MakeVolume, DropVolume, Pull;
    hide Faithful, Owned;
    var d := w.docker;
    match step
    case StopContainer(a, s, id) => CallsGentle(d, id, s, l.fails);
    case PauseContainer(a, s, id) => CallsGentle(d, id, s, l.fails);
    case UnpauseContainer(a, s, id) => CallsGentle(d, id, s, l.fails);
    case RemoveContainer(a, s, id) => RemoveGentle(d, id, s, l.fails);
    case StartContainer(a, s) => StartGentle(d, s, l);
    case StartStoppedContainer(a, s, id) =>
      SameGentle(d, d, s);
      if Lookup(w.apps, a, s).Some? {
        RememberedLookup(w.apps, a, s);
        RemoveGentle(d, id, s, l.fails);
        RestartGentle(d, id, Lookup(w.apps, a, s).value, l);
      }
    case _ =>
      OtherSame(p, w, step, l);
      SameGentle(d, Effect(p, w, step, l), t);
  }

  lemma OtherSame(p: Policy, w: World, step: Step, l: Luck)
    requires ServiceOf(step).None?
    ensures Effect(p, w, step, l).containers == w.docker.containers
    ensures Effect(p, w, step, l).nextId == w.docker.nextId
  {
  }

  // ---- The in-memory record ----

  /** The records of service `t` are the same but for error marks. */
  ghost predicate RecordsKept(apps: Apps, apps': Apps, t: nat) {
    forall b :: Plain(Lookup(apps', b, t)) == Plain(Lookup(apps, b, t))
  }

  /** What a step keeps in memory on behalf of services other than `s`. */
  ghost predicate MemoryKept(w: World, w': World, s: Option<nat>, t: nat) {
    && Remembered(w'.apps)
    && SameAppsButMarks(w'.target, w.target)
    && (s != Some(t) ==> RecordsKept(w.apps, w'.apps, t))
  }

  lemma SameMarksRefl(apps: Apps)
    ensures SameAppsButMarks(apps, apps)
  {
  }

  lemma FaithfulMarks(x: Service, y: Service)
    requires Unmark(x) == Unmark(y) && Faithful(x)
    ensures Faithful(y)
  {
    assert PrintLabels(x) == PrintLabels(y);
  }

  lemma RememberedMarks(apps: Apps, apps': Apps)
    requires Remembered(apps) && SameAppsButMarks(apps', apps)
    ensures Remembered(apps')
  {
    hide Faithful;
    forall a, y | a in apps' && y in apps'[a].services ensures Faithful(y) {
      var i :| 0 <= i < |apps'[a].services| && apps'[a].services[i] == y;
      FaithfulMarks(apps[a].services[i], y);
    }
  }

  lemma BlameKept(w: World, a: nat, who: Who, kind: ErrorKind, s: Option<nat>, t: nat)
    requires Remembered(w.apps)
    ensures MemoryKept(w, Blame(w, a, who, kind), s, t)
  {
    hide Remembered, MarkError;
    var w' := Blame(w, a, who, kind);
    SameMarksRefl(w.target);
    SameMarksRefl(w.apps);
    MarkErrorSame(w.apps, a, who, kind);
    MarkErrorSame(w.target, a, who, kind);
    assert SameAppsButMarks(w'.apps, w.apps) && SameAppsButMarks(w'.target, w.target);
    RememberedMarks(w.apps, w'.apps);
    forall b ensures Plain(Lookup(w'.apps, b, t)) == Plain(Lookup(w.apps, b, t)) {
      LookupSame(w'.apps, w.apps, b, t);
    }
  }

  lemma {:induction false} ChangeFirstMember(services: seq<Service>, s: nat, change: Service -> Service, y: Service)
    requires y in ChangeFirst(services, s, change)
    ensures y in services || exists x :: x in services && y == change(x)
  {
    if services != [] {
      if services[0].serviceId == s {
        assert services[0] in services;
      } else if y != services[0] {
        ChangeFirstMember(services[1..], s, change, y);
      }
    }
  }

  lemma ChangeKept(apps: Apps, a: nat, s: nat, change: Service -> Service, t: nat)
    requires Remembered(apps)
    requires forall x: Service :: change(x).serviceId == x.serviceId && (Faithful(x) ==> Faithful(change(x)))
    ensures Remembered(ChangeService(apps, a, s, change))
    ensures s != t ==> RecordsKept(apps, ChangeService(apps, a, s, change), t)
  {
    hide Faithful;
    var apps' := ChangeService(apps, a, s, change);
    forall b, y | b in apps' && y in apps'[b].services ensures Faithful(y) {
      if b == a {
        ChangeFirstMember(apps[a].services, s, change, y);
      }
    }
    if s != t {
      forall b ensures Plain(Lookup(apps', b, t)) == Plain(Lookup(apps, b, t)) {
        LookupChange(apps, a, s, change, b, t);
      }
    }
  }

  lemma StateKept(apps: Apps, a: nat, s: nat, state: RunState, t: nat)
    requires Remembered(apps)
    ensures Remembered(UpdateState(apps, a, s, state))
    ensures s != t ==> RecordsKept(apps, UpdateState(apps, a, s, state), t)
  {
    hide Remembered;
    ChangeKept(apps, a, s, (x: Service) => x.(state := Some(state)), t);
  }

  lemma MarkKept(apps: Apps, a: nat, s: nat, t: nat)
    requires Remembered(apps)
    ensures Remembered(MarkRunning(apps, a, s))
    ensures s != t ==> RecordsKept(apps, MarkRunning(apps, a, s), t)
  {
    hide Remembered;
    ChangeKept(apps, a, s, (x: Service) => x.(mark := Healthy), t);
  }

  lemma RemoveKept(apps: Apps, a: nat, s: nat, t: nat)
    requires Remembered(apps)
    ensures Remembered(RemoveService(apps, a, s))
    ensures s != t ==> RecordsKept(apps, RemoveService(apps, a, s), t)
  {
    hide Faithful;
    if s != t {
      forall b ensures Plain(Lookup(RemoveService(apps, a, s), b, t)) == Plain(Lookup(apps, b, t)) {
        LookupRemove(apps, a, s, b, t);
      }
    }
  }

  lemma AddKept(apps: Apps, a: nat, s: Service, id: ContainerId, t: nat)
    requires Remembered(apps) && Faithful(s)
    ensures Remembered(AddService(apps, a, s, id))
    ensures s.serviceId != t ==> RecordsKept(apps, AddService(apps, a, s, id), t)
  {
    var added := s.(containerId := Some(id), status := Some(Up));
    assert PrintLabels(added) == PrintLabels(s);
    assert Faithful(added);
    hide Faithful;
    if s.serviceId != t {
      forall b ensures Plain(Lookup(AddService(apps, a, s, id), b, t)) == Plain(Lookup(apps, b, t)) {
        LookupAdd(apps, a, s, id, b, t);
      }
    }
  }

  lemma StartKept(w: World, a: nat, s: Service, l: Luck, t: nat)
    requires Remembered(w.apps) && Faithful(s)
    ensures MemoryKept(w, ExecStart(w, a, s, l).world, Some(s.serviceId), t)
  {
    hide Remembered, Faithful, AddService, MarkRunning, Start, Blame;
    SameMarksRefl(w.target);
    var started := Start(w.docker, s, l);
    match started.id
    case Some(id) =>
      AddKept(w.apps, a, s, id, t);
      MarkKept(AddService(w.apps, a, s, id), a, s.serviceId, t);
    case None =>
      BlameKept(w.(docker := started.docker), a, ById(s.serviceId), StartFailure, Some(s.serviceId), t);
  }

  lemma RestartKept(w: World, a: nat, s: nat, id: ContainerId, l: Luck, t: nat)
    requires Remembered(w.apps)
    ensures MemoryKept(w, ExecRestart(w, a, s, id, l).world, Some(s), t)
  {
    hide Remembered, Faithful, RemoveService, Remove, ExecStart, Blame;
    match Lookup(w.apps, a, s)
    case None => BlameKept(w, a, ById(s), StartFailure, Some(s), t);
    case Some(service) =>
      RememberedLookup(w.apps, a, s);
      var removed := Remove(w.docker, id, l.fails);
      if removed.ok {
        RemoveKept(w.apps, a, s, t);
        StartKept(w.(docker := removed.docker, apps := RemoveService(w.apps, a, s)), a, service, l, t);
      } else {
        BlameKept(w.(docker := removed.docker), a, ById(s), StartFailure, Some(s), t);
      }
  }

  lemma DownloadKept(p: Policy, w: World, a: nat, image: string, l: Luck, t: nat)
    requires p.intervals != [] && Remembered(w.apps)
    ensures MemoryKept(w, ExecDownload(p, w, a, image, l).world, None, t)
  {
    hide Remembered, Allowed, AfterFailure, AfterSuccess, Pull, Blame, IsRetryableError;
    SameMarksRefl(w.target);
    var key := ImageKey(image);
    var pulled := Pull(w.docker, image, l.failedPulls > 0);
    var after := AfterFailure(p, w.retry, key, l.error, IsRetryableError(l.error), w.now, l.jitter);
    BlameKept(w, a, ByImage(image), ImagePullBackOff, None, t);
    BlameKept(w.(docker := pulled.docker, retry := after), a, ByImage(image), ImagePullBackOff, None, t);
  }

  /** The memory's side of a step: only the record of its own service changes,
      error marks aside. */
  lemma MemoryGentle(p: Policy, before: World, step: Step, l: Luck, t: nat)
    requires p.intervals != [] && Remembered(before.apps) && StepSane(before.docker, step)
    ensures MemoryKept(before, Exec(p, before, step, l).world, ServiceOf(step), t)
  {
    hide Remembered, Faithful, ExecStart, ExecRestart, ExecDownload, UpdateState, RemoveService, Owned;
    hide Stop, Pause, Unpause, Remove, MakeNetwork, DropNetwork, MakeVolume, DropVolume;
    var w := before.(now := before.now + l.elapsed);
    SameMarksRefl(w.target);
    match step
    case DownloadImage(a, image) => DownloadKept(p, w, a, image, l, t);
    case StopContainer(a, s, id) => StateKept(w.apps, a, s, Stopped, t);
    case PauseContainer(a, s, id) => StateKept(w.apps, a, s, Paused, t);
    case UnpauseContainer(a, s, id) => StateKept(w.apps, a, s, Running, t);
    case StartStoppedContainer(a, s, id) => RestartKept(w, a, s, id, l, t);
    case RemoveContainer(a, s, id) => RemoveKept(w.apps, a, s, t);
    case StartContainer(a, s) => StartKept(w, a, s, l, t);
    case _ =>
  }

  // ---- Plans ----

  ghost predicate StepsSane(d: DockerState, steps: seq<Step>) {
    forall i | 0 <= i < |steps| :: StepSane(d, steps[i])
  }

  /** None of the steps works on service `t`. */
  predicate Avoids(steps: seq<Step>, t: nat) {
    forall i | 0 <= i < |steps| :: ServiceOf(steps[i]) != Some(t)
  }

  lemma StepSaneLater(d: DockerState, d': DockerState, step: Step)
    requires StepSane(d, step) && Evolves(d, d')
    ensures StepSane(d', step)
  {
    hide Faithful;
  }

  ghost predicate WorldSane(w: World) {
    Sane(w.docker) && Remembered(w.apps)
  }

  lemma ExecSane(p: Policy, w: World, step: Step, l: Luck, t: nat)
    requires p.intervals != [] && WorldSane(w) && StepSane(w.docker, step)
    ensures var w' := Exec(p, w, step, l).world;
            && WorldSane(w')
            && Evolves(w.docker, w'.docker)
            && SameAppsButMarks(w'.target, w.target)
            && (ServiceOf(step) != Some(t) ==>
                  Slot(w'.docker, t) == Slot(w.docker, t) && RecordsKept(w.apps, w'.apps, t))
  {
    hide Sane, Remembered, StepSane, Exec, Effect, SameOutside, Evolves, Slot;
    EffectIs(p, w, step, l);
    MemoryGentle(p, w, step, l, t);
    var own := ServiceOf(step).GetOr(t + 1);
    EffectGentle(p, w, step, l, own);
    if own != t {
      SlotOutside(w.docker, Effect(p, w, step, l), own, t);
    }
  }

  lemma SameMarksTransitive(x: Apps, y: Apps, z: Apps)
    requires SameAppsButMarks(x, y) && SameAppsButMarks(y, z)
    ensures SameAppsButMarks(x, z)
  {
    forall a | a in x
      ensures x[a].appId == z[a].appId && x[a].appName == z[a].appName && SameButMarks(x[a].services, z[a].services)
    {
      assert SameButMarks(x[a].services, y[a].services) && SameButMarks(y[a].services, z[a].services);
    }
  }

  lemma EvolvesRefl(d: DockerState)
    ensures Evolves(d, d)
  {
  }

  /** Minimal disturbance: executing sane steps leaves the containers and the
      record of every service they do not work on, whatever fails. */
  lemma {:induction false} MinimalDisturbance(p: Policy, w: World, steps: seq<Step>, f: Fortune, base: nat, t: nat)
    requires p.intervals != [] && WorldSane(w) && StepsSane(w.docker, steps)
    ensures var w' := ExecAll(p, w, steps, f, base);
            && WorldSane(w')
            && Evolves(w.docker, w'.docker)
            && SameAppsButMarks(w'.target, w.target)
            && (Avoids(steps, t) ==> Slot(w'.docker, t) == Slot(w.docker, t) && RecordsKept(w.apps, w'.apps, t))
  {
    hide WorldSane, StepSane, Exec, Evolves, SameAppsButMarks, Slot;
    if steps == [] {
      EvolvesRefl(w.docker);
      SameMarksRefl(w.target);
    } else {
      var n := |steps| - 1;
      assert forall i | 0 <= i < n :: steps[..n][i] == steps[i];
      MinimalDisturbance(p, w, steps[..n], f, base, t);
      var m := ExecAll(p, w, steps[..n], f, base);
      StepSaneLater(w.docker, m.docker, steps[n]);
      ExecSane(p, m, steps[n], f(base + n), t);
      var w' := Exec(p, m, steps[n], f(base + n)).world;
      EvolvesTransitive(w.docker, m.docker, w'.docker);
      SameMarksTransitive(w'.target, m.target, w.target);
    }
  }

  // ---- Synced records ----

  /** What is read of a sound container prints the same labels again. */
  lemma OwnKeys()
    ensures HasPrefix(APP_ID, "iotistic.") && HasPrefix(SERVICE_ID, "iotistic.")
    ensures HasPrefix(APP_NAME, "iotistic.") && HasPrefix(SERVICE_NAME, "iotistic.")
  {
    assert APP_ID[..9] == "iotistic." && SERVICE_ID[..9] == "iotistic.";
    assert APP_NAME[..9] == "iotistic." && SERVICE_NAME[..9] == "iotistic.";
  }

  /** The container's own labels win over the printed ones, and they are read
      as the record's ids and names. */
  lemma OwnLabelsRead(c: Container, key: string, printed: map<string, string>)
    requires HasPrefix(key, "iotistic.") && key in printed && (key !in c.labels ==> printed[key] == "")
    ensures key in printed + OwnLabels(c.labels) && (printed + OwnLabels(c.labels))[key] == Label(c, key)
  {
    hide HasPrefix;
  }

  lemma ReadFaithful(id: ContainerId, c: Container, inspected: bool)
    requires Sound(c)
    ensures Faithful(Read(id, c, inspected))
    ensures Read(id, c, inspected).containerId == Some(id) && Read(id, c, inspected).serviceId == ServiceIdOf(c)
  {
    var x := Read(id, c, inspected);
    OwnKeys();
    ParseDec(x.appId);
    ParseDec(x.serviceId);
    hide Dec, ParseNat, ReadEnv, ReadPorts, OwnNetworks, ReadMounts, HasPrefix, EndsWith;
    var printed := map[APP_ID := Dec(x.appId), APP_NAME := x.appName, SERVICE_ID := Dec(x.serviceId),
        SERVICE_NAME := x.serviceName];
    assert PrintLabels(x) == printed + x.config.labels;
    if inspected {
      OwnLabelsRead(c, APP_ID, printed);
      OwnLabelsRead(c, SERVICE_ID, printed);
      OwnLabelsRead(c, APP_NAME, printed);
      OwnLabelsRead(c, SERVICE_NAME, printed);
    }
  }
}
