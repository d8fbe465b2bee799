/** The Docker side: what each call of the Docker manager does to the daemon's
    state, when Docker refuses, and what a failing call leaves behind. */
module Docker {
  import opened Text
  import opened Serialised
  import opened Types

  /** What chance decides about one step: which of its Docker calls fail for
      reasons of their own, how many pulls fail in a row, which networks cannot
      be joined, the variables the image brings, and the time that passes. */
  datatype Luck = Luck(
    fails: bool,
    failedPulls: nat,
    error: string,
    jitter: real,
    find: bool,
    create: bool,
    start: bool,
    badNetworks: set<string>,
    imageEnv: seq<string>,
    elapsed: nat)

  /** Nothing fails unless Docker must refuse. */
  predicate Benign(l: Luck) {
    !l.fails && l.failedPulls == 0 && !l.find && !l.create && !l.start && l.badNetworks == {}
  }

  datatype Reply = Reply(docker: DockerState, ok: bool)
  datatype Started = Started(docker: DockerState, id: Option<ContainerId>)

  predicate Active(s: Status) {
    s == Up || s == Held || s == Restarting
  }

  function WithStatus(d: DockerState, id: ContainerId, s: Status): DockerState
    requires id in d.containers
  {
    d.(containers := d.containers[id := d.containers[id].(status := s)])
  }

  // ---- Printing a service into a container ----

  /** The replacement of one character in `sanitizeNamePart`. */
  function SafeChar(c: char): char {
    if 'a' <= c <= 'z' || 'A' <= c <= 'Z' || IsDigit(c) || c == '_' || c == '.' || c == '-' then c else '_'
  }

  function SanitizeNamePart(s: string): string {
    seq(|s|, i requires 0 <= i < |s| => SafeChar(s[i]))
  }

  function ContainerName(appName: string, serviceName: string, serviceId: nat): string {
    SanitizeNamePart(appName) + "_" + SanitizeNamePart(serviceName) + "_" + Dec(serviceId)
  }

  function NameOf(s: Service): string {
    ContainerName(s.appName, s.serviceName, s.serviceId)
  }

  /** The bindings map after one port mapping has been entered. */
  function BindPort(bindings: Env, mapping: string): Env {
    var parts := Split(mapping, ':');
    if |parts| < 2 || parts[0] == "" || parts[1] == "" then bindings
    else Put(bindings, parts[1] + "/tcp", parts[0])
  }

  function PrintPorts(ports: seq<string>): Env {
    if ports == [] then [] else BindPort(PrintPorts(ports[..|ports| - 1]), ports[|ports| - 1])
  }

  function PrintEnv(env: Env): seq<string> {
    seq(|env|, i requires 0 <= i < |env| => env[i].key + "=" + env[i].value)
  }

  function KeyOfEntry(entry: string): string {
    Split(entry, '=')[0]
  }

  /** Docker adds the image's variables whose keys the caller did not set. */
  function MergeEnv(given: seq<string>, imageEnv: seq<string>): seq<string> {
    if imageEnv == [] then given
    else
      var r := MergeEnv(given, imageEnv[..|imageEnv| - 1]);
      var entry := imageEnv[|imageEnv| - 1];
      if exists i | 0 <= i < |r| :: KeyOfEntry(r[i]) == KeyOfEntry(entry) then r else r + [entry]
  }

  /** How Docker reads a bind of two parts; a third part is a mode. */
  function ParseBind(volume: string): Mount {
    var parts := Split(volume, ':');
    var kind := if HasPrefix(volume, "/") then Bind else Volume;
    if |parts| < 2 then Mount(Volume, "", volume) else Mount(kind, parts[0], parts[1])
  }

  function ParseBinds(volumes: seq<string>): seq<Mount> {
    seq(|volumes|, i requires 0 <= i < |volumes| => ParseBind(volumes[i]))
  }

  predicate SharesNetwork(mode: string) {
    mode == "host" || HasPrefix(mode, "container:")
  }

  /** Docker joins a container to further networks unless it has none of its own. */
  predicate Joinable(mode: string) {
    !SharesNetwork(mode) && mode != "none"
  }

  function ModeOf(c: Config): string {
    if Truthy(c.networkMode) then c.networkMode.value else "bridge"
  }

  function RestartOf(c: Config): string {
    if Truthy(c.restart) then c.restart.value else "unless-stopped"
  }

  const APP_ID := "iotistic.app-id"
  const APP_NAME := "iotistic.app-name"
  const SERVICE_ID := "iotistic.service-id"
  const SERVICE_NAME := "iotistic.service-name"

  function PrintLabels(s: Service): map<string, string> {
    map[APP_ID := Dec(s.appId), APP_NAME := s.appName, SERVICE_ID := Dec(s.serviceId), SERVICE_NAME := s.serviceName]
    + s.config.labels
  }

  function PrintContainer(s: Service, imageEnv: seq<string>): Container {
    Container(
      NameOf(s), s.imageName, Created,
      if SharesNetwork(ModeOf(s.config)) then [] else PrintPorts(s.config.ports),
      MergeEnv(PrintEnv(s.config.environment), imageEnv),
      ParseBinds(s.config.volumes),
      RestartOf(s.config), ModeOf(s.config), PrintLabels(s), [])
  }

  // ---- Docker calls ----

  function Stop(d: DockerState, id: ContainerId, fails: bool): Reply {
    if fails || id !in d.containers then Reply(d, false)
    else if Active(d.containers[id].status) then Reply(WithStatus(d, id, Exited), true)
    else Reply(d, true)
  }

  function Pause(d: DockerState, id: ContainerId, fails: bool): Reply {
    if fails || id !in d.containers || d.containers[id].status != Up then Reply(d, false)
    else Reply(WithStatus(d, id, Held), true)
  }

  function Unpause(d: DockerState, id: ContainerId, fails: bool): Reply {
    if fails || id !in d.containers || d.containers[id].status != Held then Reply(d, false)
    else Reply(WithStatus(d, id, Up), true)
  }

  /** A missing container counts as removed; an active one is not removed. */
  function Remove(d: DockerState, id: ContainerId, fails: bool): Reply {
    if fails then Reply(d, false)
    else if id !in d.containers then Reply(d, true)
    else if Active(d.containers[id].status) then Reply(d, false)
    else Reply(d.(containers := d.containers - {id}), true)
  }

  function MakeNetwork(d: DockerState, name: string, fails: bool): Reply {
    if fails then Reply(d, false) else Reply(d.(networks := d.networks + {name}), true)
  }

  ghost predicate InUse(d: DockerState, network: string) {
    exists id | id in d.containers ::
      Active(d.containers[id].status) && (network in d.containers[id].networks || network == d.containers[id].mode)
  }

  /** Docker keeps a network that an active container is attached to. */
  ghost function DropNetwork(d: DockerState, name: string, fails: bool): Reply {
    if name !in d.networks then Reply(d, true)
    else if fails || InUse(d, name) then Reply(d, false)
    else Reply(d.(networks := d.networks - {name}), true)
  }

  function MakeVolume(d: DockerState, name: string, fails: bool): Reply {
    if fails then Reply(d, false) else Reply(d.(volumes := d.volumes + {name}), true)
  }

  /** A failing volume removal is logged and forgotten. */
  function DropVolume(d: DockerState, name: string, fails: bool): Reply {
    if fails then Reply(d, true) else Reply(d.(volumes := d.volumes - {name}), true)
  }

  function LogPulls(d: DockerState, image: string, n: nat): DockerState {
    d.(pulls := d.pulls[image := d.pulls[image] + n])
  }

  function Pull(d: DockerState, image: string, fails: bool): Reply {
    var d' := LogPulls(d, image, 1);
    if fails then Reply(d', false) else Reply(d'.(images := d'.images + {image}), true)
  }

  /** Up to three pulls in a row. */
  function PullWithRetry(d: DockerState, image: string, failedPulls: nat): Reply {
    if failedPulls >= 3 then Reply(LogPulls(d, image, 3), false)
    else
      var d' := LogPulls(d, image, failedPulls + 1);
      Reply(d'.(images := d'.images + {image}), true)
  }

  predicate UniqueNames(d: DockerState) {
    forall i, j | i in d.containers && j in d.containers && i != j :: d.containers[i].name != d.containers[j].name
  }

  ghost function FindByName(d: DockerState, name: string): (r: Option<ContainerId>)
    ensures r.None? <==> forall id | id in d.containers :: d.containers[id].name != name
    ensures r.Some? ==> r.value in d.containers && d.containers[r.value].name == name
  {
    if exists id :: id in d.containers && d.containers[id].name == name then
      var id :| id in d.containers && d.containers[id].name == name;
      Some(id)
    else None
  }

  predicate Startable(d: DockerState, c: Container) {
    (c.status == Created || c.status == Exited) && forall n | n in c.networks :: n in d.networks
  }

  /** The networks joined after trying `names` one by one. */
  function JoinNetworks(d: DockerState, s: Service, names: seq<string>, bad: set<string>): seq<string> {
    if names == [] then []
    else
      var joined := JoinNetworks(d, s, names[..|names| - 1], bad);
      var n := names[|names| - 1];
      if CanJoin(d, s, n, bad, joined) then joined + [Scoped(s.appId, n)] else joined
  }

  predicate CanJoin(d: DockerState, s: Service, n: string, bad: set<string>, joined: seq<string>) {
    var full := Scoped(s.appId, n);
    n !in bad && full in d.networks && Joinable(ModeOf(s.config)) && full !in joined && full != ModeOf(s.config)
  }

  /** Create, start and connect a new container, the image being present. */
  function Launch(d: DockerState, s: Service, l: Luck): Started {
    if l.create then Started(d, None)
    else
      var id := d.nextId;
      var c := PrintContainer(s, l.imageEnv);
      var d' := d.(containers := d.containers[id := c], nextId := id + 1);
      if l.start then Started(d', None)
      else
        var up := c.(status := Up, networks := JoinNetworks(d, s, s.config.networks, l.badNetworks));
        Started(d'.(containers := d.containers[id := up]), Some(id))
  }

  /** `startContainer`: a container with the service's name is reused. */
  ghost function Start(d: DockerState, s: Service, l: Luck): Started {
    if l.find then Started(d, None)
    else
      match FindByName(d, NameOf(s))
      case Some(id) =>
        if Active(d.containers[id].status) then Started(d, Some(id))
        else if l.start || !Startable(d, d.containers[id]) then Started(d, None)
        else Started(WithStatus(d, id, Up), Some(id))
      case None =>
        if s.imageName in d.images then Launch(d, s, l)
        else
          var pulled := PullWithRetry(d, s.imageName, l.failedPulls);
          if pulled.ok then Launch(pulled.docker, s, l) else Started(pulled.docker, None)
  }

  // ---- The daemon and its manager as an object ----

  class DockerManager {
    var containers: map<ContainerId, Container>
    var networks: set<string>
    var volumes: set<string>
    var images: set<string>
    var nextId: ContainerId
    var pulls: multiset<string>

    ghost function State(): DockerState
      reads this
    {
      DockerState(containers, networks, volumes, images, nextId, pulls)
    }

    method SetStatus(id: ContainerId, s: Status)
      requires id in containers
      modifies this
      ensures State() == WithStatus(old(State()), id, s)
    {
      containers := containers[id := containers[id].(status := s)];
    }

    method StopContainer(id: ContainerId, fails: bool) returns (ok: bool)
      modifies this
      ensures Reply(State(), ok) == Stop(old(State()), id, fails)
    {
      if fails || id !in containers {
        return false;
      }
      if Active(containers[id].status) {
        SetStatus(id, Exited);
      }
      return true;
    }

    method PauseContainer(id: ContainerId, fails: bool) returns (ok: bool)
      modifies this
      ensures Reply(State(), ok) == Pause(old(State()), id, fails)
    {
      if fails || id !in containers || containers[id].status != Up {
        return false;
      }
      SetStatus(id, Held);
      return true;
    }

    method UnpauseContainer(id: ContainerId, fails: bool) returns (ok: bool)
      modifies this
      ensures Reply(State(), ok) == Unpause(old(State()), id, fails)
    {
      if fails || id !in containers || containers[id].status != Held {
        return false;
      }
      SetStatus(id, Up);
      return true;
    }

    method RemoveContainer(id: ContainerId, fails: bool) returns (ok: bool)
      modifies this
      ensures Reply(State(), ok) == Remove(old(State()), id, fails)
    {
      if fails {
        return false;
      }
      if id in containers {
        if Active(containers[id].status) {
          return false;
        }
        containers := containers - {id};
      }
      return true;
    }

    method CreateNetwork(name: string, fails: bool) returns (ok: bool)
      modifies this
      ensures Reply(State(), ok) == MakeNetwork(old(State()), name, fails)
    {
      if !fails {
        networks := networks + {name};
      }
      return !fails;
    }

    method RemoveNetwork(name: string, fails: bool) returns (ok: bool)
      modifies this
      ensures Reply(State(), ok) == DropNetwork(old(State()), name, fails)
    {
      if name !in networks {
        return true;
      }
      var used := exists id | id in containers ::
        Active(containers[id].status) && (name in containers[id].networks || name == containers[id].mode);
      assert used == InUse(State(), name);
      if fails || used {
        return false;
      }
      networks := networks - {name};
      return true;
    }

    method CreateVolume(name: string, fails: bool) returns (ok: bool)
      modifies this
      ensures Reply(State(), ok) == MakeVolume(old(State()), name, fails)
    {
      if !fails {
        volumes := volumes + {name};
      }
      return !fails;
    }

    method RemoveVolume(name: string, fails: bool) returns (ok: bool)
      modifies this
      ensures Reply(State(), ok) == DropVolume(old(State()), name, fails)
    {
      if !fails {
        volumes := volumes - {name};
      }
      return true;
    }

    method PullImage(image: string, fails: bool) returns (ok: bool)
      modifies this
      ensures Reply(State(), ok) == Pull(old(State()), image, fails)
    {
      pulls := pulls[image := pulls[image] + 1];
      if !fails {
        images := images + {image};
      }
      return !fails;
    }

    method PullImageWithRetry(image: string, failedPulls: nat) returns (ok: bool)
      modifies this
      ensures Reply(State(), ok) == PullWithRetry(old(State()), image, failedPulls)
    {
      var attempt := 0;
      while attempt < 3
        invariant 0 <= attempt <= 3 && attempt <= failedPulls
        invariant State() == LogPulls(old(State()), image, attempt)
      {
        ok := PullImage(image, attempt < failedPulls);
        if ok {
          return true;
        }
        attempt := attempt + 1;
      }
      return false;
    }

    /** `startContainer` */
    method StartContainer(s: Service, l: Luck) returns (id: Option<ContainerId>)
      requires UniqueNames(State())
      modifies this
      ensures Started(State(), id) == Start(old(State()), s, l)
    {
      if l.find {
        return None;
      }
      var name := NameOf(s);
      if existing :| existing in containers && containers[existing].name == name {
        assert FindByName(State(), name) == Some(existing);
        if Active(containers[existing].status) {
          return Some(existing);
        }
        var c := containers[existing];
        if l.start || !(c.status == Created || c.status == Exited) || (exists n | n in c.networks :: n !in networks) {
          return None;
        }
        SetStatus(existing, Up);
        return Some(existing);
      }
      if s.imageName !in images {
        var ok := PullImageWithRetry(s.imageName, l.failedPulls);
        if !ok {
          return None;
        }
      }
      id := LaunchContainer(s, l);
    }

    method PrintBindings(ports: seq<string>) returns (bindings: Env)
      ensures bindings == PrintPorts(ports)
    {
      bindings := [];
      for i := 0 to |ports|
        invariant bindings == PrintPorts(ports[..i])
      {
        bindings := BindPort(bindings, ports[i]);
        assert ports[..i + 1][..i] == ports[..i];
      }
      assert ports[..|ports|] == ports;
    }

    /** Joining the networks one by one; a failing one is skipped. */
    method ConnectNetworks(s: Service, bad: set<string>) returns (joined: seq<string>)
      ensures joined == JoinNetworks(State(), s, s.config.networks, bad)
    {
      var mode := ModeOf(s.config);
      joined := [];
      for i := 0 to |s.config.networks|
        invariant joined == JoinNetworks(State(), s, s.config.networks[..i], bad)
      {
        var n := s.config.networks[i];
        assert s.config.networks[..i + 1][..i] == s.config.networks[..i];
        if n !in bad && Scoped(s.appId, n) in networks && Joinable(mode)
           && Scoped(s.appId, n) !in joined && Scoped(s.appId, n) != mode {
          joined := joined + [Scoped(s.appId, n)];
        }
      }
      assert s.config.networks[..|s.config.networks|] == s.config.networks;
    }

    method LaunchContainer(s: Service, l: Luck) returns (id: Option<ContainerId>)
      modifies this
      ensures Started(State(), id) == Launch(old(State()), s, l)
    {
      hide JoinNetworks, PrintPorts, MergeEnv, ParseBinds, NameOf, PrintLabels, SharesNetwork, ModeOf, RestartOf,
           PrintEnv;
      if l.create {
        return None;
      }
      var joined := ConnectNetworks(s, l.badNetworks);
      var bindings := PrintBindings(s.config.ports);
      var mode := ModeOf(s.config);
      if SharesNetwork(mode) {
        bindings := [];
      }
      var c := Container(
        NameOf(s), s.imageName, Created, bindings, MergeEnv(PrintEnv(s.config.environment), l.imageEnv),
        ParseBinds(s.config.volumes), RestartOf(s.config), mode, PrintLabels(s), []);
      var newId := nextId;
      containers := containers[newId := c];
      nextId := nextId + 1;
      if l.start {
        return None;
      }
      containers := containers[newId := c.(status := Up, networks := joined)];
      return Some(newId);
    }
  }
}
