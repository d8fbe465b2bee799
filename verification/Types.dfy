/** Services, apps, plan steps and the Docker-side records. */
module Types {
  import opened Text
  import opened Serialised

  type ContainerId = nat

  datatype RunState = Running | Stopped | Paused

  /** The compared part of a service's configuration. An absent list is empty. */
  datatype Config = Config(
    environment: Env,
    ports: seq<string>,
    volumes: seq<string>,
    networks: seq<string>,
    networkMode: Option<string>,
    restart: Option<string>,
    labels: map<string, string>)

  /** Docker's own container states. */
  datatype Status = Created | Up | Held | Exited | Dead | Restarting | Removing

  datatype ErrorKind = ImagePullBackOff | StartFailure
  datatype Mark = Unmarked | Healthy | Failing(kind: ErrorKind)

  datatype Service = Service(
    serviceId: nat,
    serviceName: string,
    imageName: string,
    appId: nat,
    appName: string,
    state: Option<RunState>,
    config: Config,
    containerId: Option<ContainerId>,
    status: Option<Status>,
    mark: Mark)

  datatype App = App(appId: nat, appName: string, services: seq<Service>)

  /** The `apps` record of a device state, keyed by app id. */
  type Apps = map<nat, App>

  datatype Step =
    | DownloadImage(appId: nat, imageName: string)
    | CreateVolume(appId: nat, volumeName: string)
    | CreateNetwork(appId: nat, networkName: string)
    | StopContainer(appId: nat, serviceId: nat, containerId: ContainerId)
    | PauseContainer(appId: nat, serviceId: nat, containerId: ContainerId)
    | UnpauseContainer(appId: nat, serviceId: nat, containerId: ContainerId)
    | StartStoppedContainer(appId: nat, serviceId: nat, containerId: ContainerId)
    | RemoveContainer(appId: nat, serviceId: nat, containerId: ContainerId)
    | StartContainer(appId: nat, service: Service)
    | RemoveNetwork(appId: nat, networkName: string)
    | RemoveVolume(appId: nat, volumeName: string)

  // ---- Docker ----

  datatype MountKind = Volume | Bind
  datatype Mount = Mount(kind: MountKind, source: string, destination: string)

  /** What Docker keeps of a container. `bindings` maps `port/tcp` to a host port;
      `networks` are the networks joined after the start. */
  datatype Container = Container(
    name: string,
    image: string,
    status: Status,
    bindings: Env,
    env: seq<string>,
    mounts: seq<Mount>,
    restart: string,
    mode: string,
    labels: map<string, string>,
    networks: seq<string>)

  datatype DockerState = DockerState(
    containers: map<ContainerId, Container>,
    networks: set<string>,
    volumes: set<string>,
    images: set<string>,
    nextId: ContainerId,
    pulls: multiset<string>)

  // ---- Lookups ----

  function Desired(s: Service): RunState {
    s.state.GetOr(Running)
  }

  predicate Truthy(o: Option<string>) {
    o.Some? && o.value != ""
  }

  function AppAt(apps: Apps, a: nat): Option<App> {
    if a in apps then Some(apps[a]) else None
  }

  /** `services.find(s => s.serviceId === id)` */
  function FindFirst(services: seq<Service>, id: nat): (r: Option<Service>)
    ensures r.None? <==> forall s | s in services :: s.serviceId != id
    ensures r.Some? ==> r.value in services && r.value.serviceId == id
  {
    if services == [] then None
    else if services[0].serviceId == id then Some(services[0])
    else FindFirst(services[1..], id)
  }

  /** `new Map(services.map(s => [s.serviceId, s])).get(id)`: the last one wins. */
  function FindLast(services: seq<Service>, id: nat): (r: Option<Service>)
    ensures r.None? <==> forall s | s in services :: s.serviceId != id
    ensures r.Some? ==> r.value in services && r.value.serviceId == id
  {
    if services == [] then None
    else
      var s := services[|services| - 1];
      assert services == services[..|services| - 1] + [s];
      if s.serviceId == id then Some(s) else FindLast(services[..|services| - 1], id)
  }

  function Ids(services: seq<Service>): (ids: seq<nat>)
    ensures |ids| == |services|
  {
    seq(|services|, i requires 0 <= i < |services| => services[i].serviceId)
  }

  predicate UniqueIds(services: seq<Service>) {
    forall i, j | 0 <= i < j < |services| :: services[i].serviceId != services[j].serviceId
  }

  /** With unique ids every search for an id finds the same service. */
  lemma FindUnique(services: seq<Service>, k: nat)
    requires UniqueIds(services) && k < |services|
    ensures FindFirst(services, services[k].serviceId) == Some(services[k])
    ensures FindLast(services, services[k].serviceId) == Some(services[k])
  {
    var id := services[k].serviceId;
    assert services[k] in services;
    var f, l := FindFirst(services, id).value, FindLast(services, id).value;
    var i :| 0 <= i < |services| && services[i] == f;
    var j :| 0 <= j < |services| && services[j] == l;
  }

  function Lookup(apps: Apps, a: nat, s: nat): Option<Service> {
    if a in apps then FindFirst(apps[a].services, s) else None
  }

  /** A service record without its error mark. */
  function Unmark(s: Service): Service {
    s.(mark := Unmarked)
  }

  function Plain(o: Option<Service>): Option<Service> {
    match o
    case Some(s) => Some(Unmark(s))
    case None => None
  }
}
