/** Rebuilding the current state from what Docker lists and inspects. */
module DockerSync {
  import opened Text
  import opened Serialised
  import opened Types
  import opened Docker
  import opened StateHelpers

  function ServiceState(s: Status): Option<RunState> {
    match s
    case Up => Some(Running)
    case Held => Some(Paused)
    case Exited => Some(Stopped)
    case _ => None
  }

  function Label(c: Container, key: string): string {
    if key in c.labels then c.labels[key] else ""
  }

  function AppIdOf(c: Container): nat {
    ParseNat(Label(c, APP_ID)).GetOr(0)
  }

  function ServiceIdOf(c: Container): nat {
    ParseNat(Label(c, SERVICE_ID)).GetOr(0)
  }

  predicate Managed(c: Container) {
    APP_ID in c.labels
  }

  /** The entry names of `NetworkSettings.Networks`. */
  function ListedNetworks(c: Container): seq<string> {
    [c.mode] + c.networks
  }

  /** The app's own networks, without their prefix. */
  function OwnNetworks(a: nat, names: seq<string>): seq<string> {
    if names == [] then []
    else
      var r := OwnNetworks(a, names[..|names| - 1]);
      var n := names[|names| - 1];
      var prefix := Dec(a) + "_";
      if HasPrefix(n, prefix) then r + [n[|prefix|..]] else r
  }

  function ReadEnvEntry(env: Env, entry: string): Env {
    var parts := Split(entry, '=');
    if parts[0] == "" then env else Put(env, parts[0], Text.Join(parts[1..], '='))
  }

  function ReadEnv(entries: seq<string>): Env {
    if entries == [] then [] else ReadEnvEntry(ReadEnv(entries[..|entries| - 1]), entries[|entries| - 1])
  }

  function ReadMount(m: Mount): string {
    m.source + ":" + m.destination
  }

  function ReadMounts(mounts: seq<Mount>): seq<string> {
    seq(|mounts|, i requires 0 <= i < |mounts| => ReadMount(mounts[i]))
  }

  /** Docker lists a published port once per address family. */
  function PortLines(bindings: Env): seq<string> {
    if bindings == [] then []
    else
      var r := PortLines(bindings[..|bindings| - 1]);
      var b := bindings[|bindings| - 1];
      var private, public := ParseNat(b.key).GetOr(0), ParseNat(b.value).GetOr(0);
      if private == 0 || public == 0 then r
      else
        var line := Dec(public) + ":" + Dec(private);
        r + [line, line]
  }

  /** Only active containers have their ports listed. */
  function ReadPorts(c: Container): seq<string> {
    if Active(c.status) then Uniq(PortLines(c.bindings)) else []
  }

  function OwnLabels(labels: map<string, string>): map<string, string> {
    map k | k in labels && HasPrefix(k, "iotistic.") :: labels[k]
  }

  /** The record of one container; a failing inspection leaves the defaults. */
  function ReadConfig(c: Container, inspected: bool): Config {
    if inspected then
      Config(
        ReadEnv(c.env), ReadPorts(c), ReadMounts(c.mounts), OwnNetworks(AppIdOf(c), ListedNetworks(c)),
        Some(if c.mode == "" then "bridge" else c.mode), Some(if c.restart == "" then "no" else c.restart),
        OwnLabels(c.labels))
    else
      Config([], ReadPorts(c), [], [], Some("bridge"), Some("no"), map[])
  }

  function Read(id: ContainerId, c: Container, inspected: bool): Service {
    Service(
      ServiceIdOf(c), Label(c, SERVICE_NAME), c.image, AppIdOf(c), Label(c, APP_NAME), ServiceState(c.status),
      ReadConfig(c, inspected), Some(id), Some(c.status), Unmarked)
  }

  /** What chance decides about a sync: the listing order and failing calls. */
  datatype SyncLuck = SyncLuck(listing: seq<ContainerId>, listFails: bool, inspectFails: set<ContainerId>)

  function AddRead(apps: Apps, s: Service): Apps {
    var app := if s.appId in apps then apps[s.appId] else App(s.appId, s.appName, []);
    apps[s.appId := app.(services := app.services + [s])]
  }

  /** `syncStateFromDocker` over a listing of containers. */
  function Sync(containers: map<ContainerId, Container>, listing: seq<ContainerId>,
      inspectFails: set<ContainerId>): Apps {
    if listing == [] then map[]
    else
      var apps := Sync(containers, listing[..|listing| - 1], inspectFails);
      var id := listing[|listing| - 1];
      if id in containers && Managed(containers[id]) then
        AddRead(apps, Read(id, containers[id], id !in inspectFails))
      else apps
  }

  /** Docker lists every container once. */
  ghost predicate IsListing(d: DockerState, listing: seq<ContainerId>) {
    Distinct(listing) && forall id :: id in listing <==> id in d.containers
  }

  /** Pushing a record onto the services of its app, which is made if need be. */
  method PushService(apps: Apps, s: Service) returns (r: Apps)
    ensures r == AddRead(apps, s)
  {
    r := apps;
    if s.appId !in r {
      r := r[s.appId := App(s.appId, s.appName, [])];
    }
    var services := r[s.appId].services;
    r := r[s.appId := r[s.appId].(services := services + [s])];
  }

  method SyncStateFromDocker(docker: DockerManager, listing: seq<ContainerId>, inspectFails: set<ContainerId>)
    returns (apps: Apps)
    ensures apps == Sync(docker.containers, listing, inspectFails)
  {
    hide AddRead, Read, Managed;
    apps := map[];
    for i := 0 to |listing|
      invariant apps == Sync(docker.containers, listing[..i], inspectFails)
    {
      assert listing[..i + 1][..i] == listing[..i];
      var id := listing[i];
      if id in docker.containers && Managed(docker.containers[id]) {
        var s := Read(id, docker.containers[id], id !in inspectFails);
        apps := PushService(apps, s);
      }
    }
    assert listing[..|listing|] == listing;
  }

  // ---- What a sync finds ----

  /** At most one container per service, found under its own ids. */
  predicate OnePerService(containers: map<ContainerId, Container>) {
    forall i, j | i in containers && j in containers && i != j ::
      ServiceIdOf(containers[i]) != ServiceIdOf(containers[j])
  }

  ghost predicate AllManaged(containers: map<ContainerId, Container>) {
    forall id | id in containers :: Managed(containers[id])
  }

  ghost predicate Listed(containers: map<ContainerId, Container>, listing: seq<ContainerId>, a: nat, s: nat,
      id: ContainerId) {
    id in listing && id in containers && AppIdOf(containers[id]) == a && ServiceIdOf(containers[id]) == s
  }

  lemma LookupAddRead(apps: Apps, x: Service, a: nat, s: nat)
    ensures Lookup(AddRead(apps, x), a, s) ==
            if x.appId == a && x.serviceId == s && Lookup(apps, a, s).None? then Some(x) else Lookup(apps, a, s)
  {
    FindAppend(if x.appId in apps then apps[x.appId].services else [], x, s);
  }

  /** A listed container is found by its app and service id, and only listed
      containers are found. */
  lemma {:induction false} SyncFinds(containers: map<ContainerId, Container>, listing: seq<ContainerId>,
      bad: set<ContainerId>, a: nat, s: nat)
    requires OnePerService(containers) && AllManaged(containers) && Distinct(listing)
    ensures forall id | Listed(containers, listing, a, s, id) ::
              Lookup(Sync(containers, listing, bad), a, s) == Some(Read(id, containers[id], id !in bad))
    ensures (forall id :: !Listed(containers, listing, a, s, id)) ==> Lookup(Sync(containers, listing, bad), a, s).None?
  {
    if listing != [] {
      var n := |listing| - 1;
      var init, id := listing[..n], listing[n];
      SyncFinds(containers, init, bad, a, s);
      assert listing == init + [id];
      if id in containers {
        LookupAddRead(Sync(containers, init, bad), Read(id, containers[id], id !in bad), a, s);
        if Listed(containers, listing, a, s, id) {
          assert forall k | Listed(containers, listing, a, s, k) :: k == id;
          assert forall k :: !Listed(containers, init, a, s, k);
        } else {
          assert forall k :: Listed(containers, init, a, s, k) <==> Listed(containers, listing, a, s, k);
        }
      } else {
        assert forall k :: Listed(containers, init, a, s, k) <==> Listed(containers, listing, a, s, k);
      }
    }
  }

  /** The shape of a synced app: keyed by its id, not empty, each service once
      and backed by a listed container. */
  ghost predicate AppSynced(containers: map<ContainerId, Container>, listing: seq<ContainerId>, a: nat, app: App) {
    && app.appId == a
    && app.services != []
    && UniqueIds(app.services)
    && Backed(containers, listing, a, app.services)
  }

  ghost predicate Backed(containers: map<ContainerId, Container>, listing: seq<ContainerId>, a: nat,
      services: seq<Service>) {
    forall x | x in services :: x.containerId.Some? && Listed(containers, listing, a, x.serviceId, x.containerId.value)
  }

  ghost predicate Synced(containers: map<ContainerId, Container>, listing: seq<ContainerId>, apps: Apps) {
    forall a | a in apps :: AppSynced(containers, listing, a, apps[a])
  }

  lemma SyncedMore(containers: map<ContainerId, Container>, listing: seq<ContainerId>, id: ContainerId, apps: Apps)
    requires Synced(containers, listing, apps)
    ensures Synced(containers, listing + [id], apps)
  {
    forall a | a in apps ensures AppSynced(containers, listing + [id], a, apps[a]) {
      assert AppSynced(containers, listing, a, apps[a]);
    }
  }

  lemma AppGrows(containers: map<ContainerId, Container>, listing: seq<ContainerId>, a: nat,
      services: seq<Service>, x: Service)
    requires UniqueIds(services) && Backed(containers, listing, a, services)
    requires x.containerId.Some? && Listed(containers, listing, a, x.serviceId, x.containerId.value)
    requires forall y | y in services :: y.serviceId != x.serviceId
    ensures UniqueIds(services + [x]) && Backed(containers, listing, a, services + [x])
  {
    hide Listed;
  }

  lemma SyncedAdd(containers: map<ContainerId, Container>, listing: seq<ContainerId>, id: ContainerId, apps: Apps,
      x: Service)
    requires OnePerService(containers) && Synced(containers, listing, apps)
    requires id in containers && id !in listing
             && (x == Read(id, containers[id], true) || x == Read(id, containers[id], false))
    ensures Synced(containers, listing + [id], AddRead(apps, x))
  {
    hide ReadConfig, AppIdOf, ServiceIdOf, UniqueIds;
    SyncedMore(containers, listing, id, apps);
    var a := x.appId;
    var services := if a in apps then apps[a].services else [];
    assert Listed(containers, listing + [id], a, x.serviceId, id);
    forall y | y in services ensures y.serviceId != x.serviceId {
      assert AppSynced(containers, listing, a, apps[a]);
    }
    assert UniqueIds(services) && Backed(containers, listing + [id], a, services) by {
      if a in apps { assert AppSynced(containers, listing + [id], a, apps[a]); } else { NoServices(); }
    }
    AppGrows(containers, listing + [id], a, services, x);
    assert AppSynced(containers, listing + [id], a, AddRead(apps, x)[a]);
  }

  lemma NoServices()
    ensures UniqueIds([])
  {
  }

  lemma {:induction false} SyncShape(containers: map<ContainerId, Container>, listing: seq<ContainerId>,
      bad: set<ContainerId>)
    requires OnePerService(containers) && AllManaged(containers) && Distinct(listing)
    ensures Synced(containers, listing, Sync(containers, listing, bad))
  {
    if listing != [] {
      var n := |listing| - 1;
      var init, id := listing[..n], listing[n];
      SyncShape(containers, init, bad);
      assert listing == init + [id];
      assert id !in init;
      var apps := Sync(containers, init, bad);
      if id in containers {
        SyncedAdd(containers, init, id, apps, Read(id, containers[id], id !in bad));
      } else {
        SyncedMore(containers, init, id, apps);
      }
    }
  }
}
