/** What the steps planned for one service make of its container when Docker
    refuses only what it must. */
module Outcomes {
  import opened Text
  import opened Types
  import opened Retry
  import opened Docker
  import opened StateHelpers
  import opened DockerSync
  import opened Planner
  import opened Executor
  import opened Isolation
  import opened RoundTrip

  /** No step of the round meets a failure of Docker's own making. */
  ghost predicate Calm(f: Fortune) {
    forall i :: Benign(f(i))
  }

  /** The container that a fresh start of `x` leaves. */
  function Launched(d: DockerState, x: Service, imageEnv: seq<string>): Container {
    StartedContainer(d, x, imageEnv, Up)
  }

  ghost predicate IsLaunched(c: Container, d: DockerState, x: Service) {
    exists imageEnv :: c == Launched(d, x, imageEnv)
  }

  lemma {:induction false} JoinSame(d: DockerState, d': DockerState, x: Service, names: seq<string>, bad: set<string>)
    requires forall n | n in names :: Scoped(x.appId, n) in d.networks <==> Scoped(x.appId, n) in d'.networks
    ensures JoinNetworks(d, x, names, bad) == JoinNetworks(d', x, names, bad)
  {
    hide Scoped, Joinable, ModeOf;
    if names != [] {
      var n := |names| - 1;
      assert names[n] in names;
      JoinSame(d, d', x, names[..n], bad);
    }
  }

  // ---- One container per service ----

  /** The containers of service `s`: none, or one with this content. */
  ghost predicate Holds(d: DockerState, s: nat, c: Option<Container>) {
    match c
    case None => Slot(d, s) == map[]
    case Some(x) => exists id: ContainerId :: Slot(d, s) == map[id := x]
  }

  lemma SlotOne(d: DockerState, s: nat, id: ContainerId, c: Container)
    requires Slot(d, s) == map[id := c]
    ensures id in d.containers && d.containers[id] == c && ServiceIdOf(c) == s
    ensures forall i | i in d.containers && ServiceIdOf(d.containers[i]) == s :: i == id
  {
    hide ServiceIdOf;
    assert id in Slot(d, s);
    assert forall i | i in d.containers && ServiceIdOf(d.containers[i]) == s :: i in Slot(d, s);
  }

  lemma SlotNone(d: DockerState, s: nat)
    requires Slot(d, s) == map[]
    ensures forall i | i in d.containers :: ServiceIdOf(d.containers[i]) != s
  {
    hide ServiceIdOf;
    assert forall i | i in d.containers && ServiceIdOf(d.containers[i]) == s :: i in Slot(d, s);
  }

  lemma SlotStatus(d: DockerState, s: nat, id: ContainerId, c: Container, status: Status)
    requires Slot(d, s) == map[id := c]
    ensures id in d.containers && Slot(WithStatus(d, id, status), s) == map[id := c.(status := status)]
  {
    hide ServiceIdOf;
    SlotOne(d, s, id, c);
    StatusFacts(c, status);
  }

  // ---- Single steps ----

  /** The world after a step on service `s`: sane, its slot as given, and the
      same networks. */
  ghost predicate Leaves(v: World, v': World, s: nat, slot: map<ContainerId, Container>) {
    WorldSane(v') && Slot(v'.docker, s) == slot && v'.docker.networks == v.docker.networks
  }

  lemma StepLeaves(p: Policy, v: World, step: Step, l: Luck, s: nat, slot: map<ContainerId, Container>)
    requires p.intervals != [] && WorldSane(v) && StepSane(v.docker, step)
    requires Slot(Effect(p, v, step, l), s) == slot && Effect(p, v, step, l).networks == v.docker.networks
    ensures Leaves(v, Exec(p, v, step, l).world, s, slot)
  {
    hide WorldSane, StepSane, Exec, Effect, Evolves, Slot, SameAppsButMarks, RecordsKept;
    ExecSane(p, v, step, l, s);
    EffectIs(p, v, step, l);
  }

  lemma OwnedSlot(d: DockerState, s: nat, id: ContainerId, c: Container)
    requires Sane(d) && Slot(d, s) == map[id := c]
    ensures Owned(d, id, s)
  {
    hide Sound, ServiceIdOf, UniqueNames, Slot;
    SlotOne(d, s, id, c);
  }

  lemma StopLeaves(p: Policy, v: World, a: nat, s: nat, id: ContainerId, c: Container, l: Luck)
    requires p.intervals != [] && WorldSane(v) && Benign(l) && Slot(v.docker, s) == map[id := c] && Active(c.status)
    ensures Leaves(v, Exec(p, v, StopContainer(a, s, id), l).world, s, map[id := c.(status := Exited)])
  {
    hide Slot, Sane, Leaves, Exec, Remembered, Owned;
    OwnedSlot(v.docker, s, id, c);
    SlotOne(v.docker, s, id, c);
    SlotStatus(v.docker, s, id, c, Exited);
    StepLeaves(p, v, StopContainer(a, s, id), l, s, map[id := c.(status := Exited)]);
  }

  /** Stopping a container that is not running succeeds and changes nothing. */
  lemma StopIdle(p: Policy, v: World, a: nat, s: nat, id: ContainerId, c: Container, l: Luck)
    requires p.intervals != [] && WorldSane(v) && Benign(l) && Slot(v.docker, s) == map[id := c] && !Active(c.status)
    ensures Leaves(v, Exec(p, v, StopContainer(a, s, id), l).world, s, map[id := c])
  {
    hide Slot, Sane, Leaves, Exec, Remembered, Owned;
    OwnedSlot(v.docker, s, id, c);
    SlotOne(v.docker, s, id, c);
    StepLeaves(p, v, StopContainer(a, s, id), l, s, map[id := c]);
  }

  lemma PauseLeaves(p: Policy, v: World, a: nat, s: nat, id: ContainerId, c: Container, l: Luck)
    requires p.intervals != [] && WorldSane(v) && Benign(l) && Slot(v.docker, s) == map[id := c] && c.status == Up
    ensures Leaves(v, Exec(p, v, PauseContainer(a, s, id), l).world, s, map[id := c.(status := Held)])
  {
    hide Slot, Sane, Leaves, Exec, Remembered, Owned;
    OwnedSlot(v.docker, s, id, c);
    SlotOne(v.docker, s, id, c);
    SlotStatus(v.docker, s, id, c, Held);
    StepLeaves(p, v, PauseContainer(a, s, id), l, s, map[id := c.(status := Held)]);
  }

  /** Pausing an id that is gone fails and changes nothing. */
  lemma PauseGone(p: Policy, v: World, a: nat, s: nat, gone: ContainerId, id: ContainerId, c: Container, l: Luck)
    requires p.intervals != [] && WorldSane(v) && Slot(v.docker, s) == map[id := c] && Owned(v.docker, gone, s)
             && gone != id
    ensures Leaves(v, Exec(p, v, PauseContainer(a, s, gone), l).world, s, map[id := c])
  {
    hide Slot, Sane, Leaves, Exec, Remembered;
    SlotOne(v.docker, s, id, c);
    assert gone !in v.docker.containers;
    StepLeaves(p, v, PauseContainer(a, s, gone), l, s, map[id := c]);
  }

  lemma UnpauseLeaves(p: Policy, v: World, a: nat, s: nat, id: ContainerId, c: Container, l: Luck)
    requires p.intervals != [] && WorldSane(v) && Benign(l) && Slot(v.docker, s) == map[id := c] && c.status == Held
    ensures Leaves(v, Exec(p, v, UnpauseContainer(a, s, id), l).world, s, map[id := c.(status := Up)])
  {
    hide Slot, Sane, Leaves, Exec, Remembered, Owned;
    OwnedSlot(v.docker, s, id, c);
    SlotOne(v.docker, s, id, c);
    SlotStatus(v.docker, s, id, c, Up);
    StepLeaves(p, v, UnpauseContainer(a, s, id), l, s, map[id := c.(status := Up)]);
  }

  lemma SlotRemoved(d: DockerState, s: nat, id: ContainerId, c: Container)
    requires Slot(d, s) == map[id := c]
    ensures Slot(d.(containers := d.containers - {id}), s) == map[]
  {
    hide ServiceIdOf;
    SlotOne(d, s, id, c);
  }

  lemma RemoveLeaves(p: Policy, v: World, a: nat, s: nat, id: ContainerId, c: Container, l: Luck)
    requires p.intervals != [] && WorldSane(v) && Benign(l) && Slot(v.docker, s) == map[id := c] && !Active(c.status)
    ensures Leaves(v, Exec(p, v, RemoveContainer(a, s, id), l).world, s, map[])
  {
    hide Slot, Sane, Leaves, Exec, Remembered, Owned;
    OwnedSlot(v.docker, s, id, c);
    SlotOne(v.docker, s, id, c);
    SlotRemoved(v.docker, s, id, c);
    StepLeaves(p, v, RemoveContainer(a, s, id), l, s, map[]);
  }

  lemma DownloadLeaves(p: Policy, v: World, a: nat, image: string, l: Luck, s: nat)
    requires p.intervals != [] && WorldSane(v)
    ensures Leaves(v, Exec(p, v, DownloadImage(a, image), l).world, s, Slot(v.docker, s))
  {
    hide Sane, Leaves, Exec, Remembered;
    StepLeaves(p, v, DownloadImage(a, image), l, s, Slot(v.docker, s));
  }

  // ---- Starts ----

  lemma SlotAdded(d: DockerState, s: nat, c: Container, d': DockerState)
    requires Slot(d, s) == map[] && ServiceIdOf(c) == s && d'.containers == d.containers[d.nextId := c]
    ensures Slot(d', s) == map[d.nextId := c]
  {
    hide ServiceIdOf;
    SlotNone(d, s);
  }

  lemma LaunchFresh(d: DockerState, x: Service, l: Luck)
    requires Faithful(x) && Benign(l) && Slot(d, x.serviceId) == map[]
    ensures var r := Launch(d, x, l);
            && r.id.Some? && r.docker.networks == d.networks
            && Slot(r.docker, x.serviceId) == map[d.nextId := Launched(d, x, l.imageEnv)]
  {
    hide PrintContainer, JoinNetworks, Slot, ServiceIdOf, Faithful;
    assert l.badNetworks == {};
    var c := Launched(d, x, l.imageEnv);
    PrintedFacts(x, l.imageEnv, Up, JoinNetworks(d, x, x.config.networks, {}));
    SlotAdded(d, x.serviceId, c, Launch(d, x, l).docker);
  }

  /** With no container of its own, a service is started afresh. */
  lemma StartFresh(d: DockerState, x: Service, l: Luck)
    requires Sane(d) && Faithful(x) && Benign(l) && Slot(d, x.serviceId) == map[]
    ensures var r := Start(d, x, l);
            && r.id.Some? && r.docker.networks == d.networks
            && Slot(r.docker, x.serviceId) == map[d.nextId := Launched(d, x, l.imageEnv)]
  {
    hide Launch, PrintContainer, JoinNetworks, ServiceIdOf, Faithful, NameOf, Sound;
    SlotNone(d, x.serviceId);
    forall id | id in d.containers ensures d.containers[id].name != NameOf(x) {
      if d.containers[id].name == NameOf(x) {
        NameDecides(x, d.containers[id]);
      }
    }
    var pulled := PullWithRetry(d, x.imageName, l.failedPulls).docker;
    assert Slot(pulled, x.serviceId) == Slot(d, x.serviceId);
    LaunchFresh(d, x, l);
    LaunchFresh(pulled, x, l);
    JoinSame(d, pulled, x, x.config.networks, {});
  }

  lemma StartLeaves(p: Policy, v: World, a: nat, x: Service, l: Luck) returns (id: ContainerId, c: Container)
    requires p.intervals != [] && WorldSane(v) && Benign(l) && Slot(v.docker, x.serviceId) == map[]
    requires Faithful(x) && x.appId == a
    ensures IsLaunched(c, v.docker, x)
    ensures Leaves(v, Exec(p, v, StartContainer(a, x), l).world, x.serviceId, map[id := c])
  {
    hide Slot, Sane, Leaves, Exec, Remembered, Start, Launched, Faithful;
    StartFresh(v.docker, x, l);
    id, c := v.docker.nextId, Launched(v.docker, x, l.imageEnv);
    StepLeaves(p, v, StartContainer(a, x), l, x.serviceId, map[id := c]);
  }

  lemma MarkLaunched(d: DockerState, x: Service, y: Service, imageEnv: seq<string>)
    requires Unmark(x) == Unmark(y)
    ensures Launched(d, x, imageEnv) == Launched(d, y, imageEnv)
  {
    assert PrintLabels(x) == PrintLabels(y) && NameOf(x) == NameOf(y) && x.config == y.config && x.appId == y.appId;
    JoinRecord(d, x, y, x.config.networks);
  }

  lemma {:induction false} JoinRecord(d: DockerState, x: Service, y: Service, names: seq<string>)
    requires x.config == y.config && x.appId == y.appId
    ensures JoinNetworks(d, x, names, {}) == JoinNetworks(d, y, names, {})
  {
    if names != [] {
      JoinRecord(d, x, y, names[..|names| - 1]);
    }
  }

  /** The Docker side of a restart. */
  lemma RestartEffect(p: Policy, v: World, a: nat, s: nat, id: ContainerId, c: Container, y: Service, l: Luck)
    requires WorldSane(v) && Benign(l) && Slot(v.docker, s) == map[id := c] && c.status == Exited
    requires Lookup(v.apps, a, s) == Some(y) && Faithful(y) && y.serviceId == s
    ensures var d := Effect(p, v, StartStoppedContainer(a, s, id), l);
            && d.networks == v.docker.networks
            && Slot(d, s) == map[v.docker.nextId := Launched(v.docker, y, l.imageEnv)]
  {
    hide Slot, Sane, Remembered, Start, Launched, Faithful, Lookup, JoinNetworks, Scoped, ServiceIdOf, Evolves,
         SameOutside;
    OwnedSlot(v.docker, s, id, c);
    SlotOne(v.docker, s, id, c);
    SlotRemoved(v.docker, s, id, c);
    RemoveGentle(v.docker, id, s, l.fails);
    var d := Remove(v.docker, id, l.fails).docker;
    assert Slot(d, s) == map[] && d.networks == v.docker.networks && d.nextId == v.docker.nextId;
    StartFresh(d, y, l);
    JoinSame(d, v.docker, y, y.config.networks, {});
    LaunchedSame(d, v.docker, y, l.imageEnv);
  }

  /** Restarting an exited container replaces it by a new one that is made from
      the remembered record. */
  lemma RestartLeaves(p: Policy, v: World, a: nat, s: nat, id: ContainerId, c: Container, x: Service, l: Luck)
      returns (id': ContainerId, c': Container)
    requires p.intervals != [] && WorldSane(v) && Benign(l) && Slot(v.docker, s) == map[id := c] && c.status == Exited
    requires Plain(Lookup(v.apps, a, s)) == Some(Unmark(x))
    ensures IsLaunched(c', v.docker, x) && id' != id
    ensures Leaves(v, Exec(p, v, StartStoppedContainer(a, s, id), l).world, s, map[id' := c'])
    ensures Owned(Exec(p, v, StartStoppedContainer(a, s, id), l).world.docker, id, s)
  {
    hide Slot, Sane, Leaves, Exec, Effect, Remembered, Launched, Faithful, Lookup;
    OwnedSlot(v.docker, s, id, c);
    var y := Lookup(v.apps, a, s).value;
    RememberedLookup(v.apps, a, s);
    RestartEffect(p, v, a, s, id, c, y, l);
    MarkLaunched(v.docker, x, y, l.imageEnv);
    id', c' := v.docker.nextId, Launched(v.docker, x, l.imageEnv);
    StepLeaves(p, v, StartStoppedContainer(a, s, id), l, s, map[id' := c']);
    OwnedAfter(p, v, StartStoppedContainer(a, s, id), l, id, s);
  }

  lemma LaunchedSame(d: DockerState, d': DockerState, y: Service, imageEnv: seq<string>)
    requires JoinNetworks(d, y, y.config.networks, {}) == JoinNetworks(d', y, y.config.networks, {})
    ensures Launched(d, y, imageEnv) == Launched(d', y, imageEnv)
  {
  }

  lemma OwnedAfter(p: Policy, v: World, step: Step, l: Luck, id: ContainerId, s: nat)
    requires p.intervals != [] && WorldSane(v) && StepSane(v.docker, step) && Owned(v.docker, id, s)
    ensures Owned(Exec(p, v, step, l).world.docker, id, s)
  {
    hide WorldSane, StepSane, Exec, Evolves, Owned, Slot, SameAppsButMarks, RecordsKept;
    ExecSane(p, v, step, l, s);
    OwnedLater(v.docker, Exec(p, v, step, l).world.docker, id, s);
  }

  // ---- The steps of one service together ----

  lemma RunFirst(p: Policy, v: World, x: Step, rest: seq<Step>, f: Fortune, base: nat)
    requires p.intervals != []
    ensures ExecAll(p, v, [x] + rest, f, base) == ExecAll(p, Exec(p, v, x, f(base)).world, rest, f, base + 1)
  {
    hide Exec;
    ExecAppend(p, v, [x], rest, f, base);
    ExecOne(p, v, x, f, base);
  }

  /** What a sync reads of a container, whatever its id. */
  function Record(c: Container): Service {
    Read(0, c, true)
  }

  /** What a round makes of a service's container `before`, given the target
      record and the networks there are when a container is started. */
  ghost predicate Becomes(before: Option<Container>, t: Option<Service>, d: DockerState, after: Option<Container>) {
    match (before, t)
    case (None, None) => after == None
    case (Some(_), None) => after == None
    case (None, Some(x)) =>
      if Desired(x) == Running then after.Some? && IsLaunched(after.value, d, x) else after == None
    case (Some(c), Some(x)) =>
      if c.status == Exited then after.Some? && IsLaunched(after.value, d, Record(c))
      else if c.status == Up && Desired(x) == Paused then after == Some(c.(status := Held))
      else if c.status == Held && Desired(x) == Running then after == Some(c.(status := Up))
      else if NeedsUpdate(Record(c), x) then after.Some? && IsLaunched(after.value, d, Tidy(x))
      else after == before
  }

  predicate Plainly(c: Container) {
    c.status == Up || c.status == Held || c.status == Exited
  }

  lemma RemovalRun(p: Policy, v: World, a: nat, s: nat, id: ContainerId, c: Container, f: Fortune, base: nat)
    requires p.intervals != [] && WorldSane(v) && Calm(f) && Slot(v.docker, s) == map[id := c]
    ensures var v' := ExecAll(p, v, [StopContainer(a, s, id), RemoveContainer(a, s, id)], f, base);
            Leaves(v, v', s, map[])
  {
    hide WorldSane, Slot, Exec, Benign;
    var stop, remove := StopContainer(a, s, id), RemoveContainer(a, s, id);
    assert Benign(f(base)) && Benign(f(base + 1));
    RunFirst(p, v, stop, [remove], f, base);
    assert [stop] + [remove] == [stop, remove];
    var v1 := Exec(p, v, stop, f(base)).world;
    ExecOne(p, v1, remove, f, base + 1);
    if Active(c.status) {
      StopLeaves(p, v, a, s, id, c, f(base));
      RemoveLeaves(p, v1, a, s, id, c.(status := Exited), f(base + 1));
    } else {
      StopIdle(p, v, a, s, id, c, f(base));
      RemoveLeaves(p, v1, a, s, id, c, f(base + 1));
    }
  }

  /** A launch after steps that kept the networks. */
  lemma SameNetworks(v: DockerState, v': DockerState, c: Container, x: Service)
    requires IsLaunched(c, v', x) && v'.networks == v.networks
    ensures IsLaunched(c, v, x)
  {
    var imageEnv :| c == Launched(v', x, imageEnv);
    JoinSame(v', v, x, x.config.networks, {});
    assert c == Launched(v, x, imageEnv);
  }

  lemma HoldsOne(d: DockerState, s: nat, id: ContainerId, c: Container)
    requires Slot(d, s) == map[id := c]
    ensures Holds(d, s, Some(c))
  {
  }

  lemma FreshRun(p: Policy, v: World, a: nat, x: Service, f: Fortune, base: nat) returns (c: Container)
    requires p.intervals != [] && WorldSane(v) && Calm(f) && Slot(v.docker, x.serviceId) == map[]
    requires Faithful(x) && x.appId == a
    ensures IsLaunched(c, v.docker, x)
    ensures Holds(ExecAll(p, v, [DownloadImage(a, x.imageName), StartContainer(a, x)], f, base).docker,
            x.serviceId, Some(c))
  {
    hide WorldSane, Slot, Exec, Benign, Faithful, IsLaunched;
    var pull, start := DownloadImage(a, x.imageName), StartContainer(a, x);
    assert Benign(f(base)) && Benign(f(base + 1));
    RunFirst(p, v, pull, [start], f, base);
    assert [pull] + [start] == [pull, start];
    var v1 := Exec(p, v, pull, f(base)).world;
    ExecOne(p, v1, start, f, base + 1);
    DownloadLeaves(p, v, a, x.imageName, f(base), x.serviceId);
    var id;
    id, c := StartLeaves(p, v1, a, x, f(base + 1));
    SameNetworks(v.docker, v1.docker, c, x);
    HoldsOne(Exec(p, v1, start, f(base + 1)).world.docker, x.serviceId, id, c);
  }

  /** Stop, remove and start. */
  lemma SwapRun(p: Policy, v: World, a: nat, id: ContainerId, c: Container, x: Service, f: Fortune, base: nat)
      returns (c': Container)
    requires p.intervals != [] && WorldSane(v) && Calm(f) && Slot(v.docker, x.serviceId) == map[id := c]
    requires Faithful(x) && x.appId == a
    ensures IsLaunched(c', v.docker, x)
    ensures var s := x.serviceId;
            Holds(ExecAll(p, v, [StopContainer(a, s, id), RemoveContainer(a, s, id), StartContainer(a, x)], f,
                base).docker, s, Some(c'))
  {
    hide WorldSane, Slot, Exec, Benign, Faithful, IsLaunched, Plainly;
    var s := x.serviceId;
    var first, start := [StopContainer(a, s, id), RemoveContainer(a, s, id)], StartContainer(a, x);
    RemovalRun(p, v, a, s, id, c, f, base);
    ExecAppend(p, v, first, [start], f, base);
    assert first + [start] == [StopContainer(a, s, id), RemoveContainer(a, s, id), StartContainer(a, x)];
    var v1 := ExecAll(p, v, first, f, base);
    ExecOne(p, v1, start, f, base + 2);
    assert Benign(f(base + 2));
    var id';
    id', c' := StartLeaves(p, v1, a, x, f(base + 2));
    SameNetworks(v.docker, v1.docker, c', x);
    HoldsOne(Exec(p, v1, start, f(base + 2)).world.docker, s, id', c');
  }

  lemma ReplaceRun(p: Policy, v: World, a: nat, r: Service, c: Container, x: Service, f: Fortune, base: nat)
      returns (c': Container)
    requires p.intervals != [] && WorldSane(v) && Calm(f)
    requires r.containerId.Some? && r.serviceId == x.serviceId
             && Slot(v.docker, x.serviceId) == map[r.containerId.value := c]
    requires Faithful(x) && x.appId == a
    ensures IsLaunched(c', v.docker, x)
    ensures Holds(ExecAll(p, v, ReplaceSteps(a, r, x), f, base).docker, x.serviceId, Some(c'))
  {
    hide WorldSane, Slot, Exec, Benign, Faithful, IsLaunched, Plainly, Holds, ExecAll;
    var s, id := x.serviceId, r.containerId.value;
    var swap := [StopContainer(a, s, id), RemoveContainer(a, s, id), StartContainer(a, x)];
    if r.imageName != x.imageName {
      var pull := DownloadImage(a, x.imageName);
      RunFirst(p, v, pull, swap, f, base);
      assert ReplaceSteps(a, r, x) == [pull] + swap;
      var v1 := Exec(p, v, pull, f(base)).world;
      DownloadLeaves(p, v, a, x.imageName, f(base), s);
      c' := SwapRun(p, v1, a, id, c, x, f, base + 1);
      SameNetworks(v.docker, v1.docker, c', x);
    } else {
      assert ReplaceSteps(a, r, x) == swap;
      c' := SwapRun(p, v, a, id, c, x, f, base);
    }
  }

  lemma RestartRun(p: Policy, v: World, a: nat, s: nat, id: ContainerId, c: Container, x: Service, more: seq<Step>,
      f: Fortune, base: nat)
      returns (c': Container)
    requires p.intervals != [] && WorldSane(v) && Calm(f) && Slot(v.docker, s) == map[id := c] && c.status == Exited
    requires Plain(Lookup(v.apps, a, s)) == Some(Unmark(x))
    requires more == [] || more == [PauseContainer(a, s, id)]
    ensures IsLaunched(c', v.docker, x)
    ensures Holds(ExecAll(p, v, [StartStoppedContainer(a, s, id)] + more, f, base).docker, s, Some(c'))
  {
    hide WorldSane, Slot, Exec, Benign, IsLaunched, Holds, Owned;
    var restart := StartStoppedContainer(a, s, id);
    assert Benign(f(base));
    RunFirst(p, v, restart, more, f, base);
    var id';
    id', c' := RestartLeaves(p, v, a, s, id, c, x, f(base));
    var v1 := Exec(p, v, restart, f(base)).world;
    HoldsOne(v1.docker, s, id', c');
    if more != [] {
      var pause := PauseContainer(a, s, id);
      ExecOne(p, v1, pause, f, base + 1);
      PauseGone(p, v1, a, s, id, id', c', f(base + 1));
      HoldsOne(Exec(p, v1, pause, f(base + 1)).world.docker, s, id', c');
    }
  }

  /** A record that a sync made of the service's container, as planning sees it. */
  ghost predicate Reads(cur: Option<Service>, d: DockerState, a: nat, s: nat, before: Option<Container>) {
    match before
    case None => cur == None && Slot(d, s) == map[]
    case Some(c) =>
      && cur.Some? && cur.value.containerId.Some?
      && cur.value == Read(cur.value.containerId.value, c, true)
      && Slot(d, s) == map[cur.value.containerId.value := c]
      && AppIdOf(c) == a && Plainly(c)
  }

  ghost predicate Wanted(t: Service, a: nat, s: nat) {
    t.appId == a && t.serviceId == s && Faithful(t) && Desired(t) != Stopped
  }

  lemma RecordOf(id: ContainerId, c: Container)
    ensures Unmark(Read(id, c, true)) == Read(id, c, true)
    ensures Read(id, c, true).(containerId := Some(0)) == Record(c)
    ensures Plainly(c) ==> Desired(Read(id, c, true)) == (match c.status case Up => Running case Held => Paused case _ => Stopped)
    ensures Read(id, c, true).serviceId == ServiceIdOf(c)
  {
  }

  lemma IdLaunched(c: Container, d: DockerState, x: Service, y: Service)
    requires IsLaunched(c, d, x) && x.(containerId := Some(0)) == y
    ensures IsLaunched(c, d, y)
  {
    var imageEnv :| c == Launched(d, x, imageEnv);
    assert PrintLabels(x) == PrintLabels(y) && NameOf(x) == NameOf(y) && x.config == y.config && x.appId == y.appId;
    JoinRecord(d, x, y, x.config.networks);
    assert c == Launched(d, y, imageEnv);
  }

  lemma IdUpdate(x: Service, y: Service, t: Service)
    requires x.(containerId := Some(0)) == y
    ensures NeedsUpdate(x, t) == NeedsUpdate(y, t)
  {
    hide ConfigDiffers;
  }

  lemma TransitionRun(p: Policy, v: World, a: nat, s: nat, c: Container, r: Service, t: Service, f: Fortune, base: nat)
      returns (c': Container)
    requires p.intervals != [] && WorldSane(v) && Calm(f) && Wanted(t, a, s)
    requires Reads(Some(r), v.docker, a, s, Some(c)) && Transition(r, t)
    requires c.status == Exited ==> Plain(Lookup(v.apps, a, s)) == Some(Unmark(r))
    ensures Holds(ExecAll(p, v, TransitionSteps(a, r, t), f, base).docker, s, Some(c'))
    ensures Becomes(Some(c), Some(t), v.docker, Some(c'))
  {
    hide WorldSane, Slot, Exec, Benign, IsLaunched, Holds, NeedsUpdate, Faithful, Read, Record;
    var id := r.containerId.value;
    RecordOf(id, c);
    SlotOne(v.docker, s, id, c);
    assert Benign(f(base));
    match c.status
    case Up =>
      ExecOne(p, v, PauseContainer(a, s, id), f, base);
      PauseLeaves(p, v, a, s, id, c, f(base));
      c' := c.(status := Held);
      HoldsOne(Exec(p, v, PauseContainer(a, s, id), f(base)).world.docker, s, id, c');
    case Held =>
      ExecOne(p, v, UnpauseContainer(a, s, id), f, base);
      UnpauseLeaves(p, v, a, s, id, c, f(base));
      c' := c.(status := Up);
      HoldsOne(Exec(p, v, UnpauseContainer(a, s, id), f(base)).world.docker, s, id, c');
    case Exited =>
      var more := if Desired(t) == Running then [] else [PauseContainer(a, s, id)];
      assert TransitionSteps(a, r, t) == [StartStoppedContainer(a, s, id)] + more;
      c' := RestartRun(p, v, a, s, id, c, r, more, f, base);
      IdLaunched(c', v.docker, r, Record(c));
    case _ =>
  }

  lemma TidyWanted(t: Service, a: nat, s: nat)
    requires Wanted(t, a, s)
    ensures Faithful(Tidy(t)) && Tidy(t).appId == a && Tidy(t).serviceId == s && Tidy(t).imageName == t.imageName
  {
    assert PrintLabels(Tidy(t)) == PrintLabels(t);
  }

  /** The outcome of a service's own steps. */
  lemma GroupOutcome(p: Policy, v: World, a: nat, s: nat, before: Option<Container>, cur: Option<Service>,
      tgt: Option<Service>,
                     f: Fortune, base: nat) returns (after: Option<Container>)
    requires p.intervals != [] && WorldSane(v) && Calm(f)
    requires Reads(cur, v.docker, a, s, before)
    requires tgt.Some? ==> Wanted(tgt.value, a, s)
    requires before.Some? && tgt.Some? && before.value.status == Exited ==> Plain(Lookup(v.apps, a, s)) == Plain(cur)
    ensures Holds(ExecAll(p, v, ServiceSteps(a, cur, tgt, true), f, base).docker, s, after)
    ensures Becomes(before, tgt, v.docker, after)
  {
    hide WorldSane, Slot, Exec, Benign, IsLaunched, NeedsUpdate, Faithful, Read, Record, TransitionSteps,
         ReplaceSteps, Tidy, Plainly;
    match (cur, tgt)
    case (None, None) =>
      after := None;
    case (Some(r), None) =>
      RecordOf(r.containerId.value, before.value);
      SlotOne(v.docker, s, r.containerId.value, before.value);
      RemovalRun(p, v, a, s, r.containerId.value, before.value, f, base);
      after := None;
    case (None, Some(t)) =>
      if Desired(t) == Running {
        var c := FreshRun(p, v, a, t, f, base);
        after := Some(c);
      } else {
        after := None;
      }
    case (Some(r), Some(t)) =>
      after := MatchedOutcome(p, v, a, s, before.value, r, t, f, base);
  }

  lemma MatchedOutcome(p: Policy, v: World, a: nat, s: nat, c: Container, r: Service, t: Service, f: Fortune, base: nat)
      returns (after: Option<Container>)
    requires p.intervals != [] && WorldSane(v) && Calm(f) && Wanted(t, a, s) && Reads(Some(r), v.docker, a, s, Some(c))
    requires c.status == Exited ==> Plain(Lookup(v.apps, a, s)) == Plain(Some(r))
    ensures Holds(ExecAll(p, v, ServiceSteps(a, Some(r), Some(t), true), f, base).docker, s, after)
    ensures Becomes(Some(c), Some(t), v.docker, after)
  {
    hide WorldSane, Slot, Exec, Benign, IsLaunched, NeedsUpdate, Faithful, Read, Record, TransitionSteps,
         ReplaceSteps, Tidy;
    var id := r.containerId.value;
    RecordOf(id, c);
    SlotOne(v.docker, s, id, c);
    IdUpdate(r, Record(c), t);
    if Transition(r, t) {
      var c' := TransitionRun(p, v, a, s, c, r, t, f, base);
      after := Some(c');
    } else if NeedsUpdate(r, t) {
      TidyWanted(t, a, s);
      assert ReplaceSteps(a, r, Tidy(t)) == ServiceSteps(a, Some(r), Some(t), true);
      var c' := ReplaceRun(p, v, a, r, c, Tidy(t), f, base);
      after := Some(c');
    } else {
      HoldsOne(v.docker, s, id, c);
      after := Some(c);
    }
  }
}
