/** Executing steps: each one against Docker, with its effect on the in-memory
    current state and the retry table, and the loop that continues past failures. */
module Executor {
  import opened Text
  import opened Types
  import opened Retry
  import opened Docker
  import opened StateHelpers
  import opened DockerSync
  import opened Planner
  import PlannerLoops

  /** Everything a round of reconciliation reads or changes. */
  datatype World = World(apps: Apps, target: Apps, docker: DockerState, retry: Table, now: int)

  datatype Outcome = Outcome(world: World, ok: bool)

  function ImageKey(image: string): string {
    "image:" + image
  }

  /** `markServiceAsError`: the current app if there is one, else the target's. */
  function Blame(w: World, a: nat, who: Who, kind: ErrorKind): World {
    if a in w.apps then w.(apps := MarkError(w.apps, a, who, kind))
    else w.(target := MarkError(w.target, a, who, kind))
  }

  /** The end of a start that succeeded: the record is pushed and marked. */
  function Enlist(w: World, a: nat, s: Service, id: ContainerId): World {
    w.(apps := MarkRunning(AddService(w.apps, a, s, id), a, s.serviceId))
  }

  ghost function ExecStart(w: World, a: nat, s: Service, l: Luck): Outcome {
    var started := Start(w.docker, s, l);
    var w' := w.(docker := started.docker);
    match started.id
    case Some(id) => Outcome(Enlist(w', a, s, id), true)
    case None => Outcome(Blame(w', a, ById(s.serviceId), StartFailure), false)
  }

  ghost function ExecRestart(w: World, a: nat, s: nat, id: ContainerId, l: Luck): Outcome {
    match Lookup(w.apps, a, s)
    case None => Outcome(Blame(w, a, ById(s), StartFailure), false)
    case Some(service) =>
      var removed := Remove(w.docker, id, l.fails);
      if !removed.ok then Outcome(Blame(w.(docker := removed.docker), a, ById(s), StartFailure), false)
      else
        ExecStart(w.(docker := removed.docker, apps := RemoveService(w.apps, a, s)), a, service, l)
  }

  function ExecDownload(p: Policy, w: World, a: nat, image: string, l: Luck): Outcome
    requires p.intervals != []
  {
    var key := ImageKey(image);
    if !Allowed(p, w.retry, key, w.now) then Outcome(Blame(w, a, ByImage(image), ImagePullBackOff), false)
    else
      var pulled := Pull(w.docker, image, l.failedPulls > 0);
      if pulled.ok then Outcome(w.(docker := pulled.docker, retry := AfterSuccess(w.retry, key)), true)
      else
        var t := AfterFailure(p, w.retry, key, l.error, IsRetryableError(l.error), w.now, l.jitter);
        Outcome(Blame(w.(docker := pulled.docker, retry := t), a, ByImage(image), ImagePullBackOff), false)
  }

  function Settle(w: World, r: Reply, apps: Apps): Outcome {
    if r.ok then Outcome(w.(docker := r.docker, apps := apps), true) else Outcome(w.(docker := r.docker), false)
  }

  /** `executeStep`; a result that is not ok stands for the exception. */
  ghost function Exec(p: Policy, before: World, step: Step, l: Luck): Outcome
    requires p.intervals != []
  {
    var w := before.(now := before.now + l.elapsed);
    match step
    case DownloadImage(a, image) => ExecDownload(p, w, a, image, l)
    case CreateNetwork(a, n) => Settle(w, MakeNetwork(w.docker, Scoped(a, n), l.fails), w.apps)
    case StopContainer(a, s, id) => Settle(w, Stop(w.docker, id, l.fails), UpdateState(w.apps, a, s, Stopped))
    case PauseContainer(a, s, id) => Settle(w, Pause(w.docker, id, l.fails), UpdateState(w.apps, a, s, Paused))
    case UnpauseContainer(a, s, id) => Settle(w, Unpause(w.docker, id, l.fails), UpdateState(w.apps, a, s, Running))
    case StartStoppedContainer(a, s, id) => ExecRestart(w, a, s, id, l)
    case RemoveContainer(a, s, id) => Settle(w, Remove(w.docker, id, l.fails), RemoveService(w.apps, a, s))
    case StartContainer(a, s) => ExecStart(w, a, s, l)
    case RemoveNetwork(a, n) => Settle(w, DropNetwork(w.docker, Scoped(a, n), l.fails), w.apps)
    case CreateVolume(a, v) => Settle(w, MakeVolume(w.docker, Scoped(a, v), l.fails), w.apps)
    case RemoveVolume(a, v) => Settle(w, DropVolume(w.docker, Scoped(a, v), l.fails), w.apps)
  }

  /** The Docker state after a step. */
  ghost function Effect(p: Policy, w: World, step: Step, l: Luck): DockerState {
    var d := w.docker;
    match step
    case DownloadImage(a, image) =>
      if Allowed(p, w.retry, ImageKey(image), w.now + l.elapsed) then Pull(d, image, l.failedPulls > 0).docker else d
    case CreateNetwork(a, n) => MakeNetwork(d, Scoped(a, n), l.fails).docker
    case StopContainer(a, s, id) => Stop(d, id, l.fails).docker
    case PauseContainer(a, s, id) => Pause(d, id, l.fails).docker
    case UnpauseContainer(a, s, id) => Unpause(d, id, l.fails).docker
    case StartStoppedContainer(a, s, id) =>
      if Lookup(w.apps, a, s).None? then d
      else
        var removed := Remove(d, id, l.fails);
        if removed.ok then Start(removed.docker, Lookup(w.apps, a, s).value, l).docker else removed.docker
    case RemoveContainer(a, s, id) => Remove(d, id, l.fails).docker
    case StartContainer(a, s) => Start(d, s, l).docker
    case RemoveNetwork(a, n) => DropNetwork(d, Scoped(a, n), l.fails).docker
    case CreateVolume(a, v) => MakeVolume(d, Scoped(a, v), l.fails).docker
    case RemoveVolume(a, v) => DropVolume(d, Scoped(a, v), l.fails).docker
  }

  lemma EffectIs(p: Policy, w: World, step: Step, l: Luck)
    requires p.intervals != []
    ensures Exec(p, w, step, l).world.docker == Effect(p, w, step, l)
  {
    hide Start, Stop, Pause, Unpause, Remove, MakeNetwork, DropNetwork, MakeVolume, DropVolume, Pull;
  }

  /** What chance decides about each step of a plan. */
  type Fortune = nat -> Luck

  /** Execution goes on after a failure; step `i` meets `f(base + i)`. */
  ghost function ExecAll(p: Policy, w: World, steps: seq<Step>, f: Fortune, base: nat): World
    requires p.intervals != []
  {
    if steps == [] then w
    else
      var n := |steps| - 1;
      Exec(p, ExecAll(p, w, steps[..n], f, base), steps[n], f(base + n)).world
  }

  /** The steps that fail when a plan is executed, in order. */
  ghost function FailedSteps(p: Policy, w: World, steps: seq<Step>, f: Fortune, base: nat): seq<Step>
    requires p.intervals != []
  {
    if steps == [] then []
    else
      var n := |steps| - 1;
      var r := FailedSteps(p, w, steps[..n], f, base);
      if Exec(p, ExecAll(p, w, steps[..n], f, base), steps[n], f(base + n)).ok then r else r + [steps[n]]
  }

  lemma {:induction false} ExecAppend(p: Policy, w: World, xs: seq<Step>, ys: seq<Step>, f: Fortune, base: nat)
    requires p.intervals != []
    ensures ExecAll(p, w, xs + ys, f, base) == ExecAll(p, ExecAll(p, w, xs, f, base), ys, f, base + |xs|)
  {
    hide Exec;
    if ys == [] {
      assert xs + ys == xs;
    } else {
      var n := |ys| - 1;
      ExecAppend(p, w, xs, ys[..n], f, base);
      assert (xs + ys)[..|xs| + n] == xs + ys[..n];
      assert (xs + ys)[|xs| + n] == ys[n];
    }
  }

  lemma ExecOne(p: Policy, w: World, x: Step, f: Fortune, base: nat)
    requires p.intervals != []
    ensures ExecAll(p, w, [x], f, base) == Exec(p, w, x, f(base)).world
  {
    assert [x][..0] == [];
    assert ExecAll(p, w, [], f, base) == w;
  }

  /** The retry answers that a plan made now would use. */
  function Answers(p: Policy, w: World): Retryable {
    (image: string) => Allowed(p, w.retry, ImageKey(image), w.now)
  }

  /** The plan that would be made now. */
  function NextPlan(p: Policy, w: World): seq<Step> {
    Plan(w.apps, w.target, Answers(p, w))
  }

  /** The world after planning: both states with their lists sorted. */
  function Planned(w: World): World {
    w.(apps := TidyCurrentApps(w.apps, w.target), target := TidyTargetApps(w.apps, w.target))
  }

  /** `applyTargetState` without its reentrancy guard. */
  ghost function Apply(p: Policy, w: World, f: Fortune): World
    requires p.intervals != []
  {
    ExecAll(p, Planned(w), NextPlan(p, w), f, 0)
  }

  function Resync(w: World, sl: SyncLuck): World {
    if sl.listFails then w else w.(apps := Sync(w.docker.containers, sl.listing, sl.inspectFails))
  }

  /** One round: sync, then plan, then execute. */
  ghost function Round(p: Policy, w: World, sl: SyncLuck, f: Fortune): World
    requires p.intervals != []
  {
    Apply(p, Resync(w, sl), f)
  }

  // ---- Runs ----

  /** What happens around a round: the target may be replaced and the agent may
      restart before it, and chance decides about the sync and the steps. */
  datatype Turn = Turn(change: Option<Apps>, restart: bool, sync: SyncLuck, steps: Fortune)

  /** A restart forgets the current state and loads the stored retry table. */
  function Restarted(w: World): World {
    w.(apps := map[], retry := Load(Save(w.retry)))
  }

  /** The world in which a turn's round begins. */
  function Opening(w: World, turn: Turn): World {
    var w' := if turn.restart then Restarted(w) else w;
    if turn.change.Some? then w'.(target := turn.change.value) else w'
  }

  ghost function Rounds(p: Policy, w: World, turns: seq<Turn>): World
    requires p.intervals != []
  {
    if turns == [] then w
    else
      var n := |turns| - 1;
      Round(p, Opening(Rounds(p, w, turns[..n]), turns[n]), turns[n].sync, turns[n].steps)
  }

  /** A restart changes the memory of the current state only. */
  lemma OpeningIs(w: World, turn: Turn)
    ensures Opening(w, turn) == w.(apps := if turn.restart then map[] else w.apps,
                                   target := turn.change.GetOr(w.target))
  {
    LoadSave(w.retry);
  }

  // ---- Names stay unique ----

  lemma StartKeepsNames(d: DockerState, s: Service, l: Luck)
    requires UniqueNames(d)
    ensures UniqueNames(Start(d, s, l).docker)
  {
  }

  /** Containers come from `d`, under their names. */
  ghost predicate NoNewNames(d: DockerState, d': DockerState) {
    forall id | id in d'.containers :: id in d.containers && d'.containers[id].name == d.containers[id].name
  }

  lemma StatusKeepsNames(d: DockerState, id: ContainerId, status: Status)
    requires id in d.containers
    ensures NoNewNames(d, WithStatus(d, id, status))
  {
  }

  lemma CallsKeepNames(d: DockerState, id: ContainerId, fails: bool)
    ensures NoNewNames(d, Stop(d, id, fails).docker) && NoNewNames(d, Pause(d, id, fails).docker)
    ensures NoNewNames(d, Unpause(d, id, fails).docker) && NoNewNames(d, Remove(d, id, fails).docker)
  {
    hide WithStatus;
    if id in d.containers {
      StatusKeepsNames(d, id, Exited);
      StatusKeepsNames(d, id, Held);
      StatusKeepsNames(d, id, Up);
    }
  }

  lemma FramesKeepNames(d: DockerState, x: string, fails: bool)
    ensures NoNewNames(d, MakeNetwork(d, x, fails).docker) && NoNewNames(d, DropNetwork(d, x, fails).docker)
    ensures NoNewNames(d, MakeVolume(d, x, fails).docker) && NoNewNames(d, DropVolume(d, x, fails).docker)
    ensures NoNewNames(d, Pull(d, x, fails).docker)
  {
    hide InUse;
  }

  lemma EffectKeepsNames(p: Policy, w: World, step: Step, l: Luck)
    requires UniqueNames(w.docker)
    ensures UniqueNames(Effect(p, w, step, l))
  {
    hide Start, Stop, Pause, Unpause, Remove, MakeNetwork, DropNetwork, MakeVolume, DropVolume, Pull;
    var d := w.docker;
    match step
    case StartContainer(a, s) => StartKeepsNames(d, s, l);
    case StartStoppedContainer(a, s, id) =>
      CallsKeepNames(d, id, l.fails);
      if Lookup(w.apps, a, s).Some? {
        StartKeepsNames(Remove(d, id, l.fails).docker, Lookup(w.apps, a, s).value, l);
      }
    case StopContainer(a, s, id) => CallsKeepNames(d, id, l.fails);
    case PauseContainer(a, s, id) => CallsKeepNames(d, id, l.fails);
    case UnpauseContainer(a, s, id) => CallsKeepNames(d, id, l.fails);
    case RemoveContainer(a, s, id) => CallsKeepNames(d, id, l.fails);
    case DownloadImage(a, image) => FramesKeepNames(d, image, l.failedPulls > 0);
    case CreateNetwork(a, n) => FramesKeepNames(d, Scoped(a, n), l.fails);
    case RemoveNetwork(a, n) => FramesKeepNames(d, Scoped(a, n), l.fails);
    case CreateVolume(a, v) => FramesKeepNames(d, Scoped(a, v), l.fails);
    case RemoveVolume(a, v) => FramesKeepNames(d, Scoped(a, v), l.fails);
  }

  // ---- The manager object ----

  class ContainerManager {
    var apps: Apps
    var target: Apps
    var now: int
    var isApplyingState: bool
    const docker: DockerManager
    const retry: RetryManager

    ghost predicate Valid()
      reads this, docker, retry
    {
      retry.Valid() && UniqueNames(docker.State())
    }

    ghost function Now(): World
      reads this, docker, retry
    {
      World(apps, target, docker.State(), retry.retryState, now)
    }

    constructor (docker: DockerManager, retry: RetryManager, target: Apps)
      requires retry.Valid() && UniqueNames(docker.State())
      ensures Valid() && this.docker == docker && this.retry == retry
      ensures Now() == World(map[], target, docker.State(), retry.retryState, 0) && !isApplyingState
    {
      this.docker, this.retry := docker, retry;
      this.apps, this.target, this.now, this.isApplyingState := map[], target, 0, false;
    }

    method MarkServiceAsError(a: nat, who: Who, kind: ErrorKind)
      modifies this
      ensures Now() == Blame(old(Now()), a, who, kind)
      ensures isApplyingState == old(isApplyingState)
    {
      if a in apps {
        apps := MarkError(apps, a, who, kind);
      } else {
        target := MarkError(target, a, who, kind);
      }
    }

    method Download(a: nat, image: string, l: Luck) returns (ok: bool)
      requires Valid()
      modifies this, docker, retry
      ensures Outcome(Now(), ok) == ExecDownload(retry.policy, old(Now()), a, image, l)
      ensures retry.Valid() && isApplyingState == old(isApplyingState)
    {
      var key := ImageKey(image);
      var allowed := retry.ShouldRetry(key, now);
      if !allowed {
        MarkServiceAsError(a, ByImage(image), ImagePullBackOff);
        return false;
      }
      ok := docker.PullImage(image, l.failedPulls > 0);
      if ok {
        retry.RecordSuccess(key);
      } else {
        retry.RecordFailure(key, l.error, IsRetryableError(l.error), now, l.jitter);
        MarkServiceAsError(a, ByImage(image), ImagePullBackOff);
      }
    }

    method StartService(a: nat, s: Service, l: Luck) returns (ok: bool)
      requires Valid()
      modifies this, docker
      ensures Outcome(Now(), ok) == ExecStart(old(Now()), a, s, l)
      ensures isApplyingState == old(isApplyingState)
    {
      var id := docker.StartContainer(s, l);
      if id.Some? {
        apps := AddService(apps, a, s, id.value);
        apps := MarkRunning(apps, a, s.serviceId);
        return true;
      }
      MarkServiceAsError(a, ById(s.serviceId), StartFailure);
      return false;
    }

    method RestartStopped(a: nat, s: nat, id: ContainerId, l: Luck) returns (ok: bool)
      requires Valid()
      modifies this, docker
      ensures Outcome(Now(), ok) == ExecRestart(old(Now()), a, s, id, l)
      ensures isApplyingState == old(isApplyingState)
    {
      var service := Lookup(apps, a, s);
      if service.None? {
        MarkServiceAsError(a, ById(s), StartFailure);
        return false;
      }
      ok := docker.RemoveContainer(id, l.fails);
      if !ok {
        MarkServiceAsError(a, ById(s), StartFailure);
        return false;
      }
      apps := RemoveService(apps, a, s);
      ok := StartService(a, service.value, l);
    }

    /** `executeStep` */
    method ExecuteStep(step: Step, l: Luck) returns (ok: bool)
      requires Valid()
      modifies this, docker, retry
      ensures Valid() && isApplyingState == old(isApplyingState)
      ensures Outcome(Now(), ok) == Exec(retry.policy, old(Now()), step, l)
    {
      hide Start, Stop, Pause, Unpause, Remove, MakeNetwork, DropNetwork, MakeVolume, DropVolume, UniqueNames, Effect;
      hide ExecDownload, ExecStart, ExecRestart, UpdateState, RemoveService, Scoped;
      EffectIs(retry.policy, Now(), step, l);
      EffectKeepsNames(retry.policy, Now(), step, l);
      now := now + l.elapsed;
      match step {
        case DownloadImage(a, image) =>
          ok := Download(a, image, l);
        case CreateNetwork(a, n) =>
          ok := docker.CreateNetwork(Scoped(a, n), l.fails);
        case StopContainer(a, s, id) =>
          ok := docker.StopContainer(id, l.fails);
          if ok { apps := UpdateState(apps, a, s, Stopped); }
        case PauseContainer(a, s, id) =>
          ok := docker.PauseContainer(id, l.fails);
          if ok { apps := UpdateState(apps, a, s, Paused); }
        case UnpauseContainer(a, s, id) =>
          ok := docker.UnpauseContainer(id, l.fails);
          if ok { apps := UpdateState(apps, a, s, Running); }
        case StartStoppedContainer(a, s, id) =>
          ok := RestartStopped(a, s, id, l);
        case RemoveContainer(a, s, id) =>
          ok := docker.RemoveContainer(id, l.fails);
          if ok { apps := RemoveService(apps, a, s); }
        case StartContainer(a, s) =>
          ok := StartService(a, s, l);
        case RemoveNetwork(a, n) =>
          ok := docker.RemoveNetwork(Scoped(a, n), l.fails);
        case CreateVolume(a, v) =>
          ok := docker.CreateVolume(Scoped(a, v), l.fails);
        case RemoveVolume(a, v) =>
          ok := docker.RemoveVolume(Scoped(a, v), l.fails);
      }
    }

    /** `syncCurrentStateFromDocker`: a failing listing leaves the old state. */
    method SyncCurrentState(sl: SyncLuck)
      requires Valid()
      modifies this
      ensures Valid() && Now() == Resync(old(Now()), sl) && isApplyingState == old(isApplyingState)
    {
      if !sl.listFails {
        apps := SyncStateFromDocker(docker, sl.listing, sl.inspectFails);
      }
    }

    /** `applyTargetState`; a call while another one runs does nothing. */
    method ApplyTargetState(f: Fortune) returns (failures: seq<Step>)
      requires Valid() && PlannerLoops.Keyed(apps) && PlannerLoops.Keyed(target)
      modifies this, docker, retry
      ensures Valid() && isApplyingState == old(isApplyingState)
      ensures Now() == if old(isApplyingState) then old(Now()) else Apply(retry.policy, old(Now()), f)
      ensures failures == if old(isApplyingState) then []
                          else FailedSteps(retry.policy, Planned(old(Now())), NextPlan(retry.policy, old(Now())), f, 0)
    {
      hide Exec, Plan, TidyCurrentApps, TidyTargetApps;
      failures := [];
      if isApplyingState {
        return;
      }
      isApplyingState := true;
      ghost var start := Now();
      var answers := Answers(retry.policy, World(apps, target, DockerState(map[], {}, {}, {}, 0, multiset{}),
          retry.retryState, now));
      assert forall image :: answers(image) == Answers(retry.policy, Now())(image);
      PlanCongruence(apps, target, answers, Answers(retry.policy, Now()));
      var steps, c, t := PlannerLoops.CalculateSteps(apps, target, answers);
      apps, target := c, t;
      ghost var planned := Now();
      for i := 0 to |steps|
        invariant Valid() && isApplyingState
        invariant Now() == ExecAll(retry.policy, planned, steps[..i], f, 0)
        invariant failures == FailedSteps(retry.policy, planned, steps[..i], f, 0)
      {
        assert steps[..i + 1][..i] == steps[..i];
        var ok := ExecuteStep(steps[i], f(i));
        if !ok {
          failures := failures + [steps[i]];
        }
      }
      assert steps[..|steps|] == steps;
      isApplyingState := false;
    }
  }

  lemma {:induction false} UpdateCongruence(a: nat, c: seq<Service>, t: seq<Service>, ids: seq<nat>, g: Retryable,
      h: Retryable)
    requires forall image :: g(image) == h(image)
    ensures UpdateSteps(a, c, t, ids, g) == UpdateSteps(a, c, t, ids, h)
  {
    if ids != [] {
      UpdateCongruence(a, c, t, ids[..|ids| - 1], g, h);
    }
  }

  lemma {:induction false} StepsForCongruence(ids: seq<nat>, c: Apps, t: Apps, g: Retryable, h: Retryable)
    requires forall image :: g(image) == h(image)
    ensures StepsFor(ids, c, t, g) == StepsFor(ids, c, t, h)
  {
    if ids != [] {
      var a := ids[|ids| - 1];
      StepsForCongruence(ids[..|ids| - 1], c, t, g, h);
      if a in c && a in t {
        UpdateCongruence(a, c[a].services, t[a].services, AllIds(c[a].services, t[a].services), g, h);
      }
    }
  }

  /** The plan depends on the retry answers only. */
  lemma PlanCongruence(c: Apps, t: Apps, g: Retryable, h: Retryable)
    requires forall image :: g(image) == h(image)
    ensures Plan(c, t, g) == Plan(c, t, h)
  {
    StepsForCongruence(AppIds(c, t), c, t, g, h);
  }
}
