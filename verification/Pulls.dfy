/** Which image pulls the retry table gates. Downloads ask it; a start that finds
    its image absent pulls up to three times without asking, so the bound on
    retries holds of the downloads only. */
module Pulls {
  import opened Text
  import opened Types
  import opened Retry
  import opened Docker
  import opened StateHelpers
  import opened Planner
  import opened Executor
  import opened DockerSync
  import opened PlanFacts
  import opened Readiness

  /** The pulls of an image that a start makes. */
  ghost function StartPulls(d: DockerState, s: Service, l: Luck): nat {
    if l.find || FindByName(d, NameOf(s)).Some? || s.imageName in d.images then 0
    else if l.failedPulls >= 3 then 3
    else l.failedPulls + 1
  }

  lemma StartPullsIs(d: DockerState, s: Service, l: Luck, image: string)
    ensures Start(d, s, l).docker.pulls[image] == d.pulls[image] + (if image == s.imageName then StartPulls(d, s,
            l) else 0)
  {
    hide PrintContainer, JoinNetworks, NameOf, Startable;
  }

  /** How often a step pulls an image: a download once if the retry table allows
      it, a start without asking. */
  ghost function PullsOf(p: Policy, w: World, step: Step, l: Luck, image: string): nat {
    match step
    case DownloadImage(_, i) => if i == image && Allowed(p, w.retry, ImageKey(i), w.now + l.elapsed) then 1 else 0
    case StartContainer(_, s) => if s.imageName == image then StartPulls(w.docker, s, l) else 0
    case StartStoppedContainer(a, s, id) =>
      var record := Lookup(w.apps, a, s);
      var removed := Remove(w.docker, id, l.fails);
      if record.Some? && removed.ok && record.value.imageName == image then StartPulls(removed.docker,
          record.value, l) else 0
    case _ => 0
  }

  /** Every pull is accounted for. */
  lemma PullsCounted(p: Policy, w: World, step: Step, l: Luck, image: string)
    requires p.intervals != []
    ensures Exec(p, w, step, l).world.docker.pulls[image] == w.docker.pulls[image] + PullsOf(p, w, step, l, image)
  {
    hide Exec, Start, StartPulls, Allowed, Scoped, InUse;
    EffectIs(p, w, step, l);
    match step
    case StartContainer(_, s) => StartPullsIs(w.docker, s, l, image);
    case StartStoppedContainer(a, s, id) =>
      if Lookup(w.apps, a, s).Some? {
        StartPullsIs(Remove(w.docker, id, l.fails).docker, Lookup(w.apps, a, s).value, l, image);
      }
    case _ =>
  }

  /** A download whose pull fails is an act of the bounded runs: the same gate,
      the same table afterwards, and a pull exactly when one is logged. */
  lemma DownloadIsTry(p: Policy, w: World, a: nat, image: string, l: Luck, db: Database, log: seq<Attempt>)
    requires p.intervals != [] && l.failedPulls > 0
    ensures var act := Try(ImageKey(image), w.now, l.error, IsRetryableError(l.error), l.jitter);
            var after := Perform(p, Agent(w.retry, db, log), act);
            var w' := ExecDownload(p, w, a, image, l).world;
            && w'.retry == after.table
            && w'.docker.pulls[image] - w.docker.pulls[image] == |after.log| - |log|
  {
    hide IsRetryableError, MarkError, AfterFailure, Allowed, ToRow;
    BlameKeeps(w, a, ByImage(image));
    var key := ImageKey(image);
    var t := AfterFailure(p, w.retry, key, l.error, IsRetryableError(l.error), w.now, l.jitter);
    BlameKeeps(w.(docker := Pull(w.docker, image, true).docker, retry := t), a, ByImage(image));
    hide Blame;
  }

  lemma BlameKeeps(w: World, a: nat, who: Who)
    ensures Blame(w, a, who, ImagePullBackOff).retry == w.retry && Blame(w, a, who, ImagePullBackOff).docker == w.docker
  {
    hide MarkError;
  }

  // ---- Which services of a blocked image are started all the same ----

  /** With the image blocked, the plan starts the service exactly if its whole
      app is new and it is wanted running, or if it is to be replaced. */
  lemma BlockedStarts(p: Policy, w: World, a: nat, t: Service)
    requires AllUnique(w.apps) && AllUnique(w.target) && OnlyIn(w.apps, a, t.serviceId) && OnlyIn(w.target, a,
             t.serviceId)
    requires a in w.target && t in w.target[a].services && !Answers(p, w)(t.imageName)
    ensures var c := FindLast(ServicesOf(AppAt(w.apps, a)), t.serviceId);
            Starts(NextPlan(p, w), a, t.serviceId) <==> (a !in w.apps && Desired(t) == Running) || Replaced(c, t)
  {
    hide Plan, AllUnique, OnlyIn, Starts, Replaced, Answers;
    PlanStarts(w.apps, w.target, Answers(p, w), a, t);
  }

  /** A replacement removes the working container before the start, whether or
      not the target's image may be pulled. */
  lemma BlockedRemoves(p: Policy, w: World, a: nat, t: Service, id: ContainerId)
    requires AllUnique(w.apps) && AllUnique(w.target) && OnlyIn(w.apps, a, t.serviceId) && OnlyIn(w.target, a,
             t.serviceId)
    requires a in w.target && t in w.target[a].services && !Answers(p, w)(t.imageName)
    ensures var c := FindLast(ServicesOf(AppAt(w.apps, a)), t.serviceId);
            RemoveContainer(a, t.serviceId, id) in NextPlan(p, w) <==> Replaced(c, t) && c.value.containerId == Some(id)
  {
    hide Plan, AllUnique, OnlyIn, Replaced, Answers;
    PlanRemoves(w.apps, w.target, Answers(p, w), a, t, id);
  }

  /** The world in which step `k` of the next plan is executed. */
  ghost function WorldAt(p: Policy, w: World, f: Fortune, k: nat): World
    requires p.intervals != [] && k <= |NextPlan(p, w)|
  {
    ExecAll(p, Planned(w), NextPlan(p, w)[..k], f, 0)
  }

  /** The pulls that a planned start makes when its turn comes, whatever the
      retry table says: some exactly if no container has the service's name and
      the image is absent then. */
  lemma PlannedStartPulls(p: Policy, w: World, f: Fortune, k: nat, a: nat, x: Service)
    requires p.intervals != [] && k < |NextPlan(p, w)| && NextPlan(p, w)[k] == StartContainer(a, x)
    ensures var v, v' := WorldAt(p, w, f, k), WorldAt(p, w, f, k + 1);
            && v'.docker.pulls[x.imageName] == v.docker.pulls[x.imageName] + StartPulls(v.docker, x, f(k))
            && (StartPulls(v.docker, x, f(k)) > 0 <==>
                !f(k).find && FindByName(v.docker, NameOf(x)).None? && x.imageName !in v.docker.images)
  {
    hide Exec, Planned, Plan, NameOf;
    var steps := NextPlan(p, w);
    var v := WorldAt(p, w, f, k);
    assert steps[..k + 1][..k] == steps[..k] && steps[..k + 1][k] == steps[k];
    assert f(0 + k) == f(k);
    assert WorldAt(p, w, f, k + 1) == Exec(p, v, steps[k], f(k)).world;
    PullsCounted(p, v, steps[k], f(k), x.imageName);
  }

  /** A blocked, even terminal, image is pulled again: a service that is to be
      started has its step, and when that step's turn comes it pulls unless the
      image has arrived or a container has the name. */
  lemma TerminalStillPulled(p: Policy, w: World, f: Fortune, a: nat, t: Service) returns (k: nat, x: Service)
    requires p.intervals != []
    requires AllUnique(w.apps) && AllUnique(w.target) && OnlyIn(w.apps, a, t.serviceId) && OnlyIn(w.target, a,
             t.serviceId)
    requires a in w.target && t in w.target[a].services
    requires ImageKey(t.imageName) in w.retry && w.retry[ImageKey(t.imageName)].terminal
    requires (a !in w.apps && Desired(t) == Running) || Replaced(FindLast(ServicesOf(AppAt(w.apps, a)), t.serviceId), t)
    ensures !Answers(p, w)(t.imageName)
    ensures k < |NextPlan(p, w)| && NextPlan(p, w)[k] == StartContainer(a, x) && x.serviceId == t.serviceId
    ensures WorldAt(p, w, f, k + 1).docker.pulls[x.imageName]
            == WorldAt(p, w, f, k).docker.pulls[x.imageName] + StartPulls(WorldAt(p, w, f, k).docker, x, f(k))
  {
    hide Plan, AllUnique, OnlyIn, Replaced, StartPulls, WorldAt;
    BlockedStarts(p, w, a, t);
    x :| StartContainer(a, x) in NextPlan(p, w) && x.serviceId == t.serviceId;
    k :| 0 <= k < |NextPlan(p, w)| && NextPlan(p, w)[k] == StartContainer(a, x);
    PlannedStartPulls(p, w, f, k, a, x);
  }

  // ---- One device where it happens ----

  function Lonely(image: string): Service {
    Service(5, "web", image, 1, "app", Some(Running), Config([], [], [], [], None, None, map[]), None, None, Unmarked)
  }

  /** A device without containers whose one service has a terminal image key. */
  function Stuck(image: string): World {
    World(map[], map[1 := App(1, "app", [Lonely(image)])], DockerState(map[], {}, {}, {}, 0, multiset{}),
          map[ImageKey(image) := RetryState(0, 0, "", true, true)], 0)
  }

  lemma AllEqual(ids: seq<nat>, a: nat)
    requires forall i | 0 <= i < |ids| :: ids[i] == a
    ensures Distinct(ids) ==> |ids| <= 1
  {
    if |ids| > 1 {
      assert ids[0] == ids[1];
    }
  }

  lemma OnlyApp(target: Apps, a: nat)
    requires target.Keys == {a}
    ensures AppIds(map[], target) == [a]
  {
    var ids := AppIds(map[], target);
    assert a in target.Keys && a in ids;
    forall x | x in ids ensures x == a {
      assert x in target.Keys;
    }
    assert forall i | 0 <= i < |ids| :: ids[i] in ids;
    AllEqual(ids, a);
  }

  lemma LonelySteps(image: string, mayPull: Retryable)
    ensures var t := Lonely(image);
            AppSteps(1, None, Some(App(1, "app", [t])), mayPull) == [DownloadImage(1, image), StartContainer(1, t)]
  {
    var t := Lonely(image);
    assert [t][..0] == [];
    assert AllNetworks([]) == [] && AllVolumes([]) == [] && VolumeNames([]) == [];
    assert AllNetworks([t]) == [] && AllVolumes([t]) == [];
    assert AddSteps(1, []) == [];
    assert AddSteps(1, [t]) == [DownloadImage(1, image), StartContainer(1, t)];
  }

  lemma StuckPlan(p: Policy, image: string)
    ensures NextPlan(p, Stuck(image)) == [DownloadImage(1, image), StartContainer(1, Lonely(image))]
  {
    hide AppSteps, AppIds, Answers;
    var w := Stuck(image);
    OnlyApp(w.target, 1);
    LonelySteps(image, Answers(p, w));
    assert [1][..0] == [];
    assert StepsFor([1], w.apps, w.target, Answers(p, w)) == [] + AppSteps(1, None, AppAt(w.target, 1), Answers(p, w));
  }

  /** Three pulls of an image that the retry manager has given up. */
  lemma StuckPullsThrice(p: Policy, image: string, f: Fortune)
    requires p.intervals != [] && !f(1).find && f(1).failedPulls >= 3
    ensures Apply(p, Stuck(image), f).docker.pulls[image] == 3
  {
    hide Plan, Exec, PrintContainer, NameOf;
    var w := Stuck(image);
    StuckPlan(p, image);
    var steps := NextPlan(p, w);
    assert steps[..0] == [] && steps[..1] == [steps[0]] && steps[..1][..0] == [] && steps[..2] == steps;
    var w0 := Planned(w);
    assert w0.docker == w.docker && w0.retry == w.retry;
    var w1 := Exec(p, w0, steps[0], f(0)).world;
    assert ExecAll(p, w0, steps[..1], f, 0) == w1 by { ExecOne(p, w0, steps[0], f, 0); }
    EffectIs(p, w0, steps[0], f(0));
    assert w1.docker == w.docker;
    PlannedStartPulls(p, w, f, 1, 1, Lonely(image));
  }

  // ---- Bounded retries of the executor's own runs ----

  /** A step that asks the retry manager for this image and is let through. */
  predicate Gated(p: Policy, w: World, step: Step, l: Luck, image: string) {
    step.DownloadImage? && step.imageName == image && Allowed(p, w.retry, ImageKey(image), w.now + l.elapsed)
  }

  /** When the downloads of an image are attempted during an execution. */
  ghost function AttemptTimes(p: Policy, w: World, steps: seq<Step>, f: Fortune, base: nat, image: string): seq<int>
    requires p.intervals != []
  {
    if steps == [] then []
    else
      var n := |steps| - 1;
      var m := ExecAll(p, w, steps[..n], f, base);
      var times := AttemptTimes(p, w, steps[..n], f, base, image);
      if Gated(p, m, steps[n], f(base + n), image) then times + [m.now + f(base + n).elapsed] else times
  }

  /** The world that a turn plans in. */
  function Synced(w: World, turn: Turn): World {
    Resync(Opening(w, turn), turn.sync)
  }

  ghost function AttemptsOver(p: Policy, w: World, turns: seq<Turn>, image: string): seq<int>
    requires p.intervals != []
  {
    if turns == [] then []
    else
      var n := |turns| - 1;
      var s := Synced(Rounds(p, w, turns[..n]), turns[n]);
      AttemptsOver(p, w, turns[..n], image)
      + AttemptTimes(p, Planned(s), NextPlan(p, s), turns[n].steps, 0, image)
  }

  /** Every download of the image meets a failing pull and a jitter in range. */
  predicate Unlucky(steps: seq<Step>, f: Fortune, base: nat, image: string) {
    forall i | 0 <= i < |steps| && steps[i].DownloadImage? && steps[i].imageName == image ::
      f(base + i).failedPulls > 0 && IsJitter(f(base + i).jitter)
  }

  ghost predicate NoSuccess(p: Policy, w: World, turns: seq<Turn>, image: string)
    requires p.intervals != []
  {
    forall k | 0 <= k < |turns| ::
      Unlucky(NextPlan(p, Synced(Rounds(p, w, turns[..k]), turns[k])), turns[k].steps, 0, image)
  }

  function AttemptLog(key: string, times: seq<int>): seq<Attempt> {
    seq(|times|, i requires 0 <= i < |times| => Attempt(key, times[i]))
  }

  lemma {:induction false} LogTimes(key: string, times: seq<int>)
    ensures Times(AttemptLog(key, times), key) == times
  {
    if times != [] {
      var n := |times| - 1;
      LogTimes(key, times[..n]);
      assert AttemptLog(key, times)[..n] == AttemptLog(key, times[..n]);
      assert times == times[..n] + [times[n]];
    }
  }

  /** The attempts so far are consistent with the retry table of the world. */
  ghost predicate InStep(p: Policy, w: World, key: string, times: seq<int>)
    requires p.intervals != []
  {
    Consistent(p, Agent(w.retry, Save(w.retry), AttemptLog(key, times)), key, w.now)
  }

  /** Nothing about the key changes and time goes on. */
  lemma InStepLater(p: Policy, w: World, w': World, key: string, times: seq<int>)
    requires p.intervals != [] && InStep(p, w, key, times) && w'.now >= w.now
    requires (key in w.retry <==> key in w'.retry) && (key in w.retry ==> w'.retry[key] == w.retry[key])
    ensures InStep(p, w', key, times)
  {
    LogTimes(key, times);
  }

  lemma DownloadRetry(p: Policy, w: World, a: nat, image: string, l: Luck)
    requires p.intervals != []
    ensures var w', key := ExecDownload(p, w, a, image, l).world, ImageKey(image);
            && w'.now == w.now
            && w'.retry == if !Allowed(p, w.retry, key, w.now) then w.retry
                           else if l.failedPulls > 0 then
                             AfterFailure(p, w.retry, key, l.error, IsRetryableError(l.error), w.now, l.jitter)
                           else AfterSuccess(w.retry, key)
  {
    hide MarkError, AfterFailure, IsRetryableError, Allowed;
  }

  lemma KeysDiffer(x: string, y: string)
    requires x != y
    ensures ImageKey(x) != ImageKey(y)
  {
    assert ImageKey(x)[6..] == x && ImageKey(y)[6..] == y;
  }

  /** The image's own attempt, as an act of the bounded runs. */
  lemma InStepAttempt(p: Policy, w: World, w': World, l: Luck, key: string, times: seq<int>)
    requires p.intervals != [] && InStep(p, w, key, times) && Allowed(p, w.retry, key, w'.now) && w'.now >= w.now
    requires IsJitter(l.jitter)
    requires w'.retry == AfterFailure(p, w.retry, key, l.error, IsRetryableError(l.error), w'.now, l.jitter)
    ensures InStep(p, w', key, times + [w'.now])
  {
    hide IsRetryableError, AfterFailure, Allowed, Consistent;
    var a := Agent(w.retry, Save(w.retry), AttemptLog(key, times));
    var act := Try(key, w'.now, l.error, IsRetryableError(l.error), l.jitter);
    ConsistentStep(p, a, act, key, w.now, w'.now);
    PerformSaves(p, a, act);
    assert AttemptLog(key, times + [w'.now]) == AttemptLog(key, times) + [Attempt(key, w'.now)];
  }

  lemma InStepExec(p: Policy, w: World, step: Step, l: Luck, image: string, times: seq<int>)
    requires p.intervals != [] && InStep(p, w, ImageKey(image), times)
    requires step.DownloadImage? && step.imageName == image ==> l.failedPulls > 0 && IsJitter(l.jitter)
    ensures InStep(p, Exec(p, w, step, l).world, ImageKey(image),
                   if Gated(p, w, step, l, image) then times + [w.now + l.elapsed] else times)
  {
    hide InStep, ExecDownload, AfterFailure, AfterSuccess, Allowed, ImageKey, IsRetryableError;
    var key := ImageKey(image);
    var w1 := w.(now := w.now + l.elapsed);
    var w' := Exec(p, w, step, l).world;
    if step.DownloadImage? {
      DownloadRetry(p, w1, step.appId, step.imageName, l);
      if step.imageName == image {
        if Allowed(p, w.retry, key, w1.now) {
          InStepAttempt(p, w, w', l, key, times);
        } else {
          InStepLater(p, w, w', key, times);
        }
      } else {
        KeysDiffer(step.imageName, image);
        OtherKey(p, w1.retry, ImageKey(step.imageName), key, l, w1.now);
        InStepLater(p, w, w', key, times);
      }
    } else {
      RetryOnlyDownload(p, w, step, l);
      InStepLater(p, w, w', key, times);
    }
  }

  lemma OtherKey(p: Policy, t: Table, own: string, key: string, l: Luck, now: int)
    requires p.intervals != [] && own != key
    ensures var t' := AfterFailure(p, t, own, l.error, IsRetryableError(l.error), now, l.jitter);
            (key in t' <==> key in t) && (key in t ==> t'[key] == t[key])
    ensures var t' := AfterSuccess(t, own); (key in t' <==> key in t) && (key in t ==> t'[key] == t[key])
  {
    hide IsRetryableError, Failed;
  }

  lemma {:induction false} InStepAll(p: Policy, w: World, steps: seq<Step>, f: Fortune, base: nat, image: string,
      times: seq<int>)
    requires p.intervals != [] && InStep(p, w, ImageKey(image), times) && Unlucky(steps, f, base, image)
    ensures InStep(p, ExecAll(p, w, steps, f, base), ImageKey(image), times + AttemptTimes(p, w, steps, f, base, image))
  {
    hide InStep, Exec, Gated, ImageKey;
    if steps == [] {
      assert times + [] == times;
    } else {
      var n := |steps| - 1;
      assert forall i | 0 <= i < n :: steps[..n][i] == steps[i];
      InStepAll(p, w, steps[..n], f, base, image, times);
      var m := ExecAll(p, w, steps[..n], f, base);
      var so := AttemptTimes(p, w, steps[..n], f, base, image);
      InStepExec(p, m, steps[n], f(base + n), image, times + so);
      var at := m.now + f(base + n).elapsed;
      assert times + (so + [at]) == times + so + [at];
    }
  }

  lemma {:induction false} InStepOver(p: Policy, w: World, turns: seq<Turn>, image: string)
    requires p.intervals != [] && ImageKey(image) !in w.retry && NoSuccess(p, w, turns, image)
    ensures InStep(p, Rounds(p, w, turns), ImageKey(image), AttemptsOver(p, w, turns, image))
  {
    hide Unlucky, NextPlan, Planned, ExecAll, AttemptTimes, ImageKey, Sync;
    if turns == [] {
      LogTimes(ImageKey(image), []);
    } else {
      hide InStep;
      var n := |turns| - 1;
      assert NoSuccess(p, w, turns[..n], image) by {
        forall k | 0 <= k < n
          ensures Unlucky(NextPlan(p, Synced(Rounds(p, w, turns[..n][..k]), turns[..n][k])), turns[..n][k].steps, 0,
                  image)
        {
          assert turns[..n][..k] == turns[..k] && turns[..n][k] == turns[k];
        }
      }
      InStepOver(p, w, turns[..n], image);
      var before, times := Rounds(p, w, turns[..n]), AttemptsOver(p, w, turns[..n], image);
      var s := Synced(before, turns[n]);
      OpeningIs(before, turns[n]);
      InStepLater(p, before, Planned(s), ImageKey(image), times) by { PlannedRetry(s); }
      assert Unlucky(NextPlan(p, s), turns[n].steps, 0, image);
      InStepAll(p, Planned(s), NextPlan(p, s), turns[n].steps, 0, image, times);
    }
  }

  lemma PlannedRetry(w: World)
    ensures Planned(w).retry == w.retry && Planned(w).now == w.now
  {
  }

  /** Bounded retries of the agent itself. From no record, over any number of
      rounds with changing targets and restarts, as long as no download of the
      image succeeds: the retry manager lets at most max(1, maxRetries) of them
      through, and the one after failure `k` no sooner than 0.85 of its
      interval later. */
  lemma BoundedDownloads(p: Policy, w: World, turns: seq<Turn>, image: string)
    requires p.intervals != [] && ImageKey(image) !in w.retry && NoSuccess(p, w, turns, image)
    ensures var times := AttemptsOver(p, w, turns, image);
            && |times| <= (if p.maxRetries == 0 then 1 else p.maxRetries)
            && forall k | 0 < k < |times| :: times[k] >= times[k - 1] + ShortestWait(p, k)
  {
    InStepOver(p, w, turns, image);
    LogTimes(ImageKey(image), AttemptsOver(p, w, turns, image));
  }
}
