/** From the plan to its execution: the steps a round executes are sane, the
    networks are there when containers start, and a service's containers and
    record reach its own steps as the sync found them. */
module RoundFacts {
  import opened Text
  import opened Types
  import opened Retry
  import opened Docker
  import opened StateHelpers
  import opened DockerSync
  import opened Planner
  import opened Executor
  import opened Isolation
  import opened PlanFacts
  import opened NetworkPlanning

  // ---- Sane plans ----

  /** The container ids in memory belong to the services that hold them. */
  ghost predicate AllOwned(d: DockerState, apps: Apps) {
    forall a, x | a in apps && x in apps[a].services :: x.containerId.Some? ==>
        Owned(d, x.containerId.value, x.serviceId)
  }

  /** The target's services are filed under their app and print their own ids. */
  ghost predicate Filed(target: Apps) {
    forall a, t | a in target && t in target[a].services :: t.appId == a && Faithful(t)
  }

  ghost predicate Grounded(w: World) {
    Sane(w.docker) && Remembered(w.apps) && AllOwned(w.docker, w.apps) && Filed(w.target)
  }

  lemma TidyFaithful(x: Service)
    requires Faithful(x)
    ensures Faithful(Tidy(x)) && Tidy(x).appId == x.appId
  {
    assert PrintLabels(Tidy(x)) == PrintLabels(x);
  }

  /** A step made from owned and faithful records is sane. */
  lemma OwnStepSane(d: DockerState, a: nat, s: nat, c: Option<Service>, t: Option<Service>, x: Step)
    requires OwnStep(a, s, c, t, x)
    requires c.Some? && c.value.containerId.Some? ==> Owned(d, c.value.containerId.value, s)
    requires t.Some? ==> t.value.appId == a && Faithful(t.value)
    ensures StepSane(d, x)
  {
    hide Faithful, Tidy, Owned;
    if t.Some? {
      TidyFaithful(t.value);
    }
  }

  /** The planner only makes sane steps from a grounded state. */
  lemma PlanSane(p: Policy, w: World)
    requires Grounded(w)
    ensures StepsSane(w.docker, NextPlan(p, w))
  {
    hide Sane, Plan, Faithful, OwnStep, StepSane, Owned, Phase, ServiceOf;
    var steps := NextPlan(p, w);
    forall i | 0 <= i < |steps| ensures StepSane(w.docker, steps[i]) {
      var x := steps[i];
      if ServiceOf(x).Some? {
        ServicePhase(x);
        PlanArises(w.apps, w.target, Answers(p, w), x);
        var c, t, s :| OwnStep(x.appId, s, c, t, x)
                       && (c.Some? ==> c.value in ServicesOf(AppAt(w.apps, x.appId)) && c.value.serviceId == s)
                       && (t.Some? ==> t.value in ServicesOf(AppAt(w.target, x.appId)) && t.value.serviceId == s);
        OwnStepSane(w.docker, x.appId, s, c, t, x);
      } else {
        FrameSane(w.docker, x);
      }
    }
  }

  lemma FrameSane(d: DockerState, x: Step)
    requires ServiceOf(x).None?
    ensures StepSane(d, x)
  {
  }

  lemma ServicePhase(x: Step)
    requires ServiceOf(x).Some?
    ensures Phase(x) == 2
  {
  }

  lemma PlannedSane(w: World)
    requires Remembered(w.apps) && Sane(w.docker)
    ensures WorldSane(Planned(w))
  {
    hide Sane, Faithful, Tidy, Compared;
    var apps := TidyCurrentApps(w.apps, w.target);
    forall a, y | a in apps && y in apps[a].services ensures Faithful(y) {
      if a in w.target {
        var i :| 0 <= i < |apps[a].services| && apps[a].services[i] == y;
        TidyFaithful(w.apps[a].services[i]);
      }
    }
  }

  // ---- What a sync gives ----

  lemma {:induction false} SyncMembers(containers: map<ContainerId, Container>, listing: seq<ContainerId>,
      bad: set<ContainerId>, a: nat, x: Service)
    requires a in Sync(containers, listing, bad) && x in Sync(containers, listing, bad)[a].services
    ensures exists id :: id in containers && id in listing && x == Read(id, containers[id], id !in bad) && x.appId == a
  {
    hide Read, Managed;
    var n := |listing| - 1;
    var init, id := listing[..n], listing[n];
    assert listing == init + [id];
    var before := Sync(containers, init, bad);
    if a in before && x in before[a].services {
      SyncMembers(containers, init, bad, a, x);
    }
  }

  /** A sync of sane containers grounds the state. */
  lemma SyncGrounded(w: World, sl: SyncLuck)
    requires Sane(w.docker) && Filed(w.target) && !sl.listFails
    ensures Grounded(Resync(w, sl))
  {
    hide Faithful, Sync, Read;
    var s := Resync(w, sl);
    forall a, x | a in s.apps && x in s.apps[a].services
      ensures Faithful(x) && (x.containerId.Some? ==> Owned(w.docker, x.containerId.value, x.serviceId))
    {
      SyncMembers(w.docker.containers, sl.listing, sl.inspectFails, a, x);
      var id :| id in w.docker.containers && x == Read(id, w.docker.containers[id], id !in sl.inspectFails);
      ReadFaithful(id, w.docker.containers[id], id !in sl.inspectFails);
    }
  }

  // ---- Networks during execution ----

  lemma {:induction false} StartKeepsNetworks(d: DockerState, s: Service, l: Luck)
    ensures Start(d, s, l).docker.networks == d.networks
  {
    hide PrintContainer, JoinNetworks, FindByName, Startable, NameOf;
  }

  lemma NetworkStep(p: Policy, w: World, step: Step, l: Luck, a: nat, n: string)
    requires step != RemoveNetwork(a, n)
    ensures Scoped(a, n) in Effect(p, w, step, l).networks <==>
            Scoped(a, n) in w.docker.networks || (step == CreateNetwork(a, n) && !l.fails)
  {
    hide Start, Scoped, InUse;
    match step
    case StartContainer(_, s) => StartKeepsNetworks(w.docker, s, l);
    case StartStoppedContainer(b, s, id) =>
      if Lookup(w.apps, b, s).Some? {
        StartKeepsNetworks(Remove(w.docker, id, l.fails).docker, Lookup(w.apps, b, s).value, l);
      }
    case CreateNetwork(b, m) => if Scoped(b, m) == Scoped(a, n) { ScopedInjective(b, m, a, n); }
    case RemoveNetwork(b, m) => if Scoped(b, m) == Scoped(a, n) { ScopedInjective(b, m, a, n); }
    case _ =>
  }

  /** The network creations among the steps do not fail. */
  ghost predicate CreationsSucceed(steps: seq<Step>, f: Fortune, base: nat) {
    forall i | 0 <= i < |steps| && steps[i].CreateNetwork? :: !f(base + i).fails
  }

  lemma CreationsInit(steps: seq<Step>, f: Fortune, base: nat)
    requires CreationsSucceed(steps, f, base) && steps != []
    ensures CreationsSucceed(steps[..|steps| - 1], f, base)
    ensures steps[|steps| - 1].CreateNetwork? ==> !f(base + |steps| - 1).fails
  {
    assert forall i | 0 <= i < |steps| - 1 :: steps[..|steps| - 1][i] == steps[i];
    assert f(base + (|steps| - 1)) == f(base + |steps| - 1);
  }

  lemma {:induction false} NetworkAfter(p: Policy, w: World, steps: seq<Step>, f: Fortune, base: nat, a: nat, n: string)
    requires p.intervals != [] && CreationsSucceed(steps, f, base) && RemoveNetwork(a, n) !in steps
    ensures Scoped(a, n) in ExecAll(p, w, steps, f, base).docker.networks <==>
            Scoped(a, n) in w.docker.networks || CreateNetwork(a, n) in steps
  {
    hide Exec, Effect, Scoped, CreationsSucceed;
    if steps != [] {
      var k := |steps| - 1;
      assert steps == steps[..k] + [steps[k]];
      CreationsInit(steps, f, base);
      NetworkAfter(p, w, steps[..k], f, base, a, n);
      var m := ExecAll(p, w, steps[..k], f, base);
      EffectIs(p, m, steps[k], f(base + k));
      NetworkStep(p, m, steps[k], f(base + k), a, n);
    }
  }

  /** At a container step of app `a` the app's networks are those that were
      there and those that had to be created. */
  lemma NetworksAtStep(p: Policy, w: World, f: Fortune, k: nat, n: string)
    requires p.intervals != [] && k < |NextPlan(p, w)| && Phase(NextPlan(p, w)[k]) == 2
    requires CreationsSucceed(NextPlan(p, w)[..k], f, 0)
    ensures var a := NextPlan(p, w)[k].appId;
            Scoped(a, n) in ExecAll(p, Planned(w), NextPlan(p, w)[..k], f, 0).docker.networks <==>
            Scoped(a, n) in w.docker.networks || (NamesNetwork(AppAt(w.target, a), n)
                && !NamesNetwork(AppAt(w.apps, a), n))
  {
    hide ExecAll, Scoped, NamesNetwork, Plan;
    var steps := NextPlan(p, w);
    var a := steps[k].appId;
    PlanExact(w.apps, w.target, Answers(p, w), a, n);
    assert forall i | 0 <= i < k :: steps[i] != RemoveNetwork(a, n);
    if CreateNetwork(a, n) in steps {
      var i :| 0 <= i < |steps| && steps[i] == CreateNetwork(a, n);
      assert i > k ==> Phase(steps[k]) <= Phase(steps[i]);
      assert steps[..k][i] == steps[i];
    }
    NetworkAfter(p, Planned(w), steps[..k], f, 0, a, n);
  }

  ghost predicate AllPresent(d: DockerState, a: nat, names: seq<string>) {
    forall n | n in names :: Scoped(a, n) in d.networks
  }

  lemma StartedRecord(p: Policy, w: World, k: nat, a: nat, s: Service)
    requires k < |NextPlan(p, w)| && NextPlan(p, w)[k] == StartContainer(a, s)
    ensures forall n | n in s.config.networks :: NamesNetwork(AppAt(w.target, a), n)
  {
    hide Plan;
    PlanArises(w.apps, w.target, Answers(p, w), NextPlan(p, w)[k]);
    var c, t, i :| OwnStep(a, i, c, t, StartContainer(a, s)) && (t.Some? ==> t.value in ServicesOf(AppAt(w.target, a)));
    forall n | n in s.config.networks ensures NamesNetwork(AppAt(w.target, a), n) {
      SortedMember(t.value.config.networks, n);
    }
  }

  /** If the creations succeed, a container is started with all of its networks
      present exactly when those that the current services of the app already
      name were there. */
  lemma StartHasNetworks(p: Policy, w: World, f: Fortune, k: nat, a: nat, s: Service)
    requires p.intervals != [] && k < |NextPlan(p, w)| && NextPlan(p, w)[k] == StartContainer(a, s)
    requires CreationsSucceed(NextPlan(p, w)[..k], f, 0)
    ensures AllPresent(ExecAll(p, Planned(w), NextPlan(p, w)[..k], f, 0).docker, a, s.config.networks) <==>
            forall n | n in s.config.networks && NamesNetwork(AppAt(w.apps, a), n) :: Scoped(a, n) in w.docker.networks
  {
    hide ExecAll, Scoped, NamesNetwork, Plan, CreationsSucceed, Planned, NextPlan;
    StartedRecord(p, w, k, a, s);
    forall n ensures
      Scoped(a, n) in ExecAll(p, Planned(w), NextPlan(p, w)[..k], f, 0).docker.networks <==>
      Scoped(a, n) in w.docker.networks || (NamesNetwork(AppAt(w.target, a), n) && !NamesNetwork(AppAt(w.apps, a), n))
    {
      NetworksAtStep(p, w, f, k, n);
    }
  }

  // ---- Reaching the steps of one service ----

  lemma SanePart(d: DockerState, x: seq<Step>, y: seq<Step>)
    requires StepsSane(d, x + y)
    ensures StepsSane(d, x) && StepsSane(d, y)
  {
    hide StepSane;
    assert forall i | 0 <= i < |x| :: x[i] == (x + y)[i];
    assert forall i | 0 <= i < |y| :: y[i] == (x + y)[|x| + i];
  }

  /** Steps that avoid a service, before and after its own, change nothing of it. */
  lemma SplitRun(p: Policy, w: World, before: seq<Step>, group: seq<Step>, after: seq<Step>, f: Fortune, s: nat)
    requires p.intervals != [] && WorldSane(w) && StepsSane(w.docker, before + group + after)
    requires Avoids(before, s) && Avoids(after, s)
    ensures var v := ExecAll(p, w, before, f, 0);
            && WorldSane(v) && Evolves(w.docker, v.docker)
            && Slot(v.docker, s) == Slot(w.docker, s)
            && RecordsKept(w.apps, v.apps, s)
            && Slot(ExecAll(p, w, before + group + after, f, 0).docker, s)
               == Slot(ExecAll(p, v, group, f, |before|).docker, s)
  {
    hide Avoids, Slot, StepsSane, RecordsKept, SameAppsButMarks, Evolves, WorldSane, ExecAll;
    SanePart(w.docker, before + group, after);
    SanePart(w.docker, before, group);
    MinimalDisturbance(p, w, before, f, 0, s);
    var v := ExecAll(p, w, before, f, 0);
    StepsSaneLater(w.docker, v.docker, group);
    MinimalDisturbance(p, v, group, f, |before|, s);
    var u := ExecAll(p, v, group, f, |before|);
    EvolvesTransitive(w.docker, v.docker, u.docker);
    StepsSaneLater(w.docker, u.docker, after);
    MinimalDisturbance(p, u, after, f, |before| + |group|, s);
    ExecAppend(p, w, before, group, f, 0);
    ExecAppend(p, w, before + group, after, f, 0);
  }

  /** Up to its own steps, and after them, nothing changes a service's
      containers or, marks aside, its record. */
  lemma GroupReached(p: Policy, w: World, f: Fortune, a: nat, s: nat) returns (before: seq<Step>, after: seq<Step>)
    requires p.intervals != [] && Grounded(w) && AllUnique(w.apps) && AllUnique(w.target)
    requires OnlyIn(w.apps, a, s) && OnlyIn(w.target, a, s)
    ensures var group := Group(a, AppAt(w.apps, a), AppAt(w.target, a), Answers(p, w), s);
            var v := ExecAll(p, Planned(w), before, f, 0);
            && NextPlan(p, w) == before + group + after
            && Avoids(before, s) && Avoids(after, s)
            && WorldSane(v) && Evolves(w.docker, v.docker)
            && Slot(v.docker, s) == Slot(w.docker, s)
            && RecordsKept(Planned(w).apps, v.apps, s)
            && Slot(Apply(p, w, f).docker, s) == Slot(ExecAll(p, v, group, f, |before|).docker, s)
  {
    hide Plan, Group, Avoids, Slot, Sane, Remembered, AllOwned, Filed, StepsSane, AllUnique, OnlyIn, RecordsKept,
         Evolves;
    hide TidyCurrentApps, TidyTargetApps, ExecAll, WorldSane;
    PlanSane(p, w);
    PlannedSane(w);
    PlanSplit(w.apps, w.target, Answers(p, w), a, s);
    var group := Group(a, AppAt(w.apps, a), AppAt(w.target, a), Answers(p, w), s);
    before, after :| NextPlan(p, w) == before + group + after && Avoids(before, s) && Avoids(after, s);
    SplitRun(p, Planned(w), before, group, after, f, s);
  }

  lemma StepsSaneLater(d: DockerState, d': DockerState, steps: seq<Step>)
    requires StepsSane(d, steps) && Evolves(d, d')
    ensures StepsSane(d', steps)
  {
    hide StepSane, Evolves;
    forall i | 0 <= i < |steps| ensures StepSane(d', steps[i]) {
      StepSaneLater(d, d', steps[i]);
    }
  }

  /** A restart takes the record that the sync found. Its networks are present
      exactly when they were at the start of the plan: it never waits for a
      creation. */
  lemma RestartHasNetworks(p: Policy, w: World, f: Fortune, k: nat, a: nat, s: nat, id: ContainerId)
    requires p.intervals != [] && Grounded(w) && AllUnique(w.apps) && AllUnique(w.target)
    requires OnlyIn(w.apps, a, s) && OnlyIn(w.target, a, s)
    requires k < |NextPlan(p, w)| && NextPlan(p, w)[k] == StartStoppedContainer(a, s, id)
    requires CreationsSucceed(NextPlan(p, w)[..k], f, 0)
    ensures var v := ExecAll(p, Planned(w), NextPlan(p, w)[..k], f, 0);
            var record := Lookup(v.apps, a, s);
            && record.Some? && Plain(record) == Plain(Lookup(w.apps, a, s))
            && (AllPresent(v.docker, a, record.value.config.networks) <==>
                AllPresent(w.docker, a, record.value.config.networks))
  {
    hide ExecAll, NextPlan, Grounded, AllUnique, OnlyIn, Planned, Scoped, CreationsSucceed, Group, Slot, Apply,
         WorldSane, Evolves;
    var before, after := GroupReached(p, w, f, a, s);
    var steps := NextPlan(p, w);
    var group := Group(a, AppAt(w.apps, a), AppAt(w.target, a), Answers(p, w), s);
    RestartFirst(p, w, before, group, after, a, s, k);
    assert steps[..k] == before;
    var record := Lookup(ExecAll(p, Planned(w), before, f, 0).apps, a, s);
    forall n | n in record.value.config.networks
      ensures Scoped(a, n) in ExecAll(p, Planned(w), steps[..k], f, 0).docker.networks <==> Scoped(a, n) in w.docker.networks
    {
      NetworksAtStep(p, w, f, k, n);
      LookupNames(w.apps, a, s, n);
    }
  }

  lemma LookupNames(apps: Apps, a: nat, s: nat, n: string)
    requires Lookup(apps, a, s).Some? && n in Lookup(apps, a, s).value.config.networks
    ensures NamesNetwork(AppAt(apps, a), n)
  {
  }

  /** A restart is the first step of its service, whose record is not sorted. */
  lemma RestartFirst(p: Policy, w: World, before: seq<Step>, group: seq<Step>, after: seq<Step>, a: nat, s: nat, k: nat)
    requires AllUnique(w.apps) && AllUnique(w.target)
    requires group == Group(a, AppAt(w.apps, a), AppAt(w.target, a), Answers(p, w), s)
    requires Avoids(before, s) && Avoids(after, s)
    requires k < |before + group + after| && (before + group + after)[k].StartStoppedContainer?
    requires ServiceOf((before + group + after)[k]) == Some(s)
    ensures k == |before|
    ensures Lookup(w.apps, a, s).Some? && Lookup(Planned(w).apps, a, s) == Lookup(w.apps, a, s)
  {
    hide Group, AllUnique, Planned;
    assert |before| <= k < |before| + |group|;
    assert group[k - |before|].StartStoppedContainer?;
    var cur, tgt := AppAt(w.apps, a), AppAt(w.target, a);
    RestartGroup(a, cur, tgt, Answers(p, w), s, k - |before|);
    var c, t := FindLast(ServicesOf(cur), s).value, FindLast(ServicesOf(tgt), s).value;
    TransitionUntidy(w, a, c, t);
  }

  lemma RestartGroup(a: nat, cur: Option<App>, tgt: Option<App>, mayPull: Retryable, s: nat, k: nat)
    requires k < |Group(a, cur, tgt, mayPull, s)| && Group(a, cur, tgt, mayPull, s)[k].StartStoppedContainer?
    ensures k == 0 && cur.Some? && tgt.Some?
    ensures var c, t := FindLast(ServicesOf(cur), s), FindLast(ServicesOf(tgt), s);
            c.Some? && t.Some? && Transition(c.value, t.value)
  {
    hide NeedsUpdate, Tidy;
  }

  lemma FindSameUnique(services: seq<Service>, s: nat)
    requires UniqueIds(services)
    ensures FindFirst(services, s) == FindLast(services, s)
  {
    if k :| 0 <= k < |services| && services[k].serviceId == s {
      FindUnique(services, k);
    }
  }

  /** A service with a state transition is found unsorted after planning. */
  lemma TransitionUntidy(w: World, a: nat, c: Service, t: Service)
    requires AllUnique(w.apps) && AllUnique(w.target) && a in w.apps && a in w.target
    requires FindLast(w.apps[a].services, c.serviceId) == Some(c)
             && FindLast(w.target[a].services, c.serviceId) == Some(t)
    requires Transition(c, t)
    ensures Lookup(w.apps, a, c.serviceId) == Some(c) && Lookup(Planned(w).apps, a, c.serviceId) == Some(c)
  {
    hide Transition, Tidy;
    var own, other := w.apps[a].services, w.target[a].services;
    FindSameUnique(own, c.serviceId);
    var k :| 0 <= k < |own| && own[k] == c;
    var tidied := TidyServices(own, other, true);
    assert !Compared(own, other, true, k);
    assert tidied[k] == c;
    assert UniqueIds(tidied) by { TidyUnique(own, other, true); }
    FindUnique(tidied, k);
  }

  lemma TidyUnique(own: seq<Service>, other: seq<Service>, ownIsCurrent: bool)
    requires UniqueIds(own)
    ensures UniqueIds(TidyServices(own, other, ownIsCurrent))
  {
    hide Compared;
    assert forall i | 0 <= i < |own| :: TidyServices(own, other, ownIsCurrent)[i].serviceId == own[i].serviceId;
  }

  // ---- Undisturbed services ----

  /** A service that matches its target and has not stopped goes through a whole
      round with its container and, marks aside, its record unchanged, whatever
      fails for the others. */
  lemma MatchingUnchanged(p: Policy, w: World, f: Fortune, a: nat, c: Service, t: Service)
    requires p.intervals != [] && Grounded(w) && AllUnique(w.apps) && AllUnique(w.target)
    requires OnlyIn(w.apps, a, c.serviceId) && OnlyIn(w.target, a, c.serviceId) && t.serviceId == c.serviceId
    requires a in w.apps && c in w.apps[a].services && a in w.target && t in w.target[a].services
    requires Desired(c) == Desired(t) && Matches(c, t)
    ensures var w' := Apply(p, w, f);
            Slot(w'.docker, c.serviceId) == Slot(w.docker, c.serviceId)
                && RecordsKept(Planned(w).apps, w'.apps, c.serviceId)
  {
    hide Plan, Slot, RecordsKept, AllUnique, OnlyIn, Grounded, WorldSane, StepsSane, Evolves, SameAppsButMarks,
         Avoids, Matches;
    MatchingUndisturbed(w.apps, w.target, Answers(p, w), a, c, t);
    PlanSane(p, w);
    assert WorldSane(Planned(w)) by { GroundedSane(w); PlannedSane(w); }
    MinimalDisturbance(p, Planned(w), NextPlan(p, w), f, 0, c.serviceId);
  }

  lemma GroundedSane(w: World)
    requires Grounded(w)
    ensures Remembered(w.apps) && Sane(w.docker)
  {
  }
}
