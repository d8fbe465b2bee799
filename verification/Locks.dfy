/** The lock between agents: a Docker container whose name is the lock. Mutual
    exclusion as an invariant of the protocol, and the bounds of the loop that
    waits for the lock. */
module Locks {

  type Agent = nat
  type LockId = nat

  // ---- The protocol ----

  /** Where an agent is. From `Starting` to `Removing` it has created the lock's
      container; it is inside the protected section while it is `Holding`, and
      still excluded from others until its release is over. */
  datatype Place =
    | Idle
    | Trying(name: string)
    | Starting(name: string, id: LockId)
    | Holding(name: string, id: LockId)
    | Stopping(name: string, id: LockId)
    | Removing(name: string, id: LockId)

  /** Docker's lock containers by id, those whose command has ended, and where
      every agent is. */
  datatype System = System(containers: map<LockId, string>, ended: set<LockId>, nextId: LockId, places: map<Agent,
      Place>)

  const START := System(map[], {}, 0, map[])

  function LockContainer(lock: string): string {
    "iotistic-lock-" + lock
  }

  function At(s: System, a: Agent): Place {
    if a in s.places then s.places[a] else Idle
  }

  predicate Owns(p: Place) {
    p.Starting? || p.Holding? || p.Stopping? || p.Removing?
  }

  function Move(s: System, a: Agent, p: Place): System {
    s.(places := s.places[a := p])
  }

  ghost predicate Taken(s: System, name: string) {
    exists id :: id in s.containers && s.containers[id] == name
  }

  datatype Reply = Done | Conflict | Error

  /** One step of one agent. `Create` and the calls after it meet a reply that
      chance decides, but a name that is taken always conflicts, and stopping a
      container whose command has ended answers 304, which is an error. The
      command of a lock's container is a sleep of 300 seconds; `Expire` is its
      end. A removal may happen although its reply is an error. */
  datatype Act =
    | Begin(a: Agent, lock: string)
    | Create(a: Agent, reply: Reply)
    | StartUp(a: Agent, reply: Reply)
    | GiveUp(a: Agent)
    | Release(a: Agent)
    | Stop(a: Agent, reply: Reply)
    | Remove(a: Agent, removed: bool)
    | Crash(a: Agent)
    | Expire(a: Agent)

  /** Agents run their acts in any order; an act that does not fit the agent's
      place changes nothing. */
  ghost function Step(s: System, act: Act): System {
    match act
    case Begin(a, lock) => if At(s, a).Idle? then Move(s, a, Trying(LockContainer(lock))) else s
    case Create(a, reply) =>
      (match At(s, a)
       case Trying(name) =>
         if reply.Done? && !Taken(s, name) then
           Move(s.(containers := s.containers[s.nextId := name], nextId := s.nextId + 1), a, Starting(name, s.nextId))
         else if reply.Error? then Move(s, a, Idle)
         else s
       case _ => s)
    case StartUp(a, reply) =>
      (match At(s, a)
       case Starting(name, id) =>
         (match reply
          case Done => Move(s, a, Holding(name, id))
          case Conflict => Move(s, a, Trying(name))
          case Error => Move(s, a, Idle))
       case _ => s)
    case GiveUp(a) => if At(s, a).Trying? then Move(s, a, Idle) else s
    case Release(a) =>
      (match At(s, a)
       case Holding(name, id) => Move(s, a, Stopping(name, id))
       case _ => s)
    case Stop(a, reply) =>
      (match At(s, a)
       case Stopping(name, id) => Move(s, a, if reply.Done? && id !in s.ended then Removing(name, id) else Idle)
       case _ => s)
    case Remove(a, removed) =>
      (match At(s, a)
       case Removing(name, id) =>
         Move(if removed then s.(containers := s.containers - {id}) else s, a, Idle)
       case _ => s)
    case Crash(a) => Move(s, a, Idle)
    case Expire(a) =>
      (match At(s, a)
       case Holding(_, id) => s.(ended := s.ended + {id})
       case Stopping(_, id) => s.(ended := s.ended + {id})
       case _ => s)
  }

  ghost function Run(s: System, acts: seq<Act>): System {
    if acts == [] then s else Step(Run(s, acts[..|acts| - 1]), acts[|acts| - 1])
  }

  /** Container names are unique, and an agent that has created a lock's
      container is the only one with it, and it still exists. */
  ghost predicate Exclusive(s: System) {
    && (forall id | id in s.containers :: id < s.nextId)
    && (forall i, j | i in s.containers && j in s.containers && s.containers[i] == s.containers[j] :: i == j)
    && (forall a | Owns(At(s, a)) :: At(s, a).id in s.containers && s.containers[At(s, a).id] == At(s, a).name)
    && (forall a, b | Owns(At(s, a)) && Owns(At(s, b)) && At(s, a).id == At(s, b).id :: a == b)
  }

  lemma MoveAt(s: System, a: Agent, p: Place, b: Agent)
    ensures At(Move(s, a, p), b) == if a == b then p else At(s, b)
  {
  }

  /** Going to a place without the lock, or keeping the same one, is safe. */
  lemma MoveKeeps(s: System, a: Agent, p: Place)
    requires Exclusive(s)
    requires Owns(p) ==> Owns(At(s, a)) && p.id == At(s, a).id && p.name == At(s, a).name
    ensures Exclusive(Move(s, a, p))
  {
    hide Move, Owns;
    forall b ensures At(Move(s, a, p), b) == if a == b then p else At(s, b) {
      MoveAt(s, a, p, b);
    }
    assert Move(s, a, p).containers == s.containers && Move(s, a, p).nextId == s.nextId by { MoveSame(s, a, p); }
  }

  lemma MoveSame(s: System, a: Agent, p: Place)
    ensures Move(s, a, p).containers == s.containers && Move(s, a, p).nextId == s.nextId
  {
  }

  lemma CreateKeeps(s: System, a: Agent, name: string)
    requires Exclusive(s) && At(s, a) == Trying(name) && !Taken(s, name)
    ensures Exclusive(Move(s.(containers := s.containers[s.nextId := name], nextId := s.nextId + 1), a,
            Starting(name, s.nextId)))
  {
    var s' := s.(containers := s.containers[s.nextId := name], nextId := s.nextId + 1);
    forall b ensures At(Move(s', a, Starting(name, s.nextId)), b) == if a == b then Starting(name,
        s.nextId) else At(s, b) {
      MoveAt(s', a, Starting(name, s.nextId), b);
    }
  }

  lemma RemoveKeeps(s: System, a: Agent)
    requires Exclusive(s) && At(s, a).Removing?
    ensures Exclusive(Move(s.(containers := s.containers - {At(s, a).id}), a, Idle))
  {
    var id := At(s, a).id;
    var s' := s.(containers := s.containers - {id});
    forall b ensures At(Move(s', a, Idle), b) == if a == b then Idle else At(s, b) {
      MoveAt(s', a, Idle, b);
    }
  }

  lemma EndKeeps(s: System, p: Place)
    requires Exclusive(s)
    ensures p.Holding? || p.Stopping? ==> Exclusive(s.(ended := s.ended + {p.id}))
  {
    if p.Holding? || p.Stopping? {
      assert forall a :: At(s.(ended := s.ended + {p.id}), a) == At(s, a);
    }
  }

  lemma StepKeeps(s: System, act: Act)
    requires Exclusive(s)
    ensures Exclusive(Step(s, act))
  {
    hide Exclusive, Move, At, Taken;
    match act
    case Begin(a, lock) => MoveKeeps(s, a, Trying(LockContainer(lock)));
    case Create(a, reply) =>
      if At(s, a).Trying? {
        MoveKeeps(s, a, Idle);
        if !Taken(s, At(s, a).name) {
          CreateKeeps(s, a, At(s, a).name);
        }
      }
    case StartUp(a, reply) =>
      if At(s, a).Starting? {
        MoveKeeps(s, a, Holding(At(s, a).name, At(s, a).id));
        MoveKeeps(s, a, Trying(At(s, a).name));
        MoveKeeps(s, a, Idle);
      }
    case GiveUp(a) => MoveKeeps(s, a, Idle);
    case Release(a) =>
      if At(s, a).Holding? {
        MoveKeeps(s, a, Stopping(At(s, a).name, At(s, a).id));
      }
    case Stop(a, reply) =>
      if At(s, a).Stopping? {
        MoveKeeps(s, a, Removing(At(s, a).name, At(s, a).id));
        MoveKeeps(s, a, Idle);
      }
    case Remove(a, removed) =>
      if At(s, a).Removing? {
        RemoveKeeps(s, a);
        MoveKeeps(s, a, Idle);
      }
    case Crash(a) => MoveKeeps(s, a, Idle);
    case Expire(a) => EndKeeps(s, At(s, a));
  }

  lemma {:induction false} RunKeeps(s: System, acts: seq<Act>)
    requires Exclusive(s)
    ensures Exclusive(Run(s, acts))
  {
    hide Exclusive, Step;
    if acts != [] {
      RunKeeps(s, acts[..|acts| - 1]);
      StepKeeps(Run(s, acts[..|acts| - 1]), acts[|acts| - 1]);
    }
  }

  /** Mutual exclusion: whatever fails and however the agents interleave, at
      most one of them is between acquiring and releasing a given lock. Locks
      with different names do not exclude each other. */
  lemma MutualExclusion(acts: seq<Act>, a: Agent, b: Agent)
    ensures var s := Run(START, acts);
            Owns(At(s, a)) && Owns(At(s, b)) && At(s, a).name == At(s, b).name ==> a == b
  {
    hide Run;
    assert Exclusive(START);
    RunKeeps(START, acts);
  }

  lemma LockNames(x: string, y: string)
    ensures LockContainer(x) == LockContainer(y) <==> x == y
  {
    var n := |"iotistic-lock-"|;
    assert LockContainer(x)[n..] == x && LockContainer(y)[n..] == y;
  }

  // ---- Locks that nobody can take again ----

  /** The container will never be removed: no agent has it, or the one that has
      it is about to stop a container whose command has ended. */
  ghost predicate Doomed(s: System, id: LockId) {
    id in s.containers && forall a | Owns(At(s, a)) && At(s, a).id == id :: At(s, a).Stopping? && id in s.ended
  }

  ghost predicate Zombie(s: System, name: string) {
    exists id :: Doomed(s, id) && s.containers[id] == name
  }

  ghost predicate Held(s: System, name: string) {
    exists a :: At(s, a).Holding? && At(s, a).name == name
  }

  /** Some continuation makes an agent hold the lock. */
  ghost predicate Takeable(s: System, name: string) {
    exists acts :: Held(Run(s, acts), name)
  }

  lemma OthersStay(s: System, act: Act, b: Agent)
    requires b != act.a
    ensures At(Step(s, act), b) == At(s, b)
  {
    hide Taken;
  }

  /** What an agent owns after its step it owned before or has just created. */
  lemma ActorOwns(s: System, act: Act)
    requires Owns(At(Step(s, act), act.a))
    ensures (Owns(At(s, act.a)) && At(Step(s, act), act.a).id == At(s, act.a).id)
            || At(Step(s, act), act.a).id == s.nextId
  {
    hide Taken;
  }

  /** Only an agent that is removing its own container removes one. */
  lemma ContainersStay(s: System, act: Act, id: LockId)
    requires id in s.containers && id < s.nextId && (Owns(At(s, act.a)) ==> At(s, act.a).id != id)
    ensures id in Step(s, act).containers && Step(s, act).containers[id] == s.containers[id]
  {
    hide Taken;
  }

  lemma EndedStays(s: System, act: Act, id: LockId)
    requires id in s.ended
    ensures id in Step(s, act).ended
  {
    hide Taken;
  }

  /** An agent about to stop an ended container only leaves it. */
  lemma StoppingEnds(s: System, act: Act, id: LockId)
    requires At(s, act.a).Stopping? && At(s, act.a).id == id && id in s.ended
    ensures Step(s, act).containers == s.containers
    ensures !Owns(At(Step(s, act), act.a)) || At(Step(s, act), act.a) == At(s, act.a)
  {
  }

  lemma DoomedStep(s: System, act: Act, id: LockId)
    requires Exclusive(s) && Doomed(s, id)
    ensures Doomed(Step(s, act), id) && Step(s, act).containers[id] == s.containers[id]
  {
    hide Step, At, Taken;
    var r := Step(s, act);
    var own := Owns(At(s, act.a)) && At(s, act.a).id == id;
    if own {
      StoppingEnds(s, act, id);
    } else {
      ContainersStay(s, act, id);
    }
    if id in s.ended {
      EndedStays(s, act, id);
    }
    forall b | Owns(At(r, b)) && At(r, b).id == id ensures At(r, b).Stopping? && id in r.ended {
      if b == act.a {
        if !own { ActorOwns(s, act); }
      } else {
        OthersStay(s, act, b);
      }
    }
  }

  /** A doomed container stays, whatever the agents do. */
  lemma {:induction false} DoomedStays(s: System, acts: seq<Act>, id: LockId)
    requires Exclusive(s) && Doomed(s, id)
    ensures Doomed(Run(s, acts), id) && Run(s, acts).containers[id] == s.containers[id]
  {
    hide Exclusive, Doomed, Step;
    if acts != [] {
      var n := |acts| - 1;
      DoomedStays(s, acts[..n], id);
      RunKeeps(s, acts[..n]);
      DoomedStep(Run(s, acts[..n]), acts[n], id);
    }
  }

  /** While there is a doomed container nobody holds its lock. */
  lemma DoomedUnheld(s: System, id: LockId)
    requires Exclusive(s) && Doomed(s, id)
    ensures !Held(s, s.containers[id])
  {
    hide At;
  }

  lemma RunOne(s: System, act: Act)
    ensures Run(s, [act]) == Step(s, act)
  {
    assert [act][..0] == [];
    assert Run(s, []) == s;
  }

  lemma {:induction false} RunAppend(s: System, xs: seq<Act>, ys: seq<Act>)
    ensures Run(s, xs + ys) == Run(Run(s, xs), ys)
  {
    hide Step;
    if ys == [] {
      assert xs + ys == xs;
    } else {
      var n := |ys| - 1;
      RunAppend(s, xs, ys[..n]);
      assert (xs + ys)[..|xs| + n] == xs + ys[..n] && (xs + ys)[|xs| + n] == ys[n];
    }
  }

  lemma Onwards(s: System, acts: seq<Act>, name: string)
    requires Takeable(Run(s, acts), name)
    ensures Takeable(s, name)
  {
    hide Held, Run;
    var more :| Held(Run(Run(s, acts), more), name);
    RunAppend(s, acts, more);
    assert Held(Run(s, acts + more), name);
  }

  lemma OneOn(s: System, act: Act, name: string)
    requires Takeable(Step(s, act), name)
    ensures Takeable(s, name)
  {
    hide Takeable, Step;
    RunOne(s, act);
    Onwards(s, [act], name);
  }

  lemma Now(s: System, name: string)
    requires Held(s, name)
    ensures Takeable(s, name)
  {
    assert Run(s, []) == s;
  }

  /** A lock whose name is free can be taken, by any agent that starts afresh. */
  lemma FreeTakeable(s: System, lock: string)
    requires !Taken(s, LockContainer(lock))
    ensures Takeable(s, LockContainer(lock))
  {
    hide Takeable, LockContainer;
    var name := LockContainer(lock);
    var s1 := Step(s, Crash(0));
    var s2 := Step(s1, Begin(0, lock));
    var s3 := Step(s2, Create(0, Done));
    var s4 := Step(s3, StartUp(0, Done));
    assert At(s1, 0) == Idle && s1.containers == s.containers;
    assert At(s2, 0) == Trying(name) && s2.containers == s.containers;
    assert !Taken(s2, name);
    assert At(s3, 0) == Starting(name, s.nextId);
    assert At(s4, 0) == Holding(name, s.nextId);
    Now(s4, name);
    OneOn(s3, StartUp(0, Done), name);
    OneOn(s2, Create(0, Done), name);
    OneOn(s1, Begin(0, lock), name);
    OneOn(s, Crash(0), name);
  }

  lemma RemovingTakeable(s: System, a: Agent, lock: string)
    requires Exclusive(s) && At(s, a).Removing? && At(s, a).name == LockContainer(lock)
    ensures Takeable(s, LockContainer(lock))
  {
    hide Takeable, LockContainer;
    var r := Step(s, Remove(a, true));
    assert !Taken(r, LockContainer(lock));
    FreeTakeable(r, lock);
    OneOn(s, Remove(a, true), LockContainer(lock));
  }

  /** An agent that owns the lock's container, and is not about to stop an ended
      one, can go on to hold it or to free it. */
  lemma OwnedTakeable(s: System, a: Agent, lock: string)
    requires Exclusive(s) && Owns(At(s, a)) && At(s, a).name == LockContainer(lock)
    requires At(s, a).Stopping? ==> At(s, a).id !in s.ended
    ensures Takeable(s, LockContainer(lock))
  {
    hide Takeable, LockContainer, Exclusive;
    var name, id := LockContainer(lock), At(s, a).id;
    match At(s, a)
    case Starting(_, _) =>
      var r := Step(s, StartUp(a, Done));
      assert At(r, a) == Holding(name, id);
      Now(r, name);
      OneOn(s, StartUp(a, Done), name);
    case Holding(_, _) => Now(s, name);
    case Stopping(_, _) =>
      var r := Step(s, Stop(a, Done));
      StepKeeps(s, Stop(a, Done));
      assert At(r, a) == Removing(name, id);
      RemovingTakeable(r, a, lock);
      OneOn(s, Stop(a, Done), name);
    case Removing(_, _) => RemovingTakeable(s, a, lock);
    case _ =>
  }

  /** Exactly when a lock can be taken again. In every reachable state some
      continuation makes an agent hold it if and only if no doomed container has
      its name. */
  lemma LockTakeable(before: seq<Act>, lock: string)
    ensures var s := Run(START, before);
            Takeable(s, LockContainer(lock)) <==> !Zombie(s, LockContainer(lock))
  {
    hide Run, LockContainer, At;
    assert Exclusive(START) by { StartExclusive(); }
    RunKeeps(START, before);
    var s, name := Run(START, before), LockContainer(lock);
    if Takeable(s, name) && Zombie(s, name) {
      var acts :| Held(Run(s, acts), name);
      var id :| Doomed(s, id) && s.containers[id] == name;
      DoomedStays(s, acts, id);
      RunKeeps(s, acts);
      DoomedUnheld(Run(s, acts), id);
      assert false;
    }
    if !Zombie(s, name) {
      if id :| id in s.containers && s.containers[id] == name {
        assert !Doomed(s, id);
        var a :| Owns(At(s, a)) && At(s, a).id == id && !(At(s, a).Stopping? && id in s.ended);
        OwnedTakeable(s, a, lock);
      } else {
        FreeTakeable(s, lock);
      }
    }
  }

  lemma StartExclusive()
    ensures Exclusive(START)
  {
  }

  /** A run to such a state: one agent takes the lock, and stopping the container
      fails when it releases it. */
  lemma FailedReleaseDooms(lock: string)
    ensures var acts := [Begin(0, lock), Create(0, Done), StartUp(0, Done), Release(0), Stop(0, Error)];
            Doomed(Run(START, acts), 0) && Run(START, acts).containers[0] == LockContainer(lock)
  {
    hide LockContainer;
    var s1 := Step(START, Begin(0, lock));
    var s2 := Step(s1, Create(0, Done));
    var s3 := Step(s2, StartUp(0, Done));
    var s4 := Step(s3, Release(0));
    var s5 := Step(s4, Stop(0, Error));
    var acts := [Begin(0, lock), Create(0, Done), StartUp(0, Done), Release(0), Stop(0, Error)];
    assert acts == [Begin(0, lock)] + [Create(0, Done)] + [StartUp(0, Done)] + [Release(0)] + [Stop(0, Error)];
    RunOne(START, Begin(0, lock));
    RunOne(s1, Create(0, Done));
    RunOne(s2, StartUp(0, Done));
    RunOne(s3, Release(0));
    RunOne(s4, Stop(0, Error));
    RunAppend(START, [Begin(0, lock)], [Create(0, Done)]);
    RunAppend(START, [Begin(0, lock)] + [Create(0, Done)], [StartUp(0, Done)]);
    RunAppend(START, [Begin(0, lock)] + [Create(0, Done)] + [StartUp(0, Done)], [Release(0)]);
    RunAppend(START, [Begin(0, lock)] + [Create(0, Done)] + [StartUp(0, Done)] + [Release(0)], [Stop(0, Error)]);
    assert At(s3, 0) == Holding(LockContainer(lock), 0);
  }

  /** A lock held until its container's command has ended is never released:
      whatever the reply, the stop fails and the container stays. */
  lemma HeldTooLong(s: System, a: Agent, reply: Reply)
    requires Exclusive(s) && At(s, a).Holding?
    ensures var id := At(s, a).id;
            var s1 := Step(s, Expire(a));
            var s2 := Step(s1, Release(a));
            Doomed(s2, id) && Doomed(Step(s2, Stop(a, reply)), id) && At(Step(s2, Stop(a, reply)), a) == Idle
  {
    var id := At(s, a).id;
    var s1 := Step(s, Expire(a));
    var s2 := Step(s1, Release(a));
    StepKeeps(s, Expire(a));
    StepKeeps(s1, Release(a));
    forall b ensures At(s2, b) == if b == a then Stopping(At(s, a).name, id) else At(s, b) {
    }
    hide Step;
    DoomedStep(s2, Stop(a, reply), id);
    assert At(Step(s2, Stop(a, reply)), a) == Idle by { StopEnded(s2, a, reply); }
  }

  lemma StopEnded(s: System, a: Agent, reply: Reply)
    requires At(s, a).Stopping? && At(s, a).id in s.ended
    ensures At(Step(s, Stop(a, reply)), a) == Idle
  {
  }

  // ---- Waiting for the lock ----

  function Pow2(n: nat): (p: nat)
    ensures p >= 1
  {
    if n == 0 then 1 else 2 * Pow2(n - 1)
  }

  function Backoff(elapsed: nat): (b: nat)
    ensures 100 <= b <= 1000
  {
    var b := 100 * Pow2(elapsed / 1000);
    if b < 1000 then b else 1000
  }

  datatype Waited = Acquired | TimedOut | Threw

  /** `acquireVolumeLock` and `acquireNetworkLock`. Try `i` gets `reply(i)` from
      Docker after `callTime(i)`; a sleep may last `late(i)` longer than asked.
      The tries number at most ceil(timeout / 100), and the time asked for in
      sleeps stays within 1000 ms of the timeout. */
  method Acquire(timeout: nat, reply: nat -> Reply, callTime: nat -> nat, late: nat -> nat)
      returns (outcome: Waited, tries: nat, slept: nat)
    ensures tries <= (timeout + 99) / 100
    ensures slept < timeout + 1000
    ensures tries > 0 <==> timeout > 0
    ensures forall i | 0 <= i < tries - 1 :: reply(i) == Conflict
    ensures match outcome
            case Acquired => tries > 0 && reply(tries - 1) == Done
            case Threw => tries > 0 && reply(tries - 1) == Error
            case TimedOut => forall i | 0 <= i < tries :: reply(i) == Conflict
  {
    var elapsed := 0;
    tries, slept := 0, 0;
    while elapsed < timeout
      invariant 100 * tries <= elapsed && slept <= elapsed
      invariant slept < timeout + 1000
      invariant tries <= (timeout + 99) / 100
      invariant elapsed < timeout || tries > 0 || timeout == 0
      invariant forall i | 0 <= i < tries :: reply(i) == Conflict
      decreases if elapsed < timeout then timeout - elapsed else 0
    {
      var answer := reply(tries);
      elapsed := elapsed + callTime(tries);
      tries := tries + 1;
      if answer == Done {
        return Acquired, tries, slept;
      }
      if answer == Error {
        return Threw, tries, slept;
      }
      var backoff := Backoff(elapsed);
      slept := slept + backoff;
      elapsed := elapsed + backoff + late(tries - 1);
    }
    outcome := TimedOut;
  }
}
