/** The health-check manager: probe counters and their hysteresis, startup
    gating, events, and the timers and checks in flight. */
module HealthProbes {
  import opened Text

  datatype ProbeType = Startup | Liveness | Readiness
  datatype Status = Unknown | Healthy | Unhealthy

  /** The thresholds of a probe as given; zero stands for absent too. */
  datatype Probe = Probe(successThreshold: nat, failureThreshold: nat) {
    function S(): (s: nat)
      ensures s > 0
    {
      if successThreshold == 0 then 1 else successThreshold
    }

    function F(): (f: nat)
      ensures f > 0
    {
      if failureThreshold == 0 then 3 else failureThreshold
    }
  }

  datatype ProbeState = ProbeState(probe: Probe, status: Status, successes: nat, failures: nat, timer: Option<nat>)
  datatype Health = Health(isLive: bool, isReady: bool, isStarted: bool)
  datatype Event = StartupCompleted(id: string) | LivenessFailed(id: string) | ReadinessChanged(id: string,
      isReady: bool)
  datatype Config = Config(id: string, startup: Option<Probe>, liveness: Option<Probe>, readiness: Option<Probe>)

  /** A container id and a probe type. */
  type Key = (string, ProbeType)

  /** The manager together with the pending timers, the checks whose result is
      awaited, and the events emitted so far. */
  datatype Monitor = Monitor(
    probes: map<Key, ProbeState>,
    health: map<string, Health>,
    timers: map<nat, Key>,
    inFlight: multiset<Key>,
    nextTimer: nat,
    events: seq<Event>)

  const TYPES := [Startup, Liveness, Readiness]

  // ---- One probe ----

  /** The counters and the status after one more result. */
  function Absorb(s: ProbeState, success: bool): ProbeState {
    if success then
      var s' := s.(successes := s.successes + 1, failures := 0);
      if s'.successes >= s.probe.S() && s.status != Healthy then s'.(status := Healthy) else s'
    else
      var s' := s.(failures := s.failures + 1, successes := 0);
      if s'.failures >= s.probe.F() && s.status != Unhealthy then s'.(status := Unhealthy) else s'
  }

  // ---- The manager's operations ----

  function SetTimer(m: Monitor, key: Key): Monitor
    requires key in m.probes
  {
    m.(probes := m.probes[key := m.probes[key].(timer := Some(m.nextTimer))],
       timers := m.timers[m.nextTimer := key],
       nextTimer := m.nextTimer + 1)
  }

  function StartProbe(m: Monitor, key: Key, probe: Option<Probe>): Monitor {
    match probe
    case None => m
    case Some(p) => SetTimer(m.(probes := m.probes[key := ProbeState(p, Unknown, 0, 0, None)]), key)
  }

  function StartMonitoring(m: Monitor, c: Config): Monitor {
    var m0 := m.(health := m.health[c.id := Health(true, false, false)]);
    var m1 := StartProbe(m0, (c.id, Startup), c.startup);
    var m2 := StartProbe(m1, (c.id, Liveness), c.liveness);
    var m3 := StartProbe(m2, (c.id, Readiness), c.readiness);
    if c.startup.None? then m3.(health := m3.health[c.id := Health(true, false, true)]) else m3
  }

  function ClearProbe(m: Monitor, key: Key): Monitor {
    if key !in m.probes then m
    else
      m.(timers := (match m.probes[key].timer case Some(t) => m.timers - {t} case None => m.timers),
         probes := m.probes - {key})
  }

  function ClearProbes(m: Monitor, id: string, n: nat): Monitor
    requires n <= 3
  {
    if n == 0 then m else ClearProbe(ClearProbes(m, id, n - 1), (id, TYPES[n - 1]))
  }

  function StopMonitoring(m: Monitor, id: string): Monitor {
    var m' := ClearProbes(m, id, 3);
    m'.(health := m'.health - {id})
  }

  function ScheduleNext(m: Monitor, key: Key): Monitor {
    if key in m.probes then SetTimer(m, key) else m
  }

  /** The start of `performCheck`, up to the awaited check. */
  function PerformCheck(m: Monitor, key: Key): Monitor {
    if key !in m.probes then m
    else if key.1 != Startup && key.0 in m.health && !m.health[key.0].isStarted then ScheduleNext(m, key)
    else m.(inFlight := m.inFlight + multiset{key})
  }

  function Fire(m: Monitor, t: nat): Monitor {
    if t in m.timers then PerformCheck(m.(timers := m.timers - {t}), m.timers[t]) else m
  }

  function HandleChange(m: Monitor, key: Key, status: Status): Monitor {
    if key !in m.probes || key.0 !in m.health then m
    else
      var id, h := key.0, m.health[key.0];
      match key.1
      case Startup =>
        if status == Healthy then
          m.(health := m.health[id := h.(isStarted := true)], events := m.events + [StartupCompleted(id)])
        else m
      case Liveness =>
        m.(health := m.health[id := h.(isLive := status == Healthy)],
           events := if status == Unhealthy then m.events + [LivenessFailed(id)] else m.events)
      case Readiness =>
        m.(health := m.health[id := h.(isReady := status == Healthy)],
           events := if h.isReady != (status == Healthy) then m.events + [ReadinessChanged(id,
               status == Healthy)] else m.events)
  }

  function ProcessResult(m: Monitor, key: Key, success: bool): Monitor {
    if key !in m.probes then m
    else
      var s := m.probes[key];
      var s' := Absorb(s, success);
      var m' := m.(probes := m.probes[key := s']);
      if s'.status != s.status then HandleChange(m', key, s'.status) else m'
  }

  /** The rest of `performCheck` once the result is in. A listener may stop the
      container's monitoring from within an event. */
  function Complete(m: Monitor, key: Key, success: bool, stops: bool): Monitor {
    if m.inFlight[key] == 0 then m
    else
      var m1 := ProcessResult(m.(inFlight := m.inFlight - multiset{key}), key, success);
      var m2 := if stops && |m1.events| > |m.events| then StopMonitoring(m1, key.0) else m1;
      ScheduleNext(m2, key)
  }

  datatype Act =
    | Start(config: Config)
    | Stop(id: string)
    | Tick(timer: nat)
    | Result(key: Key, success: bool, stops: bool)

  function Step(m: Monitor, act: Act): Monitor {
    match act
    case Start(c) => StartMonitoring(m, c)
    case Stop(id) => StopMonitoring(m, id)
    case Tick(t) => Fire(m, t)
    case Result(key, success, stops) => Complete(m, key, success, stops)
  }

  function Run(m: Monitor, acts: seq<Act>): Monitor {
    if acts == [] then m else Step(Run(m, acts[..|acts| - 1]), acts[|acts| - 1])
  }

  class HealthCheckManager {
    var probes: map<Key, ProbeState>
    var containerHealth: map<string, Health>
    var timers: map<nat, Key>
    var inFlight: multiset<Key>
    var nextTimer: nat
    var events: seq<Event>

    ghost function State(): Monitor
      reads this
    {
      Monitor(probes, containerHealth, timers, inFlight, nextTimer, events)
    }

    method SetTimeout(key: Key)
      requires key in probes
      modifies this
      ensures State() == SetTimer(old(State()), key)
    {
      probes := probes[key := probes[key].(timer := Some(nextTimer))];
      timers := timers[nextTimer := key];
      nextTimer := nextTimer + 1;
    }

    method BeginProbe(key: Key, probe: Option<Probe>)
      modifies this
      ensures State() == StartProbe(old(State()), key, probe)
    {
      if probe.Some? {
        probes := probes[key := ProbeState(probe.value, Unknown, 0, 0, None)];
        SetTimeout(key);
      }
    }

    method BeginMonitoring(c: Config)
      modifies this
      ensures State() == StartMonitoring(old(State()), c)
    {
      containerHealth := containerHealth[c.id := Health(true, false, false)];
      BeginProbe((c.id, Startup), c.startup);
      BeginProbe((c.id, Liveness), c.liveness);
      BeginProbe((c.id, Readiness), c.readiness);
      if c.startup.None? {
        containerHealth := containerHealth[c.id := Health(true, false, true)];
      }
    }

    method EndProbe(key: Key)
      modifies this
      ensures State() == ClearProbe(old(State()), key)
    {
      if key in probes {
        if probes[key].timer.Some? {
          timers := timers - {probes[key].timer.value};
        }
        probes := probes - {key};
      }
    }

    method EndMonitoring(id: string)
      modifies this
      ensures State() == StopMonitoring(old(State()), id)
    {
      hide ClearProbe;
      for i := 0 to 3
        invariant State() == ClearProbes(old(State()), id, i)
      {
        EndProbe((id, TYPES[i]));
      }
      containerHealth := containerHealth - {id};
    }

    method TimerFires(t: nat)
      modifies this
      ensures State() == Fire(old(State()), t)
    {
      if t !in timers {
        return;
      }
      var key := timers[t];
      timers := timers - {t};
      if key !in probes {
        return;
      }
      if key.1 != Startup && key.0 in containerHealth && !containerHealth[key.0].isStarted {
        SetTimeout(key);
        return;
      }
      inFlight := inFlight + multiset{key};
    }

    method Process(key: Key, success: bool)
      modifies this
      ensures State() == ProcessResult(old(State()), key, success)
    {
      if key !in probes {
        return;
      }
      var state := probes[key];
      var previous := state.status;
      if success {
        state := state.(successes := state.successes + 1);
        state := state.(failures := 0);
        if state.successes >= state.probe.S() && state.status != Healthy {
          state := state.(status := Healthy);
        }
      } else {
        state := state.(failures := state.failures + 1);
        state := state.(successes := 0);
        if state.failures >= state.probe.F() && state.status != Unhealthy {
          state := state.(status := Unhealthy);
        }
      }
      probes := probes[key := state];
      if state.status != previous {
        Notify(key, state.status);
      }
    }

    method Notify(key: Key, status: Status)
      modifies this
      ensures State() == HandleChange(old(State()), key, status)
    {
      if key !in probes || key.0 !in containerHealth {
        return;
      }
      var id := key.0;
      var health := containerHealth[id];
      match key.1 {
        case Startup =>
          if status == Healthy {
            containerHealth := containerHealth[id := health.(isStarted := true)];
            events := events + [StartupCompleted(id)];
          }
        case Liveness =>
          containerHealth := containerHealth[id := health.(isLive := status == Healthy)];
          if status == Unhealthy {
            events := events + [LivenessFailed(id)];
          }
        case Readiness =>
          var wasReady := health.isReady;
          health := health.(isReady := status == Healthy);
          containerHealth := containerHealth[id := health];
          if wasReady != health.isReady {
            events := events + [ReadinessChanged(id, health.isReady)];
          }
      }
    }

    method CheckCompletes(key: Key, success: bool, stops: bool)
      modifies this
      ensures State() == Complete(old(State()), key, success, stops)
    {
      if inFlight[key] == 0 {
        return;
      }
      var emitted := |events|;
      inFlight := inFlight - multiset{key};
      Process(key, success);
      if stops && |events| > emitted {
        EndMonitoring(key.0);
      }
      if key in probes {
        SetTimeout(key);
      }
    }
  }

  // ---- Hysteresis ----

  function Fresh(p: Probe): ProbeState {
    ProbeState(p, Unknown, 0, 0, None)
  }

  /** A probe that has seen the results `h`. */
  function Folded(p: Probe, h: seq<bool>): ProbeState {
    if h == [] then Fresh(p) else Absorb(Folded(p, h[..|h| - 1]), h[|h| - 1])
  }

  /** The last `n` results up to position `k` are all `v`. */
  predicate Streak(h: seq<bool>, k: nat, n: nat, v: bool) {
    n <= k <= |h| && forall i | k - n <= i < k :: h[i] == v
  }

  /** The longest run of `v` at the end. */
  predicate Trailing(h: seq<bool>, n: nat, v: bool) {
    Streak(h, |h|, n, v) && (n < |h| ==> h[|h| - n - 1] != v)
  }

  ghost predicate HasStreak(h: seq<bool>, n: nat, v: bool) {
    exists k: nat :: Streak(h, k, n, v)
  }

  /** Some point that ends `n` straight `v` comes later than every point that
      ends `m` straight `u`. */
  ghost predicate Later(h: seq<bool>, n: nat, v: bool, m: nat, u: bool) {
    exists k: nat :: Streak(h, k, n, v) && forall j: nat | Streak(h, j, m, u) :: j < k
  }

  lemma StreakPrefix(h: seq<bool>, k: nat, n: nat, v: bool)
    requires h != []
    ensures k < |h| ==> (Streak(h, k, n, v) <==> Streak(h[..|h| - 1], k, n, v))
    ensures n > 0 && Streak(h, |h|, n, v) ==> h[|h| - 1] == v
    ensures Streak(h, |h|, n, v) && n > 0 <==> n > 0 && h[|h| - 1] == v && Streak(h[..|h| - 1], |h| - 1, n - 1, v)
  {
    var i := h[..|h| - 1];
    if n > 0 && h[|h| - 1] == v && Streak(i, |h| - 1, n - 1, v) {
      forall x | |h| - n <= x < |h| ensures h[x] == v {
        assert x < |h| - 1 ==> i[x] == v;
      }
    }
    if n > 0 && Streak(h, |h|, n, v) {
      assert h[|h| - 1] == v;
    }
  }

  /** The counters are the trailing run lengths. */
  lemma {:induction false} CountersAreRuns(p: Probe, h: seq<bool>)
    ensures Folded(p, h).probe == p
    ensures Trailing(h, Folded(p, h).successes, true) && Trailing(h, Folded(p, h).failures, false)
  {
    if h != [] {
      var i := h[..|h| - 1];
      CountersAreRuns(p, i);
      assert forall x | 0 <= x < |i| :: i[x] == h[x];
    }
  }

  lemma TrailingLong(h: seq<bool>, n: nat, v: bool, k: nat)
    requires Trailing(h, n, v)
    ensures Streak(h, |h|, k, v) <==> k <= n
  {
    if n < |h| {
      assert h[|h| - n - 1] != v;
    }
  }

  /** The status refines the history: healthy exactly if the last point that
      ends S straight successes is later than the last that ends F straight
      failures, unhealthy the other way round, unknown if there is neither. */
  lemma {:induction false} Hysteresis(p: Probe, h: seq<bool>)
    ensures Folded(p, h).status == Healthy <==> Later(h, p.S(), true, p.F(), false)
    ensures Folded(p, h).status == Unhealthy <==> Later(h, p.F(), false, p.S(), true)
    ensures Folded(p, h).status == Unknown <==> !HasStreak(h, p.S(), true) && !HasStreak(h, p.F(), false)
  {
    hide Streak, Trailing, Later, HasStreak;
    CountersAreRuns(p, h);
    if h == [] {
      NoStreaks(p.S(), true, p.F(), false);
      NoStreaks(p.F(), false, p.S(), true);
    } else {
      var i := h[..|h| - 1];
      Hysteresis(p, i);
      CountersAreRuns(p, i);
      var s := Folded(p, h);
      TrailingLong(h, s.successes, true, p.S());
      TrailingLong(h, s.failures, false, p.F());
      ExtendsInit(h, p.S(), true);
      ExtendsInit(h, p.F(), false);
      assert !(Streak(h, |h|, p.S(), true) && Streak(h, |h|, p.F(), false)) by {
        StreakPrefix(h, |h|, p.S(), true);
        StreakPrefix(h, |h|, p.F(), false);
      }
      LaterStep(h, i, p.S(), true, p.F(), false);
      LaterStep(h, i, p.F(), false, p.S(), true);
    }
  }

  lemma NoStreaks(n: nat, v: bool, m: nat, u: bool)
    requires n > 0
    ensures !HasStreak([], n, v) && !Later([], n, v, m, u)
  {
  }

  /** The streaks of `h` are those of its initial part `i`, and perhaps one at
      its end. */
  ghost predicate Extends(h: seq<bool>, i: seq<bool>, n: nat, v: bool) {
    && |h| == |i| + 1
    && (forall k: nat | k <= |i| :: Streak(h, k, n, v) <==> Streak(i, k, n, v))
    && (forall k: nat | Streak(h, k, n, v) :: k <= |h|)
    && (forall k: nat | Streak(i, k, n, v) :: k <= |i|)
  }

  lemma ExtendsInit(h: seq<bool>, n: nat, v: bool)
    requires h != []
    ensures Extends(h, h[..|h| - 1], n, v)
  {
    forall k: nat | k < |h| ensures Streak(h, k, n, v) <==> Streak(h[..|h| - 1], k, n, v) {
      StreakPrefix(h, k, n, v);
    }
  }

  lemma LaterStep(h: seq<bool>, i: seq<bool>, n: nat, v: bool, m: nat, u: bool)
    requires Extends(h, i, n, v) && Extends(h, i, m, u)
    requires !(Streak(h, |h|, n, v) && Streak(h, |h|, m, u))
    ensures Streak(h, |h|, n, v) ==> Later(h, n, v, m, u)
    ensures Streak(h, |h|, m, u) ==> !Later(h, n, v, m, u)
    ensures !Streak(h, |h|, n, v) && !Streak(h, |h|, m, u) ==> (Later(h, n, v, m, u) <==> Later(i, n, v, m, u))
    ensures HasStreak(h, n, v) <==> HasStreak(i, n, v) || Streak(h, |h|, n, v)
  {
    hide Streak;
  }

  // ---- Timers and checks in flight ----

  /** Every pending timer is the one its monitored probe holds; every monitored
      probe has its timer pending or else one check in flight. */
  ghost predicate Disciplined(m: Monitor) {
    && (forall t | t in m.timers :: t < m.nextTimer && m.timers[t] in m.probes && m.probes[m.timers[t]].timer == Some(t))
    && (forall key | key in m.probes ::
          && key.0 in m.health
          && m.probes[key].timer.Some? && m.probes[key].timer.value < m.nextTimer
          && (m.probes[key].timer.value in m.timers ==> m.timers[m.probes[key].timer.value] == key)
          && m.inFlight[key] == (if m.probes[key].timer.value in m.timers then 0 else 1))
  }

  /** An id is not monitored again while it is monitored or has a check in
      flight. */
  ghost predicate Permitted(m: Monitor, act: Act) {
    act.Start? ==>
      act.config.id !in m.health && forall ty: ProbeType :: (act.config.id, ty) !in m.probes && m.inFlight[(act.config.id, ty)] == 0
  }

  lemma SetTimerKeeps(m: Monitor, key: Key)
    requires key in m.probes && key.0 in m.health && m.inFlight[key] == 0
    requires Disciplined(m.(probes := m.probes - {key}))
    ensures Disciplined(SetTimer(m, key))
  {
  }

  lemma ClearKeeps(m: Monitor, key: Key)
    requires Disciplined(m)
    ensures Disciplined(ClearProbe(m, key)) && key !in ClearProbe(m, key).probes
    ensures ClearProbe(m, key).health == m.health && ClearProbe(m, key).inFlight == m.inFlight
            && ClearProbe(m, key).events == m.events
    ensures forall k | k != key :: k in ClearProbe(m, key).probes <==> k in m.probes
    ensures forall k | k in ClearProbe(m, key).probes :: ClearProbe(m, key).probes[k] == m.probes[k]
  {
  }

  lemma {:induction false} ClearsAre(m: Monitor, id: string)
    ensures ClearProbes(m, id, 3)
            == ClearProbe(ClearProbe(ClearProbe(m, (id, Startup)), (id, Liveness)), (id, Readiness))
  {
    hide ClearProbe;
    assert TYPES[0] == Startup && TYPES[1] == Liveness && TYPES[2] == Readiness;
    assert ClearProbes(m, id, 0) == m;
    assert ClearProbes(m, id, 1) == ClearProbe(m, (id, Startup));
    assert ClearProbes(m, id, 2) == ClearProbe(ClearProbe(m, (id, Startup)), (id, Liveness));
  }

  /** Stopping removes the probes and the timers of one container only. */
  lemma StopKeeps(m: Monitor, id: string)
    requires Disciplined(m)
    ensures var m' := StopMonitoring(m, id);
            && Disciplined(m')
            && m'.inFlight == m.inFlight && m'.events == m.events
            && (forall k | k in m'.probes :: k.0 != id && k in m.probes && m'.probes[k] == m.probes[k])
            && (forall k | k in m.probes && k.0 != id :: k in m'.probes)
            && m'.health == m.health - {id}
  {
    hide ClearProbe, ClearProbes, Disciplined;
    ClearsAre(m, id);
    var m1 := ClearProbe(m, (id, Startup));
    var m2 := ClearProbe(m1, (id, Liveness));
    var m3 := ClearProbe(m2, (id, Readiness));
    ClearKeeps(m, (id, Startup));
    ClearKeeps(m1, (id, Liveness));
    ClearKeeps(m2, (id, Readiness));
    forall k | k in m3.probes ensures k.0 != id {
      KeyCases(k);
    }
    WithoutHealth(m3, id);
  }

  lemma KeyCases(k: Key)
    ensures k == (k.0, Startup) || k == (k.0, Liveness) || k == (k.0, Readiness)
  {
    match k.1
    case Startup => assert k == (k.0, Startup);
    case Liveness => assert k == (k.0, Liveness);
    case Readiness => assert k == (k.0, Readiness);
  }

  lemma WithoutHealth(m: Monitor, id: string)
    requires Disciplined(m) && forall k | k in m.probes :: k.0 != id
    ensures Disciplined(m.(health := m.health - {id}))
  {
  }

  lemma BeginKeeps(m: Monitor, key: Key, probe: Option<Probe>)
    requires Disciplined(m) && key !in m.probes && key.0 in m.health && m.inFlight[key] == 0
    ensures var m' := StartProbe(m, key, probe);
            && Disciplined(m') && m'.health == m.health && m'.inFlight == m.inFlight && m'.events == m.events
            && (forall k | k != key :: k in m'.probes <==> k in m.probes)
            && (forall k | k in m.probes :: m'.probes[k] == m.probes[k])
            && (key in m'.probes <==> probe.Some?)
            && (probe.Some? ==> m'.probes[key].(timer := None) == Fresh(probe.value))
  {
    hide Disciplined;
    if probe.Some? {
      var m1 := m.(probes := m.probes[key := ProbeState(probe.value, Unknown, 0, 0, None)]);
      assert m1.(probes := m1.probes - {key}) == m;
      SetTimerKeeps(m1, key);
    }
  }

  function ProbeOf(c: Config, ty: ProbeType): Option<Probe> {
    match ty
    case Startup => c.startup
    case Liveness => c.liveness
    case Readiness => c.readiness
  }

  lemma MoreHealth(m: Monitor, id: string, h: Health)
    requires Disciplined(m)
    ensures Disciplined(m.(health := m.health[id := h]))
  {
  }

  /** The three probes of a container whose health record is there. */
  lemma ProbesKeep(m: Monitor, c: Config) returns (m': Monitor)
    requires Disciplined(m) && c.id in m.health
    requires forall ty: ProbeType :: (c.id, ty) !in m.probes && m.inFlight[(c.id, ty)] == 0
    ensures m' == StartProbe(StartProbe(StartProbe(m, (c.id, Startup), c.startup), (c.id, Liveness), c.liveness),
            (c.id, Readiness), c.readiness)
    ensures Disciplined(m') && m'.health == m.health && m'.inFlight == m.inFlight && m'.events == m.events
    ensures forall k: Key | k.0 != c.id :: k in m'.probes <==> k in m.probes
    ensures forall k | k in m.probes :: k in m'.probes && m'.probes[k] == m.probes[k]
    ensures forall ty: ProbeType :: (c.id, ty) in m'.probes <==> ProbeOf(c, ty).Some?
    ensures forall ty: ProbeType | ProbeOf(c, ty).Some? ::
            m'.probes[(c.id, ty)].(timer := None) == Fresh(ProbeOf(c, ty).value)
  {
    hide Disciplined, StartProbe, Fresh;
    var a, b, r := (c.id, Startup), (c.id, Liveness), (c.id, Readiness);
    var m1 := StartProbe(m, a, c.startup);
    BeginKeeps(m, a, c.startup);
    var m2 := StartProbe(m1, b, c.liveness);
    BeginKeeps(m1, b, c.liveness);
    m' := StartProbe(m2, r, c.readiness);
    BeginKeeps(m2, r, c.readiness);
    forall ty: ProbeType
      ensures (c.id, ty) in m'.probes <==> ProbeOf(c, ty).Some?
      ensures ProbeOf(c, ty).Some? ==> m'.probes[(c.id, ty)].(timer := None) == Fresh(ProbeOf(c, ty).value)
    {
      match ty
      case Startup => assert a in m1.probes <==> c.startup.Some?;
      case Liveness => assert b in m2.probes <==> c.liveness.Some?;
      case Readiness => assert r in m'.probes <==> c.readiness.Some?;
    }
  }

  /** Monitoring starts fresh probes and changes nothing of other containers. */
  lemma StartKeeps(m: Monitor, c: Config)
    requires Disciplined(m) && Permitted(m, Start(c))
    ensures var m' := StartMonitoring(m, c);
            && Disciplined(m') && m'.inFlight == m.inFlight && m'.events == m.events
            && (forall k: Key | k.0 != c.id :: k in m'.probes <==> k in m.probes)
            && (forall k | k in m.probes :: k in m'.probes && m'.probes[k] == m.probes[k])
            && (forall ty: ProbeType :: (c.id, ty) in m'.probes <==> ProbeOf(c, ty).Some?)
            && (forall ty: ProbeType | ProbeOf(c, ty).Some? ::
                m'.probes[(c.id, ty)].(timer := None) == Fresh(ProbeOf(c, ty).value))
            && m'.health == m.health[c.id := Health(true, false, c.startup.None?)]
  {
    hide Disciplined, StartProbe, Fresh, ProbeOf;
    MoreHealth(m, c.id, Health(true, false, false));
    var m3 := ProbesKeep(m.(health := m.health[c.id := Health(true, false, false)]), c);
    MoreHealth(m3, c.id, Health(true, false, true));
  }

  lemma FireKeeps(m: Monitor, t: nat)
    requires Disciplined(m)
    ensures Disciplined(Fire(m, t))
  {
    if t in m.timers {
      var key := m.timers[t];
      var m1 := m.(timers := m.timers - {t});
      if key.1 != Startup && !m.health[key.0].isStarted {
        SetTimerKeeps(m1, key);
      }
    }
  }

  /** One probe's check is over and its next timer is not set yet. */
  ghost predicate Between(m: Monitor, key: Key) {
    && Disciplined(m.(probes := m.probes - {key}))
    && m.inFlight[key] == 0 && (key in m.probes ==> key.0 in m.health && Fired(m, key))
  }

  /** The timer that the probe remembers is no longer pending. */
  predicate Fired(m: Monitor, key: Key)
    requires key in m.probes
  {
    m.probes[key].timer.Some? ==> m.probes[key].timer.value !in m.timers
  }

  lemma HandleFrame(m: Monitor, key: Key, status: Status)
    ensures var m' := HandleChange(m, key, status);
            m' == m.(health := m'.health, events := m'.events) && m'.health.Keys == m.health.Keys
  {
  }

  lemma SameHealth(m: Monitor, m': Monitor)
    requires Disciplined(m) && m' == m.(health := m'.health, events := m'.events) && m'.health.Keys == m.health.Keys
    ensures Disciplined(m')
  {
    assert forall id :: id in m'.health <==> id in m'.health.Keys;
  }

  lemma ProcessBetween(m: Monitor, key: Key, success: bool)
    requires Between(m, key)
    ensures var m' := ProcessResult(m, key, success);
            && Between(m', key) && m'.inFlight == m.inFlight && m'.timers == m.timers && m'.nextTimer == m.nextTimer
            && m'.probes.Keys == m.probes.Keys && m'.health.Keys == m.health.Keys
            && (forall k | k in m.probes && k != key :: m'.probes[k] == m.probes[k])
            && (key in m.probes ==> m'.probes[key] == Absorb(m.probes[key], success))
  {
    hide HandleChange, Disciplined;
    if key in m.probes {
      var s' := Absorb(m.probes[key], success);
      var m1 := m.(probes := m.probes[key := s']);
      var m' := ProcessResult(m, key, success);
      HandleFrame(m1, key, s'.status);
      assert m.probes[key := s'] - {key} == m.probes - {key};
      SameHealth(m.(probes := m.probes - {key}), m'.(probes := m'.probes - {key}));
      assert forall id :: id in m'.health <==> id in m'.health.Keys;
      assert m'.health.Keys == m.health.Keys;
      assert forall id :: id in m.health <==> id in m.health.Keys;
    }
  }

  lemma StopBetween(m: Monitor, key: Key)
    requires Between(m, key)
    ensures var m' := StopMonitoring(m, key.0);
            && Disciplined(m') && key !in m'.probes && m'.inFlight == m.inFlight && m'.events == m.events
            && (forall k | k in m'.probes :: k.0 != key.0 && k in m.probes && m'.probes[k] == m.probes[k])
            && (forall k | k in m.probes && k.0 != key.0 :: k in m'.probes)
            && m'.health == m.health - {key.0}
  {
    var m0 := m.(probes := m.probes - {key});
    StopKeeps(m0, key.0);
    StopIgnores(m, key);
  }

  function Omit(m: Monitor, key: Key): Monitor {
    m.(probes := m.probes - {key})
  }

  lemma OmitClear(m: Monitor, key: Key, k: Key)
    requires key in m.probes ==> Fired(m, key)
    ensures k == key ==> ClearProbe(m, k) == ClearProbe(Omit(m, key), k) == Omit(m, key)
    ensures k != key ==> ClearProbe(Omit(m, key), k) == Omit(ClearProbe(m, k), key)
    ensures key in ClearProbe(m, k).probes ==> Fired(ClearProbe(m, k), key)
  {
    if k == key && key in m.probes && m.probes[key].timer.Some? {
      assert m.timers - {m.probes[key].timer.value} == m.timers;
    }
    if k != key {
      assert m.probes - {key} - {k} == m.probes - {k} - {key};
    }
    assert key !in m.probes ==> m.probes - {key} == m.probes;
  }

  /** The handle of a timer that has fired is not pending: clearing it does
      nothing. */
  lemma StopIgnores(m: Monitor, key: Key)
    requires key in m.probes ==> Fired(m, key)
    ensures StopMonitoring(m, key.0) == StopMonitoring(Omit(m, key), key.0)
  {
    ClearsAre(m, key.0);
    ClearsAre(Omit(m, key), key.0);
    hide ClearProbe, ClearProbes, Fired, Omit;
    var a, b, c := (key.0, Startup), (key.0, Liveness), (key.0, Readiness);
    KeyCases(key);
    OmitClear(m, key, a);
    var x := ClearProbe(m, a);
    OmitClear(x, key, b);
    OmitClear(ClearProbe(x, b), key, c);
  }

  // ---- What one act does ----

  /** The act delivers an awaited result to the monitored probe `key`. */
  predicate Delivers(m: Monitor, act: Act, key: Key) {
    act.Result? && act.key == key && m.inFlight[key] > 0 && key in m.probes
  }

  predicate Starts(act: Act, id: string) {
    act.Start? && act.config.id == id
  }

  function After(m: Monitor, act: Act, key: Key): ProbeState
    requires key in m.probes
  {
    if Delivers(m, act, key) then Absorb(m.probes[key], act.success) else m.probes[key]
  }

  predicate Changes(m: Monitor, act: Act, key: Key) {
    Delivers(m, act, key) && After(m, act, key).status != m.probes[key].status
  }

  /** The event of an act, if it has one. */
  function Emits(m: Monitor, act: Act): seq<Event> {
    if act.Result? && Changes(m, act, act.key) && act.key.0 in m.health then
      var id, status := act.key.0, After(m, act, act.key).status;
      match act.key.1
      case Startup => if status == Healthy then [StartupCompleted(id)] else []
      case Liveness => if status == Unhealthy then [LivenessFailed(id)] else []
      case Readiness => if m.health[id].isReady != (status == Healthy) then [ReadinessChanged(id,
          status == Healthy)] else []
    else []
  }

  function HealthAfter(m: Monitor, act: Act, id: string): Health
    requires id in m.health
  {
    var h := m.health[id];
    if Changes(m, act, (id, Startup)) && After(m, act, (id, Startup)).status == Healthy then h.(isStarted := true)
    else if Changes(m, act, (id, Liveness)) then h.(isLive := After(m, act, (id, Liveness)).status == Healthy)
    else if Changes(m, act, (id, Readiness)) then h.(isReady := After(m, act, (id, Readiness)).status == Healthy)
    else h
  }

  /** Unless its container is just being started, a monitored probe was there
      before and has absorbed at most this act's result; health likewise. */
  ghost predicate StepsTo(m: Monitor, act: Act, m': Monitor) {
    && Disciplined(m') && m'.events == m.events + Emits(m, act)
    && (forall k: Key | k in m'.probes && !Starts(act, k.0) ::
          k in m.probes && m'.probes[k].(timer := None) == After(m, act, k).(timer := None))
    && (forall id | id in m'.health && !Starts(act, id) :: id in m.health && m'.health[id] == HealthAfter(m, act, id))
  }

  lemma LateResult(m: Monitor, key: Key, success: bool, stops: bool)
    requires Disciplined(m) && m.inFlight[key] > 0 && key !in m.probes
    ensures Complete(m, key, success, stops) == m.(inFlight := m.inFlight - multiset{key})
    ensures Disciplined(Complete(m, key, success, stops))
  {
  }

  lemma ResultBetween(m: Monitor, key: Key)
    requires Disciplined(m) && m.inFlight[key] > 0 && key in m.probes
    ensures Between(m.(inFlight := m.inFlight - multiset{key}), key)
  {
  }

  lemma ProcessEmits(m: Monitor, act: Act, m0: Monitor)
    requires act.Result? && Delivers(m, act, act.key) && act.key.0 in m.health
    requires m0 == m.(inFlight := m.inFlight - multiset{act.key})
    ensures var m1 := ProcessResult(m0, act.key, act.success);
            && m1.events == m.events + Emits(m, act)
            && m1.health.Keys == m.health.Keys
            && (forall id | id in m.health :: m1.health[id] == HealthAfter(m, act, id))
  {
    KeyCases(act.key);
  }

  lemma CompleteSteps(m: Monitor, act: Act)
    requires Disciplined(m) && act.Result? && Delivers(m, act, act.key)
    ensures StepsTo(m, act, Step(m, act))
  {
    hide Disciplined, ProcessResult, StopMonitoring, SetTimer, Emits, Absorb, HealthAfter, Between;
    var key := act.key;
    assert key.0 in m.health by { MonitoredHealth(m, key); }
    OthersKeep(m, act);
    hide After;
    var m0 := m.(inFlight := m.inFlight - multiset{key});
    ResultBetween(m, key);
    ProcessEmits(m, act, m0);
    ProcessBetween(m0, key, act.success);
    var m1 := ProcessResult(m0, key, act.success);
    assert forall id :: id in m1.health ==>
        id in m.health by { assert forall id :: id in m1.health <==> id in m1.health.Keys; }
    if act.stops && |m1.events| > |m0.events| {
      StopBetween(m1, key);
    } else {
      BetweenSet(m1, key);
    }
  }

  lemma OthersKeep(m: Monitor, act: Act)
    requires act.Result? && Delivers(m, act, act.key)
    ensures After(m, act, act.key) == Absorb(m.probes[act.key], act.success)
    ensures forall k | k in m.probes && k != act.key :: After(m, act, k) == m.probes[k]
  {
  }

  lemma MonitoredHealth(m: Monitor, key: Key)
    requires Disciplined(m) && key in m.probes
    ensures key.0 in m.health
  {
  }

  lemma BetweenSet(m: Monitor, key: Key)
    requires Between(m, key) && key in m.probes
    ensures var m' := SetTimer(m, key);
            && Disciplined(m') && m'.health == m.health && m'.events == m.events && m'.probes.Keys == m.probes.Keys
            && (forall k | k in m.probes :: m'.probes[k].(timer := None) == m.probes[k].(timer := None))
  {
    SetTimerKeeps(m, key);
  }

  /** An act that delivers nothing emits nothing and feeds no probe. */
  lemma Silent(m: Monitor, act: Act)
    requires act.Result? ==> !Delivers(m, act, act.key)
    ensures Emits(m, act) == []
    ensures forall k | k in m.probes :: After(m, act, k) == m.probes[k]
    ensures forall id | id in m.health :: HealthAfter(m, act, id) == m.health[id]
  {
  }

  lemma StartSteps(m: Monitor, c: Config)
    requires Disciplined(m) && Permitted(m, Start(c))
    ensures StepsTo(m, Start(c), StartMonitoring(m, c))
  {
    hide Disciplined, StartMonitoring, Emits, After, HealthAfter, Permitted;
    Silent(m, Start(c));
    StartKeeps(m, c);
  }

  lemma StopSteps(m: Monitor, id: string)
    requires Disciplined(m)
    ensures StepsTo(m, Stop(id), StopMonitoring(m, id))
  {
    hide Disciplined, StopMonitoring, Emits, After, HealthAfter;
    Silent(m, Stop(id));
    StopKeeps(m, id);
  }

  lemma FireFrame(m: Monitor, t: nat)
    requires Disciplined(m)
    ensures var m' := Fire(m, t);
            && m'.events == m.events && m'.health == m.health && m'.probes.Keys == m.probes.Keys
            && (forall k | k in m.probes :: m'.probes[k].(timer := None) == m.probes[k].(timer := None))
  {
  }

  lemma FireSteps(m: Monitor, t: nat)
    requires Disciplined(m)
    ensures StepsTo(m, Tick(t), Fire(m, t))
  {
    FireKeeps(m, t);
    FireFrame(m, t);
    hide Disciplined, Fire, Emits, After, HealthAfter;
    Silent(m, Tick(t));
  }

  lemma IgnoredSteps(m: Monitor, act: Act)
    requires Disciplined(m) && act.Result? && !Delivers(m, act, act.key)
    ensures StepsTo(m, act, Step(m, act))
  {
    Silent(m, act);
    if m.inFlight[act.key] > 0 {
      LateResult(m, act.key, act.success, act.stops);
    }
    hide Disciplined, Emits, After, HealthAfter;
  }

  /** Timer discipline is kept by every permitted act, and what the act does to
      probes, health and events. */
  lemma ActSteps(m: Monitor, act: Act)
    requires Disciplined(m) && Permitted(m, act)
    ensures StepsTo(m, act, Step(m, act))
  {
    hide Disciplined, StartMonitoring, StopMonitoring, Fire, Complete, StepsTo;
    match act
    case Start(c) => StartSteps(m, c);
    case Stop(id) => StopSteps(m, id);
    case Tick(t) => FireSteps(m, t);
    case Result(key, success, stops) =>
      if Delivers(m, act, key) {
        CompleteSteps(m, act);
      } else {
        IgnoredSteps(m, act);
      }
  }

  // ---- Runs ----

  ghost predicate Lawful(m: Monitor, acts: seq<Act>) {
    forall k | 0 <= k < |acts| :: Permitted(Run(m, acts[..k]), acts[k])
  }

  lemma LawfulInit(m: Monitor, acts: seq<Act>)
    requires Lawful(m, acts) && acts != []
    ensures Lawful(m, acts[..|acts| - 1]) && Permitted(Run(m, acts[..|acts| - 1]), acts[|acts| - 1])
  {
    hide Run, Permitted;
    var init := acts[..|acts| - 1];
    forall k | 0 <= k < |init| ensures Permitted(Run(m, init[..k]), init[k]) {
      assert init[..k] == acts[..k];
    }
  }

  lemma {:induction false} RunDisciplined(m: Monitor, acts: seq<Act>)
    requires Disciplined(m) && Lawful(m, acts)
    ensures Disciplined(Run(m, acts))
  {
    hide Disciplined, Step, Permitted;
    if acts != [] {
      var n := |acts| - 1;
      LawfulInit(m, acts);
      RunDisciplined(m, acts[..n]);
      ActSteps(Run(m, acts[..n]), acts[n]);
    }
  }

  function TimersOf(m: Monitor, key: Key): set<nat> {
    set t | t in m.timers && m.timers[t] == key
  }

  lemma OnlyTimer(m: Monitor, key: Key)
    requires Disciplined(m)
    ensures key in m.probes ==> |TimersOf(m, key)| + m.inFlight[key] == 1
    ensures key !in m.probes ==> TimersOf(m, key) == {}
  {
    if key in m.probes {
      var t := m.probes[key].timer.value;
      if t in m.timers {
        assert TimersOf(m, key) == {t};
      } else {
        assert TimersOf(m, key) == {};
      }
    }
  }

  /** Timer discipline over all interleavings: each monitored probe has exactly
      one pending timer or check in flight, an unmonitored one has no timer,
      and its late result changes nothing. */
  lemma TimerDiscipline(m: Monitor, acts: seq<Act>, key: Key, success: bool, stops: bool)
    requires Disciplined(m) && Lawful(m, acts)
    ensures var r := Run(m, acts);
            && (key in r.probes ==> |TimersOf(r, key)| + r.inFlight[key] == 1)
            && (key !in r.probes ==> TimersOf(r, key) == {})
            && (key !in r.probes && r.inFlight[key] > 0 ==>
                  Complete(r, key, success, stops) == r.(inFlight := r.inFlight - multiset{key}))
  {
    hide Disciplined, Complete;
    RunDisciplined(m, acts);
    var r := Run(m, acts);
    OnlyTimer(r, key);
    if key !in r.probes && r.inFlight[key] > 0 {
      LateResult(r, key, success, stops);
    }
  }

  // ---- Startup gating ----

  /** Checks of liveness and readiness that are in flight began after startup. */
  ghost predicate Gated(m: Monitor) {
    forall key: Key | key in m.probes && key.1 != Startup && m.inFlight[key] > 0 :: key.0 in m.health
        && m.health[key.0].isStarted
  }

  /** While a container stays monitored `isStarted` does not go back, and it
      turns true only when the startup probe turns healthy. */
  lemma StartedStays(m: Monitor, act: Act, id: string)
    requires Disciplined(m) && Permitted(m, act) && id in m.health && id in Step(m, act).health
    ensures m.health[id].isStarted ==> Step(m, act).health[id].isStarted
    ensures !m.health[id].isStarted && Step(m, act).health[id].isStarted ==>
              Delivers(m, act, (id, Startup)) && After(m, act, (id, Startup)).status == Healthy
  {
    hide Disciplined, Step, Emits;
    ActSteps(m, act);
  }

  lemma InFlightAfter(m: Monitor, act: Act, key: Key)
    requires Disciplined(m) && Permitted(m, act)
    ensures Step(m, act).inFlight[key] > m.inFlight[key] ==>
              key in m.probes && (key.1 == Startup || (key.0 in m.health && m.health[key.0].isStarted))
  {
    match act
    case Start(c) => StartKeeps(m, c);
    case Stop(id) => StopKeeps(m, id);
    case Tick(t) =>
    case Result(k, success, stops) => CompleteInFlight(m, k, success, stops);
  }

  lemma {:induction false} StopInFlight(m: Monitor, id: string)
    ensures StopMonitoring(m, id).inFlight == m.inFlight
  {
    hide ClearProbes;
    ClearsAre(m, id);
  }

  lemma CompleteInFlight(m: Monitor, k: Key, success: bool, stops: bool)
    ensures forall key :: Complete(m, k, success, stops).inFlight[key] <= m.inFlight[key]
  {
    hide StopMonitoring, Absorb;
    var m1 := ProcessResult(m.(inFlight := m.inFlight - multiset{k}), k, success);
    StopInFlight(m1, k.0);
  }

  lemma GatedStep(m: Monitor, act: Act)
    requires Disciplined(m) && Permitted(m, act) && Gated(m)
    ensures Gated(Step(m, act))
  {
    hide Disciplined, Step, Emits, After, Delivers;
    ActSteps(m, act);
    var m' := Step(m, act);
    forall key: Key | Starts(act, key.0) ensures m'.inFlight[key] == 0 {
      StartInFlight(m, act.config, key);
    }
    forall key: Key | key in m'.probes && key.1 != Startup && m'.inFlight[key] > 0
      ensures key.0 in m'.health && m'.health[key.0].isStarted
    {
      InFlightAfter(m, act, key);
      MonitoredHealth(m', key);
    }
  }

  lemma StartInFlight(m: Monitor, c: Config, key: Key)
    requires Disciplined(m) && Permitted(m, Start(c)) && key.0 == c.id
    ensures Step(m, Start(c)).inFlight[key] == 0
  {
    StartKeeps(m, c);
    KeyCases(key);
  }

  /** No liveness or readiness check is started before startup has passed, in
      any run. */
  lemma {:induction false} StartupFirst(m: Monitor, acts: seq<Act>)
    requires Disciplined(m) && Gated(m) && Lawful(m, acts)
    ensures Gated(Run(m, acts))
  {
    hide Disciplined, Step, Permitted, Gated;
    if acts != [] {
      var n := |acts| - 1;
      LawfulInit(m, acts);
      StartupFirst(m, acts[..n]);
      RunDisciplined(m, acts[..n]);
      GatedStep(Run(m, acts[..n]), acts[n]);
    }
  }

  // ---- Histories ----

  /** The probe's configuration at its container's last start. */
  function Given(acts: seq<Act>, key: Key): Option<Probe> {
    if acts == [] then None
    else
      var act := acts[|acts| - 1];
      if Starts(act, key.0) then ProbeOf(act.config, key.1) else Given(acts[..|acts| - 1], key)
  }

  /** The results delivered to a probe since its container's last start. */
  function Seen(m: Monitor, acts: seq<Act>, key: Key): seq<bool> {
    if acts == [] then []
    else
      var act, init := acts[|acts| - 1], acts[..|acts| - 1];
      if Starts(act, key.0) then []
      else if Delivers(Run(m, init), act, key) then Seen(m, init, key) + [act.success]
      else Seen(m, init, key)
  }

  /** The events about a container since its last start. */
  function Story(m: Monitor, acts: seq<Act>, id: string): seq<Event> {
    if acts == [] then []
    else
      var act, init := acts[|acts| - 1], acts[..|acts| - 1];
      if Starts(act, id) then []
      else if act.Result? && act.key.0 == id then Story(m, init, id) + Emits(Run(m, init), act)
      else Story(m, init, id)
  }

  function Alarms(p: Probe, h: seq<bool>): nat {
    if h == [] then 0
    else
      var before, after := Folded(p, h[..|h| - 1]), Folded(p, h);
      Alarms(p, h[..|h| - 1]) + (if before.status != Unhealthy && after.status == Unhealthy then 1 else 0)
  }

  /** What `c` alarms in `n` results have cost, given the state they led to. */
  predicate Paid(p: Probe, s: ProbeState, n: nat, c: nat, cost: nat) {
    && s.probe == p
    && (s.status == Unknown ==> c == 0 && cost == 0 && n >= s.failures && s.failures < p.F())
    && (s.status == Unhealthy ==> cost <= n + p.S() - s.successes && s.successes < p.S())
    && (s.status == Healthy ==> cost <= n - s.failures && s.failures < p.F())
  }

  lemma PaidStep(p: Probe, s: ProbeState, n: nat, c: nat, cost: nat, success: bool)
    requires Paid(p, s, n, c, cost)
    ensures var s' := Absorb(s, success);
            var alarm := s.status != Unhealthy && s'.status == Unhealthy;
            Paid(p, s', n + 1, if alarm then c + 1 else c, if alarm then cost + p.F() + p.S() else cost)
  {
  }

  lemma TimesMore(c: nat, d: nat)
    ensures (c + 1) * d == c * d + d
  {
  }

  lemma {:induction false} AlarmsPaid(p: Probe, h: seq<bool>, d: nat)
    requires d == p.F() + p.S()
    ensures Paid(p, Folded(p, h), |h|, Alarms(p, h), Alarms(p, h) * d)
  {
    hide Absorb, Paid;
    if h == [] {
      NothingPaid(p);
    } else {
      var i := h[..|h| - 1];
      AlarmsPaid(p, i, d);
      var c := Alarms(p, i);
      PaidStep(p, Folded(p, i), |i|, c, c * d, h[|h| - 1]);
      TimesMore(c, d);
    }
  }

  lemma NothingPaid(p: Probe)
    ensures Paid(p, Fresh(p), 0, 0, 0)
  {
  }

  /** `n` results raise at most floor((n + S) / (F + S)) alarms: each of them
      but the first takes S successes and F failures after the last. */
  lemma AlarmsBounded(p: Probe, h: seq<bool>)
    ensures Alarms(p, h) * (p.F() + p.S()) <= |h| + p.S()
  {
    AlarmsPaid(p, h, p.F() + p.S());
  }

  // ---- Events refine histories ----

  function CountFailed(events: seq<Event>): nat {
    if events == [] then 0
    else CountFailed(events[..|events| - 1]) + (if events[|events| - 1].LivenessFailed? then 1 else 0)
  }

  function ReadyValues(events: seq<Event>): seq<bool> {
    if events == [] then []
    else
      var e, r := events[|events| - 1], ReadyValues(events[..|events| - 1]);
      if e.ReadinessChanged? then r + [e.isReady] else r
  }

  lemma EventsMore(events: seq<Event>, more: seq<Event>)
    requires |more| <= 1
    ensures CountFailed(events + more) == CountFailed(events) + (if |more| == 1
            && more[0].LivenessFailed? then 1 else 0)
    ensures ReadyValues(events + more) ==
            if |more| == 1 && more[0].ReadinessChanged? then ReadyValues(events) + [more[0].isReady] else ReadyValues(events)
  {
    if |more| == 0 {
      assert events + more == events;
    } else {
      assert (events + more)[..|events|] == events;
    }
  }

  /** true, false, true, ... */
  predicate Alternates(r: seq<bool>) {
    forall k | 0 <= k < |r| :: r[k] == (k % 2 == 0)
  }

  /** The monitored probe is what its history folds to. */
  ghost predicate Follows(m: Monitor, acts: seq<Act>, key: Key) {
    key in Run(m, acts).probes ==>
      && Given(acts, key).Some?
      && Run(m, acts).probes[key].(timer := None) == Folded(Given(acts, key).value, Seen(m, acts, key))
  }

  ghost predicate FollowsAll(m: Monitor, acts: seq<Act>, id: string) {
    forall ty: ProbeType :: Follows(m, acts, (id, ty))
  }

  /** The failed-liveness events are the alarms of the liveness history. */
  ghost predicate Alarmed(m: Monitor, acts: seq<Act>, id: string) {
    match Given(acts, (id, Liveness))
    case None => CountFailed(Story(m, acts, id)) == 0
    case Some(p) => CountFailed(Story(m, acts, id)) == Alarms(p, Seen(m, acts, (id, Liveness)))
  }

  ghost predicate ReadyTold(m: Monitor, acts: seq<Act>, id: string) {
    var values := ReadyValues(Story(m, acts, id));
    Alternates(values) && (id in Run(m, acts).health ==> Run(m, acts).health[id].isReady == (|values| % 2 == 1))
  }

  /** What a run has made of one container since its last start. */
  ghost predicate Told(m: Monitor, acts: seq<Act>, id: string) {
    FollowsAll(m, acts, id) && Alarmed(m, acts, id) && ReadyTold(m, acts, id)
  }

  lemma Last(m: Monitor, acts: seq<Act>, init: seq<Act>, act: Act)
    requires acts == init + [act]
    ensures acts[..|acts| - 1] == init && acts[|acts| - 1] == act
    ensures Run(m, acts) == Step(Run(m, init), act)
  {
    assert acts[..|acts| - 1] == init;
  }

  lemma ToldStart(m: Monitor, acts: seq<Act>, init: seq<Act>, act: Act, id: string)
    requires acts == init + [act] && Starts(act, id) && Disciplined(Run(m, init)) && Permitted(Run(m, init), act)
    ensures Told(m, acts, id)
  {
    hide Run, Step, Disciplined, Permitted;
    Last(m, acts, init, act);
    StartKeeps(Run(m, init), act.config);
    assert Step(Run(m, init), act) == StartMonitoring(Run(m, init), act.config) by { StartIs(Run(m, init), act); }
  }

  lemma StartIs(m: Monitor, act: Act)
    requires act.Start?
    ensures Step(m, act) == StartMonitoring(m, act.config)
  {
  }

  /** A probe that was not started afresh follows its history. */
  lemma FollowsStep(m: Monitor, acts: seq<Act>, init: seq<Act>, act: Act, key: Key)
    requires acts == init + [act] && !Starts(act, key.0) && Follows(m, init, key)
    requires StepsTo(Run(m, init), act, Run(m, acts))
    ensures Follows(m, acts, key)
  {
    hide Run, Disciplined, Emits, Absorb;
    Last(m, acts, init, act);
    if key in Run(m, acts).probes {
      var p, h := Given(init, key).value, Seen(m, init, key);
      assert Given(acts, key) == Given(init, key);
      if Delivers(Run(m, init), act, key) {
        assert (h + [act.success])[..|h|] == h;
        AbsorbTimer(Run(m, init).probes[key], act.success);
        assert Seen(m, acts, key) == h + [act.success];
      }
    }
  }

  lemma AbsorbTimer(s: ProbeState, success: bool)
    ensures Absorb(s, success).(timer := None) == Absorb(s.(timer := None), success)
  {
  }

  lemma AlarmedStep(m: Monitor, acts: seq<Act>, init: seq<Act>, act: Act, id: string)
    requires acts == init + [act] && !Starts(act, id) && Alarmed(m, init, id)
    requires Disciplined(Run(m, init)) && Follows(m, init, (id, Liveness))
    ensures Alarmed(m, acts, id)
  {
    hide Run, Disciplined, Absorb, Changes;
    Last(m, acts, init, act);
    var r, key := Run(m, init), (id, Liveness);
    if act.Result? && act.key.0 == id {
      KeyCases(act.key);
      EventsMore(Story(m, init, id), Emits(r, act));
      LivenessEmits(r, act, id);
      if Delivers(r, act, key) {
        var p, h := Given(init, key).value, Seen(m, init, key);
        assert (h + [act.success])[..|h|] == h;
        AbsorbTimer(r.probes[key], act.success);
      }
    }
  }

  /** The failed-liveness event of an act about `id`. */
  lemma LivenessEmits(m: Monitor, act: Act, id: string)
    requires Disciplined(m) && act.Result? && act.key.0 == id
    ensures |Emits(m, act)| <= 1
    ensures |Emits(m, act)| == 1 && Emits(m, act)[0].LivenessFailed? <==>
            Delivers(m, act, (id, Liveness)) && m.probes[(id, Liveness)].status != Unhealthy
            && Absorb(m.probes[(id, Liveness)], act.success).status == Unhealthy
  {
    hide Absorb;
    KeyCases(act.key);
  }

  lemma ReadinessEmits(m: Monitor, act: Act, id: string)
    requires Disciplined(m) && act.Result? && act.key.0 == id && id in m.health
    ensures |Emits(m, act)| <= 1
    ensures var e, ready := Emits(m, act), HealthAfter(m, act, id).isReady;
            if |e| == 1 && e[0].ReadinessChanged? then e[0].isReady == ready != m.health[id].isReady
            else ready == m.health[id].isReady
  {
    hide Absorb, Disciplined;
    KeyCases(act.key);
  }

  lemma StoryStep(m: Monitor, acts: seq<Act>, init: seq<Act>, act: Act, id: string)
    requires acts == init + [act] && !Starts(act, id)
    ensures Story(m, acts, id) ==
            if act.Result? && act.key.0 == id then Story(m, init, id) + Emits(Run(m, init), act) else Story(m, init, id)
  {
    hide Run, Emits;
    Last(m, acts, init, act);
  }

  lemma StepHealth(m: Monitor, act: Act, m': Monitor, id: string)
    requires StepsTo(m, act, m') && id in m'.health && !Starts(act, id)
    ensures id in m.health && m'.health[id] == HealthAfter(m, act, id)
  {
    hide Disciplined, Emits, After, HealthAfter;
  }

  lemma AlternatesMore(r: seq<bool>, v: bool)
    requires Alternates(r) && v == (|r| % 2 == 0)
    ensures Alternates(r + [v]) && v == (|r + [v]| % 2 == 1)
  {
  }

  lemma ReadyStep(m: Monitor, acts: seq<Act>, init: seq<Act>, act: Act, id: string)
    requires acts == init + [act] && !Starts(act, id) && ReadyTold(m, init, id)
    requires Disciplined(Run(m, init)) && StepsTo(Run(m, init), act, Run(m, acts))
    ensures ReadyTold(m, acts, id)
  {
    hide Run, Disciplined, Emits, HealthAfter, Story, StepsTo, Starts, Alternates, ReadyValues;
    StoryStep(m, acts, init, act, id);
    var r, values := Run(m, init), ReadyValues(Story(m, init, id));
    if id in Run(m, acts).health {
      StepHealth(r, act, Run(m, acts), id);
    }
    if act.Result? && act.key.0 == id {
      LivenessEmits(r, act, id);
      EventsMore(Story(m, init, id), Emits(r, act));
      if id in r.health {
        ReadinessEmits(r, act, id);
        if |Emits(r, act)| == 1 && Emits(r, act)[0].ReadinessChanged? {
          AlternatesMore(values, Emits(r, act)[0].isReady);
        }
      } else {
        UnknownSilent(r, act, id);
      }
    } else if id in r.health {
      OtherHealth(r, act, id);
    }
  }

  lemma UnknownSilent(m: Monitor, act: Act, id: string)
    requires act.Result? && act.key.0 == id && id !in m.health
    ensures Emits(m, act) == []
  {
  }

  lemma OtherHealth(m: Monitor, act: Act, id: string)
    requires id in m.health && (act.Result? ==> act.key.0 != id)
    ensures HealthAfter(m, act, id) == m.health[id]
  {
  }

  lemma {:induction false} RunTold(m: Monitor, acts: seq<Act>, id: string)
    requires Disciplined(m) && Lawful(m, acts) && id !in m.health
    ensures Disciplined(Run(m, acts)) && Told(m, acts, id)
  {
    hide Disciplined, Step, Permitted, Alarmed, ReadyTold, StepsTo, Follows;
    if acts == [] {
      assert FollowsAll(m, acts, id) && Alarmed(m, acts, id) && ReadyTold(m, acts, id) by { ToldNothing(m, id); }
    } else {
      var n := |acts| - 1;
      var init, act := acts[..n], acts[n];
      assert acts == init + [act];
      LawfulInit(m, acts);
      RunTold(m, init, id);
      ActSteps(Run(m, init), act);
      Last(m, acts, init, act);
      assert Disciplined(Run(m, acts)) by { StepDisciplined(Run(m, init), act, Run(m, acts)); }
      if Starts(act, id) {
        ToldStart(m, acts, init, act, id);
      } else {
        forall ty: ProbeType ensures Follows(m, acts, (id, ty)) {
          assert Follows(m, init, (id, ty));
          FollowsStep(m, acts, init, act, (id, ty));
        }
        AlarmedStep(m, acts, init, act, id);
        ReadyStep(m, acts, init, act, id);
      }
    }
  }

  lemma StepDisciplined(m: Monitor, act: Act, m': Monitor)
    requires StepsTo(m, act, m')
    ensures Disciplined(m')
  {
  }

  lemma ToldNothing(m: Monitor, id: string)
    requires Disciplined(m) && id !in m.health
    ensures Told(m, [], id)
  {
  }

  /** In every lawful run a monitored probe's counters and status are those its
      results since the container's start fold to; with `Hysteresis` they refine
      that history. */
  lemma ProbeRefinesHistory(m: Monitor, acts: seq<Act>, key: Key)
    requires Disciplined(m) && Lawful(m, acts) && key.0 !in m.health && key in Run(m, acts).probes
    ensures Given(acts, key).Some?
    ensures Run(m, acts).probes[key].(timer := None) == Folded(Given(acts, key).value, Seen(m, acts, key))
  {
    RunTold(m, acts, key.0);
    assert Follows(m, acts, (key.0, key.1));
  }

  /** Events of any lawful run, since the container's last start: n executed
      liveness results emit at most floor((n + S) / (F + S)) failures, and the
      readiness values alternate, starting with true. */
  lemma EventsBounded(m: Monitor, acts: seq<Act>, id: string, p: Probe)
    requires Disciplined(m) && Lawful(m, acts) && id !in m.health && Given(acts, (id, Liveness)) == Some(p)
    ensures var story, n := Story(m, acts, id), |Seen(m, acts, (id, Liveness))|;
            && CountFailed(story) * (p.F() + p.S()) <= n + p.S()
            && Alternates(ReadyValues(story))
  {
    RunTold(m, acts, id);
    AlarmsBounded(p, Seen(m, acts, (id, Liveness)));
  }
}
