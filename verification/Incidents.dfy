/** The incident correlator: a fold of anomaly events into incidents, with
    escalation, resolution and an alert cooldown. */
module Incidents {
  import opened Text

  datatype Severity = Info | Warning | Critical
  datatype State = Open | Active | Resolved

  datatype Payload = Payload(metric: string, fingerprint: string, severity: Severity, timestamp: int, score: real,
      confidence: real)

  datatype Incident = Incident(
    fingerprint: string,
    metric: string,
    severity: Severity,
    firstSeen: int,
    lastSeen: int,
    maxScore: real,
    maxConfidence: real,
    count: nat,
    status: State,
    lastAlert: Option<int>)

  /** An alert about the incident with the given id, raised at a time. */
  datatype Alert = Alert(incident: nat, severity: Severity, score: real, at: int)

  /** The two tables. A row's position is its incident's id. */
  datatype Tables = Tables(incidents: seq<Incident>, alerts: seq<Alert>)

  const ACTIVE_THRESHOLD: nat := 3
  const COOLDOWN: int := 60 * 60 * 1000
  const SILENCE_WINDOW: int := 30 * 60 * 1000

  function Threshold(s: Severity): nat {
    match s
    case Critical => 1
    case Warning => 3
    case Info => 5
  }

  function SeverityRank(s: Severity): nat {
    match s
    case Info => 0
    case Warning => 1
    case Critical => 2
  }

  function EscalateSeverity(current: Severity, incoming: Severity): Severity {
    if SeverityRank(incoming) > SeverityRank(current) then incoming else current
  }

  function MaxReal(x: real, y: real): real {
    if x >= y then x else y
  }

  predicate Live(i: Incident, fingerprint: string) {
    i.fingerprint == fingerprint && i.status != Resolved
  }

  /** `findActiveByFingerprint`: the most recently created one. */
  function FindActive(incidents: seq<Incident>, fingerprint: string): (r: Option<nat>)
    ensures r.None? <==> forall k | 0 <= k < |incidents| :: !Live(incidents[k], fingerprint)
    ensures r.Some? ==> r.value < |incidents| && Live(incidents[r.value], fingerprint)
  {
    if incidents == [] then None
    else if Live(incidents[|incidents| - 1], fingerprint) then Some(|incidents| - 1)
    else
      var r := FindActive(incidents[..|incidents| - 1], fingerprint);
      assert forall k | 0 <= k < |incidents| - 1 :: incidents[..|incidents| - 1][k] == incidents[k];
      r
  }

  function Created(e: Payload): Incident {
    Incident(e.fingerprint, e.metric, e.severity, e.timestamp, e.timestamp, e.score, e.confidence, 1, Open, None)
  }

  function Grown(i: Incident, e: Payload): Incident {
    i.(lastSeen := e.timestamp, count := i.count + 1,
       maxScore := MaxReal(i.maxScore, e.score), maxConfidence := MaxReal(i.maxConfidence, e.confidence),
       severity := EscalateSeverity(i.severity, e.severity),
       status := if i.count + 1 >= ACTIVE_THRESHOLD then Active else i.status)
  }

  predicate Cooling(i: Incident, now: int) {
    i.lastAlert.Some? && i.lastAlert.value != 0 && now - i.lastAlert.value < COOLDOWN
  }

  predicate Promotes(i: Incident, now: int) {
    i.count >= Threshold(i.severity) && !Cooling(i, now)
  }

  function MaybePromote(t: Tables, k: nat, now: int): Tables
    requires k < |t.incidents|
  {
    var i := t.incidents[k];
    if Promotes(i, now) then
      Tables(t.incidents[k := i.(lastAlert := Some(now))], t.alerts + [Alert(k, i.severity, i.maxScore, now)])
    else t
  }

  predicate Counts(e: Payload) {
    e.metric != "" && e.fingerprint != ""
  }

  /** The incident that the event goes to: an open one, or a new row. */
  function Receiver(t: Tables, e: Payload): nat {
    FindActive(t.incidents, e.fingerprint).GetOr(|t.incidents|)
  }

  /** The tables with the event entered and no alert considered yet. */
  function Entered(t: Tables, e: Payload): (r: Tables)
    ensures Receiver(t, e) < |r.incidents|
  {
    match FindActive(t.incidents, e.fingerprint)
    case None => t.(incidents := t.incidents + [Created(e)])
    case Some(k) => t.(incidents := t.incidents[k := Grown(t.incidents[k], e)])
  }

  function ProcessEvent(t: Tables, e: Payload, now: int): Tables {
    if Counts(e) then MaybePromote(Entered(t, e), Receiver(t, e), now) else t
  }

  function Resolve(t: Tables, k: nat): Tables {
    if k < |t.incidents| then t.(incidents := t.incidents[k := t.incidents[k].(status := Resolved)]) else t
  }

  function AutoResolveStale(t: Tables, cutoff: int): Tables {
    t.(incidents := seq(|t.incidents|, k requires 0 <= k < |t.incidents| =>
         if t.incidents[k].lastSeen < cutoff then t.incidents[k].(status := Resolved) else t.incidents[k]))
  }

  class IncidentCorrelator {
    var incidents: seq<Incident>
    var alerts: seq<Alert>

    ghost function State(): Tables
      reads this
    {
      Tables(incidents, alerts)
    }

    method Process(e: Payload, now: int)
      modifies this
      ensures State() == ProcessEvent(old(State()), e, now)
    {
      if e.metric == "" || e.fingerprint == "" {
        return;
      }
      var found := FindActive(incidents, e.fingerprint);
      var k;
      if found.None? {
        k := |incidents|;
        incidents := incidents + [Incident(e.fingerprint, e.metric, e.severity, e.timestamp, e.timestamp, e.score,
            e.confidence, 1, Open, None)];
      } else {
        k := found.value;
        var incident := incidents[k];
        var newCount := incident.count + 1;
        var newStatus := if newCount >= ACTIVE_THRESHOLD then Active else incident.status;
        incidents := incidents[k := incident.(
          lastSeen := e.timestamp, count := newCount,
          maxScore := MaxReal(incident.maxScore, e.score), maxConfidence := MaxReal(incident.maxConfidence,
              e.confidence),
          severity := EscalateSeverity(incident.severity, e.severity), status := newStatus)];
      }
      Promote(k, now);
    }

    method Promote(k: nat, now: int)
      requires k < |incidents|
      modifies this
      ensures State() == MaybePromote(old(State()), k, now)
    {
      var incident := incidents[k];
      if incident.count < Threshold(incident.severity) {
        return;
      }
      if incident.lastAlert.Some? && incident.lastAlert.value != 0 && now - incident.lastAlert.value < COOLDOWN {
        return;
      }
      alerts := alerts + [Alert(k, incident.severity, incident.maxScore, now)];
      incidents := incidents[k := incident.(lastAlert := Some(now))];
    }

    method ResolveIncident(k: nat) returns (changed: bool)
      modifies this
      ensures State() == Resolve(old(State()), k)
      ensures changed == (k < |old(incidents)| && old(incidents)[k].status != Resolved)
    {
      if k >= |incidents| || incidents[k].status == Resolved {
        assert k < |incidents| ==> incidents[k := incidents[k].(status := Resolved)] == incidents;
        return false;
      }
      incidents := incidents[k := incidents[k].(status := Resolved)];
      return true;
    }

    /** The periodic check for silent incidents. */
    method CheckSilentResolutions(now: int)
      modifies this
      ensures State() == AutoResolveStale(old(State()), now - SILENCE_WINDOW)
    {
      var cutoff := now - SILENCE_WINDOW;
      incidents := seq(|incidents|, k requires 0 <= k < |incidents| reads this =>
        if incidents[k].lastSeen < cutoff then incidents[k].(status := Resolved) else incidents[k]);
    }
  }

  // ---- Runs ----

  datatype Act = Event(payload: Payload, now: int) | ResolveOne(incident: nat) | Stale(cutoff: int)

  function Step(t: Tables, act: Act): Tables {
    match act
    case Event(e, now) => ProcessEvent(t, e, now)
    case ResolveOne(k) => Resolve(t, k)
    case Stale(cutoff) => AutoResolveStale(t, cutoff)
  }

  function Run(acts: seq<Act>): Tables {
    if acts == [] then Tables([], []) else Step(Run(acts[..|acts| - 1]), acts[|acts| - 1])
  }

  predicate Feeds(t: Tables, act: Act, k: nat) {
    act.Event? && Counts(act.payload) && Receiver(t, act.payload) == k
  }

  /** The events that went to incident `k`, in order. */
  function EventsOf(acts: seq<Act>, k: nat): seq<Payload> {
    if acts == [] then []
    else
      var init, act := acts[..|acts| - 1], acts[|acts| - 1];
      if Feeds(Run(init), act, k) then EventsOf(init, k) + [act.payload] else EventsOf(init, k)
  }

  // ---- At most one ----

  ghost predicate OneLive(t: Tables) {
    forall j, k | 0 <= j < k < |t.incidents| && t.incidents[j].status != Resolved
        && t.incidents[k].status != Resolved ::
      t.incidents[j].fingerprint != t.incidents[k].fingerprint
  }

  lemma OneLiveEntered(t: Tables, e: Payload)
    requires OneLive(t)
    ensures OneLive(Entered(t, e))
  {
  }

  lemma OneLivePromoted(t: Tables, k: nat, now: int)
    requires OneLive(t) && k < |t.incidents|
    ensures OneLive(MaybePromote(t, k, now))
  {
    hide Promotes;
  }

  lemma OneLiveResolved(t: Tables, k: nat, cutoff: int)
    requires OneLive(t)
    ensures OneLive(Resolve(t, k)) && OneLive(AutoResolveStale(t, cutoff))
  {
  }

  lemma OneLiveStep(t: Tables, act: Act)
    requires OneLive(t)
    ensures OneLive(Step(t, act))
  {
    hide OneLive, Entered, MaybePromote, Resolve, AutoResolveStale;
    match act
    case Event(e, now) =>
      OneLiveEntered(t, e);
      OneLivePromoted(Entered(t, e), Receiver(t, e), now);
    case ResolveOne(k) => OneLiveResolved(t, k, 0);
    case Stale(cutoff) => OneLiveResolved(t, 0, cutoff);
  }

  /** At most one open or active incident per fingerprint, in every run. */
  lemma {:induction false} OneLiveEver(acts: seq<Act>)
    ensures OneLive(Run(acts))
  {
    hide Step, OneLive;
    if acts == [] {
      assert OneLive(Tables([], [])) by { NothingLive(); }
    } else {
      OneLiveEver(acts[..|acts| - 1]);
      OneLiveStep(Run(acts[..|acts| - 1]), acts[|acts| - 1]);
    }
  }

  lemma NothingLive()
    ensures OneLive(Tables([], []))
  {
  }

  // ---- The fold ----

  /** `s` is the highest severity that occurs. */
  ghost predicate IsWorst(s: Severity, events: seq<Payload>) {
    && (forall e | e in events :: SeverityRank(e.severity) <= SeverityRank(s))
    && exists e :: e in events && e.severity == s
  }

  ghost predicate IsMax(x: real, xs: seq<real>) {
    (forall y | y in xs :: y <= x) && x in xs
  }

  function Scores(events: seq<Payload>): (r: seq<real>)
    ensures |r| == |events|
  {
    seq(|events|, i requires 0 <= i < |events| => events[i].score)
  }

  function Confidences(events: seq<Payload>): (r: seq<real>)
    ensures |r| == |events|
  {
    seq(|events|, i requires 0 <= i < |events| => events[i].confidence)
  }

  /** The incident is what its events amount to. */
  ghost predicate Amounts(i: Incident, events: seq<Payload>) {
    && events != []
    && i.count == |events|
    && (forall e | e in events :: e.fingerprint == i.fingerprint && Counts(e))
    && i.metric == events[0].metric
    && i.firstSeen == events[0].timestamp && i.lastSeen == events[|events| - 1].timestamp
    && IsMax(i.maxScore, Scores(events)) && IsMax(i.maxConfidence, Confidences(events))
    && IsWorst(i.severity, events)
    && (i.status != Resolved ==> (i.status == Active <==> |events| >= ACTIVE_THRESHOLD))
  }

  lemma MaxMore(x: real, xs: seq<real>, y: real)
    requires IsMax(x, xs)
    ensures IsMax(MaxReal(x, y), xs + [y])
  {
  }

  lemma WorstMore(s: Severity, events: seq<Payload>, e: Payload)
    requires IsWorst(s, events)
    ensures IsWorst(EscalateSeverity(s, e.severity), events + [e])
  {
    var w :| w in events && w.severity == s;
    assert w in events + [e] && e in events + [e];
  }

  lemma GrownAmounts(i: Incident, events: seq<Payload>, e: Payload)
    requires Amounts(i, events) && Counts(e) && Live(i, e.fingerprint)
    ensures Amounts(Grown(i, e), events + [e])
  {
    hide IsMax, IsWorst, MaxReal, EscalateSeverity;
    MaxMore(i.maxScore, Scores(events), e.score);
    MaxMore(i.maxConfidence, Confidences(events), e.confidence);
    WorstMore(i.severity, events, e);
    assert Scores(events + [e]) == Scores(events) + [e.score];
    assert Confidences(events + [e]) == Confidences(events) + [e.confidence];
  }

  lemma CreatedAmounts(e: Payload)
    requires Counts(e)
    ensures Amounts(Created(e), [e])
  {
    assert Scores([e]) == [e.score] && Confidences([e]) == [e.confidence];
    assert e in [e];
  }

  /** Alerts and resolutions leave an incident what its events amount to. */
  lemma AmountsKept(i: Incident, i': Incident, events: seq<Payload>)
    requires Amounts(i, events)
    requires i' == i.(lastAlert := i'.lastAlert, status := i'.status)
             && (i'.status == i.status || i'.status == Resolved)
    ensures Amounts(i', events)
  {
    hide IsMax, IsWorst;
  }

  ghost predicate AllAmount(acts: seq<Act>) {
    && (forall k | 0 <= k < |Run(acts).incidents| :: Amounts(Run(acts).incidents[k], EventsOf(acts, k)))
    && (forall k: nat | k >= |Run(acts).incidents| :: EventsOf(acts, k) == [])
  }

  lemma PromoteRow(t: Tables, k: nat, now: int, j: nat)
    requires k < |t.incidents| && j < |t.incidents|
    ensures var t' := MaybePromote(t, k, now);
            |t'.incidents| == |t.incidents|
                && t'.incidents[j] == t.incidents[j].(lastAlert := t'.incidents[j].lastAlert)
  {
  }

  lemma EventsStep(acts: seq<Act>, init: seq<Act>, act: Act, k: nat)
    requires acts == init + [act]
    ensures EventsOf(acts, k) == if Feeds(Run(init), act, k) then EventsOf(init,
            k) + [act.payload] else EventsOf(init, k)
  {
    hide Run, Feeds;
    assert acts[..|acts| - 1] == init && acts[|acts| - 1] == act;
  }

  lemma EventAmounts(acts: seq<Act>, init: seq<Act>, e: Payload, now: int)
    requires acts == init + [Event(e, now)] && AllAmount(init) && Counts(e)
    ensures AllAmount(acts)
  {
    hide Run, Amounts, Created, Grown, Counts, MaybePromote, EventsOf;
    var act := Event(e, now);
    var t := Run(init);
    var k := Receiver(t, e);
    assert Run(acts) == Step(t, act) by { RunLast(acts, init, act); }
    assert Run(acts) == MaybePromote(Entered(t, e), k, now);
    forall j | 0 <= j < |Entered(t, e).incidents|
      ensures Amounts(Entered(t, e).incidents[j], EventsOf(acts, j))
    {
      EventsStep(acts, init, act, j);
      if j == k {
        if k < |t.incidents| {
          GrownAmounts(t.incidents[k], EventsOf(init, k), e);
        } else {
          CreatedAmounts(e);
          assert EventsOf(init, k) == [] && [] + [e] == [e];
        }
      }
    }
    forall j | 0 <= j < |Run(acts).incidents| ensures Amounts(Run(acts).incidents[j], EventsOf(acts, j)) {
      PromoteSize(Entered(t, e), k, now);
      PromoteRow(Entered(t, e), k, now, j);
      AmountsKept(Entered(t, e).incidents[j], Run(acts).incidents[j], EventsOf(acts, j));
    }
    PromoteSize(Entered(t, e), k, now);
    forall j: nat | j >= |Run(acts).incidents| ensures EventsOf(acts, j) == [] {
      EventsStep(acts, init, act, j);
    }
  }

  lemma PromoteSize(t: Tables, k: nat, now: int)
    requires k < |t.incidents|
    ensures |MaybePromote(t, k, now).incidents| == |t.incidents|
  {
  }

  lemma RunLast(acts: seq<Act>, init: seq<Act>, act: Act)
    requires acts == init + [act]
    ensures Run(acts) == Step(Run(init), act)
  {
    assert acts[..|acts| - 1] == init;
  }

  lemma OtherAmounts(acts: seq<Act>, init: seq<Act>, act: Act)
    requires acts == init + [act] && AllAmount(init) && (act.Event? ==> !Counts(act.payload))
    ensures AllAmount(acts)
  {
    hide Run, Amounts, EventsOf;
    RunLast(acts, init, act);
    var t, t' := Run(init), Run(acts);
    forall k: nat ensures EventsOf(acts, k) == EventsOf(init, k) {
      EventsStep(acts, init, act, k);
    }
    forall k | 0 <= k < |t'.incidents| ensures Amounts(t'.incidents[k], EventsOf(acts, k)) {
      AmountsKept(t.incidents[k], t'.incidents[k], EventsOf(init, k));
    }
  }

  /** Incident state is a fold: in every run each incident's count, maxima,
      severity, times and status are those of the events it has received. */
  lemma {:induction false} IncidentIsFold(acts: seq<Act>)
    ensures AllAmount(acts)
  {
    hide AllAmount, Counts;
    if acts == [] {
      assert AllAmount(acts) by { NothingAmounts(); }
    } else {
      var n := |acts| - 1;
      assert acts == acts[..n] + [acts[n]];
      IncidentIsFold(acts[..n]);
      if acts[n].Event? && Counts(acts[n].payload) {
        EventAmounts(acts, acts[..n], acts[n].payload, acts[n].now);
      } else {
        OtherAmounts(acts, acts[..n], acts[n]);
      }
    }
  }

  lemma NothingAmounts()
    ensures AllAmount([])
  {
  }

  // ---- Alerts ----

  /** Alert `j` is the next one of its incident after alert `i`. */
  ghost predicate Follows(alerts: seq<Alert>, i: nat, j: nat) {
    && i < j < |alerts| && alerts[i].incident == alerts[j].incident
    && forall k | i < k < j :: alerts[k].incident != alerts[j].incident
  }

  ghost predicate IsLast(alerts: seq<Alert>, j: nat) {
    j < |alerts| && forall k | j < k < |alerts| :: alerts[k].incident != alerts[j].incident
  }

  /** Each incident notes its last alert; an alert that follows another one comes
      an hour later, unless that one was raised at time zero; and no alert comes
      before its severity's threshold. */
  ghost predicate Paced(t: Tables) {
    && (forall j | 0 <= j < |t.alerts| ::
          t.alerts[j].incident < |t.incidents|
          && t.incidents[t.alerts[j].incident].count >= Threshold(t.alerts[j].severity))
    && (forall j: nat | IsLast(t.alerts, j) :: t.incidents[t.alerts[j].incident].lastAlert == Some(t.alerts[j].at))
    && (forall i: nat, j: nat | Follows(t.alerts, i, j) ::
          t.alerts[j].at - t.alerts[i].at >= COOLDOWN || t.alerts[i].at == 0)
  }

  lemma EnteredPaced(t: Tables, e: Payload)
    requires Paced(t)
    ensures Paced(Entered(t, e)) && Entered(t, e).alerts == t.alerts
  {
    hide IsLast, Follows;
    assert forall j: nat :: IsLast(t.alerts, j) ==> j < |t.alerts| by { LastBound(t.alerts); }
  }

  lemma LastBound(alerts: seq<Alert>)
    ensures forall j: nat :: IsLast(alerts, j) ==> j < |alerts|
  {
  }

  lemma AppendAlert(alerts: seq<Alert>, x: Alert)
    ensures forall i: nat, j: nat | j < |alerts| :: Follows(alerts + [x], i, j) <==> Follows(alerts, i, j)
    ensures forall i: nat :: Follows(alerts + [x], i, |alerts|) <==> IsLast(alerts, i) && alerts[i].incident == x.incident
    ensures forall j: nat | j < |alerts| :: IsLast(alerts + [x], j) <==> IsLast(alerts, j) && alerts[j].incident != x.incident
    ensures IsLast(alerts + [x], |alerts|)
    ensures forall i: nat, j: nat :: Follows(alerts + [x], i, j) ==> j <= |alerts|
    ensures forall j: nat :: IsLast(alerts + [x], j) ==> j <= |alerts|
  {
    var more := alerts + [x];
    assert forall k | 0 <= k < |alerts| :: more[k] == alerts[k];
    forall j: nat | j < |alerts| ensures IsLast(more, j) <==> IsLast(alerts, j) && alerts[j].incident != x.incident {
      assert more[|alerts|] == x;
    }
  }

  lemma PromotePaced(t: Tables, k: nat, now: int)
    requires Paced(t) && k < |t.incidents|
    ensures Paced(MaybePromote(t, k, now))
  {
    hide IsLast, Follows;
    var i := t.incidents[k];
    if Promotes(i, now) {
      var x := Alert(k, i.severity, i.maxScore, now);
      var n := |t.alerts|;
      var t' := MaybePromote(t, k, now);
      AppendAlert(t.alerts, x);
      LastBound(t.alerts);
      FollowsBound(t.alerts);
      forall j: nat | IsLast(t'.alerts, j) ensures t'.incidents[t'.alerts[j].incident].lastAlert
          == Some(t'.alerts[j].at) {
        assert j < n ==> IsLast(t.alerts, j) && t.alerts[j].incident != k;
      }
      forall a: nat, b: nat | Follows(t'.alerts, a, b)
        ensures t'.alerts[b].at - t'.alerts[a].at >= COOLDOWN || t'.alerts[a].at == 0
      {
        if b < n {
          assert Follows(t.alerts, a, b);
        } else {
          assert b == n && IsLast(t.alerts, a) && t.alerts[a].incident == k;
        }
      }
    }
  }

  lemma StepPaced(t: Tables, act: Act)
    requires Paced(t)
    ensures Paced(Step(t, act))
  {
    hide IsLast, Follows;
    LastBound(t.alerts);
    match act
    case Event(e, now) =>
      if Counts(e) {
        hide Paced;
        EnteredPaced(t, e);
        PromotePaced(Entered(t, e), Receiver(t, e), now);
      }
    case ResolveOne(k) =>
    case Stale(cutoff) =>
  }

  lemma {:induction false} RunPaced(acts: seq<Act>)
    ensures Paced(Run(acts))
  {
    hide Paced, Step;
    if acts == [] {
      assert Paced(Tables([], [])) by { NothingPaced(); }
    } else {
      RunPaced(acts[..|acts| - 1]);
      StepPaced(Run(acts[..|acts| - 1]), acts[|acts| - 1]);
    }
  }

  lemma NothingPaced()
    ensures Paced(Tables([], []))
  {
  }

  /** Any two alerts of one incident are at least an hour apart. */
  ghost predicate Spaced(alerts: seq<Alert>) {
    forall i, j | 0 <= i < j < |alerts| && alerts[i].incident == alerts[j].incident ::
      alerts[j].at - alerts[i].at >= COOLDOWN
  }

  /** An alert at time zero is followed by another one within the hour. */
  ghost predicate ZeroFollowed(alerts: seq<Alert>) {
    exists i: nat, j: nat :: Follows(alerts, i, j) && alerts[i].at == 0 && alerts[j].at < COOLDOWN
  }

  /** Alerts an hour after the one before are an hour after all before. */
  lemma {:induction false} FollowersDecide(alerts: seq<Alert>, i: nat, j: nat)
    requires forall x: nat, y: nat | Follows(alerts, x, y) :: alerts[y].at - alerts[x].at >= COOLDOWN
    requires i < j < |alerts| && alerts[i].incident == alerts[j].incident
    ensures alerts[j].at - alerts[i].at >= COOLDOWN
    decreases j - i
  {
    if k :| i < k < j && alerts[k].incident == alerts[j].incident {
      FollowersDecide(alerts, i, k);
      FollowersDecide(alerts, k, j);
    } else {
      assert Follows(alerts, i, j);
    }
  }

  /** An event before the first hour is over reaches an incident whose last
      alert is noted at time zero. */
  predicate Slips(t: Tables, act: Act) {
    && act.Event? && Counts(act.payload) && act.now < COOLDOWN
    && Receiver(t, act.payload) < |t.incidents|
    && t.incidents[Receiver(t, act.payload)].lastAlert == Some(0)
  }

  /** An incident that notes an alert raised it last, and stays due for another. */
  ghost predicate Ripe(t: Tables) {
    forall k | 0 <= k < |t.incidents| && t.incidents[k].lastAlert.Some? ::
      && t.incidents[k].count >= Threshold(t.incidents[k].severity)
      && exists j: nat :: LastOf(t, k, j)
  }

  ghost predicate LastOf(t: Tables, k: nat, j: nat)
    requires k < |t.incidents| && t.incidents[k].lastAlert.Some?
  {
    && IsLast(t.alerts, j) && j < |t.alerts|
    && t.alerts[j].incident == k && t.alerts[j].at == t.incidents[k].lastAlert.value
  }

  lemma EnteredRipe(t: Tables, e: Payload)
    requires Ripe(t)
    ensures Ripe(Entered(t, e))
    ensures var k := Receiver(t, e);
            Entered(t, e).incidents[k].lastAlert == if k < |t.incidents| then t.incidents[k].lastAlert else None
  {
    hide IsLast;
    var t' := Entered(t, e);
    forall k | 0 <= k < |t'.incidents| && t'.incidents[k].lastAlert.Some?
      ensures t'.incidents[k].count >= Threshold(t'.incidents[k].severity) && exists j: nat :: LastOf(t', k, j)
    {
      assert k < |t.incidents| && t.incidents[k].lastAlert == t'.incidents[k].lastAlert;
      var j: nat :| LastOf(t, k, j);
      assert LastOf(t', k, j);
    }
  }

  lemma PromoteRipe(t: Tables, k: nat, now: int)
    requires Ripe(t) && Paced(t) && k < |t.incidents|
    ensures Ripe(MaybePromote(t, k, now))
  {
    hide IsLast, Paced;
    var i := t.incidents[k];
    if Promotes(i, now) {
      var t' := MaybePromote(t, k, now);
      AppendAlert(t.alerts, Alert(k, i.severity, i.maxScore, now));
      assert LastOf(t', k, |t.alerts|);
      forall m | 0 <= m < |t'.incidents| && m != k && t'.incidents[m].lastAlert.Some?
        ensures exists j: nat :: LastOf(t', m, j)
      {
        var j: nat :| LastOf(t, m, j);
        assert LastOf(t', m, j);
      }
    }
  }

  lemma RipeSame(t: Tables, t': Tables)
    requires Ripe(t) && t'.alerts == t.alerts && |t'.incidents| == |t.incidents|
    requires forall k | 0 <= k < |t.incidents| :: t'.incidents[k].lastAlert == t.incidents[k].lastAlert
               && t'.incidents[k].count == t.incidents[k].count && t'.incidents[k].severity == t.incidents[k].severity
    ensures Ripe(t')
  {
    hide IsLast;
    forall k | 0 <= k < |t'.incidents| && t'.incidents[k].lastAlert.Some? ensures exists j: nat :: LastOf(t', k, j) {
      var j: nat :| LastOf(t, k, j);
      assert LastOf(t', k, j);
    }
  }

  lemma StepRipe(t: Tables, act: Act)
    requires Ripe(t) && Paced(t)
    ensures Ripe(Step(t, act))
  {
    hide Ripe, Paced, Entered, MaybePromote;
    match act
    case Event(e, now) =>
      EnteredRipe(t, e);
      EnteredPaced(t, e);
      PromoteRipe(Entered(t, e), Receiver(t, e), now);
    case _ => RipeSame(t, Step(t, act));
  }

  /** One more alert follows the last one of its incident. */
  lemma ZeroAppend(alerts: seq<Alert>, x: Alert)
    ensures ZeroFollowed(alerts + [x]) <==>
            || ZeroFollowed(alerts)
            || (x.at < COOLDOWN && exists j: nat :: ZeroLast(alerts, x.incident, j))
  {
    hide IsLast, Follows;
    var more, n := alerts + [x], |alerts|;
    AppendAlert(alerts, x);
    FollowsBound(alerts);
    FollowsBound(more);
    if ZeroFollowed(alerts) {
      var a: nat, b: nat :| Follows(alerts, a, b) && alerts[a].at == 0 && alerts[b].at < COOLDOWN;
      assert Follows(more, a, b) && more[a] == alerts[a] && more[b] == alerts[b];
    }
    if j: nat :| ZeroLast(alerts, x.incident, j) && x.at < COOLDOWN {
      assert Follows(more, j, n) && more[j] == alerts[j] && more[n] == x;
    }
    if ZeroFollowed(more) {
      var a: nat, b: nat :| Follows(more, a, b) && more[a].at == 0 && more[b].at < COOLDOWN;
      if b < n {
        assert Follows(alerts, a, b) && alerts[a] == more[a] && alerts[b] == more[b];
      } else {
        assert alerts[a] == more[a] && more[b] == x;
        assert ZeroLast(alerts, x.incident, a);
      }
    }
  }

  ghost predicate ZeroLast(alerts: seq<Alert>, k: nat, j: nat) {
    IsLast(alerts, j) && j < |alerts| && alerts[j].incident == k && alerts[j].at == 0
  }

  /** With the event entered, an alert at zero gets a follower within the hour
      exactly if the incident notes that alert as its last. */
  lemma PromoteSlips(t: Tables, k: nat, now: int)
    requires Ripe(t) && Paced(t) && k < |t.incidents|
    ensures ZeroFollowed(MaybePromote(t, k, now).alerts) <==>
            ZeroFollowed(t.alerts) || (t.incidents[k].lastAlert == Some(0) && now < COOLDOWN)
  {
    hide IsLast, Follows, ZeroFollowed;
    var i := t.incidents[k];
    ZeroAppend(t.alerts, Alert(k, i.severity, i.maxScore, now));
    LastBound(t.alerts);
    if i.lastAlert == Some(0) {
      var j: nat :| LastOf(t, k, j);
      assert ZeroLast(t.alerts, k, j) && Promotes(i, now);
    }
    if j: nat :| ZeroLast(t.alerts, k, j) {
      assert i.lastAlert == Some(0);
    }
  }

  lemma StepSlips(t: Tables, act: Act)
    requires Ripe(t) && Paced(t)
    ensures ZeroFollowed(Step(t, act).alerts) <==> ZeroFollowed(t.alerts) || Slips(t, act)
  {
    hide Ripe, Paced, ZeroFollowed, Entered, MaybePromote;
    match act
    case Event(e, now) =>
      EnteredRipe(t, e);
      EnteredPaced(t, e);
      PromoteSlips(Entered(t, e), Receiver(t, e), now);
    case _ =>
  }

  ghost predicate Slipped(acts: seq<Act>) {
    exists n | 0 <= n < |acts| :: Slips(Run(acts[..n]), acts[n])
  }

  lemma SlippedMore(init: seq<Act>, act: Act)
    ensures Slipped(init + [act]) <==> Slipped(init) || Slips(Run(init), act)
  {
    hide Run, Slips;
    var acts, n := init + [act], |init|;
    assert acts[..n] == init && acts[n] == act;
    if Slipped(acts) {
      var m :| 0 <= m < |acts| && Slips(Run(acts[..m]), acts[m]);
      if m < n {
        assert acts[..m] == init[..m] && acts[m] == init[m];
      }
    }
    if Slipped(init) {
      var m :| 0 <= m < n && Slips(Run(init[..m]), init[m]);
      assert acts[..m] == init[..m] && acts[m] == init[m];
    }
  }

  lemma {:induction false} SlippedIff(acts: seq<Act>)
    ensures Ripe(Run(acts)) && (ZeroFollowed(Run(acts).alerts) <==> Slipped(acts))
  {
    hide Ripe, ZeroFollowed, Slips, Step, Paced;
    if acts == [] {
      NothingRipe();
    } else {
      hide Slipped;
      var n := |acts| - 1;
      var init := acts[..n];
      assert acts == init + [acts[n]];
      SlippedIff(init);
      RunPaced(init);
      StepRipe(Run(init), acts[n]);
      StepSlips(Run(init), acts[n]);
      SlippedMore(init, acts[n]);
    }
  }

  lemma NothingRipe()
    ensures Ripe(Tables([], [])) && !ZeroFollowed([])
  {
  }

  /** The alerts of every incident are an hour apart exactly if no event before
      the first hour is over reaches an incident whose last alert is noted at
      time zero. */
  lemma AlertsSpacedIff(acts: seq<Act>)
    ensures Spaced(Run(acts).alerts) <==> !Slipped(acts)
  {
    hide Run, Follows, Slips;
    SlippedIff(acts);
    RunPaced(acts);
    var alerts := Run(acts).alerts;
    assert forall x: nat, y: nat :: Follows(alerts, x, y) ==>
      x < y < |alerts| && alerts[x].incident == alerts[y].incident by { FollowsBound(alerts); }
    if !ZeroFollowed(alerts) {
      forall i, j | 0 <= i < j < |alerts| && alerts[i].incident == alerts[j].incident
        ensures alerts[j].at - alerts[i].at >= COOLDOWN
      {
        FollowersDecide(alerts, i, j);
      }
    }
  }

  lemma FollowsBound(alerts: seq<Alert>)
    ensures forall x: nat, y: nat :: Follows(alerts, x, y) ==> x < y < |alerts| && alerts[x].incident == alerts[y].incident
  {
  }

  /** The clock never reads zero when an event comes. */
  predicate NeverZero(acts: seq<Act>) {
    forall i | 0 <= i < |acts| && acts[i].Event? :: acts[i].now != 0
  }

  lemma StepTimes(t: Tables, act: Act)
    requires (forall a | a in t.alerts :: a.at != 0) && (act.Event? ==> act.now != 0)
    ensures forall a | a in Step(t, act).alerts :: a.at != 0
  {
  }

  lemma {:induction false} NoZeroAlerts(acts: seq<Act>)
    requires NeverZero(acts)
    ensures forall a | a in Run(acts).alerts :: a.at != 0
  {
    hide Step;
    if acts != [] {
      NoZeroAlerts(acts[..|acts| - 1]);
      StepTimes(Run(acts[..|acts| - 1]), acts[|acts| - 1]);
    }
  }

  /** With a clock that does not read zero, in every run the alerts of an
      incident are at least an hour apart, and none comes before its severity's
      threshold. */
  lemma AlertsPaced(acts: seq<Act>)
    requires NeverZero(acts)
    ensures Spaced(Run(acts).alerts)
    ensures var t := Run(acts);
            forall a | a in t.alerts :: a.incident < |t.incidents|
                && t.incidents[a.incident].count >= Threshold(a.severity)
  {
    hide Run;
    hide Slipped;
    RunPaced(acts);
    NoZeroAlerts(acts);
    SlippedIff(acts);
    AlertsSpacedIff(acts);
  }

  /** At time zero the cooldown does not hold: two critical events at once raise
      two alerts. */
  lemma ZeroClock(e: Payload)
    requires Counts(e) && e.severity == Critical
    ensures Run([Event(e, 0), Event(e, 0)]).alerts == [Alert(0, Critical, e.score, 0), Alert(0, Critical, e.score, 0)]
  {
    var a := [Event(e, 0)];
    RunLast(a, [], Event(e, 0));
    RunLast([Event(e, 0), Event(e, 0)], a, Event(e, 0));
    assert Run([]) == Tables([], []);
    var t := Run(a);
    assert t.incidents == [Created(e).(lastAlert := Some(0))];
    assert FindActive(t.incidents, e.fingerprint) == Some(0);
  }
}
