/** The retry manager: persistent exponential backoff with a terminal state. */
module Retry {
  import opened Text

  datatype RetryState = RetryState(count: nat, nextRetry: int, lastError: string, terminal: bool, retryable: bool)

  /** A row of the retry table: flags are stored as numbers. */
  datatype Row = Row(count: nat, nextRetry: int, lastError: string, terminal: int, retryable: int)

  datatype Policy = Policy(maxRetries: nat, intervals: seq<nat>)

  type Table = map<string, RetryState>
  type Database = map<string, Row>

  // ---- Error classification ----

  predicate Includes(s: string, part: string) {
    HasPrefix(s, part) || (s != [] && Includes(s[1..], part))
  }

  function Lower(s: string): string {
    seq(|s|, i requires 0 <= i < |s| => if 'A' <= s[i] <= 'Z' then (s[i] as int + 32) as char else s[i])
  }

  const FATAL: seq<string> := [
    "401", "unauthorized", "403", "forbidden", "invalid credentials", "authentication failed",
    "invalid subnet", "invalid cidr", "invalid parameter", "validation error", "already exists", "duplicate"
  ]

  /** Every later branch of the classification answers true. */
  predicate IsRetryableError(error: string) {
    var e := Lower(error);
    && (forall i | 0 <= i < |FATAL| :: !Includes(e, FATAL[i]))
    && !(Includes(e, "bad request") && Includes(e, "400"))
  }

  // ---- The manager's operations on its table ----

  predicate Allowed(p: Policy, t: Table, key: string, now: int) {
    key !in t || (!t[key].terminal && t[key].count < p.maxRetries && t[key].nextRetry <= now)
  }

  predicate IsJitter(jitter: real) {
    0.85 <= jitter < 1.15
  }

  function BackoffIndex(p: Policy, count: nat): (i: nat)
    requires p.intervals != [] && count > 0
    ensures i < |p.intervals|
  {
    if count - 1 < |p.intervals| - 1 then count - 1 else |p.intervals| - 1
  }

  function Failed(p: Policy, s: RetryState, error: string, retryable: bool, now: int, jitter: real): RetryState
    requires p.intervals != []
  {
    if !retryable then
      s.(terminal := true, retryable := false, lastError := error)
    else
      var s' := s.(count := s.count + 1, lastError := error, retryable := true);
      if s'.count >= p.maxRetries then s'.(terminal := true)
      else s'.(nextRetry := now + (p.intervals[BackoffIndex(p, s'.count)] as real * jitter).Floor)
  }

  function AfterFailure(p: Policy, t: Table, key: string, error: string, retryable: bool, now: int, jitter: real): Table
    requires p.intervals != []
  {
    var s := if key in t then t[key] else RetryState(0, now, "", false, true);
    t[key := Failed(p, s, error, retryable, now, jitter)]
  }

  function AfterSuccess(t: Table, key: string): Table {
    t - {key}
  }

  function ToRow(s: RetryState): Row {
    Row(s.count, s.nextRetry, s.lastError, if s.terminal then 1 else 0, if s.retryable then 1 else 0)
  }

  function FromRow(r: Row): RetryState {
    RetryState(r.count, r.nextRetry, r.lastError, r.terminal == 1, r.retryable != 0)
  }

  function Load(db: Database): Table {
    map key | key in db :: FromRow(db[key])
  }

  function Save(t: Table): Database {
    map key | key in t :: ToRow(t[key])
  }

  lemma LoadSave(t: Table)
    ensures Load(Save(t)) == t
  {
  }

  lemma SaveUpdate(t: Table, key: string, s: RetryState)
    ensures Save(t)[key := ToRow(s)] == Save(t[key := s])
  {
  }

  class RetryManager {
    const policy: Policy
    var retryState: Table
    var database: Database

    /** While writes succeed the database mirrors the table. */
    ghost predicate Valid()
      reads this
    {
      policy.intervals != [] && database == Save(retryState)
    }

    /** An agent start: the table is loaded from what the last run stored. */
    constructor (policy: Policy, stored: Database, ghost table: Table)
      requires policy.intervals != [] && stored == Save(table)
      ensures Valid() && this.policy == policy && retryState == table
    {
      this.policy := policy;
      LoadSave(table);
      retryState := Load(stored);
      database := stored;
    }

    method ShouldRetry(key: string, now: int) returns (answer: bool)
      ensures answer == Allowed(policy, retryState, key, now)
    {
      if key !in retryState {
        return true;
      }
      var state := retryState[key];
      if state.terminal {
        return false;
      }
      if state.count >= policy.maxRetries {
        return false;
      }
      return now >= state.nextRetry;
    }

    method RecordFailure(key: string, error: string, retryable: bool, now: int, jitter: real)
      requires Valid()
      modifies this
      ensures Valid()
      ensures retryState == AfterFailure(policy, old(retryState), key, error, retryable, now, jitter)
    {
      var state := if key in retryState then retryState[key] else RetryState(0, now, "", false, true);
      ghost var start := state;
      if !retryable {
        state := state.(terminal := true);
        state := state.(retryable := false);
        state := state.(lastError := error);
        assert state == Failed(policy, start, error, retryable, now, jitter);
        SaveUpdate(retryState, key, state);
        retryState := retryState[key := state];
        database := database[key := ToRow(state)];
        return;
      }
      state := state.(count := state.count + 1);
      state := state.(lastError := error);
      state := state.(retryable := true);
      if state.count >= policy.maxRetries {
        state := state.(terminal := true);
      } else {
        var backoff := (policy.intervals[BackoffIndex(policy, state.count)] as real * jitter).Floor;
        state := state.(nextRetry := now + backoff);
      }
      assert state == Failed(policy, start, error, retryable, now, jitter);
      SaveUpdate(retryState, key, state);
      retryState := retryState[key := state];
      database := database[key := ToRow(state)];
    }

    method RecordSuccess(key: string)
      requires Valid()
      modifies this
      ensures Valid() && retryState == AfterSuccess(old(retryState), key)
    {
      retryState := retryState - {key};
      database := database - {key};
    }
  }

  // ---- Runs of the agent with failing pulls and restarts ----

  /** A `downloadImage` step whose pull, if it is attempted, fails; or a restart. */
  datatype Act =
    | Try(key: string, now: int, error: string, retryable: bool, jitter: real)
    | Restart

  datatype Attempt = Attempt(key: string, now: int)

  /** The agent's table, its database and the log of pulls actually attempted. */
  datatype Agent = Agent(table: Table, db: Database, log: seq<Attempt>)

  function Perform(p: Policy, a: Agent, act: Act): Agent
    requires p.intervals != []
  {
    match act
    case Try(key, now, error, retryable, jitter) =>
      if Allowed(p, a.table, key, now) then
        var t := AfterFailure(p, a.table, key, error, retryable, now, jitter);
        Agent(t, a.db[key := ToRow(t[key])], a.log + [Attempt(key, now)])
      else a
    case Restart => a.(table := Load(a.db))
  }

  function Run(p: Policy, a: Agent, acts: seq<Act>): Agent
    requires p.intervals != []
  {
    if acts == [] then a
    else Perform(p, Run(p, a, acts[..|acts| - 1]), acts[|acts| - 1])
  }

  /** The times at which pulls of `key` were attempted, in order. */
  function Times(log: seq<Attempt>, key: string): seq<int> {
    if log == [] then []
    else
      var rest := Times(log[..|log| - 1], key);
      if log[|log| - 1].key == key then rest + [log[|log| - 1].now] else rest
  }

  lemma TimesStep(log: seq<Attempt>, x: Attempt, key: string)
    ensures Times(log + [x], key) == if x.key == key then Times(log, key) + [x.now] else Times(log, key)
  {
    assert (log + [x])[..|log|] == log;
  }

  function Limit(p: Policy): nat {
    if p.maxRetries == 0 then 1 else p.maxRetries
  }

  /** The shortest wait after failure number `k`. */
  function ShortestWait(p: Policy, k: nat): int
    requires p.intervals != [] && k > 0
  {
    (0.85 * p.intervals[BackoffIndex(p, k)] as real).Floor
  }

  ghost predicate Spaced(p: Policy, times: seq<int>)
    requires p.intervals != []
  {
    forall k | 0 < k < |times| :: times[k] >= times[k - 1] + ShortestWait(p, k)
  }

  /** What every reachable agent satisfies for a key that started without a record. */
  ghost predicate Consistent(p: Policy, a: Agent, key: string, now: int)
    requires p.intervals != []
  {
    var times := Times(a.log, key);
    && a.db == Save(a.table)
    && Spaced(p, times)
    && |times| <= Limit(p)
    && (key !in a.table ==> times == [])
    && (key in a.table && !a.table[key].terminal ==>
          && 0 < a.table[key].count == |times| < p.maxRetries
          && times[|times| - 1] <= now
          && a.table[key].nextRetry >= times[|times| - 1] + ShortestWait(p, |times|))
  }

  predicate WellTimed(acts: seq<Act>) {
    && (forall i | 0 <= i < |acts| && acts[i].Try? :: IsJitter(acts[i].jitter))
    && (forall i, j | 0 <= i < j < |acts| && acts[i].Try? && acts[j].Try? :: acts[i].now <= acts[j].now)
  }

  lemma FloorMonotone(i: nat, jitter: real)
    requires IsJitter(jitter)
    ensures (0.85 * i as real).Floor <= (i as real * jitter).Floor
  {
    assert 0.85 * i as real <= i as real * jitter;
  }

  lemma PerformSaves(p: Policy, a: Agent, act: Act)
    requires p.intervals != [] && a.db == Save(a.table)
    ensures var a' := Perform(p, a, act); a'.db == Save(a'.table)
    ensures act.Restart? ==> Perform(p, a, act) == a
  {
    match act
    case Try(k, at, error, retryable, jitter) =>
      SaveUpdate(a.table, k, AfterFailure(p, a.table, k, error, retryable, at, jitter)[k]);
    case Restart =>
      LoadSave(a.table);
  }

  /** An attempted pull of `key` itself: the record it leaves. */
  lemma AttemptRecord(p: Policy, a: Agent, act: Act, key: string)
    requires p.intervals != [] && act.Try? && act.key == key && IsJitter(act.jitter)
    requires Allowed(p, a.table, key, act.now)
    ensures var a' := Perform(p, a, act);
            var count := if key in a.table then a.table[key].count else 0;
            && a'.log == a.log + [Attempt(key, act.now)] && key in a'.table
            && (!a'.table[key].terminal ==>
                  && a'.table[key].count == count + 1 < p.maxRetries
                  && a'.table[key].nextRetry >= act.now + ShortestWait(p, count + 1))
  {
    hide BackoffIndex;
    var count := if key in a.table then a.table[key].count else 0;
    FloorMonotone(p.intervals[BackoffIndex(p, count + 1)], act.jitter);
  }

  lemma SpacedMore(p: Policy, times: seq<int>, at: int)
    requires p.intervals != [] && Spaced(p, times)
    requires times != [] ==> at >= times[|times| - 1] + ShortestWait(p, |times|)
    ensures Spaced(p, times + [at])
  {
    hide ShortestWait;
  }

  lemma AttemptStep(p: Policy, a: Agent, act: Act, key: string, before: int)
    requires p.intervals != [] && Consistent(p, a, key, before)
    requires act.Try? && act.key == key && IsJitter(act.jitter) && Allowed(p, a.table, key, act.now)
    ensures Consistent(p, Perform(p, a, act), key, act.now)
  {
    hide Perform, ShortestWait, Spaced, Times, Save;
    TimesStep(a.log, Attempt(key, act.now), key);
    PerformSaves(p, a, act);
    AttemptRecord(p, a, act, key);
    SpacedMore(p, Times(a.log, key), act.now);
  }

  lemma ConsistentStep(p: Policy, a: Agent, act: Act, key: string, before: int, now: int)
    requires p.intervals != [] && Consistent(p, a, key, before) && before <= now
    requires act.Try? ==> act.now == now && IsJitter(act.jitter)
    ensures Consistent(p, Perform(p, a, act), key, now)
  {
    if act.Try? && Allowed(p, a.table, act.key, act.now) {
      if act.key == key {
        AttemptStep(p, a, act, key, before);
      } else {
        TimesStep(a.log, Attempt(act.key, act.now), key);
        PerformSaves(p, a, act);
      }
    } else {
      PerformSaves(p, a, act);
    }
  }

  ghost function Latest(acts: seq<Act>, start: int): int {
    if acts == [] then start
    else if acts[|acts| - 1].Try? then acts[|acts| - 1].now
    else Latest(acts[..|acts| - 1], start)
  }

  lemma {:induction false} LatestBound(acts: seq<Act>, start: int, j: nat)
    requires j < |acts| && acts[j].Try? && WellTimed(acts)
    requires forall i | 0 <= i < |acts| && acts[i].Try? :: start <= acts[i].now
    ensures start <= Latest(acts[..j], start) <= acts[j].now
  {
    var i := j;
    while i > 0 && !acts[i - 1].Try?
      invariant 0 <= i <= j
      invariant Latest(acts[..j], start) == Latest(acts[..i], start)
    {
      assert acts[..i][..i - 1] == acts[..i - 1];
      i := i - 1;
    }
  }

  lemma {:induction false} RunConsistent(p: Policy, a: Agent, acts: seq<Act>, key: string, start: int)
    requires p.intervals != [] && WellTimed(acts)
    requires forall i | 0 <= i < |acts| && acts[i].Try? :: start <= acts[i].now
    requires a.db == Save(a.table) && key !in a.table && Times(a.log, key) == []
    ensures Consistent(p, Run(p, a, acts), key, Latest(acts, start))
  {
    if acts != [] {
      var n := |acts| - 1;
      RunConsistent(p, a, acts[..n], key, start);
      if acts[n].Try? {
        LatestBound(acts, start, n);
      }
      ConsistentStep(p, Run(p, a, acts[..n]), acts[n], key, Latest(acts[..n], start), Latest(acts, start));
    }
  }

  /** Bounded retries. However often the agent restarts in between, the gated
      pulls of an image without a record are at most `max(1, maxRetries)`, and
      the one after failure `k` comes no sooner than 0.85 of its interval later. */
  lemma BoundedRetries(p: Policy, a: Agent, acts: seq<Act>, key: string, start: int)
    requires p.intervals != [] && WellTimed(acts)
    requires forall i | 0 <= i < |acts| && acts[i].Try? :: start <= acts[i].now
    requires a.db == Save(a.table) && key !in a.table && a.log == []
    ensures var times := Times(Run(p, a, acts).log, key);
            && |times| <= (if p.maxRetries == 0 then 1 else p.maxRetries)
            && forall k | 0 < k < |times| :: times[k] >= times[k - 1] + ShortestWait(p, k)
    ensures var t := Run(p, a, acts).table;
            key in t && !t[key].terminal ==> t[key].count < p.maxRetries
  {
    RunConsistent(p, a, acts, key, start);
  }

  /** Terminal is absorbing: no later act pulls the image or clears the mark. */
  lemma {:induction false} TerminalAbsorbing(p: Policy, a: Agent, acts: seq<Act>, key: string)
    requires p.intervals != [] && a.db == Save(a.table)
    requires key in a.table && a.table[key].terminal
    ensures var a' := Run(p, a, acts);
            && a'.db == Save(a'.table)
            && key in a'.table && a'.table[key] == a.table[key]
            && Times(a'.log, key) == Times(a.log, key)
  {
    if acts != [] {
      var n := |acts| - 1;
      TerminalAbsorbing(p, a, acts[..n], key);
      var b := Run(p, a, acts[..n]);
      PerformSaves(p, b, acts[n]);
      if acts[n].Try? {
        TimesStep(b.log, Attempt(acts[n].key, acts[n].now), key);
      }
    }
  }
}
