/**
 * The transition engine shared by NodeEventParser.parse and PodEventParser.parse
 * (ha/monitor/k8s/parser.py:61-94 and 130-163).
 *
 * The shared cache maps a resource name to its last lowercased readiness, or to None
 * ("seen, readiness undetermined").  Per name this is a small automaton whose states are
 * absent, Seen(None), Seen(Some("true")) and Seen(Some(other)).
 */
module Transition {
  import opened Wrappers
  import opened Readiness

  /** The watch event's change type.  `Other` stands for DELETED and every other tag. */
  datatype ChangeType = Added | Modified | Other(tag: string)

  /** The alert states a parse can finish with. */
  datatype AlertState = Online | Failed

  /** What the parser knows after extraction: the cache key, the raw ready status and the change type. */
  datatype Observation = Observation(name: string, ready: Option<string>, change: ChangeType)

  /** The cache entry of one name: never seen, or seen with the stored value. */
  datatype NameState = Absent | Seen(value: Option<string>)

  type Cache = map<string, Option<string>>

  function StateOf(m: Cache, name: string): NameState
  {
    if name in m then Seen(m[name]) else Absent
  }

  /** Write a name's state back into the cache; Absent means "no write". */
  function Store(m: Cache, name: string, s: NameState): Cache
  {
    match s
    case Absent => m
    case Seen(v) => m[name := v]
  }

  /** The name is cached as ready. */
  predicate IsUp(s: NameState)
  {
    s == Seen(Some(TrueValue))
  }

  /**
   * The per-name automaton.  Undetermined readiness always records Seen(None) without alerting;
   * ADDED records the lowercased status and alerts Online iff it is "true"; MODIFIED of a seen
   * name moves only across the ready / not-ready boundary, alerting Online or Failed; everything
   * else leaves the state alone.
   */
  function Next(s: NameState, ready: Option<string>, change: ChangeType): (r: (NameState, Option<AlertState>))
    ensures r.1.Some? ==> ready.Some? && r.0 == Seen(Some(Lower(ready.value)))
    ensures r.1.Some? ==> (r.1 == Some(Online) <==> IsUp(r.0))
    ensures r.1 == Some(Failed) ==> IsUp(s)
    ensures r.1 == Some(Online) ==> change == Added || !IsUp(s)
    ensures r.0 == Absent ==> s == Absent
    ensures IsUp(r.0) && !IsUp(s) ==> r.1 == Some(Online)
  {
    match ready
    case None => (Seen(None), None)
    case Some(status) =>
      var v := Lower(status);
      match change
      case Added => (Seen(Some(v)), if v == TrueValue then Some(Online) else None)
      case Modified =>
        if s.Absent? || IsUp(s) == (v == TrueValue) then (s, None)
        else (Seen(Some(v)), Some(if v == TrueValue then Online else Failed))
      case Other(_) => (s, None)
  }

  datatype StepResult = StepResult(cache: Cache, alert: Option<AlertState>)

  /** One parse call's effect on the whole cache: the automaton of the observed name, and nothing else. */
  function Step(m: Cache, o: Observation): (r: StepResult)
    ensures m.Keys <= r.cache.Keys <= m.Keys + {o.name}
    ensures forall k :: k != o.name && k in m ==> r.cache[k] == m[k]
  {
    var (s, a) := Next(StateOf(m, o.name), o.ready, o.change);
    StepResult(Store(m, o.name, s), a)
  }

  /** Undetermined readiness: no alert and the entry becomes None, whatever the change type. */
  lemma UndeterminedRecordsUnknown(m: Cache, name: string, change: ChangeType)
    ensures Step(m, Observation(name, None, change)) == StepResult(m[name := None], None)
  {
  }

  /** ADDED with a status stores the lowercased status and alerts Online iff it is "true". */
  lemma AddedStoresLowered(m: Cache, name: string, status: string)
    ensures var r := Step(m, Observation(name, Some(status), Added));
      r.cache == m[name := Some(Lower(status))] &&
      r.alert == (if Lower(status) == TrueValue then Some(Online) else None)
  {
  }

  /** MODIFIED of a name never seen: no alert and no write. */
  lemma ModifiedUnseenIgnored(m: Cache, name: string, ready: Option<string>)
    requires name !in m
    requires ready.Some?
    ensures Step(m, Observation(name, ready, Modified)) == StepResult(m, None)
  {
  }

  /** MODIFIED of a seen name: crossing the boundary writes and alerts; otherwise nothing changes. */
  lemma ModifiedCrossing(m: Cache, name: string, status: string)
    requires name in m
    ensures var r := Step(m, Observation(name, Some(status), Modified));
      var v := Lower(status);
      (m[name] != Some(TrueValue) && v == TrueValue ==> r == StepResult(m[name := Some(v)], Some(Online))) &&
      (m[name] == Some(TrueValue) && v != TrueValue ==> r == StepResult(m[name := Some(v)], Some(Failed))) &&
      ((m[name] == Some(TrueValue)) == (v == TrueValue) ==> r == StepResult(m, None))
  {
  }

  /** With a determined status, any change type other than ADDED and MODIFIED is a no-op. */
  lemma OtherChangeIgnored(m: Cache, name: string, status: string, tag: string)
    ensures Step(m, Observation(name, Some(status), Other(tag))) == StepResult(m, None)
  {
  }

  /** Replaying an observation leaves the cache as the first call left it; only ADDED can alert again. */
  lemma StepTwice(m: Cache, o: Observation)
    ensures var r1 := Step(m, o); var r2 := Step(r1.cache, o);
      r2.cache == r1.cache &&
      (o.change == Added ==> r2.alert == r1.alert) &&
      (o.change != Added ==> r2.alert == None)
  {
  }

  /**
   * The shared `cached_state` dictionary, which every parse call reads and updates in place.
   */
  class StateCache {
    var entries: Cache

    constructor ()
      ensures entries == map[]
    {
      entries := map[];
    }
  }

  /**
   * The transition logic both parsers run after extracting the ready status, written over the
   * cache in place as the source does.
   */
  method ApplyTransition(cache: StateCache, name: string, ready: Option<string>, change: ChangeType)
    returns (alert: Option<AlertState>)
    modifies cache
    ensures var r := Step(old(cache.entries), Observation(name, ready, change));
      cache.entries == r.cache && alert == r.alert
  {
    if ready.None? {
      cache.entries := cache.entries[name := None];
      return None;
    }
    var v := Lower(ready.value);
    if change == Added {
      cache.entries := cache.entries[name := Some(v)];
      if v == TrueValue {
        return Some(Online);
      } else {
        return None;
      }
    }
    if change == Modified {
      if name in cache.entries {
        if cache.entries[name] != Some(TrueValue) && v == TrueValue {
          cache.entries := cache.entries[name := Some(v)];
          return Some(Online);
        } else if cache.entries[name] == Some(TrueValue) && v != TrueValue {
          cache.entries := cache.entries[name := Some(v)];
          return Some(Failed);
        } else {
          assert cache.entries[name := cache.entries[name]] == cache.entries;
          return None;
        }
      } else {
        return None;
      }
    }
    assert cache.entries == Store(cache.entries, name, StateOf(cache.entries, name));
    return None;
  }

  // ---------------------------------------------------------------------------------------------
  // Streams of events.

  datatype NamedAlert = NamedAlert(name: string, state: AlertState)
  datatype RunResult = RunResult(cache: Cache, alerts: seq<NamedAlert>)

  /** A stream of parse calls against one shared cache, in order, with the alerts they emit. */
  function Run(m: Cache, obs: seq<Observation>): RunResult
  {
    if obs == [] then RunResult(m, [])
    else
      var prev := Run(m, obs[..|obs| - 1]);
      var o := obs[|obs| - 1];
      var r := Step(prev.cache, o);
      RunResult(r.cache, prev.alerts + Emitted(o.name, r.alert))
  }

  /** The observations of one name, in order. */
  function Only(obs: seq<Observation>, name: string): seq<Observation>
  {
    if obs == [] then []
    else Only(obs[..|obs| - 1], name) + (if obs[|obs| - 1].name == name then [obs[|obs| - 1]] else [])
  }

  /** The alert states raised for one name, in order. */
  function AlertsFor(alerts: seq<NamedAlert>, name: string): seq<AlertState>
  {
    if alerts == [] then []
    else
      var last := alerts[|alerts| - 1];
      AlertsFor(alerts[..|alerts| - 1], name) + (if last.name == name then [last.state] else [])
  }

  /** One name's automaton run over a stream (the names in the observations are ignored). */
  function RunOne(s: NameState, obs: seq<Observation>): (NameState, seq<AlertState>)
  {
    if obs == [] then (s, [])
    else
      var prev := RunOne(s, obs[..|obs| - 1]);
      var o := obs[|obs| - 1];
      var (s', a) := Next(prev.0, o.ready, o.change);
      (s', prev.1 + (if a.Some? then [a.value] else []))
  }

  /**
   * Resources do not interact: a name's final cache entry and its alerts depend only on the
   * events for that name, run through its own automaton.
   */
  lemma {:induction false} RunProjects(m: Cache, obs: seq<Observation>, name: string)
    ensures var r := Run(m, obs); var one := RunOne(StateOf(m, name), Only(obs, name));
      StateOf(r.cache, name) == one.0 && AlertsFor(r.alerts, name) == one.1
  {
    if obs != [] {
      var init := obs[..|obs| - 1];
      var o := obs[|obs| - 1];
      RunProjects(m, init, name);
      var prev := Run(m, init);
      var r := Step(prev.cache, o);
      StepStateOf(prev.cache, o, name);
      AlertsForEmitted(prev.alerts, o.name, r.alert, name);
      if o.name == name {
        var sub := Only(obs, name);
        assert sub == Only(init, name) + [o];
        assert sub[..|sub| - 1] == Only(init, name);
      } else {
        assert Only(obs, name) == Only(init, name);
      }
    }
  }

  /** The alerts one step adds to a run. */
  function Emitted(name: string, alert: Option<AlertState>): seq<NamedAlert>
  {
    if alert.Some? then [NamedAlert(name, alert.value)] else []
  }

  lemma AlertsForEmitted(alerts: seq<NamedAlert>, owner: string, alert: Option<AlertState>, name: string)
    ensures AlertsFor(alerts + Emitted(owner, alert), name) ==
      AlertsFor(alerts, name) + (if owner == name && alert.Some? then [alert.value] else [])
  {
    var all := alerts + Emitted(owner, alert);
    if alert.Some? {
      assert all[..|all| - 1] == alerts;
    } else {
      assert all == alerts;
    }
  }

  /** A step moves the observed name's automaton and leaves every other name's state alone. */
  lemma StepStateOf(m: Cache, o: Observation, name: string)
    ensures StateOf(Step(m, o).cache, name) ==
      if name == o.name then Next(StateOf(m, name), o.ready, o.change).0 else StateOf(m, name)
  {
  }

  /**
   * Failed is never repeated: in any stream for one name, a Failed alert is preceded by an Online
   * alert, or it is the first alert and the name started cached as ready.  A name cached as ready
   * at the end was either ready from the start with no alert, or its last alert was Online.
   */
  lemma {:induction false} FailedFollowsOnline(s: NameState, obs: seq<Observation>)
    ensures var (s', alerts) := RunOne(s, obs);
      (forall i :: 0 < i < |alerts| && alerts[i] == Failed ==> alerts[i - 1] == Online) &&
      (|alerts| > 0 && alerts[0] == Failed ==> IsUp(s)) &&
      (IsUp(s') ==> (alerts == [] && IsUp(s)) || (alerts != [] && alerts[|alerts| - 1] == Online))
  {
    if obs != [] {
      var init := obs[..|obs| - 1];
      FailedFollowsOnline(s, init);
      var prev := RunOne(s, init);
      var o := obs[|obs| - 1];
      var (s', a) := Next(prev.0, o.ready, o.change);
      var alerts := prev.1 + if a.Some? then [a.value] else [];
      assert forall i :: 0 <= i < |prev.1| ==> alerts[i] == prev.1[i];
    }
  }

  /** Every observation is a MODIFIED event with a determined status. */
  predicate AllModifiedDetermined(obs: seq<Observation>)
  {
    forall i :: 0 <= i < |obs| ==> obs[i].change == Modified && obs[i].ready.Some?
  }

  /**
   * For a seen name receiving only MODIFIED events with determined readiness, alerts strictly
   * alternate, the first one moves away from the starting readiness, and the final state is ready
   * exactly when the last alert was Online (or, with no alert, when it started ready).
   */
  lemma {:induction false} ModifiedAlertsAlternate(s: NameState, obs: seq<Observation>)
    requires s.Seen?
    requires AllModifiedDetermined(obs)
    ensures var (s', alerts) := RunOne(s, obs);
      s'.Seen? &&
      (forall i :: 0 < i < |alerts| ==> alerts[i] != alerts[i - 1]) &&
      (|alerts| > 0 ==> (alerts[0] == Online <==> !IsUp(s))) &&
      (IsUp(s') <==> if alerts == [] then IsUp(s) else alerts[|alerts| - 1] == Online)
  {
    if obs != [] {
      var init := obs[..|obs| - 1];
      assert AllModifiedDetermined(init) by {
        forall i | 0 <= i < |init| ensures init[i] == obs[i] { }
      }
      ModifiedAlertsAlternate(s, init);
      var prev := RunOne(s, init);
      var o := obs[|obs| - 1];
      assert o.change == Modified && o.ready.Some?;
      var (s', a) := Next(prev.0, o.ready, o.change);
      var alerts := prev.1 + if a.Some? then [a.value] else [];
      assert forall i :: 0 <= i < |prev.1| ==> alerts[i] == prev.1[i];
    }
  }
}
