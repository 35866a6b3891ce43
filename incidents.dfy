/** The incident store as values: monitored entities, observations taken from
    status.dat, incident records, and the reconciliation step that opens,
    refreshes or closes the one open incident of an entity. The tracker class
    (module Tracker) and the poll cycle (module Poller) are proved against
    these definitions. */
module Incidents {
  import opened Common
  import opened StateCodes

  /** The join key of reconciliation: a host, or a service on a host. */
  datatype EntityKey = HostKey(hostName: string) | ServiceKey(hostName: string, serviceDescription: string)
  {
    function Kind(): IncidentType
    {
      if HostKey? then HostIncident else ServiceIncident
    }
  }

  /** A host record as the status.dat parser hands it over; absent entries are `None`. */
  datatype HostStatus = HostStatus(
    hostName: string,
    currentState: Option<int>,
    pluginOutput: Option<string>,
    lastCheck: Option<int>)

  /** A service record as the status.dat parser hands it over. */
  datatype ServiceStatus = ServiceStatus(
    hostName: string,
    serviceDescription: string,
    currentState: Option<int>,
    pluginOutput: Option<string>,
    lastCheck: Option<int>)

  /** What reconciliation needs from one record: whose state it is and what it is. */
  datatype Observation = Observation(key: EntityKey, code: int, pluginOutput: Option<string>, lastCheck: Option<int>)
  {
    predicate IsProblem()
    {
      IsProblemState(key.Kind(), code)
    }

    function Name(): string
    {
      StateName(key.Kind(), code)
    }
  }

  /** A host record as an observation; a missing state reads as 0 (UP). */
  function HostObservation(h: HostStatus): (o: Observation)
    ensures o.key == HostKey(h.hostName) && o.key.Kind() == HostIncident
    ensures h.currentState.None? ==> !o.IsProblem()
  {
    Observation(HostKey(h.hostName), h.currentState.GetOr(0), h.pluginOutput, h.lastCheck)
  }

  /** A service record as an observation; a missing state reads as 0 (OK). */
  function ServiceObservation(s: ServiceStatus): (o: Observation)
    ensures o.key == ServiceKey(s.hostName, s.serviceDescription) && o.key.Kind() == ServiceIncident
    ensures s.currentState.None? ==> !o.IsProblem()
  {
    Observation(ServiceKey(s.hostName, s.serviceDescription), s.currentState.GetOr(0), s.pluginOutput, s.lastCheck)
  }

  /** A persisted incident. It is open (active) while `endedAt` is `None`. */
  datatype Incident = Incident(
    id: nat,
    key: EntityKey,
    state: string,
    startedAt: int,
    endedAt: Option<int>,
    lastCheck: Option<int>,
    pluginOutput: Option<string>,
    acknowledged: bool,
    postIncidentReviewUrl: Option<string>)
  {
    predicate IsActive()
    {
      endedAt.None?
    }

    function IncidentType(): IncidentType
    {
      key.Kind()
    }
  }

  predicate IsOpenFor(inc: Incident, key: EntityKey)
  {
    inc.IsActive() && inc.key == key
  }

  predicate DistinctIds(a: Incident, b: Incident)
  {
    a.id != b.id
  }

  predicate NotBothOpen(a: Incident, b: Incident)
  {
    !(a.IsActive() && b.IsActive() && a.key == b.key)
  }

  /** A closed incident did not end before it started. */
  predicate IntervalOrdered(inc: Incident)
  {
    inc.endedAt.Some? ==> inc.startedAt <= inc.endedAt.value
  }

  /** The incident table and the next primary key the database will hand out. */
  datatype TrackerState = TrackerState(incidents: seq<Incident>, nextId: nat)

  /** The store's invariant: the database hands out ids from 1; ids are positive, below `nextId` and distinct; at
      most one incident per entity is open; closed intervals are ordered. */
  ghost predicate WellFormed(st: TrackerState)
  {
    && st.nextId >= 1
    && (forall k :: 0 <= k < |st.incidents| ==> SoundAt(st.incidents, st.nextId, k))
    && (forall i, j :: 0 <= i < j < |st.incidents| ==> ApartAt(st.incidents, i, j))
  }

  /** The `k`-th incident has an id the database handed out and an ordered interval. */
  ghost predicate SoundAt(s: seq<Incident>, nextId: nat, k: int)
  {
    0 <= k < |s| && 1 <= s[k].id < nextId && IntervalOrdered(s[k])
  }

  /** The `i`-th and `j`-th incidents have different ids and are not both open for one entity. */
  ghost predicate ApartAt(s: seq<Incident>, i: int, j: int)
  {
    0 <= i < j < |s| && DistinctIds(s[i], s[j]) && NotBothOpen(s[i], s[j])
  }

  /** The clock has not run backwards: no stored incident started after `now`. */
  ghost predicate StartedBy(st: TrackerState, now: int)
  {
    forall k :: 0 <= k < |st.incidents| ==> st.incidents[k].startedAt <= now
  }

  /** The index of the first open incident of `key` at or after `from`. */
  function FindOpen(s: seq<Incident>, key: EntityKey, from: nat): (r: Option<nat>)
    requires from <= |s|
    decreases |s| - from
    ensures r.Some? ==> from <= r.value < |s| && IsOpenFor(s[r.value], key)
    ensures r.Some? ==> forall k :: from <= k < r.value ==> !IsOpenFor(s[k], key)
    ensures r.None? ==> forall k :: from <= k < |s| ==> !IsOpenFor(s[k], key)
  {
    if from == |s| then None
    else if IsOpenFor(s[from], key) then Some(from)
    else FindOpen(s, key, from + 1)
  }

  /** In a well-formed store an entity has at most one open incident. */
  lemma OpenIncidentUnique(st: TrackerState, key: EntityKey, i: nat, j: nat)
    requires WellFormed(st)
    requires i < |st.incidents| && j < |st.incidents|
    requires IsOpenFor(st.incidents[i], key) && IsOpenFor(st.incidents[j], key)
    ensures i == j
  {
    assert i < j ==> ApartAt(st.incidents, i, j);
    assert j < i ==> ApartAt(st.incidents, j, i);
  }

  /** What a reconciliation step did to the store. */
  datatype Change = NoChange | Created | Updated | Closed

  /** The new store, the incident handed back to the caller (if any) and what happened. */
  datatype Step = Step(state: TrackerState, incident: Option<Incident>, change: Change)

  /** One reconciliation of an observation against the store, taken at time `now`:
      no open incident and no problem is a no-op; no open incident and a problem
      opens one; an open incident and a problem refreshes it in place; an open
      incident and no problem closes it. */
  function Reconcile(st: TrackerState, o: Observation, now: int): (r: Step)
    ensures r.incident.Some? <==> r.change != NoChange
    ensures r.incident.Some? ==> r.incident.value.key == o.key
    ensures r.change == Created <==> o.IsProblem() && FindOpen(st.incidents, o.key, 0).None?
    ensures r.change == Closed ==> !o.IsProblem() && r.incident.value.endedAt == Some(now)
  {
    match FindOpen(st.incidents, o.key, 0)
    case None =>
      if !o.IsProblem() then Step(st, None, NoChange)
      else
        var inc := Incident(st.nextId, o.key, o.Name(), now, None, o.lastCheck, o.pluginOutput, false, None);
        Step(TrackerState(st.incidents + [inc], st.nextId + 1), Some(inc), Created)
    case Some(i) =>
      var refreshed := st.incidents[i].(state := o.Name(), lastCheck := o.lastCheck, pluginOutput := o.pluginOutput);
      if o.IsProblem() then
        Step(TrackerState(st.incidents[i := refreshed], st.nextId), Some(refreshed), Updated)
      else
        var closed := refreshed.(endedAt := Some(now));
        Step(TrackerState(st.incidents[i := closed], st.nextId), Some(closed), Closed)
  }

  /** What one reconciliation does, case by case. */
  lemma ReconcileSpec(st: TrackerState, o: Observation, now: int)
    ensures var r := Reconcile(st, o, now);
      // An incident is handed back exactly when something changed, and it is the entity's.
      && (r.incident.Some? <==> r.change != NoChange)
      && (r.incident.Some? ==> r.incident.value.key == o.key && r.incident.value in r.state.incidents)
      // The returned incident is open exactly when the entity is in a problem state.
      && (r.incident.Some? ==> (r.incident.value.IsActive() <==> o.IsProblem()))
      && (r.incident.Some? ==>
            && r.incident.value.state == o.Name() && r.incident.value.pluginOutput == o.pluginOutput
            && r.incident.value.lastCheck == o.lastCheck)
      // A no-op happens exactly for a healthy entity without an open incident.
      && (r.change == NoChange <==> !o.IsProblem() && FindOpen(st.incidents, o.key, 0).None?)
      && (r.change == NoChange ==> r.state == st)
      // Creation: a fresh id, started now, appended; nothing else moves.
      && (r.change == Created <==> o.IsProblem() && FindOpen(st.incidents, o.key, 0).None?)
      && (r.change == Created ==>
            && r.incident.value.id == st.nextId && r.incident.value.startedAt == now
            && r.incident.value.endedAt.None? && !r.incident.value.acknowledged
            && r.state == TrackerState(st.incidents + [r.incident.value], st.nextId + 1))
      // Update and close keep the open incident's id, start, acknowledgement and slot.
      && (r.change in {Updated, Closed} ==>
            var i := FindOpen(st.incidents, o.key, 0).value;
            && r.incident.value.id == st.incidents[i].id
            && r.incident.value.startedAt == st.incidents[i].startedAt
            && r.incident.value.acknowledged == st.incidents[i].acknowledged
            && r.state == TrackerState(st.incidents[i := r.incident.value], st.nextId))
      && (r.change == Closed ==> r.incident.value.endedAt == Some(now))
  {
    match FindOpen(st.incidents, o.key, 0)
    case None =>
    case Some(i) =>
      var refreshed := st.incidents[i].(state := o.Name(), lastCheck := o.lastCheck, pluginOutput := o.pluginOutput);
      assert st.incidents[i := refreshed][i] == refreshed;
      var closed := refreshed.(endedAt := Some(now));
      assert st.incidents[i := closed][i] == closed;
  }

  /** Reconciliation keeps the store well formed: in particular it never opens a
      second incident for an entity, and a closed incident ends no earlier than
      it started. */
  lemma ReconcilePreservesWellFormed(st: TrackerState, o: Observation, now: int)
    requires WellFormed(st) && StartedBy(st, now)
    ensures WellFormed(Reconcile(st, o, now).state) && StartedBy(Reconcile(st, o, now).state, now)
  {
    var r := Reconcile(st, o, now);
    var s, s' := st.incidents, r.state.incidents;
    match r.change
    case NoChange =>
    case Created =>
      assert s' == s + [r.incident.value];
      assert r.state.nextId == st.nextId + 1;
      forall k | 0 <= k < |s'| ensures SoundAt(s', r.state.nextId, k) {
        if k < |s| {
          assert s'[k] == s[k] && SoundAt(s, st.nextId, k);
        }
      }
      forall i, j | 0 <= i < j < |s'| ensures ApartAt(s', i, j) {
        assert SoundAt(s, st.nextId, i);
        if j < |s| {
          assert ApartAt(s, i, j);
        } else {
          assert s'[i] == s[i] && !IsOpenFor(s[i], o.key);
        }
      }
    case _ =>
      var i := FindOpen(s, o.key, 0).value;
      forall k | 0 <= k < |s'| ensures SoundAt(s', r.state.nextId, k) {
        assert SoundAt(s, st.nextId, k);
      }
      forall a, b | 0 <= a < b < |s'| ensures ApartAt(s', a, b) {
        assert ApartAt(s, a, b);
      }
  }

  /** The observations of a host list, in order. */
  function HostObservations(hosts: seq<HostStatus>): (obs: seq<Observation>)
    ensures |obs| == |hosts|
    ensures forall k :: 0 <= k < |hosts| ==> obs[k] == HostObservation(hosts[k])
  {
    seq(|hosts|, k requires 0 <= k < |hosts| => HostObservation(hosts[k]))
  }

  /** The observations of a service list, in order. */
  function ServiceObservations(services: seq<ServiceStatus>): (obs: seq<Observation>)
    ensures |obs| == |services|
    ensures forall k :: 0 <= k < |services| ==> obs[k] == ServiceObservation(services[k])
  {
    seq(|services|, k requires 0 <= k < |services| => ServiceObservation(services[k]))
  }

  /** The store after reconciling every observation of a sequence in order,
      with the incident handed back and the change made, one per observation. */
  datatype Run = Run(state: TrackerState, returned: seq<Option<Incident>>, changes: seq<Change>)

  function ReconcileAll(st: TrackerState, obs: seq<Observation>, now: int): (r: Run)
    ensures |r.returned| == |obs| && |r.changes| == |obs|
    ensures r.state.nextId >= st.nextId && |r.state.incidents| >= |st.incidents|
  {
    if obs == [] then Run(st, [], [])
    else
      var prev := ReconcileAll(st, obs[..|obs| - 1], now);
      var step := Reconcile(prev.state, obs[|obs| - 1], now);
      Run(step.state, prev.returned + [step.incident], prev.changes + [step.change])
  }

  /** A run over one more observation is the run over the prefix followed by one step. */
  lemma ReconcileAllStep(st: TrackerState, obs: seq<Observation>, i: nat, now: int)
    requires i < |obs|
    ensures var prev := ReconcileAll(st, obs[..i], now);
            var step := Reconcile(prev.state, obs[i], now);
            ReconcileAll(st, obs[..i + 1], now) == Run(step.state, prev.returned + [step.incident], prev.changes + [step.change])
  {
    assert obs[..i + 1][..i] == obs[..i];
  }

  /** Reconciling `a` and then `b` is reconciling `a + b`: the runs compose,
      so a poll that handles all hosts and then all services is one run over
      the hosts followed by the services. */
  lemma {:induction false} ReconcileAllAppend(st: TrackerState, a: seq<Observation>, b: seq<Observation>, now: int)
    ensures var r1 := ReconcileAll(st, a, now);
            var r2 := ReconcileAll(r1.state, b, now);
            ReconcileAll(st, a + b, now) == Run(r2.state, r1.returned + r2.returned, r1.changes + r2.changes)
  {
    if b == [] {
      assert a + b == a;
    } else {
      var front := b[..|b| - 1];
      ReconcileAllAppend(st, a, front, now);
      assert (a + b)[..|a + b| - 1] == a + front;
      assert (a + b)[|a + b| - 1] == b[|b| - 1];
      var r1 := ReconcileAll(st, a, now);
      var r2 := ReconcileAll(r1.state, front, now);
      var step := Reconcile(r2.state, b[|b| - 1], now);
      assert ReconcileAll(r1.state, b, now) == Run(step.state, r2.returned + [step.incident], r2.changes + [step.change]);
      assert ReconcileAll(st, a + b, now)
          == Run(step.state, (r1.returned + r2.returned) + [step.incident], (r1.changes + r2.changes) + [step.change]);
      assert (r1.returned + r2.returned) + [step.incident] == r1.returned + (r2.returned + [step.incident]);
      assert (r1.changes + r2.changes) + [step.change] == r1.changes + (r2.changes + [step.change]);
    }
  }

  /** Reconciling a whole snapshot keeps the store well formed. */
  lemma {:induction false} ReconcileAllPreservesWellFormed(st: TrackerState, obs: seq<Observation>, now: int)
    requires WellFormed(st) && StartedBy(st, now)
    ensures WellFormed(ReconcileAll(st, obs, now).state) && StartedBy(ReconcileAll(st, obs, now).state, now)
  {
    if obs != [] {
      ReconcileAllPreservesWellFormed(st, obs[..|obs| - 1], now);
      ReconcilePreservesWellFormed(ReconcileAll(st, obs[..|obs| - 1], now).state, obs[|obs| - 1], now);
    }
  }

  /** Reconciling an unchanged observation a second time opens and closes
      nothing: a problem refreshes the same incident, a healthy entity is a no-op. */
  lemma ReconcileTwice(st: TrackerState, o: Observation, t1: int, t2: int)
    requires WellFormed(st) && StartedBy(st, t1)
    ensures
      var r1 := Reconcile(st, o, t1);
      var r2 := Reconcile(r1.state, o, t2);
      && (r2.change == Updated || r2.change == NoChange)
      && r2.state.nextId == r1.state.nextId
      && |r2.state.incidents| == |r1.state.incidents|
      && (o.IsProblem() ==> r2.change == Updated && r2.incident.value.id == r1.incident.value.id)
      && (!o.IsProblem() ==> r2.change == NoChange)
  {
    var r1 := Reconcile(st, o, t1);
    ReconcilePreservesWellFormed(st, o, t1);
    var s := r1.state.incidents;
    if o.IsProblem() {
      var i := if r1.change == Created then |s| - 1 else FindOpen(st.incidents, o.key, 0).value;
      assert IsOpenFor(s[i], o.key);
      var f := FindOpen(s, o.key, 0);
      assert f.Some?;
      OpenIncidentUnique(r1.state, o.key, f.value, i);
    } else {
      var f := FindOpen(s, o.key, 0);
      if f.Some? {
        if r1.change == Closed {
          var i := FindOpen(st.incidents, o.key, 0).value;
          assert f.value != i;
          assert IsOpenFor(st.incidents[f.value], o.key);
          OpenIncidentUnique(st, o.key, f.value, i);
        }
      }
    }
  }

  /** A host incident's life as the tests pin it: a DOWN host opens an incident,
      DOWN again refreshes the same incident's output, UP closes it. */
  lemma {:induction false} HostIncidentLifecycle(st: TrackerState, name: string, out1: Option<string>, out2: Option<string>,
                                                  out3: Option<string>, t1: int, t2: int, t3: int)
    requires WellFormed(st) && StartedBy(st, t1) && t1 <= t2 <= t3
    requires FindOpen(st.incidents, HostKey(name), 0).None?
    ensures
      var down1 := Reconcile(st, Observation(HostKey(name), 1, out1, None), t1);
      var down2 := Reconcile(down1.state, Observation(HostKey(name), 1, out2, None), t2);
      var up := Reconcile(down2.state, Observation(HostKey(name), 0, out3, None), t3);
      && down1.change == Created
      && down1.incident.value.IncidentType() == HostIncident && down1.incident.value.state == "DOWN"
      && down1.incident.value.IsActive()
      && down2.change == Updated && down2.incident.value.id == down1.incident.value.id
      && down2.incident.value.pluginOutput == out2 && down2.incident.value.IsActive()
      && up.change == Closed && up.incident.value.id == down1.incident.value.id
      && up.incident.value.endedAt == Some(t3) && !up.incident.value.IsActive()
  {
    var down := Observation(HostKey(name), 1, out1, None);
    var down' := Observation(HostKey(name), 1, out2, None);
    var down1 := Reconcile(st, down, t1);
    ReconcilePreservesWellFormed(st, down, t1);
    ReconcileTwice(st, down, t1, t2);
    // The second observation differs from the first only in its output, which
    // reconciliation does not consult when deciding what to do.
    assert Reconcile(down1.state, down', t2).change == Reconcile(down1.state, down, t2).change;
    var down2 := Reconcile(down1.state, down', t2);
    assert StartedBy(down1.state, t2);
    ReconcilePreservesWellFormed(down1.state, down', t2);
    var i := FindOpen(down2.state.incidents, HostKey(name), 0);
    assert IsOpenFor(down2.state.incidents[|down1.state.incidents| - 1], HostKey(name));
  }

  /** The incidents whose `endedAt` is unset, in store order. */
  function ActiveIncidents(s: seq<Incident>): (r: seq<Incident>)
    ensures forall k :: 0 <= k < |r| ==> r[k].IsActive() && r[k] in s
    ensures forall k :: 0 <= k < |s| && s[k].IsActive() ==> s[k] in r
    ensures |r| == Count(s, Open)
  {
    FilterLength(s, Open);
    Filter(s, Open)
  }

  /** `Incident.IsActive` as a function value, for filtering and counting. */
  predicate Open(i: Incident)
  {
    i.IsActive()
  }

  /** The incidents that started within the last `hours` hours before `now`. */
  function RecentIncidents(s: seq<Incident>, now: int, hours: int): (r: seq<Incident>)
    ensures forall k :: 0 <= k < |r| ==> r[k] in s && r[k].startedAt >= now - hours * 3600
    ensures forall k :: 0 <= k < |s| && s[k].startedAt >= now - hours * 3600 ==> s[k] in r
    ensures |r| == Count(s, (i: Incident) => StartedSince(i, now - hours * 3600))
  {
    FilterLength(s, (i: Incident) => StartedSince(i, now - hours * 3600));
    Filter(s, (i: Incident) => StartedSince(i, now - hours * 3600))
  }

  /** The incident started at or after `cutoff`. */
  predicate StartedSince(inc: Incident, cutoff: int)
  {
    inc.startedAt >= cutoff
  }

  /** A closed incident that ended before the retention cutoff. */
  predicate Expired(inc: Incident, cutoff: int)
  {
    inc.endedAt.Some? && inc.endedAt.value < cutoff
  }

  /** The retention cutoff `days` days before `now`, in seconds. */
  function RetentionCutoff(now: int, days: int): int
  {
    now - days * 86400
  }

  /** The incidents retention keeps: every open incident and every closed one
      that ended at or after the cutoff. */
  function Retained(s: seq<Incident>, cutoff: int): (r: seq<Incident>)
    ensures forall k :: 0 <= k < |r| ==> r[k] in s && !Expired(r[k], cutoff)
    ensures forall k :: 0 <= k < |s| && !Expired(s[k], cutoff) ==> s[k] in r
    ensures |s| - |r| == Count(s, (i: Incident) => Expired(i, cutoff))
  {
    FilterLength(s, (i: Incident) => !Expired(i, cutoff));
    CountComplement(s, cutoff);
    Filter(s, (i: Incident) => !Expired(i, cutoff))
  }

  lemma {:induction false} CountComplement(s: seq<Incident>, cutoff: int)
    ensures Count(s, (i: Incident) => !Expired(i, cutoff)) + Count(s, (i: Incident) => Expired(i, cutoff)) == |s|
  {
    if s != [] {
      CountComplement(s[1..], cutoff);
    }
  }

  /** Deleting expired incidents keeps the store well formed. */
  lemma RetainedPreservesWellFormed(st: TrackerState, cutoff: int)
    requires WellFormed(st)
    ensures WellFormed(TrackerState(Retained(st.incidents, cutoff), st.nextId))
  {
    var s := st.incidents;
    var keep := (i: Incident) => !Expired(i, cutoff);
    forall i, j | 0 <= i < j < |s| ensures DistinctIds(s[i], s[j]) && NotBothOpen(s[i], s[j]) {
      assert ApartAt(s, i, j);
    }
    FilterPairwise(s, keep, DistinctIds);
    FilterPairwise(s, keep, NotBothOpen);
    var r := Retained(s, cutoff);
    forall k | 0 <= k < |r| ensures SoundAt(r, st.nextId, k) {
      var m :| 0 <= m < |s| && s[m] == r[k];
      assert SoundAt(s, st.nextId, m);
    }
    forall i, j | 0 <= i < j < |r| ensures ApartAt(r, i, j) {
      assert DistinctIds(r[i], r[j]) && NotBothOpen(r[i], r[j]);
    }
  }

  /** A comment from status.dat, to be attached to the matching open incident. */
  datatype CommentData = CommentData(
    hostName: string,
    serviceDescription: Option<string>,
    entryTime: int,
    author: string,
    commentData: string)

  /** The entity a comment is about: a service comment when it names a
      non-empty service description, a host comment otherwise. */
  function CommentKey(c: CommentData): (key: EntityKey)
    ensures key.hostName == c.hostName
    ensures key.ServiceKey? <==> c.serviceDescription.Some? && c.serviceDescription.value != ""
  {
    if c.serviceDescription.Some? && c.serviceDescription.value != "" then
      ServiceKey(c.hostName, c.serviceDescription.value)
    else
      HostKey(c.hostName)
  }

  /** The first open incident of the comment's entity, if there is one. */
  function MatchOpenIncident(s: seq<Incident>, c: CommentData): (r: Option<Incident>)
    ensures r.Some? ==> r.value in s && IsOpenFor(r.value, CommentKey(c))
    ensures r.None? ==> forall k :: 0 <= k < |s| ==> !IsOpenFor(s[k], CommentKey(c))
  {
    match FindOpen(s, CommentKey(c), 0)
    case None => None
    case Some(i) => Some(s[i])
  }

  /** A stored status.dat comment, linked to an incident when one matched. */
  datatype NagiosComment = NagiosComment(
    hostName: string,
    serviceDescription: Option<string>,
    entryTime: int,
    author: string,
    commentData: string,
    incidentId: Option<nat>)

  function LinkComment(c: CommentData, incident: Option<Incident>): (n: NagiosComment)
    ensures n.hostName == c.hostName && n.author == c.author && n.commentData == c.commentData
    ensures n.serviceDescription == c.serviceDescription && n.entryTime == c.entryTime
    ensures n.incidentId.Some? <==> incident.Some?
    ensures incident.Some? ==> n.incidentId == Some(incident.value.id)
  {
    NagiosComment(c.hostName, c.serviceDescription, c.entryTime, c.author, c.commentData,
                  match incident case None => None case Some(inc) => Some(inc.id))
  }

  /** An entity with no stored incident at all that is in a problem state
      gets a new open incident appended. */
  lemma OpensFresh(st: TrackerState, o: Observation, now: int)
    requires o.IsProblem()
    requires forall k :: 0 <= k < |st.incidents| ==> st.incidents[k].key != o.key
    ensures var r := Reconcile(st, o, now);
            && |r.state.incidents| == |st.incidents| + 1
            && r.state.incidents[..|st.incidents|] == st.incidents
            && r.state.incidents[|st.incidents|].key == o.key
            && r.state.incidents[|st.incidents|].IsActive()
  {
    assert FindOpen(st.incidents, o.key, 0).None?;
  }

  /** Why the clock must not run behind a stored start time: an incident
      opened at `t1` and closed by a reading taken at an earlier `t2` ends
      before it started, and the store is no longer well formed. */
  lemma BackwardClockUnordersInterval(name: string, t1: int, t2: int)
    requires t2 < t1
    ensures
      var down := Reconcile(TrackerState([], 1), Observation(HostKey(name), 1, None, None), t1);
      var up := Reconcile(down.state, Observation(HostKey(name), 0, None, None), t2);
      && up.change == Closed && !IntervalOrdered(up.incident.value)
      && !WellFormed(up.state)
  {
    var down := Reconcile(TrackerState([], 1), Observation(HostKey(name), 1, None, None), t1);
    OpensFresh(TrackerState([], 1), Observation(HostKey(name), 1, None, None), t1);
    assert FindOpen(down.state.incidents, HostKey(name), 0) == Some(0);
    var up := Reconcile(down.state, Observation(HostKey(name), 0, None, None), t2);
    assert !SoundAt(up.state.incidents, up.state.nextId, 0);
  }

  /** The tests' active-incident scenario: three hosts go DOWN, one recovers,
      and exactly two incidents remain active. */
  lemma ActiveAfterThreeOpenedOneResolved(t: int)
    ensures
      var a := Reconcile(TrackerState([], 1), Observation(HostKey("server0"), 1, Some("Down"), None), t);
      var b := Reconcile(a.state, Observation(HostKey("server1"), 1, Some("Down"), None), t);
      var c := Reconcile(b.state, Observation(HostKey("server2"), 1, Some("Down"), None), t);
      var d := Reconcile(c.state, Observation(HostKey("server1"), 0, Some("Up"), None), t);
      && |ActiveIncidents(d.state.incidents)| == 2
      && forall k :: 0 <= k < |d.state.incidents| ==> (d.state.incidents[k].IsActive() <==> k != 1)
  {
    var k0, k1, k2 := HostKey("server0"), HostKey("server1"), HostKey("server2");
    assert k0 != k1 && k0 != k2 && k1 != k2;
    var a := Reconcile(TrackerState([], 1), Observation(k0, 1, Some("Down"), None), t);
    OpensFresh(TrackerState([], 1), Observation(k0, 1, Some("Down"), None), t);
    var b := Reconcile(a.state, Observation(k1, 1, Some("Down"), None), t);
    OpensFresh(a.state, Observation(k1, 1, Some("Down"), None), t);
    var c := Reconcile(b.state, Observation(k2, 1, Some("Down"), None), t);
    OpensFresh(b.state, Observation(k2, 1, Some("Down"), None), t);
    var u := c.state.incidents;
    assert |u| == 3 && u[0].key == k0 && u[1].key == k1 && u[0].IsActive() && u[1].IsActive() && u[2].IsActive();
    assert FindOpen(u, k1, 0) == Some(1);
    var d := Reconcile(c.state, Observation(k1, 0, Some("Up"), None), t);
    var s := d.state.incidents;
    assert |s| == 3 && s[0].IsActive() && !s[1].IsActive() && s[2].IsActive();
    assert s[1..][1..] == [s[2]];
    assert Count(s, Open) == 2;
    forall k | 0 <= k < |s| ensures s[k].IsActive() <==> k != 1 {
      assert k == 0 || k == 1 || k == 2;
    }
  }
  /** The tests' recent-incident scenario: a host incident that started 48
      hours ago and ended 47 hours ago, then a host that goes DOWN now; the
      24-hour window lists exactly the new incident. */
  lemma RecentExcludesOldIncident(t: int, oldId: nat)
    requires oldId >= 1
    ensures
      var stale := Incident(oldId, HostKey("oldserver"), "DOWN", t - 48 * 3600, Some(t - 47 * 3600),
                          Some(t - 47 * 3600), Some("Old problem"), false, None);
      var r := Reconcile(TrackerState([stale], oldId + 1), Observation(HostKey("newserver"), 1, Some("Recent problem"), Some(t)), t);
      var recent := RecentIncidents(r.state.incidents, t, 24);
      |recent| == 1 && recent[0].key == HostKey("newserver")
  {
    var stale := Incident(oldId, HostKey("oldserver"), "DOWN", t - 48 * 3600, Some(t - 47 * 3600),
                        Some(t - 47 * 3600), Some("Old problem"), false, None);
    var o := Observation(HostKey("newserver"), 1, Some("Recent problem"), Some(t));
    assert HostKey("oldserver") != HostKey("newserver");
    OpensFresh(TrackerState([stale], oldId + 1), o, t);
    var s := Reconcile(TrackerState([stale], oldId + 1), o, t).state.incidents;
    assert |s| == 2 && s[0] == stale && s[1].key == o.key;
    assert s[1].startedAt == t;
    var recent := RecentIncidents(s, t, 24);
    assert !StartedSince(s[0], t - 24 * 3600) && StartedSince(s[1], t - 24 * 3600);
    assert s[1..][1..] == [];
    assert |recent| == 1;
    assert s[1] in recent;
  }
}
