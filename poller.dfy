/** The status poller: one poll cycle reads the parsed status.dat snapshot,
    feeds every host and service to the incident tracker, tallies what the
    tracker did, attaches status.dat comments to open incidents, records a
    poll-metadata row and applies incident retention. It never raises: a
    missing or unreadable file and any later fault become entries of the
    result's error list. The parser is an abstract collaborator (its result
    is a parameter), and the clock is two integer readings. */
module Poller {
  import opened Common
  import opened Incidents
  import opened Tracker

  /** What the status.dat parser delivers once it has read the file; host and
      service lists are already filtered by the configured groups. */
  datatype Snapshot = Snapshot(
    hosts: seq<HostStatus>,
    services: seq<ServiceStatus>,
    comments: seq<CommentData>,
    isStale: bool,
    dataAgeSeconds: int,
    fileMtime: Option<int>)

  /** The parser's outcome: the file is missing, unreadable, reading it (or
      checking its staleness) raised any other exception, or it is parsed. */
  datatype ParseOutcome = FileNotFound | PermissionDenied | ParseFailed | Parsed(snapshot: Snapshot)

  /** One host or service record of the snapshot. */
  datatype StatusRecord = HostRecord(host: HostStatus) | ServiceRecord(service: ServiceStatus)

  function Observe(entity: StatusRecord): Observation
  {
    match entity
    case HostRecord(host) => HostObservation(host)
    case ServiceRecord(service) => ServiceObservation(service)
  }

  /** Where an unexpected exception strikes during a cycle, if it does: in the
      tracker call for the host or service at `index`, in the comment at
      `index`, at the metadata commit, or in retention cleanup. */
  datatype Fault = NoFault | AtHost(index: nat) | AtService(index: nat) | AtComment(index: nat) | AtCommit | AtCleanup

  /** An entry of a poll's error list. */
  datatype PollError = SourceMissing | SourceForbidden | StaleData(ageSeconds: int) | UnexpectedInParser | Unexpected(fault: Fault)

  /** The one error entry of a cycle that never got a snapshot. */
  function ParseError(parsed: ParseOutcome): (e: PollError)
    requires !parsed.Parsed?
    ensures e == SourceMissing <==> parsed == FileNotFound
    ensures e == SourceForbidden <==> parsed == PermissionDenied
    ensures e == UnexpectedInParser <==> parsed == ParseFailed
  {
    match parsed
    case FileNotFound => SourceMissing
    case PermissionDenied => SourceForbidden
    case ParseFailed => UnexpectedInParser
  }

  /** A row of the poll-metadata table. */
  datatype PollMetadata = PollMetadata(lastPollTime: int, statusDatMtime: Option<int>, recordsProcessed: nat)

  /** The created / updated / closed counters of a poll. */
  datatype Counts = Counts(created: nat, updated: nat, closed: nat)
  {
    /** Counts one more change; `NoChange` counts nothing. */
    function Add(c: Change): Counts
    {
      Counts(created + (if c == Created then 1 else 0),
             updated + (if c == Updated then 1 else 0),
             closed + (if c == Closed then 1 else 0))
    }
  }

  /** The poller's reading of the incident the tracker handed back: closed when
      it has ended; otherwise updated when it has an id and started before
      `reference`; otherwise created. No incident counts as no change. */
  function Classify(incident: Option<Incident>, reference: int): (c: Change)
    ensures c == NoChange <==> incident.None?
    ensures c == Closed <==> incident.Some? && !incident.value.IsActive()
    ensures c == Updated <==> incident.Some? && incident.value.IsActive() && incident.value.id != 0
                              && incident.value.startedAt < reference
  {
    match incident
    case None => NoChange
    case Some(inc) =>
      if inc.endedAt.Some? then Closed
      else if inc.id != 0 && inc.startedAt < reference then Updated
      else Created
  }

  /** Each returned incident, classified against `reference`. */
  function Classified(returned: seq<Option<Incident>>, reference: int): seq<Change>
  {
    seq(|returned|, k requires 0 <= k < |returned| => Classify(returned[k], reference))
  }

  /** How many of the changes are creations, updates and closures. */
  function CountsOf(changes: seq<Change>): Counts
  {
    if changes == [] then Counts(0, 0, 0)
    else CountsOf(changes[..|changes| - 1]).Add(changes[|changes| - 1])
  }

  /** The counters a poll reaches from the incidents the tracker handed back. */
  function Tally(returned: seq<Option<Incident>>, reference: int): Counts
  {
    CountsOf(Classified(returned, reference))
  }

  /** Tallying one more returned incident counts its classification. */
  lemma TallyStep(a: seq<Option<Incident>>, x: Option<Incident>, reference: int)
    ensures Tally(a + [x], reference) == Tally(a, reference).Add(Classify(x, reference))
  {
    var before := Classified(a, reference);
    var after := Classified(a + [x], reference);
    assert after == before + [Classify(x, reference)];
    assert after[..|after| - 1] == before;
  }

  /** The counters never exceed the number of incidents handed back: a poll
      counts each returned incident at most once. */
  lemma {:induction false} TallyBounded(returned: seq<Option<Incident>>, reference: int)
    ensures var c := Tally(returned, reference);
            c.created + c.updated + c.closed + Count(returned, Untouched) == |returned|
  {
    if returned != [] {
      var front := returned[..|returned| - 1];
      var last := returned[|returned| - 1];
      TallyBounded(front, reference);
      assert returned == front + [last];
      TallyStep(front, last, reference);
      CountAppend(front, [last], Untouched);
    }
  }

  /** The tracker call that returned this touched no incident. */
  predicate Untouched(incident: Option<Incident>)
  {
    incident.None?
  }

  /** The entities observed in a sequence of observations. */
  function ObservedKeys(obs: seq<Observation>): set<EntityKey>
  {
    set j | 0 <= j < |obs| :: obs[j].key
  }

  /** Every stored incident of an entity not yet observed started before the poll. */
  ghost predicate PredatesPoll(st: TrackerState, obs: seq<Observation>, start: int)
  {
    forall k :: 0 <= k < |st.incidents| && st.incidents[k].key !in ObservedKeys(obs) ==>
      st.incidents[k].startedAt < start
  }

  /** Classifying against the poll's start time reads back exactly the change
      the tracker made, provided the entity's stored incidents predate the poll. */
  lemma ClassifyMatchesReconcile(st: TrackerState, o: Observation, start: int, now: int)
    requires WellFormed(st) && start <= now
    requires forall k :: 0 <= k < |st.incidents| && st.incidents[k].key == o.key ==> st.incidents[k].startedAt < start
    ensures Classify(Reconcile(st, o, now).incident, start) == Reconcile(st, o, now).change
  {
    ReconcileSpec(st, o, now);
    var r := Reconcile(st, o, now);
    if r.change == Updated {
      var i := FindOpen(st.incidents, o.key, 0).value;
      assert SoundAt(st.incidents, st.nextId, i);
    }
  }

  /** Incidents of entities a run has not observed are left as they were. */
  lemma {:induction false} RunPredatesPoll(st: TrackerState, obs: seq<Observation>, start: int, now: int)
    requires PredatesPoll(st, [], start)
    ensures PredatesPoll(ReconcileAll(st, obs, now).state, obs, start)
  {
    if obs != [] {
      var front := obs[..|obs| - 1];
      var o := obs[|obs| - 1];
      RunPredatesPoll(st, front, start, now);
      var prev := ReconcileAll(st, front, now).state;
      ReconcileSpec(prev, o, now);
      var s, s' := prev.incidents, ReconcileAll(st, obs, now).state.incidents;
      assert ObservedKeys(obs) == ObservedKeys(front) + {o.key} by {
        assert forall j :: 0 <= j < |front| ==> front[j] == obs[j];
      }
      forall k | 0 <= k < |s'| && s'[k].key !in ObservedKeys(obs) ensures s'[k].startedAt < start {
        assert k < |s| && s'[k] == s[k];
      }
    }
  }

  /** The intended meaning of the counters: when every stored incident predates
      the poll and no entity is observed twice, classifying each returned
      incident against the poll's start time gives exactly the change the
      tracker made, so the counters are the numbers of incidents created,
      updated and closed. */
  lemma {:induction false} TallyCountsChanges(st: TrackerState, obs: seq<Observation>, start: int, now: int)
    requires WellFormed(st) && StartedBy(st, now) && start <= now
    requires forall k :: 0 <= k < |st.incidents| ==> st.incidents[k].startedAt < start
    requires forall i, j :: 0 <= i < j < |obs| ==> obs[i].key != obs[j].key
    ensures Classified(ReconcileAll(st, obs, now).returned, start) == ReconcileAll(st, obs, now).changes
    ensures Tally(ReconcileAll(st, obs, now).returned, start) == CountsOf(ReconcileAll(st, obs, now).changes)
  {
    if obs != [] {
      var front := obs[..|obs| - 1];
      var o := obs[|obs| - 1];
      TallyCountsChanges(st, front, start, now);
      ReconcileAllPreservesWellFormed(st, front, now);
      RunPredatesPoll(st, front, start, now);
      var prev := ReconcileAll(st, front, now);
      var run := ReconcileAll(st, obs, now);
      assert o.key !in ObservedKeys(front);
      ClassifyMatchesReconcile(prev.state, o, start, now);
      assert Classified(run.returned, start) == Classified(prev.returned, start) + [run.changes[|obs| - 1]];
    }
  }

  /** As written, the poller classifies against a fresh clock reading taken
      after the tracker call. An incident the tracker has just opened already
      has an id and a start time before that reading, so it is counted as
      updated, not created. */
  lemma FreshReadingCountsNewIncidentAsUpdated(st: TrackerState, o: Observation, stamp: int, reading: int)
    requires WellFormed(st) && o.IsProblem() && FindOpen(st.incidents, o.key, 0).None? && stamp < reading
    ensures Reconcile(st, o, stamp).change == Created
    ensures Classify(Reconcile(st, o, stamp).incident, reading) == Updated
  {
    ReconcileSpec(st, o, stamp);
  }

  /** As written, a whole run classified against a reading taken after the
      tracker stamped its incidents never counts a creation: every incident
      handed back is stored with an id and started no later than the stamp. */
  lemma {:induction false} FreshReadingNeverCountsCreated(st: TrackerState, obs: seq<Observation>, stamp: int, reading: int)
    requires WellFormed(st) && StartedBy(st, stamp) && stamp < reading
    ensures Tally(ReconcileAll(st, obs, stamp).returned, reading).created == 0
  {
    if obs != [] {
      var front := obs[..|obs| - 1];
      var o := obs[|obs| - 1];
      FreshReadingNeverCountsCreated(st, front, stamp, reading);
      ReconcileAllPreservesWellFormed(st, front, stamp);
      var prev := ReconcileAll(st, front, stamp);
      var r := Reconcile(prev.state, o, stamp);
      ReconcileSpec(prev.state, o, stamp);
      ReconcilePreservesWellFormed(prev.state, o, stamp);
      if r.incident.Some? {
        var k :| 0 <= k < |r.state.incidents| && r.state.incidents[k] == r.incident.value;
        assert SoundAt(r.state.incidents, r.state.nextId, k);
      }
      TallyStep(prev.returned, r.incident, reading);
    }
  }

  function Observations(snap: Snapshot): (obs: seq<Observation>)
    ensures |obs| == |snap.hosts| + |snap.services|
  {
    HostObservations(snap.hosts) + ServiceObservations(snap.services)
  }

  /** How many hosts the cycle hands to the tracker before a fault stops it. */
  function HostsDone(snap: Snapshot, fault: Fault): (n: nat)
    ensures n <= |snap.hosts|
  {
    if fault.AtHost? && fault.index < |snap.hosts| then fault.index else |snap.hosts|
  }

  /** How many services the cycle hands to the tracker before a fault stops it. */
  function ServicesDone(snap: Snapshot, fault: Fault): (n: nat)
    ensures n <= |snap.services|
  {
    if HostsDone(snap, fault) < |snap.hosts| then 0
    else if fault.AtService? && fault.index < |snap.services| then fault.index
    else |snap.services|
  }

  /** The run of a poll over the entities it reaches: the hosts before a fault,
      then, if every host was handled, the services before a fault. */
  function EntitiesRun(st: TrackerState, snap: Snapshot, fault: Fault, now: int): (r: Run)
    ensures |r.returned| == HostsDone(snap, fault) + ServicesDone(snap, fault)
  {
    var hostRun := ReconcileAll(st, HostObservations(snap.hosts)[..HostsDone(snap, fault)], now);
    var serviceRun := ReconcileAll(hostRun.state, ServiceObservations(snap.services)[..ServicesDone(snap, fault)], now);
    Run(serviceRun.state, hostRun.returned + serviceRun.returned, hostRun.changes + serviceRun.changes)
  }

  /** The two phases together are one run, in order, over the observations the
      poll reaches. */
  lemma EntitiesRunIsOneRun(st: TrackerState, snap: Snapshot, fault: Fault, now: int)
    ensures EntitiesRun(st, snap, fault, now)
         == ReconcileAll(st, Observations(snap)[..HostsDone(snap, fault) + ServicesDone(snap, fault)], now)
  {
    var hosts, services := HostObservations(snap.hosts), ServiceObservations(snap.services);
    var h, m := HostsDone(snap, fault), ServicesDone(snap, fault);
    ReachedObservations(snap, fault);
    ReconcileAllAppend(st, hosts[..h], services[..m], now);
  }

  /** Each entity a poll hands to the tracker moves at most one counter, so
      created + updated + closed never exceeds the entities processed. */
  lemma CountersWithinProcessed(st: TrackerState, snap: Snapshot, fault: Fault, now: int, start: int)
    ensures var c := Tally(EntitiesRun(st, snap, fault, now).returned, start);
            c.created + c.updated + c.closed <= HostsDone(snap, fault) + ServicesDone(snap, fault)
  {
    TallyBounded(EntitiesRun(st, snap, fault, now).returned, start);
  }

  /** The observations a poll reaches are the hosts before a fault, then the
      services before a fault. */
  lemma ReachedObservations(snap: Snapshot, fault: Fault)
    ensures Observations(snap)[..HostsDone(snap, fault) + ServicesDone(snap, fault)]
         == HostObservations(snap.hosts)[..HostsDone(snap, fault)] + ServiceObservations(snap.services)[..ServicesDone(snap, fault)]
  {
    var hosts, services := HostObservations(snap.hosts), ServiceObservations(snap.services);
    var h, m := HostsDone(snap, fault), ServicesDone(snap, fault);
    if h < |snap.hosts| {
      assert m == 0 && services[..m] == [];
      assert (hosts + services)[..h] == hosts[..h];
    } else {
      assert hosts[..h] == hosts;
      assert (hosts + services)[..h + m] == hosts + services[..m];
    }
  }

  /** Whether the fault actually strikes in this cycle. */
  predicate Strikes(snap: Snapshot, fault: Fault, pullComments: bool, retentionDays: int)
  {
    match fault
    case NoFault => false
    case AtHost(k) => k < |snap.hosts|
    case AtService(k) => k < |snap.services|
    case AtComment(k) => pullComments && k < |snap.comments|
    case AtCommit => true
    case AtCleanup => retentionDays > 0
  }

  /** The poll-metadata row a cycle records: one row, stamped `now`, with the
      file's modification time (or `now` when it is unknown) and the number of
      entities handed to the tracker, unless a fault strikes before the commit. */
  function RecordedRows(snap: Snapshot, fault: Fault, now: int, pullComments: bool, retentionDays: int): (rows: seq<PollMetadata>)
    ensures |rows| <= 1
    ensures rows != [] <==> !Strikes(snap, fault, pullComments, retentionDays) || fault == AtCleanup
    ensures rows != [] ==> rows[0].lastPollTime == now && rows[0].statusDatMtime == Some(snap.fileMtime.GetOr(now))
                           && rows[0].recordsProcessed == HostsDone(snap, fault) + ServicesDone(snap, fault)
  {
    if !Strikes(snap, fault, pullComments, retentionDays) || fault == AtCleanup
    then [PollMetadata(now, Some(snap.fileMtime.GetOr(now)), HostsDone(snap, fault) + ServicesDone(snap, fault))]
    else []
  }

  /** How many comments the cycle stores before a fault stops it. */
  function CommentsDone(snap: Snapshot, fault: Fault, pullComments: bool): (n: nat)
    ensures n <= |snap.comments|
  {
    if !pullComments || HostsDone(snap, fault) < |snap.hosts| || ServicesDone(snap, fault) < |snap.services| then 0
    else if fault.AtComment? && fault.index < |snap.comments| then fault.index
    else |snap.comments|
  }

  /** The comment rows stored for `comments`, each linked to the first open
      incident of its entity in `store`. */
  function LinkComments(comments: seq<CommentData>, store: seq<Incident>): (r: seq<NagiosComment>)
    ensures |r| == |comments|
    ensures forall k :: 0 <= k < |comments| ==> r[k] == LinkComment(comments[k], MatchOpenIncident(store, comments[k]))
  {
    seq(|comments|, k requires 0 <= k < |comments| => LinkComment(comments[k], MatchOpenIncident(store, comments[k])))
  }

  /** The result record of one poll. */
  class PollResults {
    const timestamp: int
    var hostsProcessed: nat
    var servicesProcessed: nat
    var incidentsCreated: nat
    var incidentsUpdated: nat
    var incidentsClosed: nat
    var commentsProcessed: nat
    var errors: seq<PollError>

    constructor (timestamp: int)
      ensures this.timestamp == timestamp
      ensures hostsProcessed == 0 && servicesProcessed == 0 && commentsProcessed == 0
      ensures incidentsCreated == 0 && incidentsUpdated == 0 && incidentsClosed == 0
      ensures errors == []
    {
      this.timestamp := timestamp;
      hostsProcessed, servicesProcessed, commentsProcessed := 0, 0, 0;
      incidentsCreated, incidentsUpdated, incidentsClosed := 0, 0, 0;
      errors := [];
    }

    function Tallied(): Counts
      reads this`incidentsCreated, this`incidentsUpdated, this`incidentsClosed
    {
      Counts(incidentsCreated, incidentsUpdated, incidentsClosed)
    }

    /** Counts the incident the tracker handed back, as the poller classifies it. */
    method Record(incident: Option<Incident>)
      modifies this`incidentsCreated, this`incidentsUpdated, this`incidentsClosed
      ensures Tallied() == old(Tallied()).Add(Classify(incident, timestamp))
    {
      if incident.Some? {
        if incident.value.endedAt.Some? {
          incidentsClosed := incidentsClosed + 1;
        } else if incident.value.id != 0 && incident.value.startedAt < timestamp {
          incidentsUpdated := incidentsUpdated + 1;
        } else {
          incidentsCreated := incidentsCreated + 1;
        }
      }
    }
  }

  /** The most recent row of the poll-metadata table, if there is one. */
  function LastPoll(log: seq<PollMetadata>): (r: Option<PollMetadata>)
    ensures r.None? <==> log == []
    ensures r.Some? ==> r.value in log
    ensures r.Some? ==> forall k :: 0 <= k < |log| ==> log[k].lastPollTime <= r.value.lastPollTime
  {
    if log == [] then None
    else
      var last := log[|log| - 1];
      match LastPoll(log[..|log| - 1])
      case None => Some(last)
      case Some(m) => if last.lastPollTime >= m.lastPollTime then Some(last) else Some(m)
  }

  class StatusPoller {
    /** The incident tables of the database. */
    const tracker: IncidentTracker
    /** The poll-metadata table of the database. */
    var pollLog: seq<PollMetadata>
    var isRunning: bool
    /** Database sessions currently open by this poller. `Poll` opens one and
        closes it on every path (the source's `finally`); since every failure
        is a value of the model rather than an exception, this holds by
        construction. */
    var openSessions: nat
    const stalenessThresholdSeconds: int
    const retentionDays: int
    const pullNagiosComments: bool

    ghost predicate Valid()
      reads tracker`incidents, tracker`nextId
    {
      tracker.Valid()
    }

    /** A poller over the database's incident tables (`tracker`) and its
        existing poll-metadata rows (`pollLog`); it is not running. */
    constructor (tracker: IncidentTracker, pollLog: seq<PollMetadata>, stalenessThresholdSeconds: int,
                 retentionDays: int, pullNagiosComments: bool)
      ensures this.tracker == tracker && this.pollLog == pollLog && !isRunning && openSessions == 0
      ensures this.stalenessThresholdSeconds == stalenessThresholdSeconds
      ensures this.retentionDays == retentionDays && this.pullNagiosComments == pullNagiosComments
    {
      this.tracker := tracker;
      this.stalenessThresholdSeconds := stalenessThresholdSeconds;
      this.retentionDays := retentionDays;
      this.pullNagiosComments := pullNagiosComments;
      this.pollLog := pollLog;
      isRunning, openSessions := false, 0;
    }

    /** The most recent poll-metadata row. */
    function GetLastPoll(): (r: Option<PollMetadata>)
      reads this
      ensures r.None? <==> pollLog == []
      ensures r.Some? ==> r.value in pollLog
    {
      LastPoll(pollLog)
    }

    /** Stale unless some recorded poll is at most the threshold old; with no
        poll recorded at all the data counts as stale. */
    function IsDataStale(now: int): (stale: bool)
      reads this
      ensures pollLog == [] ==> stale
      ensures stale <==> forall k :: 0 <= k < |pollLog| ==> now - pollLog[k].lastPollTime > stalenessThresholdSeconds
    {
      match LastPoll(pollLog)
      case None => true
      case Some(m) => now - m.lastPollTime > stalenessThresholdSeconds
    }

    /** Hands one host or service record to the tracker and counts what it
        hands back: one more step of the run over `obs`, whose returned
        incidents the counters hold after those of `prefix`. */
    method Handle(results: PollResults, entity: StatusRecord, now: int,
                  ghost st0: TrackerState, ghost obs: seq<Observation>, ghost i: nat, ghost prefix: seq<Option<Incident>>)
      requires i < |obs| && obs[i] == Observe(entity)
      requires tracker.Valid() && StartedBy(tracker.State(), now)
      requires tracker.State() == ReconcileAll(st0, obs[..i], now).state
      requires results.Tallied() == Tally(prefix + ReconcileAll(st0, obs[..i], now).returned, results.timestamp)
      modifies results`incidentsCreated, results`incidentsUpdated, results`incidentsClosed, tracker`incidents, tracker`nextId
      ensures tracker.Valid() && StartedBy(tracker.State(), now)
      ensures tracker.State() == ReconcileAll(st0, obs[..i + 1], now).state
      ensures results.Tallied() == Tally(prefix + ReconcileAll(st0, obs[..i + 1], now).returned, results.timestamp)
    {
      ghost var before := prefix + ReconcileAll(st0, obs[..i], now).returned;
      var incident: Option<Incident>;
      match entity {
        case HostRecord(host) =>
          incident := tracker.ProcessHost(host, now);
        case ServiceRecord(service) =>
          incident := tracker.ProcessService(service, now);
      }
      results.Record(incident);
      ReconcileAllStep(st0, obs, i, now);
      TallyStep(before, incident, results.timestamp);
      assert prefix + ReconcileAll(st0, obs[..i + 1], now).returned == before + [incident];
    }

    /** Hands the hosts to the tracker in order until a fault stops the cycle;
        the counters go on from the incidents `prefix`. */
    method ProcessHosts(results: PollResults, snap: Snapshot, fault: Fault, now: int, ghost prefix: seq<Option<Incident>>)
      returns (completed: bool)
      requires tracker.Valid() && StartedBy(tracker.State(), now)
      requires results.hostsProcessed == 0 && results.Tallied() == Tally(prefix, results.timestamp)
      modifies results`hostsProcessed, results`incidentsCreated, results`incidentsUpdated, results`incidentsClosed, tracker`incidents, tracker`nextId
      ensures tracker.Valid() && StartedBy(tracker.State(), now)
      ensures completed <==> HostsDone(snap, fault) == |snap.hosts|
      ensures var run := ReconcileAll(old(tracker.State()), HostObservations(snap.hosts)[..HostsDone(snap, fault)], now);
              && tracker.State() == run.state
              && results.hostsProcessed == HostsDone(snap, fault)
              && results.Tallied() == Tally(prefix + run.returned, results.timestamp)
    {
      var hosts := snap.hosts;
      ghost var obs := HostObservations(hosts);
      ghost var st0 := tracker.State();
      var i := 0;
      ghost var run := ReconcileAll(st0, obs[..i], now);
      assert prefix + run.returned == prefix;
      while i < |hosts| && fault != AtHost(i)
        invariant 0 <= i <= |hosts| && (fault.AtHost? ==> i <= fault.index)
        invariant run == ReconcileAll(st0, obs[..i], now)
        invariant tracker.Valid() && StartedBy(tracker.State(), now) && tracker.State() == run.state
        invariant results.hostsProcessed == i
        invariant results.Tallied() == Tally(prefix + run.returned, results.timestamp)
      {
        Handle(results, HostRecord(hosts[i]), now, st0, obs, i, prefix);
        results.hostsProcessed := results.hostsProcessed + 1;
        i := i + 1;
        run := ReconcileAll(st0, obs[..i], now);
      }
      assert i == HostsDone(snap, fault);
      completed := i == |hosts|;
    }

    /** Hands the services to the tracker in order until a fault stops the
        cycle; the counters go on from the hosts' incidents `prefix`. */
    method ProcessServices(results: PollResults, snap: Snapshot, fault: Fault, now: int, ghost prefix: seq<Option<Incident>>)
      returns (completed: bool)
      requires tracker.Valid() && StartedBy(tracker.State(), now)
      requires HostsDone(snap, fault) == |snap.hosts|
      requires results.servicesProcessed == 0 && results.Tallied() == Tally(prefix, results.timestamp)
      modifies results`servicesProcessed, results`incidentsCreated, results`incidentsUpdated, results`incidentsClosed, tracker`incidents, tracker`nextId
      ensures tracker.Valid() && StartedBy(tracker.State(), now)
      ensures completed <==> ServicesDone(snap, fault) == |snap.services|
      ensures var run := ReconcileAll(old(tracker.State()), ServiceObservations(snap.services)[..ServicesDone(snap, fault)], now);
              && tracker.State() == run.state
              && results.servicesProcessed == ServicesDone(snap, fault)
              && results.Tallied() == Tally(prefix + run.returned, results.timestamp)
    {
      var services := snap.services;
      ghost var obs := ServiceObservations(services);
      ghost var st0 := tracker.State();
      var j := 0;
      ghost var run := ReconcileAll(st0, obs[..j], now);
      assert prefix + run.returned == prefix;
      while j < |services| && fault != AtService(j)
        invariant 0 <= j <= |services| && (fault.AtService? ==> j <= fault.index)
        invariant run == ReconcileAll(st0, obs[..j], now)
        invariant tracker.Valid() && StartedBy(tracker.State(), now) && tracker.State() == run.state
        invariant results.servicesProcessed == j
        invariant results.Tallied() == Tally(prefix + run.returned, results.timestamp)
      {
        Handle(results, ServiceRecord(services[j]), now, st0, obs, j, prefix);
        results.servicesProcessed := results.servicesProcessed + 1;
        j := j + 1;
        run := ReconcileAll(st0, obs[..j], now);
      }
      assert j == ServicesDone(snap, fault);
      completed := j == |services|;
    }

    method ProcessComments(results: PollResults, snap: Snapshot, fault: Fault) returns (completed: bool)
      requires results.commentsProcessed == 0
      modifies results`commentsProcessed, tracker`nagiosComments
      ensures completed <==> !(fault.AtComment? && fault.index < |snap.comments|)
      ensures var m := if completed then |snap.comments| else fault.index;
              && results.commentsProcessed == m
              && tracker.nagiosComments == old(tracker.nagiosComments) + LinkComments(snap.comments[..m], tracker.incidents)
    {
      var comments := snap.comments;
      var k := 0;
      while k < |comments|
        invariant 0 <= k <= |comments|
        invariant fault.AtComment? ==> k <= fault.index
        invariant results.commentsProcessed == k
        invariant tracker.nagiosComments == old(tracker.nagiosComments) + LinkComments(comments[..k], tracker.incidents)
      {
        if fault == AtComment(k) {
          return false;
        }
        var incident := MatchOpenIncident(tracker.incidents, comments[k]);
        var stored := tracker.ProcessNagiosComment(comments[k], incident);
        if stored.Some? {
          results.commentsProcessed := results.commentsProcessed + 1;
        }
        assert LinkComments(comments[..k + 1], tracker.incidents)
            == LinkComments(comments[..k], tracker.incidents) + [stored.value];
        k := k + 1;
      }
      assert comments[..k] == comments;
      return true;
    }

    /** Hands every host, then every service, to the tracker until a fault
        stops the cycle, tallying what the tracker hands back. */
    method ProcessEntities(results: PollResults, snap: Snapshot, fault: Fault, now: int) returns (completed: bool)
      requires tracker.Valid() && StartedBy(tracker.State(), now)
      requires results.hostsProcessed == 0 && results.servicesProcessed == 0 && results.Tallied() == Counts(0, 0, 0)
      modifies results`hostsProcessed, results`servicesProcessed, tracker`incidents, tracker`nextId
      modifies results`incidentsCreated, results`incidentsUpdated, results`incidentsClosed
      ensures tracker.Valid() && StartedBy(tracker.State(), now)
      ensures completed <==> HostsDone(snap, fault) == |snap.hosts| && ServicesDone(snap, fault) == |snap.services|
      ensures var run := EntitiesRun(old(tracker.State()), snap, fault, now);
              && tracker.incidents == run.state.incidents && tracker.nextId == run.state.nextId
              && results.hostsProcessed == HostsDone(snap, fault)
              && results.servicesProcessed == ServicesDone(snap, fault)
              && results.Tallied() == Tally(run.returned, results.timestamp)
    {
      ghost var st0 := tracker.State();
      assert results.Tallied() == Tally([], results.timestamp);
      completed := ProcessHosts(results, snap, fault, now, []);
      ghost var hostRun := ReconcileAll(st0, HostObservations(snap.hosts)[..HostsDone(snap, fault)], now);
      assert [] + hostRun.returned == hostRun.returned;
      ghost var serviceRun := ReconcileAll(hostRun.state, ServiceObservations(snap.services)[..ServicesDone(snap, fault)], now);
      assert EntitiesRun(st0, snap, fault, now)
          == Run(serviceRun.state, hostRun.returned + serviceRun.returned, hostRun.changes + serviceRun.changes);
      if completed {
        completed := ProcessServices(results, snap, fault, now, hostRun.returned);
      } else {
        assert ServiceObservations(snap.services)[..ServicesDone(snap, fault)] == [];
        assert serviceRun == Run(hostRun.state, [], []);
        assert hostRun.returned + [] == hostRun.returned;
      }
    }

    /** The rest of a cycle once the entities are handled: comments (when
        enabled), the metadata commit, retention cleanup, and the error entry
        of a fault that struck anywhere in the cycle. */
    method Conclude(results: PollResults, snap: Snapshot, fault: Fault, now: int, entitiesCompleted: bool)
      requires Valid() && StartedBy(tracker.State(), now)
      requires entitiesCompleted <==> HostsDone(snap, fault) == |snap.hosts| && ServicesDone(snap, fault) == |snap.services|
      requires results.commentsProcessed == 0
      requires results.hostsProcessed + results.servicesProcessed == HostsDone(snap, fault) + ServicesDone(snap, fault)
      modifies this`pollLog, tracker`incidents, tracker`nagiosComments, results`commentsProcessed, results`errors
      ensures Valid() && StartedBy(tracker.State(), now)
      ensures var strikes := Strikes(snap, fault, pullNagiosComments, retentionDays);
              && results.commentsProcessed == CommentsDone(snap, fault, pullNagiosComments)
              && tracker.nagiosComments == old(tracker.nagiosComments)
                   + LinkComments(snap.comments[..CommentsDone(snap, fault, pullNagiosComments)], old(tracker.incidents))
              && tracker.incidents == (if !strikes && retentionDays > 0
                                       then Retained(old(tracker.incidents), RetentionCutoff(now, retentionDays))
                                       else old(tracker.incidents))
              && pollLog == old(pollLog) + RecordedRows(snap, fault, now, pullNagiosComments, retentionDays)
              && results.errors == old(results.errors) + (if strikes then [Unexpected(fault)] else [])
    {
      var struck := CommentPhase(results, snap, fault, entitiesCompleted);
      ghost var strikes := Strikes(snap, fault, pullNagiosComments, retentionDays);
      assert RecordedRows(snap, fault, now, pullNagiosComments, retentionDays)
          == if struck || fault == AtCommit then []
             else [PollMetadata(now, Some(snap.fileMtime.GetOr(now)), results.hostsProcessed + results.servicesProcessed)];
      if !struck {
        struck := Commit(snap.fileMtime, results.hostsProcessed + results.servicesProcessed, fault, now);
      }
      assert struck == strikes;
      if struck {
        results.errors := results.errors + [Unexpected(fault)];
      }
    }

    /** The comment phase of a cycle: when the entities completed and comments
        are pulled, they are stored until a fault stops them; reports whether a
        fault has struck by the end of the phase. */
    method CommentPhase(results: PollResults, snap: Snapshot, fault: Fault, entitiesCompleted: bool) returns (struck: bool)
      requires entitiesCompleted <==> HostsDone(snap, fault) == |snap.hosts| && ServicesDone(snap, fault) == |snap.services|
      requires results.commentsProcessed == 0
      modifies results`commentsProcessed, tracker`nagiosComments
      ensures struck <==> Strikes(snap, fault, pullNagiosComments, retentionDays) && fault !in {AtCommit, AtCleanup}
      ensures results.commentsProcessed == CommentsDone(snap, fault, pullNagiosComments)
      ensures tracker.nagiosComments == old(tracker.nagiosComments)
                + LinkComments(snap.comments[..CommentsDone(snap, fault, pullNagiosComments)], tracker.incidents)
    {
      struck := !entitiesCompleted;
      if !struck && pullNagiosComments {
        var completed := ProcessComments(results, snap, fault);
        struck := !completed;
      } else {
        assert snap.comments[..0] == [];
      }
    }

    /** Records the poll-metadata row and then applies retention, unless a
        fault strikes at the commit or in cleanup; reports whether one did. */
    method Commit(fileMtime: Option<int>, records: nat, fault: Fault, now: int) returns (struck: bool)
      requires Valid()
      modifies this`pollLog, tracker`incidents
      ensures Valid()
      ensures struck <==> fault == AtCommit || (fault == AtCleanup && retentionDays > 0)
      ensures pollLog == old(pollLog) + (if fault == AtCommit then [] else [PollMetadata(now, Some(fileMtime.GetOr(now)), records)])
      ensures tracker.incidents == (if !struck && retentionDays > 0
                                    then Retained(old(tracker.incidents), RetentionCutoff(now, retentionDays))
                                    else old(tracker.incidents))
    {
      if fault == AtCommit {
        return true;
      }
      pollLog := pollLog + [PollMetadata(now, Some(fileMtime.GetOr(now)), records)];
      struck := false;
      if retentionDays > 0 {
        if fault == AtCleanup {
          struck := true;
        } else {
          var deleted := tracker.CleanupOldIncidents(retentionDays, now);
        }
      }
    }

    /** The cycle over a parsed snapshot, counted into fresh `results`: the
        stale warning, then the entities, then the rest of the cycle. */
    method RunCycle(results: PollResults, snap: Snapshot, fault: Fault, now: int)
      requires Valid() && StartedBy(tracker.State(), now)
      requires results.hostsProcessed == 0 && results.servicesProcessed == 0 && results.commentsProcessed == 0
      requires results.Tallied() == Counts(0, 0, 0) && results.errors == []
      modifies this`pollLog, tracker`incidents, tracker`nextId, tracker`nagiosComments
      modifies results`hostsProcessed, results`servicesProcessed, results`commentsProcessed, results`errors
      modifies results`incidentsCreated, results`incidentsUpdated, results`incidentsClosed
      ensures Valid() && StartedBy(tracker.State(), now)
      ensures var run := EntitiesRun(old(tracker.State()), snap, fault, now);
              var strikes := Strikes(snap, fault, pullNagiosComments, retentionDays);
              && results.hostsProcessed == HostsDone(snap, fault)
              && results.servicesProcessed == ServicesDone(snap, fault)
              && results.Tallied() == Tally(run.returned, results.timestamp)
              && results.commentsProcessed == CommentsDone(snap, fault, pullNagiosComments)
              && tracker.nextId == run.state.nextId
              && tracker.nagiosComments == old(tracker.nagiosComments)
                   + LinkComments(snap.comments[..CommentsDone(snap, fault, pullNagiosComments)], run.state.incidents)
              && tracker.incidents == (if !strikes && retentionDays > 0
                                       then Retained(run.state.incidents, RetentionCutoff(now, retentionDays))
                                       else run.state.incidents)
              && pollLog == old(pollLog) + RecordedRows(snap, fault, now, pullNagiosComments, retentionDays)
              && results.errors == (if snap.isStale then [StaleData(snap.dataAgeSeconds)] else [])
                                   + (if strikes then [Unexpected(fault)] else [])
    {
      if snap.isStale {
        results.errors := [StaleData(snap.dataAgeSeconds)];
      }
      var completed := ProcessEntities(results, snap, fault, now);
      Conclude(results, snap, fault, now, completed);
    }

    /** What one poll cycle does to the database tables: nothing when no
        snapshot was read; otherwise every entity reached is reconciled in
        order, the comments reached are stored, retention runs only after a
        clean commit, and the metadata row is recorded unless a fault strikes
        before the commit. */
    twostate predicate CycleApplied(parsed: ParseOutcome, fault: Fault, now: int)
      reads this`pollLog, tracker`incidents, tracker`nextId, tracker`nagiosComments
    {
      match parsed
      case Parsed(snap) =>
        var run := EntitiesRun(old(tracker.State()), snap, fault, now);
        var strikes := Strikes(snap, fault, pullNagiosComments, retentionDays);
        && tracker.nextId == run.state.nextId
        && tracker.nagiosComments == old(tracker.nagiosComments)
             + LinkComments(snap.comments[..CommentsDone(snap, fault, pullNagiosComments)], run.state.incidents)
        && tracker.incidents == (if !strikes && retentionDays > 0
                                 then Retained(run.state.incidents, RetentionCutoff(now, retentionDays))
                                 else run.state.incidents)
        && pollLog == old(pollLog) + RecordedRows(snap, fault, now, pullNagiosComments, retentionDays)
      case _ =>
        && pollLog == old(pollLog)
        && tracker.State() == old(tracker.State()) && tracker.nagiosComments == old(tracker.nagiosComments)
    }

    /** One poll cycle, started at `start` (the results' timestamp); the tracker
        stamps incidents and the metadata row with `now`. */
    method Poll(parsed: ParseOutcome, fault: Fault, start: int, now: int) returns (results: PollResults)
      requires Valid() && StartedBy(tracker.State(), now) && start <= now
      modifies this`openSessions, this`pollLog, tracker`incidents, tracker`nextId, tracker`nagiosComments
      ensures Valid() && StartedBy(tracker.State(), now) && fresh(results)
      ensures results.timestamp == start
      ensures openSessions == old(openSessions)
      ensures CycleApplied(parsed, fault, now)
      // A file that cannot be read ends the cycle with one error and nothing else.
      ensures !parsed.Parsed? ==>
        && results.errors == [ParseError(parsed)]
        && results.hostsProcessed == 0 && results.servicesProcessed == 0 && results.commentsProcessed == 0
        && results.Tallied() == Counts(0, 0, 0)
      // Otherwise every entity reached is reconciled in order and tallied.
      ensures parsed.Parsed? ==>
        var snap := parsed.snapshot;
        var run := EntitiesRun(old(tracker.State()), snap, fault, now);
        var strikes := Strikes(snap, fault, pullNagiosComments, retentionDays);
        && results.hostsProcessed == HostsDone(snap, fault)
        && results.servicesProcessed == ServicesDone(snap, fault)
        && results.Tallied() == Tally(run.returned, start)
        && results.commentsProcessed == CommentsDone(snap, fault, pullNagiosComments)
        // Stale data is a warning that does not stop the cycle; a fault is one more error.
        && results.errors == (if snap.isStale then [StaleData(snap.dataAgeSeconds)] else [])
                             + (if strikes then [Unexpected(fault)] else [])
    {
      openSessions := openSessions + 1;
      results := new PollResults(start);
      match parsed {
        case FileNotFound =>
          results.errors := [SourceMissing];
        case PermissionDenied =>
          results.errors := [SourceForbidden];
        case ParseFailed =>
          results.errors := [UnexpectedInParser];
        case Parsed(snap) =>
          RunCycle(results, snap, fault, now);
      }
      openSessions := openSessions - 1;
    }

    /** Starts polling: a running poller is left alone; otherwise one poll runs
        immediately (its result record is discarded) and the poller is marked
        running. */
    method Start(parsed: ParseOutcome, fault: Fault, start: int, now: int)
      requires Valid() && StartedBy(tracker.State(), now) && start <= now
      modifies this`openSessions, this`pollLog, this`isRunning, tracker`incidents, tracker`nextId, tracker`nagiosComments
      ensures Valid() && isRunning
      ensures old(isRunning) ==> pollLog == old(pollLog) && tracker.State() == old(tracker.State())
                                 && tracker.nagiosComments == old(tracker.nagiosComments)
      ensures !old(isRunning) ==> CycleApplied(parsed, fault, now)
      ensures !old(isRunning) && parsed.Parsed? && fault == NoFault ==> |pollLog| == |old(pollLog)| + 1
      ensures openSessions == old(openSessions)
    {
      if isRunning {
        return;
      }
      var initial := Poll(parsed, fault, start, now);
      assert parsed.Parsed? && fault == NoFault ==>
        |RecordedRows(parsed.snapshot, fault, now, pullNagiosComments, retentionDays)| == 1;
      isRunning := true;
    }

    /** Stops polling: a stopped poller is left alone; otherwise it is marked stopped. */
    method Stop()
      modifies this`isRunning
      ensures !isRunning
    {
      if !isRunning {
        return;
      }
      isRunning := false;
    }
  }
}
