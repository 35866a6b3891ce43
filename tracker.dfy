/** The incident tracker: the persistent incident table (and the table of
    status.dat comments) changed in place, one entity at a time. Each method
    is proved against the value-level definitions of module Incidents. */
module Tracker {
  import opened Common
  import opened StateCodes
  import opened Incidents

  class IncidentTracker {
    /** The incident table, in insertion order. */
    var incidents: seq<Incident>
    /** The primary key the database will give the next incident. */
    var nextId: nat
    /** The table of comments copied from status.dat. */
    var nagiosComments: seq<NagiosComment>

    function State(): TrackerState
      reads this`incidents, this`nextId
    {
      TrackerState(incidents, nextId)
    }

    ghost predicate Valid()
      reads this`incidents, this`nextId
    {
      WellFormed(State())
    }

    /** An empty database. */
    constructor ()
      ensures Valid()
      ensures incidents == [] && nextId == 1 && nagiosComments == []
    {
      incidents, nextId, nagiosComments := [], 1, [];
    }

    /** Reconciles one host record: opens, refreshes or closes the host's
        incident, or does nothing; returns the incident it touched. */
    method ProcessHost(host: HostStatus, now: int) returns (incident: Option<Incident>)
      requires Valid() && StartedBy(State(), now)
      modifies this`incidents, this`nextId
      ensures Valid() && StartedBy(State(), now)
      ensures State() == Reconcile(old(State()), HostObservation(host), now).state
      ensures incident == Reconcile(old(State()), HostObservation(host), now).incident
    {
      incident := Apply(HostObservation(host), now);
    }

    /** Reconciles one service record. */
    method ProcessService(service: ServiceStatus, now: int) returns (incident: Option<Incident>)
      requires Valid() && StartedBy(State(), now)
      modifies this`incidents, this`nextId
      ensures Valid() && StartedBy(State(), now)
      ensures State() == Reconcile(old(State()), ServiceObservation(service), now).state
      ensures incident == Reconcile(old(State()), ServiceObservation(service), now).incident
    {
      incident := Apply(ServiceObservation(service), now);
    }

    method Apply(o: Observation, now: int) returns (incident: Option<Incident>)
      requires Valid() && StartedBy(State(), now)
      modifies this`incidents, this`nextId
      ensures Valid() && StartedBy(State(), now)
      ensures State() == Reconcile(old(State()), o, now).state
      ensures incident == Reconcile(old(State()), o, now).incident
    {
      var step := Reconcile(State(), o, now);
      ReconcilePreservesWellFormed(State(), o, now);
      incidents, nextId := step.state.incidents, step.state.nextId;
      incident := step.incident;
    }

    /** The incidents that are still open. */
    method GetActiveIncidents() returns (active: seq<Incident>)
      ensures forall k :: 0 <= k < |active| ==> active[k] in incidents && active[k].endedAt.None?
      ensures forall k :: 0 <= k < |incidents| && incidents[k].endedAt.None? ==> incidents[k] in active
      ensures |active| == Count(incidents, Open)
      ensures active == ActiveIncidents(incidents)
    {
      active := ActiveIncidents(incidents);
    }

    /** The incidents that started within the last `hours` hours. */
    method GetRecentIncidents(hours: int, now: int) returns (recent: seq<Incident>)
      ensures forall k :: 0 <= k < |recent| ==> recent[k] in incidents && recent[k].startedAt >= now - hours * 3600
      ensures forall k :: 0 <= k < |incidents| && incidents[k].startedAt >= now - hours * 3600 ==> incidents[k] in recent
      ensures |recent| == Count(incidents, (i: Incident) => StartedSince(i, now - hours * 3600))
      ensures recent == RecentIncidents(incidents, now, hours)
    {
      recent := RecentIncidents(incidents, now, hours);
    }

    /** Deletes the closed incidents that ended more than `days` days ago and
        returns how many were deleted. Open incidents are never deleted. */
    method CleanupOldIncidents(days: int, now: int) returns (deleted: nat)
      requires Valid()
      modifies this`incidents
      ensures Valid()
      ensures incidents == Retained(old(incidents), RetentionCutoff(now, days))
      ensures deleted == |old(incidents)| - |incidents|
      ensures deleted == Count(old(incidents), (i: Incident) => Expired(i, RetentionCutoff(now, days)))
      ensures nextId == old(nextId) && nagiosComments == old(nagiosComments)
    {
      var cutoff := RetentionCutoff(now, days);
      RetainedPreservesWellFormed(State(), cutoff);
      var kept := Retained(incidents, cutoff);
      deleted := |incidents| - |kept|;
      incidents := kept;
    }

    /** Stores a status.dat comment, linked to `incident` when one is given. */
    method ProcessNagiosComment(comment: CommentData, incident: Option<Incident>) returns (stored: Option<NagiosComment>)
      modifies this`nagiosComments
      ensures stored == Some(LinkComment(comment, incident))
      ensures nagiosComments == old(nagiosComments) + [stored.value]
    {
      var c := LinkComment(comment, incident);
      nagiosComments := nagiosComments + [c];
      stored := Some(c);
    }
  }
}
