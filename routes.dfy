/** The read side of the status page API and the two incident endpoints that
    write: health, the status summary, the host and service lists, the
    incident list, one incident with its comments, adding a comment and
    setting the post-incident review URL. Request bodies are validated before
    a handler runs (422); an unknown incident id is 404. */
module Routes {
  import opened Common
  import opened StateCodes
  import opened Incidents
  import opened Poller

  /** An error answer of the API: a request body that fails validation, or
      an incident id that matches nothing. */
  datatype ApiError = Unprocessable | NotFound | Internal
  {
    function Status(): (code: int)
      ensures code == 422 <==> Unprocessable?
      ensures code == 404 <==> NotFound?
      ensures code == 500 <==> Internal?
    {
      match this
      case Unprocessable => 422
      case NotFound => 404
      case Internal => 500
    }
  }

  // ---------------------------------------------------------------- health

  /** The overall health of the page. */
  datatype HealthStatus = Healthy | Stale | Degraded

  /** Degraded whenever an incident is active, which overrides stale data;
      otherwise stale or healthy. */
  function OverallStatus(isStale: bool, activeCount: nat): (status: HealthStatus)
    ensures status == Degraded <==> activeCount > 0
    ensures status == Stale <==> isStale && activeCount == 0
    ensures status == Healthy <==> !isStale && activeCount == 0
  {
    if activeCount > 0 then Degraded
    else if isStale then Stale
    else Healthy
  }

  datatype HealthResponse = HealthResponse(
    status: HealthStatus,
    lastPollTime: Option<int>,
    statusDatAgeSeconds: Option<int>,
    dataIsStale: bool,
    activeIncidentsCount: nat,
    databaseAccessible: bool)

  /** The health endpoint, read from the poller's metadata table and the
      incident table at time `now`. */
  function HealthCheck(poller: StatusPoller, now: int): (r: HealthResponse)
    reads poller, poller.tracker
    ensures r.statusDatAgeSeconds.None? <==> poller.pollLog == [] || poller.GetLastPoll().value.statusDatMtime.None?
    ensures r.statusDatAgeSeconds.Some? ==>
              r.statusDatAgeSeconds.value == now - poller.GetLastPoll().value.statusDatMtime.value
    ensures r.lastPollTime.None? <==> poller.pollLog == []
    ensures r.lastPollTime.Some? ==> r.lastPollTime.value == poller.GetLastPoll().value.lastPollTime
    ensures r.lastPollTime.Some? ==> forall k :: 0 <= k < |poller.pollLog| ==> poller.pollLog[k].lastPollTime <= r.lastPollTime.value
    ensures r.dataIsStale == poller.IsDataStale(now)
    ensures r.activeIncidentsCount == Count(poller.tracker.incidents, Open)
    ensures r.status == Degraded <==> exists k :: 0 <= k < |poller.tracker.incidents| && poller.tracker.incidents[k].IsActive()
    ensures r.status == Stale <==> r.dataIsStale && r.status != Degraded
    ensures r.databaseAccessible
  {
    var lastPoll := poller.GetLastPoll();
    var isStale := poller.IsDataStale(now);
    var activeCount := |ActiveIncidents(poller.tracker.incidents)|;
    var age := if lastPoll.Some? && lastPoll.value.statusDatMtime.Some?
               then Some(now - lastPoll.value.statusDatMtime.value) else None;
    HealthResponse(OverallStatus(isStale, activeCount),
                   if lastPoll.Some? then Some(lastPoll.value.lastPollTime) else None,
                   age, isStale, activeCount, true)
  }

  // ---------------------------------------------------------------- summary

  /** The hosts whose reported state is `code`; a host without a state is in
      no bucket. */
  function HostsIn(hosts: seq<HostStatus>, code: int): nat
  {
    Count(hosts, (h: HostStatus) => h.currentState == Some(code))
  }

  /** The services whose reported state is `code`. */
  function ServicesIn(services: seq<ServiceStatus>, code: int): nat
  {
    Count(services, (s: ServiceStatus) => s.currentState == Some(code))
  }

  /** A host whose state is missing or is not one of the three host codes. */
  predicate UnmappedHost(h: HostStatus)
  {
    h.currentState.None? || !(0 <= h.currentState.value <= 2)
  }

  /** A service whose state is missing or is not one of the four service codes. */
  predicate UnmappedService(s: ServiceStatus)
  {
    s.currentState.None? || !(0 <= s.currentState.value <= 3)
  }

  /** The three host buckets and the unmapped hosts partition the hosts. */
  lemma {:induction false} HostCountsPartition(hosts: seq<HostStatus>)
    ensures HostsIn(hosts, 0) + HostsIn(hosts, 1) + HostsIn(hosts, 2) + Count(hosts, UnmappedHost) == |hosts|
  {
    if hosts != [] {
      HostCountsPartition(hosts[1..]);
    }
  }

  /** The four service buckets and the unmapped services partition the services. */
  lemma {:induction false} ServiceCountsPartition(services: seq<ServiceStatus>)
    ensures ServicesIn(services, 0) + ServicesIn(services, 1) + ServicesIn(services, 2) + ServicesIn(services, 3)
            + Count(services, UnmappedService) == |services|
  {
    if services != [] {
      ServiceCountsPartition(services[1..]);
    }
  }

  datatype StatusSummary = StatusSummary(
    totalHosts: nat,
    hostsUp: nat,
    hostsDown: nat,
    hostsUnreachable: nat,
    totalServices: nat,
    servicesOk: nat,
    servicesWarning: nat,
    servicesCritical: nat,
    servicesUnknown: nat,
    activeIncidents: nat,
    lastPoll: Option<int>,
    dataIsStale: bool)

  /** The status endpoint over the (already group-filtered) hosts and
      services of status.dat. */
  function GetStatus(hosts: seq<HostStatus>, services: seq<ServiceStatus>, poller: StatusPoller, now: int): (r: StatusSummary)
    reads poller, poller.tracker
    ensures r.totalHosts == |hosts| && r.totalServices == |services|
    ensures r.hostsUp + r.hostsDown + r.hostsUnreachable + Count(hosts, UnmappedHost) == r.totalHosts
    ensures r.servicesOk + r.servicesWarning + r.servicesCritical + r.servicesUnknown
            + Count(services, UnmappedService) == r.totalServices
    ensures r.hostsUp == HostsIn(hosts, 0) && r.hostsDown == HostsIn(hosts, 1) && r.hostsUnreachable == HostsIn(hosts, 2)
    ensures r.servicesOk == ServicesIn(services, 0) && r.servicesWarning == ServicesIn(services, 1)
            && r.servicesCritical == ServicesIn(services, 2) && r.servicesUnknown == ServicesIn(services, 3)
    ensures r.hostsDown == 0 <==> forall k :: 0 <= k < |hosts| ==> hosts[k].currentState != Some(1)
    ensures r.servicesCritical == 0 <==> forall k :: 0 <= k < |services| ==> services[k].currentState != Some(2)
    ensures r.activeIncidents == Count(poller.tracker.incidents, Open)
    ensures r.lastPoll.None? <==> poller.pollLog == []
    ensures r.lastPoll.Some? ==> r.lastPoll.value == poller.GetLastPoll().value.lastPollTime
    ensures r.dataIsStale == poller.IsDataStale(now)
  {
    HostCountsPartition(hosts);
    ServiceCountsPartition(services);
    var lastPoll := poller.GetLastPoll();
    StatusSummary(
      |hosts|, HostsIn(hosts, 0), HostsIn(hosts, 1), HostsIn(hosts, 2),
      |services|, ServicesIn(services, 0), ServicesIn(services, 1), ServicesIn(services, 2), ServicesIn(services, 3),
      |ActiveIncidents(poller.tracker.incidents)|,
      if lastPoll.Some? then Some(lastPoll.value.lastPollTime) else None,
      poller.IsDataStale(now))
  }

  // ---------------------------------------------------------------- host and service lists

  datatype HostView = HostView(
    hostName: string,
    currentState: int,
    stateName: string,
    pluginOutput: Option<string>,
    lastCheck: Option<int>,
    isProblem: bool)

  datatype ServiceView = ServiceView(
    hostName: string,
    serviceDescription: string,
    currentState: int,
    stateName: string,
    pluginOutput: Option<string>,
    lastCheck: Option<int>,
    isProblem: bool)

  /** A last-check timestamp of 0 (or none) is shown as no check at all. */
  function ShownCheck(lastCheck: Option<int>): (r: Option<int>)
    ensures r.None? <==> lastCheck.None? || lastCheck.value == 0
    ensures r.Some? ==> r == lastCheck
  {
    if lastCheck.Some? && lastCheck.value != 0 then lastCheck else None
  }

  /** One entry of the host list; a missing state is shown as 0 (UP). */
  function ShowHost(h: HostStatus): (v: HostView)
    ensures v.hostName == h.hostName && v.pluginOutput == h.pluginOutput
    ensures v.currentState == h.currentState.GetOr(0) && v.stateName == HostStateName(v.currentState)
    ensures v.lastCheck == ShownCheck(h.lastCheck)
    ensures h.currentState.None? ==> v.currentState == 0 && v.stateName == "UP" && !v.isProblem
    ensures v.isProblem <==> v.stateName in {"DOWN", "UNREACHABLE"}
    ensures v.isProblem <==> HostObservation(h).IsProblem()
    ensures v.lastCheck.None? <==> h.lastCheck.None? || h.lastCheck.value == 0
  {
    var code := h.currentState.GetOr(0);
    HostView(h.hostName, code, HostStateName(code), h.pluginOutput, ShownCheck(h.lastCheck), IsHostProblem(code))
  }

  /** One entry of the service list; a missing state is shown as 0 (OK). */
  function ShowService(s: ServiceStatus): (v: ServiceView)
    ensures v.hostName == s.hostName && v.serviceDescription == s.serviceDescription && v.pluginOutput == s.pluginOutput
    ensures v.currentState == s.currentState.GetOr(0) && v.stateName == ServiceStateName(v.currentState)
    ensures v.lastCheck == ShownCheck(s.lastCheck)
    ensures s.currentState.None? ==> v.currentState == 0 && v.stateName == "OK" && !v.isProblem
    ensures v.isProblem <==> 0 <= v.currentState <= 3 && v.stateName != "OK"
    ensures v.isProblem <==> ServiceObservation(s).IsProblem()
    ensures v.lastCheck.None? <==> s.lastCheck.None? || s.lastCheck.value == 0
  {
    var code := s.currentState.GetOr(0);
    ServiceView(s.hostName, s.serviceDescription, code, ServiceStateName(code), s.pluginOutput,
                ShownCheck(s.lastCheck), IsServiceProblem(code))
  }

  /** The host list, one entry per host in order. */
  function GetHosts(hosts: seq<HostStatus>): (r: seq<HostView>)
    ensures |r| == |hosts|
    ensures forall k :: 0 <= k < |r| ==> r[k] == ShowHost(hosts[k])
    ensures forall k :: 0 <= k < |r| ==> r[k].hostName == hosts[k].hostName
    ensures forall k :: 0 <= k < |r| ==> (r[k].isProblem <==> HostObservation(hosts[k]).IsProblem())
  {
    seq(|hosts|, k requires 0 <= k < |hosts| => ShowHost(hosts[k]))
  }

  /** The service list, one entry per service in order. */
  function GetServices(services: seq<ServiceStatus>): (r: seq<ServiceView>)
    ensures |r| == |services|
    ensures forall k :: 0 <= k < |r| ==> r[k] == ShowService(services[k])
    ensures forall k :: 0 <= k < |r| ==> r[k].hostName == services[k].hostName
    ensures forall k :: 0 <= k < |r| ==> r[k].serviceDescription == services[k].serviceDescription
    ensures forall k :: 0 <= k < |r| ==> (r[k].isProblem <==> ServiceObservation(services[k]).IsProblem())
  {
    seq(|services|, k requires 0 <= k < |services| => ShowService(services[k]))
  }

  predicate ProblemHost(v: HostView)
  {
    v.isProblem
  }

  predicate ProblemService(v: ServiceView)
  {
    v.isProblem
  }

  /** The host list flags exactly the hosts the summary counts as down or
      unreachable. */
  lemma {:induction false} HostListAgreesWithSummary(hosts: seq<HostStatus>)
    ensures Count(GetHosts(hosts), ProblemHost) == HostsIn(hosts, 1) + HostsIn(hosts, 2)
  {
    if hosts != [] {
      var views := GetHosts(hosts);
      HostListAgreesWithSummary(hosts[1..]);
      assert views[1..] == GetHosts(hosts[1..]);
      assert views[0] == ShowHost(hosts[0]);
      assert Count(views, ProblemHost) == (if views[0].isProblem then 1 else 0) + Count(views[1..], ProblemHost);
    }
  }

  /** The service list flags exactly the services the summary counts as
      warning, critical or unknown. */
  lemma {:induction false} ServiceListAgreesWithSummary(services: seq<ServiceStatus>)
    ensures Count(GetServices(services), ProblemService)
            == ServicesIn(services, 1) + ServicesIn(services, 2) + ServicesIn(services, 3)
  {
    if services != [] {
      var views := GetServices(services);
      ServiceListAgreesWithSummary(services[1..]);
      assert views[1..] == GetServices(services[1..]);
      assert Count(views, ProblemService) == (if views[0].isProblem then 1 else 0) + Count(views[1..], ProblemService);
      ProblemServiceBuckets(services);
    }
  }

  /** The first service adds one to the problem buckets exactly when its
      list entry is flagged. */
  lemma ProblemServiceBuckets(services: seq<ServiceStatus>)
    requires services != []
    ensures ServicesIn(services, 1) + ServicesIn(services, 2) + ServicesIn(services, 3)
            == (if ShowService(services[0]).isProblem then 1 else 0)
               + ServicesIn(services[1..], 1) + ServicesIn(services[1..], 2) + ServicesIn(services[1..], 3)
  {
  }

  /** The two endpoints read a missing state differently: the list shows
      such a host as UP, while the summary counts it in no bucket. */
  lemma MissingStateListedUpButNotCounted(h: HostStatus)
    requires h.currentState.None?
    ensures GetHosts([h])[0].stateName == "UP"
    ensures HostsIn([h], 0) + HostsIn([h], 1) + HostsIn([h], 2) == 0
  {
    HostCountsPartition([h]);
  }

  // ---------------------------------------------------------------- incidents

  /** The incident list: the open incidents, or those started within the last
      `hours` hours. */
  function GetIncidents(activeOnly: bool, hours: int, incidents: seq<Incident>, now: int): (r: seq<Incident>)
    ensures activeOnly ==> forall k :: 0 <= k < |r| ==> r[k] in incidents && r[k].IsActive()
    ensures activeOnly ==> forall k :: 0 <= k < |incidents| && incidents[k].IsActive() ==> incidents[k] in r
    ensures !activeOnly ==> forall k :: 0 <= k < |r| ==> r[k] in incidents && r[k].startedAt >= now - hours * 3600
    ensures !activeOnly ==> forall k :: 0 <= k < |incidents| && incidents[k].startedAt >= now - hours * 3600 ==> incidents[k] in r
    ensures activeOnly ==> |r| == Count(incidents, Open)
    ensures !activeOnly ==> |r| == Count(incidents, (i: Incident) => StartedSince(i, now - hours * 3600))
  {
    if activeOnly then ActiveIncidents(incidents) else RecentIncidents(incidents, now, hours)
  }

  /** The first incident at or after `from` whose id is `id`. */
  function FindIncident(s: seq<Incident>, id: int, from: nat): (r: Option<nat>)
    requires from <= |s|
    decreases |s| - from
    ensures r.Some? ==> from <= r.value < |s| && s[r.value].id == id
    ensures r.Some? ==> forall k :: from <= k < r.value ==> s[k].id != id
    ensures r.None? ==> forall k :: from <= k < |s| ==> s[k].id != id
  {
    if from == |s| then None
    else if s[from].id == id then Some(from)
    else FindIncident(s, id, from + 1)
  }

  /** A comment written through the API. */
  datatype Comment = Comment(id: nat, incidentId: int, author: string, commentText: string, createdAt: int)

  /** The comment table and the primary key it hands out next. */
  datatype CommentTable = CommentTable(rows: seq<Comment>, nextId: nat)

  /** The comments of incident `id`, in table order. */
  function CommentsOf(rows: seq<Comment>, id: int): (r: seq<Comment>)
    ensures forall k :: 0 <= k < |r| ==> r[k] in rows && r[k].incidentId == id
    ensures forall k :: 0 <= k < |rows| && rows[k].incidentId == id ==> rows[k] in r
    ensures |r| == Count(rows, (c: Comment) => c.incidentId == id)
  {
    if rows == [] then []
    else
      var front, last := rows[..|rows| - 1], rows[|rows| - 1];
      assert rows == front + [last];
      CountAppend(front, [last], (c: Comment) => c.incidentId == id);
      CommentsOf(front, id) + (if last.incidentId == id then [last] else [])
  }

  /** The status.dat comments linked to incident `id`, in table order. */
  function NagiosCommentsOf(rows: seq<NagiosComment>, id: int): (r: seq<NagiosComment>)
    ensures forall k :: 0 <= k < |r| ==> r[k] in rows && r[k].incidentId == Some(id)
    ensures forall k :: 0 <= k < |rows| && rows[k].incidentId == Some(id) ==> rows[k] in r
    ensures |r| == Count(rows, (n: NagiosComment) => n.incidentId == Some(id))
  {
    if rows == [] then []
    else
      var front, last := rows[..|rows| - 1], rows[|rows| - 1];
      assert rows == front + [last];
      CountAppend(front, [last], (n: NagiosComment) => n.incidentId == Some(id));
      NagiosCommentsOf(front, id) + (if last.incidentId == Some(id) then [last] else [])
  }

  datatype IncidentWithComments = IncidentWithComments(
    incident: Incident,
    comments: seq<Comment>,
    nagiosComments: seq<NagiosComment>)

  /** One incident with its comments; an id that matches no incident is 404.
      The linked status.dat comments are shown as status.dat comments, the
      schema the response declares for them. */
  function GetIncident(id: int, incidents: seq<Incident>, comments: CommentTable, nagiosComments: seq<NagiosComment>)
    : (r: Result<IncidentWithComments, ApiError>)
    ensures r.Failure? <==> forall k :: 0 <= k < |incidents| ==> incidents[k].id != id
    ensures r.Failure? ==> r.error == NotFound
    ensures r.Success? ==> r.value.incident in incidents && r.value.incident.id == id
    ensures r.Success? ==> r.value.comments == CommentsOf(comments.rows, id)
    ensures r.Success? ==> r.value.nagiosComments == NagiosCommentsOf(nagiosComments, id)
  {
    match FindIncident(incidents, id, 0)
    case None => Failure(NotFound)
    case Some(i) => Success(IncidentWithComments(incidents[i], CommentsOf(comments.rows, id), NagiosCommentsOf(nagiosComments, id)))
  }

  /** The incident page as written: every linked status.dat comment is
      validated against the schema of a user comment, which demands a comment
      text and a creation time that a status.dat comment row does not carry,
      so any linked status.dat comment makes validation fail and the handler
      answers 500. */
  function GetIncidentAsWritten(id: int, incidents: seq<Incident>, comments: CommentTable, nagiosComments: seq<NagiosComment>)
    : (r: Result<IncidentWithComments, ApiError>)
    ensures r.Failure? && r.error == NotFound <==> forall k :: 0 <= k < |incidents| ==> incidents[k].id != id
    ensures r.Failure? && r.error == Internal <==>
              (exists k :: 0 <= k < |incidents| && incidents[k].id == id) && NagiosCommentsOf(nagiosComments, id) != []
    ensures r.Success? ==> r == GetIncident(id, incidents, comments, nagiosComments)
  {
    match GetIncident(id, incidents, comments, nagiosComments)
    case Failure(e) => Failure(e)
    case Success(page) => if page.nagiosComments != [] then Failure(Internal) else Success(page)
  }

  /** An incident with one linked status.dat comment: the page as written is
      a 500, while the corrected page shows the incident with that comment. */
  lemma LinkedStatusCommentBreaksIncidentPage(inc: Incident, c: NagiosComment)
    requires c.incidentId == Some(inc.id)
    ensures GetIncidentAsWritten(inc.id, [inc], CommentTable([], 1), [c]) == Failure(Internal)
    ensures var page := GetIncident(inc.id, [inc], CommentTable([], 1), [c]);
            page.Success? && page.value.incident == inc && page.value.nagiosComments == [c]
  {
    assert NagiosCommentsOf([c], inc.id) == NagiosCommentsOf([], inc.id) + [c];
  }

  /** The body of a new comment. */
  datatype CommentCreate = CommentCreate(author: string, commentText: string)

  /** The author is 1 to 255 characters long and the text is not empty. */
  predicate ValidComment(body: CommentCreate)
  {
    1 <= |body.author| <= 255 && 1 <= |body.commentText|
  }

  /** Adds a comment to incident `id` at time `now`: an invalid body is 422,
      an unknown incident 404; otherwise the comment is appended with the next
      primary key and handed back with the new table. */
  function AddComment(id: int, body: CommentCreate, incidents: seq<Incident>, table: CommentTable, now: int)
    : (r: Result<(Comment, CommentTable), ApiError>)
    ensures r.Failure? && r.error == Unprocessable <==> !ValidComment(body)
    ensures r.Failure? && r.error == NotFound <==>
              ValidComment(body) && forall k :: 0 <= k < |incidents| ==> incidents[k].id != id
    ensures r.Success? ==>
              var (c, table') := r.value;
              && c == Comment(table.nextId, id, body.author, body.commentText, now)
              && table' == CommentTable(table.rows + [c], table.nextId + 1)
  {
    if !ValidComment(body) then Failure(Unprocessable)
    else if FindIncident(incidents, id, 0).None? then Failure(NotFound)
    else
      var c := Comment(table.nextId, id, body.author, body.commentText, now);
      Success((c, CommentTable(table.rows + [c], table.nextId + 1)))
  }

  /** A comment that was added is the newest comment of its incident. */
  lemma AddedCommentIsListed(id: int, body: CommentCreate, incidents: seq<Incident>, table: CommentTable,
                             nagiosComments: seq<NagiosComment>, now: int)
    requires AddComment(id, body, incidents, table, now).Success?
    ensures var (c, table') := AddComment(id, body, incidents, table, now).value;
            var shown := GetIncident(id, incidents, table', nagiosComments);
            && shown.Success?
            && shown.value.comments == CommentsOf(table.rows, id) + [c]
  {
    var (c, table') := AddComment(id, body, incidents, table, now).value;
    assert table'.rows[..|table'.rows| - 1] == table.rows;
  }

  /** The body of a post-incident review update. */
  predicate ValidReviewUrl(url: string)
  {
    1 <= |url| <= 512
  }

  /** Sets the post-incident review URL of incident `id`: an invalid URL is
      422, an unknown incident 404; otherwise only that incident's URL changes. */
  function UpdatePirUrl(id: int, url: string, incidents: seq<Incident>): (r: Result<(Incident, seq<Incident>), ApiError>)
    ensures r.Failure? && r.error == Unprocessable <==> !ValidReviewUrl(url)
    ensures r.Failure? && r.error == NotFound <==>
              ValidReviewUrl(url) && forall k :: 0 <= k < |incidents| ==> incidents[k].id != id
    ensures r.Success? ==>
              var (updated, incidents') := r.value;
              exists i :: 0 <= i < |incidents| && incidents[i].id == id
                && (forall k :: 0 <= k < i ==> incidents[k].id != id)
                && updated == incidents[i].(postIncidentReviewUrl := Some(url))
                && incidents' == incidents[i := updated]
  {
    if !ValidReviewUrl(url) then Failure(Unprocessable)
    else match FindIncident(incidents, id, 0)
      case None => Failure(NotFound)
      case Some(i) =>
        var updated := incidents[i].(postIncidentReviewUrl := Some(url));
        Success((updated, incidents[i := updated]))
  }

  /** Setting the review URL keeps the incident table well formed and the
      same URL twice changes nothing more. */
  lemma UpdatePirUrlPreservesWellFormed(id: int, url: string, st: TrackerState)
    requires WellFormed(st) && UpdatePirUrl(id, url, st.incidents).Success?
    ensures var (_, incidents') := UpdatePirUrl(id, url, st.incidents).value;
            && WellFormed(TrackerState(incidents', st.nextId))
            && UpdatePirUrl(id, url, incidents').Success?
            && UpdatePirUrl(id, url, incidents').value.1 == incidents'
  {
    var i := FindIncident(st.incidents, id, 0).value;
    var s := st.incidents;
    var (updated, s') := UpdatePirUrl(id, url, s).value;
    assert s' == s[i := updated];
    forall k | 0 <= k < |s'| ensures SoundAt(s', st.nextId, k) {
      assert SoundAt(s, st.nextId, k);
    }
    forall j, k | 0 <= j < k < |s'| ensures ApartAt(s', j, k) {
      assert ApartAt(s, j, k);
    }
    assert s'[i].id == id;
    assert forall k :: 0 <= k < i ==> s'[k].id != id;
    assert FindIncident(s', id, 0) == Some(i);
  }
}
