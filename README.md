# Nagios public status page: poll-and-incident engine

A Dafny model of the engine behind the Nagios public status page. It has
three parts.

- **The incident tracker** (module `Incidents`, class `Tracker.IncidentTracker`)
  keeps one incident record per outage of a host or of a service on a host.
  Each status.dat reading of an entity is reconciled against the store:
  - a problem state with no open incident opens one;
  - a problem that persists refreshes the same incident in place;
  - a recovery closes the incident (`ended_at` is set);
  - a healthy entity without an open incident is a no-op.

  The store's invariant is proved preserved by every operation. Ids are
  positive, distinct and below the next key, at most one incident per entity
  is open, and closed intervals are ordered. The last part holds only while
  the clock never reads earlier than a stored start time (see "## Left out"). The store also answers the
  active and recent queries and applies retention cleanup. The
  state-name and problem-state maps live in module `StateCodes`.
- **The status poller** (class `Poller.StatusPoller`, with the result record
  `Poller.PollResults`) runs one poll cycle:
  - a missing or unreadable status.dat ends the cycle with one error;
  - stale data adds a warning and the cycle goes on;
  - every host and then every service is handed to the tracker, and the
    returned incident is classified into the created / updated / closed
    counters;
  - status.dat comments are linked to the matching open incident;
  - a poll-metadata row is recorded and retention runs;
  - an exception from the parser other than a missing or unreadable file
    ends the cycle with one error;
  - an exception at a modelled point (an entity, a comment, the commit, the
    cleanup) stops the cycle there with one more error entry.

  `Start` and `Stop` guard the running flag, and `IsDataStale` is the
  threshold test on the last recorded poll.
- **The API's read side and its incident endpoints** (module `Routes`):
  - health, with its healthy / stale / degraded precedence;
  - the status summary counts;
  - the host and service lists;
  - the incident list;
  - one incident with its comments;
  - adding a comment;
  - setting the post-incident review URL, where a request body that fails
    validation is 422 and an unknown incident id is 404.

Time is an integer number of seconds passed in as a parameter. Database
tables are sequences, in insertion order.

The IncidentTracker source file (`status_page/collector/incident_tracker.py`)
is not part of this model. Its behaviour is taken from its tests. Its
state-name and problem maps are taken to be those of the API: the tests pin
host 0/1 and service 0/1/2, and the rest follows the routes' maps.

## Model

| member | source | states |
|---|---|---|
| StateCodes.HostStateName | src/status_page/api/routes.py:170-176 | 0, 1 and 2 are UP, DOWN and UNREACHABLE, and any other code is UNKNOWN; each named code parses back to itself |
| StateCodes.ServiceStateName | src/status_page/api/routes.py:207-214 | 0..3 are OK, WARNING, CRITICAL and UNKNOWN, and any other code is UNKNOWN too; codes 0..3 parse back to themselves |
| StateCodes.IsHostProblem | src/status_page/api/routes.py:179 | a host is a problem iff its state name is DOWN or UNREACHABLE |
| StateCodes.IsServiceProblem | src/status_page/api/routes.py:217 | a service is a problem iff its code is in 0..3 and its name is not OK, so an unmapped code shown as UNKNOWN is not a problem |
| StateCodes.StateName | tests/test_incident_tracker.py:283-289 | the tracker's names: host 0 is UP and 1 is DOWN; service 0 is OK, 1 is WARNING and 2 is CRITICAL (each in both directions) |
| StateCodes.IsProblemState | tests/test_incident_tracker.py:292-298 | state 0 is never a problem; a host code is a problem iff its name is DOWN or UNREACHABLE, and a service code iff it is in 0..3 and not named OK |
| Incidents.FindOpen | tests/test_incident_tracker.py:49-67 | the first open incident of the entity, with none before it; None iff the entity has no open incident |
| Incidents.OpenIncidentUnique | tests/test_incident_tracker.py:49-67 | in a well-formed store two open incidents of one entity are the same incident |
| Incidents.Reconcile | tests/test_incident_tracker.py:30-140 | an incident is handed back iff something changed, and it is the entity's; creation happens iff the entity is a problem with no open incident; a closure happens only for a healthy entity and ends the incident at the time of the reading |
| Incidents.ReconcileSpec | tests/test_incident_tracker.py:30-140 | case by case: an incident is returned iff something changed, and it carries the entity's key, state name, output and last check; it is open iff the entity is a problem; a no-op happens iff the entity is healthy with nothing open, and leaves the store unchanged; creation happens iff it is a problem with nothing open, and appends an incident with a fresh id started now; update and close keep the id, start time and slot, and close ends the incident now |
| Incidents.ReconcilePreservesWellFormed | tests/test_incident_tracker.py:49-89 | reconciling keeps the store invariant: distinct ids below the next key, at most one open incident per entity, and closed intervals ordered |
| Incidents.ReconcileTwice | tests/test_incident_tracker.py:49-67 | reconciling the same reading twice opens nothing: a problem refreshes the same incident id, and a healthy entity is a no-op |
| Incidents.HostIncidentLifecycle | tests/test_incident_tracker.py:30-89 | DOWN opens an active host incident named DOWN; DOWN again updates the same id with the new output; UP closes the same id with `endedAt` set to the time of the reading |
| Incidents.ReconcileAllAppend | src/status_page/collector/poller.py:109-147 | reconciling the hosts and then the services is one run over both, in order |
| Incidents.ReconcileAllPreservesWellFormed | src/status_page/collector/poller.py:109-147 | a whole cycle of readings keeps the store invariant |
| Incidents.ActiveIncidents | tests/test_incident_tracker.py:143-166 | exactly the stored incidents without `endedAt`; the count is the number of open incidents |
| Incidents.BackwardClockUnordersInterval | tests/test_incident_tracker.py:68-89 | an incident opened at `t1` and closed by a reading at an earlier `t2` ends before it starts, and the store stops being well formed |
| Incidents.ActiveAfterThreeOpenedOneResolved | tests/test_incident_tracker.py:143-166 | three hosts go DOWN and one recovers: exactly two incidents are active, namely all but the recovered one |
| Incidents.RecentIncidents | tests/test_incident_tracker.py:169-195 | exactly the stored incidents that started within the last `hours` hours; the count is the number of such incidents |
| Incidents.RecentExcludesOldIncident | tests/test_incident_tracker.py:169-195 | with an incident closed 47 hours ago that started 48 hours ago, and a new DOWN host, the 24-hour window holds exactly one incident, the new host's |
| Incidents.Retained | tests/test_incident_tracker.py:247-280 | keeps exactly the incidents that are open or ended at or after the cutoff; the number dropped is the number of expired incidents |
| Incidents.RetainedPreservesWellFormed | tests/test_incident_tracker.py:247-280 | retention keeps the store invariant |
| Incidents.CommentKey | src/status_page/collector/poller.py:153-180 | a comment with a non-empty service description is about that service, and any other comment is about the host |
| Incidents.MatchOpenIncident | src/status_page/collector/poller.py:156-180 | the matched incident is an open incident of the comment's entity; None iff there is none |
| Incidents.LinkComment | tests/test_incident_tracker.py:198-244 | the stored comment copies host, service description, entry time, author and text, and is linked to the incident's id iff an incident is given |
| Tracker.IncidentTracker.ProcessHost | tests/test_incident_tracker.py:30-89 | the store becomes the reconciliation of the host's reading, the returned incident is the one reconciliation hands back, and the invariant is kept |
| Tracker.IncidentTracker.ProcessService | tests/test_incident_tracker.py:92-140 | the same for a service reading |
| Tracker.IncidentTracker.GetActiveIncidents | tests/test_incident_tracker.py:143-166 | returns exactly the stored incidents without `endedAt`, as many as are open, and the store is unchanged |
| Tracker.IncidentTracker.GetRecentIncidents | tests/test_incident_tracker.py:169-195 | returns exactly the stored incidents started within the look-back window, as many as there are such incidents |
| Tracker.IncidentTracker.CleanupOldIncidents | tests/test_incident_tracker.py:247-280 | deletes exactly the closed incidents that ended before the cutoff; the count returned is the number deleted; the invariant, the next key and the comment table are kept |
| Tracker.IncidentTracker.ProcessNagiosComment | tests/test_incident_tracker.py:198-244 | appends the comment, linked to the given incident, and returns it |
| Poller.Classify | src/status_page/collector/poller.py:113-119 | no change iff no incident; closed iff the incident has ended; updated iff it is open, has an id and started before the reference; created otherwise. Its partner `ClassifyMatchesReconcile` proves it reads back the tracker's change |
| Poller.ClassifyMatchesReconcile | src/status_page/collector/poller.py:113-119 | against the poll's start, when the entity's stored incidents predate it, the classification equals the change the tracker made |
| Poller.PollResults.constructor | src/status_page/collector/poller.py:67-76 | a fresh result record carries the poll's timestamp, every counter starts at 0 and the error list is empty |
| Poller.PollResults.Record | src/status_page/collector/poller.py:113-119 | moves exactly the counter of the classification against the poll's timestamp: closed if ended, otherwise updated if it has an id and started earlier, otherwise created; no incident moves nothing |
| Poller.TallyBounded | src/status_page/collector/poller.py:109-147 | every returned incident moves exactly one counter and a `None` moves none, so created + updated + closed + untouched = entities handed over |
| Poller.CountersWithinProcessed | src/status_page/collector/poller.py:109-147 | created + updated + closed is at most hosts processed + services processed |
| Poller.TallyCountsChanges | src/status_page/collector/poller.py:109-147 | when stored incidents predate the poll and no entity repeats, classifying against the poll's timestamp recovers exactly the change the tracker made for each entity, so the counters count creations, updates and closures |
| Poller.FreshReadingCountsNewIncidentAsUpdated | src/status_page/collector/poller.py:116 | classified against a clock reading taken after the tracker call, a newly created incident counts as updated |
| Poller.FreshReadingNeverCountsCreated | src/status_page/collector/poller.py:109-147 | over a whole run, classified against a clock reading taken after the tracker stamped its incidents, the created counter stays 0 |
| Poller.ParseError | src/status_page/collector/poller.py:79-90 | a missing file, an unreadable file and any other parser exception each give their own error entry |
| Poller.EntitiesRunIsOneRun | src/status_page/collector/poller.py:109-147 | the entities a cycle reaches are the hosts before the fault, then the services, in one run |
| Poller.RecordedRows | src/status_page/collector/poller.py:187-193 | one metadata row, with `lastPollTime` now, `statusDatMtime` the file's mtime or else now, and `recordsProcessed` = hosts + services processed; it is recorded iff no fault strikes before the commit |
| Poller.LastPoll | src/status_page/collector/poller.py:256-270 | None iff no poll is recorded; otherwise a recorded row with the latest poll time |
| Poller.StatusPoller.constructor | src/status_page/collector/poller.py:38-49 | a new poller is not running and has no open session; it works on the database it is given, keeping its incident tables and its existing poll-metadata rows, and keeps its configuration |
| Poller.StatusPoller.IsDataStale | src/status_page/collector/poller.py:272-283 | stale when no poll is recorded; otherwise stale iff the last poll is strictly older than the threshold |
| Poller.StatusPoller.Handle | src/status_page/collector/poller.py:109-119 | one entity: the store takes one reconciliation step and the counters grow by that step's classification |
| Poller.StatusPoller.ProcessHosts | src/status_page/collector/poller.py:109-119 | the hosts before the fault are reconciled in order; `hostsProcessed` is their number and the counters are their tally |
| Poller.StatusPoller.ProcessServices | src/status_page/collector/poller.py:137-147 | the same for the services |
| Poller.StatusPoller.ProcessComments | src/status_page/collector/poller.py:150-184 | the comments before the fault are stored in order, each linked to the first open incident of its entity, and counted |
| Poller.StatusPoller.ProcessEntities | src/status_page/collector/poller.py:109-147 | all hosts, then (if no fault struck) all services, as one run of the store; processed counts and tallies agree |
| Poller.StatusPoller.Conclude | src/status_page/collector/poller.py:149-218 | comments (if enabled), the metadata row unless a fault strikes first, retention after a clean commit, and one error entry iff a fault struck |
| Poller.StatusPoller.CommentPhase | src/status_page/collector/poller.py:149-184 | comments are stored only when the entities completed and comments are pulled, up to a comment fault; reports a fault iff one struck before the commit |
| Poller.StatusPoller.Commit | src/status_page/collector/poller.py:186-199 | the metadata row with the file's mtime (or now) is recorded unless the fault strikes at the commit; retention then deletes the expired incidents unless the fault strikes in cleanup; reports whether a fault struck |
| Poller.StatusPoller.RunCycle | src/status_page/collector/poller.py:93-208 | over a parsed snapshot: the stale warning first, then the entities as one run and tallied against the poll's timestamp, then comments, the metadata row and retention, and one error entry iff a fault struck |
| Poller.StatusPoller.Poll | src/status_page/collector/poller.py:59-218 | a missing file, an unreadable file or another parser exception gives exactly its one error, zero counters, no metadata row and an unchanged store; otherwise the stale warning comes first, the store is the run over the entities reached, the counters are their tally against the poll's timestamp, comments and the metadata row follow, and one error is added iff a fault struck; the session count is unchanged |
| Poller.StatusPoller.Start | src/status_page/collector/poller.py:220-244 | a running poller is left alone, with store, comments and metadata unchanged; otherwise the tables change exactly as one poll changes them (`CycleApplied`: the run over the entities reached, the comments, the metadata row and retention) and the poller is running |
| Poller.StatusPoller.Stop | src/status_page/collector/poller.py:246-254 | afterwards the poller is not running, and nothing else changes |
| Routes.ApiError.Status | src/status_page/api/routes.py:271-284 | 422 iff a request body fails validation, 404 iff the incident is unknown, 500 iff the handler failed inside |
| Routes.OverallStatus | src/status_page/api/routes.py:71-75 | degraded iff an incident is active, whatever the staleness; stale iff stale with none active; healthy otherwise |
| Routes.HealthCheck | src/status_page/api/routes.py:54-84 | the age is None iff there is no last poll or it has no mtime, and otherwise is now minus the mtime; the last poll time is the latest recorded; the stale flag is the poller's; the active count is the number of open incidents; degraded iff one is open |
| Routes.HostCountsPartition | src/status_page/api/routes.py:113-115 | up + down + unreachable + hosts with an unmapped state = all hosts |
| Routes.ServiceCountsPartition | src/status_page/api/routes.py:118-121 | ok + warning + critical + unknown + services with an unmapped state = all services |
| Routes.GetStatus | src/status_page/api/routes.py:103-145 | totals are the list lengths; each bucket is the number of hosts (services) with that state, and the buckets partition the mapped ones; no host is down iff none has state 1, and no service is critical iff none has state 2; the active count and staleness are as in the health check, and the last poll is the latest recorded poll time |
| Routes.ShowHost | src/status_page/api/routes.py:172-181 | name copied; the code is the host's state or 0 when missing, and the state name is that code's name; a missing state shows as 0 / UP and is not a problem; flagged as a problem iff the name is DOWN or UNREACHABLE, which is iff the tracker sees a problem; last check is None iff missing or 0 |
| Routes.ShowService | src/status_page/api/routes.py:209-219 | the same for services, with host, description and plugin output copied, where a problem is a code in 1..3 |
| Routes.GetHosts | src/status_page/api/routes.py:170-182 | one entry per host, in order, each the host shown as `ShowHost` shows it |
| Routes.GetServices | src/status_page/api/routes.py:207-220 | one entry per service, in order, each shown as `ShowService` shows it |
| Routes.HostListAgreesWithSummary | src/status_page/api/routes.py:113-115 | the hosts flagged in the list are exactly those the summary counts as down or unreachable |
| Routes.ServiceListAgreesWithSummary | src/status_page/api/routes.py:118-121 | the services flagged in the list are exactly those counted as warning, critical or unknown |
| Routes.MissingStateListedUpButNotCounted | src/status_page/api/routes.py:113-115 | a host without a state is listed as UP but falls in none of the summary buckets |
| Routes.GetIncidents | src/status_page/api/routes.py:244-249 | `active_only` lists exactly the open incidents, as many as are open; otherwise exactly those started within `hours` hours, as many as there are |
| Routes.FindIncident | src/status_page/api/routes.py:269 | the first incident with the id; None iff no incident has it |
| Routes.CommentsOf | src/status_page/api/routes.py:276 | exactly the comment rows of the incident: every result row is one of them, every one of them is in the result, and there are as many as the table holds |
| Routes.NagiosCommentsOf | src/status_page/api/routes.py:277 | the same for the status.dat comments linked to the incident |
| Routes.GetIncident | src/status_page/api/routes.py:268-280 | corrected: 404 iff no incident has the id; otherwise that incident, with exactly its comments and its linked status.dat comments (shown with the status.dat comment schema the response declares), in table order, each list as long as the number of matching rows |
| Routes.GetIncidentAsWritten | src/status_page/api/routes.py:268-284 | as written: 404 iff no incident has the id; 500 iff it exists and has a linked status.dat comment, which fails validation as a user comment; otherwise the same page as the corrected handler |
| Routes.LinkedStatusCommentBreaksIncidentPage | src/status_page/api/routes.py:277 | an incident with one linked status.dat comment: the page as written is a 500, the corrected page shows the incident with that comment |
| Routes.AddComment | src/status_page/api/routes.py:306-323 | 422 iff the author is not 1..255 characters or the text is empty; 404 iff the body is valid and the incident is unknown; otherwise the comment gets the next key and the request time, and is appended |
| Routes.AddedCommentIsListed | src/status_page/api/routes.py:306-323 | after a successful add, the incident's comments are the earlier ones followed by the new comment |
| Routes.UpdatePirUrl | src/status_page/api/routes.py:352-363 | 422 iff the URL is not 1..512 characters; 404 iff it is valid and the incident is unknown; otherwise only the first incident with the id changes, and only its review URL |
| Routes.UpdatePirUrlPreservesWellFormed | src/status_page/api/routes.py:352-363 | setting the review URL keeps the store invariant; setting it again succeeds and changes nothing |

## Left out

- Threading and the scheduler: APScheduler, its interval job and `shutdown(wait=True)` are not modelled; `Start` runs the first poll and sets the flag, and `Stop` clears it.
- Sessions and persistence: SQLAlchemy sessions, queries, commits and rollbacks are not modelled. Tables are in-memory sequences, and an open session is a counter that `Poll` returns to its starting value.
- FastAPI plumbing: routing, `Depends` and response models are not modelled, nor are the 500 answers a handler gives when a database call fails inside it; the one 500 that follows from the code itself is under "## Findings".
- The status.dat parser is not modelled: it is a parameter (`ParseOutcome`), and its host and service lists arrive already filtered by hostgroup, servicegroup or explicit lists.
- The clock: `datetime.now()` becomes integer parameters. `start` is the results' timestamp and `now` is the reading the tracker and the metadata row use. Float ages (`total_seconds()`) are whole seconds.
- A clock that steps backwards: the source takes whatever `datetime.now()` returns, but the model assumes the reading is never earlier than a stored incident's start time (`Incidents.StartedBy`). `Tracker.IncidentTracker.ProcessHost`, `Tracker.IncidentTracker.ProcessService`, `Poller.StatusPoller.Poll` and `Poller.StatusPoller.Start` require it. The ordered-interval part of the store's invariant rests on it. `Incidents.BackwardClockUnordersInterval` shows that without it a closed incident can end before it started.
- Exceptions: an unexpected exception is a `Fault` parameter naming where it strikes. The error message text is the `PollError` constructor, not a string.
- `Poller.PollResults.Record`: like `Poller.StatusPoller.RunCycle` and `Poller.StatusPoller.Poll`, it classifies against the poll's start timestamp, the corrected behaviour under "## Findings", not against the fresh `datetime.now()` of poller.py:116 and 144; `Poller.FreshReadingCountsNewIncidentAsUpdated` and `Poller.FreshReadingNeverCountsCreated` state what the code as written counts.
- `Tracker.IncidentTracker.ProcessNagiosComment`: the comment is always stored and returned, so the `if nagios_comment` guard of poller.py:183 never skips the count; a tracker that refuses or de-duplicates a comment is not modelled, because the tracker's source file is not part of this model.
- `Poller.StatusPoller.Poll`: an exception raised by `get_hosts`, `get_services` or `get_comments` is represented by a fault at the first entity of that list, so it is only expressible when that list is non-empty; an exception inside the stale check is folded into `ParseFailed`, and one at a logging call is not modelled.
- `Poller.StatusPoller.Start`: the recurring polls the scheduler would run later are not modelled.
- Comment ordering: the comments of an incident come in table order; the ORM relationship's order is not modelled.
- Validation: pydantic's length checks count code points, and a Dafny `char` is a Unicode scalar value, so the `seq<char>` lengths of `ValidComment` and `ValidReviewUrl` agree with them; a string holding a lone surrogate, which a `char` cannot hold, is not modelled.
- The supervisor that restarts a failing poller is not part of this model.
- RSS feeds, database migrations, favicon generation and the application startup in `main.py` are not part of this model.

## Findings

| source | as written | input that shows it | evidently intended | confidence | as-written member | corrected member |
|---|---|---|---|---|---|---|
| src/status_page/collector/poller.py:116 (and 144) | an incident with an id that started before a fresh `datetime.now()`, read after the tracker call, is counted as updated | a DOWN host with no open incident: the tracker creates and stamps an incident before the poller reads the clock again | compare with the poll's start timestamp (line 68), so that a newly created incident counts as created | not executed | Poller.FreshReadingCountsNewIncidentAsUpdated | Poller.TallyCountsChanges |
| src/status_page/api/routes.py:277 | each linked status.dat comment is validated with `CommentResponse`, which demands `comment_text` and `created_at` (src/status_page/api/schemas.py:30-37); a status.dat comment row has `comment_data` and `entry_time` instead (src/status_page/api/schemas.py:58-67), so validation fails and the handler answers 500 (routes.py:281-284) | any incident with a status.dat comment linked to it, which every poll with comment pulling produces | validate with `NagiosCommentResponse`, the type `IncidentWithComments` declares for `nagios_comments` (src/status_page/api/schemas.py:145) | not executed; the ORM models are not part of this model, so the row attributes are read from the tests and the schemas | Routes.GetIncidentAsWritten | Routes.GetIncident |
