# A verified model of the telemetry backend

This project models the stateful core of the telemetry backend in Dafny and proves what its pieces promise to
each other: that live memory, background writers and database agree; that ingestion is exactly-once; that the
dependency graph stays acyclic and is searched correctly; and what the detector, the webhook worker, the rate
limiter and the clean-up loops compute.

## How the model is built

Every stateful object of the program is a class here (`TelemetryManager`, `AlertRuleEngine`, `AnomalyDetector`,
`Engine` for the incident engine, the two persistence workers, `SyntheticMonitor`, `HostCollector`,
`TelemetryTable`, `ServiceRegistry`, `NotificationDispatcher`, `SlidingWindowRateLimiter`, `TelemetryRetention`,
`TelemetryPersistence`), with the fields the program keeps and loops where the program has loops. Where a whole
run matters, the methods are proved equal to functions on values, and the properties of runs are proved about those
functions; where one call matters, the method's contract states the property itself.

- *Alerts to database.* `Rules`, `RuleEngine`, `Thresholds`, `Anomaly`, `Detector`, `Incidents`, `Sessions`,
  `Persistence`, `Workers`, `IncidentEngine`, `Pipeline`, `Notices`, `Manager`, `Live`, `Coherence`, `Evaluation`,
  `Reloads`, `Runs`, `Lifetimes`, `LostAlerts`, `RuleTable`, `Blocked`, `Synthetic`; and what the results of runs say, in
  terms of their inputs: `Episodes` and `RuleAlerts` (alerts), `IncidentHistory` (incidents), `RowHistory` (rows), the last
  two by way of `Operations`. Manager steps, reloads and acknowledgements included, happen one after the other; worker
  turns, failing or not, and deletions of rules, hosts and services are interleaved arbitrarily with them.
- *Ingestion.* `Agent`, `Ingestion`, `Delivered`, `ExactlyOnce`, `Endings`, `IngestApi`. The SELECT in front of the
  INSERT is a step of its own, requests and replies can be lost, delayed and repeated, and other writers and deletions
  interfere.
- *Dependencies.* `Graphs`, `Topology`, `Impacts`, with explicit paths as the reference.
- *Delivery, limits, clean-up.* `Delivery`, `PostedAgain`, `RateLimit`, `Retention`, `TelemetryQueue`.

Identifiers are natural numbers drawn from a supply that never repeats (for `uuid4`), string keys such as
`rule:{id}:{host}` are pairs, a missing host stands for the key "system", times and measurements are exact reals,
tables are maps and sets with their unique constraints as keys. The clock, random identifiers, HTTP outcomes, database
failures and the order in which queries return rows are parameters.

## Where a promise needs a condition, and exactly which

- *Active alerts, rule engine and incidents agree* in every run whose reloads read and load their rows in one step,
  whatever rules are created, changed, disabled and deleted (`RuleTable.AgreementFromTheTable`), and *a reload of unchanged
  rules is unobservable* anywhere in such a run (`Lifetimes.ReloadIsUnobservable`). It is enough that reloads load their
  rows in the order in which they read them, because then a deleted rule never comes back (`RuleTable.NoRuleReturns`). A
  handler on a worker thread whose reload stalls between its query and loading the rows can bring one back, and
  `RuleTable.AStalledReloadLosesTheAgreement` is such a run. Over arbitrary inputs, every open alert has a key throughout
  the run exactly if every reload is safe (`Runs.AlwaysCompleteIffSafe`), and a reload is unobservable exactly if the
  500-entry deque still holds every open alert that the engine knows although its rule is not loaded
  (`Runs.ReloadIsUnobservableIff`).
- *The background writers catch up* after a run without dropped alerts exactly if every rule, host and service that a
  waiting event refers to still exists (`Runs.RunDrains`), and so always while nothing is deleted
  (`Blocked.RunDrainsWithoutDeletions`). A write that refers to something deleted is refused by a foreign key each time, and
  everything behind it waits for ever (`Blocked.BlockedForEver`): after the deletion of a rule whose alert event still waits
  (`Blocked.DeletedWhileQueued`), and after the acknowledgement of an open alert whose rule was deleted
  (`Blocked.AcknowledgedAfterDeletion`).
- *Hydration rebuilds the engine's dictionaries* exactly if no incident's host or service was deleted; otherwise those
  incidents come back without it (`Pipeline.DrainThenHydrate`).
- *Attempts equal POSTs* after a history exactly if no delivery of it died after an attempt was counted and before its
  POST (`Delivery.HistoryAttemptsArePostsIff`, input `Delivery.AnAttemptWithoutPost`).
- *A successful POST is not repeated* exactly if its success was recorded: a delivery can be posted again exactly if it is
  neither delivered nor gone with its channel (`PostedAgain.CanBePostedIffOpen`), and after its attempts exactly if they did
  not end in a recorded success (`PostedAgain.PostedAgainIffNotRecorded`). A death after the POST is repeated by the next
  restore (`PostedAgain.ARestorePostsAgain`), a success that could not be stored by a manual retry
  (`PostedAgain.ARetryPostsAgain`).
- *A rule without duration and cooldown has an open alert exactly while its condition holds*, as long as the host's last
  sample is not older than its others (`Thresholds.OpenIffViolated`). In general it needs a violating sample in that run
  that is not older than the start of the run and the pair's last alert (`Thresholds.EngineOpenIffFresh`); an older sample
  does not open one (`Thresholds.OldSampleDoesNotOpen`).
- *A manual retry that is not queued leaves the row failed* except when the queue is full: the branch that reports the
  full queue uses an undefined name and raises, after the row has become pending and before it could be set back
  (`Delivery.NotificationDispatcher.RetryDelivery`, input `PostedAgain.RetryAgainstAFullQueue`). For the same reason a
  restore stops at the first job that does not fit.
- *Exactly once* needs the row to stay: deleting it while a retry of its sample is under way lets the sample be accepted
  and handed on again (`ExactlyOnce.DeletedRowIsAcceptedAgain`). The number of acceptances of a collected sample is exact:
  deletions of its row, plus one if the row is there, less the insertions by other writers; so it is accepted at most once
  exactly if that number is at most one (`ExactlyOnce.AcceptancesAreCounted`). Accepted samples are handed on unless the
  handler ends first; what is left over is exactly `Delivered.Unhanded`.
- *The agent keeps every sample* as long as it lives; once it has ended, for whatever reason, exactly the samples of its last buffer that were
  never stored are lost (`ExactlyOnce.NoSampleIsLost`). Against a server that otherwise succeeds or answers that it is busy,
  a flush ends the agent exactly if a request gets through with more than 250 samples in the buffer
  (`Endings.FlushRaisesIffOversized`, over runs `Endings.AgentsEndIffOversized`); `Endings.OutageEndsTheAgent` is an outage
  during which the buffer grows to 251 samples, all of them lost.
- *Acyclic dependencies* hold for requests one after the other. Two requests that both pass the check before either
  inserts close a cycle exactly if each edge's source is reachable from the other's target
  (`Graphs.TwoEdgesCloseACycle`, `Topology.ServiceRegistry.AddTwo`, inputs `Topology.OppositeInsertionsClose`). A service
  deleted between the two does no harm (`Topology.ServiceRegistry.AddWhileDeleting`).
- The class comment of the rate limiter speaks of fixed windows; the code, and the model, use a sliding one.

## Model

| member | source | states |
|---|---|---|
| `Rules.StateIsHistory` | app/services/alert_rule_engine.py:110-185 | `condition_since` is the time of the first event of the trailing matching run, `last_fired_at` that of the latest fire, and an alert is active exactly if it was created in a run of matches that has not ended |
| `Rules.TransitionsAreHistory` | app/services/alert_rule_engine.py:126-183 | an alert is created exactly at the events where the history demands it, and resolved with the same identifier exactly at the first later miss |
| `Rules.FiresAreSpaced` | app/services/alert_rule_engine.py:135-141 | two fires of a pair are at least a cooldown apart, however the timestamps are ordered |
| `Rules.ClearedBetweenFires` | app/services/alert_rule_engine.py:141-183 | between two fires of a pair the first alert is resolved |
| `RuleEngine.AlertRuleEngine.LoadRules` | app/services/alert_rule_engine.py:50-71 | keeps the rows whose metric is known, in order, and only the states of loaded rules |
| `RuleEngine.AlertRuleEngine.HydrateActiveAlerts` | app/services/alert_rule_engine.py:73-84 | each rule alert overwrites its pair's state with its own time and identifier, later ones winning |
| `RuleEngine.AlertRuleEngine.EvaluateOne` | app/services/alert_rule_engine.py:117-183 | one rule's turn of the loop: state, counters, identifier supply and transition |
| `RuleEngine.AlertRuleEngine.Evaluate` | app/services/alert_rule_engine.py:110-185 | every enabled rule in order: states, counters and the list of transitions |
| `RuleEngine.EachPairIsItsOwnMachine` | app/services/alert_rule_engine.py:110-185 | in any run each enabled (rule, host) pair has the state and transitions of a machine that only sees that host's events |
| `RuleEngine.NonInterference` | app/services/alert_rule_engine.py:110-185 | a pair's transitions are, up to alert identifiers, those of an engine with that rule alone and that host's events alone |
| `RuleEngine.PairsAlternate` | app/services/alert_rule_engine.py:141-183 | for every pair creations and resolutions alternate and name the same alert |
| `RuleEngine.FiresAreConserved` | app/services/alert_rule_engine.py:110-185 | fires minus resolutions is the number of states with an active alert |
| `RuleEngine.CountersAreExact` | app/services/alert_rule_engine.py:110-185 | one evaluation per event and enabled rule; fires and resolutions count the alerts created and cleared |
| `Thresholds.OpenIffViolated` | app/services/alert_rule_engine.py:27-36 | without duration and cooldown, after any stream whose last sample of the host is not older than its others, the pair has an open alert exactly if that sample is >, >=, <, <= the threshold as its operator says, and never for an unknown operator |
| `Thresholds.EngineOpenIffFresh` | app/services/alert_rule_engine.py:110-185 | whatever the order of the timestamps, exactly if the last sample violates and its run of violations has a sample not older than the start of the run and the pair's last alert |
| `Thresholds.OpenOnlyIfViolated` | app/services/alert_rule_engine.py:110-185 | whatever duration and cooldown, the last sample of a pair with an open alert is on the named side of the threshold |
| `Thresholds.OldSampleDoesNotOpen` | app/services/alert_rule_engine.py:135-141 | a concrete violating sample, older than the pair's last alert, that opens none |
| `Thresholds.TransitionsReportSamples` | app/services/alert_rule_engine.py:141-183 | every created alert carries a sample on the named side of its rule's threshold and every cleared one a sample that is not, with its time, host and value, the threshold and the rule's severity |
| `Anomaly.ExceedsIsTheZScore` | app/services/anomaly_detector.py:105-109 | comparing squares decides exactly whether the absolute z-score exceeds the threshold |
| `Anomaly.JudgeSays` | app/services/anomaly_detector.py:75-125 | a verdict reports the sample and the window's mean; it is flagged exactly if the sample is more than the threshold of standard deviations away, CRITICAL if more than twice that |
| `Anomaly.CauchySchwarz` | app/services/anomaly_detector.py:88-89 | the squared sum of deviations is at most the number of samples times the sum of squared deviations |
| `Anomaly.SelfInclusion` | app/services/anomaly_detector.py:73-89 | the squared deviation of a sample judged in a window that contains it is at most (n - 1) times the population variance |
| `Anomaly.FlagNeedsHistory` | app/services/anomaly_detector.py:75-114 | a flag implies n > threshold² + 1, a CRITICAL one n > 4·threshold² + 1 |
| `Anomaly.FlagIsPossibleIff` | app/services/anomaly_detector.py:75-114 | some window of n samples is flagged exactly if n reaches the minimum history and n > threshold² + 1 |
| `Anomaly.CriticalIsPossibleIff` | app/services/anomaly_detector.py:75-114 | some window of n samples is flagged CRITICAL exactly if n reaches the minimum history and n > 4·threshold² + 1 |
| `Anomaly.VarianceIsZeroIffConstant` | app/services/anomaly_detector.py:88-103 | the no-variance branch is taken exactly on constant windows |
| `Anomaly.VerdictIsAffineInvariant` | app/services/anomaly_detector.py:88-114 | flag and severity do not change under x → a·x + b with a ≠ 0 |
| `Detector.AnomalyDetector.Update` | app/services/anomaly_detector.py:57-127 | all metrics of one event: new deques and verdicts |
| `Detector.AnomalyDetector.UpdateEach` | app/services/anomaly_detector.py:69-125 | the loop over metrics: append, drop beyond the window, judge |
| `Detector.HistoryIsTheRecentPast` | app/services/anomaly_detector.py:69-74 | after any interleaved stream each deque is the last min(window, count) values of its host's sub-stream |
| `Detector.VerdictIsOnTheRecentPast` | app/services/anomaly_detector.py:57-127 | every verdict judges the recent past of its own host and metric, the sample included |
| `Detector.FlagsNeedALargeWindow` | app/services/anomaly_detector.py:46-114 | a detector whose window is at most threshold² + 1 never flags, and up to 4·threshold² + 1 never flags CRITICAL, on any stream |
| `Detector.DetectorCanFlagIff` | app/services/anomaly_detector.py:46-114 | a configuration flags some sample of some stream exactly if its window reaches the minimum history and exceeds threshold² + 1, and flags one CRITICAL exactly if it exceeds 4·threshold² + 1 as well |
| `Detector.StreamVerdictsAreAffineInvariant` | app/services/anomaly_detector.py:57-127 | mapping each host's metric by its own x → a·x + b with a ≠ 0 throughout a stream changes no flag and no severity |
| `IncidentEngine.Engine.Candidate` | app/services/incident_engine.py:218-227 | the first incident, in dictionary order, of the same host and service that is unresolved and within five minutes |
| `IncidentEngine.Engine.OnAlertCreated` | app/services/incident_engine.py:229-258 | joins the candidate or opens an incident, and queues its snapshot with the alert |
| `IncidentEngine.Engine.OnAlertResolved` | app/services/incident_engine.py:260-276 | removes the alert, resolves the incident with its last active alert, and queues the snapshot |
| `IncidentEngine.Engine.AcknowledgeIncident` | app/services/incident_engine.py:278-287 | acknowledges an unresolved incident and queues the snapshot |
| `IncidentEngine.Engine.Hydrate` | app/services/incident_engine.py:185-216 | both dictionaries are what the rows, links and alert statuses say, in any row order |
| `Incidents.CreatedKeeps` | app/services/incident_engine.py:229-258 | a creation keeps: resolved iff nothing active, alerts partitioned among incidents as the dictionary says, created minus resolved counters equal open incidents |
| `Incidents.CreatedDescribes` | app/services/incident_engine.py:229-258 | a creation keeps every alert in an incident of its own host and service whose severity is the maximum over all its alerts |
| `Incidents.ResolvedKeeps` | app/services/incident_engine.py:260-276 | a resolution keeps the same invariants |
| `Incidents.AcknowledgeKeeps` | app/services/incident_engine.py:278-287 | an acknowledgement keeps the same invariants |
| `Incidents.ClosedIsFinal` | app/services/incident_engine.py:218-287 | a resolved incident is never reopened, re-resolved, re-rated or extended by any later call |
| `Sessions.OnlyTheLastCanJoin` | app/services/incident_engine.py:218-227 | in a scope whose timestamps do not decrease only the youngest group's incident can match |
| `Sessions.CandidateIsUnique` | app/services/incident_engine.py:218-227 | `_candidate` never has two matches there, so dictionary order is irrelevant |
| `Sessions.CorrelationIsSessionisation` | app/services/incident_engine.py:218-258 | the incidents of a scope are exactly the groups of its alerts split at gaps over five minutes, with first and last time, alerts and worst severity of each group |
| `Workers.AlertPersistence.Enqueue` | app/services/alert_persistence.py:58-66 | appends a copy, or counts a drop if the queue is full |
| `Workers.Database.Delete` | app/models/db.py:99-121 | a rule, host or service is gone; nothing else changes |
| `Workers.AlertPersistence.Persist` | app/services/alert_persistence.py:99-141 | inserts the row, or updates the mutable columns with a sticky acknowledgement; refused exactly if the rule or service, or on INSERT the host, was deleted |
| `Workers.AlertPersistence.Iterate` | app/services/alert_persistence.py:68-93 | one pass of the worker: retry slot first, a failing transaction keeps the item and changes nothing |
| `Workers.IncidentPersistence.Enqueue` | app/services/incident_engine.py:94-99 | appends the event, or counts a drop |
| `Workers.IncidentPersistence.Persist` | app/services/incident_engine.py:123-165 | upserts the row and adds the link once, or undoes everything if the referenced alert has no row or the host or service was deleted |
| `Workers.IncidentPersistence.Iterate` | app/services/incident_engine.py:101-121 | one pass of the worker, blocked by an alert that is not stored yet |
| `Persistence.WorkKeepsTheOutcome` | app/services/incident_engine.py:101-165 | no worker turn, failing or not, changes what the tables will hold once both queues are written |
| `Persistence.WorkKeepsLinksSafe` | app/services/incident_engine.py:148-161 | every link points to an existing incident row and alert row, at all times |
| `Persistence.WorkKeepsCovered` | app/services/alert_persistence.py:68-139 | an alert that a waiting incident event needs stays stored or with the alert worker |
| `Persistence.FairRoundsDrainIff` | app/services/incident_engine.py:101-121 | enough rounds with one healthy turn per worker empty both queues exactly if every waiting incident event's alert is stored or pending and everything that waiting events refer to exists |
| `Persistence.BlockedStays` | app/services/alert_persistence.py:68-93 | an event that is not covered or refers to something deleted stays in its queue whatever the workers do |
| `Persistence.WritesAreRead` | app/services/alert_persistence.py:99-141 | an accepted write does to the tables as queries read them what it does to the columns as written |
| `Persistence.DeletionsAreRead` | app/models/db.py:99-121 | a deletion sets exactly the columns to NULL that refer to what is deleted |
| `Pipeline.RaiseHealthy` | app/services/telemetry_manager.py:465-477 | raising an alert keeps memory consistent and the pending writes equal to what memory says |
| `Pipeline.SettleHealthy` | app/services/telemetry_manager.py:478-496 | so does resolving one |
| `Pipeline.AckAlertHealthy` | app/services/telemetry_manager.py:726-738 | so does acknowledging an alert |
| `Pipeline.AckIncidentHealthy` | app/services/incident_engine.py:278-287 | so does acknowledging an incident |
| `Pipeline.WorkHealthy` | app/services/alert_persistence.py:68-141 | so does any turn of either worker |
| `Pipeline.DrainThenHydrate` | app/services/incident_engine.py:185-216 | once both queues are written without drops, hydrating a fresh engine rebuilds the same alert-to-incident dictionary and the same incidents, in any row order, up to deleted hosts and services, and exactly if none of theirs was deleted |
| `Notices.RaiseNotifiesOnce` | app/services/telemetry_manager.py:469-473 | exactly one created notification per rule or anomaly alert and per incident that such an alert opened, none for synthetic ones |
| `Notices.SettleNotifiesOnce` | app/services/telemetry_manager.py:487-490 | exactly one resolved notification per resolved rule or anomaly alert; at most one per closed incident, exactly one if all its alerts notify and none if none does |
| `Live.TelemetryManager.Raised` | app/services/telemetry_manager.py:465-477 | active entry, deque, correlation, notifications and both queue entries of a new alert |
| `Live.TelemetryManager.Resolved` | app/services/telemetry_manager.py:478-496 | the same for a resolved one |
| `Live.TelemetryManager.ApplyRuleTransition` | app/services/telemetry_manager.py:462-496 | the manager's reaction to one rule transition |
| `Live.TelemetryManager.ProcessAnomalyResult` | app/services/telemetry_manager.py:506-557 | one verdict: open, refresh or resolve the alert of its host and metric |
| `Live.TelemetryManager.ProcessEvent` | app/services/telemetry_manager.py:417-443 | detector, anomaly alerts, rules and transitions of one event, in that order |
| `Live.TelemetryManager.ProcessSyntheticCheckResult` | app/services/telemetry_manager.py:347-415 | open, refresh or resolve the alert of a check, without notifications |
| `Live.TelemetryManager.ReloadAlertRules` | app/services/telemetry_manager.py:162-172 | load the rows, then hydrate the open rule alerts of the deque |
| `Live.TelemetryManager.Acknowledge` | app/services/telemetry_manager.py:726-738 | acknowledge an alert of the deque or an active one, and queue it |
| `Episodes.AlertsAreEpisodes` | app/services/telemetry_manager.py:347-557 | in every run, a host's metric has an active anomaly alert exactly if its last verdict was flagged, and a check one exactly if its last decisive result was a failure; the alerts are, one to one, the maximal abnormal periods, each with the time, baseline and severity of the signal that opened it, the latest value, and resolved at the first normal signal |
| `RuleAlerts.EventMovesRuleAlerts` | app/services/telemetry_manager.py:440-496 | an event opens rule alerts only with a sample on the named side of the threshold and resolves them only with one that is not; what they say is what sample and rule say, and no other rule alert changes |
| `Operations.RunOps` | app/services/telemetry_manager.py:347-559 | seen from alerts and incidents, every run is a sequence of legal raises, resolutions, acknowledgements, new values and worker turns |
| `IncidentHistory.IncidentsTellTheirHistory` | app/services/incident_engine.py:229-287 | in every run an incident starts with its first alert, is closed exactly when all its alerts are resolved, at the resolution time of the one resolved last, was last seen as the alert resolved last or raised since says, and is acknowledged exactly if that was done since its last alert was raised |
| `RowHistory.RowsAreEvents` | app/services/alert_persistence.py:99-139 | column by column, an alert's row comes from the first and the last of its written events, and an acknowledgement sticks |
| `RowHistory.RowsTellTheAlerts` | app/services/alert_persistence.py:58-139 | after every run without a dropped alert, every column of every row says what the alert says, the value of a resolved one included, and the value of an open one is that of its last queued copy |
| `Evaluation.EvaluationIsRuleByRule` | app/services/telemetry_manager.py:440-447 | evaluating all rules and applying the transitions afterwards equals applying each as its rule is evaluated |
| `Evaluation.RuleStepCoherent` | app/services/telemetry_manager.py:462-496 | one rule keeps manager, engine and incidents coherent, and a clearing finds its alert under its key |
| `Evaluation.EventCoherent` | app/services/telemetry_manager.py:417-447 | so does a whole event |
| `Evaluation.EveryClearingIsFound` | app/services/telemetry_manager.py:478-480 | the branch for a resolution without an active alert is never reached |
| `Coherence.VerdictCoherent` | app/services/telemetry_manager.py:506-557 | one anomaly verdict keeps everything coherent |
| `Coherence.CheckCoherent` | app/services/telemetry_manager.py:358-411 | one synthetic result keeps everything coherent |
| `Reloads.ReloadedAt` | app/services/telemetry_manager.py:162-172 | after a reload a pair whose alert is in the deque is rebuilt from it, any other keeps its state exactly if its rule is loaded |
| `Reloads.ReloadCoherent` | app/services/telemetry_manager.py:162-172 | a reload keeps the agreement exactly if it is safe |
| `Reloads.SafeUnlessRulesReturn` | app/services/telemetry_manager.py:162-172 | a reload is safe unless it brings back a rule with an open alert |
| `Reloads.StepCoherent` | app/services/telemetry_manager.py:347-496 | every input of the manager keeps the invariants, and only moves alerts and incidents forward |
| `Runs.Agreement` | app/services/telemetry_manager.py:462-559 | active alerts are the disjoint union of the incidents' active alerts exactly if every open alert has a key |
| `Runs.SafeRunsAgree` | app/services/telemetry_manager.py:462-559 | in every run whose reloads are safe active alerts, engine and incidents agree, whatever the inputs |
| `Runs.AlwaysCompleteIffSafe` | app/services/telemetry_manager.py:162-172 | over arbitrary inputs, every open alert has a key in every state of the run exactly if every reload was safe |
| `Lifetimes.NoRuleReturnsSoReloadsAreSafe` | app/models/db.py:54-57 | in every run in which no deleted rule comes back every reload is safe |
| `Lifetimes.ThreeWayAgreement` | app/services/telemetry_manager.py:462-559 | in every run in which no deleted rule comes back, the active alerts are the disjoint union of the incidents' active alerts, and the engine knows exactly the alerts under the keys of its rules |
| `Lifetimes.ReloadIsUnobservable` | app/services/telemetry_manager.py:162-172 | one more reload of unchanged rules, anywhere in a run in which no deleted rule comes back, leaves alerts, incidents, notifications, queues and counters identical after every continuation |
| `Runs.EveryRun` | app/services/telemetry_manager.py:417-496 | in every run, whatever the reloads, the incident invariants hold, notifications are issued as often as due, and no resolution misses |
| `Runs.RunsOnlyMoveForward` | app/services/incident_engine.py:229-287 | what is resolved stays as it is through every later run, up to an acknowledgement of the alert |
| `Runs.RunDrainHydrate` | app/services/incident_engine.py:94-216 | drain-then-hydrate round trip for every run of manager, workers and deletions without drops |
| `Runs.RunDrains` | app/services/alert_persistence.py:68-93 | after every run without a dropped alert, enough fair rounds empty both queues exactly if everything that waiting events refer to exists, and all links are safe |
| `Blocked.BlockedForEver` | app/services/alert_persistence.py:84-90 | a waiting event that refers to something deleted keeps the queues from ever being empty again, whatever happens later |
| `Blocked.RunDrainsWithoutDeletions` | app/services/alert_persistence.py:68-93 | every run without deletions and dropped alerts can be drained |
| `Blocked.AcknowledgementBlocks` | app/services/telemetry_manager.py:726-738 | acknowledging an open alert of a deleted rule queues a write that is never accepted |
| `Blocked.DeletedWhileQueued` | app/services/alert_persistence.py:99-139 | a concrete run: the rule is deleted while its alert's event waits, and the queue is never empty again |
| `Blocked.AcknowledgedAfterDeletion` | app/services/alert_persistence.py:99-139 | a concrete run: everything is written, the rule is deleted, its open alert acknowledged, and the queue is never empty again |
| `Runs.ReloadIsUnobservableIff` | app/services/telemetry_manager.py:162-172 | over arbitrary continuations, returning rules included, one more reload of unchanged rules is unobservable exactly if the deque still holds every open alert that the engine knows although its rule is not loaded |
| `LostAlerts.ForgottenAlertIsLost` | app/services/telemetry_manager.py:465-468 | if the engine forgot an open alert, the next fire takes its key and leaves it open in its incident only |
| `LostAlerts.ReloadCanBeObserved` | app/services/telemetry_manager.py:162-172 | a concrete state in which a reload of unchanged rules can be told apart once a stalled reload brings a deleted rule back |
| `LostAlerts.AgreementCanBeLost` | app/services/telemetry_manager.py:162-172 | a concrete run in which a deleted rule comes back, with an unsafe reload after which the agreement fails |
| `RuleTable.NoRuleReturns` | app/api/alert_rules.py:29-118 | if reloads load their rows in the order in which they read them, no deleted rule comes back, whatever happens to the table |
| `RuleTable.AtOnceIsInOrder` | app/services/telemetry_manager.py:162-172 | reloads that read and load in one step load in that order |
| `RuleTable.AgreementFromTheTable` | app/services/telemetry_manager.py:162-172 | in every history of the rule table and the manager whose reloads read and load in one step, alerts, engine and incidents agree |
| `RuleTable.AStalledReloadLosesTheAgreement` | app/api/alert_rules.py:99-118 | the run of `LostAlerts` is one that the table produces when a reload stalls between its query and loading the rows, and the agreement is lost |
| `Synthetic.SyntheticMonitor.Check` | app/services/synthetic_monitor.py:137-178 | counts failures from memory or from the latest stored row, stores the run and informs the manager |
| `Synthetic.AlertIffStreak` | app/services/synthetic_monitor.py:137-178 | a check has an active alert exactly if its trailing failures reach the threshold, and has raised one alert per maximal failing run that long, through any interleaving with other inputs |
| `Synthetic.RowsContinueTheCount` | app/services/synthetic_monitor.py:141-149 | with a clock that does not go back the stored rows give the same count as memory |
| `Agent.HostCollector.Collect` | agent/telemetry_agent.py:83-83 | sequences strictly increase, by one or to the millisecond clock |
| `Agent.HostCollector.Flush` | agent/telemetry_agent.py:162-211 | the first reply that cannot be retried decides, five retryable ones keep the batch, and a Retry-After that is no number raises if an attempt is left; the pauses are the capped back-off or the clamped Retry-After |
| `Agent.VerdictIs` | agent/telemetry_agent.py:162-211 | a batch is delivered exactly if a 2xx follows only transient replies, and stays in the buffer exactly if four transient replies are followed by a fifth or by an unreadable rate limit |
| `Agent.PausesAre` | agent/telemetry_agent.py:171-206 | the pauses are 1, 2, 4, then 8 seconds, or a rate limit's own between 0.1 and 30 |
| `Agent.HostCollector.Tick` | agent/telemetry_agent.py:144-153 | one pass of the loop: the buffer grows by the sample and is emptied only by a delivered flush |
| `Ingestion.PersistBatch` | app/services/telemetry_ingestion.py:20-108 | accepts exactly the first sample of each sequence that the table lacks when the INSERT runs, stores them, and sets the host's last-seen time to their latest timestamp |
| `Ingestion.TelemetryTable.Insert` | app/services/telemetry_ingestion.py:85-91 | ON CONFLICT DO NOTHING: which rows are added and which sequences are returned |
| `Ingestion.PrefilterIsIrrelevant` | app/services/telemetry_ingestion.py:33-46 | the SELECT never changes what is accepted, whatever is inserted in between |
| `Delivered.MoveKeepsGood` | app/services/telemetry_ingestion.py:28-108 | the protocol invariant is kept by every move of agents, requests, server, other writers and deletions |
| `ExactlyOnce.NoSampleIsLost` | agent/telemetry_agent.py:139-211 | in every run a host's sequences strictly increase, each sample of a living agent is buffered or has been stored, and an agent that ended has lost exactly the samples of its last buffer that were never stored |
| `ExactlyOnce.AcceptancesAreCounted` | app/services/telemetry_ingestion.py:85-108 | a collected sample's acceptances are the deletions of its row, plus one if the row is there, less other writers' insertions; at most one exactly if that is at most one; each is handed on or left over |
| `ExactlyOnce.OnlyCollectedIsAccepted` | app/api/ingestion.py:35-47 | nothing but collected samples is ever accepted or handed on |
| `ExactlyOnce.HandedAtMostOnce` | app/api/ingestion.py:35-47 | a sample whose row was not deleted is accepted and handed to `process_event` at most once, and as often as accepted exactly if it is not left over |
| `ExactlyOnce.AcknowledgedExactlyOnce` | app/api/ingestion.py:35-47 | an acknowledged sample whose row nobody else wrote or deleted is stored as collected, accepted once, and handed on exactly once if not left over |
| `ExactlyOnce.AnsweredLeavesNothing` | app/api/ingestion.py:43-45 | when every request has been answered no accepted sample is left over |
| `ExactlyOnce.DeletedRowIsAcceptedAgain` | app/services/telemetry_ingestion.py:85-108 | a concrete run in which a row is deleted during a retry and its sample is accepted and handed on twice |
| `Endings.FlushRaisesIffOversized` | agent/telemetry_agent.py:162-211 | against a server that otherwise succeeds or is busy, a flush raises exactly if one of its requests gets through and carries more than 250 samples |
| `Endings.AgentsEndIffOversized` | agent/telemetry_agent.py:162-211 | in every run without refused keys, kills and unreadable Retry-After headers an agent has ended only with more than 250 samples buffered, and a processed request ends it exactly if it carries more than 250 |
| `Endings.OutageEndsTheAgent` | app/models/observability.py:81-83 | a concrete outage that leaves 251 samples in the buffer, ends the agent and loses all of them |
| `IngestApi.IngestTelemetry` | app/api/ingestion.py:20-60 | refuses batches of none or of more than 250 samples and inactive hosts without changing anything; otherwise runs the manager on one event per accepted sample, in order and with the host's identifier, and answers with the right counts and the largest sequence |
| `IngestApi.RequestHistory` | app/api/ingestion.py:43-46 | a request appends the accepted samples' values to the host's detector histories, in order and up to the window, and leaves other hosts' alone |
| `Graphs.NewEdgeClosesACycle` | app/api/topology.py:31-56 | an edge added to an acyclic graph closes a cycle exactly if its source is reachable from its target |
| `Graphs.TwoEdgesCloseACycle` | app/api/topology.py:193-206 | two edges that each pass the check on an acyclic graph close a cycle together exactly if each one's source is reachable from the other's target |
| `Topology.WouldCreateCycle` | app/api/topology.py:31-56 | true exactly if the source is reachable from the target in the existing edges; the search terminates |
| `Topology.ServiceRegistry.AddDependency` | app/api/topology.py:168-214 | adds an edge exactly if both services exist, the edge is new and the graph stays acyclic; otherwise the right error and no change |
| `Topology.ServiceRegistry.DeleteDependency` | app/api/topology.py:218-242 | removes the edge or reports it missing; the graph stays acyclic |
| `Topology.ServiceRegistry.DeleteService` | app/api/topology.py:146-164 | removes the service with its edges or reports it missing; the graph stays acyclic |
| `Topology.ServiceRegistry.CheckDependency` | app/api/topology.py:168-206 | the check in front of the INSERT: passes exactly if both services exist, the edge is new and the graph would stay acyclic |
| `Topology.ServiceRegistry.InsertDependency` | app/api/topology.py:199-214 | the INSERT on whatever the tables hold by then: refused for a second row of the same key and for a service that is gone |
| `Topology.ServiceRegistry.AddTwo` | app/api/topology.py:168-214 | two requests that both check before either inserts: answers, resulting edges, and the exact condition under which the graph stays acyclic |
| `Topology.ServiceRegistry.AddWhileDeleting` | app/api/topology.py:146-214 | an addition around the deletion of a service: the edge is added exactly if it passed the check and does not touch the service, and the graph stays acyclic |
| `Topology.OppositeInsertionsClose` | app/api/topology.py:193-206 | two opposite edges between services that do not depend on each other both pass and close a cycle |
| `Impacts.BuildServiceImpacts` | app/services/incident_evidence.py:25-72 | reports exactly the services at reverse-dependency distance 1 to max_hops, on cyclic graphs too, with the shortest distance, critical exactly if some shortest path has a critical edge; the search terminates |
| `Delivery.NotificationDispatcher.DeleteChannel` | app/models/db.py:216-218 | the channel's deliveries leave the table with it, all others stay |
| `Delivery.NotificationDispatcher.EnsureDeliveryRow` | app/services/notification_dispatcher.py:432-473 | the job's own row, else the row of its channel, event type and event, else a new one, also when another process inserts it first; none exactly if the channel is gone |
| `Delivery.NotificationDispatcher.AttemptOnce` | app/services/notification_dispatcher.py:361-430 | one attempt: counted, posted with the stored URL and payload, and marked |
| `Delivery.NotificationDispatcher.Attempt` | app/services/notification_dispatcher.py:346-430 | the attempt loop; nothing happens to a delivered row |
| `Delivery.NotificationDispatcher.QueueJob` | app/services/notification_dispatcher.py:224-238 | takes the job exactly if the queue has room, otherwise counts a drop (and raises) |
| `Delivery.NotificationDispatcher.RetryDelivery` | app/services/notification_dispatcher.py:276-316 | only a failed delivery of an enabled channel with a readable payload goes back to the queue, with its stored payload and URL; if the queue is full it raises and leaves the row pending |
| `Delivery.NotificationDispatcher.RestorePendingJobs` | app/services/notification_dispatcher.py:240-274 | of the 500 oldest unfinished deliveries requeues, in order and as stored, those of enabled channels with readable payloads, until the queue is full |
| `Delivery.NotificationDispatcher.Deliver` | app/services/notification_dispatcher.py:318-354 | one job of the queue: its row is established and its attempts are made |
| `Delivery.DeliversIsAMove` | app/services/notification_dispatcher.py:318-354 | whatever row the worker establishes, the delivery is a move of the history model |
| `Delivery.LoopEnds` | app/services/notification_dispatcher.py:358-430 | the first outcome that does not repeat decides; network errors always repeat within the budget because a stale status at the loop head is absent or retryable; POSTs and counted attempts are exact |
| `Delivery.ApplyKeeps` | app/services/notification_dispatcher.py:276-499 | unique rows, posts equal to what is stored, attempts equal to POSTs plus interrupted attempts, through deliveries, retries and deleted channels |
| `Delivery.HistoriesAreConsistent` | app/services/notification_dispatcher.py:276-499 | the same over every history, and a row that is delivered or gone with its channel never changes and is never posted again |
| `Delivery.AttemptsEqualPostsIff` | app/services/notification_dispatcher.py:358-430 | a delivery's new attempts are its new POSTs exactly if its first non-repeating outcome within budget is not a death before the POST |
| `Delivery.HistoryAttemptsArePostsIff` | app/services/notification_dispatcher.py:276-499 | after any history every row's attempts are its POSTs exactly if no delivery died that way |
| `Delivery.AnAttemptWithoutPost` | app/services/notification_dispatcher.py:361-388 | such a death: one attempt on record, nothing posted |
| `PostedAgain.CanBePostedIffOpen` | app/services/notification_dispatcher.py:240-316 | some later history posts a delivery once more exactly if it is neither delivered nor gone with its channel |
| `PostedAgain.PostedAgainIffNotRecorded` | app/services/notification_dispatcher.py:358-430 | after its attempts a delivery can be posted again exactly if they did not end in a success that was recorded |
| `PostedAgain.ARestorePostsAgain` | app/services/notification_dispatcher.py:240-274 | a death after the POST: the restore posts it again |
| `PostedAgain.ARetryPostsAgain` | app/services/notification_dispatcher.py:389-430 | a POST that succeeded but could not be recorded is posted again by a manual retry |
| `PostedAgain.RetryAgainstAFullQueue` | app/services/notification_dispatcher.py:276-316 | a manual retry that meets a full queue raises, with its row pending and nothing queued for it |
| `RateLimit.SlidingWindowRateLimiter.Check` | app/core/rate_limit.py:31-43 | trims the caller's deque, answers, and leaves other callers alone |
| `RateLimit.SlidingWindowRateLimiter.Clear` | app/core/rate_limit.py:45-48 | forgets one caller |
| `RateLimit.AcceptedIffRoom` | app/core/rate_limit.py:31-43 | a call is accepted exactly if fewer than `limit` calls were accepted in the last window since the last clear, counted over a full log |
| `RateLimit.NoWindowOverflows` | app/core/rate_limit.py:31-43 | every interval (a, a + window] holds at most `limit` accepted calls |
| `RateLimit.RetryAfterIsExact` | app/core/rate_limit.py:39-41 | `retry_after` is the least whole number of seconds after which a further call is accepted |
| `Retention.TelemetryRetention.DeleteBatch` | app/services/telemetry_retention.py:91-108 | removes the first batch of expired rows in (timestamp, id) order |
| `Retention.TelemetryRetention.RunOnce` | app/services/telemetry_retention.py:60-89 | removes exactly the oldest min(expired, batches × batch size) rows and nothing newer |
| `Retention.FirstOfIsUnique` | app/services/telemetry_retention.py:91-108 | that set of rows is determined |
| `TelemetryQueue.TelemetryPersistence.Enqueue` | app/services/telemetry_persistence.py:59-69 | takes the event or counts a drop; accepted events are persisted, retried or queued, in order |
| `TelemetryQueue.TelemetryPersistence.Iterate` | app/services/telemetry_persistence.py:71-104 | one pass of the worker keeps accepted = persisted ++ retry batch ++ queue; a failing one persists nothing, a healthy one makes progress |
| `TelemetryQueue.TelemetryPersistence.Persist` | app/services/telemetry_persistence.py:110-151 | conflict-ignoring writes, the number of new rows, and the hosts' last-seen times |
| `TelemetryQueue.FirstWriteWins` | app/services/telemetry_persistence.py:129-134 | earlier rows win over queued events, and of those the first of its key |
| `TelemetryQueue.UpdatesAreLatest` | app/services/telemetry_persistence.py:137-142 | a host's update is the latest timestamp of the batch for that host |

## Left out

- The manager's event history, current events, rate and event counters: written by `process_event`, read by nothing modelled here.
- HTTP routing, authentication, audit log, settings, WebSocket broadcasting, metrics counters, PostgreSQL LISTEN/NOTIFY: plumbing without state that the properties depend on.
- Messages, titles, the rounded baseline and z-score, and agent version strings: carried along, never decided on.
- Floating point: measurements and durations are exact reals; |z| > t is decided by comparing squares.
- Pause, resume, reset, stop and cancellation of a worker inside a run: a run is one start-to-stop lifetime, plus the explicit hydration.
- Lifetimes.ThreeWayAgreement: loading the rows of a reload and acknowledging are single steps. The program's `reload_alert_rules` and the incident engine's `acknowledge` take no manager lock; a reload interleaved with an event between its own statements, beyond the stall between query and loading, is not modelled.
- Start-up rehydration of alerts in the manager, which files restored synthetic alerts under an anomaly key.
- In-memory mode without workers, and the telemetry queue inside the manager's step (it is modelled on its own in `TelemetryQueue`).
- Incidents hydrated from a database are inserted in the order of their last-seen time; runs of the engine start from an empty dictionary, whose order is the order of creation.
- Rule rows carry distinct identifiers, as their primary key demands; `upsert_rule` and `remove_rule` are not called by the manager.
- Deletion of alert or incident rows (the simulator's reset), and identifiers of rules, hosts and services that never existed.
- Sessions.CorrelationIsSessionisation: for runs of creations and acknowledgements, because a resolution may move the last-seen time backwards and closes groups early.
- ExactlyOnce.NoSampleIsLost: the agent may also collect between attempts of one flush, a superset of what it does; a batch posted by anything but the agent, and an agent started again after it ended, are not part of the protocol.
- Impacts.BuildServiceImpacts: the final sorting by hops and name and the cut to 50 entries are not modelled.
- Delivery.HistoriesAreConsistent: a channel deleted while one of its deliveries is under way is not modelled; the program then finishes the attempts without recording them. The rows of deleted channels stay on record in the model.
- Agent.HostCollector.Flush: the last flush at shutdown is not modelled.
- Delivery.NotificationDispatcher.EnsureDeliveryRow: a row inserted by another process carries the same payload and URL.
- Live.TelemetryManager.Raised: the manager's notifications go to an unbounded list here, and so in `Live.TelemetryManager.Resolved`. A notification queue that is full at that moment makes the program raise out of the middle of the step (app/services/notification_dispatcher.py:230-237); it is assumed not to be full.
- The filter that decides which channels are notified, payload signing and URL validation.
- Topology.ServiceRegistry.CreateService: names and their uniqueness are not modelled.
- RateLimit.AcceptedIffRoom: a monotone clock, and one limit and window per caller; the lock is taken as making calls atomic.
- Retention.TelemetryRetention.RunOnce: rows inserted between two batches of one run are not modelled.
- SLO percentages, series aggregation, metric findings, the synthetic generator: single functions or foreign queries.
