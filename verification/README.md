# Sentinel alert lifecycle: a verified model

kube-reliability-sentinel watches Pods and Nodes, evaluates rules on them, and delivers alerts
through a deduper to one or more sinks. This project models the part of it that is hard to get
right, and proves what it guarantees:

- **The alert lifecycle** (`Lifecycle`, `Simulation`, `Guarantees`, `Progress`). Any number of workers
  reconcile objects at once. A worker fires its alerts at the deduper before it takes the controller's
  lock, then ages the object's marks key by key under that lock, while others keep firing. The protocol
  is a transition system over eight kinds of step; a run is the sequence of its events. The central
  result is a simulation: in every interleaving, what is stored for a key and when it was delivered
  is what a sequential fold over the reconciles of its own object computes. The two locks never block
  it: from every state the workers under way can finish.
- **One key over time** (`Rounds`). The sequential fold, and what it means: when a record exists, when
  it is dropped, how far apart deliveries are, how soon they come.
- **The deduper** (`Dedup`) and **the fan-out** (`Fanout`), which extends the protocol by the walks of
  alerts through the sinks, made after the deduper's lock is released.
- **The restart detector** (`RestartTracker`, and `Bursts` for what its alerts stand for), **the rules**
  (`Rules`, and `RuleReports` for what they report, field by field), **the key encodings** (`Identity`),
  and **the list-then-watch loop** (`ListWatch`).
- **The controller's own code** (`Controller`), proved against the functions of `Delivery` and the
  relations of `Findings` and `Reconcile`. Every uninterrupted reconcile is a stretch of a run of the
  protocol, made of exactly the steps that the lister's answer calls for, so that what is proved of
  runs is proved of the code.
- **End to end** (`Detection`, `Promises`): how long a stuck pod stays unreported, and exactly when a
  documented promise is kept.

Code that updates state in place is a class or a method with loops, proved against functions of its
inputs; the order in which Go ranges over a map is an arbitrary choice inside the loop. Time is an
integer; zero is the "currently firing" mark, so clock readings are positive. Clock readings, the
lister's answers and the API server's answers are inputs.

Assumptions about the environment, stated where they are used: the work queue never hands one object
to two workers at a time; clock readings made for one object are in order (nothing is assumed across
objects); Kubernetes names contain no `/` and no `|`; the lister returns the object it was asked for.

## Where code and documentation disagree

- README.md says an identical alert is delivered at most once per resend interval. The controller
  drops the dedup record after the clear grace period and when the object is cleared as deleted. Over
  the runs in which the object is not cleared, the promise is kept exactly when the resend interval
  does not exceed the grace period (`Promises.ResendPromiseIff`); with the default settings (ten
  minutes against two) it is not, and `Promises.FlapDefeatsResend` exhibits the run. Over all runs it
  is kept exactly when the resend interval is not positive, that is when it promises nothing
  (`Promises.ResendPromiseWithClearingIff`): an object that goes and comes back under its old name is
  reported again at once (`Promises.ReturnDefeatsResend`), because an alert key does not contain the
  UID.
- README.md says a pod being deleted is never alerted on. That is true of the rule engine; the burst
  detector does not look at the deletion timestamp (`Findings.DeletingPodAlertsIff`,
  `Findings.DeletingPodCanAlert`).
- The RapidRestart message says a container restarted n times within the window, that is at the
  instants after the cutoff `now - window`. That is certain exactly when the restart count rose by n
  from the first observation on or after the cutoff to the last (`RestartTracker.RestartedTimesIff`).
  The reported n is at most one more than that rise, and right unless no observation lies on the cutoff
  and the first after it is itself an increase (`RestartTracker.ReportedAtMostOneTooMany`): a first
  sighting of old restarts (`RestartTracker.FirstSightingCounts`), or a restart made before the window
  and noticed inside it (`RestartTracker.StaleIncreaseCounts`). The excess of one occurs for every n
  (`RestartTracker.OneTooManyForEveryN`).
- docs/watch-protocol.md says the client resumes from the newest version it has seen. The loop always
  lists again, and a LIST reports no deletions, so a pod deleted while the client was away stays in
  the handler's cache (`ListWatch.DeletedPodMaySurvive`; exactly when: `ListWatch.CacheExactIff`).

## Model

| member | source | states |
|---|---|---|
| Identity.KeyRoundTrip | internal/reliability/reliability.go:66-71 | reason, object and container can be read back out of an alert key |
| Identity.KeyInjective | internal/reliability/reliability.go:66-71 | two alerts share a key if and only if they are the same problem on the same container of the same object |
| Identity.KeyDeterminesObject | internal/reliability/reliability.go:69-71 | an alert key determines its object key, so distinct objects never share one |
| Identity.ObjectKeyRoundTrip | internal/watcher/controller.go:97-108 | kind, namespace and name can be read back out of an object key, and it contains a slash exactly if there is a namespace |
| Identity.ObjectKeyInjective | internal/watcher/controller.go:103-108 | two queue keys have one object key if and only if they are equal |
| Identity.PrefixSelectsPod | internal/watcher/util.go:30-34 | the prefix test holds of exactly the containers of that pod |
| Identity.PodPrefix | internal/watcher/controller.go:408-411 | the prefix test of the gauge selects exactly the objects of kind Pod |
| Rules.ContainerAlerts | internal/reliability/reliability.go:138-190 | the alerts of the container rules that hold, in the order in which the rules are tried; the waiting flag is set exactly for crash loops and image pulls |
| Rules.HoldingAlertsSpec | internal/reliability/reliability.go:138-190 | those are exactly the declarative container rules that hold, with distinct reasons, at most three |
| Rules.EvaluatePod | internal/reliability/reliability.go:116-209 | the containers' alerts in order, then the pending one; as a set exactly those of the declarative rule set; distinct keys for distinct container names; at most three per container plus one; never the pending alert beside a waiting alert; nothing for a missing or deleting pod |
| Rules.RuleAlertsSpec | internal/reliability/reliability.go:123-209 | the same four properties of the list as a function of pod, thresholds and instant |
| Rules.SamePodKeys | internal/reliability/reliability.go:66-71 | within one pod, whatever its name, keys coincide exactly for the same reason and container |
| Rules.EvaluateNode | internal/reliability/reliability.go:211-244 | one alert per condition that calls for one, in the order of the conditions, so conditions sharing a key are each fired; as a set, exactly the alerts of the declarative node rules |
| Rules.OnePerCallingIsRules | internal/reliability/reliability.go:219-241 | a list with one alert per calling condition holds exactly the alerts of the declarative node rules |
| Rules.PodAlertsGrow | internal/reliability/reliability.go:192-206 | what is reported of an unchanged pod is still reported later |
| Rules.NodeAlertsGrow | internal/reliability/reliability.go:219-241 | what is reported of an unchanged node is still reported later |
| RuleReports.PodReportFields | internal/reliability/reliability.go:123-209 | an alert is reported of a pod if and only if the pod is not being deleted, the alert carries its identity, and the waiting, terminated, previous terminated, restart count and ready fields of a container of that name, or phase and age of the pod, call for that reason and severity |
| RuleReports.OomSurvivesRestart | internal/reliability/reliability.go:246-257 | an OOM kill is reported before and after the container is restarted |
| RuleReports.PodReportOrder | internal/reliability/reliability.go:137-206 | with distinct container names, alerts of earlier containers come first, those of one container in the order of the rules, and the pending alert last |
| RuleReports.NodeReportFields | internal/reliability/reliability.go:215-244 | an alert is reported of a node if and only if it carries its identity and a Ready condition has not been "True" for the grace period, or a memory, disk or PID pressure condition is "True" |
| RuleReports.NodeReportPlaces | internal/reliability/reliability.go:219-241 | there is one alert for each condition that calls for one, at the place of the condition among those |
| RuleReports.AnyStatusButTrue | internal/reliability/reliability.go:221-224 | nodes that differ only in which status other than "True" their Ready conditions show yield the same alerts |
| Dedup.DeduperRefinesLogScan | internal/alert/alert.go:77-108 | for every sequence of locked sections and arbitrary clock readings, keeping one instant per key decides as scanning the whole log does, if and only if resend is not negative |
| Dedup.RecordIsLatestPass | internal/alert/alert.go:83-93 | the stored instant is the latest one let through since the last Forget, and those instants are in order |
| Dedup.NegativeResendDisagrees | internal/alert/alert.go:84-91 | for every negative resend, a history on which the stored instant and the log disagree |
| Dedup.FireConserves | internal/alert/alert.go:79-99 | one firing raises fired plus suppressed by exactly one for its reason and no other |
| Dedup.Conservation | internal/alert/alert.go:79-99 | over every sequence of operations and per reason, fired plus suppressed equals the Fire calls, and fired is the multiset of labels handed downstream |
| Dedup.LabelsCountReasons | internal/alert/alert.go:95-98 | counting deliveries per reason and per reason and severity agree |
| Dedup.FiredPerLabel | internal/alert/alert.go:95-98 | after every sequence of operations the fired counter shows, for each reason and severity, exactly the alerts with that reason and severity handed downstream |
| Dedup.FanOut | internal/alert/alert.go:32-39 | every sink receives the alert exactly as often as it is listed, and an Event sink counts as many Events |
| Dedup.Sink.Fire | internal/alert/alert.go:158-167 | the log grows by the alert; an Event sink counts one Event of its reason, so its count stays that of its log |
| Dedup.SpreadOnce | internal/alert/alert.go:35-39 | a sink listed once holds the alerts let through, in order |
| Dedup.Deduper.Fire | internal/alert/alert.go:79-99 | one worker on its own: the state becomes that of the specification, and every sink still holds exactly what was let through, in order (interleaved deliveries: module Fanout) |
| Dedup.Deduper.Pass | internal/alert/alert.go:92-98 | the letting-through branch: record, counter and delivery together |
| Dedup.Deduper.Forget | internal/alert/alert.go:104-108 | exactly this key's record goes |
| Dedup.Deduper.ActiveKeys | internal/alert/alert.go:110-120 | the copy made by the loop is the set of recorded keys |
| Dedup.Deduper.CountersMatchSent | internal/alert/alert.go:95-98 | the same of the class, label pair by label pair |
| Dedup.Deduper.EventsMatchFired | internal/alert/alert.go:158-167 | one worker on its own: per reason, Events emitted equal alerts fired, times the places at which the Event sink is listed (any number of workers: Fanout.EventsMatchFired) |
| Fanout.PipeRunsAreRuns | internal/alert/alert.go:92-98 | with deliveries to the sinks interleaved, what the protocol does is still a run of it, so every theorem about runs applies |
| Fanout.EverySinkReceivesEverything | internal/alert/alert.go:35-39 | once nothing is on its way, every sink has received everything the deduper let through, exactly once, each object's alerts in firing order |
| Fanout.SinkFollowsDeliveries | internal/alert/alert.go:92-98 | at every moment a sink has received the deliveries of a key in order, all of them but possibly the latest; all once the worker is done with the sinks |
| Fanout.SinksSeeSpacedDeliveries | internal/alert/alert.go:77-99 | while the object is not cleared, what each sink receives of a key is at least min(resend, grace) apart |
| Fanout.EventsMatchFired | internal/alert/alert.go:92-98 | with any number of workers, at every moment and per reason, Events emitted plus alerts still on their way to the Event sink equal alerts fired; once nothing is on its way, Events equal alerts fired |
| Fanout.WalksDoNotInterfere | internal/alert/alert.go:35-39 | a worker walking the sinks holds nobody up and can always go on |
| Fanout.SendsDoNotInterfere | internal/alert/alert.go:92-98 | an alert handed downstream by one worker takes no step from another |
| Fanout.DrainReachable | internal/alert/alert.go:35-39 | from every moment of every run, all that is on its way can reach every sink |
| Rounds.EffectiveGrace | internal/watcher/controller.go:117-123 | the grace period in force is positive: the configured one if positive, otherwise the larger of 90 s and twice the resync period |
| Rounds.RunMatchesSpec | internal/watcher/controller.go:354-367 | the one stored mark agrees with scanning the whole history: firing, clearing since the first absent reconcile, or gone after the grace period; a record exists exactly for tracked keys |
| Rounds.RecordIffTracked | internal/watcher/controller.go:354-367 | record and mark come and go together, even with disordered clocks |
| Rounds.ForgottenExactlyAfterAbsence | internal/watcher/controller.go:357-367 | a reconcile drops the record if and only if it closes an unbroken absence, following a presence, that has lasted the grace period |
| Rounds.BoundedClearing | internal/watcher/controller.go:357-372 | absent after p, the first such reconcile at most R after the one before and the last at most R ago, the record is gone by p + grace + 2R and the next firing is delivered |
| Rounds.RunSpaced | internal/alert/alert.go:84-92 | deliveries of a key are in order and at least min(resend, grace) apart, and clearing never began before the latest delivery |
| Rounds.FirstDelivery | internal/alert/alert.go:84-98 | from any point without a record, the next delivery is the first firing of the next reconcile that reports the key, and nothing changes before |
| Rounds.BoundedRedelivery | internal/alert/alert.go:79-99 | while present and fired at most R apart, the record persists and consecutive deliveries are at least resend and less than resend + R apart |
| Lifecycle.ReachableInv | internal/watcher/controller.go:339-382 | in every interleaving marks sit under the object that owns them, the lock has at most one holder, and only the holder's entry can be empty |
| Lifecycle.EntryFrame | internal/watcher/controller.go:350-372 | a step of one object leaves every other object's entry alone |
| Progress.SomeoneCanStep | internal/watcher/controller.go:339-382 | no deadlock: the worker holding the lock can move, and with the lock free every worker under way can |
| Progress.QuiescenceReachable | internal/watcher/controller.go:339-382 | from every state of every run the workers under way can all finish without any object being taken up anew |
| Progress.OthersDoNotInterfere | internal/watcher/controller.go:339-382 | workers on different objects hold each other up only where both are about to take the lock |
| Simulation.ReachableMirrors | internal/watcher/controller.go:339-382 | every reachable state of every interleaving shows for each key what the sequential fold of its object's reconciles computes |
| Guarantees.RecordsAreTrackedKeys | internal/watcher/controller.go:339-382 | the recorded keys are exactly the tracked keys plus those fired by workers on their way to the lock; with no worker busy the two coincide |
| Guarantees.DeliveriesAreSpaced | internal/watcher/controller.go:334-373 | in every run, deliveries of a key between two clearings of its object are at least min(resend, grace) apart |
| Guarantees.DeliveriesAreHandedOver | internal/alert/alert.go:92-98 | those deliveries are what the deduper handed over since the last clearing, and all of it if there was none |
| Guarantees.SentInOrder | internal/alert/alert.go:79-99 | the instants at which a key was handed over are in order, clearings or not |
| Guarantees.RecordDroppedExactly | internal/watcher/controller.go:357-382 | a step of a run drops a record if and only if it clears the deleted object or ages the key at the end of an absence that lasted the grace period |
| Guarantees.RecordGoneAfterAbsence | internal/watcher/controller.go:357-372 | bounded clearing in every interleaving |
| Guarantees.RedeliveredWhilePresent | internal/watcher/controller.go:342-356 | bounded redelivery in every interleaving |
| Guarantees.FiringKeysAreLatestReport | internal/watcher/controller.go:354-372 | with the lock free, the keys marked firing for an object are exactly those of its latest completed reconcile, and no entry is empty |
| Guarantees.GaugeCountsAlertingPods | internal/watcher/controller.go:406-420 | the gauge counts exactly the pods whose latest reconcile yielded an alert and that were not cleared since |
| Guarantees.RunConserves | internal/alert/alert.go:79-99 | over every run and per reason, fired plus suppressed equals the firings asked for, and fired is what went downstream |
| Guarantees.RunCountsLabels | internal/alert/alert.go:95-98 | over every run, the same of the fired counter, label pair by label pair |
| Guarantees.SentComesFromFirings | internal/alert/alert.go:79-99 | over every run, what goes downstream is what was fired: unchanged, in firing order, no firing twice |
| Delivery.DeliverIsARun | internal/watcher/controller.go:339-373 | an uninterrupted deliver extends any run; its effect is one function of the state for every order of the ageing loop |
| Delivery.ClearIsARun | internal/watcher/controller.go:375-382 | an uninterrupted clearObject extends any run; the entry and exactly its keys' records go, in any order |
| Findings.RapidIff | internal/watcher/controller.go:314-330 | with distinct container names each container is reported exactly if its own history shows a burst |
| Findings.DeletingPodAlertsIff | internal/watcher/controller.go:285-332 | a deleting pod is alerted on if and only if the detector is on and one of its containers bursts |
| Findings.DeletingPodCanAlert | internal/watcher/controller.go:308-330 | a concrete deleting pod that is alerted on |
| Findings.PodFindingsAbout | internal/watcher/controller.go:285-287 | reconciling a pod yields alerts about that pod only |
| Findings.NodeFindingsAbout | internal/watcher/controller.go:301-302 | reconciling a node yields alerts about that node only |
| Findings.FindsReports | internal/watcher/controller.go:285-286 | what a reconcile finds, the rules' alerts followed by the detector's, is as a set what the declarative rules and the detector report |
| Findings.PodFoundFields | internal/watcher/controller.go:285-330 | every alert found for a pod carries its kind, namespace, name and UID, and one of the burst detector is critical and about one of its containers |
| Findings.RapidFoundIff | internal/watcher/controller.go:308-330 | a container is reported as restarting rapidly if and only if the detector is on and its history, the observation made now included, has reached the threshold |
| Findings.PodFoundOrder | internal/watcher/controller.go:285-286 | the rules' alerts are found first, in their order, then the detector's, container by container |
| Findings.OnlyPendingRuleHasItsKey | internal/reliability/reliability.go:192-206 | the rules report the key of the pending alert if and only if the pending rule holds |
| Findings.PendingFoundIff | internal/watcher/controller.go:285-287 | so does a whole reconcile; the burst detector never produces that key |
| Reconcile.PodReconcileIsARun | internal/watcher/controller.go:273-289 | the effect of reconciling a pod is a stretch of a run: no step after a lister error; the clearing of the object if it is missing; otherwise the beginning, a firing of each alert found, in order and with its own clock reading, and the locked update |
| Reconcile.NodeReconcileIsARun | internal/watcher/controller.go:291-304 | the same for nodes, with one firing per calling condition |
| Reconcile.PodFound | internal/watcher/controller.go:285-287 | afterwards the keys marked as firing are exactly those of the alerts the rules and the detector find at the instant of the evaluation, all of them are recorded, and per reason as many firings have been counted |
| Reconcile.NodeFound | internal/watcher/controller.go:301-302 | the same for nodes; no restart history changes |
| Reconcile.PodGone | internal/watcher/controller.go:275-279 | afterwards no entry, mark or record of the pod's keys and no restart history of its containers is left; other pods' are what they were |
| Reconcile.NodeGone | internal/watcher/controller.go:294-297 | the same for nodes |
| Controller.Controller.constructor | internal/watcher/controller.go:113-138 | nothing active, the effective grace period and the given thresholds, detector settings, deduper and tracker in force |
| Controller.Controller.FireAlerts | internal/watcher/controller.go:341-345 | the alerts are fired in order and their keys collected |
| Controller.Controller.AgeMarks | internal/watcher/controller.go:354-367 | the loop that edits the map it ranges over yields the same marks and drops the same records in every order |
| Controller.Controller.AgeKey | internal/watcher/controller.go:357-366 | one visit of that loop changes at most the visited key |
| Controller.Controller.Deliver | internal/watcher/controller.go:339-373 | the active map and the whole deduper state become those of the delivery functions |
| Controller.Controller.ClearObject | internal/watcher/controller.go:375-382 | the entry and exactly its keys' records go |
| Controller.Controller.RapidRestartAlerts | internal/watcher/controller.go:306-332 | the histories and alerts are those of observing the containers in order; nothing happens when the detector is off |
| Controller.Controller.ReconcilePod | internal/watcher/controller.go:273-289 | a lister error changes nothing, a missing pod is cleared everywhere, otherwise exactly the alerts of the rules and then of the detector are delivered, in order: the relation that PodReconcileIsARun places in the protocol |
| Controller.Controller.ReconcileNode | internal/watcher/controller.go:291-304 | the same for nodes: one alert per calling condition is delivered, in order, and no restart history changes |
| Controller.Controller.UnhealthyPods | internal/watcher/controller.go:406-420 | the nested loop counts the pod entries with a firing key |
| RestartTracker.PruningIsHarmless | internal/watcher/restart_tracker.go:42-61 | for every ordered history the pruned list is the full list of increases restricted to the window |
| RestartTracker.BurstIsReal | internal/watcher/restart_tracker.go:42-61 | n increases reported mean the true count is at least n and rose by at least n - 1 since an instant strictly inside the window |
| RestartTracker.RestartedTimesIff | internal/watcher/controller.go:327-328 | "restarted n times within the window" is true of every course of the count that fits what was observed, if and only if the count rose by n from the first observation on or after the cutoff to the last |
| RestartTracker.ReportedAtMostOneTooMany | internal/watcher/restart_tracker.go:42-61 | the reported number exceeds that rise by at most one, and only if no observation lies on the cutoff and the first after it is itself an increase |
| RestartTracker.ReportIsRight | internal/watcher/restart_tracker.go:42-61 | otherwise the reported number is true of every course of the count that fits |
| RestartTracker.OneTooManyForEveryN | internal/watcher/restart_tracker.go:42-61 | for every n the window has room for, a history reported as n whose count rose by exactly n - 1 |
| RestartTracker.FirstSightingCounts | internal/watcher/restart_tracker.go:42-48 | a container first seen with old restarts is reported although its count never moved |
| RestartTracker.StaleIncreaseCounts | internal/watcher/restart_tracker.go:42-48 | a restart made before the window and noticed inside it is reported although the count did not move inside it |
| RestartTracker.Prune | internal/watcher/restart_tracker.go:51-58 | compacting into the array being read yields the order-preserving filter of the original contents |
| RestartTracker.Append | internal/watcher/restart_tracker.go:43-48 | appending in place or into a larger array gives the old contents and the new instant |
| RestartTracker.Update | internal/watcher/restart_tracker.go:42-58 | one history becomes the observation of what it was |
| RestartTracker.Tracker.Observation | internal/watcher/restart_tracker.go:38-62 | the container's history becomes the observation of what it was, no other container's changes, no two ever share an array, and the verdict is about the pruned history |
| RestartTracker.Tracker.Forget | internal/watcher/restart_tracker.go:64-69 | exactly this container's history goes |
| RestartTracker.Tracker.ForgetPod | internal/watcher/restart_tracker.go:71-81 | deleting while ranging leaves exactly the containers that do not match, in any order |
| RestartTracker.ForgetPodIsExact | internal/watcher/restart_tracker.go:71-81 | a container's history goes if and only if it belongs to that pod |
| RestartTracker.ViewsAreReplays | internal/watcher/restart_tracker.go:38-81 | after any observations, drops of containers and drops of pods, the history of a container is the replay of its own observations since it was last dropped |
| Bursts.RapidRestartIsReal | internal/watcher/controller.go:308-332 | every RapidRestart alert a reconcile finds, after any calls of the tracker, is about a container whose true count is at least the threshold and rose by one less strictly inside the window, and by all that was observed |
| Bursts.ReconcileKeepsViews | internal/watcher/controller.go:273-289 | every reconcile keeps the restart histories those of some sequence of calls, so the above always applies |
| ListWatch.WatchFrom | internal/k8sclient/client.go:265-290 | the handler is called for exactly the stream up to the message that ends it, unknown event types included, and the error is that message's |
| ListWatch.StreamCallCount | internal/k8sclient/client.go:271-289 | there is one handler call for each pod event before the message that ends the watch, and no other |
| ListWatch.StreamCallPlace | internal/k8sclient/client.go:284-289 | the call for a pod event hands on its type and object and stands where the event does among the pod events |
| ListWatch.StreamOutcomeIs | internal/k8sclient/client.go:272-288 | the error returned is that of the message that ends the watch |
| ListWatch.Seed | internal/k8sclient/client.go:240-242 | every listed pod becomes one ADDED call, in order |
| ListWatch.ListCallsAre | internal/k8sclient/client.go:240-242 | one ADDED call per listed pod, in order |
| ListWatch.Turn | internal/k8sclient/client.go:235-261 | a failed LIST is the failure reported; the loop stops exactly after that or a cancellation, wherever it is noticed; it pauses before listing again exactly if the watch did not end in 410 Gone and was not cancelled |
| ListWatch.ListAndWatch | internal/k8sclient/client.go:225-263 | the loop takes exactly the turns up to the first that stops it, reports only a failed LIST, and has called the handler for those turns |
| ListWatch.LoopLeavesRightly | internal/k8sclient/client.go:234-262 | no turn before the last had a failed LIST or a cancellation, the loop leaves only after one of these, and the error reported is exactly that of the last turn's LIST |
| ListWatch.ApplyStream | internal/k8sclient/client.go:271-289 | streaming keeps the cache in step with the server's log, and an event naming a leftover pod removes the discrepancy |
| ListWatch.CacheIsStatePlusGhosts | internal/k8sclient/client.go:234-290 | after any lists, streams, disconnects and 410s, every pod of the server's state at the position up to which the server has told the client is cached with its exact value, and the only other entries are pods that vanished unseen |
| ListWatch.CacheExactIff | internal/k8sclient/client.go:240-250 | cache and server agree if and only if no pod known to the client vanished unseen; always so before the first relist |
| ListWatch.DeletedPodMaySurvive | internal/k8sclient/client.go:240-250 | a pod deleted while the client was away, still cached after a relist |
| Detection.HistoryPairs | internal/watcher/controller.go:339-345 | in every interleaving the rounds of a key are, one for one and in order, the reconciles begun for its object, and a round fires the key exactly if the reconcile found it |
| Detection.StuckPodDetected | internal/watcher/controller.go:273-289 | an unchanged pending pod without a record, reconciled at most R apart from creation on, each reconcile setting out to fire what the rules and the detector report, is delivered next by the reconcile evaluated in [creation + grace, creation + grace + R) and not before, in every interleaving, whatever was reconciled under its name earlier |
| Detection.NewPodDetected | internal/watcher/controller.go:273-289 | the same from any state of a run in which the deduper holds no record of the key |
| Promises.ResendPromiseIff | internal/alert/alert.go:65-66 | over all runs in which the object is not cleared, deliveries of a key are at least the resend interval apart if and only if resend does not exceed the grace period |
| Promises.ResendPromiseWithClearingIff | internal/watcher/controller.go:375-382 | over all runs, if and only if resend is not positive |
| Promises.FlapDefeatsResend | internal/watcher/controller.go:363-366 | a run without clearing in which a key is delivered twice exactly the grace period apart |
| Promises.ReturnDefeatsResend | internal/watcher/controller.go:375-382 | a run in which an object is cleared and returns, and a key is delivered twice at one instant |

## Left out

- HTTP, TLS, JSON decoding, URL building and service-account files of the list-then-watch client: the
  loop is modelled at the level of list answers and stream messages.
- client-go informers, listers, the rate limiter and the event broadcaster: they are not part of this
  model; only the assumption that one object is handed to one worker at a time remains.
- The retry cap of `processNext`: it rests on the queue's own requeue count.
- Alert message texts, object references, the slog record and the Event text: formatting only.
- A deduper or Event sink without counters: the pipeline built by the command always has them.
- Prometheus registration and the HTTP probes: counters are multisets of labels.
- Saturation of Go durations and overflow of instants: time is an unbounded integer.
- Dedup.Deduper.Fire: is one worker's code run to its end; that other workers step in between the lock
  and the delivery is modelled by Fanout.
- ListWatch.ListAndWatch: the loop ends when the environment offers no further turn, which is also how
  a context cancelled before the first turn appears.
- Reconcile.PodReconcileIsARun: places a reconcile that no other worker interrupts in the protocol;
  interrupted ones are the protocol's own runs, not runs of the class methods.
