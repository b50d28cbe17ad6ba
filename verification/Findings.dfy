/** What one reconcile of an object finds (internal/watcher/controller.go:273-332): the alerts of the
    rules and, for pods, those of the burst detector. */
module Findings {
  import opened Base
  import opened Identity
  import opened Rules
  import opened RuleReports
  import opened RestartTracker
  import opened Lifecycle

  // ------------------------------------------------------------- rapid restarts

  /** The tracker's histories and the alerts after the first n containers. */
  datatype Rapid = Rapid(view: map<string, Observed>, alerts: seq<Alert>)

  function RapidSpec(window: int, threshold: int, view: map<string, Observed>, pod: Pod, now: Time, n: nat): (r: Rapid)
    requires n <= |pod.containers|
  {
    if n == 0 then Rapid(view, [])
    else RapidStep(window, threshold, RapidSpec(window, threshold, view, pod, now, n - 1), pod, now, pod.containers[n-1])
  }

  lemma {:induction false} RapidSnoc(
      window: int, threshold: int, view: map<string, Observed>, pod: Pod, now: Time, n: nat, r: Rapid)
    requires n < |pod.containers| && r == RapidSpec(window, threshold, view, pod, now, n)
    ensures RapidStep(window, threshold, r, pod, now, pod.containers[n]) == RapidSpec(window, threshold, view, pod, now, n + 1)
  {
  }

  function KeyOf(pod: Pod, cs: ContainerStatus): (k: string)
  {
    ContainerKey(pod.namespace, pod.name, cs.name)
  }

  function RapidAlert(pod: Pod, cs: ContainerStatus): (a: Alert)
  {
    PodAlert(pod, RapidRestart, Critical, cs.name)
  }

  /** The container's history once it has been observed now. */
  function Sighting(window: int, view: map<string, Observed>, pod: Pod, now: Time, cs: ContainerStatus): (h: Observed)
  {
    Observe(window, HistoryOf(view, KeyOf(pod, cs)), cs.restartCount, now)
  }

  function RapidStep(window: int, threshold: int, r: Rapid, pod: Pod, now: Time, cs: ContainerStatus): (r': Rapid)
  {
    var h := Sighting(window, r.view, pod, now, cs);
    Rapid(r.view[KeyOf(pod, cs) := h],
          if |h.increments| >= threshold then r.alerts + [RapidAlert(pod, cs)] else r.alerts)
  }

  /** Everything a reconcile finds out about restarts: nothing when the detector is switched off. */
  function RapidOf(window: int, count: int, view: map<string, Observed>, pod: Pod, now: Time): (r: Rapid)
  {
    if count <= 0 then Rapid(view, []) else RapidSpec(window, count, view, pod, now, |pod.containers|)
  }

  /** The observation made now shows a burst. */
  predicate Bursting(window: int, count: int, view: map<string, Observed>, pod: Pod, now: Time, cs: ContainerStatus)
  {
    |Sighting(window, view, pod, now, cs).increments| >= count
  }

  lemma {:induction false} ContainerKeysDiffer(pod: Pod, cs: ContainerStatus, cs': ContainerStatus)
    requires cs.name != cs'.name
    ensures KeyOf(pod, cs) != KeyOf(pod, cs')
  {
    var p := PodKey(pod.namespace, pod.name) + "/";
    assert (p + cs.name)[|p|..] == cs.name && (p + cs'.name)[|p|..] == cs'.name;
  }

  /** Observing a container leaves the others' histories alone and reports only itself. */
  lemma {:induction false} RapidStepFrame(
      window: int, threshold: int, r: Rapid, pod: Pod, now: Time, cs: ContainerStatus, other: ContainerStatus)
    requires cs.name != other.name
    ensures var r' := RapidStep(window, threshold, r, pod, now, cs);
            && HistoryOf(r'.view, KeyOf(pod, other)) == HistoryOf(r.view, KeyOf(pod, other))
            && (RapidAlert(pod, other) in r'.alerts <==> RapidAlert(pod, other) in r.alerts)
  {
    ContainerKeysDiffer(pod, cs, other);
    assert RapidAlert(pod, other).container != RapidAlert(pod, cs).container;
  }

  lemma {:induction false} RapidStepSelf(
      window: int, threshold: int, view: map<string, Observed>, r: Rapid, pod: Pod, now: Time, cs: ContainerStatus)
    requires HistoryOf(r.view, KeyOf(pod, cs)) == HistoryOf(view, KeyOf(pod, cs))
    requires RapidAlert(pod, cs) !in r.alerts
    ensures RapidAlert(pod, cs) in RapidStep(window, threshold, r, pod, now, cs).alerts <==>
            Bursting(window, threshold, view, pod, now, cs)
  {
    assert Sighting(window, r.view, pod, now, cs) == Sighting(window, view, pod, now, cs);
  }

  /** What is known of container cs after n observations, of which its own is the i-th. */
  ghost predicate JudgedAlone(
      window: int, threshold: int, view: map<string, Observed>, r: Rapid, pod: Pod, now: Time, cs: ContainerStatus, done: bool)
  {
    && (!done ==> HistoryOf(r.view, KeyOf(pod, cs)) == HistoryOf(view, KeyOf(pod, cs)))
    && (RapidAlert(pod, cs) in r.alerts <==> done && Bursting(window, threshold, view, pod, now, cs))
  }

  lemma {:induction false} JudgedStep(
      window: int, threshold: int, view: map<string, Observed>, r: Rapid, pod: Pod, now: Time,
      observed: ContainerStatus, cs: ContainerStatus, done: bool)
    requires JudgedAlone(window, threshold, view, r, pod, now, cs, done)
    requires observed == cs || observed.name != cs.name
    requires observed == cs ==> !done
    ensures JudgedAlone(window, threshold, view, RapidStep(window, threshold, r, pod, now, observed), pod, now, cs, done || observed == cs)
  {
    if observed == cs {
      RapidStepSelf(window, threshold, view, r, pod, now, cs);
    } else {
      RapidStepFrame(window, threshold, r, pod, now, observed, cs);
    }
  }

  /** With distinct container names each container is judged on its own history alone. */
  lemma {:induction false} RapidIff(
      window: int, threshold: int, view: map<string, Observed>, pod: Pod, now: Time, n: nat, i: nat)
    requires n <= |pod.containers| && i < |pod.containers| && DistinctNames(pod.containers)
    ensures JudgedAlone(window, threshold, view, RapidSpec(window, threshold, view, pod, now, n), pod, now, pod.containers[i], i < n)
  {
    if n > 0 {
      var m: nat := n - 1;
      var r := RapidSpec(window, threshold, view, pod, now, m);
      RapidIff(window, threshold, view, pod, now, m, i);
      assert m != i ==> pod.containers[m].name != pod.containers[i].name;
      JudgedStep(window, threshold, view, r, pod, now, pod.containers[m], pod.containers[i], i < m);
      RapidSnoc(window, threshold, view, pod, now, m, r);
    }
  }

  lemma {:induction false} RapidOnlyReportsContainers(
      window: int, threshold: int, view: map<string, Observed>, pod: Pod, now: Time, n: nat, a: Alert)
    requires n <= |pod.containers|
    requires a in RapidSpec(window, threshold, view, pod, now, n).alerts
    ensures exists i :: 0 <= i < n && a == RapidAlert(pod, pod.containers[i])
  {
    if a != RapidAlert(pod, pod.containers[n-1]) {
      RapidOnlyReportsContainers(window, threshold, view, pod, now, n - 1, a);
    }
  }

  /** Something is reported about the pod. */
  ghost predicate Reports(t: Thresholds, window: int, count: int, view: map<string, Observed>, pod: Pod, now: Time, a: Alert)
  {
    PodRule(pod, t, now, a) || a in RapidOf(window, count, view, pod, now).alerts
  }

  /** A reconcile of the pod finds exactly these alerts, in this order (those of the rules, then those
      of the burst detector), and leaves these restart histories. */
  ghost predicate Finds(
      t: Thresholds, window: int, count: int, view: map<string, Observed>, pod: Pod, now: Time,
      alerts: seq<Alert>, view': map<string, Observed>)
  {
    && alerts == RuleAlerts(pod, t, now) + RapidOf(window, count, view, pod, now).alerts
    && view' == RapidOf(window, count, view, pod, now).view
  }

  /** As a set, they are what the declarative rules and the burst detector report. */
  lemma {:induction false} FindsReports(
      t: Thresholds, window: int, count: int, view: map<string, Observed>, pod: Pod, now: Time,
      alerts: seq<Alert>, view': map<string, Observed>)
    requires Finds(t, window, count, view, pod, now, alerts, view')
    ensures forall a :: a in alerts <==> Reports(t, window, count, view, pod, now, a)
  {
    RuleAlertsSpec(pod, t, now);
  }

  /** The rule engine never alerts on a pod that is being deleted, but the burst detector does not
      look: such a pod is alerted on exactly when the detector is on and one of its containers shows
      a burst. */
  lemma {:induction false} DeletingPodAlertsIff(
      t: Thresholds, window: int, count: int, view: map<string, Observed>, pod: Pod, now: Time)
    requires pod.deleting && DistinctNames(pod.containers)
    ensures (exists a :: Reports(t, window, count, view, pod, now, a)) <==>
            count > 0 && exists i :: 0 <= i < |pod.containers| && Bursting(window, count, view, pod, now, pod.containers[i])
  {
    var n := |pod.containers|;
    if a :| Reports(t, window, count, view, pod, now, a) {
      RapidOnlyReportsContainers(window, count, view, pod, now, n, a);
      var i :| 0 <= i < n && a == RapidAlert(pod, pod.containers[i]);
      RapidIff(window, count, view, pod, now, n, i);
    }
    if count > 0 {
      forall i | 0 <= i < n && Bursting(window, count, view, pod, now, pod.containers[i])
        ensures Reports(t, window, count, view, pod, now, RapidAlert(pod, pod.containers[i]))
      {
        RapidIff(window, count, view, pod, now, n, i);
      }
    }
  }

  lemma {:induction false} DeletingPodCanAlert(t: Thresholds, now: Time)
    ensures var pod := Pod("ns", "web", "", 0, true, "Running", [ContainerStatus("app", 1, true, None, None, None)]);
            pod.deleting && exists a :: Reports(t, 60, 1, map[], pod, now, a)
  {
    var pod := Pod("ns", "web", "", 0, true, "Running", [ContainerStatus("app", 1, true, None, None, None)]);
    AfterSnoc([], now, now - 60);
    assert [] + [now] == [now];
    assert Bursting(60, 1, map[], pod, now, pod.containers[0]);
    DeletingPodAlertsIff(t, 60, 1, map[], pod, now);
  }

  // ------------------------------------------------------- what the alerts are about

  function PodQueueKey(pod: Pod): (q: QueueKey)
  {
    QueueKey("Pod", pod.namespace, pod.name)
  }

  function NodeQueueKey(node: Node): (q: QueueKey)
  {
    QueueKey("Node", "", node.name)
  }

  /** Reconciling a pod yields alerts about that pod. */
  lemma {:induction false} PodFindingsAbout(
      t: Thresholds, window: int, count: int, view: map<string, Observed>, pod: Pod, now: Time,
      alerts: seq<Alert>, view': map<string, Observed>)
    requires Finds(t, window, count, view, pod, now, alerts, view')
    ensures About(PodQueueKey(pod), alerts)
  {
    FindsReports(t, window, count, view, pod, now, alerts, view');
    forall a | a in alerts ensures Subject(a) == PodQueueKey(pod) {
      if !PodRule(pod, t, now, a) {
        RapidOnlyReportsContainers(window, count, view, pod, now, |pod.containers|, a);
      }
    }
  }

  /** Every alert found for a pod carries its identity, and those of the burst detector are critical and
      about one of its containers. */
  lemma {:induction false} PodFoundFields(
      t: Thresholds, window: int, count: int, view: map<string, Observed>, pod: Pod, now: Time,
      alerts: seq<Alert>, view': map<string, Observed>, a: Alert)
    requires Finds(t, window, count, view, pod, now, alerts, view') && a in alerts
    ensures a.kind == "Pod" && a.namespace == pod.namespace && a.name == pod.name && a.uid == pod.uid
    ensures a.reason == RapidRestart ==>
              a.severity == Critical && exists cs :: cs in pod.containers && cs.name == a.container
  {
    PodReportFields(pod, t, now, a);
    if a !in RuleAlerts(pod, t, now) {
      RapidOnlyReportsContainers(window, count, view, pod, now, |pod.containers|, a);
    }
  }

  /** The burst detector reports a container exactly if it is on and, the observation made now included,
      the container's history in the window has reached the threshold. */
  lemma {:induction false} RapidFoundIff(
      t: Thresholds, window: int, count: int, view: map<string, Observed>, pod: Pod, now: Time,
      alerts: seq<Alert>, view': map<string, Observed>, i: nat)
    requires Finds(t, window, count, view, pod, now, alerts, view')
    requires DistinctNames(pod.containers) && i < |pod.containers|
    ensures var cs := pod.containers[i];
            var h := Observe(window, HistoryOf(view, ContainerKey(pod.namespace, pod.name, cs.name)), cs.restartCount, now);
            Alert(RapidRestart, Critical, "Pod", pod.namespace, pod.name, pod.uid, cs.name) in alerts <==>
              count > 0 && |h.increments| >= count
  {
    var a := Alert(RapidRestart, Critical, "Pod", pod.namespace, pod.name, pod.uid, pod.containers[i].name);
    PodReportFields(pod, t, now, a);
    RapidIff(window, count, view, pod, now, |pod.containers|, i);
  }

  lemma {:induction false} RapidInOrder(
      window: int, threshold: int, view: map<string, Observed>, pod: Pod, now: Time, n: nat)
    requires n <= |pod.containers| && DistinctNames(pod.containers)
    ensures InContainerOrder(pod, RapidSpec(window, threshold, view, pod, now, n).alerts)
  {
    if n > 0 {
      var m: nat := n - 1;
      RapidInOrder(window, threshold, view, pod, now, m);
      RapidStepInOrder(window, threshold, view, pod, now, m, RapidSpec(window, threshold, view, pod, now, m));
    }
  }

  lemma {:induction false} RapidStepInOrder(
      window: int, threshold: int, view: map<string, Observed>, pod: Pod, now: Time, m: nat, r: Rapid)
    requires m < |pod.containers| && DistinctNames(pod.containers)
    requires r == RapidSpec(window, threshold, view, pod, now, m) && InContainerOrder(pod, r.alerts)
    ensures InContainerOrder(pod, RapidStep(window, threshold, r, pod, now, pod.containers[m]).alerts)
  {
    forall i | 0 <= i < |r.alerts| ensures ComesFirst(pod, r.alerts[i], RapidAlert(pod, pod.containers[m])) {
      RapidOnlyReportsContainers(window, threshold, view, pod, now, m, r.alerts[i]);
    }
    OrderSnoc(pod, r.alerts, RapidAlert(pod, pod.containers[m]));
  }

  lemma {:induction false} OrderSnoc(pod: Pod, alerts: seq<Alert>, a: Alert)
    requires InContainerOrder(pod, alerts) && forall i :: 0 <= i < |alerts| ==> ComesFirst(pod, alerts[i], a)
    ensures InContainerOrder(pod, alerts + [a])
  {
  }

  lemma {:induction false} RulesNeverRapid(pod: Pod, t: Thresholds, now: Time, i: nat)
    requires i < |RuleAlerts(pod, t, now)|
    ensures RuleAlerts(pod, t, now)[i].reason != RapidRestart
  {
    PodReportFields(pod, t, now, RuleAlerts(pod, t, now)[i]);
  }

  lemma {:induction false} DetectorAlwaysRapid(window: int, count: int, view: map<string, Observed>, pod: Pod, now: Time, i: nat)
    requires i < |RapidOf(window, count, view, pod, now).alerts|
    ensures RapidOf(window, count, view, pod, now).alerts[i].reason == RapidRestart
  {
    RapidOnlyReportsContainers(window, count, view, pod, now, |pod.containers|, RapidOf(window, count, view, pod, now).alerts[i]);
  }

  /** The order in which a pod's alerts are found, and so fired: the first n are those of the rules, in
      their order; the others those of the burst detector, container by container. */
  lemma {:induction false} PodFoundOrder(
      t: Thresholds, window: int, count: int, view: map<string, Observed>, pod: Pod, now: Time,
      alerts: seq<Alert>, view': map<string, Observed>) returns (n: nat)
    requires Finds(t, window, count, view, pod, now, alerts, view') && DistinctNames(pod.containers)
    ensures n <= |alerts| && alerts[..n] == RuleAlerts(pod, t, now)
    ensures forall i :: 0 <= i < n ==> alerts[i].reason != RapidRestart
    ensures forall i :: n <= i < |alerts| ==> alerts[i].reason == RapidRestart
    ensures InContainerOrder(pod, alerts[n..])
  {
    var ruled, rapid := RuleAlerts(pod, t, now), RapidOf(window, count, view, pod, now).alerts;
    n := |ruled|;
    assert alerts[..n] == ruled && alerts[n..] == rapid;
    forall i | 0 <= i < n ensures alerts[i].reason != RapidRestart {
      RulesNeverRapid(pod, t, now, i);
    }
    forall i | n <= i < |alerts| ensures alerts[i].reason == RapidRestart {
      DetectorAlwaysRapid(window, count, view, pod, now, i - n);
    }
    if count > 0 {
      RapidInOrder(window, count, view, pod, now, |pod.containers|);
    }
  }

  lemma {:induction false} NodeFindingsAbout(node: Node, t: Thresholds, now: Time, alerts: seq<Alert>)
    requires forall a :: a in alerts ==> NodeRule(node, t, now, a)
    ensures About(NodeQueueKey(node), alerts)
  {
    forall a | a in alerts ensures Subject(a) == NodeQueueKey(node) {
      assert NodeRule(node, t, now, a);
    }
  }

  function PendingKey(pod: Pod): (k: string)
  {
    Key(PodAlert(pod, PodStuckPending, Warning, ""))
  }

  /** Among everything the rules can report about a pod, only the pending rule produces its key. */
  lemma {:induction false} OnlyPendingRuleHasItsKey(pod: Pod, t: Thresholds, now: Time)
    ensures (exists a :: PodRule(pod, t, now, a) && Key(a) == PendingKey(pod)) <==>
            !pod.deleting && StuckPending(pod, t, now)
  {
    var pending := PodAlert(pod, PodStuckPending, Warning, "");
    if !pod.deleting && StuckPending(pod, t, now) {
      assert PodRule(pod, t, now, pending);
    }
    forall a | PodRule(pod, t, now, a) && Key(a) == PendingKey(pod) ensures StuckPending(pod, t, now) {
      SamePodKeys(pod, a, pending);
    }
  }

  /** A reconcile fires the key of the pending alert if and only if the pending rule holds; the burst
      detector never produces it. */
  lemma {:induction false} PendingFoundIff(
      t: Thresholds, window: int, count: int, view: map<string, Observed>, pod: Pod, now: Time,
      alerts: seq<Alert>, view': map<string, Observed>)
    requires Finds(t, window, count, view, pod, now, alerts, view')
    ensures PendingKey(pod) in Keys(alerts) <==> !pod.deleting && StuckPending(pod, t, now)
  {
    OnlyPendingRuleHasItsKey(pod, t, now);
    FindsReports(t, window, count, view, pod, now, alerts, view');
    forall a | a in alerts && Key(a) == PendingKey(pod) ensures PodRule(pod, t, now, a) {
      if !PodRule(pod, t, now, a) {
        RapidOnlyReportsContainers(window, count, view, pod, now, |pod.containers|, a);
        SamePodKeys(pod, a, PodAlert(pod, PodStuckPending, Warning, ""));
      }
    }
    forall a | PodRule(pod, t, now, a) && Key(a) == PendingKey(pod) ensures PendingKey(pod) in Keys(alerts) {
      assert Reports(t, window, count, view, pod, now, a);
    }
  }
}
