/** What the rule engine reports (internal/reliability/reliability.go:116-257), said once more in terms
    of the fields of pods and nodes alone: which alerts, how many, and in which order. */
module RuleReports {
  import opened Base
  import opened Identity
  import opened Rules

  // ----------------------------------------------------------------------- pods

  /** Which alerts are reported of a pod, in terms of its fields alone. */
  lemma {:induction false} PodReportFields(pod: Pod, t: Thresholds, now: Time, a: Alert)
    ensures a in RuleAlerts(pod, t, now) <==>
            && !pod.deleting
            && a.kind == "Pod" && a.namespace == pod.namespace && a.name == pod.name && a.uid == pod.uid
            && (|| (exists cs :: cs in pod.containers && cs.name == a.container &&
                      (|| (a.reason == CrashLoopBackOff && a.severity == Critical && cs.waiting == Some("CrashLoopBackOff"))
                       || (a.reason == ImagePullError && a.severity == Warning
                           && (cs.waiting == Some("ImagePullBackOff") || cs.waiting == Some("ErrImagePull")))
                       || (a.reason == OOMKilled && a.severity == Critical
                           && (cs.terminated == Some("OOMKilled") || cs.lastTerminated == Some("OOMKilled")))
                       || (a.reason == HighRestartCount && a.severity == Warning
                           && cs.restartCount >= t.restartCountWarn && !cs.ready)))
                || (&& a.reason == PodStuckPending && a.severity == Warning && a.container == ""
                    && pod.phase == "Pending" && now - pod.created >= t.pendingGrace
                    && forall cs :: cs in pod.containers ==>
                         && cs.waiting != Some("CrashLoopBackOff")
                         && cs.waiting != Some("ImagePullBackOff") && cs.waiting != Some("ErrImagePull")))
  {
    RuleAlertsSpec(pod, t, now);
  }

  /** An OOM kill is still reported once the container has been restarted, whatever its new state. */
  lemma {:induction false} OomSurvivesRestart(pod: Pod, t: Thresholds, now: Time, i: nat, restarted: ContainerStatus)
    requires i < |pod.containers| && !pod.deleting && pod.containers[i].terminated == Some("OOMKilled")
    requires restarted.name == pod.containers[i].name && restarted.terminated == None
    requires restarted.lastTerminated == pod.containers[i].terminated
    ensures var a := Alert(OOMKilled, Critical, "Pod", pod.namespace, pod.name, pod.uid, restarted.name);
            && a in RuleAlerts(pod, t, now)
            && a in RuleAlerts(pod.(containers := pod.containers[i := restarted]), t, now)
  {
    var a := Alert(OOMKilled, Critical, "Pod", pod.namespace, pod.name, pod.uid, restarted.name);
    var after := pod.(containers := pod.containers[i := restarted]);
    assert pod.containers[i] in pod.containers && after.containers[i] in after.containers;
    PodReportFields(pod, t, now, a);
    PodReportFields(after, t, now, a);
  }

  /** Where a rule stands among those of a container. */
  function Rank(reason: Reason): (n: nat)
  {
    match reason
    case CrashLoopBackOff => 0
    case ImagePullError => 1
    case OOMKilled => 2
    case HighRestartCount => 3
    case _ => 4
  }

  lemma {:induction false} KeptInOrder(pod: Pod, t: Thresholds, cs: ContainerStatus, n: nat)
    requires n <= |RULE_ORDER|
    ensures forall i :: 0 <= i < |Kept(pod, t, cs, n)| ==> Rank(Kept(pod, t, cs, n)[i].reason) < n
    ensures forall i, j :: 0 <= i < j < |Kept(pod, t, cs, n)| ==>
              Rank(Kept(pod, t, cs, n)[i].reason) < Rank(Kept(pod, t, cs, n)[j].reason)
  {
    if n > 0 {
      KeptInOrder(pod, t, cs, n - 1);
    }
  }

  /** Alerts of earlier containers come first, and those of one container in the order of the rules. */
  ghost predicate InContainerOrder(pod: Pod, alerts: seq<Alert>)
  {
    forall i, j :: 0 <= i < j < |alerts| ==> ComesFirst(pod, alerts[i], alerts[j])
  }

  /** a is about an earlier container than b, or about the same one by an earlier rule. */
  ghost predicate ComesFirst(pod: Pod, a: Alert, b: Alert)
  {
    forall x, y :: 0 <= x < |pod.containers| && 0 <= y < |pod.containers| && Names(pod, x, a) && Names(pod, y, b) ==>
      x < y || (x == y && Rank(a.reason) < Rank(b.reason))
  }

  predicate Names(pod: Pod, x: nat, a: Alert)
    requires x < |pod.containers|
  {
    pod.containers[x].name == a.container
  }

  lemma {:induction false} AppendInOrder(pod: Pod, t: Thresholds, n: nat, alerts: seq<Alert>, more: seq<Alert>)
    requires n < |pod.containers| && DistinctNames(pod.containers) && InContainerOrder(pod, alerts)
    requires forall a :: a in alerts ==> FromFirst(pod, t, n, a)
    requires forall a :: a in more ==> a.container == pod.containers[n].name
    requires forall i, j :: 0 <= i < j < |more| ==> Rank(more[i].reason) < Rank(more[j].reason)
    ensures InContainerOrder(pod, alerts + more)
  {
    var all := alerts + more;
    forall i, j | 0 <= i < j < |all| ensures ComesFirst(pod, all[i], all[j]) {
      if j < |alerts| {
        assert all[i] == alerts[i] && all[j] == alerts[j];
      } else {
        assert all[j] in more;
        assert all[i] in if i < |alerts| then alerts else more;
      }
    }
  }

  lemma {:induction false} HoldingInOrder(pod: Pod, t: Thresholds, n: nat, alerts: seq<Alert>)
    requires n < |pod.containers| && DistinctNames(pod.containers)
    requires ListsFirst(pod, t, n, alerts) && InContainerOrder(pod, alerts)
    ensures InContainerOrder(pod, alerts + HoldingAlerts(pod, t, pod.containers[n]))
  {
    HoldingAlertsSpec(pod, t, pod.containers[n]);
    KeptInOrder(pod, t, pod.containers[n], |RULE_ORDER|);
    AppendInOrder(pod, t, n, alerts, HoldingAlerts(pod, t, pod.containers[n]));
  }

  lemma {:induction false} FirstAlertsInOrder(pod: Pod, t: Thresholds, n: nat)
    requires n <= |pod.containers| && DistinctNames(pod.containers)
    ensures InContainerOrder(pod, FirstAlerts(pod, t, n))
  {
    if n > 0 {
      FirstAlertsInOrder(pod, t, n - 1);
      FirstAlertsSpec(pod, t, n - 1);
      HoldingInOrder(pod, t, n - 1, FirstAlerts(pod, t, n - 1));
    }
  }

  /** The order of what is reported of a pod: the containers' alerts in order, then the pending one. */
  lemma {:induction false} PodReportOrder(pod: Pod, t: Thresholds, now: Time)
    requires DistinctNames(pod.containers)
    ensures var alerts := RuleAlerts(pod, t, now);
            && (forall i :: 0 <= i < |alerts| && alerts[i].reason == PodStuckPending ==> i == |alerts| - 1)
            && InContainerOrder(pod, if alerts != [] && alerts[|alerts|-1].reason == PodStuckPending then alerts[..|alerts|-1] else alerts)
  {
    if !pod.deleting {
      var first := FirstAlerts(pod, t, |pod.containers|);
      FirstAlertsInOrder(pod, t, |pod.containers|);
      FirstAlertsSpec(pod, t, |pod.containers|);
      assert forall i :: 0 <= i < |first| ==> first[i] in first;
      assert (first + [PodAlert(pod, PodStuckPending, Warning, "")])[..|first|] == first;
    }
  }

  // ---------------------------------------------------------------------- nodes

  /** Which alerts are reported of a node, in terms of its fields alone. */
  lemma {:induction false} NodeReportFields(node: Node, t: Thresholds, now: Time, alerts: seq<Alert>, a: Alert)
    requires OnePerCalling(node, node.conditions, t, now, alerts)
    ensures a in alerts <==>
            && a.kind == "Node" && a.namespace == "" && a.name == node.name && a.uid == node.uid && a.container == ""
            && (|| (a.reason == NodeNotReady && a.severity == Critical &&
                    exists c :: c in node.conditions && c.kind == "Ready" && c.status != "True"
                                && now - c.lastTransition >= t.nodeNotReadyGrace)
                || (a.reason == NodePressure && a.severity == Warning &&
                    exists c :: c in node.conditions && c.status == "True"
                                && (c.kind == "MemoryPressure" || c.kind == "DiskPressure" || c.kind == "PIDPressure")))
  {
    OnePerCallingIsRules(node, t, now, alerts);
  }

  /** How many of the first n conditions call for an alert. */
  function CallsAmong(cs: seq<Condition>, t: Thresholds, now: Time, n: nat): (m: nat)
    requires n <= |cs|
  {
    if n == 0 then 0
    else
      var c := cs[n-1];
      CallsAmong(cs, t, now, n - 1) +
      (if || (c.kind == "Ready" && c.status != "True" && now - c.lastTransition >= t.nodeNotReadyGrace)
          || ((c.kind == "MemoryPressure" || c.kind == "DiskPressure" || c.kind == "PIDPressure") && c.status == "True")
       then 1 else 0)
  }

  lemma {:induction false} CallingCount(cs: seq<Condition>, t: Thresholds, now: Time, n: nat)
    requires n <= |cs|
    ensures |Calling(cs[..n], t, now)| == CallsAmong(cs, t, now, n)
  {
    if n > 0 {
      CallingCount(cs, t, now, n - 1);
      assert cs[..n] == cs[..n-1] + [cs[n-1]];
      CallingSnoc(cs[..n-1], cs[n-1], t, now);
    }
  }

  lemma {:induction false} CallingPlace(cs: seq<Condition>, t: Thresholds, now: Time, n: nat, i: nat)
    requires i < n <= |cs| && CallsAmong(cs, t, now, i) < CallsAmong(cs, t, now, i + 1)
    ensures CallsAmong(cs, t, now, i) < |Calling(cs[..n], t, now)|
    ensures Calling(cs[..n], t, now)[CallsAmong(cs, t, now, i)] == cs[i]
  {
    assert cs[..n] == cs[..n-1] + [cs[n-1]];
    CallingSnoc(cs[..n-1], cs[n-1], t, now);
    if n == i + 1 {
      CallingCount(cs, t, now, i);
      CallingCount(cs, t, now, n);
    } else {
      CallingPlace(cs, t, now, n - 1, i);
    }
  }

  /** There is one alert for each condition that calls for one, and it stands where the condition does
      among those: of the kind NodeNotReady for Ready, NodePressure otherwise. */
  lemma {:induction false} NodeReportPlaces(node: Node, t: Thresholds, now: Time, alerts: seq<Alert>, i: nat)
    requires OnePerCalling(node, node.conditions, t, now, alerts) && i < |node.conditions|
    ensures |alerts| == CallsAmong(node.conditions, t, now, |node.conditions|)
    ensures var at := CallsAmong(node.conditions, t, now, i);
            CallsAmong(node.conditions, t, now, i + 1) > at ==>
              && at < |alerts|
              && alerts[at].reason == (if node.conditions[i].kind == "Ready" then NodeNotReady else NodePressure)
  {
    var n := |node.conditions|;
    assert node.conditions[..n] == node.conditions;
    CallingCount(node.conditions, t, now, n);
    if CallsAmong(node.conditions, t, now, i) < CallsAmong(node.conditions, t, now, i + 1) {
      CallingPlace(node.conditions, t, now, n, i);
    }
  }

  /** The two conditions differ at most in which status other than "True" a Ready condition shows. */
  predicate AlikeUnlessTrue(c: Condition, c': Condition)
  {
    && c.kind == c'.kind && c.lastTransition == c'.lastTransition
    && (c.status == c'.status || (c.kind == "Ready" && c.status != "True" && c'.status != "True"))
  }

  /** "Unknown", the status of a node whose kubelet fell silent, is reported exactly as "False" is. */
  lemma {:induction false} AnyStatusButTrue(
      node: Node, node': Node, t: Thresholds, now: Time, alerts: seq<Alert>, alerts': seq<Alert>)
    requires node.name == node'.name && node.uid == node'.uid && |node.conditions| == |node'.conditions|
    requires forall i :: 0 <= i < |node.conditions| ==> AlikeUnlessTrue(node.conditions[i], node'.conditions[i])
    requires OnePerCalling(node, node.conditions, t, now, alerts)
    requires OnePerCalling(node', node'.conditions, t, now, alerts')
    ensures alerts == alerts'
  {
    CallingAlike(node.conditions, node'.conditions, t, now);
  }

  lemma {:induction false} CallingAlike(cs: seq<Condition>, cs': seq<Condition>, t: Thresholds, now: Time)
    requires |cs| == |cs'| && forall i :: 0 <= i < |cs| ==> AlikeUnlessTrue(cs[i], cs'[i])
    ensures |Calling(cs, t, now)| == |Calling(cs', t, now)|
    ensures forall i :: 0 <= i < |Calling(cs, t, now)| ==> Calling(cs, t, now)[i].kind == Calling(cs', t, now)[i].kind
  {
    if cs != [] {
      CallingAlike(cs[..|cs|-1], cs'[..|cs'|-1], t, now);
    }
  }
}
