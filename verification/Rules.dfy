/** The rule engine (internal/reliability/reliability.go:92-257): pure rules from one object,
    thresholds and an instant to alerts. Only the fields the rules read are kept. */
module Rules {
  import opened Base
  import opened Identity

  datatype Thresholds = Thresholds(restartCountWarn: int, pendingGrace: int, nodeNotReadyGrace: int)

  /** Reasons of the waiting, terminated and previous terminated states, when present. */
  datatype ContainerStatus = ContainerStatus(
    name: string,
    restartCount: int,
    ready: bool,
    waiting: Option<string>,
    terminated: Option<string>,
    lastTerminated: Option<string>)

  datatype Pod = Pod(
    namespace: string,
    name: string,
    uid: string,
    created: Time,
    deleting: bool,
    phase: string,
    containers: seq<ContainerStatus>)

  datatype Condition = Condition(kind: string, status: string, lastTransition: Time)

  datatype Node = Node(name: string, uid: string, conditions: seq<Condition>)

  // --------------------------------------------------------- declarative rules

  predicate IsCrashLoop(cs: ContainerStatus)
  {
    cs.waiting == Some("CrashLoopBackOff")
  }

  predicate IsImagePull(cs: ContainerStatus)
  {
    cs.waiting == Some("ImagePullBackOff") || cs.waiting == Some("ErrImagePull")
  }

  predicate IsOom(cs: ContainerStatus)
  {
    cs.terminated == Some("OOMKilled") || cs.lastTerminated == Some("OOMKilled")
  }

  predicate IsRestartHeavy(t: Thresholds, cs: ContainerStatus)
  {
    cs.restartCount >= t.restartCountWarn && !cs.ready
  }

  /** Which reason, at which severity, holds of a container. */
  predicate ContainerRule(t: Thresholds, cs: ContainerStatus, reason: Reason, severity: Severity)
  {
    match reason
    case CrashLoopBackOff => severity == Critical && IsCrashLoop(cs)
    case ImagePullError => severity == Warning && IsImagePull(cs)
    case OOMKilled => severity == Critical && IsOom(cs)
    case HighRestartCount => severity == Warning && IsRestartHeavy(t, cs)
    case _ => false
  }

  /** A Pending pod whose age has reached the grace period, no container of which already carries a
      more specific waiting reason. */
  predicate StuckPending(pod: Pod, t: Thresholds, now: Time)
  {
    && pod.phase == "Pending"
    && now - pod.created >= t.pendingGrace
    && forall cs :: cs in pod.containers ==> !IsCrashLoop(cs) && !IsImagePull(cs)
  }

  function PodAlert(pod: Pod, reason: Reason, severity: Severity, container: string): (a: Alert)
  {
    Alert(reason, severity, "Pod", pod.namespace, pod.name, pod.uid, container)
  }

  /** The declarative rule set for pods. */
  ghost predicate PodRule(pod: Pod, t: Thresholds, now: Time, a: Alert)
  {
    && !pod.deleting
    && a == PodAlert(pod, a.reason, a.severity, a.container)
    && (|| (exists cs :: cs in pod.containers && cs.name == a.container && ContainerRule(t, cs, a.reason, a.severity))
        || (a.reason == PodStuckPending && a.severity == Warning && a.container == "" && StuckPending(pod, t, now)))
  }

  function NodeAlert(node: Node, reason: Reason, severity: Severity): (a: Alert)
  {
    Alert(reason, severity, "Node", "", node.name, node.uid, "")
  }

  predicate NotReadyTooLong(c: Condition, t: Thresholds, now: Time)
  {
    c.kind == "Ready" && c.status != "True" && now - c.lastTransition >= t.nodeNotReadyGrace
  }

  predicate UnderPressure(c: Condition)
  {
    (c.kind == "MemoryPressure" || c.kind == "DiskPressure" || c.kind == "PIDPressure") && c.status == "True"
  }

  ghost predicate NodeRule(node: Node, t: Thresholds, now: Time, a: Alert)
  {
    || (a == NodeAlert(node, NodeNotReady, Critical) && exists c :: c in node.conditions && NotReadyTooLong(c, t, now))
    || (a == NodeAlert(node, NodePressure, Warning) && exists c :: c in node.conditions && UnderPressure(c))
  }

  // ------------------------------------------------------------------ the code

  ghost predicate DistinctNames(containers: seq<ContainerStatus>)
  {
    forall i, j :: 0 <= i < j < |containers| ==> containers[i].name != containers[j].name
  }

  ghost predicate DistinctKeys(alerts: seq<Alert>)
  {
    forall i, j :: 0 <= i < j < |alerts| ==> Key(alerts[i]) != Key(alerts[j])
  }

  function Pick(b: bool, a: Alert): (alerts: seq<Alert>)
  {
    if b then [a] else []
  }

  /** The container rules, in the order in which they are tried. */
  const RULE_ORDER: seq<Reason> := [CrashLoopBackOff, ImagePullError, OOMKilled, HighRestartCount]

  function SeverityOf(reason: Reason): (severity: Severity)
  {
    if reason == CrashLoopBackOff || reason == OOMKilled then Critical else Warning
  }

  /** Of the first n rules, those that hold of the container, as alerts. */
  function Kept(pod: Pod, t: Thresholds, cs: ContainerStatus, n: nat): (alerts: seq<Alert>)
    requires n <= |RULE_ORDER|
  {
    if n == 0 then []
    else
      var reason := RULE_ORDER[n-1];
      Kept(pod, t, cs, n - 1) +
      Pick(ContainerRule(t, cs, reason, SeverityOf(reason)), PodAlert(pod, reason, SeverityOf(reason), cs.name))
  }

  /** The alerts of one container, in the order in which the rules are tried. */
  function HoldingAlerts(pod: Pod, t: Thresholds, cs: ContainerStatus): (alerts: seq<Alert>)
  {
    Kept(pod, t, cs, |RULE_ORDER|)
  }

  /** Those of the first n containers, in order. */
  function FirstAlerts(pod: Pod, t: Thresholds, n: nat): (alerts: seq<Alert>)
    requires n <= |pod.containers|
  {
    if n == 0 then [] else FirstAlerts(pod, t, n - 1) + HoldingAlerts(pod, t, pod.containers[n-1])
  }

  /** Everything the rules report about a pod, in order. */
  function RuleAlerts(pod: Pod, t: Thresholds, now: Time): (alerts: seq<Alert>)
  {
    if pod.deleting then []
    else
      FirstAlerts(pod, t, |pod.containers|) +
      Pick(StuckPending(pod, t, now), PodAlert(pod, PodStuckPending, Warning, ""))
  }

  /** The four container rules, in the order in which they are tried. */
  method ContainerAlerts(pod: Pod, t: Thresholds, cs: ContainerStatus) returns (alerts: seq<Alert>, waitingAlert: bool)
    ensures alerts == HoldingAlerts(pod, t, cs)
    ensures waitingAlert <==> IsCrashLoop(cs) || IsImagePull(cs)
  {
    alerts, waitingAlert := [], false;
    if cs.waiting == Some("CrashLoopBackOff") {
      alerts := alerts + [PodAlert(pod, CrashLoopBackOff, Critical, cs.name)];
      waitingAlert := true;
    }
    assert alerts == Kept(pod, t, cs, 1);
    if cs.waiting == Some("ImagePullBackOff") || cs.waiting == Some("ErrImagePull") {
      alerts := alerts + [PodAlert(pod, ImagePullError, Warning, cs.name)];
      waitingAlert := true;
    }
    assert alerts == Kept(pod, t, cs, 2);
    if OomTermination(cs) {
      alerts := alerts + [PodAlert(pod, OOMKilled, Critical, cs.name)];
    }
    assert alerts == Kept(pod, t, cs, 3);
    if cs.restartCount >= t.restartCountWarn && !cs.ready {
      alerts := alerts + [PodAlert(pod, HighRestartCount, Warning, cs.name)];
    }
    assert alerts == Kept(pod, t, cs, 4);
  }

  /** Live termination first, then the previous one. */
  predicate OomTermination(cs: ContainerStatus)
  {
    if cs.terminated == Some("OOMKilled") then true else cs.lastTerminated == Some("OOMKilled")
  }

  /** The loop over the containers; sawWaiting tells whether one of them is waiting for a specific
      reason. */
  method EvaluateContainers(p: Pod, t: Thresholds) returns (alerts: seq<Alert>, sawWaiting: bool)
    ensures alerts == FirstAlerts(p, t, |p.containers|)
    ensures sawWaiting <==> exists cs :: cs in p.containers && (IsCrashLoop(cs) || IsImagePull(cs))
  {
    alerts, sawWaiting := [], false;
    for i := 0 to |p.containers|
      invariant alerts == FirstAlerts(p, t, i)
      invariant sawWaiting <==> exists j :: 0 <= j < i && (IsCrashLoop(p.containers[j]) || IsImagePull(p.containers[j]))
    {
      var more, waits := ContainerAlerts(p, t, p.containers[i]);
      alerts := alerts + more;
      sawWaiting := sawWaiting || waits;
    }
  }

  /** The alerts of the declarative rule set, in order. A missing or deleting pod yields nothing. */
  method EvaluatePod(pod: Option<Pod>, t: Thresholds, now: Time) returns (alerts: seq<Alert>)
    ensures alerts == if pod.None? then [] else RuleAlerts(pod.value, t, now)
    ensures pod.Some? ==> ReportedByRules(pod.value, t, now, alerts)
  {
    if pod.None? {
      return [];
    }
    RuleAlertsSpec(pod.value, t, now);
    if pod.value.deleting {
      return [];
    }
    var p := pod.value;
    var sawWaiting;
    alerts, sawWaiting := EvaluateContainers(p, t);
    if p.phase == "Pending" && !sawWaiting {
      if now - p.created >= t.pendingGrace {
        alerts := alerts + [PodAlert(p, PodStuckPending, Warning, "")];
      }
    }
  }

  /** Exactly the alerts of the declarative rule set; with distinct container names the keys are
      pairwise distinct; at most three per container plus one; and the pending rule never beside a
      waiting rule. */
  ghost predicate ReportedByRules(pod: Pod, t: Thresholds, now: Time, alerts: seq<Alert>)
  {
    && (forall a :: a in alerts <==> PodRule(pod, t, now, a))
    && (DistinctNames(pod.containers) ==> DistinctKeys(alerts))
    && |alerts| <= 3 * |pod.containers| + 1
    && (forall a, b :: a in alerts && b in alerts && a.reason == PodStuckPending ==>
          b.reason != CrashLoopBackOff && b.reason != ImagePullError)
  }

  /** alerts holds, for each of the first n rules that holds of the container, its alert, once. */
  ghost predicate KeptExactly(pod: Pod, t: Thresholds, cs: ContainerStatus, n: nat, alerts: seq<Alert>)
    requires n <= |RULE_ORDER|
  {
    && (forall a :: a in alerts <==>
          && a == PodAlert(pod, a.reason, a.severity, cs.name)
          && ContainerRule(t, cs, a.reason, a.severity) && a.reason in RULE_ORDER[..n])
    && (forall i, j :: 0 <= i < j < |alerts| ==> alerts[i].reason != alerts[j].reason)
  }

  lemma {:induction false} KeptSnoc(pod: Pod, t: Thresholds, cs: ContainerStatus, n: nat, alerts: seq<Alert>)
    requires n < |RULE_ORDER| && KeptExactly(pod, t, cs, n, alerts)
    ensures var reason := RULE_ORDER[n];
            KeptExactly(pod, t, cs, n + 1, alerts +
              Pick(ContainerRule(t, cs, reason, SeverityOf(reason)), PodAlert(pod, reason, SeverityOf(reason), cs.name)))
  {
    assert RULE_ORDER[..n+1] == RULE_ORDER[..n] + [RULE_ORDER[n]];
  }

  lemma {:induction false} KeptSpec(pod: Pod, t: Thresholds, cs: ContainerStatus, n: nat)
    requires n <= |RULE_ORDER|
    ensures KeptExactly(pod, t, cs, n, Kept(pod, t, cs, n))
  {
    if n > 0 {
      KeptSpec(pod, t, cs, n - 1);
      KeptSnoc(pod, t, cs, n - 1, Kept(pod, t, cs, n - 1));
    }
  }

  /** A container waits for one reason at a time, so of the first two rules at most one holds. */
  lemma {:induction false} KeptLength(pod: Pod, t: Thresholds, cs: ContainerStatus, n: nat)
    requires 2 <= n <= |RULE_ORDER|
    ensures |Kept(pod, t, cs, n)| < n
  {
    if n == 2 {
      assert Kept(pod, t, cs, 0) == [];
      assert |Kept(pod, t, cs, 1)| == if IsCrashLoop(cs) then 1 else 0;
    } else {
      KeptLength(pod, t, cs, n - 1);
    }
  }

  /** Exactly the container rules that hold, with distinct reasons, at most three. */
  lemma {:induction false} HoldingAlertsSpec(pod: Pod, t: Thresholds, cs: ContainerStatus)
    ensures forall a :: a in HoldingAlerts(pod, t, cs) <==>
              a == PodAlert(pod, a.reason, a.severity, cs.name) && ContainerRule(t, cs, a.reason, a.severity)
    ensures forall i, j :: 0 <= i < j < |HoldingAlerts(pod, t, cs)| ==>
              HoldingAlerts(pod, t, cs)[i].reason != HoldingAlerts(pod, t, cs)[j].reason
    ensures |HoldingAlerts(pod, t, cs)| <= 3
  {
    KeptSpec(pod, t, cs, |RULE_ORDER|);
    KeptLength(pod, t, cs, |RULE_ORDER|);
    assert RULE_ORDER[..|RULE_ORDER|] == RULE_ORDER;
  }

  /** alerts lists what the rules report of the first n containers. */
  ghost predicate ListsFirst(pod: Pod, t: Thresholds, n: nat, alerts: seq<Alert>)
    requires n <= |pod.containers|
  {
    && (forall a :: a in alerts <==> FromFirst(pod, t, n, a))
    && (DistinctNames(pod.containers) ==> DistinctKeys(alerts))
    && |alerts| <= 3 * n
  }

  lemma {:induction false} ListsFirstSnoc(pod: Pod, t: Thresholds, n: nat, alerts: seq<Alert>)
    requires n < |pod.containers| && ListsFirst(pod, t, n, alerts)
    ensures ListsFirst(pod, t, n + 1, alerts + HoldingAlerts(pod, t, pod.containers[n]))
  {
    var more := HoldingAlerts(pod, t, pod.containers[n]);
    HoldingAlertsSpec(pod, t, pod.containers[n]);
    FromFirstSnoc(pod, t, n);
    if DistinctNames(pod.containers) {
      AppendKeepsDistinct(pod, t, n, alerts, more);
    }
  }

  lemma {:induction false} FirstAlertsSpec(pod: Pod, t: Thresholds, n: nat)
    requires n <= |pod.containers|
    ensures ListsFirst(pod, t, n, FirstAlerts(pod, t, n))
  {
    if n == 0 {
      NoneFirst(pod, t);
    } else {
      FirstAlertsSpec(pod, t, n - 1);
      ListsFirstSnoc(pod, t, n - 1, FirstAlerts(pod, t, n - 1));
    }
  }

  lemma {:induction false} NoneFirst(pod: Pod, t: Thresholds)
    ensures ListsFirst(pod, t, 0, [])
  {
  }

  lemma {:induction false} FromFirstSnoc(pod: Pod, t: Thresholds, n: nat)
    requires n < |pod.containers|
    ensures forall a :: FromFirst(pod, t, n + 1, a) <==>
              || FromFirst(pod, t, n, a)
              || (a == PodAlert(pod, a.reason, a.severity, pod.containers[n].name)
                  && ContainerRule(t, pod.containers[n], a.reason, a.severity))
  {
  }

  lemma {:induction false} RuleAlertsSpec(pod: Pod, t: Thresholds, now: Time)
    ensures ReportedByRules(pod, t, now, RuleAlerts(pod, t, now))
  {
    if !pod.deleting {
      var first, pending := FirstAlerts(pod, t, |pod.containers|), PodAlert(pod, PodStuckPending, Warning, "");
      FirstAlertsSpec(pod, t, |pod.containers|);
      forall a | a in first ensures Key(a) != Key(pending) {
        SamePodKeys(pod, a, pending);
      }
      FromContainers(pod, t, now);
    }
  }

  /** A rule of the pod is one of its containers' or the pending one. */
  lemma {:induction false} FromContainers(pod: Pod, t: Thresholds, now: Time)
    requires !pod.deleting
    ensures forall a :: PodRule(pod, t, now, a) <==>
              || FromFirst(pod, t, |pod.containers|, a)
              || (StuckPending(pod, t, now) && a == PodAlert(pod, PodStuckPending, Warning, ""))
  {
  }

  /** a comes from one of the first n containers. */
  ghost predicate FromFirst(pod: Pod, t: Thresholds, n: nat, a: Alert)
    requires n <= |pod.containers|
  {
    && a == PodAlert(pod, a.reason, a.severity, a.container)
    && exists j :: 0 <= j < n && pod.containers[j].name == a.container
                   && ContainerRule(t, pod.containers[j], a.reason, a.severity)
  }

  /** Within one pod a key is as good as its reason and container, whatever the pod is called. */
  lemma {:induction false} SamePodKeys(pod: Pod, a: Alert, b: Alert)
    requires a == PodAlert(pod, a.reason, a.severity, a.container)
    requires b == PodAlert(pod, b.reason, b.severity, b.container)
    ensures Key(a) == Key(b) <==> a.reason == b.reason && a.container == b.container
  {
    if Key(a) == Key(b) {
      var ra, rb := ReasonText(a.reason), ReasonText(b.reason);
      KeyShape(ra, "Pod", pod.namespace, pod.name, a.container);
      KeyShape(rb, "Pod", pod.namespace, pod.name, b.container);
      SplitAroundMiddle(ra, a.container, "Pod" + "|" + pod.namespace + "/" + pod.name + "|", rb, b.container);
      ReasonTextInjective(a.reason, b.reason);
    }
  }

  lemma {:induction false} AppendKeepsDistinct(pod: Pod, t: Thresholds, n: nat, alerts: seq<Alert>, more: seq<Alert>)
    requires n < |pod.containers| && DistinctNames(pod.containers)
    requires forall a :: a in alerts ==> FromFirst(pod, t, n, a)
    requires DistinctKeys(alerts)
    requires forall a :: a in more ==> a == PodAlert(pod, a.reason, a.severity, pod.containers[n].name)
    requires forall i, j :: 0 <= i < j < |more| ==> more[i].reason != more[j].reason
    ensures DistinctKeys(alerts + more)
  {
    var all := alerts + more;
    forall i, j | 0 <= i < j < |all| ensures Key(all[i]) != Key(all[j]) {
      if j < |alerts| {
        assert all[i] == alerts[i] && all[j] == alerts[j];
      } else {
        assert all[j] in more;
        if i < |alerts| {
          assert all[i] in alerts;
        } else {
          assert all[i] in more;
        }
        SamePodKeys(pod, all[i], all[j]);
      }
    }
  }

  /** The conditions that call for an alert, in the order in which the node lists them. */
  function Calling(cs: seq<Condition>, t: Thresholds, now: Time): (calling: seq<Condition>)
  {
    if cs == [] then []
    else
      var c := cs[|cs|-1];
      Calling(cs[..|cs|-1], t, now) + (if NotReadyTooLong(c, t, now) || UnderPressure(c) then [c] else [])
  }

  function AlertFor(node: Node, c: Condition): (a: Alert)
  {
    if c.kind == "Ready" then NodeAlert(node, NodeNotReady, Critical) else NodeAlert(node, NodePressure, Warning)
  }

  /** One alert per calling condition, in order: pressure conditions share an alert key, and each of
      them is fired. */
  ghost predicate OnePerCalling(node: Node, cs: seq<Condition>, t: Thresholds, now: Time, alerts: seq<Alert>)
  {
    && |alerts| == |Calling(cs, t, now)|
    && forall i :: 0 <= i < |alerts| ==> alerts[i] == AlertFor(node, Calling(cs, t, now)[i])
  }

  lemma {:induction false} CallingSnoc(cs: seq<Condition>, c: Condition, t: Thresholds, now: Time)
    ensures Calling(cs + [c], t, now) ==
            Calling(cs, t, now) + (if NotReadyTooLong(c, t, now) || UnderPressure(c) then [c] else [])
  {
    assert (cs + [c])[..|cs + [c]|-1] == cs;
  }

  lemma {:induction false} CallingSpec(cs: seq<Condition>, t: Thresholds, now: Time)
    ensures forall c :: c in Calling(cs, t, now) <==> c in cs && (NotReadyTooLong(c, t, now) || UnderPressure(c))
    ensures |Calling(cs, t, now)| <= |cs|
  {
    if cs != [] {
      CallingSpec(cs[..|cs|-1], t, now);
      assert cs == cs[..|cs|-1] + [cs[|cs|-1]];
    }
  }

  /** Such a list holds exactly the alerts of the rules. */
  lemma {:induction false} OnePerCallingIsRules(node: Node, t: Thresholds, now: Time, alerts: seq<Alert>)
    requires OnePerCalling(node, node.conditions, t, now, alerts)
    ensures forall a :: a in alerts <==> NodeRule(node, t, now, a)
    ensures |alerts| <= |node.conditions|
  {
    var calling := Calling(node.conditions, t, now);
    CallingSpec(node.conditions, t, now);
    forall a | a in alerts ensures NodeRule(node, t, now, a) {
      var i :| 0 <= i < |alerts| && alerts[i] == a;
      assert calling[i] in calling;
    }
    forall c | c in calling ensures AlertFor(node, c) in alerts {
      var i :| 0 <= i < |calling| && calling[i] == c;
      assert alerts[i] == AlertFor(node, c);
    }
  }

  method EvaluateNode(node: Option<Node>, t: Thresholds, now: Time) returns (alerts: seq<Alert>)
    ensures node.None? ==> alerts == []
    ensures node.Some? ==> forall a :: a in alerts <==> NodeRule(node.value, t, now, a)
    ensures node.Some? ==> OnePerCalling(node.value, node.value.conditions, t, now, alerts)
    ensures node.Some? ==> |alerts| <= |node.value.conditions|
  {
    if node.None? {
      return [];
    }
    var n := node.value;
    alerts := [];
    for i := 0 to |n.conditions|
      invariant OnePerCalling(n, n.conditions[..i], t, now, alerts)
    {
      var c := n.conditions[i];
      assert n.conditions[..i+1] == n.conditions[..i] + [c];
      CallingSnoc(n.conditions[..i], c, t, now);
      if c.kind == "Ready" {
        if c.status != "True" {
          if now - c.lastTransition >= t.nodeNotReadyGrace {
            alerts := alerts + [NodeAlert(n, NodeNotReady, Critical)];
          }
        }
      } else if c.kind == "MemoryPressure" || c.kind == "DiskPressure" || c.kind == "PIDPressure" {
        if c.status == "True" {
          alerts := alerts + [NodeAlert(n, NodePressure, Warning)];
        }
      }
    }
    assert n.conditions[..|n.conditions|] == n.conditions;
    OnePerCallingIsRules(n, t, now, alerts);
  }

  // ---------------------------------------------------------- monotone in time

  /** Waiting only ever adds alerts: what holds of an unchanged object now holds of it later. */
  lemma {:induction false} PodAlertsGrow(pod: Pod, t: Thresholds, now: Time, later: Time, a: Alert)
    requires now <= later && PodRule(pod, t, now, a)
    ensures PodRule(pod, t, later, a)
  {
  }

  lemma {:induction false} NodeAlertsGrow(node: Node, t: Thresholds, now: Time, later: Time, a: Alert)
    requires now <= later && NodeRule(node, t, now, a)
    ensures NodeRule(node, t, later, a)
  {
    if exists c :: c in node.conditions && NotReadyTooLong(c, t, now) {
      var c :| c in node.conditions && NotReadyTooLong(c, t, now);
      assert NotReadyTooLong(c, t, later);
    }
  }
}
