/** The controller (internal/watcher/controller.go:262-421): one worker's code over the heap, proved
    against the functions of module Delivery. Clock readings, the lister's answer and the order in
    which Go ranges over a map are inputs or arbitrary choices. */
module Controller {
  import opened Base
  import opened Identity
  import opened Rules
  import opened RestartTracker
  import opened Delivery
  import opened Findings
  import opened Reconcile
  import Rounds
  import Lifecycle
  import Guarantees
  import Simulation
  import Dedup

  // ------------------------------------------------------------------ the code

  class Controller {
    const clearGrace: int
    const rapidCount: int
    const thresholds: Thresholds
    const deduper: Dedup.Deduper
    const tracker: Tracker
    var active: map<string, Marks>

    ghost predicate Valid()
      reads this, deduper, deduper.sinks, tracker, tracker.Buffers()
    {
      deduper.Valid() && tracker.Valid() && tracker.threshold == rapidCount
    }

    ghost function Options(): (opts: Settings)
    {
      Settings(Rounds.Config(deduper.resend, clearGrace), thresholds, tracker.window, rapidCount)
    }

    /** What the controller remembers between reconciles. */
    ghost function Recall(): (m: Memory)
      requires tracker.Valid()
      reads this, deduper, tracker, tracker.Buffers()
    {
      Memory(active, deduper.View(), tracker.View())
    }

    constructor (clearGracePeriod: int, resyncPeriod: int, rapidCount: int, thresholds: Thresholds,
                 deduper: Dedup.Deduper, tracker: Tracker)
      requires deduper.Valid() && tracker.Valid() && tracker.threshold == rapidCount
      ensures Valid() && active == map[]
      ensures clearGrace == Rounds.EffectiveGrace(clearGracePeriod, resyncPeriod) && clearGrace > 0
      ensures this.deduper == deduper && this.tracker == tracker
      ensures this.thresholds == thresholds && this.rapidCount == rapidCount
    {
      var grace := clearGracePeriod;
      if grace <= 0 {
        grace := 2 * resyncPeriod;
        if grace < 90_000_000_000 {
          grace := 90_000_000_000;
        }
      }
      this.clearGrace := grace;
      this.rapidCount := rapidCount;
      this.thresholds := thresholds;
      this.deduper := deduper;
      this.tracker := tracker;
      active := map[];
    }

    /** Fires the alerts in order and collects their keys. */
    method FireAlerts(alerts: seq<Alert>, clock: nat -> Time) returns (current: set<string>)
      requires deduper.Valid()
      modifies deduper, deduper.sinks
      ensures deduper.Valid() && current == Lifecycle.Keys(alerts)
      ensures deduper.View() == FireSeq(deduper.resend, old(deduper.View()), alerts, |alerts|, clock)
    {
      current := {};
      for i := 0 to |alerts|
        invariant deduper.Valid()
        invariant current == Lifecycle.Keys(alerts[..i])
        invariant deduper.View() == FireSeq(deduper.resend, old(deduper.View()), alerts, i, clock)
      {
        Simulation.KeysSnoc(alerts, i);
        current := current + {Key(alerts[i])};
        deduper.Fire(alerts[i], clock(i));
      }
      assert alerts[..|alerts|] == alerts;
    }

    /** Marks the reported keys as firing and ages the others, updating and deleting entries of the
        map while ranging over it; the outcome does not depend on the order of the visits. */
    method AgeMarks(marks: Marks, current: set<string>, now: Time) returns (marks': Marks)
      requires deduper.Valid()
      modifies deduper`lastSeen
      ensures deduper.Valid() && marks' == Aged(clearGrace, marks, current, now)
      ensures deduper.View() == ForgetAll(old(deduper.View()), Expired(clearGrace, marks, current, now))
    {
      marks' := marks + map k | k in current :: 0;
      var todo := marks'.Keys;
      ghost var st := deduper.View();
      NothingVisited(clearGrace, marks, current, now, st);
      ghost var visited: set<string> := {};
      while todo != {}
        invariant deduper.Valid()
        invariant todo == marks.Keys + current - visited && visited <= marks.Keys + current
        invariant PartlyDone(clearGrace, marks, current, now, st, visited, marks', deduper.View())
        decreases |todo|
      {
        var k :| k in todo;
        todo := todo - {k};
        VisitOne(clearGrace, marks, current, now, st, visited, marks', deduper.View(), k);
        marks' := AgeKey(marks', current, now, k);
        visited := visited + {k};
      }
      AllVisited(clearGrace, marks, current, now, st, visited, marks', deduper.View());
    }

    /** The body of the ageing loop. */
    method AgeKey(marks: Marks, current: set<string>, now: Time, k: string) returns (marks': Marks)
      requires deduper.Valid() && k in marks
      modifies deduper`lastSeen
      ensures deduper.Valid() && marks' == Visit(clearGrace, marks, current, now, k)
      ensures deduper.View() == if Drops(clearGrace, marks, current, now, k) then Dedup.ForgetStep(old(deduper.View()), k)
                                else old(deduper.View())
    {
      marks' := marks;
      if k in current {
        return;
      }
      if marks[k] == 0 {
        marks' := marks[k := now];
      } else if now - marks[k] >= clearGrace {
        deduper.Forget(k);
        marks' := marks - {k};
      }
    }

    method Deliver(objKey: string, alerts: seq<Alert>, now: Time, clock: nat -> Time)
      requires deduper.Valid()
      modifies this`active, deduper, deduper.sinks
      ensures deduper.Valid()
      ensures DeliverDone(Options().cfg, old(active), old(deduper.View()), objKey, alerts, now, clock, active, deduper.View())
    {
      var current := FireAlerts(alerts, clock);
      var marks := AgeMarks(Lifecycle.Entry(active, objKey), current, now);
      Store(objKey, marks);
    }

    /** An object without marks has no entry. */
    method Store(objKey: string, marks: Marks)
      modifies this`active
      ensures active == Stored(old(active), objKey, marks)
    {
      if |marks| == 0 {
        active := active - {objKey};
      } else {
        active := active[objKey := marks];
      }
    }

    method ClearObject(objKey: string)
      requires deduper.Valid()
      modifies this`active, deduper`lastSeen
      ensures deduper.Valid() && ClearDone(old(active), old(deduper.View()), objKey, active, deduper.View())
    {
      ForgetKeys(Lifecycle.Entry(active, objKey).Keys);
      active := active - {objKey};
    }

    method ForgetKeys(keys: set<string>)
      requires deduper.Valid()
      modifies deduper`lastSeen
      ensures deduper.Valid() && deduper.View() == ForgetAll(old(deduper.View()), keys)
    {
      var todo := keys;
      ghost var dropped: set<string> := {};
      ForgetNone(deduper.View());
      while todo != {}
        invariant deduper.Valid() && dropped == keys - todo && todo <= keys
        invariant deduper.View() == ForgetAll(old(deduper.View()), dropped)
        decreases |todo|
      {
        var k :| k in todo;
        ForgetOneMore(old(deduper.View()), dropped, k);
        deduper.Forget(k);
        dropped := dropped + {k};
        todo := todo - {k};
      }
      assert dropped == keys;
    }

    method RapidRestartAlerts(pod: Pod, now: Time) returns (alerts: seq<Alert>)
      requires tracker.Valid() && tracker.threshold == rapidCount
      modifies tracker, tracker.Buffers()
      ensures tracker.Valid() && fresh(tracker.Buffers() - old(tracker.Buffers()))
      ensures Rapid(tracker.View(), alerts) == RapidOf(tracker.window, rapidCount, old(tracker.View()), pod, now)
    {
      alerts := [];
      if rapidCount > 0 {
        alerts := ObserveContainers(pod, now);
      }
    }

    method ObserveContainers(pod: Pod, now: Time) returns (alerts: seq<Alert>)
      requires tracker.Valid() && tracker.threshold == rapidCount
      modifies tracker, tracker.Buffers()
      ensures tracker.Valid() && fresh(tracker.Buffers() - old(tracker.Buffers()))
      ensures Rapid(tracker.View(), alerts) ==
              RapidSpec(tracker.window, rapidCount, old(tracker.View()), pod, now, |pod.containers|)
    {
      alerts := [];
      ghost var r := Rapid(tracker.View(), alerts);
      for i := 0 to |pod.containers|
        invariant tracker.Valid() && fresh(tracker.Buffers() - old(tracker.Buffers()))
        invariant r == RapidSpec(tracker.window, rapidCount, old(tracker.View()), pod, now, i)
        invariant Rapid(tracker.View(), alerts) == r
      {
        RapidSnoc(tracker.window, rapidCount, old(tracker.View()), pod, now, i, r);
        alerts := ObserveContainer(pod, pod.containers[i], now, alerts);
        r := Rapid(tracker.View(), alerts);
      }
    }

    method ObserveContainer(pod: Pod, cs: ContainerStatus, now: Time, alerts: seq<Alert>) returns (alerts': seq<Alert>)
      requires tracker.Valid() && tracker.threshold == rapidCount
      modifies tracker, tracker.Buffers()
      ensures tracker.Valid() && fresh(tracker.Buffers() - old(tracker.Buffers()))
      ensures Rapid(tracker.View(), alerts') ==
              RapidStep(tracker.window, rapidCount, Rapid(old(tracker.View()), alerts), pod, now, cs)
    {
      var burst, _ := tracker.Observation(KeyOf(pod, cs), cs.restartCount, now);
      alerts' := alerts;
      if burst {
        alerts' := alerts + [RapidAlert(pod, cs)];
      }
    }

    /** The alerts a reconcile delivers: those of the rules, then those of the burst detector. */
    method FindAlerts(pod: Pod, evalAt: Time) returns (alerts: seq<Alert>)
      requires tracker.Valid() && tracker.threshold == rapidCount
      modifies tracker, tracker.Buffers()
      ensures tracker.Valid() && fresh(tracker.Buffers() - old(tracker.Buffers()))
      ensures Finds(thresholds, tracker.window, rapidCount, old(tracker.View()), pod, evalAt, alerts, tracker.View())
    {
      var ruled := EvaluatePod(Some(pod), thresholds, evalAt);
      var rapid := RapidRestartAlerts(pod, evalAt);
      alerts := ruled + rapid;
    }

    /** The pod is there: exactly the alerts of the rules and of the burst detector are delivered. */
    method ReconcileFound(objKey: string, pod: Pod, evalAt: Time, now: Time, clock: nat -> Time) returns (alerts: seq<Alert>)
      requires Valid()
      modifies this`active, deduper, deduper.sinks, tracker, tracker.Buffers()
      ensures Valid()
      ensures Finds(thresholds, tracker.window, rapidCount, old(tracker.View()), pod, evalAt, alerts, tracker.View())
      ensures DeliverDone(Options().cfg, old(active), old(deduper.View()), objKey, alerts, now, clock, active, deduper.View())
    {
      alerts := FindAlerts(pod, evalAt);
      label found:
      Deliver(objKey, alerts, now, clock);
      tracker.ViewFrame@found();
    }

    /** A lister error changes nothing; a missing pod is cleared everywhere; otherwise the pod's
        alerts are delivered. */
    method ReconcilePod(q: QueueKey, found: Fetched<Pod>, evalAt: Time, now: Time, clock: nat -> Time)
      returns (failed: bool, alerts: seq<Alert>)
      requires Valid()
      modifies this`active, deduper, deduper.sinks, tracker, tracker.Buffers()
      ensures Valid() && failed == found.Failed?
      ensures PodReconciled(Options(), old(Recall()), q, found, evalAt, now, clock, alerts, Recall())
    {
      alerts, failed := [], false;
      if found.Failed? {
        failed := true;
      } else if found.NotFound? {
        ClearObject(ObjectKey(q));
        tracker.ForgetPod(PodKey(q.namespace, q.name));
      } else {
        alerts := ReconcileFound(ObjectKey(q), found.obj, evalAt, now, clock);
      }
    }

    /** The node is there: exactly the alerts of the rules are delivered. */
    method ReconcileFoundNode(objKey: string, node: Node, evalAt: Time, now: Time, clock: nat -> Time) returns (alerts: seq<Alert>)
      requires deduper.Valid()
      modifies this`active, deduper, deduper.sinks
      ensures deduper.Valid() && OnePerCalling(node, node.conditions, thresholds, evalAt, alerts)
      ensures DeliverDone(Options().cfg, old(active), old(deduper.View()), objKey, alerts, now, clock, active, deduper.View())
    {
      alerts := EvaluateNode(Some(node), thresholds, evalAt);
      Deliver(objKey, alerts, now, clock);
    }

    /** Nodes have no restart history; the rest is the same. */
    method ReconcileNode(q: QueueKey, found: Fetched<Node>, evalAt: Time, now: Time, clock: nat -> Time)
      returns (failed: bool, alerts: seq<Alert>)
      requires Valid()
      modifies this`active, deduper, deduper.sinks
      ensures Valid() && failed == found.Failed?
      ensures NodeReconciled(Options(), old(Recall()), q, found, evalAt, now, clock, alerts, Recall())
    {
      alerts, failed := [], false;
      if found.Failed? {
        failed := true;
      } else if found.NotFound? {
        ClearObject(ObjectKey(q));
      } else {
        alerts := ReconcileFoundNode(ObjectKey(q), found.obj, evalAt, now, clock);
      }
      tracker.ViewFrame();
    }

    /** The unhealthy gauge: pods with at least one key marked as firing. */
    method UnhealthyPods() returns (unhealthy: nat)
      ensures unhealthy == |Guarantees.UnhealthyEntries(active)|
    {
      unhealthy := 0;
      var todo := active.Keys;
      ghost var counted: set<string> := {};
      while todo != {}
        invariant todo <= active.Keys
        invariant counted == Guarantees.UnhealthyEntries(active) - todo && unhealthy == |counted|
        decreases |todo|
      {
        var o :| o in todo;
        todo := todo - {o};
        if HasPrefix(o, "Pod|") {
          var firing := AnyFiring(active[o]);
          if firing {
            unhealthy := unhealthy + 1;
            counted := counted + {o};
          }
        }
      }
    }

    /** The inner loop of the gauge, left at the first firing key. */
    method AnyFiring(marks: Marks) returns (firing: bool)
      ensures firing <==> exists k :: k in marks && marks[k] == 0
    {
      var todo := marks.Keys;
      while todo != {}
        invariant todo <= marks.Keys && forall k :: k in marks.Keys - todo ==> marks[k] != 0
        decreases |todo|
      {
        var k :| k in todo;
        if marks[k] == 0 {
          return true;
        }
        todo := todo - {k};
      }
      return false;
    }
  }

  lemma {:induction false} ForgetNone(st: Dedup.State)
    ensures ForgetAll(st, {}) == st
  {
    assert st.lastSeen - {} == st.lastSeen;
  }

  lemma {:induction false} ForgetOneMore(st: Dedup.State, ks: set<string>, k: string)
    ensures ForgetAll(st, ks + {k}) == Dedup.ForgetStep(ForgetAll(st, ks), k)
  {
    assert st.lastSeen - (ks + {k}) == (st.lastSeen - ks) - {k};
  }

  // ------------------------------------------------- one visit of the ageing loop

  predicate Drops(grace: int, marks: Marks, current: set<string>, now: Time, k: string)
    requires k in marks
  {
    k !in current && Rounds.AgeMark(grace, marks[k], now).None?
  }

  function Visit(grace: int, marks: Marks, current: set<string>, now: Time, k: string): (marks': Marks)
    requires k in marks
  {
    if k in current then marks
    else
      match Rounds.AgeMark(grace, marks[k], now)
      case Some(mark) => marks[k := mark]
      case None => marks - {k}
  }

  /** Starting from marks and st, the keys in `visited` have been aged, leaving marks' and st'. */
  ghost predicate PartlyDone(
      grace: int, marks: Marks, current: set<string>, now: Time, st: Dedup.State,
      visited: set<string>, marks': Marks, st': Dedup.State)
  {
    && marks' == PartlyAged(grace, marks, current, now, visited)
    && st' == ForgetAll(st, Expired(grace, marks, current, now) * visited)
  }

  lemma {:induction false} NothingVisited(grace: int, marks: Marks, current: set<string>, now: Time, st: Dedup.State)
    ensures PartlyDone(grace, marks, current, now, st, {}, marks + map k | k in current :: 0, st)
    ensures (marks + map k | k in current :: 0).Keys == marks.Keys + current
  {
    assert Expired(grace, marks, current, now) * {} == {};
    ForgetNone(st);
  }

  lemma {:induction false} AllVisited(
      grace: int, marks: Marks, current: set<string>, now: Time, st: Dedup.State,
      visited: set<string>, marks': Marks, st': Dedup.State)
    requires PartlyDone(grace, marks, current, now, st, visited, marks', st') && marks.Keys + current <= visited
    ensures marks' == Aged(grace, marks, current, now)
    ensures st' == ForgetAll(st, Expired(grace, marks, current, now))
  {
    AgedIsAllVisited(grace, marks, current, now, visited);
    assert Expired(grace, marks, current, now) * visited == Expired(grace, marks, current, now);
  }

  /** One more visit, whatever has been visited before: no other key's outcome is touched. */
  lemma {:induction false} VisitOne(
      grace: int, marks: Marks, current: set<string>, now: Time, st: Dedup.State,
      visited: set<string>, before: Marks, st': Dedup.State, k: string)
    requires PartlyDone(grace, marks, current, now, st, visited, before, st')
    requires k in marks.Keys + current && k !in visited
    ensures k in before
    ensures PartlyDone(grace, marks, current, now, st, visited + {k}, Visit(grace, before, current, now, k),
                       if Drops(grace, before, current, now, k) then Dedup.ForgetStep(st', k) else st')
  {
    var gone := Expired(grace, marks, current, now);
    if k in current {
      assert gone * (visited + {k}) == gone * visited;
    } else {
      AgeOneMore(grace, marks, current, now, visited, k);
      if k in gone {
        assert gone * (visited + {k}) == gone * visited + {k};
        ForgetOneMore(st, gone * visited, k);
      } else {
        assert gone * (visited + {k}) == gone * visited;
      }
    }
  }
}
