/** From the burst detector's alerts back to what really happened: every RapidRestart alert that a
    reconcile finds, after any history of the tracker, stands for restarts of that container. */
module Bursts {
  import opened Base
  import opened Identity
  import opened Rules
  import opened RestartTracker
  import opened Findings
  import opened Reconcile

  /** The tracker's calls once the first n containers of a pod have been observed. */
  function Noted(ops: seq<Op>, pod: Pod, now: Time, n: nat): (ops': seq<Op>)
    requires n <= |pod.containers|
  {
    if n == 0 then ops
    else Noted(ops, pod, now, n - 1) + [Note(KeyOf(pod, pod.containers[n-1]), pod.containers[n-1].restartCount, now)]
  }

  lemma {:induction false} NotedExtends(ops: seq<Op>, pod: Pod, now: Time, n: nat)
    requires n <= |pod.containers|
    ensures ops <= Noted(ops, pod, now, n)
  {
    if n > 0 {
      NotedExtends(ops, pod, now, n - 1);
    }
  }

  /** The observations of the i-th container, up to the one made now. */
  function LogNow(ops: seq<Op>, pod: Pod, now: Time, i: nat): (log: seq<Obs>)
    requires i < |pod.containers|
  {
    LogOf(Noted(ops, pod, now, i + 1), KeyOf(pod, pod.containers[i]))
  }

  /** all is ops followed by the observation of cs. */
  ghost predicate Follows(ops: seq<Op>, all: seq<Op>, pod: Pod, now: Time, cs: ContainerStatus)
  {
    all != [] && all[..|all|-1] == ops && all[|all|-1] == Note(KeyOf(pod, cs), cs.restartCount, now)
  }

  lemma {:induction false} NotedSnoc(ops: seq<Op>, pod: Pod, now: Time, n: nat)
    requires n < |pod.containers|
    ensures Follows(Noted(ops, pod, now, n), Noted(ops, pod, now, n + 1), pod, now, pod.containers[n])
  {
  }

  lemma {:induction false} StepView(
      window: int, threshold: int, r: Rapid, ops: seq<Op>, all: seq<Op>, pod: Pod, now: Time, cs: ContainerStatus)
    requires r.view == Views(window, ops) && Follows(ops, all, pod, now, cs)
    ensures RapidStep(window, threshold, r, pod, now, cs).view == Views(window, all)
  {
    NoteSnoc(window, ops, all, KeyOf(pod, cs), cs.restartCount, now);
  }

  /** Reconciling a pod takes the tracker from one history of calls to another. */
  lemma {:induction false} RapidViews(
      window: int, threshold: int, view: map<string, Observed>, ops: seq<Op>, pod: Pod, now: Time, n: nat)
    requires n <= |pod.containers| && view == Views(window, ops)
    ensures RapidSpec(window, threshold, view, pod, now, n).view == Views(window, Noted(ops, pod, now, n))
  {
    if n > 0 {
      var m: nat := n - 1;
      RapidViews(window, threshold, view, ops, pod, now, m);
      RapidViewsSnoc(window, threshold, view, ops, pod, now, m);
    }
  }

  lemma {:induction false} RapidViewsSnoc(
      window: int, threshold: int, view: map<string, Observed>, ops: seq<Op>, pod: Pod, now: Time, m: nat)
    requires m < |pod.containers|
    requires RapidSpec(window, threshold, view, pod, now, m).view == Views(window, Noted(ops, pod, now, m))
    ensures RapidSpec(window, threshold, view, pod, now, m + 1).view == Views(window, Noted(ops, pod, now, m + 1))
  {
    var r := RapidSpec(window, threshold, view, pod, now, m);
    NotedSnoc(ops, pod, now, m);
    StepView(window, threshold, r, Noted(ops, pod, now, m), Noted(ops, pod, now, m + 1), pod, now, pod.containers[m]);
    RapidSnoc(window, threshold, view, pod, now, m, r);
  }

  /** The i-th container shows a burst now, by its own observations. */
  ghost predicate ShowsBurst(window: int, threshold: int, ops: seq<Op>, pod: Pod, now: Time, i: nat)
    requires i < |pod.containers|
  {
    |Replay(window, LogNow(ops, pod, now, i)).increments| >= threshold
  }

  lemma {:induction false} LogNowEnds(ops: seq<Op>, pod: Pod, now: Time, i: nat)
    requires i < |pod.containers|
    ensures var log := LogNow(ops, pod, now, i);
            log != [] && log[|log|-1] == Obs(pod.containers[i].restartCount, now)
  {
    NotedSnoc(ops, pod, now, i);
  }

  lemma {:induction false} SightingIsReplay(
      window: int, view: map<string, Observed>, ops: seq<Op>, all: seq<Op>, pod: Pod, now: Time, cs: ContainerStatus)
    requires view == Views(window, ops) && Follows(ops, all, pod, now, cs)
    ensures Sighting(window, view, pod, now, cs) == Replay(window, LogOf(all, KeyOf(pod, cs)))
  {
    ViewsAreReplays(window, ops, KeyOf(pod, cs));
    NoteSnoc(window, ops, all, KeyOf(pod, cs), cs.restartCount, now);
    ReplaySnoc(window, LogOf(ops, KeyOf(pod, cs)), Obs(cs.restartCount, now));
  }

  lemma {:induction false} StepShowsBurst(
      window: int, threshold: int, view: map<string, Observed>, ops: seq<Op>, pod: Pod, now: Time, i: nat, a: Alert)
    requires i < |pod.containers| && view == Views(window, ops)
    requires a !in RapidSpec(window, threshold, view, pod, now, i).alerts
    requires a in RapidSpec(window, threshold, view, pod, now, i + 1).alerts
    ensures a == RapidAlert(pod, pod.containers[i]) && ShowsBurst(window, threshold, ops, pod, now, i)
  {
    var r := RapidSpec(window, threshold, view, pod, now, i);
    RapidSnoc(window, threshold, view, pod, now, i, r);
    RapidViews(window, threshold, view, ops, pod, now, i);
    NotedSnoc(ops, pod, now, i);
    SightingIsReplay(window, r.view,
                     Noted(ops, pod, now, i), Noted(ops, pod, now, i + 1), pod, now, pod.containers[i]);
  }

  /** An alert of the burst detector is about a container that shows a burst. */
  lemma {:induction false} RapidAlertShowsBurst(
      window: int, threshold: int, view: map<string, Observed>, ops: seq<Op>, pod: Pod, now: Time, n: nat, a: Alert)
    returns (i: nat)
    requires n <= |pod.containers| && view == Views(window, ops)
    requires a in RapidSpec(window, threshold, view, pod, now, n).alerts
    ensures i < n && a == RapidAlert(pod, pod.containers[i]) && ShowsBurst(window, threshold, ops, pod, now, i)
  {
    var m: nat := n - 1;
    if a in RapidSpec(window, threshold, view, pod, now, m).alerts {
      i := RapidAlertShowsBurst(window, threshold, view, ops, pod, now, m, a);
    } else {
      i := m;
      StepShowsBurst(window, threshold, view, ops, pod, now, m, a);
    }
  }

  /** What every course of the container's true restart count that fits its observations has in common:
      the count is at least the threshold, and rose by one less since an instant strictly inside the
      window; and it rose inside the window by all that was observed. */
  ghost predicate ReallyRestarted(window: int, count: int, log: seq<Obs>, now: Time)
    requires log != []
  {
    forall counter: Time -> nat :: Fits(log, counter) ==>
      && BurstHappened(count, window, now, counter)
      && (window >= 0 ==> RoseBy(ObservedRise(window, log), window, now, counter))
  }

  lemma {:induction false} BurstReallyHappened(window: int, count: int, log: seq<Obs>, now: Time)
    requires log != [] && log[|log|-1].at == now && InOrder(log)
    requires count > 0 && |Replay(window, log).increments| >= count
    ensures ReallyRestarted(window, count, log, now)
  {
    forall counter: Time -> nat | Fits(log, counter)
      ensures BurstHappened(count, window, now, counter)
      ensures window >= 0 ==> RoseBy(ObservedRise(window, log), window, now, counter)
    {
      BurstIsReal(window, log, counter);
      if window >= 0 {
        RestartedTimesIff(window, log, counter, ObservedRise(window, log));
      }
    }
  }

  /** Every RapidRestart alert that a reconcile of a pod finds, after any calls of the tracker, is about
      a container of it whose true restart count really rose. Only the observations of that container
      need to have been made in order. */
  lemma {:induction false} RapidRestartIsReal(
      t: Thresholds, window: int, count: int, ops: seq<Op>, pod: Pod, now: Time, alerts: seq<Alert>,
      view': map<string, Observed>, a: Alert) returns (i: nat)
    requires Finds(t, window, count, Views(window, ops), pod, now, alerts, view')
    requires a in alerts && a.reason == RapidRestart
    ensures i < |pod.containers| && a == RapidAlert(pod, pod.containers[i])
    ensures var log := LogNow(ops, pod, now, i);
            && log != [] && log[|log|-1] == Obs(pod.containers[i].restartCount, now)
            && (InOrder(log) ==> ReallyRestarted(window, count, log, now))
  {
    FindsReports(t, window, count, Views(window, ops), pod, now, alerts, view');
    i := RapidAlertShowsBurst(window, count, Views(window, ops), ops, pod, now, |pod.containers|, a);
    var log := LogNow(ops, pod, now, i);
    LogNowEnds(ops, pod, now, i);
    if InOrder(log) {
      BurstReallyHappened(window, count, log, now);
    }
  }

  /** And the histories it leaves are again those of a sequence of calls. */
  lemma {:induction false} FindingsKeepViews(
      t: Thresholds, window: int, count: int, ops: seq<Op>, pod: Pod, now: Time, alerts: seq<Alert>,
      view': map<string, Observed>) returns (ops': seq<Op>)
    requires Finds(t, window, count, Views(window, ops), pod, now, alerts, view')
    ensures view' == Views(window, ops') && ops <= ops'
  {
    if count <= 0 {
      ops' := ops;
    } else {
      RapidViews(window, count, Views(window, ops), ops, pod, now, |pod.containers|);
      NotedExtends(ops, pod, now, |pod.containers|);
      ops' := Noted(ops, pod, now, |pod.containers|);
    }
  }

  /** Every reconcile of a pod keeps the restart histories those of a sequence of calls. They start out
      empty, so they always are, and the alerts found are always those of the lemma above. */
  lemma {:induction false} ReconcileKeepsViews(
      opts: Settings, before: Memory, q: QueueKey, found: Fetched<Pod>, evalAt: Time, now: Time, clock: nat -> Time,
      alerts: seq<Alert>, after: Memory, ops: seq<Op>) returns (ops': seq<Op>)
    requires PodReconciled(opts, before, q, found, evalAt, now, clock, alerts, after)
    requires before.restarts == Views(opts.window, ops)
    ensures after.restarts == Views(opts.window, ops') && ops <= ops'
  {
    match found
    case Failed =>
      ops' := ops;
    case NotFound =>
      ops' := ops + [DropPod(PodKey(q.namespace, q.name))];
      assert ops'[..|ops'|-1] == ops;
    case Found(pod) =>
      ops' := FindingsKeepViews(opts.thresholds, opts.window, opts.rapidCount, ops, pod, evalAt, alerts, after.restarts);
  }
}
