/** One reconcile as a relation on what the controller remembers (internal/watcher/controller.go:273-304,
    339-382), and its place in the protocol: it is a stretch of a run, so everything proved of runs holds
    of the code. */
module Reconcile {
  import opened Base
  import opened Identity
  import opened Rounds
  import opened Rules
  import opened RestartTracker
  import opened Lifecycle
  import opened Delivery
  import opened Findings
  import opened Simulation
  import opened Guarantees
  import Dedup

  datatype Settings = Settings(cfg: Config, thresholds: Thresholds, window: int, rapidCount: int)

  /** The active map, the deduper's state and the restart histories. */
  datatype Memory = Memory(active: map<string, Marks>, dedup: Dedup.State, restarts: map<string, Observed>)

  /** The lister's answer. */
  datatype Fetched<T> = Found(obj: T) | NotFound | Failed

  /** What one deliver makes of the active map and the deduper's state. */
  ghost predicate DeliverDone(
      cfg: Config, active: map<string, Marks>, dedup: Dedup.State, objKey: string, alerts: seq<Alert>, now: Time,
      clock: nat -> Time, active': map<string, Marks>, dedup': Dedup.State)
  {
    var marks, current := Entry(active, objKey), Keys(alerts);
    && active' == Stored(active, objKey, Aged(cfg.grace, marks, current, now))
    && dedup' == ForgetAll(FireSeq(cfg.resend, dedup, alerts, |alerts|, clock), Expired(cfg.grace, marks, current, now))
  }

  /** What one clearObject makes of them. */
  ghost predicate ClearDone(
      active: map<string, Marks>, dedup: Dedup.State, objKey: string, active': map<string, Marks>, dedup': Dedup.State)
  {
    active' == active - {objKey} && dedup' == ForgetAll(dedup, Entry(active, objKey).Keys)
  }

  /** A lister error changes nothing; a missing pod is cleared everywhere; otherwise exactly the alerts
      of the rules and of the burst detector are delivered. */
  ghost predicate PodReconciled(
      opts: Settings, before: Memory, q: QueueKey, found: Fetched<Pod>, evalAt: Time, now: Time, clock: nat -> Time,
      alerts: seq<Alert>, after: Memory)
  {
    match found
    case Failed => after == before
    case NotFound =>
      && ClearDone(before.active, before.dedup, ObjectKey(q), after.active, after.dedup)
      && after.restarts == WithoutPod(before.restarts, PodKey(q.namespace, q.name))
    case Found(pod) =>
      && Finds(opts.thresholds, opts.window, opts.rapidCount, before.restarts, pod, evalAt, alerts, after.restarts)
      && DeliverDone(opts.cfg, before.active, before.dedup, ObjectKey(q), alerts, now, clock, after.active, after.dedup)
  }

  /** Nodes have no restart history; the rest is the same. */
  ghost predicate NodeReconciled(
      opts: Settings, before: Memory, q: QueueKey, found: Fetched<Node>, evalAt: Time, now: Time, clock: nat -> Time,
      alerts: seq<Alert>, after: Memory)
  {
    && after.restarts == before.restarts
    && match found
       case Failed => after == before
       case NotFound => ClearDone(before.active, before.dedup, ObjectKey(q), after.active, after.dedup)
       case Found(node) =>
         && OnePerCalling(node, node.conditions, opts.thresholds, evalAt, alerts)
         && DeliverDone(opts.cfg, before.active, before.dedup, ObjectKey(q), alerts, now, clock, after.active, after.dedup)
  }

  // ------------------------------------------------------------ place in the protocol

  /** The run has led to what the controller remembers. */
  ghost predicate InStep(cfg: Config, run: seq<Event>, m: Memory)
  {
    Valid(cfg, run) && Exec(cfg, run).active == m.active && Exec(cfg, run).dedup == m.dedup
  }

  /** The worker may take up q, the lock is free, and its clock readings are in order. */
  ghost predicate MayStart(s: Sys, q: QueueKey, alerts: seq<Alert>, now: Time, clock: nat -> Time)
  {
    && WellFormed(q) && q !in s.flights && s.holder.None?
    && 0 < now && Clock(s, q) <= now && Ticks(clock, |alerts|, now)
  }

  /** run' goes on from run, and the other workers are where they were. */
  ghost predicate GoesOn(cfg: Config, run: seq<Event>, run': seq<Event>)
    requires Valid(cfg, run)
  {
    && run <= run' && Valid(cfg, run')
    && Exec(cfg, run').flights == Exec(cfg, run).flights && Exec(cfg, run').holder == Exec(cfg, run).holder
  }

  // ---------------------------------------------------- the steps of one reconcile

  /** The steps of a deliver: it begins, fires each alert in order with its own clock reading, takes the
      lock, ages marks of q, and releases the lock. */
  ghost predicate DeliverSteps(more: seq<Event>, q: QueueKey, alerts: seq<Alert>, now: Time, clock: nat -> Time)
  {
    && |more| >= |alerts| + 3
    && more[0] == Begin(q, alerts, now)
    && (forall i :: 0 <= i < |alerts| ==> more[i+1] == Fire(q, alerts[i], clock(i)))
    && more[|alerts|+1] == Lock(q)
    && (forall i :: |alerts| + 1 < i < |more| - 1 ==> more[i].Age? && more[i].q == q)
    && more[|more|-1] == Unlock(q)
  }

  /** The steps of a clearObject: it takes the lock, drops keys of q, and ends with the object cleared. */
  ghost predicate ClearSteps(more: seq<Event>, q: QueueKey)
  {
    && |more| >= 2 && more[0] == ClearLock(q)
    && (forall i :: 0 < i < |more| - 1 ==> more[i].ClearKey? && more[i].q == q)
    && more[|more|-1] == ClearUnlock(q)
  }

  /** Which steps a reconcile takes: none if the lister failed. */
  ghost predicate Steps<T>(
      found: Fetched<T>, more: seq<Event>, q: QueueKey, alerts: seq<Alert>, now: Time, clock: nat -> Time)
  {
    match found
    case Failed => more == []
    case NotFound => ClearSteps(more, q)
    case Found(_) => DeliverSteps(more, q, alerts, now, clock)
  }

  lemma {:induction false} OpeningSteps(q: QueueKey, alerts: seq<Alert>, now: Time, n: nat, clock: nat -> Time)
    requires n <= |alerts|
    ensures var es := Opening(q, alerts, now, n, clock);
            && |es| == n + 1 && es[0] == Begin(q, alerts, now)
            && forall i :: 0 <= i < n ==> es[i+1] == Fire(q, alerts[i], clock(i))
  {
    if n > 0 {
      OpeningSteps(q, alerts, now, n - 1, clock);
    }
  }

  lemma {:induction false} AgesSteps(q: QueueKey, order: seq<string>)
    ensures forall e :: e in Ages(q, order) ==> e.Age? && e.q == q
  {
    if order != [] {
      AgesSteps(q, order[..|order|-1]);
    }
  }

  lemma {:induction false} DeliverEventsAreSteps(
      q: QueueKey, alerts: seq<Alert>, now: Time, clock: nat -> Time, order: seq<string>)
    ensures DeliverSteps(DeliverEvents(q, alerts, now, clock, order), q, alerts, now, clock)
  {
    var opening, ages := Opening(q, alerts, now, |alerts|, clock), Ages(q, order);
    OpeningSteps(q, alerts, now, |alerts|, clock);
    AgesSteps(q, order);
    var more := DeliverEvents(q, alerts, now, clock, order);
    assert more == opening + ([Lock(q)] + ages + [Unlock(q)]);
    forall i | |alerts| + 1 < i < |more| - 1 ensures more[i].Age? && more[i].q == q {
      assert more[i] == ages[i - |alerts| - 2];
    }
  }

  lemma {:induction false} ClearEventsAreSteps(q: QueueKey, order: seq<string>)
    ensures ClearSteps(ClearEvents(q, order), q)
  {
    ClearKeysSteps(q, order);
    var more := ClearEvents(q, order);
    forall i | 0 < i < |more| - 1 ensures more[i].ClearKey? && more[i].q == q {
      assert more[i] == ClearKeys(q, order)[i - 1];
    }
  }

  lemma {:induction false} ClearKeysSteps(q: QueueKey, order: seq<string>)
    ensures forall e :: e in ClearKeys(q, order) ==> e.ClearKey? && e.q == q
  {
    if order != [] {
      ClearKeysSteps(q, order[..|order|-1]);
    }
  }

  lemma {:induction false} DeliverGoesOn(
      cfg: Config, run: seq<Event>, before: Memory, q: QueueKey, alerts: seq<Alert>, now: Time, clock: nat -> Time,
      after: Memory) returns (run': seq<Event>)
    requires InStep(cfg, run, before) && MayStart(Exec(cfg, run), q, alerts, now, clock) && About(q, alerts)
    requires DeliverDone(cfg, before.active, before.dedup, ObjectKey(q), alerts, now, clock, after.active, after.dedup)
    ensures GoesOn(cfg, run, run') && InStep(cfg, run', after) && DeliverSteps(run'[|run|..], q, alerts, now, clock)
  {
    var order := Enumerate(Entry(before.active, ObjectKey(q)).Keys - Keys(alerts));
    DeliverIsARun(cfg, run, q, alerts, now, clock, order);
    DeliverEventsAreSteps(q, alerts, now, clock, order);
    run' := run + DeliverEvents(q, alerts, now, clock, order);
    assert run'[|run|..] == DeliverEvents(q, alerts, now, clock, order);
  }

  lemma {:induction false} ClearGoesOn(cfg: Config, run: seq<Event>, before: Memory, q: QueueKey, after: Memory)
    returns (run': seq<Event>)
    requires InStep(cfg, run, before) && Enabled(Exec(cfg, run), ClearLock(q))
    requires ClearDone(before.active, before.dedup, ObjectKey(q), after.active, after.dedup)
    ensures GoesOn(cfg, run, run') && InStep(cfg, run', after) && ClearSteps(run'[|run|..], q)
  {
    var order := Enumerate(Entry(before.active, ObjectKey(q)).Keys);
    ClearIsARun(cfg, run, q, order);
    ClearEventsAreSteps(q, order);
    run' := run + ClearEvents(q, order);
    assert run'[|run|..] == ClearEvents(q, order);
  }

  /** Reconciling a pod is a stretch of a run of the protocol, made of exactly the steps that the
      lister's answer calls for; other workers may be anywhere in theirs. */
  lemma {:induction false} PodReconcileIsARun(
      opts: Settings, run: seq<Event>, before: Memory, q: QueueKey, found: Fetched<Pod>, evalAt: Time, now: Time,
      clock: nat -> Time, alerts: seq<Alert>, after: Memory) returns (run': seq<Event>)
    requires InStep(opts.cfg, run, before) && MayStart(Exec(opts.cfg, run), q, alerts, now, clock)
    requires found.Found? ==> PodQueueKey(found.obj) == q
    requires PodReconciled(opts, before, q, found, evalAt, now, clock, alerts, after)
    ensures GoesOn(opts.cfg, run, run') && InStep(opts.cfg, run', after)
    ensures Steps(found, run'[|run|..], q, alerts, now, clock)
  {
    match found
    case Failed =>
      run' := run;
    case NotFound =>
      run' := ClearGoesOn(opts.cfg, run, before, q, after);
    case Found(pod) =>
      PodFindingsAbout(opts.thresholds, opts.window, opts.rapidCount, before.restarts, pod, evalAt, alerts, after.restarts);
      run' := DeliverGoesOn(opts.cfg, run, before, q, alerts, now, clock, after);
  }

  /** The same for nodes. */
  lemma {:induction false} NodeReconcileIsARun(
      opts: Settings, run: seq<Event>, before: Memory, q: QueueKey, found: Fetched<Node>, evalAt: Time, now: Time,
      clock: nat -> Time, alerts: seq<Alert>, after: Memory) returns (run': seq<Event>)
    requires InStep(opts.cfg, run, before) && MayStart(Exec(opts.cfg, run), q, alerts, now, clock)
    requires found.Found? ==> NodeQueueKey(found.obj) == q
    requires NodeReconciled(opts, before, q, found, evalAt, now, clock, alerts, after)
    ensures GoesOn(opts.cfg, run, run') && InStep(opts.cfg, run', after)
    ensures Steps(found, run'[|run|..], q, alerts, now, clock)
  {
    match found
    case Failed =>
      run' := run;
    case NotFound =>
      run' := ClearGoesOn(opts.cfg, run, before, q, after);
    case Found(node) =>
      OnePerCallingIsRules(node, opts.thresholds, evalAt, alerts);
      NodeFindingsAbout(node, opts.thresholds, evalAt, alerts);
      run' := DeliverGoesOn(opts.cfg, run, before, q, alerts, now, clock, after);
  }

  // -------------------------------------------------------------- what has changed then

  /** How many of the alerts have this reason. */
  function CountReason(alerts: seq<Alert>, r: Reason, n: nat): (m: nat)
    requires n <= |alerts|
  {
    if n == 0 then 0 else CountReason(alerts, r, n - 1) + (if alerts[n-1].reason == r then 1 else 0)
  }

  /** Firings counted for a reason, let through or not. */
  function Firings(st: Dedup.State, r: Reason): (n: nat)
  {
    Dedup.FiredFor(st, r) + st.suppressed[r]
  }

  lemma {:induction false} FireCounts(resend: int, st: Dedup.State, a: Alert, now: Time, st': Dedup.State, r: Reason)
    requires st' == Dedup.FireStep(resend, st, a, now)
    ensures Firings(st', r) == Firings(st, r) + (if a.reason == r then 1 else 0)
    ensures Key(a) in st'.lastSeen && st.lastSeen.Keys <= st'.lastSeen.Keys
  {
    Dedup.CountOne(st.fired, Dedup.LabelOf(a), Dedup.FiredLabel(r, Warning));
    Dedup.CountOne(st.fired, Dedup.LabelOf(a), Dedup.FiredLabel(r, Critical));
    Dedup.CountOne(st.suppressed, a.reason, r);
    assert a.severity.Warning? || a.severity.Critical?;
  }

  /** What the first n firings have done to the deduper. */
  ghost predicate Counts(st: Dedup.State, st': Dedup.State, alerts: seq<Alert>, n: nat, r: Reason)
    requires n <= |alerts|
  {
    && Firings(st', r) == Firings(st, r) + CountReason(alerts, r, n)
    && forall i :: 0 <= i < n ==> Key(alerts[i]) in st'.lastSeen
  }

  lemma {:induction false} CountsSnoc(
      resend: int, st: Dedup.State, mid: Dedup.State, st': Dedup.State, alerts: seq<Alert>, n: nat, now: Time, r: Reason)
    requires n < |alerts| && Counts(st, mid, alerts, n, r) && st' == Dedup.FireStep(resend, mid, alerts[n], now)
    ensures Counts(st, st', alerts, n + 1, r)
  {
    FireCounts(resend, mid, alerts[n], now, st', r);
  }

  lemma {:induction false} FireSeqCounts(
      resend: int, st: Dedup.State, alerts: seq<Alert>, n: nat, clock: nat -> Time, r: Reason)
    requires n <= |alerts|
    ensures Counts(st, FireSeq(resend, st, alerts, n, clock), alerts, n, r)
  {
    if n > 0 {
      var m: nat := n - 1;
      FireSeqCounts(resend, st, alerts, m, clock, r);
      CountsSnoc(resend, st, FireSeq(resend, st, alerts, m, clock), FireSeq(resend, st, alerts, n, clock), alerts, m, clock(m), r);
    }
  }

  /** The alerts have been delivered: every key of theirs is marked as firing and recorded, every mark of
      the object that fires is one of theirs, and per reason as many firings have been counted. */
  ghost predicate Told(before: Memory, q: QueueKey, alerts: seq<Alert>, after: Memory)
  {
    && (forall k :: Lookup(Entry(after.active, ObjectKey(q)), k) == Some(0) <==> k in Keys(alerts))
    && Keys(alerts) <= after.dedup.lastSeen.Keys
    && forall r :: Firings(after.dedup, r) == Firings(before.dedup, r) + CountReason(alerts, r, |alerts|)
  }

  lemma {:induction false} DeliverTells(
      cfg: Config, before: Memory, q: QueueKey, alerts: seq<Alert>, now: Time, clock: nat -> Time, after: Memory)
    requires DeliverDone(cfg, before.active, before.dedup, ObjectKey(q), alerts, now, clock, after.active, after.dedup)
    requires now != 0
    ensures Told(before, q, alerts, after)
  {
    var o, marks, current := ObjectKey(q), Entry(before.active, ObjectKey(q)), Keys(alerts);
    var fired := FireSeq(cfg.resend, before.dedup, alerts, |alerts|, clock);
    forall r ensures Counts(before.dedup, fired, alerts, |alerts|, r) {
      FireSeqCounts(cfg.resend, before.dedup, alerts, |alerts|, clock, r);
    }
    forall r ensures Firings(after.dedup, r) == Firings(before.dedup, r) + CountReason(alerts, r, |alerts|) {
      assert Counts(before.dedup, fired, alerts, |alerts|, r);
    }
    assert Counts(before.dedup, fired, alerts, |alerts|, OOMKilled);
    assert Expired(cfg.grace, marks, current, now) !! current;
    assert Entry(after.active, o) == Aged(cfg.grace, marks, current, now);
  }

  /** A pod that is there: exactly what the rules and the burst detector find at the instant of the
      evaluation is delivered, and only the detector's histories change besides. */
  lemma {:induction false} PodFound(
      opts: Settings, before: Memory, q: QueueKey, pod: Pod, evalAt: Time, now: Time, clock: nat -> Time,
      alerts: seq<Alert>, after: Memory)
    requires PodReconciled(opts, before, q, Found(pod), evalAt, now, clock, alerts, after) && now != 0
    ensures Told(before, q, alerts, after)
    ensures forall a :: a in alerts <==>
              Reports(opts.thresholds, opts.window, opts.rapidCount, before.restarts, pod, evalAt, a)
    ensures after.restarts == RapidOf(opts.window, opts.rapidCount, before.restarts, pod, evalAt).view
  {
    DeliverTells(opts.cfg, before, q, alerts, now, clock, after);
    FindsReports(opts.thresholds, opts.window, opts.rapidCount, before.restarts, pod, evalAt, alerts, after.restarts);
  }

  /** A node that is there: the same with the rules for nodes. */
  lemma {:induction false} NodeFound(
      opts: Settings, before: Memory, q: QueueKey, node: Node, evalAt: Time, now: Time, clock: nat -> Time,
      alerts: seq<Alert>, after: Memory)
    requires NodeReconciled(opts, before, q, Found(node), evalAt, now, clock, alerts, after) && now != 0
    ensures Told(before, q, alerts, after)
    ensures forall a :: a in alerts <==> NodeRule(node, opts.thresholds, evalAt, a)
    ensures after.restarts == before.restarts
  {
    DeliverTells(opts.cfg, before, q, alerts, now, clock, after);
    OnePerCallingIsRules(node, opts.thresholds, evalAt, alerts);
  }

  /** Nothing of q is left: no entry, no mark and no record of any key that belongs to it; the records of
      other objects' keys are what they were. */
  ghost predicate Vanished(before: Memory, q: QueueKey, after: Memory)
  {
    && ObjectKey(q) !in after.active
    && (forall k :: k in after.dedup.lastSeen <==> k in before.dedup.lastSeen && Owner(k) != q)
    && (forall o :: o != ObjectKey(q) ==> Lookup(after.active, o) == Lookup(before.active, o))
  }

  lemma {:induction false} ClearVanishes(cfg: Config, run: seq<Event>, before: Memory, q: QueueKey, after: Memory)
    requires InStep(cfg, run, before) && WellFormed(q) && q !in Exec(cfg, run).flights
    requires ClearDone(before.active, before.dedup, ObjectKey(q), after.active, after.dedup)
    ensures Vanished(before, q, after)
  {
    var s := Exec(cfg, run);
    ReachableInv(cfg, run);
    forall k ensures k in after.dedup.lastSeen <==> k in before.dedup.lastSeen && Owner(k) != q {
      if k in Entry(s.active, ObjectKey(q)) {
        EntryOwned(s, q, k);
      }
      if Owner(k) == q {
        RecordIffTrackedOrFired(cfg, run, k);
      }
    }
  }

  /** A pod that is gone: nothing of it is left, neither in the active map, nor in the deduper, nor in the
      restart histories of any of its containers; those of other pods are what they were. */
  lemma {:induction false} PodGone(
      opts: Settings, run: seq<Event>, before: Memory, q: QueueKey, evalAt: Time, now: Time, clock: nat -> Time,
      alerts: seq<Alert>, after: Memory, pod: Pod, cs: ContainerStatus)
    requires InStep(opts.cfg, run, before) && WellFormed(q) && q.kind == "Pod" && q !in Exec(opts.cfg, run).flights
    requires PodReconciled(opts, before, q, NotFound, evalAt, now, clock, alerts, after)
    requires WellFormed(PodQueueKey(pod))
    ensures Vanished(before, q, after)
    ensures HistoryOf(after.restarts, KeyOf(pod, cs)) ==
            if PodQueueKey(pod) == q then UNSEEN else HistoryOf(before.restarts, KeyOf(pod, cs))
  {
    ClearVanishes(opts.cfg, run, before, q, after);
    ForgetPodIsExact(before.restarts, pod.namespace, pod.name, q.namespace, q.name, cs.name);
  }

  /** A node that is gone. */
  lemma {:induction false} NodeGone(
      opts: Settings, run: seq<Event>, before: Memory, q: QueueKey, evalAt: Time, now: Time, clock: nat -> Time,
      alerts: seq<Alert>, after: Memory)
    requires InStep(opts.cfg, run, before) && WellFormed(q) && q !in Exec(opts.cfg, run).flights
    requires NodeReconciled(opts, before, q, NotFound, evalAt, now, clock, alerts, after)
    ensures Vanished(before, q, after) && after.restarts == before.restarts
  {
    ClearVanishes(opts.cfg, run, before, q, after);
  }
}
