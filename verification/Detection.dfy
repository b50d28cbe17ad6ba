/** From the rule engine to the sinks: how long a stuck pod stays unreported. */
module Detection {
  import opened Base
  import opened Identity
  import opened Rounds
  import opened Rules
  import opened Lifecycle
  import opened Simulation
  import opened Findings

  // ----------------------------------------------- reconciles, read off the events

  /** What a reconcile found, and the instant it entered deliver. */
  datatype Start = Start(alerts: seq<Alert>, at: Time)

  /** The reconciles of q begun since it was last cleared. */
  function Starts(es: seq<Event>, q: QueueKey): (starts: seq<Start>)
  {
    if es == [] then []
    else StartsStep(Starts(es[..|es|-1], q), es[|es|-1], q)
  }

  function StartsStep(starts: seq<Start>, e: Event, q: QueueKey): (starts': seq<Start>)
  {
    if e == ClearUnlock(q) then []
    else if e.Begin? && e.q == q then starts + [Start(e.alerts, e.at)]
    else starts
  }

  /** Round r of key k is what the reconcile begun as `start` left in its history. */
  predicate RoundOf(start: Start, r: Round, k: string)
  {
    r.at == start.at && (r.fires != [] <==> k in Keys(start.alerts))
  }

  /** Every completed round belongs to one start, in order; the start left over is the flight's. */
  ghost predicate Paired(starts: seq<Start>, h: History, f: Option<Flight>, k: string)
  {
    && |starts| == |h.rounds| + (if h.open.Some? then 1 else 0)
    && (forall i :: 0 <= i < |h.rounds| ==> RoundOf(starts[i], h.rounds[i], k))
    && (f.Some? && f.value.Deliver? ==>
          h.open.Some? && starts[|starts|-1].alerts == f.value.alerts && starts[|starts|-1].at == f.value.at)
  }

  lemma {:induction false} OtherFlightStays(cfg: Config, s: Sys, e: Event, q: QueueKey)
    requires Enabled(s, e) && e.q != q
    ensures Lookup(Step(cfg, s, e).flights, q) == Lookup(s.flights, q)
  {
  }

  /** There is a round in progress exactly during a reconcile; once it is ageing, it has fired k exactly
      if it found it. */
  ghost predicate OpenRound(f: Option<Flight>, h: History, k: string)
  {
    match f
    case None => h.open.None?
    case Some(Clear(_)) => h.open.None?
    case Some(Deliver(at, alerts, phase)) =>
      h.open.Some? && (phase.Ageing? ==> RoundOf(Start(alerts, at), h.open.value, k))
  }

  lemma {:induction false} MirrorOpenRound(cfg: Config, s: Sys, h: History, d: seq<Time>, k: string)
    requires Mirror(cfg, s, h, d, k)
    ensures OpenRound(Lookup(s.flights, Owner(k)), h, k)
  {
  }

  lemma {:induction false} PairedOwnStep(cfg: Config, s: Sys, e: Event, starts: seq<Start>, h: History, k: string)
    requires Enabled(s, e) && e.q == Owner(k)
    requires OpenRound(Lookup(s.flights, e.q), h, k) && Paired(starts, h, Lookup(s.flights, e.q), k)
    ensures Paired(StartsStep(starts, e, e.q), HistStep(h, e, k), Lookup(Step(cfg, s, e).flights, e.q), k)
  {
    if e.Unlock? {
      assert starts[|starts|-1] == Start(s.flights[e.q].alerts, s.flights[e.q].at);
    }
  }

  lemma {:induction false} PairedStep(cfg: Config, s: Sys, e: Event, starts: seq<Start>, h: History, d: seq<Time>, k: string)
    requires Enabled(s, e) && Mirror(cfg, s, h, d, k) && Paired(starts, h, Lookup(s.flights, Owner(k)), k)
    ensures Paired(StartsStep(starts, e, Owner(k)), HistStep(h, e, k), Lookup(Step(cfg, s, e).flights, Owner(k)), k)
  {
    if e.q == Owner(k) {
      MirrorOpenRound(cfg, s, h, d, k);
      PairedOwnStep(cfg, s, e, starts, h, k);
    } else {
      OtherFlightStays(cfg, s, e, Owner(k));
    }
  }

  lemma {:induction false} HistoryPairs(cfg: Config, es: seq<Event>, k: string)
    requires Valid(cfg, es)
    ensures Paired(Starts(es, Owner(k)), Hist(es, k), Lookup(Exec(cfg, es).flights, Owner(k)), k)
  {
    if es != [] {
      var init := es[..|es|-1];
      HistoryPairs(cfg, init, k);
      ReachableMirrors(cfg, init, k);
      PairedStep(cfg, Exec(cfg, init), es[|es|-1], Starts(init, Owner(k)), Hist(init, k), Deliveries(cfg, init, k), k);
    }
  }

  // ------------------------------------------------------------------- detection

  /** The alerts are those a reconcile of the pod finds at this instant, whatever restart histories it
      starts from. */
  ghost predicate FoundBy(pod: Pod, t: Thresholds, window: int, count: int, eval: Time, alerts: seq<Alert>)
  {
    exists view, view' :: Finds(t, window, count, view, pod, eval, alerts, view')
  }

  /** The i-th reconcile of the pod evaluated it at evals[i], before entering deliver, and set
      out to fire exactly what the rules and the burst detector reported. */
  ghost predicate ReconcilesReport(
      pod: Pod, t: Thresholds, window: int, count: int, evals: seq<Time>, starts: seq<Start>)
  {
    && |evals| == |starts|
    && (starts == [] ||
        (var last := |starts| - 1;
         && ReconcilesReport(pod, t, window, count, evals[..last], starts[..last])
         && evals[last] <= starts[last].at
         && FoundBy(pod, t, window, count, evals[last], starts[last].alerts)))
  }

  lemma {:induction false} EachReports(
      pod: Pod, t: Thresholds, window: int, count: int, evals: seq<Time>, starts: seq<Start>, i: nat)
    requires ReconcilesReport(pod, t, window, count, evals, starts) && i < |starts|
    ensures i < |evals| && FoundBy(pod, t, window, count, evals[i], starts[i].alerts)
  {
    var last := |starts| - 1;
    if i < last {
      EachReports(pod, t, window, count, evals[..last], starts[..last], i);
    }
  }

  /** Pending, not being deleted, and with no container waiting for a more specific reason. */
  predicate PlainlyPending(pod: Pod)
  {
    && !pod.deleting && pod.phase == "Pending"
    && forall cs :: cs in pod.containers ==> !IsCrashLoop(cs) && !IsImagePull(cs)
  }

  /** The first evaluation at or past an instant, when evaluations are at most gap apart. */
  lemma {:induction false} FirstPast(evals: seq<Time>, created: Time, grace: int, gap: int) returns (m: nat)
    requires evals != [] && Sorted(evals) && AtMostApart(evals, gap)
    requires created <= evals[0] <= created + gap
    requires evals[|evals|-1] >= created + grace
    ensures m < |evals|
    ensures created + grace <= evals[m] < created + AtLeastOneTick(grace) + gap
    ensures forall i :: 0 <= i < |evals| ==> (evals[i] - created >= grace <==> m <= i)
  {
    m := 0;
    while evals[m] < created + grace
      invariant m < |evals|
      invariant forall i :: 0 <= i < m ==> evals[i] < created + grace
      decreases |evals| - m
    {
      m := m + 1;
    }
    if m > 0 {
      assert evals[m] - evals[m-1] <= gap;
    }
  }

  /** Evaluations from the pod's creation on, at most gap apart, up to the end of the grace period. */
  ghost predicate EvaluatedFromCreation(pod: Pod, t: Thresholds, evals: seq<Time>, gap: int)
  {
    && evals != [] && Sorted(evals) && AtMostApart(evals, gap)
    && pod.created <= evals[0] <= pod.created + gap
    && evals[|evals|-1] >= pod.created + t.pendingGrace
  }

  /** A reconcile of a plainly pending pod fires its key exactly from the grace period on. */
  lemma {:induction false} FiresWhenDue(
      pod: Pod, t: Thresholds, window: int, count: int, eval: Time, start: Start, r: Round)
    requires PlainlyPending(pod) && RoundOf(start, r, PendingKey(pod))
    requires FoundBy(pod, t, window, count, eval, start.alerts)
    ensures r.fires != [] <==> eval - pod.created >= t.pendingGrace
  {
    var view, view' :| Finds(t, window, count, view, pod, eval, start.alerts, view');
    PendingFoundIff(t, window, count, view, pod, eval, start.alerts, view');
  }

  /** The key is delivered next, after what rounds[..from] delivered, by the m-th round from there on. */
  ghost predicate DeliveredNextBy(cfg: Config, rounds: seq<Round>, from: nat, m: nat, deliveries: seq<Time>)
  {
    && from + m < |rounds| && rounds[from + m].fires != []
    && Run(cfg, rounds[..from + m]).delivered == Run(cfg, rounds[..from]).delivered
    && Run(cfg, rounds[..from]).delivered + [rounds[from + m].fires[0]] <= deliveries
  }

  /** evals[m] is the first evaluation at which the pod has been pending for the grace period. */
  ghost predicate FirstDue(pod: Pod, t: Thresholds, evals: seq<Time>, gap: int, m: nat)
  {
    && m < |evals|
    && (forall i :: 0 <= i < |evals| ==> (evals[i] - pod.created >= t.pendingGrace <==> m <= i))
    && pod.created + t.pendingGrace <= evals[m] < pod.created + AtLeastOneTick(t.pendingGrace) + gap
  }

  /** From index `from` on, the pod's rounds fire its key exactly from the m-th on. */
  ghost predicate FiresFrom(rounds: seq<Round>, from: nat, m: nat)
  {
    from + m < |rounds| && forall i :: from <= i < |rounds| ==> (rounds[i].fires != [] <==> from + m <= i)
  }

  lemma {:induction false} RoundFiresWhenDue(
      start: Start, r: Round, pod: Pod, t: Thresholds, window: int, count: int, evals: seq<Time>, starts: seq<Start>, i: nat)
    requires i < |starts| && starts[i] == start && RoundOf(start, r, PendingKey(pod))
    requires PlainlyPending(pod) && ReconcilesReport(pod, t, window, count, evals, starts)
    ensures i < |evals| && (r.fires != [] <==> evals[i] - pod.created >= t.pendingGrace)
  {
    EachReports(pod, t, window, count, evals, starts, i);
    FiresWhenDue(pod, t, window, count, evals[i], start, r);
  }

  lemma {:induction false} RoundsFireWhenDue(
      starts: seq<Start>, rounds: seq<Round>, from: nat, pod: Pod, t: Thresholds, window: int, count: int, evals: seq<Time>,
      gap: int, m: nat)
    requires from <= |starts| == |rounds| && forall i :: 0 <= i < |rounds| ==> RoundOf(starts[i], rounds[i], PendingKey(pod))
    requires PlainlyPending(pod) && ReconcilesReport(pod, t, window, count, evals, starts[from..])
    requires FirstDue(pod, t, evals, gap, m)
    ensures FiresFrom(rounds, from, m)
  {
    var late := starts[from..];
    assert |evals| == |late|;
    forall i | from <= i < |rounds| ensures rounds[i].fires != [] <==> from + m <= i {
      RoundFiresWhenDue(starts[i], rounds[i], pod, t, window, count, evals, late, i - from);
    }
  }

  lemma {:induction false} NextDelivery(cfg: Config, rounds: seq<Round>, from: nat, m: nat)
    requires FiresFrom(rounds, from, m) && Run(cfg, rounds[..from]).seen.None?
    ensures DeliveredNextBy(cfg, rounds, from, m, Run(cfg, rounds).delivered)
  {
    FirstDelivery(cfg, rounds, from, from + m);
  }

  /** The completed ones among the reconciles of a key's object begun since it was last cleared. */
  function Completed(es: seq<Event>, k: string): (starts: seq<Start>)
  {
    Starts(es, Owner(k))[..Min(|Starts(es, Owner(k))|, |Hist(es, k).rounds|)]
  }

  lemma {:induction false} CompletedPairs(cfg: Config, es: seq<Event>, k: string)
    requires Valid(cfg, es)
    ensures |Completed(es, k)| == |Hist(es, k).rounds|
    ensures forall i :: 0 <= i < |Hist(es, k).rounds| ==> RoundOf(Completed(es, k)[i], Hist(es, k).rounds[i], k)
  {
    HistoryPairs(cfg, es, k);
  }

  /** What a reconcile in progress has delivered comes after what the completed ones have. */
  lemma {:induction false} RoundsDeliveredFirst(cfg: Config, es: seq<Event>, k: string)
    requires Valid(cfg, es)
    ensures Run(cfg, Hist(es, k).rounds).delivered <= Deliveries(cfg, es, k)
    ensures Owner(k) !in Exec(cfg, es).flights ==> Run(cfg, Hist(es, k).rounds).delivered == Deliveries(cfg, es, k)
  {
    var h := Hist(es, k);
    ReachableMirrors(cfg, es, k);
    if h.open.Some? {
      FireAllExtends(cfg.resend, Run(cfg, h.rounds), h.open.value.fires);
    }
  }

  /** An unchanged pod stuck in Pending, reconciled from its creation on at most gap apart, with no
      dedup record at first, is delivered next by the reconcile whose evaluation falls in
      [created + grace, created + grace + gap), and not before. What was reconciled under its name
      earlier (the first `from` reconciles) does not matter, and neither does how workers interleave. */
  lemma {:induction false} StuckPodDetected(
      cfg: Config, es: seq<Event>, from: nat, pod: Pod, t: Thresholds, window: int, count: int, evals: seq<Time>, gap: int)
    returns (m: nat)
    requires Valid(cfg, es)
    requires from <= |Completed(es, PendingKey(pod))| && from <= |Hist(es, PendingKey(pod)).rounds|
    requires Run(cfg, Hist(es, PendingKey(pod)).rounds[..from]).seen.None?
    requires PlainlyPending(pod) && ReconcilesReport(pod, t, window, count, evals, Completed(es, PendingKey(pod))[from..])
    requires EvaluatedFromCreation(pod, t, evals, gap)
    ensures FirstDue(pod, t, evals, gap, m)
    ensures DeliveredNextBy(cfg, Hist(es, PendingKey(pod)).rounds, from, m, Deliveries(cfg, es, PendingKey(pod)))
  {
    var k := PendingKey(pod);
    CompletedPairs(cfg, es, k);
    RoundsDeliveredFirst(cfg, es, k);
    m := FirstPast(evals, pod.created, t.pendingGrace, gap);
    RoundsFireWhenDue(Completed(es, k), Hist(es, k).rounds, from, pod, t, window, count, evals, gap, m);
    NextDelivery(cfg, Hist(es, k).rounds, from, m);
  }

  // ------------------------------------------------- from a state without a record

  /** What happens later leaves the completed reconciles of an object alone, unless it is cleared. */
  lemma {:induction false} HistoryExtends(cfg: Config, es: seq<Event>, more: seq<Event>, k: string)
    requires Valid(cfg, es + more) && ClearUnlock(Owner(k)) !in more
    ensures Valid(cfg, es) && Hist(es, k).rounds <= Hist(es + more, k).rounds
  {
    if more == [] {
      assert es + more == es;
    } else {
      var init := more[..|more|-1];
      assert (es + more)[..|es + more|-1] == es + init;
      assert more[|more|-1] in more;
      HistoryExtends(cfg, es, init, k);
    }
  }

  lemma {:induction false} NoRecordAtStart(cfg: Config, es: seq<Event>, k: string)
    requires Valid(cfg, es) && Owner(k) !in Exec(cfg, es).flights && k !in Exec(cfg, es).dedup.lastSeen
    ensures Run(cfg, Hist(es, k).rounds).seen.None?
  {
    ReachableMirrors(cfg, es, k);
  }

  /** The same, from any state of a run in which the pod is not being reconciled and the deduper holds
      no record of it: until the reconcile that is due, nothing is added to what had been delivered. */
  lemma {:induction false} NewPodDetected(
      cfg: Config, es: seq<Event>, more: seq<Event>, pod: Pod, t: Thresholds, window: int, count: int, evals: seq<Time>, gap: int)
    returns (m: nat)
    requires Valid(cfg, es) && Valid(cfg, es + more) && WellFormed(PodQueueKey(pod))
    requires PodQueueKey(pod) !in Exec(cfg, es).flights && PendingKey(pod) !in Exec(cfg, es).dedup.lastSeen
    requires ClearUnlock(PodQueueKey(pod)) !in more
    requires PlainlyPending(pod) && EvaluatedFromCreation(pod, t, evals, gap)
    requires var from := |Hist(es, PendingKey(pod)).rounds|;
             && from <= |Completed(es + more, PendingKey(pod))|
             && ReconcilesReport(pod, t, window, count, evals, Completed(es + more, PendingKey(pod))[from..])
    ensures FirstDue(pod, t, evals, gap, m)
    ensures var rounds, from := Hist(es + more, PendingKey(pod)).rounds, |Hist(es, PendingKey(pod)).rounds|;
            && DeliveredNextBy(cfg, rounds, from, m, Deliveries(cfg, es + more, PendingKey(pod)))
            && Run(cfg, rounds[..from]).delivered == Deliveries(cfg, es, PendingKey(pod))
  {
    var k := PendingKey(pod);
    KeyRoundTrip(PodAlert(pod, PodStuckPending, Warning, ""));
    NoRecordAtStart(cfg, es, k);
    RoundsDeliveredFirst(cfg, es, k);
    HistoryExtends(cfg, es, more, k);
    var from := |Hist(es, k).rounds|;
    assert Hist(es + more, k).rounds[..from] == Hist(es, k).rounds;
    m := StuckPodDetected(cfg, es + more, from, pod, t, window, count, evals, gap);
  }
}
