/** What the alert lifecycle guarantees in every run of any number of interleaved workers. */
module Guarantees {
  import opened Base
  import opened Identity
  import opened Rounds
  import opened Lifecycle
  import opened Simulation
  import Dedup

  // ------------------------------------------------------------ time stamps

  ghost predicate Timed(h: History, clock: Time)
  {
    && WellTimed(h.rounds) && EndOfRun(h.rounds) <= clock
    && (h.open.Some? ==>
          && WellTimedRound(h.open.value)
          && EndOfRun(h.rounds) <= h.open.value.at
          && End(h.open.value) <= clock)
  }

  lemma {:induction false} RoundSnocTimed(r: Round, t: Time)
    requires WellTimedRound(r) && End(r) <= t
    ensures WellTimedRound(Round(r.at, r.fires + [t]))
  {
    SortedConcat(r.fires, [t], t);
  }

  /** An event of k's own object keeps its history in time order. */
  lemma {:induction false} TimedStep(h: History, e: Event, k: string, clock: Time)
    requires Timed(h, clock) && e.q == Owner(k)
    requires e.Begin? || e.Fire? ==> clock <= e.at
    requires e.Begin? ==> 0 < e.at
    ensures Timed(HistStep(h, e, k), if e.Begin? || e.Fire? then e.at else clock)
  {
    if h.open.Some? {
      if e.Fire? {
        RoundSnocTimed(h.open.value, e.at);
      } else if e.Unlock? {
        var rounds := h.rounds + [h.open.value];
        assert rounds[..|rounds|-1] == h.rounds;
      }
    }
  }

  lemma {:induction false} ClockStep(cfg: Config, s: Sys, e: Event, q: QueueKey)
    requires Enabled(s, e)
    ensures Clock(Step(cfg, s, e), q) == if e.q == q && (e.Begin? || e.Fire?) then e.at else Clock(s, q)
  {
  }

  lemma {:induction false} StartsAtZero(k: string)
    ensures Timed(Hist([], k), 0)
  {
  }

  lemma {:induction false} HistTimed(cfg: Config, es: seq<Event>, k: string)
    requires Valid(cfg, es)
    ensures Timed(Hist(es, k), Clock(Exec(cfg, es), Owner(k)))
  {
    if es == [] {
      StartsAtZero(k);
    } else {
      var init, e := es[..|es|-1], es[|es|-1];
      HistTimed(cfg, init, k);
      var s := Exec(cfg, init);
      ClockStep(cfg, s, e, Owner(k));
      if e.q == Owner(k) {
        TimedStep(Hist(init, k), e, k, Clock(s, e.q));
      }
    }
  }

  // ------------------------------------- records and tracked keys stay consistent

  /** Keys with a mark in the active map. */
  function ActiveKeys(s: Sys): (ks: set<string>)
  {
    set o, k | o in s.active && k in s.active[o] :: k
  }

  /** Keys already fired by workers that have not yet reached their locked update. */
  function KeysInFlight(s: Sys): (ks: set<string>)
  {
    set q, k | q in s.flights && k in FiredSoFar(s.flights[q]) :: k
  }

  function FiredSoFar(f: Flight): (ks: set<string>)
  {
    if f.Deliver? && f.phase.Firing? && f.phase.next <= |f.alerts| then Keys(f.alerts[..f.phase.next]) else {}
  }

  lemma {:induction false} MatchedRecord(
      cfg: Config, f: Option<Flight>, open: Option<Round>, view: KeyState, done: KeyState, k: string)
    requires Matches(cfg, f, open, view, done, k)
    requires done.seen.Some? <==> done.tracked.Some?
    ensures view.seen.Some? <==> view.tracked.Some? || (f.Some? && k in FiredSoFar(f.value))
  {
    if open.Some? {
      FireAllKeepsTracked(cfg.resend, done, open.value.fires);
    }
  }

  lemma {:induction false} RecordIffTrackedOrFired(cfg: Config, es: seq<Event>, k: string)
    requires Valid(cfg, es)
    ensures var s := Exec(cfg, es);
            k in s.dedup.lastSeen <==>
              Mark(s, k).Some? || (Owner(k) in s.flights && k in FiredSoFar(s.flights[Owner(k)]))
  {
    ReachableMirrors(cfg, es, k);
    var s, h := Exec(cfg, es), Hist(es, k);
    RecordIffTracked(cfg, h.rounds);
    MatchedRecord(cfg, Lookup(s.flights, Owner(k)), h.open, View(s, k, Deliveries(cfg, es, k)), Run(cfg, h.rounds), k);
  }

  /** In every interleaving the deduper's records are exactly the keys the controller tracks plus
      those fired by workers still on their way to the lock; with no worker busy they coincide. */
  lemma {:induction false} RecordsAreTrackedKeys(cfg: Config, es: seq<Event>)
    requires Valid(cfg, es)
    ensures var s := Exec(cfg, es);
            && s.dedup.lastSeen.Keys == ActiveKeys(s) + KeysInFlight(s)
            && (s.flights == map[] ==> s.dedup.lastSeen.Keys == ActiveKeys(s))
  {
    var s := Exec(cfg, es);
    ReachableInv(cfg, es);
    forall k ensures k in s.dedup.lastSeen.Keys <==> k in ActiveKeys(s) + KeysInFlight(s) {
      RecordIffTrackedOrFired(cfg, es, k);
      if k in ActiveKeys(s) {
        var o :| o in s.active && k in s.active[o];
        assert o == ObjectKey(Owner(k));
      }
      if k in KeysInFlight(s) {
        var q :| q in s.flights && k in FiredSoFar(s.flights[q]);
        assert FlightOk(s, q);
        KeysOwned(q, s.flights[q].alerts, k);
      }
    }
    assert s.dedup.lastSeen.Keys == ActiveKeys(s) + KeysInFlight(s);
  }

  // ------------------------------------------------------- spacing of deliveries

  lemma {:induction false} MatchedSpacing(
      cfg: Config, f: Option<Flight>, h: History, view: KeyState, k: string, clock: Time)
    requires Matches(cfg, f, h.open, view, Run(cfg, h.rounds), k)
    requires Timed(h, clock)
    ensures Gaps(view.delivered, Min(cfg.resend, cfg.grace))
  {
    RunSpaced(cfg, h.rounds);
    if h.open.Some? {
      var r := h.open.value;
      FireAllSpaced(cfg, Run(cfg, h.rounds), r.at, r.fires);
    }
  }

  /** While an object is not cleared as deleted, deliveries of one of its keys are at least
      min(resend, grace) apart, however the alert flaps and however workers interleave. (Every
      prefix of a run is a run, so this covers each stretch between two clearings.) */
  lemma {:induction false} DeliveriesAreSpaced(cfg: Config, es: seq<Event>, k: string)
    requires Valid(cfg, es)
    ensures Gaps(Deliveries(cfg, es, k), Min(cfg.resend, cfg.grace))
  {
    ReachableMirrors(cfg, es, k);
    HistTimed(cfg, es, k);
    var s, d := Exec(cfg, es), Deliveries(cfg, es, k);
    MatchedSpacing(cfg, Lookup(s.flights, Owner(k)), Hist(es, k), View(s, k, d), k, Clock(s, Owner(k)));
  }

  // ----------------------------------------------------- when records are dropped

  lemma {:induction false} AgeDropsExactly(cfg: Config, es: seq<Event>, k: string)
    requires cfg.grace > 0
    requires Valid(cfg, es) && Enabled(Exec(cfg, es), Age(Owner(k), k))
    requires k in Exec(cfg, es).dedup.lastSeen
    ensures Hist(es, k).open.Some?
    ensures k !in Step(cfg, Exec(cfg, es), Age(Owner(k), k)).dedup.lastSeen <==>
            ClosesAbsence(cfg.grace, Hist(es, k).rounds, Hist(es, k).open.value)
  {
    var s, h, d := Exec(cfg, es), Hist(es, k), Deliveries(cfg, es, k);
    ReachableInv(cfg, es);
    ReachableMirrors(cfg, es, k);
    AgeStepView(cfg, s, Age(Owner(k), k), k, d);
    HistTimed(cfg, es, k);
    var rounds := h.rounds + [h.open.value];
    assert rounds[..|rounds|-1] == h.rounds;
    RunSnoc(cfg, h.rounds, h.open.value);
    ForgottenExactlyAfterAbsence(cfg, h.rounds, h.open.value);
  }

  lemma {:induction false} OwnRecordStays(cfg: Config, s: Sys, e: Event, k: string)
    requires Enabled(s, e) && k in s.dedup.lastSeen && e != Age(Owner(k), k) && e.q == Owner(k)
    ensures k !in Step(cfg, s, e).dedup.lastSeen <==> e == ClearKey(Owner(k), k)
  {
  }

  /** The last step of a run drops the record of k exactly when it clears k's deleted object, or
      when it ages k at the end of an absence that has lasted the grace period. */
  lemma {:induction false} RecordDroppedExactly(cfg: Config, es: seq<Event>, e: Event, k: string)
    requires cfg.grace > 0
    requires Valid(cfg, es) && Enabled(Exec(cfg, es), e)
    requires k in Exec(cfg, es).dedup.lastSeen
    ensures k !in Step(cfg, Exec(cfg, es), e).dedup.lastSeen <==>
            || e == ClearKey(Owner(k), k)
            || (e == Age(Owner(k), k) && Hist(es, k).open.Some?
                && ClosesAbsence(cfg.grace, Hist(es, k).rounds, Hist(es, k).open.value))
  {
    ReachableInv(cfg, es);
    if e.q != Owner(k) {
      OtherObjectRecord(cfg, Exec(cfg, es), e, k, []);
    } else if e == Age(Owner(k), k) {
      AgeDropsExactly(cfg, es, k);
    } else {
      OwnRecordStays(cfg, Exec(cfg, es), e, k);
    }
  }

  /** Bounded clearing, in every run: once the alert has been absent from every reconcile after p, the
      first of which came at most gap after the one before and the last at most gap ago, there is no
      record by p + grace + 2 * gap, and the next firing of the key goes through at once. */
  lemma {:induction false} RecordGoneAfterAbsence(
      cfg: Config, es: seq<Event>, k: string, p: Time, gap: int, now: Time, next: Time)
    requires cfg.grace > 0
    requires Valid(cfg, es) && Owner(k) !in Exec(cfg, es).flights
    requires Hist(es, k).rounds != []
    requires forall r :: r in Hist(es, k).rounds && r.at > p ==> r.fires == []
    requires CrossedWithin(Entries(Hist(es, k).rounds), p, gap)
    requires 0 <= now - Hist(es, k).rounds[|Hist(es, k).rounds|-1].at <= gap
    requires now >= p + cfg.grace + 2 * gap
    ensures k !in Exec(cfg, es).dedup.lastSeen
    ensures Dedup.Passes(cfg.resend, Exec(cfg, es).dedup, k, next)
  {
    ReachableMirrors(cfg, es, k);
    HistTimed(cfg, es, k);
    BoundedClearing(cfg, Hist(es, k).rounds, p, gap, now, next);
  }

  /** Bounded redelivery, in every run: while each reconcile reports the alert and asks the deduper
      at most gap apart, the record persists and deliveries keep coming less than resend + gap apart. */
  lemma {:induction false} RedeliveredWhilePresent(
      cfg: Config, es: seq<Event>, k: string, before: seq<Round>, rounds: seq<Round>, gap: int)
    requires Valid(cfg, es) && Owner(k) !in Exec(cfg, es).flights
    requires Hist(es, k).rounds == before + rounds
    requires rounds != [] && forall r :: r in rounds ==> r.fires != []
    requires AtMostApart(Fires(rounds), gap)
    ensures UpToDate(cfg.resend, gap, View(Exec(cfg, es), k, Deliveries(cfg, es, k)),
                     |Run(cfg, before).delivered|, EndOfRun(rounds))
  {
    ReachableMirrors(cfg, es, k);
    HistTimed(cfg, es, k);
    BoundedRedelivery(cfg, before, rounds, gap);
  }

  // ------------------------------------------------------------------ the gauge

  /** Alert keys reported by the latest completed reconcile of q since it was last cleared, and by
      the one in progress. Read off the events alone. */
  datatype Reported = Reported(latest: set<string>, open: set<string>)

  function ReportedBy(es: seq<Event>, q: QueueKey): (r: Reported)
  {
    if es == [] then Reported({}, {})
    else
      var r, e := ReportedBy(es[..|es|-1], q), es[|es|-1];
      if e.q != q then r
      else
        match e
        case Begin(_, alerts, _) => r.(open := Keys(alerts))
        case Unlock(_) => r.(latest := r.open)
        case ClearUnlock(_) => Reported({}, {})
        case _ => r
  }

  lemma {:induction false} OpenReportIsFlight(cfg: Config, es: seq<Event>, q: QueueKey)
    requires Valid(cfg, es)
    ensures var s := Exec(cfg, es);
            q in s.flights && s.flights[q].Deliver? ==> Keys(s.flights[q].alerts) == ReportedBy(es, q).open
  {
    if es != [] {
      OpenReportIsFlight(cfg, es[..|es|-1], q);
    }
  }

  predicate LastRoundPresent(rounds: seq<Round>)
  {
    rounds != [] && rounds[|rounds|-1].fires != []
  }

  lemma {:induction false} LatestReportIsLastRound(cfg: Config, es: seq<Event>, k: string)
    requires Valid(cfg, es)
    ensures k in ReportedBy(es, Owner(k)).latest <==> LastRoundPresent(Hist(es, k).rounds)
  {
    if es != [] {
      var init, e := es[..|es|-1], es[|es|-1];
      LatestReportIsLastRound(cfg, init, k);
      if e.q == Owner(k) && e.Unlock? {
        ReachableMirrors(cfg, init, k);
        OpenReportIsFlight(cfg, init, e.q);
      }
    }
  }

  /** With the lock free, the keys of an object marked as firing are exactly the alert keys of its
      latest completed reconcile, and no entry is empty. */
  lemma {:induction false} FiringKeysAreLatestReport(cfg: Config, es: seq<Event>, q: QueueKey, k: string)
    requires cfg.grace > 0
    requires Valid(cfg, es) && Exec(cfg, es).holder.None? && WellFormed(q)
    ensures Lookup(Entry(Exec(cfg, es).active, ObjectKey(q)), k) == Some(0) <==>
            Owner(k) == q && k in ReportedBy(es, q).latest
    ensures forall o :: o in Exec(cfg, es).active ==> Exec(cfg, es).active[o] != map[]
  {
    var s, h := Exec(cfg, es), Hist(es, k);
    ReachableInv(cfg, es);
    if k in Entry(s.active, ObjectKey(q)) {
      EntryOwned(s, q, k);
    }
    if Owner(k) == q {
      LatestReportIsLastRound(cfg, es, k);
      ReachableMirrors(cfg, es, k);
      HistTimed(cfg, es, k);
      RunMatchesSpec(cfg, h.rounds);
      MarkIsLastSettled(cfg, s, h, Deliveries(cfg, es, k), k);
      var i := AbsentFrom(h.rounds);
      if i < |h.rounds| {
        WellTimedOrder(h.rounds, i, i);
      }
    }
  }

  /** Firing does not touch marks, so with the lock free a mark is that of the completed rounds. */
  lemma {:induction false} MarkIsLastSettled(cfg: Config, s: Sys, h: History, d: seq<Time>, k: string)
    requires Mirror(cfg, s, h, d, k) && Inv(s) && s.holder.None?
    ensures Mark(s, k) == Run(cfg, h.rounds).tracked
  {
    if Owner(k) in s.flights {
      assert FlightOk(s, Owner(k));
      FireAllKeepsTracked(cfg.resend, Run(cfg, h.rounds), h.open.value.fires);
    }
  }

  /** What refreshGauges counts. */
  ghost function UnhealthyEntries(active: map<string, map<string, Time>>): (os: set<string>)
  {
    set o | o in active && HasPrefix(o, "Pod|") && exists k :: k in active[o] && active[o][k] == 0
  }

  /** Pods whose latest completed reconcile reported an alert and that were not cleared since. */
  ghost function AlertingPods(es: seq<Event>): (qs: set<QueueKey>)
  {
    set e | e in es && WellFormed(e.q) && e.q.kind == "Pod" && ReportedBy(es, e.q).latest != {} :: e.q
  }

  ghost function ObjectKeys(qs: set<QueueKey>): (os: set<string>)
  {
    set q | q in qs :: ObjectKey(q)
  }

  lemma {:induction false} ObjectKeysSize(qs: set<QueueKey>)
    requires forall q :: q in qs ==> WellFormed(q)
    ensures |ObjectKeys(qs)| == |qs|
    decreases |qs|
  {
    if qs != {} {
      var q :| q in qs;
      var rest := qs - {q};
      ObjectKeysSize(rest);
      forall q' | q' in rest ensures ObjectKey(q') != ObjectKey(q) {
        ObjectKeyInjective(q, q');
      }
      assert ObjectKeys(qs) == ObjectKeys(rest) + {ObjectKey(q)};
    }
  }

  lemma {:induction false} ReportNamesObject(es: seq<Event>, q: QueueKey)
    requires ReportedBy(es, q).latest != {} || ReportedBy(es, q).open != {}
    ensures exists e :: e in es && e.q == q
  {
    var init, e := es[..|es|-1], es[|es|-1];
    if e.q == q {
      assert e in es;
    } else {
      ReportNamesObject(init, q);
      var e' :| e' in init && e'.q == q;
      assert e' in es;
    }
  }

  lemma {:induction false} UnhealthyIffAlerting(cfg: Config, es: seq<Event>, o: string)
    requires cfg.grace > 0
    requires Valid(cfg, es) && Exec(cfg, es).holder.None?
    ensures o in UnhealthyEntries(Exec(cfg, es).active) <==> o in ObjectKeys(AlertingPods(es))
  {
    var s := Exec(cfg, es);
    ReachableInv(cfg, es);
    if o in UnhealthyEntries(s.active) {
      var k :| k in s.active[o] && s.active[o][k] == 0;
      var q := Owner(k);
      assert WellFormed(q) && ObjectKey(q) == o;
      PodPrefix(q);
      FiringKeysAreLatestReport(cfg, es, q, k);
      ReportNamesObject(es, q);
      assert q in AlertingPods(es);
    }
    if o in ObjectKeys(AlertingPods(es)) {
      var q :| q in AlertingPods(es) && ObjectKey(q) == o;
      PodPrefix(q);
      var k :| k in ReportedBy(es, q).latest;
      ReportedKeyOwned(cfg, es, q, k);
      FiringKeysAreLatestReport(cfg, es, q, k);
    }
  }

  lemma {:induction false} ReportedKeyOwned(cfg: Config, es: seq<Event>, q: QueueKey, k: string)
    requires Valid(cfg, es) && WellFormed(q)
    requires k in ReportedBy(es, q).latest || k in ReportedBy(es, q).open
    ensures Owner(k) == q
  {
    var init, e := es[..|es|-1], es[|es|-1];
    if e.q == q && e.Begin? && k in Keys(e.alerts) {
      KeysOwned(q, e.alerts, k);
    } else {
      ReportedKeyOwned(cfg, init, q, k);
    }
  }

  /** The unhealthy gauge counts exactly the pods whose latest reconcile yielded an alert and that
      were not cleared since. */
  lemma {:induction false} GaugeCountsAlertingPods(cfg: Config, es: seq<Event>)
    requires cfg.grace > 0
    requires Valid(cfg, es) && Exec(cfg, es).holder.None?
    ensures |UnhealthyEntries(Exec(cfg, es).active)| == |AlertingPods(es)|
  {
    forall o ensures o in UnhealthyEntries(Exec(cfg, es).active) <==> o in ObjectKeys(AlertingPods(es)) {
      UnhealthyIffAlerting(cfg, es, o);
    }
    assert UnhealthyEntries(Exec(cfg, es).active) == ObjectKeys(AlertingPods(es));
    ObjectKeysSize(AlertingPods(es));
  }

  // ------------------------------------------ deliveries are what is handed over

  /** Instants at which key k was handed downstream, since the beginning. */
  function SentTimes(sent: seq<Dedup.Sent>, k: string): (times: seq<Time>)
  {
    if sent == [] then []
    else
      SentTimes(sent[..|sent|-1], k) + (if Key(sent[|sent|-1].alert) == k then [sent[|sent|-1].at] else [])
  }

  lemma {:induction false} SentTimesSnoc(sent: seq<Dedup.Sent>, x: Dedup.Sent, k: string)
    ensures SentTimes(sent + [x], k) == SentTimes(sent, k) + (if Key(x.alert) == k then [x.at] else [])
  {
    assert (sent + [x])[..|sent + [x]|-1] == sent;
  }

  ghost predicate IsSuffix(s: seq<Time>, whole: seq<Time>)
  {
    |s| <= |whole| && whole[|whole|-|s|..] == s
  }

  lemma {:induction false} SuffixSnoc(s: seq<Time>, whole: seq<Time>, t: Time)
    requires IsSuffix(s, whole)
    ensures IsSuffix(s + [t], whole + [t])
  {
  }

  /** d is the latest part of the instants at which k went downstream; all of them unless cleared. */
  ghost predicate LatestSent(d: seq<Time>, sent: seq<Dedup.Sent>, k: string, cleared: bool)
  {
    IsSuffix(d, SentTimes(sent, k)) && (!cleared ==> d == SentTimes(sent, k))
  }

  lemma {:induction false} FireSends(resend: int, st: Dedup.State, a: Alert, now: Time, k: string, d: seq<Time>, cleared: bool)
    requires LatestSent(d, st.sent, k, cleared)
    ensures LatestSent(if Key(a) == k && Dedup.Passes(resend, st, k, now) then d + [now] else d,
                       Dedup.FireStep(resend, st, a, now).sent, k, cleared)
  {
    if Dedup.Passes(resend, st, Key(a), now) {
      SentTimesSnoc(st.sent, Dedup.Sent(a, now), k);
      if Key(a) == k {
        SuffixSnoc(d, SentTimes(st.sent, k), now);
      } else {
        assert SentTimes(st.sent + [Dedup.Sent(a, now)], k) == SentTimes(st.sent, k);
      }
    }
  }

  lemma {:induction false} StepSends(cfg: Config, s: Sys, e: Event, k: string, d: seq<Time>, cleared: bool)
    requires Enabled(s, e) && LatestSent(d, s.dedup.sent, k, cleared)
    ensures LatestSent(DeliveredStep(cfg, s, e, k, d), Step(cfg, s, e).dedup.sent, k, cleared || e == ClearUnlock(Owner(k)))
  {
    OnlyFireCounts(cfg, s, e);
    if e.Fire? {
      FireSends(cfg.resend, s.dedup, e.alert, e.at, k, d, cleared);
    }
  }

  /** The deliveries of a key since its object was last cleared are the latest of the instants at
      which the deduper handed it to the sinks; all of them, if the object never was. */
  lemma {:induction false} DeliveriesAreHandedOver(cfg: Config, es: seq<Event>, k: string)
    requires Valid(cfg, es)
    ensures LatestSent(Deliveries(cfg, es, k), Exec(cfg, es).dedup.sent, k, ClearUnlock(Owner(k)) in es)
  {
    if es != [] {
      var init, e := es[..|es|-1], es[|es|-1];
      DeliveriesAreHandedOver(cfg, init, k);
      StepSends(cfg, Exec(cfg, init), e, k, Deliveries(cfg, init, k), ClearUnlock(Owner(k)) in init);
      assert es == init + [e];
    }
  }

  ghost predicate SortedUpTo(times: seq<Time>, clock: Time)
  {
    Sorted(times) && forall i :: 0 <= i < |times| ==> times[i] <= clock
  }

  lemma {:induction false} SortedSnoc(times: seq<Time>, clock: Time, t: Time)
    requires SortedUpTo(times, clock) && clock <= t
    ensures SortedUpTo(times + [t], t)
  {
    SortedConcat(times, [t], t);
  }

  lemma {:induction false} SentStep(cfg: Config, s: Sys, e: Event, k: string)
    requires Inv(s) && Enabled(s, e)
    ensures var times, times' := SentTimes(s.dedup.sent, k), SentTimes(Step(cfg, s, e).dedup.sent, k);
            times' == times || (times' == times + [Clock(Step(cfg, s, e), Owner(k))])
    ensures Clock(s, Owner(k)) <= Clock(Step(cfg, s, e), Owner(k))
  {
    OnlyFireCounts(cfg, s, e);
    ClockStep(cfg, s, e, Owner(k));
    if e.Fire? && Dedup.Passes(cfg.resend, s.dedup, Key(e.alert), e.at) {
      SentTimesSnoc(s.dedup.sent, Dedup.Sent(e.alert, e.at), k);
      if Key(e.alert) == k {
        EventKeyOwned(s, e, k);
      }
    }
  }

  /** The instants at which k was handed downstream are in order, clearings or not. */
  lemma {:induction false} SentInOrder(cfg: Config, es: seq<Event>, k: string)
    requires Valid(cfg, es)
    ensures SortedUpTo(SentTimes(Exec(cfg, es).dedup.sent, k), Clock(Exec(cfg, es), Owner(k)))
  {
    if es == [] {
      assert SentTimes([], k) == [];
    } else {
      var init := es[..|es|-1];
      SentInOrder(cfg, init, k);
      ReachableInv(cfg, init);
      var s, s' := Exec(cfg, init), Exec(cfg, es);
      SentStep(cfg, s, es[|es|-1], k);
      SortedSnoc(SentTimes(s.dedup.sent, k), Clock(s, Owner(k)), Clock(s', Owner(k)));
    }
  }

  // --------------------------------------------------------------- conservation

  function FireEvents(es: seq<Event>, r: Reason): (n: nat)
  {
    if es == [] then 0
    else FireEvents(es[..|es|-1], r) + (if es[|es|-1].Fire? && es[|es|-1].alert.reason == r then 1 else 0)
  }

  lemma {:induction false} OnlyFireCounts(cfg: Config, s: Sys, e: Event)
    requires Enabled(s, e)
    ensures var s' := Step(cfg, s, e);
            if e.Fire? then s'.dedup == Dedup.FireStep(cfg.resend, s.dedup, e.alert, e.at)
            else && s'.dedup.fired == s.dedup.fired
                 && s'.dedup.suppressed == s.dedup.suppressed
                 && s'.dedup.sent == s.dedup.sent
  {
  }

  ghost predicate Conserved(st: Dedup.State, r: Reason, calls: nat)
  {
    && Dedup.FiredFor(st, r) + st.suppressed[r] == calls
    && st.fired == multiset(Dedup.Labels(st.sent))
  }

  /** Over every run and per reason, fired plus suppressed equals the number of firings asked for,
      and the fired counter is the multiset of labels of what went downstream. */
  lemma {:induction false} RunConserves(cfg: Config, es: seq<Event>, r: Reason)
    requires Valid(cfg, es)
    ensures Conserved(Exec(cfg, es).dedup, r, FireEvents(es, r))
  {
    if es != [] {
      var init, e := es[..|es|-1], es[|es|-1];
      RunConserves(cfg, init, r);
      OnlyFireCounts(cfg, Exec(cfg, init), e);
      if e.Fire? {
        Dedup.FireConserves(cfg.resend, Exec(cfg, init).dedup, e.alert, e.at, r);
      }
    }
  }

  /** Over every run, the fired counter shows for each pair of labels exactly the alerts with that
      reason and that severity handed downstream. */
  lemma {:induction false} RunCountsLabels(cfg: Config, es: seq<Event>, r: Reason, v: Severity)
    requires Valid(cfg, es)
    ensures var st := Exec(cfg, es).dedup; st.fired[Dedup.FiredLabel(r, v)] == Dedup.SentWith(st.sent, r, v)
  {
    RunConserves(cfg, es, r);
    Dedup.LabelsCountSent(Exec(cfg, es).dedup.sent, r, v);
  }

  /** The i-th alert handed downstream is the one the event es[at[i]] fired, stamped with its reading. */
  ghost predicate FiredAt(es: seq<Event>, sent: seq<Dedup.Sent>, at: seq<nat>)
  {
    && |at| == |sent|
    && (forall i, j :: 0 <= i < j < |at| ==> at[i] < at[j])
    && (forall i :: 0 <= i < |at| ==>
          at[i] < |es| && es[at[i]].Fire? && es[at[i]].alert == sent[i].alert && es[at[i]].at == sent[i].at)
  }

  lemma {:induction false} FiredAtSnoc(es: seq<Event>, e: Event, sent: seq<Dedup.Sent>, at: seq<nat>)
    requires FiredAt(es, sent, at)
    ensures FiredAt(es + [e], sent, at)
    ensures e.Fire? ==> FiredAt(es + [e], sent + [Dedup.Sent(e.alert, e.at)], at + [|es|])
  {
  }

  /** Over every run, what went downstream is what was fired: unchanged, in the order of the firings, and
      no firing twice. */
  lemma {:induction false} SentComesFromFirings(cfg: Config, es: seq<Event>) returns (at: seq<nat>)
    requires Valid(cfg, es)
    ensures FiredAt(es, Exec(cfg, es).dedup.sent, at)
  {
    at := [];
    if es != [] {
      var init, e := es[..|es|-1], es[|es|-1];
      at := SentComesFromFirings(cfg, init);
      OnlyFireCounts(cfg, Exec(cfg, init), e);
      FiredAtSnoc(init, e, Exec(cfg, init).dedup.sent, at);
      assert es == init + [e];
      if Exec(cfg, es).dedup.sent != Exec(cfg, init).dedup.sent {
        at := at + [|init|];
      }
    }
  }
}
