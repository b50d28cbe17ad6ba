/** A promise of the documentation, "an identical alert is delivered at most once per resend
    interval", and exactly when the code keeps it. */
module Promises {
  import opened Base
  import opened Identity
  import opened Rounds
  import opened Lifecycle
  import opened Delivery
  import opened Guarantees
  import Dedup

  /** In this run, deliveries of k were at least the resend interval apart. */
  ghost predicate KeepsPromise(cfg: Config, es: seq<Event>, k: string)
    requires Valid(cfg, es)
  {
    Gaps(SentTimes(Exec(cfg, es).dedup.sent, k), cfg.resend)
  }

  // ------------------------------------------------------------ building runs

  ghost predicate Quiescent(cfg: Config, run: seq<Event>)
  {
    Valid(cfg, run) && Exec(cfg, run).flights == map[] && Exec(cfg, run).holder.None?
  }

  /** One uninterrupted deliver of q, all of whose clock readings are the same. */
  function Next(cfg: Config, s: Sys, q: QueueKey, alerts: seq<Alert>, now: Time): (s': Sys)
  {
    Delivered(cfg, s, q, alerts, now, _ => now)
  }

  ghost predicate NoClearing(run: seq<Event>)
  {
    forall e :: e in run ==> !e.ClearUnlock?
  }

  lemma {:induction false} ExtendRun(cfg: Config, run: seq<Event>, q: QueueKey, alerts: seq<Alert>, now: Time)
    returns (run': seq<Event>)
    requires Quiescent(cfg, run) && WellFormed(q) && About(q, alerts)
    requires 0 < now && Clock(Exec(cfg, run), q) <= now
    ensures Quiescent(cfg, run') && Exec(cfg, run') == Next(cfg, Exec(cfg, run), q, alerts, now)
    ensures NoClearing(run) ==> NoClearing(run')
  {
    var order := Enumerate(Entry(Exec(cfg, run).active, ObjectKey(q)).Keys - Keys(alerts));
    DeliverIsARun(cfg, run, q, alerts, now, _ => now, order);
    OpeningEvents(q, alerts, now, |alerts|);
    AgesEvents(q, order);
    run' := run + DeliverEvents(q, alerts, now, _ => now, order);
  }

  lemma {:induction false} OpeningEvents(q: QueueKey, alerts: seq<Alert>, now: Time, n: nat)
    requires n <= |alerts|
    ensures NoClearing(Opening(q, alerts, now, n, _ => now))
  {
    if n > 0 {
      OpeningEvents(q, alerts, now, n - 1);
    }
  }

  lemma {:induction false} AgesEvents(q: QueueKey, order: seq<string>)
    ensures NoClearing(Ages(q, order))
  {
    if order != [] {
      AgesEvents(q, order[..|order|-1]);
    }
  }

  lemma {:induction false} ExtendByClearing(cfg: Config, run: seq<Event>, q: QueueKey) returns (run': seq<Event>)
    requires Quiescent(cfg, run) && WellFormed(q)
    ensures Quiescent(cfg, run') && Exec(cfg, run') == Cleared(Exec(cfg, run), q)
  {
    var order := Enumerate(Entry(Exec(cfg, run).active, ObjectKey(q)).Keys);
    ClearIsARun(cfg, run, q, order);
    run' := run + ClearEvents(q, order);
  }

  // -------------------------------------------------- one alert that comes and goes

  /** What the two maps hold, and what has been delivered. */
  predicate Holds(s: Sys, active: map<string, Marks>, lastSeen: map<string, Time>, sent: seq<Dedup.Sent>)
  {
    s.active == active && s.dedup.lastSeen == lastSeen && s.dedup.sent == sent
  }

  lemma {:induction false} Appears(cfg: Config, s: Sys, q: QueueKey, a: Alert, now: Time)
    requires Holds(s, map[], map[], s.dedup.sent)
    ensures var s' := Next(cfg, s, q, [a], now);
            && Holds(s', map[ObjectKey(q) := map[Key(a) := 0]], map[Key(a) := now], s.dedup.sent + [Dedup.Sent(a, now)])
            && Clock(s', q) == now
  {
    assert Keys([a]) == {Key(a)};
    assert FireSeq(cfg.resend, s.dedup, [a], 0, _ => now) == s.dedup;
    assert Aged(cfg.grace, map[], {Key(a)}, now) == map[Key(a) := 0];
    assert Expired(cfg.grace, map[], {Key(a)}, now) == {};
  }

  lemma {:induction false} Disappears(cfg: Config, s: Sys, q: QueueKey, k: string, now: Time)
    requires s.active == map[ObjectKey(q) := map[k := 0]]
    ensures var s' := Next(cfg, s, q, [], now);
            Holds(s', map[ObjectKey(q) := map[k := now]], s.dedup.lastSeen, s.dedup.sent) && Clock(s', q) == now
  {
    assert Keys([]) == {};
    assert Aged(cfg.grace, map[k := 0], {}, now) == map[k := now];
    assert Expired(cfg.grace, map[k := 0], {}, now) == {};
    assert s.dedup.lastSeen - {} == s.dedup.lastSeen;
    assert k in map[k := now];
  }

  lemma {:induction false} Expires(cfg: Config, s: Sys, q: QueueKey, k: string, since: Time, now: Time, at: Time)
    requires Holds(s, map[ObjectKey(q) := map[k := since]], map[k := at], s.dedup.sent)
    requires since != 0 && now - since >= cfg.grace
    ensures var s' := Next(cfg, s, q, [], now);
            Holds(s', map[], map[], s.dedup.sent) && Clock(s', q) == now
  {
    assert Keys([]) == {};
    assert Aged(cfg.grace, map[k := since], {}, now) == map[];
    assert Expired(cfg.grace, map[k := since], {}, now) == {k};
  }

  lemma {:induction false} TwoSent(a: Alert, t: Time, u: Time)
    ensures SentTimes([Dedup.Sent(a, t), Dedup.Sent(a, u)], Key(a)) == [t, u]
  {
    var first, second := Dedup.Sent(a, t), Dedup.Sent(a, u);
    assert [] + [first] == [first] && [first] + [second] == [first, second];
    assert SentTimes([], Key(a)) == [];
    SentTimesSnoc([], first, Key(a));
    SentTimesSnoc([first], second, Key(a));
  }

  /** An alert is delivered, disappears, and stays away for the grace period: its record is dropped. */
  lemma {:induction false} AwayForTheGracePeriod(cfg: Config, q: QueueKey, a: Alert) returns (run: seq<Event>)
    requires cfg.grace > 0 && WellFormed(q) && Subject(a) == q
    ensures Quiescent(cfg, run) && NoClearing(run) && Clock(Exec(cfg, run), q) == 1 + cfg.grace
    ensures Holds(Exec(cfg, run), map[], map[], [Dedup.Sent(a, 1)])
  {
    run := [];
    Appears(cfg, Exec(cfg, run), q, a, 1);
    run := ExtendRun(cfg, run, q, [a], 1);
    Disappears(cfg, Exec(cfg, run), q, Key(a), 1);
    run := ExtendRun(cfg, run, q, [], 1);
    Expires(cfg, Exec(cfg, run), q, Key(a), 1, 1 + cfg.grace, 1);
    run := ExtendRun(cfg, run, q, [], 1 + cfg.grace);
  }

  /** A run without clearing in which a key is delivered twice exactly the grace period apart: the
      alert disappears, stays away for the grace period, and comes back. */
  lemma {:induction false} FlapDefeatsResend(cfg: Config, q: QueueKey, a: Alert) returns (run: seq<Event>)
    requires cfg.grace > 0 && WellFormed(q) && Subject(a) == q
    ensures Valid(cfg, run) && NoClearing(run)
    ensures SentTimes(Exec(cfg, run).dedup.sent, Key(a)) == [1, 1 + cfg.grace]
  {
    var late := 1 + cfg.grace;
    run := AwayForTheGracePeriod(cfg, q, a);
    Appears(cfg, Exec(cfg, run), q, a, late);
    run := ExtendRun(cfg, run, q, [a], late);
    TwoSent(a, 1, late);
  }

  /** A run in which a key is delivered twice at the same instant: the object is cleared as deleted and
      comes back under its old name. */
  lemma {:induction false} ReturnDefeatsResend(cfg: Config, q: QueueKey, a: Alert) returns (run: seq<Event>)
    requires WellFormed(q) && Subject(a) == q
    ensures Valid(cfg, run) && SentTimes(Exec(cfg, run).dedup.sent, Key(a)) == [1, 1]
  {
    run := [];
    Appears(cfg, Exec(cfg, run), q, a, 1);
    run := ExtendRun(cfg, run, q, [a], 1);
    var s := Exec(cfg, run);
    run := ExtendByClearing(cfg, run, q);
    assert Entry(s.active, ObjectKey(q)).Keys == {Key(a)};
    assert Holds(Exec(cfg, run), map[], map[], s.dedup.sent);
    Appears(cfg, Exec(cfg, run), q, a, 1);
    run := ExtendRun(cfg, run, q, [a], 1);
    TwoSent(a, 1, 1);
  }

  // ------------------------------------------------------ when the promise is kept

  const OBJECT := QueueKey("Pod", "ns", "name")
  const ALERT := Alert(OOMKilled, Critical, "Pod", "ns", "name", "", "c")

  /** Over every run in which the key's object is not cleared as deleted, the promise is kept if and
      only if the resend interval does not exceed the grace period (ten minutes against two by
      default). */
  lemma {:induction false} ResendPromiseIff(cfg: Config)
    requires cfg.grace > 0
    ensures (forall es, k :: Valid(cfg, es) && ClearUnlock(Owner(k)) !in es ==> KeepsPromise(cfg, es, k)) <==>
            cfg.resend <= cfg.grace
  {
    if cfg.resend <= cfg.grace {
      forall es, k | Valid(cfg, es) && ClearUnlock(Owner(k)) !in es ensures KeepsPromise(cfg, es, k) {
        DeliveriesAreSpaced(cfg, es, k);
        DeliveriesAreHandedOver(cfg, es, k);
      }
    } else {
      var run := FlapDefeatsResend(cfg, OBJECT, ALERT);
      assert ClearUnlock(Owner(Key(ALERT))) !in run;
      assert [1, 1 + cfg.grace][1] - [1, 1 + cfg.grace][0] < cfg.resend;
      assert !KeepsPromise(cfg, run, Key(ALERT));
    }
  }

  /** Over every run whatsoever, it is kept only if it promises nothing. */
  lemma {:induction false} ResendPromiseWithClearingIff(cfg: Config)
    ensures (forall es, k :: Valid(cfg, es) ==> KeepsPromise(cfg, es, k)) <==> cfg.resend <= 0
  {
    if cfg.resend <= 0 {
      forall es, k | Valid(cfg, es) ensures KeepsPromise(cfg, es, k) {
        SentInOrder(cfg, es, k);
      }
    } else {
      var run := ReturnDefeatsResend(cfg, OBJECT, ALERT);
      assert [1, 1][1] - [1, 1][0] < cfg.resend;
      assert !KeepsPromise(cfg, run, Key(ALERT));
    }
  }
}
