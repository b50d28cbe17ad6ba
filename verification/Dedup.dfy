/** The deduper and the fan-out behind it (internal/alert/alert.go).

    `State` is the deduper's observable state: its records, its two counters and what it has handed
    to the sinks. `FireStep` and `ForgetStep` are its two locked sections; the class `Deduper`
    implements them over the heap, and every theorem is about arbitrary sequences of them. */
module Dedup {
  import opened Base
  import opened Identity
  import Rounds

  datatype Sent = Sent(alert: Alert, at: Time)

  /** The label pair of the fired counter. */
  datatype FiredLabel = FiredLabel(reason: Reason, severity: Severity)

  function LabelOf(a: Alert): FiredLabel
  {
    FiredLabel(a.reason, a.severity)
  }

  /** Counters are multisets of labels: one occurrence per increment. */
  datatype State = State(
    lastSeen: map<string, Time>,
    fired: multiset<FiredLabel>,
    suppressed: multiset<Reason>,
    sent: seq<Sent>)

  const EMPTY := State(map[], multiset{}, multiset{}, [])

  predicate Passes(resend: int, st: State, key: string, now: Time)
  {
    !Rounds.Suppressed(resend, Lookup(st.lastSeen, key), now)
  }

  function FireStep(resend: int, st: State, a: Alert, now: Time): (st': State)
  {
    if Passes(resend, st, Key(a), now) then
      State(st.lastSeen[Key(a) := now], st.fired + multiset{LabelOf(a)}, st.suppressed,
            st.sent + [Sent(a, now)])
    else
      st.(suppressed := st.suppressed + multiset{a.reason})
  }

  function ForgetStep(st: State, key: string): (st': State)
  {
    st.(lastSeen := st.lastSeen - {key})
  }

  /** One locked section, in the order in which the lock was granted. The instants are whatever the
      callers read before asking for the lock: no order is assumed between them. */
  datatype Op = FireOp(alert: Alert, now: Time) | ForgetOp(key: string)

  function Replay(resend: int, ops: seq<Op>): (st: State)
  {
    if ops == [] then EMPTY
    else
      var st := Replay(resend, ops[..|ops|-1]);
      match ops[|ops|-1]
      case FireOp(a, now) => FireStep(resend, st, a, now)
      case ForgetOp(key) => ForgetStep(st, key)
  }

  // ------------------------------------------------- agreement with the whole log

  /** "No alert with this key was let through less than resend ago", read off the whole log. */
  predicate ScanPasses(resend: int, passed: seq<Time>, now: Time)
  {
    forall t :: t in passed ==> now - t >= resend
  }

  /** Instants of the firings of key let through since it was last forgotten, where each firing was
      judged by scanning the log before it. */
  function PassedSince(resend: int, ops: seq<Op>, key: string): (passed: seq<Time>)
  {
    if ops == [] then []
    else
      var passed := PassedSince(resend, ops[..|ops|-1], key);
      match ops[|ops|-1]
      case FireOp(a, now) => if Key(a) == key && ScanPasses(resend, passed, now) then passed + [now] else passed
      case ForgetOp(k) => if k == key then [] else passed
  }

  ghost predicate Agrees(resend: int, ops: seq<Op>, key: string, now: Time)
  {
    Passes(resend, Replay(resend, ops), key, now) <==> ScanPasses(resend, PassedSince(resend, ops, key), now)
  }

  /** The record a list of let-through instants leaves behind. */
  function LatestOf(passed: seq<Time>): Option<Time>
  {
    if passed == [] then None else Some(passed[|passed|-1])
  }

  lemma {:induction false} LatestDecides(resend: int, passed: seq<Time>, now: Time)
    requires Rounds.Sorted(passed)
    ensures ScanPasses(resend, passed, now) <==> !Rounds.Suppressed(resend, LatestOf(passed), now)
  {
    if passed != [] {
      assert passed[|passed|-1] in passed;
    }
  }

  lemma {:induction false} PassSorted(resend: int, passed: seq<Time>, now: Time)
    requires resend >= 0 && Rounds.Sorted(passed) && ScanPasses(resend, passed, now)
    ensures Rounds.Sorted(passed + [now])
  {
    if passed != [] {
      assert passed[|passed|-1] in passed;
    }
    Rounds.SortedConcat(passed, [now], now);
  }

  lemma {:induction false} RecordIsLatestPass(resend: int, ops: seq<Op>, key: string)
    requires resend >= 0
    ensures Rounds.Sorted(PassedSince(resend, ops, key))
    ensures Lookup(Replay(resend, ops).lastSeen, key) == LatestOf(PassedSince(resend, ops, key))
  {
    if ops != [] {
      var init := ops[..|ops|-1];
      RecordIsLatestPass(resend, init, key);
      var passed := PassedSince(resend, init, key);
      match ops[|ops|-1]
      case FireOp(a, now) =>
        LatestDecides(resend, passed, now);
        if Key(a) == key && ScanPasses(resend, passed, now) {
          PassSorted(resend, passed, now);
        }
      case ForgetOp(_) =>
    }
  }

  lemma {:induction false} SingleTimestampSuffices(resend: int, ops: seq<Op>, key: string, now: Time)
    requires resend >= 0
    ensures Agrees(resend, ops, key, now)
  {
    RecordIsLatestPass(resend, ops, key);
    LatestDecides(resend, PassedSince(resend, ops, key), now);
  }

  /** Three firings whose instants step back by a negative resend interval: the stored instant lets
      the third one through, the log does not. */
  lemma {:induction false} NegativeResendDisagrees(resend: int, a: Alert)
    requires resend < 0
    ensures !Agrees(resend, [FireOp(a, 0), FireOp(a, resend)], Key(a), 2 * resend)
  {
    var one := [FireOp(a, 0)];
    var two := [FireOp(a, 0), FireOp(a, resend)];
    assert one[..0] == [] && two[..1] == one;
    assert PassedSince(resend, [], Key(a)) == [];
    assert PassedSince(resend, one, Key(a)) == [0];
    assert PassedSince(resend, two, Key(a)) == [0, resend];
    assert 0 in PassedSince(resend, two, Key(a));
    assert Replay(resend, []) == EMPTY;
    assert Replay(resend, one).lastSeen == map[Key(a) := 0];
    assert Replay(resend, two).lastSeen[Key(a)] == resend;
  }

  /** Keeping one instant per key is as good as keeping the whole log, for every interleaving of
      locked sections and every choice of clock readings, exactly when resend is not negative. */
  lemma {:induction false} DeduperRefinesLogScan(resend: int)
    ensures (forall ops: seq<Op>, key: string, now: Time :: Agrees(resend, ops, key, now)) <==> resend >= 0
  {
    if resend >= 0 {
      forall ops: seq<Op>, key: string, now: Time ensures Agrees(resend, ops, key, now) {
        SingleTimestampSuffices(resend, ops, key, now);
      }
    } else {
      var a := Alert(OOMKilled, Critical, "Pod", "ns", "name", "", "c");
      NegativeResendDisagrees(resend, a);
    }
  }

  // ------------------------------------------------------------- conservation

  /** Number of Fire calls for a reason. */
  function FireCalls(ops: seq<Op>, r: Reason): (n: nat)
  {
    if ops == [] then 0
    else
      FireCalls(ops[..|ops|-1], r) +
      (if ops[|ops|-1].FireOp? && ops[|ops|-1].alert.reason == r then 1 else 0)
  }

  function FiredFor(st: State, r: Reason): (n: nat)
  {
    st.fired[FiredLabel(r, Warning)] + st.fired[FiredLabel(r, Critical)]
  }

  function Labels(sent: seq<Sent>): (labels: seq<FiredLabel>)
  {
    seq(|sent|, i requires 0 <= i < |sent| => LabelOf(sent[i].alert))
  }

  function ReasonsOf(sent: seq<Sent>): (reasons: seq<Reason>)
  {
    seq(|sent|, i requires 0 <= i < |sent| => sent[i].alert.reason)
  }

  function AlertsOf(sent: seq<Sent>): (alerts: seq<Alert>)
  {
    seq(|sent|, i requires 0 <= i < |sent| => sent[i].alert)
  }

  lemma {:induction false} CountOne<T>(m: multiset<T>, x: T, y: T)
    ensures (m + multiset{x})[y] == m[y] + (if x == y then 1 else 0)
  {
  }

  lemma {:induction false} FireConserves(resend: int, st: State, a: Alert, now: Time, r: Reason)
    requires st.fired == multiset(Labels(st.sent))
    ensures var st' := FireStep(resend, st, a, now);
            && FiredFor(st', r) + st'.suppressed[r] ==
               FiredFor(st, r) + st.suppressed[r] + (if a.reason == r then 1 else 0)
            && st'.fired == multiset(Labels(st'.sent))
  {
    SentSnoc(st.sent, Sent(a, now));
    CountOne(st.fired, LabelOf(a), FiredLabel(r, Warning));
    CountOne(st.fired, LabelOf(a), FiredLabel(r, Critical));
    CountOne(st.suppressed, a.reason, r);
    assert a.severity.Warning? || a.severity.Critical?;
  }

  /** Every Fire call is counted once, as fired or as suppressed, and the fired counter is the
      multiset of what was handed downstream. */
  lemma {:induction false} Conservation(resend: int, ops: seq<Op>, r: Reason)
    ensures var st := Replay(resend, ops);
            && FiredFor(st, r) + st.suppressed[r] == FireCalls(ops, r)
            && st.fired == multiset(Labels(st.sent))
  {
    if ops != [] {
      Conservation(resend, ops[..|ops|-1], r);
      match ops[|ops|-1]
      case FireOp(a, now) => FireConserves(resend, Replay(resend, ops[..|ops|-1]), a, now, r);
      case ForgetOp(_) =>
    }
  }

  lemma {:induction false} SentSnoc(sent: seq<Sent>, x: Sent)
    ensures Labels(sent + [x]) == Labels(sent) + [LabelOf(x.alert)]
    ensures ReasonsOf(sent + [x]) == ReasonsOf(sent) + [x.alert.reason]
    ensures AlertsOf(sent + [x]) == AlertsOf(sent) + [x.alert]
    ensures multiset(Labels(sent + [x])) == multiset(Labels(sent)) + multiset{LabelOf(x.alert)}
    ensures multiset(ReasonsOf(sent + [x])) == multiset(ReasonsOf(sent)) + multiset{x.alert.reason}
  {
    assert Labels(sent + [x]) == Labels(sent) + [LabelOf(x.alert)];
    assert ReasonsOf(sent + [x]) == ReasonsOf(sent) + [x.alert.reason];
  }

  /** Per reason, what the fired counter shows is what an Event-emitting sink has counted. */
  lemma {:induction false} LabelsCountReasons(sent: seq<Sent>, r: Reason)
    ensures multiset(ReasonsOf(sent))[r] ==
            multiset(Labels(sent))[FiredLabel(r, Warning)] + multiset(Labels(sent))[FiredLabel(r, Critical)]
  {
    if sent != [] {
      var init, a := sent[..|sent|-1], sent[|sent|-1].alert;
      LabelsCountReasons(init, r);
      var tag := LabelOf(a);
      assert sent == init + [sent[|sent|-1]];
      SentSnoc(init, sent[|sent|-1]);
      CountOne(multiset(ReasonsOf(init)), a.reason, r);
      CountOne(multiset(Labels(init)), tag, FiredLabel(r, Warning));
      CountOne(multiset(Labels(init)), tag, FiredLabel(r, Critical));
      assert a.severity.Warning? || a.severity.Critical?;
    }
  }

  /** How many of the alerts handed downstream had this reason and this severity. */
  function SentWith(sent: seq<Sent>, r: Reason, v: Severity): (n: nat)
  {
    if sent == [] then 0
    else
      var a := sent[|sent|-1].alert;
      SentWith(sent[..|sent|-1], r, v) + (if a.reason == r && a.severity == v then 1 else 0)
  }

  lemma {:induction false} LabelsCountSent(sent: seq<Sent>, r: Reason, v: Severity)
    ensures multiset(Labels(sent))[FiredLabel(r, v)] == SentWith(sent, r, v)
  {
    if sent == [] {
      assert Labels(sent) == [];
    } else {
      var init, x := sent[..|sent|-1], sent[|sent|-1];
      LabelsCountSent(init, r, v);
      assert sent == init + [x];
      SentSnoc(init, x);
      CountOne(multiset(Labels(init)), LabelOf(x.alert), FiredLabel(r, v));
    }
  }

  /** After every sequence of operations, the fired counter shows for each pair of labels exactly the
      alerts with that reason and that severity handed downstream. */
  lemma {:induction false} FiredPerLabel(resend: int, ops: seq<Op>, r: Reason, v: Severity)
    ensures var st := Replay(resend, ops); st.fired[FiredLabel(r, v)] == SentWith(st.sent, r, v)
  {
    Conservation(resend, ops, r);
    LabelsCountSent(Replay(resend, ops).sent, r, v);
  }

  // ------------------------------------------------------------------ the code

  function Reasons(log: seq<Alert>): (reasons: seq<Reason>)
  {
    seq(|log|, i requires 0 <= i < |log| => log[i].reason)
  }

  /** A downstream sink: an append-only log, and for the Event sink a count of emitted Events. */
  class Sink {
    const emitsEvents: bool
    var log: seq<Alert>
    var emitted: multiset<Reason>

    /** One Event of its reason per alert received, if this is the Event sink. */
    ghost predicate Counted()
      reads this
    {
      emitted == if emitsEvents then multiset(Reasons(log)) else multiset{}
    }

    constructor (emitsEvents: bool)
      ensures this.emitsEvents == emitsEvents && log == [] && Counted()
    {
      this.emitsEvents := emitsEvents;
      log := [];
      emitted := multiset{};
    }

    method Fire(a: Alert)
      modifies this
      ensures log == old(log) + [a]
      ensures emitted == old(emitted) + (if emitsEvents then multiset{a.reason} else multiset{})
      ensures old(Counted()) ==> Counted()
    {
      log := log + [a];
      assert Reasons(log) == Reasons(old(log)) + [a.reason];
      if emitsEvents {
        emitted := emitted + multiset{a.reason};
      }
    }
  }

  /** How often a sink is listed. */
  function Copies(sinks: seq<Sink>, s: Sink): (n: nat)
  {
    if sinks == [] then 0 else Copies(sinks[..|sinks|-1], s) + (if sinks[|sinks|-1] == s then 1 else 0)
  }

  function Repeat(a: Alert, n: nat): (log: seq<Alert>)
  {
    seq(n, _ => a)
  }

  lemma {:induction false} CopiesSnoc(sinks: seq<Sink>, n: nat, s: Sink)
    requires n < |sinks|
    ensures Copies(sinks[..n+1], s) == Copies(sinks[..n], s) + (if sinks[n] == s then 1 else 0)
  {
    assert sinks[..n+1][..n] == sinks[..n];
  }

  lemma {:induction false} RepeatSnoc(log: seq<Alert>, a: Alert, n: nat)
    ensures log + Repeat(a, n + 1) == log + Repeat(a, n) + [a]
  {
  }

  /** MultiSink.Fire: every sink receives the alert exactly as often as it is listed. */
  method FanOut(sinks: seq<Sink>, a: Alert)
    requires forall s :: s in sinks ==> s.Counted()
    modifies sinks
    ensures forall s :: s in sinks ==> s.log == old(s.log) + Repeat(a, Copies(sinks, s)) && s.Counted()
  {
    for i := 0 to |sinks|
      invariant forall s :: s in sinks ==> s.log == old(s.log) + Repeat(a, Copies(sinks[..i], s)) && s.Counted()
    {
      forall s | s in sinks
        ensures old(s.log) + Repeat(a, Copies(sinks[..i+1], s)) ==
                old(s.log) + Repeat(a, Copies(sinks[..i], s)) + (if sinks[i] == s then [a] else [])
      {
        CopiesSnoc(sinks, i, s);
        RepeatSnoc(old(s.log), a, Copies(sinks[..i], s));
      }
      sinks[i].Fire(a);
    }
    assert sinks[..|sinks|] == sinks;
  }

  /** The log of a sink listed n times once these alerts have been let through. */
  function Spread(sent: seq<Sent>, n: nat): (log: seq<Alert>)
  {
    if sent == [] then [] else Spread(sent[..|sent|-1], n) + Repeat(sent[|sent|-1].alert, n)
  }

  lemma {:induction false} SpreadSnoc(sent: seq<Sent>, x: Sent, n: nat)
    ensures Spread(sent + [x], n) == Spread(sent, n) + Repeat(x.alert, n)
  {
    assert (sent + [x])[..|sent + [x]|-1] == sent;
  }

  /** A sink listed once holds the alerts themselves. */
  lemma {:induction false} SpreadOnce(sent: seq<Sent>)
    ensures Spread(sent, 1) == AlertsOf(sent)
  {
    if sent != [] {
      var init, x := sent[..|sent|-1], sent[|sent|-1];
      SpreadOnce(init);
      SentSnoc(init, x);
      assert sent == init + [x];
    }
  }

  lemma {:induction false} RepeatCount(log: seq<Alert>, a: Alert, n: nat, r: Reason)
    ensures LogCount(log + Repeat(a, n), r) == LogCount(log, r) + (if a.reason == r then n else 0)
  {
    if n == 0 {
      assert log + Repeat(a, 0) == log;
    } else {
      RepeatCount(log, a, n - 1, r);
      RepeatSnoc(log, a, n - 1);
      var before := log + Repeat(a, n - 1);
      assert Reasons(before + [a]) == Reasons(before) + [a.reason];
    }
  }

  /** Occurrences of a reason in a log, and among what was let through. */
  function LogCount(log: seq<Alert>, r: Reason): (n: nat)
  {
    multiset(Reasons(log))[r]
  }

  function SentCount(sent: seq<Sent>, r: Reason): (n: nat)
  {
    multiset(ReasonsOf(sent))[r]
  }

  lemma {:induction false} SentCountSnoc(sent: seq<Sent>, x: Sent, r: Reason)
    ensures SentCount(sent + [x], r) == SentCount(sent, r) + (if x.alert.reason == r then 1 else 0)
  {
    SentSnoc(sent, x);
    CountOne(multiset(ReasonsOf(sent)), x.alert.reason, r);
  }

  lemma {:induction false} SpreadCountSnoc(sent: seq<Sent>, x: Sent, n: nat, r: Reason)
    ensures LogCount(Spread(sent + [x], n), r) == LogCount(Spread(sent, n), r) + (if x.alert.reason == r then n else 0)
  {
    SpreadSnoc(sent, x, n);
    RepeatCount(Spread(sent, n), x.alert, n, r);
  }

  lemma {:induction false} Scaled(n: nat, before: nat, hit: bool)
    ensures n * before + (if hit then n else 0) == n * (before + (if hit then 1 else 0))
  {
  }

  lemma {:induction false} SpreadCount(sent: seq<Sent>, n: nat, r: Reason)
    ensures LogCount(Spread(sent, n), r) == n * SentCount(sent, r)
  {
    if sent == [] {
      assert ReasonsOf(sent) == [] && Spread(sent, n) == [] && Reasons([]) == [];
    } else {
      var init, x := sent[..|sent|-1], sent[|sent|-1];
      assert sent == init + [x];
      SpreadCount(init, n, r);
      SpreadCountSnoc(init, x, n, r);
      SentCountSnoc(init, x, r);
      Scaled(n, SentCount(init, r), x.alert.reason == r);
    }
  }

  class Deduper {
    const resend: int
    const sinks: seq<Sink>
    var lastSeen: map<string, Time>
    var fired: multiset<FiredLabel>
    var suppressed: multiset<Reason>
    ghost var sent: seq<Sent>

    ghost function View(): State
      reads this
    {
      State(lastSeen, fired, suppressed, sent)
    }

    /** Every sink holds exactly what the deduper let through, in order, as often as it is listed. */
    ghost predicate Valid()
      reads this, sinks
    {
      && fired == multiset(Labels(sent))
      && (forall s :: s in sinks ==> s.log == Spread(sent, Copies(sinks, s)) && s.Counted())
    }

    constructor (sinks: seq<Sink>, resend: int)
      requires forall s :: s in sinks ==> s.log == [] && s.emitted == multiset{}
      ensures Valid() && View() == EMPTY && this.resend == resend && this.sinks == sinks
    {
      this.sinks := sinks;
      this.resend := resend;
      lastSeen, fired, suppressed, sent := map[], multiset{}, multiset{}, [];
    }

    method Fire(a: Alert, now: Time)
      requires Valid()
      modifies this, sinks
      ensures Valid() && View() == FireStep(resend, old(View()), a, now)
    {
      var key := Key(a);
      if key in lastSeen && now - lastSeen[key] < resend {
        suppressed := suppressed + multiset{a.reason};
        return;
      }
      Pass(a, now);
    }

    /** The branch of Fire that lets the alert through. */
    method Pass(a: Alert, now: Time)
      requires Valid()
      modifies this, sinks
      ensures Valid()
      ensures View() == State(old(lastSeen)[Key(a) := now], old(fired) + multiset{LabelOf(a)},
                              old(suppressed), old(sent) + [Sent(a, now)])
    {
      SentSnoc(sent, Sent(a, now));
      forall s | s in sinks
        ensures Spread(sent + [Sent(a, now)], Copies(sinks, s)) == Spread(sent, Copies(sinks, s)) + Repeat(a, Copies(sinks, s))
      {
        SpreadSnoc(sent, Sent(a, now), Copies(sinks, s));
      }
      Record(a, now);
      FanOut(sinks, a);
    }

    /** The part of it under the lock, and the counter. */
    method Record(a: Alert, now: Time)
      modifies this
      ensures View() == State(old(lastSeen)[Key(a) := now], old(fired) + multiset{LabelOf(a)},
                              old(suppressed), old(sent) + [Sent(a, now)])
    {
      lastSeen := lastSeen[Key(a) := now];
      fired := fired + multiset{LabelOf(a)};
      sent := sent + [Sent(a, now)];
    }

    method Forget(key: string)
      requires Valid()
      modifies this`lastSeen
      ensures Valid() && View() == ForgetStep(old(View()), key)
    {
      lastSeen := lastSeen - {key};
    }

    method ActiveKeys() returns (out: set<string>)
      ensures out == lastSeen.Keys
    {
      out := {};
      var rest := lastSeen.Keys;
      while rest != {}
        invariant rest <= lastSeen.Keys && out == lastSeen.Keys - rest
        decreases |rest|
      {
        var k :| k in rest;
        out := out + {k};
        rest := rest - {k};
      }
    }

    /** The fired counter, pair of labels by pair of labels. */
    lemma {:induction false} CountersMatchSent(r: Reason, v: Severity)
      requires Valid()
      ensures fired[FiredLabel(r, v)] == SentWith(sent, r, v)
    {
      LabelsCountSent(sent, r, v);
    }

    /** Kubernetes Events emitted per reason equal alerts fired per reason, times the places at which
        the Event sink is listed (one, as the command builds it). */
    lemma {:induction false} EventsMatchFired(s: Sink, r: Reason)
      requires Valid() && s in sinks && s.emitsEvents
      ensures s.emitted[r] == Copies(sinks, s) * FiredFor(View(), r)
    {
      SpreadCount(sent, Copies(sinks, s), r);
      LabelsCountReasons(sent, r);
    }
  }
}
