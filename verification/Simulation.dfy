/** Interleaving does not matter: in every run of the concurrent protocol, what the deduper and the
    active map hold for a key, and when it was delivered, is what the sequential fold `Rounds.Run`
    computes from the reconciles of the key's own object. */
module Simulation {
  import opened Base
  import opened Identity
  import opened Rounds
  import opened Lifecycle
  import Dedup

  /** The reconciles of one key's object since it was last cleared: the completed ones and the one
      in progress, each with the firings of that key. Read off the events alone. */
  datatype History = History(rounds: seq<Round>, open: Option<Round>)

  function HistStep(h: History, e: Event, k: string): (h': History)
  {
    if e.q != Owner(k) then h
    else
      match e
      case Begin(_, _, at) => h.(open := Some(Round(at, [])))
      case Fire(_, a, at) =>
        if Key(a) == k && h.open.Some? then h.(open := Some(Round(h.open.value.at, h.open.value.fires + [at])))
        else h
      case Unlock(_) => if h.open.Some? then History(h.rounds + [h.open.value], None) else h
      case ClearUnlock(_) => History([], None)
      case _ => h
  }

  function Hist(es: seq<Event>, k: string): (h: History)
  {
    if es == [] then History([], None) else HistStep(Hist(es[..|es|-1], k), es[|es|-1], k)
  }

  /** Deliveries of k to the sinks since its object was last cleared. */
  function DeliveredStep(cfg: Config, s: Sys, e: Event, k: string, d: seq<Time>): (d': seq<Time>)
  {
    match e
    case Fire(_, a, at) => if Key(a) == k && Dedup.Passes(cfg.resend, s.dedup, k, at) then d + [at] else d
    case ClearUnlock(q) => if q == Owner(k) then [] else d
    case _ => d
  }

  ghost function Deliveries(cfg: Config, es: seq<Event>, k: string): (d: seq<Time>)
    requires Valid(cfg, es)
  {
    if es == [] then []
    else
      DeliveredStep(cfg, Exec(cfg, es[..|es|-1]), es[|es|-1], k, Deliveries(cfg, es[..|es|-1], k))
  }

  function Mark(s: Sys, k: string): Option<Time>
  {
    Lookup(Entry(s.active, ObjectKey(Owner(k))), k)
  }

  function View(s: Sys, k: string, d: seq<Time>): (st: KeyState)
  {
    KeyState(Lookup(s.dedup.lastSeen, k), Mark(s, k), d)
  }

  // -------------------------------------------------- what a step does to a key

  lemma {:induction false} OtherObjectMark(cfg: Config, s: Sys, e: Event, k: string)
    requires Inv(s) && Enabled(s, e) && Owner(k) != e.q
    ensures Mark(Step(cfg, s, e), k) == Mark(s, k)
  {
    var s', o := Step(cfg, s, e), ObjectKey(Owner(k));
    EntryFrame(cfg, s, e);
    if o != ObjectKey(e.q) {
      assert Lookup(s'.active, o) == Lookup(s.active, o);
    } else {
      // Only an ill-formed owner can share the object key; it has no mark before or after.
      EventWellFormed(s, e);
      StepKeepsOwned(cfg, s, e);
      if WellFormed(Owner(k)) {
        ObjectKeyInjective(Owner(k), e.q);
      }
    }
  }

  lemma {:induction false} OtherObjectRecord(cfg: Config, s: Sys, e: Event, k: string, d: seq<Time>)
    requires Inv(s) && Enabled(s, e) && Owner(k) != e.q
    ensures Lookup(Step(cfg, s, e).dedup.lastSeen, k) == Lookup(s.dedup.lastSeen, k)
    ensures DeliveredStep(cfg, s, e, k, d) == d
  {
    EventKeyOwned(s, e, k);
  }

  lemma {:induction false} OtherObjectStep(cfg: Config, s: Sys, e: Event, k: string, d: seq<Time>)
    requires Inv(s) && Enabled(s, e) && Owner(k) != e.q
    ensures View(Step(cfg, s, e), k, DeliveredStep(cfg, s, e, k, d)) == View(s, k, d)
  {
    OtherObjectMark(cfg, s, e, k);
    OtherObjectRecord(cfg, s, e, k, d);
  }

  lemma {:induction false} EventWellFormed(s: Sys, e: Event)
    requires Inv(s) && Enabled(s, e)
    ensures WellFormed(e.q)
  {
    if e.q in s.flights {
      assert FlightOk(s, e.q);
    }
  }

  /** The key an event names belongs to the event's object. */
  lemma {:induction false} EventKeyOwned(s: Sys, e: Event, k: string)
    requires Inv(s) && Enabled(s, e)
    requires (e.Fire? && Key(e.alert) == k) || ((e.Age? || e.ClearKey?) && e.key == k) || Owner(k) != e.q
    ensures e.Fire? && Key(e.alert) == k ==> Owner(k) == e.q
    ensures (e.Age? || e.ClearKey?) && e.key == k ==> Owner(k) == e.q
  {
    EventWellFormed(s, e);
    if e.q in s.flights {
      assert FlightOk(s, e.q);
    }
    if e.Fire? && Key(e.alert) == k {
      KeyRoundTrip(e.alert);
    } else if (e.Age? || e.ClearKey?) && e.key == k {
      EntryOwned(s, e.q, k);
    }
  }

  /** A firing of k is one FireOnce; a firing of another key of the object changes nothing for k. */
  lemma {:induction false} FireStepView(cfg: Config, s: Sys, e: Event, k: string, d: seq<Time>)
    requires Inv(s) && Enabled(s, e) && e.Fire?
    ensures View(Step(cfg, s, e), k, DeliveredStep(cfg, s, e, k, d)) ==
            if Key(e.alert) == k then FireOnce(cfg.resend, View(s, k, d), e.at) else View(s, k, d)
  {
  }

  /** The locked update of k: the Lock step when the alert is present, its Age step otherwise. */
  lemma {:induction false} LockStepView(cfg: Config, s: Sys, e: Event, k: string, d: seq<Time>)
    requires Inv(s) && Enabled(s, e) && e.Lock? && e.q == Owner(k)
    ensures View(Step(cfg, s, e), k, d) ==
            if k in Keys(s.flights[e.q].alerts) then Settle(cfg.grace, View(s, k, d), true, s.flights[e.q].at)
            else View(s, k, d)
    ensures k in Step(cfg, s, e).flights[e.q].phase.todo <==>
            k !in Keys(s.flights[e.q].alerts) && Mark(s, k).Some?
  {
  }

  lemma {:induction false} AgeStepView(cfg: Config, s: Sys, e: Event, k: string, d: seq<Time>)
    requires Inv(s) && Enabled(s, e) && e.Age? && e.q == Owner(k)
    ensures View(Step(cfg, s, e), k, d) ==
            if e.key == k then Settle(cfg.grace, View(s, k, d), false, s.flights[e.q].at) else View(s, k, d)
  {
    assert FlightOk(s, e.q);
  }

  lemma {:induction false} ClearStepView(cfg: Config, s: Sys, e: Event, k: string, d: seq<Time>)
    requires Inv(s) && Enabled(s, e) && e.ClearKey? && e.q == Owner(k)
    ensures View(Step(cfg, s, e), k, d) == if e.key == k then KeyState(None, None, d) else View(s, k, d)
  {
    assert FlightOk(s, e.q);
  }

  lemma {:induction false} QuietStepView(cfg: Config, s: Sys, e: Event, k: string, d: seq<Time>)
    requires Inv(s) && Enabled(s, e) && e.q == Owner(k)
    requires e.Begin? || e.Unlock? || e.ClearLock? || e.ClearUnlock?
    ensures View(Step(cfg, s, e), k, d) == View(s, k, d)
  {
    if e.q in s.flights {
      assert FlightOk(s, e.q);
    }
  }

  // ----------------------------------------------------------- the simulation

  /** Flight f, with the round in progress `open`, shows for k what the sequential fold computes from
      `done`, the fold of the completed rounds, up to the point the reconcile has got to. */
  ghost predicate Matches(
      cfg: Config, f: Option<Flight>, open: Option<Round>, view: KeyState, done: KeyState, k: string)
  {
    match f
    case None => open.None? && view == done
    case Some(Deliver(at, alerts, Firing(n))) =>
      && n <= |alerts|
      && open.Some? && open.value.at == at
      && (open.value.fires != [] <==> k in Keys(alerts[..n]))
      && view == FireAll(cfg.resend, done, open.value.fires)
    case Some(Deliver(at, alerts, Ageing(todo))) =>
      && open.Some? && open.value.at == at
      && (open.value.fires != [] <==> k in Keys(alerts))
      && (k in todo ==> open.value.fires == [])
      && view == if k in todo then done else EndRound(cfg, done, open.value)
    case Some(Clear(todo)) =>
      open.None? && view == if k in todo then done else KeyState(None, None, done.delivered)
  }

  function EndRound(cfg: Config, done: KeyState, r: Round): (st: KeyState)
  {
    Settle(cfg.grace, FireAll(cfg.resend, done, r.fires), r.fires != [], r.at)
  }

  /** State s, reached with history h and deliveries d of key k, mirrors the fold of k's rounds. */
  ghost predicate Mirror(cfg: Config, s: Sys, h: History, d: seq<Time>, k: string)
  {
    Matches(cfg, Lookup(s.flights, Owner(k)), h.open, View(s, k, d), Run(cfg, h.rounds), k)
  }

  lemma {:induction false} RunSnoc(cfg: Config, rounds: seq<Round>, r: Round)
    ensures Run(cfg, rounds + [r]) == EndRound(cfg, Run(cfg, rounds), r)
  {
    assert (rounds + [r])[..|rounds + [r]|-1] == rounds;
  }

  lemma {:induction false} FireAllSnoc(resend: int, st: KeyState, fires: seq<Time>, t: Time)
    ensures FireAll(resend, st, fires + [t]) == FireOnce(resend, FireAll(resend, st, fires), t)
  {
    assert (fires + [t])[..|fires + [t]|-1] == fires;
  }

  lemma {:induction false} KeysSnoc(alerts: seq<Alert>, n: nat)
    requires n < |alerts|
    ensures Keys(alerts[..n+1]) == Keys(alerts[..n]) + {Key(alerts[n])}
  {
    assert alerts[..n+1] == alerts[..n] + [alerts[n]];
  }

  lemma {:induction false} OtherKey(alerts: seq<Alert>, n: nat, k: string)
    requires n < |alerts| && Key(alerts[n]) != k
    ensures k in Keys(alerts[..n+1]) <==> k in Keys(alerts[..n])
  {
    KeysSnoc(alerts, n);
  }

  /** Firing k itself: one more instant in its round. */
  lemma {:induction false} MatchesFireOwn(
      cfg: Config, f: Flight, r: Round, view: KeyState, done: KeyState, k: string, at: Time)
    requires f.Deliver? && f.phase.Firing? && f.phase.next < |f.alerts| && Key(f.alerts[f.phase.next]) == k
    requires Matches(cfg, Some(f), Some(r), view, done, k)
    ensures Matches(cfg, Some(f.(phase := Firing(f.phase.next + 1))), Some(Round(r.at, r.fires + [at])),
                    FireOnce(cfg.resend, view, at), done, k)
  {
    assert k in Keys(f.alerts[..f.phase.next + 1]) by {
      KeysSnoc(f.alerts, f.phase.next);
    }
    FireAllSnoc(cfg.resend, done, r.fires, at);
  }

  /** Firing another key of the object leaves k's round as it is. */
  lemma {:induction false} MatchesFireOther(cfg: Config, f: Flight, r: Round, view: KeyState, done: KeyState, k: string)
    requires f.Deliver? && f.phase.Firing? && f.phase.next < |f.alerts| && Key(f.alerts[f.phase.next]) != k
    requires Matches(cfg, Some(f), Some(r), view, done, k)
    ensures Matches(cfg, Some(f.(phase := Firing(f.phase.next + 1))), Some(r), view, done, k)
  {
    OtherKey(f.alerts, f.phase.next, k);
  }

  lemma {:induction false} MatchesLock(
      cfg: Config, f: Flight, r: Round, view: KeyState, done: KeyState, k: string, todo: set<string>)
    requires f.Deliver? && f.phase == Firing(|f.alerts|)
    requires Matches(cfg, Some(f), Some(r), view, done, k)
    requires k in todo <==> k !in Keys(f.alerts) && view.tracked.Some?
    ensures Matches(cfg, Some(f.(phase := Ageing(todo))), Some(r),
                    if k in Keys(f.alerts) then Settle(cfg.grace, view, true, f.at) else view, done, k)
  {
    assert f.alerts[..|f.alerts|] == f.alerts;
    FireAllKeepsTracked(cfg.resend, done, r.fires);
  }

  lemma {:induction false} MatchesAge(
      cfg: Config, f: Flight, r: Round, view: KeyState, done: KeyState, k: string, key: string)
    requires f.Deliver? && f.phase.Ageing? && key in f.phase.todo
    requires Matches(cfg, Some(f), Some(r), view, done, k)
    ensures Matches(cfg, Some(f.(phase := Ageing(f.phase.todo - {key}))), Some(r),
                    if key == k then Settle(cfg.grace, view, false, f.at) else view, done, k)
  {
  }

  lemma {:induction false} MirrorFire(cfg: Config, s: Sys, e: Event, h: History, d: seq<Time>, k: string)
    requires Inv(s) && Enabled(s, e) && e.Fire? && e.q == Owner(k) && Mirror(cfg, s, h, d, k)
    ensures Mirror(cfg, Step(cfg, s, e), HistStep(h, e, k), DeliveredStep(cfg, s, e, k, d), k)
  {
    FireStepView(cfg, s, e, k, d);
    if Key(e.alert) == k {
      MatchesFireOwn(cfg, s.flights[e.q], h.open.value, View(s, k, d), Run(cfg, h.rounds), k, e.at);
    } else {
      MatchesFireOther(cfg, s.flights[e.q], h.open.value, View(s, k, d), Run(cfg, h.rounds), k);
    }
  }

  lemma {:induction false} MirrorUpdate(cfg: Config, s: Sys, e: Event, h: History, d: seq<Time>, k: string)
    requires Inv(s) && Enabled(s, e) && (e.Lock? || e.Age?) && e.q == Owner(k)
    requires Mirror(cfg, s, h, d, k)
    ensures Mirror(cfg, Step(cfg, s, e), h, d, k)
  {
    var f, done := s.flights[e.q], Run(cfg, h.rounds);
    if e.Lock? {
      LockStepView(cfg, s, e, k, d);
      MatchesLock(cfg, f, h.open.value, View(s, k, d), done, k, Step(cfg, s, e).flights[e.q].phase.todo);
    } else {
      AgeStepView(cfg, s, e, k, d);
      MatchesAge(cfg, f, h.open.value, View(s, k, d), done, k, e.key);
    }
  }

  lemma {:induction false} MirrorEnds(cfg: Config, s: Sys, e: Event, h: History, d: seq<Time>, k: string)
    requires Inv(s) && Enabled(s, e) && e.q == Owner(k) && Mirror(cfg, s, h, d, k)
    requires !e.Fire? && !e.Lock? && !e.Age?
    ensures Mirror(cfg, Step(cfg, s, e), HistStep(h, e, k), DeliveredStep(cfg, s, e, k, d), k)
  {
    if e.ClearKey? {
      ClearStepView(cfg, s, e, k, d);
    } else {
      QuietStepView(cfg, s, e, k, d);
      RecordIffTracked(cfg, h.rounds);
      if e.Unlock? {
        RunSnoc(cfg, h.rounds, h.open.value);
      }
    }
  }

  lemma {:induction false} MirrorStep(cfg: Config, s: Sys, e: Event, h: History, d: seq<Time>, k: string)
    requires Inv(s) && Enabled(s, e) && Mirror(cfg, s, h, d, k)
    ensures Mirror(cfg, Step(cfg, s, e), HistStep(h, e, k), DeliveredStep(cfg, s, e, k, d), k)
  {
    if Owner(k) != e.q {
      OtherObjectStep(cfg, s, e, k, d);
    } else if e.Fire? {
      MirrorFire(cfg, s, e, h, d, k);
    } else if e.Lock? || e.Age? {
      MirrorUpdate(cfg, s, e, h, d, k);
    } else {
      MirrorEnds(cfg, s, e, h, d, k);
    }
  }

  /** Every reachable state of every interleaving mirrors the sequential fold, key by key. */
  lemma {:induction false} ReachableMirrors(cfg: Config, es: seq<Event>, k: string)
    requires Valid(cfg, es)
    ensures Mirror(cfg, Exec(cfg, es), Hist(es, k), Deliveries(cfg, es, k), k)
  {
    if es != [] {
      var init := es[..|es|-1];
      ReachableMirrors(cfg, init, k);
      ReachableInv(cfg, init);
      MirrorStep(cfg, Exec(cfg, init), es[|es|-1], Hist(init, k), Deliveries(cfg, init, k), k);
    }
  }
}
