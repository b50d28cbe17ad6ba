/** The alert lifecycle as a concurrent protocol (internal/watcher/controller.go:262-382 over
    internal/alert/alert.go:79-120).

    Any number of workers reconcile objects at once. The work queue hands an object to at most one
    worker at a time, so a worker in the middle of an object is an entry of `flights`, keyed by that
    object. Everything else interleaves freely:

      - `deliver` asks the deduper about each alert in turn before it takes the controller's lock,
        so those steps of different workers mix (events Begin and Fire);
      - under the controller's lock it ages the object's marks one key at a time, in any order
        (events Lock, Age, Unlock), while other workers may still be firing;
      - `clearObject` does the same for an object that is gone (ClearLock, ClearKey, ClearUnlock).

    An instant carried by an event is a clock reading made some time before the step it belongs to.
    Readings made for one object are ordered, because one worker at a time makes them; nothing is
    assumed about readings made for different objects. */
module Lifecycle {
  import opened Base
  import opened Identity
  import opened Rounds
  import Dedup

  datatype Phase = Firing(next: nat) | Ageing(todo: set<string>)

  datatype Flight =
    | Deliver(at: Time, alerts: seq<Alert>, phase: Phase)
    | Clear(todo: set<string>)

  /** active: object key -> alert key -> mark (0 = firing, else clearing since). The map is only read
      with the controller's lock held, by the worker in `holder`. */
  datatype Sys = Sys(
    active: map<string, map<string, Time>>,
    dedup: Dedup.State,
    flights: map<QueueKey, Flight>,
    holder: Option<QueueKey>,
    clock: map<QueueKey, Time>)

  const INIT := Sys(map[], Dedup.EMPTY, map[], None, map[])

  datatype Event =
    | Begin(q: QueueKey, alerts: seq<Alert>, at: Time)
    | Fire(q: QueueKey, alert: Alert, at: Time)
    | Lock(q: QueueKey)
    | Age(q: QueueKey, key: string)
    | Unlock(q: QueueKey)
    | ClearLock(q: QueueKey)
    | ClearKey(q: QueueKey, key: string)
    | ClearUnlock(q: QueueKey)

  function Keys(alerts: seq<Alert>): (ks: set<string>)
  {
    set a | a in alerts :: Key(a)
  }

  /** Alerts produced by a reconcile of q are about q. */
  predicate About(q: QueueKey, alerts: seq<Alert>)
  {
    forall a :: a in alerts ==> Subject(a) == q
  }

  function Entry(active: map<string, map<string, Time>>, o: string): (marks: map<string, Time>)
  {
    if o in active then active[o] else map[]
  }

  function Clock(s: Sys, q: QueueKey): Time
  {
    if q in s.clock then s.clock[q] else 0
  }

  predicate Enabled(s: Sys, e: Event)
  {
    match e
    case Begin(q, alerts, at) =>
      q !in s.flights && WellFormed(q) && About(q, alerts) && 0 < at && Clock(s, q) <= at
    case Fire(q, a, at) =>
      && q in s.flights && s.flights[q].Deliver? && s.flights[q].phase.Firing?
      && s.flights[q].phase.next < |s.flights[q].alerts|
      && a == s.flights[q].alerts[s.flights[q].phase.next]
      && Clock(s, q) <= at
    case Lock(q) =>
      && q in s.flights && s.flights[q].Deliver?
      && s.flights[q].phase == Firing(|s.flights[q].alerts|)
      && s.holder.None?
    case Age(q, k) =>
      q in s.flights && s.flights[q].Deliver? && s.flights[q].phase.Ageing? && k in s.flights[q].phase.todo
    case Unlock(q) =>
      q in s.flights && s.flights[q].Deliver? && s.flights[q].phase == Ageing({})
    case ClearLock(q) =>
      q !in s.flights && WellFormed(q) && s.holder.None?
    case ClearKey(q, k) =>
      q in s.flights && s.flights[q].Clear? && k in s.flights[q].todo
    case ClearUnlock(q) =>
      q in s.flights && s.flights[q] == Clear({})
  }

  /** An entry left empty is removed from the map. */
  function Trim(active: map<string, map<string, Time>>, o: string): map<string, map<string, Time>>
  {
    if Entry(active, o) == map[] then active - {o} else active
  }

  function AgeKey(cfg: Config, s: Sys, q: QueueKey, k: string, at: Time): (s': Sys)
  {
    var o := ObjectKey(q);
    var marks := Entry(s.active, o);
    if k !in marks then s
    else
      match AgeMark(cfg.grace, marks[k], at)
      case Some(mark) => s.(active := s.active[o := marks[k := mark]])
      case None => s.(active := s.active[o := marks - {k}], dedup := Dedup.ForgetStep(s.dedup, k))
  }

  function Step(cfg: Config, s: Sys, e: Event): (s': Sys)
    requires Enabled(s, e)
  {
    match e
    case Begin(q, alerts, at) =>
      s.(flights := s.flights[q := Deliver(at, alerts, Firing(0))], clock := s.clock[q := at])
    case Fire(q, a, at) =>
      var f := s.flights[q];
      s.(dedup := Dedup.FireStep(cfg.resend, s.dedup, a, at),
         flights := s.flights[q := f.(phase := Firing(f.phase.next + 1))],
         clock := s.clock[q := at])
    case Lock(q) =>
      var f, o := s.flights[q], ObjectKey(q);
      var current := Keys(f.alerts);
      var marks := Entry(s.active, o) + map k | k in current :: 0;
      s.(active := s.active[o := marks],
         flights := s.flights[q := f.(phase := Ageing(marks.Keys - current))],
         holder := Some(q))
    case Age(q, k) =>
      var f := s.flights[q];
      AgeKey(cfg, s, q, k, f.at).(flights := s.flights[q := f.(phase := Ageing(f.phase.todo - {k}))])
    case Unlock(q) =>
      s.(active := Trim(s.active, ObjectKey(q)), flights := s.flights - {q}, holder := None)
    case ClearLock(q) =>
      s.(flights := s.flights[q := Clear(Entry(s.active, ObjectKey(q)).Keys)], holder := Some(q))
    case ClearKey(q, k) =>
      var o := ObjectKey(q);
      s.(active := s.active[o := Entry(s.active, o) - {k}],
         dedup := Dedup.ForgetStep(s.dedup, k),
         flights := s.flights[q := Clear(s.flights[q].todo - {k})])
    case ClearUnlock(q) =>
      s.(active := s.active - {ObjectKey(q)}, flights := s.flights - {q}, holder := None)
  }

  // --------------------------------------------------------------------- runs

  /** A run is the sequence of its events; the state is a function of it. */
  ghost predicate Valid(cfg: Config, es: seq<Event>)
    decreases |es|, 0
  {
    es == [] || (Valid(cfg, es[..|es|-1]) && Enabled(Exec(cfg, es[..|es|-1]), es[|es|-1]))
  }

  ghost function Exec(cfg: Config, es: seq<Event>): (s: Sys)
    requires Valid(cfg, es)
    decreases |es|, 1
  {
    if es == [] then INIT else Step(cfg, Exec(cfg, es[..|es|-1]), es[|es|-1])
  }

  // ------------------------------------------------------ structural invariant

  ghost predicate FlightOk(s: Sys, q: QueueKey)
    requires q in s.flights
  {
    && WellFormed(q)
    && match s.flights[q]
       case Deliver(at, alerts, Firing(n)) => About(q, alerts) && n <= |alerts|
       case Deliver(at, alerts, Ageing(todo)) =>
         && About(q, alerts) && s.holder == Some(q)
         && todo !! Keys(alerts)
         && todo <= Entry(s.active, ObjectKey(q)).Keys
       case Clear(todo) =>
         s.holder == Some(q) && todo == Entry(s.active, ObjectKey(q)).Keys
  }

  /** Marks sit under the object that owns them. */
  ghost predicate Owned(active: map<string, map<string, Time>>)
  {
    forall o, k :: o in active && k in active[o] ==> WellFormed(Owner(k)) && ObjectKey(Owner(k)) == o
  }

  ghost predicate Inv(s: Sys)
  {
    && (forall q :: q in s.flights ==> FlightOk(s, q))
    && Owned(s.active)
    && (forall o :: o in s.active && s.active[o] == map[] ==> s.holder.Some? && ObjectKey(s.holder.value) == o)
    && (s.holder.Some? ==> s.holder.value in s.flights && Holding(s.flights[s.holder.value]))
  }

  predicate Holding(f: Flight)
  {
    f.Clear? || f.phase.Ageing?
  }

  lemma {:induction false} KeysOwned(q: QueueKey, alerts: seq<Alert>, k: string)
    requires WellFormed(q) && About(q, alerts) && k in Keys(alerts)
    ensures Owner(k) == q
  {
    var a :| a in alerts && Key(a) == k;
    KeyRoundTrip(a);
  }

  lemma {:induction false} EntryOwned(s: Sys, q: QueueKey, k: string)
    requires Owned(s.active) && WellFormed(q) && k in Entry(s.active, ObjectKey(q))
    ensures Owner(k) == q
  {
    ObjectKeyInjective(Owner(k), q);
  }

  /** A step of q leaves the entries of other objects alone, and only Lock adds keys to its own. */
  lemma {:induction false} EntryFrame(cfg: Config, s: Sys, e: Event)
    requires Enabled(s, e)
    ensures var s' := Step(cfg, s, e);
            && (forall o :: o != ObjectKey(e.q) ==> Lookup(s'.active, o) == Lookup(s.active, o))
            && Entry(s'.active, ObjectKey(e.q)).Keys <=
               Entry(s.active, ObjectKey(e.q)).Keys + (if e.Lock? then Keys(s.flights[e.q].alerts) else {})
  {
  }

  lemma {:induction false} StepKeepsOwned(cfg: Config, s: Sys, e: Event)
    requires Inv(s) && Enabled(s, e)
    ensures Owned(Step(cfg, s, e).active)
  {
    EntryFrame(cfg, s, e);
    var s' := Step(cfg, s, e);
    forall o, k | o in s'.active && k in s'.active[o] ensures WellFormed(Owner(k)) && ObjectKey(Owner(k)) == o {
      if o != ObjectKey(e.q) {
        assert Lookup(s'.active, o) == Lookup(s.active, o);
      } else if k !in Entry(s.active, o) {
        assert FlightOk(s, e.q);
        KeysOwned(e.q, s.flights[e.q].alerts, k);
      }
    }
  }

  lemma {:induction false} StepKeepsOwnFlight(cfg: Config, s: Sys, e: Event)
    requires Inv(s) && Enabled(s, e) && e.q in Step(cfg, s, e).flights
    ensures FlightOk(Step(cfg, s, e), e.q)
  {
    if e.q in s.flights {
      assert FlightOk(s, e.q);
    }
  }

  lemma {:induction false} StepKeepsOtherFlight(cfg: Config, s: Sys, e: Event, q: QueueKey)
    requires Inv(s) && Enabled(s, e) && q in s.flights && q != e.q
    ensures q in Step(cfg, s, e).flights && FlightOk(Step(cfg, s, e), q)
  {
    if e.q in s.flights {
      assert FlightOk(s, e.q);
    }
    assert FlightOk(s, q);
    ObjectKeyInjective(q, e.q);
    EntryFrame(cfg, s, e);
    assert Lookup(Step(cfg, s, e).active, ObjectKey(q)) == Lookup(s.active, ObjectKey(q));
  }

  lemma {:induction false} StepKeepsHolder(cfg: Config, s: Sys, e: Event)
    requires Inv(s) && Enabled(s, e)
    ensures var s' := Step(cfg, s, e);
            s'.holder.Some? ==> s'.holder.value in s'.flights && Holding(s'.flights[s'.holder.value])
  {
    if e.q in s.flights {
      assert FlightOk(s, e.q);
    }
  }

  /** Only the holder of the lock may leave an empty entry behind, and only until it releases it. */
  lemma {:induction false} StepKeepsNonEmpty(cfg: Config, s: Sys, e: Event, o: string)
    requires Inv(s) && Enabled(s, e)
    requires o in Step(cfg, s, e).active && Step(cfg, s, e).active[o] == map[]
    ensures Step(cfg, s, e).holder.Some? && ObjectKey(Step(cfg, s, e).holder.value) == o
  {
    if e.q in s.flights {
      assert FlightOk(s, e.q);
    }
    if o != ObjectKey(e.q) {
      EntryFrame(cfg, s, e);
      assert Lookup(Step(cfg, s, e).active, o) == Lookup(s.active, o);
    }
  }

  lemma {:induction false} StepKeepsInv(cfg: Config, s: Sys, e: Event)
    requires Inv(s) && Enabled(s, e)
    ensures Inv(Step(cfg, s, e))
  {
    var s' := Step(cfg, s, e);
    forall q | q in s'.flights ensures FlightOk(s', q) {
      if q == e.q {
        StepKeepsOwnFlight(cfg, s, e);
      } else {
        StepKeepsOtherFlight(cfg, s, e, q);
      }
    }
    StepKeepsOwned(cfg, s, e);
    StepKeepsHolder(cfg, s, e);
    forall o | o in s'.active && s'.active[o] == map[]
      ensures s'.holder.Some? && ObjectKey(s'.holder.value) == o
    {
      StepKeepsNonEmpty(cfg, s, e, o);
    }
  }

  lemma {:induction false} ReachableInv(cfg: Config, es: seq<Event>)
    requires Valid(cfg, es)
    ensures Inv(Exec(cfg, es))
  {
    if es != [] {
      ReachableInv(cfg, es[..|es|-1]);
      StepKeepsInv(cfg, Exec(cfg, es[..|es|-1]), es[|es|-1]);
    }
  }
}
