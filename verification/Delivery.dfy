/** One uninterrupted `deliver` and `clearObject` as functions of the state
    (internal/watcher/controller.go:339-382): what the controller's methods compute, and what the
    concurrent protocol does when nothing interleaves. */
module Delivery {
  import opened Base
  import opened Identity
  import opened Rounds
  import opened Lifecycle
  import Dedup

  type Marks = map<string, Time>

  /** The object's marks after a reconcile that reported `current`. */
  function Aged(grace: int, marks: Marks, current: set<string>, now: Time): (marks': Marks)
  {
    map k | k in marks.Keys + current && (k in current || AgeMark(grace, marks[k], now).Some?) ::
      if k in current then 0 else AgeMark(grace, marks[k], now).value
  }

  /** The keys whose records are dropped by it. */
  function Expired(grace: int, marks: Marks, current: set<string>, now: Time): (ks: set<string>)
  {
    set k | k in marks && k !in current && AgeMark(grace, marks[k], now).None?
  }

  function Stored(active: map<string, Marks>, o: string, marks: Marks): (active': map<string, Marks>)
  {
    if marks == map[] then active - {o} else active[o := marks]
  }

  function ForgetAll(st: Dedup.State, ks: set<string>): (st': Dedup.State)
  {
    st.(lastSeen := st.lastSeen - ks)
  }

  /** The first n alerts fired in order; clock(i) is the reading made for the i-th. */
  function FireSeq(resend: int, st: Dedup.State, alerts: seq<Alert>, n: nat, clock: nat -> Time): (st': Dedup.State)
    requires n <= |alerts|
  {
    if n == 0 then st
    else Dedup.FireStep(resend, FireSeq(resend, st, alerts, n - 1, clock), alerts[n-1], clock(n-1))
  }

  // ---------------------------------------------- the same steps in the protocol

  /** The events of one deliver of q with nothing in between, up to its n-th firing. */
  function Opening(q: QueueKey, alerts: seq<Alert>, now: Time, n: nat, clock: nat -> Time): (es: seq<Event>)
    requires n <= |alerts|
  {
    if n == 0 then [Begin(q, alerts, now)]
    else Opening(q, alerts, now, n - 1, clock) + [Fire(q, alerts[n-1], clock(n-1))]
  }

  /** Its ageing steps; `order` is the order in which the loop happens to visit the keys. */
  function Ages(q: QueueKey, order: seq<string>): (es: seq<Event>)
  {
    if order == [] then [] else Ages(q, order[..|order|-1]) + [Age(q, order[|order|-1])]
  }

  /** The state reached from s by the events es, if each is enabled in turn. */
  function RunFrom(cfg: Config, s: Sys, es: seq<Event>): (r: Option<Sys>)
  {
    if es == [] then Some(s)
    else
      var mid, e := RunFrom(cfg, s, es[..|es|-1]), es[|es|-1];
      if mid.Some? && Enabled(mid.value, e) then Some(Step(cfg, mid.value, e)) else None
  }

  predicate Leads(cfg: Config, s: Sys, es: seq<Event>, s': Sys)
  {
    RunFrom(cfg, s, es) == Some(s')
  }

  predicate StepsTo(cfg: Config, s: Sys, e: Event, s': Sys)
  {
    Enabled(s, e) && s' == Step(cfg, s, e)
  }

  lemma {:induction false} LeadsSnoc(cfg: Config, s: Sys, es: seq<Event>, mid: Sys, e: Event, s': Sys)
    requires Leads(cfg, s, es, mid) && StepsTo(cfg, mid, e, s')
    ensures Leads(cfg, s, es + [e], s')
  {
    assert (es + [e])[..|es + [e]|-1] == es;
  }

  lemma {:induction false} LeadsConcat(cfg: Config, s: Sys, es: seq<Event>, mid: Sys, es': seq<Event>, s': Sys)
    requires Leads(cfg, s, es, mid) && Leads(cfg, mid, es', s')
    ensures Leads(cfg, s, es + es', s')
  {
    if es' == [] {
      assert es + es' == es;
    } else {
      var init, e := es'[..|es'|-1], es'[|es'|-1];
      var last := RunFrom(cfg, mid, init).value;
      LeadsConcat(cfg, s, es, mid, init, last);
      LeadsSnoc(cfg, s, es + init, last, e, s');
      assert es + es' == es + init + [e];
    }
  }

  /** A valid run followed by steps is a valid run. */
  lemma {:induction false} LeadsExtendsRun(cfg: Config, run: seq<Event>, es: seq<Event>, s': Sys)
    requires Valid(cfg, run) && Leads(cfg, Exec(cfg, run), es, s')
    ensures Valid(cfg, run + es) && Exec(cfg, run + es) == s'
  {
    if es == [] {
      assert run + es == run;
    } else {
      var init := es[..|es|-1];
      LeadsExtendsRun(cfg, run, init, RunFrom(cfg, Exec(cfg, run), init).value);
      assert (run + es)[..|run + es|-1] == run + init;
    }
  }

  // ------------------------------------------------------------- firing

  /** Readings made in order, none before start. */
  ghost predicate Ticks(clock: nat -> Time, n: nat, start: Time)
  {
    forall i: nat, j: nat :: i <= j < n ==> start <= clock(i) <= clock(j)
  }

  /** State with the first n alerts of q fired. */
  function Fired(cfg: Config, s: Sys, q: QueueKey, alerts: seq<Alert>, now: Time, n: nat, clock: nat -> Time): Sys
    requires n <= |alerts|
  {
    s.(dedup := FireSeq(cfg.resend, s.dedup, alerts, n, clock),
       flights := s.flights[q := Deliver(now, alerts, Firing(n))],
       clock := s.clock[q := if n == 0 then now else clock(n-1)])
  }

  lemma {:induction false} BeginStep(cfg: Config, s: Sys, q: QueueKey, alerts: seq<Alert>, now: Time, clock: nat -> Time)
    requires Enabled(s, Begin(q, alerts, now))
    ensures Leads(cfg, s, [Begin(q, alerts, now)], Fired(cfg, s, q, alerts, now, 0, clock))
  {
    LeadsSnoc(cfg, s, [], s, Begin(q, alerts, now), Fired(cfg, s, q, alerts, now, 0, clock));
    assert [] + [Begin(q, alerts, now)] == [Begin(q, alerts, now)];
  }

  /** One firing, as a step of any state in which it is due. */
  lemma {:induction false} FireStepsTo(cfg: Config, s: Sys, q: QueueKey, alerts: seq<Alert>, now: Time, n: nat, at: Time)
    requires q in s.flights && n < |alerts| && s.flights[q] == Deliver(now, alerts, Firing(n)) && Clock(s, q) <= at
    ensures StepsTo(cfg, s, Fire(q, alerts[n], at),
                    s.(dedup := Dedup.FireStep(cfg.resend, s.dedup, alerts[n], at),
                       flights := s.flights[q := Deliver(now, alerts, Firing(n + 1))],
                       clock := s.clock[q := at]))
  {
  }

  lemma {:induction false} FiredStep(
      cfg: Config, s: Sys, q: QueueKey, alerts: seq<Alert>, now: Time, n: nat, clock: nat -> Time)
    requires n < |alerts| && Ticks(clock, |alerts|, now)
    ensures StepsTo(cfg, Fired(cfg, s, q, alerts, now, n, clock), Fire(q, alerts[n], clock(n)),
                    Fired(cfg, s, q, alerts, now, n + 1, clock))
  {
    var i: nat := if n > 0 then n - 1 else 0;
    assert now <= clock(i) <= clock(n);
    var mid, end := Fired(cfg, s, q, alerts, now, n, clock), Fired(cfg, s, q, alerts, now, n + 1, clock);
    FireStepsTo(cfg, mid, q, alerts, now, n, clock(n));
    assert mid.flights[q := Deliver(now, alerts, Firing(n + 1))] == end.flights;
    assert mid.clock[q := clock(n)] == end.clock;
  }

  lemma {:induction false} FiringLeads(
      cfg: Config, s: Sys, q: QueueKey, alerts: seq<Alert>, now: Time, n: nat, clock: nat -> Time)
    requires Enabled(s, Begin(q, alerts, now)) && n <= |alerts| && Ticks(clock, |alerts|, now)
    ensures Leads(cfg, s, Opening(q, alerts, now, n, clock), Fired(cfg, s, q, alerts, now, n, clock))
  {
    if n == 0 {
      BeginStep(cfg, s, q, alerts, now, clock);
    } else {
      var m: nat := n - 1;
      FiringLeads(cfg, s, q, alerts, now, m, clock);
      FiringSnoc(cfg, s, q, alerts, now, m, clock, Opening(q, alerts, now, m, clock), Opening(q, alerts, now, n, clock));
    }
  }

  lemma {:induction false} FiringSnoc(
      cfg: Config, s: Sys, q: QueueKey, alerts: seq<Alert>, now: Time, n: nat, clock: nat -> Time,
      es: seq<Event>, es': seq<Event>)
    requires n < |alerts| && Ticks(clock, |alerts|, now)
    requires Leads(cfg, s, es, Fired(cfg, s, q, alerts, now, n, clock))
    requires es' == es + [Fire(q, alerts[n], clock(n))]
    ensures Leads(cfg, s, es', Fired(cfg, s, q, alerts, now, n + 1, clock))
  {
    FiredStep(cfg, s, q, alerts, now, n, clock);
    LeadsSnoc(cfg, s, es, Fired(cfg, s, q, alerts, now, n, clock), Fire(q, alerts[n], clock(n)),
              Fired(cfg, s, q, alerts, now, n + 1, clock));
  }

  // ------------------------------------------------------------- ageing

  /** Marks after the keys in `visited` have been aged. */
  function PartlyAged(grace: int, marks: Marks, current: set<string>, now: Time, visited: set<string>): (marks': Marks)
  {
    map k | k in marks.Keys + current && (k in current || k !in visited || AgeMark(grace, marks[k], now).Some?) ::
      if k in current then 0 else if k !in visited then marks[k] else AgeMark(grace, marks[k], now).value
  }

  /** One visit of the ageing loop, whatever has been visited before. */
  lemma {:induction false} AgeOneMore(grace: int, marks: Marks, current: set<string>, now: Time, visited: set<string>, k: string)
    requires k in marks && k !in current && k !in visited
    ensures var before := PartlyAged(grace, marks, current, now, visited);
            && k in before && before[k] == marks[k]
            && PartlyAged(grace, marks, current, now, visited + {k}) ==
               match AgeMark(grace, marks[k], now)
               case Some(mark) => before[k := mark]
               case None => before - {k}
  {
  }

  lemma {:induction false} AgedIsAllVisited(grace: int, marks: Marks, current: set<string>, now: Time, visited: set<string>)
    requires marks.Keys - current <= visited
    ensures PartlyAged(grace, marks, current, now, visited) == Aged(grace, marks, current, now)
  {
  }

  /** State in the middle of the locked update of q, with `visited` aged. */
  function Updating(cfg: Config, s: Sys, q: QueueKey, alerts: seq<Alert>, now: Time, visited: set<string>): Sys
  {
    var o, current := ObjectKey(q), Keys(alerts);
    var marks := Entry(s.active, o);
    s.(active := s.active[o := PartlyAged(cfg.grace, marks, current, now, visited)],
       dedup := ForgetAll(s.dedup, Expired(cfg.grace, marks, current, now) * visited),
       flights := s.flights[q := Deliver(now, alerts, Ageing(marks.Keys - current - visited))],
       holder := Some(q))
  }

  lemma {:induction false} AgeStep(
      cfg: Config, s: Sys, q: QueueKey, alerts: seq<Alert>, now: Time, visited: set<string>, k: string)
    requires k in Entry(s.active, ObjectKey(q)) && k !in Keys(alerts) && k !in visited
    ensures StepsTo(cfg, Updating(cfg, s, q, alerts, now, visited), Age(q, k),
                    Updating(cfg, s, q, alerts, now, visited + {k}))
  {
    var o, current := ObjectKey(q), Keys(alerts);
    var marks := Entry(s.active, o);
    var mid, s' := Updating(cfg, s, q, alerts, now, visited), Updating(cfg, s, q, alerts, now, visited + {k});
    AgeOneMore(cfg.grace, marks, current, now, visited, k);
    var next := AgeMark(cfg.grace, marks[k], now);
    var expired := Expired(cfg.grace, marks, current, now);
    assert marks.Keys - current - visited - {k} == marks.Keys - current - (visited + {k});
    assert next.None? ==> expired * (visited + {k}) == expired * visited + {k};
    assert next.Some? ==> expired * (visited + {k}) == expired * visited;
    assert Entry(mid.active, o) == PartlyAged(cfg.grace, marks, current, now, visited);
    assert mid.active[o := s'.active[o]] == s'.active;
    assert mid.flights[q := s'.flights[q]] == s'.flights;
    assert next.None? ==> mid.dedup.lastSeen - {k} == s'.dedup.lastSeen;
  }

  lemma {:induction false} AgeingLeads(cfg: Config, s: Sys, q: QueueKey, alerts: seq<Alert>, now: Time, order: seq<string>)
    requires NoRepeat(order)
    requires Elements(order) <= Entry(s.active, ObjectKey(q)).Keys - Keys(alerts)
    ensures Leads(cfg, Updating(cfg, s, q, alerts, now, {}), Ages(q, order), Updating(cfg, s, q, alerts, now, Elements(order)))
  {
    if order == [] {
      assert Elements(order) == {};
    } else {
      var init, k := order[..|order|-1], order[|order|-1];
      assert Elements(order) == Elements(init) + {k};
      AgeingLeads(cfg, s, q, alerts, now, init);
      AgeStep(cfg, s, q, alerts, now, Elements(init), k);
      LeadsSnoc(cfg, Updating(cfg, s, q, alerts, now, {}), Ages(q, init), Updating(cfg, s, q, alerts, now, Elements(init)),
                Age(q, k), Updating(cfg, s, q, alerts, now, Elements(order)));
    }
  }

  /** The locked update, whatever order the ageing loop takes the keys in. */
  lemma {:induction false} UpdateLeads(cfg: Config, s: Sys, q: QueueKey, alerts: seq<Alert>, now: Time, order: seq<string>)
    requires q in s.flights && s.flights[q] == Deliver(now, alerts, Firing(|alerts|)) && s.holder.None?
    requires NoRepeat(order) && Elements(order) == Entry(s.active, ObjectKey(q)).Keys - Keys(alerts)
    ensures var marks := Entry(s.active, ObjectKey(q));
            Leads(cfg, s, [Lock(q)] + Ages(q, order) + [Unlock(q)],
                  s.(active := Stored(s.active, ObjectKey(q), Aged(cfg.grace, marks, Keys(alerts), now)),
                     dedup := ForgetAll(s.dedup, Expired(cfg.grace, marks, Keys(alerts), now)),
                     flights := s.flights - {q}))
  {
    var o, current := ObjectKey(q), Keys(alerts);
    var marks := Entry(s.active, o);
    var locked, done := Updating(cfg, s, q, alerts, now, {}), Updating(cfg, s, q, alerts, now, Elements(order));
    LockStarts(cfg, s, q, alerts, now);
    LeadsSnoc(cfg, s, [], s, Lock(q), locked);
    assert [] + [Lock(q)] == [Lock(q)];
    AgeingLeads(cfg, s, q, alerts, now, order);
    LeadsConcat(cfg, s, [Lock(q)], locked, Ages(q, order), done);
    AgedIsAllVisited(cfg.grace, marks, current, now, Elements(order));
    assert Expired(cfg.grace, marks, current, now) * Elements(order) == Expired(cfg.grace, marks, current, now);
    UnlockEnds(cfg, s, q, alerts, now, Elements(order));
    LeadsSnoc(cfg, s, [Lock(q)] + Ages(q, order), done, Unlock(q), Step(cfg, done, Unlock(q)));
  }

  lemma {:induction false} LockStarts(cfg: Config, s: Sys, q: QueueKey, alerts: seq<Alert>, now: Time)
    requires q in s.flights && s.flights[q] == Deliver(now, alerts, Firing(|alerts|)) && s.holder.None?
    ensures StepsTo(cfg, s, Lock(q), Updating(cfg, s, q, alerts, now, {}))
  {
    var current := Keys(alerts);
    var marks := Entry(s.active, ObjectKey(q));
    assert marks + (map k | k in current :: 0) == PartlyAged(cfg.grace, marks, current, now, {});
    assert (marks + map k | k in current :: 0).Keys == marks.Keys + current;
    assert (marks.Keys + current) - current == marks.Keys - current - {};
    assert Expired(cfg.grace, marks, current, now) * {} == {};
    assert s.dedup.lastSeen - {} == s.dedup.lastSeen;
    var s' := Step(cfg, s, Lock(q));
    assert s'.flights == Updating(cfg, s, q, alerts, now, {}).flights;
    assert s'.dedup == Updating(cfg, s, q, alerts, now, {}).dedup;
  }

  lemma {:induction false} UnlockEnds(cfg: Config, s: Sys, q: QueueKey, alerts: seq<Alert>, now: Time, visited: set<string>)
    requires q in s.flights && s.holder.None?
    requires Entry(s.active, ObjectKey(q)).Keys - Keys(alerts) <= visited
    ensures var o, done := ObjectKey(q), Updating(cfg, s, q, alerts, now, visited);
            StepsTo(cfg, done, Unlock(q),
                    done.(active := Stored(s.active, o, done.active[o]), flights := s.flights - {q}, holder := s.holder))
  {
    var o, done := ObjectKey(q), Updating(cfg, s, q, alerts, now, visited);
    assert Entry(s.active, o).Keys - Keys(alerts) - visited == {};
    assert done.flights - {q} == s.flights - {q};
    assert done.active - {o} == s.active - {o};
  }

  /** The state after an uninterrupted deliver. */
  function Delivered(cfg: Config, s: Sys, q: QueueKey, alerts: seq<Alert>, now: Time, clock: nat -> Time): (s': Sys)
  {
    var marks := Entry(s.active, ObjectKey(q));
    s.(active := Stored(s.active, ObjectKey(q), Aged(cfg.grace, marks, Keys(alerts), now)),
       dedup := ForgetAll(FireSeq(cfg.resend, s.dedup, alerts, |alerts|, clock),
                          Expired(cfg.grace, marks, Keys(alerts), now)),
       clock := s.clock[q := if alerts == [] then now else clock(|alerts|-1)])
  }

  function DeliverEvents(q: QueueKey, alerts: seq<Alert>, now: Time, clock: nat -> Time, order: seq<string>): (es: seq<Event>)
  {
    Opening(q, alerts, now, |alerts|, clock) + ([Lock(q)] + Ages(q, order) + [Unlock(q)])
  }

  lemma {:induction false} DeliverLeads(
      cfg: Config, s: Sys, q: QueueKey, alerts: seq<Alert>, now: Time, clock: nat -> Time, order: seq<string>)
    requires Enabled(s, Begin(q, alerts, now)) && s.holder.None? && Ticks(clock, |alerts|, now)
    requires NoRepeat(order) && Elements(order) == Entry(s.active, ObjectKey(q)).Keys - Keys(alerts)
    ensures Leads(cfg, s, DeliverEvents(q, alerts, now, clock, order), Delivered(cfg, s, q, alerts, now, clock))
  {
    FiringLeads(cfg, s, q, alerts, now, |alerts|, clock);
    var fired := Fired(cfg, s, q, alerts, now, |alerts|, clock);
    UpdateLeads(cfg, fired, q, alerts, now, order);
    assert fired.flights - {q} == s.flights;
    LeadsConcat(cfg, s, Opening(q, alerts, now, |alerts|, clock), fired, [Lock(q)] + Ages(q, order) + [Unlock(q)],
                Delivered(cfg, s, q, alerts, now, clock));
  }

  /** A deliver that nothing interrupts extends any run, and its effect is a function of the state:
      the order in which the ageing loop visits the map makes no difference. */
  lemma {:induction false} DeliverIsARun(
      cfg: Config, run: seq<Event>, q: QueueKey, alerts: seq<Alert>, now: Time, clock: nat -> Time, order: seq<string>)
    requires Valid(cfg, run)
    requires Enabled(Exec(cfg, run), Begin(q, alerts, now)) && Exec(cfg, run).holder.None?
    requires Ticks(clock, |alerts|, now)
    requires NoRepeat(order) && Elements(order) == Entry(Exec(cfg, run).active, ObjectKey(q)).Keys - Keys(alerts)
    ensures var es := DeliverEvents(q, alerts, now, clock, order);
            && Valid(cfg, run + es)
            && Exec(cfg, run + es) == Delivered(cfg, Exec(cfg, run), q, alerts, now, clock)
  {
    DeliverLeads(cfg, Exec(cfg, run), q, alerts, now, clock, order);
    LeadsExtendsRun(cfg, run, DeliverEvents(q, alerts, now, clock, order),
                    Delivered(cfg, Exec(cfg, run), q, alerts, now, clock));
  }

  // ------------------------------------------------------------- clearing

  function ClearKeys(q: QueueKey, order: seq<string>): (es: seq<Event>)
  {
    if order == [] then [] else ClearKeys(q, order[..|order|-1]) + [ClearKey(q, order[|order|-1])]
  }

  /** State in the middle of clearing q, with the records of `dropped` gone. */
  function Clearing(s: Sys, q: QueueKey, dropped: set<string>): Sys
  {
    var o := ObjectKey(q);
    var marks := Entry(s.active, o);
    s.(active := if dropped == {} then s.active else s.active[o := marks - dropped],
       dedup := ForgetAll(s.dedup, dropped),
       flights := s.flights[q := Clear(marks.Keys - dropped)],
       holder := Some(q))
  }

  lemma {:induction false} ClearStep(cfg: Config, s: Sys, q: QueueKey, dropped: set<string>, k: string)
    requires k in Entry(s.active, ObjectKey(q)) && k !in dropped
    ensures StepsTo(cfg, Clearing(s, q, dropped), ClearKey(q, k), Clearing(s, q, dropped + {k}))
  {
    var o := ObjectKey(q);
    var marks := Entry(s.active, o);
    var mid, end := Clearing(s, q, dropped), Clearing(s, q, dropped + {k});
    assert marks - {} == marks;
    assert Entry(mid.active, o) == marks - dropped;
    assert marks - dropped - {k} == marks - (dropped + {k});
    assert marks.Keys - dropped - {k} == marks.Keys - (dropped + {k});
    assert mid.active[o := marks - (dropped + {k})] == end.active;
    assert mid.flights[q := Clear(marks.Keys - (dropped + {k}))] == end.flights;
    assert mid.dedup.lastSeen - {k} == end.dedup.lastSeen;
  }

  lemma {:induction false} ClearingLeads(cfg: Config, s: Sys, q: QueueKey, order: seq<string>)
    requires NoRepeat(order) && Elements(order) <= Entry(s.active, ObjectKey(q)).Keys
    ensures Leads(cfg, Clearing(s, q, {}), ClearKeys(q, order), Clearing(s, q, Elements(order)))
  {
    if order == [] {
      assert Elements(order) == {};
    } else {
      var init, k := order[..|order|-1], order[|order|-1];
      assert Elements(order) == Elements(init) + {k};
      ClearingLeads(cfg, s, q, init);
      ClearStep(cfg, s, q, Elements(init), k);
      LeadsSnoc(cfg, Clearing(s, q, {}), ClearKeys(q, init), Clearing(s, q, Elements(init)),
                ClearKey(q, k), Clearing(s, q, Elements(order)));
    }
  }

  /** The state after an uninterrupted clearObject. */
  function Cleared(s: Sys, q: QueueKey): (s': Sys)
  {
    s.(active := s.active - {ObjectKey(q)}, dedup := ForgetAll(s.dedup, Entry(s.active, ObjectKey(q)).Keys))
  }

  function ClearEvents(q: QueueKey, order: seq<string>): (es: seq<Event>)
  {
    [ClearLock(q)] + ClearKeys(q, order) + [ClearUnlock(q)]
  }

  /** Clearing an object that is gone, in any order of its keys, extends any run in which the object
      is not being reconciled: its entry and exactly its keys' records disappear. */
  lemma {:induction false} ClearIsARun(cfg: Config, run: seq<Event>, q: QueueKey, order: seq<string>)
    requires Valid(cfg, run) && Enabled(Exec(cfg, run), ClearLock(q))
    requires NoRepeat(order) && Elements(order) == Entry(Exec(cfg, run).active, ObjectKey(q)).Keys
    ensures Valid(cfg, run + ClearEvents(q, order))
    ensures Exec(cfg, run + ClearEvents(q, order)) == Cleared(Exec(cfg, run), q)
  {
    var s, o := Exec(cfg, run), ObjectKey(q);
    var locked, done := Clearing(s, q, {}), Clearing(s, q, Elements(order));
    ClearEnds(cfg, s, q, Elements(order));
    LeadsSnoc(cfg, s, [], s, ClearLock(q), locked);
    assert [] + [ClearLock(q)] == [ClearLock(q)];
    ClearingLeads(cfg, s, q, order);
    LeadsConcat(cfg, s, [ClearLock(q)], locked, ClearKeys(q, order), done);
    LeadsSnoc(cfg, s, [ClearLock(q)] + ClearKeys(q, order), done, ClearUnlock(q), Cleared(s, q));
    LeadsExtendsRun(cfg, run, ClearEvents(q, order), Cleared(s, q));
  }

  lemma {:induction false} ClearEnds(cfg: Config, s: Sys, q: QueueKey, dropped: set<string>)
    requires Enabled(s, ClearLock(q)) && dropped == Entry(s.active, ObjectKey(q)).Keys
    ensures StepsTo(cfg, s, ClearLock(q), Clearing(s, q, {}))
    ensures StepsTo(cfg, Clearing(s, q, dropped), ClearUnlock(q),
                    s.(active := s.active - {ObjectKey(q)}, dedup := ForgetAll(s.dedup, dropped)))
  {
    var done := Clearing(s, q, dropped);
    assert s.dedup.lastSeen - {} == s.dedup.lastSeen;
    assert dropped - {} == dropped && dropped - dropped == {};
    assert done.active - {ObjectKey(q)} == s.active - {ObjectKey(q)};
    assert done.flights - {q} == s.flights;
  }
}
