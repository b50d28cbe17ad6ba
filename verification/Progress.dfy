/** The two locks and the one-worker-per-object queue never block the controller: whatever state a run
    has reached, the workers already under way can finish, without any further object being taken up. */
module Progress {
  import opened Base
  import opened Identity
  import opened Rounds
  import opened Lifecycle

  /** A step of a worker already under way. */
  ghost predicate Resumes(s: Sys, e: Event)
  {
    e.q in s.flights && Enabled(s, e)
  }

  /** No deadlock: the worker holding the lock can move, and if nobody holds it everybody can. */
  lemma {:induction false} SomeoneCanStep(s: Sys)
    requires Inv(s) && s.flights != map[]
    ensures s.holder.Some? ==> exists e :: Resumes(s, e) && e.q == s.holder.value
    ensures s.holder.None? ==> forall q :: q in s.flights ==> exists e :: Resumes(s, e) && e.q == q
  {
    if s.holder.Some? {
      HolderCanStep(s);
    } else {
      forall q | q in s.flights ensures exists e :: Resumes(s, e) && e.q == q {
        assert FlightOk(s, q);
        var f := s.flights[q];
        var e := if f.phase.next < |f.alerts| then Fire(q, f.alerts[f.phase.next], Clock(s, q)) else Lock(q);
        assert Resumes(s, e);
      }
    }
  }

  lemma {:induction false} HolderCanStep(s: Sys)
    requires Inv(s) && s.holder.Some?
    ensures exists e :: Resumes(s, e) && e.q == s.holder.value
  {
    var q := s.holder.value;
    var f := s.flights[q];
    assert FlightOk(s, q) && Holding(f);
    var todo := if f.Clear? then f.todo else f.phase.todo;
    var e :=
      if todo == {} then (if f.Clear? then ClearUnlock(q) else Unlock(q))
      else (var k :| k in todo; if f.Clear? then ClearKey(q, k) else Age(q, k));
    assert Resumes(s, e);
  }

  /** run' goes on from run with steps of the objects in qs only, none of them taken up anew. */
  ghost predicate Continues(run: seq<Event>, run': seq<Event>, qs: set<QueueKey>)
  {
    run <= run' && forall i :: |run| <= i < |run'| ==> run'[i].q in qs && !run'[i].Begin? && !run'[i].ClearLock?
  }

  lemma {:induction false} Take(cfg: Config, run: seq<Event>, e: Event) returns (run': seq<Event>)
    requires Valid(cfg, run) && Resumes(Exec(cfg, run), e)
    ensures Valid(cfg, run') && Exec(cfg, run') == Step(cfg, Exec(cfg, run), e) && Continues(run, run', {e.q})
  {
    run' := run + [e];
    assert run'[..|run'|-1] == run;
  }

  /** Keys the holder of the lock has still to visit. */
  function Todo(f: Flight): (ks: set<string>)
  {
    match f
    case Deliver(_, _, Ageing(todo)) => todo
    case Clear(todo) => todo
    case _ => {}
  }

  /** The worker holding the lock visits its remaining keys and releases it. */
  lemma {:induction false} HolderFinishes(cfg: Config, run: seq<Event>, q: QueueKey, todo: set<string>) returns (run': seq<Event>)
    requires Valid(cfg, run) && Exec(cfg, run).holder == Some(q)
    requires q in Exec(cfg, run).flights && todo == Todo(Exec(cfg, run).flights[q])
    ensures Valid(cfg, run') && Continues(run, run', {q})
    ensures Exec(cfg, run').holder.None? && Exec(cfg, run').flights == Exec(cfg, run).flights - {q}
    decreases |todo|
  {
    var s := Exec(cfg, run);
    ReachableInv(cfg, run);
    var f := s.flights[q];
    if todo == {} {
      run' := Take(cfg, run, if f.Clear? then ClearUnlock(q) else Unlock(q));
    } else {
      var k :| k in todo;
      var mid := Take(cfg, run, if f.Clear? then ClearKey(q, k) else Age(q, k));
      VisitShrinks(cfg, s, q, k);
      run' := HolderFinishes(cfg, mid, q, todo - {k});
    }
  }

  lemma {:induction false} VisitShrinks(cfg: Config, s: Sys, q: QueueKey, k: string)
    requires q in s.flights && k in Todo(s.flights[q])
    ensures var e := if s.flights[q].Clear? then ClearKey(q, k) else Age(q, k);
            && Enabled(s, e)
            && var s' := Step(cfg, s, e);
            && q in s'.flights && Todo(s'.flights[q]) == Todo(s.flights[q]) - {k}
            && s'.flights - {q} == s.flights - {q} && s'.holder == s.holder
  {
  }

  /** With the lock free, a worker that is still firing fires the rest, takes the lock and finishes. */
  lemma {:induction false} WorkerFinishes(cfg: Config, run: seq<Event>, q: QueueKey, left: nat) returns (run': seq<Event>)
    requires Valid(cfg, run) && Exec(cfg, run).holder.None? && q in Exec(cfg, run).flights
    requires var f := Exec(cfg, run).flights[q]; f.Deliver? && f.phase.Firing? && f.phase.next + left == |f.alerts|
    ensures Valid(cfg, run') && Continues(run, run', {q})
    ensures Exec(cfg, run').holder.None? && Exec(cfg, run').flights == Exec(cfg, run).flights - {q}
    decreases left
  {
    var s := Exec(cfg, run);
    var f := s.flights[q];
    if left == 0 {
      var mid := Take(cfg, run, Lock(q));
      assert Exec(cfg, mid).flights - {q} == s.flights - {q};
      run' := HolderFinishes(cfg, mid, q, Todo(Exec(cfg, mid).flights[q]));
    } else {
      var mid := Take(cfg, run, Fire(q, f.alerts[f.phase.next], Clock(s, q)));
      assert Exec(cfg, mid).flights - {q} == s.flights - {q};
      run' := WorkerFinishes(cfg, mid, q, left - 1);
    }
  }

  /** From every state of every run the workers under way can all finish, whatever they are doing and
      whoever holds the lock. */
  lemma {:induction false} QuiescenceReachable(cfg: Config, run: seq<Event>) returns (run': seq<Event>)
    requires Valid(cfg, run)
    ensures Valid(cfg, run') && Continues(run, run', Exec(cfg, run).flights.Keys)
    ensures Exec(cfg, run').flights == map[] && Exec(cfg, run').holder.None?
    decreases |Exec(cfg, run).flights|
  {
    var s := Exec(cfg, run);
    ReachableInv(cfg, run);
    if s.flights == map[] {
      run' := run;
    } else {
      var q, mid := OneFinishes(cfg, run);
      assert |s.flights - {q}| < |s.flights|;
      run' := QuiescenceReachable(cfg, mid);
    }
  }

  lemma {:induction false} OneFinishes(cfg: Config, run: seq<Event>) returns (q: QueueKey, run': seq<Event>)
    requires Valid(cfg, run) && Inv(Exec(cfg, run)) && Exec(cfg, run).flights != map[]
    ensures q in Exec(cfg, run).flights && Valid(cfg, run') && Continues(run, run', {q})
    ensures Exec(cfg, run').flights == Exec(cfg, run).flights - {q}
  {
    var s := Exec(cfg, run);
    if s.holder.Some? {
      q := s.holder.value;
      run' := HolderFinishes(cfg, run, q, Todo(s.flights[q]));
    } else {
      q :| q in s.flights;
      assert FlightOk(s, q);
      run' := WorkerFinishes(cfg, run, q, |s.flights[q].alerts| - s.flights[q].phase.next);
    }
  }

  /** Taking the controller's lock. */
  predicate TakesLock(e: Event)
  {
    e.Lock? || e.ClearLock?
  }

  /** Workers on different objects hold each other up only at the lock: a step that one can take is
      still there after any step of another, unless both are about to take the lock. */
  lemma {:induction false} OthersDoNotInterfere(cfg: Config, s: Sys, e: Event, other: Event)
    requires Enabled(s, e) && Enabled(s, other) && e.q != other.q
    requires !TakesLock(e) || !TakesLock(other)
    ensures Enabled(Step(cfg, s, other), e)
  {
  }
}
