/** The sliding-window restart detector (internal/watcher/restart_tracker.go).

    It keeps, per container, the last restart count and the instants at which an increase was
    observed, pruned in place on every observation. */
module RestartTracker {
  import opened Base
  import opened Identity
  import Rounds

  /** Abstract value of one container's history. */
  datatype Observed = Observed(lastCount: int, increments: seq<Time>)

  const UNSEEN := Observed(0, [])

  /** Order-preserving filter: the instants strictly after cutoff. */
  function After(s: seq<Time>, cutoff: Time): (r: seq<Time>)
  {
    if s == [] then []
    else
      var t := s[|s|-1];
      After(s[..|s|-1], cutoff) + (if t > cutoff then [t] else [])
  }

  function Observe(window: int, h: Observed, count: int, now: Time): (h': Observed)
  {
    var increments := if count > h.lastCount then h.increments + [now] else h.increments;
    Observed(count, After(increments, now - window))
  }

  // --------------------------------------------- agreement with the full history

  /** One observation of a container since it was last forgotten. */
  datatype Obs = Obs(count: int, at: Time)

  function Replay(window: int, log: seq<Obs>): (h: Observed)
  {
    if log == [] then UNSEEN
    else Observe(window, Replay(window, log[..|log|-1]), log[|log|-1].count, log[|log|-1].at)
  }

  function LastCount(log: seq<Obs>): int
  {
    if log == [] then 0 else log[|log|-1].count
  }

  /** Instants of all observations, however old, whose count exceeded the one before (0 at first). */
  function Increases(log: seq<Obs>): (r: seq<Time>)
  {
    if log == [] then []
    else
      var init, o := log[..|log|-1], log[|log|-1];
      if o.count > LastCount(init) then Increases(init) + [o.at] else Increases(init)
  }

  /** Observations made in time order. */
  predicate InOrder(log: seq<Obs>)
  {
    |log| <= 1 || (InOrder(log[..|log|-1]) && log[|log|-2].at <= log[|log|-1].at)
  }

  lemma {:induction false} AfterSnoc(s: seq<Time>, t: Time, cutoff: Time)
    ensures After(s + [t], cutoff) == After(s, cutoff) + (if t > cutoff then [t] else [])
  {
    assert (s + [t])[..|s + [t]|-1] == s;
  }

  lemma {:induction false} AfterTwice(s: seq<Time>, early: Time, late: Time)
    requires early <= late
    ensures After(After(s, early), late) == After(s, late)
  {
    if s != [] {
      var init, t := s[..|s|-1], s[|s|-1];
      AfterTwice(init, early, late);
      if t > early {
        AfterSnoc(After(init, early), t, late);
      } else {
        assert After(s, early) == After(init, early);
      }
    }
  }

  /** The full history restricted to the window ending at now. */
  function Window(window: int, log: seq<Obs>, now: Time): (r: seq<Time>)
  {
    After(Increases(log), now - window)
  }

  lemma {:induction false} PrunedSnoc(s: seq<Time>, early: Time, late: Time, t: Time)
    requires early <= late
    ensures After(After(s, early) + [t], late) == After(s + [t], late)
  {
    AfterSnoc(After(s, early), t, late);
    AfterSnoc(s, t, late);
    AfterTwice(s, early, late);
  }

  lemma {:induction false} ObservePruned(window: int, h: Observed, all: seq<Time>, early: Time, o: Obs, all': seq<Time>)
    requires h.increments == After(all, early) && early <= o.at - window
    requires all' == if o.count > h.lastCount then all + [o.at] else all
    ensures Observe(window, h, o.count, o.at) == Observed(o.count, After(all', o.at - window))
  {
    PrunedAll(all, After(all, early), early, o.at - window, o.at, o.count > h.lastCount);
  }

  lemma {:induction false} PrunedAll(all: seq<Time>, pruned: seq<Time>, early: Time, late: Time, t: Time, rose: bool)
    requires pruned == After(all, early) && early <= late
    ensures After(if rose then pruned + [t] else pruned, late) == After(if rose then all + [t] else all, late)
  {
    if rose {
      PrunedSnoc(all, early, late, t);
    } else {
      AfterTwice(all, early, late);
    }
  }

  lemma {:induction false} ReplayLastCount(window: int, log: seq<Obs>)
    ensures Replay(window, log).lastCount == LastCount(log)
  {
  }

  /** Pruning never changes a verdict: the pruned list is the full history restricted to the window. */
  lemma {:induction false} PruningIsHarmless(window: int, log: seq<Obs>)
    requires log != [] && InOrder(log)
    ensures Replay(window, log).lastCount == LastCount(log)
    ensures Replay(window, log).increments == Window(window, log, log[|log|-1].at)
  {
    var init, o := log[..|log|-1], log[|log|-1];
    var early := if init == [] then o.at - window else init[|init|-1].at - window;
    if init != [] {
      PruningIsHarmless(window, init);
    }
    ReplayLastCount(window, init);
    ObservePruned(window, Replay(window, init), Increases(init), early, o, Increases(log));
  }

  // ------------------------------------------------ agreement with the real count

  /** counter(t) is the true restart count at instant t. */
  ghost predicate Monotone(counter: Time -> nat)
  {
    forall t, u :: t <= u ==> counter(t) <= counter(u)
  }

  ghost predicate Samples(log: seq<Obs>, counter: Time -> nat)
  {
    forall i :: 0 <= i < |log| ==> log[i].count == counter(log[i].at)
  }

  /** Between two observed increases the counter rises by at least their distance in the list. */
  ghost predicate Climbs(s: seq<Time>, counter: Time -> nat)
  {
    forall i, j :: 0 <= i <= j < |s| ==> s[i] <= s[j] && counter(s[j]) - counter(s[i]) >= j - i && counter(s[i]) >= i + 1
  }

  lemma {:induction false} ClimbSnoc(s: seq<Time>, t: Time, counter: Time -> nat)
    requires Climbs(s, counter)
    requires s == [] ==> counter(t) >= 1
    requires s != [] ==> s[|s|-1] <= t && counter(t) > counter(s[|s|-1])
    ensures Climbs(s + [t], counter)
  {
    var s' := s + [t];
    forall i, j | 0 <= i <= j < |s'|
      ensures s'[i] <= s'[j] && counter(s'[j]) - counter(s'[i]) >= j - i && counter(s'[i]) >= i + 1
    {
      if j < |s| {
        assert s'[i] == s[i] && s'[j] == s[j];
      } else if s != [] {
        var last := |s| - 1;
        assert counter(s[last]) >= last + 1;
        if i < |s| {
          assert s'[i] == s[i];
          assert counter(s[last]) - counter(s[i]) >= last - i;
        }
      }
    }
  }

  lemma {:induction false} IncreasesClimb(log: seq<Obs>, counter: Time -> nat)
    requires InOrder(log) && Monotone(counter) && Samples(log, counter)
    ensures Climbs(Increases(log), counter)
    ensures Increases(log) != [] ==> log != [] && Increases(log)[|Increases(log)|-1] <= log[|log|-1].at
  {
    if log != [] {
      var init, o := log[..|log|-1], log[|log|-1];
      IncreasesClimb(init, counter);
      var s := Increases(init);
      if init != [] {
        assert init[|init|-1].at <= o.at;
      }
      if o.count > LastCount(init) {
        if s != [] {
          assert counter(s[|s|-1]) <= counter(init[|init|-1].at);
        }
        ClimbSnoc(s, o.at, counter);
      }
    }
  }

  lemma {:induction false} NoneAfter(s: seq<Time>, cutoff: Time)
    requires forall i :: 0 <= i < |s| ==> s[i] <= cutoff
    ensures After(s, cutoff) == []
  {
    if s != [] {
      NoneAfter(s[..|s|-1], cutoff);
    }
  }

  /** On an ordered list the filter keeps a suffix: its last n instants, all after the cutoff. */
  lemma {:induction false} AfterKeepsSuffix(s: seq<Time>, cutoff: Time)
    requires Rounds.Sorted(s)
    ensures |After(s, cutoff)| <= |s|
    ensures After(s, cutoff) != [] ==> s[|s|-|After(s, cutoff)|] > cutoff
  {
    if s != [] {
      var init, t := s[..|s|-1], s[|s|-1];
      if t <= cutoff {
        NoneAfter(s, cutoff);
      } else {
        AfterKeepsSuffix(init, cutoff);
        assert |After(s, cutoff)| == |After(init, cutoff)| + 1;
      }
    }
  }

  /** The true count is at least n, and rose by at least n - 1 since an instant strictly inside the
      window that ends now. */
  ghost predicate BurstHappened(n: int, window: int, now: Time, counter: Time -> nat)
  {
    && counter(now) >= n
    && exists since :: now - window < since <= now && counter(now) - counter(since) >= n - 1
  }

  /** If n >= 1 increases are reported in the window, the true count rose by at least n - 1 since
      some instant strictly inside the window, and is at least n now. */
  lemma {:induction false} BurstIsReal(window: int, log: seq<Obs>, counter: Time -> nat)
    requires log != [] && InOrder(log) && Monotone(counter) && Samples(log, counter)
    requires Replay(window, log).increments != []
    ensures BurstHappened(|Replay(window, log).increments|, window, log[|log|-1].at, counter)
  {
    PruningIsHarmless(window, log);
    IncreasesAreReal(log, counter, log[|log|-1].at - window);
  }

  lemma {:induction false} IncreasesAreReal(log: seq<Obs>, counter: Time -> nat, cutoff: Time)
    requires log != [] && InOrder(log) && Monotone(counter) && Samples(log, counter)
    requires After(Increases(log), cutoff) != []
    ensures BurstHappened(|After(Increases(log), cutoff)|, log[|log|-1].at - cutoff, log[|log|-1].at, counter)
  {
    IncreasesClimb(log, counter);
    WindowClimbs(Increases(log), cutoff, log[|log|-1].at, counter);
  }

  lemma {:induction false} WindowClimbs(s: seq<Time>, cutoff: Time, now: Time, counter: Time -> nat)
    requires Climbs(s, counter) && Monotone(counter)
    requires After(s, cutoff) != [] && s != [] && s[|s|-1] <= now
    ensures BurstHappened(|After(s, cutoff)|, now - cutoff, now, counter)
  {
    var n := |After(s, cutoff)|;
    assert 0 < n <= |s| && s[|s|-n] > cutoff by {
      AfterKeepsSuffix(s, cutoff);
    }
    ClimbingSuffix(s, n, cutoff, now, counter);
  }

  lemma {:induction false} ClimbingSuffix(s: seq<Time>, n: nat, cutoff: Time, now: Time, counter: Time -> nat)
    requires Climbs(s, counter) && Monotone(counter)
    requires 0 < n <= |s| && s[|s|-n] > cutoff && s[|s|-1] <= now
    ensures BurstHappened(n, now - cutoff, now, counter)
  {
    var first, last := |s| - n, |s| - 1;
    assert s[first] <= s[last] && counter(s[last]) - counter(s[first]) >= last - first;
    assert s[last] <= s[last] && counter(s[last]) >= last + 1;
    assert counter(s[last]) <= counter(now);
    assert cutoff < s[first] <= now && counter(now) - counter(s[first]) >= n - 1;
  }

  // ------------------------------------------- when the reported number is right

  /** counter is a possible course of the true restart count, given what was observed. */
  ghost predicate Fits(log: seq<Obs>, counter: Time -> nat)
  {
    Monotone(counter) && Samples(log, counter)
  }

  /** At least n restarts inside the window, which is made of the instants after now - window, up to
      now. */
  ghost predicate RoseBy(n: int, window: int, now: Time, counter: Time -> nat)
  {
    counter(now) - counter(now - window) >= n
  }

  /** Index of the first observation from cutoff on. */
  function FirstFrom(log: seq<Obs>, cutoff: Time): (i: nat)
    ensures i <= |log| && forall j :: 0 <= j < i ==> log[j].at < cutoff
    ensures i < |log| ==> log[i].at >= cutoff
  {
    if log == [] then 0
    else
      var i := FirstFrom(log[..|log|-1], cutoff);
      if i < |log| - 1 || log[i].at >= cutoff then i else |log|
  }

  lemma {:induction false} OrderedFrom(log: seq<Obs>, i: nat, j: nat)
    requires InOrder(log) && i <= j < |log|
    ensures log[i].at <= log[j].at
  {
    if i < j {
      if j == |log| - 1 {
        OrderedFrom(log[..|log|-1], i, j - 1);
      } else {
        OrderedFrom(log[..|log|-1], i, j);
      }
    }
  }

  /** The rise from the first observation on or after the cutoff to the last observation. */
  function ObservedRise(window: int, log: seq<Obs>): (rise: int)
    requires log != [] && window >= 0
  {
    LastCount(log) - log[FirstFrom(log, log[|log|-1].at - window)].count
  }

  /** The same course, with everything that may have happened between the cutoff and the first
      observation from it on moved to the cutoff itself, which lies outside the window. */
  function Earliest(counter: Time -> nat, cutoff: Time, level: nat): (counter': Time -> nat)
  {
    t => if t >= cutoff && counter(t) < level then level else counter(t)
  }

  lemma {:induction false} EarliestFits(log: seq<Obs>, counter: Time -> nat, cutoff: Time)
    requires InOrder(log) && Fits(log, counter) && FirstFrom(log, cutoff) < |log|
    ensures Fits(log, Earliest(counter, cutoff, log[FirstFrom(log, cutoff)].count))
  {
    var i := FirstFrom(log, cutoff);
    forall j | i <= j < |log| ensures counter(log[j].at) >= log[i].count {
      OrderedFrom(log, i, j);
    }
  }

  /** "Restarted n times within the window" is true of every course of the count that fits what was
      observed, if and only if the count rose by n from the first observation on or after the cutoff to
      the last. */
  lemma {:induction false} RestartedTimesIff(window: int, log: seq<Obs>, course: Time -> nat, n: int)
    requires log != [] && window >= 0 && InOrder(log) && Fits(log, course)
    ensures (forall counter: Time -> nat :: Fits(log, counter) ==> RoseBy(n, window, log[|log|-1].at, counter)) <==>
            ObservedRise(window, log) >= n
  {
    var now, cutoff := log[|log|-1].at, log[|log|-1].at - window;
    var i := FirstFrom(log, cutoff);
    OrderedFrom(log, i, |log| - 1);
    if ObservedRise(window, log) >= n {
      forall counter: Time -> nat | Fits(log, counter) ensures RoseBy(n, window, now, counter) {
        assert counter(cutoff) <= counter(log[i].at);
      }
    } else {
      var worst := Earliest(course, cutoff, log[i].count);
      EarliestFits(log, course, cutoff);
      assert worst(now) == LastCount(log);
      assert !RoseBy(n, window, now, worst);
    }
  }

  /** No observation lies on the cutoff, and the first after it is itself counted as an increase. */
  predicate EntersRising(window: int, log: seq<Obs>)
    requires log != [] && window >= 0
  {
    var cutoff := log[|log|-1].at - window;
    var i := FirstFrom(log, cutoff);
    log[i].at > cutoff && log[i].count > LastCount(log[..i])
  }

  /** Number of increases observed after cutoff. */
  function Counted(log: seq<Obs>, cutoff: Time): (n: nat)
  {
    if log == [] then 0
    else
      var init, o := log[..|log|-1], log[|log|-1];
      Counted(init, cutoff) + (if o.count > LastCount(init) && o.at > cutoff then 1 else 0)
  }

  lemma {:induction false} CountedIsLength(log: seq<Obs>, cutoff: Time)
    ensures Counted(log, cutoff) == |After(Increases(log), cutoff)|
  {
    if log != [] {
      CountedIsLength(log[..|log|-1], cutoff);
      AfterSnoc(Increases(log[..|log|-1]), log[|log|-1].at, cutoff);
    }
  }

  /** Observed counts never go down. */
  predicate Rising(log: seq<Obs>)
  {
    |log| <= 1 || (Rising(log[..|log|-1]) && log[|log|-2].count <= log[|log|-1].count)
  }

  lemma {:induction false} SamplesRise(log: seq<Obs>, counter: Time -> nat)
    requires InOrder(log) && Fits(log, counter)
    ensures Rising(log)
  {
    if |log| > 1 {
      SamplesRise(log[..|log|-1], counter);
      assert counter(log[|log|-2].at) <= counter(log[|log|-1].at);
    }
  }

  /** Upper bound on the increases counted after cutoff, given an observation that none after cutoff
      precedes. */
  function RiseBound(log: seq<Obs>, i: nat, cutoff: Time): (bound: int)
    requires i < |log|
  {
    LastCount(log) - log[i].count + (if log[i].at > cutoff && log[i].count > LastCount(log[..i]) then 1 else 0)
  }

  lemma {:induction false} RiseBoundSnoc(log: seq<Obs>, i: nat, cutoff: Time)
    requires i < |log| - 1
    ensures RiseBound(log, i, cutoff) == RiseBound(log[..|log|-1], i, cutoff) + log[|log|-1].count - LastCount(log[..|log|-1])
  {
    assert log[..|log|-1][..i] == log[..i];
  }

  lemma {:induction false} RiseStep(log: seq<Obs>, i: nat, cutoff: Time)
    requires i < |log| - 1 && LastCount(log[..|log|-1]) <= log[|log|-1].count
    requires Counted(log[..|log|-1], cutoff) <= RiseBound(log[..|log|-1], i, cutoff)
    ensures Counted(log, cutoff) <= RiseBound(log, i, cutoff)
  {
    RiseBoundSnoc(log, i, cutoff);
  }

  lemma {:induction false} RiseCoversIncreases(log: seq<Obs>, i: nat, cutoff: Time)
    requires Rising(log) && i < |log| && forall j :: 0 <= j < i ==> log[j].at <= cutoff
    ensures Counted(log, cutoff) <= RiseBound(log, i, cutoff)
  {
    if i == |log| - 1 {
      NoneBefore(log[..|log|-1], cutoff);
    } else {
      RiseCoversIncreases(log[..|log|-1], i, cutoff);
      RiseStep(log, i, cutoff);
    }
  }

  lemma {:induction false} NoneBefore(log: seq<Obs>, cutoff: Time)
    requires forall j :: 0 <= j < |log| ==> log[j].at <= cutoff
    ensures Counted(log, cutoff) == 0
  {
    if log != [] {
      NoneBefore(log[..|log|-1], cutoff);
    }
  }

  lemma {:induction false} CountedAtMostOneTooMany(window: int, log: seq<Obs>)
    requires log != [] && window >= 0 && Rising(log)
    ensures Counted(log, log[|log|-1].at - window) <= ObservedRise(window, log) + (if EntersRising(window, log) then 1 else 0)
  {
    var cutoff := log[|log|-1].at - window;
    RiseCoversIncreases(log, FirstFrom(log, cutoff), cutoff);
  }

  lemma {:induction false} WindowIsCounted(window: int, log: seq<Obs>, now: Time)
    ensures |Window(window, log, now)| == Counted(log, now - window)
  {
    CountedIsLength(log, now - window);
  }

  lemma {:induction false} ReportedIsCounted(window: int, log: seq<Obs>)
    requires log != [] && InOrder(log)
    ensures |Replay(window, log).increments| == Counted(log, log[|log|-1].at - window)
  {
    var now := log[|log|-1].at;
    assert Replay(window, log).increments == Window(window, log, now) by {
      PruningIsHarmless(window, log);
    }
    WindowIsCounted(window, log, now);
  }

  /** The reported number is at most one too high, and it is right unless no observation lies on the
      cutoff and the first after it is itself an increase: a first sighting, or an increase whose
      restart may have been made before the window. */
  lemma {:induction false} ReportedAtMostOneTooMany(window: int, log: seq<Obs>)
    requires log != [] && window >= 0 && InOrder(log) && Rising(log)
    ensures var n := |Replay(window, log).increments|;
            n <= ObservedRise(window, log) + (if EntersRising(window, log) then 1 else 0)
  {
    ReportedIsCounted(window, log);
    CountedAtMostOneTooMany(window, log);
  }

  lemma {:induction false} ReportIsRight(window: int, log: seq<Obs>, course: Time -> nat)
    requires log != [] && window >= 0 && InOrder(log) && Fits(log, course) && !EntersRising(window, log)
    ensures forall counter: Time -> nat :: Fits(log, counter) ==>
              RoseBy(|Replay(window, log).increments|, window, log[|log|-1].at, counter)
  {
    SamplesRise(log, course);
    ReportedAtMostOneTooMany(window, log);
    RestartedTimesIff(window, log, course, |Replay(window, log).increments|);
  }

  // ---------------------------------------------- inputs on which it is too high

  /** n observations at successive instants, each one restart further than the one before. */
  function Stairs(start: Time, n: nat): (log: seq<Obs>)
  {
    seq(n, i requires 0 <= i < n => Obs(i + 1, start + i))
  }

  lemma {:induction false} StairsCounted(start: Time, n: nat, cutoff: Time)
    requires cutoff < start
    ensures InOrder(Stairs(start, n)) && Counted(Stairs(start, n), cutoff) == n
  {
    if n > 0 {
      assert Stairs(start, n)[..n-1] == Stairs(start, n - 1);
      StairsCounted(start, n - 1, cutoff);
    }
  }

  /** One old restart, then one more at every instant from start on, n in all. */
  function Climbing(start: Time, n: nat): (counter: Time -> nat)
    requires n > 0
  {
    t => if t <= start then 1 else if t >= start + n - 1 then n else t - start + 1
  }

  lemma {:induction false} ClimbingFits(start: Time, n: nat)
    requires n > 0
    ensures Fits(Stairs(start, n), Climbing(start, n))
  {
  }

  lemma {:induction false} ClimbingRise(start: Time, n: nat, window: int)
    requires 0 < n <= window
    ensures RoseBy(n - 1, window, start + n - 1, Climbing(start, n)) && !RoseBy(n, window, start + n - 1, Climbing(start, n))
  {
  }

  /** The bound n - 1 is attained for every n the window has room for: a container first seen with one
      old restart and then restarting at every instant is reported n times, and restarted n - 1 times. */
  lemma {:induction false} OneTooManyForEveryN(window: int, n: nat, start: Time)
    requires 0 < n <= window
    ensures var log, now := Stairs(start, n), start + n - 1;
            && log[n-1].at == now && InOrder(log) && Fits(log, Climbing(start, n))
            && |Replay(window, log).increments| == n
            && RoseBy(n - 1, window, now, Climbing(start, n)) && !RoseBy(n, window, now, Climbing(start, n))
  {
    StairsCounted(start, n, start + n - 1 - window);
    ReportedIsCounted(window, Stairs(start, n));
    ClimbingFits(start, n);
    ClimbingRise(start, n, window);
  }

  /** A first sighting of old restarts is reported although the count never moved. */
  lemma {:induction false} FirstSightingCounts(window: int, restarts: nat, now: Time)
    requires window > 0 && restarts > 0
    ensures var log, counter := [Obs(restarts, now)], (t: Time) => restarts;
            && InOrder(log) && Fits(log, counter)
            && |Replay(window, log).increments| == 1
            && !RoseBy(1, window, now, counter)
  {
    var log := [Obs(restarts, now)];
    assert log[..0] == [];
    assert Replay(window, []) == UNSEEN;
    AfterSnoc([], now, now - window);
    assert [] + [now] == [now];
  }

  /** So is a restart made before the window and noticed inside it. */
  lemma {:induction false} StaleIncreaseCounts(window: int, earlier: Time, now: Time)
    requires window > 0 && earlier < now - window
    ensures var log := [Obs(0, earlier), Obs(1, now)];
            var counter: Time -> nat := t => if t <= earlier then 0 else 1;
            && InOrder(log) && Fits(log, counter)
            && |Replay(window, log).increments| == 1
            && !RoseBy(1, window, now, counter)
  {
    var log := [Obs(0, earlier), Obs(1, now)];
    assert log[..1] == [log[0]] && log[..1][..0] == [];
    assert Replay(window, []) == UNSEEN;
    assert Replay(window, log[..1]) == UNSEEN;
    AfterSnoc([], now, now - window);
    assert [] + [now] == [now];
  }

  // --------------------------------------------- many containers, over a whole lifetime

  /** A container never seen has an empty history. */
  function HistoryOf(view: map<string, Observed>, key: string): (h: Observed)
  {
    if key in view then view[key] else UNSEEN
  }

  /** What remains when a pod's containers are dropped. */
  function WithoutPod(view: map<string, Observed>, podKey: string): (view': map<string, Observed>)
  {
    map k | k in view && !ContainerKeyMatchesPod(k, podKey) :: view[k]
  }

  /** One call of the tracker, in the order in which its lock was granted. */
  datatype Op = Note(key: string, count: int, at: Time) | Drop(key: string) | DropPod(podKey: string)

  /** The histories held after these calls. */
  function Views(window: int, ops: seq<Op>): (view: map<string, Observed>)
  {
    if ops == [] then map[]
    else
      var view := Views(window, ops[..|ops|-1]);
      match ops[|ops|-1]
      case Note(key, count, at) => view[key := Observe(window, HistoryOf(view, key), count, at)]
      case Drop(key) => view - {key}
      case DropPod(podKey) => WithoutPod(view, podKey)
  }

  /** The observations of one container since it was last dropped, read off the calls. */
  function LogOf(ops: seq<Op>, key: string): (log: seq<Obs>)
  {
    if ops == [] then []
    else
      var log := LogOf(ops[..|ops|-1], key);
      match ops[|ops|-1]
      case Note(k, count, at) => if k == key then log + [Obs(count, at)] else log
      case Drop(k) => if k == key then [] else log
      case DropPod(podKey) => if ContainerKeyMatchesPod(key, podKey) then [] else log
  }

  lemma {:induction false} NoteSnoc(window: int, ops: seq<Op>, all: seq<Op>, key: string, count: int, at: Time)
    requires all != [] && all[..|all|-1] == ops && all[|all|-1] == Note(key, count, at)
    ensures Views(window, all) == Views(window, ops)[key := Observe(window, HistoryOf(Views(window, ops), key), count, at)]
    ensures LogOf(all, key) == LogOf(ops, key) + [Obs(count, at)]
  {
  }

  lemma {:induction false} ReplaySnoc(window: int, log: seq<Obs>, o: Obs)
    ensures Replay(window, log + [o]) == Observe(window, Replay(window, log), o.count, o.at)
  {
    assert (log + [o])[..|log + [o]|-1] == log;
  }

  /** Whatever else the tracker was told, the history of a container is the replay of its own
      observations since it was last dropped. */
  lemma {:induction false} ViewsAreReplays(window: int, ops: seq<Op>, key: string)
    ensures HistoryOf(Views(window, ops), key) == Replay(window, LogOf(ops, key))
  {
    if ops != [] {
      var init := ops[..|ops|-1];
      ViewsAreReplays(window, init, key);
      match ops[|ops|-1]
      case Note(k, count, at) => ReplaySnoc(window, LogOf(init, key), Obs(count, at));
      case Drop(_) =>
      case DropPod(_) =>
    }
  }

  // ------------------------------------------------------------------ the code

  /** Compacts buf[..n] in place: writes into the array it is still reading. The write position never
      passes the read position, so no unread instant is lost. */
  method Prune(buf: array<Time>, n: nat, cutoff: Time) returns (kept: nat)
    requires n <= buf.Length
    modifies buf
    ensures kept <= n && buf[..kept] == After(old(buf[..n]), cutoff)
    ensures buf[n..] == old(buf[n..])
  {
    kept := 0;
    for i := 0 to n
      invariant kept <= i
      invariant buf[i..] == old(buf[i..])
      invariant buf[..kept] == After(old(buf[..i]), cutoff)
    {
      var t := buf[i];
      assert t == old(buf[i..])[0];
      AfterSnoc(old(buf[..i]), t, cutoff);
      assert old(buf[..i+1]) == old(buf[..i]) + [t];
      if t > cutoff {
        buf[kept] := t;
        kept := kept + 1;
      }
      assert buf[i+1..] == old(buf[i..])[1..];
    }
  }

  /** Go's append on a slice of length n: writes into spare capacity when there is some, otherwise
      moves the contents to a larger array. */
  method Append(buf: array<Time>, n: nat, t: Time) returns (buf': array<Time>)
    requires n <= buf.Length
    modifies buf
    ensures n < buf'.Length && buf'[..n+1] == old(buf[..n]) + [t]
    ensures buf' == buf || (fresh(buf') && unchanged(buf))
  {
    if n < buf.Length {
      buf[n] := t;
      buf' := buf;
    } else {
      buf' := new Time[2 * n + 1];
      forall i | 0 <= i < n {
        buf'[i] := buf[i];
      }
      buf'[n] := t;
    }
  }

  /** A stored history: the slice of instants is the first len cells of its backing array. */
  datatype Slot = Slot(lastCount: int, buf: array<Time>, len: nat)

  /** The part of observe that works on one history: append if the count rose, then prune. */
  method Update(h: Slot, count: int, now: Time, window: int) returns (h': Slot)
    requires h.len <= h.buf.Length
    modifies h.buf
    ensures h'.len <= h'.buf.Length
    ensures Observed(h'.lastCount, h'.buf[..h'.len]) ==
            Observe(window, Observed(h.lastCount, old(h.buf[..h.len])), count, now)
    ensures h'.buf == h.buf || fresh(h'.buf)
  {
    var buf, n := h.buf, h.len;
    if count > h.lastCount {
      buf := Append(buf, n, now);
      n := n + 1;
    }
    var kept := Prune(buf, n, now - window);
    h' := Slot(count, buf, kept);
  }

  lemma {:induction false} SameButOne(m: map<string, Observed>, m': map<string, Observed>, key: string, h: Observed)
    requires m.Keys == m'.Keys && forall k :: k in m && k != key ==> m[k] == m'[k]
    ensures m[key := h] == m'[key := h]
  {
  }

  class Tracker {
    const window: int
    const threshold: int
    var seen: map<string, Slot>

    ghost function Buffers(): set<array<Time>>
      reads this
    {
      set k | k in seen :: seen[k].buf
    }

    /** No two containers share a backing array. */
    ghost predicate Valid()
      reads this, Buffers()
    {
      && (forall k :: k in seen ==> seen[k].len <= seen[k].buf.Length)
      && (forall k, k' :: k in seen && k' in seen && k != k' ==> seen[k].buf != seen[k'].buf)
    }

    ghost function Value(k: string): (h: Observed)
      requires Valid() && k in seen
      reads this, Buffers()
    {
      Observed(seen[k].lastCount, seen[k].buf[..seen[k].len])
    }

    ghost function View(): (m: map<string, Observed>)
      requires Valid()
      reads this, Buffers()
    {
      map k | k in seen :: Value(k)
    }

    constructor (window: int, threshold: int)
      ensures Valid() && seen == map[] && this.window == window && this.threshold == threshold
    {
      this.window := window;
      this.threshold := threshold;
      seen := map[];
    }

    /** Map lookup; a missing container reads as an empty history. */
    method Load(key: string) returns (h: Slot)
      requires Valid()
      ensures h.len <= h.buf.Length && Observed(h.lastCount, h.buf[..h.len]) == HistoryOf(View(), key)
      ensures forall k :: k in seen && k != key ==> seen[k].buf != h.buf
      ensures h.buf in Buffers() || fresh(h.buf)
    {
      if key in seen {
        h := seen[key];
      } else {
        var empty := new Time[0];
        h := Slot(0, empty, 0);
      }
    }

    /** The history of the container becomes Observe of what it was, no other container's history
        changes, and the verdict is about the pruned history. */
    method Observation(key: string, count: int, now: Time) returns (burst: bool, inWindow: nat)
      requires Valid()
      modifies this, Buffers()
      ensures Valid() && View() == old(View())[key := Observe(window, HistoryOf(old(View()), key), count, now)]
      ensures inWindow == |View()[key].increments| && (burst <==> inWindow >= threshold)
      ensures fresh(Buffers() - old(Buffers()))
    {
      var h := Load(key);
      ghost var before, was := View(), Observed(h.lastCount, h.buf[..h.len]);
      var h' := Update(h, count, now, window);
      ghost var between, becomes := View(), Observed(h'.lastCount, h'.buf[..h'.len]);
      OthersUnchanged(key);
      SameButOne(before, between, key, becomes);
      Save(key, h');
      assert View() == before[key := becomes];
      burst, inWindow := h'.len >= threshold, h'.len;
    }

    twostate lemma ViewFrame()
      requires old(Valid()) && unchanged(this) && unchanged(Buffers())
      ensures Valid() && View() == old(View())
    {
    }

    twostate lemma OthersUnchanged(key: string)
      requires old(Valid()) && Valid() && seen == old(seen)
      requires forall k :: k in seen && k != key ==> unchanged(seen[k].buf)
      ensures forall k :: k in seen && k != key ==> View()[k] == old(View())[k]
    {
    }

    /** Map store, of a history whose backing array no other container uses. */
    method Save(key: string, h: Slot)
      requires Valid() && h.len <= h.buf.Length
      requires forall k :: k in seen && k != key ==> seen[k].buf != h.buf
      modifies this`seen
      ensures Valid() && View() == old(View())[key := Observed(h.lastCount, h.buf[..h.len])]
      ensures Buffers() <= old(Buffers()) + {h.buf}
    {
      seen := seen[key := h];
    }

    method Forget(key: string)
      requires Valid()
      modifies this`seen
      ensures Valid() && View() == old(View()) - {key}
    {
      seen := seen - {key};
    }

    /** Deletes from the map it ranges over, in any order. */
    method ForgetPod(podKey: string)
      requires Valid()
      modifies this`seen
      ensures Valid() && View() == WithoutPod(old(View()), podKey)
    {
      var todo := seen.Keys;
      while todo != {}
        invariant todo <= old(seen).Keys
        invariant seen == map k | k in old(seen) && (k in todo || !ContainerKeyMatchesPod(k, podKey)) :: old(seen)[k]
        decreases |todo|
      {
        var k :| k in todo;
        if ContainerKeyMatchesPod(k, podKey) {
          seen := seen - {k};
        }
        todo := todo - {k};
      }
    }
  }

  /** ForgetPod drops the containers of that pod and of no other. */
  lemma {:induction false} ForgetPodIsExact(
      view: map<string, Observed>, namespace: string, name: string, namespace': string, name': string, container: string)
    requires '/' !in namespace && '/' !in name && '/' !in namespace' && '/' !in name'
    ensures var key := ContainerKey(namespace, name, container);
            Lookup(WithoutPod(view, PodKey(namespace', name')), key) ==
            if namespace == namespace' && name == name' then None else Lookup(view, key)
  {
    PrefixSelectsPod(namespace, name, container, namespace', name');
  }
}
