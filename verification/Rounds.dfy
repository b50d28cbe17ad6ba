/** What happens to ONE alert key over the successive reconciles of its object.

    A round is one completed `deliver` of the owning object: the instant read on entry
    (internal/watcher/controller.go:340) and the instants at which the deduper was asked to fire
    this key (none when the alert was absent). `Run` folds the rounds with the code's own two
    rules, the deduper's (internal/alert/alert.go:79-108) and the locked update's
    (internal/watcher/controller.go:354-367); the theorems say what that fold means. */
module Rounds {
  import opened Base

  /** resend: minimum gap between two deliveries of one key; grace: how long an alert must stay
      absent before its record is dropped. */
  datatype Config = Config(resend: int, grace: int)

  /** The grace period the controller settles on (internal/watcher/controller.go:117-123). */
  function EffectiveGrace(clearGracePeriod: int, resyncPeriod: int): (grace: int)
    ensures grace > 0
    ensures clearGracePeriod > 0 ==> grace == clearGracePeriod
    ensures clearGracePeriod <= 0 ==> grace >= 90_000_000_000 && grace >= 2 * resyncPeriod
    ensures clearGracePeriod <= 0 ==> grace == 90_000_000_000 || grace == 2 * resyncPeriod
  {
    if clearGracePeriod > 0 then clearGracePeriod
    else if 2 * resyncPeriod < 90_000_000_000 then 90_000_000_000
    else 2 * resyncPeriod
  }

  datatype Round = Round(at: Time, fires: seq<Time>)

  /** seen: the deduper's record; tracked: the entry in the active map (0 = firing, otherwise the
      instant clearing began); delivered: instants at which the key reached the sinks. */
  datatype KeyState = KeyState(seen: Option<Time>, tracked: Option<Time>, delivered: seq<Time>)

  const FRESH := KeyState(None, None, [])

  predicate Suppressed(resend: int, seen: Option<Time>, now: Time)
  {
    seen.Some? && now - seen.value < resend
  }

  function FireOnce(resend: int, st: KeyState, now: Time): (st': KeyState)
  {
    if Suppressed(resend, st.seen, now) then st
    else st.(seen := Some(now), delivered := st.delivered + [now])
  }

  function FireAll(resend: int, st: KeyState, fires: seq<Time>): (st': KeyState)
  {
    if fires == [] then st
    else FireOnce(resend, FireAll(resend, st, fires[..|fires|-1]), fires[|fires|-1])
  }

  /** The new mark of a tracked key that the current reconcile did not report; None = forgotten. */
  function AgeMark(grace: int, mark: Time, now: Time): (mark': Option<Time>)
  {
    if mark == 0 then Some(now)
    else if now - mark >= grace then None
    else Some(mark)
  }

  function Settle(grace: int, st: KeyState, present: bool, now: Time): (st': KeyState)
  {
    if present then st.(tracked := Some(0))
    else if st.tracked.None? then st
    else
      var mark' := AgeMark(grace, st.tracked.value, now);
      st.(tracked := mark', seen := if mark'.None? then None else st.seen)
  }

  function Run(cfg: Config, rounds: seq<Round>): (st: KeyState)
  {
    if rounds == [] then FRESH
    else
      var r := rounds[|rounds|-1];
      Settle(cfg.grace, FireAll(cfg.resend, Run(cfg, rounds[..|rounds|-1]), r.fires), r.fires != [], r.at)
  }

  // ------------------------------------------------------------ time stamps

  predicate Sorted(s: seq<Time>)
  {
    forall i, j :: 0 <= i < j < |s| ==> s[i] <= s[j]
  }

  /** Consecutive instants are at most gap apart. */
  ghost predicate AtMostApart(s: seq<Time>, gap: int)
  {
    forall i, j :: 0 <= i < j < |s| && j == i + 1 ==> s[j] - s[i] <= gap
  }

  /** The instants at which the rounds were entered. */
  function Entries(rounds: seq<Round>): seq<Time>
  {
    seq(|rounds|, i requires 0 <= i < |rounds| => rounds[i].at)
  }

  /** The last instant read on behalf of the round. */
  function End(r: Round): Time
  {
    if r.fires == [] then r.at else r.fires[|r.fires|-1]
  }

  predicate WellTimedRound(r: Round)
  {
    0 < r.at && Sorted(r.fires) && forall i :: 0 <= i < |r.fires| ==> r.at <= r.fires[i]
  }

  function EndOfRun(rounds: seq<Round>): Time
  {
    if rounds == [] then 0 else End(rounds[|rounds|-1])
  }

  /** Clock readings made for one object never go backwards. */
  predicate WellTimed(rounds: seq<Round>)
  {
    rounds == [] ||
    (var r := rounds[|rounds|-1];
     && WellTimed(rounds[..|rounds|-1])
     && WellTimedRound(r)
     && EndOfRun(rounds[..|rounds|-1]) <= r.at)
  }

  lemma {:induction false} WellTimedOrder(rounds: seq<Round>, i: nat, j: nat)
    requires WellTimed(rounds)
    requires i <= j < |rounds|
    ensures 0 < rounds[i].at <= rounds[j].at
    ensures i < j ==> End(rounds[i]) <= rounds[j].at
    ensures WellTimedRound(rounds[i]) && rounds[i].at <= End(rounds[i])
  {
    var init := rounds[..|rounds|-1];
    if j < |rounds| - 1 {
      WellTimedOrder(init, i, j);
      assert init[i] == rounds[i] && init[j] == rounds[j];
    } else if i < j {
      WellTimedOrder(init, i, |init| - 1);
      assert init[i] == rounds[i];
      WellTimedOrder(init, |init| - 1, |init| - 1);
    }
  }

  lemma {:induction false} WellTimedPrefix(rounds: seq<Round>, n: nat)
    requires WellTimed(rounds) && n <= |rounds|
    ensures WellTimed(rounds[..n])
  {
    if n < |rounds| {
      WellTimedPrefix(rounds[..|rounds|-1], n);
      assert rounds[..|rounds|-1][..n] == rounds[..n];
    } else {
      assert rounds[..n] == rounds;
    }
  }

  lemma {:induction false} FireAllKeepsTracked(resend: int, st: KeyState, fires: seq<Time>)
    ensures FireAll(resend, st, fires).tracked == st.tracked
    ensures FireAll(resend, st, fires).seen.Some? <==> st.seen.Some? || fires != []
  {
    if fires != [] {
      FireAllKeepsTracked(resend, st, fires[..|fires|-1]);
    }
  }

  // ------------------------------------------- when a record exists, and why

  /** Index at which the trailing run of rounds without the alert starts. */
  function AbsentFrom(rounds: seq<Round>): (i: nat)
    ensures i <= |rounds|
    ensures forall j :: i <= j < |rounds| ==> rounds[j].fires == []
    ensures i > 0 ==> rounds[i-1].fires != []
  {
    if rounds == [] then 0
    else if rounds[|rounds|-1].fires != [] then |rounds|
    else AbsentFrom(rounds[..|rounds|-1])
  }

  /** Declarative form of a key's entry in the active map: firing if the latest round reported it,
      clearing since the first round of the trailing absence otherwise, and gone once that absence
      has lasted the grace period (or if the key was never reported). */
  function TrackedSpec(grace: int, rounds: seq<Round>): (mark: Option<Time>)
  {
    var i := AbsentFrom(rounds);
    if i == 0 then None
    else if i == |rounds| then Some(0)
    else if rounds[|rounds|-1].at - rounds[i].at >= grace then None
    else Some(rounds[i].at)
  }

  /** The one stored instant agrees with scanning the whole history, and the deduper holds a record
      exactly for the keys the controller tracks. */
  lemma {:induction false} RunMatchesSpec(cfg: Config, rounds: seq<Round>)
    requires cfg.grace > 0
    requires WellTimed(rounds)
    ensures Run(cfg, rounds).tracked == TrackedSpec(cfg.grace, rounds)
    ensures Run(cfg, rounds).seen.Some? <==> Run(cfg, rounds).tracked.Some?
  {
    if rounds != [] {
      var init, r := rounds[..|rounds|-1], rounds[|rounds|-1];
      RunMatchesSpec(cfg, init);
      FireAllKeepsTracked(cfg.resend, Run(cfg, init), r.fires);
      var i := AbsentFrom(init);
      if r.fires == [] && 0 < i < |init| {
        WellTimedOrder(rounds, i, |init| - 1);
        WellTimedOrder(rounds, |init| - 1, |init|);
        assert init[i] == rounds[i] && init[|init|-1] == rounds[|init|-1];
      }
    }
  }

  /** The seen/tracked agreement needs neither ordered clocks nor a positive grace period. */
  lemma {:induction false} RecordIffTracked(cfg: Config, rounds: seq<Round>)
    ensures Run(cfg, rounds).seen.Some? <==> Run(cfg, rounds).tracked.Some?
  {
    if rounds != [] {
      var init, r := rounds[..|rounds|-1], rounds[|rounds|-1];
      RecordIffTracked(cfg, init);
      FireAllKeepsTracked(cfg.resend, Run(cfg, init), r.fires);
    }
  }

  /** rounds[i..] is an unbroken run without the alert, right after a round with it. */
  ghost predicate AbsenceStartsAt(rounds: seq<Round>, i: int)
  {
    && 0 < i < |rounds|
    && rounds[i-1].fires != []
    && forall j :: i <= j < |rounds| ==> rounds[j].fires == []
  }

  /** Round r, coming after rounds, closes an absence that has lasted the grace period. */
  ghost predicate ClosesAbsence(grace: int, rounds: seq<Round>, r: Round)
  {
    r.fires == [] && exists i :: AbsenceStartsAt(rounds, i) && r.at - rounds[i].at >= grace
  }

  /** A record is dropped by a round exactly when that round closes an unbroken run of rounds
      without the alert, following a round with it, whose first and last are grace apart. */
  lemma {:induction false} ForgottenExactlyAfterAbsence(cfg: Config, rounds: seq<Round>, r: Round)
    requires cfg.grace > 0
    requires WellTimed(rounds + [r])
    requires Run(cfg, rounds).seen.Some?
    ensures Run(cfg, rounds + [r]).seen.None? <==> ClosesAbsence(cfg.grace, rounds, r)
  {
    var all := rounds + [r];
    assert all[..|all|-1] == rounds;
    RunMatchesSpec(cfg, rounds);
    RunMatchesSpec(cfg, all);
    var i := AbsentFrom(rounds);
    if r.fires == [] {
      assert AbsentFrom(all) == i;
    }
    if ClosesAbsence(cfg.grace, rounds, r) {
      var i' :| AbsenceStartsAt(rounds, i') && r.at - rounds[i'].at >= cfg.grace;
      assert i == i';
      assert all[i] == rounds[i];
    }
    if Run(cfg, all).seen.None? {
      assert r.fires == [];
      assert 0 < i < |all|;
      if i < |rounds| {
        assert all[i] == rounds[i];
        assert AbsenceStartsAt(rounds, i);
      }
    }
  }

  /** The instants on either side of p are at most gap apart. */
  ghost predicate CrossedWithin(s: seq<Time>, p: Time, gap: int)
  {
    forall i, j :: 0 <= i < j < |s| && j == i + 1 && s[i] <= p < s[j] ==> s[j] - s[i] <= gap
  }

  /** Bounded clearing. If every round after instant p lacks the alert, the first of them comes at most
      gap after the one before and the present is at most gap after the last, the record is gone by
      p + grace + 2 * gap, and the next firing of the key is delivered at once. */
  lemma {:induction false} BoundedClearing(cfg: Config, rounds: seq<Round>, p: Time, gap: int, now: Time, next: Time)
    requires cfg.grace > 0
    requires WellTimed(rounds) && rounds != []
    requires forall i :: 0 <= i < |rounds| && rounds[i].at > p ==> rounds[i].fires == []
    requires CrossedWithin(Entries(rounds), p, gap)
    requires 0 <= now - rounds[|rounds|-1].at <= gap
    requires now >= p + cfg.grace + 2 * gap
    ensures Run(cfg, rounds).seen.None? && Run(cfg, rounds).tracked.None?
    ensures FireOnce(cfg.resend, Run(cfg, rounds), next).delivered == Run(cfg, rounds).delivered + [next]
  {
    RunMatchesSpec(cfg, rounds);
    var i := AbsentFrom(rounds);
    if i > 0 {
      assert rounds[i-1].at <= p;
      if i < |rounds| && p < rounds[i].at {
        assert Entries(rounds)[i] - Entries(rounds)[i-1] <= gap;
      }
    }
  }

  // ------------------------------------------------------ spacing of deliveries

  predicate Gaps(s: seq<Time>, m: int)
  {
    forall i, j :: 0 <= i < j < |s| ==> s[j] - s[i] >= m
  }

  /** What is known about a key's deliveries at instant now, while a round is being fired. */
  ghost predicate Spaced(cfg: Config, st: KeyState, now: Time)
  {
    && Sorted(st.delivered)
    && Gaps(st.delivered, Min(cfg.resend, cfg.grace))
    && (st.seen.Some? ==> st.delivered != [] && st.seen.value == st.delivered[|st.delivered|-1])
    && (st.delivered != [] ==>
          var d := st.delivered[|st.delivered|-1];
          d <= now && (st.seen.None? ==> d + cfg.grace <= now))
  }

  /** Between rounds: clearing never started before the latest delivery. */
  ghost predicate MarkAfterDelivery(st: KeyState)
  {
    st.tracked.Some? && st.tracked.value != 0 && st.delivered != [] ==>
      st.delivered[|st.delivered|-1] <= st.tracked.value
  }

  lemma {:induction false} GapsAppend(s: seq<Time>, t: Time, m: int)
    requires Sorted(s) && Gaps(s, m)
    requires s != [] ==> s[|s|-1] <= t && t - s[|s|-1] >= m
    ensures Sorted(s + [t]) && Gaps(s + [t], m)
  {
    forall i, j | 0 <= i < j < |s + [t]|
      ensures (s + [t])[i] <= (s + [t])[j] && (s + [t])[j] - (s + [t])[i] >= m
    {
      if j == |s| {
        assert s[i] <= s[|s|-1];
      }
    }
  }

  lemma {:induction false} FireOnceSpaced(cfg: Config, st: KeyState, before: Time, now: Time)
    requires Spaced(cfg, st, before)
    requires before <= now
    ensures Spaced(cfg, FireOnce(cfg.resend, st, now), now)
  {
    if !Suppressed(cfg.resend, st.seen, now) {
      GapsAppend(st.delivered, now, Min(cfg.resend, cfg.grace));
    }
  }

  lemma {:induction false} FireAllSpaced(cfg: Config, st: KeyState, start: Time, fires: seq<Time>)
    requires Spaced(cfg, st, start)
    requires Sorted(fires) && forall i :: 0 <= i < |fires| ==> start <= fires[i]
    ensures Spaced(cfg, FireAll(cfg.resend, st, fires), if fires == [] then start else fires[|fires|-1])
  {
    if fires != [] {
      var init, now := fires[..|fires|-1], fires[|fires|-1];
      FireAllSpaced(cfg, st, start, init);
      var before := if init == [] then start else init[|init|-1];
      assert before <= now;
      FireOnceSpaced(cfg, FireAll(cfg.resend, st, init), before, now);
    }
  }

  /** The locked update keeps the spacing facts; a round without the alert reads no clock after its
      entry, so it ends where it began. */
  lemma {:induction false} SettleSpaced(cfg: Config, st: KeyState, present: bool, at: Time, end: Time)
    requires Spaced(cfg, st, end)
    requires !present ==> end == at && MarkAfterDelivery(st)
    ensures Spaced(cfg, Settle(cfg.grace, st, present, at), end)
    ensures MarkAfterDelivery(Settle(cfg.grace, st, present, at))
  {
  }

  lemma {:induction false} RunSpaced(cfg: Config, rounds: seq<Round>)
    requires WellTimed(rounds)
    ensures Spaced(cfg, Run(cfg, rounds), EndOfRun(rounds))
    ensures MarkAfterDelivery(Run(cfg, rounds))
  {
    if rounds != [] {
      var init, r := rounds[..|rounds|-1], rounds[|rounds|-1];
      RunSpaced(cfg, init);
      var st := Run(cfg, init);
      FireAllSpaced(cfg, st, r.at, r.fires);
      SettleSpaced(cfg, FireAll(cfg.resend, st, r.fires), r.fires != [], r.at, End(r));
    }
  }

  lemma {:induction false} FireAllExtends(resend: int, st: KeyState, fires: seq<Time>)
    ensures st.delivered <= FireAll(resend, st, fires).delivered
    ensures fires != [] && st.seen.None? ==> st.delivered + [fires[0]] <= FireAll(resend, st, fires).delivered
  {
    if fires != [] {
      FireAllExtends(resend, st, fires[..|fires|-1]);
    }
  }

  /** While there is no record, rounds without the alert change nothing. */
  lemma {:induction false} NothingReported(cfg: Config, rounds: seq<Round>, from: nat)
    requires from <= |rounds| && Run(cfg, rounds[..from]).seen.None?
    requires forall i :: from <= i < |rounds| ==> rounds[i].fires == []
    ensures Run(cfg, rounds) == Run(cfg, rounds[..from])
  {
    if from == |rounds| {
      assert rounds[..from] == rounds;
    } else {
      var init := rounds[..|rounds|-1];
      assert init[..from] == rounds[..from];
      NothingReported(cfg, init, from);
      RecordIffTracked(cfg, init);
    }
  }

  /** From a point at which there is no record, whatever came before, the next delivery is the first
      firing of the next round that reports the key. */
  lemma {:induction false} FirstDelivery(cfg: Config, rounds: seq<Round>, from: nat, m: nat)
    requires from <= m < |rounds| && Run(cfg, rounds[..from]).seen.None?
    requires rounds[m].fires != [] && forall i :: from <= i < m ==> rounds[i].fires == []
    ensures Run(cfg, rounds[..m]) == Run(cfg, rounds[..from])
    ensures Run(cfg, rounds[..from]).delivered + [rounds[m].fires[0]] <= Run(cfg, rounds).delivered
  {
    var init, r := rounds[..|rounds|-1], rounds[|rounds|-1];
    assert init[..from] == rounds[..from];
    FireAllExtends(cfg.resend, Run(cfg, init), r.fires);
    if m < |init| {
      FirstDelivery(cfg, init, from, m);
      assert init[..m] == rounds[..m] && init[m] == rounds[m];
    } else {
      NothingReported(cfg, init, from);
      assert init == rounds[..m];
    }
  }

  // -------------------------------------------------------- bounded redelivery

  /** All instants at which the deduper was asked to fire the key, in order. */
  function Fires(rounds: seq<Round>): (fires: seq<Time>)
  {
    if rounds == [] then [] else Fires(rounds[..|rounds|-1]) + rounds[|rounds|-1].fires
  }

  lemma {:induction false} FireAllConcat(resend: int, st: KeyState, xs: seq<Time>, ys: seq<Time>)
    ensures FireAll(resend, st, xs + ys) == FireAll(resend, FireAll(resend, st, xs), ys)
  {
    if ys == [] {
      assert xs + ys == xs;
    } else {
      FireAllConcat(resend, st, xs, ys[..|ys|-1]);
      assert (xs + ys)[..|xs + ys|-1] == xs + ys[..|ys|-1];
    }
  }

  lemma {:induction false} PresentRunIsOneFiring(cfg: Config, before: seq<Round>, rounds: seq<Round>)
    requires rounds != []
    requires forall r :: r in rounds ==> r.fires != []
    ensures Run(cfg, before + rounds) == FireAll(cfg.resend, Run(cfg, before), Fires(rounds)).(tracked := Some(0))
  {
    var init, r := rounds[..|rounds|-1], rounds[|rounds|-1];
    assert (before + rounds)[..|before + rounds|-1] == before + init;
    assert r in rounds;
    if init == [] {
      assert before + init == before;
      assert Fires(rounds) == r.fires;
    } else {
      PresentRunIsOneFiring(cfg, before, init);
      FireAllConcat(cfg.resend, Run(cfg, before), Fires(init), r.fires);
      FireAllIgnoresTracked(cfg.resend, FireAll(cfg.resend, Run(cfg, before), Fires(init)), Some(0), r.fires);
    }
  }

  lemma {:induction false} FireAllIgnoresTracked(resend: int, st: KeyState, mark: Option<Time>, fires: seq<Time>)
    ensures FireAll(resend, st.(tracked := mark), fires) == FireAll(resend, st, fires).(tracked := mark)
  {
    if fires != [] {
      FireAllIgnoresTracked(resend, st, mark, fires[..|fires|-1]);
    }
  }

  /** The bounds on deliveries[from..] when the key is fired at least every gap. */
  ghost predicate Redelivered(resend: int, gap: int, delivered: seq<Time>, from: nat)
  {
    && from <= |delivered|
    && forall i, j :: from <= i < j < |delivered| && j == i + 1 ==>
                        resend <= delivered[j] - delivered[i] < AtLeastOneTick(resend) + gap
  }

  lemma {:induction false} FireAllRedelivers(resend: int, st: KeyState, fires: seq<Time>, gap: int)
    requires st.seen.Some? ==> st.delivered != [] && st.seen.value == st.delivered[|st.delivered|-1]
    requires fires != [] && Sorted(fires) && AtMostApart(fires, gap)
    ensures var st' := FireAll(resend, st, fires);
            && Redelivered(resend, gap, st'.delivered, |st.delivered|)
            && st'.delivered != []
            && st'.seen == Some(st'.delivered[|st'.delivered|-1])
            && fires[|fires|-1] - st'.seen.value < AtLeastOneTick(resend)
  {
    var init, t := fires[..|fires|-1], fires[|fires|-1];
    if init != [] {
      FireAllRedelivers(resend, st, init, gap);
      assert fires[|init|-1] == init[|init|-1];
      var mid := FireAll(resend, st, init);
      assert t - fires[|init|-1] <= gap;
      assert t - mid.seen.value < AtLeastOneTick(resend) + gap;
    }
  }

  /** A key that is firing, whose record is its latest delivery, whose deliveries from index `from` on
      are regular, and whose latest firing came too soon after the latest delivery to be due again. */
  ghost predicate UpToDate(resend: int, gap: int, st: KeyState, from: nat, lastFiring: Time)
  {
    && st.tracked == Some(0)
    && st.delivered != [] && st.seen == Some(st.delivered[|st.delivered|-1])
    && Redelivered(resend, gap, st.delivered, from)
    && lastFiring - st.seen.value < AtLeastOneTick(resend)
  }

  /** Bounded redelivery. While every round reports the alert and the deduper is asked at most gap
      apart, the record is never dropped, consecutive deliveries are at least resend and less than
      resend + gap apart, and the latest firing lies within resend of the latest delivery (with
      resend read as one tick when it is not positive). */
  lemma {:induction false} BoundedRedelivery(cfg: Config, before: seq<Round>, rounds: seq<Round>, gap: int)
    requires WellTimed(before + rounds)
    requires rounds != [] && forall r :: r in rounds ==> r.fires != []
    requires AtMostApart(Fires(rounds), gap)
    ensures UpToDate(cfg.resend, gap, Run(cfg, before + rounds), |Run(cfg, before).delivered|, EndOfRun(rounds))
  {
    WellTimedPrefix(before + rounds, |before|);
    assert (before + rounds)[..|before|] == before;
    RunSpaced(cfg, before);
    FiresSorted(before, rounds);
    PresentRunIsOneFiring(cfg, before, rounds);
    FireAllRedelivers(cfg.resend, Run(cfg, before), Fires(rounds), gap);
  }

  lemma {:induction false} SortedConcat(xs: seq<Time>, ys: seq<Time>, m: Time)
    requires Sorted(xs) && (xs != [] ==> xs[|xs|-1] <= m)
    requires Sorted(ys) && forall i :: 0 <= i < |ys| ==> m <= ys[i]
    ensures Sorted(xs + ys)
  {
    forall i, j | 0 <= i < j < |xs + ys| ensures (xs + ys)[i] <= (xs + ys)[j] {
      if i < |xs| <= j {
        assert xs[i] <= xs[|xs|-1];
      }
    }
  }

  lemma {:induction false} FiresSorted(before: seq<Round>, rounds: seq<Round>)
    requires WellTimed(before + rounds)
    requires forall r :: r in rounds ==> r.fires != []
    ensures Sorted(Fires(rounds))
    ensures rounds != [] ==> Fires(rounds) != [] && Fires(rounds)[|Fires(rounds)|-1] == EndOfRun(rounds)
  {
    if rounds != [] {
      var init, r := rounds[..|rounds|-1], rounds[|rounds|-1];
      var all := before + rounds;
      assert all[..|all|-1] == before + init;
      assert all[|all|-1] == r && r in rounds;
      FiresSorted(before, init);
      if init != [] {
        assert (before + init)[|before + init|-1] == init[|init|-1];
      }
      SortedConcat(Fires(init), r.fires, r.at);
    }
  }
}
