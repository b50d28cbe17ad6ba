/** The alert lifecycle with its fan-out (internal/alert/alert.go:35-39, 92-98).

    The deduper hands an alert downstream after releasing its lock, so alerts let through by different
    workers reach the sinks interleaved, and in different orders at different sinks. The worker that
    fired the alert walks the sinks in order and does nothing else meanwhile. The protocol of module
    Lifecycle is extended by these walks: an alert let through is a ticket, its index in the deduper's
    `sent`, and every visit of a sink is a step of its own. */
module Fanout {
  import opened Base
  import opened Identity
  import opened Rounds
  import opened Lifecycle
  import opened Simulation
  import opened Guarantees
  import Progress
  import Dedup

  /** progress[i]: how many sinks ticket i has reached; logs[j]: tickets received by sink j. */
  datatype Pipe = Pipe(sys: Sys, progress: seq<nat>, logs: seq<seq<nat>>)

  datatype Move = Do(event: Event) | Emit(ticket: nat)

  function Start(sinks: nat): (p: Pipe)
  {
    Pipe(INIT, [], seq(sinks, _ => []))
  }

  /** The worker of ticket i: the one that reconciles the object the alert is about. */
  function Worker(sent: seq<Dedup.Sent>, i: nat): (q: QueueKey)
    requires i < |sent|
  {
    Subject(sent[i].alert)
  }

  /** The worker of q is walking the sinks. */
  ghost predicate Busy(sinks: nat, p: Pipe, q: QueueKey)
    requires |p.progress| == |p.sys.dedup.sent|
  {
    exists i :: 0 <= i < |p.progress| && p.progress[i] < sinks && Worker(p.sys.dedup.sent, i) == q
  }

  ghost predicate Can(sinks: nat, p: Pipe, m: Move)
  {
    && |p.progress| == |p.sys.dedup.sent|
    && match m
       case Do(e) => Enabled(p.sys, e) && !Busy(sinks, p, e.q)
       case Emit(i) => i < |p.progress| && p.progress[i] < sinks && p.progress[i] < |p.logs|
  }

  ghost function After(cfg: Config, sinks: nat, p: Pipe, m: Move): (p': Pipe)
    requires Can(sinks, p, m)
  {
    match m
    case Do(e) =>
      var sys := Step(cfg, p.sys, e);
      p.(sys := sys, progress := if |sys.dedup.sent| > |p.progress| then p.progress + [0] else p.progress)
    case Emit(i) =>
      var j := p.progress[i];
      p.(progress := p.progress[i := j + 1], logs := p.logs[j := p.logs[j] + [i]])
  }

  ghost predicate Possible(cfg: Config, sinks: nat, ms: seq<Move>)
    decreases |ms|, 0
  {
    ms == [] || (Possible(cfg, sinks, ms[..|ms|-1]) && Can(sinks, State(cfg, sinks, ms[..|ms|-1]), ms[|ms|-1]))
  }

  ghost function State(cfg: Config, sinks: nat, ms: seq<Move>): (p: Pipe)
    requires Possible(cfg, sinks, ms)
    decreases |ms|, 1
  {
    if ms == [] then Start(sinks) else After(cfg, sinks, State(cfg, sinks, ms[..|ms|-1]), ms[|ms|-1])
  }

  /** The protocol's own part of a run. */
  function Events(ms: seq<Move>): (es: seq<Event>)
  {
    if ms == [] then []
    else
      Events(ms[..|ms|-1]) + match ms[|ms|-1] case Do(e) => [e] case Emit(_) => []
  }

  /** Walking the sinks does not disturb the protocol: every theorem about its runs applies. */
  lemma {:induction false} PipeRunsAreRuns(cfg: Config, sinks: nat, ms: seq<Move>)
    requires Possible(cfg, sinks, ms)
    ensures Valid(cfg, Events(ms)) && State(cfg, sinks, ms).sys == Exec(cfg, Events(ms))
  {
    if ms != [] {
      var init, m := ms[..|ms|-1], ms[|ms|-1];
      PipeRunsAreRuns(cfg, sinks, init);
      if m.Do? {
        assert Events(ms)[..|Events(ms)|-1] == Events(init);
      } else {
        assert Events(ms) == Events(init);
      }
    }
  }

  // ------------------------------------------------------------------ invariant

  /** Sink j holds a ticket exactly if the ticket has got past it, and then once. */
  ghost predicate ExactLog(progress: seq<nat>, log: seq<nat>, j: nat)
  {
    && NoRepeat(log)
    && (forall p :: 0 <= p < |log| ==> log[p] < |progress| && progress[log[p]] > j)
    && (forall i :: 0 <= i < |progress| && progress[i] > j ==> i in log)
  }

  /** Alerts of one worker appear in the log in the order in which it fired them. */
  ghost predicate WorkerOrder(sent: seq<Dedup.Sent>, log: seq<nat>)
  {
    forall p, p' :: 0 <= p < p' < |log| ==> InTurn(sent, log[p], log[p'])
  }

  ghost predicate InTurn(sent: seq<Dedup.Sent>, i: nat, i': nat)
  {
    i < |sent| && i' < |sent| && Worker(sent, i) == Worker(sent, i') ==> i < i'
  }

  /** A worker starts on an alert only when its previous one has reached every sink. */
  ghost predicate OneAtATime(sinks: nat, sent: seq<Dedup.Sent>, progress: seq<nat>)
  {
    && |progress| == |sent|
    && (forall i, i' :: 0 <= i < i' < |sent| && Worker(sent, i) == Worker(sent, i') ==> progress[i] == sinks)
    && (forall i :: 0 <= i < |progress| ==> progress[i] <= sinks)
  }

  ghost predicate FanInv(sinks: nat, sent: seq<Dedup.Sent>, progress: seq<nat>, logs: seq<seq<nat>>)
  {
    && OneAtATime(sinks, sent, progress)
    && |logs| == sinks
    && (forall j :: 0 <= j < sinks ==> ExactLog(progress, logs[j], j) && WorkerOrder(sent, logs[j]))
  }

  lemma {:induction false} EmitKeepsLog(sinks: nat, sent: seq<Dedup.Sent>, progress: seq<nat>, log: seq<nat>, i: nat)
    requires OneAtATime(sinks, sent, progress) && i < |progress| && progress[i] < sinks
    requires ExactLog(progress, log, progress[i]) && WorkerOrder(sent, log)
    ensures ExactLog(progress[i := progress[i] + 1], log + [i], progress[i])
    ensures WorkerOrder(sent, log + [i])
  {
    var j := progress[i];
    forall p | 0 <= p < |log| ensures log[p] != i && InTurn(sent, log[p], i) {
      assert progress[log[p]] > j;
    }
    assert (log + [i])[|log|] == i;
    forall x | 0 <= x < |progress| && progress[i := j + 1][x] > j ensures x in log + [i] {
      assert x == i || progress[x] > j;
    }
  }

  lemma {:induction false} EmitKeepsInv(sinks: nat, sent: seq<Dedup.Sent>, progress: seq<nat>, logs: seq<seq<nat>>, i: nat)
    requires FanInv(sinks, sent, progress, logs) && i < |progress| && progress[i] < sinks
    ensures var j := progress[i];
            FanInv(sinks, sent, progress[i := j + 1], logs[j := logs[j] + [i]])
  {
    var j := progress[i];
    var progress', logs' := progress[i := j + 1], logs[j := logs[j] + [i]];
    EmitKeepsLog(sinks, sent, progress, logs[j], i);
    forall j' | 0 <= j' < sinks ensures ExactLog(progress', logs'[j'], j') && WorkerOrder(sent, logs'[j']) {
      assert ExactLog(progress, logs[j'], j') && WorkerOrder(sent, logs[j']);
    }
  }

  /** A new ticket, of a worker none of whose tickets is under way. */
  lemma {:induction false} PassKeepsInv(
      sinks: nat, sent: seq<Dedup.Sent>, progress: seq<nat>, logs: seq<seq<nat>>, x: Dedup.Sent)
    requires FanInv(sinks, sent, progress, logs)
    requires forall i :: 0 <= i < |sent| && Worker(sent, i) == Subject(x.alert) ==> progress[i] == sinks
    ensures FanInv(sinks, sent + [x], progress + [0], logs)
  {
    var sent', progress' := sent + [x], progress + [0];
    forall j | 0 <= j < sinks ensures ExactLog(progress', logs[j], j) && WorkerOrder(sent', logs[j]) {
      assert ExactLog(progress, logs[j], j) && WorkerOrder(sent, logs[j]);
      forall p, p' | 0 <= p < p' < |logs[j]| ensures InTurn(sent', logs[j][p], logs[j][p']) {
        assert InTurn(sent, logs[j][p], logs[j][p']);
      }
    }
    forall i, i' | 0 <= i < i' < |sent'| && Worker(sent', i) == Worker(sent', i') ensures progress'[i] == sinks {
      assert Worker(sent', i) == Worker(sent, i);
      if i' < |sent| {
        assert Worker(sent', i') == Worker(sent, i');
      }
    }
  }

  /** What a step of the protocol hands downstream is about the object of the step. */
  lemma {:induction false} StepSendsOwn(cfg: Config, s: Sys, e: Event)
    requires Inv(s) && Enabled(s, e)
    ensures var sent' := Step(cfg, s, e).dedup.sent;
            || sent' == s.dedup.sent
            || (e.Fire? && Subject(e.alert) == e.q && sent' == s.dedup.sent + [Dedup.Sent(e.alert, e.at)])
  {
    OnlyFireCounts(cfg, s, e);
    if e.Fire? {
      assert FlightOk(s, e.q);
    }
  }

  lemma {:induction false} PipeInv(cfg: Config, sinks: nat, ms: seq<Move>)
    requires Possible(cfg, sinks, ms)
    ensures var p := State(cfg, sinks, ms); FanInv(sinks, p.sys.dedup.sent, p.progress, p.logs)
  {
    if ms != [] {
      var init := ms[..|ms|-1];
      PipeInv(cfg, sinks, init);
      PipeRunsAreRuns(cfg, sinks, init);
      ReachableInv(cfg, Events(init));
      MoveKeepsInv(cfg, sinks, State(cfg, sinks, init), ms[|ms|-1]);
    }
  }

  lemma {:induction false} MoveKeepsInv(cfg: Config, sinks: nat, p: Pipe, m: Move)
    requires Inv(p.sys) && FanInv(sinks, p.sys.dedup.sent, p.progress, p.logs) && Can(sinks, p, m)
    ensures var p' := After(cfg, sinks, p, m); FanInv(sinks, p'.sys.dedup.sent, p'.progress, p'.logs)
  {
    match m
    case Do(e) =>
      StepSendsOwn(cfg, p.sys, e);
      if Step(cfg, p.sys, e).dedup.sent != p.sys.dedup.sent {
        PassKeepsInv(sinks, p.sys.dedup.sent, p.progress, p.logs, Dedup.Sent(e.alert, e.at));
      }
    case Emit(i) => EmitKeepsInv(sinks, p.sys.dedup.sent, p.progress, p.logs, i);
  }

  // ----------------------------------------------------------- what a sink receives

  /** Nothing is on its way to the sinks. */
  ghost predicate Drained(sinks: nat, p: Pipe)
  {
    forall i :: 0 <= i < |p.progress| ==> p.progress[i] == sinks
  }

  /** With nothing on its way, every sink has received every alert ever let through, exactly once, each
      object's alerts in the order in which they were fired. */
  lemma {:induction false} EverySinkReceivesEverything(cfg: Config, sinks: nat, ms: seq<Move>, j: nat)
    requires Possible(cfg, sinks, ms) && j < sinks && Drained(sinks, State(cfg, sinks, ms))
    ensures var p := State(cfg, sinks, ms);
            && j < |p.logs| && NoRepeat(p.logs[j]) && WorkerOrder(p.sys.dedup.sent, p.logs[j])
            && (forall i :: i in p.logs[j] <==> 0 <= i < |p.sys.dedup.sent|)
  {
    PipeInv(cfg, sinks, ms);
    var p := State(cfg, sinks, ms);
    assert ExactLog(p.progress, p.logs[j], j) && WorkerOrder(p.sys.dedup.sent, p.logs[j]);
    forall i | 0 <= i < |p.sys.dedup.sent| ensures i in p.logs[j] {
      assert p.progress[i] > j;
    }
  }

  // ---------------------------------------------------- one key, seen from one sink

  predicate IsOf(sent: seq<Dedup.Sent>, k: string, i: nat)
  {
    i < |sent| && Key(sent[i].alert) == k
  }

  /** The instants stamped on the alerts of key k that a sink has received, in the order they came. */
  function Received(sent: seq<Dedup.Sent>, log: seq<nat>, k: string): (times: seq<Time>)
  {
    if log == [] then []
    else
      var i := log[|log|-1];
      Received(sent, log[..|log|-1], k) + (if IsOf(sent, k, i) then [sent[i].at] else [])
  }

  lemma {:induction false} ReceivedSnoc(sent: seq<Dedup.Sent>, log: seq<nat>, i: nat, k: string)
    ensures Received(sent, log + [i], k) == Received(sent, log, k) + (if IsOf(sent, k, i) then [sent[i].at] else [])
  {
    assert (log + [i])[..|log + [i]|-1] == log;
  }

  lemma {:induction false} ReceivedFrame(sent: seq<Dedup.Sent>, x: Dedup.Sent, log: seq<nat>, k: string)
    requires forall p :: 0 <= p < |log| ==> log[p] < |sent|
    ensures Received(sent + [x], log, k) == Received(sent, log, k)
  {
    if log != [] {
      ReceivedFrame(sent, x, log[..|log|-1], k);
    }
  }

  /** Alerts are let through only for well-formed objects, so a key has one worker. */
  lemma {:induction false} SentWellFormed(cfg: Config, es: seq<Event>)
    requires Valid(cfg, es)
    ensures forall x :: x in Exec(cfg, es).dedup.sent ==> WellFormed(Subject(x.alert))
  {
    if es != [] {
      var init, e := es[..|es|-1], es[|es|-1];
      SentWellFormed(cfg, init);
      ReachableInv(cfg, init);
      EventWellFormed(Exec(cfg, init), e);
      StepSendsOwn(cfg, Exec(cfg, init), e);
    }
  }

  lemma {:induction false} OneWorkerPerKey(sent: seq<Dedup.Sent>, k: string, i: nat)
    requires forall x :: x in sent ==> WellFormed(Subject(x.alert))
    requires IsOf(sent, k, i)
    ensures Worker(sent, i) == Owner(k)
  {
    assert sent[i] in sent;
    KeyRoundTrip(sent[i].alert);
  }

  /** Every ticket of k, except possibly `but`, has got past sink j. */
  ghost predicate AllPast(sent: seq<Dedup.Sent>, progress: seq<nat>, j: nat, k: string, but: Option<nat>)
  {
    |progress| == |sent| && forall i: nat :: IsOf(sent, k, i) && but != Some(i) ==> progress[i] > j
  }

  /** What sink j has got of key k, against all there is: everything, or everything but the latest,
      which is ticket `late` and still on its way to it. */
  ghost predicate Follows(
      sent: seq<Dedup.Sent>, progress: seq<nat>, j: nat, k: string, got: seq<Time>, all: seq<Time>, late: Option<nat>)
  {
    && AllPast(sent, progress, j, k, late)
    && match late
       case None => got == all
       case Some(i) => IsOf(sent, k, i) && progress[i] <= j && all == got + [sent[i].at]
  }

  lemma {:induction false} AllPastSnoc(
      sent: seq<Dedup.Sent>, progress: seq<nat>, j: nat, k: string, but: Option<nat>, x: Dedup.Sent)
    requires AllPast(sent, progress, j, k, but) && (but == Some(|sent|) || Key(x.alert) != k)
    ensures AllPast(sent + [x], progress + [0], j, k, but)
  {
    forall i: nat | IsOf(sent + [x], k, i) && but != Some(i) ensures (progress + [0])[i] > j {
      assert IsOf(sent, k, i);
    }
  }

  lemma {:induction false} FollowsSend(
      sent: seq<Dedup.Sent>, progress: seq<nat>, j: nat, k: string, got: seq<Time>, all: seq<Time>, late: Option<nat>,
      x: Dedup.Sent) returns (late': Option<nat>)
    requires Follows(sent, progress, j, k, got, all, late)
    requires Key(x.alert) == k ==> AllPast(sent, progress, j, k, None)
    ensures Follows(sent + [x], progress + [0], j, k, got, if Key(x.alert) == k then all + [x.at] else all, late')
  {
    if Key(x.alert) == k {
      late' := Some(|sent|);
      assert late.None?;
      AllPastSnoc(sent, progress, j, k, late', x);
    } else {
      late' := late;
      AllPastSnoc(sent, progress, j, k, late, x);
    }
  }

  lemma {:induction false} FollowsEmit(
      sent: seq<Dedup.Sent>, progress: seq<nat>, j: nat, k: string, got: seq<Time>, all: seq<Time>, late: Option<nat>,
      i: nat) returns (late': Option<nat>)
    requires Follows(sent, progress, j, k, got, all, late) && i < |progress|
    ensures Follows(sent, progress[i := progress[i] + 1], j, k,
                    if progress[i] == j && IsOf(sent, k, i) then got + [sent[i].at] else got, all, late')
  {
    if progress[i] == j && IsOf(sent, k, i) {
      assert late == Some(i);
      late' := None;
    } else {
      late' := late;
    }
  }

  /** The same, of the sinks' logs. */
  ghost predicate Tracks(
      sent: seq<Dedup.Sent>, progress: seq<nat>, logs: seq<seq<nat>>, j: nat, k: string, late: Option<nat>)
  {
    j < |logs| && Follows(sent, progress, j, k, Received(sent, logs[j], k), SentTimes(sent, k), late)
  }

  lemma {:induction false} ReceivedEmit(sent: seq<Dedup.Sent>, logs: seq<seq<nat>>, at: nat, i: nat, j: nat, k: string)
    requires at < |logs| && j < |logs|
    ensures var got := Received(sent, logs[j], k);
            Received(sent, logs[at := logs[at] + [i]][j], k) == if at == j && IsOf(sent, k, i) then got + [sent[i].at] else got
  {
    if at == j {
      ReceivedSnoc(sent, logs[j], i, k);
    }
  }

  lemma {:induction false} EmitTracks(
      sent: seq<Dedup.Sent>, progress: seq<nat>, logs: seq<seq<nat>>, j: nat, k: string, late: Option<nat>, i: nat)
    returns (late': Option<nat>)
    requires Tracks(sent, progress, logs, j, k, late) && i < |progress| && progress[i] < |logs|
    ensures var at := progress[i];
            Tracks(sent, progress[i := at + 1], logs[at := logs[at] + [i]], j, k, late')
  {
    var at := progress[i];
    late' := FollowsEmit(sent, progress, j, k, Received(sent, logs[j], k), SentTimes(sent, k), late, i);
    ReceivedEmit(sent, logs, at, i, j, k);
  }

  lemma {:induction false} SendTracks(
      sent: seq<Dedup.Sent>, progress: seq<nat>, logs: seq<seq<nat>>, j: nat, k: string, late: Option<nat>, x: Dedup.Sent)
    returns (late': Option<nat>)
    requires Tracks(sent, progress, logs, j, k, late) && forall t :: 0 <= t < |logs[j]| ==> logs[j][t] < |sent|
    requires Key(x.alert) == k ==> AllPast(sent, progress, j, k, None)
    ensures Tracks(sent + [x], progress + [0], logs, j, k, late')
  {
    ReceivedFrame(sent, x, logs[j], k);
    SentTimesSnoc(sent, x, k);
    late' := FollowsSend(sent, progress, j, k, Received(sent, logs[j], k), SentTimes(sent, k), late, x);
  }

  /** What sink j of a state has got of key k. */
  ghost predicate PipeTracks(p: Pipe, j: nat, k: string, late: Option<nat>)
  {
    Tracks(p.sys.dedup.sent, p.progress, p.logs, j, k, late)
  }

  lemma {:induction false} EmitMoveTracks(cfg: Config, sinks: nat, p: Pipe, i: nat, j: nat, k: string, late: Option<nat>)
    returns (late': Option<nat>)
    requires Can(sinks, p, Emit(i)) && PipeTracks(p, j, k, late)
    ensures PipeTracks(After(cfg, sinks, p, Emit(i)), j, k, late')
  {
    late' := EmitTracks(p.sys.dedup.sent, p.progress, p.logs, j, k, late, i);
  }

  lemma {:induction false} DoMoveTracks(cfg: Config, sinks: nat, p: Pipe, e: Event, j: nat, k: string, late: Option<nat>)
    returns (late': Option<nat>)
    requires Inv(p.sys) && FanInv(sinks, p.sys.dedup.sent, p.progress, p.logs) && Can(sinks, p, Do(e)) && j < sinks
    requires forall x :: x in p.sys.dedup.sent ==> WellFormed(Subject(x.alert))
    requires PipeTracks(p, j, k, late)
    ensures PipeTracks(After(cfg, sinks, p, Do(e)), j, k, late')
  {
    StepSendsOwn(cfg, p.sys, e);
    late' := late;
    if Step(cfg, p.sys, e).dedup.sent != p.sys.dedup.sent {
      if Key(e.alert) == k {
        EventKeyOwned(p.sys, e, k);
        IdleIsPast(sinks, p, e.q, j, k);
      }
      assert ExactLog(p.progress, p.logs[j], j);
      late' := SendTracks(p.sys.dedup.sent, p.progress, p.logs, j, k, late, Dedup.Sent(e.alert, e.at));
    }
  }

  lemma {:induction false} IdleIsPast(sinks: nat, p: Pipe, q: QueueKey, j: nat, k: string)
    requires OneAtATime(sinks, p.sys.dedup.sent, p.progress) && j < sinks && !Busy(sinks, p, q) && Owner(k) == q
    requires forall x :: x in p.sys.dedup.sent ==> WellFormed(Subject(x.alert))
    ensures AllPast(p.sys.dedup.sent, p.progress, j, k, None)
  {
    forall i: nat | IsOf(p.sys.dedup.sent, k, i) ensures p.progress[i] > j {
      OneWorkerPerKey(p.sys.dedup.sent, k, i);
    }
  }

  lemma {:induction false} SinkTracks(cfg: Config, sinks: nat, ms: seq<Move>, j: nat, k: string) returns (late: Option<nat>)
    requires Possible(cfg, sinks, ms) && j < sinks
    ensures PipeTracks(State(cfg, sinks, ms), j, k, late)
  {
    if ms == [] {
      late := None;
      assert Received([], [], k) == [] && SentTimes([], k) == [];
    } else {
      var init := ms[..|ms|-1];
      late := SinkTracks(cfg, sinks, init, j, k);
      match ms[|ms|-1]
      case Emit(i) => late := EmitMoveTracks(cfg, sinks, State(cfg, sinks, init), i, j, k, late);
      case Do(e) =>
        PipeInv(cfg, sinks, init);
        PipeRunsAreRuns(cfg, sinks, init);
        ReachableInv(cfg, Events(init));
        SentWellFormed(cfg, Events(init));
        late := DoMoveTracks(cfg, sinks, State(cfg, sinks, init), e, j, k, late);
    }
  }

  /** Whatever is on its way, a sink has received the deliveries of a key in order and without
      repetition, and all of them but possibly the latest; all of them once that one's worker is done
      with the sinks. */
  lemma {:induction false} SinkFollowsDeliveries(cfg: Config, sinks: nat, ms: seq<Move>, j: nat, k: string)
    requires Possible(cfg, sinks, ms) && j < sinks
    ensures var p := State(cfg, sinks, ms);
            && |p.progress| == |p.sys.dedup.sent| && j < |p.logs|
            && var got, all := Received(p.sys.dedup.sent, p.logs[j], k), SentTimes(p.sys.dedup.sent, k);
            && got <= all && |got| >= |all| - 1
            && (!Busy(sinks, p, Owner(k)) ==> got == all)
  {
    var p := State(cfg, sinks, ms);
    var late := SinkTracks(cfg, sinks, ms, j, k);
    if late.Some? {
      PipeRunsAreRuns(cfg, sinks, ms);
      SentWellFormed(cfg, Events(ms));
      OneWorkerPerKey(p.sys.dedup.sent, k, late.value);
      assert Busy(sinks, p, Owner(k));
    }
  }

  /** The spacing of deliveries is what every sink sees, while the object is not cleared as deleted. */
  lemma {:induction false} SinksSeeSpacedDeliveries(cfg: Config, sinks: nat, ms: seq<Move>, j: nat, k: string)
    requires Possible(cfg, sinks, ms) && j < sinks && ClearUnlock(Owner(k)) !in Events(ms)
    ensures var p := State(cfg, sinks, ms);
            && Valid(cfg, Events(ms)) && j < |p.logs|
            && Received(p.sys.dedup.sent, p.logs[j], k) <= Deliveries(cfg, Events(ms), k)
            && Gaps(Received(p.sys.dedup.sent, p.logs[j], k), Min(cfg.resend, cfg.grace))
  {
    PipeRunsAreRuns(cfg, sinks, ms);
    SinkFollowsDeliveries(cfg, sinks, ms, j, k);
    DeliveriesAreHandedOver(cfg, Events(ms), k);
    DeliveriesAreSpaced(cfg, Events(ms), k);
  }

  // ------------------------------------------------------------ Events, under concurrency

  predicate HasReason(sent: seq<Dedup.Sent>, r: Reason, i: nat)
  {
    i < |sent| && sent[i].alert.reason == r
  }

  function One(b: bool): (n: nat)
  {
    if b then 1 else 0
  }

  /** Events of reason r that an Event sink with this log has emitted: one per alert received. */
  function Emitted(sent: seq<Dedup.Sent>, log: seq<nat>, r: Reason): (n: nat)
  {
    if log == [] then 0 else Emitted(sent, log[..|log|-1], r) + One(HasReason(sent, r, log[|log|-1]))
  }

  /** Alerts of reason r among the first n tickets that have not yet got past sink j. */
  function OnTheWay(sent: seq<Dedup.Sent>, progress: seq<nat>, j: nat, r: Reason, n: nat): (m: nat)
    requires n <= |progress|
  {
    if n == 0 then 0
    else OnTheWay(sent, progress, j, r, n - 1) + One(progress[n-1] <= j && HasReason(sent, r, n - 1))
  }

  lemma {:induction false} EmittedSnoc(sent: seq<Dedup.Sent>, log: seq<nat>, i: nat, r: Reason)
    ensures Emitted(sent, log + [i], r) == Emitted(sent, log, r) + One(HasReason(sent, r, i))
  {
    assert (log + [i])[..|log + [i]|-1] == log;
  }

  lemma {:induction false} EmittedFrame(sent: seq<Dedup.Sent>, x: Dedup.Sent, log: seq<nat>, r: Reason)
    requires forall p :: 0 <= p < |log| ==> log[p] < |sent|
    ensures Emitted(sent + [x], log, r) == Emitted(sent, log, r)
  {
    if log != [] {
      EmittedFrame(sent, x, log[..|log|-1], r);
    }
  }

  lemma {:induction false} OnTheWayFrame(sent: seq<Dedup.Sent>, progress: seq<nat>, x: Dedup.Sent, j: nat, r: Reason, n: nat)
    requires n <= |progress| == |sent|
    ensures OnTheWay(sent + [x], progress + [0], j, r, n) == OnTheWay(sent, progress, j, r, n)
  {
    if n > 0 {
      OnTheWayFrame(sent, progress, x, j, r, n - 1);
    }
  }

  /** One ticket moves on by one sink: it is past sink j now if that is where it was. */
  lemma {:induction false} OnTheWayEmit(sent: seq<Dedup.Sent>, progress: seq<nat>, i: nat, j: nat, r: Reason, n: nat)
    requires n <= |progress| && i < |progress|
    ensures OnTheWay(sent, progress, j, r, n) ==
            OnTheWay(sent, progress[i := progress[i] + 1], j, r, n) + One(i < n && progress[i] == j && HasReason(sent, r, i))
  {
    if n > 0 {
      OnTheWayEmit(sent, progress, i, j, r, n - 1);
    }
  }

  /** Nothing is lost and nothing invented between the deduper and sink j. */
  ghost predicate Balanced(sent: seq<Dedup.Sent>, progress: seq<nat>, logs: seq<seq<nat>>, j: nat, r: Reason)
  {
    && |progress| == |sent| && j < |logs|
    && Emitted(sent, logs[j], r) + OnTheWay(sent, progress, j, r, |progress|) == Dedup.SentCount(sent, r)
  }

  lemma {:induction false} EmitBalances(sent: seq<Dedup.Sent>, progress: seq<nat>, logs: seq<seq<nat>>, j: nat, r: Reason, i: nat)
    requires Balanced(sent, progress, logs, j, r) && i < |progress| && progress[i] < |logs|
    ensures var at := progress[i];
            Balanced(sent, progress[i := at + 1], logs[at := logs[at] + [i]], j, r)
  {
    OnTheWayEmit(sent, progress, i, j, r, |progress|);
    EmittedSnoc(sent, logs[j], i, r);
  }

  lemma {:induction false} SendBalances(
      sent: seq<Dedup.Sent>, progress: seq<nat>, logs: seq<seq<nat>>, j: nat, r: Reason, x: Dedup.Sent)
    requires Balanced(sent, progress, logs, j, r) && forall p :: 0 <= p < |logs[j]| ==> logs[j][p] < |sent|
    ensures Balanced(sent + [x], progress + [0], logs, j, r)
  {
    EmittedFrame(sent, x, logs[j], r);
    OnTheWayFrame(sent, progress, x, j, r, |progress|);
    Dedup.SentCountSnoc(sent, x, r);
  }

  lemma {:induction false} MoveBalances(cfg: Config, sinks: nat, p: Pipe, m: Move, j: nat, r: Reason)
    requires Inv(p.sys) && FanInv(sinks, p.sys.dedup.sent, p.progress, p.logs) && Can(sinks, p, m) && j < sinks
    requires Balanced(p.sys.dedup.sent, p.progress, p.logs, j, r)
    ensures var p' := After(cfg, sinks, p, m); Balanced(p'.sys.dedup.sent, p'.progress, p'.logs, j, r)
  {
    match m
    case Emit(i) => EmitBalances(p.sys.dedup.sent, p.progress, p.logs, j, r, i);
    case Do(e) =>
      StepSendsOwn(cfg, p.sys, e);
      if Step(cfg, p.sys, e).dedup.sent != p.sys.dedup.sent {
        assert ExactLog(p.progress, p.logs[j], j);
        SendBalances(p.sys.dedup.sent, p.progress, p.logs, j, r, Dedup.Sent(e.alert, e.at));
      }
  }

  lemma {:induction false} PipeBalanced(cfg: Config, sinks: nat, ms: seq<Move>, j: nat, r: Reason)
    requires Possible(cfg, sinks, ms) && j < sinks
    ensures var p := State(cfg, sinks, ms); Balanced(p.sys.dedup.sent, p.progress, p.logs, j, r)
  {
    if ms == [] {
      assert Dedup.ReasonsOf([]) == [];
    } else {
      var init := ms[..|ms|-1];
      PipeBalanced(cfg, sinks, init, j, r);
      PipeInv(cfg, sinks, init);
      PipeRunsAreRuns(cfg, sinks, init);
      ReachableInv(cfg, Events(init));
      MoveBalances(cfg, sinks, State(cfg, sinks, init), ms[|ms|-1], j, r);
    }
  }

  lemma {:induction false} NoneOnTheWay(sent: seq<Dedup.Sent>, progress: seq<nat>, j: nat, r: Reason, n: nat)
    requires n <= |progress| && forall i :: 0 <= i < |progress| ==> progress[i] > j
    ensures OnTheWay(sent, progress, j, r, n) == 0
  {
    if n > 0 {
      NoneOnTheWay(sent, progress, j, r, n - 1);
    }
  }

  /** With any number of workers, at every moment and per reason, the Events an Event sink has emitted
      and the alerts still on their way to it make up the alerts counted as fired; once nothing is on
      its way, Events emitted equal alerts fired. */
  lemma {:induction false} EventsMatchFired(cfg: Config, sinks: nat, ms: seq<Move>, j: nat, r: Reason)
    requires Possible(cfg, sinks, ms) && j < sinks
    ensures var p := State(cfg, sinks, ms);
            && j < |p.logs|
            && Emitted(p.sys.dedup.sent, p.logs[j], r) + OnTheWay(p.sys.dedup.sent, p.progress, j, r, |p.progress|) ==
               Dedup.FiredFor(p.sys.dedup, r)
            && (Drained(sinks, p) ==> Emitted(p.sys.dedup.sent, p.logs[j], r) == Dedup.FiredFor(p.sys.dedup, r))
  {
    var p := State(cfg, sinks, ms);
    PipeBalanced(cfg, sinks, ms, j, r);
    PipeRunsAreRuns(cfg, sinks, ms);
    RunConserves(cfg, Events(ms), r);
    Dedup.LabelsCountReasons(p.sys.dedup.sent, r);
    if Drained(sinks, p) {
      NoneOnTheWay(p.sys.dedup.sent, p.progress, j, r, |p.progress|);
    }
  }

  // --------------------------------------------------------------- nothing gets stuck

  /** A worker walking the sinks holds nobody up, and nobody holds it up: what another worker could do
      it still can, and every ticket under way can move on. */
  lemma {:induction false} WalksDoNotInterfere(cfg: Config, sinks: nat, p: Pipe, i: nat, m: Move)
    requires FanInv(sinks, p.sys.dedup.sent, p.progress, p.logs)
    requires i < |p.progress| && p.progress[i] < sinks && Can(sinks, p, m) && m != Emit(i)
    ensures Can(sinks, p, Emit(i)) && Can(sinks, After(cfg, sinks, p, Emit(i)), m)
  {
  }

  /** Neither does an alert that another worker hands downstream. */
  lemma {:induction false} SendsDoNotInterfere(cfg: Config, sinks: nat, p: Pipe, e: Event, other: Event)
    requires Inv(p.sys) && Can(sinks, p, Do(e)) && Can(sinks, p, Do(other)) && e.q != other.q
    requires !Progress.TakesLock(e) || !Progress.TakesLock(other)
    ensures Can(sinks, After(cfg, sinks, p, Do(other)), Do(e))
  {
    var p' := After(cfg, sinks, p, Do(other));
    Progress.OthersDoNotInterfere(cfg, p.sys, e, other);
    StepSendsOwn(cfg, p.sys, other);
    forall x | 0 <= x < |p'.progress| && p'.progress[x] < sinks ensures Worker(p'.sys.dedup.sent, x) != e.q {
      assert x < |p.progress| ==> Worker(p'.sys.dedup.sent, x) == Worker(p.sys.dedup.sent, x);
    }
  }

  /** Visits of sinks that the first n tickets have still to make. */
  function Ahead(sinks: nat, progress: seq<nat>, n: nat): (m: nat)
    requires n <= |progress| && forall i :: 0 <= i < |progress| ==> progress[i] <= sinks
  {
    if n == 0 then 0 else Ahead(sinks, progress, n - 1) + (sinks - progress[n-1])
  }

  lemma {:induction false} AheadEmit(sinks: nat, progress: seq<nat>, i: nat, n: nat)
    requires n <= |progress| && forall j :: 0 <= j < |progress| ==> progress[j] <= sinks
    requires i < |progress| && progress[i] < sinks
    ensures Ahead(sinks, progress[i := progress[i] + 1], n) == Ahead(sinks, progress, n) - One(i < n)
  {
    if n > 0 {
      AheadEmit(sinks, progress, i, n - 1);
    }
  }

  /** One more visit of a sink. */
  lemma {:induction false} Visit(cfg: Config, sinks: nat, ms: seq<Move>, i: nat)
    requires Possible(cfg, sinks, ms)
    requires i < |State(cfg, sinks, ms).progress| && State(cfg, sinks, ms).progress[i] < sinks
    ensures Possible(cfg, sinks, ms + [Emit(i)])
    ensures var progress := State(cfg, sinks, ms).progress;
            State(cfg, sinks, ms + [Emit(i)]).progress == progress[i := progress[i] + 1]
  {
    PipeInv(cfg, sinks, ms);
    assert (ms + [Emit(i)])[..|ms + [Emit(i)]|-1] == ms;
  }

  /** left is what the tickets under way have still to do. */
  ghost predicate LeftToDo(sinks: nat, progress: seq<nat>, left: nat)
  {
    (forall i :: 0 <= i < |progress| ==> progress[i] <= sinks) && left == Ahead(sinks, progress, |progress|)
  }

  lemma {:induction false} VisitShortens(sinks: nat, progress: seq<nat>, left: nat, i: nat)
    requires LeftToDo(sinks, progress, left) && i < |progress| && progress[i] < sinks
    ensures left > 0 && LeftToDo(sinks, progress[i := progress[i] + 1], left - 1)
  {
    AheadEmit(sinks, progress, i, |progress|);
  }

  /** ms' goes on from ms with visits of sinks only. */
  ghost predicate WalksOn(ms: seq<Move>, ms': seq<Move>)
  {
    ms <= ms' && forall i :: |ms| <= i < |ms'| ==> ms'[i].Emit?
  }

  lemma {:induction false} WalksOnOnce(ms: seq<Move>, i: nat, ms': seq<Move>)
    requires WalksOn(ms + [Emit(i)], ms')
    ensures WalksOn(ms, ms')
  {
  }

  lemma {:induction false} DrainFrom(cfg: Config, sinks: nat, ms: seq<Move>, progress: seq<nat>, left: nat)
    returns (ms': seq<Move>)
    requires Possible(cfg, sinks, ms) && progress == State(cfg, sinks, ms).progress && LeftToDo(sinks, progress, left)
    ensures Possible(cfg, sinks, ms') && WalksOn(ms, ms') && Drained(sinks, State(cfg, sinks, ms'))
    decreases left
  {
    if i :| 0 <= i < |progress| && progress[i] != sinks {
      VisitShortens(sinks, progress, left, i);
      Visit(cfg, sinks, ms, i);
      ms' := DrainFrom(cfg, sinks, ms + [Emit(i)], progress[i := progress[i] + 1], left - 1);
      WalksOnOnce(ms, i, ms');
    } else {
      ms' := ms;
    }
  }

  /** From every moment of every run, all that is on its way can reach every sink, whatever else waits. */
  lemma {:induction false} DrainReachable(cfg: Config, sinks: nat, ms: seq<Move>) returns (ms': seq<Move>)
    requires Possible(cfg, sinks, ms)
    ensures Possible(cfg, sinks, ms') && WalksOn(ms, ms') && Drained(sinks, State(cfg, sinks, ms'))
  {
    PipeInv(cfg, sinks, ms);
    var progress := State(cfg, sinks, ms).progress;
    ms' := DrainFrom(cfg, sinks, ms, progress, Ahead(sinks, progress, |progress|));
  }
}
