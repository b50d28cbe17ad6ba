/** The list-then-watch loop (internal/k8sclient/client.go:161-290) against an API server modelled as
    an append-only log of changes. A resource version is a position in that log. */
module ListWatch {
  import opened Base

  datatype PodObject = PodObject(key: string, body: string)

  // ----------------------------------------------------------------- the server

  datatype Change = Put(pod: PodObject, isNew: bool) | Delete(pod: PodObject)

  type Store = map<string, PodObject>

  function State(log: seq<Change>): (m: Store)
  {
    if log == [] then map[]
    else After(State(log[..|log|-1]), log[|log|-1])
  }

  function After(m: Store, c: Change): (m': Store)
  {
    match c
    case Put(pod, _) => m[pod.key := pod]
    case Delete(pod) => m - {pod.key}
  }

  // ----------------------------------------------------------------- the client

  /** Event types; one the client does not know is handed to the handler like the others. */
  datatype Kind = Added | Modified | Deleted | Unknown(name: string)

  /** One call of the handler. */
  datatype Call = Call(kind: Kind, pod: PodObject)

  /** What the stream yields: a pod event, a bookmark, an ERROR event carrying a status code, or an
      event whose object does not decode. The end of the sequence is the stream breaking off. */
  datatype Message = PodEvent(kind: Kind, pod: PodObject) | Bookmark | ErrorEvent(code: int) | Undecodable

  datatype Error = ApiError(code: int) | StreamError | DecodeError

  predicate Gone(e: Error)
  {
    e.ApiError? && e.code == 410
  }

  /** The environment's part in one turn of the loop: the answer to LIST, whether WATCH could be
      opened, what it streamed, and whether the context was cancelled before the next turn. */
  datatype Cycle = Cycle(list: Listing, openError: Option<Error>, stream: seq<Message>, cancel: Cancel)

  /** Not at all, by the end of the watch, or in the pause after it. */
  datatype Cancel = Never | ByWatchEnd | InPause

  datatype Listing = ListFailed(error: Error) | Listed(items: seq<PodObject>, version: nat)

  function ListCalls(items: seq<PodObject>): (calls: seq<Call>)
  {
    if items == [] then [] else ListCalls(items[..|items|-1]) + [Call(Added, items[|items|-1])]
  }

  /** Handler calls made from a stream, up to the message that ends the watch. */
  function StreamCalls(stream: seq<Message>): (calls: seq<Call>)
  {
    if stream == [] then []
    else
      match stream[0]
      case PodEvent(kind, pod) => [Call(kind, pod)] + StreamCalls(stream[1..])
      case Bookmark => StreamCalls(stream[1..])
      case _ => []
  }

  function StreamOutcome(stream: seq<Message>): (e: Error)
  {
    if stream == [] then StreamError
    else
      match stream[0]
      case ErrorEvent(code) => ApiError(code)
      case Undecodable => DecodeError
      case _ => StreamOutcome(stream[1..])
  }

  /** Index of the message that ends the watch: an ERROR event or one that does not decode. */
  function EndOf(stream: seq<Message>): (n: nat)
    ensures n <= |stream| && forall i :: 0 <= i < n ==> stream[i].PodEvent? || stream[i].Bookmark?
    ensures n < |stream| ==> stream[n].ErrorEvent? || stream[n].Undecodable?
  {
    if stream == [] || stream[0].ErrorEvent? || stream[0].Undecodable? then 0
    else
      assert forall i :: 0 < i < |stream| ==> stream[i] == stream[1..][i-1];
      1 + EndOf(stream[1..])
  }

  /** How many of the first n messages are pod events. */
  function EventsAmong(stream: seq<Message>, n: nat): (m: nat)
    requires n <= |stream|
  {
    if n == 0 then 0 else (if stream[0].PodEvent? then 1 else 0) + EventsAmong(stream[1..], n - 1)
  }

  /** There is one handler call for each pod event before the end of the watch, and no other. */
  lemma {:induction false} StreamCallCount(stream: seq<Message>)
    ensures |StreamCalls(stream)| == EventsAmong(stream, EndOf(stream))
  {
    if stream != [] && (stream[0].PodEvent? || stream[0].Bookmark?) {
      StreamCallCount(stream[1..]);
    }
  }

  /** The call for a pod event hands on its type and object, and stands where the event does among the
      pod events. */
  lemma {:induction false} StreamCallPlace(stream: seq<Message>, i: nat)
    requires i < EndOf(stream) && stream[i].PodEvent?
    ensures EventsAmong(stream, i) < |StreamCalls(stream)|
    ensures StreamCalls(stream)[EventsAmong(stream, i)] == Call(stream[i].kind, stream[i].pod)
  {
    if i > 0 {
      assert stream[1..][i-1] == stream[i];
      StreamCallPlace(stream[1..], i - 1);
    }
  }

  /** The error the watch returns is that of the message that ends it. */
  lemma {:induction false} StreamOutcomeIs(stream: seq<Message>)
    ensures var n := EndOf(stream);
            StreamOutcome(stream) ==
            if n == |stream| then StreamError
            else if stream[n].ErrorEvent? then ApiError(stream[n].code)
            else DecodeError
  {
    if stream != [] && (stream[0].PodEvent? || stream[0].Bookmark?) {
      StreamOutcomeIs(stream[1..]);
    }
  }

  function WatchCalls(c: Cycle): (calls: seq<Call>)
  {
    if c.openError.Some? then [] else StreamCalls(c.stream)
  }

  function WatchOutcome(c: Cycle): (e: Error)
  {
    if c.openError.Some? then c.openError.value else StreamOutcome(c.stream)
  }

  /** The loop leaves after this turn: LIST failed, or the context was cancelled. */
  predicate Stops(c: Cycle)
  {
    c.list.ListFailed? || !c.cancel.Never?
  }

  /** The loop took exactly the first n turns of what the environment had on offer. */
  ghost predicate Took(cycles: seq<Cycle>, n: nat)
  {
    Leaves(cycles, n) || (n == |cycles| && Goes(cycles, n))
  }

  /** None of the first n turns makes the loop leave. */
  ghost predicate Goes(cycles: seq<Cycle>, n: nat)
  {
    n <= |cycles| && forall i :: 0 <= i < n ==> !Stops(cycles[i])
  }

  /** The n-th turn is the first that does. */
  ghost predicate Leaves(cycles: seq<Cycle>, n: nat)
  {
    0 < n <= |cycles| && Goes(cycles, n - 1) && Stops(cycles[n-1])
  }

  function TurnCalls(c: Cycle): (calls: seq<Call>)
  {
    if c.list.ListFailed? then [] else ListCalls(c.list.items) + WatchCalls(c)
  }

  /** Handler calls of the first n turns, after those made before. */
  function AllCalls(before: seq<Call>, cycles: seq<Cycle>, n: nat): (calls: seq<Call>)
    requires n <= |cycles|
  {
    if n == 0 then before else AllCalls(before, cycles, n - 1) + TurnCalls(cycles[n-1])
  }

  /** The error a turn makes the loop report. */
  function FailureOf(c: Cycle): (failed: Option<Error>)
  {
    if c.list.ListFailed? then Some(c.list.error) else None
  }

  /** The loop has taken n turns; the handler's log and the failure to report are what they make of it. */
  ghost predicate Standing(before: seq<Call>, cycles: seq<Cycle>, n: nat, calls: seq<Call>, failed: Option<Error>)
  {
    && n <= |cycles| && calls == AllCalls(before, cycles, n)
    && failed == if n == 0 then None else FailureOf(cycles[n-1])
  }

  lemma {:induction false} StandingSnoc(before: seq<Call>, cycles: seq<Cycle>, n: nat, calls: seq<Call>, failed: Option<Error>)
    requires n < |cycles| && Standing(before, cycles, n, calls, failed)
    ensures Standing(before, cycles, n + 1, calls + TurnCalls(cycles[n]), FailureOf(cycles[n]))
  {
  }

  /** Every turn before the last had a LIST that succeeded and no cancellation; the loop left with turns
      still on offer only after a failed LIST or a cancellation; and it reports an error exactly if the
      LIST of the last turn failed with it. */
  ghost predicate LeftRightly(cycles: seq<Cycle>, n: nat, failed: Option<Error>)
  {
    && n <= |cycles|
    && (forall i :: 0 <= i < n - 1 ==> cycles[i].list.Listed? && cycles[i].cancel == Never)
    && (n < |cycles| ==> n > 0 && (cycles[n-1].list.ListFailed? || cycles[n-1].cancel != Never))
    && (forall e :: failed == Some(e) <==> n > 0 && cycles[n-1].list == ListFailed(e))
  }

  lemma {:induction false} LoopLeavesRightly(before: seq<Call>, cycles: seq<Cycle>, n: nat, calls: seq<Call>, failed: Option<Error>)
    requires Standing(before, cycles, n, calls, failed) && Took(cycles, n)
    ensures LeftRightly(cycles, n, failed)
  {
    forall i | 0 <= i < n - 1 ensures cycles[i].list.Listed? && cycles[i].cancel == Never {
      assert !Stops(cycles[i]);
    }
  }

  /** Every listed pod is one ADDED call, in order. */
  lemma {:induction false} ListCallsAre(items: seq<PodObject>)
    ensures |ListCalls(items)| == |items|
    ensures forall i :: 0 <= i < |items| ==> ListCalls(items)[i] == Call(Added, items[i])
  {
    if items != [] {
      ListCallsAre(items[..|items|-1]);
    }
  }

  lemma {:induction false} GoesSnoc(cycles: seq<Cycle>, n: nat)
    requires n < |cycles| && Goes(cycles, n)
    ensures if Stops(cycles[n]) then Leaves(cycles, n + 1) else Goes(cycles, n + 1)
  {
  }

  /** The handler, which is called for its effect; here it keeps a log of its calls. */
  class Handler {
    var calls: seq<Call>

    constructor ()
      ensures calls == []
    {
      calls := [];
    }

    method Handle(kind: Kind, pod: PodObject)
      modifies this
      ensures calls == old(calls) + [Call(kind, pod)]
    {
      calls := calls + [Call(kind, pod)];
    }
  }

  /** Never returns without an error. */
  method WatchFrom(c: Cycle, handler: Handler) returns (err: Error)
    modifies handler
    ensures handler.calls == old(handler.calls) + WatchCalls(c) && err == WatchOutcome(c)
  {
    if c.openError.Some? {
      return c.openError.value;
    }
    var i := 0;
    while true
      invariant i <= |c.stream|
      invariant old(handler.calls) + StreamCalls(c.stream) == handler.calls + StreamCalls(c.stream[i..])
      invariant StreamOutcome(c.stream) == StreamOutcome(c.stream[i..])
      decreases |c.stream| - i
    {
      if i == |c.stream| {
        return StreamError;
      }
      assert c.stream[i..][1..] == c.stream[i+1..];
      match c.stream[i] {
        case ErrorEvent(code) =>
          return ApiError(code);
        case Bookmark =>
        case Undecodable =>
          return DecodeError;
        case PodEvent(kind, pod) =>
          handler.Handle(kind, pod);
      }
      i := i + 1;
    }
  }

  /** Hands the listed pods to the handler as ADDED events. */
  method Seed(items: seq<PodObject>, handler: Handler)
    modifies handler
    ensures handler.calls == old(handler.calls) + ListCalls(items)
  {
    for i := 0 to |items|
      invariant handler.calls == old(handler.calls) + ListCalls(items[..i])
    {
      assert items[..i+1][..i] == items[..i];
      handler.Handle(Added, items[i]);
    }
    assert items[..|items|] == items;
  }

  /** One turn of the loop: a failed LIST is reported and ends it; after 410 Gone the loop goes on to
      its own check of the context; after any other watch error it pauses first, and either check of the
      context on the way ends it. */
  method Turn(c: Cycle, handler: Handler) returns (failed: Option<Error>, done: bool, paused: bool)
    modifies handler
    ensures handler.calls == old(handler.calls) + TurnCalls(c)
    ensures failed == FailureOf(c) && done == Stops(c)
    ensures paused <==> c.list.Listed? && WatchOutcome(c) != ApiError(410) && c.cancel != ByWatchEnd
  {
    if c.list.ListFailed? {
      return Some(c.list.error), true, false;
    }
    Seed(c.list.items, handler);
    var err := WatchFrom(c, handler);
    if Gone(err) {
      return None, !c.cancel.Never?, false;
    }
    if c.cancel == ByWatchEnd {
      return None, true, false;
    }
    if c.cancel == InPause {
      return None, true, true;
    }
    return None, false, true;
  }

  /** The turn after the first n. */
  method NextTurn(cycles: seq<Cycle>, n: nat, handler: Handler, ghost before: seq<Call>, ghost failed: Option<Error>)
    returns (failed': Option<Error>, done: bool)
    requires n < |cycles| && Standing(before, cycles, n, handler.calls, failed)
    modifies handler
    ensures Standing(before, cycles, n + 1, handler.calls, failed') && done == Stops(cycles[n])
  {
    StandingSnoc(before, cycles, n, handler.calls, failed);
    var paused;
    failed', done, paused := Turn(cycles[n], handler);
  }

  /** Runs until LIST fails (the only error it reports) or the context is cancelled; after 410 Gone
      and after any other watch error it lists again. */
  method ListAndWatch(cycles: seq<Cycle>, handler: Handler) returns (failed: Option<Error>, turns: nat)
    modifies handler
    ensures Standing(old(handler.calls), cycles, turns, handler.calls, failed) && Took(cycles, turns)
    ensures LeftRightly(cycles, turns, failed)
  {
    failed, turns := None, 0;
    var done := false;
    while turns < |cycles| && !done
      invariant Standing(old(handler.calls), cycles, turns, handler.calls, failed)
      invariant if done then Leaves(cycles, turns) else Goes(cycles, turns)
      decreases |cycles| - turns
    {
      GoesSnoc(cycles, turns);
      failed, done := NextTurn(cycles, turns, handler, old(handler.calls), failed);
      turns := turns + 1;
    }
    LoopLeavesRightly(old(handler.calls), cycles, turns, handler.calls, failed);
  }

  // ------------------------------------------------------------ what the cache holds

  /** The cache a handler keeps: put on ADDED and MODIFIED, remove on DELETED, nothing otherwise. */
  function Apply(m: Store, calls: seq<Call>): (m': Store)
  {
    if calls == [] then m
    else
      var before, c := Apply(m, calls[..|calls|-1]), calls[|calls|-1];
      match c.kind
      case Deleted => before - {c.pod.key}
      case Unknown(_) => before
      case _ => before[c.pod.key := c.pod]
  }

  function CallFor(c: Change): Call
  {
    match c
    case Put(pod, isNew) => Call(if isNew then Added else Modified, pod)
    case Delete(pod) => Call(Deleted, pod)
  }

  function ToStore(items: seq<PodObject>): (m: Store)
  {
    if items == [] then map[]
    else ToStore(items[..|items|-1])[items[|items|-1].key := items[|items|-1]]
  }

  /** What the server sends to tell of a change. */
  predicate Announces(m: Message, c: Change)
  {
    match c
    case Put(pod, isNew) => m == PodEvent(if isNew then Added else Modified, pod)
    case Delete(pod) => m == PodEvent(Deleted, pod)
  }

  /** How far the watch of a turn got: index of the message that ended it, 0 if it was never opened. */
  function WatchEnd(c: Cycle): (n: nat)
    ensures n <= |c.stream|
  {
    if c.openError.Some? then 0 else EndOf(c.stream)
  }

  /** The turn answers with the server's data: LIST returns the state at its resource version, and
      the pod events that the watch sends announce the changes that follow it, in order. */
  ghost predicate Faithful(server: seq<Change>, c: Cycle)
  {
    && c.list.Listed?
    && Position(c) <= |server|
    && ToStore(c.list.items) == State(server[..c.list.version])
    && forall i :: 0 <= i < WatchEnd(c) && c.stream[i].PodEvent? ==>
         var at := c.list.version + EventsAmong(c.stream, i);
         at < |server| && Announces(c.stream[i], server[at])
  }

  /** The first n turns all do. */
  ghost predicate AllFaithful(server: seq<Change>, cycles: seq<Cycle>, n: nat)
  {
    n <= |cycles| && forall i :: 0 <= i < n ==> Faithful(server, cycles[i])
  }

  /** The log position up to which the server has told the client. */
  function Position(c: Cycle): nat
  {
    if c.list.Listed? then c.list.version + EventsAmong(c.stream, WatchEnd(c)) else 0
  }

  function Touched(calls: seq<Call>): (keys: set<string>)
  {
    set c | c in calls :: c.pod.key
  }

  /** Pods named by the pod events of a turn's watch. */
  function Named(c: Cycle): (keys: set<string>)
  {
    set i | 0 <= i < WatchEnd(c) && c.stream[i].PodEvent? :: c.stream[i].pod.key
  }

  /** Pods that vanished while the client was not watching. A new LIST re-adds what it finds but
      reports no deletion, so such a pod stays until a later event names it. Computed from the
      server's log and the client's positions only. */
  ghost function Ghosts(server: seq<Change>, cycles: seq<Cycle>, n: nat): (keys: set<string>)
    requires AllFaithful(server, cycles, n)
  {
    if n <= 1 then {}
    else
      var known := Ghosts(server, cycles, n - 1) + State(server[..Position(cycles[n-2])]).Keys;
      known - State(server[..cycles[n-1].list.version]).Keys - Named(cycles[n-1])
  }

  /** The cache after the first n turns. */
  ghost function Cache(cycles: seq<Cycle>, n: nat): (m: Store)
    requires n <= |cycles|
  {
    Apply(map[], AllCalls([], cycles, n))
  }

  lemma {:induction false} ApplyConcat(m: Store, xs: seq<Call>, ys: seq<Call>)
    ensures Apply(m, xs + ys) == Apply(Apply(m, xs), ys)
  {
    if ys == [] {
      assert xs + ys == xs;
    } else {
      ApplyConcat(m, xs, ys[..|ys|-1]);
      assert (xs + ys)[..|xs + ys|-1] == xs + ys[..|ys|-1];
    }
  }

  /** Listing overlays the listed pods on whatever the cache held. */
  lemma {:induction false} ApplyList(m: Store, items: seq<PodObject>)
    ensures Apply(m, ListCalls(items)) == m + ToStore(items)
  {
    if items != [] {
      ApplyList(m, items[..|items|-1]);
      var calls := ListCalls(items);
      assert calls[..|calls|-1] == ListCalls(items[..|items|-1]);
    }
  }

  /** Cache m is the server's state plus entries for ghosts. */
  ghost predicate Holds(m: Store, state: Store, ghosts: set<string>)
  {
    && m.Keys == state.Keys + ghosts
    && ghosts !! state.Keys
    && forall k :: k in state ==> m[k] == state[k]
  }

  lemma {:induction false} StateSnoc(log: seq<Change>, n: nat)
    requires n < |log|
    ensures State(log[..n+1]) == After(State(log[..n]), log[n])
  {
    assert log[..n+1][..n] == log[..n];
  }

  lemma {:induction false} ApplySnoc(m: Store, calls: seq<Call>, c: Change)
    requires calls != [] && calls[|calls|-1] == CallFor(c)
    ensures Apply(m, calls) == After(Apply(m, calls[..|calls|-1]), c)
  {
  }

  /** One change of the server and the call it causes keep the cache in step; a ghost that the change
      names is laid to rest. */
  lemma {:induction false} HoldsStep(m: Store, state: Store, ghosts: set<string>, c: Change)
    requires Holds(m, state, ghosts)
    ensures Holds(After(m, c), After(state, c), ghosts - {c.pod.key})
  {
  }

  lemma {:induction false} ApplyStream(server: seq<Change>, from: nat, calls: seq<Call>, m: Store, ghosts: set<string>)
    requires from + |calls| <= |server|
    requires forall i :: 0 <= i < |calls| ==> calls[i] == CallFor(server[from + i])
    requires Holds(m, State(server[..from]), ghosts)
    ensures Holds(Apply(m, calls), State(server[..from + |calls|]), ghosts - Touched(calls))
  {
    if calls == [] {
      assert ghosts - Touched(calls) == ghosts;
    } else {
      var init, n := calls[..|calls|-1], |calls| - 1;
      var c := server[from + n];
      ApplyStream(server, from, init, m, ghosts);
      HoldsStep(Apply(m, init), State(server[..from + n]), ghosts - Touched(init), c);
      StateSnoc(server, from + n);
      ApplySnoc(m, calls, c);
      assert ghosts - Touched(calls) == ghosts - Touched(init) - {c.pod.key} by {
        TouchedSnoc(init, calls[n]);
        assert calls == init + [calls[n]];
      }
    }
  }

  lemma {:induction false} TouchedSnoc(calls: seq<Call>, c: Call)
    ensures Touched(calls + [c]) == Touched(calls) + {c.pod.key}
  {
  }

  /** Every call of the handler comes from a pod event. */
  lemma {:induction false} CallHasEvent(stream: seq<Message>, i: nat) returns (j: nat)
    requires i < |StreamCalls(stream)|
    ensures j < EndOf(stream) && stream[j].PodEvent? && EventsAmong(stream, j) == i
  {
    if stream[0].PodEvent? && i == 0 {
      j := 0;
    } else {
      var j' := CallHasEvent(stream[1..], if stream[0].PodEvent? then i - 1 else i);
      j := j' + 1;
    }
  }

  /** The handler calls of a watch that tells of the server's changes are those changes, in order. */
  lemma {:induction false} AnnouncedCall(server: seq<Change>, c: Cycle, i: nat)
    requires Faithful(server, c) && i < |WatchCalls(c)|
    ensures c.list.version + i < |server| && WatchCalls(c)[i] == CallFor(server[c.list.version + i])
  {
    var j := CallHasEvent(c.stream, i);
    StreamCallPlace(c.stream, j);
  }

  lemma {:induction false} TouchedIsNamed(c: Cycle)
    ensures Touched(WatchCalls(c)) == Named(c)
  {
    forall k ensures k in Touched(WatchCalls(c)) <==> k in Named(c) {
      if call :| call in WatchCalls(c) && call.pod.key == k {
        var i :| 0 <= i < |WatchCalls(c)| && WatchCalls(c)[i] == call;
        var j := CallHasEvent(c.stream, i);
        StreamCallPlace(c.stream, j);
      }
      if k in Named(c) {
        var j :| 0 <= j < WatchEnd(c) && c.stream[j].PodEvent? && c.stream[j].pod.key == k;
        StreamCallPlace(c.stream, j);
        assert WatchCalls(c)[EventsAmong(c.stream, j)] in WatchCalls(c);
      }
    }
  }

  lemma {:induction false} WatchHolds(server: seq<Change>, c: Cycle, m: Store, ghosts: set<string>)
    requires Faithful(server, c) && Holds(m, State(server[..c.list.version]), ghosts)
    ensures Holds(Apply(m, WatchCalls(c)), State(server[..Position(c)]), ghosts - Named(c))
  {
    assert |WatchCalls(c)| == EventsAmong(c.stream, WatchEnd(c)) by {
      StreamCallCount(c.stream);
    }
    forall i | 0 <= i < |WatchCalls(c)| ensures WatchCalls(c)[i] == CallFor(server[c.list.version + i]) {
      AnnouncedCall(server, c, i);
    }
    ApplyStream(server, c.list.version, WatchCalls(c), m, ghosts);
    TouchedIsNamed(c);
  }

  /** One turn, whatever the cache held before: listed pods are current, and what is left over is
      neither listed nor named by the stream. */
  lemma {:induction false} TurnHolds(server: seq<Change>, c: Cycle, m: Store)
    requires Faithful(server, c)
    ensures Holds(Apply(m, TurnCalls(c)), State(server[..Position(c)]),
                  m.Keys - State(server[..c.list.version]).Keys - Named(c))
  {
    var listed := State(server[..c.list.version]);
    ApplyConcat(m, ListCalls(c.list.items), WatchCalls(c));
    ApplyList(m, c.list.items);
    assert Holds(m + listed, listed, m.Keys - listed.Keys);
    WatchHolds(server, c, m + listed, m.Keys - listed.Keys);
  }

  lemma {:induction false} CacheSnoc(cycles: seq<Cycle>, n: nat)
    requires 0 < n <= |cycles|
    ensures Cache(cycles, n) == Apply(Cache(cycles, n - 1), TurnCalls(cycles[n-1]))
  {
    ApplyConcat(map[], AllCalls([], cycles, n - 1), TurnCalls(cycles[n-1]));
  }

  /** After any number of turns, with disconnects and 410s between them, every pod in the server's
      state at the client's position is in the cache with exactly its current value, and the only
      other entries are the ghosts. */
  lemma {:induction false} CacheIsStatePlusGhosts(server: seq<Change>, cycles: seq<Cycle>, n: nat)
    requires n > 0 && AllFaithful(server, cycles, n)
    ensures Holds(Cache(cycles, n), State(server[..Position(cycles[n-1])]), Ghosts(server, cycles, n))
  {
    var m, c := Cache(cycles, n - 1), cycles[n-1];
    CacheSnoc(cycles, n);
    TurnHolds(server, c, m);
    var listed, named := State(server[..c.list.version]).Keys, Named(c);
    assert Ghosts(server, cycles, n) == m.Keys - listed - named by {
      if n > 1 {
        CacheIsStatePlusGhosts(server, cycles, n - 1);
        assert m.Keys == Ghosts(server, cycles, n - 1) + State(server[..Position(cycles[n-2])]).Keys;
      } else {
        assert m == map[];
      }
    }
  }

  /** The cache equals the server's state exactly when there is no ghost. Before any relist there is
      none; after one there is none exactly when every pod the client knew of is still listed or is
      named by the new watch. */
  lemma {:induction false} CacheExactIff(server: seq<Change>, cycles: seq<Cycle>, n: nat)
    requires n > 0 && AllFaithful(server, cycles, n)
    ensures Cache(cycles, n) == State(server[..Position(cycles[n-1])]) <==> Ghosts(server, cycles, n) == {}
    ensures n == 1 ==> Cache(cycles, n) == State(server[..Position(cycles[n-1])])
    ensures n > 1 ==>
              (Ghosts(server, cycles, n) == {} <==>
               Cache(cycles, n - 1).Keys <=
                 State(server[..cycles[n-1].list.version]).Keys + Named(cycles[n-1]))
  {
    CacheIsStatePlusGhosts(server, cycles, n);
    if n > 1 {
      CacheIsStatePlusGhosts(server, cycles, n - 1);
    }
  }

  lemma {:induction false} OneItem(pod: PodObject)
    ensures ToStore([pod]) == map[pod.key := pod]
    ensures ListCalls([pod]) == [Call(Added, pod)]
    ensures Apply(map[], [Call(Added, pod)]) == map[pod.key := pod]
  {
    assert [pod][..0] == [] && [Call(Added, pod)][..0] == [];
    assert ToStore([]) == map[] && ListCalls([]) == [] && Apply(map[], []) == map[];
  }

  /** One pod, deleted while the client was disconnected, survives in the cache. */
  lemma {:induction false} DeletedPodMaySurvive(pod: PodObject)
    ensures var server := [Put(pod, true), Delete(pod)];
            var cycles := [Cycle(Listed([pod], 1), None, [], Never), Cycle(Listed([], 2), None, [ErrorEvent(410)], Never)];
            && AllFaithful(server, cycles, 2)
            && State(server[..Position(cycles[1])]) == map[]
            && Cache(cycles, 2) == map[pod.key := pod]
  {
    var server := [Put(pod, true), Delete(pod)];
    var first := Cycle(Listed([pod], 1), None, [], Never);
    var second := Cycle(Listed([], 2), None, [ErrorEvent(410)], Never);
    var cycles := [first, second];
    OneItem(pod);
    assert State(server[..0]) == map[];
    StateSnoc(server, 0);
    assert State(server[..1]) == map[pod.key := pod];
    StateSnoc(server, 1);
    assert WatchCalls(first) == [] && WatchCalls(second) == [];
    assert TurnCalls(first) == [Call(Added, pod)] && TurnCalls(second) == [];
    assert AllCalls([], cycles, 0) == [];
    assert AllCalls([], cycles, 1) == [Call(Added, pod)];
    assert AllCalls([], cycles, 2) == [Call(Added, pod)];
    assert Faithful(server, first) && Faithful(server, second);
  }
}
