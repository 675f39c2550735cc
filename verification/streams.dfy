/**
 The table of agent streams and the chunked snapshots pushed over it: streams come, are superseded and
 go while snapshot pushes are under way, each looking its stream up again for every fragment.
 */
module Streams {
  import opened Edges

  // A queue item: fragment `index` of snapshot push `call`, or anything else.
  datatype Item = Fragment(call: nat, index: nat) | Other

  datatype Phase = Serving | Returning | Gone

  // closes counts how often done was closed; entered is the history of ch, sent that of the agent.
  datatype Stream = Stream(
    edge: EdgeId, closes: nat, phase: Phase,
    ch: seq<Item>, inHand: seq<Item>, sent: seq<Item>, lost: seq<Item>, entered: seq<Item>)

  datatype Stage = Looking | Holding(stream: nat) | Finished(ok: bool)

  // One PushDesiredRaw call of `count` fragments; placed records the stream each fragment went to.
  datatype Call = Call(edge: EdgeId, count: nat, stage: Stage, placed: seq<nat>)

  datatype State = State(streams: seq<Stream>, subs: map<EdgeId, nat>, calls: seq<Call>)

  datatype Action =
    | Subscribe(edge: EdgeId)
    | Start(edge: EdgeId, count: nat)
    | Lookup(call: nat)
    | Enqueue(call: nat)
    | Abandon(call: nat)
    | PushOther(stream: nat)
    | Receive(stream: nat)
    | Send(stream: nat)
    | SendFails(stream: nat)
    | Leave(stream: nat)
    | Cleanup(stream: nat)

  const EMPTY := State([], map[], [])

  function Put(x: Stream, it: Item): Stream {
    x.(ch := x.ch + [it], entered := x.entered + [it])
  }

  function Close(streams: seq<Stream>, id: nat): seq<Stream>
    requires id < |streams|
  {
    streams[id := streams[id].(closes := streams[id].closes + 1)]
  }

  predicate Enabled(depth: nat, s: State, a: Action) {
    match a
    case Subscribe(e) => e in s.subs ==> s.subs[e] < |s.streams|
    case Start(_, _) => true
    case Lookup(c) => c < |s.calls| && s.calls[c].stage.Looking?
    case Enqueue(c) =>
      && c < |s.calls| && s.calls[c].stage.Holding?
      && s.calls[c].stage.stream < |s.streams| && |s.streams[s.calls[c].stage.stream].ch| < depth
    case Abandon(c) =>
      && c < |s.calls| && s.calls[c].stage.Holding?
      && s.calls[c].stage.stream < |s.streams| && s.streams[s.calls[c].stage.stream].closes > 0
    case PushOther(i) => i < |s.streams| && |s.streams[i].ch| < depth
    case Receive(i) =>
      && i < |s.streams| && s.streams[i].phase.Serving?
      && s.streams[i].inHand == [] && s.streams[i].ch != []
    case Send(i) => i < |s.streams| && s.streams[i].phase.Serving? && s.streams[i].inHand != []
    case SendFails(i) => i < |s.streams| && s.streams[i].phase.Serving? && s.streams[i].inHand != []
    case Leave(i) => i < |s.streams| && s.streams[i].phase.Serving? && s.streams[i].inHand == []
    case Cleanup(i) => i < |s.streams| && s.streams[i].phase.Returning?
  }

  function Do(depth: nat, s: State, a: Action): State
    requires Enabled(depth, s, a)
  {
    match a
    case Subscribe(e) =>
      var closed := if e in s.subs then Close(s.streams, s.subs[e]) else s.streams;
      s.(streams := closed + [Stream(e, 0, Serving, [], [], [], [], [])], subs := s.subs[e := |s.streams|])
    case Start(e, k) => s.(calls := s.calls + [Call(e, k, Looking, [])])
    case Lookup(c) =>
      var call := s.calls[c];
      s.(calls := s.calls[c := call.(stage :=
        if |call.placed| >= call.count then Finished(true)
        else if call.edge in s.subs then Holding(s.subs[call.edge])
        else Finished(false))])
    case Enqueue(c) =>
      var call := s.calls[c];
      var i := call.stage.stream;
      s.(streams := s.streams[i := Put(s.streams[i], Fragment(c, |call.placed|))],
         calls := s.calls[c := call.(stage := Looking, placed := call.placed + [i])])
    case Abandon(c) => s.(calls := s.calls[c := s.calls[c].(stage := Finished(false))])
    case PushOther(i) => s.(streams := s.streams[i := Put(s.streams[i], Other)])
    case Receive(i) =>
      var x := s.streams[i];
      s.(streams := s.streams[i := x.(inHand := [x.ch[0]], ch := x.ch[1..])])
    case Send(i) =>
      var x := s.streams[i];
      s.(streams := s.streams[i := x.(sent := x.sent + x.inHand, inHand := [])])
    case SendFails(i) =>
      var x := s.streams[i];
      s.(streams := s.streams[i := x.(lost := x.inHand, inHand := [], phase := Returning)])
    case Leave(i) => s.(streams := s.streams[i := s.streams[i].(phase := Returning)])
    case Cleanup(i) =>
      var x := s.streams[i].(phase := Gone);
      if x.edge in s.subs && s.subs[x.edge] == i
      then s.(streams := Close(s.streams[i := x], i), subs := s.subs - {x.edge})
      else s.(streams := s.streams[i := x])
  }

  predicate Runs(depth: nat, s: State, run: seq<Action>)
    decreases |run|
  {
    run == [] || (Enabled(depth, s, run[0]) && Runs(depth, Do(depth, s, run[0]), run[1..]))
  }

  function After(depth: nat, s: State, run: seq<Action>): State
    requires Runs(depth, s, run)
    decreases |run|
  {
    if run == [] then s else After(depth, Do(depth, s, run[0]), run[1..])
  }

  // ---- lifecycle ----

  predicate Registered(s: State, i: nat) {
    i < |s.streams| && s.streams[i].edge in s.subs && s.subs[s.streams[i].edge] == i
  }

  // Closed at most once, open exactly while registered, closed once its loop has cleaned up, and older
  // than the registered stream of its edge.
  ghost predicate StreamOk(s: State, i: nat)
    requires i < |s.streams|
  {
    var x := s.streams[i];
    && x.closes <= 1
    && (x.closes == 0 <==> Registered(s, i))
    && (x.phase.Gone? ==> x.closes == 1)
    && (x.edge in s.subs ==> i <= s.subs[x.edge])
  }

  /** A stream is in the table exactly while its done channel is open; done is closed at most once;
      a stream whose loop has cleaned up is closed; and the registered stream is its edge's newest. */
  ghost predicate Lifecycle(s: State) {
    && (forall e <- s.subs :: s.subs[e] < |s.streams| && s.streams[s.subs[e]].edge == e)
    && forall i :: 0 <= i < |s.streams| ==> StreamOk(s, i)
  }

  lemma SubscribeKeepsLifecycle(depth: nat, s: State, e: EdgeId)
    requires Enabled(depth, s, Subscribe(e)) && Lifecycle(s)
    ensures Lifecycle(Do(depth, s, Subscribe(e)))
  {
    var t := Do(depth, s, Subscribe(e));
    forall i | 0 <= i < |t.streams|
      ensures StreamOk(t, i)
    {
      assert i < |s.streams| ==> StreamOk(s, i);
    }
  }

  lemma CleanupKeepsLifecycle(depth: nat, s: State, i: nat)
    requires Enabled(depth, s, Cleanup(i)) && Lifecycle(s)
    ensures Lifecycle(Do(depth, s, Cleanup(i)))
  {
    var t := Do(depth, s, Cleanup(i));
    forall j | 0 <= j < |t.streams|
      ensures StreamOk(t, j)
    {
      assert StreamOk(s, j) && StreamOk(s, i);
    }
  }

  // The table, and what matters of every stream, is the same.
  ghost predicate SameTable(s: State, t: State) {
    && t.subs == s.subs && |t.streams| == |s.streams|
    && forall i :: 0 <= i < |s.streams| ==>
         && t.streams[i].edge == s.streams[i].edge && t.streams[i].closes == s.streams[i].closes
         && (t.streams[i].phase.Gone? <==> s.streams[i].phase.Gone?)
  }

  lemma OthersKeepTable(depth: nat, s: State, a: Action)
    requires Enabled(depth, s, a) && !a.Subscribe? && !a.Cleanup?
    ensures SameTable(s, Do(depth, s, a))
  {
  }

  lemma SameTableSameLifecycle(s: State, t: State)
    requires SameTable(s, t) && Lifecycle(s)
    ensures Lifecycle(t)
  {
    forall i | 0 <= i < |t.streams|
      ensures StreamOk(t, i)
    {
      assert StreamOk(s, i);
    }
  }

  lemma LifecycleStep(depth: nat, s: State, a: Action)
    requires Enabled(depth, s, a) && Lifecycle(s)
    ensures Lifecycle(Do(depth, s, a))
  {
    match a {
      case Subscribe(e) => SubscribeKeepsLifecycle(depth, s, e);
      case Cleanup(i) => CleanupKeepsLifecycle(depth, s, i);
      case _ =>
        OthersKeepTable(depth, s, a);
        SameTableSameLifecycle(s, Do(depth, s, a));
    }
  }

  lemma {:induction false} LifecycleRun(depth: nat, s: State, run: seq<Action>)
    requires Runs(depth, s, run) && Lifecycle(s)
    ensures Lifecycle(After(depth, s, run))
    decreases |run|
  {
    if run != [] {
      LifecycleStep(depth, s, run[0]);
      LifecycleRun(depth, Do(depth, s, run[0]), run[1..]);
    }
  }

  /** Over any interleaving of subscribing, superseding, ending and pushing. */
  lemma LifecycleHolds(depth: nat, run: seq<Action>)
    requires Runs(depth, EMPTY, run)
    ensures var s := After(depth, EMPTY, run);
            && Lifecycle(s)
            && forall i, j :: 0 <= i < j < |s.streams| && s.streams[i].edge == s.streams[j].edge ==>
                 s.streams[i].closes == 1 || s.streams[j].closes == 1
  {
    LifecycleRun(depth, EMPTY, run);
    var s := After(depth, EMPTY, run);
    forall i, j | 0 <= i < j < |s.streams| && s.streams[i].edge == s.streams[j].edge
      ensures s.streams[i].closes == 1 || s.streams[j].closes == 1
    {
      assert StreamOk(s, i) && StreamOk(s, j);
    }
  }

  // ---- snapshot fragments ----

  function IndexesOf(items: seq<Item>, call: nat): seq<nat> {
    if items == [] then []
    else
      var last := items[|items| - 1];
      IndexesOf(items[..|items| - 1], call) + if last.Fragment? && last.call == call then [last.index] else []
  }

  lemma IndexesAppend(items: seq<Item>, it: Item, call: nat)
    ensures IndexesOf(items + [it], call) == IndexesOf(items, call) + if it.Fragment?
            && it.call == call then [it.index] else []
  {
    assert (items + [it])[..|items|] == items;
  }

  lemma {:induction false} IndexesConcat(a: seq<Item>, b: seq<Item>, call: nat)
    ensures IndexesOf(a + b, call) == IndexesOf(a, call) + IndexesOf(b, call)
    decreases |b|
  {
    if b == [] {
      assert a + b == a;
    } else {
      IndexesConcat(a, b[..|b| - 1], call);
      assert (a + b)[..|a + b| - 1] == a + b[..|b| - 1];
    }
  }

  // The fragments placed on one stream.
  function PlacedOn(placed: seq<nat>, i: nat): seq<nat> {
    if placed == [] then []
    else
      var n := |placed| - 1;
      PlacedOn(placed[..n], i) + if placed[n] == i then [n] else []
  }

  lemma PlacedAppend(placed: seq<nat>, x: nat, i: nat)
    ensures PlacedOn(placed + [x], i) == PlacedOn(placed, i) + if x == i then [|placed|] else []
  {
    assert (placed + [x])[..|placed|] == placed;
  }

  ghost predicate Nondecreasing(placed: seq<nat>) {
    forall i, j :: 0 <= i < j < |placed| ==> placed[i] <= placed[j]
  }

  ghost predicate Contiguous(xs: seq<nat>) {
    forall i :: 0 <= i < |xs| - 1 ==> xs[i + 1] == xs[i] + 1
  }

  lemma {:induction false} PlacedMeans(placed: seq<nat>, i: nat)
    ensures forall x <- PlacedOn(placed, i) :: x < |placed| && placed[x] == i
    ensures placed != [] && placed[|placed| - 1] == i ==>
              PlacedOn(placed, i) != [] && PlacedOn(placed, i)[|PlacedOn(placed, i)| - 1] == |placed| - 1
    decreases |placed|
  {
    if placed != [] {
      PlacedMeans(placed[..|placed| - 1], i);
    }
  }

  // Streams are only ever replaced by newer ones, so the fragments of a stream have no gaps.
  lemma {:induction false} PlacedIsContiguous(placed: seq<nat>, i: nat)
    requires Nondecreasing(placed)
    ensures Contiguous(PlacedOn(placed, i))
    decreases |placed|
  {
    if placed != [] {
      var n := |placed| - 1;
      PlacedIsContiguous(placed[..n], i);
      PlacedMeans(placed[..n], i);
      var before := PlacedOn(placed[..n], i);
      if placed[n] == i && before != [] {
        var x := before[|before| - 1];
        assert x in before;
        assert placed[x] <= placed[n - 1] <= placed[n];
        assert placed[..n][n - 1] == i;
      }
    }
  }

  ghost predicate CallOk(s: State, c: nat)
    requires c < |s.calls|
  {
    var call := s.calls[c];
    && Nondecreasing(call.placed)
    && |call.placed| <= call.count
    && (forall x <- call.placed :: x < |s.streams| && s.streams[x].edge == call.edge)
    && (call.stage.Holding? ==>
          && |call.placed| < call.count
          && call.stage.stream < |s.streams| && s.streams[call.stage.stream].edge == call.edge
          && forall x <- call.placed :: x <= call.stage.stream)
    && (call.stage.Finished? && call.stage.ok ==> |call.placed| == call.count)
  }

  ghost predicate CallsOk(s: State) {
    forall c :: 0 <= c < |s.calls| ==> CallOk(s, c)
  }

  ghost predicate QueueOk(x: Stream) {
    && x.sent + x.lost + x.inHand + x.ch == x.entered
    && (x.phase.Serving? ==> x.lost == [])
    && (!x.phase.Serving? ==> x.inHand == [])
  }

  ghost predicate QueuesOk(s: State) {
    forall i :: 0 <= i < |s.streams| ==> QueueOk(s.streams[i])
  }

  // What entered a stream of a call is what the call placed there.
  ghost predicate Matches(s: State) {
    && (forall c, i :: 0 <= c < |s.calls| && 0 <= i < |s.streams| ==>
          IndexesOf(s.streams[i].entered, c) == PlacedOn(s.calls[c].placed, i))
    && (forall c: nat, i :: c >= |s.calls| && 0 <= i < |s.streams| ==> IndexesOf(s.streams[i].entered, c) == [])
  }

  lemma PlacingKeepsOrder(placed: seq<nat>, i: nat)
    requires Nondecreasing(placed) && forall x <- placed :: x <= i
    ensures Nondecreasing(placed + [i])
  {
    assert forall j :: 0 <= j < |placed| ==> placed[j] in placed;
  }

  lemma EdgesStay(depth: nat, s: State, a: Action)
    requires Enabled(depth, s, a)
    ensures |Do(depth, s, a).streams| >= |s.streams|
    ensures forall i :: 0 <= i < |s.streams| ==> Do(depth, s, a).streams[i].edge == s.streams[i].edge
  {
  }

  lemma CallKept(s: State, t: State, c: nat, d: nat)
    requires c < |s.calls| && d < |t.calls| && CallOk(s, c) && t.calls[d] == s.calls[c]
    requires |t.streams| >= |s.streams| && forall i :: 0 <= i < |s.streams| ==> t.streams[i].edge == s.streams[i].edge
    ensures CallOk(t, d)
  {
  }

  lemma CallMoves(depth: nat, s: State, a: Action, c: nat)
    requires Enabled(depth, s, a) && Lifecycle(s) && c < |s.calls| && CallOk(s, c)
    requires a == Lookup(c) || a == Enqueue(c) || a == Abandon(c)
    ensures c < |Do(depth, s, a).calls| && CallOk(Do(depth, s, a), c)
  {
    assert forall x <- s.calls[c].placed :: StreamOk(s, x);
    if a == Enqueue(c) {
      PlacingKeepsOrder(s.calls[c].placed, s.calls[c].stage.stream);
    }
  }

  lemma CallsOkStep(depth: nat, s: State, a: Action)
    requires Enabled(depth, s, a) && Lifecycle(s) && CallsOk(s)
    ensures CallsOk(Do(depth, s, a))
  {
    var t := Do(depth, s, a);
    EdgesStay(depth, s, a);
    forall c | 0 <= c < |t.calls|
      ensures CallOk(t, c)
    {
      if a == Lookup(c) || a == Enqueue(c) || a == Abandon(c) {
        CallMoves(depth, s, a, c);
      } else if c < |s.calls| {
        CallKept(s, t, c, c);
      }
    }
  }

  lemma QueueOkPut(x: Stream, it: Item)
    requires QueueOk(x)
    ensures QueueOk(Put(x, it))
  {
  }

  lemma QueueOkReceive(x: Stream)
    requires QueueOk(x) && x.phase.Serving? && x.inHand == [] && x.ch != []
    ensures QueueOk(x.(inHand := [x.ch[0]], ch := x.ch[1..]))
  {
    assert x.ch == [x.ch[0]] + x.ch[1..];
  }

  lemma QueueOkStep(depth: nat, s: State, a: Action, i: nat)
    requires Enabled(depth, s, a) && i < |s.streams| && QueueOk(s.streams[i])
    ensures i < |Do(depth, s, a).streams| && QueueOk(Do(depth, s, a).streams[i])
  {
    match a {
      case Enqueue(c) => QueueOkPut(s.streams[i], Fragment(c, |s.calls[c].placed|));
      case PushOther(_) => QueueOkPut(s.streams[i], Other);
      case Receive(j) =>
        if i == j {
          QueueOkReceive(s.streams[i]);
        }
      case _ =>
    }
  }

  lemma QueuesOkStep(depth: nat, s: State, a: Action)
    requires Enabled(depth, s, a) && QueuesOk(s)
    ensures QueuesOk(Do(depth, s, a))
  {
    var t := Do(depth, s, a);
    forall i | 0 <= i < |t.streams|
      ensures QueueOk(t.streams[i])
    {
      if i < |s.streams| {
        QueueOkStep(depth, s, a, i);
      }
    }
  }

  lemma MatchesEnqueueAt(depth: nat, s: State, c: nat, d: nat, j: nat)
    requires Enabled(depth, s, Enqueue(c)) && Matches(s) && j < |s.streams|
    ensures var t := Do(depth, s, Enqueue(c));
            && j < |t.streams|
            && IndexesOf(t.streams[j].entered, d) == if d < |t.calls| then PlacedOn(t.calls[d].placed, j) else []
  {
    var t, i, placed := Do(depth, s, Enqueue(c)), s.calls[c].stage.stream, s.calls[c].placed;
    var before := s.streams[j].entered;
    assert t.streams[j].entered == if j == i then before + [Fragment(c, |placed|)] else before;
    assert d < |s.calls| ==> t.calls[d].placed == if d == c then placed + [i] else s.calls[d].placed;
    assert IndexesOf(before, d) == if d < |s.calls| then PlacedOn(s.calls[d].placed, j) else [];
    IndexesAppend(before, Fragment(c, |placed|), d);
    PlacedAppend(placed, i, j);
  }

  lemma MatchesEnqueue(depth: nat, s: State, c: nat)
    requires Enabled(depth, s, Enqueue(c)) && Matches(s)
    ensures Matches(Do(depth, s, Enqueue(c)))
  {
    forall d: nat, j: nat | j < |s.streams|
      ensures var t := Do(depth, s, Enqueue(c));
              && j < |t.streams|
              && IndexesOf(t.streams[j].entered, d) == if d < |t.calls| then PlacedOn(t.calls[d].placed, j) else []
    {
      MatchesEnqueueAt(depth, s, c, d, j);
    }
  }

  lemma MatchesPushOther(depth: nat, s: State, i: nat)
    requires Enabled(depth, s, PushOther(i)) && Matches(s)
    ensures Matches(Do(depth, s, PushOther(i)))
  {
    forall c: nat
      ensures IndexesOf(s.streams[i].entered + [Other], c) == IndexesOf(s.streams[i].entered, c)
    {
      IndexesAppend(s.streams[i].entered, Other, c);
    }
  }

  lemma NotYetPlaced(s: State, c: nat)
    requires c < |s.calls| && CallOk(s, c)
    ensures PlacedOn(s.calls[c].placed, |s.streams|) == []
  {
    var placed := s.calls[c].placed;
    assert forall n :: 0 <= n < |placed| ==> placed[n] in placed;
    NothingPlaced(placed, |s.streams|);
  }

  // A new stream starts empty, and the old ones keep their histories.
  lemma SubscribeHistories(depth: nat, s: State, e: EdgeId)
    requires Enabled(depth, s, Subscribe(e))
    ensures var t := Do(depth, s, Subscribe(e));
            && t.calls == s.calls && |t.streams| == |s.streams| + 1 && t.streams[|s.streams|].entered == []
            && forall i :: 0 <= i < |s.streams| ==> t.streams[i].entered == s.streams[i].entered
  {
  }

  lemma MatchesSubscribe(depth: nat, s: State, e: EdgeId)
    requires Enabled(depth, s, Subscribe(e)) && CallsOk(s) && Matches(s)
    ensures Matches(Do(depth, s, Subscribe(e)))
  {
    SubscribeHistories(depth, s, e);
    forall c | 0 <= c < |s.calls|
      ensures PlacedOn(s.calls[c].placed, |s.streams|) == []
    {
      NotYetPlaced(s, c);
    }
  }

  // The rest adds nothing to a queue and places no fragment.
  lemma MatchesQuietly(depth: nat, s: State, a: Action)
    requires Enabled(depth, s, a) && !a.Enqueue? && !a.PushOther? && !a.Subscribe?
    ensures var t := Do(depth, s, a);
            && |t.streams| == |s.streams|
            && (forall i :: 0 <= i < |s.streams| ==> t.streams[i].entered == s.streams[i].entered)
            && |t.calls| >= |s.calls|
            && (forall c :: 0 <= c < |s.calls| ==> t.calls[c].placed == s.calls[c].placed)
            && (forall c :: |s.calls| <= c < |t.calls| ==> t.calls[c].placed == [])
  {
  }

  lemma MatchesStep(depth: nat, s: State, a: Action)
    requires Enabled(depth, s, a) && CallsOk(s) && Matches(s)
    ensures Matches(Do(depth, s, a))
  {
    match a {
      case Enqueue(c) => MatchesEnqueue(depth, s, c);
      case PushOther(i) => MatchesPushOther(depth, s, i);
      case Subscribe(e) => MatchesSubscribe(depth, s, e);
      case _ => MatchesQuietly(depth, s, a);
    }
  }

  lemma {:induction false} NothingPlaced(placed: seq<nat>, i: nat)
    requires forall n :: 0 <= n < |placed| ==> placed[n] != i
    ensures PlacedOn(placed, i) == []
    decreases |placed|
  {
    if placed != [] {
      NothingPlaced(placed[..|placed| - 1], i);
    }
  }

  ghost predicate SnapshotInv(s: State) {
    Lifecycle(s) && CallsOk(s) && QueuesOk(s) && Matches(s)
  }

  lemma {:induction false} SnapshotRun(depth: nat, s: State, run: seq<Action>)
    requires Runs(depth, s, run) && SnapshotInv(s)
    ensures SnapshotInv(After(depth, s, run))
    decreases |run|
  {
    if run != [] {
      LifecycleStep(depth, s, run[0]);
      CallsOkStep(depth, s, run[0]);
      QueuesOkStep(depth, s, run[0]);
      MatchesStep(depth, s, run[0]);
      SnapshotRun(depth, Do(depth, s, run[0]), run[1..]);
    }
  }

  /** No stream carries a gapped snapshot: whatever re-subscribes happen between its fragments, the
      fragments of one call that enter a stream are one contiguous increasing run, and the agent is
      sent a prefix of it. */
  lemma NoGappedSnapshot(depth: nat, run: seq<Action>, call: nat, i: nat)
    requires Runs(depth, EMPTY, run)
    requires call < |After(depth, EMPTY, run).calls| && i < |After(depth, EMPTY, run).streams|
    ensures var x := After(depth, EMPTY, run).streams[i];
            && Contiguous(IndexesOf(x.entered, call))
            && IndexesOf(x.sent, call) <= IndexesOf(x.entered, call)
            && forall n <- IndexesOf(x.entered, call) :: n < After(depth, EMPTY, run).calls[call].count
  {
    SnapshotRun(depth, EMPTY, run);
    FragmentsAreContiguous(After(depth, EMPTY, run), call, i);
  }

  lemma FragmentsAreContiguous(s: State, call: nat, i: nat)
    requires SnapshotInv(s) && call < |s.calls| && i < |s.streams|
    ensures Contiguous(IndexesOf(s.streams[i].entered, call))
    ensures IndexesOf(s.streams[i].sent, call) <= IndexesOf(s.streams[i].entered, call)
    ensures forall n <- IndexesOf(s.streams[i].entered, call) :: n < s.calls[call].count
  {
    var x := s.streams[i];
    assert CallOk(s, call) && QueueOk(x);
    PlacedIsContiguous(s.calls[call].placed, i);
    PlacedMeans(s.calls[call].placed, i);
    var rest := x.lost + x.inHand + x.ch;
    assert x.entered == x.sent + rest;
    IndexesConcat(x.sent, rest, call);
  }

  function Range(n: nat): seq<nat> {
    seq(n, i => i)
  }

  /** An agent that applies a snapshot once it has seen its first and its last fragment on one stream
      has then seen every fragment exactly once, in order. */
  lemma AppliedSnapshotIsWhole(depth: nat, run: seq<Action>, call: nat, i: nat)
    requires Runs(depth, EMPTY, run)
    requires call < |After(depth, EMPTY, run).calls| && i < |After(depth, EMPTY, run).streams|
    requires var s := After(depth, EMPTY, run);
             var seen := IndexesOf(s.streams[i].sent, call);
             s.calls[call].count > 0 && 0 in seen && s.calls[call].count - 1 in seen
    ensures var s := After(depth, EMPTY, run);
            IndexesOf(s.streams[i].sent, call) == Range(s.calls[call].count)
  {
    NoGappedSnapshot(depth, run, call, i);
    var s := After(depth, EMPTY, run);
    PrefixIsWhole(IndexesOf(s.streams[i].entered, call), IndexesOf(s.streams[i].sent, call), s.calls[call].count);
  }

  lemma PrefixIsWhole(all: seq<nat>, seen: seq<nat>, count: nat)
    requires Contiguous(all) && seen <= all && count > 0 && 0 in seen && count - 1 in seen
    requires forall n <- all :: n < count
    ensures seen == Range(count)
  {
    assert forall n <- seen :: n in all;
    RunFromZero(all);
    assert forall n :: 0 <= n < |seen| ==> seen[n] == all[n] == n;
    assert seen[|seen| - 1] in all;
  }

  /** Conversely a call that pushed all its fragments without being moved to a newer stream put the
      whole snapshot, in order, on that one stream. */
  lemma UnbrokenCallIsWhole(depth: nat, run: seq<Action>, call: nat)
    requires Runs(depth, EMPTY, run) && call < |After(depth, EMPTY, run).calls|
    requires var x := After(depth, EMPTY, run).calls[call];
             x.stage == Finished(true) && x.count > 0 && |x.placed| > 0 && x.placed[0] == x.placed[|x.placed| - 1]
    ensures var s := After(depth, EMPTY, run);
            var x := s.calls[call];
            x.placed[0] < |s.streams| && IndexesOf(s.streams[x.placed[0]].entered, call) == Range(x.count)
  {
    SnapshotRun(depth, EMPTY, run);
    var s := After(depth, EMPTY, run);
    var x := s.calls[call];
    assert CallOk(s, call) && x.placed[0] in x.placed;
    AllOnOne(x.placed, x.placed[0]);
  }

  lemma {:induction false} AllOnOne(placed: seq<nat>, i: nat)
    requires Nondecreasing(placed) && (placed != [] ==> placed[0] == placed[|placed| - 1] == i)
    ensures PlacedOn(placed, i) == Range(|placed|)
    decreases |placed|
  {
    if placed != [] {
      var front := placed[..|placed| - 1];
      if front != [] {
        assert placed[0] <= front[|front| - 1] <= placed[|placed| - 1];
      }
      AllOnOne(front, i);
      assert Range(|placed|) == Range(|front|) + [|front|];
    }
  }

  lemma {:induction false} ContiguousAt(xs: seq<nat>, n: nat)
    requires Contiguous(xs) && n < |xs|
    ensures xs[n] == xs[0] + n
  {
    if n > 0 {
      ContiguousAt(xs, n - 1);
    }
  }

  lemma RunFromZero(xs: seq<nat>)
    requires Contiguous(xs) && 0 in xs
    ensures forall n :: 0 <= n < |xs| ==> xs[n] == n
  {
    forall n | 0 <= n < |xs|
      ensures xs[n] == xs[0] + n
    {
      ContiguousAt(xs, n);
    }
  }

  // ---- a call gives up only when its stream is gone, and otherwise gets through ----

  ghost predicate OpenStreamOf(s: State, e: EdgeId) {
    exists i :: 0 <= i < |s.streams| && s.streams[i].edge == e && s.streams[i].closes == 0
  }

  // A call that gives up in a step did so because its edge has no open stream, or the one it holds is closed.
  lemma GivingUp(depth: nat, s: State, a: Action, c: nat)
    requires Enabled(depth, s, a) && Lifecycle(s) && c < |s.calls| && !s.calls[c].stage.Finished?
    requires c < |Do(depth, s, a).calls| && Do(depth, s, a).calls[c].stage == Finished(false)
    ensures || (s.calls[c].stage.Looking? && !OpenStreamOf(s, s.calls[c].edge))
            || (s.calls[c].stage.Holding? && s.calls[c].stage.stream < |s.streams|
                && s.streams[s.calls[c].stage.stream].closes > 0)
  {
    if s.calls[c].stage.Looking? {
      forall i | 0 <= i < |s.streams| && s.streams[i].edge == s.calls[c].edge
        ensures s.streams[i].closes != 0
      {
        assert StreamOk(s, i);
      }
    }
  }

  /** In every run: no snapshot push fails while its edge has an open stream that it does not hold, or while
      the one it holds is open. */
  lemma OnlyGivesUpWhenGone(depth: nat, run: seq<Action>, a: Action, c: nat)
    requires Runs(depth, EMPTY, run) && Enabled(depth, After(depth, EMPTY, run), a)
    requires var s := After(depth, EMPTY, run);
             && c < |s.calls| && !s.calls[c].stage.Finished?
             && c < |Do(depth, s, a).calls| && Do(depth, s, a).calls[c].stage == Finished(false)
    ensures var s := After(depth, EMPTY, run);
            || (s.calls[c].stage.Looking? && !OpenStreamOf(s, s.calls[c].edge))
            || (s.calls[c].stage.Holding? && s.calls[c].stage.stream < |s.streams|
                && s.streams[s.calls[c].stage.stream].closes > 0)
  {
    LifecycleRun(depth, EMPTY, run);
    GivingUp(depth, After(depth, EMPTY, run), a, c);
  }

  // The steps of one call.
  predicate OwnStep(a: Action, c: nat) {
    a == Lookup(c) || a == Enqueue(c) || a == Abandon(c)
  }

  // Stream i is its edge's registered one, open, with room for what call c has still to place, and the call
  // is on its way there.
  ghost predicate OnItsWay(depth: nat, s: State, c: nat, i: nat) {
    && c < |s.calls| && i < |s.streams|
    && |s.calls[c].placed| <= s.calls[c].count
    && s.calls[c].edge in s.subs && s.subs[s.calls[c].edge] == i && s.streams[i].closes == 0
    && |s.streams[i].ch| + s.calls[c].count - |s.calls[c].placed| <= depth
    && match s.calls[c].stage
       case Looking => true
       case Holding(j) => j == i && |s.calls[c].placed| < s.calls[c].count
       case Finished(ok) => ok && |s.calls[c].placed| == s.calls[c].count
  }

  // The fragments from one index up to another.
  function From(k: nat, n: nat): seq<nat>
    requires k <= n
  {
    seq(n - k, x requires 0 <= x => k + x)
  }

  function CallRank(x: Call): nat {
    match x.stage
    case Looking => if |x.placed| <= x.count then 2 * (x.count - |x.placed|) + 1 else 1
    case Holding(_) => if |x.placed| <= x.count then 2 * (x.count - |x.placed|) else 0
    case Finished(_) => 0
  }

  // Nothing of the call has gone anywhere but, in order, to stream i.
  ghost predicate Advanced(s: State, t: State, c: nat, i: nat) {
    && c < |s.calls| && c < |t.calls| && i < |s.streams| && i < |t.streams|
    && t.calls[c].count == s.calls[c].count && |s.calls[c].placed| <= |t.calls[c].placed|
    && IndexesOf(t.streams[i].entered, c) ==
       IndexesOf(s.streams[i].entered, c) + From(|s.calls[c].placed|, |t.calls[c].placed|)
  }

  lemma AdvancedChain(s: State, t: State, u: State, c: nat, i: nat)
    requires Advanced(s, t, c, i) && Advanced(t, u, c, i)
    ensures Advanced(s, u, c, i)
  {
    var j, k, l := |s.calls[c].placed|, |t.calls[c].placed|, |u.calls[c].placed|;
    assert From(j, k) + From(k, l) == From(j, l);
  }

  // Each own step brings the call nearer, and places its next fragment on that stream or none.
  lemma OwnStepAdvances(depth: nat, s: State, a: Action, c: nat, i: nat)
    requires Enabled(depth, s, a) && OwnStep(a, c) && OnItsWay(depth, s, c, i)
    ensures var t := Do(depth, s, a);
            OnItsWay(depth, t, c, i) && CallRank(t.calls[c]) < CallRank(s.calls[c]) && Advanced(s, t, c, i)
  {
    var t := Do(depth, s, a);
    if a == Enqueue(c) {
      IndexesAppend(s.streams[i].entered, Fragment(c, |s.calls[c].placed|), c);
      assert From(|s.calls[c].placed|, |t.calls[c].placed|) == [|s.calls[c].placed|];
    } else {
      assert From(|s.calls[c].placed|, |t.calls[c].placed|) == [];
      assert t.streams[i].entered == s.streams[i].entered;
    }
  }

  lemma {:induction false} OwnRunAdvances(depth: nat, s: State, run: seq<Action>, c: nat, i: nat)
    requires Runs(depth, s, run) && (forall a <- run :: OwnStep(a, c)) && OnItsWay(depth, s, c, i)
    ensures OnItsWay(depth, After(depth, s, run), c, i) && Advanced(s, After(depth, s, run), c, i)
    ensures |run| + CallRank(After(depth, s, run).calls[c]) <= CallRank(s.calls[c])
    decreases |run|
  {
    if run == [] {
      assert From(|s.calls[c].placed|, |s.calls[c].placed|) == [];
    } else {
      assert run[0] in run && forall a <- run[1..] :: a in run;
      var u := Do(depth, s, run[0]);
      OwnStepAdvances(depth, s, run[0], c, i);
      OwnRunAdvances(depth, u, run[1..], c, i);
      AdvancedChain(s, u, After(depth, s, run), c, i);
    }
  }

  lemma NeverStuck(depth: nat, s: State, c: nat, i: nat)
    requires OnItsWay(depth, s, c, i) && forall a: Action :: OwnStep(a, c) ==> !Enabled(depth, s, a)
    ensures s.calls[c].stage == Finished(true)
  {
    assert !Enabled(depth, s, Lookup(c)) && !Enabled(depth, s, Enqueue(c));
  }

  lemma {:induction false} CanFinish(depth: nat, s: State, c: nat, i: nat) returns (run: seq<Action>)
    requires OnItsWay(depth, s, c, i)
    ensures Runs(depth, s, run) && (forall a <- run :: OwnStep(a, c))
    ensures c < |After(depth, s, run).calls| && After(depth, s, run).calls[c].stage == Finished(true)
    decreases if c < |s.calls| then CallRank(s.calls[c]) else 0
  {
    if s.calls[c].stage.Finished? {
      run := [];
    } else {
      var a := if s.calls[c].stage.Looking? then Lookup(c) else Enqueue(c);
      OwnStepAdvances(depth, s, a, c, i);
      var rest := CanFinish(depth, Do(depth, s, a), c, i);
      run := [a] + rest;
      assert run[1..] == rest;
    }
  }

  lemma PlacedNothing(s: State, c: nat, i: nat)
    requires Matches(s) && c < |s.calls| && i < |s.streams| && s.calls[c].placed == []
    ensures IndexesOf(s.streams[i].entered, c) == []
  {
  }

  // The call has not placed anything, and its edge has a stream with room for all of it.
  ghost predicate HasRoom(depth: nat, s: State, c: nat) {
    && c < |s.calls| && s.calls[c].stage.Looking? && s.calls[c].placed == []
    && s.calls[c].edge in s.subs && s.subs[s.calls[c].edge] < |s.streams|
    && |s.streams[s.subs[s.calls[c].edge]].ch| + s.calls[c].count <= depth
  }

  // The call has succeeded with all its fragments on the stream that was its edge's.
  ghost predicate ThroughOn(s: State, t: State, c: nat) {
    && c < |s.calls| && c < |t.calls| && t.calls[c].stage == Finished(true)
    && s.calls[c].edge in s.subs && s.subs[s.calls[c].edge] < |t.streams|
    && IndexesOf(t.streams[s.subs[s.calls[c].edge]].entered, c) == Range(s.calls[c].count)
  }

  // The call's own steps, until none is left.
  ghost predicate GoesOnToTheEnd(depth: nat, s: State, own: seq<Action>, c: nat) {
    && Runs(depth, s, own) && (forall a <- own :: OwnStep(a, c))
    && forall a: Action :: OwnStep(a, c) ==> !Enabled(depth, After(depth, s, own), a)
  }

  lemma RoomMeansWay(depth: nat, s: State, c: nat)
    requires SnapshotInv(s) && HasRoom(depth, s, c)
    ensures OnItsWay(depth, s, c, s.subs[s.calls[c].edge])
  {
    assert StreamOk(s, s.subs[s.calls[c].edge]);
  }

  lemma EndIsThrough(depth: nat, s: State, own: seq<Action>, c: nat)
    requires SnapshotInv(s) && HasRoom(depth, s, c) && GoesOnToTheEnd(depth, s, own, c)
    ensures ThroughOn(s, After(depth, s, own), c)
  {
    var i, t := s.subs[s.calls[c].edge], After(depth, s, own);
    RoomMeansWay(depth, s, c);
    OwnRunAdvances(depth, s, own, c, i);
    NeverStuck(depth, t, c, i);
    PlacedNothing(s, c, i);
    assert From(0, s.calls[c].count) == Range(s.calls[c].count);
  }

  lemma FinishedIsTheEnd(depth: nat, t: State, c: nat)
    requires c < |t.calls| && t.calls[c].stage.Finished?
    ensures forall a: Action :: OwnStep(a, c) ==> !Enabled(depth, t, a)
  {
  }

  lemma EndExists(depth: nat, s: State, c: nat)
    requires SnapshotInv(s) && HasRoom(depth, s, c)
    ensures exists own :: GoesOnToTheEnd(depth, s, own, c)
  {
    RoomMeansWay(depth, s, c);
    var own := CanFinish(depth, s, c, s.subs[s.calls[c].edge]);
    FinishedIsTheEnd(depth, After(depth, s, own), c);
    assert GoesOnToTheEnd(depth, s, own, c);
  }

  ghost predicate GetsThrough(depth: nat, s: State, c: nat) {
    && (exists own :: GoesOnToTheEnd(depth, s, own, c))
    && forall own :: GoesOnToTheEnd(depth, s, own, c) ==> ThroughOn(s, After(depth, s, own), c)
  }

  lemma RoomGetsThrough(depth: nat, s: State, c: nat)
    requires SnapshotInv(s) && HasRoom(depth, s, c)
    ensures GetsThrough(depth, s, c)
  {
    EndExists(depth, s, c);
    forall own | GoesOnToTheEnd(depth, s, own, c)
      ensures ThroughOn(s, After(depth, s, own), c)
    {
      EndIsThrough(depth, s, own, c);
    }
  }

  /** In every run: a snapshot push whose edge keeps its stream, with room for all fragments, gets through by
      its own steps alone: some such steps go on to the end, and whenever they do it has succeeded and put
      the fragments 0 to count - 1 on that stream, in order. */
  lemma CallGetsThrough(depth: nat, run: seq<Action>, c: nat)
    requires Runs(depth, EMPTY, run) && HasRoom(depth, After(depth, EMPTY, run), c)
    ensures GetsThrough(depth, After(depth, EMPTY, run), c)
  {
    SnapshotRun(depth, EMPTY, run);
    RoomGetsThrough(depth, After(depth, EMPTY, run), c);
  }

  // ---- and what is on a stream that is being served can be sent ----

  predicate ServeStep(a: Action, i: nat) {
    a == Receive(i) || a == Send(i)
  }

  lemma {:induction false} CanSendAll(depth: nat, s: State, i: nat) returns (run: seq<Action>)
    requires i < |s.streams| && s.streams[i].phase.Serving? && QueueOk(s.streams[i])
    ensures Runs(depth, s, run) && forall a <- run :: ServeStep(a, i)
    ensures i < |After(depth, s, run).streams|
    ensures After(depth, s, run).streams[i].entered == s.streams[i].entered
    ensures After(depth, s, run).streams[i].sent == s.streams[i].entered
    decreases if i < |s.streams| then 2 * |s.streams[i].ch| + |s.streams[i].inHand| else 0
  {
    var x := s.streams[i];
    if x.inHand == [] && x.ch == [] {
      run := [];
      assert x.sent + x.lost + x.inHand + x.ch == x.sent;
    } else {
      var a := if x.inHand == [] then Receive(i) else Send(i);
      QueueOkStep(depth, s, a, i);
      var rest := CanSendAll(depth, Do(depth, s, a), i);
      run := [a] + rest;
      assert run[1..] == rest;
    }
  }

  /** In every run: a stream that is being served can, by the send loop's steps alone, send everything that
      has entered it, so an agent can get every snapshot whose push got through. */
  lemma ServedStreamSendsAll(depth: nat, run: seq<Action>, i: nat)
    requires Runs(depth, EMPTY, run)
    requires i < |After(depth, EMPTY, run).streams| && After(depth, EMPTY, run).streams[i].phase.Serving?
    ensures exists own ::
              && Runs(depth, After(depth, EMPTY, run), own) && (forall a <- own :: ServeStep(a, i))
              && SentAll(After(depth, EMPTY, run), After(depth, After(depth, EMPTY, run), own), i)
  {
    SnapshotRun(depth, EMPTY, run);
    var own := CanSendAll(depth, After(depth, EMPTY, run), i);
  }

  ghost predicate SentAll(s: State, t: State, i: nat) {
    && i < |s.streams| && i < |t.streams| && t.streams[i].sent == s.streams[i].entered
    && forall c: nat :: IndexesOf(t.streams[i].sent, c) == IndexesOf(s.streams[i].entered, c)
  }
}
