/** The relay workers of one connection behind an agent's stream: its calls to push never overlap. */
module RelayPush {
  import opened Edges
  import R = Relay
  import P = PushProtocol
  import opened PushBytes
  import opened PushSingle

  // The workers, and the stream of one edge with one potential pusher per worker.
  datatype State = State(relay: R.State, stream: P.State)

  datatype Action = RelayStep(r: R.Action) | StreamStep(p: P.Action)

  // A worker calls push, once or fragment by fragment, while it relays a directive of the edge, and is
  // done with the directive when its last call has returned.
  predicate Enabled(c: P.Config, e: EdgeId, s: State, a: Action) {
    match a
    case RelayStep(r) =>
      && R.Enabled(s.relay, r)
      && (r.RelayIt? && r.w < |s.stream.pushers| ==> s.stream.pushers[r.w].Resting?)
    case StreamStep(p) =>
      && P.Enabled(c, s.stream, p)
      && (p.Begin? ==> && p.p < |s.relay.workers| && s.relay.workers[p.p].edge == e
                       && s.relay.workers[p.p].stage.Relaying?)
  }

  function Do(c: P.Config, e: EdgeId, s: State, a: Action): State
    requires Enabled(c, e, s, a)
  {
    match a
    case RelayStep(r) => s.(relay := R.Do(s.relay, r))
    case StreamStep(p) => s.(stream := P.Do(c, s.stream, p))
  }

  predicate Runs(c: P.Config, e: EdgeId, s: State, run: seq<Action>)
    decreases |run|
  {
    run == [] || (Enabled(c, e, s, run[0]) && Runs(c, e, Do(c, e, s, run[0]), run[1..]))
  }

  function After(c: P.Config, e: EdgeId, s: State, run: seq<Action>): State
    requires Runs(c, e, s, run)
    decreases |run|
  {
    if run == [] then s else After(c, e, Do(c, e, s, run[0]), run[1..])
  }

  // Whoever is in a call to push is a worker that is relaying a directive of the edge.
  ghost predicate PusherIsRelayer(e: EdgeId, s: State, q: nat)
    requires q < |s.stream.pushers|
  {
    s.stream.pushers[q].Resting?
    || (q < |s.relay.workers| && s.relay.workers[q].edge == e && s.relay.workers[q].stage.Relaying?)
  }

  ghost predicate Joined(e: EdgeId, s: State) {
    && s.stream.pushers != [] && R.WorkersOk(s.relay)
    && forall q :: 0 <= q < |s.stream.pushers| ==> PusherIsRelayer(e, s, q)
  }

  // The edge has one live worker, so at most one pusher is in a call.
  lemma JoinedIsSolo(e: EdgeId, s: State)
    requires Joined(e, s)
    ensures exists p :: Solo(s.stream, p)
  {
    var p := if e in s.relay.table && s.relay.table[e] < |s.stream.pushers| then s.relay.table[e] else 0;
    forall q | 0 <= q < |s.stream.pushers| && q != p
      ensures s.stream.pushers[q].Resting?
    {
      assert PusherIsRelayer(e, s, q);
      assert q < |s.relay.workers| ==> R.WorkerOk(s.relay, q);
    }
    assert Solo(s.stream, p);
  }

  lemma RelayStepJoined(c: P.Config, e: EdgeId, s: State, r: R.Action)
    requires Enabled(c, e, s, RelayStep(r)) && Joined(e, s)
    ensures Joined(e, Do(c, e, s, RelayStep(r)))
  {
    var t := Do(c, e, s, RelayStep(r));
    R.WorkersOkStep(s.relay, r);
    forall q | 0 <= q < |t.stream.pushers|
      ensures PusherIsRelayer(e, t, q)
    {
      assert PusherIsRelayer(e, s, q);
    }
  }

  lemma StreamStepJoined(c: P.Config, e: EdgeId, s: State, p: P.Action)
    requires Enabled(c, e, s, StreamStep(p)) && Joined(e, s)
    ensures Joined(e, Do(c, e, s, StreamStep(p)))
  {
    var t := Do(c, e, s, StreamStep(p));
    OnlyOneMoves(c, s.stream, p);
    forall q | 0 <= q < |t.stream.pushers|
      ensures PusherIsRelayer(e, t, q)
    {
      assert PusherIsRelayer(e, s, q);
    }
  }

  // The stream's part of a run.
  function OnStream(run: seq<Action>): seq<P.Action> {
    if run == [] then []
    else (if run[0].StreamStep? then [run[0].p] else []) + OnStream(run[1..])
  }

  lemma {:induction false} StreamPart(c: P.Config, e: EdgeId, s: State, run: seq<Action>)
    requires Runs(c, e, s, run) && Joined(e, s)
    ensures Joined(e, After(c, e, s, run))
    ensures P.Runs(c, s.stream, OnStream(run)) && NeverOverlaps(c, s.stream, OnStream(run))
    ensures P.After(c, s.stream, OnStream(run)) == After(c, e, s, run).stream
    decreases |run|
  {
    JoinedIsSolo(e, s);
    if run != [] {
      var t := Do(c, e, s, run[0]);
      match run[0] {
        case RelayStep(r) =>
          RelayStepJoined(c, e, s, r);
          assert OnStream(run) == OnStream(run[1..]);
        case StreamStep(p) =>
          StreamStepJoined(c, e, s, p);
          assert OnStream(run)[0] == p && OnStream(run)[1..] == OnStream(run[1..]);
      }
      StreamPart(c, e, t, run[1..]);
    }
  }

  /** Behind one connection's relay workers a stream keeps the sequential byte budget, across coalescing,
      reaping and re-creation of workers, and however many fragments a directive is split into. */
  lemma RelayedBudget(c: P.Config, e: EdgeId, n: nat, run: seq<Action>)
    requires n > 0 && Runs(c, e, State(R.EMPTY, P.Init(n)), run)
    ensures var ch := After(c, e, State(R.EMPTY, P.Init(n)), run).stream.ch;
            Bytes(ch) <= c.maxBytes || LoneChunk(Payloads(ch))
  {
    StreamPart(c, e, State(R.EMPTY, P.Init(n)), run);
    SequentialBudget(c, n, OnStream(run));
  }
}
