/**
 The per-edge relay workers of one connection: a dispatcher that creates workers lazily and appends
 under two locks, and workers that drain their queue and are reaped when idle.
 */
module Relay {
  import opened Edges
  import opened Sequences
  import opened Directives
  import opened RelayQueue

  datatype Stage =
    | Checking                  // about to look at its queue
    | Relaying(d: Directive)
    | Parked                    // waiting for wake or for the idle timer
    | Exited

  datatype Worker = Worker(edge: EdgeId, queue: seq<Directive>, wake: bool, stage: Stage)

  // Holding: the table lock is held, the directive not yet enqueued.
  datatype Dispatcher = Ready | Holding(w: nat, d: Directive) | Signalling(w: nat)

  datatype Sent = Sent(edge: EdgeId, d: Directive)

  datatype State = State(
    workers: seq<Worker>, table: map<EdgeId, nat>, disp: Dispatcher, dispatched: seq<Sent>, relayed: seq<Sent>)

  datatype Action =
    | Dispatch(edge: EdgeId, d: Directive)
    | EnqueueNow
    | SignalNow
    | Look(w: nat)
    | RelayIt(w: nat)
    | WakeUp(w: nat)
    | IdleFires(w: nat)         // the reap, under both locks

  const EMPTY := State([], map[], Ready, [], [])

  predicate Enabled(s: State, a: Action) {
    match a
    case Dispatch(e, _) => s.disp.Ready? && (e in s.table ==> s.table[e] < |s.workers|)
    case EnqueueNow => s.disp.Holding? && s.disp.w < |s.workers|
    case SignalNow => s.disp.Signalling? && s.disp.w < |s.workers|
    case Look(w) => w < |s.workers| && s.workers[w].stage.Checking?
    case RelayIt(w) => w < |s.workers| && s.workers[w].stage.Relaying?
    case WakeUp(w) => w < |s.workers| && s.workers[w].stage.Parked? && s.workers[w].wake
    case IdleFires(w) => w < |s.workers| && s.workers[w].stage.Parked? && !s.disp.Holding?
  }

  function Do(s: State, a: Action): State
    requires Enabled(s, a)
  {
    match a
    case Dispatch(e, d) =>
      var t := s.(dispatched := s.dispatched + [Sent(e, d)]);
      if e in s.table then t.(disp := Holding(s.table[e], d))
      else t.(workers := s.workers + [Worker(e, [], false, Checking)],
              table := s.table[e := |s.workers|], disp := Holding(|s.workers|, d))
    case EnqueueNow =>
      var w := s.disp.w;
      var x := s.workers[w];
      s.(workers := s.workers[w := x.(queue := Coalesce(x.queue, s.disp.d))], disp := Signalling(w))
    case SignalNow => s.(workers := s.workers[s.disp.w := s.workers[s.disp.w].(wake := true)], disp := Ready)
    case Look(w) =>
      var x := s.workers[w];
      if x.queue == [] then s.(workers := s.workers[w := x.(stage := Parked)])
      else s.(workers := s.workers[w := x.(queue := x.queue[1..], stage := Relaying(x.queue[0]))])
    case RelayIt(w) =>
      var x := s.workers[w];
      s.(workers := s.workers[w := x.(stage := Checking)], relayed := s.relayed + [Sent(x.edge, x.stage.d)])
    case WakeUp(w) => s.(workers := s.workers[w := s.workers[w].(wake := false, stage := Checking)])
    case IdleFires(w) =>
      var x := s.workers[w];
      if x.queue != [] then s.(workers := s.workers[w := x.(stage := Checking)])
      else s.(workers := s.workers[w := x.(stage := Exited)],
              table := if x.edge in s.table && s.table[x.edge] == w then s.table - {x.edge} else s.table)
  }

  predicate Runs(s: State, run: seq<Action>)
    decreases |run|
  {
    run == [] || (Enabled(s, run[0]) && Runs(Do(s, run[0]), run[1..]))
  }

  function After(s: State, run: seq<Action>): State
    requires Runs(s, run)
    decreases |run|
  {
    if run == [] then s else After(Do(s, run[0]), run[1..])
  }

  // ---- no directive is lost to the reap ----

  ghost predicate WorkerOk(s: State, w: nat)
    requires w < |s.workers|
  {
    var x := s.workers[w];
    && (!x.stage.Exited? ==> x.edge in s.table && s.table[x.edge] == w)
    && (x.queue != [] ==> !x.stage.Exited?)
    && (x.queue != [] && x.stage.Parked? ==> x.wake || s.disp == Signalling(w))
    && Compact(x.queue)
  }

  ghost predicate TableOk(s: State) {
    && (forall e <- s.table ::
        s.table[e] < |s.workers| && s.workers[s.table[e]].edge == e && !s.workers[s.table[e]].stage.Exited?)
    && (!s.disp.Ready? ==> s.disp.w < |s.workers|)
    && (s.disp.Holding? ==>
          && !s.workers[s.disp.w].stage.Exited?
          && s.dispatched != [] && s.dispatched[|s.dispatched| - 1] == Sent(s.workers[s.disp.w].edge, s.disp.d))
  }

  /** A worker with directives has not exited, and if it is parked it is, or is about to be, woken; a
      live worker is its edge's registered one, so there is at most one per edge. */
  ghost predicate WorkersOk(s: State) {
    TableOk(s) && forall w :: 0 <= w < |s.workers| ==> WorkerOk(s, w)
  }

  lemma TableOkStep(s: State, a: Action)
    requires Enabled(s, a) && WorkersOk(s)
    ensures TableOk(Do(s, a))
  {
    if a.IdleFires? {
      assert WorkerOk(s, a.w);
    }
  }

  lemma WorkerOkStep(s: State, a: Action, w: nat)
    requires Enabled(s, a) && WorkersOk(s) && w < |Do(s, a).workers|
    ensures WorkerOk(Do(s, a), w)
  {
    if w < |s.workers| {
      assert WorkerOk(s, w);
      if a.EnqueueNow? {
        CompactStays(s.workers[w].queue, s.disp.d);
      }
    }
  }

  lemma WorkersOkStep(s: State, a: Action)
    requires Enabled(s, a) && WorkersOk(s)
    ensures WorkersOk(Do(s, a))
  {
    TableOkStep(s, a);
    forall w | 0 <= w < |Do(s, a).workers|
      ensures WorkerOk(Do(s, a), w)
    {
      WorkerOkStep(s, a, w);
    }
  }

  lemma {:induction false} WorkersOkRun(s: State, run: seq<Action>)
    requires Runs(s, run) && WorkersOk(s)
    ensures WorkersOk(After(s, run))
    decreases |run|
  {
    if run != [] {
      WorkersOkStep(s, run[0]);
      WorkersOkRun(Do(s, run[0]), run[1..]);
    }
  }

  /** In every reachable state a directive for any edge can be dispatched at once, or the dispatch under way
      can take its next step: it never waits for a worker. */
  lemma DispatchNeverBlocks(run: seq<Action>, e: EdgeId, d: Directive)
    requires Runs(EMPTY, run)
    ensures var s := After(EMPTY, run);
            if s.disp.Ready? then Enabled(s, Dispatch(e, d)) else Enabled(s, EnqueueNow) || Enabled(s, SignalNow)
  {
    WorkersOkRun(EMPTY, run);
  }

  // ---- relays follow dispatches, and mean the same ----

  function OnEdge(sent: seq<Sent>, e: EdgeId): seq<Directive> {
    if sent == [] then []
    else OnEdge(sent[..|sent| - 1], e) + if sent[|sent| - 1].edge == e then [sent[|sent| - 1].d] else []
  }

  lemma OnEdgeAppend(sent: seq<Sent>, x: Sent, e: EdgeId)
    ensures OnEdge(sent + [x], e) == OnEdge(sent, e) + if x.edge == e then [x.d] else []
  {
    assert (sent + [x])[..|sent|] == sent;
  }

  function Hand(x: Worker): seq<Directive> {
    if x.stage.Relaying? then [x.stage.d] else []
  }

  // What the edge's registered worker still has to relay, in the order it will.
  function InHand(s: State, e: EdgeId): seq<Directive> {
    if e in s.table && s.table[e] < |s.workers| then Hand(s.workers[s.table[e]]) else []
  }

  function Waiting(s: State, e: EdgeId): seq<Directive> {
    if e in s.table && s.table[e] < |s.workers| then s.workers[s.table[e]].queue else []
  }

  // Dispatched and no longer in the dispatcher's hand.
  function Handed(s: State): seq<Sent> {
    if s.disp.Holding? && s.dispatched != [] then s.dispatched[..|s.dispatched| - 1] else s.dispatched
  }

  // In the dispatcher's hand, for the worker of this edge.
  function Entering(s: State, e: EdgeId): seq<Directive> {
    if s.disp.Holding? && s.disp.w < |s.workers| && s.workers[s.disp.w].edge == e then [s.disp.d] else []
  }

  // Relayed, in hand, queued.
  function Line(s: State, e: EdgeId): seq<Directive> {
    OnEdge(s.relayed, e) + InHand(s, e) + Waiting(s, e)
  }

  ghost predicate Faithful(s: State, e: EdgeId) {
    && Subsequence(Line(s, e), OnEdge(Handed(s), e))
    && Others(Line(s, e)) == Others(OnEdge(Handed(s), e))
  }

  ghost predicate SameMeaning<D, O>(m: Semantics<D, O>, a: Agent<D, O>, s: State, e: EdgeId) {
    Fold(m, a, Line(s, e)) == Fold(m, a, OnEdge(Handed(s), e))
  }

  lemma LineLook(s: State, w: nat, e: EdgeId)
    requires Enabled(s, Look(w)) && WorkersOk(s)
    ensures Line(Do(s, Look(w)), e) == Line(s, e)
  {
    assert WorkerOk(s, w);
    var x := s.workers[w];
    if x.queue != [] && e == x.edge {
      assert x.queue == [x.queue[0]] + x.queue[1..];
      assert InHand(s, e) == [] && InHand(Do(s, Look(w)), e) == [x.queue[0]];
    }
  }

  lemma LineRelay(s: State, w: nat, e: EdgeId)
    requires Enabled(s, RelayIt(w)) && WorkersOk(s)
    ensures Line(Do(s, RelayIt(w)), e) == Line(s, e)
  {
    assert WorkerOk(s, w);
    var x, t := s.workers[w], Do(s, RelayIt(w));
    OnEdgeAppend(s.relayed, Sent(x.edge, x.stage.d), e);
    if e == x.edge {
      assert InHand(s, e) == [x.stage.d] && InHand(t, e) == [];
    } else {
      assert InHand(t, e) == InHand(s, e) && Waiting(t, e) == Waiting(s, e);
    }
  }

  lemma LineReap(s: State, w: nat, e: EdgeId)
    requires Enabled(s, IdleFires(w)) && WorkersOk(s)
    ensures Line(Do(s, IdleFires(w)), e) == Line(s, e)
  {
    assert WorkerOk(s, w);
    var t := Do(s, IdleFires(w));
    assert InHand(t, e) == InHand(s, e) && Waiting(t, e) == Waiting(s, e);
  }

  lemma LineQuiet(s: State, a: Action, e: EdgeId)
    requires Enabled(s, a) && WorkersOk(s) && (a.Dispatch? || a.SignalNow? || a.WakeUp?)
    ensures Line(Do(s, a), e) == Line(s, e)
  {
    var t := Do(s, a);
    assert t.relayed == s.relayed && InHand(t, e) == InHand(s, e) && Waiting(t, e) == Waiting(s, e);
  }

  // Only enqueueing changes an edge's line; everything else moves directives along it.
  lemma LineMoves(s: State, a: Action, e: EdgeId)
    requires Enabled(s, a) && WorkersOk(s) && !a.EnqueueNow?
    ensures Line(Do(s, a), e) == Line(s, e) && Handed(Do(s, a)) == Handed(s)
  {
    match a {
      case Look(w) => LineLook(s, w, e);
      case RelayIt(w) => LineRelay(s, w, e);
      case IdleFires(w) => LineReap(s, w, e);
      case _ => LineQuiet(s, a, e);
    }
    HandedStays(s, a);
  }

  lemma HandedStays(s: State, a: Action)
    requires Enabled(s, a) && !a.EnqueueNow?
    ensures Handed(Do(s, a)) == Handed(s)
  {
    if a.Dispatch? {
      assert Do(s, a).dispatched[..|s.dispatched|] == s.dispatched;
    }
  }

  lemma LineEnqueue(s: State, e: EdgeId)
    requires Enabled(s, EnqueueNow) && WorkersOk(s)
    ensures var t, x := Do(s, EnqueueNow), s.workers[s.disp.w];
            if e == x.edge
            then && OnEdge(Handed(t), e) == OnEdge(Handed(s), e) + [s.disp.d]
                 && Waiting(s, e) == x.queue
                 && Line(t, e) == OnEdge(s.relayed, e) + InHand(s, e) + Coalesce(x.queue, s.disp.d)
            else OnEdge(Handed(t), e) == OnEdge(Handed(s), e) && Line(t, e) == Line(s, e)
  {
    assert WorkerOk(s, s.disp.w);
    assert s.dispatched == Handed(s) + [Sent(s.workers[s.disp.w].edge, s.disp.d)];
    OnEdgeAppend(Handed(s), Sent(s.workers[s.disp.w].edge, s.disp.d), e);
  }

  lemma FaithfulStep(s: State, a: Action, e: EdgeId)
    requires Enabled(s, a) && WorkersOk(s) && Faithful(s, e)
    ensures Faithful(Do(s, a), e)
  {
    if a.EnqueueNow? {
      LineEnqueue(s, e);
      var p, x, d, all := OnEdge(s.relayed, e) + InHand(s, e), s.workers[s.disp.w], s.disp.d, OnEdge(Handed(s), e);
      if e == x.edge {
        CoalescingKeepsOrder(p, x.queue, all, d);
        CoalescingKeepsOthers(p, x.queue, d);
        OthersAppend(p + x.queue, d);
        OthersAppend(all, d);
      }
    } else {
      LineMoves(s, a, e);
    }
  }

  lemma SameMeaningStep<D, O>(m: Semantics<D, O>, ag: Agent<D, O>, s: State, a: Action, e: EdgeId)
    requires Enabled(s, a) && WorkersOk(s) && SameMeaning(m, ag, s, e)
    ensures SameMeaning(m, ag, Do(s, a), e)
  {
    if a.EnqueueNow? {
      LineEnqueue(s, e);
      var x := s.workers[s.disp.w];
      if e == x.edge {
        CoalescingPreservesMeaning(m, ag, OnEdge(s.relayed, e) + InHand(s, e), x.queue, s.disp.d);
        FoldAppend(m, ag, OnEdge(Handed(s), e), s.disp.d);
      }
    } else {
      LineMoves(s, a, e);
    }
  }

  lemma {:induction false} RelayRun<D, O>(m: Semantics<D, O>, ag: Agent<D, O>, s: State, run: seq<Action>, e: EdgeId)
    requires Runs(s, run) && WorkersOk(s) && Faithful(s, e) && SameMeaning(m, ag, s, e)
    ensures var t := After(s, run); WorkersOk(t) && Faithful(t, e) && SameMeaning(m, ag, t, e)
    decreases |run|
  {
    if run != [] {
      WorkersOkStep(s, run[0]);
      FaithfulStep(s, run[0], e);
      SameMeaningStep(m, ag, s, run[0], e);
      RelayRun(m, ag, Do(s, run[0]), run[1..], e);
    }
  }

  // What was dispatched for the edge is in the dispatcher's hand, for that edge's worker, or handed over.
  lemma DispatchedForEdge(s: State, e: EdgeId)
    requires WorkersOk(s)
    ensures OnEdge(s.dispatched, e) == OnEdge(Handed(s), e) + Entering(s, e)
  {
    if s.disp.Holding? {
      assert s.dispatched == Handed(s) + [Sent(s.workers[s.disp.w].edge, s.disp.d)];
      OnEdgeAppend(Handed(s), Sent(s.workers[s.disp.w].edge, s.disp.d), e);
    }
  }

  // Everything dispatched for the edge and not coalesced away, in the order the agent will get it.
  function WholeLine(s: State, e: EdgeId): seq<Directive> {
    Line(s, e) + Entering(s, e)
  }

  lemma WholeLineHolds<D, O>(m: Semantics<D, O>, ag: Agent<D, O>, s: State, e: EdgeId)
    requires WorkersOk(s) && Faithful(s, e) && SameMeaning(m, ag, s, e)
    ensures Subsequence(WholeLine(s, e), OnEdge(s.dispatched, e))
    ensures Others(WholeLine(s, e)) == Others(OnEdge(s.dispatched, e))
    ensures Fold(m, ag, WholeLine(s, e)) == Fold(m, ag, OnEdge(s.dispatched, e))
  {
    DispatchedForEdge(s, e);
    var line, handed, entering := Line(s, e), OnEdge(Handed(s), e), Entering(s, e);
    if entering == [] {
      assert line + entering == line && handed + entering == handed;
    } else {
      Both(line, handed, entering[0]);
      OthersAppend(line, entering[0]);
      OthersAppend(handed, entering[0]);
      FoldAppend(m, ag, line, entering[0]);
      FoldAppend(m, ag, handed, entering[0]);
    }
  }

  /** In every reachable state and for every edge: relayed, in hand, queued and about to be queued together
      are a subsequence of what was dispatched to that edge, keep everything independent of desired state,
      and bring any agent to exactly the state all dispatched directives would have. */
  lemma RelayIsFaithful<D, O>(m: Semantics<D, O>, ag: Agent<D, O>, run: seq<Action>, e: EdgeId)
    requires Runs(EMPTY, run)
    ensures var s := After(EMPTY, run);
            && WorkersOk(s)
            && Subsequence(WholeLine(s, e), OnEdge(s.dispatched, e))
            && Others(WholeLine(s, e)) == Others(OnEdge(s.dispatched, e))
            && Fold(m, ag, WholeLine(s, e)) == Fold(m, ag, OnEdge(s.dispatched, e))
  {
    RelayRun(m, ag, EMPTY, run, e);
    WholeLineHolds(m, ag, After(EMPTY, run), e);
  }

  // ---- left alone, everything dispatched is relayed ----

  // Idle timers may fire at any time; only the rest is bound to happen.
  ghost predicate Stuck(s: State) {
    forall a: Action :: !a.Dispatch? && !a.IdleFires? ==> !Enabled(s, a)
  }

  function StageRank(x: Worker): nat {
    (match x.stage
     case Checking => 2
     case Relaying(_) => 3
     case Parked => if x.queue == [] then 1 else 3
     case Exited => 0)
    + 2 * |x.queue| + if x.wake then 2 else 0
  }

  function WorkersRank(ws: seq<Worker>): nat {
    if ws == [] then 0 else StageRank(ws[0]) + WorkersRank(ws[1..])
  }

  lemma {:induction false} WorkersRankUpdate(ws: seq<Worker>, w: nat, x: Worker)
    requires w < |ws|
    ensures WorkersRank(ws[w := x]) + StageRank(ws[w]) == WorkersRank(ws) + StageRank(x)
  {
    if w > 0 {
      assert ws[w := x][1..] == ws[1..][w - 1 := x];
      WorkersRankUpdate(ws[1..], w - 1, x);
    } else {
      assert ws[w := x][1..] == ws[1..];
    }
  }

  function Rank(s: State): nat {
    WorkersRank(s.workers) + match s.disp case Ready => 0 case Holding(_, _) => 8 case Signalling(_) => 3
  }

  lemma {:induction false} OthersShorter(q: seq<Directive>)
    ensures |Others(q)| <= |q|
    decreases |q|
  {
    if q != [] {
      OthersShorter(q[..|q| - 1]);
    }
  }

  // A step moves at most one worker; the rest of the rank is the dispatcher's.
  lemma EnqueueRank(s: State)
    requires Enabled(s, EnqueueNow)
    ensures Rank(Do(s, EnqueueNow)) < Rank(s)
  {
    var w, t := s.disp.w, Do(s, EnqueueNow);
    OthersShorter(s.workers[w].queue);
    assert |t.workers[w].queue| <= |s.workers[w].queue| + 1;
    WorkersRankUpdate(s.workers, w, t.workers[w]);
  }

  lemma SignalRank(s: State)
    requires Enabled(s, SignalNow)
    ensures Rank(Do(s, SignalNow)) < Rank(s)
  {
    WorkersRankUpdate(s.workers, s.disp.w, Do(s, SignalNow).workers[s.disp.w]);
  }

  lemma LookRank(s: State, w: nat)
    requires Enabled(s, Look(w))
    ensures Rank(Do(s, Look(w))) < Rank(s)
  {
    WorkersRankUpdate(s.workers, w, Do(s, Look(w)).workers[w]);
  }

  lemma RelayRank(s: State, w: nat)
    requires Enabled(s, RelayIt(w))
    ensures Rank(Do(s, RelayIt(w))) < Rank(s)
  {
    WorkersRankUpdate(s.workers, w, Do(s, RelayIt(w)).workers[w]);
  }

  lemma WakeRank(s: State, w: nat)
    requires Enabled(s, WakeUp(w))
    ensures Rank(Do(s, WakeUp(w))) < Rank(s)
  {
    WorkersRankUpdate(s.workers, w, Do(s, WakeUp(w)).workers[w]);
  }

  lemma IdleRank(s: State, w: nat)
    requires Enabled(s, IdleFires(w))
    ensures Rank(Do(s, IdleFires(w))) < Rank(s)
  {
    WorkersRankUpdate(s.workers, w, Do(s, IdleFires(w)).workers[w]);
  }

  lemma RankFalls(s: State, a: Action)
    requires !a.Dispatch? && Enabled(s, a)
    ensures Rank(Do(s, a)) < Rank(s)
  {
    match a {
      case EnqueueNow => EnqueueRank(s);
      case SignalNow => SignalRank(s);
      case Look(w) => LookRank(s, w);
      case RelayIt(w) => RelayRank(s, w);
      case WakeUp(w) => WakeRank(s, w);
      case IdleFires(w) => IdleRank(s, w);
    }
  }

  lemma {:induction false} QuietRunBounded(s: State, run: seq<Action>)
    requires Runs(s, run) && forall a <- run :: !a.Dispatch?
    ensures |run| + Rank(After(s, run)) <= Rank(s)
    decreases |run|
  {
    if run != [] {
      assert run[0] in run && forall a <- run[1..] :: a in run;
      RankFalls(s, run[0]);
      QuietRunBounded(Do(s, run[0]), run[1..]);
    }
  }

  /** With no further dispatches, and wherever idle timers fire, the workers come to rest within Rank(s)
      steps; then nothing is held back, what was relayed to each edge means what was dispatched to it,
      and once the timers have fired too no worker is left. */
  lemma LeftAloneAllIsRelayed<D, O>(
    m: Semantics<D, O>, ag: Agent<D, O>, before: seq<Action>, run: seq<Action>, e: EdgeId)
    requires Runs(EMPTY, before) && Runs(After(EMPTY, before), run) && forall a <- run :: !a.Dispatch?
    requires Stuck(After(After(EMPTY, before), run))
    ensures |run| <= Rank(After(EMPTY, before))
    ensures var s := After(After(EMPTY, before), run);
            && s.disp.Ready? && (forall x <- s.workers :: x.queue == [] && !x.stage.Relaying?)
            && Subsequence(OnEdge(s.relayed, e), OnEdge(s.dispatched, e))
            && Others(OnEdge(s.relayed, e)) == Others(OnEdge(s.dispatched, e))
            && Fold(m, ag, OnEdge(s.relayed, e)) == Fold(m, ag, OnEdge(s.dispatched, e))
            && ((forall w :: !Enabled(s, IdleFires(w))) ==> s.table == map[])
  {
    RelayRun(m, ag, EMPTY, before, e);
    RelayRun(m, ag, After(EMPTY, before), run, e);
    QuietRunBounded(After(EMPTY, before), run);
    var s := After(After(EMPTY, before), run);
    AtRest(s);
    AllSent(s, e);
    OnlyTimersRemain(s);
  }

  lemma AllSent(s: State, e: EdgeId)
    requires forall x <- s.workers :: x.queue == [] && !x.stage.Relaying?
    ensures Line(s, e) == OnEdge(s.relayed, e)
  {
  }

  // At rest every worker still registered is only waiting for its idle timer.
  lemma OnlyTimersRemain(s: State)
    requires WorkersOk(s) && Stuck(s)
    ensures forall x <- s.table :: Enabled(s, IdleFires(s.table[x]))
  {
    AtRest(s);
    forall x | x in s.table
      ensures Enabled(s, IdleFires(s.table[x]))
    {
      assert s.workers[s.table[x]] in s.workers;
    }
  }

  lemma AtRest(s: State)
    requires WorkersOk(s) && Stuck(s)
    ensures s.disp.Ready? && forall x <- s.workers :: x.queue == [] && (x.stage.Parked? || x.stage.Exited?)
  {
    assert !Enabled(s, EnqueueNow) && !Enabled(s, SignalNow);
    forall w | 0 <= w < |s.workers|
      ensures s.workers[w].queue == [] && (s.workers[w].stage.Parked? || s.workers[w].stage.Exited?)
    {
      assert WorkerOk(s, w);
      assert !Enabled(s, Look(w)) && !Enabled(s, RelayIt(w)) && !Enabled(s, WakeUp(w));
    }
  }
}
