/**
 Liveness of an open stream: no wake-up is lost, no chunk pusher sleeps forever, and whatever the
 interleaving, a stream left alone runs dry in a bounded number of steps.
 */
module PushProgress {
  import opened Directives
  import opened Mailbox
  import opened PushProtocol
  import opened PushBytes

  // The loop still serves the stream and nobody has closed it.
  predicate Open(s: State) {
    !s.done && !s.loop.Leaving? && !s.loop.Ended?
  }

  ghost predicate SomePusher(s: State, test: PusherState -> bool) {
    exists p :: 0 <= p < |s.pushers| && test(s.pushers[p])
  }

  predicate IsSignalWake(pc: PusherState) {
    pc.SignalWake?
  }

  ghost predicate Signalling(s: State) {
    SomePusher(s, IsSignalWake)
  }

  /** No lost wake-up: work in the mailbox is announced, about to be announced, or being collected. */
  ghost predicate WakeInv(s: State) {
    Open(s) ==>
      && (s.box.needResync ==> s.box.wake || Signalling(s) || s.loop.Woken?)
      && (s.box.pending != map[] ==>
            s.box.wake || Signalling(s) || s.loop.Woken? || s.loop.Firing? || s.loop.Taking?)
  }

  // A pusher that has seen the queue over budget, or is blocked because of it.
  predicate HeldBack(pc: PusherState) {
    pc.SecondLoad? || pc.AwaitDrain?
  }

  // A chunk pusher that is not held back: it will look again, or is about to fill the queue.
  predicate Pressing(pc: PusherState) {
    pc.FirstLoad? || pc.BlockingSend?
  }

  /** Nobody sleeps forever: while a chunk pusher is held back, something is bound to wake it. */
  ghost predicate DrainInv(s: State) {
    Open(s) && SomePusher(s, HeldBack) ==>
      s.drain || s.ch != [] || s.loop.Received? || s.loop.Subtracted? || SomePusher(s, Pressing)
  }

  ghost predicate LiveInv(s: State) {
    Accounting(s) && WakeInv(s) && DrainInv(s) && (s.loop.Ended? ==> s.done)
  }

  // How the existence of a pusher in some class changes when one pusher moves.
  lemma SomeMoves(c: Config, s: State, a: Action, test: PusherState -> bool)
    requires Enabled(c, s, a)
    ensures MovesPusher(a) ==> a.p < |s.pushers| && |Do(c, s, a).pushers| == |s.pushers|
    ensures SomePusher(s, test) && (MovesPusher(a) ==> !test(s.pushers[a.p])) ==> SomePusher(Do(c, s, a), test)
    ensures SomePusher(Do(c, s, a), test) && (MovesPusher(a) ==> !test(Do(c, s, a).pushers[a.p])) ==>
            SomePusher(s, test)
    ensures MovesPusher(a) && test(Do(c, s, a).pushers[a.p]) ==> SomePusher(Do(c, s, a), test)
    ensures MovesPusher(a) && test(s.pushers[a.p]) ==> SomePusher(s, test)
  {
    OnlyOneMoves(c, s, a);
    var t := Do(c, s, a);
    if SomePusher(s, test) {
      var p :| 0 <= p < |s.pushers| && test(s.pushers[p]);
      assert !MovesPusher(a) || p != a.p ==> test(t.pushers[p]);
    }
    if SomePusher(t, test) {
      var p :| 0 <= p < |t.pushers| && test(t.pushers[p]);
      assert !MovesPusher(a) || p != a.p ==> test(s.pushers[p]);
    }
  }

  lemma WakeStep(c: Config, s: State, a: Action)
    requires Enabled(c, s, a) && WakeInv(s)
    ensures WakeInv(Do(c, s, a))
  {
    SomeMoves(c, s, a, IsSignalWake);
  }

  // A positive counter means bytes on the channel or in the loop's hand.
  lemma PositiveMeansWork(s: State)
    requires Accounting(s) && s.queued > 0
    ensures s.ch != [] || s.loop.Received?
  {
  }

  lemma DrainStep(c: Config, s: State, a: Action)
    requires Enabled(c, s, a) && Accounting(s) && DrainInv(s)
    ensures DrainInv(Do(c, s, a))
  {
    SomeMoves(c, s, a, HeldBack);
    SomeMoves(c, s, a, Pressing);
    if s.queued > 0 {
      PositiveMeansWork(s);
    }
  }

  lemma LiveStep(c: Config, s: State, a: Action)
    requires Enabled(c, s, a) && LiveInv(s)
    ensures LiveInv(Do(c, s, a))
  {
    AccountingStep(c, s, a);
    WakeStep(c, s, a);
    DrainStep(c, s, a);
  }

  lemma {:induction false} LiveRun(c: Config, s: State, run: seq<Action>)
    requires Runs(c, s, run) && LiveInv(s)
    ensures LiveInv(After(c, s, run))
    decreases |run|
  {
    if run != [] {
      LiveStep(c, s, run[0]);
      LiveRun(c, Do(c, s, run[0]), run[1..]);
    }
  }

  lemma LiveFromInit(c: Config, n: nat, run: seq<Action>)
    requires Runs(c, Init(n), run)
    ensures LiveInv(After(c, Init(n), run))
  {
    RestingSum(NotYetAdded, n);
    LiveRun(c, Init(n), run);
  }

  // The steps a stream takes by itself: no new push, no failure, no closing.
  predicate Internal(a: Action) {
    a.Push? || a.Receive? || a.WakeUp? || a.Loop? || a.TakePending? || a.TakeNothing?
  }

  ghost predicate Stuck(c: Config, s: State) {
    forall a: Action :: Internal(a) ==> !Enabled(c, s, a)
  }

  // Nothing left to do: all pushers have returned, and queue and mailbox are empty.
  predicate Dry(s: State) {
    && s.loop.Idle? && s.ch == [] && s.box.pending == map[] && !s.box.needResync
    && forall pc <- s.pushers :: pc.Resting?
  }

  lemma TakingMoves(c: Config, s: State)
    ensures s.loop.Taking? ==> exists a: Action :: Internal(a) && Enabled(c, s, a)
  {
    if s.loop.Taking? {
      if s.box.pending == map[] {
        assert Internal(TakeNothing) && Enabled(c, s, TakeNothing);
      } else {
        var k := SomeNewest(s.box);
        assert Internal(TakePending(k)) && Enabled(c, s, TakePending(k));
      }
    }
  }

  /** An open stream can only stand still when it is dry. */
  lemma StuckIsDry(c: Config, s: State)
    requires c.depth > 0 && LiveInv(s) && Open(s) && Stuck(c, s)
    ensures Dry(s)
  {
    assert !Enabled(c, s, Receive) && !Enabled(c, s, WakeUp) && !Enabled(c, s, Loop) && !Enabled(c, s, TakeNothing);
    TakingMoves(c, s);
    assert !s.loop.Taking?;
    assert s.loop.Idle? && s.ch == [] && !s.box.wake;
    forall p | 0 <= p < |s.pushers|
      ensures !CanPush(c, s, p) && !Pressing(s.pushers[p]) && !IsSignalWake(s.pushers[p])
    {
      assert !Enabled(c, s, Push(p));
    }
    assert SomePusher(s, HeldBack) ==> s.drain;
    forall p | 0 <= p < |s.pushers|
      ensures s.pushers[p].Resting?
    {
      assert HeldBack(s.pushers[p]) ==> SomePusher(s, HeldBack);
      assert !CanPush(c, s, p);
    }
  }

  function PusherRank(pc: PusherState): nat {
    match pc
    case Resting => 0
    case FirstLoad(_) => 11
    case SecondLoad(_) => 10
    case AwaitDrain(_) => 9
    case BlockingSend(_) => 9
    case Load(_) => 13
    case TrySend(_) => 12
    case AddBytes(_) => 1
    case Overflow(_) => 11
    case SignalWake => 5
  }

  function LoopRank(l: LoopState): nat {
    match l
    case Received(_) => 8
    case Subtracted(_) => 7
    case SendingQueued(_) => 3
    case Woken => 5
    case Firing => 4
    case Taking => 3
    case SendingPending(_) => 3
    case Idle => 2
    case Leaving(_, _) => 1
    case Ended(_, _) => 0
  }

  function BoxRank(b: Box): nat {
    5 * |b.pending| + if b.wake then 4 else 0
  }

  function SharedRank(s: State): nat {
    7 * |s.ch| + BoxRank(s.box) + if s.drain then 3 else 0
  }

  function Rank(s: State): nat {
    Sum(PusherRank, s.pushers) + SharedRank(s) + LoopRank(s.loop)
  }

  lemma StashRank(b: Box, d: Directive)
    ensures BoxRank(Stash(b, d)) <= BoxRank(b) + 5
  {
    var p := b.pending[d.kind := d];
    assert p.Keys == b.pending.Keys + {d.kind};
    assert |p.Keys| == |p| && |b.pending.Keys| == |b.pending|;
  }

  lemma MarkRank(b: Box)
    ensures BoxRank(Mark(b)) <= BoxRank(b)
  {
    var p := b.pending - {DesiredDelta};
    assert p.Keys == b.pending.Keys - {DesiredDelta};
    assert |p.Keys| == |p| && |b.pending.Keys| == |b.pending|;
  }

  lemma DivertRank(s: State, p: nat, d: Directive)
    requires p < |s.pushers|
    ensures SharedRank(Divert(s, p, d)) <= SharedRank(s) + 5
  {
    StashRank(s.box, d);
    MarkRank(s.box);
  }

  lemma SignalRank(b: Box)
    ensures BoxRank(Signal(b)) <= BoxRank(b) + 4
  {
  }

  ghost predicate RankFallsHere(c: Config, s: State, p: nat)
    requires CanPush(c, s, p)
  {
    var t := PushStep(c, s, p);
    t.loop == s.loop && |t.pushers| == |s.pushers| &&
    PusherRank(t.pushers[p]) + SharedRank(t) < PusherRank(s.pushers[p]) + SharedRank(s)
  }

  lemma EnqueueRank(s: State, p: nat, d: Directive)
    requires p < |s.pushers|
    ensures SharedRank(Enqueue(s, p, d)) == SharedRank(s) + 7
  {
  }

  lemma SenderRank(c: Config, s: State, p: nat)
    requires CanPush(c, s, p) && (s.pushers[p].BlockingSend? || s.pushers[p].TrySend?)
    ensures RankFallsHere(c, s, p)
  {
    EnqueueRank(s, p, s.pushers[p].d);
  }

  lemma LoaderRank(c: Config, s: State, p: nat)
    requires CanPush(c, s, p)
    requires s.pushers[p].FirstLoad? || s.pushers[p].SecondLoad? || s.pushers[p].AwaitDrain? || s.pushers[p].Load?
    ensures RankFallsHere(c, s, p)
  {
    assert PushStep(c, s, p).box == s.box && PushStep(c, s, p).ch == s.ch;
  }

  lemma FinisherRank(c: Config, s: State, p: nat)
    requires CanPush(c, s, p) && (s.pushers[p].AddBytes? || s.pushers[p].SignalWake? || s.pushers[p].Overflow?)
    ensures RankFallsHere(c, s, p)
  {
    if s.pushers[p].Overflow? {
      DivertRank(s, p, s.pushers[p].d);
    } else {
      SignalRank(s.box);
    }
  }

  lemma PushRankHere(c: Config, s: State, p: nat)
    requires CanPush(c, s, p)
    ensures RankFallsHere(c, s, p)
  {
    if s.pushers[p].BlockingSend? || s.pushers[p].TrySend? {
      SenderRank(c, s, p);
    } else if s.pushers[p].AddBytes? || s.pushers[p].SignalWake? || s.pushers[p].Overflow? {
      FinisherRank(c, s, p);
    } else {
      LoaderRank(c, s, p);
    }
  }

  lemma PushRank(c: Config, s: State, p: nat)
    requires CanPush(c, s, p)
    ensures Rank(PushStep(c, s, p)) < Rank(s)
  {
    PushRankHere(c, s, p);
    SumMoves(c, s, Push(p), PusherRank);
  }

  lemma LoopRankFalls(c: Config, s: State)
    requires CanLoop(s)
    ensures Rank(LoopStep(c, s)) < Rank(s)
  {
    var t := LoopStep(c, s);
    assert t.pushers == s.pushers && t.ch == s.ch && t.box.pending == s.box.pending && t.box.wake == s.box.wake;
  }

  // Every step but a new call and a superseding stream.
  predicate Settling(a: Action) {
    !a.Begin? && !a.Supersede?
  }

  lemma RefuseRank(c: Config, s: State, p: nat)
    requires CanRefuse(s, p)
    ensures Rank(Do(c, s, Refuse(p))) < Rank(s)
  {
    SumMoves(c, s, Refuse(p), PusherRank);
  }

  lemma RankFalls(c: Config, s: State, a: Action)
    requires Settling(a) && Enabled(c, s, a)
    ensures Rank(Do(c, s, a)) < Rank(s)
  {
    match a {
      case Push(p) => PushRank(c, s, p);
      case Refuse(p) => RefuseRank(c, s, p);
      case Loop => LoopRankFalls(c, s);
      case TakePending(k) => TakeShrinks(s.box, k);
      case _ =>
    }
  }

  /** However the scheduler interleaves them, and whether the stream stays open, fails or ends, at most
      Rank(s) steps follow s without a new call or a superseding stream. */
  lemma {:induction false} SettlingRunBounded(c: Config, s: State, run: seq<Action>)
    requires Runs(c, s, run) && forall a <- run :: Settling(a)
    ensures |run| + Rank(After(c, s, run)) <= Rank(s)
    decreases |run|
  {
    if run != [] {
      assert run[0] in run && forall a <- run[1..] :: a in run;
      RankFalls(c, s, run[0]);
      SettlingRunBounded(c, Do(c, s, run[0]), run[1..]);
    }
  }

  lemma {:induction false} InternalKeepsOpen(c: Config, s: State, run: seq<Action>)
    requires Runs(c, s, run) && (forall a <- run :: Internal(a)) && Open(s)
    ensures Open(After(c, s, run))
    decreases |run|
  {
    if run != [] {
      assert run[0] in run && forall a <- run[1..] :: a in run;
      InternalKeepsOpen(c, Do(c, s, run[0]), run[1..]);
    }
  }

  /** From every reachable open state, a run of internal steps that cannot be continued has released
      every pusher and emptied queue and mailbox: backpressure never deadlocks, whatever the number of
      pushers and however large a chunk is. */
  lemma MaximalRunDrains(c: Config, n: nat, before: seq<Action>, run: seq<Action>)
    requires c.depth > 0 && Runs(c, Init(n), before) && Open(After(c, Init(n), before))
    requires Runs(c, After(c, Init(n), before), run) && forall a <- run :: Internal(a)
    requires Stuck(c, After(c, After(c, Init(n), before), run))
    ensures Dry(After(c, After(c, Init(n), before), run))
    ensures |run| <= Rank(After(c, Init(n), before))
  {
    var s := After(c, Init(n), before);
    LiveFromInit(c, n, before);
    LiveRun(c, s, run);
    InternalKeepsOpen(c, s, run);
    StuckIsDry(c, After(c, s, run));
    SettlingRunBounded(c, s, run);
  }

  // ---- a stream that ends ----

  // Superseded, or its loop has left or is leaving.
  predicate Closing(s: State) {
    s.done || s.loop.Leaving? || s.loop.Ended?
  }

  lemma ClosingStays(c: Config, s: State, a: Action)
    requires Enabled(c, s, a) && Closing(s)
    ensures Closing(Do(c, s, a))
  {
  }

  // Neither a pusher nor the deferred cleanup can take a step.
  ghost predicate NothingToRelease(c: Config, s: State) {
    forall a: Action :: a.Push? || a.Refuse? || a.Deregister? ==> !Enabled(c, s, a)
  }

  lemma {:induction false} ClosingRun(c: Config, s: State, run: seq<Action>)
    requires Runs(c, s, run) && Closing(s)
    ensures Closing(After(c, s, run))
    decreases |run|
  {
    if run != [] {
      ClosingStays(c, s, run[0]);
      ClosingRun(c, Do(c, s, run[0]), run[1..]);
    }
  }

  lemma ReleasedWhenStuck(c: Config, s: State)
    requires LiveInv(s) && Closing(s) && NothingToRelease(c, s)
    ensures s.done && forall pc <- s.pushers :: pc.Resting?
  {
    assert !Enabled(c, s, Deregister);
    forall p | 0 <= p < |s.pushers|
      ensures s.pushers[p].Resting?
    {
      assert !Enabled(c, s, Push(p)) && !Enabled(c, s, Refuse(p));
    }
  }

  // No step but a new call or a superseding stream is possible.
  ghost predicate NothingLeft(c: Config, s: State) {
    forall a: Action :: Settling(a) ==> !Enabled(c, s, a)
  }

  lemma NothingLeftIsEnded(c: Config, s: State)
    requires NothingLeft(c, s)
    ensures s.loop.Ended?
  {
    assert !Enabled(c, s, Leave) && !Enabled(c, s, Deregister) && !Enabled(c, s, Loop);
    if s.loop.Taking? {
      TakingMoves(c, s);
    }
  }

  /** A stream that fails, ends or is superseded releases every pusher: from every reachable state of it,
      and wherever its loop stands, a run without new calls is bounded, and once pushers and cleanup have
      no step left done is closed and all of them have returned; when nothing at all is left the loop has
      ended too. */
  lemma ClosedRunReleases(c: Config, n: nat, before: seq<Action>, run: seq<Action>)
    requires Runs(c, Init(n), before) && Closing(After(c, Init(n), before))
    requires Runs(c, After(c, Init(n), before), run) && forall a <- run :: Settling(a)
    ensures |run| <= Rank(After(c, Init(n), before))
    ensures var t := After(c, After(c, Init(n), before), run);
            && (NothingToRelease(c, t) ==> t.done && forall pc <- t.pushers :: pc.Resting?)
            && (NothingLeft(c, t) ==> t.loop.Ended?)
  {
    var s := After(c, Init(n), before);
    LiveFromInit(c, n, before);
    LiveRun(c, s, run);
    ClosingRun(c, s, run);
    SettlingRunBounded(c, s, run);
    if NothingToRelease(c, After(c, s, run)) {
      ReleasedWhenStuck(c, After(c, s, run));
    }
    if NothingLeft(c, After(c, s, run)) {
      NothingLeftIsEnded(c, After(c, s, run));
    }
  }

  /** The same promise read at one instant: a sleeping chunk pusher on an open stream always has a
      drain token, queued data, a drain signal on its way, or another chunk pusher still moving. */
  lemma SleeperWillBeWoken(c: Config, n: nat, run: seq<Action>, p: nat)
    requires Runs(c, Init(n), run)
    requires var s := After(c, Init(n), run); Open(s) && p < |s.pushers| && s.pushers[p].AwaitDrain?
    ensures var s := After(c, Init(n), run);
            || s.drain || s.ch != [] || s.loop.Received? || s.loop.Subtracted?
            || exists q :: 0 <= q < |s.pushers| && q != p && (s.pushers[q].FirstLoad? || s.pushers[q].BlockingSend?)
  {
    LiveFromInit(c, n, run);
    var s := After(c, Init(n), run);
    assert HeldBack(s.pushers[p]) && SomePusher(s, HeldBack);
    if SomePusher(s, Pressing) {
      var q :| 0 <= q < |s.pushers| && Pressing(s.pushers[q]);
      assert q != p;
    }
  }
}
