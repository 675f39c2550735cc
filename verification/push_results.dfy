/** What an agent can rely on, for every interleaving of any number of pushers. */
module PushResults {
  import opened Sequences
  import opened Directives
  import opened PushProtocol
  import PushBytes
  import opened PushProgress
  import opened PushDelivery

  // The deltas of one pusher among queue entries.
  function DeltasFrom(es: seq<Entry>, p: nat): seq<Directive> {
    if es == [] then []
    else
      var last := es[|es| - 1];
      DeltasFrom(es[..|es| - 1], p) + if last.src == p && last.d.kind == DesiredDelta then [last.d] else []
  }

  lemma {:induction false} DeltasConcat(a: seq<Entry>, b: seq<Entry>, p: nat)
    ensures DeltasFrom(a + b, p) == DeltasFrom(a, p) + DeltasFrom(b, p)
    decreases |b|
  {
    if b == [] {
      assert a + b == a;
    } else {
      DeltasConcat(a, b[..|b| - 1], p);
      assert (a + b)[..|a + b| - 1] == a + b[..|b| - 1];
    }
  }

  lemma {:induction false} QueuedDeltasFollowCalls(log: seq<Outcome>, p: nat)
    ensures Subsequence(DeltasFrom(QueuedOf(log), p), OutcomesOf(log, p))
    decreases |log|
  {
    if log != [] {
      var front, o := log[..|log| - 1], log[|log| - 1];
      assert log == front + [o];
      QueuedDeltasFollowCalls(front, p);
      LogAppend(front, o, p);
      var had, calls := DeltasFrom(QueuedOf(front), p), OutcomesOf(front, p);
      var mine := !o.Resynced? && o.e.src == p;
      if o.Queued? {
        DeltasConcat(QueuedOf(front), [o.e], p);
        assert [o.e][..0] == [];
        assert DeltasFrom([o.e], p) == if mine && o.e.d.kind == DesiredDelta then [o.e.d] else [];
      } else {
        assert QueuedOf(log) == QueuedOf(front);
      }
      if mine {
        SkipMore(had, calls, o.e.d);
        Both(had, calls, o.e.d);
        assert OutcomesOf(log, p) == calls + [o.e.d];
        if o.Queued? && o.e.d.kind == DesiredDelta {
          assert DeltasFrom(QueuedOf(log), p) == had + [o.e.d];
        } else {
          assert DeltasFrom(QueuedOf(log), p) == had;
        }
      } else {
        assert DeltasFrom(QueuedOf(log), p) == had && OutcomesOf(log, p) == calls;
      }
    }
  }

  /** The deltas an agent receives from one pusher are a subsequence of that pusher's calls; none goes
      through the mailbox; and each call to push a delta was queued, dropped, refused, or is under way. */
  lemma DeltasKeepPushOrder(c: Config, n: nat, run: seq<Action>, p: nat)
    requires p < n && Runs(c, Init(n), run)
    ensures var s := After(c, Init(n), run);
            && |s.pushes| == n && Subsequence(DeltasFrom(s.viaQueue, p), s.pushes[p])
            && DesiredDelta !in s.box.pending && (forall d <- s.viaPending :: d.kind != DesiredDelta)
            && forall i :: 0 <= i < |s.log| && s.log[i].Stashed? ==> Coalescible(s.log[i].e.d.kind)
  {
    DeliveryHolds(c, n, run);
    PushBytes.KeepsPushers(c, Init(n), run);
    var s := After(c, Init(n), run);
    DeltasOrdered(s, p);
    NoDeltaInMailbox(s);
  }

  lemma DeltasOrdered(s: State, p: nat)
    requires Fifo(s) && Accounted(s) && p < |s.pushes|
    ensures Subsequence(DeltasFrom(s.viaQueue, p), s.pushes[p])
  {
    var rest := QueuedInHand(s.loop) + s.ch;
    assert QueuedOf(s.log) == s.viaQueue + rest;
    DeltasConcat(s.viaQueue, rest, p);
    QueuedDeltasFollowCalls(s.log, p);
    var all, sent := DeltasFrom(QueuedOf(s.log), p), DeltasFrom(s.viaQueue, p);
    Longer(all, OutcomesOf(s.log, p), Undecided(s.pushers[p]));
    Shorter(all, s.pushes[p], |sent|);
    assert all[..|sent|] == sent;
  }

  lemma NoDeltaInMailbox(s: State)
    requires OnlyStashed(s) && AllCovered(s)
    ensures DesiredDelta !in s.box.pending && forall d <- s.viaPending :: d.kind != DesiredDelta
    ensures forall i :: 0 <= i < |s.log| && s.log[i].Stashed? ==> Coalescible(s.log[i].e.d.kind)
  {
    if DesiredDelta in s.box.pending {
      assert Kept(s, s.box.pending[DesiredDelta]);
    }
    forall d <- s.viaPending
      ensures d.kind != DesiredDelta
    {
      assert Kept(s, d);
    }
    forall i | 0 <= i < |s.log| && s.log[i].Stashed?
      ensures Coalescible(s.log[i].e.d.kind)
    {
      StashIsCoalescible(s, i);
    }
  }

  lemma StashIsCoalescible(s: State, i: nat)
    requires OnlyStashed(s) && i < |s.log| && s.log[i].Stashed? && Covered(s, i)
    ensures Coalescible(s.log[i].e.d.kind)
  {
    var j: nat :| StandsIn(s.log, i, j) && Kept(s, s.log[j].e.d);
  }

  // A push the stream took on: queued or stashed.
  ghost predicate AcceptedAt(log: seq<Outcome>, i: nat, d: Directive) {
    i < |log| && (log[i].Queued? || log[i].Stashed?) && log[i].e.d == d
  }

  ghost predicate Accepted(log: seq<Outcome>, d: Directive) {
    exists i: nat :: AcceptedAt(log, i, d)
  }

  ghost predicate Delivered(s: State, d: Directive) {
    d in s.viaPending || exists i :: 0 <= i < |s.viaQueue| && s.viaQueue[i].d == d
  }

  lemma {:induction false} QueuedIsLogged(log: seq<Outcome>, i: nat)
    requires i < |QueuedOf(log)|
    ensures Accepted(log, QueuedOf(log)[i].d)
    decreases |log|
  {
    var front, o := log[..|log| - 1], log[|log| - 1];
    assert log == front + [o];
    LogAppend(front, o, 0);
    if i < |QueuedOf(front)| {
      QueuedIsLogged(front, i);
      var j: nat :| AcceptedAt(front, j, QueuedOf(front)[i].d);
      assert AcceptedAt(log, j, QueuedOf(log)[i].d);
    } else {
      assert AcceptedAt(log, |front|, o.e.d);
    }
  }

  lemma {:induction false} LoggedIsQueued(log: seq<Outcome>, i: nat) returns (j: nat)
    requires i < |log| && log[i].Queued?
    ensures j < |QueuedOf(log)| && QueuedOf(log)[j] == log[i].e
    decreases |log|
  {
    var front, o := log[..|log| - 1], log[|log| - 1];
    assert log == front + [o];
    LogAppend(front, o, 0);
    if i < |front| {
      j := LoggedIsQueued(front, i);
    } else {
      j := |QueuedOf(front)|;
    }
  }

  // Sent, in the loop's hand, queued, or pending; on an ended stream, also what was in hand when it ended.
  ghost predicate Present(s: State, d: Directive) {
    var line := s.viaQueue + QueuedInHand(s.loop) + s.ch;
    Kept(s, d) || exists i :: 0 <= i < |line| && line[i].d == d
  }

  /** Latest wins, at every moment: whatever was accepted is present itself, or one of its kind and of at
      least its generation is. */
  lemma AcceptedIsRepresented(c: Config, n: nat, run: seq<Action>, d: Directive)
    requires Runs(c, Init(n), run) && Accepted(After(c, Init(n), run).log, d)
    ensures exists e :: Present(After(c, Init(n), run), e) && e.kind == d.kind && e.generation >= d.generation
  {
    DeliveryHolds(c, n, run);
    var s := After(c, Init(n), run);
    var i: nat :| AcceptedAt(s.log, i, d);
    if s.log[i].Queued? {
      var j := LoggedIsQueued(s.log, i);
      assert (s.viaQueue + QueuedInHand(s.loop) + s.ch)[j].d == d;
      assert Present(s, d);
    } else {
      assert Covered(s, i);
      var j: nat :| StandsIn(s.log, i, j) && Kept(s, s.log[j].e.d);
      assert Present(s, s.log[j].e.d);
    }
  }

  // Nothing reaches the agent that was not accepted.
  lemma DeliveredWasAccepted(c: Config, s: State, d: Directive)
    requires DeliveryInv(c, s) && Delivered(s, d)
    ensures Accepted(s.log, d)
  {
    if d in s.viaPending {
      assert Kept(s, d);
      var j: nat :| StashedAt(s.log, j, d);
      assert AcceptedAt(s.log, j, d);
    } else {
      var i :| 0 <= i < |s.viaQueue| && s.viaQueue[i].d == d;
      assert QueuedOf(s.log)[i] == s.viaQueue[i];
      QueuedIsLogged(s.log, i);
    }
  }

  // On a dry stream everything accepted has been delivered, itself or by one at least as new.
  lemma AcceptedIsDelivered(c: Config, s: State, i: nat)
    requires DeliveryInv(c, s) && Dry(s) && i < |s.log| && (s.log[i].Queued? || s.log[i].Stashed?)
    ensures s.log[i].Queued? ==> Delivered(s, s.log[i].e.d)
    ensures s.log[i].Stashed? ==> exists j: nat :: StandsIn(s.log, i, j) && s.log[j].e.d in s.viaPending
  {
    if s.log[i].Queued? {
      QueuedIsDelivered(s, i);
    } else {
      StashedIsStoodInFor(s, i);
    }
  }

  lemma QueuedIsDelivered(s: State, i: nat)
    requires Fifo(s) && Dry(s) && i < |s.log| && s.log[i].Queued?
    ensures Delivered(s, s.log[i].e.d)
  {
    assert QueuedOf(s.log) == s.viaQueue;
    var j := LoggedIsQueued(s.log, i);
    assert s.viaQueue[j].d == s.log[i].e.d;
  }

  lemma StashedIsStoodInFor(s: State, i: nat)
    requires AllCovered(s) && Dry(s) && i < |s.log| && s.log[i].Stashed?
    ensures exists j: nat :: StandsIn(s.log, i, j) && s.log[j].e.d in s.viaPending
  {
    assert Covered(s, i);
    var j: nat :| StandsIn(s.log, i, j) && Kept(s, s.log[j].e.d);
    assert s.log[j].e.d in s.viaPending;
  }

  // ---- from what was pushed ----

  // The call a pusher made as its k-th has an outcome in the log, or is still under way.
  lemma {:induction false} OutcomeOfCall(log: seq<Outcome>, p: nat, k: nat) returns (i: nat)
    requires k < |OutcomesOf(log, p)|
    ensures i < |log| && !log[i].Resynced? && log[i].e.src == p && log[i].e.d == OutcomesOf(log, p)[k]
    decreases |log|
  {
    var front, o := log[..|log| - 1], log[|log| - 1];
    assert log == front + [o];
    LogAppend(front, o, p);
    if k < |OutcomesOf(front, p)| {
      i := OutcomeOfCall(front, p, k);
    } else {
      i := |front|;
    }
  }

  lemma {:induction false} CallOfOutcome(log: seq<Outcome>, i: nat) returns (k: nat)
    requires i < |log| && !log[i].Resynced?
    ensures k < |OutcomesOf(log, log[i].e.src)| && OutcomesOf(log, log[i].e.src)[k] == log[i].e.d
    decreases |log|
  {
    var front, o, p := log[..|log| - 1], log[|log| - 1], log[i].e.src;
    assert log == front + [o];
    LogAppend(front, o, p);
    if i < |front| {
      k := CallOfOutcome(front, i);
    } else {
      k := |OutcomesOf(front, p)|;
    }
  }

  ghost predicate Pushed(s: State, d: Directive) {
    exists p, k :: 0 <= p < |s.pushes| && 0 <= k < |s.pushes[p]| && s.pushes[p][k] == d
  }

  ghost predicate UnderWay(s: State, d: Directive) {
    exists p :: 0 <= p < |s.pushers| && Undecided(s.pushers[p]) == [d]
  }

  ghost predicate DroppedAt(log: seq<Outcome>, i: nat, d: Directive) {
    i < |log| && log[i].Dropped? && log[i].e.d == d
  }

  lemma FateOfOutcome(s: State, i: nat)
    requires Justified(s) && !s.done && i < |s.log| && !s.log[i].Resynced?
    ensures var d := s.log[i].e.d;
            Accepted(s.log, d) || (d.kind == DesiredDelta && exists j: nat :: DroppedAt(s.log, j, d))
  {
    assert s.log[i] in s.log && JustifiedAt(s, s.log[i]);
    assert AcceptedAt(s.log, i, s.log[i].e.d) || DroppedAt(s.log, i, s.log[i].e.d);
  }

  // What was pushed to a stream that is not closed was taken on, is under way, or is a dropped delta.
  lemma FateOfPushed(s: State, d: Directive)
    requires Accounted(s) && Justified(s) && !s.done && Pushed(s, d)
    ensures || Accepted(s.log, d) || UnderWay(s, d)
            || (d.kind == DesiredDelta && exists i: nat :: DroppedAt(s.log, i, d))
  {
    var p, k :| 0 <= p < |s.pushes| && 0 <= k < |s.pushes[p]| && s.pushes[p][k] == d;
    var decided := OutcomesOf(s.log, p);
    assert decided + Undecided(s.pushers[p]) == s.pushes[p];
    if k < |decided| {
      var i := OutcomeOfCall(s.log, p, k);
      FateOfOutcome(s, i);
    } else {
      assert Undecided(s.pushers[p]) == [d];
    }
  }

  lemma AcceptedWasPushed(c: Config, s: State, d: Directive)
    requires DeliveryInv(c, s) && Accepted(s.log, d)
    ensures Pushed(s, d)
  {
    var i: nat :| AcceptedAt(s.log, i, d);
    assert s.log[i] in s.log && JustifiedAt(s, s.log[i]);
    var p := s.log[i].e.src;
    var k := CallOfOutcome(s.log, i);
    assert OutcomesOf(s.log, p) + Undecided(s.pushers[p]) == s.pushes[p];
    assert s.pushes[p][k] == d;
  }

  /** Latest wins, at every moment and for all that was pushed: on a stream that is not closed, whatever
      was pushed is under way, is present itself or by one of its kind and of at least its generation, or
      is a delta that was dropped. */
  lemma PushedIsRepresented(c: Config, n: nat, run: seq<Action>, d: Directive)
    requires Runs(c, Init(n), run)
    requires !After(c, Init(n), run).done && Pushed(After(c, Init(n), run), d)
    ensures var s := After(c, Init(n), run);
            || UnderWay(s, d)
            || (d.kind == DesiredDelta && exists i: nat :: DroppedAt(s.log, i, d))
            || exists e :: Present(s, e) && e.kind == d.kind && e.generation >= d.generation
  {
    DeliveryHolds(c, n, run);
    var s := After(c, Init(n), run);
    FateOfPushed(s, d);
    if Accepted(s.log, d) {
      AcceptedIsRepresented(c, n, run, d);
    }
  }

  // ---- a slow agent blocks nothing but chunks ----

  /** At every moment a call that pushes anything but a chunk can take its next step, whatever the send loop
      and the other pushers do: only chunks ever wait. */
  lemma OnlyChunksWait(c: Config, n: nat, run: seq<Action>, p: nat)
    requires Runs(c, Init(n), run) && p < |After(c, Init(n), run).pushers|
    requires var pc := After(c, Init(n), run).pushers[p];
             pc != Resting && (pc != SignalWake ==> pc.d.kind != DesiredStateChunk)
    ensures CanPush(c, After(c, Init(n), run), p) || CanRefuse(After(c, Init(n), run), p)
  {
    DeliveryHolds(c, n, run);
    var s := After(c, Init(n), run);
    assert s.pushers[p] in s.pushers && PathFits(s.pushers[p]);
  }

  // ---- convergence ----

  // Some directive of this kind and of at least this generation was pushed, or delivered.
  ghost predicate PushedFrom(s: State, k: Kind, g: nat) {
    exists d :: Pushed(s, d) && d.kind == k && d.generation >= g
  }

  ghost predicate DeliveredFrom(s: State, k: Kind, g: nat) {
    exists d :: Delivered(s, d) && d.kind == k && d.generation >= g
  }

  ghost predicate ResyncedAfter(log: seq<Outcome>, i: nat) {
    exists j :: i < j < |log| && log[j].Resynced?
  }

  // What holds of a stream at rest.
  ghost predicate Converged(c: Config, s: State) {
    && Dry(s) && QueuedOf(s.log) == s.viaQueue
    && (forall d :: Delivered(s, d) ==> Pushed(s, d))
    && (forall k, g: nat :: k != DesiredDelta ==> (DeliveredFrom(s, k, g) <==> PushedFrom(s, k, g)))
    && (forall d :: Pushed(s, d) && d.kind == DesiredStateChunk ==> Delivered(s, d))
    && (forall d :: Pushed(s, d) && d.kind == DesiredDelta ==>
          Delivered(s, d) || exists i: nat :: DroppedAt(s.log, i, d) && (c.hook ==> ResyncedAfter(s.log, i)))
    && (forall i: nat :: i < |s.log| && s.log[i].Stashed? ==>
          exists j: nat :: StandsIn(s.log, i, j) && s.log[j].e.d in s.viaPending)
    && (forall i: nat :: LastOfNewest(s.log, i) ==> SentAsAccepted(s, i))
  }

  ghost predicate IsAccepted(log: seq<Outcome>, i: nat) {
    i < |log| && (log[i].Queued? || log[i].Stashed?)
  }

  // The last accepted of the newest generation of its kind. Kinds without generations, such as re-homing,
  // are all of generation 0, so there it is the last one accepted.
  ghost predicate LastOfNewest(log: seq<Outcome>, i: nat) {
    && IsAccepted(log, i)
    && forall j: nat :: IsAccepted(log, j) && log[j].e.d.kind == log[i].e.d.kind ==>
         log[j].e.d.generation < log[i].e.d.generation
         || (log[j].e.d.generation == log[i].e.d.generation && j <= i)
  }

  ghost predicate SentAsAccepted(s: State, i: nat) {
    && i < |s.log|
    && (s.log[i].Queued? ==> s.log[i].e in s.viaQueue)
    && (s.log[i].Stashed? ==> s.log[i].e.d in s.viaPending)
  }

  // Nothing else can stand in for it.
  lemma LastStandsAlone(log: seq<Outcome>, i: nat, j: nat)
    requires LastOfNewest(log, i) && StandsIn(log, i, j)
    ensures j == i
  {
    assert IsAccepted(log, j);
  }

  lemma LastStashIsSent(s: State, i: nat)
    requires AllCovered(s) && Dry(s) && LastOfNewest(s.log, i) && s.log[i].Stashed?
    ensures s.log[i].e.d in s.viaPending
  {
    StashedIsStoodInFor(s, i);
    var j: nat :| StandsIn(s.log, i, j) && s.log[j].e.d in s.viaPending;
    LastStandsAlone(s.log, i, j);
  }

  lemma LastOfNewestIsSent(s: State, i: nat)
    requires Fifo(s) && AllCovered(s) && Dry(s) && LastOfNewest(s.log, i)
    ensures SentAsAccepted(s, i)
  {
    if s.log[i].Queued? {
      assert QueuedOf(s.log) == s.viaQueue;
      var j := LoggedIsQueued(s.log, i);
    } else {
      LastStashIsSent(s, i);
    }
  }

  lemma RepresentedAtRest(c: Config, s: State, d: Directive)
    requires DeliveryInv(c, s) && Dry(s) && Accepted(s.log, d)
    ensures exists e :: Delivered(s, e) && e.kind == d.kind && e.generation >= d.generation
    ensures d.kind == DesiredStateChunk || d.kind == DesiredDelta ==> Delivered(s, d)
  {
    var i: nat :| AcceptedAt(s.log, i, d);
    AcceptedIsDelivered(c, s, i);
    if s.log[i].Stashed? {
      var j: nat :| StandsIn(s.log, i, j) && s.log[j].e.d in s.viaPending;
      assert Delivered(s, s.log[j].e.d);
      StashIsCoalescible(s, i);
    }
  }

  lemma PushedAtRest(c: Config, s: State, d: Directive)
    requires DeliveryInv(c, s) && Dry(s) && !s.done && Pushed(s, d)
    ensures d.kind != DesiredDelta ==> Accepted(s.log, d)
    ensures d.kind == DesiredDelta ==> Accepted(s.log, d) || exists i: nat :: DroppedAt(s.log, i, d)
  {
    FateOfPushed(s, d);
    NothingUnderWay(s, d);
  }

  lemma NothingUnderWay(s: State, d: Directive)
    requires Dry(s)
    ensures !UnderWay(s, d)
  {
    forall p | 0 <= p < |s.pushers|
      ensures Undecided(s.pushers[p]) == []
    {
      assert s.pushers[p] in s.pushers;
    }
  }

  lemma GenerationsMatch(c: Config, s: State, k: Kind, g: nat)
    requires DeliveryInv(c, s) && Dry(s) && !s.done && k != DesiredDelta
    ensures DeliveredFrom(s, k, g) <==> PushedFrom(s, k, g)
  {
    if DeliveredFrom(s, k, g) {
      var d :| Delivered(s, d) && d.kind == k && d.generation >= g;
      DeliveredWasAccepted(c, s, d);
      AcceptedWasPushed(c, s, d);
    }
    if PushedFrom(s, k, g) {
      var d :| Pushed(s, d) && d.kind == k && d.generation >= g;
      PushedAtRest(c, s, d);
      RepresentedAtRest(c, s, d);
    }
  }

  lemma DeltaAtRest(c: Config, s: State, d: Directive)
    requires DeliveryInv(c, s) && Dry(s) && !s.done && s.loop.Idle? && Pushed(s, d) && d.kind == DesiredDelta
    ensures Delivered(s, d) || exists i: nat :: DroppedAt(s.log, i, d) && (c.hook ==> ResyncedAfter(s.log, i))
  {
    PushedAtRest(c, s, d);
    if Accepted(s.log, d) {
      RepresentedAtRest(c, s, d);
    } else {
      var i: nat :| DroppedAt(s.log, i, d);
      assert c.hook ==> !OwedSince(s.log, i);
    }
  }

  lemma RestIsConverged(c: Config, s: State)
    requires DeliveryInv(c, s) && Dry(s) && !s.done
    ensures Converged(c, s)
  {
    forall d | Delivered(s, d)
      ensures Pushed(s, d)
    {
      DeliveredWasAccepted(c, s, d);
      AcceptedWasPushed(c, s, d);
    }
    forall k, g: nat | k != DesiredDelta
      ensures DeliveredFrom(s, k, g) <==> PushedFrom(s, k, g)
    {
      GenerationsMatch(c, s, k, g);
    }
    forall d | Pushed(s, d) && d.kind == DesiredStateChunk
      ensures Delivered(s, d)
    {
      PushedAtRest(c, s, d);
      RepresentedAtRest(c, s, d);
    }
    forall d | Pushed(s, d) && d.kind == DesiredDelta
      ensures Delivered(s, d) || exists i: nat :: DroppedAt(s.log, i, d) && (c.hook ==> ResyncedAfter(s.log, i))
    {
      DeltaAtRest(c, s, d);
    }
    forall i: nat | i < |s.log| && s.log[i].Stashed?
      ensures exists j: nat :: StandsIn(s.log, i, j) && s.log[j].e.d in s.viaPending
    {
      AcceptedIsDelivered(c, s, i);
    }
    forall i: nat | LastOfNewest(s.log, i)
      ensures SentAsAccepted(s, i)
    {
      LastOfNewestIsSent(s, i);
    }
  }

  /** Convergence: leave an open stream alone until it stands still. Then every pusher has returned, all
      that was queued has been sent in order, only what was pushed has been sent, for every kind but
      deltas the newest generation sent is the newest pushed and the last one accepted of that generation
      was itself sent, every chunk was sent, and every delta was sent or dropped with a full resync asked
      for afterwards. */
  lemma StreamConverges(c: Config, n: nat, before: seq<Action>, run: seq<Action>)
    requires c.depth > 0 && Runs(c, Init(n), before) && Open(After(c, Init(n), before))
    requires Runs(c, After(c, Init(n), before), run) && forall a <- run :: Internal(a)
    requires Stuck(c, After(c, After(c, Init(n), before), run))
    ensures Converged(c, After(c, After(c, Init(n), before), run))
  {
    DeliveryHolds(c, n, before);
    DeliveryRun(c, After(c, Init(n), before), run);
    MaximalRunDrains(c, n, before, run);
    InternalKeepsOpen(c, After(c, Init(n), before), run);
    RestIsConverged(c, After(c, After(c, Init(n), before), run));
  }
}
