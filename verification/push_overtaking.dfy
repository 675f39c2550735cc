/** Whether directives can arrive out of order: exactly when a stream may be asked for more than it can queue. */
module PushOvertaking {
  import opened Directives
  import opened Mailbox
  import opened PushProtocol
  import opened PushBytes
  import opened PushDelivery

  // ---- what a caller can know of a run beforehand ----

  // How many calls to push it makes, and how many bytes they carry in all.
  function Calls(run: seq<Action>): nat {
    if run == [] then 0 else (if run[0].Begin? then 1 else 0) + Calls(run[1..])
  }

  function Volume(run: seq<Action>): nat {
    if run == [] then 0 else (if run[0].Begin? then run[0].what.Size() else 0) + Volume(run[1..])
  }

  // ---- overtaking ----

  // The directive of an outcome has been sent by the way it was accepted, or is still waiting there.
  ghost predicate Sent(s: State, o: Outcome) {
    || (o.Queued? && o.e in s.viaQueue)
    || (o.Stashed? && o.e.d in s.viaPending)
  }

  ghost predicate Waiting(s: State, o: Outcome) {
    || (o.Queued? && o.e in s.ch)
    || (o.Stashed? && o.e.d.kind in s.box.pending && s.box.pending[o.e.d.kind] == o.e.d)
  }

  // One of the two was queued and the other stashed, the second is of the same kind and at least as new,
  // and it has been sent while the first, accepted before it, still waits.
  ghost predicate OvertakenAt(s: State, i: nat, j: nat) {
    && i < j < |s.log|
    && ((s.log[i].Queued? && s.log[j].Stashed?) || (s.log[i].Stashed? && s.log[j].Queued?))
    && s.log[i].e.d.kind == s.log[j].e.d.kind && s.log[i].e.d.generation <= s.log[j].e.d.generation
    && Waiting(s, s.log[i]) && Sent(s, s.log[j])
  }

  ghost predicate Overtaken(s: State) {
    exists i: nat, j: nat :: OvertakenAt(s, i, j)
  }

  // ---- runs that ask for no more than fits ----

  // A call not yet queued, diverted or refused.
  function OpenCall(pc: PusherState): nat {
    if pc.Resting? || pc.AddBytes? || pc.SignalWake? then 0 else 1
  }

  // The bytes a pusher may still add to the counter.
  function OpenBytes(pc: PusherState): nat {
    if pc.Resting? || pc.SignalWake? then 0 else pc.d.Size()
  }

  predicate Diverting(pc: PusherState) {
    pc.Overflow? || pc.SignalWake?
  }

  predicate Diverted(o: Outcome) {
    o.Stashed? || o.Dropped?
  }

  // Nothing has been diverted, and even with `calls` more calls of `bytes` bytes nothing need be.
  ghost predicate Roomy(c: Config, s: State, calls: nat, bytes: nat) {
    && |s.ch| + Sum(OpenCall, s.pushers) + calls <= c.depth
    && s.queued + Sum(OpenBytes, s.pushers) + bytes <= c.maxBytes
    && (forall pc <- s.pushers :: !Diverting(pc))
    && s.box.pending == map[] && s.viaPending == [] && !s.loop.SendingPending?
    && (forall o <- s.log :: !Diverted(o))
  }

  lemma WeightOfOne(weight: PusherState -> nat, ps: seq<PusherState>, p: nat)
    requires p < |ps|
    ensures weight(ps[p]) <= Sum(weight, ps)
  {
    SplitSum(weight, ps, p);
  }

  // A budget or depth test made in a roomy state succeeds, so the pusher is not diverted.
  lemma NotDiverted(c: Config, s: State, p: nat, calls: nat, bytes: nat)
    requires CanPush(c, s, p) && Roomy(c, s, calls, bytes)
    ensures var t := PushStep(c, s, p);
            && |t.pushers| == |s.pushers| && t.pushers == s.pushers[p := t.pushers[p]] && !Diverting(t.pushers[p])
            && t.box == s.box && t.viaPending == s.viaPending && t.loop == s.loop
            && (t.log == s.log || t.log == s.log + [Queued(Entry(p, s.pushers[p].d))])
  {
    WeightOfOne(OpenCall, s.pushers, p);
    WeightOfOne(OpenBytes, s.pushers, p);
    assert s.pushers[p] in s.pushers && !Diverting(s.pushers[p]);
  }

  // The room a pusher has been counted for is the room it takes.
  lemma RoomTaken(c: Config, s: State, p: nat)
    requires CanPush(c, s, p) && !Diverting(s.pushers[p])
    ensures var t := PushStep(c, s, p);
            && |t.pushers| == |s.pushers|
            && |t.ch| + OpenCall(t.pushers[p]) <= |s.ch| + OpenCall(s.pushers[p])
            && t.queued + OpenBytes(t.pushers[p]) <= s.queued + OpenBytes(s.pushers[p])
  {
  }

  lemma RoomyPush(c: Config, s: State, p: nat, calls: nat, bytes: nat)
    requires CanPush(c, s, p) && Roomy(c, s, calls, bytes)
    ensures Roomy(c, PushStep(c, s, p), calls, bytes)
  {
    assert s.pushers[p] in s.pushers;
    NotDiverted(c, s, p, calls, bytes);
    RoomTaken(c, s, p);
    var t := PushStep(c, s, p);
    SumUpdate(OpenCall, s.pushers, p, t.pushers[p]);
    SumUpdate(OpenBytes, s.pushers, p, t.pushers[p]);
  }

  lemma RoomyBegin(c: Config, s: State, p: nat, d: Directive, calls: nat, bytes: nat)
    requires Enabled(c, s, Begin(p, d)) && Roomy(c, s, calls + 1, bytes + d.Size())
    ensures Roomy(c, Do(c, s, Begin(p, d)), calls, bytes)
  {
    var t := Do(c, s, Begin(p, d));
    SumUpdate(OpenCall, s.pushers, p, t.pushers[p]);
    SumUpdate(OpenBytes, s.pushers, p, t.pushers[p]);
  }

  lemma RoomyRefuse(c: Config, s: State, p: nat, calls: nat, bytes: nat)
    requires Enabled(c, s, Refuse(p)) && Roomy(c, s, calls, bytes)
    ensures Roomy(c, Do(c, s, Refuse(p)), calls, bytes)
  {
    SumUpdate(OpenCall, s.pushers, p, Resting);
    SumUpdate(OpenBytes, s.pushers, p, Resting);
  }

  lemma RoomyStep(c: Config, s: State, a: Action, calls: nat, bytes: nat)
    requires Enabled(c, s, a)
    requires if a.Begin? then Roomy(c, s, calls + 1, bytes + a.what.Size()) else Roomy(c, s, calls, bytes)
    ensures Roomy(c, Do(c, s, a), calls, bytes)
  {
    match a {
      case Begin(p, d) => RoomyBegin(c, s, p, d, calls, bytes);
      case Push(p) => RoomyPush(c, s, p, calls, bytes);
      case Refuse(p) => RoomyRefuse(c, s, p, calls, bytes);
      case _ =>
    }
  }

  lemma {:induction false} RoomyRun(c: Config, s: State, run: seq<Action>)
    requires Runs(c, s, run) && Roomy(c, s, Calls(run), Volume(run))
    ensures Roomy(c, After(c, s, run), 0, 0)
    decreases |run|
  {
    if run != [] {
      RoomyStep(c, s, run[0], Calls(run[1..]), Volume(run[1..]));
      RoomyRun(c, Do(c, s, run[0]), run[1..]);
    }
  }

  /** If all calls of a run fit the channel's depth and the byte budget together, then whatever the
      interleaving nothing is stashed or dropped, and the agent is sent what was queued, in that order. */
  lemma WhatFitsIsInOrder(c: Config, n: nat, run: seq<Action>)
    requires Runs(c, Init(n), run) && Calls(run) <= c.depth && Volume(run) <= c.maxBytes
    ensures var s := After(c, Init(n), run);
            && (forall o <- s.log :: !o.Stashed? && !o.Dropped?)
            && s.viaPending == [] && s.box.pending == map[]
            && QueuedOf(s.log) == s.viaQueue + QueuedInHand(s.loop) + s.ch
  {
    RestingSum(OpenCall, n);
    RestingSum(OpenBytes, n);
    RoomyRun(c, Init(n), run);
    DeliveryHolds(c, n, run);
    var s := After(c, Init(n), run);
    assert forall o <- s.log :: !Diverted(o);
  }

  // ---- one call cannot be overtaken ----

  function Decided(log: seq<Outcome>): nat {
    if log == [] then 0 else Decided(log[..|log| - 1]) + if log[|log| - 1].Resynced? then 0 else 1
  }

  lemma DecidedStep(c: Config, s: State, a: Action)
    requires Enabled(c, s, a)
    ensures var t := Do(c, s, a);
            Decided(t.log) + Sum(OpenCall, t.pushers) ==
            Decided(s.log) + Sum(OpenCall, s.pushers) + if a.Begin? then 1 else 0
  {
    var t, news := Do(c, s, a), NewOutcome(c, s, a);
    SumMoves(c, s, a, OpenCall);
    LogGrows(c, s, a);
    if a.Push? {
      PushOutcome(c, s, a.p);
    }
    if news == [] {
      assert t.log == s.log;
    } else {
      assert news == [news[0]] && t.log[..|t.log| - 1] == s.log;
    }
  }

  lemma {:induction false} DecidedRun(c: Config, s: State, run: seq<Action>)
    requires Runs(c, s, run)
    ensures Decided(After(c, s, run).log) + Sum(OpenCall, After(c, s, run).pushers) ==
            Decided(s.log) + Sum(OpenCall, s.pushers) + Calls(run)
    decreases |run|
  {
    if run != [] {
      DecidedStep(c, s, run[0]);
      DecidedRun(c, Do(c, s, run[0]), run[1..]);
    }
  }

  lemma {:induction false} DecidedCounts(log: seq<Outcome>, i: nat, j: nat)
    requires i < j < |log| && !log[i].Resynced? && !log[j].Resynced?
    ensures Decided(log) >= 2
    decreases |log|
  {
    var n := |log| - 1;
    if j < n {
      DecidedCounts(log[..n], i, j);
    } else {
      DecidedOne(log[..n], i);
    }
  }

  lemma {:induction false} DecidedOne(log: seq<Outcome>, i: nat)
    requires i < |log| && !log[i].Resynced?
    ensures Decided(log) >= 1
    decreases |log|
  {
    if i < |log| - 1 {
      DecidedOne(log[..|log| - 1], i);
    }
  }

  // ---- anything more can be overtaken ----

  ghost predicate ReachableBy(c: Config, n: nat, calls: nat, bytes: nat, s: State) {
    exists run :: Runs(c, Init(n), run) && Calls(run) == calls && Volume(run) == bytes && After(c, Init(n), run) == s
  }

  lemma {:induction false} CallsAppend(run: seq<Action>, a: Action)
    ensures Calls(run + [a]) == Calls(run) + if a.Begin? then 1 else 0
    ensures Volume(run + [a]) == Volume(run) + if a.Begin? then a.what.Size() else 0
  {
    if run == [] {
      assert run + [a] == [a];
    } else {
      assert (run + [a])[1..] == run[1..] + [a];
      CallsAppend(run[1..], a);
    }
  }

  lemma ReachesBy(c: Config, n: nat, calls: nat, bytes: nat, s: State, a: Action)
    requires ReachableBy(c, n, calls, bytes, s) && Enabled(c, s, a)
    ensures var more, size := if a.Begin? then 1 else 0, if a.Begin? then a.what.Size() else 0;
            ReachableBy(c, n, calls + more, bytes + size, Do(c, s, a))
  {
    var run :| Runs(c, Init(n), run) && Calls(run) == calls && Volume(run) == bytes && After(c, Init(n), run) == s;
    RunsOn(c, Init(n), run, a);
    CallsAppend(run, a);
  }

  const OLDER := Directive(DesiredState, 1, [])

  function Newer(size: nat): Directive {
    Directive(DesiredState, 2, seq(size, i => 0))
  }

  // Pusher 0 has queued OLDER k times, and nothing else has happened.
  predicate Lined(s: State, n: nat, k: nat) {
    && n > 0 && |s.pushers| == n == |s.pushes| && s.queued == 0 && !s.done
    && s.box == EMPTY && s.loop.Idle? && s.viaPending == [] && s.viaQueue == []
    && |s.ch| == |s.log| == k
    && (forall i :: 0 <= i < k ==> s.ch[i] == Entry(0, OLDER) && s.log[i] == Queued(Entry(0, OLDER)))
  }

  lemma LineUpOne(c: Config, n: nat, k: nat, s0: State) returns (s: State)
    requires ReachableBy(c, n, k, 0, s0) && Lined(s0, n, k) && s0.pushers[0].Resting? && k < c.depth
    ensures ReachableBy(c, n, k + 1, 0, s) && Lined(s, n, k + 1) && s.pushers[0] == AddBytes(OLDER)
  {
    ReachesBy(c, n, k, 0, s0, Begin(0, OLDER));
    var s1 := Do(c, s0, Begin(0, OLDER));
    ReachesBy(c, n, k + 1, 0, s1, Push(0));
    var s2 := Do(c, s1, Push(0));
    assert s2.pushers[0] == TrySend(OLDER);
    ReachesBy(c, n, k + 1, 0, s2, Push(0));
    s := Do(c, s2, Push(0));
  }

  lemma {:induction false} LineUp(c: Config, n: nat, k: nat) returns (s: State)
    requires n > 0 && k <= c.depth
    ensures ReachableBy(c, n, k, 0, s) && Lined(s, n, k) && s.pushers[0].Resting?
    decreases k
  {
    if k == 0 {
      assert Runs(c, Init(n), []) && Calls([]) == 0 && Volume([]) == 0 && After(c, Init(n), []) == Init(n);
      s := Init(n);
    } else {
      var s0 := LineUp(c, n, k - 1);
      var s1 := LineUpOne(c, n, k - 1, s0);
      ReachesBy(c, n, k, 0, s1, Push(0));
      s := Do(c, s1, Push(0));
    }
  }

  // The next call finds the channel full, or its payload over the budget.
  predicate Overflows(c: Config, k: nat, d: Directive) {
    Coalescible(d.kind) && k <= c.depth && (k == c.depth || d.Size() > c.maxBytes)
  }

  lemma RefuseNext(c: Config, n: nat, k: nat, d: Directive) returns (s: State)
    requires n > 0 && Overflows(c, k, d)
    ensures ReachableBy(c, n, k + 1, d.Size(), s) && Lined(s, n, k) && s.pushers[0] == Overflow(d)
  {
    var s0 := LineUp(c, n, k);
    ReachesBy(c, n, k, 0, s0, Begin(0, d));
    var s2 := Do(c, s0, Begin(0, d));
    ReachesBy(c, n, k + 1, d.Size(), s2, Push(0));
    s := Do(c, s2, Push(0));
    if s.pushers[0].TrySend? {
      ReachesBy(c, n, k + 1, d.Size(), s, Push(0));
      s := Do(c, s, Push(0));
    }
  }

  // The queue as it was, and d stashed, taken or sent.
  predicate Behind(s: State, n: nat, k: nat, d: Directive) {
    && |s.pushers| == n == |s.pushes| && s.viaQueue == [] && |s.ch| == k && |s.log| == k + 1
    && s.queued == 0 && !s.done
    && (forall i :: 0 <= i < k ==> s.ch[i] == Entry(0, OLDER) && s.log[i] == Queued(Entry(0, OLDER)))
    && s.log[k] == Stashed(Entry(0, d))
  }

  lemma StashNext(c: Config, n: nat, k: nat, d: Directive) returns (s: State)
    requires n > 0 && Overflows(c, k, d)
    ensures ReachableBy(c, n, k + 1, d.Size(), s) && Behind(s, n, k, d) && s.viaPending == []
    ensures s.loop.Idle? && s.box == Box(map[d.kind := d], false, true) && s.pushers[0].Resting?
  {
    var s0 := RefuseNext(c, n, k, d);
    ReachesBy(c, n, k + 1, d.Size(), s0, Push(0));
    var s1 := Do(c, s0, Push(0));
    assert s1.pushers[0] == SignalWake && s1.box == Box(map[d.kind := d], false, false);
    ReachesBy(c, n, k + 1, d.Size(), s1, Push(0));
    s := Do(c, s1, Push(0));
  }

  lemma WakeLoop(c: Config, n: nat, k: nat, d: Directive) returns (s: State)
    requires n > 0 && Overflows(c, k, d)
    ensures ReachableBy(c, n, k + 1, d.Size(), s) && Behind(s, n, k, d) && s.viaPending == []
    ensures s.loop.Taking? && s.box == Box(map[d.kind := d], false, false)
  {
    var s0 := StashNext(c, n, k, d);
    ReachesBy(c, n, k + 1, d.Size(), s0, WakeUp);
    var s1 := Do(c, s0, WakeUp);
    ReachesBy(c, n, k + 1, d.Size(), s1, Loop);
    s := Do(c, s1, Loop);
  }

  // For every configuration, as soon as the channel is full or a payload exceeds the budget.
  lemma Overtake(c: Config, n: nat, k: nat, d: Directive) returns (s: State)
    requires n > 0 && Overflows(c, k, d)
    ensures ReachableBy(c, n, k + 1, d.Size(), s) && Behind(s, n, k, d) && s.viaPending == [d]
  {
    var s0 := WakeLoop(c, n, k, d);
    assert Newest(s0.box, d.kind);
    ReachesBy(c, n, k + 1, d.Size(), s0, TakePending(d.kind));
    var s1 := Do(c, s0, TakePending(d.kind));
    ReachesBy(c, n, k + 1, d.Size(), s1, Loop);
    s := Do(c, s1, Loop);
  }

  /** The newest directive need not arrive last, in any configuration: the loop can meet the wake token
      first and send a stashed snapshot while the channel is full of older ones accepted before it. */
  lemma PendingCanOvertake(c: Config, n: nat)
    requires n > 0 && c.depth > 0
    ensures exists s :: && ReachableBy(c, n, c.depth + 1, 0, s) && |s.ch| == c.depth
                        && s.viaQueue == [] && s.viaPending == [Newer(0)]
                        && forall e <- s.ch :: e.d == OLDER && e.d.generation < Newer(0).generation
  {
    var s := Overtake(c, n, c.depth, Newer(0));
    assert forall e <- s.ch :: e == Entry(0, OLDER);
  }

  // No run of so many calls and bytes, under any interleaving of n pushers, is ever overtaken.
  ghost predicate NeverOvertaken(c: Config, n: nat, calls: nat, bytes: nat) {
    forall run :: Runs(c, Init(n), run) && Calls(run) <= calls && Volume(run) <= bytes ==>
        !Overtaken(After(c, Init(n), run))
  }

  lemma OneCallAlone(s: State)
    requires Decided(s.log) < 2
    ensures !Overtaken(s)
  {
    forall i: nat, j: nat
      ensures !OvertakenAt(s, i, j)
    {
      if i < j < |s.log| && !s.log[i].Resynced? && !s.log[j].Resynced? {
        DecidedCounts(s.log, i, j);
      }
    }
  }

  lemma NothingStashed(s: State)
    requires forall o <- s.log :: !o.Stashed?
    ensures !Overtaken(s)
  {
    forall i: nat, j: nat | i < j < |s.log|
      ensures !s.log[i].Stashed? && !s.log[j].Stashed?
    {
      assert s.log[i] in s.log && s.log[j] in s.log;
    }
  }

  lemma WithinLimits(c: Config, n: nat, run: seq<Action>)
    requires Runs(c, Init(n), run) && (Calls(run) < 2 || (Calls(run) <= c.depth && Volume(run) <= c.maxBytes))
    ensures !Overtaken(After(c, Init(n), run))
  {
    var s := After(c, Init(n), run);
    if Calls(run) < 2 {
      RestingSum(OpenCall, n);
      DecidedRun(c, Init(n), run);
      OneCallAlone(s);
    } else {
      WhatFitsIsInOrder(c, n, run);
      NothingStashed(s);
    }
  }

  lemma BeyondLimits(c: Config, n: nat, calls: nat, bytes: nat)
    requires n > 0 && c.depth > 0 && calls >= 2 && (calls > c.depth || bytes > c.maxBytes)
    ensures !NeverOvertaken(c, n, calls, bytes)
  {
    var k, size := if calls > c.depth then c.depth else 1, if calls > c.depth then 0 else c.maxBytes + 1;
    var s := Overtake(c, n, k, Newer(size));
    assert s.ch[0] in s.ch && s.log[k].e.d in s.viaPending;
    assert OvertakenAt(s, 0, k);
    var run :| Runs(c, Init(n), run) && Calls(run) == k + 1 && Volume(run) == size && After(c, Init(n), run) == s;
  }

  /** What a caller can rely on: calls of this number and total size are never overtaken if and only if
      there is at most one of them, or all of them fit the channel and the budget at once. */
  lemma NeverOvertakenExactly(c: Config, n: nat, calls: nat, bytes: nat)
    requires n > 0 && c.depth > 0
    ensures NeverOvertaken(c, n, calls, bytes) <==> calls < 2 || (calls <= c.depth && bytes <= c.maxBytes)
  {
    if calls < 2 || (calls <= c.depth && bytes <= c.maxBytes) {
      forall run | Runs(c, Init(n), run) && Calls(run) <= calls && Volume(run) <= bytes
        ensures !Overtaken(After(c, Init(n), run))
      {
        WithinLimits(c, n, run);
      }
    } else {
      BeyondLimits(c, n, calls, bytes);
    }
  }
}
