/** How long a kind waits in the mailbox: boundedly, exactly while nothing as new is stashed meanwhile. */
module PushStarvation {
  import opened Directives
  import opened Mailbox
  import opened PushProtocol
  import opened PushBytes
  import opened PushDelivery
  import opened PushOvertaking

  function Takes(run: seq<Action>): nat {
    if run == [] then 0 else (if run[0].TakePending? then 1 else 0) + Takes(run[1..])
  }

  // Whatever is stashed during the run is of a generation below g.
  ghost predicate StashesBelow(c: Config, s: State, run: seq<Action>, g: nat)
    requires Runs(c, s, run)
    decreases |run|
  {
    run == [] ||
    (&& (StashesNow(c, s, run[0]) ==> s.pushers[run[0].p].d.generation < g)
     && StashesBelow(c, Do(c, s, run[0]), run[1..], g))
  }

  // The kind waits with a directive of generation g.
  predicate Waits(b: Box, k: Kind, g: nat) {
    k in b.pending && b.pending[k].generation == g
  }

  // The kinds that may be taken before it.
  function Ahead(b: Box, k: Kind, g: nat): set<Kind> {
    set j | j in b.pending && j != k && b.pending[j].generation >= g
  }

  // ---- the wait is bounded ----

  lemma AheadAfterStash(b: Box, d: Directive, k: Kind, g: nat)
    requires Waits(b, k, g) && d.generation < g
    ensures Waits(Stash(b, d), k, g) && Ahead(Stash(b, d), k, g) == Ahead(b, k, g)
  {
  }

  lemma AheadAfterTake(b: Box, j: Kind, k: Kind, g: nat)
    requires Waits(b, k, g) && Newest(b, j) && j != k
    ensures Waits(Take(b, j), k, g) && j in Ahead(b, k, g) && Ahead(Take(b, j), k, g) == Ahead(b, k, g) - {j}
  {
  }

  lemma AheadAfterMark(b: Box, k: Kind, g: nat)
    requires Waits(b, k, g) && k != DesiredDelta
    ensures Waits(Mark(b), k, g) && Ahead(Mark(b), k, g) <= Ahead(b, k, g)
  {
  }

  lemma Smaller<T>(a: set<T>, b: set<T>)
    requires a <= b
    ensures |a| <= |b|
  {
    assert b == a + (b - a);
  }

  // Only taking and the two overflow sections change what is pending.
  lemma PendingStays(c: Config, s: State, a: Action)
    requires Enabled(c, s, a) && !a.TakePending? && !StashesNow(c, s, a) && !MarksNow(c, s, a)
    ensures Do(c, s, a).box.pending == s.box.pending
  {
    if a.Push? && Sends(c, s, a.p) {
      SendStep(c, s, a.p);
    }
  }

  // A take brings the kind one nearer; nothing that stays below g sets it back.
  lemma AheadStep(c: Config, s: State, a: Action, k: Kind, g: nat)
    requires Enabled(c, s, a) && Waits(s.box, k, g) && k != DesiredDelta && a != TakePending(k)
    requires StashesNow(c, s, a) ==> s.pushers[a.p].d.generation < g
    ensures var t := Do(c, s, a);
            && Waits(t.box, k, g)
            && |Ahead(t.box, k, g)| + (if a.TakePending? then 1 else 0) <= |Ahead(s.box, k, g)|
  {
    if a.TakePending? {
      AheadAfterTake(s.box, a.k, k, g);
    } else if StashesNow(c, s, a) {
      StashEffect(c, s, a);
      AheadAfterStash(s.box, s.pushers[a.p].d, k, g);
    } else if MarksNow(c, s, a) {
      AheadAfterMark(s.box, k, g);
      Smaller(Ahead(Mark(s.box), k, g), Ahead(s.box, k, g));
    } else {
      PendingStays(c, s, a);
      assert Ahead(Do(c, s, a).box, k, g) == Ahead(s.box, k, g);
    }
  }

  lemma {:induction false} AheadRun(c: Config, s: State, run: seq<Action>, k: Kind, g: nat)
    requires Runs(c, s, run) && Waits(s.box, k, g) && k != DesiredDelta
    requires StashesBelow(c, s, run, g) && TakePending(k) !in run
    ensures Takes(run) <= |Ahead(s.box, k, g)|
    decreases |run|
  {
    if run != [] {
      assert run[0] in run && forall a <- run[1..] :: a in run;
      AheadStep(c, s, run[0], k, g);
      AheadRun(c, Do(c, s, run[0]), run[1..], k, g);
    }
  }

  /** Whatever the state and the interleaving: a waiting kind is taken within as many takes as there are
      pending kinds, unless something of at least its generation is stashed meanwhile. */
  lemma TakenInTime(c: Config, s: State, run: seq<Action>, k: Kind, g: nat)
    requires Runs(c, s, run) && Waits(s.box, k, g) && k != DesiredDelta && StashesBelow(c, s, run, g)
    requires Takes(run) >= |s.box.pending|
    ensures TakePending(k) in run
  {
    FewAhead(s.box, k, g);
    if TakePending(k) !in run {
      AheadRun(c, s, run, k, g);
    }
  }

  lemma FewAhead(b: Box, k: Kind, g: nat)
    requires Waits(b, k, g)
    ensures |Ahead(b, k, g)| < |b.pending|
  {
    Smaller(Ahead(b, k, g) + {k}, b.pending.Keys);
    assert k !in Ahead(b, k, g) && |b.pending.Keys| == |b.pending|;
  }

  // ---- otherwise it is not ----

  // A run in which the re-homing directive waits through so many takes.
  ghost predicate Starves(c: Config, s: State, t: State, takes: nat, g: nat) {
    exists run ::
      && Runs(c, s, run) && After(c, s, run) == t && Takes(run) == takes
      && TakePending(Rehome) !in run && StashesBelow(c, s, run, g)
  }

  lemma StarvesNot(c: Config, s: State, g: nat)
    ensures Starves(c, s, s, 0, g)
  {
    assert Runs(c, s, []) && After(c, s, []) == s && Takes([]) == 0 && StashesBelow(c, s, [], g);
  }

  lemma {:induction false} StashesBelowAppend(c: Config, s: State, run: seq<Action>, a: Action, g: nat)
    requires Runs(c, s, run) && Enabled(c, After(c, s, run), a) && Runs(c, s, run + [a]) && StashesBelow(c, s, run, g)
    requires StashesNow(c, After(c, s, run), a) ==> After(c, s, run).pushers[a.p].d.generation < g
    ensures StashesBelow(c, s, run + [a], g)
    ensures Takes(run + [a]) == Takes(run) + if a.TakePending? then 1 else 0
    decreases |run|
  {
    if run == [] {
      assert run + [a] == [a] && [a][1..] == [];
      assert Takes([a][1..]) == 0;
      assert StashesBelow(c, Do(c, s, a), [], g);
    } else {
      assert (run + [a])[1..] == run[1..] + [a] && (run + [a])[0] == run[0];
      StashesBelowAppend(c, Do(c, s, run[0]), run[1..], a, g);
    }
  }

  lemma StarvesOn(c: Config, s: State, t: State, takes: nat, g: nat, a: Action)
    requires Starves(c, s, t, takes, g) && Enabled(c, t, a) && a != TakePending(Rehome)
    requires StashesNow(c, t, a) ==> t.pushers[a.p].d.generation < g
    ensures Starves(c, s, Do(c, t, a), takes + (if a.TakePending? then 1 else 0), g)
  {
    var run :| && Runs(c, s, run) && After(c, s, run) == t && Takes(run) == takes
               && TakePending(Rehome) !in run && StashesBelow(c, s, run, g);
    RunsOn(c, s, run, a);
    StashesBelowAppend(c, s, run, a, g);
  }

  function Move(g: nat): Directive {
    Directive(Rehome, g, [])
  }

  function Snapshot(g: nat): Directive {
    Directive(DesiredState, g, [])
  }

  // The queue is full, the loop idle and pusher 0 at rest or in a call; the mailbox is as given.
  predicate Full(c: Config, s: State, pc: PusherState, b: Box, loop: LoopState) {
    && 0 < |s.pushers| == |s.pushes| && s.pushers[0] == pc && |s.ch| == c.depth && s.queued == 0 && !s.done
    && s.box == b && s.loop == loop
  }

  lemma StashSnapshot(c: Config, s: State, t: State, takes: nat, g: nat, wake: bool) returns (u: State)
    requires Starves(c, s, t, takes, g + 1) && Full(c, t, Resting, Box(map[Rehome := Move(g)], false, wake), Idle)
    ensures Starves(c, s, u, takes, g + 1)
    ensures Full(c, u, SignalWake, Box(map[Rehome := Move(g), DesiredState := Snapshot(g)], false, wake), Idle)
  {
    StarvesOn(c, s, t, takes, g + 1, Begin(0, Snapshot(g)));
    var t1 := Do(c, t, Begin(0, Snapshot(g)));
    StarvesOn(c, s, t1, takes, g + 1, Push(0));
    var t2 := Do(c, t1, Push(0));
    StarvesOn(c, s, t2, takes, g + 1, Push(0));
    var t3 := Do(c, t2, Push(0));
    assert t3.pushers[0] == Overflow(Snapshot(g));
    StarvesOn(c, s, t3, takes, g + 1, Push(0));
    u := Do(c, t3, Push(0));
  }

  lemma WakeToTake(c: Config, s: State, t: State, takes: nat, g: nat, wake: bool) returns (u: State)
    requires Starves(c, s, t, takes, g + 1)
    requires Full(c, t, SignalWake, Box(map[Rehome := Move(g), DesiredState := Snapshot(g)], false, wake), Idle)
    ensures Starves(c, s, u, takes, g + 1)
    ensures Full(c, u, Resting, Box(map[Rehome := Move(g), DesiredState := Snapshot(g)], false, false), Taking)
  {
    StarvesOn(c, s, t, takes, g + 1, Push(0));
    var t1 := Do(c, t, Push(0));
    StarvesOn(c, s, t1, takes, g + 1, WakeUp);
    var t2 := Do(c, t1, WakeUp);
    StarvesOn(c, s, t2, takes, g + 1, Loop);
    u := Do(c, t2, Loop);
  }

  lemma TakeSnapshot(c: Config, s: State, t: State, takes: nat, g: nat) returns (u: State)
    requires Starves(c, s, t, takes, g + 1)
    requires Full(c, t, Resting, Box(map[Rehome := Move(g), DesiredState := Snapshot(g)], false, false), Taking)
    ensures Starves(c, s, u, takes + 1, g + 1)
    ensures Full(c, u, Resting, Box(map[Rehome := Move(g)], false, true), Idle)
  {
    assert Newest(t.box, DesiredState);
    StarvesOn(c, s, t, takes, g + 1, TakePending(DesiredState));
    var t1 := Do(c, t, TakePending(DesiredState));
    assert t.box.pending - {DesiredState} == map[Rehome := Move(g)] && Rehome in t1.box.pending;
    StarvesOn(c, s, t1, takes + 1, g + 1, Loop);
    u := Do(c, t1, Loop);
  }

  // Each round a snapshot as new as the re-homing directive is stashed, and may be taken first.
  lemma {:induction false} StarveFor(c: Config, s: State, takes: nat, g: nat) returns (t: State)
    requires Full(c, s, Resting, Box(map[Rehome := Move(g)], false, true), Idle)
    ensures Starves(c, s, t, takes, g + 1) && Full(c, t, Resting, Box(map[Rehome := Move(g)], false, true), Idle)
    decreases takes
  {
    if takes == 0 {
      StarvesNot(c, s, g + 1);
      t := s;
    } else {
      t := StarveFor(c, s, takes - 1, g);
      t := StashSnapshot(c, s, t, takes - 1, g, true);
      t := WakeToTake(c, s, t, takes - 1, g, true);
      t := TakeSnapshot(c, s, t, takes - 1, g);
    }
  }

  ghost predicate Reached(c: Config, n: nat, s: State) {
    exists run :: Runs(c, Init(n), run) && After(c, Init(n), run) == s
  }

  /** For every configuration, generation and number of takes: a reachable state in which a re-homing
      directive waits alone, and a run from it with so many takes that leaves it waiting, though nothing
      newer than itself is ever stashed. */
  lemma RehomeStarves(c: Config, n: nat, takes: nat, g: nat)
    requires n > 0
    ensures exists s, t :: && Reached(c, n, s) && s.box.pending == map[Rehome := Move(g)]
                           && Starves(c, s, t, takes, g + 1) && Waits(t.box, Rehome, g)
  {
    var s := StashNext(c, n, c.depth, Move(g));
    var run :| Runs(c, Init(n), run) && Calls(run) == c.depth + 1 && Volume(run) == 0 && After(c, Init(n), run) == s;
    assert Full(c, s, Resting, Box(map[Rehome := Move(g)], false, true), Idle);
    var t := StarveFor(c, s, takes, g);
  }

  // From every reachable state a kind waiting with generation g is taken within |pending| takes, as long as
  // whatever is stashed meanwhile stays below x.
  ghost predicate FairBelow(c: Config, n: nat, g: nat, x: nat) {
    forall s, run, k ::
      (&& Reached(c, n, s) && Waits(s.box, k, g) && Runs(c, s, run) && StashesBelow(c, s, run, x)
       && Takes(run) >= |s.box.pending|) ==> TakePending(k) in run
  }

  lemma NoDeltaWaits(c: Config, n: nat, s: State, k: Kind)
    requires Reached(c, n, s) && k in s.box.pending
    ensures k != DesiredDelta
  {
    var run :| Runs(c, Init(n), run) && After(c, Init(n), run) == s;
    DeliveryHolds(c, n, run);
    assert Kept(s, s.box.pending[k]);
  }

  lemma {:induction false} BelowIsBelow(c: Config, s: State, run: seq<Action>, x: nat, g: nat)
    requires Runs(c, s, run) && StashesBelow(c, s, run, x) && x <= g
    ensures StashesBelow(c, s, run, g)
    decreases |run|
  {
    if run != [] {
      BelowIsBelow(c, Do(c, s, run[0]), run[1..], x, g);
    }
  }

  /** A kind cannot be starved if and only if everything stashed while it waits is older than it. Kinds
      without generations wait at generation 0, so any stash can starve them. */
  lemma FairExactly(c: Config, n: nat, g: nat, x: nat)
    requires n > 0
    ensures FairBelow(c, n, g, x) <==> x <= g
  {
    if x <= g {
      forall s, run, k | Reached(c, n, s) && Waits(s.box, k, g) && Runs(c, s, run) && StashesBelow(c, s, run, x)
                         && Takes(run) >= |s.box.pending|
        ensures TakePending(k) in run
      {
        NoDeltaWaits(c, n, s, k);
        BelowIsBelow(c, s, run, x, g);
        TakenInTime(c, s, run, k, g);
      }
    } else {
      RehomeStarves(c, n, 1, g);
      var s, t :| Reached(c, n, s) && s.box.pending == map[Rehome := Move(g)]
                  && Starves(c, s, t, 1, g + 1) && Waits(t.box, Rehome, g);
      var run :| && Runs(c, s, run) && After(c, s, run) == t && Takes(run) == 1
                 && TakePending(Rehome) !in run && StashesBelow(c, s, run, g + 1);
      BelowIsBelow(c, s, run, g + 1, x);
      assert Waits(s.box, Rehome, g) && |s.box.pending| == 1;
    }
  }
}
