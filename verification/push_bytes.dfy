/** How many payload bytes one agent stream can pin: the byte budget under concurrent pushers. */
module PushBytes {
  import opened PushProtocol

  function Bytes(ch: seq<Entry>): nat {
    if ch == [] then 0 else ch[0].d.Size() + Bytes(ch[1..])
  }

  lemma {:induction false} BytesAppend(ch: seq<Entry>, e: Entry)
    ensures Bytes(ch + [e]) == Bytes(ch) + e.d.Size()
  {
    if ch != [] {
      assert (ch + [e])[1..] == ch[1..] + [e];
      BytesAppend(ch[1..], e);
    }
  }

  function Sum(weight: PusherState -> nat, ps: seq<PusherState>): nat {
    if ps == [] then 0 else weight(ps[0]) + Sum(weight, ps[1..])
  }

  lemma {:induction false} SumUpdate(weight: PusherState -> nat, ps: seq<PusherState>, p: nat, pc: PusherState)
    requires p < |ps|
    ensures Sum(weight, ps[p := pc]) + weight(ps[p]) == Sum(weight, ps) + weight(pc)
  {
    if p > 0 {
      assert ps[p := pc][1..] == ps[1..][p - 1 := pc];
      SumUpdate(weight, ps[1..], p - 1, pc);
    } else {
      assert ps[p := pc][1..] == ps[1..];
    }
  }

  lemma {:induction false} SumBounded(weight: PusherState -> nat, ps: seq<PusherState>, most: nat)
    requires forall pc <- ps :: weight(pc) <= most
    ensures Sum(weight, ps) <= |ps| * most
  {
    if ps != [] {
      SumBounded(weight, ps[1..], most);
      assert |ps| * most == (|ps| - 1) * most + most;
    }
  }

  // The bytes a pusher has put on the channel but not yet added to the counter.
  function NotYetAdded(pc: PusherState): nat {
    if pc.AddBytes? then pc.d.Size() else 0
  }

  // The bytes a pusher has been admitted for and not yet added to the counter.
  function Admitted(pc: PusherState): nat {
    if pc.BlockingSend? || pc.TrySend? || pc.AddBytes? then pc.d.Size() else 0
  }

  function NotYetSubtracted(l: LoopState): nat {
    if l.Received? then l.e.d.Size() else 0
  }

  /** The counter is never in step with the channel, but it is off by exactly what is in flight. */
  ghost predicate Accounting(s: State) {
    s.queued + Sum(NotYetAdded, s.pushers) == Bytes(s.ch) + NotYetSubtracted(s.loop)
  }

  ghost predicate SmallPushers(s: State, most: nat) {
    forall pc <- s.pushers :: pc != Resting && pc != SignalWake ==> pc.d.Size() <= most
  }

  function Ceiling(c: Config, n: nat, most: nat): int {
    (if c.maxBytes > most then c.maxBytes else most) + (n - 1) * most
  }

  ghost predicate Budgeted(c: Config, s: State, most: nat) {
    s.queued + Sum(Admitted, s.pushers) <= Ceiling(c, |s.pushers|, most)
  }

  ghost predicate ByteInv(c: Config, s: State, most: nat) {
    && Accounting(s)
    && SmallPushers(s, most)
    && Budgeted(c, s, most)
  }

  // The hypothesis that names the largest payload of a run.
  predicate Fits(run: seq<Action>, most: nat) {
    forall a <- run :: a.Begin? ==> a.what.Size() <= most
  }

  // The pusher an action moves, if any.
  predicate MovesPusher(a: Action) {
    a.Begin? || a.Push? || a.Refuse?
  }

  lemma OnlyOneMoves(c: Config, s: State, a: Action)
    requires Enabled(c, s, a)
    ensures MovesPusher(a) ==> a.p < |s.pushers| && |Do(c, s, a).pushers| == |s.pushers|
    ensures Do(c, s, a).pushers == if MovesPusher(a) then s.pushers[a.p := Do(c, s, a).pushers[a.p]] else s.pushers
  {
  }

  lemma SumMoves(c: Config, s: State, a: Action, weight: PusherState -> nat)
    requires Enabled(c, s, a)
    ensures MovesPusher(a) ==> a.p < |s.pushers| && |Do(c, s, a).pushers| == |s.pushers|
    ensures Sum(weight, Do(c, s, a).pushers) ==
            if MovesPusher(a) then Sum(weight, s.pushers) + weight(Do(c, s, a).pushers[a.p]) - weight(s.pushers[a.p])
            else Sum(weight, s.pushers)
  {
    OnlyOneMoves(c, s, a);
    if MovesPusher(a) {
      SumUpdate(weight, s.pushers, a.p, Do(c, s, a).pushers[a.p]);
    }
  }

  lemma PushAccounting(c: Config, s: State, p: nat)
    requires CanPush(c, s, p)
    ensures var t := PushStep(c, s, p);
            |t.pushers| == |s.pushers| &&
            t.queued + NotYetAdded(t.pushers[p]) - Bytes(t.ch) == s.queued + NotYetAdded(s.pushers[p]) - Bytes(s.ch)
  {
    if s.pushers[p].BlockingSend? || s.pushers[p].TrySend? {
      BytesAppend(s.ch, Entry(p, s.pushers[p].d));
    }
  }

  lemma LoopAccounting(c: Config, s: State)
    requires CanLoop(s)
    ensures var t := LoopStep(c, s);
            t.queued - Bytes(t.ch) - NotYetSubtracted(t.loop) == s.queued - Bytes(s.ch) - NotYetSubtracted(s.loop)
  {
  }

  lemma AccountingStep(c: Config, s: State, a: Action)
    requires Enabled(c, s, a) && Accounting(s)
    ensures Accounting(Do(c, s, a))
  {
    SumMoves(c, s, a, NotYetAdded);
    if a.Push? {
      PushAccounting(c, s, a.p);
      assert Do(c, s, a).loop == s.loop;
    } else if a.Loop? {
      LoopAccounting(c, s);
    } else {
      assert Do(c, s, a).queued == s.queued;
    }
  }

  // Leaving out a pusher that is not admitted, the others hold at most (n - 1) payloads.
  lemma OthersAdmitted(s: State, p: nat, most: nat)
    requires p < |s.pushers| && SmallPushers(s, most) && Admitted(s.pushers[p]) == 0
    ensures Sum(Admitted, s.pushers) <= (|s.pushers| - 1) * most
  {
    var ps := s.pushers;
    SplitSum(Admitted, ps, p);
    var rest := ps[..p] + ps[p + 1..];
    SumBounded(Admitted, rest, most);
  }

  lemma {:induction false} SplitSum(weight: PusherState -> nat, ps: seq<PusherState>, p: nat)
    requires p < |ps|
    ensures Sum(weight, ps) == weight(ps[p]) + Sum(weight, ps[..p] + ps[p + 1..])
  {
    var rest := ps[..p] + ps[p + 1..];
    if p == 0 {
      assert rest == ps[1..];
    } else {
      SplitSum(weight, ps[1..], p - 1);
      assert rest[1..] == ps[1..][..p - 1] + ps[1..][p..];
    }
  }

  // A pusher is only admitted by a load that leaves room for its payload, or that finds nothing queued.
  lemma PushBudget(c: Config, s: State, p: nat, most: nat)
    requires CanPush(c, s, p) && SmallPushers(s, most)
    ensures var t := PushStep(c, s, p);
            |t.pushers| == |s.pushers| &&
            (t.queued + Admitted(t.pushers[p]) <= s.queued + Admitted(s.pushers[p])
             || (t.queued + Admitted(t.pushers[p]) <= Ceiling(c, 1, most) && Admitted(s.pushers[p]) == 0))
  {
    assert s.pushers[p] in s.pushers;
  }

  lemma BudgetStep(c: Config, s: State, a: Action, most: nat)
    requires Enabled(c, s, a) && ByteInv(c, s, most)
    ensures Budgeted(c, Do(c, s, a), most)
  {
    SumMoves(c, s, a, Admitted);
    if a.Push? {
      PushBudget(c, s, a.p, most);
      if Admitted(s.pushers[a.p]) == 0 {
        OthersAdmitted(s, a.p, most);
      }
    }
  }

  lemma SmallStep(c: Config, s: State, a: Action, most: nat)
    requires Enabled(c, s, a) && SmallPushers(s, most)
    requires a.Begin? ==> a.what.Size() <= most
    ensures SmallPushers(Do(c, s, a), most)
  {
    OnlyOneMoves(c, s, a);
    if MovesPusher(a) {
      var pc := Do(c, s, a).pushers[a.p];
      assert s.pushers[a.p] in s.pushers;
      assert pc != Resting && pc != SignalWake ==> pc.d.Size() <= most;
    }
  }

  lemma ByteInvStep(c: Config, s: State, a: Action, most: nat)
    requires Enabled(c, s, a) && ByteInv(c, s, most)
    requires a.Begin? ==> a.what.Size() <= most
    ensures ByteInv(c, Do(c, s, a), most)
  {
    AccountingStep(c, s, a);
    BudgetStep(c, s, a, most);
    SmallStep(c, s, a, most);
  }

  lemma {:induction false} ByteInvRun(c: Config, s: State, run: seq<Action>, most: nat)
    requires Runs(c, s, run) && Fits(run, most) && ByteInv(c, s, most)
    ensures ByteInv(c, After(c, s, run), most)
    decreases |run|
  {
    if run != [] {
      assert run[0] in run;
      assert forall a <- run[1..] :: a in run;
      ByteInvStep(c, s, run[0], most);
      ByteInvRun(c, Do(c, s, run[0]), run[1..], most);
    }
  }

  lemma {:induction false} RestingSum(weight: PusherState -> nat, n: nat)
    requires weight(Resting) == 0
    ensures Sum(weight, seq(n, i => Resting)) == 0
  {
    if n > 0 {
      assert seq(n, i => Resting)[1..] == seq(n - 1, i => Resting);
      RestingSum(weight, n - 1);
    }
  }

  /** With n concurrent pushers and payloads of at most `most` bytes, no interleaving ever puts more
      than max(maxBytes, most) + (n - 1) * most bytes on the channel. */
  lemma ChannelBytesBounded(c: Config, n: nat, run: seq<Action>, most: nat)
    requires n > 0 && Runs(c, Init(n), run) && Fits(run, most)
    ensures Accounting(After(c, Init(n), run))
    ensures Bytes(After(c, Init(n), run).ch) <= Ceiling(c, n, most)
  {
    RestingSum(NotYetAdded, n);
    RestingSum(Admitted, n);
    ByteInvRun(c, Init(n), run, most);
    KeepsPushers(c, Init(n), run);
    AddedAreAdmitted(After(c, Init(n), run).pushers);
  }

  lemma {:induction false} AddedAreAdmitted(ps: seq<PusherState>)
    ensures Sum(NotYetAdded, ps) <= Sum(Admitted, ps)
  {
    if ps != [] {
      AddedAreAdmitted(ps[1..]);
    }
  }

  lemma {:induction false} KeepsPushers(c: Config, s: State, run: seq<Action>)
    requires Runs(c, s, run)
    ensures |After(c, s, run).pushers| == |s.pushers| && |After(c, s, run).pushes| == |s.pushes|
    decreases |run|
  {
    if run != [] {
      KeepsPushers(c, Do(c, s, run[0]), run[1..]);
    }
  }

  // What some run with payloads of at most `most` bytes can lead to.
  ghost predicate Reachable(c: Config, n: nat, most: nat, s: State) {
    exists run :: Runs(c, Init(n), run) && Fits(run, most) && After(c, Init(n), run) == s
  }

  lemma {:induction false} RunsOn(c: Config, s: State, run: seq<Action>, a: Action)
    requires Runs(c, s, run) && Enabled(c, After(c, s, run), a)
    ensures Runs(c, s, run + [a]) && After(c, s, run + [a]) == Do(c, After(c, s, run), a)
    decreases |run|
  {
    if run == [] {
      assert [a][1..] == [];
      assert run + [a] == [a] && Runs(c, Do(c, s, a), []);
    } else {
      assert (run + [a])[1..] == run[1..] + [a] && (run + [a])[0] == run[0];
      RunsOn(c, Do(c, s, run[0]), run[1..], a);
    }
  }

  lemma ReachesInit(c: Config, n: nat, most: nat)
    ensures Reachable(c, n, most, Init(n))
  {
    assert Runs(c, Init(n), []) && Fits([], most) && After(c, Init(n), []) == Init(n);
  }

  lemma ReachesOn(c: Config, n: nat, most: nat, s: State, a: Action)
    requires Reachable(c, n, most, s) && Enabled(c, s, a)
    requires a.Begin? ==> a.what.Size() <= most
    ensures Reachable(c, n, most, Do(c, s, a))
  {
    var run :| Runs(c, Init(n), run) && Fits(run, most) && After(c, Init(n), run) == s;
    RunsOn(c, Init(n), run, a);
    assert Fits(run + [a], most);
  }
}
