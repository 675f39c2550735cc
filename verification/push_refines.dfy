/** A call to push that nobody interrupts is a run of one pusher's protocol steps. */
module PushRefines {
  import opened Directives
  import opened Mailbox
  import opened PushProtocol
  import opened PushBytes
  import opened PushSingle
  import S = Stream

  // The stream record a protocol state shows, whoever queued its entries.
  function Shown(s: State): S.Record {
    S.Record(Payloads(s.ch), s.queued, s.box, s.drain, s.done)
  }

  predicate By(a: Action, p: nat) {
    MovesPusher(a) && a.p == p
  }

  // Some run of pusher p's steps alone leads from s to t.
  ghost predicate Leads(c: Config, s: State, p: nat, t: State) {
    exists run :: Runs(c, s, run) && (forall a <- run :: By(a, p)) && After(c, s, run) == t
  }

  lemma LeadsBegin(c: Config, s: State, p: nat, d: Directive)
    requires Enabled(c, s, Begin(p, d))
    ensures Leads(c, s, p, Do(c, s, Begin(p, d)))
  {
    var run := [Begin(p, d)];
    assert run[1..] == [];
    assert Runs(c, Do(c, s, run[0]), run[1..]) && After(c, s, run) == Do(c, s, run[0]);
  }

  lemma LeadsOn(c: Config, s: State, p: nat, t: State, a: Action)
    requires Leads(c, s, p, t) && Enabled(c, t, a) && By(a, p)
    ensures Leads(c, s, p, Do(c, t, a))
  {
    var run :| Runs(c, s, run) && (forall x <- run :: By(x, p)) && After(c, s, run) == t;
    RunsOn(c, s, run, a);
    assert forall x <- run + [a] :: By(x, p);
  }

  // In the middle of the call: only p has moved, and the record is x.
  ghost predicate Within(c: Config, s: State, p: nat, d: Directive, t: State, x: S.Record, pc: PusherState) {
    && Leads(c, s, p, t) && Shown(t) == x
    && p < |s.pushers| == |s.pushes| && t.pushers == s.pushers[p := pc] && t.pushes == s.pushes[p := s.pushes[p] + [d]]
    && t.loop == s.loop && t.viaQueue == s.viaQueue && t.viaPending == s.viaPending
  }

  // The call has returned r, or waits where only the send loop or a closed stream can free it.
  ghost predicate Returns(c: Config, s: State, p: nat, d: Directive, r: S.PushResult, y: S.Record) {
    exists t, pc ::
      && Within(c, s, p, d, t, y, pc)
      && if r == S.WouldBlock then pc != Resting && !CanPush(c, t, p) && !CanRefuse(t, p) && t.log == s.log
         else pc == Resting && Decides(s.log, t.log, Entry(p, d), r)
  }

  // The later log has one more outcome, which is that of e and a refusal exactly if r says so.
  predicate Decides(before: seq<Outcome>, after: seq<Outcome>, e: Entry, r: S.PushResult) {
    && |after| == |before| + 1 && after[..|before|] == before
    && !after[|before|].Resynced? && after[|before|].e == e
    && (after[|before|].Refused? <==> r == S.NotSubscribed)
  }

  lemma Began(c: Config, s: State, p: nat, d: Directive) returns (t: State)
    requires p < |s.pushers| == |s.pushes| && s.pushers[p].Resting?
    ensures t.log == s.log
    ensures Within(c, s, p, d, t, Shown(s), if d.kind == DesiredStateChunk then FirstLoad(d) else Load(d))
  {
    LeadsBegin(c, s, p, d);
    t := Do(c, s, Begin(p, d));
  }

  lemma IsRefused(c: Config, s: State, p: nat, d: Directive, t: State, x: S.Record, pc: PusherState)
    requires Within(c, s, p, d, t, x, pc) && t.log == s.log && t.done
    requires pc == AwaitDrain(d) || pc == BlockingSend(d) || pc == TrySend(d)
    ensures Returns(c, s, p, d, S.NotSubscribed, x)
  {
    LeadsOn(c, s, p, t, Refuse(p));
    var u := Do(c, t, Refuse(p));
    assert u.pushers == s.pushers[p := Resting];
    assert Within(c, s, p, d, u, x, Resting);
  }

  lemma Waits(c: Config, s: State, p: nat, d: Directive, t: State, x: S.Record, pc: PusherState)
    requires Within(c, s, p, d, t, x, pc) && t.log == s.log && !t.done
    requires (pc == AwaitDrain(d) && !t.drain) || (pc == BlockingSend(d) && |t.ch| >= c.depth)
    ensures Returns(c, s, p, d, S.WouldBlock, x)
  {
  }

  lemma Queues(c: Config, s: State, p: nat, d: Directive, t: State, x: S.Record, pc: PusherState)
    requires Within(c, s, p, d, t, x, pc) && t.log == s.log && |t.ch| < c.depth
    requires pc == BlockingSend(d) || pc == TrySend(d)
    ensures Returns(c, s, p, d, S.Accepted, S.Queue(x, d))
  {
    LeadsOn(c, s, p, t, Push(p));
    var u := Do(c, t, Push(p));
    assert u == Enqueue(t, p, d) && u.pushers == s.pushers[p := AddBytes(d)];
    assert Payloads(u.ch) == Payloads(t.ch) + [d];
    LeadsOn(c, s, p, u, Push(p));
    var v := Do(c, u, Push(p));
    assert v.pushers == s.pushers[p := Resting];
    assert Within(c, s, p, d, v, S.Queue(x, d), Resting);
    assert Decides(s.log, v.log, Entry(p, d), S.Accepted);
  }

  lemma Diverts(c: Config, s: State, p: nat, d: Directive, t: State, x: S.Record)
    requires Within(c, s, p, d, t, x, Overflow(d)) && t.log == s.log
    ensures Returns(c, s, p, d, S.Accepted,
            x.(box := Signal(if d.kind == DesiredDelta then Mark(x.box) else Stash(x.box, d))))
  {
    LeadsOn(c, s, p, t, Push(p));
    var u := Do(c, t, Push(p));
    assert u == Divert(t, p, d) && u.pushers == s.pushers[p := SignalWake];
    LeadsOn(c, s, p, u, Push(p));
    var v := Do(c, u, Push(p));
    assert v.pushers == s.pushers[p := Resting];
    assert Within(c, s, p, d, v, x.(box := Signal(u.box)), Resting);
    assert Decides(s.log, v.log, Entry(p, d), S.Accepted);
  }

  // One of the steps that decide nothing.
  lemma Tests(c: Config, s: State, p: nat, d: Directive, t: State, x: S.Record, pc: PusherState) returns (u: State)
    requires Within(c, s, p, d, t, x, pc) && t.log == s.log
    requires pc == FirstLoad(d) || pc == SecondLoad(d) || pc == Load(d)
    ensures u.log == s.log
    ensures Within(c, s, p, d, u, x,
              match pc
              case FirstLoad(_) => if x.queued <= 0 then BlockingSend(d) else SecondLoad(d)
              case SecondLoad(_) => if x.queued + d.Size() <= c.maxBytes then BlockingSend(d) else AwaitDrain(d)
              case _ => if x.queued + d.Size() <= c.maxBytes then TrySend(d) else Overflow(d))
  {
    LeadsOn(c, s, p, t, Push(p));
    u := Do(c, t, Push(p));
  }

  lemma ChunkReturns(c: Config, s: State, p: nat, d: Directive, r: S.PushResult, y: S.Record)
    requires p < |s.pushers| == |s.pushes| && s.pushers[p].Resting? && d.kind == DesiredStateChunk
    requires S.ChunkPushed(c.depth, c.maxBytes, Shown(s), d, r, y)
    ensures Returns(c, s, p, d, r, y)
  {
    var x := Shown(s);
    var t := Began(c, s, p, d);
    t := Tests(c, s, p, d, t, x, FirstLoad(d));
    if x.queued > 0 {
      t := Tests(c, s, p, d, t, x, SecondLoad(d));
    }
    if x.queued > 0 && x.queued + d.Size() > c.maxBytes {
      OverBudget(c, s, p, d, t, x, r, y);
    } else if r == S.Accepted {
      Queues(c, s, p, d, t, x, BlockingSend(d));
    } else if r == S.NotSubscribed {
      IsRefused(c, s, p, d, t, x, BlockingSend(d));
    } else {
      Waits(c, s, p, d, t, x, BlockingSend(d));
    }
  }

  lemma OverBudget(c: Config, s: State, p: nat, d: Directive, t0: State, x: S.Record, r: S.PushResult, y: S.Record)
    requires Within(c, s, p, d, t0, x, AwaitDrain(d)) && t0.log == s.log
    requires x.queued > 0 && x.queued + d.Size() > c.maxBytes && d.kind == DesiredStateChunk
    requires S.ChunkPushed(c.depth, c.maxBytes, x, d, r, y)
    ensures Returns(c, s, p, d, r, y)
  {
    var t := t0;
    if y != x {
      LeadsOn(c, s, p, t, Push(p));
      t := Do(c, t, Push(p));
      assert t.pushers == s.pushers[p := FirstLoad(d)];
      assert Within(c, s, p, d, t, y, FirstLoad(d));
      t := Tests(c, s, p, d, t, y, FirstLoad(d));
      t := Tests(c, s, p, d, t, y, SecondLoad(d));
    }
    if r == S.NotSubscribed {
      IsRefused(c, s, p, d, t, y, AwaitDrain(d));
    } else {
      Waits(c, s, p, d, t, y, AwaitDrain(d));
    }
  }

  lemma OtherReturns(c: Config, s: State, p: nat, d: Directive, r: S.PushResult, y: S.Record)
    requires p < |s.pushers| == |s.pushes| && s.pushers[p].Resting? && d.kind != DesiredStateChunk
    requires S.OtherPushed(c.depth, c.maxBytes, Shown(s), d, r, y)
    ensures Returns(c, s, p, d, r, y)
  {
    var x := Shown(s);
    var t := Began(c, s, p, d);
    t := Tests(c, s, p, d, t, x, Load(d));
    if x.queued + d.Size() > c.maxBytes {
      Diverts(c, s, p, d, t, x);
    } else if r == S.NotSubscribed {
      IsRefused(c, s, p, d, t, x, TrySend(d));
    } else if |x.ch| < c.depth {
      Queues(c, s, p, d, t, x, TrySend(d));
    } else {
      LeadsOn(c, s, p, t, Push(p));
      t := Do(c, t, Push(p));
      assert t.pushers == s.pushers[p := Overflow(d)];
      assert Within(c, s, p, d, t, x, Overflow(d));
      Diverts(c, s, p, d, t, x);
    }
  }

  /** Whatever Sub.Push may do to a record, some resting pusher's steps do to every protocol state that
      shows it: with the same result, the matching outcome logged, and nothing else touched. */
  lemma PushIsARun(c: Config, s: State, p: nat, d: Directive, r: S.PushResult, y: S.Record)
    requires p < |s.pushers| == |s.pushes| && s.pushers[p].Resting?
    requires S.Pushed(c.depth, c.maxBytes, Shown(s), d, r, y)
    ensures Returns(c, s, p, d, r, y)
  {
    if d.kind == DesiredStateChunk {
      ChunkReturns(c, s, p, d, r, y);
    } else {
      OtherReturns(c, s, p, d, r, y);
    }
  }

  // ---- the send loop's calls ----

  // Only the loop has moved, and it holds what is given.
  ghost predicate LoopMoves(s: State, t: State, x: S.Record, loop: LoopState) {
    && Shown(t) == x && t.loop == loop
    && t.pushers == s.pushers && t.pushes == s.pushes && t.viaQueue == s.viaQueue && t.viaPending == s.viaPending
  }

  /** Sub.ReceiveNext is the loop's receive, subtraction and drain signal. */
  lemma ReceiveIsARun(c: Config, s: State)
    requires s.loop.Idle? && s.ch != []
    ensures var run, x := [Receive, Loop, Loop], Shown(s);
            && Runs(c, s, run)
            && LoopMoves(s, After(c, s, run),
                 x.(ch := x.ch[1..], queued := x.queued - x.ch[0].Size(), drain := true), SendingQueued(s.ch[0]))
  {
    var t := Do(c, s, Receive);
    var u := Do(c, t, Loop);
    var run: seq<Action> := [Receive, Loop, Loop];
    assert run[1..] == [Loop, Loop] && run[1..][1..] == [Loop] && run[1..][1..][1..] == [];
    assert Runs(c, u, [Loop]) && Runs(c, t, [Loop, Loop]);
    assert After(c, u, [Loop]) == Do(c, u, Loop);
    assert Payloads(s.ch)[1..] == Payloads(t.ch);
  }

  /** Sub.TakeNeedResync is the loop's step after waking: it fires exactly if the flag was set. */
  lemma TakeNeedResyncIsAStep(c: Config, s: State)
    requires s.loop.Woken?
    ensures Enabled(c, s, Loop)
    ensures LoopMoves(s, Do(c, s, Loop), Shown(s).(box := ClearResync(s.box)),
                      if s.box.needResync then Firing else Taking)
  {
  }

  /** Whatever Sub.TakePending may take, the loop may take, and nothing else. */
  lemma TakePendingIsAStep(c: Config, s: State, k: Kind)
    requires s.loop.Taking?
    ensures Newest(s.box, k) <==> Enabled(c, s, TakePending(k))
    ensures Newest(s.box, k) ==>
              LoopMoves(s, Do(c, s, TakePending(k)), Shown(s).(box := Take(s.box, k)), SendingPending(s.box.pending[k]))
    ensures s.box.pending == map[] <==> Enabled(c, s, TakeNothing)
    ensures s.box.pending == map[] ==> LoopMoves(s, Do(c, s, TakeNothing), Shown(s), Idle)
  {
  }
}
