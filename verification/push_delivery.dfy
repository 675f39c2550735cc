/** What an agent stream delivers: nothing is invented, reordered on the queue, or lost silently. */
module PushDelivery {
  import opened Directives
  import opened Mailbox
  import opened PushProtocol
  import opened PushBytes

  // ---- the queue is first-in first-out, and every push has exactly one outcome ----

  function QueuedOf(log: seq<Outcome>): seq<Entry> {
    if log == [] then []
    else QueuedOf(log[..|log| - 1]) + if log[|log| - 1].Queued? then [log[|log| - 1].e] else []
  }

  // The outcomes of one pusher's calls, in order.
  function OutcomesOf(log: seq<Outcome>, p: nat): seq<Directive> {
    if log == [] then []
    else
      var last := log[|log| - 1];
      OutcomesOf(log[..|log| - 1], p) + if !last.Resynced? && last.e.src == p then [last.e.d] else []
  }

  lemma LogAppend(log: seq<Outcome>, o: Outcome, p: nat)
    ensures QueuedOf(log + [o]) == QueuedOf(log) + if o.Queued? then [o.e] else []
    ensures OutcomesOf(log + [o], p) == OutcomesOf(log, p) + if !o.Resynced? && o.e.src == p then [o.e.d] else []
  {
    assert (log + [o])[..|log|] == log;
  }

  // The call a pusher is in, until its outcome is decided.
  function Undecided(pc: PusherState): seq<Directive> {
    match pc
    case Resting => []
    case AddBytes(_) => []
    case SignalWake => []
    case FirstLoad(d) => [d]
    case SecondLoad(d) => [d]
    case AwaitDrain(d) => [d]
    case BlockingSend(d) => [d]
    case Load(d) => [d]
    case TrySend(d) => [d]
    case Overflow(d) => [d]
  }

  ghost predicate Fifo(s: State) {
    QueuedOf(s.log) == s.viaQueue + QueuedInHand(s.loop) + s.ch
  }

  ghost predicate Accounted(s: State) {
    && |s.pushers| == |s.pushes|
    && forall p :: 0 <= p < |s.pushers| ==> OutcomesOf(s.log, p) + Undecided(s.pushers[p]) == s.pushes[p]
  }

  // A pusher's step decides its call by queueing it, decides it by diverting it, or decides nothing.
  predicate Sends(c: Config, s: State, p: nat) {
    p < |s.pushers| && (s.pushers[p].BlockingSend? || (s.pushers[p].TrySend? && |s.ch| < c.depth))
  }

  lemma UndecidedStep(c: Config, s: State, p: nat)
    requires CanPush(c, s, p) && !Sends(c, s, p) && !s.pushers[p].Overflow?
    ensures var t := PushStep(c, s, p);
            && t.log == s.log && t.ch == s.ch && t.loop == s.loop && t.viaQueue == s.viaQueue && t.pushes == s.pushes
            && |t.pushers| == |s.pushers| && Undecided(t.pushers[p]) == Undecided(s.pushers[p])
  {
  }

  lemma SendStep(c: Config, s: State, p: nat)
    requires CanPush(c, s, p) && Sends(c, s, p)
    ensures PushStep(c, s, p) == Enqueue(s, p, s.pushers[p].d)
  {
  }

  // What one action appends to the log, if anything.
  function NewOutcome(c: Config, s: State, a: Action): seq<Outcome>
    requires Enabled(c, s, a)
  {
    match a
    case Push(p) =>
      if Sends(c, s, p) then [Queued(Entry(p, s.pushers[p].d))]
      else if s.pushers[p].Overflow? then
        if s.pushers[p].d.kind == DesiredDelta then [Dropped(Entry(p, s.pushers[p].d))]
        else [Stashed(Entry(p, s.pushers[p].d))]
      else []
    case Refuse(p) => [Refused(Entry(p, s.pushers[p].d))]
    case Loop => if s.loop.Firing? && c.hook then [Resynced] else []
    case _ => []
  }

  lemma LogGrows(c: Config, s: State, a: Action)
    requires Enabled(c, s, a)
    ensures Do(c, s, a).log == s.log + NewOutcome(c, s, a)
  {
    if a.Push? {
      if Sends(c, s, a.p) {
        SendStep(c, s, a.p);
      } else if !s.pushers[a.p].Overflow? {
        UndecidedStep(c, s, a.p);
      }
    }
  }

  lemma FifoEnqueue(s: State, p: nat, d: Directive)
    requires p < |s.pushers| && Fifo(s)
    ensures Fifo(Enqueue(s, p, d))
  {
    LogAppend(s.log, Queued(Entry(p, d)), p);
    assert Enqueue(s, p, d).ch == s.ch + [Entry(p, d)];
  }

  lemma FifoDivert(s: State, p: nat, d: Directive)
    requires p < |s.pushers| && Fifo(s)
    ensures Fifo(Divert(s, p, d))
  {
    LogAppend(s.log, Dropped(Entry(p, d)), p);
    LogAppend(s.log, Stashed(Entry(p, d)), p);
  }

  lemma FifoPush(c: Config, s: State, p: nat)
    requires CanPush(c, s, p) && Fifo(s)
    ensures Fifo(PushStep(c, s, p))
  {
    if Sends(c, s, p) {
      SendStep(c, s, p);
      FifoEnqueue(s, p, s.pushers[p].d);
    } else if s.pushers[p].Overflow? {
      FifoDivert(s, p, s.pushers[p].d);
    } else {
      UndecidedStep(c, s, p);
    }
  }

  lemma FifoLoop(c: Config, s: State)
    requires CanLoop(s) && Fifo(s)
    ensures Fifo(LoopStep(c, s))
  {
    if s.loop.Firing? {
      LogAppend(s.log, Resynced, 0);
    } else {
      assert LoopStep(c, s).log == s.log && LoopStep(c, s).ch == s.ch;
    }
  }

  lemma FifoReceive(c: Config, s: State)
    requires Enabled(c, s, Receive) && Fifo(s)
    ensures Fifo(Do(c, s, Receive))
  {
    assert s.ch == [s.ch[0]] + s.ch[1..];
  }

  lemma FifoOthers(c: Config, s: State, a: Action)
    requires Enabled(c, s, a) && !a.Push? && !a.Refuse? && !a.Receive? && !a.Loop?
    ensures var t := Do(c, s, a);
            t.ch == s.ch && t.log == s.log && t.viaQueue == s.viaQueue && QueuedInHand(t.loop) == QueuedInHand(s.loop)
  {
  }

  lemma FifoStep(c: Config, s: State, a: Action)
    requires Enabled(c, s, a) && Fifo(s)
    ensures Fifo(Do(c, s, a))
  {
    match a {
      case Push(p) => FifoPush(c, s, p);
      case Refuse(p) => LogAppend(s.log, Refused(Entry(p, s.pushers[p].d)), p);
      case Receive => FifoReceive(c, s);
      case Loop => FifoLoop(c, s);
      case _ => FifoOthers(c, s, a);
    }
  }

  // An outcome belongs to the pusher that moved and is that of the call it was in.
  lemma PushOutcome(c: Config, s: State, p: nat)
    requires CanPush(c, s, p)
    ensures var t, news := PushStep(c, s, p), NewOutcome(c, s, Push(p));
            && |t.pushers| == |s.pushers| && t.pushes == s.pushes
            && if news == [] then Undecided(t.pushers[p]) == Undecided(s.pushers[p])
               else |news| == 1 && !news[0].Resynced? && news[0].e.src == p
                    && Undecided(s.pushers[p]) == [news[0].e.d] && Undecided(t.pushers[p]) == []
  {
    if Sends(c, s, p) {
      SendStep(c, s, p);
    } else if !s.pushers[p].Overflow? {
      UndecidedStep(c, s, p);
    }
  }

  lemma AccountedPush(c: Config, s: State, a: Action, p: nat)
    requires Enabled(c, s, a) && a.Push? && Accounted(s) && p < |s.pushers|
    ensures var t := Do(c, s, a);
            && |t.pushers| == |s.pushers| == |t.pushes|
            && OutcomesOf(t.log, p) + Undecided(t.pushers[p]) == t.pushes[p]
  {
    LogGrows(c, s, a);
    OnlyOneMoves(c, s, a);
    PushOutcome(c, s, a.p);
    var news := NewOutcome(c, s, a);
    if news != [] {
      LogAppend(s.log, news[0], p);
    }
  }

  lemma AccountedBegin(c: Config, s: State, p: nat, d: Directive)
    requires Enabled(c, s, Begin(p, d)) && Accounted(s)
    ensures Accounted(Do(c, s, Begin(p, d)))
  {
    var t := Do(c, s, Begin(p, d));
    assert t.log == s.log && t.pushes == s.pushes[p := s.pushes[p] + [d]];
    assert Undecided(s.pushers[p]) == [] && Undecided(t.pushers[p]) == [d];
  }

  lemma AccountedRefuse(c: Config, s: State, p: nat)
    requires CanRefuse(s, p) && Accounted(s)
    ensures Accounted(Do(c, s, Refuse(p)))
  {
    var t, o := Do(c, s, Refuse(p)), Refused(Entry(p, s.pushers[p].d));
    assert t.log == s.log + [o] && t.pushes == s.pushes && t.pushers == s.pushers[p := Resting];
    forall q | 0 <= q < |s.pushers|
      ensures OutcomesOf(t.log, q) + Undecided(t.pushers[q]) == t.pushes[q]
    {
      LogAppend(s.log, o, q);
    }
  }

  lemma AccountedLoop(c: Config, s: State)
    requires CanLoop(s) && Accounted(s)
    ensures Accounted(LoopStep(c, s))
  {
    var t := LoopStep(c, s);
    assert t.pushers == s.pushers && t.pushes == s.pushes;
    forall p | 0 <= p < |s.pushers|
      ensures OutcomesOf(t.log, p) == OutcomesOf(s.log, p)
    {
      LogAppend(s.log, Resynced, p);
    }
  }

  lemma AccountedStep(c: Config, s: State, a: Action)
    requires Enabled(c, s, a) && Accounted(s)
    ensures Accounted(Do(c, s, a))
  {
    match a {
      case Push(q) =>
        PushOutcome(c, s, q);
        forall p | 0 <= p < |s.pushers|
          ensures OutcomesOf(Do(c, s, a).log, p) + Undecided(Do(c, s, a).pushers[p]) == Do(c, s, a).pushes[p]
        {
          AccountedPush(c, s, a, p);
        }
      case Begin(p, d) => AccountedBegin(c, s, p, d);
      case Refuse(p) => AccountedRefuse(c, s, p);
      case Loop => AccountedLoop(c, s);
      case _ =>
    }
  }

  // ---- the mailbox ----

  ghost predicate StashedAt(log: seq<Outcome>, j: nat, d: Directive) {
    j < |log| && log[j].Stashed? && log[j].e.d == d
  }

  ghost predicate WasStashed(log: seq<Outcome>, d: Directive) {
    exists j: nat :: StashedAt(log, j, d)
  }

  // Directives that reached, or are on their way to, the agent outside the queue.
  ghost predicate Kept(s: State, d: Directive) {
    || d in s.viaPending
    || d in PendingInHand(s.loop)
    || (d.kind in s.box.pending && s.box.pending[d.kind] == d)
  }

  ghost predicate OnlyStashed(s: State) {
    && (forall k <- s.box.pending :: s.box.pending[k].kind == k)
    && (forall d :: Kept(s, d) ==> Coalescible(d.kind) && WasStashed(s.log, d))
  }

  // The stash at j stands in for the stash at i: newer, or equally new and not earlier.
  ghost predicate StandsIn(log: seq<Outcome>, i: nat, j: nat) {
    && i < |log| && log[i].Stashed?
    && j < |log| && log[j].Stashed?
    && log[i].e.d.kind == log[j].e.d.kind
    && (log[j].e.d.generation > log[i].e.d.generation || (log[j].e.d.generation == log[i].e.d.generation && i <= j))
  }

  ghost predicate Covered(s: State, i: nat) {
    exists j: nat :: StandsIn(s.log, i, j) && Kept(s, s.log[j].e.d)
  }

  ghost predicate AllCovered(s: State) {
    forall i: nat :: i < |s.log| && s.log[i].Stashed? ==> Covered(s, i)
  }

  predicate StashesNow(c: Config, s: State, a: Action) {
    a.Push? && a.p < |s.pushers| && s.pushers[a.p].Overflow? && s.pushers[a.p].d.kind != DesiredDelta
  }

  predicate MarksNow(c: Config, s: State, a: Action) {
    a.Push? && a.p < |s.pushers| && s.pushers[a.p].Overflow? && s.pushers[a.p].d.kind == DesiredDelta
  }

  // The rest only moves pending directives towards the agent.
  lemma KeptByOthers(c: Config, s: State, a: Action, d: Directive)
    requires Enabled(c, s, a) && !a.Push? && forall k <- s.box.pending :: s.box.pending[k].kind == k
    ensures Kept(Do(c, s, a), d) <==> Kept(s, d)
  {
  }

  lemma KeptByPush(c: Config, s: State, a: Action, d: Directive)
    requires Enabled(c, s, a) && a.Push? && !StashesNow(c, s, a) && !MarksNow(c, s, a)
    ensures Kept(Do(c, s, a), d) <==> Kept(s, d)
  {
    if Sends(c, s, a.p) {
      SendStep(c, s, a.p);
    }
  }

  // Only a stash can push a kept directive out.
  lemma KeptMoves(c: Config, s: State, a: Action, d: Directive)
    requires Enabled(c, s, a) && OnlyStashed(s)
    ensures !StashesNow(c, s, a) ==> (Kept(Do(c, s, a), d) <==> Kept(s, d))
    ensures StashesNow(c, s, a) && Kept(Do(c, s, a), d) ==> Kept(s, d) || d == s.pushers[a.p].d
  {
    if StashesNow(c, s, a) {
      StashEffect(c, s, a);
    } else if MarksNow(c, s, a) {
      var t := Do(c, s, a);
      assert t.box == Mark(s.box) && t.loop == s.loop && t.viaPending == s.viaPending;
      assert Kept(s, d) ==> d.kind != DesiredDelta;
    } else if a.Push? {
      KeptByPush(c, s, a, d);
    } else {
      KeptByOthers(c, s, a, d);
    }
  }

  lemma StashedGrows(log: seq<Outcome>, more: seq<Outcome>, d: Directive)
    requires WasStashed(log, d)
    ensures WasStashed(log + more, d)
  {
    var j: nat :| StashedAt(log, j, d);
    assert StashedAt(log + more, j, d);
  }

  lemma StashEffect(c: Config, s: State, a: Action)
    requires Enabled(c, s, a) && StashesNow(c, s, a)
    ensures var d, t := s.pushers[a.p].d, Do(c, s, a);
            && t.box == Stash(s.box, d) && t.log == s.log + [Stashed(Entry(a.p, d))]
            && t.loop == s.loop && t.viaPending == s.viaPending
  {
  }

  lemma OnlyStashedStep(c: Config, s: State, a: Action)
    requires Enabled(c, s, a) && OnlyStashed(s) && PushersFit(s)
    ensures OnlyStashed(Do(c, s, a))
  {
    var t := Do(c, s, a);
    LogGrows(c, s, a);
    forall d | Kept(t, d)
      ensures Coalescible(d.kind) && WasStashed(t.log, d)
    {
      KeptMoves(c, s, a, d);
      if Kept(s, d) {
        StashedGrows(s.log, NewOutcome(c, s, a), d);
      } else {
        StashEffect(c, s, a);
        assert s.pushers[a.p] in s.pushers && PathFits(s.pushers[a.p]);
        assert StashedAt(t.log, |s.log|, d);
      }
    }
    KindsStay(c, s, a);
  }

  lemma KindsStay(c: Config, s: State, a: Action)
    requires Enabled(c, s, a) && forall k <- s.box.pending :: s.box.pending[k].kind == k
    ensures forall k <- Do(c, s, a).box.pending :: Do(c, s, a).box.pending[k].kind == k
  {
    if a.Push? {
      if Sends(c, s, a.p) {
        SendStep(c, s, a.p);
      } else if s.pushers[a.p].Overflow? {
        assert Do(c, s, a).box == Mark(s.box) || Do(c, s, a).box == Stash(s.box, s.pushers[a.p].d);
      } else {
        assert Do(c, s, a).box.pending == s.box.pending;
      }
    } else if a.Loop? {
      assert Do(c, s, a).box.pending == s.box.pending;
    }
  }

  // Chunks take the blocking path and never reach the overflow path; the others do neither.
  ghost predicate PushersFit(s: State) {
    forall pc <- s.pushers :: PathFits(pc)
  }

  predicate PathFits(pc: PusherState) {
    match pc
    case FirstLoad(d) => d.kind == DesiredStateChunk
    case SecondLoad(d) => d.kind == DesiredStateChunk
    case AwaitDrain(d) => d.kind == DesiredStateChunk
    case BlockingSend(d) => d.kind == DesiredStateChunk
    case Load(d) => d.kind != DesiredStateChunk
    case TrySend(d) => d.kind != DesiredStateChunk
    case Overflow(d) => d.kind != DesiredStateChunk
    case _ => true
  }

  lemma PushersFitStep(c: Config, s: State, a: Action)
    requires Enabled(c, s, a) && PushersFit(s)
    ensures PushersFit(Do(c, s, a))
  {
    OnlyOneMoves(c, s, a);
    if MovesPusher(a) {
      assert s.pushers[a.p] in s.pushers;
      assert PathFits(Do(c, s, a).pushers[a.p]);
    }
  }

  lemma CoveredQuietly(c: Config, s: State, a: Action, i: nat)
    requires Enabled(c, s, a) && OnlyStashed(s) && !StashesNow(c, s, a) && Covered(s, i)
    ensures Covered(Do(c, s, a), i)
  {
    var j: nat :| StandsIn(s.log, i, j) && Kept(s, s.log[j].e.d);
    LogGrows(c, s, a);
    KeptMoves(c, s, a, s.log[j].e.d);
    assert StandsIn(Do(c, s, a).log, i, j);
  }

  // A stash either replaces the pending directive of its kind, which it then stands in for, or is
  // itself already superseded by it.
  lemma CoveredByStash(c: Config, s: State, a: Action, i: nat)
    requires Enabled(c, s, a) && OnlyStashed(s) && StashesNow(c, s, a) && Covered(s, i)
    ensures Covered(Do(c, s, a), i)
  {
    var t, d := Do(c, s, a), s.pushers[a.p].d;
    StashEffect(c, s, a);
    var j: nat :| StandsIn(s.log, i, j) && Kept(s, s.log[j].e.d);
    if Kept(t, s.log[j].e.d) {
      assert StandsIn(t.log, i, j);
    } else {
      assert StandsIn(t.log, i, |s.log|) && Kept(t, t.log[|s.log|].e.d);
    }
  }

  lemma NewStashCovered(c: Config, s: State, a: Action)
    requires Enabled(c, s, a) && OnlyStashed(s) && StashesNow(c, s, a)
    ensures Covered(Do(c, s, a), |s.log|)
  {
    var t, d := Do(c, s, a), s.pushers[a.p].d;
    StashEffect(c, s, a);
    if Kept(t, d) {
      assert StandsIn(t.log, |s.log|, |s.log|);
    } else {
      var newer := s.box.pending[d.kind];
      assert Kept(s, newer) && Kept(t, newer);
      var j: nat :| StashedAt(s.log, j, newer);
      assert StandsIn(t.log, |s.log|, j) && t.log[j].e.d == newer;
    }
  }

  lemma AllCoveredStep(c: Config, s: State, a: Action)
    requires Enabled(c, s, a) && OnlyStashed(s) && AllCovered(s)
    ensures AllCovered(Do(c, s, a))
  {
    var t := Do(c, s, a);
    LogGrows(c, s, a);
    forall i: nat | i < |t.log| && t.log[i].Stashed?
      ensures Covered(t, i)
    {
      if i < |s.log| {
        assert Covered(s, i);
        if StashesNow(c, s, a) {
          CoveredByStash(c, s, a, i);
        } else {
          CoveredQuietly(c, s, a, i);
        }
      } else {
        NewIsStash(c, s, a);
        NewStashCovered(c, s, a);
      }
    }
  }

  lemma NewIsStash(c: Config, s: State, a: Action)
    requires Enabled(c, s, a)
    ensures |Do(c, s, a).log| > |s.log| && Do(c, s, a).log[|s.log|].Stashed? ==> StashesNow(c, s, a)
  {
  }

  // ---- dropped deltas are owed a full resync ----

  ghost predicate OwedSince(log: seq<Outcome>, i: nat) {
    i < |log| && log[i].Dropped? && forall j :: i < j < |log| ==> !log[j].Resynced?
  }

  function Drops(log: seq<Outcome>): nat {
    if log == [] then 0 else Drops(log[..|log| - 1]) + if log[|log| - 1].Dropped? then 1 else 0
  }

  function Resyncs(log: seq<Outcome>): nat {
    if log == [] then 0 else Resyncs(log[..|log| - 1]) + if log[|log| - 1].Resynced? then 1 else 0
  }

  lemma CountAppend(log: seq<Outcome>, o: Outcome)
    ensures Drops(log + [o]) == Drops(log) + if o.Dropped? then 1 else 0
    ensures Resyncs(log + [o]) == Resyncs(log) + if o.Resynced? then 1 else 0
  {
    assert (log + [o])[..|log|] == log;
  }

  function Debt(s: State): nat {
    (if s.box.needResync then 1 else 0) + if s.loop.Firing? then 1 else 0
  }

  /** A drop not followed by a resync is remembered, or its resync is about to fire; and no resync
      fires without a drop of its own. */
  ghost predicate ResyncInv(c: Config, s: State) {
    && (c.hook && !s.loop.Leaving? && !s.loop.Ended? ==>
          forall i: nat :: OwedSince(s.log, i) ==> s.box.needResync || s.loop.Firing?)
    && Resyncs(s.log) + Debt(s) <= Drops(s.log)
  }

  lemma OwedShrinks(log: seq<Outcome>, o: Outcome, i: nat)
    requires OwedSince(log + [o], i)
    ensures !o.Resynced? && (i == |log| ==> o.Dropped?) && (i < |log| ==> OwedSince(log, i))
  {
    assert (log + [o])[|log|] == o;
    assert forall j :: 0 <= j < |log| ==> (log + [o])[j] == log[j];
  }

  lemma OwedStep(c: Config, s: State, a: Action, i: nat)
    requires Enabled(c, s, a) && ResyncInv(c, s) && c.hook && OwedSince(Do(c, s, a).log, i)
    requires !Do(c, s, a).loop.Leaving? && !Do(c, s, a).loop.Ended?
    ensures Do(c, s, a).box.needResync || Do(c, s, a).loop.Firing?
  {
    LogGrows(c, s, a);
    var t := Do(c, s, a);
    if t.log != s.log {
      OwedShrinks(s.log, t.log[|s.log|], i);
    }
    if i < |s.log| {
      assert OwedSince(s.log, i);
    }
  }

  // A drop adds at most one to what is owed; firing pays one off.
  lemma DebtStep(c: Config, s: State, a: Action)
    requires Enabled(c, s, a)
    ensures var t, news := Do(c, s, a), NewOutcome(c, s, a);
            && (news == [] ==> Debt(t) <= Debt(s))
            && (news != [] && news[0].Dropped? ==> Debt(t) <= Debt(s) + 1)
            && (news != [] && news[0].Resynced? ==> Debt(t) + 1 == Debt(s))
            && (news != [] && !news[0].Dropped? && !news[0].Resynced? ==> Debt(t) == Debt(s))
  {
    if a.Push? {
      if Sends(c, s, a.p) {
        SendStep(c, s, a.p);
      } else if !s.pushers[a.p].Overflow? {
        UndecidedStep(c, s, a.p);
      }
    }
  }

  lemma CountStep(c: Config, s: State, a: Action)
    requires Enabled(c, s, a) && Resyncs(s.log) + Debt(s) <= Drops(s.log)
    ensures Resyncs(Do(c, s, a).log) + Debt(Do(c, s, a)) <= Drops(Do(c, s, a).log)
  {
    LogGrows(c, s, a);
    DebtStep(c, s, a);
    var news := NewOutcome(c, s, a);
    if news == [] {
      assert Do(c, s, a).log == s.log;
    } else {
      assert news == [news[0]];
      CountAppend(s.log, news[0]);
    }
  }

  lemma ResyncStep(c: Config, s: State, a: Action)
    requires Enabled(c, s, a) && ResyncInv(c, s)
    ensures ResyncInv(c, Do(c, s, a))
  {
    var t := Do(c, s, a);
    forall i: nat | OwedSince(t.log, i) && c.hook && !t.loop.Leaving? && !t.loop.Ended?
      ensures t.box.needResync || t.loop.Firing?
    {
      OwedStep(c, s, a, i);
    }
    CountStep(c, s, a);
  }

  // ---- only deltas are dropped, and only a closed stream refuses ----

  ghost predicate JustifiedAt(s: State, o: Outcome) {
    && (!o.Resynced? ==> o.e.src < |s.pushers|)
    && (o.Dropped? ==> o.e.d.kind == DesiredDelta)
    && (o.Refused? ==> s.done)
  }

  ghost predicate Justified(s: State) {
    forall o <- s.log :: JustifiedAt(s, o)
  }

  lemma JustifiedStep(c: Config, s: State, a: Action)
    requires Enabled(c, s, a) && Justified(s)
    ensures Justified(Do(c, s, a))
  {
    var t := Do(c, s, a);
    LogGrows(c, s, a);
    OnlyOneMoves(c, s, a);
    DoneStays(c, s, a);
    forall o | o in t.log
      ensures JustifiedAt(t, o)
    {
      if o in s.log {
        assert JustifiedAt(s, o);
      } else {
        assert o in NewOutcome(c, s, a);
      }
    }
  }

  lemma DoneStays(c: Config, s: State, a: Action)
    requires Enabled(c, s, a)
    ensures s.done ==> Do(c, s, a).done
  {
    if a.Push? && Sends(c, s, a.p) {
      SendStep(c, s, a.p);
    }
  }

  // ---- over whole runs ----

  ghost predicate DeliveryInv(c: Config, s: State) {
    Fifo(s) && Accounted(s) && PushersFit(s) && OnlyStashed(s) && AllCovered(s) && ResyncInv(c, s) && Justified(s)
  }

  lemma DeliveryStep(c: Config, s: State, a: Action)
    requires Enabled(c, s, a) && DeliveryInv(c, s)
    ensures DeliveryInv(c, Do(c, s, a))
  {
    FifoStep(c, s, a);
    AccountedStep(c, s, a);
    PushersFitStep(c, s, a);
    OnlyStashedStep(c, s, a);
    AllCoveredStep(c, s, a);
    ResyncStep(c, s, a);
    JustifiedStep(c, s, a);
  }

  lemma {:induction false} DeliveryRun(c: Config, s: State, run: seq<Action>)
    requires Runs(c, s, run) && DeliveryInv(c, s)
    ensures DeliveryInv(c, After(c, s, run))
    decreases |run|
  {
    if run != [] {
      DeliveryStep(c, s, run[0]);
      DeliveryRun(c, Do(c, s, run[0]), run[1..]);
    }
  }

  /** In every reachable state, of any number of pushers: what went through the queue is exactly what
      was queued, in order; each call has one outcome, in call order; the mailbox holds neither deltas
      nor chunks; every stash is represented by one at least as new; every dropped delta is owed; nothing
      but deltas is dropped, and nothing refused before the stream is closed. */
  lemma DeliveryHolds(c: Config, n: nat, run: seq<Action>)
    requires Runs(c, Init(n), run)
    ensures DeliveryInv(c, After(c, Init(n), run))
  {
    DeliveryRun(c, Init(n), run);
  }
}
