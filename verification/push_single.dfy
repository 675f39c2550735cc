/** Calls that do not overlap: the byte budget is exceeded by nothing but a chunk that is alone on the stream. */
module PushSingle {
  import opened Directives
  import opened PushProtocol
  import opened PushBytes

  function Payloads(ch: seq<Entry>): seq<Directive> {
    seq(|ch|, i requires 0 <= i < |ch| => ch[i].d)
  }

  function Total(line: seq<Directive>): nat {
    if line == [] then 0 else line[0].Size() + Total(line[1..])
  }

  lemma {:induction false} TotalAppend(line: seq<Directive>, d: Directive)
    ensures Total(line + [d]) == Total(line) + d.Size()
  {
    if line != [] {
      assert (line + [d])[1..] == line[1..] + [d];
      TotalAppend(line[1..], d);
    }
  }

  lemma {:induction false} TotalIsBytes(ch: seq<Entry>)
    ensures Total(Payloads(ch)) == Bytes(ch)
  {
    if ch != [] {
      assert Payloads(ch)[1..] == Payloads(ch[1..]);
      TotalIsBytes(ch[1..]);
    }
  }

  lemma {:induction false} TotalZero(line: seq<Directive>)
    requires Total(line) == 0
    ensures forall d <- line :: d.Size() == 0
  {
    if line != [] {
      TotalZero(line[1..]);
    }
  }

  function Head(l: LoopState): seq<Directive> {
    if l.Received? then [l.e.d] else []
  }

  function Tail(pc: PusherState): seq<Directive> {
    if pc.BlockingSend? || pc.TrySend? then [pc.d] else []
  }

  // Everything that is, or is about to be, on the channel and still counts: received but not yet
  // subtracted, queued, and admitted but not yet sent.
  function Line(s: State, p: nat): seq<Directive>
    requires p < |s.pushers|
  {
    Head(s.loop) + Payloads(s.ch) + Tail(s.pushers[p])
  }

  // All payload bytes belong to one chunk.
  ghost predicate LoneChunk(line: seq<Directive>) {
    exists i :: 0 <= i < |line| && line[i].kind == DesiredStateChunk && OthersEmpty(line, i)
  }

  ghost predicate OthersEmpty(line: seq<Directive>, i: nat) {
    forall j :: 0 <= j < |line| && j != i ==> line[j].Size() == 0
  }

  ghost predicate LineOk(c: Config, line: seq<Directive>) {
    Total(line) <= c.maxBytes || LoneChunk(line)
  }

  // Chunks take the blocking path and only they do.
  predicate KindFits(pc: PusherState) {
    match pc
    case FirstLoad(d) => d.kind == DesiredStateChunk
    case SecondLoad(d) => d.kind == DesiredStateChunk
    case AwaitDrain(d) => d.kind == DesiredStateChunk
    case BlockingSend(d) => d.kind == DesiredStateChunk
    case Load(d) => d.kind != DesiredStateChunk
    case TrySend(d) => d.kind != DesiredStateChunk
    case Overflow(d) => d.kind != DesiredStateChunk
    case _ => true
  }

  // All pushers but p are at rest.
  ghost predicate Solo(s: State, p: nat) {
    p < |s.pushers| && forall q :: 0 <= q < |s.pushers| && q != p ==> s.pushers[q].Resting?
  }

  ghost predicate Single(c: Config, s: State, p: nat) {
    Solo(s, p) && Accounting(s) && KindFits(s.pushers[p]) && LineOk(c, Line(s, p))
  }

  lemma SuffixOk(c: Config, line: seq<Directive>)
    requires line != [] && LineOk(c, line)
    ensures LineOk(c, line[1..])
  {
    if Total(line) > c.maxBytes {
      var i :| 0 <= i < |line| && line[i].kind == DesiredStateChunk && OthersEmpty(line, i);
      if i == 0 {
        AllEmpty(line[1..]);
      } else {
        assert line[1..][i - 1] == line[i] && OthersEmpty(line[1..], i - 1);
      }
    }
  }

  lemma {:induction false} AllEmpty(line: seq<Directive>)
    requires forall d <- line :: d.Size() == 0
    ensures Total(line) == 0
  {
    if line != [] {
      AllEmpty(line[1..]);
    }
  }

  lemma PrefixOk(c: Config, line: seq<Directive>, d: Directive)
    requires LineOk(c, line + [d])
    ensures LineOk(c, line)
  {
    var full := line + [d];
    TotalAppend(line, d);
    if Total(full) > c.maxBytes {
      var i :| 0 <= i < |full| && full[i].kind == DesiredStateChunk && OthersEmpty(full, i);
      if i < |line| {
        assert line[i] == full[i];
        assert forall j :: 0 <= j < |line| ==> line[j] == full[j];
        assert OthersEmpty(line, i);
      } else {
        assert forall j :: 0 <= j < |line| ==> line[j] == full[j];
        AllEmpty(line);
      }
    }
  }

  // Admission: a load of the exact counter either leaves room, or found nothing queued.
  lemma AppendOk(c: Config, line: seq<Directive>, d: Directive)
    requires Total(line) + d.Size() <= c.maxBytes || (Total(line) == 0 && d.kind == DesiredStateChunk)
    ensures LineOk(c, line + [d])
  {
    TotalAppend(line, d);
    if Total(line) == 0 && d.kind == DesiredStateChunk {
      TotalZero(line);
      var full := line + [d];
      assert forall j :: 0 <= j < |line| ==> full[j] == line[j];
      assert full[|line|] == d && OthersEmpty(full, |line|);
    }
  }

  // Sending moves a payload from the pusher to the channel: the line does not change.
  lemma SendKeepsLine(s: State, p: nat)
    requires p < |s.pushers| && Tail(s.pushers[p]) != []
    ensures Line(Enqueue(s, p, s.pushers[p].d), p) == Line(s, p)
  {
    var d := s.pushers[p].d;
    var t := Enqueue(s, p, d);
    assert Payloads(t.ch) == Payloads(s.ch) + [d];
  }

  lemma ReceiveKeepsLine(c: Config, s: State, p: nat)
    requires p < |s.pushers| && Enabled(c, s, Receive)
    ensures Line(Do(c, s, Receive), p) == Line(s, p)
  {
    var t := Do(c, s, Receive);
    assert Payloads(s.ch) == [s.ch[0].d] + Payloads(t.ch);
  }

  lemma SoloSum(s: State, p: nat)
    requires Solo(s, p)
    ensures Sum(NotYetAdded, s.pushers) == NotYetAdded(s.pushers[p])
  {
    var rest := s.pushers[..p] + s.pushers[p + 1..];
    SplitSum(NotYetAdded, s.pushers, p);
    assert rest == seq(|rest|, i => Resting);
    RestingSum(NotYetAdded, |rest|);
  }

  lemma CounterIsExact(s: State, p: nat)
    requires Solo(s, p) && Accounting(s) && Tail(s.pushers[p]) == [] && !s.pushers[p].AddBytes?
    ensures s.queued == Total(Line(s, p))
  {
    TotalIsBytes(s.ch);
    SoloSum(s, p);
    if s.loop.Received? {
      assert Line(s, p)[1..] == Payloads(s.ch);
    } else {
      assert Line(s, p) == Payloads(s.ch);
    }
  }

  lemma Admission(c: Config, s: State, p: nat)
    requires CanPush(c, s, p) && Single(c, s, p) && Tail(s.pushers[p]) == [] && Tail(PushStep(c, s, p).pushers[p]) != []
    ensures LineOk(c, Line(s, p) + [s.pushers[p].d])
  {
    CounterIsExact(s, p);
    AppendOk(c, Line(s, p), s.pushers[p].d);
  }

  // Steps that leave channel and loop alone only change the tail of the line.
  lemma OnlyTailMoves(s: State, t: State, p: nat)
    requires p < |s.pushers| == |t.pushers| && s.ch == t.ch && s.loop == t.loop
    ensures Tail(s.pushers[p]) == Tail(t.pushers[p]) ==> Line(t, p) == Line(s, p)
    ensures Tail(s.pushers[p]) == [] ==> Line(t, p) == Line(s, p) + Tail(t.pushers[p])
    ensures Tail(t.pushers[p]) == [] ==> Line(s, p) == Line(t, p) + Tail(s.pushers[p])
  {
  }

  lemma StaysPut(c: Config, s: State, p: nat)
    requires CanPush(c, s, p) && p < |s.pushers|
    requires !s.pushers[p].BlockingSend? && !(s.pushers[p].TrySend? && |s.ch| < c.depth)
    ensures var t := PushStep(c, s, p);
            && |t.pushers| == |s.pushers| && t.ch == s.ch && t.loop == s.loop
            && (s.pushers[p].TrySend? ==> Tail(t.pushers[p]) == [])
  {
  }

  lemma SinglePush(c: Config, s: State, p: nat)
    requires CanPush(c, s, p) && Single(c, s, p)
    ensures LineOk(c, Line(PushStep(c, s, p), p))
  {
    var t, pc := PushStep(c, s, p), s.pushers[p];
    if pc.BlockingSend? || (pc.TrySend? && |s.ch| < c.depth) {
      assert t == Enqueue(s, p, pc.d);
      SendKeepsLine(s, p);
    } else {
      StaysPut(c, s, p);
      OnlyTailMoves(s, t, p);
      if pc.TrySend? {
        PrefixOk(c, Line(t, p), pc.d);
      } else if Tail(t.pushers[p]) != [] {
        Admission(c, s, p);
      }
    }
  }

  lemma KindFitsStep(c: Config, s: State, a: Action)
    requires Enabled(c, s, a) && MovesPusher(a) && a.p < |s.pushers| && KindFits(s.pushers[a.p])
    ensures |Do(c, s, a).pushers| == |s.pushers| && KindFits(Do(c, s, a).pushers[a.p])
  {
  }

  lemma LineKeptByLoop(c: Config, s: State, a: Action, p: nat)
    requires Enabled(c, s, a) && p < |s.pushers| && !MovesPusher(a) && !a.Receive?
    ensures |Do(c, s, a).pushers| == |s.pushers|
    ensures Line(Do(c, s, a), p) == if a.Loop? && s.loop.Received? then Line(s, p)[1..] else Line(s, p)
    ensures a.Loop? && s.loop.Received? ==> Line(s, p) != []
  {
    assert Do(c, s, a).pushers == s.pushers && Do(c, s, a).ch == s.ch;
  }

  lemma SingleLine(c: Config, s: State, a: Action, p: nat)
    requires Enabled(c, s, a) && Single(c, s, p) && |Do(c, s, a).pushers| == |s.pushers|
             && (MovesPusher(a) ==> a.p == p)
    ensures LineOk(c, Line(Do(c, s, a), p))
  {
    var t, line := Do(c, s, a), Line(s, p);
    if a.Push? {
      SinglePush(c, s, p);
    } else if a.Receive? {
      ReceiveKeepsLine(c, s, p);
    } else if a.Refuse? {
      OnlyTailMoves(s, t, p);
      if Tail(s.pushers[p]) != [] {
        PrefixOk(c, Line(t, p), s.pushers[p].d);
      }
    } else if a.Begin? {
      OnlyTailMoves(s, t, p);
    } else {
      LineKeptByLoop(c, s, a, p);
      if Line(t, p) != line {
        SuffixOk(c, line);
      }
    }
  }

  // The active pusher's own steps, and those of the loop.
  lemma SingleStepOwn(c: Config, s: State, a: Action, p: nat)
    requires Enabled(c, s, a) && Single(c, s, p) && (MovesPusher(a) ==> a.p == p)
    ensures Single(c, Do(c, s, a), p)
  {
    AccountingStep(c, s, a);
    OnlyOneMoves(c, s, a);
    if MovesPusher(a) {
      KindFitsStep(c, s, a);
    }
    SingleLine(c, s, a, p);
  }

  // Between two calls it does not matter which resting pusher is called the active one.
  lemma Switch(c: Config, s: State, p: nat, q: nat)
    requires Single(c, s, p) && Solo(s, q)
    ensures Single(c, s, q)
  {
  }

  lemma SingleStep(c: Config, s: State, a: Action, p: nat, q: nat)
    requires Enabled(c, s, a) && Single(c, s, p) && Solo(Do(c, s, a), q)
    ensures Single(c, Do(c, s, a), q)
  {
    OnlyOneMoves(c, s, a);
    if MovesPusher(a) && a.p != p {
      assert a.Begin? && !Do(c, s, a).pushers[a.p].Resting? && q == a.p;
      assert s.pushers[p] == Do(c, s, a).pushers[p];
      Switch(c, s, p, a.p);
      SingleStepOwn(c, s, a, a.p);
    } else {
      SingleStepOwn(c, s, a, p);
      Switch(c, Do(c, s, a), p, q);
    }
  }

  // Calls to push do not overlap: at every moment of the run at most one pusher is in one.
  ghost predicate NeverOverlaps(c: Config, s: State, run: seq<Action>)
    requires Runs(c, s, run)
    decreases |run|
  {
    (exists p :: Solo(s, p)) && (run != [] ==> NeverOverlaps(c, Do(c, s, run[0]), run[1..]))
  }

  lemma {:induction false} SingleRun(c: Config, s: State, run: seq<Action>, p: nat) returns (q: nat)
    requires Runs(c, s, run) && Single(c, s, p) && NeverOverlaps(c, s, run)
    ensures Single(c, After(c, s, run), q)
    decreases |run|
  {
    if run == [] {
      q := p;
    } else {
      var t := Do(c, s, run[0]);
      assert NeverOverlaps(c, t, run[1..]);
      var r :| Solo(t, r);
      SingleStep(c, s, run[0], p, r);
      q := SingleRun(c, t, run[1..], r);
    }
  }

  lemma LineOkChannel(c: Config, s: State, p: nat)
    requires Single(c, s, p)
    ensures Bytes(s.ch) <= c.maxBytes || LoneChunk(Payloads(s.ch))
  {
    var line := Line(s, p);
    var front := Head(s.loop) + Payloads(s.ch);
    if Tail(s.pushers[p]) != [] {
      assert line == front + [s.pushers[p].d];
      PrefixOk(c, front, s.pushers[p].d);
    } else {
      assert line == front;
    }
    if s.loop.Received? {
      SuffixOk(c, front);
      assert front[1..] == Payloads(s.ch);
    } else {
      assert front == Payloads(s.ch);
    }
    TotalIsBytes(s.ch);
  }

  /** While calls do not overlap, whoever makes them, the channel holds at most maxBytes, or its only
      payload bytes are one chunk's. */
  lemma SequentialBudget(c: Config, n: nat, run: seq<Action>)
    requires Runs(c, Init(n), run) && NeverOverlaps(c, Init(n), run)
    ensures var ch := After(c, Init(n), run).ch;
            Bytes(ch) <= c.maxBytes || LoneChunk(Payloads(ch))
  {
    RestingSum(NotYetAdded, n);
    var p :| Solo(Init(n), p);
    assert Single(c, Init(n), p);
    var q := SingleRun(c, Init(n), run, p);
    LineOkChannel(c, After(c, Init(n), run), q);
  }

  lemma {:induction false} OneNeverOverlaps(c: Config, s: State, run: seq<Action>)
    requires Runs(c, s, run) && |s.pushers| == 1
    ensures NeverOverlaps(c, s, run)
    decreases |run|
  {
    assert Solo(s, 0);
    if run != [] {
      OnlyOneMoves(c, s, run[0]);
      OneNeverOverlaps(c, Do(c, s, run[0]), run[1..]);
    }
  }

  /** In particular with one pusher: over the budget, its only payload bytes are one chunk's. */
  lemma SinglePusherBudget(c: Config, run: seq<Action>)
    requires Runs(c, Init(1), run)
    ensures var ch := After(c, Init(1), run).ch;
            Bytes(ch) <= c.maxBytes || LoneChunk(Payloads(ch))
  {
    OneNeverOverlaps(c, Init(1), run);
    SequentialBudget(c, 1, run);
  }
}
