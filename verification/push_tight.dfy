/** The most bytes one agent stream can pin, exactly, and when the budget caps it. */
module PushTight {
  import opened Directives
  import opened PushProtocol
  import opened PushBytes

  function Blob(n: nat): seq<bv8> {
    seq(n, i => 0)
  }

  function Piece(size: nat): Directive {
    Directive(Urgent, 0, Blob(size))
  }

  // Passes every budget test made on a queue of Slack bytes: alone it may be oversized, if a chunk.
  function Cargo(c: Config, most: nat): Directive {
    Directive(if most <= c.maxBytes then Urgent else DesiredStateChunk, 0, Blob(most))
  }

  function Slack(c: Config, most: nat): nat {
    if most <= c.maxBytes then c.maxBytes - most else 0
  }

  // How many payloads of at most `most` bytes it takes to queue q bytes.
  function Pieces(q: nat, most: nat): nat
    requires most > 0
  {
    if q == 0 then 0 else if q <= most then 1 else 1 + Pieces(q - most, most)
  }

  // An untouched loop, the counter at q, and nothing else known of the pushers.
  predicate Calm(s: State, n: nat, q: nat) {
    |s.pushers| == n && |s.pushes| == n && s.queued == q && s.loop.Idle? && !s.done
  }

  predicate AllRest(s: State, from: nat) {
    forall p :: from <= p < |s.pushers| ==> s.pushers[p].Resting?
  }

  // These pushers have passed their budget test and not yet sent.
  predicate AllAdmitted(c: Config, s: State, most: nat, from: nat, to: nat) {
    forall p :: from <= p < to <= |s.pushers| ==>
      s.pushers[p] == if most <= c.maxBytes then TrySend(Cargo(c, most)) else BlockingSend(Cargo(c, most))
  }

  predicate AllSent(c: Config, s: State, most: nat, to: nat) {
    forall p :: 0 <= p < to <= |s.pushers| ==> s.pushers[p] == AddBytes(Cargo(c, most))
  }

  // The bytes of k equal payloads can be queued as k pieces.
  lemma {:induction false} PiecesOfMultiple(k: nat, most: nat)
    requires most > 0
    ensures Pieces(k * most, most) == k
    decreases k
  {
    if k > 1 {
      assert k * most - most == (k - 1) * most;
      PiecesOfMultiple(k - 1, most);
    }
  }

  lemma AdmitPiece(c: Config, n: nat, most: nat, q: nat, size: nat, s0: State) returns (s: State)
    requires n > 0 && size <= most && q + size <= c.maxBytes
    requires Reachable(c, n, most, s0) && Calm(s0, n, q) && AllRest(s0, 0)
    ensures Reachable(c, n, most, s) && Calm(s, n, q) && AllRest(s, 1) && s.ch == s0.ch
            && s.pushers[0] == TrySend(Piece(size))
  {
    ReachesOn(c, n, most, s0, Begin(0, Piece(size)));
    var s1 := Do(c, s0, Begin(0, Piece(size)));
    ReachesOn(c, n, most, s1, Push(0));
    s := Do(c, s1, Push(0));
  }

  lemma SendPiece(c: Config, n: nat, most: nat, q: nat, size: nat, s0: State) returns (s: State)
    requires n > 0 && Reachable(c, n, most, s0) && Calm(s0, n, q) && AllRest(s0, 1)
             && s0.pushers[0] == TrySend(Piece(size))
    requires |s0.ch| < c.depth
    ensures Reachable(c, n, most, s) && Calm(s, n, q + size) && AllRest(s, 0) && |s.ch| == |s0.ch| + 1
  {
    ReachesOn(c, n, most, s0, Push(0));
    var s1 := Do(c, s0, Push(0));
    ReachesOn(c, n, most, s1, Push(0));
    s := Do(c, s1, Push(0));
  }

  // One pusher fills the queue piece by piece.
  lemma {:induction false} Fill(c: Config, n: nat, most: nat, q: nat) returns (s: State)
    requires n > 0 && most > 0 && q <= c.maxBytes && c.depth >= Pieces(q, most)
    ensures Reachable(c, n, most, s) && Calm(s, n, q) && AllRest(s, 0) && |s.ch| <= Pieces(q, most)
    decreases q
  {
    if q == 0 {
      ReachesInit(c, n, most);
      s := Init(n);
    } else {
      var size := if q <= most then q else most;
      s := Fill(c, n, most, q - size);
      s := AdmitPiece(c, n, most, q - size, size, s);
      s := SendPiece(c, n, most, q - size, size, s);
    }
  }

  // Then k pushers test the budget before any of them has sent.
  lemma {:induction false} Admit(c: Config, n: nat, most: nat, q: nat, k: nat) returns (s: State)
    requires n > 0 && most > 0 && q <= Slack(c, most) && c.depth >= Pieces(q, most) && k <= n
    ensures Reachable(c, n, most, s) && Calm(s, n, q) && |s.ch| <= Pieces(q, most)
    ensures AllAdmitted(c, s, most, 0, k) && AllRest(s, k)
    decreases k
  {
    if k == 0 {
      s := Fill(c, n, most, q);
    } else {
      var s0 := Admit(c, n, most, q, k - 1);
      var d := Cargo(c, most);
      ReachesOn(c, n, most, s0, Begin(k - 1, d));
      var s1 := Do(c, s0, Begin(k - 1, d));
      ReachesOn(c, n, most, s1, Push(k - 1));
      s := Do(c, s1, Push(k - 1));
    }
  }

  // Then j of them send.
  lemma {:induction false} Send(c: Config, n: nat, most: nat, q: nat, k: nat, j: nat) returns (s: State)
    requires n > 0 && most > 0 && q <= Slack(c, most) && c.depth >= Pieces(q, most) + k && j <= k <= n
    ensures Reachable(c, n, most, s) && Calm(s, n, q) && |s.ch| <= Pieces(q, most) + j
    ensures AllSent(c, s, most, j) && AllAdmitted(c, s, most, j, k) && AllRest(s, k)
    decreases j
  {
    if j == 0 {
      s := Admit(c, n, most, q, k);
    } else {
      var s0 := Send(c, n, most, q, k, j - 1);
      ReachesOn(c, n, most, s0, Push(j - 1));
      s := Do(c, s0, Push(j - 1));
    }
  }

  lemma {:induction false} SumOfEqual(weight: PusherState -> nat, ps: seq<PusherState>, w: nat, k: nat)
    requires k <= |ps|
    requires forall p :: 0 <= p < k ==> weight(ps[p]) == w
    requires forall p :: k <= p < |ps| ==> weight(ps[p]) == 0
    ensures Sum(weight, ps) == k * w
  {
    if ps != [] {
      assert forall p :: 0 <= p < |ps| - 1 ==> ps[1..][p] == ps[p + 1];
      SumOfEqual(weight, ps[1..], w, if k == 0 then 0 else k - 1);
      assert k > 0 ==> k * w == (k - 1) * w + w;
    }
  }

  lemma Loaded(c: Config, n: nat, most: nat, q: nat, k: nat) returns (s: State)
    requires n > 0 && most > 0 && q <= Slack(c, most) && c.depth >= Pieces(q, most) + k && k <= n
    ensures Reachable(c, n, most, s) && Bytes(s.ch) == q + k * most
  {
    s := Send(c, n, most, q, k, k);
    var run :| Runs(c, Init(n), run) && Fits(run, most) && After(c, Init(n), run) == s;
    ChannelBytesBounded(c, n, run, most);
    SumOfEqual(NotYetAdded, s.pushers, most, k);
  }

  // ---- the upper half: depth payloads of at most `most` bytes ----

  ghost predicate Shallow(c: Config, s: State, most: nat) {
    |s.ch| <= c.depth && forall e <- s.ch :: e.d.Size() <= most
  }

  lemma ShallowStep(c: Config, s: State, a: Action, most: nat)
    requires Enabled(c, s, a) && Shallow(c, s, most) && SmallPushers(s, most)
    ensures Shallow(c, Do(c, s, a), most)
  {
    if a.Push? {
      assert s.pushers[a.p] in s.pushers;
      var t, d := Do(c, s, a), s.pushers[a.p];
      assert t.ch == s.ch || t.ch == s.ch + [Entry(a.p, d.d)];
    } else {
      assert forall e <- Do(c, s, a).ch :: e in s.ch;
    }
  }

  lemma {:induction false} ShallowRun(c: Config, s: State, run: seq<Action>, most: nat)
    requires Runs(c, s, run) && Fits(run, most) && Shallow(c, s, most) && SmallPushers(s, most)
    ensures Shallow(c, After(c, s, run), most)
    decreases |run|
  {
    if run != [] {
      assert run[0] in run && forall a <- run[1..] :: a in run;
      ShallowStep(c, s, run[0], most);
      SmallStep(c, s, run[0], most);
      ShallowRun(c, Do(c, s, run[0]), run[1..], most);
    }
  }

  lemma {:induction false} BytesOfSmall(ch: seq<Entry>, most: nat)
    requires forall e <- ch :: e.d.Size() <= most
    ensures Bytes(ch) <= |ch| * most
  {
    if ch != [] {
      BytesOfSmall(ch[1..], most);
      assert |ch| * most == (|ch| - 1) * most + most;
    }
  }

  // ---- the exact maximum ----

  // What concurrent pushers can queue, or what the channel's depth can hold, if that is less.
  function Maximum(c: Config, n: nat, most: nat): int {
    var byDepth := c.depth * most;
    if byDepth < Ceiling(c, n, most) then byDepth else Ceiling(c, n, most)
  }

  lemma NeverMore(c: Config, n: nat, most: nat, s: State)
    requires n > 0 && Reachable(c, n, most, s)
    ensures Bytes(s.ch) <= Maximum(c, n, most)
  {
    var run :| Runs(c, Init(n), run) && Fits(run, most) && After(c, Init(n), run) == s;
    ChannelBytesBounded(c, n, run, most);
    ShallowRun(c, Init(n), run, most);
    SlotsBound(c, s, most);
  }

  lemma SlotsBound(c: Config, s: State, most: nat)
    requires Shallow(c, s, most)
    ensures Bytes(s.ch) <= c.depth * most
  {
    BytesOfSmall(s.ch, most);
    FewerTakeLess(|s.ch|, c.depth, most);
  }

  lemma CeilingIsSlackAndAll(c: Config, n: nat, most: nat)
    requires n > 0
    ensures Ceiling(c, n, most) == Slack(c, most) + n * most
  {
    assert n * most == (n - 1) * most + most;
  }

  // With room for everything the slack is filled and all pushers send on top of it.
  lemma DeepChannel(c: Config, n: nat, most: nat) returns (s: State)
    requires n > 0 && most > 0 && c.depth >= Pieces(Slack(c, most), most) + n
    ensures Reachable(c, n, most, s) && Bytes(s.ch) == Maximum(c, n, most)
  {
    var q := Slack(c, most);
    s := Loaded(c, n, most, q, n);
    CeilingIsSlackAndAll(c, n, most);
    NeverMore(c, n, most, s);
  }

  // Otherwise all slots can be filled with payloads of full size: f before the budget tests, the rest after.
  lemma SlotsToFill(c: Config, n: nat, most: nat) returns (f: nat)
    requires most > 0 && c.depth < Pieces(Slack(c, most), most) + n
    ensures f <= c.depth && c.depth - f <= n
    ensures 0 <= f * most <= Slack(c, most)
  {
    var full := FullPieces(Slack(c, most), most);
    f := if c.depth < full then c.depth else full;
    FewerTakeLess(f, full, most);
  }

  lemma FewerTakeLess(a: nat, b: nat, most: nat)
    requires a <= b
    ensures 0 <= a * most <= b * most
  {
    assert b * most == a * most + (b - a) * most;
  }

  lemma ShallowChannel(c: Config, n: nat, most: nat) returns (s: State)
    requires n > 0 && most > 0 && c.depth < Pieces(Slack(c, most), most) + n
    ensures Reachable(c, n, most, s) && Bytes(s.ch) == Maximum(c, n, most)
  {
    var f := SlotsToFill(c, n, most);
    PiecesOfMultiple(f, most);
    s := Loaded(c, n, most, f * most, c.depth - f);
    SlotsAdd(c.depth, f, most);
    NeverMore(c, n, most, s);
  }

  lemma SlotsAdd(depth: nat, f: nat, most: nat)
    requires f <= depth
    ensures f * most + (depth - f) * most == depth * most
  {
  }

  // How many full payloads fit, which is at most one fewer than it takes to fill up.
  lemma {:induction false} FullPieces(q: nat, most: nat) returns (f: nat)
    requires most > 0
    ensures f * most <= q && f <= Pieces(q, most) <= f + 1
    ensures Pieces(q, most) == f + 1 ==> q > f * most
    decreases q
  {
    if q < most {
      f := 0;
    } else {
      f := FullPieces(q - most, most);
      f := f + 1;
      assert f * most == (f - 1) * most + most;
    }
  }

  /** For every depth, budget, number of pushers and largest payload: no reachable state holds more than
      Maximum bytes, and some interleaving holds exactly that. */
  lemma MaximumIsExact(c: Config, n: nat, most: nat)
    requires n > 0
    ensures forall s :: Reachable(c, n, most, s) ==> Bytes(s.ch) <= Maximum(c, n, most)
    ensures exists s :: Reachable(c, n, most, s) && Bytes(s.ch) == Maximum(c, n, most)
  {
    forall s | Reachable(c, n, most, s)
      ensures Bytes(s.ch) <= Maximum(c, n, most)
    {
      NeverMore(c, n, most, s);
    }
    if most == 0 {
      ReachesInit(c, n, most);
      assert Bytes(Init(n).ch) == Maximum(c, n, most);
    } else if c.depth >= Pieces(Slack(c, most), most) + n {
      var s := DeepChannel(c, n, most);
    } else {
      var s := ShallowChannel(c, n, most);
    }
  }

  ghost predicate AlwaysCapped(c: Config, n: nat, most: nat) {
    forall s :: Reachable(c, n, most, s) ==> Bytes(s.ch) <= c.maxBytes
  }

  lemma CeilingFits(c: Config, n: nat, most: nat)
    requires n > 0
    ensures Ceiling(c, n, most) <= c.maxBytes <==> most == 0 || (n == 1 && most <= c.maxBytes)
  {
    if n == 1 {
      assert (n - 1) * most == 0;
    } else {
      assert (n - 1) * most == (n - 2) * most + most;
      FewerTakeLess(0, n - 2, most);
    }
  }

  lemma MaximumFits(c: Config, n: nat, most: nat)
    requires n > 0
    ensures Maximum(c, n, most) <= c.maxBytes <==> (n == 1 && most <= c.maxBytes) || c.depth * most <= c.maxBytes
  {
    CeilingFits(c, n, most);
    assert most == 0 ==> c.depth * most == 0;
  }

  /** The queue stays within maxBytes in every reachable state if and only if there is a single pusher and
      no payload exceeds the budget by itself, or the channel is too short to hold more anyway. */
  lemma CappedExactly(c: Config, n: nat, most: nat)
    requires n > 0
    ensures AlwaysCapped(c, n, most) <==> (n == 1 && most <= c.maxBytes) || c.depth * most <= c.maxBytes
  {
    MaximumIsExact(c, n, most);
    MaximumFits(c, n, most);
    assert AlwaysCapped(c, n, most) <==> Maximum(c, n, most) <= c.maxBytes;
  }
}
