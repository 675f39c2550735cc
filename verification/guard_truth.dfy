/** When the guard's verdicts are the plain truth: a host is mirrored while it is announced. */
module GuardTruth {
  import opened Edges
  import opened Rib
  import opened GuardSpec
  import opened GuardTrace
  import opened GuardAlarms

  predicate Concerns(e: Event, p: Prefix) {
    IsPath(e) && e.prefix == p
  }

  // The plain reading: since s, the last path event of p is an announcement of it as a host.
  ghost predicate There(canary: LargeCommunity, t: seq<Event>, s: int, p: Prefix) {
    IsHost(p) && exists j :: s < j < |t| && HostAt(canary, t, j, p) && LastConcerning(t, j, p)
  }

  ghost predicate LastConcerning(t: seq<Event>, j: int, p: Prefix) {
    forall k :: 0 <= k && j < k < |t| ==> !Concerns(t[k], p)
  }

  ghost predicate Present(canary: LargeCommunity, t: seq<Event>, p: Prefix) {
    exists s :: SessionFrom(t, s) && There(canary, t, s, p)
  }

  // The view can be trusted, and the plain reading is that the member is not there.
  ghost predicate AbsentAt(canary: LargeCommunity, t: seq<Event>, s: int, p: Prefix) {
    Trusted(canary, t, s, FamilyOf(p)) && !There(canary, t, s, p)
  }

  ghost predicate Absent(canary: LargeCommunity, t: seq<Event>, p: Prefix) {
    exists s :: AbsentAt(canary, t, s, p)
  }

  lemma ThereStep(canary: LargeCommunity, t: seq<Event>, e: Event, s: int, p: Prefix)
    requires -1 <= s < |t|
    ensures There(canary, t + [e], s, p) <==>
            || (IsHost(p) && HostAt(canary, t + [e], |t|, p))
            || (There(canary, t, s, p) && !Concerns(e, p))
  {
    var u := t + [e];
    assert u[|t|] == e && forall i :: 0 <= i < |t| ==> u[i] == t[i];
    assert forall i :: i < |t| ==> (HostAt(canary, u, i, p) <==> HostAt(canary, t, i, p));
    if HostAt(canary, u, |t|, p) {
      assert LastConcerning(u, |t|, p);
    }
    if There(canary, t, s, p) && !Concerns(e, p) {
      var j :| s < j < |t| && HostAt(canary, t, j, p) && LastConcerning(t, j, p);
      assert LastConcerning(u, j, p);
    }
    if There(canary, u, s, p) && !HostAt(canary, u, |t|, p) {
      var j :| s < j < |u| && HostAt(canary, u, j, p) && LastConcerning(u, j, p);
      assert !Concerns(u[|t|], p);
      assert forall k :: 0 <= k && j < k < |t| ==> !Concerns(u[k], p);
      assert LastConcerning(t, j, p);
    }
  }

  // ---- who announces what ----

  // Which edges may name which prefixes, with the canary's community or as plain hosts.
  type Names = iset<(EdgeId, Prefix)>

  ghost predicate Speaks(canary: LargeCommunity, e: Event, tagged: Names, plain: Names) {
    IsPath(e) ==>
      if IsCanary(canary, e) then (e.edge, e.prefix) in tagged
      else e.PathUpdate? && IsHost(e.prefix) ==> (e.edge, e.prefix) in plain
  }

  ghost predicate AllSpeak(canary: LargeCommunity, h: seq<Event>, tagged: Names, plain: Names) {
    forall e <- h :: Speaks(canary, e, tagged, plain)
  }

  // No edge names a host prefix both ways.
  ghost predicate KeptApart(tagged: Names, plain: Names) {
    forall x :: x in tagged && x in plain ==> !IsHost(x.1)
  }

  // What a view keeps when the two are kept apart.
  ghost predicate Truthful(
    canary: LargeCommunity, t: seq<Event>, s: int, v: View, edge: EdgeId, tagged: Names, plain: Names) {
    && (forall p :: p in v.hosts <==> There(canary, t, s, p))
    && (forall p <- v.hosts :: (edge, p) in plain)
    && (v.canaryPrefix != NoPrefix ==> (edge, v.canaryPrefix) in tagged)
  }

  lemma TruthfulStep(
    canary: LargeCommunity, t: seq<Event>, e: Event, s: int, v: View, edge: EdgeId, tagged: Names, plain: Names)
    requires -1 <= s < |t| && !IsSession(e) && e.edge == edge
    requires KeptApart(tagged, plain) && Speaks(canary, e, tagged, plain)
    requires Truthful(canary, t, s, v, edge, tagged, plain) && forall p <- v.hosts :: IsHost(p)
    ensures Truthful(canary, t + [e], s, Fold(canary, v, e), edge, tagged, plain)
    ensures forall p <- Fold(canary, v, e).hosts :: IsHost(p)
  {
    var w := Fold(canary, v, e);
    assert (t + [e])[|t|] == e;
    forall p
      ensures p in w.hosts <==> There(canary, t + [e], s, p)
    {
      ThereStep(canary, t, e, s, p);
      assert p in v.hosts ==> (edge, p) in plain && (edge, p) !in tagged;
    }
  }

  lemma {:induction false} TruthfulHistory(
    canary: LargeCommunity, t: seq<Event>, edge: EdgeId, tagged: Names, plain: Names) returns (s: int)
    requires KeptApart(tagged, plain) && AllSpeak(canary, t, tagged, plain) && forall e <- t :: e.edge == edge
    ensures SessionFrom(t, s) && Truthful(canary, t, s, Replay(canary, NOTHING, t), edge, tagged, plain)
    ensures forall p <- Replay(canary, NOTHING, t).hosts :: IsHost(p)
    decreases |t|
  {
    if t == [] {
      s := -1;
    } else {
      var front, e := t[..|t| - 1], t[|t| - 1];
      assert t == front + [e] && e in t && forall x <- front :: x in t;
      s := TruthfulHistory(canary, front, edge, tagged, plain);
      if IsSession(e) {
        s := |front|;
      } else {
        TruthfulStep(canary, front, e, s, Replay(canary, NOTHING, front), edge, tagged, plain);
        SessionGoesOn(front, e, s);
      }
    }
  }

  lemma {:induction false} OwnOnly(h: seq<Event>, edge: EdgeId)
    ensures forall e <- Own(h, edge) :: e in h && e.edge == edge
    decreases |h|
  {
    if h != [] {
      OwnOnly(h[..|h| - 1], edge);
    }
  }

  // ---- runs of events and repairs ----

  // The mirror after a run, and the events in it.
  function Mirrored(canary: LargeCommunity, ops: seq<Op>): Mirror {
    if ops == [] then map[] else Step(canary, Mirrored(canary, ops[..|ops| - 1]), ops[|ops| - 1])
  }

  function Events(ops: seq<Op>): seq<Event> {
    if ops == [] then []
    else Events(ops[..|ops| - 1]) + if ops[|ops| - 1].Observe? then [ops[|ops| - 1].e] else []
  }

  // The snapshot a repair works from shows the hosts of the family that are there at that time.
  ghost predicate ShowsTruth(canary: LargeCommunity, h: seq<Event>, op: Op) {
    op.Reconcile? ==>
      forall p :: p in Authoritative(op.authoritative, op.family) <==>
        FamilyOf(p) == op.family && Present(canary, Own(h, op.edge), p)
  }

  ghost predicate SnapshotsTrue(canary: LargeCommunity, ops: seq<Op>) {
    forall i :: 0 <= i < |ops| ==> ShowsTruth(canary, Events(ops[..i]), ops[i])
  }

  // ---- the verdicts ----

  ghost predicate VerdictsTrue(canary: LargeCommunity, g: Mirror, h: seq<Event>, edge: EdgeId, m: Prefix) {
    && (ShouldAdvertise(g, edge, m) <==> Present(canary, Own(h, edge), m))
    && (ShouldWithdraw(g, edge, m) <==> Absent(canary, Own(h, edge), m))
  }

  lemma TrueWhenApart(canary: LargeCommunity, h: seq<Event>, edge: EdgeId, m: Prefix, tagged: Names, plain: Names)
    requires KeptApart(tagged, plain) && AllSpeak(canary, h, tagged, plain)
    ensures VerdictsTrue(canary, History(canary, h), h, edge, m)
  {
    var t := Own(h, edge);
    OwnOnly(h, edge);
    OwnEventsDecide(canary, h, edge);
    var s := TruthfulHistory(canary, t, edge, tagged, plain);
    var r := ViewMeansHistory(canary, t);
    SessionUnique(t, s, r);
    var v := Replay(canary, NOTHING, t);
    assert m in v.hosts <==> There(canary, t, s, m);
    assert Valid(v, FamilyOf(m)) <==> Trusted(canary, t, s, FamilyOf(m));
    OneSession(canary, t, s, m);
  }

  // Then a repair from a true snapshot finds nothing to repair.
  lemma NothingToRepair(canary: LargeCommunity, h: seq<Event>, op: Op, tagged: Names, plain: Names)
    requires KeptApart(tagged, plain) && AllSpeak(canary, h, tagged, plain)
    requires op.Reconcile? && ShowsTruth(canary, h, op)
    ensures Step(canary, History(canary, h), op) == History(canary, h)
  {
    var g := History(canary, h);
    if op.edge in g {
      var v := g[op.edge];
      forall p
        ensures p in v.hosts <==> Present(canary, Own(h, op.edge), p)
      {
        TrueWhenApart(canary, h, op.edge, p, tagged, plain);
      }
      assert Missed(v, op.family, op.authoritative) == {} && Stale(v, op.family, op.authoritative) == {};
      assert v.hosts + {} - {} == v.hosts;
    }
  }

  lemma SnapshotsTruePrefix(canary: LargeCommunity, ops: seq<Op>)
    requires ops != [] && SnapshotsTrue(canary, ops)
    ensures SnapshotsTrue(canary, ops[..|ops| - 1])
    ensures ShowsTruth(canary, Events(ops[..|ops| - 1]), ops[|ops| - 1])
  {
    var front := ops[..|ops| - 1];
    forall i | 0 <= i < |front|
      ensures ShowsTruth(canary, Events(front[..i]), front[i])
    {
      assert front[..i] == ops[..i] && front[i] == ops[i];
    }
  }

  // One more operation: an event is folded alike, and a repair is idle.
  lemma IdleStep(canary: LargeCommunity, h: seq<Event>, op: Op, tagged: Names, plain: Names)
    requires KeptApart(tagged, plain) && AllSpeak(canary, h, tagged, plain) && ShowsTruth(canary, h, op)
    ensures Step(canary, History(canary, h), op) == History(canary, h + if op.Observe? then [op.e] else [])
  {
    if op.Observe? {
      assert (h + [op.e])[..|h|] == h;
    } else {
      assert h + [] == h;
      NothingToRepair(canary, h, op, tagged, plain);
    }
  }

  lemma {:induction false} RepairsAreIdle(canary: LargeCommunity, ops: seq<Op>, tagged: Names, plain: Names)
    requires KeptApart(tagged, plain) && AllSpeak(canary, Events(ops), tagged, plain) && SnapshotsTrue(canary, ops)
    ensures Mirrored(canary, ops) == History(canary, Events(ops))
    decreases |ops|
  {
    if ops != [] {
      var front, op := ops[..|ops| - 1], ops[|ops| - 1];
      SnapshotsTruePrefix(canary, ops);
      assert forall e <- Events(front) :: e in Events(ops);
      RepairsAreIdle(canary, front, tagged, plain);
      IdleStep(canary, Events(front), op, tagged, plain);
    }
  }

  lemma OneSession(canary: LargeCommunity, t: seq<Event>, s: int, m: Prefix)
    requires SessionFrom(t, s)
    ensures Present(canary, t, m) <==> There(canary, t, s, m)
    ensures Absent(canary, t, m) <==> AbsentAt(canary, t, s, m)
  {
    if r :| SessionFrom(t, r) && There(canary, t, r, m) {
      SessionUnique(t, s, r);
    }
    if r :| AbsentAt(canary, t, r, m) {
      SessionUnique(t, s, r);
    }
  }

  // ---- where they are not the truth ----

  // p carries the canary, is announced as a plain host, and is withdrawn.
  function TakenForCanary(canary: LargeCommunity, edge: EdgeId, p: Prefix): seq<Event> {
    [PeerUp(edge), PathUpdate(edge, FamilyOf(p), p, [canary]), PathUpdate(edge, FamilyOf(p), p, []),
     Withdrawal(edge, FamilyOf(p), p, [])]
  }

  lemma {:induction false} OwnAll(h: seq<Event>, edge: EdgeId)
    requires forall i :: 0 <= i < |h| ==> h[i].edge == edge
    ensures Own(h, edge) == h
    decreases |h|
  {
    if h != [] {
      var front, e := h[..|h| - 1], h[|h| - 1];
      OwnAll(front, edge);
      assert h == front + [e];
    }
  }

  lemma TakenForCanaryView(canary: LargeCommunity, edge: EdgeId, p: Prefix)
    requires IsHost(p)
    ensures Replay(canary, NOTHING, TakenForCanary(canary, edge, p)) == View(true, false, {}, {p}, p)
  {
    var h := TakenForCanary(canary, edge, p);
    var v1 := Replay(canary, NOTHING, h[..1]);
    var v2 := Replay(canary, NOTHING, h[..2]);
    var v3 := Replay(canary, NOTHING, h[..3]);
    assert h[..1][..0] == [] && v1 == NOTHING.(peerUp := true);
    assert h[..2][..1] == h[..1] && v2 == Fold(canary, v1, h[1]);
    assert IsCanary(canary, h[1]) && v2 == View(true, true, {}, {}, p);
    assert h[..3][..2] == h[..2] && v3 == Fold(canary, v2, h[2]);
    assert !IsCanary(canary, h[2]) && v3.hosts == {p};
    assert h[..|h| - 1] == h[..3];
  }

  // Whatever follows, as long as it does not concern p, the plain reading is that p is gone.
  lemma NotThere(canary: LargeCommunity, edge: EdgeId, p: Prefix, more: seq<Event>)
    requires forall e <- more :: !IsSession(e) && !Concerns(e, p)
    ensures !Present(canary, TakenForCanary(canary, edge, p) + more, p)
  {
    var h := TakenForCanary(canary, edge, p);
    var t := h + more;
    assert forall k :: |h| <= k < |t| ==> t[k] in more;
    assert forall k :: 0 <= k < |h| ==> t[k] == h[k];
    assert Concerns(t[3], p);
    assert SessionFrom(t, 0);
    forall j | 0 < j < |t| && HostAt(canary, t, j, p)
      ensures !LastConcerning(t, j, p)
    {
      assert Concerns(t[j], p) && j < 3;
    }
    OneSession(canary, t, 0, p);
  }

  // Then the canary is announced with another prefix, and the family's end-of-RIB is seen.
  function AndTrusted(canary: LargeCommunity, edge: EdgeId, p: Prefix, q: Prefix): seq<Event> {
    [PathUpdate(edge, FamilyOf(q), q, [canary]), EOR(edge, FamilyOf(p))]
  }

  /** For every edge, host prefix and second prefix: a host that was withdrawn, by its last path event, is
      still mirrored on a trusted view, may be advertised and may not be withdrawn, because its withdrawal
      was taken for the canary's. */
  lemma WithdrawnHostStays(canary: LargeCommunity, edge: EdgeId, p: Prefix, q: Prefix)
    requires IsHost(p) && p != q
    ensures var h := TakenForCanary(canary, edge, p) + AndTrusted(canary, edge, p, q);
            var g := History(canary, h);
            && Valid(ViewOf(g, edge), FamilyOf(p)) && !Present(canary, Own(h, edge), p)
            && ShouldAdvertise(g, edge, p) && !ShouldWithdraw(g, edge, p)
  {
    var h0, more := TakenForCanary(canary, edge, p), AndTrusted(canary, edge, p, q);
    var h := h0 + more;
    OwnAll(h, edge);
    OwnEventsDecide(canary, h, edge);
    TakenForCanaryView(canary, edge, p);
    NotThere(canary, edge, p, more);
    ReplayAppend(canary, NOTHING, h0, more[0]);
    ReplayAppend(canary, NOTHING, h0 + [more[0]], more[1]);
    assert h == h0 + [more[0]] + [more[1]];
    assert IsCanary(canary, more[0]);
  }

  function Observing(h: seq<Event>): seq<Op> {
    if h == [] then [] else Observing(h[..|h| - 1]) + [Observe(h[|h| - 1])]
  }

  lemma {:induction false} ObservingOnly(h: seq<Event>)
    ensures forall i :: 0 <= i < |Observing(h)| ==> Observing(h)[i].Observe?
    decreases |h|
  {
    if h != [] {
      ObservingOnly(h[..|h| - 1]);
    }
  }

  lemma {:induction false} ObservingIsHistory(canary: LargeCommunity, h: seq<Event>)
    ensures Events(Observing(h)) == h && Mirrored(canary, Observing(h)) == History(canary, h)
    decreases |h|
  {
    if h != [] {
      var front, e := h[..|h| - 1], h[|h| - 1];
      var ops := Observing(front);
      ObservingIsHistory(canary, front);
      assert Observing(h) == ops + [Observe(e)] && (ops + [Observe(e)])[..|ops|] == ops;
      assert h == front + [e];
    }
  }

  // Every verdict of every run, with repairs from true snapshots anywhere in it, is the plain truth.
  ghost predicate AlwaysTrue(canary: LargeCommunity, tagged: Names, plain: Names) {
    forall ops, edge: EdgeId, m ::
      AllSpeak(canary, Events(ops), tagged, plain) && SnapshotsTrue(canary, ops) ==>
        VerdictsTrue(canary, Mirrored(canary, ops), Events(ops), edge, m)
  }

  /** What the guard promises, plainly read: a member may be advertised exactly while its last path event
      of the session is an announcement of the host, and withdrawn exactly when it is not, on a trusted
      view. This holds in every run, drift repairs included, if and only if no edge names a host prefix
      both with the canary's community and as a plain host. */
  lemma AlwaysTrueExactly(canary: LargeCommunity, tagged: Names, plain: Names)
    ensures AlwaysTrue(canary, tagged, plain) <==> KeptApart(tagged, plain)
  {
    if KeptApart(tagged, plain) {
      forall ops, edge: EdgeId, m | AllSpeak(canary, Events(ops), tagged, plain) && SnapshotsTrue(canary, ops)
        ensures VerdictsTrue(canary, Mirrored(canary, ops), Events(ops), edge, m)
      {
        RepairsAreIdle(canary, ops, tagged, plain);
        TrueWhenApart(canary, Events(ops), edge, m, tagged, plain);
      }
    } else {
      var x :| x in tagged && x in plain && IsHost(x.1);
      var h := TakenForCanary(canary, x.0, x.1);
      OwnAll(h, x.0);
      OwnEventsDecide(canary, h, x.0);
      TakenForCanaryView(canary, x.0, x.1);
      NotThere(canary, x.0, x.1, []);
      assert h + [] == h;
      ObservingIsHistory(canary, h);
      ObservingOnly(h);
      assert SnapshotsTrue(canary, Observing(h));
      assert AllSpeak(canary, h, tagged, plain);
      assert !VerdictsTrue(canary, Mirrored(canary, Observing(h)), Events(Observing(h)), x.0, x.1);
    }
  }
}
