/** What the guard's incremental views mean, read off the event history alone. */
module GuardTrace {
  import opened Edges
  import opened Rib
  import opened GuardSpec

  // The mirror after a history, starting from an empty guard.
  function History(canary: LargeCommunity, h: seq<Event>): Mirror {
    if h == [] then map[] else FoldMirror(canary, History(canary, h[..|h| - 1]), h[|h| - 1])
  }

  function Replay(canary: LargeCommunity, v: View, t: seq<Event>): View {
    if t == [] then v else Fold(canary, Replay(canary, v, t[..|t| - 1]), t[|t| - 1])
  }

  lemma ReplayAppend(canary: LargeCommunity, v: View, t: seq<Event>, e: Event)
    ensures Replay(canary, v, t + [e]) == Fold(canary, Replay(canary, v, t), e)
  {
    assert (t + [e])[..|t|] == t;
  }

  // The events of one edge, in order.
  function Own(h: seq<Event>, edge: EdgeId): seq<Event> {
    if h == [] then [] else Own(h[..|h| - 1], edge) + if h[|h| - 1].edge == edge then [h[|h| - 1]] else []
  }

  /** Edges do not interfere: a view depends on that edge's own events only. */
  lemma {:induction false} OwnEventsDecide(canary: LargeCommunity, h: seq<Event>, edge: EdgeId)
    ensures ViewOf(History(canary, h), edge) == Replay(canary, NOTHING, Own(h, edge))
    decreases |h|
  {
    if h != [] {
      var front, e := h[..|h| - 1], h[|h| - 1];
      OwnEventsDecide(canary, front, edge);
      if e.edge == edge {
        assert Own(h, edge) == Own(front, edge) + [e];
        ReplayAppend(canary, NOTHING, Own(front, edge), e);
      } else {
        assert Own(h, edge) == Own(front, edge);
      }
    }
  }

  // ---- reading a single edge's history t; s is where its current session began ----

  // The last session event is at s, or there is none and s is -1.
  ghost predicate SessionFrom(t: seq<Event>, s: int) {
    && -1 <= s < |t|
    && (s >= 0 ==> IsSession(t[s]))
    && forall k :: s < k < |t| ==> !IsSession(t[k])
  }

  ghost predicate SessionUp(t: seq<Event>, s: int) {
    0 <= s < |t| && t[s].PeerUp?
  }

  predicate CanaryAt(canary: LargeCommunity, t: seq<Event>, j: int) {
    0 <= j < |t| && t[j].PathUpdate? && IsCanary(canary, t[j])
  }

  // The latest canary announcement of the session before k is at j.
  ghost predicate LatestCanary(canary: LargeCommunity, t: seq<Event>, s: int, k: int, j: int) {
    s < j < k && CanaryAt(canary, t, j) && forall i :: j < i < k ==> !CanaryAt(canary, t, i)
  }

  // The withdrawal at k is read as the canary's.
  ghost predicate CanaryLossAt(canary: LargeCommunity, t: seq<Event>, s: int, k: int) {
    && 0 <= k < |t| && t[k].Withdrawal?
    && (IsCanary(canary, t[k])
        || (t[k].prefix != NoPrefix && exists j :: LatestCanary(canary, t, s, k, j) && t[j].prefix == t[k].prefix))
  }

  // A canary announcement since s has not been lost.
  ghost predicate CanaryStands(canary: LargeCommunity, t: seq<Event>, s: int) {
    exists j :: s < j < |t| && CanaryAt(canary, t, j) && NoLossAfter(canary, t, s, j)
  }

  ghost predicate NoLossAfter(canary: LargeCommunity, t: seq<Event>, s: int, j: int) {
    forall k :: j < k < |t| ==> !CanaryLossAt(canary, t, s, k)
  }

  ghost predicate EndOfRib(t: seq<Event>, s: int, f: Family) {
    exists j :: s < j < |t| && j >= 0 && EndOfRibAt(t, j, f)
  }

  predicate EndOfRibAt(t: seq<Event>, j: nat, f: Family) {
    j < |t| && t[j].EOR? && t[j].family == f
  }

  predicate HostAt(canary: LargeCommunity, t: seq<Event>, j: int, p: Prefix) {
    0 <= j < |t| && t[j].PathUpdate? && !IsCanary(canary, t[j]) && t[j].prefix == p
  }

  ghost predicate HostLossAt(canary: LargeCommunity, t: seq<Event>, s: int, k: int, p: Prefix) {
    0 <= k < |t| && t[k].Withdrawal? && t[k].prefix == p && !CanaryLossAt(canary, t, s, k)
  }

  // A host announcement of p since s has not been undone by a withdrawal the guard reads as the host's.
  // What it reads as the canary's does not count; GuardTruth says when that is also the plain truth.
  ghost predicate HostStands(canary: LargeCommunity, t: seq<Event>, s: int, p: Prefix) {
    IsHost(p) && exists j :: s < j < |t| && HostAt(canary, t, j, p) && NoHostLossAfter(canary, t, s, j, p)
  }

  ghost predicate NoHostLossAfter(canary: LargeCommunity, t: seq<Event>, s: int, j: int, p: Prefix) {
    forall k :: j < k < |t| ==> !HostLossAt(canary, t, s, k, p)
  }

  // The remembered prefix is that of the latest announcement of the session, if there is one.
  ghost predicate Remembers(canary: LargeCommunity, t: seq<Event>, s: int, p: Prefix) {
    (exists j :: LatestCanary(canary, t, s, |t|, j) && t[j].prefix == p)
    || (p == NoPrefix && forall j :: s < j < |t| ==> !CanaryAt(canary, t, j))
  }

  // Reading the past does not depend on what comes later.
  lemma PastIsPast(canary: LargeCommunity, t: seq<Event>, e: Event, s: int, k: int)
    requires k < |t|
    ensures CanaryLossAt(canary, t + [e], s, k) <==> CanaryLossAt(canary, t, s, k)
    ensures forall j :: LatestCanary(canary, t + [e], s, k, j) <==> LatestCanary(canary, t, s, k, j)
  {
    assert forall i :: 0 <= i < |t| ==> (t + [e])[i] == t[i];
    assert forall j :: j < |t| ==> (CanaryAt(canary, t + [e], j) <==> CanaryAt(canary, t, j));
    forall j
      ensures LatestCanary(canary, t + [e], s, k, j) <==> LatestCanary(canary, t, s, k, j)
    {
    }
  }

  // The guard's prefix memory recognises exactly the withdrawals the history reads as canary losses.
  lemma LossAtEnd(canary: LargeCommunity, t: seq<Event>, e: Event, s: int, v: View)
    requires Remembers(canary, t, s, v.canaryPrefix) && e.Withdrawal?
    ensures CanaryLossAt(canary, t + [e], s, |t|) <==> CanaryRead(canary, v, e)
  {
    assert (t + [e])[|t|] == e;
    forall j
      ensures LatestCanary(canary, t + [e], s, |t|, j) <==> LatestCanary(canary, t, s, |t|, j)
    {
      assert forall i :: i < |t| ==> (CanaryAt(canary, t + [e], i) <==> CanaryAt(canary, t, i));
    }
    if exists j :: LatestCanary(canary, t, s, |t|, j) && t[j].prefix == v.canaryPrefix {
      var j :| LatestCanary(canary, t, s, |t|, j) && t[j].prefix == v.canaryPrefix;
      assert LatestCanary(canary, t + [e], s, |t|, j) && (t + [e])[j] == t[j];
      forall i | LatestCanary(canary, t + [e], s, |t|, i)
        ensures i == j
      {
      }
    }
  }

  lemma CanaryStandsStep(canary: LargeCommunity, t: seq<Event>, e: Event, s: int)
    requires -1 <= s < |t|
    ensures CanaryStands(canary, t + [e], s) <==>
            CanaryAt(canary, t + [e], |t|) || (CanaryStands(canary, t, s) && !CanaryLossAt(canary, t + [e], s, |t|))
  {
    var u := t + [e];
    assert forall i :: i < |t| ==> (CanaryAt(canary, u, i) <==> CanaryAt(canary, t, i));
    forall k | k < |t|
      ensures CanaryLossAt(canary, u, s, k) <==> CanaryLossAt(canary, t, s, k)
    {
      PastIsPast(canary, t, e, s, k);
    }
    if CanaryAt(canary, u, |t|) {
      assert NoLossAfter(canary, u, s, |t|);
    }
    if CanaryStands(canary, t, s) && !CanaryLossAt(canary, u, s, |t|) {
      var j :| s < j < |t| && CanaryAt(canary, t, j) && NoLossAfter(canary, t, s, j);
      assert NoLossAfter(canary, u, s, j);
    }
    if CanaryStands(canary, u, s) {
      var j :| s < j < |u| && CanaryAt(canary, u, j) && NoLossAfter(canary, u, s, j);
      assert NoLossAfter(canary, t, s, j);
    }
  }

  lemma HostStandsStep(canary: LargeCommunity, t: seq<Event>, e: Event, s: int, p: Prefix)
    requires -1 <= s < |t|
    ensures HostStands(canary, t + [e], s, p) <==>
            || (IsHost(p) && HostAt(canary, t + [e], |t|, p))
            || (HostStands(canary, t, s, p) && !HostLossAt(canary, t + [e], s, |t|, p))
  {
    var u := t + [e];
    assert forall i :: i < |t| ==> (HostAt(canary, u, i, p) <==> HostAt(canary, t, i, p));
    forall k | k < |t|
      ensures HostLossAt(canary, u, s, k, p) <==> HostLossAt(canary, t, s, k, p)
    {
      PastIsPast(canary, t, e, s, k);
    }
    if HostAt(canary, u, |t|, p) {
      assert NoHostLossAfter(canary, u, s, |t|, p);
    }
    if HostStands(canary, t, s, p) && !HostLossAt(canary, u, s, |t|, p) {
      var j :| s < j < |t| && HostAt(canary, t, j, p) && NoHostLossAfter(canary, t, s, j, p);
      assert NoHostLossAfter(canary, u, s, j, p);
    }
    if HostStands(canary, u, s, p) {
      var j :| s < j < |u| && HostAt(canary, u, j, p) && NoHostLossAfter(canary, u, s, j, p);
      assert NoHostLossAfter(canary, t, s, j, p);
    }
  }

  lemma EndOfRibStep(t: seq<Event>, e: Event, s: int, f: Family)
    requires -1 <= s < |t|
    ensures EndOfRib(t + [e], s, f) <==> EndOfRib(t, s, f) || (e.EOR? && e.family == f)
  {
    var u := t + [e];
    assert forall j: nat :: j < |t| ==> (EndOfRibAt(u, j, f) <==> EndOfRibAt(t, j, f));
    assert EndOfRibAt(u, |t|, f) <==> e.EOR? && e.family == f;
  }

  lemma RemembersStep(canary: LargeCommunity, t: seq<Event>, e: Event, s: int, p: Prefix)
    requires -1 <= s < |t| && Remembers(canary, t, s, p)
    ensures Remembers(canary, t + [e], s, if CanaryAt(canary, t + [e], |t|) then e.prefix else p)
  {
    var u := t + [e];
    assert forall i :: i < |t| ==> (CanaryAt(canary, u, i) <==> CanaryAt(canary, t, i));
    if CanaryAt(canary, u, |t|) {
      assert LatestCanary(canary, u, s, |u|, |t|);
    } else if j :| LatestCanary(canary, t, s, |t|, j) && t[j].prefix == p {
      assert LatestCanary(canary, u, s, |u|, j) && u[j] == t[j];
    }
  }

  /** What each part of a view stands for. */
  ghost predicate Means(canary: LargeCommunity, t: seq<Event>, s: int, v: View) {
    && v.peerUp == SessionUp(t, s)
    && v.canaryUp == CanaryStands(canary, t, s)
    && (forall f :: f in v.eor <==> EndOfRib(t, s, f))
    && (forall p :: p in v.hosts <==> HostStands(canary, t, s, p))
    && Remembers(canary, t, s, v.canaryPrefix)
  }

  lemma MeansWithinSession(canary: LargeCommunity, t: seq<Event>, e: Event, s: int, v: View)
    requires -1 <= s < |t| && !IsSession(e) && Means(canary, t, s, v)
    ensures Means(canary, t + [e], s, Fold(canary, v, e))
  {
    var u, w := t + [e], Fold(canary, v, e);
    assert u[|t|] == e && (s >= 0 ==> u[s] == t[s]);
    CanaryStandsStep(canary, t, e, s);
    RemembersStep(canary, t, e, s, v.canaryPrefix);
    if e.Withdrawal? {
      LossAtEnd(canary, t, e, s, v);
    }
    forall f
      ensures f in w.eor <==> EndOfRib(u, s, f)
    {
      EndOfRibStep(t, e, s, f);
    }
    forall p
      ensures p in w.hosts <==> HostStands(canary, u, s, p)
    {
      HostStandsStep(canary, t, e, s, p);
    }
  }

  lemma MeansNewSession(canary: LargeCommunity, t: seq<Event>, e: Event, v: View)
    requires IsSession(e)
    ensures SessionFrom(t + [e], |t|) && Means(canary, t + [e], |t|, Fold(canary, v, e))
  {
  }

  /** The incremental view of an edge says exactly what its history says. */
  lemma {:induction false} ViewMeansHistory(canary: LargeCommunity, t: seq<Event>) returns (s: int)
    ensures SessionFrom(t, s) && Means(canary, t, s, Replay(canary, NOTHING, t))
    decreases |t|
  {
    if t == [] {
      s := -1;
    } else {
      var front, e := t[..|t| - 1], t[|t| - 1];
      assert t == front + [e];
      s := ViewMeansHistory(canary, front);
      var v := Replay(canary, NOTHING, front);
      if IsSession(e) {
        MeansNewSession(canary, front, e, v);
        s := |front|;
      } else {
        MeansWithinSession(canary, front, e, s, v);
        SessionGoesOn(front, e, s);
      }
    }
  }

  lemma SessionGoesOn(t: seq<Event>, e: Event, s: int)
    requires SessionFrom(t, s) && !IsSession(e)
    ensures SessionFrom(t + [e], s)
  {
  }

  // The history has one current session.
  lemma SessionUnique(t: seq<Event>, s: int, r: int)
    requires SessionFrom(t, s) && SessionFrom(t, r)
    ensures s == r
  {
  }

  // Since s the session is up, the canary stands, and the family's end-of-RIB was seen.
  ghost predicate Trusted(canary: LargeCommunity, t: seq<Event>, s: int, f: Family) {
    SessionFrom(t, s) && SessionUp(t, s) && CanaryStands(canary, t, s) && EndOfRib(t, s, f)
  }

  ghost predicate GoneAt(canary: LargeCommunity, t: seq<Event>, s: int, m: Prefix) {
    Trusted(canary, t, s, FamilyOf(m)) && !HostStands(canary, t, s, m)
  }

  // The history shows, on a view that can be trusted, that the member is gone.
  ghost predicate Gone(canary: LargeCommunity, t: seq<Event>, m: Prefix) {
    exists s :: GoneAt(canary, t, s, m)
  }

  /** After any run, an anchor may be withdrawn if and only if, on that edge alone: the last session
      event is PeerUp, and since then a canary announcement stands, the family's end-of-RIB was seen,
      and no host announcement of the member stands. Withdrawals are read as the guard reads them. */
  lemma WithdrawExactly(canary: LargeCommunity, h: seq<Event>, edge: EdgeId, m: Prefix)
    ensures ShouldWithdraw(History(canary, h), edge, m) <==> Gone(canary, Own(h, edge), m)
  {
    var t := Own(h, edge);
    OwnEventsDecide(canary, h, edge);
    var s := ViewMeansHistory(canary, t);
    assert ShouldWithdraw(History(canary, h), edge, m) <==> GoneAt(canary, t, s, m);
    if r :| GoneAt(canary, t, r, m) {
      SessionUnique(t, s, r);
    }
  }

  /** And it may be advertised if and only if a host announcement of it stands. */
  lemma AdvertiseExactly(canary: LargeCommunity, h: seq<Event>, edge: EdgeId, m: Prefix)
    ensures var t := Own(h, edge);
            ShouldAdvertise(History(canary, h), edge, m) <==>
                exists s :: SessionFrom(t, s) && HostStands(canary, t, s, m)
  {
    var t := Own(h, edge);
    OwnEventsDecide(canary, h, edge);
    var s := ViewMeansHistory(canary, t);
    forall r | SessionFrom(t, r)
      ensures r == s
    {
      SessionUnique(t, s, r);
    }
  }

  // ---- when a view is settled enough to be reconciled ----

  // The last session event is PeerUp, and the family's end-of-RIB came since then.
  ghost predicate Replayed(t: seq<Event>, f: Family) {
    exists s :: SessionFrom(t, s) && SessionUp(t, s) && EndOfRib(t, s, f)
  }

  lemma ViewReplayed(canary: LargeCommunity, t: seq<Event>, f: Family)
    ensures var v := Replay(canary, NOTHING, t); v.peerUp && f in v.eor <==> Replayed(t, f)
  {
    var s := ViewMeansHistory(canary, t);
    if r :| SessionFrom(t, r) && SessionUp(t, r) && EndOfRib(t, r, f) {
      SessionUnique(t, s, r);
    }
  }

  /** After any run a repair touches a view only if, on that edge's history, the last session event is
      PeerUp and the family's end-of-RIB came since; a session that is down or in mid-replay is left as it
      is, and exactly such a view counts as unsettled. */
  lemma SettledExactly(canary: LargeCommunity, h: seq<Event>, edge: EdgeId, f: Family, ps: seq<Prefix>)
    ensures Settled(ViewOf(History(canary, h), edge), f) <==> Replayed(Own(h, edge), f)
    ensures !Replayed(Own(h, edge), f) ==> RepairMirror(History(canary, h), edge, f, ps) == History(canary, h)
  {
    OwnEventsDecide(canary, h, edge);
    ViewReplayed(canary, Own(h, edge), f);
  }

  // ---- a session start makes the past irrelevant, and the order of the replay too ----

  // A replay announces paths and ends ribs.
  predicate IsReplay(t: seq<Event>) {
    forall e <- t :: e.PathUpdate? || e.EOR?
  }

  function Announced(canary: LargeCommunity, t: seq<Event>): set<Prefix> {
    set e | e in t && e.PathUpdate? && !IsCanary(canary, e) && IsHost(e.prefix) :: e.prefix
  }

  function Ended(t: seq<Event>): set<Family> {
    set e | e in t && e.EOR? :: e.family
  }

  function CanaryPrefixes(canary: LargeCommunity, t: seq<Event>): set<Prefix> {
    set e | e in t && e.PathUpdate? && IsCanary(canary, e) :: e.prefix
  }

  // w is v with the replay's announcements and ends added.
  ghost predicate Built(canary: LargeCommunity, v: View, t: seq<Event>, w: View) {
    && w.peerUp == v.peerUp
    && w.canaryUp == (v.canaryUp || CanaryPrefixes(canary, t) != {})
    && w.eor == v.eor + Ended(t)
    && w.hosts == v.hosts + Announced(canary, t)
    && (if CanaryPrefixes(canary, t) == {} then w.canaryPrefix == v.canaryPrefix
        else w.canaryPrefix in CanaryPrefixes(canary, t))
  }

  lemma BuiltStep(canary: LargeCommunity, v: View, t: seq<Event>, w: View, e: Event)
    requires Built(canary, v, t, w) && (e.PathUpdate? || e.EOR?)
    ensures Built(canary, v, t + [e], Fold(canary, w, e))
  {
    SetsGrow(canary, t, e);
    if e.EOR? {
      assert v.eor + (Ended(t) + {e.family}) == w.eor + {e.family};
    } else if IsCanary(canary, e) {
      assert e.prefix in CanaryPrefixes(canary, t + [e]);
    } else if IsHost(e.prefix) {
      assert v.hosts + (Announced(canary, t) + {e.prefix}) == w.hosts + {e.prefix};
    }
  }

  lemma {:induction false} ReplayBuilds(canary: LargeCommunity, v: View, t: seq<Event>)
    requires IsReplay(t)
    ensures Built(canary, v, t, Replay(canary, v, t))
    decreases |t|
  {
    if t != [] {
      var front, e := t[..|t| - 1], t[|t| - 1];
      assert e in t && forall x <- front :: x in t;
      ReplayBuilds(canary, v, front);
      BuiltStep(canary, v, front, Replay(canary, v, front), e);
      assert t == front + [e];
    }
  }

  lemma SetsGrow(canary: LargeCommunity, t: seq<Event>, e: Event)
    ensures Announced(canary, t + [e]) ==
            Announced(canary, t) + if e.PathUpdate? && !IsCanary(canary, e) && IsHost(e.prefix) then {e.prefix} else {}
    ensures Ended(t + [e]) == Ended(t) + if e.EOR? then {e.family} else {}
    ensures CanaryPrefixes(canary, t + [e]) ==
            CanaryPrefixes(canary, t) + if e.PathUpdate? && IsCanary(canary, e) then {e.prefix} else {}
  {
    assert forall x :: x in t + [e] <==> x in t || x == e;
  }

  /** Whatever the guard held before, a session start followed by the same announcements, in any order
      and multiplicity, leads to the same trust and the same hosts; and to the very same view when one
      prefix carries the canary. */
  lemma ReplayOrderIsIrrelevant(canary: LargeCommunity, v: View, w: View, edge: EdgeId, t: seq<Event>, u: seq<Event>)
    requires IsReplay(t) && IsReplay(u) && (forall e :: e in t <==> e in u)
    ensures var x, y := Replay(canary, v, [PeerUp(edge)] + t), Replay(canary, w, [PeerUp(edge)] + u);
            && x.(canaryPrefix := NoPrefix) == y.(canaryPrefix := NoPrefix)
            && (|CanaryPrefixes(canary, t)| <= 1 ==> x == y)
  {
    ReplayConcat(canary, v, [PeerUp(edge)], t);
    ReplayConcat(canary, w, [PeerUp(edge)], u);
    ReplayAppend(canary, v, [], PeerUp(edge));
    ReplayAppend(canary, w, [], PeerUp(edge));
    assert [] + [PeerUp(edge)] == [PeerUp(edge)];
    SameSetsSameView(canary, t, u);
  }

  lemma SameSetsSameView(canary: LargeCommunity, t: seq<Event>, u: seq<Event>)
    requires IsReplay(t) && IsReplay(u) && forall e :: e in t <==> e in u
    ensures var begun := NOTHING.(peerUp := true);
            var x, y := Replay(canary, begun, t), Replay(canary, begun, u);
            && x.(canaryPrefix := NoPrefix) == y.(canaryPrefix := NoPrefix)
            && (|CanaryPrefixes(canary, t)| <= 1 ==> x == y)
  {
    var begun := NOTHING.(peerUp := true);
    ReplayBuilds(canary, begun, t);
    ReplayBuilds(canary, begun, u);
    var ps := CanaryPrefixes(canary, t);
    assert ps == CanaryPrefixes(canary, u) && Announced(canary, t) == Announced(canary, u) && Ended(t) == Ended(u);
    if 0 < |ps| <= 1 {
      OnlyOne(ps, Replay(canary, begun, t).canaryPrefix, Replay(canary, begun, u).canaryPrefix);
    }
  }

  lemma OnlyOne<T>(ps: set<T>, a: T, b: T)
    requires |ps| <= 1 && a in ps && b in ps
    ensures a == b
  {
    var rest := ps - {a};
    assert ps == rest + {a} && |rest| == |ps| - 1;
  }

  // From any two views, the two replays lead to the very same view.
  ghost predicate SameView(canary: LargeCommunity, edge: EdgeId, t: seq<Event>, u: seq<Event>) {
    forall v, w :: Replay(canary, v, [PeerUp(edge)] + t) == Replay(canary, w, [PeerUp(edge)] + u)
  }

  /** The order of a replay never matters to the view if and only if it has at most one canary prefix: with
      two, some reordering changes the prefix that is remembered. */
  lemma OrderMattersExactly(canary: LargeCommunity, edge: EdgeId, t: seq<Event>)
    requires IsReplay(t)
    ensures (forall u :: multiset(u) == multiset(t) ==> SameView(canary, edge, t, u)) <==>
            |CanaryPrefixes(canary, t)| <= 1
  {
    if |CanaryPrefixes(canary, t)| <= 1 {
      forall u | multiset(u) == multiset(t)
        ensures SameView(canary, edge, t, u)
      {
        SameEvents(t, u);
        forall v, w
          ensures Replay(canary, v, [PeerUp(edge)] + t) == Replay(canary, w, [PeerUp(edge)] + u)
        {
          ReplayOrderIsIrrelevant(canary, v, w, edge, t, u);
        }
      }
    } else {
      var u := ChangeRemembered(canary, t);
      SameEvents(t, u);
      AfterSessionStart(canary, NOTHING, edge, t);
      AfterSessionStart(canary, NOTHING, edge, u);
      assert !SameView(canary, edge, t, u);
    }
  }

  lemma SameEvents(t: seq<Event>, u: seq<Event>)
    requires multiset(u) == multiset(t)
    ensures forall e :: e in u <==> e in t
    ensures IsReplay(t) ==> IsReplay(u)
  {
    forall e
      ensures e in u <==> e in t
    {
      assert e in u <==> e in multiset(u);
      assert e in t <==> e in multiset(t);
    }
  }

  lemma AfterSessionStart(canary: LargeCommunity, v: View, edge: EdgeId, t: seq<Event>)
    ensures Replay(canary, v, [PeerUp(edge)] + t) == Replay(canary, NOTHING.(peerUp := true), t)
  {
    ReplayConcat(canary, v, [PeerUp(edge)], t);
    ReplayAppend(canary, v, [], PeerUp(edge));
    assert [] + [PeerUp(edge)] == [PeerUp(edge)];
  }

  // Moving an announcement of another canary prefix to the end makes that prefix the remembered one.
  lemma ChangeRemembered(canary: LargeCommunity, t: seq<Event>) returns (u: seq<Event>)
    requires IsReplay(t) && |CanaryPrefixes(canary, t)| > 1
    ensures multiset(u) == multiset(t)
    ensures var begun := NOTHING.(peerUp := true);
            Replay(canary, begun, u).canaryPrefix != Replay(canary, begun, t).canaryPrefix
  {
    var begun := NOTHING.(peerUp := true);
    var p := Replay(canary, begun, t).canaryPrefix;
    var q := Another(CanaryPrefixes(canary, t), p);
    var e :| e in t && e.PathUpdate? && IsCanary(canary, e) && e.prefix == q;
    var i :| 0 <= i < |t| && t[i] == e;
    var rest := t[..i] + t[i + 1..];
    u := rest + [e];
    assert t == t[..i] + [t[i]] + t[i + 1..];
    ReplayAppend(canary, begun, rest, e);
  }

  lemma Another<T>(s: set<T>, a: T) returns (b: T)
    requires |s| > 1
    ensures b in s && b != a
  {
    var rest := s - {a};
    assert s <= rest + {a};
    if rest == {} {
      assert s <= {a};
      assert |s| <= |{a}| by {
        Smaller(s, {a});
      }
    }
    b :| b in rest;
  }

  lemma Smaller<T>(s: set<T>, r: set<T>)
    requires s <= r
    ensures |s| <= |r|
  {
    assert r == s + (r - s);
  }

  lemma {:induction false} ReplayConcat(canary: LargeCommunity, v: View, t: seq<Event>, u: seq<Event>)
    ensures Replay(canary, v, t + u) == Replay(canary, Replay(canary, v, t), u)
    decreases |u|
  {
    if u == [] {
      assert t + u == t;
    } else {
      ReplayConcat(canary, v, t, u[..|u| - 1]);
      assert (t + u)[..|t + u| - 1] == t + u[..|u| - 1];
    }
  }
}
