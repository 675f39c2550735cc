/** What the coverer tells the server, read off the event history; and what the drift audit restores. */
module CovererTrace {
  import opened Edges
  import opened Rib
  import opened GuardSpec
  import opened GuardTrace
  import opened GuardRepair
  import opened CovererSpec
  import Coverer

  // ---- runs and the event history they contain ----

  // The tap events of a run, in order; drift repairs and snapshots happen in between.
  function TapsOf(run: seq<Action>): seq<Event> {
    if run == [] then []
    else
      var last := run[|run| - 1];
      TapsOf(run[..|run| - 1]) + if last.Tap? then [last.e] else []
  }

  lemma TapsOfAppend(run: seq<Action>, a: Action)
    ensures TapsOf(run + [a]) == TapsOf(run) + if a.Tap? then [a.e] else []
  {
    assert (run + [a])[..|run|] == run;
  }

  lemma GatesMove(canary: LargeCommunity, s: State, a: Action, edge: EdgeId)
    ensures !a.Tap? ==> Gates(ViewOf(Step(canary, s, a).mirror, edge)) == Gates(ViewOf(s.mirror, edge))
    ensures a.Tap? ==> ViewOf(Step(canary, s, a).mirror, edge) ==
                       if a.e.edge == edge then Fold(canary, ViewOf(s.mirror, edge), a.e) else ViewOf(s.mirror, edge)
  {
  }

  // Repairs move hosts only, so all else in the mirror is what the tap events alone would make it.
  lemma {:induction false} GatesMeanHistory(canary: LargeCommunity, run: seq<Action>, edge: EdgeId)
    ensures Gates(ViewOf(After(canary, EMPTY, run).mirror, edge)) == Gates(ViewOf(History(canary, TapsOf(run)), edge))
    decreases |run|
  {
    if run != [] {
      var front, a := run[..|run| - 1], run[|run| - 1];
      GatesMeanHistory(canary, front, edge);
      GatesMove(canary, After(canary, EMPTY, front), a, edge);
      if a.Tap? {
        HistoryAppend(canary, TapsOf(front), a.e);
        GatesStep(canary, ViewOf(After(canary, EMPTY, front).mirror, edge),
                  ViewOf(History(canary, TapsOf(front)), edge), a.e);
      } else {
        assert TapsOf(run) == TapsOf(front);
      }
    }
  }

  ghost predicate TrustedNow(canary: LargeCommunity, t: seq<Event>, f: Family) {
    exists s :: Trusted(canary, t, s, f)
  }

  lemma TrustedExactly(canary: LargeCommunity, h: seq<Event>, edge: EdgeId, f: Family)
    ensures Valid(ViewOf(History(canary, h), edge), f) <==> TrustedNow(canary, Own(h, edge), f)
  {
    var t := Own(h, edge);
    OwnEventsDecide(canary, h, edge);
    var s := ViewMeansHistory(canary, t);
    assert Valid(Replay(canary, NOTHING, t), f) <==> Trusted(canary, t, s, f);
    if r :| Trusted(canary, t, r, f) {
      SessionUnique(t, s, r);
    }
  }

  // In every run a view can be trusted exactly when the edge's history says so.
  lemma TrustedInRun(canary: LargeCommunity, run: seq<Action>, edge: EdgeId, f: Family)
    ensures Valid(ViewOf(After(canary, EMPTY, run).mirror, edge), f) <==> TrustedNow(canary, Own(TapsOf(run), edge), f)
  {
    GatesMeanHistory(canary, run, edge);
    TrustedExactly(canary, TapsOf(run), edge, f);
    SameGatesSameTrust(ViewOf(After(canary, EMPTY, run).mirror, edge), ViewOf(History(canary, TapsOf(run)), edge), f);
  }

  lemma SameGatesSameTrust(v: View, w: View, f: Family)
    requires Gates(v) == Gates(w)
    ensures Valid(v, f) <==> Valid(w, f)
  {
    assert Gates(v).peerUp == v.peerUp && Gates(v).canaryUp == v.canaryUp && Gates(v).eor == v.eor;
    assert Gates(w).peerUp == w.peerUp && Gates(w).canaryUp == w.canaryUp && Gates(w).eor == w.eor;
  }

  // ---- the coverer's canary memory, which outlives sessions ----

  predicate Announces(canary: LargeCommunity, e: Event, p: Prefix) {
    e.PathUpdate? && e.prefix == p && IsCanary(canary, e)
  }

  predicate Forgets(canary: LargeCommunity, e: Event, p: Prefix) {
    e.Withdrawal? && e.prefix == p && !IsCanary(canary, e)
  }

  // p was announced as the canary and not withdrawn since.
  ghost predicate Remembered(canary: LargeCommunity, t: seq<Event>, p: Prefix) {
    canary != NO_CANARY
    && exists j :: 0 <= j < |t| && CanaryAt(canary, t, j) && t[j].prefix == p && NotForgotten(canary, t, j, p)
  }

  ghost predicate NotForgotten(canary: LargeCommunity, t: seq<Event>, j: int, p: Prefix) {
    forall k :: 0 <= k && j < k < |t| ==> !Forgets(canary, t[k], p)
  }

  lemma RememberedStep(canary: LargeCommunity, t: seq<Event>, e: Event, p: Prefix)
    requires canary != NO_CANARY
    ensures Remembered(canary, t + [e], p) <==>
            Announces(canary, e, p) || (Remembered(canary, t, p) && !Forgets(canary, e, p))
  {
    var u := t + [e];
    assert u[|t|] == e && forall i :: 0 <= i < |t| ==> u[i] == t[i];
    if Announces(canary, e, p) {
      assert CanaryAt(canary, u, |t|) && NotForgotten(canary, u, |t|, p);
    }
    if Remembered(canary, t, p) && !Forgets(canary, e, p) {
      var j :| 0 <= j < |t| && CanaryAt(canary, t, j) && t[j].prefix == p && NotForgotten(canary, t, j, p);
      assert CanaryAt(canary, u, j) && NotForgotten(canary, u, j, p);
    }
    if Remembered(canary, u, p) {
      var j :| 0 <= j < |u| && CanaryAt(canary, u, j) && u[j].prefix == p && NotForgotten(canary, u, j, p);
      if j < |t| {
        assert CanaryAt(canary, t, j);
        assert NotForgotten(canary, t, j, p) by {
          assert forall k :: 0 <= k && j < k < |t| ==> !Forgets(canary, u[k], p);
        }
      }
    }
  }

  lemma SeenStep(canary: LargeCommunity, s: State, e: Event, edge: EdgeId, p: Prefix)
    ensures canary == NO_CANARY ==> Handle(canary, s, e).seen <= s.seen
    ensures canary != NO_CANARY ==>
              ((edge, p) in Handle(canary, s, e).seen <==>
                (e.edge == edge && Announces(canary, e, p))
                || ((edge, p) in s.seen && !(e.edge == edge && Forgets(canary, e, p))))
  {
  }

  /** The coverer's memory is what the edge's own history says of the prefix. */
  lemma {:induction false} SeenMeansHistory(canary: LargeCommunity, run: seq<Action>, edge: EdgeId, p: Prefix)
    ensures (edge, p) in After(canary, EMPTY, run).seen <==> Remembered(canary, Own(TapsOf(run), edge), p)
    decreases |run|
  {
    if run != [] {
      var front, a := run[..|run| - 1], run[|run| - 1];
      SeenMeansHistory(canary, front, edge, p);
      if a.Tap? {
        SeenMeansTap(canary, After(canary, EMPTY, front), TapsOf(front), a.e, edge, p);
      } else {
        assert TapsOf(run) == TapsOf(front);
      }
    }
  }

  lemma SeenMeansTap(canary: LargeCommunity, s: State, h: seq<Event>, e: Event, edge: EdgeId, p: Prefix)
    requires (edge, p) in s.seen <==> Remembered(canary, Own(h, edge), p)
    ensures (edge, p) in Handle(canary, s, e).seen <==> Remembered(canary, Own(h + [e], edge), p)
  {
    SeenStep(canary, s, e, edge, p);
    assert (h + [e])[..|h|] == h;
    assert Own(h + [e], edge) == if e.edge == edge then Own(h, edge) + [e] else Own(h, edge);
    if canary != NO_CANARY && e.edge == edge {
      RememberedStep(canary, Own(h, edge), e, p);
    }
  }

  // ---- the gated member reports ----

  // What handling e adds to the reports after the run.
  ghost function NewReports(canary: LargeCommunity, run: seq<Action>, e: Event): seq<Report> {
    var was, now := After(canary, EMPTY, run).sent, After(canary, EMPTY, run + [Tap(e)]).sent;
    if |was| <= |now| then now[|was|..] else []
  }

  ghost predicate ReportedDown(canary: LargeCommunity, run: seq<Action>, e: Event) {
    IsPath(e) && MemberEdge(e.edge, [e.prefix], true) in NewReports(canary, run, e)
  }

  ghost predicate ReportedUp(canary: LargeCommunity, run: seq<Action>, e: Event) {
    IsPath(e) && MemberEdge(e.edge, [e.prefix], false) in NewReports(canary, run, e)
  }

  // The edge's history up to and including e.
  function With(run: seq<Action>, e: Event): seq<Event> {
    Own(TapsOf(run) + [e], e.edge)
  }

  // A withdrawal of a host, with the family its constructor derives.
  predicate HostWithdrawal(e: Event) {
    e.Withdrawal? && IsHost(e.prefix) && e.family == FamilyOf(e.prefix)
  }

  lemma TapAfter(canary: LargeCommunity, run: seq<Action>, e: Event, f: Family)
    ensures After(canary, EMPTY, run + [Tap(e)]) == Handle(canary, After(canary, EMPTY, run), e)
    ensures Valid(ViewOf(Handle(canary, After(canary, EMPTY, run), e).mirror, e.edge), f) <==>
            TrustedNow(canary, With(run, e), f)
  {
    AfterAppend(canary, EMPTY, run, Tap(e));
    TapsOfAppend(run, Tap(e));
    TrustedInRun(canary, run + [Tap(e)], e.edge, f);
  }

  /** In every run, with drift repairs and snapshots anywhere in it, a host's withdrawal is reported down if
      and only if the view can be trusted after it and the prefix is not one the coverer remembers as a
      canary of that edge. So no flap, freeze or replay in progress makes a member go down, but a host whose
      prefix once carried the canary can go without being reported. */
  lemma DownReportedExactly(canary: LargeCommunity, run: seq<Action>, e: Event)
    requires HostWithdrawal(e)
    ensures ReportedDown(canary, run, e) <==>
            TrustedNow(canary, With(run, e), e.family) && !Remembered(canary, Own(TapsOf(run), e.edge), e.prefix)
  {
    TapAfter(canary, run, e, e.family);
    SeenMeansHistory(canary, run, e.edge, e.prefix);
    DownStep(canary, After(canary, EMPTY, run), e);
  }

  // A withdrawal that leaves the view trusted was read as the host's, so the host is no longer mirrored.
  lemma DownStep(canary: LargeCommunity, s: State, e: Event)
    requires HostWithdrawal(e)
    ensures var t := Handle(canary, s, e);
            && |s.sent| <= |t.sent|
            && (MemberEdge(e.edge, [e.prefix], true) in t.sent[|s.sent|..] <==>
                  Valid(ViewOf(t.mirror, e.edge), e.family) && (e.edge, e.prefix) !in s.seen)
  {
    var t := Handle(canary, s, e);
    if |t.sent| == |s.sent| {
      assert t.sent[|s.sent|..] == [];
    } else {
      assert t.sent[|s.sent|..] == [t.sent[|s.sent|]];
    }
  }

  /** In every run a host's announcement is reported if and only if the view can be trusted; a replay is not
      reported host by host. */
  lemma UpReportedExactly(canary: LargeCommunity, run: seq<Action>, e: Event)
    requires e.PathUpdate? && IsHost(e.prefix) && !IsCanary(canary, e)
    ensures ReportedUp(canary, run, e) <==> TrustedNow(canary, With(run, e), e.family)
  {
    TapAfter(canary, run, e, e.family);
    UpStep(canary, After(canary, EMPTY, run), e);
  }

  lemma UpStep(canary: LargeCommunity, s: State, e: Event)
    requires e.PathUpdate? && IsHost(e.prefix) && !IsCanary(canary, e)
    ensures var t := Handle(canary, s, e);
            && |s.sent| <= |t.sent|
            && (MemberEdge(e.edge, [e.prefix], false) in t.sent[|s.sent|..] <==>
                  Valid(ViewOf(t.mirror, e.edge), e.family))
  {
    var t := Handle(canary, s, e);
    if |t.sent| == |s.sent| {
      assert t.sent[|s.sent|..] == [];
    } else {
      assert t.sent[|s.sent|..] == [t.sent[|s.sent|]];
    }
  }

  // ---- everything the handler sends ----

  predicate CarriesCanary(canary: LargeCommunity, e: Event) {
    IsPath(e) && canary != LargeCommunity(0, 0, 0) && canary in e.communities
  }

  // What the event gives rise to, read off the history; `mirrored` tells whether the host is in the mirror.
  ghost function Expected(canary: LargeCommunity, run: seq<Action>, e: Event, mirrored: bool): seq<Report> {
    match e
    case PeerUp(_) => []
    case EOR(_, _) => []
    case PeerDown(edge) => [DeathVote(edge, true, false)]
    case Withdrawal(edge, f, p, _) =>
      if CarriesCanary(canary, e) || Remembered(canary, Own(TapsOf(run), edge), p) then [DeathVote(edge, true, true)]
      else if IsHost(p) && TrustedNow(canary, With(run, e), f) then [MemberEdge(edge, [p], true)]
      else []
    case PathUpdate(edge, f, p, _) =>
      if CarriesCanary(canary, e) then [DeathVote(edge, false, true), DeathVote(edge, false, false)]
      else if IsHost(p) && mirrored && TrustedNow(canary, With(run, e), f) then [MemberEdge(edge, [p], false)]
      else []
  }

  /** In every run, what handling an event sends is exactly: nothing for a session start or an end-of-RIB; one
      hard vote for a session loss; one soft vote for the loss of what is or was the canary, and two "up"
      votes for its announcement; for a host, on a view that can be trusted after the event, one report
      of that prefix, down if withdrawn and up if announced; and nothing else. An announced host is mirrored,
      unless no canary is configured and it carries the zero community. */
  lemma NewReportsExactly(canary: LargeCommunity, run: seq<Action>, e: Event)
    requires IsPath(e) ==> e.family == FamilyOf(e.prefix)
    ensures var mirrored := IsPath(e) && e.prefix in ViewOf(After(canary, EMPTY, run + [Tap(e)]).mirror, e.edge).hosts;
            && NewReports(canary, run, e) == Expected(canary, run, e, mirrored)
            && (e.PathUpdate? && IsHost(e.prefix) && canary !in e.communities ==> mirrored)
  {
    AfterAppend(canary, EMPTY, run, Tap(e));
    if IsPath(e) {
      TapAfter(canary, run, e, e.family);
      SeenMeansHistory(canary, run, e.edge, e.prefix);
    }
    SentBy(canary, After(canary, EMPTY, run), e);
  }

  // The same of one state, in its own terms.
  lemma SentBy(canary: LargeCommunity, s: State, e: Event)
    requires IsPath(e) ==> e.family == FamilyOf(e.prefix)
    ensures var t := Handle(canary, s, e);
            t.sent == s.sent +
              match e
              case PeerUp(_) => []
              case EOR(_, _) => []
              case PeerDown(edge) => [DeathVote(edge, true, false)]
              case Withdrawal(edge, f, p, _) =>
                if CarriesCanary(canary, e) || (edge, p) in s.seen then [DeathVote(edge, true, true)]
                else if IsHost(p) && Valid(ViewOf(t.mirror, edge), f) then [MemberEdge(edge, [p], true)]
                else []
              case PathUpdate(edge, f, p, _) =>
                if CarriesCanary(canary, e) then [DeathVote(edge, false, true), DeathVote(edge, false, false)]
                else if IsHost(p) && p in ViewOf(t.mirror, edge).hosts && Valid(ViewOf(t.mirror, edge), f)
                then [MemberEdge(edge, [p], false)]
                else []
    ensures e.PathUpdate? && IsHost(e.prefix) && canary !in e.communities ==>
              e.prefix in ViewOf(Handle(canary, s, e).mirror, e.edge).hosts
  {
    var t := Handle(canary, s, e);
    assert t.sent == s.sent ==> t.sent == s.sent + [];
  }

  // ---- repairs leave a view in mid-replay alone ----

  /** In every run a drift repair changes nothing unless, on that edge's history, the last session event is
      PeerUp and the family's end-of-RIB came since. */
  lemma UnsettledIsLeftAlone(canary: LargeCommunity, run: seq<Action>, edge: EdgeId, f: Family, ps: seq<Prefix>)
    requires !Replayed(Own(TapsOf(run), edge), f)
    ensures After(canary, EMPTY, run + [Repaired(edge, f, ps)]) == After(canary, EMPTY, run)
  {
    AfterAppend(canary, EMPTY, run, Repaired(edge, f, ps));
    GatesMeanHistory(canary, run, edge);
    SettledExactly(canary, TapsOf(run), edge, f, ps);
    var v, w := ViewOf(After(canary, EMPTY, run).mirror, edge), ViewOf(History(canary, TapsOf(run)), edge);
    assert Gates(v).peerUp == v.peerUp && Gates(v).eor == v.eor;
    assert Gates(w).peerUp == w.peerUp && Gates(w).eor == w.eor;
  }

  // ---- when every loss that shows is reported ----

  // Under these announcers, in every run, a host's withdrawal is reported exactly when the view can be
  // trusted after it.
  ghost predicate AlwaysReported(canary: LargeCommunity, who: Announcers) {
    forall run, e :: WithinAnnouncers(canary, run + [Tap(e)], who) && HostWithdrawal(e) ==>
      (ReportedDown(canary, run, e) <==> TrustedNow(canary, With(run, e), e.family))
  }

  // An edge that announces the canary with a host prefix announces it with no other.
  ghost predicate HostsAlone(who: Announcers) {
    forall x, y :: x in who && y in who && x.0 == y.0 && IsHost(x.1) ==> x == y
  }

  ghost predicate MemoriesWithin(s: State, who: Announcers, edge: EdgeId) {
    && (ViewOf(s.mirror, edge).canaryUp ==> (edge, ViewOf(s.mirror, edge).canaryPrefix) in who)
    && forall p :: (edge, p) in s.seen ==> (edge, p) in who
  }

  lemma {:induction false} MemoriesStayWithin(
    canary: LargeCommunity, run: seq<Action>, who: Announcers, edge: EdgeId)
    requires canary != NO_CANARY && WithinAnnouncers(canary, run, who)
    ensures MemoriesWithin(After(canary, EMPTY, run), who, edge)
    decreases |run|
  {
    if run != [] {
      var front, a := run[..|run| - 1], run[|run| - 1];
      assert run == front + [a];
      WithinParts(canary, front, a, who);
      MemoriesStayWithin(canary, front, who, edge);
      if a.Tap? {
        MemoriesMove(canary, After(canary, EMPTY, front), a.e, edge);
      }
    }
  }

  lemma WithinParts(canary: LargeCommunity, run: seq<Action>, a: Action, who: Announcers)
    requires WithinAnnouncers(canary, run + [a], who)
    ensures WithinAnnouncers(canary, run, who)
    ensures a.Tap? && a.e.PathUpdate? && IsCanary(canary, a.e) ==> (a.e.edge, a.e.prefix) in who
  {
    assert a in run + [a] && forall x <- run :: x in run + [a];
  }

  // A remembered host prefix that is its edge's only one is the guard's canary too, so its withdrawal
  // freezes the view instead of showing the host gone.
  lemma RememberedMeansFrozen(canary: LargeCommunity, run: seq<Action>, e: Event, who: Announcers)
    requires canary != NO_CANARY && HostsAlone(who) && WithinAnnouncers(canary, run, who) && HostWithdrawal(e)
    requires (e.edge, e.prefix) in After(canary, EMPTY, run).seen
    ensures !TrustedNow(canary, With(run, e), e.family)
  {
    var s := After(canary, EMPTY, run);
    MemoriesStayWithin(canary, run, who, e.edge);
    TapAfter(canary, run, e, e.family);
    var v := ViewOf(s.mirror, e.edge);
    assert v.canaryUp ==> (e.edge, e.prefix) == (e.edge, v.canaryPrefix);
    assert !ViewOf(Handle(canary, s, e).mirror, e.edge).canaryUp;
  }

  lemma ReportedWhenAlone(canary: LargeCommunity, run: seq<Action>, e: Event, who: Announcers)
    requires canary == NO_CANARY || HostsAlone(who)
    requires WithinAnnouncers(canary, run + [Tap(e)], who) && HostWithdrawal(e)
    ensures ReportedDown(canary, run, e) <==> TrustedNow(canary, With(run, e), e.family)
  {
    DownReportedExactly(canary, run, e);
    SeenMeansHistory(canary, run, e.edge, e.prefix);
    if Remembered(canary, Own(TapsOf(run), e.edge), e.prefix) {
      WithinParts(canary, run, Tap(e), who);
      RememberedMeansFrozen(canary, run, e, who);
    }
  }

  // The canary moves from the host prefix p to q; then p is announced as a plain host.
  function MovedCanary(canary: LargeCommunity, edge: EdgeId, p: Prefix, q: Prefix): seq<Action> {
    [Tap(PeerUp(edge)), Tap(PathUpdate(edge, FamilyOf(p), p, [canary])),
     Tap(PathUpdate(edge, FamilyOf(q), q, [canary])), Tap(EOR(edge, FamilyOf(p))),
     Tap(PathUpdate(edge, FamilyOf(p), p, []))]
  }

  lemma MovedCanaryState(canary: LargeCommunity, edge: EdgeId, p: Prefix, q: Prefix)
    requires canary != NO_CANARY && IsHost(p) && p != q
    ensures var s := After(canary, EMPTY, MovedCanary(canary, edge, p, q));
            && ViewOf(s.mirror, edge) == View(true, true, {FamilyOf(p)}, {p}, q) && (edge, p) in s.seen
  {
    var run := MovedCanary(canary, edge, p, q);
    AfterFive(canary, EMPTY, run);
    var s1 := Step(canary, EMPTY, run[0]);
    assert ViewOf(s1.mirror, edge) == NOTHING.(peerUp := true);
    var s2 := Step(canary, s1, run[1]);
    AnnounceEffect(canary, s1, edge, p);
    var s3 := Step(canary, s2, run[2]);
    AnnounceEffect(canary, s2, edge, q);
    var s4 := Step(canary, s3, run[3]);
    assert ViewOf(s4.mirror, edge) == View(true, true, {FamilyOf(p)}, {}, q) && s4.seen == s3.seen;
    var s5 := Step(canary, s4, run[4]);
    assert ViewOf(s5.mirror, edge) == View(true, true, {FamilyOf(p)}, {p}, q) && s5.seen == s4.seen;
  }

  /** For every edge, host prefix and second prefix: once the canary has moved away from the host prefix,
      the host is mirrored, the view can be trusted after its withdrawal, and yet no member report is sent,
      only a soft canary vote. */
  lemma LossGoesUnreported(canary: LargeCommunity, edge: EdgeId, p: Prefix, q: Prefix)
    requires canary != NO_CANARY && IsHost(p) && p != q
    ensures var run, e := MovedCanary(canary, edge, p, q), Withdrawal(edge, FamilyOf(p), p, []);
            && ShouldAdvertise(After(canary, EMPTY, run).mirror, edge, p)
            && TrustedNow(canary, With(run, e), FamilyOf(p)) && !ReportedDown(canary, run, e)
            && NewReports(canary, run, e) == [DeathVote(edge, true, true)]
  {
    var run, e := MovedCanary(canary, edge, p, q), Withdrawal(edge, FamilyOf(p), p, []);
    MovedCanaryState(canary, edge, p, q);
    TapAfter(canary, run, e, FamilyOf(p));
    var s := After(canary, EMPTY, run);
    assert Handle(canary, s, e).sent == s.sent + [DeathVote(edge, true, true)];
  }

  /** In every run, with drift repairs and snapshots anywhere in it, a host's withdrawal is reported exactly
      when the view can be trusted after it, if and only if no canary is configured or no edge announces it
      with two prefixes of which one is a host's. */
  lemma AlwaysReportedExactly(canary: LargeCommunity, who: Announcers)
    ensures AlwaysReported(canary, who) <==> canary == NO_CANARY || HostsAlone(who)
  {
    if canary == NO_CANARY || HostsAlone(who) {
      forall run, e | WithinAnnouncers(canary, run + [Tap(e)], who) && HostWithdrawal(e)
        ensures ReportedDown(canary, run, e) <==> TrustedNow(canary, With(run, e), e.family)
      {
        ReportedWhenAlone(canary, run, e, who);
      }
    } else {
      var x, y :| x in who && y in who && x.0 == y.0 && IsHost(x.1) && x != y;
      var run, e := MovedCanary(canary, x.0, x.1, y.1), Withdrawal(x.0, FamilyOf(x.1), x.1, []);
      LossGoesUnreported(canary, x.0, x.1, y.1);
      assert WithinAnnouncers(canary, run + [Tap(e)], who);
    }
  }

  /** Only withdrawals of hosts ever make a tap event report a member down. */
  lemma OnlyWithdrawalsReportDown(canary: LargeCommunity, s: State, e: Event, i: nat)
    requires |s.sent| <= i < |Handle(canary, s, e).sent|
    requires Handle(canary, s, e).sent[i].MemberEdge? && Handle(canary, s, e).sent[i].down
    ensures e.Withdrawal? && IsHost(e.prefix) && Handle(canary, s, e).sent[i] == MemberEdge(e.edge, [e.prefix], true)
    ensures ShouldWithdraw(Handle(canary, s, e).mirror, e.edge, e.prefix)
  {
  }

  // ---- the drift audit ----

  function Audit(canary: LargeCommunity, g: Mirror, covered: set<EdgeId>, s4: seq<Event>, s6: seq<Event>): Mirror {
    Coverer.Audited(canary, Coverer.Audited(canary, g, covered, IPv4, s4), covered, IPv6, s6)
  }

  // The snapshot shows the true hosts of an edge and family: those it has announced by that edge, and not
  // as the canary.
  ghost predicate Shows(canary: LargeCommunity, truth: View, e: EdgeId, f: Family, snapshot: seq<Event>) {
    forall p :: IsHost(p) && FamilyOf(p) == f ==>
      (p in truth.hosts <==> Coverer.Shown(canary, snapshot, e, p))
  }

  lemma ShownIsAuthoritative(canary: LargeCommunity, truth: View, e: EdgeId, f: Family, snapshot: seq<Event>)
    requires Shows(canary, truth, e, f, snapshot) && forall p <- truth.hosts :: IsHost(p)
    ensures Authoritative(Coverer.SnapshotHosts(canary, e, snapshot), f) == OfFamily(truth.hosts, f)
  {
    forall p
      ensures p in Authoritative(Coverer.SnapshotHosts(canary, e, snapshot), f) <==> p in OfFamily(truth.hosts, f)
    {
      Coverer.SnapshotHostsMeans(canary, e, snapshot, p);
    }
  }

  lemma AuditedView(canary: LargeCommunity, g: Mirror, covered: set<EdgeId>, f: Family, snapshot: seq<Event>, e: EdgeId)
    requires e in covered
    ensures ViewOf(Coverer.Audited(canary, g, covered, f, snapshot), e) ==
            Repair(ViewOf(g, e), f, Coverer.SnapshotHosts(canary, e, snapshot))
  {
  }

  // One pass makes the settled family agree, and leaves agreement on the other one alone.
  lemma PassAgrees(v: View, truth: View, f: Family, ps: seq<Prefix>)
    requires Gates(v) == Gates(truth) && Authoritative(ps, f) == OfFamily(truth.hosts, f)
    requires (forall p <- v.hosts :: IsHost(p)) && forall p <- truth.hosts :: IsHost(p)
    ensures var w := Repair(v, f, ps);
            && Gates(w) == Gates(truth) && (forall p <- w.hosts :: IsHost(p))
            && (Settled(truth, f) ==> Agree(w, truth, f))
            && forall o :: o != f && Agree(v, truth, o) ==> Agree(w, truth, o)
  {
    assert Gates(v).peerUp == v.peerUp && Gates(v).eor == v.eor;
    assert Gates(truth).peerUp == truth.peerUp && Gates(truth).eor == truth.eor;
    if Settled(truth, f) {
      RepairRestores(v, truth, f, ps);
    }
  }

  /** Whatever host events the live stream lost, after one audit against true snapshots a covered edge's
      withdrawals are decided as if nothing had been lost, and so are its advertisements in every
      settled family. */
  lemma AuditMakesLossless(
    canary: LargeCommunity, h: seq<Event>, kept: seq<bool>, covered: set<EdgeId>, s4: seq<Event>, s6: seq<Event>,
    e: EdgeId)
    requires Lossy(canary, h, kept) && e in covered
    requires var truth := ViewOf(History(canary, h), e);
             Shows(canary, truth, e, IPv4, s4) && Shows(canary, truth, e, IPv6, s6)
    ensures var full, fixed := History(canary, h), Audit(canary, History(canary, Arriving(h, kept)), covered, s4, s6);
            forall m ::
              && (ShouldWithdraw(fixed, e, m) <==> ShouldWithdraw(full, e, m))
              && (Settled(ViewOf(full, e), FamilyOf(m)) ==>
                  (ShouldAdvertise(fixed, e, m) <==> ShouldAdvertise(full, e, m)))
  {
    var full, lossy := History(canary, h), History(canary, Arriving(h, kept));
    var truth, v := ViewOf(full, e), ViewOf(lossy, e);
    GatesSurviveLoss(canary, h, kept, e);
    HistoryHostsOnly(canary, h);
    HistoryHostsOnly(canary, Arriving(h, kept));
    var p4, p6 := Coverer.SnapshotHosts(canary, e, s4), Coverer.SnapshotHosts(canary, e, s6);
    ShownIsAuthoritative(canary, truth, e, IPv4, s4);
    ShownIsAuthoritative(canary, truth, e, IPv6, s6);
    PassAgrees(v, truth, IPv4, p4);
    PassAgrees(Repair(v, IPv4, p4), truth, IPv6, p6);
    AuditedView(canary, lossy, covered, IPv4, s4, e);
    AuditedView(canary, Coverer.Audited(canary, lossy, covered, IPv4, s4), covered, IPv6, s6, e);
    SameVerdicts(Repair(Repair(v, IPv4, p4), IPv6, p6), truth);
  }

  lemma SameVerdicts(w: View, truth: View)
    requires Gates(w) == Gates(truth) && forall f :: Settled(truth, f) ==> Agree(w, truth, f)
    ensures forall f :: Valid(w, f) <==> Valid(truth, f)
    ensures forall m :: Settled(truth, FamilyOf(m)) ==> (m in w.hosts <==> m in truth.hosts)
  {
    assert Gates(w).peerUp == w.peerUp && Gates(w).eor == w.eor && Gates(w).canaryUp == w.canaryUp;
    assert Gates(truth).peerUp == truth.peerUp && Gates(truth).eor == truth.eor
        && Gates(truth).canaryUp == truth.canaryUp;
    forall m | Settled(truth, FamilyOf(m))
      ensures m in w.hosts <==> m in truth.hosts
    {
      assert Agree(w, truth, FamilyOf(m));
      assert m in w.hosts <==> m in OfFamily(w.hosts, FamilyOf(m));
      assert m in truth.hosts <==> m in OfFamily(truth.hosts, FamilyOf(m));
    }
  }
}
