/** A lossy event stream repaired from a snapshot gives the verdicts of a lossless one. */
module GuardRepair {
  import opened Edges
  import opened Rib
  import opened GuardSpec
  import opened GuardTrace

  // Host updates and withdrawals, as the guard reads them; session, EOR and canary events never are.
  predicate HostEvent(canary: LargeCommunity, g: Mirror, e: Event) {
    || (e.PathUpdate? && !IsCanary(canary, e))
    || (e.Withdrawal? && !CanaryRead(canary, ViewOf(g, e.edge), e))
  }

  // A stream that delivers only the events marked true, losing host events at most.
  ghost predicate Lossy(canary: LargeCommunity, h: seq<Event>, kept: seq<bool>) {
    && |kept| == |h|
    && forall i :: 0 <= i < |h| && !kept[i] ==> HostEvent(canary, History(canary, h[..i]), h[i])
  }

  function Arriving(h: seq<Event>, kept: seq<bool>): seq<Event>
    requires |h| == |kept|
  {
    if h == [] then []
    else Arriving(h[..|h| - 1], kept[..|h| - 1]) + if kept[|h| - 1] then [h[|h| - 1]] else []
  }

  // Everything but the hosts.
  function Gates(v: View): View {
    v.(hosts := {})
  }

  lemma HistoryAppend(canary: LargeCommunity, h: seq<Event>, e: Event)
    ensures History(canary, h + [e]) == FoldMirror(canary, History(canary, h), e)
  {
    assert (h + [e])[..|h|] == h;
  }

  // Hosts never decide how an event changes the rest of a view.
  lemma GatesStep(canary: LargeCommunity, v: View, w: View, e: Event)
    requires Gates(v) == Gates(w)
    ensures Gates(Fold(canary, v, e)) == Gates(Fold(canary, w, e))
  {
    assert Gates(v).canaryPrefix == v.canaryPrefix && Gates(w).canaryPrefix == w.canaryPrefix;
    assert Gates(v).eor == v.eor && Gates(w).eor == w.eor;
    assert Gates(v).peerUp == v.peerUp && Gates(w).peerUp == w.peerUp;
    assert Gates(v).canaryUp == v.canaryUp && Gates(w).canaryUp == w.canaryUp;
  }

  lemma HostEventKeepsGates(canary: LargeCommunity, g: Mirror, e: Event, edge: EdgeId)
    requires HostEvent(canary, g, e)
    ensures Gates(ViewOf(FoldMirror(canary, g, e), edge)) == Gates(ViewOf(g, edge))
  {
  }

  lemma LossyPrefix(canary: LargeCommunity, h: seq<Event>, kept: seq<bool>)
    requires Lossy(canary, h, kept) && h != []
    ensures Lossy(canary, h[..|h| - 1], kept[..|h| - 1])
    ensures !kept[|h| - 1] ==> HostEvent(canary, History(canary, h[..|h| - 1]), h[|h| - 1])
  {
    var n := |h| - 1;
    assert forall i :: 0 <= i < n ==> h[..n][..i] == h[..i];
  }

  lemma {:induction false} GatesSurviveLoss(canary: LargeCommunity, h: seq<Event>, kept: seq<bool>, edge: EdgeId)
    requires Lossy(canary, h, kept)
    ensures Gates(ViewOf(History(canary, Arriving(h, kept)), edge)) == Gates(ViewOf(History(canary, h), edge))
    decreases |h|
  {
    if h != [] {
      var n := |h| - 1;
      var front, e := h[..n], h[n];
      LossyPrefix(canary, h, kept);
      GatesSurviveLoss(canary, front, kept[..n], edge);
      var got := Arriving(front, kept[..n]);
      if kept[n] {
        HistoryAppend(canary, got, e);
        GatesStep(canary, ViewOf(History(canary, got), edge), ViewOf(History(canary, front), edge), e);
      } else {
        assert Arriving(h, kept) == got;
        HostEventKeepsGates(canary, History(canary, front), e, edge);
      }
    }
  }

  lemma {:induction false} HistoryHostsOnly(canary: LargeCommunity, h: seq<Event>)
    ensures HostsOnly(History(canary, h))
    decreases |h|
  {
    if h != [] {
      HistoryHostsOnly(canary, h[..|h| - 1]);
      HostsOnlyStep(canary, History(canary, h[..|h| - 1]), h[|h| - 1]);
    }
  }

  /** Both guards answer every question about the family alike. */
  ghost predicate Agree(v: View, w: View, f: Family) {
    Gates(v) == Gates(w) && OfFamily(v.hosts, f) == OfFamily(w.hosts, f)
  }

  // Reconciling a settled view with the true hosts of a family.
  lemma RepairRestores(v: View, truth: View, f: Family, ps: seq<Prefix>)
    requires Gates(v) == Gates(truth) && Settled(truth, f)
    requires (forall p <- v.hosts :: IsHost(p)) && forall p <- truth.hosts :: IsHost(p)
    requires Authoritative(ps, f) == OfFamily(truth.hosts, f)
    ensures Agree(Repair(v, f, ps), truth, f)
    ensures Missed(v, f, ps) == OfFamily(truth.hosts, f) - OfFamily(v.hosts, f)
    ensures Stale(v, f, ps) == OfFamily(v.hosts, f) - OfFamily(truth.hosts, f)
    ensures forall o :: o != f ==> OfFamily(Repair(v, f, ps).hosts, o) == OfFamily(v.hosts, o)
  {
    var w := Repair(v, f, ps);
    forall p
      ensures p in OfFamily(w.hosts, f) <==> p in OfFamily(truth.hosts, f)
    {
      assert p in OfFamily(truth.hosts, f) <==> p in Authoritative(ps, f);
    }
    forall o | o != f
      ensures OfFamily(w.hosts, o) == OfFamily(v.hosts, o)
    {
    }
  }

  // A second pass over a repaired view finds nothing and changes nothing.
  lemma RepairIsIdempotent(v: View, f: Family, ps: seq<Prefix>)
    requires Settled(v, f)
    ensures var w := Repair(v, f, ps);
            Missed(w, f, ps) == {} && Stale(w, f, ps) == {} && Repair(w, f, ps) == w
  {
    var w := Repair(v, f, ps);
    assert w.hosts + {} - {} == w.hosts;
  }

  // Repair touches no other edge, and no view's validity.
  lemma RepairIsLocal(g: Mirror, edge: EdgeId, f: Family, ps: seq<Prefix>)
    ensures var r := RepairMirror(g, edge, f, ps);
            && r.Keys == g.Keys && ValidViews(r) == ValidViews(g)
            && forall e <- g :: Gates(r[e]) == Gates(g[e]) && (e != edge ==> r[e] == g[e])
  {
    var r := RepairMirror(g, edge, f, ps);
    assert forall e <- g :: Gates(r[e]) == Gates(g[e]);
    assert forall e <- g :: r[e].eor == g[e].eor && r[e].peerUp == g[e].peerUp && r[e].canaryUp == g[e].canaryUp;
  }

  /** Take any history and a stream that lost any of its host events. For an edge and family settled in
      the true view, reconciling the lossy mirror with the true hosts makes it give the true verdicts,
      and the drift reported is the exact difference. */
  lemma LossyPlusRepairIsLossless(
    canary: LargeCommunity, h: seq<Event>, kept: seq<bool>, edge: EdgeId, f: Family, ps: seq<Prefix>)
    requires Lossy(canary, h, kept)
    requires var truth := ViewOf(History(canary, h), edge);
             Settled(truth, f) && Authoritative(ps, f) == OfFamily(truth.hosts, f)
    ensures var full, lossy := History(canary, h), History(canary, Arriving(h, kept));
            var fixed := RepairMirror(lossy, edge, f, ps);
            && edge in lossy
            && Agree(fixed[edge], full[edge], f)
            && Missed(lossy[edge], f, ps) == OfFamily(full[edge].hosts, f) - OfFamily(lossy[edge].hosts, f)
            && Stale(lossy[edge], f, ps) == OfFamily(lossy[edge].hosts, f) - OfFamily(full[edge].hosts, f)
            && Missed(fixed[edge], f, ps) == {} && Stale(fixed[edge], f, ps) == {}
            && forall m :: FamilyOf(m) == f ==>
                 && (ShouldWithdraw(fixed, edge, m) <==> ShouldWithdraw(full, edge, m))
                 && (ShouldAdvertise(fixed, edge, m) <==> ShouldAdvertise(full, edge, m))
  {
    var full, lossy := History(canary, h), History(canary, Arriving(h, kept));
    GatesSurviveLoss(canary, h, kept, edge);
    HistoryHostsOnly(canary, h);
    HistoryHostsOnly(canary, Arriving(h, kept));
    RepairRestores(lossy[edge], full[edge], f, ps);
    RepairIsIdempotent(lossy[edge], f, ps);
    var fixed := RepairMirror(lossy, edge, f, ps);
    assert Gates(fixed[edge]) == Gates(full[edge]);
    forall m | FamilyOf(m) == f
      ensures m in fixed[edge].hosts <==> m in full[edge].hosts
    {
      assert m in fixed[edge].hosts <==> m in OfFamily(fixed[edge].hosts, f);
      assert m in full[edge].hosts <==> m in OfFamily(full[edge].hosts, f);
    }
  }

  /** And once in agreement, two views stay in agreement on whatever arrives at both. */
  lemma AgreementLasts(canary: LargeCommunity, v: View, w: View, f: Family, e: Event)
    requires Agree(v, w, f)
    ensures Agree(Fold(canary, v, e), Fold(canary, w, e), f)
  {
    var a, b := Fold(canary, v, e), Fold(canary, w, e);
    assert forall p :: p in OfFamily(v.hosts, f) <==> p in OfFamily(w.hosts, f);
    forall p
      ensures p in OfFamily(a.hosts, f) <==> p in OfFamily(b.hosts, f)
    {
      assert p in OfFamily(v.hosts, f) <==> p in v.hosts && FamilyOf(p) == f;
      assert p in OfFamily(w.hosts, f) <==> p in w.hosts && FamilyOf(p) == f;
      assert Gates(v).canaryPrefix == v.canaryPrefix && Gates(w).canaryPrefix == w.canaryPrefix;
    }
    assert Gates(a) == Fold(canary, Gates(v), e).(hosts := {}) && Gates(b) == Fold(canary, Gates(w), e).(hosts := {});
  }
}
