/** The RIB-survival guard: per-edge views updated in place, with the alarms each update raises. */
module Guard {
  import opened Edges
  import opened Rib
  import opened GuardSpec
  import opened GuardAlarms
  import opened Sequences
  import opened TextOrder
  import opened Toggles

  class EdgeView {
    var peerUp: bool
    var canaryUp: bool
    var eor: set<Family>
    var hosts: set<Prefix>
    var canaryPrefix: Prefix

    function Value(): View
      reads this
    {
      View(peerUp, canaryUp, eor, hosts, canaryPrefix)
    }

    constructor ()
      ensures Value() == NOTHING
    {
      peerUp, canaryUp, eor, hosts, canaryPrefix := false, false, {}, {}, NoPrefix;
    }

    method Reset()
      modifies this
      ensures Value() == NOTHING
    {
      peerUp, canaryUp, eor, hosts, canaryPrefix := false, false, {}, {}, NoPrefix;
    }

    method Mend(missed: seq<Prefix>, stale: seq<Prefix>)
      modifies this`hosts
      ensures hosts == old(hosts) + (set p | p in missed) - (set p | p in stale)
    {
      hosts := hosts + (set p | p in missed);
      hosts := hosts - (set p | p in stale);
    }

    method Apply(canary: LargeCommunity, e: Event)
      modifies this
      ensures Value() == Fold(canary, old(Value()), e)
    {
      match e {
        case PeerUp(_) =>
          Reset();
          peerUp := true;
        case PeerDown(_) => Reset();
        case EOR(_, f) => eor := eor + {f};
        case PathUpdate(_, _, p, communities) =>
          if canary in communities {
            canaryUp := true;
            canaryPrefix := p;
          } else if IsHost(p) {
            hosts := hosts + {p};
          }
        case Withdrawal(_, _, p, communities) =>
          if canary in communities || (canaryPrefix != NoPrefix && p == canaryPrefix) {
            canaryUp := false;
          } else {
            hosts := hosts - {p};
          }
      }
    }
  }

  class Guard {
    const canary: LargeCommunity
    const conflictsWired: bool
    const viewsWired: bool
    var edges: map<EdgeId, EdgeView>
    // Every notice handed to the wired handlers so far, in lock order.
    ghost var conflictLog: seq<Toggle<Prefix>>
    ghost var viewLog: seq<Toggle<(EdgeId, Family)>>

    ghost predicate Separate()
      reads this`edges
    {
      forall e, f :: e in edges && f in edges && e != f ==> edges[e] != edges[f]
    }

    ghost function Mirror(): Mirror
      reads this`edges, edges.Values
    {
      map e | e in edges :: edges[e].Value()
    }

    ghost predicate Valid()
      reads this, edges.Values
    {
      && Separate() && HostsOnly(Mirror())
      && (conflictsWired ==> Standing({}, conflictLog) == MultiSourced(Mirror()) && Alternates({}, conflictLog))
      && (viewsWired ==> Standing({}, viewLog) == ValidViews(Mirror()) && Alternates({}, viewLog))
    }

    constructor (canary: LargeCommunity, conflictsWired: bool, viewsWired: bool)
      ensures Valid() && Mirror() == map[] && conflictLog == [] && viewLog == []
      ensures this.canary == canary && this.conflictsWired == conflictsWired && this.viewsWired == viewsWired
    {
      this.canary, this.conflictsWired, this.viewsWired := canary, conflictsWired, viewsWired;
      edges, conflictLog, viewLog := map[], [], [];
    }

    // The edge's view, created when it is first asked for.
    method ViewFor(e: EdgeId) returns (v: EdgeView)
      requires Separate()
      modifies this`edges
      ensures Separate() && e in edges && edges[e] == v
      ensures Mirror() == old(Mirror())[e := ViewOf(old(Mirror()), e)]
      ensures forall x <- edges :: (x in old(edges) && edges[x] == old(edges[x])) || fresh(edges[x])
    {
      if e in edges {
        v := edges[e];
      } else {
        v := new EdgeView();
        edges := edges[e := v];
      }
    }

    method FoldEvent(e: Event)
      requires Separate()
      modifies this`edges, edges.Values
      ensures Separate() && e.edge in edges && Mirror() == FoldMirror(canary, old(Mirror()), e)
      ensures forall x <- edges :: (x in old(edges) && edges[x] == old(edges[x])) || fresh(edges[x])
    {
      var v := ViewFor(e.edge);
      ghost var before := Mirror();
      v.Apply(canary, e);
      OneViewChanged(old(Mirror()), before, Mirror(), e.edge, v.Value());
    }

    method SourcesOf(p: Prefix) returns (srcs: seq<EdgeId>)
      ensures ListsSources(Mirror(), p, srcs) && |srcs| == |Sources(Mirror(), p)|
    {
      srcs := [];
      var todo := edges.Keys;
      while todo != {}
        invariant todo <= edges.Keys && Ascending(srcs)
        invariant forall e :: e in srcs <==> e in edges && e !in todo && p in edges[e].hosts
        decreases todo
      {
        var e :| e in todo;
        todo := todo - {e};
        if p in edges[e].hosts {
          InsertedSorted(srcs, e);
          srcs := InsertSorted(srcs, e);
        }
      }
      AscendingSize(srcs, Sources(Mirror(), p));
    }

    method MultiSourcedAmong(prefixes: seq<Prefix>) returns (out: map<Prefix, bool>)
      ensures forall p :: p in out <==> p in prefixes
      ensures forall p <- out :: out[p] == Multi(Mirror(), p)
    {
      out := map[];
      var i := 0;
      while i < |prefixes|
        invariant 0 <= i <= |prefixes|
        invariant forall p :: p in out <==> p in prefixes[..i]
        invariant forall p <- out :: out[p] == Multi(Mirror(), p)
      {
        var srcs := SourcesOf(prefixes[i]);
        out := out[prefixes[i] := |srcs| > 1];
        i := i + 1;
      }
    }

    method AffectedHosts(e: Event) returns (out: seq<Prefix>)
      ensures Unique(out) && forall p :: p in out <==> p in Affected(canary, Mirror(), e)
    {
      match e {
        case PathUpdate(_, _, p, communities) =>
          out := if canary in communities || !IsHost(p) then [] else [p];
        case Withdrawal(_, _, p, communities) =>
          out := if canary in communities || !IsHost(p) then [] else [p];
        case EOR(_, _) => out := [];
        case _ =>
          out := [];
          if e.edge in edges {
            out := Listed(edges[e.edge].hosts);
          }
      }
    }

    // Compares the sources of the affected prefixes with their status before.
    method ConflictTransitions(affected: seq<Prefix>, before: map<Prefix, bool>, ghost was: Mirror)
      returns (notices: seq<ConflictNotice>)
      requires conflictsWired && Unique(affected) && forall p <- affected :: p in before && before[p] == Multi(was, p)
      requires forall p :: p !in affected ==> (Multi(Mirror(), p) <==> Multi(was, p))
      ensures Alarms(was, Mirror(), notices)
    {
      notices := [];
      var i := 0;
      ghost var g := Mirror();
      while i < |affected|
        invariant 0 <= i <= |affected| && g == Mirror()
        invariant forall n <- notices ::
                  n.prefix in affected[..i] && n.resolved == before[n.prefix] == !Multi(g, n.prefix)
        invariant forall n <- notices :: ListsSources(g, n.prefix, n.edges)
        invariant forall j :: 0 <= j < i && before[affected[j]] != Multi(g, affected[j]) ==>
                  Noticed(notices, affected[j])
        invariant forall j, k :: 0 <= j < k < |notices| ==> notices[j].prefix != notices[k].prefix
      {
        var p := affected[i];
        var srcs := SourcesOf(p);
        ghost var had := notices;
        assert p !in affected[..i];
        if (|srcs| > 1) != before[p] {
          var n := ConflictNotice(p, srcs, !(|srcs| > 1));
          notices := notices + [n];
          assert n in notices && Noticed(notices, p);
          NoticedStays(had, n);
        }
        i := i + 1;
        assert affected[..i] == affected[..i - 1] + [p];
      }
      NoticesExplain(was, g, affected, notices);
    }

    // Compares an edge's validity with that before the fold.
    method ViewTransitions(e: EdgeId, v4Before: bool, v6Before: bool, ghost was: Mirror) returns (out: seq<ViewNotice>)
      requires v4Before == GuardSpec.Valid(ViewOf(was, e), IPv4) && v6Before == GuardSpec.Valid(ViewOf(was, e), IPv6)
      requires e in edges && forall x :: x != e ==> ViewOf(Mirror(), x) == ViewOf(was, x)
      ensures ViewAlarms(was, Mirror(), out)
    {
      out := [];
      var v := edges[e];
      var v4 := v.peerUp && v.canaryUp && IPv4 in v.eor;
      if v4 != v4Before {
        out := out + [ViewNotice(e, IPv4, v4)];
      }
      var v6 := v.peerUp && v.canaryUp && IPv6 in v.eor;
      if v6 != v6Before {
        out := out + [ViewNotice(e, IPv6, v6)];
      }
      ViewNoticesExplain(was, Mirror(), e, out);
    }

    // The critical section of OnEvent: fold, and diff against the state before.
    method Observe(e: Event) returns (notices: seq<ConflictNotice>, views: seq<ViewNotice>)
      requires Separate() && HostsOnly(Mirror())
      modifies this`edges, edges.Values
      ensures Separate() && Mirror() == FoldMirror(canary, old(Mirror()), e)
      ensures if conflictsWired then Alarms(old(Mirror()), Mirror(), notices) else notices == []
      ensures if viewsWired then ViewAlarms(old(Mirror()), Mirror(), views) else views == []
      ensures forall x <- edges :: (x in old(edges) && edges[x] == old(edges[x])) || fresh(edges[x])
    {
      ghost var was := Mirror();
      var affected := AffectedHosts(e);
      var before := MultiSourcedAmong(affected);
      var v4Before := e.edge in edges && IsValid(edges[e.edge], IPv4);
      var v6Before := e.edge in edges && IsValid(edges[e.edge], IPv6);
      FoldEvent(e);
      notices, views := Compare(e, affected, before, v4Before, v6Before, was);
    }

    method Compare(e: Event, affected: seq<Prefix>, before: map<Prefix, bool>,
                   v4Before: bool, v6Before: bool, ghost was: Mirror)
      returns (notices: seq<ConflictNotice>, views: seq<ViewNotice>)
      requires e.edge in edges && HostsOnly(was) && Mirror() == FoldMirror(canary, was, e)
      requires Unique(affected) && forall p :: p in affected <==> p in Affected(canary, was, e)
      requires forall p <- affected :: p in before && before[p] == Multi(was, p)
      requires v4Before == GuardSpec.Valid(ViewOf(was, e.edge), IPv4)
               && v6Before == GuardSpec.Valid(ViewOf(was, e.edge), IPv6)
      ensures if conflictsWired then Alarms(was, Mirror(), notices) else notices == []
      ensures if viewsWired then ViewAlarms(was, Mirror(), views) else views == []
    {
      notices, views := [], [];
      if conflictsWired {
        AffectedCoversAll(canary, was, e, affected);
        notices := ConflictTransitions(affected, before, was);
      }
      if viewsWired {
        views := ViewTransitions(e.edge, v4Before, v6Before, was);
      }
    }

    // Folds one event; the notices go to the wired handlers, in this order, outside the lock.
    method OnEvent(e: Event) returns (notices: seq<ConflictNotice>, views: seq<ViewNotice>)
      requires Valid()
      modifies this, edges.Values
      ensures Valid() && Mirror() == FoldMirror(canary, old(Mirror()), e)
      ensures if conflictsWired then Alarms(old(Mirror()), Mirror(), notices) else notices == []
      ensures if viewsWired then ViewAlarms(old(Mirror()), Mirror(), views) else views == []
      ensures conflictLog == old(conflictLog) + ConflictToggles(notices) && viewLog == old(viewLog) + ViewToggles(views)
      ensures forall x <- edges :: (x in old(edges) && edges[x] == old(edges[x])) || fresh(edges[x])
    {
      ghost var was := Mirror();
      notices, views := Observe(e);
      HostsOnlyStep(canary, was, e);
      LogNotices(was, notices, views);
    }

    // Corrects the edge's hosts of a family to the authoritative ones, reporting the drift repaired.
    method ReconcileHosts(e: EdgeId, f: Family, authoritative: seq<Prefix>)
      returns (missed: seq<Prefix>, stale: seq<Prefix>, settled: bool, notices: seq<ConflictNotice>)
      requires Valid()
      modifies this`conflictLog, this`viewLog, edges.Values
      ensures Valid() && Mirror() == RepairMirror(old(Mirror()), e, f, authoritative)
      ensures settled == Settled(ViewOf(old(Mirror()), e), f)
      ensures settled == (ViewOf(old(Mirror()), e).peerUp && f in ViewOf(old(Mirror()), e).eor)
      ensures !settled ==> missed == [] && stale == [] && Mirror() == old(Mirror())
      ensures settled ==> Unique(missed) && forall p :: p in missed <==> p in Missed(old(Mirror())[e], f, authoritative)
      ensures settled ==> Unique(stale) && forall p :: p in stale <==> p in Stale(old(Mirror())[e], f, authoritative)
      ensures if conflictsWired then Alarms(old(Mirror()), Mirror(), notices) else notices == []
      ensures conflictLog == old(conflictLog) + ConflictToggles(notices) && viewLog == old(viewLog)
    {
      ghost var was := Mirror();
      missed, stale, settled, notices := Mend(e, f, authoritative);
      RepairHostsOnly(was, e, f, authoritative);
      RepairKeepsValidity(was, Reconcile(e, f, authoritative));
      NothingToExplain(ValidViews(was));
      LogNotices(was, notices, []);
    }

    // The critical section of ReconcileHosts.
    method Mend(e: EdgeId, f: Family, authoritative: seq<Prefix>)
      returns (missed: seq<Prefix>, stale: seq<Prefix>, settled: bool, notices: seq<ConflictNotice>)
      requires Separate()
      modifies edges.Values
      ensures Mirror() == RepairMirror(old(Mirror()), e, f, authoritative)
      ensures settled == Settled(ViewOf(old(Mirror()), e), f)
      ensures settled == (ViewOf(old(Mirror()), e).peerUp && f in ViewOf(old(Mirror()), e).eor)
      ensures !settled ==> missed == [] && stale == [] && Mirror() == old(Mirror())
      ensures settled ==> Unique(missed) && forall p :: p in missed <==> p in Missed(old(Mirror())[e], f, authoritative)
      ensures settled ==> Unique(stale) && forall p :: p in stale <==> p in Stale(old(Mirror())[e], f, authoritative)
      ensures if conflictsWired then Alarms(old(Mirror()), Mirror(), notices) else notices == []
    {
      ghost var was := Mirror();
      missed, stale, settled := Drift(e, f, authoritative);
      notices := [];
      if settled && (missed != [] || stale != []) {
        notices := ApplyDrift(e, f, authoritative, missed, stale);
      } else {
        NothingToExplain(MultiSourced(was));
        if settled {
          NoDriftNoRepair(was, e, f, authoritative, missed, stale);
        }
      }
    }

    // The differences, both ways, between a settled view and the authoritative hosts.
    method Drift(e: EdgeId, f: Family, authoritative: seq<Prefix>)
      returns (missed: seq<Prefix>, stale: seq<Prefix>, settled: bool)
      ensures settled == (e in Mirror() && Settled(Mirror()[e], f))
      ensures !settled ==> missed == [] && stale == []
      ensures settled ==> Unique(missed) && forall p :: p in missed <==> p in Missed(Mirror()[e], f, authoritative)
      ensures settled ==> Unique(stale) && forall p :: p in stale <==> p in Stale(Mirror()[e], f, authoritative)
    {
      missed, stale, settled := [], [], false;
      if e !in edges || !edges[e].peerUp || f !in edges[e].eor {
        return;
      }
      settled := true;
      var v := edges[e];
      var auth: set<Prefix> := {};
      var i := 0;
      while i < |authoritative|
        invariant 0 <= i <= |authoritative|
        invariant auth == Authoritative(authoritative[..i], f)
      {
        var p := authoritative[i];
        assert authoritative[..i + 1] == authoritative[..i] + [p];
        if IsHost(p) && FamilyOf(p) == f {
          auth := auth + {p};
        }
        i := i + 1;
      }
      assert authoritative[..|authoritative|] == authoritative;
      var todo := v.hosts;
      while todo != {}
        invariant todo <= v.hosts && Unique(stale)
        invariant forall p :: p in stale <==> p in v.hosts && p !in todo && FamilyOf(p) == f && p !in auth
        decreases todo
      {
        var p :| p in todo;
        todo := todo - {p};
        if FamilyOf(p) == f && p !in auth {
          stale := stale + [p];
        }
      }
      todo := auth;
      while todo != {}
        invariant todo <= auth && Unique(missed)
        invariant forall p :: p in missed <==> p in auth && p !in todo && p !in v.hosts
        decreases todo
      {
        var p :| p in todo;
        todo := todo - {p};
        if p !in v.hosts {
          missed := missed + [p];
        }
      }
    }

    // Adds the missed hosts, removes the stale ones, and diffs the sources of both.
    method ApplyDrift(e: EdgeId, f: Family, authoritative: seq<Prefix>, missed: seq<Prefix>, stale: seq<Prefix>)
      returns (notices: seq<ConflictNotice>)
      requires Separate() && e in edges && Settled(edges[e].Value(), f)
      requires Unique(missed) && forall p :: p in missed <==> p in Missed(edges[e].Value(), f, authoritative)
      requires Unique(stale) && forall p :: p in stale <==> p in Stale(edges[e].Value(), f, authoritative)
      modifies edges[e]
      ensures Mirror() == RepairMirror(old(Mirror()), e, f, authoritative)
      ensures if conflictsWired then Alarms(old(Mirror()), Mirror(), notices) else notices == []
    {
      ghost var was := Mirror();
      var affected := missed + stale;
      var before := MultiSourcedAmong(affected);
      edges[e].Mend(missed, stale);
      RepairedHosts(was[e], f, authoritative, missed, stale);
      OneViewChanged(was, was, Mirror(), e, Repair(was[e], f, authoritative));
      UniqueConcat(missed, stale, was[e].hosts);
      notices := CompareRepair(e, f, authoritative, affected, before, was);
    }

    method CompareRepair(e: EdgeId, f: Family, authoritative: seq<Prefix>,
                         affected: seq<Prefix>, before: map<Prefix, bool>, ghost was: Mirror)
      returns (notices: seq<ConflictNotice>)
      requires e in was && Settled(was[e], f) && Mirror() == RepairMirror(was, e, f, authoritative)
      requires Unique(affected) && forall p <- affected :: p in before && before[p] == Multi(was, p)
      requires forall p :: p in Missed(was[e], f, authoritative) || p in Stale(was[e], f, authoritative) ==>
               p in affected
      ensures if conflictsWired then Alarms(was, Mirror(), notices) else notices == []
    {
      notices := [];
      if conflictsWired {
        RepairCoversAll(was, e, f, authoritative, affected);
        notices := ConflictTransitions(affected, before, was);
      }
    }

    // Every prefix mirrored by more than one edge, with its sources, in the order of the printed prefixes.
    method Conflicts(printed: Prefix -> string) returns (out: Listing)
      ensures forall c <- out :: ListsSources(Mirror(), c.0, c.1)
      ensures forall i, j :: 0 <= i < j < |out| ==> out[i].0 != out[j].0 && Below(printed(out[i].0), printed(out[j].0))
      ensures forall p :: SeveralMirror(Mirror(), p) <==> exists c <- out :: c.0 == p
    {
      var found := ConflictsFound();
      SortedMeans(found, printed);
      out := SortedByText(found, printed);
      assert forall c <- found :: c in out;
      ghost var g := Mirror();
      forall p
        ensures SeveralMirror(g, p) <==> exists c <- out :: c.0 == p
      {
        MultiMeansSeveral(g, p);
      }
    }

    method ConflictsFound() returns (out: Listing)
      ensures forall c <- out :: Multi(Mirror(), c.0) && ListsSources(Mirror(), c.0, c.1)
      ensures Apart(out)
      ensures forall p :: Multi(Mirror(), p) ==> exists c <- out :: c.0 == p
    {
      var byPrefix := SourcesByPrefix();
      out := [];
      var todo := byPrefix.Keys;
      ghost var g := Mirror();
      while todo != {}
        invariant todo <= byPrefix.Keys
        invariant forall c <- out :: c.0 in byPrefix && c.0 !in todo && Multi(g, c.0) && ListsSources(g, c.0, c.1)
        invariant Apart(out)
        invariant forall p <- byPrefix :: p !in todo && Multi(g, p) ==> exists c <- out :: c.0 == p
        decreases todo
      {
        var p :| p in todo;
        todo := todo - {p};
        AscendingSize(byPrefix[p], Sources(g, p));
        ghost var had := out;
        if |byPrefix[p]| > 1 {
          out := out + [(p, byPrefix[p])];
          assert (p, byPrefix[p]) in out && forall c <- had :: c in out;
        }
      }
      forall p | Multi(g, p)
        ensures p in byPrefix
      {
        var e :| e in Sources(g, p);
      }
    }

    method SourcesByPrefix() returns (byPrefix: map<Prefix, seq<EdgeId>>)
      ensures forall p <- byPrefix :: ListsSources(Mirror(), p, byPrefix[p])
      ensures forall e <- edges, p <- edges[e].hosts :: p in byPrefix
    {
      byPrefix := map[];
      var todo := edges.Keys;
      while todo != {}
        invariant todo <= edges.Keys
        invariant forall p <- byPrefix :: Ascending(byPrefix[p])
        invariant forall p <- byPrefix, e :: e in byPrefix[p] <==> e in edges && e !in todo && p in edges[e].hosts
        invariant forall e <- edges, p <- edges[e].hosts :: e !in todo ==> p in byPrefix
        decreases todo
      {
        var e :| e in todo;
        todo := todo - {e};
        var hosts := edges[e].hosts;
        while hosts != {}
          invariant hosts <= edges[e].hosts && e in edges && e !in todo && todo <= edges.Keys
          invariant forall p <- byPrefix :: Ascending(byPrefix[p])
          invariant forall p <- byPrefix, x ::
                      x in byPrefix[p] <==> x in edges && x !in todo && p in edges[x].hosts && (x == e ==> p !in hosts)
          invariant forall x <- edges, p <- edges[x].hosts :: x !in todo && (x == e ==> p !in hosts) ==> p in byPrefix
          decreases hosts
        {
          var p :| p in hosts;
          var had := if p in byPrefix then byPrefix[p] else [];
          InsertedSorted(had, e);
          byPrefix := byPrefix[p := InsertSorted(had, e)];
          hosts := hosts - {p};
        }
      }
    }

    method ViewValid(e: EdgeId, f: Family) returns (r: bool)
      ensures r <==> GuardSpec.Valid(ViewOf(Mirror(), e), f)
    {
      r := e in edges && IsValid(edges[e], f);
    }

    method HasHost(e: EdgeId, p: Prefix) returns (r: bool)
      ensures r <==> GuardSpec.ShouldAdvertise(Mirror(), e, p)
    {
      r := e in edges && p in edges[e].hosts;
    }

    method ShouldWithdraw(e: EdgeId, m: Prefix) returns (r: bool)
      ensures r <==> GuardSpec.ShouldWithdraw(Mirror(), e, m)
    {
      r := e in edges && IsValid(edges[e], FamilyOf(m)) && m !in edges[e].hosts;
    }

    method HostsByFamily(e: EdgeId, f: Family) returns (out: seq<Prefix>)
      ensures Unique(out) && forall p :: p in out <==> p in OfFamily(ViewOf(Mirror(), e).hosts, f)
    {
      out := [];
      if e in edges {
        out := Listed(set p | p in edges[e].hosts && FamilyOf(p) == f);
      }
    }

    // Appends a step's notices to the history.
    ghost method LogNotices(was: Mirror, notices: seq<ConflictNotice>, views: seq<ViewNotice>)
      requires conflictsWired ==>
                 && Standing({}, conflictLog) == MultiSourced(was) && Alternates({}, conflictLog)
                 && Alarms(was, Mirror(), notices)
      requires viewsWired ==>
                 Standing({}, viewLog) == ValidViews(was) && Alternates({}, viewLog) && ViewAlarms(was, Mirror(), views)
      modifies this`conflictLog, this`viewLog
      ensures conflictLog == old(conflictLog) + ConflictToggles(notices) && viewLog == old(viewLog) + ViewToggles(views)
      ensures conflictsWired ==> Standing({}, conflictLog) == MultiSourced(Mirror()) && Alternates({}, conflictLog)
      ensures viewsWired ==> Standing({}, viewLog) == ValidViews(Mirror()) && Alternates({}, viewLog)
    {
      LogConflicts(was, notices);
      LogViews(was, views);
    }

    ghost method LogConflicts(was: Mirror, notices: seq<ConflictNotice>)
      requires conflictsWired ==>
                 && Standing({}, conflictLog) == MultiSourced(was) && Alternates({}, conflictLog)
                 && Alarms(was, Mirror(), notices)
      modifies this`conflictLog
      ensures conflictLog == old(conflictLog) + ConflictToggles(notices)
      ensures conflictsWired ==> Standing({}, conflictLog) == MultiSourced(Mirror()) && Alternates({}, conflictLog)
    {
      if conflictsWired {
        OneMore(conflictLog, ConflictToggles(notices), MultiSourced(was), MultiSourced(Mirror()));
      }
      conflictLog := conflictLog + ConflictToggles(notices);
    }

    ghost method LogViews(was: Mirror, views: seq<ViewNotice>)
      requires viewsWired ==>
                 Standing({}, viewLog) == ValidViews(was) && Alternates({}, viewLog) && ViewAlarms(was, Mirror(), views)
      modifies this`viewLog
      ensures viewLog == old(viewLog) + ViewToggles(views)
      ensures viewsWired ==> Standing({}, viewLog) == ValidViews(Mirror()) && Alternates({}, viewLog)
    {
      if viewsWired {
        OneMore(viewLog, ViewToggles(views), ValidViews(was), ValidViews(Mirror()));
      }
      viewLog := viewLog + ViewToggles(views);
    }
  }

  lemma AffectedCoversAll(canary: LargeCommunity, g: Mirror, e: Event, affected: seq<Prefix>)
    requires HostsOnly(g) && forall p :: p in affected <==> p in Affected(canary, g, e)
    ensures forall p :: p !in affected ==> (Multi(FoldMirror(canary, g, e), p) <==> Multi(g, p))
  {
    forall p | p !in affected
      ensures Multi(FoldMirror(canary, g, e), p) <==> Multi(g, p)
    {
      AffectedCovers(canary, g, e, p);
    }
  }

  lemma UniqueConcat(missed: seq<Prefix>, stale: seq<Prefix>, hosts: set<Prefix>)
    requires Unique(missed) && Unique(stale) && (forall p <- missed :: p !in hosts) && forall p <- stale :: p in hosts
    ensures Unique(missed + stale)
  {
    var both := missed + stale;
    forall i, j | 0 <= i < j < |both|
      ensures both[i] != both[j]
    {
      if i < |missed| <= j {
        assert both[i] in missed && both[j] in stale;
      }
    }
  }

  lemma RepairCoversAll(g: Mirror, e: EdgeId, f: Family, ps: seq<Prefix>, affected: seq<Prefix>)
    requires e in g && Settled(g[e], f)
    requires forall p :: p in Missed(g[e], f, ps) || p in Stale(g[e], f, ps) ==> p in affected
    ensures forall p :: p !in affected ==> (Multi(RepairMirror(g, e, f, ps), p) <==> Multi(g, p))
  {
    forall p | p !in affected
      ensures Multi(RepairMirror(g, e, f, ps), p) <==> Multi(g, p)
    {
      RepairCovers(g, e, f, ps, p);
    }
  }

  lemma RepairedHosts(v: View, f: Family, ps: seq<Prefix>, missed: seq<Prefix>, stale: seq<Prefix>)
    requires Settled(v, f)
    requires forall p :: p in missed <==> p in Missed(v, f, ps)
    requires forall p :: p in stale <==> p in Stale(v, f, ps)
    ensures v.hosts + (set p | p in missed) - (set p | p in stale) == Repair(v, f, ps).hosts
  {
  }

  lemma NoDriftNoRepair(g: Mirror, e: EdgeId, f: Family, ps: seq<Prefix>, missed: seq<Prefix>, stale: seq<Prefix>)
    requires e in g && missed == [] && stale == []
    requires forall p :: p in missed <==> p in Missed(g[e], f, ps)
    requires forall p :: p in stale <==> p in Stale(g[e], f, ps)
    ensures RepairMirror(g, e, f, ps) == g
  {
    assert Repair(g[e], f, ps).hosts == g[e].hosts;
  }

  // Drift is reported exactly when the repair changes the view.
  lemma DriftShows(g: Mirror, e: EdgeId, f: Family, ps: seq<Prefix>, missed: seq<Prefix>, stale: seq<Prefix>)
    requires e in g && Settled(g[e], f)
    requires forall p :: p in missed <==> p in Missed(g[e], f, ps)
    requires forall p :: p in stale <==> p in Stale(g[e], f, ps)
    ensures missed != [] || stale != [] <==> RepairMirror(g, e, f, ps)[e] != g[e]
  {
    var w := Repair(g[e], f, ps);
    if missed != [] {
      assert missed[0] in missed && missed[0] in Missed(g[e], f, ps);
      assert missed[0] in w.hosts && missed[0] !in g[e].hosts;
    } else if stale != [] {
      assert stale[0] in stale && stale[0] in Stale(g[e], f, ps);
      assert stale[0] !in w.hosts && stale[0] in g[e].hosts;
    } else {
      NoDriftNoRepair(g, e, f, ps, missed, stale);
    }
  }

  lemma OneViewChanged(was: Mirror, before: Mirror, now: Mirror, e: EdgeId, v: View)
    requires before == was[e := ViewOf(was, e)]
    requires now.Keys == before.Keys && now[e] == v && forall x <- now :: x != e ==> now[x] == before[x]
    ensures now == was[e := v]
  {
  }

  predicate IsValid(v: EdgeView, f: Family)
    reads v
  {
    v.peerUp && v.canaryUp && f in v.eor
  }

  function InsertSorted(es: seq<EdgeId>, e: EdgeId): seq<EdgeId> {
    if es == [] || es[|es| - 1] < e then es + [e] else InsertSorted(es[..|es| - 1], e) + [es[|es| - 1]]
  }

  lemma {:induction false} InsertedSame(es: seq<EdgeId>, e: EdgeId)
    ensures forall x :: x in InsertSorted(es, e) <==> x in es || x == e
    decreases |es|
  {
    if es != [] && es[|es| - 1] >= e {
      var n := |es| - 1;
      assert es == es[..n] + [es[n]];
      InsertedSame(es[..n], e);
    }
  }

  lemma {:induction false} InsertedSorted(es: seq<EdgeId>, e: EdgeId)
    requires Ascending(es) && e !in es
    ensures Ascending(InsertSorted(es, e)) && forall x :: x in InsertSorted(es, e) <==> x in es || x == e
    decreases |es|
  {
    InsertedSame(es, e);
    if es != [] && es[|es| - 1] >= e {
      var n := |es| - 1;
      var front := InsertSorted(es[..n], e);
      InsertedSorted(es[..n], e);
      assert InsertSorted(es, e) == front + [es[n]];
      forall i | 0 <= i < |front|
        ensures front[i] < es[n]
      {
        assert front[i] in front;
      }
    }
  }

  // The members of a set in some order.
  method Listed<T(==)>(s: set<T>) returns (out: seq<T>)
    ensures Unique(out) && forall x :: x in out <==> x in s
  {
    out := [];
    var todo := s;
    while todo != {}
      invariant todo <= s && Unique(out) && forall x :: x in out <==> x in s && x !in todo
      decreases todo
    {
      var x :| x in todo;
      todo := todo - {x};
      out := out + [x];
    }
  }

  ghost predicate Noticed(ns: seq<ConflictNotice>, p: Prefix) {
    exists n <- ns :: n.prefix == p
  }

  lemma NoticedStays(ns: seq<ConflictNotice>, n: ConflictNotice)
    ensures forall p :: Noticed(ns, p) ==> Noticed(ns + [n], p)
  {
    forall p | Noticed(ns, p)
      ensures Noticed(ns + [n], p)
    {
      var x :| x in ns && x.prefix == p;
      assert x in ns + [n];
    }
  }

  lemma NoticesExplain(was: Mirror, g: Mirror, affected: seq<Prefix>, ns: seq<ConflictNotice>)
    requires forall n <- ns :: n.resolved == Multi(was, n.prefix) == !Multi(g, n.prefix)
    requires forall j, k :: 0 <= j < k < |ns| ==> ns[j].prefix != ns[k].prefix
    requires forall p <- affected :: Multi(was, p) != Multi(g, p) ==> Noticed(ns, p)
    requires forall p :: p !in affected ==> (Multi(g, p) <==> Multi(was, p))
    ensures Explains(MultiSourced(was), MultiSourced(g), ConflictToggles(ns))
  {
    var log := ConflictToggles(ns);
    forall p
      ensures p in MultiSourced(was) <==> Multi(was, p)
      ensures p in MultiSourced(g) <==> Multi(g, p)
    {
      MultiSourcedMeans(was, p);
      MultiSourcedMeans(g, p);
    }
    forall t | t in log
      ensures (t.on <==> t.item in MultiSourced(g)) && (t.on <==> t.item !in MultiSourced(was))
    {
      var i :| 0 <= i < |log| && log[i] == t;
      assert ns[i] in ns;
    }
    forall p | (p in MultiSourced(was)) != (p in MultiSourced(g))
      ensures Named(log, p)
    {
      var n :| n in ns && n.prefix == p;
      var i :| 0 <= i < |ns| && ns[i] == n;
      assert log[i] in log && log[i].item == p;
    }
  }

  lemma ViewNoticesExplain(was: Mirror, g: Mirror, e: EdgeId, vs: seq<ViewNotice>)
    requires forall x :: x != e ==> ViewOf(g, x) == ViewOf(was, x)
    requires vs == ViewChange(was, g, e, IPv4) + ViewChange(was, g, e, IPv6)
    ensures ViewAlarms(was, g, vs)
  {
    var log := ViewToggles(vs);
    forall x: EdgeId, f
      ensures (x, f) in ValidViews(was) <==> GuardSpec.Valid(ViewOf(was, x), f)
      ensures (x, f) in ValidViews(g) <==> GuardSpec.Valid(ViewOf(g, x), f)
    {
    }
    forall i | 0 <= i < |log|
      ensures log[i].item == (vs[i].edge, vs[i].family)
    {
    }
    forall y | (y in ValidViews(was)) != (y in ValidViews(g))
      ensures Named(log, y)
    {
      var (x, f) := y;
      assert x == e;
      var n := ViewNotice(e, f, GuardSpec.Valid(ViewOf(g, e), f));
      assert ViewChange(was, g, e, f) == [n];
      if f == IPv4 {
        assert log[0].item == y && log[0] in log;
      } else {
        assert vs[|vs| - 1] == n;
        assert log[|vs| - 1].item == y && log[|vs| - 1] in log;
      }
    }
  }

  function ViewChange(was: Mirror, g: Mirror, e: EdgeId, f: Family): seq<ViewNotice> {
    var now := GuardSpec.Valid(ViewOf(g, e), f);
    if now == GuardSpec.Valid(ViewOf(was, e), f) then [] else [ViewNotice(e, f, now)]
  }
}
