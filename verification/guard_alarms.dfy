/** The guard's notices: unique-advertisement conflicts and view freezes, over whole runs. */
module GuardAlarms {
  import opened Edges
  import opened Rib
  import opened GuardSpec
  import opened Toggles

  datatype ConflictNotice = ConflictNotice(prefix: Prefix, edges: seq<EdgeId>, resolved: bool)

  datatype ViewNotice = ViewNotice(edge: EdgeId, family: Family, valid: bool)

  function ConflictToggles(ns: seq<ConflictNotice>): seq<Toggle<Prefix>> {
    seq(|ns|, i requires 0 <= i < |ns| => Toggle(ns[i].prefix, !ns[i].resolved))
  }

  function ViewToggles(vs: seq<ViewNotice>): seq<Toggle<(EdgeId, Family)>> {
    seq(|vs|, i requires 0 <= i < |vs| => Toggle((vs[i].edge, vs[i].family), vs[i].valid))
  }

  ghost predicate Ascending(es: seq<EdgeId>) {
    forall i, j :: 0 <= i < j < |es| ==> es[i] < es[j]
  }

  // es lists exactly the edges mirroring p, sorted.
  ghost predicate ListsSources(g: Mirror, p: Prefix, es: seq<EdgeId>) {
    Ascending(es) && forall e :: e in es <==> e in g && p in g[e].hosts
  }

  // Two edges mirror p.
  ghost predicate SeveralMirror(g: Mirror, p: Prefix) {
    exists a: EdgeId, b: EdgeId :: a != b && p in ViewOf(g, a).hosts && p in ViewOf(g, b).hosts
  }

  lemma MultiMeansSeveral(g: Mirror, p: Prefix)
    ensures Multi(g, p) <==> SeveralMirror(g, p)
  {
    var s := Sources(g, p);
    if a: EdgeId, b: EdgeId :| a != b && p in ViewOf(g, a).hosts && p in ViewOf(g, b).hosts {
      assert s == {a, b} + (s - {a, b});
    }
    if Multi(g, p) {
      var a :| a in s;
      var rest := s - {a};
      assert s == {a} + rest;
      var b :| b in rest;
      assert p in ViewOf(g, a).hosts && p in ViewOf(g, b).hosts;
    }
  }

  lemma {:induction false} AscendingSize(es: seq<EdgeId>, s: set<EdgeId>)
    requires Ascending(es) && forall e :: e in es <==> e in s
    ensures |es| == |s|
    decreases |es|
  {
    if es != [] {
      var n := |es| - 1;
      AscendingSize(es[..n], s - {es[n]});
    } else {
      assert s == {};
    }
  }

  // The notices of one step name each prefix that crossed between one source and several, once, with
  // its sources after the step.
  ghost predicate Alarms(g: Mirror, after: Mirror, ns: seq<ConflictNotice>) {
    && Explains(MultiSourced(g), MultiSourced(after), ConflictToggles(ns))
    && forall n <- ns :: ListsSources(after, n.prefix, n.edges)
  }

  ghost predicate ViewAlarms(g: Mirror, after: Mirror, vs: seq<ViewNotice>) {
    Explains(ValidViews(g), ValidViews(after), ViewToggles(vs))
  }

  // The prefixes whose sources an event may change.
  function Affected(canary: LargeCommunity, g: Mirror, e: Event): set<Prefix> {
    if IsPath(e) then (if IsCanary(canary, e) || !IsHost(e.prefix) then {} else {e.prefix})
    else if IsSession(e) then ViewOf(g, e.edge).hosts
    else {}
  }

  /** Looking at the affected prefixes alone misses no change. */
  lemma AffectedCovers(canary: LargeCommunity, g: Mirror, e: Event, p: Prefix)
    requires HostsOnly(g) && p !in Affected(canary, g, e)
    ensures Sources(FoldMirror(canary, g, e), p) == Sources(g, p)
  {
    var v, w := ViewOf(g, e.edge), Fold(canary, ViewOf(g, e.edge), e);
    assert p in v.hosts ==> IsHost(p);
    assert p in w.hosts <==> p in v.hosts;
  }

  // The same holds of a repair and the drift it reports.
  lemma RepairCovers(g: Mirror, edge: EdgeId, f: Family, ps: seq<Prefix>, p: Prefix)
    requires edge in g && Settled(g[edge], f) && p !in Missed(g[edge], f, ps) && p !in Stale(g[edge], f, ps)
    ensures Sources(RepairMirror(g, edge, f, ps), p) == Sources(g, p)
  {
    assert p in Repair(g[edge], f, ps).hosts <==> p in g[edge].hosts;
  }

  lemma RepairHostsOnly(g: Mirror, edge: EdgeId, f: Family, ps: seq<Prefix>)
    requires HostsOnly(g)
    ensures HostsOnly(RepairMirror(g, edge, f, ps))
  {
  }

  lemma NothingToExplain<T(!new)>(s: set<T>)
    ensures Explains(s, s, [])
  {
  }

  // ---- runs of events and repairs ----

  datatype Op = Observe(e: Event) | Reconcile(edge: EdgeId, family: Family, authoritative: seq<Prefix>)

  function Step(canary: LargeCommunity, g: Mirror, op: Op): Mirror {
    match op
    case Observe(e) => FoldMirror(canary, g, e)
    case Reconcile(e, f, ps) => RepairMirror(g, e, f, ps)
  }

  ghost predicate RunOf(canary: LargeCommunity, ops: seq<Op>, mirrors: seq<Mirror>) {
    && |mirrors| == |ops| + 1 && mirrors[0] == map[]
    && forall i :: 0 <= i < |ops| ==> mirrors[i + 1] == Step(canary, mirrors[i], ops[i])
  }

  function AllConflictToggles(logs: seq<seq<ConflictNotice>>): seq<Toggle<Prefix>> {
    Flatten(seq(|logs|, i requires 0 <= i < |logs| => ConflictToggles(logs[i])))
  }

  function AllViewToggles(logs: seq<seq<ViewNotice>>): seq<Toggle<(EdgeId, Family)>> {
    Flatten(seq(|logs|, i requires 0 <= i < |logs| => ViewToggles(logs[i])))
  }

  /** Replaying every conflict notice of a run, raises adding and resolves removing, leaves exactly the
      prefixes mirrored by two or more edges; and raises and resolves of a prefix strictly alternate. */
  lemma ConflictNoticesTellAll(
    canary: LargeCommunity, ops: seq<Op>, mirrors: seq<Mirror>, logs: seq<seq<ConflictNotice>>)
    requires RunOf(canary, ops, mirrors) && |logs| == |ops|
    requires forall i :: 0 <= i < |ops| ==> Alarms(mirrors[i], mirrors[i + 1], logs[i])
    ensures forall p :: p in Standing({}, AllConflictToggles(logs)) <==> SeveralMirror(mirrors[|ops|], p)
    ensures Alternates({}, AllConflictToggles(logs))
  {
    var states := seq(|mirrors|, i requires 0 <= i < |mirrors| => MultiSourced(mirrors[i]));
    var toggles := seq(|logs|, i requires 0 <= i < |logs| => ConflictToggles(logs[i]));
    assert states[0] == {};
    forall i | 0 <= i < |toggles|
      ensures Explains(states[i], states[i + 1], toggles[i])
    {
      assert Alarms(mirrors[i], mirrors[i + 1], logs[i]);
    }
    RunRebuilds(states, toggles);
    forall p
      ensures p in states[|ops|] <==> SeveralMirror(mirrors[|ops|], p)
    {
      MultiMeansSeveral(mirrors[|ops|], p);
      MultiSourcedMeans(mirrors[|ops|], p);
    }
  }

  /** Replaying every view notice rebuilds the current validity of every edge and family, freezes and
      thaws strictly alternating from an initial "invalid"; repairs in between add nothing. */
  lemma ViewNoticesTellAll(canary: LargeCommunity, ops: seq<Op>, mirrors: seq<Mirror>, logs: seq<seq<ViewNotice>>)
    requires RunOf(canary, ops, mirrors) && |logs| == |ops|
    requires forall i :: 0 <= i < |ops| ==> ViewAlarms(mirrors[i], mirrors[i + 1], logs[i])
    ensures forall e: EdgeId, f :: (e, f) in Standing({}, AllViewToggles(logs)) <==> Valid(ViewOf(mirrors[|ops|], e), f)
    ensures Alternates({}, AllViewToggles(logs))
    ensures forall i :: 0 <= i < |ops| && ops[i].Reconcile? ==> logs[i] == []
  {
    var states := seq(|mirrors|, i requires 0 <= i < |mirrors| => ValidViews(mirrors[i]));
    var toggles := seq(|logs|, i requires 0 <= i < |logs| => ViewToggles(logs[i]));
    assert states[0] == {};
    forall i | 0 <= i < |toggles|
      ensures Explains(states[i], states[i + 1], toggles[i])
      ensures ops[i].Reconcile? ==> logs[i] == []
    {
      assert ViewAlarms(mirrors[i], mirrors[i + 1], logs[i]);
      if ops[i].Reconcile? {
        RepairKeepsValidity(mirrors[i], ops[i]);
        TogglesChange(states[i], states[i + 1], toggles[i]);
      }
    }
    RunRebuilds(states, toggles);
  }

  lemma TogglesChange<T(!new)>(before: set<T>, after: set<T>, log: seq<Toggle<T>>)
    requires Explains(before, after, log)
    ensures log != [] ==> before != after
  {
    if log != [] {
      assert log[0] in log;
    }
  }

  lemma RepairKeepsValidity(g: Mirror, op: Op)
    requires op.Reconcile?
    ensures ValidViews(RepairMirror(g, op.edge, op.family, op.authoritative)) == ValidViews(g)
  {
    var r := RepairMirror(g, op.edge, op.family, op.authoritative);
    assert forall e <- g :: r[e].eor == g[e].eor && r[e].peerUp == g[e].peerUp && r[e].canaryUp == g[e].canaryUp;
  }
}
