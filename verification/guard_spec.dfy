/** The mirrored views of the RIB-survival guard as values, and how one event changes them. */
module GuardSpec {
  import opened Edges
  import opened Rib

  // What is known of one edge. canaryPrefix is the prefix last advertised as the canary.
  datatype View = View(
    peerUp: bool, canaryUp: bool, eor: set<Family>, hosts: set<Prefix>, canaryPrefix: Prefix)

  const NOTHING := View(false, false, {}, {}, NoPrefix)

  type Mirror = map<EdgeId, View>

  function ViewOf(g: Mirror, e: EdgeId): View {
    if e in g then g[e] else NOTHING
  }

  // Absence can be trusted: session up, canary up, and the family's end-of-RIB seen.
  predicate Valid(v: View, f: Family) {
    v.peerUp && v.canaryUp && f in v.eor
  }

  // A withdrawal carries no attributes, so the canary's is recognised by the remembered prefix.
  predicate CanaryRead(canary: LargeCommunity, v: View, e: Event)
    requires e.Withdrawal?
  {
    IsCanary(canary, e) || (v.canaryPrefix != NoPrefix && e.prefix == v.canaryPrefix)
  }

  function Fold(canary: LargeCommunity, v: View, e: Event): View {
    match e
    case PeerUp(_) => NOTHING.(peerUp := true)
    case PeerDown(_) => NOTHING
    case EOR(_, f) => v.(eor := v.eor + {f})
    case PathUpdate(_, _, p, _) =>
      if IsCanary(canary, e) then v.(canaryUp := true, canaryPrefix := p)
      else if IsHost(p) then v.(hosts := v.hosts + {p})
      else v
    case Withdrawal(_, _, p, _) =>
      if CanaryRead(canary, v, e) then v.(canaryUp := false) else v.(hosts := v.hosts - {p})
  }

  function FoldMirror(canary: LargeCommunity, g: Mirror, e: Event): Mirror {
    g[e.edge := Fold(canary, ViewOf(g, e.edge), e)]
  }

  predicate ShouldAdvertise(g: Mirror, e: EdgeId, m: Prefix) {
    m in ViewOf(g, e).hosts
  }

  predicate ShouldWithdraw(g: Mirror, e: EdgeId, m: Prefix) {
    Valid(ViewOf(g, e), FamilyOf(m)) && m !in ViewOf(g, e).hosts
  }

  // Only host routes are mirrored.
  ghost predicate HostsOnly(g: Mirror) {
    forall e <- g, p <- g[e].hosts :: IsHost(p)
  }

  lemma HostsOnlyStep(canary: LargeCommunity, g: Mirror, e: Event)
    requires HostsOnly(g)
    ensures HostsOnly(FoldMirror(canary, g, e))
  {
  }

  // ---- repair against an authoritative snapshot ----

  predicate Settled(v: View, f: Family) {
    v.peerUp && f in v.eor
  }

  function Authoritative(ps: seq<Prefix>, f: Family): set<Prefix> {
    set p | p in ps && IsHost(p) && FamilyOf(p) == f
  }

  function OfFamily(ps: set<Prefix>, f: Family): set<Prefix> {
    set p | p in ps && FamilyOf(p) == f
  }

  function Missed(v: View, f: Family, ps: seq<Prefix>): set<Prefix> {
    Authoritative(ps, f) - v.hosts
  }

  function Stale(v: View, f: Family, ps: seq<Prefix>): set<Prefix> {
    OfFamily(v.hosts, f) - Authoritative(ps, f)
  }

  // An unsettled view is left alone.
  function Repair(v: View, f: Family, ps: seq<Prefix>): View {
    if Settled(v, f) then v.(hosts := v.hosts + Missed(v, f, ps) - Stale(v, f, ps)) else v
  }

  function RepairMirror(g: Mirror, e: EdgeId, f: Family, ps: seq<Prefix>): Mirror {
    if e in g then g[e := Repair(g[e], f, ps)] else g
  }

  // ---- multi-sourced prefixes ----

  function Sources(g: Mirror, p: Prefix): set<EdgeId> {
    set e | e in g && p in g[e].hosts
  }

  predicate Multi(g: Mirror, p: Prefix) {
    |Sources(g, p)| > 1
  }

  function MultiSourced(g: Mirror): set<Prefix> {
    set e, p | e in g && p in g[e].hosts && Multi(g, p) :: p
  }

  lemma MultiSourcedMeans(g: Mirror, p: Prefix)
    ensures p in MultiSourced(g) <==> Multi(g, p)
  {
    if Multi(g, p) {
      var e :| e in Sources(g, p);
    }
  }

  function ValidViews(g: Mirror): set<(EdgeId, Family)> {
    set e, f | e in g && f in g[e].eor && Valid(g[e], f) :: (e, f)
  }
}
