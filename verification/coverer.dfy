/** The coverer's tap handler and drift audit, updating guard, canary memory and report stream in place. */
module Coverer {
  import opened Edges
  import opened Rib
  import opened GuardSpec
  import opened Wrappers
  import G = Guard
  import C = CovererSpec

  class Coverer {
    const guard: G.Guard
    const canary: LargeCommunity
    const chunk: nat              // members per report
    var canarySeen: set<(EdgeId, Prefix)>
    var sent: seq<C.Report>       // everything handed to Send, in order
    var due: seq<(EdgeId, Family)> // end-of-RIB snapshots started and not yet run
    ghost var answered: seq<(EdgeId, Family)>
    ghost var sending: seq<seq<C.Report>>

    ghost predicate Valid()
      reads this, guard, guard.edges.Values
    {
      guard.Valid() && guard.canary == canary && chunk > 0
    }

    ghost function Value(): C.State
      reads this`canarySeen, this`sent, this`due, this`answered, this`sending, guard`edges,
            guard.edges.Values
    {
      C.State(guard.Mirror(), canarySeen, sent, due, answered, sending)
    }

    constructor (guard: G.Guard, canary: LargeCommunity, chunk: nat)
      requires guard.Valid() && guard.canary == canary && chunk > 0
      ensures Valid() && Value() == C.State(guard.Mirror(), {}, [], [], [], [])
      ensures this.guard == guard && this.canary == canary && this.chunk == chunk
    {
      this.guard, this.canary, this.chunk := guard, canary, chunk;
      canarySeen, sent, due, answered, sending := {}, [], [], [], [];
    }

    predicate IsCanary(communities: seq<LargeCommunity>) {
      canary != C.NO_CANARY && canary in communities
    }

    method RememberCanary(e: EdgeId, p: Prefix)
      modifies this`canarySeen
      ensures canarySeen == old(canarySeen) + {(e, p)}
    {
      canarySeen := canarySeen + {(e, p)};
    }

    method ForgetCanary(e: EdgeId, p: Prefix) returns (was: bool)
      modifies this`canarySeen
      ensures was == ((e, p) in old(canarySeen)) && canarySeen == old(canarySeen) - {(e, p)}
    {
      was := (e, p) in canarySeen;
      canarySeen := canarySeen - {(e, p)};
    }

    method ReportDeathVote(e: EdgeId, down: bool, soft: bool)
      modifies this`sent
      ensures sent == old(sent) + [C.DeathVote(e, down, soft)]
    {
      sent := sent + [C.DeathVote(e, down, soft)];
    }

    // Sends the members in bounded batches; an empty set still makes one report.
    method ReportMemberEdge(e: EdgeId, members: seq<Prefix>, down: bool)
      requires chunk > 0
      modifies this`sent
      ensures sent == old(sent) + C.Batches(chunk, e, members, down)
    {
      if |members| == 0 {
        sent := sent + [C.MemberEdge(e, [], down)];
        return;
      }
      ghost var before := sent;
      var start := 0;
      assert members[0..] == members;
      while start < |members|
        invariant 0 <= start <= |members|
        invariant before + C.Batches(chunk, e, members, down) ==
                  if start < |members| then sent + C.Batches(chunk, e, members[start..], down) else sent
      {
        var end := if start + chunk < |members| then start + chunk else |members|;
        ghost var rest, had := members[start..], sent;
        var batch := C.MemberEdge(e, members[start..end], down);
        assert rest[..end - start] == members[start..end] && rest[end - start..] == members[end..];
        if end == |members| {
          assert members[start..end] == rest;
        }
        assert C.Batches(chunk, e, rest, down) ==
               [batch] + if end < |members| then C.Batches(chunk, e, members[end..], down) else [];
        sent := sent + [batch];
        start := end;
        assert had + C.Batches(chunk, e, rest, down) ==
               if end < |members| then sent + C.Batches(chunk, e, members[end..], down) else sent;
      }
    }

    method ReportHost(e: EdgeId, p: Prefix, down: bool)
      requires chunk > 0
      modifies this`sent
      ensures sent == old(sent) + [C.MemberEdge(e, [p], down)]
    {
      ReportMemberEdge(e, [p], down);
    }

    // The synchronous handler of tap events.
    method HandleTap(e: Event)
      requires Valid()
      modifies this`canarySeen, this`sent, this`due, guard, guard.edges.Values
      ensures Valid() && Value() == C.Handle(canary, old(Value()), e)
    {
      var notices, views := guard.OnEvent(e);
      React(e);
    }

    // What follows the guard's fold.
    method React(e: Event)
      requires chunk > 0
      modifies this`canarySeen, this`sent, this`due
      ensures Value() == C.React(canary, old(Value()), e)
    {
      match e {
        case PeerUp(_) =>
        case PeerDown(edge) => ReportDeathVote(edge, true, false);
        case Withdrawal(edge, f, p, communities) => ReactToWithdrawal(edge, f, p, communities);
        case PathUpdate(edge, f, p, communities) => ReactToUpdate(edge, f, p, communities);
        case EOR(edge, f) => due := due + [(edge, f)];
      }
    }

    method ReactToWithdrawal(edge: EdgeId, f: Family, p: Prefix, communities: seq<LargeCommunity>)
      requires chunk > 0
      modifies this`canarySeen, this`sent, this`due
      ensures Value() == C.React(canary, old(Value()), Withdrawal(edge, f, p, communities))
    {
      var lost := IsCanary(communities);
      if !lost {
        lost := ForgetCanary(edge, p);
      }
      if lost {
        ReportDeathVote(edge, true, true);
      } else if IsHost(p) {
        var replayed := guard.ViewValid(edge, f);
        var gone := guard.ShouldWithdraw(edge, p);
        if replayed && gone {
          ReportHost(edge, p, true);
        }
      }
    }

    method ReactToUpdate(edge: EdgeId, f: Family, p: Prefix, communities: seq<LargeCommunity>)
      requires chunk > 0
      modifies this`canarySeen, this`sent, this`due
      ensures Value() == C.React(canary, old(Value()), PathUpdate(edge, f, p, communities))
    {
      if IsCanary(communities) {
        RememberCanary(edge, p);
        ReportDeathVote(edge, false, true);
        ReportDeathVote(edge, false, false);
      } else if IsHost(p) {
        var replayed := guard.ViewValid(edge, f);
        var present := guard.HasHost(edge, p);
        if replayed && present {
          ReportHost(edge, p, false);
        }
      }
    }

    // Reports the whole mirrored host set of an edge and family, in batches.
    method EmitEorSnapshot(e: EdgeId, f: Family)
      requires Valid()
      modifies this`sent
      ensures Valid() && old(sent) <= sent
      ensures C.IsSnapshot(sent[|old(sent)|..], e, OfFamily(ViewOf(guard.Mirror(), e).hosts, f))
    {
      var hosts := guard.HostsByFamily(e, f);
      ReportMemberEdge(e, hosts, false);
      C.BatchesAreFaithful(chunk, e, hosts, false);
      assert sent[|old(sent)|..] == C.Batches(chunk, e, hosts, false);
    }

    // One of the snapshots started by end-of-RIB events runs, with nothing in between.
    method RunDue(i: nat)
      requires Valid() && i < |due|
      modifies this`sent, this`due, this`answered, this`sending
      ensures Valid() && old(sent) <= sent
      ensures C.Answers(old(Value()), i, sent[|old(sent)|..])
      ensures Value() == C.Answered(old(Value()), i, sent[|old(sent)|..])
    {
      ghost var had := sent;
      var (e, f) := due[i];
      EmitEorSnapshot(e, f);
      due, answered, sending := due[..i] + due[i + 1..], answered + [(e, f)], sending + [[]];
      assert had + sent[|had|..] == sent;
    }

    // Reconciles one edge; a repaired edge's host set is reported again, and nothing else is.
    method AuditEdge(e: EdgeId, f: Family, snapshot: seq<Event>)
      requires Valid()
      modifies this`sent, guard`conflictLog, guard`viewLog, guard.edges.Values
      ensures Valid() && old(sent) <= sent
      ensures guard.Mirror() == RepairMirror(old(guard.Mirror()), e, f, SnapshotHosts(canary, e, snapshot))
      ensures Corrected(canary, old(guard.Mirror()), guard.Mirror(), {e}, f, snapshot)
      ensures TellsRepairs(sent[|old(sent)|..], old(guard.Mirror()), guard.Mirror(), f)
    {
      ghost var was, had := guard.Mirror(), sent;
      RepairCorrectsOne(canary, was, e, f, snapshot);
      var drifted := RepairEdge(e, f, snapshot);
      if drifted {
        EmitEorSnapshot(e, f);
        OneSnapshotTells(sent[|had|..], was, guard.Mirror(), e, f);
      } else {
        assert sent[|had|..] == [];
      }
    }

    method RepairEdge(e: EdgeId, f: Family, snapshot: seq<Event>) returns (drifted: bool)
      requires Valid()
      modifies guard`conflictLog, guard`viewLog, guard.edges.Values
      ensures Valid()
      ensures guard.Mirror() == RepairMirror(old(guard.Mirror()), e, f, SnapshotHosts(canary, e, snapshot))
      ensures drifted <==> ViewOf(guard.Mirror(), e) != ViewOf(old(guard.Mirror()), e)
    {
      ghost var was := guard.Mirror();
      var hosts := HostsIn(e, snapshot);
      var missed, stale, settled, notices := guard.ReconcileHosts(e, f, hosts);
      drifted := settled && (missed != [] || stale != []);
      if settled {
        G.DriftShows(was, e, f, hosts, missed, stale);
      }
    }

    // The drift audit of one family: reconciles every covered edge with the snapshot.
    method ReconcileFamily(covered: set<EdgeId>, f: Family, snapshot: seq<Event>)
      requires Valid()
      modifies this`sent, guard`conflictLog, guard`viewLog, guard.edges.Values
      ensures Valid() && old(sent) <= sent
      ensures guard.Mirror() == Audited(canary, old(guard.Mirror()), covered, f, snapshot)
      ensures Corrected(canary, old(guard.Mirror()), guard.Mirror(), covered, f, snapshot)
      ensures TellsRepairs(sent[|old(sent)|..], old(guard.Mirror()), guard.Mirror(), f)
    {
      var todo := covered;
      ghost var was, had := guard.Mirror(), sent;
      assert Audited(canary, was, {}, f, snapshot) == was;
      ghost var done: set<EdgeId> := {};
      while todo != {}
        invariant todo !! done && todo + done == covered && Valid()
        invariant guard.Mirror() == Audited(canary, was, done, f, snapshot)
        invariant had <= sent && TellsRepairs(sent[|had|..], was, guard.Mirror(), f)
        decreases todo
      {
        var e :| e in todo;
        ghost var so := sent;
        todo := todo - {e};
        AuditEdge(e, f, snapshot);
        AuditOneMore(canary, was, done, e, f, snapshot, had, so, sent);
        done := done + {e};
      }
      assert done == covered;
      AuditCorrects(canary, was, covered, f, snapshot);
    }

    // The authoritative hosts of one edge among snapshot events.
    method HostsIn(e: EdgeId, snapshot: seq<Event>) returns (hosts: seq<Prefix>)
      ensures hosts == SnapshotHosts(canary, e, snapshot)
    {
      hosts := [];
      var i := 0;
      while i < |snapshot|
        invariant 0 <= i <= |snapshot| && hosts == SnapshotHosts(canary, e, snapshot[..i])
      {
        var ev := snapshot[i];
        assert snapshot[..i + 1][..i] == snapshot[..i];
        if ev.PathUpdate? && !IsCanary(ev.communities) && IsHost(ev.prefix) && ev.edge == e {
          hosts := hosts + [ev.prefix];
        }
        i := i + 1;
      }
      assert snapshot[..|snapshot|] == snapshot;
    }

    // The drift audit: both families, against a snapshot of each; a snapshot that cannot be had ends it.
    method ReconcileTapView(covered: set<EdgeId>, snapshot4: Option<seq<Event>>, snapshot6: Option<seq<Event>>)
      returns (ok: bool)
      requires Valid()
      modifies this`sent, guard`conflictLog, guard`viewLog, guard.edges.Values
      ensures Valid() && old(sent) <= sent
      ensures ok <==> snapshot4.Some? && snapshot6.Some?
      ensures snapshot4.None? ==> guard.Mirror() == old(guard.Mirror()) && sent == old(sent)
      ensures snapshot4.Some? ==>
                var g4 := Audited(canary, old(guard.Mirror()), covered, IPv4, snapshot4.value);
                if snapshot6.None?
                then && guard.Mirror() == g4
                     && Corrected(canary, old(guard.Mirror()), g4, covered, IPv4, snapshot4.value)
                     && TellsRepairs(sent[|old(sent)|..], old(guard.Mirror()), g4, IPv4)
                else && guard.Mirror() == Audited(canary, g4, covered, IPv6, snapshot6.value)
                     && Corrected(canary, old(guard.Mirror()), g4, covered, IPv4, snapshot4.value)
                     && Corrected(canary, g4, guard.Mirror(), covered, IPv6, snapshot6.value)
                     && TellsBoth(sent[|old(sent)|..], old(guard.Mirror()), g4, guard.Mirror())
    {
      if snapshot4.None? {
        return false;
      }
      ghost var had := sent;
      ReconcileFamily(covered, IPv4, snapshot4.value);
      if snapshot6.None? {
        return false;
      }
      ghost var mid := sent;
      ReconcileFamily(covered, IPv6, snapshot6.value);
      assert sent[|had|..][..|mid| - |had|] == mid[|had|..] && sent[|had|..][|mid| - |had|..] == sent[|mid|..];
      return true;
    }
  }

  function About(rs: seq<C.Report>, e: EdgeId): seq<C.Report> {
    if rs == [] then []
    else About(rs[..|rs| - 1], e) + if rs[|rs| - 1].edge == e then [rs[|rs| - 1]] else []
  }

  lemma {:induction false} AboutConcat(a: seq<C.Report>, b: seq<C.Report>, e: EdgeId)
    ensures About(a + b, e) == About(a, e) + About(b, e)
    decreases |b|
  {
    if b == [] {
      assert a + b == a;
    } else {
      AboutConcat(a, b[..|b| - 1], e);
      assert (a + b)[..|a + b| - 1] == a + b[..|b| - 1];
    }
  }

  lemma {:induction false} AboutOneEdge(rs: seq<C.Report>, x: EdgeId, e: EdgeId)
    requires forall k :: 0 <= k < |rs| ==> rs[k].edge == x
    ensures About(rs, e) == if e == x then rs else []
    decreases |rs|
  {
    if rs != [] {
      var front, last := rs[..|rs| - 1], rs[|rs| - 1];
      AboutOneEdge(front, x, e);
      assert rs == front + [last];
    }
  }

  // An edge is reported on exactly if its view changed, and then with all its hosts of the family.
  ghost predicate Tells(rs: seq<C.Report>, g: Mirror, h: Mirror, f: Family, e: EdgeId) {
    if ViewOf(h, e) != ViewOf(g, e) then C.IsSnapshot(About(rs, e), e, OfFamily(ViewOf(h, e).hosts, f))
    else About(rs, e) == []
  }

  ghost predicate TellsRepairs(rs: seq<C.Report>, g: Mirror, h: Mirror, f: Family) {
    forall e :: Tells(rs, g, h, f, e)
  }

  // First what the IPv4 pass repaired, then what the IPv6 pass did.
  ghost predicate TellsBoth(rs: seq<C.Report>, g: Mirror, m: Mirror, h: Mirror) {
    exists k :: 0 <= k <= |rs| && TellsRepairs(rs[..k], g, m, IPv4) && TellsRepairs(rs[k..], m, h, IPv6)
  }

  lemma OneSnapshotTells(rs: seq<C.Report>, g: Mirror, h: Mirror, e: EdgeId, f: Family)
    requires C.IsSnapshot(rs, e, OfFamily(ViewOf(h, e).hosts, f))
    requires ViewOf(h, e) != ViewOf(g, e) && forall x :: x != e ==> ViewOf(h, x) == ViewOf(g, x)
    ensures TellsRepairs(rs, g, h, f)
  {
    forall x
      ensures Tells(rs, g, h, f, x)
    {
      assert forall k :: 0 <= k < |rs| ==> rs[k] in rs;
      AboutOneEdge(rs, e, x);
    }
  }

  lemma OneMoreRepairTold(a: seq<C.Report>, b: seq<C.Report>, g: Mirror, m: Mirror, h: Mirror, e: EdgeId, f: Family)
    requires TellsRepairs(a, g, m, f) && TellsRepairs(b, m, h, f)
    requires ViewOf(m, e) == ViewOf(g, e) && forall x :: x != e ==> ViewOf(h, x) == ViewOf(m, x)
    ensures TellsRepairs(a + b, g, h, f)
  {
    forall x
      ensures Tells(a + b, g, h, f, x)
    {
      AboutConcat(a, b, x);
      assert Tells(a, g, m, f, x) && Tells(b, m, h, f, x);
      assert About(a, x) + [] == About(a, x) && [] + About(b, x) == About(b, x);
    }
  }

  function SnapshotHosts(canary: LargeCommunity, e: EdgeId, snapshot: seq<Event>): seq<Prefix> {
    if snapshot == [] then []
    else
      var ev := snapshot[|snapshot| - 1];
      SnapshotHosts(canary, e, snapshot[..|snapshot| - 1])
      + if ev.PathUpdate? && !C.IsCanaryHere(canary, ev) && IsHost(ev.prefix) && ev.edge == e then [ev.prefix] else []
  }

  // Every covered edge's view repaired from the snapshot, the others left alone.
  function Audited(canary: LargeCommunity, g: Mirror, covered: set<EdgeId>, f: Family, snapshot: seq<Event>): Mirror {
    map e | e in g :: if e in covered then Repair(g[e], f, SnapshotHosts(canary, e, snapshot)) else g[e]
  }

  // The snapshot has p announced by e, and not as the canary.
  ghost predicate Shown(canary: LargeCommunity, snapshot: seq<Event>, e: EdgeId, p: Prefix) {
    exists i: nat :: ShownAt(canary, snapshot, e, p, i)
  }

  ghost predicate ShownAt(canary: LargeCommunity, snapshot: seq<Event>, e: EdgeId, p: Prefix, i: nat) {
    && i < |snapshot| && snapshot[i].PathUpdate? && snapshot[i].edge == e && snapshot[i].prefix == p
    && (canary == C.NO_CANARY || canary !in snapshot[i].communities)
  }

  lemma {:induction false} SnapshotHostsMeans(canary: LargeCommunity, e: EdgeId, snapshot: seq<Event>, p: Prefix)
    ensures p in SnapshotHosts(canary, e, snapshot) <==> IsHost(p) && Shown(canary, snapshot, e, p)
    decreases |snapshot|
  {
    if snapshot != [] {
      var n := |snapshot| - 1;
      var front := snapshot[..n];
      SnapshotHostsMeans(canary, e, front, p);
      assert ShownAt(canary, snapshot, e, p, n) ==> Shown(canary, snapshot, e, p);
      if i: nat :| ShownAt(canary, front, e, p, i) {
        assert ShownAt(canary, snapshot, e, p, i);
      }
      if i: nat :| ShownAt(canary, snapshot, e, p, i) && i < n {
        assert ShownAt(canary, front, e, p, i);
      }
    }
  }

  // A covered edge whose session is up and whose end-of-RIB of the family was seen mirrors, of that
  // family, exactly the hosts the snapshot shows for it; all else is as before.
  ghost predicate CorrectedAt(
    canary: LargeCommunity, v: View, w: View, audited: bool, f: Family, snapshot: seq<Event>, e: EdgeId) {
    && w.(hosts := {}) == v.(hosts := {})
    && forall p :: p in w.hosts <==>
         if audited && v.peerUp && f in v.eor && FamilyOf(p) == f then IsHost(p) && Shown(canary, snapshot, e, p)
         else p in v.hosts
  }

  ghost predicate Corrected(
    canary: LargeCommunity, g: Mirror, h: Mirror, covered: set<EdgeId>, f: Family, snapshot: seq<Event>) {
    forall e :: CorrectedAt(canary, ViewOf(g, e), ViewOf(h, e), e in covered, f, snapshot, e)
  }

  lemma AuditCorrects(canary: LargeCommunity, g: Mirror, covered: set<EdgeId>, f: Family, snapshot: seq<Event>)
    ensures Corrected(canary, g, Audited(canary, g, covered, f, snapshot), covered, f, snapshot)
  {
    forall e
      ensures CorrectedAt(canary, ViewOf(g, e), ViewOf(Audited(canary, g, covered, f, snapshot), e),
                          e in covered, f, snapshot, e)
    {
      RepairCorrects(canary, ViewOf(g, e), f, snapshot, e);
    }
  }

  lemma RepairCorrects(canary: LargeCommunity, v: View, f: Family, snapshot: seq<Event>, e: EdgeId)
    ensures CorrectedAt(canary, v, Repair(v, f, SnapshotHosts(canary, e, snapshot)), true, f, snapshot, e)
  {
    forall p
      ensures p in SnapshotHosts(canary, e, snapshot) <==> IsHost(p) && Shown(canary, snapshot, e, p)
    {
      SnapshotHostsMeans(canary, e, snapshot, p);
    }
  }

  lemma RepairCorrectsOne(canary: LargeCommunity, g: Mirror, e: EdgeId, f: Family, snapshot: seq<Event>)
    ensures Corrected(canary, g, RepairMirror(g, e, f, SnapshotHosts(canary, e, snapshot)), {e}, f, snapshot)
  {
    AuditCorrects(canary, g, {e}, f, snapshot);
    assert Audited(canary, g, {e}, f, snapshot) == RepairMirror(g, e, f, SnapshotHosts(canary, e, snapshot));
  }

  lemma AuditOneMore(
    canary: LargeCommunity, was: Mirror, done: set<EdgeId>, e: EdgeId, f: Family, snapshot: seq<Event>,
    had: seq<C.Report>, so: seq<C.Report>, now: seq<C.Report>)
    requires e !in done && had <= so <= now
    requires TellsRepairs(so[|had|..], was, Audited(canary, was, done, f, snapshot), f)
    requires var g := Audited(canary, was, done, f, snapshot);
             TellsRepairs(now[|so|..], g, RepairMirror(g, e, f, SnapshotHosts(canary, e, snapshot)), f)
    ensures RepairMirror(Audited(canary, was, done, f, snapshot), e, f, SnapshotHosts(canary, e, snapshot)) ==
            Audited(canary, was, done + {e}, f, snapshot)
    ensures had <= now && TellsRepairs(now[|had|..], was, Audited(canary, was, done + {e}, f, snapshot), f)
  {
    var g, h := Audited(canary, was, done, f, snapshot), Audited(canary, was, done + {e}, f, snapshot);
    assert RepairMirror(g, e, f, SnapshotHosts(canary, e, snapshot)) == h;
    OneMoreRepairTold(so[|had|..], now[|so|..], was, g, h, e, f);
    assert now[|had|..] == so[|had|..] + now[|so|..];
  }
}
