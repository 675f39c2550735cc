/** The tap producer: session edges synthesized from peer FSM notifications, and paths labelled by edge. */
module Producer {
  import opened Edges
  import opened Rib
  import opened GuardSpec
  import opened Toggles
  import opened Wrappers

  // What the BGP server's watch delivers. An unparseable path prefix is NoPrefix.
  datatype Notification =
    | PeerState(address: Addr, established: bool)
    | PeerOther(address: Addr)
    | Path(address: Addr, withdrawal: bool, prefix: Prefix, communities: seq<LargeCommunity>)
    | EndOfTable(address: Addr, family: Family)

  // The event a notification is normalized to, given who was established; unknown peers are dropped.
  function Normalize(peers: Table, established: set<Addr>, n: Notification): Option<Event> {
    if n.address !in peers then None
    else
      var edge := peers[n.address];
      match n
      case PeerState(a, up) =>
        if up && a !in established then Some(PeerUp(edge))
        else if !up && a in established then Some(PeerDown(edge))
        else None
      case PeerOther(_) => None
      case Path(_, gone, p, communities) =>
        if p == NoPrefix then None
        else if gone then Some(Withdrawal(edge, FamilyOf(p), p, communities))
        else Some(PathUpdate(edge, FamilyOf(p), p, communities))
      case EndOfTable(_, f) => Some(EOR(edge, f))
  }

  function Track(peers: Table, established: set<Addr>, n: Notification): set<Addr> {
    if !n.PeerState? || n.address !in peers then established
    else if n.established then established + {n.address}
    else established - {n.address}
  }

  class Producer {
    const peers: Table
    var established: set<Addr>

    constructor (peers: Table)
      ensures this.peers == peers && established == {}
    {
      this.peers, established := peers, {};
    }

    method PeerEvent(n: Notification) returns (ev: Option<Event>)
      modifies this`established
      ensures n.PeerState? || n.PeerOther? ==> ev == Normalize(peers, old(established), n)
      ensures established == Track(peers, old(established), n)
    {
      if !n.PeerState? || n.address !in peers {
        return None;
      }
      var was := n.address in established;
      if n.established && !was {
        established := established + {n.address};
        return Some(PeerUp(peers[n.address]));
      } else if !n.established && was {
        established := established - {n.address};
        return Some(PeerDown(peers[n.address]));
      }
      return None;
    }
  }

  // The tap with a guard behind it: who is established, the mirror, and the events emitted so far.
  datatype State = State(established: set<Addr>, mirror: Mirror, emitted: seq<Event>)

  const EMPTY := State({}, map[], [])

  function Step(canary: LargeCommunity, peers: Table, s: State, n: Notification): State {
    var ev := Normalize(peers, s.established, n);
    var t := s.(established := Track(peers, s.established, n));
    if ev == None then t
    else t.(mirror := FoldMirror(canary, s.mirror, ev.value), emitted := s.emitted + [ev.value])
  }

  function After(canary: LargeCommunity, peers: Table, run: seq<Notification>): State {
    if run == [] then EMPTY else Step(canary, peers, After(canary, peers, run[..|run| - 1]), run[|run| - 1])
  }

  ghost predicate Injective(peers: Table) {
    forall a, b :: a in peers && b in peers && peers[a] == peers[b] ==> a == b
  }

  // The guard's session flag of an edge is the producer's of its address.
  ghost predicate SessionsAgree(peers: Table, s: State) {
    forall a <- peers :: ViewOf(s.mirror, peers[a]).peerUp <==> a in s.established
  }

  lemma AgreeStep(canary: LargeCommunity, peers: Table, s: State, n: Notification)
    requires Injective(peers) && SessionsAgree(peers, s)
    ensures SessionsAgree(peers, Step(canary, peers, s, n))
  {
    var t := Step(canary, peers, s, n);
    forall a | a in peers
      ensures ViewOf(t.mirror, peers[a]).peerUp <==> a in t.established
    {
      if n.address in peers && a != n.address {
        assert peers[a] != peers[n.address];
      }
    }
  }

  lemma {:induction false} AgreeRun(canary: LargeCommunity, peers: Table, run: seq<Notification>)
    requires Injective(peers)
    ensures SessionsAgree(peers, After(canary, peers, run))
    decreases |run|
  {
    if run != [] {
      AgreeRun(canary, peers, run[..|run| - 1]);
      AgreeStep(canary, peers, After(canary, peers, run[..|run| - 1]), run[|run| - 1]);
    }
  }

  /** Producer and guard agree on every session after every run of notifications if and only if no two
      peer addresses belong to one edge. */
  lemma SessionsAgreeExactly(canary: LargeCommunity, peers: Table)
    ensures (forall run :: SessionsAgree(peers, After(canary, peers, run))) <==> Injective(peers)
  {
    if Injective(peers) {
      forall run
        ensures SessionsAgree(peers, After(canary, peers, run))
      {
        AgreeRun(canary, peers, run);
      }
    } else {
      var a, b :| a in peers && b in peers && peers[a] == peers[b] && a != b;
      SharedEdgeDisagrees(canary, peers, a, b);
    }
  }

  // The session of one address comes up, and with it the edge that the other address shares.
  lemma SharedEdgeDisagrees(canary: LargeCommunity, peers: Table, a: Addr, b: Addr)
    requires a in peers && b in peers && peers[a] == peers[b] && a != b
    ensures !SessionsAgree(peers, After(canary, peers, [PeerState(a, true)]))
  {
    var up := PeerState(a, true);
    var s := After(canary, peers, [up]);
    assert [up][..0] == [] && After(canary, peers, [up][..0]) == EMPTY;
    assert s == Step(canary, peers, EMPTY, up);
    assert Normalize(peers, {}, up) == Some(PeerUp(peers[a])) && Track(peers, {}, up) == {a};
    assert s.established == {a} && s.mirror == FoldMirror(canary, map[], PeerUp(peers[a]));
    assert ViewOf(s.mirror, peers[b]).peerUp && b !in s.established;
  }

  // The session events among those emitted, as switches of the edge.
  function Sessions(emitted: seq<Event>): seq<Toggle<EdgeId>> {
    if emitted == [] then []
    else
      var last := emitted[|emitted| - 1];
      Sessions(emitted[..|emitted| - 1]) + if IsSession(last) then [Toggle(last.edge, last.PeerUp?)] else []
  }

  lemma SessionsAppend(emitted: seq<Event>, e: Event)
    ensures Sessions(emitted + [e]) == Sessions(emitted) + if IsSession(e) then [Toggle(e.edge, e.PeerUp?)] else []
  {
    assert (emitted + [e])[..|emitted|] == emitted;
  }

  function UpEdges(peers: Table, established: set<Addr>): set<EdgeId> {
    set a | a in established && a in peers :: peers[a]
  }

  lemma OneToggle(log: seq<Toggle<EdgeId>>, up: set<EdgeId>, e: EdgeId, on: bool)
    requires Alternates({}, log) && Standing({}, log) == up && (on <==> e !in up)
    ensures Alternates({}, log + [Toggle(e, on)])
    ensures Standing({}, log + [Toggle(e, on)]) == if on then up + {e} else up - {e}
  {
    var one := [Toggle(e, on)];
    assert one[..0] == [] && Standing(up, one[..0]) == up;
    AlternatesConcat({}, log, one);
    StandingConcat({}, log, one);
  }

  lemma UpEdgesMove(peers: Table, established: set<Addr>, a: Addr)
    requires Injective(peers) && established <= peers.Keys && a in peers
    ensures peers[a] in UpEdges(peers, established) <==> a in established
    ensures UpEdges(peers, established + {a}) == UpEdges(peers, established) + {peers[a]}
    ensures UpEdges(peers, established - {a}) == UpEdges(peers, established) - {peers[a]}
  {
  }

  ghost predicate Alternating(peers: Table, s: State) {
    && s.established <= peers.Keys
    && Alternates({}, Sessions(s.emitted)) && Standing({}, Sessions(s.emitted)) == UpEdges(peers, s.established)
  }

  // Anything but a session event leaves the established set and the session log alone.
  lemma SessionsOnlyMove(canary: LargeCommunity, peers: Table, s: State, n: Notification)
    requires s.established <= peers.Keys
    ensures var t, ev := Step(canary, peers, s, n), Normalize(peers, s.established, n);
            if ev.Some? && IsSession(ev.value)
            then && n.address in peers && ev.value.edge == peers[n.address]
                 && Sessions(t.emitted) == Sessions(s.emitted) + [Toggle(peers[n.address], ev.value.PeerUp?)]
                 && (ev.value.PeerUp? <==> n.address !in s.established)
                 && t.established == if ev.value.PeerUp? then s.established + {n.address}
                                     else s.established - {n.address}
            else Sessions(t.emitted) == Sessions(s.emitted) && t.established == s.established
  {
    var t, ev := Step(canary, peers, s, n), Normalize(peers, s.established, n);
    if ev.Some? {
      SessionsAppend(s.emitted, ev.value);
    } else {
      assert t.emitted == s.emitted;
    }
  }

  lemma AlternateStep(canary: LargeCommunity, peers: Table, s: State, n: Notification)
    requires Injective(peers) && Alternating(peers, s)
    ensures Alternating(peers, Step(canary, peers, s, n))
  {
    SessionsOnlyMove(canary, peers, s, n);
    var ev := Normalize(peers, s.established, n);
    if ev.Some? && IsSession(ev.value) {
      UpEdgesMove(peers, s.established, n.address);
      OneToggle(Sessions(s.emitted), UpEdges(peers, s.established), peers[n.address], ev.value.PeerUp?);
    }
  }

  /** Per edge the emitted session events strictly alternate, starting with PeerUp, whatever FSM churn
      lies between; and the edges left up are those whose address is established. */
  lemma {:induction false} SessionEventsAlternate(canary: LargeCommunity, peers: Table, run: seq<Notification>)
    requires Injective(peers)
    ensures Alternating(peers, After(canary, peers, run))
    decreases |run|
  {
    if run != [] {
      SessionEventsAlternate(canary, peers, run[..|run| - 1]);
      AlternateStep(canary, peers, After(canary, peers, run[..|run| - 1]), run[|run| - 1]);
    }
  }

  // ---- what the tap tells the guard about paths ----

  // The address's FSM was last reported established.
  predicate Up(run: seq<Notification>, a: Addr) {
    if run == [] then false
    else
      var n := run[|run| - 1];
      if n.PeerState? && n.address == a then n.established else Up(run[..|run| - 1], a)
  }

  // What came from the address since its session last came up or went down.
  function SessionLog(run: seq<Notification>, a: Addr): seq<Notification> {
    if run == [] then []
    else
      var front, n := run[..|run| - 1], run[|run| - 1];
      if n.address != a then SessionLog(front, a)
      else if n.PeerState? && n.established != Up(front, a) then []
      else SessionLog(front, a) + [n]
  }

  predicate Tagged(canary: LargeCommunity, n: Notification) {
    n.Path? && canary in n.communities
  }

  predicate Concerns(n: Notification, p: Prefix) {
    n.Path? && n.prefix == p
  }

  // The last path notification of p is an announcement.
  ghost predicate AnnouncedLast(log: seq<Notification>, p: Prefix) {
    exists i :: 0 <= i < |log| && AnnouncedLastAt(log, i, p)
  }

  ghost predicate AnnouncedLastAt(log: seq<Notification>, i: nat, p: Prefix) {
    && i < |log| && Concerns(log[i], p) && !log[i].withdrawal
    && forall k :: i < k < |log| ==> !Concerns(log[k], p)
  }

  ghost predicate EndSeen(log: seq<Notification>, f: Family) {
    exists i :: 0 <= i < |log| && log[i].EndOfTable? && log[i].family == f
  }

  ghost predicate Untagged(canary: LargeCommunity, log: seq<Notification>) {
    forall n <- log :: !Tagged(canary, n)
  }

  // A tagged announcement of p that no later path notification touches: neither a withdrawal nor another
  // tagged announcement.
  ghost predicate CanaryHeardAt(canary: LargeCommunity, log: seq<Notification>, i: nat, p: Prefix) {
    && i < |log| && Tagged(canary, log[i]) && !log[i].withdrawal && log[i].prefix == p && p != NoPrefix
    && forall k :: i < k < |log| && log[k].Path? ==> !log[k].withdrawal && !Tagged(canary, log[k])
  }

  lemma AnnouncedLastAppend(log: seq<Notification>, n: Notification, p: Prefix)
    ensures AnnouncedLast(log + [n], p) <==> if Concerns(n, p) then !n.withdrawal else AnnouncedLast(log, p)
  {
    var u := log + [n];
    assert u[|log|] == n && forall i :: 0 <= i < |log| ==> u[i] == log[i];
    if Concerns(n, p) {
      assert !n.withdrawal ==> AnnouncedLastAt(u, |log|, p);
      forall i | 0 <= i < |log|
        ensures !AnnouncedLastAt(u, i, p)
      {
        assert Concerns(u[|log|], p);
      }
    } else {
      forall i | 0 <= i < |log|
        ensures AnnouncedLastAt(u, i, p) <==> AnnouncedLastAt(log, i, p)
      {
        assert AnnouncedLastAt(u, i, p) ==> forall k :: i < k < |log| ==> !Concerns(u[k], p);
      }
      assert !AnnouncedLastAt(u, |log|, p);
    }
  }

  lemma EndSeenAppend(log: seq<Notification>, n: Notification, f: Family)
    ensures EndSeen(log + [n], f) <==> EndSeen(log, f) || (n.EndOfTable? && n.family == f)
  {
    var u := log + [n];
    assert u[|log|] == n && forall i :: 0 <= i < |log| ==> u[i] == log[i];
  }

  // What the guard holds of an edge, read off the notifications of its address.
  ghost predicate Labelled(canary: LargeCommunity, log: seq<Notification>, up: bool, v: View) {
    && v.peerUp == up
    && (forall f :: f in v.eor <==> EndSeen(log, f))
    && (Untagged(canary, log) ==>
          && !v.canaryUp && v.canaryPrefix == NoPrefix
          && forall p :: p in v.hosts <==> IsHost(p) && AnnouncedLast(log, p))
    && (forall i: nat, p :: CanaryHeardAt(canary, log, i, p) ==> v.canaryUp && v.canaryPrefix == p)
  }

  lemma UntaggedAppend(canary: LargeCommunity, log: seq<Notification>, n: Notification)
    ensures Untagged(canary, log + [n]) <==> Untagged(canary, log) && !Tagged(canary, n)
  {
    assert n in log + [n] && forall x <- log :: x in log + [n];
  }

  lemma CanaryHeardAppend(canary: LargeCommunity, log: seq<Notification>, n: Notification, i: nat, p: Prefix)
    requires CanaryHeardAt(canary, log + [n], i, p)
    ensures if i == |log| then Tagged(canary, n) && !n.withdrawal && n.prefix == p && p != NoPrefix
            else CanaryHeardAt(canary, log, i, p) && (n.Path? ==> !n.withdrawal && !Tagged(canary, n))
  {
    var u := log + [n];
    assert u[|log|] == n && forall k :: 0 <= k < |log| ==> u[k] == log[k];
  }

  lemma EventOfAddress(peers: Table, established: set<Addr>, n: Notification)
    requires n.address in peers
    ensures var ev := Normalize(peers, established, n);
            && (ev.Some? ==> ev.value.edge == peers[n.address])
            && (ev.None? <==>
                  n.PeerOther? || (n.Path? && n.prefix == NoPrefix)
                  || (n.PeerState? && (n.established <==> n.address in established)))
  {
  }

  lemma LabelledSession(canary: LargeCommunity, log: seq<Notification>, up: bool, v: View, edge: EdgeId)
    requires Labelled(canary, log, up, v)
    ensures Labelled(canary, [], true, Fold(canary, v, PeerUp(edge)))
    ensures Labelled(canary, [], false, Fold(canary, v, PeerDown(edge)))
  {
  }

  lemma LabelledPath(canary: LargeCommunity, peers: Table, established: set<Addr>, log: seq<Notification>,
                     up: bool, v: View, n: Notification)
    requires Labelled(canary, log, up, v) && n.Path? && n.address in peers
    ensures var ev := Normalize(peers, established, n);
            Labelled(canary, log + [n], up, if ev.Some? then Fold(canary, v, ev.value) else v)
  {
    var ev := Normalize(peers, established, n);
    var w := if ev.Some? then Fold(canary, v, ev.value) else v;
    UntaggedAppend(canary, log, n);
    forall f
      ensures f in w.eor <==> EndSeen(log + [n], f)
    {
      EndSeenAppend(log, n, f);
    }
    forall p | Untagged(canary, log + [n])
      ensures p in w.hosts <==> IsHost(p) && AnnouncedLast(log + [n], p)
    {
      AnnouncedLastAppend(log, n, p);
    }
    forall i: nat, p | CanaryHeardAt(canary, log + [n], i, p)
      ensures w.canaryUp && w.canaryPrefix == p
    {
      CanaryHeardAppend(canary, log, n, i, p);
    }
  }

  lemma LabelledOther(canary: LargeCommunity, peers: Table, established: set<Addr>, log: seq<Notification>,
                      up: bool, v: View, n: Notification)
    requires Labelled(canary, log, up, v) && !n.Path? && n.address in peers
    requires n.PeerState? ==> (n.established <==> n.address in established)
    ensures var ev := Normalize(peers, established, n);
            Labelled(canary, log + [n], up, if ev.Some? then Fold(canary, v, ev.value) else v)
  {
    var ev := Normalize(peers, established, n);
    var w := if ev.Some? then Fold(canary, v, ev.value) else v;
    UntaggedAppend(canary, log, n);
    forall f
      ensures f in w.eor <==> EndSeen(log + [n], f)
    {
      EndSeenAppend(log, n, f);
    }
    forall p
      ensures AnnouncedLast(log + [n], p) <==> AnnouncedLast(log, p)
    {
      AnnouncedLastAppend(log, n, p);
    }
    forall i: nat, p | CanaryHeardAt(canary, log + [n], i, p)
      ensures w.canaryUp && w.canaryPrefix == p
    {
      CanaryHeardAppend(canary, log, n, i, p);
    }
  }

  // What a notification does to the view and the session of address a, whoever it comes from.
  lemma LabelledStep(
    canary: LargeCommunity, peers: Table, s: State, run: seq<Notification>, n: Notification, a: Addr)
    requires Injective(peers) && a in peers && (a in s.established <==> Up(run, a))
    requires Labelled(canary, SessionLog(run, a), Up(run, a), ViewOf(s.mirror, peers[a]))
    ensures var t, all := Step(canary, peers, s, n), run + [n];
            && (a in t.established <==> Up(all, a))
            && Labelled(canary, SessionLog(all, a), Up(all, a), ViewOf(t.mirror, peers[a]))
  {
    var t, all := Step(canary, peers, s, n), run + [n];
    assert all[..|all| - 1] == run;
    var v := ViewOf(s.mirror, peers[a]);
    if n.address != a {
      if n.address in peers {
        EventOfAddress(peers, s.established, n);
        assert peers[n.address] != peers[a];
      }
      assert ViewOf(t.mirror, peers[a]) == v;
    } else if n.PeerState? && n.established != Up(run, a) {
      LabelledSession(canary, SessionLog(run, a), Up(run, a), v, peers[a]);
    } else if n.Path? {
      LabelledPath(canary, peers, s.established, SessionLog(run, a), Up(run, a), v, n);
    } else {
      LabelledOther(canary, peers, s.established, SessionLog(run, a), Up(run, a), v, n);
    }
  }

  /** Over every run of notifications, for a table that gives no edge two addresses: the guard's view of an
      edge is what the notifications of its address since its session changed say. Its session is up as
      last reported; a family's end-of-RIB is in iff its marker came; while nothing carries the canary's
      community the view has no canary, and mirrors exactly the hosts whose last path notification is an
      announcement; and a canary announced, with no withdrawal or other canary after it, is up under its
      prefix. */
  lemma {:induction false} PathsAreLabelled(canary: LargeCommunity, peers: Table, run: seq<Notification>, a: Addr)
    requires Injective(peers) && a in peers
    ensures var s := After(canary, peers, run);
            && (a in s.established <==> Up(run, a))
            && Labelled(canary, SessionLog(run, a), Up(run, a), ViewOf(s.mirror, peers[a]))
    decreases |run|
  {
    if run != [] {
      var front, n := run[..|run| - 1], run[|run| - 1];
      assert run == front + [n];
      PathsAreLabelled(canary, peers, front, a);
      LabelledStep(canary, peers, After(canary, peers, front), front, n, a);
    }
  }

  // An event is complete for its kind, and carries the family of its prefix.
  predicate WellFormedEvent(e: Event) {
    IsPath(e) ==> e.prefix != NoPrefix && e.family == e.prefix.family
  }

  /** Whatever the table, only well-formed events of known edges are emitted. */
  lemma {:induction false} EmittedAreWellFormed(canary: LargeCommunity, peers: Table, run: seq<Notification>)
    ensures forall e <- After(canary, peers, run).emitted :: WellFormedEvent(e) && e.edge in peers.Values
    decreases |run|
  {
    if run != [] {
      var s, n := After(canary, peers, run[..|run| - 1]), run[|run| - 1];
      EmittedAreWellFormed(canary, peers, run[..|run| - 1]);
      if n.address in peers {
        EventOfAddress(peers, s.established, n);
        assert peers[n.address] in peers.Values;
      }
    }
  }
}
