/** Driving the tap to exactly the covered edges: the address table and the two-loop diff over it. */
module Coverage {
  import opened Edges
  import opened Wrappers

  // A configured peer; no address stands for one that is empty or does not parse.
  datatype Peer = Peer(address: Option<Addr>)
  type Resolver = map<EdgeId, Peer>

  datatype Error = AddFailed(edge: EdgeId) | RemoveFailed(edge: EdgeId)

  // What the BGP server refuses during one Ensure call: additions by position, removals by edge.
  datatype Faults = Faults(add: set<nat>, remove: set<EdgeId>)

  // Edge to address, losing none of the table's edges.
  ghost predicate Inverts(have: map<EdgeId, Addr>, table: Table) {
    have.Keys == table.Values && forall e <- have :: have[e] in table && table[have[e]] == e
  }

  // Whether the i-th wanted edge is added by an Ensure call that started from `have`.
  predicate Adds(have: map<EdgeId, Addr>, want: seq<EdgeId>, resolve: Resolver, faults: Faults, i: nat) {
    && i < |want| && want[i] !in have && want[i] in resolve
    && resolve[want[i]].address.Some? && i !in faults.add
  }

  function AddLoop(
    table: Table, have: map<EdgeId, Addr>, want: seq<EdgeId>, resolve: Resolver, faults: Faults, n: nat): Table
    requires n <= |want|
  {
    if n == 0 then table
    else
      var t := AddLoop(table, have, want, resolve, faults, n - 1);
      if Adds(have, want, resolve, faults, n - 1) then t[resolve[want[n - 1]].address.value := want[n - 1]] else t
  }

  function Dropped(have: map<EdgeId, Addr>, want: seq<EdgeId>, faults: Faults): set<Addr> {
    set e | e in have && e !in want && e !in faults.remove :: have[e]
  }

  function Ensured(table: Table, have: map<EdgeId, Addr>, want: seq<EdgeId>, resolve: Resolver, faults: Faults): Table {
    AddLoop(table, have, want, resolve, faults, |want|) - Dropped(have, want, faults)
  }

  // The errors name exactly the additions and removals that failed.
  ghost predicate Reports(
    have: map<EdgeId, Addr>, want: seq<EdgeId>, resolve: Resolver, faults: Faults, errs: seq<Error>) {
    && (forall e :: AddFailed(e) in errs <==> AddFails(have, want, resolve, faults, e, |want|))
    && (forall e :: RemoveFailed(e) in errs <==> e in have && e !in want && e in faults.remove)
  }

  class Server {
    var peers: Table

    constructor ()
      ensures peers == map[]
    {
      peers := map[];
    }

    // The inverse of the table, in whatever order the table is walked.
    method Peers() returns (out: map<EdgeId, Addr>)
      ensures Inverts(out, peers)
    {
      out := map[];
      var todo := peers.Keys;
      while todo != {}
        invariant todo <= peers.Keys
        invariant forall e <- out :: out[e] in peers && peers[out[e]] == e
        invariant forall a <- peers :: a !in todo ==> peers[a] in out
        decreases todo
      {
        var a :| a in todo;
        todo := todo - {a};
        out := out[peers[a] := a];
      }
    }

    method AddPeer(e: EdgeId, p: Peer, refused: bool) returns (ok: bool)
      modifies this
      ensures ok == (p.address.Some? && !refused)
      ensures peers == if ok then old(peers)[p.address.value := e] else old(peers)
    {
      if p.address.None? || refused {
        return false;
      }
      peers := peers[p.address.value := e];
      return true;
    }

    method RemovePeer(a: Addr, refused: bool) returns (ok: bool)
      modifies this
      ensures ok == !refused && peers == if ok then old(peers) - {a} else old(peers)
    {
      if refused {
        return false;
      }
      peers := peers - {a};
      return true;
    }

    // Adds what is wanted and not peered, removes what is peered and not wanted; one failure does not
    // stop the rest.
    method Ensure(want: seq<EdgeId>, resolve: Resolver, faults: Faults) returns (errs: seq<Error>)
      modifies this
      ensures exists have :: && Inverts(have, old(peers)) && peers == Ensured(old(peers), have, want, resolve, faults)
                             && Reports(have, want, resolve, faults, errs)
    {
      var have := Peers();
      ghost var before := peers;
      var failed := AddMissing(have, want, resolve, faults);
      errs := DropUnwanted(have, want, faults);
      errs := failed + errs;
      assert peers == Ensured(before, have, want, resolve, faults) && Reports(have, want, resolve, faults, errs);
    }

    method AddMissing(have: map<EdgeId, Addr>, want: seq<EdgeId>, resolve: Resolver, faults: Faults)
      returns (errs: seq<Error>)
      modifies this
      ensures peers == AddLoop(old(peers), have, want, resolve, faults, |want|)
      ensures forall e :: AddFailed(e) in errs <==> AddFails(have, want, resolve, faults, e, |want|)
      ensures forall e :: RemoveFailed(e) !in errs
    {
      errs := [];
      ghost var before := peers;
      var i := 0;
      while i < |want|
        invariant 0 <= i <= |want|
        invariant peers == AddLoop(before, have, want, resolve, faults, i)
        invariant forall e :: AddFailed(e) in errs <==> AddFails(have, want, resolve, faults, e, i)
        invariant forall e :: RemoveFailed(e) !in errs
      {
        var e := want[i];
        ghost var had := errs;
        if e !in have && e in resolve {
          var ok := AddPeer(e, resolve[e], i in faults.add);
          if !ok {
            errs := errs + [AddFailed(e)];
          }
        }
        AddFailsMore(have, want, resolve, faults, i);
        i := i + 1;
      }
    }

    method DropUnwanted(have: map<EdgeId, Addr>, want: seq<EdgeId>, faults: Faults) returns (errs: seq<Error>)
      modifies this
      ensures peers == old(peers) - Dropped(have, want, faults)
      ensures forall e :: RemoveFailed(e) in errs <==> e in have && e !in want && e in faults.remove
      ensures forall e :: AddFailed(e) !in errs
    {
      errs := [];
      var wantSet := set e | e in want;
      ghost var added := peers;
      var todo := have.Keys;
      ghost var gone: set<Addr> := {};
      while todo != {}
        invariant todo <= have.Keys
        invariant gone == set e | e in have && e !in todo && e !in want && e !in faults.remove :: have[e]
        invariant peers == added - gone
        invariant forall e :: RemoveFailed(e) in errs <==> e in have && e !in todo && e !in want && e in faults.remove
        invariant forall e :: AddFailed(e) !in errs
        decreases todo
      {
        var e :| e in todo;
        todo := todo - {e};
        if e !in wantSet {
          var ok := RemovePeer(have[e], e in faults.remove);
          if !ok {
            errs := errs + [RemoveFailed(e)];
          } else {
            gone := gone + {have[e]};
          }
        }
      }
      assert gone == Dropped(have, want, faults);
    }
  }

  // One of the first n additions concerns e and fails.
  ghost predicate AddFails(
    have: map<EdgeId, Addr>, want: seq<EdgeId>, resolve: Resolver, faults: Faults, e: EdgeId, n: nat) {
    exists i :: 0 <= i < n <= |want| && AddFailsAt(have, want, resolve, faults, e, i)
  }

  // The i-th wanted edge is e, not peered yet and known to the resolver, but it has no address or its
  // own addition is refused.
  predicate AddFailsAt(have: map<EdgeId, Addr>, want: seq<EdgeId>, resolve: Resolver, faults: Faults, e: EdgeId, i: nat)
    requires i < |want|
  {
    want[i] == e && e !in have && e in resolve && (resolve[e].address.None? || i in faults.add)
  }

  lemma AddFailsMore(have: map<EdgeId, Addr>, want: seq<EdgeId>, resolve: Resolver, faults: Faults, n: nat)
    requires n < |want|
    ensures forall e :: AddFails(have, want, resolve, faults, e, n + 1) <==>
              AddFails(have, want, resolve, faults, e, n) || AddFailsAt(have, want, resolve, faults, e, n)
  {
  }

  // ---- what Ensure achieves ----

  predicate Resolvable(resolve: Resolver, e: EdgeId) {
    e in resolve && resolve[e].address.Some?
  }

  // Every entry is at the address the resolver gives its edge.
  ghost predicate Consistent(table: Table, resolve: Resolver) {
    forall a <- table :: Resolvable(resolve, table[a]) && resolve[table[a]].address.value == a
  }

  ghost predicate InjectiveOn(resolve: Resolver) {
    forall e, f :: Resolvable(resolve, e) && Resolvable(resolve, f) && resolve[e].address == resolve[f].address ==>
        e == f
  }

  predicate Peered(table: Table, e: EdgeId) {
    e in table.Values
  }

  lemma {:induction false} AddLoopConsistent(
    table: Table, have: map<EdgeId, Addr>, want: seq<EdgeId>, resolve: Resolver, faults: Faults, n: nat)
    requires n <= |want| && Consistent(table, resolve)
    ensures Consistent(AddLoop(table, have, want, resolve, faults, n), resolve)
  {
    if n > 0 {
      AddLoopConsistent(table, have, want, resolve, faults, n - 1);
    }
  }

  /** Whatever fails, the table stays the resolver's mapping on its edges, so inverting it loses no
      session: every address is found again under its edge. */
  lemma EnsureKeepsConsistent(
    table: Table, have: map<EdgeId, Addr>, want: seq<EdgeId>, resolve: Resolver, faults: Faults)
    requires Consistent(table, resolve)
    ensures var t := Ensured(table, have, want, resolve, faults);
            && Consistent(t, resolve)
            && forall inv :: Inverts(inv, t) ==> forall a <- t :: t[a] in inv && inv[t[a]] == a
  {
    AddLoopConsistent(table, have, want, resolve, faults, |want|);
  }

  // Some addition of e, which has an address and is not peered yet, is not itself refused.
  ghost predicate AddedOnce(
    have: map<EdgeId, Addr>, want: seq<EdgeId>, resolve: Resolver, faults: Faults, e: EdgeId, n: nat) {
    exists i :: 0 <= i < n <= |want| && want[i] == e && e !in have && Resolvable(resolve, e) && i !in faults.add
  }

  lemma {:induction false} AddLoopPeers(
    table: Table, have: map<EdgeId, Addr>, want: seq<EdgeId>, resolve: Resolver, faults: Faults, n: nat, e: EdgeId)
    requires n <= |want| && Consistent(table, resolve) && InjectiveOn(resolve)
    ensures var t := AddLoop(table, have, want, resolve, faults, n);
            Peered(t, e) <==> Peered(table, e) || AddedOnce(have, want, resolve, faults, e, n)
  {
    if n > 0 {
      AddLoopPeers(table, have, want, resolve, faults, n - 1, e);
      AddLoopConsistent(table, have, want, resolve, faults, n - 1);
      var t, u := AddLoop(table, have, want, resolve, faults, n - 1), AddLoop(table, have, want, resolve, faults, n);
      if Adds(have, want, resolve, faults, n - 1) {
        var x := want[n - 1];
        AddressIsOwn(t, resolve, x);
        PutPeers(t, resolve[x].address.value, x, e);
      }
    }
  }

  // Only the edge itself can sit at its address.
  lemma AddressIsOwn(t: Table, resolve: Resolver, x: EdgeId)
    requires Consistent(t, resolve) && InjectiveOn(resolve) && Resolvable(resolve, x)
    ensures resolve[x].address.value in t ==> t[resolve[x].address.value] == x
  {
  }

  lemma PutPeers(t: Table, a: Addr, x: EdgeId, e: EdgeId)
    requires a in t ==> t[a] == x
    ensures Peered(t[a := x], e) <==> Peered(t, e) || e == x
  {
    var u := t[a := x];
    assert u[a] == x && a in u;
    if Peered(t, e) {
      var b :| b in t && t[b] == e;
      assert b in u && u[b] == e;
    }
  }

  ghost predicate Wanted(
    table: Table, have: map<EdgeId, Addr>, want: seq<EdgeId>, resolve: Resolver, faults: Faults, e: EdgeId) {
    || (e in want && Peered(table, e))
    || AddedOnce(have, want, resolve, faults, e, |want|)
    || (e !in want && Peered(table, e) && e in faults.remove)
  }

  /** After a call an edge is peered exactly if it was wanted and already peered, or wanted, resolvable
      and added without being refused, or unwanted but its removal was refused. */
  lemma EnsurePeersExactly(
    table: Table, have: map<EdgeId, Addr>, want: seq<EdgeId>, resolve: Resolver, faults: Faults, e: EdgeId)
    requires Consistent(table, resolve) && InjectiveOn(resolve) && Inverts(have, table)
    ensures Peered(Ensured(table, have, want, resolve, faults), e) <==> Wanted(table, have, want, resolve, faults, e)
  {
    var t, gone := AddLoop(table, have, want, resolve, faults, |want|), Dropped(have, want, faults);
    AddLoopPeers(table, have, want, resolve, faults, |want|, e);
    AddLoopConsistent(table, have, want, resolve, faults, |want|);
    if Peered(t, e) {
      var a := resolve[e].address.value;
      assert a in t && t[a] == e;
      assert a in gone <==> e in have && e !in want && e !in faults.remove;
      if a !in gone {
        assert (t - gone)[a] == e;
      }
    }
  }

  const NO_FAULTS := Faults({}, {})

  /** A call without failures reaches a fixpoint: the peered edges are the wanted ones that resolve, and
      repeating the call, with any failures, changes nothing. */
  lemma FaultFreeIsFixpoint(
    table: Table, have: map<EdgeId, Addr>, want: seq<EdgeId>, resolve: Resolver,
    again: map<EdgeId, Addr>, faults: Faults)
    requires Consistent(table, resolve) && InjectiveOn(resolve) && Inverts(have, table)
    requires Inverts(again, Ensured(table, have, want, resolve, NO_FAULTS))
    ensures var t := Ensured(table, have, want, resolve, NO_FAULTS);
            && (forall e :: Peered(t, e) <==> e in want && Resolvable(resolve, e))
            && Ensured(t, again, want, resolve, faults) == t
  {
    var t := Ensured(table, have, want, resolve, NO_FAULTS);
    forall e
      ensures Peered(t, e) <==> e in want && Resolvable(resolve, e)
    {
      EnsurePeersExactly(table, have, want, resolve, NO_FAULTS, e);
      if e in want && Resolvable(resolve, e) && !Peered(table, e) {
        var i :| 0 <= i < |want| && want[i] == e;
        assert Adds(have, want, resolve, NO_FAULTS, i);
      }
    }
    forall i: nat | i < |want|
      ensures !Adds(again, want, resolve, faults, i)
    {
      assert want[i] in want;
    }
    AddsNothing(t, again, want, resolve, faults, |want|);
    assert forall e <- again :: Peered(t, e);
    assert Dropped(again, want, faults) == {};
  }

  lemma {:induction false} AddsNothing(
    table: Table, have: map<EdgeId, Addr>, want: seq<EdgeId>, resolve: Resolver, faults: Faults, n: nat)
    requires n <= |want| && forall i: nat :: i < |want| ==> !Adds(have, want, resolve, faults, i)
    ensures AddLoop(table, have, want, resolve, faults, n) == table
  {
    if n > 0 {
      AddsNothing(table, have, want, resolve, faults, n - 1);
    }
  }

  // A fault-free call from an empty table peers every wanted edge that resolves.
  ghost predicate Converges(resolve: Resolver) {
    forall want: seq<EdgeId>, e :: e in want && Resolvable(resolve, e) ==>
      Peered(Ensured(map[], map[], want, resolve, NO_FAULTS), e)
  }

  /** Coverage converges if and only if no two edges resolve to one address. */
  lemma ConvergesExactly(resolve: Resolver)
    ensures Converges(resolve) <==> InjectiveOn(resolve)
  {
    if InjectiveOn(resolve) {
      forall want: seq<EdgeId>, e | e in want && Resolvable(resolve, e)
        ensures Peered(Ensured(map[], map[], want, resolve, NO_FAULTS), e)
      {
        var i :| 0 <= i < |want| && want[i] == e;
        assert Adds(map[], want, resolve, NO_FAULTS, i);
        EnsurePeersExactly(map[], map[], want, resolve, NO_FAULTS, e);
      }
    } else {
      var e, f :| Resolvable(resolve, e) && Resolvable(resolve, f) && e != f
                  && resolve[e].address == resolve[f].address;
      var want := [e, f];
      var a := resolve[e].address.value;
      var one := AddLoop(map[], map[], want, resolve, NO_FAULTS, 1);
      assert AddLoop(map[], map[], want, resolve, NO_FAULTS, 0) == map[];
      assert one == map[a := e];
      var two := AddLoop(map[], map[], want, resolve, NO_FAULTS, 2);
      assert two == one[a := f];
      assert Ensured(map[], map[], want, resolve, NO_FAULTS) == two;
      assert e in want && !Peered(two, e);
    }
  }

  // ---- runs of calls ----

  datatype Call = Call(want: seq<EdgeId>, faults: Faults, have: map<EdgeId, Addr>)

  ghost predicate RunsFrom(table: Table, resolve: Resolver, calls: seq<Call>)
    decreases |calls|
  {
    calls == [] ||
    (Inverts(calls[0].have, table) &&
     RunsFrom(Ensured(table, calls[0].have, calls[0].want, resolve, calls[0].faults), resolve, calls[1..]))
  }

  ghost function AfterCalls(table: Table, resolve: Resolver, calls: seq<Call>): Table
    decreases |calls|
  {
    if calls == [] then table
    else AfterCalls(Ensured(table, calls[0].have, calls[0].want, resolve, calls[0].faults), resolve, calls[1..])
  }

  /** Over every run of calls with arbitrary failures the table agrees with the resolver. */
  lemma {:induction false} RunKeepsConsistent(table: Table, resolve: Resolver, calls: seq<Call>)
    requires Consistent(table, resolve) && RunsFrom(table, resolve, calls)
    ensures Consistent(AfterCalls(table, resolve, calls), resolve)
    decreases |calls|
  {
    if calls != [] {
      var c := calls[0];
      EnsureKeepsConsistent(table, c.have, c.want, resolve, c.faults);
      RunKeepsConsistent(Ensured(table, c.have, c.want, resolve, c.faults), resolve, calls[1..]);
    }
  }
}
