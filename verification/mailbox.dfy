/** The latest-wins overflow area of one agent stream, and the stream record that owns it. */
module Mailbox {
  import opened Directives

  // The part of a stream guarded by its pmu lock, with the depth-1 wake token.
  datatype Box = Box(pending: map<Kind, Directive>, needResync: bool, wake: bool)

  const EMPTY := Box(map[], false, false)

  // The locked section of stashPending: newer or equal generations replace.
  function Stash(b: Box, d: Directive): Box {
    if d.kind !in b.pending || d.generation >= b.pending[d.kind].generation
    then b.(pending := b.pending[d.kind := d])
    else b
  }

  // The locked section of markResync.
  function Mark(b: Box): Box {
    b.(needResync := true, pending := b.pending - {DesiredDelta})
  }

  // A non-blocking send on the depth-1 wake channel.
  function Signal(b: Box): Box {
    b.(wake := true)
  }

  // takeNeedResync reads the flag and clears it.
  function ClearResync(b: Box): Box {
    b.(needResync := false)
  }

  // Map iteration order is arbitrary, so any kind of maximal generation may be picked.
  predicate Newest(b: Box, k: Kind) {
    k in b.pending && forall j <- b.pending :: b.pending[j].generation <= b.pending[k].generation
  }

  // takePending removes one directive and re-arms the wake token while any remain.
  function Take(b: Box, k: Kind): Box
    requires k in b.pending
  {
    var rest := b.pending - {k};
    b.(pending := rest, wake := b.wake || rest != map[])
  }

  // One round of the send loop: the wake token is consumed, then one directive is taken.
  function Round(b: Box, k: Kind): Box
    requires k in b.pending
  {
    Take(b.(wake := false), k)
  }

  /** An emptying sequence of rounds: each finds the wake token armed and takes a newest directive. */
  ghost predicate Drains(b: Box, ks: seq<Kind>)
    decreases |ks|
  {
    if ks == [] then b.pending == map[]
    else b.wake && Newest(b, ks[0]) && Drains(Round(b, ks[0]), ks[1..])
  }

  lemma TakeShrinks(b: Box, k: Kind)
    requires k in b.pending
    ensures |Take(b, k).pending| == |b.pending| - 1
  {
    var rest := Take(b, k).pending;
    assert rest.Keys == b.pending.Keys - {k};
    assert |rest.Keys| == |rest| && |b.pending.Keys| == |b.pending|;
  }

  ghost predicate Descending(b: Box, ks: seq<Kind>) {
    && (forall k <- ks :: k in b.pending)
    && (forall i, j :: 0 <= i < j < |ks| ==>
          ks[i] != ks[j] && b.pending[ks[i]].generation >= b.pending[ks[j]].generation)
  }

  // With nothing stashed meanwhile, the pending area empties in exactly one round per kind, and the
  // rounds deliver every pending directive once, in non-increasing generation.
  lemma {:induction false} DrainsInOrder(b: Box, ks: seq<Kind>)
    requires Drains(b, ks)
    ensures |ks| == |b.pending|
    ensures forall k :: k in ks <==> k in b.pending
    ensures Descending(b, ks)
    decreases |ks|
  {
    if ks != [] {
      var k, rest := ks[0], ks[1..];
      assert ks == [k] + rest;
      DrainsInOrder(Round(b, k), rest);
      TakeShrinks(b, k);
      assert Round(b, k).pending == Take(b, k).pending;
      assert forall j <- rest :: j in Take(b, k).pending && j != k && j in b.pending;
      DescendingCons(b, k, rest);
    }
  }

  lemma DescendingCons(b: Box, k: Kind, rest: seq<Kind>)
    requires Newest(b, k) && Descending(Take(b, k), rest)
    ensures Descending(b, [k] + rest)
  {
    var ks := [k] + rest;
    assert forall j <- rest :: j in Take(b, k).pending;
    assert forall j <- ks :: j in b.pending;
    forall i, j | 0 <= i < j < |ks|
      ensures ks[i] != ks[j] && b.pending[ks[i]].generation >= b.pending[ks[j]].generation
    {
      assert ks[j] == rest[j - 1] && rest[j - 1] in Take(b, k).pending;
      if i > 0 {
        assert ks[i] == rest[i - 1] && rest[i - 1] in Take(b, k).pending;
      }
    }
  }

  // Once woken, the loop can always empty the area: every take but the last re-arms the token.
  lemma {:induction false} CanDrain(b: Box) returns (ks: seq<Kind>)
    requires b.pending != map[] ==> b.wake
    ensures Drains(b, ks)
    decreases |b.pending|
  {
    if b.pending == map[] {
      ks := [];
    } else {
      var k := SomeNewest(b);
      TakeShrinks(b, k);
      var rest := CanDrain(Round(b, k));
      ks := [k] + rest;
      assert ks[1..] == rest;
    }
  }

  lemma {:induction false} SomeNewest(b: Box) returns (k: Kind)
    requires b.pending != map[]
    ensures Newest(b, k)
  {
    var seen: set<Kind>, todo := {}, b.pending.Keys;
    k :| k in b.pending;
    while todo != {}
      invariant k in b.pending && seen + todo == b.pending.Keys
      invariant forall j <- seen :: b.pending[j].generation <= b.pending[k].generation
      decreases todo
    {
      var j :| j in todo;
      if b.pending[j].generation > b.pending[k].generation {
        k := j;
      }
      seen, todo := seen + {j}, todo - {j};
    }
  }
}
