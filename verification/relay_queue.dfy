/** The coalescing relay queue of one edge, and why coalescing does not change what an agent ends up with. */
module RelayQueue {
  import opened Edges
  import opened Sequences
  import opened Directives

  // Kinds a full snapshot supersedes.
  predicate Superseded(k: Kind) {
    k == DesiredState || k == DesiredDelta
  }

  // The directives that are independent of desired state, in order.
  function Others(q: seq<Directive>): seq<Directive> {
    if q == [] then []
    else Others(q[..|q| - 1]) + if Superseded(q[|q| - 1].kind) then [] else [q[|q| - 1]]
  }

  // A snapshot drops the desired-state backlog before it; everything else is appended.
  function Coalesce(q: seq<Directive>, d: Directive): seq<Directive> {
    (if d.kind == DesiredState then Others(q) else q) + [d]
  }

  // At most one snapshot is queued, and no desired-state directive waits in front of it.
  ghost predicate Compact(q: seq<Directive>) {
    forall i, j :: 0 <= i < j < |q| && q[j].kind == DesiredState ==>
      q[i].kind != DesiredState && q[i].kind != DesiredDelta
  }

  class EdgeWorker {
    const edge: EdgeId
    var queue: seq<Directive>

    constructor (edge: EdgeId)
      ensures this.edge == edge && queue == []
    {
      this.edge, queue := edge, [];
    }

    method Enqueue(d: Directive)
      modifies this`queue
      ensures queue == Coalesce(old(queue), d)
      ensures old(Compact(queue)) ==> Compact(queue)
    {
      ghost var before := queue;
      if d.kind == DesiredState && |queue| > 0 {
        var kept: seq<Directive> := [];
        var i := 0;
        while i < |queue|
          invariant 0 <= i <= |queue| && queue == before
          invariant kept == Others(before[..i])
        {
          assert before[..i + 1][..i] == before[..i];
          if queue[i].kind != DesiredState && queue[i].kind != DesiredDelta {
            kept := kept + [queue[i]];
          }
          i := i + 1;
        }
        assert before[..|before|] == before;
        queue := kept;
      }
      queue := queue + [d];
      CompactStays(before, d);
    }

    method Pop() returns (d: Directive)
      requires queue != []
      modifies this`queue
      ensures [d] + queue == old(queue)
      ensures old(Compact(queue)) ==> Compact(queue)
    {
      d := queue[0];
      queue := queue[1..];
    }
  }

  lemma {:induction false} OthersAreIndependent(q: seq<Directive>)
    ensures forall d <- Others(q) :: !Superseded(d.kind)
    decreases |q|
  {
    if q != [] {
      OthersAreIndependent(q[..|q| - 1]);
    }
  }

  lemma CompactStays(q: seq<Directive>, d: Directive)
    ensures Compact(q) ==> Compact(Coalesce(q, d))
  {
    if d.kind == DesiredState {
      OthersAreIndependent(q);
      var o := Others(q);
      assert forall i :: 0 <= i < |o| ==> o[i] in o;
    }
  }

  // However far the agent lags, at most one full snapshot is held for it.
  lemma CompactHoldsOneSnapshot(q: seq<Directive>, i: nat, j: nat)
    requires Compact(q) && i < |q| && j < |q| && q[i].kind == q[j].kind == DesiredState
    ensures i == j
  {
  }

  lemma OthersAppend(q: seq<Directive>, d: Directive)
    ensures Others(q + [d]) == Others(q) + if Superseded(d.kind) then [] else [d]
  {
    assert (q + [d])[..|q|] == q;
  }

  lemma {:induction false} OthersConcat(p: seq<Directive>, q: seq<Directive>)
    ensures Others(p + q) == Others(p) + Others(q)
    decreases |q|
  {
    if q == [] {
      assert p + q == p;
    } else {
      OthersConcat(p, q[..|q| - 1]);
      assert (p + q)[..|p + q| - 1] == p + q[..|q| - 1];
    }
  }

  lemma {:induction false} OthersTwice(q: seq<Directive>)
    ensures Others(Others(q)) == Others(q)
    decreases |q|
  {
    if q != [] {
      var front, d := q[..|q| - 1], q[|q| - 1];
      OthersTwice(front);
      OthersAppend(Others(front), d);
      assert Others(front) + [] == Others(front);
    }
  }

  // What an agent does with directives: a snapshot replaces desired state, a delta is any function of
  // it, and the other kinds may touch it too, but what they do besides does not depend on it.
  datatype Semantics<!D, !O> = Semantics(
    snapshot: Directive -> D,
    delta: (D, Directive) -> D,
    touch: (D, O, Directive) -> D,
    other: (O, Directive) -> O)

  datatype Agent<D, O> = Agent(desired: D, other: O)

  function Apply<D, O>(m: Semantics<D, O>, a: Agent<D, O>, d: Directive): Agent<D, O> {
    match d.kind
    case DesiredState => Agent(m.snapshot(d), a.other)
    case DesiredDelta => Agent(m.delta(a.desired, d), a.other)
    case _ => Agent(m.touch(a.desired, a.other, d), m.other(a.other, d))
  }

  function Fold<D, O>(m: Semantics<D, O>, a: Agent<D, O>, q: seq<Directive>): Agent<D, O> {
    if q == [] then a else Apply(m, Fold(m, a, q[..|q| - 1]), q[|q| - 1])
  }

  lemma FoldAppend<D, O>(m: Semantics<D, O>, a: Agent<D, O>, q: seq<Directive>, d: Directive)
    ensures Fold(m, a, q + [d]) == Apply(m, Fold(m, a, q), d)
  {
    assert (q + [d])[..|q|] == q;
  }

  lemma RestMoves<D, O>(m: Semantics<D, O>, a: Agent<D, O>, b: Agent<D, O>, d: Directive)
    requires a.other == b.other
    ensures Apply(m, a, d).other == Apply(m, b, d).other
    ensures Superseded(d.kind) ==> Apply(m, a, d).other == a.other
  {
  }

  lemma {:induction false} FoldConcat<D, O>(m: Semantics<D, O>, a: Agent<D, O>, p: seq<Directive>, q: seq<Directive>)
    ensures Fold(m, a, p + q) == Fold(m, Fold(m, a, p), q)
    decreases |q|
  {
    if q == [] {
      assert p + q == p;
    } else {
      var front := q[..|q| - 1];
      FoldConcat(m, a, p, front);
      assert (p + q)[..|p + q| - 1] == p + front;
    }
  }

  // Dropping desired-state directives leaves the rest of the agent as it was.
  lemma {:induction false} BacklogIsIndependent<D, O>(m: Semantics<D, O>, a: Agent<D, O>, q: seq<Directive>)
    ensures Fold(m, a, Others(q)).other == Fold(m, a, q).other
    decreases |q|
  {
    if q != [] {
      var front, d := q[..|q| - 1], q[|q| - 1];
      BacklogIsIndependent(m, a, front);
      RestMoves(m, Fold(m, a, Others(front)), Fold(m, a, front), d);
      if Superseded(d.kind) {
        assert Others(q) == Others(front);
      } else {
        assert Others(q) == Others(front) + [d];
        FoldAppend(m, a, Others(front), d);
      }
    }
  }

  /** For every agent semantics and whatever was relayed before: coalescing d into the queue has the
      same meaning as appending it. */
  lemma CoalescingPreservesMeaning<D, O>(
    m: Semantics<D, O>, a: Agent<D, O>, p: seq<Directive>, q: seq<Directive>, d: Directive)
    ensures Fold(m, a, p + Coalesce(q, d)) == Apply(m, Fold(m, a, p + q), d)
  {
    if d.kind == DesiredState {
      BacklogIsIndependent(m, Fold(m, a, p), q);
      FoldConcat(m, a, p, Others(q));
      FoldConcat(m, a, p, q);
      assert p + Coalesce(q, d) == (p + Others(q)) + [d];
      FoldAppend(m, a, p + Others(q), d);
    } else {
      assert p + Coalesce(q, d) == (p + q) + [d];
      FoldAppend(m, a, p + q, d);
    }
  }

  // Coalescing only leaves directives out.
  lemma {:induction false} OthersIsSubsequence(p: seq<Directive>, q: seq<Directive>, all: seq<Directive>)
    requires Subsequence(p + q, all)
    ensures Subsequence(p + Others(q), all)
    decreases |q|, |all|
  {
    if q == [] {
      assert p + Others(q) == p + q;
    } else if all != [] {
      var front, d := q[..|q| - 1], q[|q| - 1];
      assert (p + q)[..|p + q| - 1] == p + front && (p + q)[|p + q| - 1] == d;
      var rest := all[..|all| - 1];
      assert all == rest + [all[|all| - 1]];
      if d == all[|all| - 1] {
        OthersIsSubsequence(p, front, rest);
        if Superseded(d.kind) {
          assert p + Others(q) == p + Others(front);
          SkipMore(p + Others(front), rest, d);
        } else {
          assert p + Others(q) == (p + Others(front)) + [d];
          Both(p + Others(front), rest, d);
        }
      } else {
        OthersIsSubsequence(p, q, rest);
        SkipMore(p + Others(q), rest, all[|all| - 1]);
      }
    }
  }

  lemma CoalescingKeepsOrder(p: seq<Directive>, q: seq<Directive>, all: seq<Directive>, d: Directive)
    requires Subsequence(p + q, all)
    ensures Subsequence(p + Coalesce(q, d), all + [d])
  {
    OthersIsSubsequence(p, q, all);
    Both(p + Others(q), all, d);
    Both(p + q, all, d);
    assert p + Coalesce(q, d) == (p + if d.kind == DesiredState then Others(q) else q) + [d];
  }

  // The directives independent of desired state are all kept, in order.
  lemma CoalescingKeepsOthers(p: seq<Directive>, q: seq<Directive>, d: Directive)
    ensures Others(p + Coalesce(q, d)) == Others(p + q + [d])
  {
    var kept := if d.kind == DesiredState then Others(q) else q;
    assert p + Coalesce(q, d) == (p + kept) + [d];
    OthersTwice(q);
    OthersConcat(p, kept);
    OthersConcat(p, q);
    OthersAppend(p + kept, d);
    OthersAppend(p + q, d);
  }
}
