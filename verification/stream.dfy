/** One agent's downlink record, with the calls that update it in place. */
module Stream {
  import opened Directives
  import opened Mailbox
  import opened Wrappers

  // WouldBlock: the call waits for the send loop (or for done), having enqueued nothing.
  datatype PushResult = Accepted | NotSubscribed | WouldBlock

  // A stream record as a value.
  datatype Record = Record(ch: seq<Directive>, queued: int, box: Box, drain: bool, done: bool)

  function Queue(x: Record, d: Directive): Record {
    x.(ch := x.ch + [d], queued := x.queued + d.Size())
  }

  // A chunk is queued, or waits, or is refused by a closed stream; waiting over the budget uses up a
  // drain token that frees too little.
  predicate ChunkPushed(depth: nat, maxBytes: nat, x: Record, d: Directive, r: PushResult, y: Record) {
    if x.queued > 0 && x.queued + d.Size() > maxBytes then
      && r == (if x.done then NotSubscribed else WouldBlock)
      && (y == x.(drain := false) || (x.done && y == x))
    else if |x.ch| < depth then
      (r == Accepted && y == Queue(x, d)) || (x.done && r == NotSubscribed && y == x)
    else
      y == x && r == if x.done then NotSubscribed else WouldBlock
  }

  // The other kinds never wait: what is not queued overflows, unless the budget test sent it to a
  // channel found closed.
  predicate OtherPushed(depth: nat, maxBytes: nat, x: Record, d: Directive, r: PushResult, y: Record) {
    var fits := x.queued + d.Size() <= maxBytes;
    if fits && |x.ch| < depth then
      (r == Accepted && y == Queue(x, d)) || (x.done && r == NotSubscribed && y == x)
    else if fits && x.done then
      r == NotSubscribed && y == x
    else
      r == Accepted && y == x.(box := Signal(if d.kind == DesiredDelta then Mark(x.box) else Stash(x.box, d)))
  }

  predicate Pushed(depth: nat, maxBytes: nat, x: Record, d: Directive, r: PushResult, y: Record) {
    if d.kind == DesiredStateChunk then ChunkPushed(depth, maxBytes, x, d, r, y)
    else OtherPushed(depth, maxBytes, x, d, r, y)
  }

  class Sub {
    const depth: nat
    const maxBytes: nat
    var ch: seq<Directive>
    var queuedBytes: int
    var drain: bool
    var done: bool
    var pending: map<Kind, Directive>
    var needResync: bool
    var wake: bool

    function Contents(): Box
      reads this
    {
      Box(pending, needResync, wake)
    }

    function Value(): Record
      reads this
    {
      Record(ch, queuedBytes, Contents(), drain, done)
    }

    // Pending directives sit under their own kind; deltas and chunks are never coalesced.
    ghost predicate Valid()
      reads this
    {
      forall k <- pending :: pending[k].kind == k && Coalescible(k)
    }

    constructor (depth: nat, maxBytes: nat)
      ensures Valid() && Contents() == EMPTY && ch == [] && queuedBytes == 0 && !drain && !done
      ensures this.depth == depth && this.maxBytes == maxBytes
    {
      this.depth, this.maxBytes := depth, maxBytes;
      ch, queuedBytes, drain, done := [], 0, false, false;
      pending, needResync, wake := map[], false, false;
    }

    method StashPending(d: Directive)
      requires Valid() && Coalescible(d.kind)
      modifies this`pending, this`wake
      ensures Valid() && Contents() == Signal(Stash(old(Contents()), d))
    {
      if d.kind !in pending || d.generation >= pending[d.kind].generation {
        pending := pending[d.kind := d];
      }
      wake := true;
    }

    method MarkResync()
      requires Valid()
      modifies this`needResync, this`pending, this`wake
      ensures Valid() && Contents() == Signal(Mark(old(Contents())))
      ensures pending == old(pending) && needResync
    {
      needResync := true;
      pending := pending - {DesiredDelta};
      assert pending == old(pending);
      wake := true;
    }

    method TakeNeedResync() returns (r: bool)
      modifies this`needResync
      ensures r == old(needResync) && Contents() == ClearResync(old(Contents()))
    {
      r := needResync;
      needResync := false;
    }

    // Removes a directive of maximal generation, whichever the map iteration meets first.
    method TakePending() returns (best: Option<Directive>)
      requires Valid()
      modifies this`pending, this`wake
      ensures Valid()
      ensures best.None? ==> old(pending) == map[] && Contents() == old(Contents())
      ensures best.Some? ==>
                && Newest(old(Contents()), best.value.kind)
                && best.value == old(pending)[best.value.kind]
                && Contents() == Take(old(Contents()), best.value.kind)
    {
      best := None;
      var todo := pending.Keys;
      ghost var seen: set<Kind> := {};
      while todo != {}
        invariant seen + todo == pending.Keys
        invariant best.None? ==> seen == {}
        invariant best.Some? ==>
                    && best.value.kind in pending && pending[best.value.kind] == best.value
                    && forall k <- seen :: pending[k].generation <= best.value.generation
        decreases todo
      {
        var k :| k in todo;
        if best.None? || pending[k].generation > best.value.generation {
          best := Some(pending[k]);
        }
        todo := todo - {k};
        seen := seen + {k};
      }
      if best.Some? {
        pending := pending - {best.value.kind};
        if pending != map[] {
          wake := true;
        }
      } else {
        assert pending.Keys == {};
      }
    }

    // One call to push, uninterrupted by the send loop or by other pushers.
    method Push(d: Directive) returns (r: PushResult)
      requires Valid()
      modifies this
      ensures Valid() && Pushed(depth, maxBytes, old(Value()), d, r, Value())
    {
      if d.kind == DesiredStateChunk {
        while queuedBytes > 0 && queuedBytes + d.Size() > maxBytes
          invariant Valid() && (Value() == old(Value()) || Value() == old(Value()).(drain := false))
          invariant !(queuedBytes > 0 && queuedBytes + d.Size() > maxBytes) ==> Value() == old(Value())
          decreases drain
        {
          var pick: bool := *;
          if drain && (pick || !done) {
            drain := false;
          } else {
            return if done then NotSubscribed else WouldBlock;
          }
        }
        var pick: bool := *;
        if |ch| < depth && (pick || !done) {
          ch, queuedBytes := ch + [d], queuedBytes + d.Size();
          return Accepted;
        }
        return if done then NotSubscribed else WouldBlock;
      }
      if queuedBytes + d.Size() <= maxBytes {
        var pick: bool := *;
        if |ch| < depth && (pick || !done) {
          ch, queuedBytes := ch + [d], queuedBytes + d.Size();
          return Accepted;
        } else if done {
          return NotSubscribed;
        }
      }
      if d.kind == DesiredDelta {
        MarkResync();
      } else {
        StashPending(d);
      }
      return Accepted;
    }

    // The send loop's receive: the oldest queued directive, its bytes released, drain signalled.
    method ReceiveNext() returns (d: Directive)
      requires Valid() && ch != []
      modifies this`ch, this`queuedBytes, this`drain
      ensures Valid() && [d] + ch == old(ch) && queuedBytes == old(queuedBytes) - d.Size() && drain
    {
      d := ch[0];
      ch := ch[1..];
      queuedBytes := queuedBytes - d.Size();
      drain := true;
    }
  }
}
