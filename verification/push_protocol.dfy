/**
 The push/send protocol of one agent stream: any number of concurrent pushers and one send loop over
 a bounded FIFO, a byte counter that is not updated together with it, and the overflow mailbox.
 Every atomic section of the source is one step; steps interleave freely.
 */
module PushProtocol {
  import opened Directives
  import opened Mailbox

  // depth is pushBuffer, maxBytes is maxQueueBytes, hook tells whether a resync hook is wired.
  datatype Config = Config(depth: nat, maxBytes: nat, hook: bool)

  // A directive together with the pusher that sent it (the tag is history only).
  datatype Entry = Entry(src: nat, d: Directive)

  datatype PusherState =
    | Resting
    | FirstLoad(d: Directive)     // chunk: about to load the counter for the emptiness test
    | SecondLoad(d: Directive)    // chunk: about to load it again for the budget test
    | AwaitDrain(d: Directive)    // chunk: blocked on drain or done
    | BlockingSend(d: Directive)  // chunk: admitted, blocked on the channel or done
    | Load(d: Directive)          // other kinds: about to test the budget
    | TrySend(d: Directive)       // other kinds: about to attempt the non-blocking send
    | AddBytes(d: Directive)      // sent, its bytes not yet added to the counter
    | Overflow(d: Directive)      // about to enter the locked stash or mark section
    | SignalWake                  // stashed or marked, wake not yet signalled

  // The last two carry what was in hand when the stream ended.
  datatype LoopState =
    | Idle
    | Received(e: Entry)          // its bytes not yet subtracted
    | Subtracted(e: Entry)        // drain not yet signalled
    | SendingQueued(e: Entry)
    | Woken                       // wake consumed, takeNeedResync not yet called
    | Firing                      // takeNeedResync returned true
    | Taking                      // about to call takePending
    | SendingPending(d: Directive)
    | Leaving(lostQueued: seq<Entry>, lostPending: seq<Directive>)
    | Ended(lostQueued: seq<Entry>, lostPending: seq<Directive>)

  // What became of a push (history), plus the firings of the resync hook.
  datatype Outcome =
    | Queued(e: Entry)
    | Stashed(e: Entry)
    | Dropped(e: Entry)
    | Refused(e: Entry)
    | Resynced

  datatype State = State(
    ch: seq<Entry>, queued: int, box: Box, drain: bool, done: bool,
    loop: LoopState, pushers: seq<PusherState>,
    log: seq<Outcome>, pushes: seq<seq<Directive>>, viaQueue: seq<Entry>, viaPending: seq<Directive>)

  datatype Action =
    | Begin(p: nat, what: Directive)  // a pusher calls push and finds this stream
    | Push(p: nat)                    // its next atomic section
    | Refuse(p: nat)                  // it takes the closed done channel
    | Receive
    | WakeUp
    | Loop                            // next section of the send loop
    | TakePending(k: Kind)
    | TakeNothing
    | SendFails
    | Leave                           // context done, or superseded
    | Deregister                      // the deferred cleanup
    | Supersede                       // a newer Subscribe closes done

  function Init(n: nat): State {
    State([], 0, EMPTY, false, false, Idle, seq(n, i => Resting), [], seq(n, i => []), [], [])
  }

  function At(s: State, p: nat, pc: PusherState): State
    requires p < |s.pushers|
  {
    s.(pushers := s.pushers[p := pc])
  }

  predicate CanPush(c: Config, s: State, p: nat) {
    && p < |s.pushers|
    && match s.pushers[p]
       case Resting => false
       case AwaitDrain(_) => s.drain
       case BlockingSend(_) => |s.ch| < c.depth
       case TrySend(_) => |s.ch| < c.depth || !s.done   // the default case is only taken when nothing is ready
       case _ => true
  }

  function PushStep(c: Config, s: State, p: nat): State
    requires CanPush(c, s, p)
  {
    match s.pushers[p]
    case FirstLoad(d) => At(s, p, if s.queued <= 0 then BlockingSend(d) else SecondLoad(d))
    case SecondLoad(d) => At(s, p, if s.queued + d.Size() <= c.maxBytes then BlockingSend(d) else AwaitDrain(d))
    case AwaitDrain(d) => At(s.(drain := false), p, FirstLoad(d))
    case BlockingSend(d) => Enqueue(s, p, d)
    case Load(d) => At(s, p, if s.queued + d.Size() <= c.maxBytes then TrySend(d) else Overflow(d))
    case TrySend(d) => if |s.ch| < c.depth then Enqueue(s, p, d) else At(s, p, Overflow(d))
    case AddBytes(d) => At(s.(queued := s.queued + d.Size()), p, Resting)
    case Overflow(d) => Divert(s, p, d)
    case SignalWake => At(s.(box := Signal(s.box)), p, Resting)
  }

  function Enqueue(s: State, p: nat, d: Directive): State
    requires p < |s.pushers|
  {
    At(s.(ch := s.ch + [Entry(p, d)], log := s.log + [Queued(Entry(p, d))]), p, AddBytes(d))
  }

  function Divert(s: State, p: nat, d: Directive): State
    requires p < |s.pushers|
  {
    if d.kind == DesiredDelta
    then At(s.(box := Mark(s.box), log := s.log + [Dropped(Entry(p, d))]), p, SignalWake)
    else At(s.(box := Stash(s.box, d), log := s.log + [Stashed(Entry(p, d))]), p, SignalWake)
  }

  // The three selects that watch done: the two blocking ones and the non-blocking send.
  predicate CanRefuse(s: State, p: nat) {
    && p < |s.pushers|
    && s.done
    && (s.pushers[p].AwaitDrain? || s.pushers[p].BlockingSend? || s.pushers[p].TrySend?)
  }

  predicate CanLoop(s: State) {
    match s.loop
    case Received(_) => true
    case Subtracted(_) => true
    case SendingQueued(_) => true
    case Woken => true
    case Firing => true
    case SendingPending(_) => true
    case _ => false
  }

  function LoopStep(c: Config, s: State): State
    requires CanLoop(s)
  {
    match s.loop
    case Received(e) => s.(queued := s.queued - e.d.Size(), loop := Subtracted(e))
    case Subtracted(e) => s.(drain := true, loop := SendingQueued(e))
    case SendingQueued(e) => s.(viaQueue := s.viaQueue + [e], loop := Idle)
    case Woken => s.(box := ClearResync(s.box), loop := if s.box.needResync then Firing else Taking)
    case Firing => s.(log := if c.hook then s.log + [Resynced] else s.log, loop := Taking)
    case SendingPending(d) => s.(viaPending := s.viaPending + [d], loop := Idle)
  }

  predicate Enabled(c: Config, s: State, a: Action) {
    match a
    case Begin(p, d) => p < |s.pushers| == |s.pushes| && s.pushers[p].Resting?
    case Push(p) => CanPush(c, s, p)
    case Refuse(p) => CanRefuse(s, p)
    case Receive => s.loop.Idle? && s.ch != []
    case WakeUp => s.loop.Idle? && s.box.wake
    case Loop => CanLoop(s)
    case TakePending(k) => s.loop.Taking? && Newest(s.box, k)
    case TakeNothing => s.loop.Taking? && s.box.pending == map[]
    case SendFails => s.loop.SendingQueued? || s.loop.SendingPending?
    case Leave => s.loop.Idle?
    case Deregister => s.loop.Leaving?
    case Supersede => !s.done
  }

  function Do(c: Config, s: State, a: Action): State
    requires Enabled(c, s, a)
  {
    match a
    case Begin(p, d) =>
      At(s.(pushes := s.pushes[p := s.pushes[p] + [d]]), p,
         if d.kind == DesiredStateChunk then FirstLoad(d) else Load(d))
    case Push(p) => PushStep(c, s, p)
    case Refuse(p) => At(s.(log := s.log + [Refused(Entry(p, s.pushers[p].d))]), p, Resting)
    case Receive => s.(ch := s.ch[1..], loop := Received(s.ch[0]))
    case WakeUp => s.(box := s.box.(wake := false), loop := Woken)
    case Loop => LoopStep(c, s)
    case TakePending(k) => s.(box := Take(s.box, k), loop := SendingPending(s.box.pending[k]))
    case TakeNothing => s.(loop := Idle)
    case SendFails => s.(loop := Leaving(QueuedInHand(s.loop), PendingInHand(s.loop)))
    case Leave => s.(loop := Leaving([], []))
    case Deregister => s.(loop := Ended(s.loop.lostQueued, s.loop.lostPending), done := true)
    case Supersede => s.(done := true)
  }

  function QueuedInHand(l: LoopState): seq<Entry> {
    match l
    case Received(e) => [e]
    case Subtracted(e) => [e]
    case SendingQueued(e) => [e]
    case Leaving(q, _) => q
    case Ended(q, _) => q
    case _ => []
  }

  function PendingInHand(l: LoopState): seq<Directive> {
    match l
    case SendingPending(d) => [d]
    case Leaving(_, d) => d
    case Ended(_, d) => d
    case _ => []
  }

  // A run: every action enabled where it is taken.
  predicate Runs(c: Config, s: State, run: seq<Action>)
    decreases |run|
  {
    run == [] || (Enabled(c, s, run[0]) && Runs(c, Do(c, s, run[0]), run[1..]))
  }

  function After(c: Config, s: State, run: seq<Action>): State
    requires Runs(c, s, run)
    decreases |run|
  {
    if run == [] then s else After(c, Do(c, s, run[0]), run[1..])
  }
}
