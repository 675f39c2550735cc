# Verified model of the coverer

The coverer sits between a controller and the agents of many network edges. It relays directives down
one stream per agent, and watches a tap of each edge's routing table to decide when an announced
address may be withdrawn. This project models its four stateful cores and proves what they promise
over every run, every interleaving and every input.

**Agent streams** (`directives`, `mailbox`, `stream`, `push_*`, `streams`). A stream is a bounded queue,
a byte counter that is *not* updated together with it, a latest-wins mailbox, two one-bit tokens and a
`done` channel. `stream.dfy` has the record with its calls, updated in place. `push_protocol.dfy` has the
same state as a step machine: any number of pushers and one send loop, one step per atomic section of
the source; `push_refines` shows that the former's calls are runs of the latter. Over the machine: the
byte budget (`push_bytes`, `push_single`, `push_tight`), liveness (`push_progress`), delivery
(`push_delivery`, `push_results`), and the order of arrival and waiting times (`push_overtaking`,
`push_starvation`). `streams.dfy` has the
table of streams with re-subscription in the middle of a chunked snapshot.

**Relay workers** (`relay_queue`, `relay`, `relay_push`). One lazily created, idle-reaped worker per edge,
with a queue that coalesces desired-state directives. The claim is that coalescing and reaping are
invisible: an agent, whatever it does with directives, ends up as if everything dispatched had reached
it. `relay_push` puts the workers behind a stream.

**RIB-survival guard** (`rib`, `guard_*`, `toggles`). `guard.dfy` has the guard with its per-edge views
updated in place, proved against `guard_spec.dfy`. `guard_trace.dfy` then says what the views mean from
the event history alone, `guard_truth.dfy` when that is the plain truth; `guard_repair.dfy` what the
drift repair restores; `guard_alarms.dfy` and `toggles.dfy` what the raised notices add up to.
`Guard.Guard` carries the history of its notices as ghost fields, and its invariant says that replaying
them gives the present state.

**Around the guard** (`coverer_spec`, `coverer`, `coverer_trace`, `producer`, `coverage`). The tap handler
and its two canary memories, everything it sends read off the event history, the drift audit, session
events synthesized from peer states, and the coverage diff over the table of tap peers. Where
a promise rests on a condition, the condition is proved exact: the promise holds in every run if and
only if it does.

A withdrawal carries no attributes (section 4.3 of RFC 4271), so the canary's is recognised by its
remembered prefix; end-of-RIB is the marker of section 2 of RFC 4724.

## What the code does differently from its comments

- `queuedBytes` is described as capped at `maxQueueBytes` (`internal/grpcsrv/server.go:143`). Budget test
  and addition are separate steps, so `n` pushers can exceed the cap by `n - 1` payloads, and one chunk
  can exceed it alone. `PushTight.MaximumIsExact` gives the most bytes a stream can hold for every depth,
  budget, number of pushers and payload size; `PushTight.CappedExactly` says that the cap holds if and
  only if there is one pusher and no payload exceeds the budget, or the channel is too short to exceed
  it. Behind the relay workers of one connection calls do not overlap, and only a lone chunk can exceed
  the cap (`RelayPush.RelayedBudget`).
- The overflow comments speak of "delivering only the newest" (`internal/grpcsrv/server.go:605-607`). The
  mailbox can overtake a full queue in every configuration (`PushOvertaking.PendingCanOvertake`), so the
  newest need not arrive last. `PushOvertaking.NeverOvertakenExactly` gives what a caller can check
  beforehand: nothing is overtaken, under any interleaving, if and only if there is at most one call, or
  all calls fit the channel and the budget at once. What holds always is convergence by generation
  (`PushResults.PushedIsRepresented`, `PushResults.StreamConverges`).
- `markResync` clears pending deltas (`internal/grpcsrv/server.go:193-201`). There never are any:
  `Stream.Sub.MarkResync` leaves `pending` as it was.
- The canary votes agree with the guard only while no edge announces the canary with two prefixes
  (`CovererSpec.VotesAgreeExactly`): the coverer remembers every such prefix, the guard only the last.
- Presence in the mirror is called a positive fact (`internal/guard/guard.go:264-267`). A host prefix that
  carried the canary and is also announced as a plain host is still mirrored after its withdrawal, which
  is taken for the canary's; once the canary moves on, the withdrawn host may be advertised and may not
  be withdrawn on a trusted view (`GuardTruth.WithdrawnHostStays`). The verdicts are the plain truth in
  every run if and only if no edge names a host prefix both with the canary's community and as a plain
  host (`GuardTruth.AlwaysTrueExactly`).
- A withdrawn host is meant to be reported (`internal/coverer/taphandler.go:27-29`). A host prefix that
  carried the canary before the canary moved to another prefix is still taken for it: its loss goes
  unreported, only a soft vote is sent (`CovererTrace.LossGoesUnreported`). Every loss shown on a trusted
  view is reported, in every run, if and only if no edge announces the canary with two prefixes of which
  one is a host's, or no canary is configured (`CovererTrace.AlwaysReportedExactly`). A sole canary
  prefix that is also a host's freezes the view when it is withdrawn, and is not reported either.
- Keying the mailbox by kind is said to keep a rare re-homing directive from being starved by a flood of
  snapshots (`internal/grpcsrv/server.go:127-130`). The newest generation is taken first, and re-homing
  directives are all of generation 0, so a snapshot stashed before each take starves one for any number
  of takes (`PushStarvation.RehomeStarves`). A waiting kind is taken within as many takes as there are
  pending kinds if and only if everything stashed meanwhile is older (`PushStarvation.FairExactly`).

## Model

| member | source | states |
|---|---|---|
| `Stream.Sub.constructor` | internal/grpcsrv/server.go:338 | a new stream is empty: nothing queued or pending, no token set, `done` open |
| `Stream.Sub.StashPending` | internal/grpcsrv/server.go:178-191 | the mailbox keeps the directive of higher or equal, later generation per kind, and wake is set |
| `Stream.Sub.MarkResync` | internal/grpcsrv/server.go:193-207 | a resync is owed and wake is set; clearing pending deltas changes nothing, since none is ever pending |
| `Stream.Sub.TakeNeedResync` | internal/grpcsrv/server.go:209-217 | reads and clears the flag, and nothing else |
| `Stream.Sub.TakePending` | internal/grpcsrv/server.go:152-176 | removes and returns a directive of maximal generation, re-arming wake exactly while others remain; returns nothing only from an empty mailbox |
| `Stream.Sub.Push` | internal/grpcsrv/server.go:548-610 | for each kind, the results an uninterrupted call can have and the whole new record of each: a chunk is queued, waits or is refused and never overflows; another kind is queued when budget and depth allow, refused when the channel it may use is closed, and otherwise marked (delta) or stashed |
| `PushRefines.PushIsARun` | internal/grpcsrv/server.go:548-610 | every such call is a run of one pusher's protocol steps: same result, matching outcome, same record, nothing else touched |
| `PushRefines.ReceiveIsARun` | internal/grpcsrv/server.go:372-377 | `Sub.ReceiveNext` is the loop's receive, subtraction and drain signal, and nothing else |
| `PushRefines.TakeNeedResyncIsAStep` | internal/grpcsrv/server.go:387-394 | `Sub.TakeNeedResync` is the loop's step after waking, which fires exactly if the flag was set |
| `PushRefines.TakePendingIsAStep` | internal/grpcsrv/server.go:398-402 | what `Sub.TakePending` may take is exactly what the loop may take, with the same effect |
| `Stream.Sub.ReceiveNext` | internal/grpcsrv/server.go:372-377 | takes the oldest queued directive, releases its bytes, signals drain |
| `Mailbox.DrainsInOrder` | internal/grpcsrv/server.go:152-176 | with nothing stashed meanwhile the mailbox empties in exactly one wake and take per pending kind, each kind once, in non-increasing generation (with lines 395-402) |
| `Mailbox.CanDrain` | internal/grpcsrv/server.go:152-176 | once the wake token is set such a sequence always exists: every take but the last re-arms it |
| `PushBytes.AccountingStep` | internal/grpcsrv/server.go:372-377 | every step keeps: counter = bytes on the channel + received and not yet subtracted - sent and not yet added (with lines 573-595) |
| `PushBytes.ChannelBytesBounded` | internal/grpcsrv/server.go:548-595 | with n pushers and payloads of at most S bytes, the channel never holds more than max(budget, S) + (n-1)*S bytes, in every reachable state (with lines 372-377) |
| `PushSingle.SinglePusherBudget` | internal/grpcsrv/server.go:557-595 | with one pusher the channel stays within the budget, or all its bytes belong to one chunk |
| `PushSingle.SequentialBudget` | internal/grpcsrv/server.go:557-595 | the same for any number of pushers whose calls do not overlap: within the budget, or all bytes are one chunk's |
| `PushTight.MaximumIsExact` | internal/grpcsrv/server.go:566-595 | for every depth, budget, n and S, no reachable state holds more than the smaller of depth * S and the bound above, and some interleaving holds exactly that |
| `PushTight.CappedExactly` | internal/grpcsrv/server.go:42-49 | the budget is a cap in every reachable state if and only if there is one pusher and no payload exceeds the budget, or depth payloads do not exceed it (with line 143, lines 566-595) |
| `PushProgress.WakeStep` | internal/grpcsrv/server.go:178-217 | no lost wake-up: on an open stream mailbox work is announced, about to be announced, or being collected, and every step keeps it so (with lines 381-402) |
| `PushProgress.DrainStep` | internal/grpcsrv/server.go:565-580 | while a chunk pusher is held back, a drain token, queued data, a coming drain signal or another moving chunk pusher exists; every step keeps it so (with lines 372-377) |
| `PushProgress.SleeperWillBeWoken` | internal/grpcsrv/server.go:565-580 | the same read at one instant of any run, for any number of waiters and any chunk size (with lines 372-377) |
| `PushProgress.StuckIsDry` | internal/grpcsrv/server.go:366-404 | an open stream that can take no step has released all pushers and emptied queue and mailbox (with lines 548-610) |
| `PushProgress.SettlingRunBounded` | internal/grpcsrv/server.go:366-404 | whatever the scheduling, and whether the stream stays open, fails or ends, a bounded number of steps follows any state without new pushes (with lines 548-610) |
| `PushProgress.MaximalRunDrains` | internal/grpcsrv/server.go:366-404 | backpressure never deadlocks: from every reachable open state each maximal run without new pushes ends dry, within that bound (with lines 548-610) |
| `PushProgress.ClosedRunReleases` | internal/grpcsrv/server.go:355-363 | on a stream that fails, ends or is superseded, wherever its loop stands, such a run ends with `done` closed and every pusher returned, and when nothing is left with the loop ended (with lines 366-404, lines 566-594) |
| `PushDelivery.FifoStep` | internal/grpcsrv/server.go:372-380 | sent, in hand and queued together are at every step exactly what was queued, in order (with lines 573-595) |
| `PushDelivery.AccountedStep` | internal/grpcsrv/server.go:548-610 | each call has exactly one outcome (queued, stashed, dropped, refused), per pusher in call order |
| `PushDelivery.OnlyStashedStep` | internal/grpcsrv/server.go:134-139 | what is pending, or was sent from there, was stashed and is neither a delta nor a chunk (with lines 178-191) |
| `PushDelivery.AllCoveredStep` | internal/grpcsrv/server.go:155-191 | every stashed directive is kept, or one of its kind that is newer, or as new and not earlier (with line 608) |
| `PushDelivery.ResyncStep` | internal/grpcsrv/server.go:193-217 | a dropped delta without a later resync is remembered or its resync is about to fire; resyncs never outnumber drops (with lines 387-394, lines 601-604) |
| `PushDelivery.JustifiedStep` | internal/grpcsrv/server.go:571-604 | only deltas are dropped, and only a closed stream refuses |
| `PushDelivery.DeliveryHolds` | internal/grpcsrv/server.go:366-404 | all of these hold in every reachable state, for any number of pushers (with lines 548-610) |
| `PushResults.DeltasKeepPushOrder` | internal/grpcsrv/server.go:134-139 | the deltas an agent gets from one pusher are a subsequence of its calls, and none ever passes through the mailbox (with lines 582-604) |
| `PushResults.AcceptedIsRepresented` | internal/grpcsrv/server.go:124-131 | at every moment each accepted directive is present, itself or by one of its kind and at least its generation (with lines 585-609, lines 372-402) |
| `PushResults.DeliveredWasAccepted` | internal/grpcsrv/server.go:372-402 | nothing reaches the agent that was not accepted |
| `PushResults.PushedIsRepresented` | internal/grpcsrv/server.go:124-139 | at every moment, on a stream not closed, whatever was pushed is under way, is present itself or by one of its kind at least as new, or is a dropped delta (with lines 548-610) |
| `PushResults.OnlyChunksWait` | internal/grpcsrv/server.go:582-609 | at every moment a call that pushes anything but a chunk can take its next step: a slow agent blocks only chunks |
| `PushResults.StreamConverges` | internal/grpcsrv/server.go:124-139 | an open stream left alone until it stands still has sent all that was queued in order and nothing that was not pushed; for every kind but deltas the newest generation sent is the newest pushed and the last accepted of that generation was itself sent; every chunk was sent; every delta was sent or dropped with a resync asked for afterwards (with lines 366-404, lines 548-610) |
| `PushOvertaking.WhatFitsIsInOrder` | internal/grpcsrv/server.go:582-609 | if all calls of a run fit channel and budget together, nothing is stashed or dropped under any interleaving, and delivery is queue order |
| `PushOvertaking.PendingCanOvertake` | internal/grpcsrv/server.go:366-404 | for every configuration a reachable state in which the newer snapshot was sent from the mailbox while the channel is full of older ones accepted before it (with lines 605-609) |
| `PushOvertaking.NeverOvertakenExactly` | internal/grpcsrv/server.go:366-404 | calls of a given number and total size are never overtaken, in any run, if and only if there is at most one or all fit channel and budget at once (with lines 582-609) |
| `PushStarvation.TakenInTime` | internal/grpcsrv/server.go:152-191 | in every state and interleaving a waiting kind is taken within as many takes as there are pending kinds, unless something of at least its generation is stashed meanwhile |
| `PushStarvation.RehomeStarves` | internal/grpcsrv/server.go:124-131 | for every configuration, generation and number of takes a reachable state and a run in which a lone re-homing directive waits through all of them, with nothing newer than itself ever stashed (with lines 155-176, line 540) |
| `PushStarvation.FairExactly` | internal/grpcsrv/server.go:124-131 | a kind waiting at generation g is always taken in that time if and only if all stashes meanwhile are below g (with lines 155-191) |
| `Streams.LifecycleStep` | internal/grpcsrv/server.go:336-363 | every step keeps: `done` closed at most once, a stream in the table iff its `done` is open, and the registered stream is its edge's newest (with lines 548-554) |
| `Streams.LifecycleHolds` | internal/grpcsrv/server.go:336-363 | the same over any interleaving of subscribing, superseding, ending and pushing, and of two streams of one edge at most one is open (with lines 548-554) |
| `Streams.NoGappedSnapshot` | internal/grpcsrv/server.go:464-483 | the fragments of one chunked push that enter a stream are one contiguous increasing run, of which the agent is sent a prefix (with lines 548-580, lines 336-363) |
| `Streams.AppliedSnapshotIsWhole` | internal/grpcsrv/server.go:464-483 | an agent that saw first and last fragment on one stream saw every fragment once, in order |
| `Streams.UnbrokenCallIsWhole` | internal/grpcsrv/server.go:464-483 | a call that succeeded and started and ended on one stream put the whole snapshot there, in order (with lines 548-580) |
| `Streams.OnlyGivesUpWhenGone` | internal/grpcsrv/server.go:548-580 | in every step of every run a snapshot push fails only if its edge has no open stream when it looks it up, or the stream it holds is closed (with lines 468-481) |
| `Streams.CallGetsThrough` | internal/grpcsrv/server.go:464-483 | in every run a snapshot push whose edge keeps its stream, with room for all fragments, gets through by its own steps alone, and has then put fragments 0 to count-1 there in order (with lines 548-580) |
| `Streams.ServedStreamSendsAll` | internal/grpcsrv/server.go:366-380 | in every run a stream being served can send everything that entered it by the loop's steps alone |
| `RelayQueue.EdgeWorker.Enqueue` | internal/coverer/watchclient.go:47-62 | the filtering loop computes the coalesced queue, and keeps at most one snapshot with no snapshot or delta before it |
| `RelayQueue.EdgeWorker.Pop` | internal/coverer/watchclient.go:201-205 | removes the oldest directive |
| `RelayQueue.CompactHoldsOneSnapshot` | internal/coverer/watchclient.go:38-39 | however far the agent lags, at most one full snapshot is queued for it |
| `RelayQueue.CoalescingPreservesMeaning` | internal/coverer/watchclient.go:47-62 | for every agent semantics (snapshots replace desired state, deltas are any function of it) and any directives relayed before, coalescing means the same as appending |
| `RelayQueue.CoalescingKeepsOrder` | internal/coverer/watchclient.go:35-39 | the line to the agent stays a subsequence of what was dispatched |
| `RelayQueue.CoalescingKeepsOthers` | internal/coverer/watchclient.go:49-50 | directives independent of desired state are all kept, in order |
| `Relay.WorkersOkStep` | internal/coverer/watchclient.go:176-237 | every step keeps: a worker with directives has not exited, a parked one with directives is or is about to be woken, and a live worker is its edge's only one |
| `Relay.DispatchNeverBlocks` | internal/coverer/watchclient.go:173-192 | in every reachable state a directive for any edge can be dispatched at once, or the dispatch under way can go on: it never waits for a worker |
| `Relay.RelayIsFaithful` | internal/coverer/watchclient.go:173-237 | in every reachable state, across reaping and re-creation, what is relayed, in hand, queued and about to be queued for an edge is a subsequence of what was dispatched to it, keeps all independent directives, and means the same to every agent |
| `Relay.QuietRunBounded` | internal/coverer/watchclient.go:176-237 | without dispatches a bounded number of steps follows, idle timers included |
| `Relay.LeftAloneAllIsRelayed` | internal/coverer/watchclient.go:30-33 | left alone until at rest nothing is held back: what was relayed means what was dispatched; and when the timers have fired too, no worker is left (with lines 173-237) |
| `RelayPush.RelayedBudget` | internal/coverer/watchclient.go:194-276 | behind one connection's workers a stream stays within the budget, or its only payload bytes are one chunk's, across reaping, re-creation and any splitting into fragments (with internal/grpcsrv/server.go:557-595) |
| `Guard.EdgeView.Apply` | internal/guard/guard.go:186-219 | folding an event into a view in place is the specified transition |
| `Guard.Guard.ViewFor` | internal/guard/guard.go:118-125 | the edge's view, created empty on first use; no other view changes or is shared |
| `Guard.Guard.FoldEvent` | internal/guard/guard.go:186-219 | only the event's edge changes, by the specified transition |
| `Guard.Guard.SourcesOf` | internal/guard/conflict.go:87-98 | exactly the edges mirroring the prefix, in ascending order |
| `Guard.Guard.MultiSourcedAmong` | internal/guard/conflict.go:55-63 | for each given prefix whether two or more edges mirror it |
| `Guard.Guard.AffectedHosts` | internal/guard/conflict.go:29-53 | exactly the prefixes whose sources the event may change, without repetition |
| `Guard.Guard.ConflictTransitions` | internal/guard/conflict.go:65-85 | one notice for each prefix that crossed between one source and several, with the right direction and its present sources, and for no other |
| `Guard.Guard.ViewTransitions` | internal/guard/guard.go:165-183 | one notice for each family whose validity changed, and for no other |
| `Guard.Guard.Observe` | internal/guard/guard.go:130-138 | the locked section: state folded, and both kinds of notices explain exactly the change |
| `Guard.Guard.OnEvent` | internal/guard/guard.go:127-148 | keeps the invariant that replaying all notices so far gives the multi-sourced prefixes and the valid views, raises and resolves alternating |
| `Guard.Guard.ReconcileHosts` | internal/guard/guard.go:309-373 | repairs the view to the authoritative hosts and returns exactly the missed and the stale if session and the family's end-of-RIB are up; otherwise changes and returns nothing; raises no view notice and keeps the invariant |
| `GuardTrace.SettledExactly` | internal/guard/guard.go:318-328 | after any history a view counts as settled iff the edge's last session event is PeerUp and an end-of-RIB of the family came since; otherwise a repair changes nothing |
| `Guard.Guard.Conflicts` | internal/guard/conflict.go:108-130 | lists exactly the prefixes that two edges mirror, each once, with its sources ascending, in the order of the printed prefixes |
| `TextOrder.BelowMeans` | internal/guard/conflict.go:128 | one printed prefix is not after another iff it begins it or has the smaller character where they first differ |
| `Guard.Guard.ViewValid` | internal/guard/guard.go:230-237 | whether session, canary and the family's end-of-RIB are all up |
| `Guard.Guard.HasHost` | internal/guard/guard.go:239-249 | whether the edge mirrors the prefix (with lines 264-270) |
| `Guard.Guard.ShouldWithdraw` | internal/guard/guard.go:272-288 | absent from a view that can be trusted for its family |
| `Guard.Guard.HostsByFamily` | internal/guard/guard.go:290-307 | exactly the mirrored hosts of the family, once each |
| `GuardTrace.OwnEventsDecide` | internal/guard/guard.go:118-125 | a view depends on its own edge's events only (with lines 186-219) |
| `Rib.HostsAreSingleAddresses` | internal/guard/guard.go:36-47 | a host prefix is one that stands for a single address, and its family is that address's |
| `GuardTrace.ViewMeansHistory` | internal/guard/guard.go:36-69 | every field of a view is what the edge's history since its last session event says (with lines 186-219) |
| `GuardTrace.WithdrawExactly` | internal/guard/guard.go:11-20 | after any run, withdrawal is allowed iff the last session event is PeerUp and since then a canary announcement stands, the family's end-of-RIB came and no announcement of the member stands, where a withdrawal counts against what the guard takes it for, host or canary (with lines 186-219, lines 272-288) |
| `GuardTrace.AdvertiseExactly` | internal/guard/guard.go:264-270 | after any run, advertising is allowed iff a host announcement of the current session stands, not undone by a withdrawal the guard takes for the host's |
| `GuardTruth.WithdrawnHostStays` | internal/guard/guard.go:200-217 | for every edge, host prefix and second prefix: a host whose last path event is its withdrawal is still mirrored on a trusted view, may be advertised and may not be withdrawn, because the withdrawal was taken for the canary's |
| `GuardTruth.AlwaysTrueExactly` | internal/guard/guard.go:264-288 | in every run, drift repairs from true snapshots included, a member may be advertised exactly while its last path event of the session is a host announcement, and withdrawn exactly when it is not on a trusted view, if and only if no edge names a host prefix both with the canary's community and as a plain host (with lines 186-219) |
| `GuardTruth.RepairsAreIdle` | internal/guard/guard.go:322-352 | then a repair from a true snapshot finds nothing to repair |
| `GuardTrace.ReplayOrderIsIrrelevant` | internal/ribevent/producer.go:14-25 | from any prior views, PeerUp and the same replay in any order and multiplicity give the same trust and hosts, and the same view if one prefix carries the canary (with internal/guard/guard.go:190-208) |
| `GuardTrace.OrderMattersExactly` | internal/ribevent/producer.go:14-25 | the order of a replay never matters to the view if and only if it has at most one canary prefix (with internal/guard/guard.go:200-204) |
| `GuardRepair.GatesSurviveLoss` | internal/guard/guard.go:186-219 | losing host events never changes session, canary, end-of-RIB or the canary memory |
| `GuardRepair.LossyPlusRepairIsLossless` | internal/guard/guard.go:309-373 | for an edge and family settled in the true view: a stream that lost any host events, repaired from the true hosts, gives the true verdicts; missed and stale are the exact differences and a second pass finds none (with internal/coverer/taphandler.go:112-121) |
| `GuardRepair.RepairIsLocal` | internal/guard/guard.go:322-363 | repair touches no other edge and no view's trust |
| `GuardRepair.RepairRestores` | internal/guard/guard.go:330-363 | repair of a settled view from the true hosts agrees with the truth, and leaves the other family of the same edge alone |
| `GuardRepair.AgreementLasts` | internal/guard/guard.go:186-219 | once two views agree on a family they agree after every further event |
| `GuardAlarms.AffectedCovers` | internal/guard/conflict.go:29-53 | a prefix outside the affected ones keeps its sources, given that only host prefixes are mirrored |
| `GuardAlarms.ConflictNoticesTellAll` | internal/guard/conflict.go:65-130 | over any run of events and repairs, replaying the notices yields exactly the prefixes that two edges mirror, raises and resolves alternating (with internal/guard/guard.go:130-148, internal/guard/guard.go:354-371) |
| `GuardAlarms.ViewNoticesTellAll` | internal/guard/guard.go:130-183 | over any run, replaying the freezes and thaws yields the validity of every edge and family, alternating from invalid; repairs add none (with lines 322-373) |
| `Toggles.StrictAlternation` | internal/guard/conflict.go:65-85 | of two successive notices about one item, one raises and the other resolves |
| `CovererSpec.VotesMove` | internal/coverer/taphandler.go:42-77 | how one event changes the last hard and the last soft vote of each edge |
| `CovererSpec.VotesAgreeExactly` | internal/coverer/taphandler.go:38-87 | with a canary configured, in every run a trusted view means both last votes are "up", if and only if no edge announces the canary with two prefixes (with internal/coverer/coverer.go:210-242, internal/guard/guard.go:186-219) |
| `CovererSpec.HardVoteAlwaysAgrees` | internal/coverer/taphandler.go:43-45 | for the hard vote no such condition is needed (with lines 64-68) |
| `CovererSpec.EndsAreAnswered` | internal/coverer/taphandler.go:78-97 | in every reachable state the end-of-RIB markers seen are those whose one snapshot has read the mirror and those still due, in whatever order they are scheduled |
| `CovererSpec.AnsweredIsARun` | internal/coverer/taphandler.go:91-97 | a snapshot is one reading of the mirror and then one step per report, between which anything may happen; undisturbed, it is sent whole |
| `CovererSpec.BatchesAreFaithful` | internal/coverer/coverer.go:158-189 | batching loses, repeats and reorders no member, all batches but the last are full, only an empty set makes an empty report |
| `Coverer.Coverer.HandleTap` | internal/coverer/taphandler.go:38-87 | one event changes guard, canary memory, reports and due snapshots as specified, in that order |
| `Coverer.Coverer.ReportMemberEdge` | internal/coverer/coverer.go:163-189 | the batching loop sends exactly the specified batches |
| `Coverer.Coverer.ForgetCanary` | internal/coverer/coverer.go:231-242 | true exactly for a remembered canary, which is forgotten |
| `Coverer.Coverer.RememberCanary` | internal/coverer/coverer.go:223-229 | the pair is remembered and nothing else changes |
| `Coverer.Coverer.EmitEorSnapshot` | internal/coverer/taphandler.go:89-97 | at least one report, all for the edge and "up", together carrying exactly its hosts of the family, once each |
| `Coverer.Coverer.RunDue` | internal/coverer/taphandler.go:78-97 | an undisturbed due snapshot is taken off, shows the mirror as it stands when it is read, and is sent whole |
| `Coverer.Coverer.AuditEdge` | internal/coverer/taphandler.go:144-154 | if session and the family's end-of-RIB are up, the edge mirrors of that family exactly the hosts the snapshot has announced by that edge and not as the canary, and all else is as before; the edge is reported on exactly if its view changed |
| `Coverer.Coverer.ReconcileFamily` | internal/coverer/taphandler.go:127-156 | the same for every covered edge and for no other, each with the hosts the snapshot shows for it; exactly the edges whose view changed are reported on, with all their hosts |
| `Coverer.Coverer.ReconcileTapView` | internal/coverer/taphandler.go:112-158 | the same for both families in turn, each with its reports; a snapshot that cannot be had ends the audit there, leaving what was repaired before |
| `CovererTrace.SeenMeansHistory` | internal/coverer/coverer.go:223-242 | in every run the coverer's canary memory holds exactly the prefixes the edge's history announced as canary and did not withdraw since |
| `CovererTrace.TrustedInRun` | internal/guard/guard.go:64-69 | in every run, drift repairs included, a view can be trusted exactly when the edge's event history says so (with lines 322-363) |
| `CovererTrace.NewReportsExactly` | internal/coverer/taphandler.go:38-87 | in every run, everything the handler sends for an event, read off the history: nothing for PeerUp and end-of-RIB, one hard vote for PeerDown, the canary's votes, one report of that prefix for a host on a view trusted after the event, and nothing else |
| `CovererTrace.UnsettledIsLeftAlone` | internal/guard/guard.go:318-328 | in every run a drift repair changes nothing unless the edge's last session event is PeerUp and the family's end-of-RIB came since |
| `CovererTrace.DownReportedExactly` | internal/coverer/taphandler.go:46-62 | in every run, with drift repairs and snapshots anywhere in it, a host's withdrawal is reported down iff the view can be trusted after it and the prefix is not one still remembered as that edge's canary (with internal/guard/guard.go:272-288) |
| `CovererTrace.LossGoesUnreported` | internal/coverer/taphandler.go:46-54 | for every edge, host prefix and second prefix: once the canary has moved away from the host prefix, the host is mirrored, the view is trusted after its withdrawal, and it is not reported, only a soft vote is sent (with internal/coverer/coverer.go:231-242) |
| `CovererTrace.AlwaysReportedExactly` | internal/coverer/taphandler.go:46-62 | in every run, with drift repairs and snapshots anywhere in it, a host's withdrawal is reported exactly when the view can be trusted after it, if and only if no canary is configured or no edge announces it with two prefixes of which one is a host's (with internal/coverer/coverer.go:210-242, internal/coverer/taphandler.go:122-178) |
| `CovererTrace.UpReportedExactly` | internal/coverer/taphandler.go:63-77 | in every such run a host's announcement that is not the canary's is reported iff the view can be trusted, so a replay is not reported host by host (with internal/coverer/coverer.go:200-207) |
| `CovererTrace.OnlyWithdrawalsReportDown` | internal/coverer/taphandler.go:55-62 | no event but a host's withdrawal that may be acted on reports a member down |
| `CovererTrace.AuditMakesLossless` | internal/coverer/taphandler.go:112-158 | whatever host events the live stream lost, one audit against snapshots that announce by each edge exactly its true hosts makes every withdrawal verdict of a covered edge the true one, and every advertise verdict in settled families (with internal/guard/guard.go:309-373) |
| `Producer.Producer.PeerEvent` | internal/ribtap/producer.go:141-165 | emits PeerUp on entering and PeerDown on leaving the established state, nothing on other churn or for unknown peers |
| `Producer.SessionsAgreeExactly` | internal/ribtap/producer.go:47-68 | producer and guard agree on every session after every run if and only if no two addresses belong to one edge (with lines 106-165, internal/guard/guard.go:190-197) |
| `Producer.SessionEventsAlternate` | internal/ribtap/producer.go:141-165 | for a table that gives no edge two addresses: per edge, emitted session events strictly alternate starting with PeerUp, and what stands is what is established |
| `Producer.PathsAreLabelled` | internal/ribtap/producer.go:106-139 | over every run, for such a table: since its session changed, an edge's end-of-RIB is in iff its address's marker of that family came; while nothing carries the canary's community its hosts are exactly those whose last path notification is an announcement; a canary announced, with no withdrawal or other canary after it, is up under its prefix (with internal/guard/guard.go:186-219) |
| `Producer.EmittedAreWellFormed` | internal/ribtap/producer.go:106-139 | only events of known edges are emitted, and path events carry a valid prefix and its family (with internal/ribevent/event.go:118-147) |
| `Coverage.Server.Peers` | internal/ribtap/server.go:301-312 | an inverse of the table that misses no edge |
| `Coverage.Server.AddPeer` | internal/ribtap/server.go:202-206 | registers the edge at its address exactly when it has one and is not refused (with lines 269-279) |
| `Coverage.Server.RemovePeer` | internal/ribtap/server.go:286-299 | forgets the address exactly when not refused |
| `Coverage.Server.Ensure` | internal/ribtap/coveragesink.go:51-88 | the new table as a function of the old, the wanted edges and the refusals; the errors name exactly the edges to be added that have no address or whose own addition is refused, and those whose removal is |
| `Coverage.EnsureKeepsConsistent` | internal/ribtap/coveragesink.go:51-88 | a table that is the resolver's mapping on its edges stays so whatever fails, so inverting it loses no session (with internal/ribtap/server.go:304-312) |
| `Coverage.RunKeepsConsistent` | internal/ribtap/coveragesink.go:51-88 | the same over every run of calls |
| `Coverage.EnsurePeersExactly` | internal/ribtap/coveragesink.go:51-88 | for such a table and a resolver that shares no address: an edge is peered afterwards iff wanted and already peered, or wanted with an address and one of its own additions not refused, or unwanted and its removal refused |
| `Coverage.FaultFreeIsFixpoint` | internal/ribtap/coveragesink.go:51-88 | likewise: a call without failures peers exactly the wanted edges that resolve, and repeating it changes nothing, even with failures |
| `Coverage.ConvergesExactly` | internal/ribtap/coveragesink.go:51-88 | such convergence holds for all wanted lists if and only if no two edges resolve to one address (with internal/ribtap/server.go:160-166) |

## Left out

- Streams.NoGappedSnapshot: the byte budget is left to `PushProtocol`; here a fragment waits for channel depth only, which allows more interleavings.
- Stream.Sub.Push: one call that nobody interrupts; interleavings are in `PushProtocol`.
- PushOvertaking.NeverOvertakenExactly: a channel of depth 0, which hands over directly, is not modelled; the source's depth is 4096.
- Guard.Guard.Conflicts: how a prefix is printed is a parameter; library sorting is modelled as insertion.
- Guard.Guard.SourcesOf: library sorting is modelled as insertion into an ascending sequence.
- Guard.Guard.OnEvent: handlers are called after the lock is released; notices are ordered by their locked sections.
- CovererTrace.DownReportedExactly: for events whose family is that of their prefix, as the event constructors make them.
- Coverer.Coverer.RunDue: one undisturbed snapshot; what may come between its reading and its reports is in `CovererSpec`. The reports of a drift audit are likewise sent at once here, and freely interleaved in `CovererSpec`.
- Coverer.Coverer.ReconcileTapView: the snapshots are inputs, taken to be current while they are reconciled.
- Coverer.Coverer.HandleTap: sends are appended to a history; failed sends, which the source only logs, are not modelled.
- Producer.SessionsAgreeExactly: the address table is fixed during a run; `RemovePeer` does not clear the established set, and coverage changes are not mixed in.
- Relay.RelayIsFaithful: (and RelayPush.RelayedBudget) one connection, until its context is cancelled; afterwards the server sends everything again.
- A coverer without a guard, which skips the gates.
- `model.IsHost`, `model.FamilyOf` and prefix masking live in another repository: a host is a /32 or /128, prefixes arrive masked, and the zero prefix counts as IPv4.
- JSON, `SplitDesiredState` and `AssembleChunks`: payloads are bytes with a length, a split is fragments 0 to K-1; a marshalling error in mid-call is not modelled.
- The choice in `relayDirective` of a push call per kind, and directives it drops because they do not decode.
- Edge names are numbers with their order; generations and byte counts are unbounded integers.
- gRPC, dialling, keepalive and reconnects: a send on a stream is a step that succeeds or ends the stream.
- GoBGP, BFD and path attributes: notifications come in normalized, and refusals of peers are inputs.
- What the server makes of reports: end-of-RIB snapshots are sent asynchronously, so no claim is made that its map equals the mirror.
- How many paths a prefix has: the guard keys hosts by prefix, so "present" is what the event history says.
- `PresentAnywhere`, `Sources`, `IsBackpressure`, `memberCount` and the choice of sending a small snapshot whole, backoff, configuration, logging and metrics: easy or presentational.
