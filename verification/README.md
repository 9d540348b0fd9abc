# Verified model of wendy-lite's routing, codec, transport and timer cores

A Dafny 4.11 model of the parts of wendy-lite whose behaviour is hardest to see
from the code: the Babel routing engine of `components/wendy_babel` with its wire
codec, checkpoint and storage, the nanopb encoder and decoder, the receive window
and transmit slot of a BLE mesh pipe, and the timer hub behind `WendyClock.sleep`.
`dafny verify dfyconfig.toml` checks everything. Nothing here is executed.

## How it is put together

**The engine.** `types`, `seqno`, `prefix`, `state` hold the data; `engine` and
`events` give every routine of `engine.c` as a function on the engine's state, in
the order in which the code touches its tables. The allocator, the jitter
generator and the authorisation policy are arbitrary functions in the
configuration, so every statement covers every allocator, seed and fixed policy.
`engine_code` is the engine as it runs, the class `Babel` with the tables as
fields: each routine, with its loops, is proved to be the function of the same
name, and each public call to be one event of a run (`runs`). What is proved about
runs therefore holds of the object. `table_code` and `wire_code` do the same for
the table loops and the codec.

**What is proved about it.**

- Selection (`selection`): the table equals a declarative specification and does
  not depend on the order of any table.
- Runs (`invariant`, `limits`, `admission`, `run_limits`): tables stay well formed,
  limits alone never stop the engine.
- Deadlines (`records`, `settled`, `deadline`, `deadline_runs`), and with `scenario`
  a run that breaks one (`deadline_example`).
- Suppression, transactional export, the read-only query, packet draining
  (`suppression`, `export`, `query`, `packets`).
- Networks (`loop_node`, `loop_event`, `network`, `loops`, `single_origin`,
  `lifetimes`): any number of engines, each with its own clock offset, over links
  that delay, reorder, repeat and lose packets, with nodes that crash and restart
  from a checkpoint, never form a forwarding loop for one source, inside a half
  circle of its sequence numbers.
- Checkpoints and storage (`history`, `history_code`, `history_example`, `restart`,
  `storage`).

**The rest.** `varint`, `proto`, `proto_roundtrip`, `proto_code` model nanopb;
`mesh_pipe` the pipe; `timer_hub` the timer hub.

## Where the code falls short of what one would expect

- *Deadlines.* `wb_next_deadline` is offered as the next wakeup, but sequence
  numbers compare modulo 2^16 and that comparison is not transitive. Exporting the
  selected route can make a better, previously infeasible candidate feasible, with
  nothing scheduled to look again. `DeadlineRuns.DeadlineIsExact` says exactly when
  an early tick is silent (no candidate overtakes), `DeadlineIsSound` that it is
  whenever the numbers known for each source lie in a half circle, and
  `DeadlineExample.EarlyTickCanMove` gives a run from initialisation to an engine
  for which it is not.
- *Restart.* A restored engine has suppression records but no table entries until
  its first tick, and the deadline it announces does not ask for one. It is at rest
  exactly when nothing was selected or suppressed (`Restart.RebornRest`); the first
  tick shows the suppressed prefixes and schedules updates (`Restart.FirstTick`).
- *Timers.* The delay is narrowed to 32 bits: starting a timer traps if and only if
  the earliest deadline is more than 2^31 - 1 milliseconds away
  (`TimerHub.ArmingTraps`). That can also happen long after a sleep was accepted,
  when an earlier sleeper leaves; it cannot if every sleep is asked for in range
  (`TimerHub.InRangeNeverTraps`).
- *Stalled sleepers.* A host that refuses the timer can leave sleepers stalled, as a
  comment in `WendyClock.swift` admits. The answer alone does not decide it. A late
  callback makes the hub forget its timer without cancelling it, and that timer can
  wake sleepers whose own was refused (`TimerHub.ForgottenTimerWakes`); a callback
  that finds its queue full is dropped, and then an accepted timer wakes nobody
  (`TimerHub.LostCallbackStalls`). Left alone, sleepers can wake if and only if some
  host timer of the hub still runs or a callback is on its way
  (`TimerHub.StallIsExact`), and that is always so when the host refuses no timer
  and loses no callback (`TimerHub.SmoothRunsWake`).
- *Checkpoint counters* are 16 bits wide. An image is restored if and only if both
  counts fit and the allocator agrees (`History.RestoreIsExact`), and a build with a
  ceiling of 65536 prefixes reaches an engine that cannot read its own checkpoint
  (`HistoryExample.SavedButLost`).

## Model

| member | source | states |
|---|---|---|
| Seqno.BetterIsRank | components/wendy_babel/src/engine.c:8-21 | inside a half circle of sequence numbers the feasibility comparison is a strict total order, both directions |
| Seqno.NewerIsCyclic | components/wendy_babel/src/engine.c:8-12 | outside a half circle "newer" is cyclic: three numbers each newer than the last |
| Prefixes.MaskInPlace | components/wendy_babel/src/wire.c:32-43 | the masking loop keeps exactly the leading bits of every byte and clears the rest |
| Prefixes.MaskIsValid | components/wendy_babel/src/wire.c:32-51 | masking is idempotent, so a masked prefix of sound length passes the validity test |
| Prefixes.LessIsStrictTotal | components/wendy_babel/src/engine.c:33-39 | the table order (family, bytes, length) is a strict total order |
| Wire.RoundTrip16 | components/wendy_babel/src/wire.c:7-22 | a big-endian 16-bit field reads back what was written |
| Wire.RoundTrip64 | components/wendy_babel/src/wire.c:11-27 | a big-endian 64-bit field reads back what was written |
| WireRoundTrip.UpdateStep | components/wendy_babel/src/wire.c:306-337 | an update with its own router-id and next-hop TLVs is read back whatever context precedes it |
| WireRoundTrip.PacketDecodes | components/wendy_babel/src/wire.c:121-366 | decoding a packet of encoded messages gives those messages in order, in every field a receiver reads, with no context leaking between them |
| WireCode.Put64 | components/wendy_babel/src/wire.c:23-27 | the shifting loop writes the big-endian form |
| WireCode.Encode | components/wendy_babel/src/wire.c:266-366 | the buffer gets exactly the encoding, or nothing when the message is refused or does not fit |
| WireCode.SkipSubs | components/wendy_babel/src/wire.c:52-66 | the cursor loop accepts exactly the well-formed sub-TLV lists without mandatory entries |
| WireCode.CheckFrames | components/wendy_babel/src/wire.c:129-137 | the first pass accepts exactly the bodies whose TLVs all lie inside the packet |
| WireCode.ReadU64 | components/wendy_babel/src/wire.c:11-17 | the shifting loop reads the big-endian value |
| WireCode.ReadPrefix | components/wendy_babel/src/wire.c:97-120 | octets from the default prefix, copied octets and in-place masking give the prefix of the specification, or a refusal |
| WireCode.DigestUpdate | components/wendy_babel/src/wire.c:194-230 | an update body: flags set the packet-local context before the update is judged |
| WireCode.DigestSeqRequest | components/wendy_babel/src/wire.c:231-255 | a sequence-number request body, refused with zero hops or a reserved router |
| WireCode.DigestSimple | components/wendy_babel/src/wire.c:152-187 | Hello, acknowledgement and IHU bodies, refused when short or with a zero interval |
| WireCode.Digest | components/wendy_babel/src/wire.c:151-263 | one TLV: packet-local context is updated even when the sub-TLVs suppress its message |
| WireCode.Visit | components/wendy_babel/src/wire.c:138-264 | the second pass delivers the messages of the recursive parser, in order |
| WireCode.Decode | components/wendy_babel/src/wire.c:121-265 | the two-pass cursor decoder is the recursive decoder, malformed packets included |
| Selection.PreferenceIsTotal | components/wendy_babel/src/engine.c:391-393 | the tie-break (metric, previous link, lower link) is a total preorder, strict on distinct links |
| Selection.PickCandsMeetsSpec | components/wendy_babel/src/engine.c:372-400 | after each slot the table holds the locals and the best eligible candidate seen so far |
| Selection.SuppressLostMeetsSpec | components/wendy_babel/src/engine.c:401-420 | exactly the prefixes that were reachable and are no longer chosen get a fresh hold time |
| Selection.KeepDropsMeetsSpec | components/wendy_babel/src/engine.c:421-435 | a suppression record survives exactly while it has no route and has not lapsed, and then shows as unreachable |
| Selection.SortedSorts | components/wendy_babel/src/engine.c:334-345 | insertion sort gives a strictly sorted table with the same entries |
| Selection.SelectMeetsSpec | components/wendy_babel/src/engine.c:346-467 | the table is strictly sorted with one entry per prefix: local, else the preferred eligible candidate, else unreachable while suppressed; the suppression records are exactly those that remain |
| Selection.ChoiceIsWinner | components/wendy_babel/src/engine.c:372-400 | the chosen route is that of an eligible candidate no eligible one beats, and none is chosen only if none is eligible |
| Selection.SelectionIgnoresOrder | components/wendy_babel/src/engine.c:346-436 | permuting candidates, locals and suppression records does not change the selected table |
| Invariant.SelectKeeps | components/wendy_babel/src/engine.c:346-467 | selection keeps all tables well formed and queues only encodable output for live links |
| Invariant.ReceiveMessageKeeps | components/wendy_babel/src/engine.c:589-645 | so does every received message |
| Invariant.TimersKeeps | components/wendy_babel/src/engine.c:666-725 | so do all timers |
| Invariant.CollectedIsStable | components/wendy_babel/src/storage.c:99-124 | compaction keeps the order of live entries |
| Runs.ApplyKeeps | components/wendy_babel/src/engine.c:726-1048 | every public call keeps the invariant: distinct keys, bounded lifetimes, sendable output, capacities within limits |
| Runs.DecodeDelivers | components/wendy_babel/src/wire.c:121-265 | whatever bytes arrive, a delivered message has a valid prefix, a legal router-id and non-zero intervals and hop count |
| Limits.SelectFits | components/wendy_babel/src/engine.c:346-467 | with at most the route ceiling of distinct prefixes, selection stops only on allocator refusal |
| Admission.LearnUpdateFits | components/wendy_babel/src/engine.c:469-546 | learning an update keeps the count of distinct prefixes within the ceiling |
| Admission.ReceiveAllFits | components/wendy_babel/src/engine.c:589-645 | a whole packet does |
| RunLimits.ApplySteady | components/wendy_babel/src/engine.c:726-1048 | every call of a live engine keeps the distinct prefixes within the ceiling and every route backed by an entry |
| RunLimits.LimitsNeverKill | components/wendy_babel/src/engine.c:87-131 | in every run from initialisation the admitted prefixes and the routes stay within the ceiling, and the engine stops only on allocator refusal or a failed commit |
| Query.UsableMeansChoice | components/wendy_babel/src/engine.c:794-815 | some origin is usable at a time exactly when selection at that time chooses the prefix |
| Query.QueryForetellsTick | components/wendy_babel/src/engine.c:794-815 | for a ready, drained engine some origin satisfies the query at a later time exactly when a tick at that time leaves the prefix reachable |
| Records.SelectedStaysFeasible | components/wendy_babel/src/engine.c:222-249 | exporting the selected route never makes it infeasible, because a hop costs at least one |
| Records.FeasibleShrinks | components/wendy_babel/src/engine.c:157-162 | inside a half circle an export makes nothing else feasible |
| Records.SelectKeepsRecorded | components/wendy_babel/src/engine.c:346-467 | a selection moves a record only to the distance of the selected route |
| Settled.FinishFollowed | components/wendy_babel/src/engine.c:746-765 | what an event leaves behind: costs and candidates unchanged, the table that of its selection |
| Settled.FinishQuiet | components/wendy_babel/src/engine.c:666-725 | after an event no timer, request or refresh that is due is left undone |
| Settled.WindowUndisturbed | components/wendy_babel/src/engine.c:157-162 | inside half circles no candidate overtakes the table an event selected |
| Settled.FinishAtRest | components/wendy_babel/src/engine.c:746-765 | the table is a fixed point of selection unless a candidate overtakes |
| Deadline.DeadlineIsLowerBound | components/wendy_babel/src/engine.c:1049-1096 | nothing in any table comes due before the announced deadline |
| Deadline.EarlyTickIsSilent | components/wendy_babel/src/engine.c:1049-1096 | from rest, an earlier tick queues nothing and changes no route |
| Deadline.OvertakenMoves | components/wendy_babel/src/engine.c:372-400 | a candidate that can overtake does so at the next tick |
| DeadlineRuns.DeadlineIsExact | components/wendy_babel/src/engine.c:1049-1096 | after any completed, committed and drained event a tick before the deadline is silent if and only if no candidate can overtake, unless the allocator refuses |
| DeadlineRuns.DeadlineIsSound | components/wendy_babel/src/engine.c:1049-1096 | inside half circles of sequence numbers it always is |
| DeadlineExample.EarlyTickCanMove | components/wendy_babel/src/engine.c:157-162 | a run from initialisation to an engine that is committed, drained and strictly before its deadline, whose tick changes the table: its own export made a shorter route feasible |
| DeadlineExample.FarOvertakes | components/wendy_babel/src/engine.c:229-249 | in the last event of that run the export of sequence number 0x5000 makes the shorter route at 0xA000 able to overtake |
| Scenario.PlainFinish | components/wendy_babel/src/engine.c:746-765 | when nothing is lost, asked for or suppressed, finishing an event selects the table, runs the links' timers and leaves every other entry alone |
| Packets.PacketIsBatch | components/wendy_babel/src/engine.c:1007-1048 | each packet fits its link, carries exactly the next messages of one link and makes progress |
| Packets.DrainDelivers | components/wendy_babel/src/engine.c:1007-1048 | draining ends, and decoding a link's packets in order gives exactly that link's queued messages in order |
| Export.EveryQueueArrives | components/wendy_babel/src/engine.c:1007-1048 | so in every run from initialisation every neighbour gets exactly the messages queued for it, in order |
| Export.PacketsMatchHost | components/wendy_babel/src/engine.c:991-1048 | over every sequence of calls a packet is produced only while the selected table is the last one committed or unchanged |
| Export.NoEventWhileBusy | components/wendy_babel/src/engine.c:726-745 | no event is accepted with a commit pending or output undrained; only spare capacity may change |
| Export.FailedCommitIsFinal | components/wendy_babel/src/engine.c:991-1006 | after a failed commit no later call yields a packet or changes a route |
| Suppression.SuppressionContinuity | components/wendy_babel/src/engine.c:401-435 | a prefix that was reachable stays in the table, reachable or unreachable, for 3.5 update intervals through every later call of a live run |
| Suppression.LossIsHeld | components/wendy_babel/src/engine.c:301-326 | one call keeps a reachable prefix shown for a full hold time |
| LoopNode.SelectSafe | components/wendy_babel/src/engine.c:346-467 | a selection never announces, for a watched source, a distance worse than its record |
| LoopNode.ReceiveAllSafe | components/wendy_babel/src/engine.c:589-645 | a received packet keeps that, and never weakens a record |
| LoopEvent.EventSafe | components/wendy_babel/src/engine.c:726-1048 | so does every event of one node |
| LoopEvent.EventJustified | components/wendy_babel/src/engine.c:372-400 | a selected route of a source is feasible against the record it was selected under |
| LoopEvent.EventSourced | components/wendy_babel/src/engine.c:469-546 | every candidate was there before, aged or retracted, or carries an update of the packet that arrived |
| Network.LiveMoves | components/wendy_babel/src/engine.c:726-1048 | one event of one node moves the network only in ways the loop invariant allows |
| Network.RestartMoves | components/wendy_babel/src/history.c:110-171 | so does a restart from a checkpoint |
| LoopFreedom.StepKeeps | components/wendy_babel/src/engine.c:157-162 | every step of a network (time, event, packet sent, delivered or lost, restart) keeps the loop invariant |
| LoopFreedom.HopDescends | components/wendy_babel/src/engine.c:157-162 | one hop towards the next node strictly improves the feasibility record |
| LoopFreedom.NeverLoops | components/wendy_babel/src/engine.c:157-250 | in every run of any number of engines over lossy, reordering links, while records outlast what they protect and sequence numbers stay in a half circle, the next hops for a source never form a cycle |
| SingleOrigin.OneOriginNeverLoops | components/wendy_babel/src/engine.c:157-250 | a prefix originated by one router alone: no forwarding loop at all |
| Lifetimes.RecordsOutlive | components/wendy_babel/src/engine.c:248-249 | with equal clock rates and transit delay within source_ms minus 3.5 update_ms, a sender's record outlives every finite candidate learned from it |
| Lifetimes.PunctualNeverLoops | components/wendy_babel/src/engine.c:646-665 | loop freedom from timing and half circles alone |
| History.RestoreSucceeds | components/wendy_babel/src/history.c:39-171 | restoring the saved image under the same configuration succeeds when both counts fit 16 bits and the allocator agrees, with no links and no routes |
| History.RestoreIsExact | components/wendy_babel/src/history.c:110-171 | and only then: a restore succeeds if and only if both counts fit and the allocator agrees, and an image with a larger count is refused as malformed |
| HistoryExample.CanHost | components/wendy_babel/src/engine.c:926-964 | for every n up to 65536 a run from initialisation originates n prefixes |
| HistoryExample.SavedButLost | components/wendy_babel/src/history.c:51-109 | so a run leads to a live engine whose own image is refused under its own configuration |
| Restart.RebornRest | components/wendy_babel/src/history.c:110-171 | a restored engine is at rest exactly when nothing was selected or suppressed |
| Restart.RebornDeadline | components/wendy_babel/src/engine.c:1049-1096 | the deadline it announces is the end of its records, nothing sooner |
| Restart.FirstTick | components/wendy_babel/src/engine.c:421-448 | its first tick shows exactly the prefixes still suppressed, as unreachable, and schedules an update within 150 ms if there are any |
| Restart.FirstDeadline | components/wendy_babel/src/engine.c:1089-1094 | once the change of that first tick is committed, the deadline is at most 150 ms away |
| History.VerdictsSurvive | components/wendy_babel/src/history.c:39-171 | every feasibility verdict is the same after the restart |
| History.SuppressionSurvives | components/wendy_babel/src/history.c:39-171 | exactly the selected and suppressed prefixes are suppressed, each for at least a hold time and no shorter than it had left |
| History.RebornCore | components/wendy_babel/src/history.c:110-171 | the restored engine satisfies the engine invariant |
| History.RestoreRecovers | components/wendy_babel/src/history.c:110-171 | a restore is the crash step of the network theorem |
| HistoryCode.Save | components/wendy_babel/src/history.c:39-109 | the code writes exactly the image; the size query returns its length and writes nothing |
| HistoryCode.RestoreSources | components/wendy_babel/src/history.c:141-156 | the loop fills the source table slot by slot and rejects duplicates, bad prefixes and bad router-ids |
| HistoryCode.RestoreDrops | components/wendy_babel/src/history.c:157-166 | the loop fills the suppression table and rejects duplicates and bad prefixes |
| HistoryCode.RestoreEngine | components/wendy_babel/src/history.c:110-171 | the code restores exactly what the image denotes, or refuses |
| Storage.Ledger.Allocate | components/wendy_babel/src/storage.c:27-36 | a granted block counts at once and the peak follows |
| Storage.Table.Resize | components/wendy_babel/src/storage.c:19-41 | a new block with the old contents and empty new slots; a refusal changes nothing |
| Storage.Table.Reserve | components/wendy_babel/src/storage.c:43-59 | doubling ends at a capacity within the maximum that suffices; old contents kept, new slots empty |
| Storage.Table.Compact | components/wendy_babel/src/storage.c:99-107 | live slots move to the front in order, the rest is cleared |
| Storage.Table.Collect | components/wendy_babel/src/storage.c:99-116 | compaction, and a smaller block when at most half is live and the allocator agrees |
| Storage.Gather | components/wendy_babel/src/storage.c:101-105 | the in-place loop leaves the live entries in order |
| Storage.Store.Reserve | components/wendy_babel/src/storage.c:43-59 | the byte count stays exactly the sum over tables of capacity times item size, never above the peak |
| Storage.Store.Collect | components/wendy_babel/src/storage.c:117-154 | likewise for a collection |
| Storage.ReserveSuffices | components/wendy_babel/src/storage.c:43-59 | a refusal within the maximum is the allocator's |
| Storage.CollectIsInvisible | components/wendy_babel/src/storage.c:99-124 | collection keeps exactly the live entries in order, whether or not the shrink succeeds |
| TableCode.FindLink | components/wendy_babel/src/engine.c:56-62 | the loop finds the first slot with the link |
| TableCode.FindSource | components/wendy_babel/src/engine.c:63-70 | the loop finds the record of a prefix and router |
| TableCode.FindRoute | components/wendy_babel/src/engine.c:71-77 | the loop finds the selected entry |
| TableCode.FindLocal | components/wendy_babel/src/engine.c:78-84 | the loop finds the local entry |
| TableCode.FindRequest | components/wendy_babel/src/engine.c:259-269 | one pass finds the pending request or else the first free slot |
| TableCode.ReserveSlots | components/wendy_babel/src/storage.c:43-59 | the capacity loop gives the capacity of the specification |
| TableCode.AdmissionCount | components/wendy_babel/src/engine.c:100-131 | the three loops count every distinct prefix of the three tables exactly once |
| TableCode.LookUp | components/wendy_babel/src/engine.c:1097-1114 | the loop is the recursive lookup |
| TableCode.LookupIsLongest | components/wendy_babel/src/engine.c:1097-1114 | the result covers the host and nothing longer does; nothing is found only if nothing covers it |
| TableCode.LookupIsUnique | components/wendy_babel/src/engine.c:1097-1114 | the longest covering entry, unreachable or not, is the one returned |
| EngineCode.Babel.constructor | components/wendy_babel/src/engine.c:766-788 | initialisation leaves empty tables, ready |
| EngineCode.Babel.Trigger | components/wendy_babel/src/engine.c:170-178 | schedules an update unless one is scheduled, with two repeats on request |
| EngineCode.Babel.Cost | components/wendy_babel/src/engine.c:136-146 | the cost of a link at a time, infinite when it is silent |
| EngineCode.Babel.MetricOf | components/wendy_babel/src/engine.c:147-156 | the metric of a candidate under the policy |
| EngineCode.Babel.IsFeasible | components/wendy_babel/src/engine.c:157-162 | the feasibility condition |
| EngineCode.Babel.Queue | components/wendy_babel/src/engine.c:179-192 | output for a live link within the ceiling, or nothing |
| EngineCode.Babel.Record | components/wendy_babel/src/engine.c:222-248 | a record is created, improved or only refreshed; no room means no announcement |
| EngineCode.Babel.Advertise | components/wendy_babel/src/engine.c:193-250 | retraction, split horizon, IPv4 next hop, record, announcement |
| EngineCode.Babel.Dump | components/wendy_babel/src/engine.c:251-255 | every entry of the table in order |
| EngineCode.Babel.Request | components/wendy_babel/src/engine.c:256-300 | a request is started or raised and sent once to each distinct target |
| EngineCode.Babel.AskEach | components/wendy_babel/src/engine.c:291-299 | targets are noted and served in order, each once, up to the link ceiling |
| EngineCode.Babel.DropRoute | components/wendy_babel/src/engine.c:301-326 | a suppression record is set or the engine stops |
| EngineCode.Babel.PickLocals | components/wendy_babel/src/engine.c:360-371 | local prefixes first |
| EngineCode.Babel.PickCands | components/wendy_babel/src/engine.c:372-400 | then every candidate slot against the table under construction |
| EngineCode.Babel.SuppressLost | components/wendy_babel/src/engine.c:401-420 | lost prefixes are suppressed and asked for |
| EngineCode.Babel.KeepDrops | components/wendy_babel/src/engine.c:421-435 | suppressed prefixes become unreachable entries |
| EngineCode.SortInPlace | components/wendy_babel/src/engine.c:334-345 | the in-place insertion sort gives the sorted table |
| EngineCode.InsertInPlace | components/wendy_babel/src/engine.c:336-343 | one pass inserts one entry into the sorted front and leaves the rest |
| EngineCode.Babel.NoteChanges | components/wendy_babel/src/engine.c:437-448 | what changed schedules updates |
| EngineCode.Babel.SatisfyRequests | components/wendy_babel/src/engine.c:449-460 | answered requests are relayed and forgotten |
| EngineCode.Babel.SelectRoutes | components/wendy_babel/src/engine.c:346-467 | the whole of selection on the engine's fields |
| EngineCode.Babel.ScanCands | components/wendy_babel/src/engine.c:471-487 | one pass finds the entry and the first free slot, or retracts everything of the link |
| EngineCode.Babel.IsAdmissible | components/wendy_babel/src/engine.c:87-131 | admission: already known, or room for one more distinct prefix |
| EngineCode.Babel.LearnUpdate | components/wendy_babel/src/engine.c:469-546 | an update is retraction, refusal, or a new or changed candidate with its request |
| EngineCode.Babel.Forward | components/wendy_babel/src/engine.c:562-584 | a request goes on to the best-placed neighbour, one hop poorer |
| EngineCode.Babel.AnswerSeqRequest | components/wendy_babel/src/engine.c:547-584 | answer, raise the own sequence number, or forward |
| EngineCode.Babel.AnswerRequest | components/wendy_babel/src/engine.c:627-637 | a full dump at most once per Hello interval, or one entry |
| EngineCode.Babel.ReceiveMessage | components/wendy_babel/src/engine.c:589-645 | dispatch of one received message |
| EngineCode.Babel.ReceiveAll | components/wendy_babel/src/engine.c:977-990 | all messages of a packet in order |
| EngineCode.Babel.Expire | components/wendy_babel/src/engine.c:646-665 | candidates are retracted and later freed; records and requests freed |
| EngineCode.Babel.LinkTimers | components/wendy_babel/src/engine.c:668-693 | Hello, IHU and full updates of every link |
| EngineCode.Babel.TriggeredDump | components/wendy_babel/src/engine.c:694-703 | triggered updates and their repeats |
| EngineCode.Babel.RequestTimers | components/wendy_babel/src/engine.c:704-712 | due requests are repeated |
| EngineCode.Babel.RefreshTimers | components/wendy_babel/src/engine.c:713-724 | a selected route about to lapse is asked for once |
| EngineCode.Babel.Timers | components/wendy_babel/src/engine.c:666-725 | all timers in order |
| EngineCode.Babel.Collect | components/wendy_babel/src/storage.c:117-154 | every table is compacted |
| EngineCode.Babel.Begin | components/wendy_babel/src/engine.c:726-745 | refusals leave the state alone; otherwise time advances and old output is dropped |
| EngineCode.Babel.Finish | components/wendy_babel/src/engine.c:746-765 | a changed table waits for its commit, an unchanged one is ready at once |
| EngineCode.Babel.Tick | components/wendy_babel/src/engine.c:789-793 | one wake event of a run |
| EngineCode.Babel.AddLink | components/wendy_babel/src/engine.c:868-898 | one attach event of a run |
| EngineCode.Babel.RemoveLink | components/wendy_babel/src/engine.c:899-913 | one detach event of a run |
| EngineCode.Babel.SetCost | components/wendy_babel/src/engine.c:914-925 | one cost event of a run |
| EngineCode.Babel.Originate | components/wendy_babel/src/engine.c:926-964 | one origination event of a run |
| EngineCode.Babel.Withdraw | components/wendy_babel/src/engine.c:965-976 | one withdrawal event of a run |
| EngineCode.Babel.Receive | components/wendy_babel/src/engine.c:977-990 | one arrival event of a run |
| EngineCode.Babel.Commit | components/wendy_babel/src/engine.c:991-1006 | one commit event of a run |
| EngineCode.Babel.RequestPrefix | components/wendy_babel/src/engine.c:839-867 | one enquiry of a run: the whole batch is reserved first |
| EngineCode.Babel.NextPacket | components/wendy_babel/src/engine.c:1007-1048 | one sending event of a run, with exactly its packet in the caller's buffer |
| EngineCode.Babel.FillPacket | components/wendy_babel/src/engine.c:1023-1039 | the encode-and-copy loop takes as many messages of one link as fit |
| EngineCode.Babel.UsableOrigin | components/wendy_babel/src/engine.c:794-815 | the query loop, which changes nothing |
| EngineCode.Babel.Deadline | components/wendy_babel/src/engine.c:1049-1096 | the five loops give the deadline |
| Varint.EncodeSplit | components/nanopb/pb_encode.c:573-606 | the encoder that never shifts a 64-bit word emits the canonical base-128 form |
| Varint.EncodeVarint | components/nanopb/pb_encode.c:607-623 | so does the entry point, in at most ten bytes |
| Varint.DecodeVarint | components/nanopb/pb_decode.c:243-264 | the 64-bit loop is the recursive decoder |
| Varint.DecodeVarint32 | components/nanopb/pb_decode.c:171-241 | the 32-bit loop is the recursive decoder, sign extension and overflow checks included |
| Varint.Decode64Inverts | components/nanopb/pb_decode.c:243-264 | decoding a canonical form gives the value back, whatever follows |
| Varint.Decode32Inverts | components/nanopb/pb_decode.c:171-241 | likewise for 32 bits |
| Varint.DecodersAgree | components/nanopb/pb_decode.c:171-264 | what the 32-bit decoder accepts the 64-bit one accepts, at the same length and modulo 2^32 |
| Varint.ZigZag | components/nanopb/pb_encode.c:625-634 | zig-zag encoding and decoding are inverse, both ways |
| ProtoRoundTrip.NumberRead | components/nanopb/pb_decode.c:1425-1495 | a number of any scalar kind is read back from its own bytes |
| ProtoRoundTrip.PackedFieldRead | components/nanopb/pb_decode.c:479-509 | a packed repeated field is read back |
| ProtoRoundTrip.UnpackedRead | components/nanopb/pb_decode.c:510-520 | an unpacked repeated field is read back |
| ProtoRoundTrip.TailRead | components/nanopb/pb_decode.c:990-1152 | any suffix of fields is read back into the fields before it |
| ProtoRoundTrip.RoundTrip | components/nanopb/pb_decode.c:990-1152 | for every static descriptor with ascending tags, decoding exactly the encoded bytes gives the message back |
| ProtoCode.OStream.Write | components/nanopb/pb_encode.c:84-113 | bytes are written or counted; too many is an error |
| ProtoCode.PutSub | components/nanopb/pb_encode.c:724-772 | a submessage is sized, then written with that length; the size never changes between the passes |
| ProtoCode.PutPacked | components/nanopb/pb_encode.c:144-196 | a packed array is sized, then written |
| ProtoCode.PutField | components/nanopb/pb_encode.c:418-470 | one field: absent, default, oneof, array or single |
| ProtoCode.PutMessage | components/nanopb/pb_encode.c:512-534 | all fields in descriptor order |
| ProtoCode.EncodeBuffer | components/nanopb/pb_encode.c:512-534 | succeeds exactly when the message is encodable and fits, and then holds its encoding |
| ProtoCode.EncodedSize | components/nanopb/pb_encode.c:557-568 | the sizing pass returns the length the writing pass produces |
| ProtoCode.Find | components/nanopb/pb_common.c:195-244 | the iterator search from any position finds the field with the tag, or none |
| ProtoCode.ReadPacked | components/nanopb/pb_decode.c:479-509 | the loop over a packed substream |
| ProtoCode.ReadMessage | components/nanopb/pb_decode.c:990-1152 | the decoding loop is the recursive decoder |
| MeshPipe.BudgetIsExact | components/wendy_ble/src/mesh_rx_window.h:5-15 | the budget is the largest number of slots that can be armed with a full MTU of room each |
| MeshPipe.RxStepKeeps | components/wendy_ble/src/wendy_ble_mesh.c:374-437 | every host, stack or reader step keeps the room invariant |
| MeshPipe.WindowIsSafe | components/wendy_ble/src/wendy_ble_mesh.c:374-437 | in every interleaving, disconnection included, armed slots fit the free space while the channel lasts, no SDU within the MTU is refused, and bytes are read in the order received |
| MeshPipe.TxStepKeeps | components/wendy_ble/src/wendy_ble_mesh.c:512-553 | every producer or stack step keeps the one-chunk invariant |
| MeshPipe.SentExactlyOnce | components/wendy_ble/src/wendy_ble_mesh.c:512-553 | whatever the stack answers, and through a disconnection, what it sent is a prefix of what was accepted, and all of it once drained |
| MeshPipe.OneChunkOutstanding | components/wendy_ble/src/wendy_ble_mesh.c:1578-1606 | while open, at most the one chunk in the slot is outstanding |
| MeshPipe.Ring.Append | components/wendy_ble/src/wendy_ble_mesh.c:374-397 | an SDU is copied in one or two pieces behind what is there |
| MeshPipe.Ring.Take | components/wendy_ble/src/wendy_ble_mesh.c:1556-1577 | the oldest bytes leave in one or two pieces, in order |
| MeshPipe.Pipe.Receive | components/wendy_ble/src/wendy_ble_mesh.c:374-397 | delivery under the lock is the arrival step |
| MeshPipe.Pipe.PlanArming | components/wendy_ble/src/wendy_ble_mesh.c:455-472 | planning under the lock is the re-arm step of the window and keeps its room invariant |
| MeshPipe.Pipe.Disconnect | components/wendy_ble/src/wendy_ble_mesh.c:746-752 | the disconnection under the lock is the disconnect step of window and slot |
| MeshPipe.Pipe.RecordSubmit | components/wendy_ble/src/wendy_ble_mesh.c:398-437 | submission results are the submit steps |
| MeshPipe.Pipe.Read | components/wendy_ble/src/wendy_ble_mesh.c:1556-1577 | a read is the read step |
| MeshPipe.Pipe.Write | components/wendy_ble/src/wendy_ble_mesh.c:1578-1606 | a write is the write step |
| MeshPipe.Pipe.RecordSend | components/wendy_ble/src/wendy_ble_mesh.c:512-553 | a send result is the settle step |
| MeshPipe.Pipe.Resume | components/wendy_ble/src/wendy_ble_mesh.c:757-774 | an unstall is the resume step |
| MeshPipe.Pipe.OutputDrained | components/wendy_ble/src/wendy_ble_mesh.c:1628-1635 | true only when nothing accepted is outstanding |
| TimerHub.MillisecondsRoundedUp | Sources/WendyLite/WendyClock.swift:240-260 | the conversion rounds up and saturates |
| TimerHub.NeverEarly | Sources/WendyLite/WendyClock.swift:221-229 | a delay that fits 32 bits never ends before the deadline and is at most a millisecond late |
| TimerHub.TrapsBeyondRange | Sources/WendyLite/WendyClock.swift:221-228 | the narrowing to 32 bits traps exactly for deadlines more than 2^31 - 1 milliseconds away |
| TimerHub.ArmingTraps | Sources/WendyLite/WendyClock.swift:209-230 | re-arming traps if and only if a timer has to be started for such a deadline |
| TimerHub.LoneSleepTraps | Sources/WendyLite/WendyClock.swift:118-137 | for a first sleeper that is decided by its deadline alone |
| TimerHub.LongSleepTraps | Sources/WendyLite/WendyClock.swift:118-137 | a sleep of 25 days traps |
| TimerHub.InRangeNeverTraps | Sources/WendyLite/WendyClock.swift:118-238 | a run in which every sleep is asked for at most 2^31 - 1 milliseconds ahead never traps |
| TimerHub.StuckRun | Sources/WendyLite/WendyClock.swift:209-231 | with no host timer running and no callback on its way nobody becomes ready while the earliest deadline stays the same |
| TimerHub.StallIsExact | Sources/WendyLite/WendyClock.swift:209-238 | left alone, sleepers can wake if and only if a host timer started for the hub still runs, known to it or not, or a callback is on its way |
| TimerHub.StallsInRuns | Sources/WendyLite/WendyClock.swift:118-238 | so in every reachable world with waiters and a free lock; the hub always has asked for a timer for the earliest of them |
| TimerHub.SmoothRunsWake | Sources/WendyLite/WendyClock.swift:118-238 | in every run in which the host refuses no timer and loses no callback, whoever waits can wake: nobody is stuck |
| TimerHub.RefusedSleepStalls | Sources/WendyLite/WendyClock.swift:225-229 | one refused timer and nobody else: the sleeper is stuck |
| TimerHub.LostCallbackStalls | components/wendy_callback/src/wendy_callback.c:108-128 | an accepted timer whose callback finds the queue full: the hub still knows a timer and the sleeper is stuck |
| TimerHub.ForgottenTimerWakes | Sources/WendyLite/WendyClock.swift:169-191 | a late callback makes the hub forget a timer without cancelling it; though the next one is refused, the forgotten one still wakes the sleeper |
| TimerHub.HubKeeps | Sources/WendyLite/WendyClock.swift:118-238 | every operation keeps the waiters sorted and the timer on the earliest |
| TimerHub.StepKeeps | Sources/WendyLite/WendyClock.swift:118-202 | every step of sleep, cancellation, firing and draining keeps the hub invariant |
| TimerHub.ResumedOnce | Sources/WendyLite/WendyClock.swift:118-238 | each sleeper is resumed at most once and not before its deadline unless cancelled; waiters stay sorted and the armed deadline is the earliest |
| TimerHub.CancelledIsRemoved | Sources/WendyLite/WendyClock.swift:126-167 | a cancelled sleeper is gone from both lists whenever the cancellation came |
| TimerHub.Divide | Sources/WendyLite/WendyClock.swift:175-186 | expired sleepers are separated from the rest in order |
| TimerHub.LockedHub.Park | Sources/WendyLite/WendyClock.swift:128-136 | registration under the lock |
| TimerHub.LockedHub.Cancel | Sources/WendyLite/WendyClock.swift:154-167 | cancellation under the lock |
| TimerHub.LockedHub.TimerFired | Sources/WendyLite/WendyClock.swift:169-191 | firing under the lock |
| TimerHub.LockedHub.Reschedule | Sources/WendyLite/WendyClock.swift:209-238 | the host timer stands for the earliest waiter, or the narrowing of its delay traps |

## Left out

- Counters, logging, `wb_memory` and the default values filled in by `wb_init`: no routing decision reads them.
- `wb_link_has_usable_origin`: the query loop of `wb_has_usable_origin` restricted to one link.
- The arithmetic of the jitter generator: only its range matters.
- A policy that changes over time: `allow` is one fixed predicate.
- Wrap-around of 64-bit times: `begin` refuses times within two days of the wrap, and lifetimes are at most a day; times are unbounded integers.
- EngineCode.Babel.Receive: the decoder hands over its messages as a list; the original calls back for each one while parsing. The parser does not read the engine, so the order of effects is the same.
- EngineCode.Babel.SortRoutes: the table field is a sequence; the in-place sort works on an array with its contents.
- EngineCode.Babel.Collect: capacities are counted in slots; bytes are accounted for in module Storage.
- WireCode.Encode: writes reserved bytes and lengths in order instead of patching a zeroed buffer.
- WireCode.Decode: null pointers are not modelled, and the two address forms are copied by the specification's own function.
- LoopFreedom.NeverLoops: for sequence numbers of the source inside a half circle, the range in which the comparison of section 3.2.1 of RFC 8966 is an order, and while records outlast what they protect, which Lifetimes.RecordsOutlive derives from timing; outside nothing is claimed.
- LoopFreedom.NeverLoops: which link ends belong together is fixed for a run, clock rates are equal, and a restart uses a checkpoint of the current history, as the header asks of callers. Only a node that is still running restarts; one that stopped after a failed commit or a refusal, and comes back from its last checkpoint, is not a step.
- LoopFreedom.NeverLoops: one source (prefix and router) at a time; for a prefix with a single origin SingleOrigin.OneOriginNeverLoops excludes every loop.
- DeadlineRuns.DeadlineIsSound: under the half-circle assumption only; the exact condition is in DeadlineIsExact.
- ProtoRoundTrip.RoundTrip: for encodings shorter than 2^32 bytes, since a length is read back as 32 bits.
- ProtoCode.EncodeBuffer: sizes below 2^64.
- nanopb callbacks, extensions, pointer fields, delimited and null-terminated framing, UTF-8 validation and float conversion.
- MeshPipe: connection set-up, GAP ownership, retry timers and the buffer pool; the stack's answers are arbitrary.
- MeshPipe.WindowIsSafe: one or two receive slots, as built.
- MeshPipe.WindowIsSafe: a pipe that is closing and is told that the connection is already gone (`wendy_ble_mesh.c`, lines 495 to 499) drops its channel without clearing owed slots or the pending chunk; that step is not modelled.
- TimerHub.StallIsExact: how long the host takes is not modelled; a started timer may elapse at any time. Timers of other users of the host, which compete for its eight slots and may reuse the number of a spent one, appear only as refusals.
- TimerHub.StallIsExact: the callback queue is not modelled entry by entry; a callback may be lost whenever its timer elapses.
- TimerHub.ResumedOnce: the resumption of a continuation is a step of its own; what the resumed task does is not modelled.
- Everything else in the repository: radio, TLS, WASM host, console and broker plumbing.
