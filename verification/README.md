# A verified model of signald

`signald` keeps, per market series, a set of moving averages and a market-structure state over closed
candles. Each series has one lane. A lane validates a candle, reduces it on clones, commits points,
frame, checkpoints and cursor to a transactional store, and only then advances in memory. After a
restart it restores from checkpoints and an authoritative OHLC seed, catches up, or rebuilds. What the
store logs is published by an outbox dispatcher to a hub, which feeds WebSocket clients that may resume
from a cursor; forming frames go to a broker that coalesces them.

This project models those parts in Dafny and proves what holds of every input, every run and every
interleaving. `dafny verify dfyconfig.toml` checks all of it.

How it is organised:

- **Lane and store.** `Store` and `Lane` give each transaction and each command as a function from the
  old state to the new one. `Store.Memory` and `LaneObject.Actor` are the mutable objects, with the
  source's loops, proved equal to those functions. `Fold` says what a lane and a store must hold for a
  history of candles; `Durable`, `Commit`, `Rebuild`, `Steps`, `Recovery` and `Runs` prove that every
  command keeps it. `LogShape` proves the log's shape with no assumption on lanes or seeds at all, and
  `Fleet` lifts both to many lanes over one store. `Frames` says what the log, the current frame and the
  checkpoints then hold, entry by entry.
  `Restarts`, `Conflicts`, `Seeds`, `Repeats` and `Parity` prove the laws of seeding. `Limits` shows where they stop.
- **Delivery.** `Outbox` and `Hub` are the dispatcher and the clients; `Delivery` is the step system in
  which commits, flushes with failures, subscribe, paged replay, activation, writes and disconnects
  interleave freely, and `Sockets` states what a client then finds on its socket. `Coalescer` is the
  broker's treatment of forming frames.
- **Market structure.** `Candles`, `Zigzag`, `Swings`, `Breaks`, `Zones`, `Liquidity`, `Market` and
  `ZoneLifecycle` (file `Lifecycle.dfy`). `Views` says what an evaluation must be, over the candles
  alone, without naming any of the functions that compute it.
- **Averages.** `Ema`.

Conventions. Prices are reals. Times are naturals, 0 standing for Go's zero time. Digests are the tuples
that are hashed, hence injective; a candle's digest does not contain its open time, and symbol and
timeframe are hashed back to back. JSON snapshots are copies. Map iteration order is arbitrary. Store
failures, publish failures, write failures and clock readings are inputs. Each command, and each client
operation, is one atomic step. `history` always means valid closed candles in strictly increasing time.

Where code and documentation part, the model follows the code:

- docs/restart-recovery-incident-2026-09-06.md:52 calls repeated identical seeds idempotent. That holds
  if the first call rebuilt or the lane was running (`Repeats.SeedTwice`). It fails after a plain
  restart: a correction older than the checkpoint is missed by the first seed, and the second one
  rebuilds (`Limits.RestartMissesCorrection`). `Repeats.RepeatIsExact` has the exact condition.
- The restore loop does not skip repeated seed candles, while the rebuild loop does, so a restart can
  count a candle twice (`Limits.RestartDoubleCounts`); and it takes over a candle corrected between
  checkpoint and cursor without rewriting the stored points. `Limits.FaithfulExactly` says which seeds
  are safe.
- A seed whose latest closed candle has no open time succeeds on a running lane without moving the
  cursor; `Seeds.SeedIsAuthoritative` has the exact condition.
- An empty seed after a restart wipes a series but leaves its cursor. If the candle under that cursor
  then closes, the store skips the commit: the candle leaves no entry in the log (`Frames.CommandLog`),
  and with a one-sample average its point is never written; `Limits.SafeToCloseExactly` has the exact condition and `Limits.SkipIsReachable` a run that gets there.
- The late-close rule of the breakout cascade (internal/indicator/market.go:534-546) never decides
  anything (`Breaks.BreakoutIsOneTest`).

## Model

| member | source | states |
|---|---|---|
| `Runs.EveryRun` | internal/engine/lane.go:193-588 | After any run of seeds, closes, forming candles, store failures and crashes from an empty store in which closes are safe and seeds that are restored from repeat the committed candles, one strictly increasing history determines the lane (averages, window of 500, counts, last candle, revision) and the store (cursor, points, one shared checkpoint), and the point table is exactly the from-scratch averages |
| `Fleet.EveryFleetRun` | internal/engine/lane.go:193-588 | The same of any number of lanes over one store, their commands interleaved in any order: one history per lane determines that lane and its part of the store |
| `Frames.EveryFrame` | internal/engine/lane.go:193-588 | After any such run the log is, cursor by cursor, what its commands tell: for every applied candle one point per warm period and then a frame with the view of the last 500 candles, the transitions from the view before and one from-scratch average per period; for every rebuild the reset frame. Unless the store skipped a close, the current frame of the series is that of the history and every checkpoint that was due has been taken, or a later one |
| `Frames.StepTells` | internal/engine/lane.go:193-653 | The same command by command, whatever else shares the store: what each one appends to the log, the frame the store then shows, and that no due checkpoint is missed; a close the store skips appends nothing |
| `Frames.ClosedFrame` | internal/engine/lane.go:537-564 | The last entry after a close carries the market state a from-scratch computation over the whole history ends with, and for every period in order the from-scratch average, sample count and readiness |
| `Frames.ClosedTells` | internal/engine/lane.go:537-564 | A close in step appends the points and the frame of the extended history, or nothing |
| `Frames.CatchUpTells` | internal/engine/lane.go:478-497 | A catch-up, also one that stops half-way, appends points and frame of each candle it applied, in order |
| `Frames.RebuildTells` | internal/engine/lane.go:315-365 | A rebuild logs nothing but, on a series known before, one reset frame: that of its last kept candle with the last 500 closed seed candles before it; the store then shows that frame and holds checkpoints of the whole history |
| `Runs.EveryProjection` | internal/engine/lane.go:565-653 | After any run at all, admissible or not: a lane that folds a history shows for its forming candle exactly the averages that history would have with the candle on top, for the periods warm by then; after a close, rebuild or restart it shows none |
| `Runs.StepKeeps` | internal/engine/lane.go:193-653 | Each command keeps that invariant, with the history it extended or replaced |
| `Runs.SeedKeeps` | internal/engine/lane.go:193-228 | The same for a seed on every path: rebuild from whatever the seed holds, restore and catch up, failed catch-up followed by a rebuild, and store failures on each |
| `Runs.ClosedKeeps` | internal/engine/lane.go:499-588 | The same for a closed candle that is refused, that fails, or that meets a lane which has caught up with the store |
| `Runs.RestoresExactly` | internal/engine/lane.go:212-227 | In every reachable state a restart seed is restored from if and only if it covers the last checkpoint and the cursor, agrees at the cursor and is valid between |
| `Fold.PointMapIsExact` | internal/engine/lane.go:711-728 | For every history the points are exactly one per candle and warmed-up period, valued at the average over the candles up to it, and no other |
| `Fold.CloneIsIdentity` | internal/engine/lane.go:694-709 | Cloning reducers through their snapshots loses nothing, for every history |
| `Commit.CommitExtends` | internal/store/memory.go:92-118 | Committing the next candle is accepted, keeps the log invariant, and leaves the store folding the history with that candle appended |
| `Commit.CommitKeepsLog` | internal/store/memory.go:92-118 | A commit keeps dense cursors, ordered and bounded candle times, unique identities and well-shaped points |
| `Commit.CommitFields` | internal/store/memory.go:92-118 | No event of a new candle is mistaken for a stored one: every point and the frame is appended with the next cursor, every point is stored, the frame becomes the current one, and what is reported is what was appended |
| `Commit.CommitIsIdempotent` | internal/store/memory.go:101-113 | Committing the same events again, points and frames mixed and in any store whose cursored points are in its log, changes nothing and reports logged events |
| `Commit.TransactionsStayLogged` | internal/store/memory.go:54-118 | Both transactions keep every cursored point in the log |
| `Rebuild.BuildIsFold` | internal/engine/lane.go:279-314 | A build loop that succeeds folds exactly the kept candles, which then form a history |
| `Rebuild.RebuildReplaces` | internal/engine/lane.go:279-365 | A successful rebuild makes the kept candles the history of lane and store; a failed one changes neither |
| `Rebuild.EmptyRebuild` | internal/store/memory.go:54-90 | Rebuilding to nothing wipes points and checkpoints and keeps log and cursor |
| `Steps.ClosedExtends` | internal/engine/lane.go:499-588 | A closed candle extends the shared history by itself or changes nothing; any error leaves lane and store as they were |
| `Steps.ClosedVerdict` | internal/engine/lane.go:499-557 | Which closed candles are refused and with which error: open, invalid, behind or different from the last, off the time grid, turned down by the store; the last candle again is accepted and not applied |
| `Steps.CatchUpExtends` | internal/engine/lane.go:478-497 | A catch-up extends the shared history by seed candles only, also when it stops half-way |
| `Recovery.RestoreFolds` | internal/engine/lane.go:367-476 | Whatever the seed, a restored lane is the fold of the checkpointed candles followed by the seed's closed candles after the checkpoint through the cursor |
| `Recovery.RecoveryRestoresHistory` | internal/engine/lane.go:367-476 | With a seed that repeats the committed candles after the checkpoint, every reducer, window, count, revision and last candle is the fold of the durable history |
| `Recovery.RestoreSucceedsExactly` | internal/engine/lane.go:413-459 | Restoring succeeds if and only if the seed covers checkpoint and cursor, agrees at the cursor and is valid from the checkpoint on |
| `Limits.RecoveryIsExact` | internal/engine/lane.go:413-476 | The restored lane folds the durable history if and only if it cannot tell the seed's candles after the checkpoint from the committed ones; while those fit the window, if and only if they are the same, none missing and none doubled |
| `Limits.FaithfulExactly` | internal/engine/lane.go:193-228 | For every restart seed, candles beyond the cursor included: not restored from, it keeps the run's invariant. Restored from, it keeps it only if its candles between checkpoint and cursor are as many as the committed ones and give the same averages, and surely if the lane cannot tell them apart. It is if and only if they are the committed ones while those and the seed's new ones fit the window, and if and only if the lane cannot tell them apart when the seed brings nothing new |
| `Limits.RestartDoubleCounts` | internal/engine/lane.go:422-437 | For all candles: seed one, close the next, restart with the second twice in the seed; the seed succeeds and the lane has counted it twice while the store has not |
| `Limits.SafeToCloseExactly` | internal/engine/lane.go:499-564 | A closed candle keeps the run's invariant if and only if it changes nothing, or the lane has caught up and the candle is not the left-over cursor of a wiped series with a one-sample average |
| `Limits.ClosedKeepsExactly` | internal/engine/lane.go:499-564 | A closed candle keeps lane and store in step if and only if it is not the left-over cursor of a wiped series with a one-sample average |
| `Limits.SkippedClose` | internal/store/memory.go:95-100 | In that case the close succeeds, the lane advances and the store keeps no point |
| `Limits.SkipIsReachable` | internal/engine/lane.go:212-227 | Seeding one candle, restarting and seeding nothing leads there |
| `Limits.RestartMissesCorrection` | internal/engine/lane.go:212-227 | A run on the failing side of `Repeats.RepeatIsExact`, for all candles: after a restart a seed correcting a candle older than the checkpoint succeeds and keeps the old candle; the next seed rebuilds |
| `Conflicts.ConflictIsExact` | internal/engine/lane.go:233-277 | With overlap there is no conflict if and only if seed from the first local candle and local history from the first seed candle are the same time-to-digest map |
| `Seeds.SeedIsAuthoritative` | internal/engine/lane.go:193-228 | A successful seed with a closed candle leaves lane and cursor at its latest closed candle if and only if that candle has an open time |
| `Seeds.CatchUpReaches` | internal/engine/lane.go:478-497 | A catch-up without error ends at or beyond every closed seed candle, with lane and cursor aligned |
| `Seeds.RestoredStands` | internal/engine/lane.go:413-459 | A restored lane stands at the durable cursor, whatever seed and checkpoints |
| `Repeats.RepeatIsExact` | internal/engine/lane.go:193-228 | Nothing is asked of the seed: repeating a successful one at once changes nothing if and only if the lane was running, or the seed is not restored from, or within the window, from the seed's start on, it holds the same candles as the committed ones up to the checkpoint followed by its own; all of it known before the first call |
| `Repeats.SeedAgain` | internal/engine/lane.go:193-228 | With no assumption on the seed: the repeat changes nothing if and only if the seed does not conflict with the lane the first call left |
| `Repeats.SeedTwice` | internal/engine/lane.go:193-228 | A repeat after a rebuild or on a running lane changes nothing and commits nothing, whatever fails the second time, also for seeds without closed candles |
| `Restarts.CatchUpAppliesNew` | internal/engine/lane.go:478-497 | From any lane, in step with the store or not: a catch-up extends the candles the lane folds by what it applies, on success exactly the seed's closed candles beyond the last one, repeats dropped; an error only cuts it short |
| `Restarts.RestoredFolds` | internal/engine/lane.go:367-476 | In every reachable state a restored lane folds the committed candles up to the checkpoint followed by the seed's through the cursor |
| `Repeats.CaughtUpAgrees` | internal/engine/lane.go:233-277 | A seed that did not conflict does not conflict after its own catch-up, although the window has moved |
| `Repeats.KeptMap` | internal/engine/lane.go:288-314 | A seed that can be rebuilt from and its kept candles give the same time-to-digest map |
| `Parity.LiveEqualsReplay` | internal/engine/lane.go:288-314 | Seeding contiguous candles at once, or a non-empty prefix and closing the rest with any forming candles between, ends in equal reducers, market with zone transitions, revision, count, cursor and points |
| `LogShape.EveryLog` | internal/store/memory.go:54-118 | After any run at all of one lane the i-th entry has cursor i, candle times of a series never decrease and stay within its cursor, and no identity repeats but a reset's |
| `Fleet.EveryFleetLog` | internal/store/memory.go:54-118 | The same after any commands to any number of lanes over one store, in any order |
| `LogShape.StepMoves` | internal/store/memory.go:54-118 | From any lane state each command only appends entries of its own series, moves no cursor back, leaves other series and existing published marks alone |
| `LogShape.OtherLanesUnaffected` | internal/store/memory.go:54-118 | Whatever a lane does, every other lane's store still folds that lane's history |
| `Durable.GrowsKeepsLog` | internal/store/memory.go:54-118 | Any transaction that appends a batch at the new cursor keeps the log invariant |
| `Store.Memory.CommitClosedBar` | internal/store/memory.go:92-118 | The commit transaction as a function of the old store; a refusal changes nothing |
| `Store.Memory.Rebuild` | internal/store/memory.go:54-90 | The rebuild transaction as a function of the old store; a refusal changes nothing |
| `Store.Memory.Recover` | internal/store/memory.go:35-52 | The cursor and exactly the series' checkpoints |
| `Store.Memory.PersistEventState` | internal/store/memory.go:202-216 | Replaces the market state, or every point of that candle, revision and period by the new one |
| `Store.Memory.FindEvent` | internal/store/memory.go:218-228 | The point under an identity before the first log entry under it |
| `Store.Memory.QueryEvents` | internal/store/memory.go:120-139 | The first selected entries in log order, up to the normalised limit |
| `Store.Memory.PendingEvents` | internal/store/memory.go:171-187 | The first entries not marked published, up to the limit |
| `Store.Memory.MarkPublished` | internal/store/memory.go:189-196 | Marks exactly the given cursors |
| `LaneObject.Actor.ApplySeed` | internal/engine/lane.go:193-228 | The seed command is `SeedStep`, errors and store failures included |
| `LaneObject.Actor.SeedConflictsWithHistory` | internal/engine/lane.go:233-277 | The two scans decide `SeedConflicts` |
| `LaneObject.Actor.RebuildSeed` | internal/engine/lane.go:279-365 | The rebuild is `RebuildStep`; on error lane and store are unchanged |
| `LaneObject.BuildFrom` | internal/engine/lane.go:288-314 | The loop over seed candles, on reducers of its own, is `BuildRun` |
| `LaneObject.Actor.ResetFrame` | internal/engine/lane.go:315-333 | The reset frame carries the last 500 closed candles before its own under a reset identity |
| `LaneObject.Actor.RestoreRecoverySeed` | internal/engine/lane.go:367-476 | Restoring is `RestoreStep`; on failure the lane is unchanged |
| `LaneObject.ReplaySeed` | internal/engine/lane.go:413-452 | The loop from the checkpoint through the cursor, advancing the restored reducers in place, is `RestoreRun` |
| `LaneObject.Actor.ApplyCatchUpSeed` | internal/engine/lane.go:478-497 | The catch-up loop is `CatchUp` and stops at the first error |
| `LaneObject.Actor.ApplyClosed` | internal/engine/lane.go:499-588 | A closed candle is `ClosedStep`, of which `Frames.ClosedFrame` says what it commits; the advanced clones become the lane's reducers only after the store accepted |
| `LaneObject.Actor.CommitNext` | internal/engine/lane.go:537-576 | Advances the clones in place, commits what `CommitStep` commits (`Frames.ClosedTells`), and takes the clones over if that succeeds; if it fails the lane's own reducers are as they were |
| `LaneObject.Actor.ApplyForming` | internal/engine/lane.go:590-653 | A forming candle is `FormingStep`: only provisional fields change |
| `LaneObject.CloneOfReducers` | internal/engine/lane.go:694-709 | Fresh reducer objects with the states of the originals, which are not touched, or failure |
| `LaneObject.ReduceClosed` | internal/engine/lane.go:711-728 | Advances every reducer object once, in place, and reports a point per ready one in period order |
| `LaneObject.FrameFor` | internal/engine/lane.go:757-783 | The market frame has exactly one indicator per period, in period order, with that reducer's samples, readiness and, once ready, value |
| `Fold.FrameReportsFold` | internal/engine/lane.go:757-783 | For every history the indicators of a frame are the history's length and, once warm, the from-scratch average of each period |
| `LaneObject.CheckpointsOf` | internal/engine/lane.go:800-826 | One checkpoint per period and one of the market, all at one candle |
| `Runs.FormingKeeps` | internal/engine/lane.go:590-653 | A forming candle neither makes nor breaks the fold of any history |
| `Runs.FormingProjects` | internal/engine/lane.go:590-653 | Which forming candles are refused, that one older than the last close changes nothing, and that any other shows, for exactly the periods warm with it, the from-scratch average with its close as one more sample |
| `Sorting.StableSortSorted` | internal/engine/lane.go:194-194 | The seed sort yields open-time order |
| `Sorting.StableSortStable` | internal/engine/lane.go:194-194 | The seed sort keeps candles of equal open time in their order |
| `Sockets.EveryDelivery` | internal/api/server.go:295-353 | From any start of the process and over every interleaving, the durable events on a socket with repeats dropped are exactly the selected log entries above the resume cursor up to the last one written, in order and without a gap, also after the client was closed; an open client that has switched holds every selected entry reached so far; the published set is a prefix and all of it reached the hub |
| `Sockets.DedupIsLog` | internal/api/server.go:328-352 | A gap-free stream without repeats equals the selected slice of the log |
| `Sockets.GapFreePrefix` | internal/api/server.go:407-432 | Whatever part of the stream has been written is itself gap-free |
| `Sockets.ReplayAndActivate` | internal/api/server.go:328-353 | The paged replay writes the selected entries after the resume cursor in order and activates at the cursor reached; a broken write leaves the client alone |
| `Sockets.WriteClient` | internal/api/server.go:407-432 | The writer puts the channel on the connection in order, each event once, and stops at the first broken write |
| `Sockets.LaneCommandIsCommit` | internal/engine/lane.go:193-588 | Every command of every lane is a commit step of the delivery protocol |
| `Delivery.WorldKeeps` | internal/api/hub.go:72-142 | Every step keeps the invariants of dispatcher and session |
| `Delivery.DispatcherKeeps` | internal/outbox/dispatcher.go:78-101 | The published set stays a prefix, nothing is marked before its publish succeeded, and a first delivery is always the entry after the highest so far; a fetch takes the next 250 unmarked entries, a success moves on, a failure starts over at the first unmarked one |
| `Delivery.SwitchWhenOpen` | internal/api/hub.go:105-142 | The hand-off: replay up to the cursor and the backlog beyond it leave nothing between |
| `Delivery.OfferedKeeps` | internal/api/hub.go:72-103 | Offering an event, new, repeated, unselected or provisional, keeps the session's invariant in every phase |
| `Delivery.ReadKeeps` | internal/api/server.go:330-334 | A page continues the replay where it stands: the next 5000 entries of the log, the last page being the first that is short |
| `Outbox.Flush` | internal/outbox/dispatcher.go:78-101 | Publishes the log from the published prefix on, in order; marks only what was published; without failures it ends with nothing pending |
| `Outbox.PublishAll` | internal/outbox/dispatcher.go:87-93 | Publishes a batch in order up to the first failure |
| `Outbox.PendingIsNext` | internal/store/memory.go:171-187 | While the published set is a prefix, what is pending is what follows it |
| `Outbox.MarkingNext` | internal/store/memory.go:189-196 | Marking a batch of pending entries keeps the published set a prefix |
| `Outbox.CommitsKeepPublished` | internal/store/memory.go:54-118 | Commits and rebuilds keep the published prefix |
| `Hub.ClientSafety` | internal/api/hub.go:72-151 | Over every interleaving durable cursors on a client's stream never decrease, nothing sent is taken back, a closed client's stream is frozen, and from its activation on every durable event is above the activation cursor and strictly increasing once the backlog is through |
| `Hub.LiveFramesInOrder` | internal/api/hub.go:72-142 | Over every interleaving an open client holds or has received every selected frame without a cursor, once and in the order offered, whether offered before or after its activation |
| `Hub.OfferCloses` | internal/api/hub.go:72-103 | An offer closes an open client if and only if it is selected, new, and finds channel or backlog full |
| `Hub.OpKeeps` | internal/api/hub.go:72-151 | Each step keeps the client's invariant; once active, a durable event sent exceeds the last cursor and all before it; activation sends only above its cursor and never closes the client |
| `Hub.ActivationFits` | internal/api/hub.go:105-142 | Activation cannot overflow: it sends the whole backlog beyond the cursor |
| `Hub.BacklogIsOrderly` | internal/api/hub.go:110-122 | The backlog is every pending event beyond the cursor, durable cursors in order |
| `Hub.HubClient.Offer` | internal/api/hub.go:72-103 | Offering is `Enqueue`, and never sends to or closes a closed channel |
| `Hub.HubClient.Start` | internal/api/hub.go:105-142 | Activation is `Activate`, and never sends to or closes a closed channel |
| `Hub.HubClient.Stop` | internal/api/hub.go:144-151 | Closing twice closes the channel once |
| `Hub.HubObject.Publish` | internal/api/hub.go:46-52 | Every client is offered the event exactly once |
| `Hub.HubObject.Subscribe` | internal/api/hub.go:54-63 | Adds one fresh, inactive client |
| `Hub.HubObject.Unsubscribe` | internal/api/hub.go:65-70 | Removes and closes one client, registered or not, and leaves the others alone |
| `Hub.MatchesEvent` | internal/api/hub.go:153-192 | Selection by kind, series, event type and analysis, an empty part selecting everything |
| `Coalescer.CoalescingIsLossless` | internal/broker/jetstream.go:110-187 | For every series of every stream, published and incoming frames have the same candle and colour sequence once repeats are dropped; a frame is labelled snapshot exactly when it repeats the one published before it, then at least a second later, and otherwise by what it is |
| `Coalescer.RetriedGetsThrough` | cmd/signald/main.go:46-66 | Confirmed frames and transitions are published by the first accepted call, with that call's clock and state |
| `Coalescer.RepeatIsReplaceable` | internal/broker/jetstream.go:171-187 | A repeated forming frame has one chance: it is published, as a snapshot, if and only if its first call is accepted a second or more after the last published one |
| `Coalescer.Broker.LiveDecision` | internal/broker/jetstream.go:171-187 | The decision and the cursor to remember |
| `Coalescer.Broker.PublishEvaluation` | internal/broker/jetstream.go:110-153 | Only an accepted frame changes what is remembered; a confirmed one forgets its series |
| `Coalescer.Broker.Publish` | cmd/signald/main.go:46-66 | Retries refused frames and gives up dropped ones |
| `Zigzag.ZigzagIsCausal` | internal/indicator/market.go:370-402 | The zigzag of a prefix is exactly the swings of the whole run confirmed inside it |
| `Zigzag.ZigzagIsExtremal` | internal/indicator/market.go:370-402 | Swings alternate, follow one another, and each is the first extreme candle between the previous confirmation and its own |
| `Zigzag.ZigzagIsComplete` | internal/indicator/market.go:370-402 | No swing is missed: each is confirmed by the first candle that stands at least the minimum percentage and the ATR multiple away from the extreme since the last confirmation, on either side before the first swing, down first; after the last swing no candle does |
| `Zigzag.ZigzagIsUnique` | internal/indicator/market.go:370-402 | Candles and averages leave exactly one list of swings with that property |
| `Zigzag.ZigzagIsApart` | internal/indicator/market.go:370-402 | With positive prices neighbouring swings are at least the minimum percentage apart |
| `Zigzag.ComputeZigzag` | internal/indicator/market.go:370-402 | The loop computes the zigzag of which all of those hold |
| `Zigzag.AverageTrueRange` | internal/indicator/market.go:352-368 | The loop computes the Wilder average at every candle: the mean of the true ranges up to the period, then one part of the new range to period minus one of the old average |
| `Zigzag.AtrBounded` | internal/indicator/market.go:352-368 | The average lies between zero and the largest true range so far |
| `Zigzag.AtrIsCausal` | internal/indicator/market.go:352-368 | The average at a candle does not depend on later ones |
| `Swings.MergeIsNormal` | internal/indicator/market.go:442-480 | Merging ends in normal form with a subsequence that still alternates in index order and is still apart, removing swings in pairs |
| `Swings.MergeIsChain` | internal/indicator/market.go:442-480 | The merge is reached by rewrites, one per pair removed, each taking out the leftmost swing without a valid pullback or depth together with the neighbour the other one outreaches, and changing nothing else; it ends where every swing stays |
| `Swings.MergeIsUnique` | internal/indicator/market.go:442-480 | Any chain of such rewrites that cannot go on ends in the merge |
| `Swings.MergedSwingsAreNormal` | internal/indicator/market.go:425-480 | The same of the structural swings of every candle list |
| `Swings.MergeByValidPullback` | internal/indicator/market.go:442-480 | The restarting loop terminates and computes the merge of which all of those hold |
| `Swings.ComputeValidPullback` | internal/indicator/market.go:425-440 | The scan finds whether some candle opens a valid pullback |
| `Candles.ComputeMarubozuReference` | internal/indicator/market.go:413-423 | The largest range of the five nearest marubozu candles before the index: none of them exceeds it, one of them has it, zero without any |
| `Candles.MarubozuMeans` | internal/indicator/market.go:404-423 | The marubozu tests of a candle with some range as products: body at least 70 percent of it, or 50 with the close within the end tenth |
| `Breaks.BreakoutIsOneTest` | internal/indicator/market.go:488-547 | The rule cascade equals one test: not closed back, and marubozu or penetration above the threshold |
| `Breaks.VerdictIsStable` | internal/indicator/market.go:488-547 | A verdict that is not pending never changes when candles are appended |
| `Breaks.ScanIsClassified` | internal/indicator/market.go:573-634 | The first confirmed break is BOS; a later one is CHoCH if and only if its side differs from the one before |
| `Breaks.ScanIsExact` | internal/indicator/market.go:573-634 | Over positions in the swings: a swing further than the latest one of its kind yields one event unless its break is pending, no other yields any, in swing order. The event has the side of the kind and the earlier price; it is FAKE at the later swing without a close beyond, else decided by the one test at the first close beyond, confirmed at the next candle or FAKE at the break; a FAKE zone spans the run |
| `Breaks.PenetrationMeans` | internal/indicator/market.go:513-520 | The penetration test as a product: how far the body closes past the level against the given share of it |
| `Breaks.TrendFollowsScan` | internal/indicator/market.go:759-764 | The last confirmed side is the scan's own final trend |
| `Breaks.ScanBreaks` | internal/indicator/market.go:573-634 | The loop over swings computes the scan of which all of those hold |
| `Breaks.ComputeBreakEvents` | internal/indicator/market.go:573-634 | Evaluates the first close beyond the previous swing and reports at most one event for it |
| `Breaks.MarketTrend` | internal/indicator/market.go:759-785 | The trend is that of the last confirmed break, else that of the last two highs and lows |
| `Breaks.ComputeFalseBreakZone` | internal/indicator/market.go:549-571 | The zone spans the longest run of candles up to the swing that stand beyond the reference, and reaches from the reference to the furthest price of run and swing |
| `Zones.GapsAreIncremental` | internal/indicator/market.go:170-208 | Recomputing after one more candle drops the gaps it fills or ages out and appends at most one |
| `Zones.GapsAreExact` | internal/indicator/market.go:170-208 | The gaps found are exactly those of three candles that leave a price range uncovered, up or down, which no later candle has filled, in order |
| `Zones.WindowSeesAllGaps` | internal/indicator/market.go:170-208 | A window that covers the lookback sees the gaps of the whole history |
| `Zones.DetectFVG` | internal/indicator/market.go:170-208 | The scan finds exactly the open gaps, newest eight, with their times extended |
| `Zones.BlockIsNearest` | internal/indicator/market.go:210-226 | The order block of a gap is the range of the nearest candle, of the four from two before the gap's last, that closed against the gap; there is none exactly when all four closed with it |
| `Zones.BlocksFollowGaps` | internal/indicator/market.go:210-230 | The blocks are those of the gaps that have one, in gap order, each gap at most one |
| `Zones.DetectOrderBlocks` | internal/indicator/market.go:210-230 | The loops find that block gap by gap and keep the newest six |
| `Zones.AnnotateZoneStates` | internal/indicator/market.go:130-140 | In place, a zone becomes touched if and only if a later candle intersects it |
| `Zones.ZoneTransitions` | internal/indicator/market_reducer.go:62-100 | In whatever order vanished zones are visited, each zone's own transitions are fixed |
| `Zones.EndingMeans` | internal/indicator/market_reducer.go:81-98 | A vanished zone expires if the candle does not reach it; reached, it is touched first if it was not, then invalidated if it is an order block closed through, and mitigated otherwise |
| `Zones.AppearanceMeans` | internal/indicator/market_reducer.go:72-80 | A zone is created if its identity is new, touched if it was not touched and now is, and silent otherwise |
| `ZoneLifecycle.ZoneLives` | internal/indicator/market_reducer.go:62-104 | Over any history the transitions of every gap and every order block, a repeat within one candle counted once, follow (created touched? terminal)* with an open tail, and a zone is reported exactly while its last life is open |
| `ZoneLifecycle.LiveZones` | internal/indicator/market_reducer.go:62-100 | For every list of candles and every zone: the live ids are the created minus the ended ones |
| `ZoneLifecycle.GapLifecycle` | internal/indicator/market_reducer.go:62-104 | For gaps the same holds of the transitions as they are reported, nothing collapsed |
| `ZoneLifecycle.ReducerReports` | internal/indicator/market_reducer.go:32-43 | Those transitions are the ones the reducer reports candle by candle |
| `Market.CloseBarTracks` | internal/indicator/market_reducer.go:32-43 | Closing a candle keeps window, count and view functions of the history, and its transitions too |
| `Market.MarketOfTracks` | internal/indicator/market_reducer.go:32-43 | Batch recomputation equals incremental maintenance for every history |
| `Market.CloneIsTransparent` | internal/indicator/market_reducer.go:132-166 | A clone loses its transitions and still closes the next candle exactly as the original would |
| `Market.EvaluateMarket` | internal/indicator/market.go:85-128 | Gaps, order blocks, structural swings and structure events of a candle list |
| `Views.EvaluateIsExact` | internal/indicator/market.go:85-128 | For every candle list the evaluation is the view of its closed candles: the newest eight open gaps, the newest six order blocks of their gaps, both touched exactly if a later candle meets them, the swings an exact merge of an exact zigzag, and exactly the decided breaks of those |
| `Market.MarketObject.OnClosed` | internal/indicator/market_reducer.go:32-43 | The reducer object follows `CloseBar` |
| `Market.MarketObject.Seed` | internal/indicator/market_reducer.go:106-121 | Seeding keeps the last 500 closed candles and counts all |
| `Market.MarketObject.Restore` | internal/indicator/market_reducer.go:136-151 | Restoring follows `RestoreMarket` or changes nothing |
| `Liquidity.ClustersAreMeans` | internal/indicator/market.go:303-321 | Each cluster price is the exact mean of the values it took, whatever their sign |
| `Liquidity.ClustersPartition` | internal/indicator/market.go:303-321 | The members of all clusters are the values given, and touches add up to their number |
| `Liquidity.ClustersJoin` | internal/indicator/market.go:303-321 | Every value joins the first cluster within the tolerance, which moves to the mean of one more and changes no other, and starts a cluster of its own only when there is none |
| `Liquidity.ClusterExtrema` | internal/indicator/market.go:303-332 | The loops keep the newest three clusters touched at least twice |
| `Ema.EmaClosedForm` | internal/indicator/ema.go:43-61 | A ready average is the sum over its mean seed with the weights of the factor 2 / (period + 1), and the weights sum to one |
| `Ema.EmaRecurrence` | internal/indicator/ema.go:43-61 | One more close counts two parts against period minus one of the old average, in period plus one |
| `Ema.EmaSeed` | internal/indicator/ema.go:43-61 | There is an average from exactly `period` closes on, and the first is their mean |
| `Ema.EmaWithinRange` | internal/indicator/ema.go:43-61 | A ready average stays within the closes it saw |
| `Ema.SnapshotRoundTrip` | internal/indicator/ema.go:68-97 | Every reachable state passes its own restore unchanged |
| `Ema.EmaForgetsNothing` | internal/indicator/ema.go:43-61 | Reducers that agree after one more close agreed before it, if their last closes did: a wrong average never heals |
| `Ema.EMA.OnClosed` | internal/indicator/ema.go:43-61 | One close: nothing before the seed, the mean at it, and after it the step of 2 / (period + 1) towards the close |
| `Ema.EMA.Project` | internal/indicator/ema.go:63-66 | What a close would report, leaving the reducer unchanged |
| `Ema.EMA.Restore` | internal/indicator/ema.go:77-97 | Takes a snapshot of its own period that is consistent, or changes nothing |

## Left out

- internal/store/postgres.go and its migrations: the store's contract is modelled through `Memory`.
- internal/api/contract.go, HTTP routing, authentication, ping and pong, JSON and CloudEvents shaping, and the snapshot and history messages sent before the replay.
- NATS connection, stream set-up and subjects; internal/input, internal/monitor, internal/config and internal/engine/registry.go.
- Goroutines, mutexes and the mailbox: every handler is one atomic step. A crash in the middle of a catch-up is a seed with fewer candles followed by a crash.
- SHA-256 collisions, IEEE-754 rounding, NaN and infinities; sample counters are unbounded.
- `detectPatterns`, `labelSwings`, `premiumDiscount`, `keyLevels`, `detectRange`, and of `detectLiquidity` everything but the clustering: local branch checks or the same clustering again. `Breaks.MarketTrend` takes whether there is a range as an input.
- Snapshots of another algorithm version or configuration: one configuration is fixed per lane.
- Lanes that publish without the outbox and mark events themselves (internal/engine/lane.go:577-586).
- Series keys whose parts contain the `|` separator: keys are compared as tuples, not as joined strings.
- The frames and points a lane hands to its publishers while a candle is forming: what they would report is modelled as the lane's projections.
- Which error text is reported: restore failures carry no reason, because every one of them leads to a rebuild.
- Delivery.WorldKeeps: follows one client at a time; clients do not influence each other. Without a resume cursor only entries first delivered after the subscription are owed.
- Coalescer.CoalescingIsLossless: assumes that a frame which is retried is accepted in the end.
- Market.EvaluateMarket: the state also carries patterns, liquidity, trend, range, key levels and premium or discount, which the model leaves out as said above; the trend is modelled on its own as `Breaks.MarketTrend`.
- LaneObject.Actor.ApplyClosed: holds the market reducer as a value, because its zone transitions come in arbitrary order; `Market.MarketObject` is the object.
- Frames.EveryFrame: follows the log of one lane; for many lanes `Frames.StepTells` says the same of every command, whatever other lanes have logged before it.
- Runs.EveryRun: assumes that closes are safe (exact by `Limits.SafeToCloseExactly`) and that seeds which are restored from repeat the committed candles (`Limits.FaithfulExactly`: exact while those after the checkpoint and the seed's new ones fit the window of 500, and beyond it still necessary in number and in averages).
