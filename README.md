# Presence, leader election and replicated queue processing — a Dafny model

The repository coordinates replicas of one application over a broadcast
transport. Each replica runs these components:

- a **presence tracker** (`PresenceRealtimeClient`). It keeps a participant
  dictionary keyed by `src`, fed by heartbeats and pruned by housekeeping.
- a **leader election client** (`LeaderElectionRealtimeClient`). It sorts the
  participants with a comparator and claims leadership when it sorts first.
- a **distributed-state sync flag** (`DistributedStateRealtimeClient`). It
  tracks whether all participants' states compare equal.
- a **coordinated ack queue** (`CoordinatedMessageQueueRealtimeClient`). The
  leader hands out one item at a time and waits for an ack from every
  present member.
- an **indexed queue window** (`IndexedQueueTracker`). It buffers live items
  in index order and backfills from storage.
- two **replication roles** built on that window, a leader role and a
  follower role, and the **processing coordinator** that swaps them on each
  change of leader state.
- the in-process **listener registry** (`EventEmitter`).

The model covers one replica. Every inbound message, timer firing and
callback completion is an explicit step: a method on a class whose fields
mirror the JavaScript fields.

Conventions:

- **Events and messages.** What a component emits to its listeners is
  returned as a sequence of event values. What it broadcasts on the
  transport is returned as a sequence of message values.
- **Timers** are boolean "armed" fields, and a firing is its own method
  (`OnLeaderTimer`, `OnWarmupTimer`). `now` is a parameter.
- **Awaited callbacks** become separate steps. The ack barrier is the set
  of unresolved members, released by `AllAcksSettled`. Item processing
  finishes in `OnItemProcessed`. Storage backfill is a parameter holding
  the items storage returns.
- **Participants.** The dictionary is a sequence of participants with
  unique `src` values, in insertion order. That is the order
  `Object.values` lists them in when no `src` is an integer-like key.
- **Comparisons.** JavaScript string `<` on queue indexes is modelled as
  lexicographic order on `string` (module `IndexOrder`), which compares
  characters by code point. `JSON.stringify` equality is modelled as
  equality of the state values. "## Left out" lists where each of these
  can differ from JavaScript.
- **Leader test.** `LeaderElectionClient` takes a `leaderTest`:
  `AsWrittenTest` runs the code's `src in Object.values(...)` test and
  `CorrectedTest` the intended one (see "## Findings"). Every contract of
  the class holds for both, and two lemmas show how the outcomes differ.
- **Host callbacks.** The comparator, `formatIndexCallback` and
  `hasTimestamp` are function-valued fields. Where the code relies on the
  comparator it is required to be consistent on the participants in
  hand: antisymmetric, with a transitive `<= 0`.
- **Fresh values.** Tokens from `crypto.randomUUID()` are parameters, and
  a precondition says they are fresh.
- **Recorded cursor.** The election client's `localState` expando
  property, which the replication roles read and write, is the field
  `LeaderElectionClient.localState`: the recorded queue index, or none.
  A participant's presence state, as the roles read it, is
  `SharedState(isLeader, queueIndex)`. The two are independent fields,
  as in the code.

The model follows the code where the code and the documented behaviour
differ:

- A storage backfill is not trimmed to `maximumQueueLength`. Only live
  appends are bounded.
- A follower with no cursor of its own processes the leader's current
  item. It does not adopt the leader's index without processing it.
- A follower several indexes behind does not replay the items in
  between. It asks only for the leader's cursor
  (sharedIndexedQueueTrackerFollower.js:94-100), and `dequeueAtQueueIndex`
  drops every lower index as stale (indexedQueueTracker.js:54-59). A
  follower at `007` whose leader is at `010` processes `010` next, never
  `008` or `009` (`CatchUpSkipsIntermediate`).
- A role's cursor never reaches the other replicas. The roles assign
  `localState` on the election client (sharedIndexedQueueTrackerLeader.js:56,
  sharedIndexedQueueTrackerFollower.js:55 and 66), which has no such
  accessor (leaderElectionRealtimeClient.js:1-12), so the write only sets
  a property of the local object. A heartbeat sends the presence state
  alone (presenceRealtimeClient.js:14-18, 163-179), and nothing copies the
  cursor or `isLeader` into it. Peers see a leader flag or a cursor in
  `p.data` only if the host puts them there. Without that, a follower never
  finds a leader, and a leader that has taken an item with a non-empty
  index never finds the replicas aligned.
- The election client has no disconnect handler.
- `PresenceRealtimeClient.dispose` passes the string `src` where
  `_onParticipantTimeout` destructures `{ src }`. It therefore times out
  the key `"undefined"` once per participant, so disposal announces
  nobody's departure unless some participant's `src` is literally
  `"undefined"`.
- `DistributedStateRealtimeClient.off` calls the registry's `on`
  (distributedStateRealtimeClient.js:51).
- After emitting `emptyState`, `_syncState` names the undefined variable
  `warmupTimeMilliseconds` (distributedStateRealtimeClient.js:76). The
  call throws, so the warm-up timer is not re-armed.
- `_requestLeader` and `_claimLeadership` spread the undefined
  `presenceData`, so their payloads are empty. The messages carry no
  payload in the model.
- Neither `_evalLeaderExec` setting `_leader` to null nor `dispose`
  updates `_lastLeaderState`.

## Model

| member | source | states |
|---|---|---|
| IndexOrder.LessIrreflexive | indexedQueueTracker.js:57 | no index is less than itself |
| IndexOrder.LessTransitive | indexedQueueTracker.js:57 | string order on queue indexes is transitive |
| IndexOrder.LessTrichotomy | indexedQueueTracker.js:57-67 | two indexes are equal or one is less, so the stale-drop loop's three branches cover every item |
| IndexOrder.LessAsymmetric | indexedQueueTracker.js:82 | string order is asymmetric |
| IndexedQueue.AscendingSuffix | indexedQueueTracker.js:54-69 | dropping a prefix of an ascending window leaves it ascending |
| IndexedQueue.Formatted | indexedQueueTracker.js:77-86 | each storage item becomes `{queueIndex: formatIndex(item), data: item}`, in order |
| IndexedQueue.LeadingStale | indexedQueueTracker.js:54-59 | counts exactly the leading items whose index is below the target; the item after them, if any, is not below it |
| IndexedQueue.LeadingStaleFindsPresent | indexedQueueTracker.js:54-62 | in an ascending window, the stale prefix ends exactly at the item holding the target |
| IndexedQueue.BackfillExtends | indexedQueueTracker.js:76-88 | backfill only prepends: the old window is a suffix of the result, everything before it comes from storage, and nothing is trimmed |
| IndexedQueue.BackfillAscending | indexedQueueTracker.js:76-88 | an ascending window stays ascending after backfill, whatever order storage returns |
| IndexedQueue.BackfillHeadAbove | indexedQueueTracker.js:82 | if the head and every storage item are above t, so is the head after backfill |
| IndexedQueue.BackfillFindsTarget | indexedQueueTracker.js:76-90 | if storage is ascending, starts at the target and holds it, and the window head is above it, the target becomes the head |
| IndexedQueue.DequeueAtSound | indexedQueueTracker.js:60-96 | any item returned has the requested index and comes from the window or from storage |
| IndexedQueue.DequeueAtFindsInWindow | indexedQueueTracker.js:54-62 | a target present in an ascending window is returned, and the window keeps only the items after it |
| IndexedQueue.DequeueAtFindsInStorage | indexedQueueTracker.js:71-93 | a target missing from the window but returned by storage (as its first item), below the window head, is returned |
| IndexedQueue.DequeueAtAscending | indexedQueueTracker.js:54-96 | dequeueAtQueueIndex keeps an ascending window ascending |
| IndexedQueue.LastN | indexedQueueTracker.js:107-110 | the trim keeps the last `maximumQueueLength` items, or all of them when fewer |
| IndexedQueue.IndexedQueueTracker.constructor | indexedQueueTracker.js:6-23 | starts with an empty window and subscribed to `queue:item` |
| IndexedQueue.IndexedQueueTracker.Dispose | indexedQueueTracker.js:25-32 | unsubscribes and empties the window |
| IndexedQueue.IndexedQueueTracker.Dequeue | indexedQueueTracker.js:42-46 | removes and returns the head, or returns none on an empty window; the rest is unchanged |
| IndexedQueue.IndexedQueueTracker.OnQueueItem | indexedQueueTracker.js:99-113 | appends the item, trims from the head to at most `maximumQueueLength`, keeps the new item last (when the bound is positive) and emits `change` |
| IndexedQueue.IndexedQueueTracker.DropStale | indexedQueueTracker.js:54-69 | removes exactly the leading stale items; consumes and returns the next item if it holds the target, and otherwise leaves it at the head |
| IndexedQueue.IndexedQueueTracker.MergeBackfill | indexedQueueTracker.js:76-96 | the window becomes the backfill of the storage items; the head is taken and returned iff it holds the target |
| IndexedQueue.IndexedQueueTracker.DequeueAtQueueIndex | indexedQueueTracker.js:48-97 | result and new window are `DequeueAt` of the old window; the item returned has the target index; ascending order is kept |
| Presence.IndexOf | presenceRealtimeClient.js:114 | finds the entry with that `src`, or reports that none has it |
| Presence.UpsertMeaning | presenceRealtimeClient.js:121-125 | a heartbeat adds a new `src` at the end or replaces its entry in place; other participants are unchanged; keys stay unique |
| Presence.RemoveSrc | presenceRealtimeClient.js:106 | deleting a key removes exactly the entries with that `src` |
| Presence.KeepOthers | presenceRealtimeClient.js:90-92 | removes exactly the entries whose `src` is among the removed keys |
| Presence.KeepOthersTwice | presenceRealtimeClient.js:90-92 | deleting keys one after another is deleting the set of them |
| Presence.KeepOthersAppend | presenceRealtimeClient.js:90-92 | deletion distributes over insertion order |
| Presence.KeepOthersUnique | presenceRealtimeClient.js:90-92 | deleting keeps keys unique |
| Presence.KeepOthersAbsent | presenceRealtimeClient.js:102-104 | deleting absent keys changes nothing |
| Presence.Expired | presenceRealtimeClient.js:79-88 | selects exactly the participants silent for more than 3.5 heartbeat intervals |
| Presence.Live | presenceRealtimeClient.js:76-93 | selects exactly the participants not timed out |
| Presence.ExpiredUnique | presenceRealtimeClient.js:79-88 | the collected timeouts name distinct participants |
| Presence.ExpiredAppend | presenceRealtimeClient.js:79-88 | collection proceeds participant by participant in dictionary order |
| Presence.KeepOthersLive | presenceRealtimeClient.js:76-93 | deleting exactly the timed-out keys leaves the live participants |
| Presence.EvictionEvents | presenceRealtimeClient.js:90-92 | one `leave` and then one `change` (lines 108-109) per evicted participant, in order |
| Presence.EvictionEventsAppend | presenceRealtimeClient.js:90-92 | evicting one more participant appends its `leave` and `change` |
| Presence.EvictionEventsPrefix | presenceRealtimeClient.js:90-92 | the events of the first j + 1 evictions are those of the first j, then that participant's `leave` and `change` |
| Presence.EvictStep | presenceRealtimeClient.js:90-92 | each timed-out key is still present when its turn comes, holding the entry collected for it, and deleting it is one step of the batch deletion |
| Presence.EvictAll | presenceRealtimeClient.js:76-93 | deleting every collected key leaves exactly the live participants |
| Presence.PresenceClient.constructor | presenceRealtimeClient.js:20-47 | starts with no participants, the initial local state, and active |
| Presence.PresenceClient.OnParticipantHeartbeat | presenceRealtimeClient.js:112-141 | an unknown `src` is appended and emits `join` then `change`, and a welcome heartbeat goes out unless it is self; a known `src` has its data and timestamp overwritten and emits `stateChange` iff its data differed; others are unchanged |
| Presence.PresenceClient.OnEvent | presenceRealtimeClient.js:143-153 | `presence:join`, `presence:leave` and `presence:heartbeat` are all the heartbeat step, so a leave removes nobody |
| Presence.PresenceClient.OnParticipantTimeout | presenceRealtimeClient.js:101-110 | an absent `src` changes nothing; a present one is deleted and emits `leave` with its entry, then `change` |
| Presence.PresenceClient.CollectTimeouts | presenceRealtimeClient.js:77-88 | collects exactly the `src` values of the timed-out participants, in order, changing nothing |
| Presence.PresenceClient.Housekeep | presenceRealtimeClient.js:76-93 | afterwards exactly the live participants remain, and each evicted one emitted `leave` then `change` |
| Presence.PresenceClient.SetLocalState | presenceRealtimeClient.js:14-18 | stores the value and heartbeats it at once |
| Presence.PresenceClient.Heartbeat | presenceRealtimeClient.js:163-179 | sends the current local state and re-arms the heartbeat timer |
| Presence.PresenceClient.OnReconnect | presenceRealtimeClient.js:95-99 | announces a join and then a heartbeat of the local state |
| Presence.PresenceClient.Dispose | presenceRealtimeClient.js:49-66 | sends a leave of the local state, stops the timer and empties the dictionary; leave events are emitted only for a participant whose `src` is `"undefined"` |
| LeaderElection.SortedHeadUnique | leaderElectionRealtimeClient.js:161-163 | with a consistent comparator, the participant a stable sort puts first is unique |
| LeaderElection.SortedHeadOrderIndependent | leaderElectionRealtimeClient.js:161-163 | when the comparator ties only entries of one `src`, replicas listing the same participants in different orders elect the same `src` |
| LeaderElection.SortedHead | leaderElectionRealtimeClient.js:161-163 | finds the first element of the copy sorted with the comparator |
| LeaderElection.CanonicalIndex | leaderElectionRealtimeClient.js:148 | recognises the keys an array answers `in` for: canonical decimal indexes below 2^32 - 1 |
| LeaderElection.LeaderExistsAsWritten | leaderElectionRealtimeClient.js:147-153 | `src in Object.values(...)` holds only for `"length"` or a canonical index below the participant count |
| LeaderElection.LeaderExistsAsWrittenIgnoresIds | leaderElectionRealtimeClient.js:147-153 | as written, the answer depends only on how many participants there are, never on their ids |
| LeaderElection.LeaderExistsAsWrittenMissesLeader | leaderElectionRealtimeClient.js:147-153 | a present leader `replica-a` is reported absent |
| LeaderElection.LeaderExists | leaderElectionRealtimeClient.js:147-153 | holds iff there is a leader and some participant has its `src` |
| LeaderElection.LeaderPresent | leaderElectionRealtimeClient.js:147-153 | the test the client runs: the as-written one under `AsWrittenTest`, the corrected one under `CorrectedTest` |
| LeaderElection.AsWrittenClaimsOverPresentLeader | leaderElectionRealtimeClient.js:155-172 | as written, with demotion off: when another replica is leader, is present, and its `src` is neither `"length"` nor an array index, and self sorts first, the evaluation makes self leader and broadcasts `leader:announced`, so two replicas claim leadership |
| LeaderElection.CorrectedKeepsPresentLeader | leaderElectionRealtimeClient.js:155-159 | corrected, with demotion off: a leader that is among the participants stays leader, and nothing is sent or emitted |
| LeaderElection.LeaderElectionClient.constructor | leaderElectionRealtimeClient.js:14-49 | starts with no leader, no last state, cold, no timer, and the given `leaderTest` |
| LeaderElection.LeaderElectionClient.RequestLeader | leaderElectionRealtimeClient.js:123-129 | broadcasts `leader:requested` and emits `leaderRequested` |
| LeaderElection.LeaderElectionClient.OnLeaderAnnounced | leaderElectionRealtimeClient.js:113-121 | always adopts the announcer; emits `leaderStateChanged` only when the leader state differs from the last one, which is then recorded |
| LeaderElection.LeaderElectionClient.EvalLeader | leaderElectionRealtimeClient.js:131-145 | a leave or change (lines 94-102) arms the evaluation timer, with no delay once warm and the warm-up otherwise |
| LeaderElection.LeaderElectionClient.OnPresenceJoinOrLeaderRequested | leaderElectionRealtimeClient.js:84-111 | the current leader re-announces; anyone else schedules an evaluation |
| LeaderElection.LeaderElectionClient.ClaimLeadership | leaderElectionRealtimeClient.js:185-190 | broadcasts `leader:announced` |
| LeaderElection.LeaderElectionClient.EvalLeaderExec | leaderElectionRealtimeClient.js:155-183 | no change when the test chosen by `leaderTest` reports the leader present and demotion is off; with no participants the leader is cleared and `{isLeader: false}` is emitted iff self was leader; otherwise self is elected and announced iff it sorts first, and the leader is unchanged when another sorts first |
| LeaderElection.LeaderElectionClient.OnLeaderTimer | leaderElectionRealtimeClient.js:155-183 | the timer firing (lines 138-144) marks the client warm and runs the evaluation, with the same outcome as `EvalLeaderExec` |
| LeaderElection.LeaderElectionClient.Dispose | leaderElectionRealtimeClient.js:51-74 | disposes presence, clears the leader and emits `{isLeader: false}` iff self was leader, leaving `_lastLeaderState` as it was |
| LeaderElection.EvaluatedOnlySelfClaims | leaderElectionRealtimeClient.js:155-183 | an evaluation never elects another replica: the leader stays, becomes none, or becomes self, and a broadcast is always self's announcement |
| DistributedState.AllAgreePairwise | distributedStateRealtimeClient.js:83-104 | with a consistent comparator, every state matching the first means every pair matches, so the verdict does not depend on dictionary order |
| DistributedState.SortedLast | distributedStateRealtimeClient.js:61-63 | finds the element `pop()` takes from the copy sorted with the comparator |
| DistributedState.DistributedStateClient.constructor | distributedStateRealtimeClient.js:10-33 | starts unsynchronized with the warm-up timer armed |
| DistributedState.DistributedStateClient.EvalStates | distributedStateRealtimeClient.js:83-104 | afterwards the flag is true iff every participant compares 0 to the first; `sync` or `desync` is emitted exactly on a transition, at most once |
| DistributedState.DistributedStateClient.OnParticipantStateChange | distributedStateRealtimeClient.js:54-58 | ignored while the warm-up timer is pending; evaluates afterwards |
| DistributedState.DistributedStateClient.SyncState | distributedStateRealtimeClient.js:60-81 | no participants emits `emptyState` with `{}`; a most recent state with no timestamp emits `emptyState` with it and changes nothing; otherwise that state is adopted, heartbeated and evaluated |
| DistributedState.DistributedStateClient.OnWarmupTimer | distributedStateRealtimeClient.js:27-32 | the warm-up timer is disarmed, and the flag, local state, heartbeat, events and messages are exactly those of `SyncState` from the state before the firing |
| DistributedState.DistributedStateClient.On | distributedStateRealtimeClient.js:46-48 | the registry becomes `Registered` of the old one: the handler is appended for that name unless already there, and every other name keeps its list |
| DistributedState.DistributedStateClient.Off | distributedStateRealtimeClient.js:50-52 | as written, registers the handler instead of removing it: the registry becomes `Registered` of the old one, exactly as after `On` |
| DistributedState.DistributedStateClient.Dispose | distributedStateRealtimeClient.js:35-44 | stops the warm-up, disposes presence and empties the registry |
| CoordinatedQueue.AckOutcome | coordinatedMessageQueueRealtimeClient.js:173-193 | an ack resolves only its own member, and only when the token is current and the member has a slot; otherwise nothing changes |
| CoordinatedQueue.AcksOutcome | coordinatedMessageQueueRealtimeClient.js:173-193 | a run of acks only ever resolves members |
| CoordinatedQueue.StaleAcksIgnored | coordinatedMessageQueueRealtimeClient.js:176-179 | acks carrying stale tokens resolve nobody |
| CoordinatedQueue.AcksDrain | coordinatedMessageQueueRealtimeClient.js:231-240 | once every pending member has acked the current token (lines 173-193), the barrier is clear |
| CoordinatedQueue.AcksMissingMember | coordinatedMessageQueueRealtimeClient.js:231-240 | a member that has not acked keeps the barrier closed |
| CoordinatedQueue.CoordinatedQueueClient.constructor | coordinatedMessageQueueRealtimeClient.js:14-50 | starts with an empty queue, no slots and not processing |
| CoordinatedQueue.CoordinatedQueueClient.MaybeProcessNextQueueItem | coordinatedMessageQueueRealtimeClient.js:195-241 | does nothing with no leader, while processing, or on an empty queue; otherwise pops exactly the front item, opens one slot per present `src` and discards the old table; only the leader mints a fresh token and broadcasts the item |
| CoordinatedQueue.CoordinatedQueueClient.Enqueue | coordinatedMessageQueueRealtimeClient.js:87-99 | appends exactly `{timestamp, nonce, data}` at the tail, then tries to process |
| CoordinatedQueue.CoordinatedQueueClient.OnAckEvent | coordinatedMessageQueueRealtimeClient.js:173-193 | a stale token or a member with no slot changes nothing; otherwise that member's slot is resolved, and it stays in the table |
| CoordinatedQueue.CoordinatedQueueClient.OnPresenceChange | coordinatedMessageQueueRealtimeClient.js:125-146 | every slot of a departed member is resolved and deleted; present members are untouched |
| CoordinatedQueue.CoordinatedQueueClient.OnLeaderChanged | coordinatedMessageQueueRealtimeClient.js:101-113 | becoming leader resolves every pending slot |
| CoordinatedQueue.CoordinatedQueueClient.OnJoin | coordinatedMessageQueueRealtimeClient.js:115-123 | the leader welcomes a joiner with the front item (or none); others send nothing |
| CoordinatedQueue.CoordinatedQueueClient.OnMsgEvent | coordinatedMessageQueueRealtimeClient.js:154-171 | adopts the message's token as current and emits the message |
| CoordinatedQueue.CoordinatedQueueClient.AckMessage | coordinatedMessageQueueRealtimeClient.js:163-168 | the ack callback sends that token with the local uuid as member |
| CoordinatedQueue.CoordinatedQueueClient.AllAcksSettled | coordinatedMessageQueueRealtimeClient.js:231-240 | processing is cleared only once no slot is unresolved, and the next pass is scheduled iff the queue is non-empty |
| CoordinatedQueue.CoordinatedQueueClient.Dispose | coordinatedMessageQueueRealtimeClient.js:52-77 | disposes the election client, empties the queue and resolves every slot |
| CoordinatedQueue.AckDuringRound | coordinatedMessageQueueRealtimeClient.js:173-193 | an ack arriving mid-round only resolves a slot: no item is popped (lines 195-203) and nothing is sent until the barrier clears |
| Replication.AlignedAsWritten | sharedIndexedQueueTrackerLeader.js:95-108 | throws (none) iff not quit and nothing is recorded; true means every participant's cursor equals the leader's |
| Replication.AlignedAsWrittenAgrees | sharedIndexedQueueTrackerLeader.js:95-108 | where the code does not throw, it computes the corrected predicate |
| Replication.AlignedAsWrittenThrowsFirst | sharedIndexedQueueTrackerLeader.js:98 | a fresh leader with nothing recorded throws, where all participants are in fact aligned at `''` |
| Replication.SharedTrackerLeader.constructor | sharedIndexedQueueTrackerLeader.js:2-25 | starts neither quit nor processing |
| Replication.SharedTrackerLeader.Dispose | sharedIndexedQueueTrackerLeader.js:27-33 | sets quit |
| Replication.SharedTrackerLeader.IsDistributedStateAligned | sharedIndexedQueueTrackerLeader.js:95-108 | true iff not quit and every participant's cursor (default `''`) equals the leader's own (default `''`) |
| Replication.SharedTrackerLeader.ProcessNextItem | sharedIndexedQueueTrackerLeader.js:35-64 | skipped when quit or processing; an empty dequeue clears the flag and records nothing; otherwise pops the head and records its index before the item is processed |
| Replication.SharedTrackerLeader.OnItemProcessed | sharedIndexedQueueTrackerLeader.js:64-76 | success or error, the flag is cleared and the recorded index stays; the next item is scheduled iff aligned |
| Replication.SharedTrackerLeader.OnQueueOrPresenceChange | sharedIndexedQueueTrackerLeader.js:79-93 | not aligned: skipped and nothing changes; aligned: the outcome and new state are exactly `ProcessNextItem`'s step (`Stepped`) from the state before; processing starts only when aligned and not already processing |
| Replication.FirstLeader | sharedIndexedQueueTrackerFollower.js:94-95 | the first participant whose presence state says it is leader |
| Replication.FirstLeaderAt | sharedIndexedQueueTrackerFollower.js:94-95 | a leader preceded by no other leader is the first leader |
| Replication.FirstLeaderPrefix | sharedIndexedQueueTrackerFollower.js:94-104 | participants listed after the first leader do not change it |
| Replication.ExpectedQueueIndex | sharedIndexedQueueTrackerFollower.js:91-109 | a non-empty result is the first leader's cursor differing from the local one; empty iff quit, no leader, or the leader's cursor is `''` or the local one |
| Replication.ExpectedIgnoresLaterParticipants | sharedIndexedQueueTrackerFollower.js:94-104 | the search stops at the first leader |
| Replication.CaughtUpMeansNoWork | sharedIndexedQueueTrackerFollower.js:99-104 | a follower whose cursor equals the leader's expects nothing |
| Replication.CatchUpJumpsToLeader | sharedIndexedQueueTrackerFollower.js:32-63 | a follower behind its leader expects exactly the leader's cursor; when the ascending window holds it, that item is taken and every item before it is dropped unprocessed |
| Replication.CatchUpSkipsIntermediate | sharedIndexedQueueTrackerFollower.js:91-109 | a follower at `007` with a leader at `010` and `008`, `009`, `010` in the window expects `010`, takes it, and leaves an empty window, so `008` and `009` are never processed |
| Replication.SharedTrackerFollower.constructor | sharedIndexedQueueTrackerFollower.js:2-23 | starts neither quit nor processing |
| Replication.SharedTrackerFollower.Dispose | sharedIndexedQueueTrackerFollower.js:25-30 | sets quit |
| Replication.SharedTrackerFollower.GetExpectedQueueIndex | sharedIndexedQueueTrackerFollower.js:91-109 | the loop computes the expected index |
| Replication.SharedTrackerFollower.ProcessNextItem | sharedIndexedQueueTrackerFollower.js:32-63 | skipped when quit or processing; an empty expected index clears the flag with no dequeue and nothing recorded; otherwise fetches with dequeueAtQueueIndex; a missing item still records the requested index and schedules iff the window is non-empty; a found item is handed to processing before anything is recorded; any other outcome leaves the in-flight item as it was |
| Replication.SharedTrackerFollower.OnItemProcessed | sharedIndexedQueueTrackerFollower.js:58-82 | success records the item's index; an error records nothing and still clears the flag; a quit after success leaves the flag set; otherwise a pass is scheduled iff the window is non-empty |
| Replication.SharedTrackerFollower.OnPresenceChange | sharedIndexedQueueTrackerFollower.js:85-89 | ignored after quit; otherwise the outcome and new state are exactly `ProcessNextItem`'s step (`Stepped`) from the state before; never processes the index already recorded; an outcome other than a started item leaves the in-flight item as it was |
| ProcessingCoordinator.IndexedQueueProcessingCoordinator.constructor | indexedQueueProcessingCoordinator.js:2-16 | starts with no role, subscribed |
| ProcessingCoordinator.IndexedQueueProcessingCoordinator.RetireRole | indexedQueueProcessingCoordinator.js:30-33 | the current role, if any, is disposed (quit) and the slot cleared |
| ProcessingCoordinator.IndexedQueueProcessingCoordinator.OnLeaderStateChanged | indexedQueueProcessingCoordinator.js:29-48 | the previous role is disposed and cleared first; afterwards the slot holds a fresh leader role iff the client is leader, a follower role otherwise; every earlier role has quit, so at most one is live (under the corrected alignment test; see "## Left out"); the new role's first pass is that role's `Stepped` from cleared flags and the window and recorded index before the call, and a fresh leader role that is not aligned is skipped and changes nothing |
| ProcessingCoordinator.IndexedQueueProcessingCoordinator.Dispose | indexedQueueProcessingCoordinator.js:18-27 | unsubscribes, disposes the role if present, then the election client, then the tracker, in that order; afterwards the current role, if any, and every earlier role have quit |
| EventEmitters.Without | eventEmitter.js:38 | filtering out a handler keeps every other handler, drops it, and keeps the list free of duplicates |
| EventEmitters.WithoutLength | eventEmitter.js:38 | a registered handler is removed exactly once |
| EventEmitters.WithoutAbsent | eventEmitter.js:34-38 | filtering out an unregistered handler changes nothing |
| EventEmitters.EventEmitter.constructor | eventEmitter.js:18-20 | starts with an empty registry |
| EventEmitters.EventEmitter.Dispose | eventEmitter.js:22-24 | empties the registry |
| EventEmitters.Registered | eventEmitter.js:26-32 | the registry after `on`: the name is present and holds the handler; a handler already listed leaves the registry as it was, and otherwise it is appended to the name's list (new or existing); no other name changes |
| EventEmitters.EventEmitter.On | eventEmitter.js:26-32 | the registry becomes `Registered` of the old one, and no list holds a handler twice |
| EventEmitters.EventEmitter.Off | eventEmitter.js:34-43 | an unknown name or handler leaves the registry unchanged; otherwise the handler is removed and an emptied name is deleted |
| EventEmitters.EventEmitter.Emit | eventEmitter.js:45-49 | invokes the registered handlers for that name once each, in registration order, and none for an unknown name |

## Left out

- Transport adapters (`BroadcastChannel…` and `Websocket…` emitters, eventEmitter.js:52-243), `EventRealtimeClient` and the re-broadcast server: I/O plumbing with no logic of their own. Broadcasts are the returned message sequences.
- Timer durations and scheduling (`setTimeout`, `setInterval`, the debounce in `_evalLeader`): a timer is a flag and its firing is a method. `EvalLeader` keeps only the warm/cold delay choice.
- Promises: each await splits a handler into steps. The roles' quit checks after an await within one pass (sharedIndexedQueueTrackerLeader.js:51 and 60, sharedIndexedQueueTrackerFollower.js:49) are not modelled, because the model checks quit once, at the start of the step. An early return there also leaves `_processing` set, which the model does not capture.
- The awaits inside `_maybeProcessNextQueueItem` (coordinatedMessageQueueRealtimeClient.js:205 and 232) are not interleaved with other handlers. Popping the item and opening the new round are one step, and so is `AllAcksSettled`.
- `crypto.randomUUID()` and `Date.now()`: tokens, nonces and `now` are parameters.
- Logging (`console.log`, `console.warn`).
- Host callbacks (the comparator, `formatIndexCallback`, storage backfill, item processing) have no bodies. They are function-valued fields or the parameters of the step that receives their result.
- A callback that throws: the roles' `try`/`catch` is the `succeeded` flag of the follower's `OnItemProcessed`. The leader's `OnItemProcessed` treats success and error alike, as the code does.
- Cross-replica properties such as a single leader across replicas: the code trusts every announcement, so the model covers one replica's state machines.
- Inherited property names other than array indexes and `length` (for example `"constructor"`) in the `in` tests and lookups (`in` at leaderElectionRealtimeClient.js:148 and coordinatedMessageQueueRealtimeClient.js:135, the lookup at coordinatedMessageQueueRealtimeClient.js:182): these are not modelled.
- OnParticipantHeartbeat: a heartbeat whose `src` is an inherited property name such as `"constructor"` finds the prototype's value at presenceRealtimeClient.js:114-121. It is never a join and never enters the dictionary. The model treats every `src` as an own key, so such a heartbeat is an ordinary join.
- Integer-like `src` keys: `Object.values` lists them first, in ascending numeric order, and only then the other keys in insertion order. The model keeps insertion order for every key, so it matches the code only while no `src` is integer-like.
- String order: JavaScript `<` compares UTF-16 code units, and the model compares code points. The two orders differ only between a character above U+FFFF and one in U+E000 to U+FFFF.
- State comparison: `JSON.stringify` equality (presenceRealtimeClient.js:119) depends on key order, and it equates values that serialise alike: `undefined`, functions and `NaN`. The model compares state values, so key order and those collapses are not captured.
- ProcessNextItem (follower role): a storage callback that rejects is not modelled. `storageItems` is always an answer. In the code the rejection is caught by the follower's `try` (sharedIndexedQueueTrackerFollower.js:38-82). The window keeps its stale items dropped, `_processing` is cleared, nothing is recorded, and another pass is scheduled iff the window is non-empty, so the item is retried. The nearest the model can express is `storageItems == []`, which records the requested index and so skips the item.
- IndexedQueueTracker.maximumQueueLength is a `nat`. With a negative bound the code's trim loop `while (length > max) shift()` (indexedQueueTracker.js:108-110) never terminates once the window is empty, so the model admits only bounds of zero or more.
- Emit: handlers never throw in the model, so every registered handler runs. In the code a throwing handler stops the `forEach` (eventEmitter.js:45-49): the handlers after it are skipped, and the exception propagates to whoever emitted. The orphaned leader role under `OnLeaderStateChanged` below is such a handler.
- DequeueAtQueueIndex: the storage backfill awaited at indexedQueueTracker.js:72 is one atomic step. A `queue:item` append or trim that the code lets in during the await is not interleaved.
- OnLeaderStateChanged: the leader role runs only the corrected alignment test (`IsDistributedStateAligned`), never the as-written one at sharedIndexedQueueTrackerLeader.js:98. As written, the first leader role created before anything is recorded throws out of its constructor (line 24). The coordinator's slot then stays null (indexedQueueProcessingCoordinator.js:36), and the half-built role stays subscribed (lines 19-21) and is never disposed. Once a later role records a cursor, that orphan stops throwing and can process the shared window beside the live role. It can also prevent that from ever happening. It subscribed to presence `change` and `stateChange` before any later role did, so while it throws, each such emit stops at it (see the `Emit` line). Later roles never see the event, and a join's welcome heartbeat (presenceRealtimeClient.js:131-134) is not sent. A follower whose first pass finds no work records nothing, so the orphan keeps throwing and presence never wakes that follower again. So "the slot holds a fresh role" and "at most one role is live" hold for the corrected test only, not for the code as written.
- OnLeaderStateChanged: the disposal awaited at indexedQueueProcessingCoordinator.js:31 is one atomic step. The code lets a second `leaderStateChanged` run during the await, and that can leave two roles live. "At most one role is live" holds only when each change is handled to completion.
- The `on`/`off` forwarding methods of the election client, presence tracker, ack queue and tracker: they only delegate to an internal registry. That registry is the `EventEmitter` class, modelled on its own.
- `_onWelcomeEvent` (coordinatedMessageQueueRealtimeClient.js:148-152): it is not in the modelled core.
- `isLeader` and `hasLeader` (leaderElectionRealtimeClient.js:6-12) are the predicates `IsLeader` and `HasLeader`. They carry no contract of their own: their bodies are the definitions, and `OnLeaderAnnounced`, `OnPresenceJoinOrLeaderRequested`, `OnJoin` and the ack-queue steps use them.

## Findings

| source | as written | input that shows it | evidently intended | confidence | as-written member | corrected member |
|---|---|---|---|---|---|---|
| leaderElectionRealtimeClient.js:147-153 | `this._leader.src in participants` tests an array returned by `Object.values`, so it asks for an array index, not a participant id | one participant `replica-a` that is also the leader: reported absent, so with `allowLeaderDemotion` off the election re-runs; with participants `[A, B]`, leader `B` and self `A` sorting first, the replica claims leadership while `B` still holds it (`AsWrittenClaimsOverPresentLeader`) | true iff some participant has the leader's `src`; the client runs either test (`leaderTest`), and the corrected one keeps a present leader (`CorrectedKeepsPresentLeader`) | not executed | LeaderElection.LeaderExistsAsWrittenMissesLeader | LeaderElection.LeaderExists |
| sharedIndexedQueueTrackerLeader.js:98 | reads `localState.queueIndex` with no `?.`, while the election client's `localState` starts undefined | a leader role created before anything was recorded, with one participant at cursor `''`: throws a TypeError instead of answering aligned; the throw leaves `new` after the handlers were subscribed (lines 19-21), so `_trackerImpl` stays null while the half-built role stays subscribed | a missing recorded state counts as cursor `''`, as the follower does at sharedIndexedQueueTrackerFollower.js:97 | not executed | Replication.AlignedAsWrittenThrowsFirst | Replication.SharedTrackerLeader.IsDistributedStateAligned |
