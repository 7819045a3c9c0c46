# vfx backend core, in Dafny

A model of the parts of the vfx game backend that are hardest to get right, with proofs of what they promise:

- **Matchmaking** (`Tickets`, `Units`, `Matcher`, `Greedy`, `Fairness`, `Widening`, `Players`): pending tickets collapse into
  indivisible units (a solo ticket, or a complete party), and a greedy, tiered selection forms a group.
- **The ticket queue** (`QueueModel`, `InMemQueue`, `ValkeyQueue`, `StuckTickets`): the in-memory queue as a machine whose
  steps are its locked sections, and the shared queue as a machine whose steps are single Valkey commands.
- **Matchmakers over the queue** (`Replicas`, `SharedReplicas`, `MatchmakerLoop`): any number of replicas acting on stale
  reads, over either queue, and one worker's loop run alone.
- **Leaderboard** (`Leaderboard`, `LeaderboardIndex`, `LeaderboardOverlap`): keep-best upserts, count-based ranks, pages,
  and the sorted-set cache through key losses, lost writes, rebuilds and overlapping calls.
- **Rooms** (`RoomManager`, `MatchLoop`): concurrent find-or-create with discards, and the call discipline a plugin sees.
- **Transactional stores** (`Auth`, `Social`, `Storage`): login races under the unique identity index, the friend
  graph, and the storage quota in its machine widths.
- **The example game** (`Rps`): whole games, independent of how actions fall into ticks.

`Base` and `Sorting` hold shared vocabulary. Each class mirrors an object of the backend: its methods are proved
against a step function on values, and the theorems are about every run of those steps.

## How to read it

Each component has three layers. A datatype and a step function say what one locked section, command or transaction
does. A class (or a method with loops) is proved to do exactly that step. Theorems named `EveryRun…` or `…Iff` then
quantify over all inputs or all sequences of steps.

The interleaved components (`Replicas`, `SharedReplicas`, `ValkeyQueue`, `StuckTickets`, `LeaderboardOverlap`,
`RoomManager`, `MatchLoop`, `Auth`) let any number of callers interleave between any two atomic steps, and let a call
stop anywhere.

### Where the code does not do what its text says, or what one might expect

- *Waiting can lose a match.* A selectable pool can stop being selectable as windows widen, because a newly admitted
  unit takes the place a party needed. `Widening.WaitingNeverHurtsIff` shows that this is impossible for matches of at
  most two players and possible for every larger size; `Widening.UnmixedPoolMonotone` shows that it takes a complete
  party smaller than a match.
- *One player can be seated twice.* The matcher keeps tickets distinct, not players. `Players.DistinctPlayersIff` gives
  the exact condition on the pool.
- *"Matches the paginated rank"* (`schema/db/queries/leaderboard.sql:50`) fails on equal (score, achieved_at) pairs.
  `Leaderboard.RankIsPositionIff` shows that ties are the only reason, and `Leaderboard.AroundHasPlayerIff` says how
  many ties push the player off their own page.
- *"Within radius positions"* (`internal/usecase/leaderboard/leaderboard.go:97`): near the top the page is shifted, not
  shortened, so it reaches beyond the radius; `Leaderboard.AroundStaysWithinIff` says exactly when.
- *"A write to an expired key cannot create a partial index"* (`internal/infra/repository/leaderboard_valkey.go:41`): it
  can, when the key goes between EXISTS and ZADD, and the partial key has no TTL to heal it
  (`LeaderboardIndex.LateLossHidesOthers`). *"A Valkey outage only costs performance"* (line 20): a failed EXISTS or mirror
  write hides a newly ranked player, because a missing member is not treated as an index error
  (`LeaderboardIndex.LostWriteHidesPlayer`). `LeaderboardIndex.ExactUnderIff` and `LeaderboardIndex.AnswersRightIff` say
  exactly which mishaps matter and which do not.
- *"Concurrent rebuilds are harmless"* (`internal/infra/repository/leaderboard_valkey.go:131`): the rebuild's ZADD has no GT
  or LT, so one that loaded its rows before a better submission and writes them after its mirror write puts the old score
  back (`LeaderboardOverlap.StaleRebuildRestoresOldScore`); `LeaderboardOverlap.ExactDespiteIff` says when an overlap is
  safe.
- *A cancelled ticket can be matched* on the Valkey queue. For a moment it always can: a claim may come between the
  cancel's SET and its ZREM (`StuckTickets.ClaimedWhileCancelling`). It can stay claimable for good in two ways. A cancel
  between the enqueue's SETNX and its ZADD removes nothing, and the ZADD then makes the ticket pending. And a cancel that
  records its event and stops before its ZREM leaves the ticket pending, where a retried cancel finds it over and removes
  nothing (`StuckTickets.StaysStuck`). `StuckTickets.NeverStuckUnderIff` shows that there is no third way to stay so, and
  `StuckTickets.CanGetStuckIff` gives the exact condition at every point of every run.
- *A login can survive a logout*: the logout's statement does not see a token that a refresh inserts while it runs,
  whether that refresh began before the logout or after. `Auth.SurvivesLogoutIff` shows that this is the only way: the
  login survives if and only if its token is redeemed between the logout's start and its commit.
- *A session can outlive its match*: one that joins after the room was emptied is closed by nobody but its own Leave
  (`MatchLoop.LateJoinStaysOpen`, and `MatchLoop.OpenWhenDone` for the exact set).

## Model

| member | source | states |
|---|---|---|
| `Tickets.NormalizeParty` | internal/domain/match/ticket.go:68-83 | The result is the strictly sorted roster of the submitter plus the named players, or empty when that set has one member. |
| `Tickets.RosterUnique` | internal/domain/match/ticket.go:66-67 | One set of players has exactly one roster, regardless of who listed whom in what order. |
| `Tickets.NormalizedIsCanonical` | internal/domain/match/ticket.go:66-83 | Every ticket built from a normalized roster is solo, or carries a strictly sorted roster of two or more that holds its own player. |
| `Tickets.CanonicalKey` | internal/domain/match/ticket.go:54-64 | The party key of such a ticket is its roster. |
| `Tickets.SamePartyIffSameIds` | internal/domain/match/ticket.go:50-83 | A ticket is a party ticket iff its request named two or more players, and two party tickets share a key iff their requests named the same set. |
| `Tickets.CompatibilityLaws` | internal/domain/match/ticket.go:86-96 | Eligibility is symmetric and is never lost by a wider window or a dropped region rule. |
| `Units.AssembleParty` | internal/domain/match/matcher.go:109-128 | A party becomes a unit iff every roster member has a ticket; the unit lists them in roster order and its seed time is the oldest of them, although zero means "unset" in the loop. |
| `Units.CollectTickets` | internal/domain/match/matcher.go:89-107 | One pass yields exactly the solo units, each once, and per party and member the first of the oldest tickets. |
| `Units.AppendParties` | internal/domain/match/matcher.go:109-128 | In whatever order the roster map is iterated, exactly the complete parties are added, each once. |
| `Units.BuildUnits` | internal/domain/match/matcher.go:88-138 | The result holds exactly the solo tickets and complete parties of the pool, strictly sorted by age and first ticket id. |
| `Units.UnitTickets` | internal/domain/match/matcher.go:86-138 | Every ticket of a unit is pending, and a party unit's i-th ticket belongs to the i-th roster member of that same roster. |
| `Units.UnitTicketsDistinct` | internal/domain/match/matcher.go:88-138 | No unit holds a ticket twice. |
| `Units.UnitsDisjoint` | internal/domain/match/matcher.go:88-138 | Two units that share a ticket id are the same unit. |
| `Units.UnitOrderIsTotal` | internal/domain/match/matcher.go:130-136 | Age, then first ticket id, orders any two different units of a pool. |
| `Units.UnitListUnique` | internal/domain/match/matcher.go:109-138 | A pool has only one unit list, so map iteration order cannot change the outcome. |
| `Units.UnitListInAnyOrder` | internal/domain/match/matcher.go:88-138 | The unit list does not depend on the order of the pending list either, unless a player has two equally old tickets for one party. |
| `Units.CompletePartyHasUnit` | internal/domain/match/matcher.go:109-128 | Every party whose members all have a pending ticket for it is a unit, with one ticket per member in roster order. |
| `Units.IncompletePartyWaits` | internal/domain/match/matcher.go:114-127 | A party in which somebody has no ticket is in no unit. |
| `Units.SoloHasUnit` | internal/domain/match/matcher.go:93-96 | Every solo ticket is a unit of its own. |
| `Units.MemberBringsOldest` | internal/domain/match/matcher.go:104-106 | A member is in their party's unit with the oldest ticket they have for it, and the unit is no younger. |
| `Matcher.NewMatcher` | internal/domain/match/matcher.go:24-49 | Whatever the configuration, a match has at least one player and no policy field is left at zero; an unset policy becomes the default one and a complete configuration is kept. |
| `Matcher.AnchorIsOldest` | internal/domain/match/matcher.go:75-84 | The anchor is a ticket of the unit that no other has waited longer than. |
| `Matcher.AnchorOf` | internal/domain/match/matcher.go:76-84 | The loop returns that anchor, the earliest listed among equals. |
| `Matcher.UnitCompatibleWith` | internal/domain/match/matcher.go:177-184 | True iff every ticket of the unit is eligible for the seed's anchor under its tier. |
| `Matcher.GroupFromSeed` | internal/domain/match/matcher.go:140-173 | The loop with its skips and early exit computes the greedy fill from this seed, or none when it is short or the seed too large. |
| `Matcher.SelectGroup` | internal/domain/match/matcher.go:57-65 | The outcome is a function of the pool's one unit list, the selection that `Greedy.SelectFromIsSelection` describes without the loops; and a group is always a match in the sense of `IsMatch`. |
| `Greedy.SelectFromIsSelection` | internal/domain/match/matcher.go:140-173 | Said without the loops: a seed takes, oldest first, exactly the other units, solo or party, that its tier admits and that fit beside it and what it took before; the oldest seed that thereby makes exactly a match is served, and nobody iff no seed does. |
| `Greedy.OneWayToFit` | internal/domain/match/matcher.go:152-167 | There is only one set of units that a seed can take in that way. |
| `Greedy.SameSelection` | internal/domain/match/matcher.go:57-65 | So a pool has only one selection. |
| `Matcher.FillChoosesUnits` | internal/domain/match/matcher.go:150-167 | Whatever the skips, the fill is the seed's tickets followed by whole, distinct, admitted units. |
| `Matcher.ConcatDistinct` | internal/domain/match/matcher.go:150-172 | Joining different units of a pool never repeats a ticket. |
| `Matcher.SelectedIsMatch` | internal/domain/match/matcher.go:53-65 | Every returned group has exactly PlayersPerMatch distinct pending tickets, is made of whole units, and has every ticket outside the seed eligible for the seed's anchor. |
| `Matcher.MatchKeepsPartiesTogether` | internal/domain/match/matcher.go:67-71 | A match holds, for every roster member of every party it touches, that member's ticket for that same party. |
| `Matcher.MatchRespectsTier` | internal/domain/match/matcher.go:145-184 | Every match has a longest-waiting ticket of a whole unit such that all others are within base plus growth times its wait in rating, and share its region until the region rule is relaxed. |
| `Matcher.AdmitsIffMayMeet` | internal/domain/match/ticket.go:85-96 | A tier admits a ticket iff rating and region, where both sides state them, are that close. |
| `Fairness.FillTakesSolos` | internal/domain/match/matcher.go:152-167 | The fill ends full, or has taken every admitted solo: parties that overflow cannot crowd them out. |
| `Fairness.SeedIsServed` | internal/domain/match/matcher.go:140-173 | A seed that fits, with enough admitted solos pending, always forms a group, whatever parties are pending. |
| `Fairness.OldestUnitIsPlaced` | internal/domain/match/matcher.go:53-65 | No starvation: once the oldest unit has waited out the region rule and its window covers every pending rating, k - s other solos suffice for a group that contains all of it. |
| `Fairness.TierWidens` | internal/domain/match/matcher.go:145-148 | With non-negative growth, whom a unit admits now it admits at every later time. |
| `Fairness.SelectableLater` | internal/domain/match/matcher.go:57-65 | A unit that solos can fill now keeps the pool selectable at every later time, whatever parties are pending. |
| `Fairness.SoloPoolComplete` | internal/domain/match/matcher.go:57-65 | In a pool of solos the greedy selection fails iff no ticket has k - 1 others eligible under its own window. |
| `Fairness.SoloPoolMonotone` | internal/domain/match/matcher.go:57-65 | A pool of solos that forms a match forms one at every later time. |
| `Widening.UnmixedPoolMonotone` | internal/domain/match/matcher.go:140-173 | The same for every pool whose complete parties are all at least a whole match. |
| `Widening.WaitingLosesAMatch` | internal/domain/match/matcher.go:159-171 | For every match size of three or more, a pool with a party one short of a match has a group at 20 s and none at 21 s, under the default policy. |
| `Widening.WaitingNeverHurtsIff` | internal/domain/match/matcher.go:57-65 | For all pools and policies with non-negative growth, waiting never loses a match iff a match has at most two players. |
| `Players.WaitingOnceSuffices` | internal/domain/match/matcher.go:88-173 | If no player waits in two units, every returned group has distinct players. |
| `Players.EveryoneTogether` | internal/domain/match/matcher.go:140-173 | For every non-empty unit list some legally configured matcher puts all of it into one match. |
| `Players.DistinctPlayersIff` | internal/domain/match/matcher.go:88-173 | Groups have distinct players under every policy and at every time iff no player waits in two units. |
| `QueueModel.NotifyEffect` | internal/infra/matchqueue/inmem.go:176-188 | A publish delivers exactly once to each registered channel and to no other. |
| `QueueModel.PublishKeepsInv` | internal/infra/matchqueue/inmem.go:170-193 | Publishing, terminal or not, keeps the queue invariant (open, singly registered channels; nothing after a terminal event). |
| `QueueModel.SubscriberHears` | internal/infra/matchqueue/inmem.go:170-193 | A subscriber whose buffer has room hears the event next, and its channel is closed and unregistered iff the event is terminal. |
| `QueueModel.PublishEffect` | internal/infra/matchqueue/inmem.go:140-149 | A publish for a known ticket is recorded, heard by exactly its subscribers with room, and, if terminal, finishes the ticket and closes them; nothing else moves, and an unknown ticket moves nothing. |
| `QueueModel.CancelEffect` | internal/infra/matchqueue/inmem.go:57-73 | A cancel ends every ticket that is not finished: no longer pending, recorded as cancelled, its subscribers told and closed, everybody else as before; a finished or unknown ticket changes nothing. |
| `QueueModel.EnqueueEffect` | internal/infra/matchqueue/inmem.go:38-55 | A new ticket is pending in its mode and told its place in it, in 32 bits; a known id changes nothing. |
| `QueueModel.SubscribeEffect` | internal/infra/matchqueue/inmem.go:75-101 | A new channel starts with the latest event and is registered iff the ticket is open, closed iff it is finished. |
| `QueueModel.DetachEffect` | internal/infra/matchqueue/inmem.go:195-210 | Exactly the detached channel is closed and taken off its ticket's list, iff it is on it. |
| `QueueModel.StepKeepsInv` | internal/infra/matchqueue/inmem.go:38-210 | Every locked section and every receive keeps the invariant. |
| `QueueModel.ChannelDiscipline` | internal/infra/matchqueue/inmem.go:75-101 | Over every interleaving with detaches: no send on a closed channel, no second close, at most one terminal event per channel and nothing after it, no subscriber left on a finished ticket. |
| `QueueModel.NeverReturns` | internal/infra/matchqueue/inmem.go:103-138 | A ticket that has left the pending pool never returns, whatever follows, even a cancel of a claimed ticket. |
| `QueueModel.ClaimIsAllOrNothing` | internal/infra/matchqueue/inmem.go:122-138 | A claim takes every named ticket, all of them pending, or changes nothing. |
| `QueueModel.ClaimsAreDisjoint` | internal/infra/matchqueue/inmem.go:122-138 | Two successful claims share no ticket, whatever happens between them. |
| `InMemQueue.SortByEnqueuedAt` | internal/infra/matchqueue/inmem.go:220-228 | The in-place insertion sort leaves a permutation of the array, oldest first. |
| `InMemQueue.InMem.CountPending` | internal/infra/matchqueue/inmem.go:157-168 | In any iteration order the count is the number of pending tickets of the mode, as a 32-bit integer holds it. |
| `InMemQueue.InMem.Enqueue` | internal/infra/matchqueue/inmem.go:38-55 | A known id changes nothing; a new ticket enters pending with its depth in the Queued event. |
| `InMemQueue.InMem.PublishToAll` | internal/infra/matchqueue/inmem.go:176-188 | The loop of non-blocking sends and closes never sends on, nor closes, a closed channel, and has the effect of the abstract delivery. |
| `InMemQueue.InMem.Publish` | internal/infra/matchqueue/inmem.go:140-149 | Performs the abstract publish and keeps the invariant; fails iff the ticket is unknown. |
| `InMemQueue.InMem.Cancel` | internal/infra/matchqueue/inmem.go:57-73 | A ticket not finished, claimed or not, ends finished and cancelled, no longer pending, with its subscribers told and closed and all others untouched; a finished one is left alone. |
| `InMemQueue.InMem.Subscribe` | internal/infra/matchqueue/inmem.go:75-101 | The new channel starts with the latest event, and is closed at once iff the ticket is finished. |
| `InMemQueue.InMem.Pending` | internal/infra/matchqueue/inmem.go:103-120 | Exactly the pending tickets of the mode, each once, oldest first, in any map order. |
| `InMemQueue.InMem.Claim` | internal/infra/matchqueue/inmem.go:122-138 | The two passes perform the abstract all-or-nothing claim, also for repeated ids. |
| `InMemQueue.InMem.Detach` | internal/infra/matchqueue/inmem.go:195-210 | Removes and closes the channel iff it is still registered, so never closes twice. |
| `Replicas.ClaimKeepsSafe` | internal/usecase/match/matchmaker.go:148-161 | A claim decided on a stale read keeps all formed groups disjoint and out of the pool. |
| `Replicas.EveryRunIsSafe` | internal/usecase/match/matchmaker.go:126-161 | For any number of matchmakers without leader, each claiming what SelectGroup answers to its own, possibly stale, read, in every interleaving with clients: every claimed group is a match of what its replica read, its tickets have left the pool, and no two groups share a ticket. |
| `Replicas.EveryRunConserves` | internal/usecase/match/matchmaker.go:126-161 | In every such run the tickets taken are exactly groups times PlayersPerMatch. |
| `Replicas.FreshSelectionIsFormed` | internal/usecase/match/matchmaker.go:148-161 | A selection whose tickets are all still pending is always formed and claimed. |
| `Replicas.StaleSelectionIsDropped` | internal/usecase/match/matchmaker.go:158-161 | One with a ticket that is gone is dropped, and nothing is claimed. |
| `SharedReplicas.EveryRunIsSafe` | internal/infra/matchqueue/valkey.go:254-296 | For any number of matchmakers on the shared queue, with every command of every gateway between a ZRANGE, the fetches and the claim: every claimed group is a match of the tickets fetched for the ids its ZRANGE listed, has left every pending set, and shares no ticket with another. |
| `SharedReplicas.ClaimKeepsSafe` | internal/infra/matchqueue/valkey.go:276-296 | A claim decided on a stale ZRANGE keeps that. |
| `SharedReplicas.EveryRunConserves` | internal/usecase/match/matchmaker.go:126-161 | In every such run the tickets taken are exactly groups times PlayersPerMatch. |
| `SharedReplicas.ClaimFormsIffPending` | internal/infra/matchqueue/valkey.go:276-296 | A selection is formed, and its tickets leave the pending set, iff all of them are still pending in its mode. |
| `Replicas.PendingIsPool` | internal/usecase/match/matchmaker.go:126-134 | In every reachable queue, what Pending returns is a pool as the matcher assumes it, of the size of the pending set. |
| `Replicas.SelectionIsMatch` | internal/usecase/match/matchmaker.go:134-142 | What the matcher selects from any pool is a match of that pool. |
| `MatchmakerLoop.GroupIsClaimable` | internal/usecase/match/matchmaker.go:136-143 | A group selected from the current pool can be claimed. |
| `MatchmakerLoop.PairEvolves` | internal/usecase/match/matchmaker.go:148-227 | Settling a chosen group finishes its tickets and leaves every other ticket as it was. |
| `MatchmakerLoop.PairShrinks` | internal/usecase/match/matchmaker.go:148-227 | Settling a claimed group shrinks the mode's pool by exactly the group's size. |
| `MatchmakerLoop.AnswersDecide` | internal/usecase/match/matchmaker.go:187-219 | Exactly when each of the four things is done for a ticket: told that allocation failed, told of an internal failure, stored and told of its match with the token signed for it, or stored and yet told of a failure. |
| `MatchmakerLoop.ConcludedAsAnswered` | internal/usecase/match/matchmaker.go:163-219 | Every ticket of every turn ends with the event that allocator, signer and store answered for it: Matched, with its own signed token, iff all three did. |
| `MatchmakerLoop.TurnEffect` | internal/usecase/match/matchmaker.go:148-227 | Claiming and settling a claimable group, whatever the answers, leaves every ticket of it finished with exactly the outcome it was told, and touches no other ticket. |
| `MatchmakerLoop.StoredWhenTold` | internal/usecase/match/matchmaker.go:201-219 | At the moment a player is told of a match, the store holds, for that player, the very assignment they are told. |
| `MatchmakerLoop.KeptUnlessSeatedAgain` | internal/usecase/match/matchmaker.go:201-219 | At the end of a call the player still has that assignment unless a later deed of the call stored another for them. |
| `MatchmakerLoop.StoreIsLastPut` | internal/usecase/match/matchmaker.go:201-219 | The store after a call is, for every player, the last assignment put for them, or what it was. |
| `MatchmakerLoop.Matchmaker.PairOne` | internal/usecase/match/matchmaker.go:187-219 | From the answers of signer and store: the assignment is stored and then Matched is published with it, or Failed is published, whether or not a store that erred had taken effect; queue, store and log are exactly those deeds later. |
| `MatchmakerLoop.Matchmaker.SettleAll` | internal/usecase/match/matchmaker.go:185-219 | Every ticket is settled in order from its own answers into the one room, and the count equals the group iff all were seated. |
| `MatchmakerLoop.Matchmaker.FailAll` | internal/usecase/match/matchmaker.go:163-174 | Every ticket is told that allocation failed; nothing is stored. |
| `MatchmakerLoop.Matchmaker.Pair` | internal/usecase/match/matchmaker.go:148-227 | Claims iff every ticket is pending; a lost claim changes nothing; a won one does exactly the deeds its answers call for, fails iff there was no room, and counts an allocation iff every ticket was seated. |
| `MatchmakerLoop.Matchmaker.Look` | internal/usecase/match/matchmaker.go:128-142 | Finds nothing only if nothing can be selected; what it finds was selected from the pool and can be claimed. |
| `MatchmakerLoop.Matchmaker.Round` | internal/usecase/match/matchmaker.go:126-145 | Either nothing can be selected and nothing changes, or one chosen group is taken through a turn that queue, store, log and metric reflect exactly. |
| `MatchmakerLoop.Matchmaker.ProcessMode` | internal/usecase/match/matchmaker.go:126-146 | The loop terminates. Its turns are a full account of what it did to queue and store, in order; each group was chosen from the pool its predecessors left and got what was offered in its turn; every ticket of it ends finished as it was answered, a matched one with the token signed for it; all other tickets are as before; the pool shrinks by PlayersPerMatch a turn. It fails iff its last turn got no room; otherwise nothing more can be selected. |
| `MatchmakerLoop.NextTurn` | internal/usecase/match/matchmaker.go:128-145 | One more turn keeps that account, whatever its answers. |
| `MatchmakerLoop.NothingInAnyReading` | internal/usecase/match/matchmaker.go:134-142 | That holds for every order in which the pool may be read, unless a player has two equally old tickets for one party. |
| `ValkeyQueue.ClaimTakes` | internal/infra/matchqueue/valkey.go:276-296 | A ticket taken by the claim script was pending and is in no pending set afterwards. |
| `ValkeyQueue.ClaimScriptEffect` | internal/infra/matchqueue/valkey.go:276-284 | The script takes exactly the named tickets of the mode if all are pending, and else nothing. |
| `ValkeyQueue.EveryRunClaimsOnce` | internal/infra/matchqueue/valkey.go:179-296 | With gateways interleaving between any two commands, and stopping anywhere, a ticket is added at most once, under its own mode, and no two successful claims share one. |
| `ValkeyQueue.NeverReturns` | internal/infra/matchqueue/valkey.go:179-296 | A ticket that has left the pending sets never comes back. |
| `ValkeyQueue.WholeEnqueue` | internal/infra/matchqueue/valkey.go:181-213 | Uninterrupted, an enqueue leaves the ticket pending in its mode with its Queued event recorded and on its stream, and nothing else changed. |
| `ValkeyQueue.WholeTerminalPublish` | internal/infra/matchqueue/valkey.go:241-252 | Uninterrupted, a terminal publish records the event, takes the ticket out of its pending set and appends the event to its stream, and nothing else. |
| `ValkeyQueue.WholeOrdinaryPublish` | internal/infra/matchqueue/valkey.go:241-252 | Uninterrupted, an event that is not terminal is recorded and appended to the stream, and the ticket stays pending. |
| `ValkeyQueue.DepthIsPlace` | internal/infra/matchqueue/valkey.go:194-199 | The depth a ticket is told is its place among the pending tickets of its mode. |
| `ValkeyQueue.WholeCancel` | internal/infra/matchqueue/valkey.go:215-231 | A cancel stops at a recorded terminal event, and otherwise goes on as the publish of a cancelled failure. |
| `StuckTickets.CanGetStuckIff` | internal/infra/matchqueue/valkey.go:181-252 | At every point of every run, for a ticket not stuck (recorded as over, still claimable, with no call about to remove it): it can still get stuck iff its enqueue has not begun or not reached its ZADD or, if endings may stop between their SET and their ZREM, iff it is pending. |
| `StuckTickets.SettledStaysRight` | internal/infra/matchqueue/valkey.go:181-252 | A known ticket whose enqueue is over never gets stuck unless an ending stops halfway, and once it is out of the pending sets not even then. |
| `StuckTickets.CancelCanOvertakeEnqueue` | internal/infra/matchqueue/valkey.go:181-231 | For every ticket there is a run in which a cancel overtakes its enqueue and leaves it cancelled, pending and claimable. |
| `StuckTickets.StoppedCancelLeavesTicket` | internal/infra/matchqueue/valkey.go:241-249 | For every ticket there is a run in which a cancel of a fully enqueued ticket stops before its ZREM and leaves it cancelled, pending and claimable. |
| `StuckTickets.ClaimedWhileCancelling` | internal/infra/matchqueue/valkey.go:241-249 | Even without mishaps, for every ticket there is a run in which a claim takes it after its cancellation was recorded and before it is removed. |
| `StuckTickets.StaysStuck` | internal/infra/matchqueue/valkey.go:215-226 | However often the cancel is then retried, and whatever else happens, the ticket stays so until somebody publishes for it or claims it. |
| `StuckTickets.NeverStuckUnderIff` | internal/infra/matchqueue/valkey.go:181-252 | For every set of mishaps that may happen: no run ever leaves a ticket stuck iff the set allows neither ending a ticket before its ZADD nor stopping an ending between SET and ZREM. Stopping anywhere else does no harm. |
| `ValkeyQueue.StreamsGrow` | internal/infra/matchqueue/valkey.go:364-378 | No command rewrites what a ticket's stream already holds. |
| `ValkeyQueue.Subscribe` | internal/infra/matchqueue/valkey.go:306-349 | What the cursor loop has forwarded is exactly the part of the stream its polls have reached, up to the first terminal event, at which it closes. |
| `ValkeyQueue.PollsCatchUp` | internal/infra/matchqueue/valkey.go:320-345 | Every poll gets a batch of 64 further or to the end, so everything in the stream is forwarded after enough polls. |
| `Leaderboard.HistoryKeepsBest` | schema/db/queries/leaderboard.sql:4-19 | After any submissions a player's row is their first submission of a score no other of theirs beats; only submitters have rows. |
| `Leaderboard.ScoreIsExtreme` | internal/domain/leaderboard/leaderboard.go:35-42 | The score on the board is one the player submitted: their highest when descending, their lowest when ascending. |
| `Leaderboard.ScoresIgnoreOrder` | schema/db/queries/leaderboard.sql:1-19 | The scores do not depend on the order in which submissions arrive. |
| `Leaderboard.ListingReads` | schema/db/queries/leaderboard.sql:21-35 | Every listing reads best score first, and among equal scores earliest first. |
| `Leaderboard.PositionBracket` | schema/db/queries/leaderboard.sql:21-73 | In every listing a player stands at their counted rank or later by at most the number of their ties. |
| `Leaderboard.ListingAtEnd` | schema/db/queries/leaderboard.sql:21-35 | Both ends of that bracket occur: some listing has the player first of their ties, some has them last. |
| `Leaderboard.RankIsPositionIff` | schema/db/queries/leaderboard.sql:50-73 | Counted rank and listed position agree in every listing iff nobody shares the player's score and time. |
| `Leaderboard.TopRanks` | internal/infra/repository/leaderboard.go:74-102 | The page is the listing's slice from the offset, each entry carrying its position in the whole listing. |
| `Leaderboard.ListRanksAroundPlayer` | internal/usecase/leaderboard/leaderboard.go:97-125 | Clamps the radius and returns the 2r + 1 window whose start is cut off at the top. |
| `Leaderboard.RadiusIsNearest` | internal/usecase/leaderboard/leaderboard.go:103-108 | The radius used is the one in range that is nearest to the one asked for. |
| `Leaderboard.AroundCovers` | internal/usecase/leaderboard/leaderboard.go:97-125 | Every entry within the radius of the player's rank is on the page, in at most 2r + 1 entries. |
| `Leaderboard.AroundStaysWithinIff` | internal/usecase/leaderboard/leaderboard.go:97-125 | Nothing beyond the radius is on the page iff the window is not cut off at the top or the board ends first. |
| `Leaderboard.AlwaysOnPageIff` | internal/usecase/leaderboard/leaderboard.go:97-125 | The page around any rank, right or not, holds the player in every listing iff it reaches from their counted rank to their place behind all their ties. |
| `Leaderboard.AroundHasPlayerIff` | internal/usecase/leaderboard/leaderboard.go:97-125 | Around the counted rank, that is iff they have no more ties than the page leaves room for. |
| `LeaderboardIndex.AroundIndexRankIff` | internal/usecase/leaderboard/leaderboard.go:97-125 | Around the rank the index gives, the exact condition on that rank, the counted rank and the ties. |
| `Leaderboard.AroundHasSelf` | internal/usecase/leaderboard/leaderboard.go:97-125 | Without ties the page holds the player at the counted rank. |
| `LeaderboardIndex.IndexIsWhatReachedIt` | internal/infra/repository/leaderboard_valkey.go:36-48 | In every run, with keys lost between any two commands and commands failing or unanswered: the table is keep-best over all submissions, and an existing key is keep-best over those whose scores reached it. |
| `LeaderboardIndex.ExactIff` | internal/infra/repository/leaderboard_valkey.go:36-48 | In every run an existing key equals the table iff every ranked player's best score has reached it. |
| `LeaderboardIndex.ExactUnderIff` | internal/infra/repository/leaderboard_valkey.go:36-48 | For every set of mishaps that may happen: the key is exact between calls in all runs iff the set allows no failed EXISTS of a submission, no refused mirror write, and no key loss between the EXISTS and the ZADD of one submission. Other key losses, failed rebuilds, failed lookups and lost answers do no harm. |
| `LeaderboardIndex.AnswersRightIff` | internal/infra/repository/leaderboard_valkey.go:50-97 | For every such set: every lookup finds the player iff the table ranks them, at a rank their score allows, in all runs iff the set also allows no key loss between a lookup's EXISTS and its rank command. |
| `LeaderboardOverlap.ExactDespiteIff` | internal/infra/repository/leaderboard_valkey.go:36-165 | However calls overlap, for every set of troubles that may happen: an existing key is exact once no mirror write is outstanding, in all plays, iff the set allows no lost mirror write (as above) and no rebuild that writes rows the table has overtaken. |
| `LeaderboardOverlap.StaleRebuildRestoresOldScore` | internal/infra/repository/leaderboard_valkey.go:130-154 | A play in which every command succeeds and no key is lost, but a rebuild that loaded before a better score was submitted writes after it was mirrored, and the old score stays. |
| `LeaderboardIndex.IndexNeverBetter` | internal/infra/repository/leaderboard_valkey.go:36-48 | Whatever is lost, no index score is better than the table's and nobody unknown to the table is indexed. |
| `LeaderboardIndex.RebuildRestores` | internal/infra/repository/leaderboard_valkey.go:119-154 | After any history, losing the key and then starting any call makes the index equal the best of all submissions. |
| `LeaderboardIndex.RebuildCompletes` | internal/infra/repository/leaderboard_valkey.go:130-154 | A rebuild that succeeds leaves every score in the key, and a TTL on it. |
| `LeaderboardIndex.RanksBracketed` | internal/infra/repository/leaderboard_valkey.go:68-117 | Index rank and table rank both lie between one plus the strictly better and the better-or-equal, in both orders. |
| `LeaderboardIndex.RanksCoincide` | internal/infra/repository/leaderboard_valkey.go:99-117 | The two ranks coincide when nobody else has the player's score. |
| `LeaderboardIndex.RanksMirror` | internal/infra/repository/leaderboard_valkey.go:99-117 | A member's ranks in the two directions add up to the size plus one, ties included. |
| `LeaderboardIndex.IndexRanksDiffer` | internal/infra/repository/leaderboard_valkey.go:99-117 | No two members share an index rank. |
| `LeaderboardIndex.RanksOrdered` | internal/infra/repository/leaderboard_valkey.go:99-117 | A lower index rank means a better score, or an equal one and an id that comes first in the direction of the board. |
| `LeaderboardIndex.HiddenIff` | internal/infra/repository/leaderboard_valkey.go:36-61 | In every run a player is missing from an existing index though ranked iff they submitted and nothing of theirs reached that key. |
| `LeaderboardIndex.LateLossHidesOthers` | internal/infra/repository/leaderboard_valkey.go:41-45 | From every state: if the key goes between EXISTS and ZADD of a submission whose commands all succeed, the result is a one-member key without TTL, and everybody else is hidden. |
| `LeaderboardIndex.LostWriteHidesPlayer` | internal/infra/repository/leaderboard_valkey.go:41-57 | From every state with a key, a new player whose EXISTS or mirror write fails is hidden. |
| `LeaderboardIndex.LookupMisses` | internal/infra/repository/leaderboard_valkey.go:68-117 | A lookup answers "unranked" for a ranked player who is hidden, or whose key goes between EXISTS and the rank command. |
| `LeaderboardIndex.LookupFallsBack` | internal/infra/repository/leaderboard_valkey.go:50-61 | An error at any command of a lookup leads to the rank the table counts. |
| `LeaderboardIndex.FinishIsRun` | internal/infra/repository/leaderboard_valkey.go:36-97 | Every call of the object below, in any weather, is a run of those steps. |
| `LeaderboardIndex.BoardIndex.Rebuild` | internal/infra/repository/leaderboard_valkey.go:130-154 | Loads, fills and sets the TTL one command at a time, with the key possibly going before each; fails where a command fails. |
| `LeaderboardIndex.BoardIndex.Rows` | internal/infra/repository/leaderboard_valkey.go:146-149 | The rows collected in any order are the table's scores. |
| `LeaderboardIndex.BoardIndex.EnsureBuilt` | internal/infra/repository/leaderboard_valkey.go:119-128 | An existing key is left alone; a missing one is rebuilt; an error is an error. |
| `LeaderboardIndex.BoardIndex.Zadd` | internal/infra/repository/leaderboard_valkey.go:156-165 | Keeps the better score; on a key that has gone it makes a new one. |
| `LeaderboardIndex.BoardIndex.Submit` | internal/infra/repository/leaderboard_valkey.go:36-48 | The table takes the better score and says whether it did, and nobody else's row moves; then exactly the commands of the abstract call, for every reply and every key loss in between. |
| `LeaderboardIndex.BoardIndex.ZeroBasedRank` | internal/infra/repository/leaderboard_valkey.go:99-117 | The number of members before the player, ties broken by member id in the direction of the board. |
| `LeaderboardIndex.BoardIndex.CountRank` | internal/infra/repository/leaderboard.go:53-72 | One plus the entries strictly ahead, or not found. |
| `LeaderboardIndex.BoardIndex.RankOfPlayer` | internal/infra/repository/leaderboard_valkey.go:50-97 | Exactly the commands of the abstract lookup, for every reply and every key loss; its answer is the one the abstract call ends with, and it fails only when the fallback does. |
| `RoomManager.Manager.TryRegister` | internal/usecase/room/manager.go:96-106 | The first arrival is registered and counted; a later one gets the winner and changes nothing. |
| `RoomManager.Manager.Cleanup` | internal/usecase/room/manager.go:120-127 | Unregisters only the calling match; all others stay. |
| `RoomManager.LookupFindsTheLiveMatch` | internal/usecase/room/manager.go:129-134 | In every run, looking an id up returns a match iff that match runs, or has ended and not yet cleaned up. |
| `RoomManager.PluginsPreserved` | internal/usecase/room/manager.go:57-118 | Every step keeps each plugin exactly one of under construction, owned by a running match, or closed once. |
| `RoomManager.RegistryPreserved` | internal/usecase/room/manager.go:57-127 | Every step keeps the registry equal to the matches whose goroutine has not cleaned up, one per id. |
| `RoomManager.CleanupFindsItself` | internal/usecase/room/manager.go:120-127 | A cleanup always finds its own match registered. |
| `RoomManager.EveryRunIsOrderly` | internal/usecase/room/manager.go:57-127 | In every interleaving of FindOrCreate calls and endings, all of that holds and the gauge equals registered matches plus those between cleanup and decrement. |
| `RoomManager.QuietDaemonLeaksNothing` | internal/usecase/room/manager.go:57-127 | Once every call and goroutine is done, every plugin was closed exactly once, nothing is registered and the gauge is zero. |
| `RoomManager.CallersShareTheMatch` | internal/usecase/room/manager.go:57-118 | In every run, callers get matches that were started for their id, and two callers of one id whose matches are both live got the same one. |
| `RoomManager.ReturnsMatchUnlessBuildFailed` | internal/usecase/room/manager.go:57-118 | In every run a call that has returned got no match iff its own plugin could not be made or initialised. |
| `RoomManager.LoserGetsTheWinner` | internal/usecase/room/manager.go:96-103 | A call that finds its id registered at the re-check returns that match, whatever happens until it has discarded its own. |
| `RoomManager.EndingUnregisters` | internal/usecase/room/manager.go:108-127 | A match that ends has its plugin closed, is then unregistered, and is then no longer counted. |
| `MatchLoop.RunKeepsInv` | internal/usecase/room/match.go:71-238 | Every run keeps call order, input flow and session accounting together. |
| `MatchLoop.PluginDiscipline` | internal/usecase/room/match.go:133-238 | OnTick sees 0, 1, 2, … (modulo 2^32); OnGameEnd comes at most once, right after an answer that the game ended; Close comes once and last, exactly when the run is over; accepted inputs reach the plugin once, in order; no session is closed twice and no admitted one is forgotten. |
| `MatchLoop.OpenWhenDone` | internal/usecase/room/match.go:231-238 | When the run is over, every admitted session is closed or being closed by its own Leave, except those that joined after the room was emptied and have not left. |
| `MatchLoop.LateJoinStaysOpen` | internal/usecase/room/match.go:70-92 | A player who joins then is admitted, and keeps their session through every continuation without a Leave of their own. |
| `MatchLoop.LeaveEffect` | internal/usecase/room/match.go:94-116 | A player who leaves is gone from the room, and their session, and no other, is closed next. |
| `MatchLoop.RunEnds` | internal/usecase/room/match.go:133-165 | Once it is over, every session in the room is closed, the room is empty, and the plugin is closed last. |
| `MatchLoop.WholeTickIsRun` | internal/usecase/room/match.go:167-205 | An undisturbed tick is one of the fine-grained runs. |
| `MatchLoop.Match.Join` | internal/usecase/room/match.go:70-92 | Refuses a player who is in; otherwise adds the session and posts a notice unless the buffer is full. |
| `MatchLoop.Match.Leave` | internal/usecase/room/match.go:94-116 | Removes the player and closes exactly that session, or does nothing. |
| `MatchLoop.Match.SubmitInput` | internal/usecase/room/match.go:118-131 | Appends the action, or drops it iff 256 are waiting. |
| `MatchLoop.Match.DrainActions` | internal/usecase/room/match.go:291-301 | Returns the buffered inputs in order and empties the buffer. |
| `MatchLoop.Match.DrainEvents` | internal/usecase/room/match.go:303-313 | Returns the buffered notices in order and empties the buffer. |
| `MatchLoop.Match.Tick` | internal/usecase/room/match.go:167-205 | Performs the abstract tick: the plugin sees the current tick and everything buffered, everybody in the room is sent exactly what the response addresses to them, and the tick advances, unless the plugin failed. |
| `MatchLoop.Match.Broadcast` | internal/usecase/room/match.go:240-254 | Every session in the room gets the frame once, in whatever order, and no other does. |
| `MatchLoop.Match.Dispatch` | internal/usecase/room/match.go:256-287 | An event without recipients goes to everybody, otherwise once per mention to those named who are in the room. |
| `MatchLoop.Match.SendResponse` | internal/usecase/room/match.go:187-201 | Each session gets the state delta, if there is one, with the tick it leads from and to, and then its events in order. |
| `MatchLoop.MentionLaws` | internal/usecase/room/match.go:256-287 | A mention is one frame for the one mentioned and none for others; an event without recipients is one frame for everybody. |
| `MatchLoop.EventLaws` | internal/usecase/room/match.go:199-201 | A player's frames come in the order of the events. |
| `MatchLoop.Match.Finalise` | internal/usecase/room/match.go:207-229 | The plugin hears the final tick, everybody in the room the result, and then each session is closed once. |
| `MatchLoop.Match.CloseAllPlayers` | internal/usecase/room/match.go:231-238 | Closes each joined session once and empties the room. |
| `Auth.Store.SaveNew` | internal/infra/repository/identity.go:45-61 | The identity is saved with its player, or a taken identity rolls both back. |
| `Auth.Store.FindOrCreateByIdentity` | internal/usecase/auth/auth.go:262-317 | Undisturbed, it returns the identity's owner, creating the candidate only for an unknown identity, and moves no other identity. |
| `Auth.Store.Rotate` | internal/usecase/auth/auth.go:192-227 | A live token is revoked and replaced for the same player; a revoked one changes nothing. |
| `Auth.DoExtends` | internal/usecase/auth/auth.go:113-317 | No transaction removes a player, moves an identity, or revives a revoked token. |
| `Auth.DoKeepsInv` | internal/usecase/auth/auth.go:113-317 | Every statement of every request keeps stored rows and all requests in flight consistent. |
| `Auth.OneRetrySuffices` | internal/usecase/auth/auth.go:113-121 | In every interleaving a login fails only if its own transaction was made to fail, never by losing a race; logins for one identity return one player; and every stored player owns an identity. |
| `Auth.RaceLoserGetsTheWinner` | internal/usecase/auth/auth.go:113-121 | A login that loses the race for its identity returns the winner's player on its one retry, whatever others do in between. |
| `Auth.LoginKeepsItsKey` | internal/usecase/auth/auth.go:262-317 | In every run a login stays with the identity it was asked for until it returns that identity's owner. |
| `Auth.MintedLoginKeepsItsPlayer` | internal/usecase/auth/auth.go:262-292 | In every run a login without a device returns the player it minted an identity for. |
| `Auth.IssuedToThatPlayer` | internal/usecase/auth/auth.go:328-347 | In every run a token issued for a login belongs to the player that login returned, and starts a chain of its own. |
| `Auth.OwnersNeverChange` | internal/usecase/auth/auth.go:151-190 | An identity owned at some point of a run has the same owner at every later point. |
| `Auth.LinkOutcome` | internal/usecase/auth/auth.go:151-190 | Exactly when a link is granted at once, goes on to its insert, or is refused, and why. |
| `Auth.RefreshRotatesOnce` | schema/db/queries/refresh_token.sql:12-17 | However refreshes race, a token is redeemed at most once and is then revoked. |
| `Auth.OneLiveTokenPerLogin` | internal/usecase/auth/auth.go:192-227 | In every interleaving the refresh tokens that go back to one login belong to its player, and at most one of them is live. |
| `Auth.RevokedForGood` | schema/db/queries/refresh_token.sql:12-23 | A token revoked at some point of a run stays revoked and is never redeemed after it. |
| `Auth.LogoutEndsTokens` | internal/usecase/auth/auth.go:229-235 | Once a logout is done, no token that was live when it began is ever redeemed again. |
| `Auth.SurvivesLogoutIff` | internal/usecase/auth/auth.go:192-235 | For a logout that begins somewhere in a run and commits at its end, with no other logout of the player in between: a login with a live token at the beginning has one afterwards iff that token was redeemed meanwhile, whenever that refresh began. |
| `Auth.DeadLoginStaysDead` | internal/usecase/auth/auth.go:192-227 | A login without a live token never gets one again. |
| `Auth.OverlappingRefreshSurvives` | schema/db/queries/refresh_token.sql:12-23 | Such a survivor can come about from every point of every run with a live token that nobody is refreshing. |
| `Social.OrderPair` | internal/domain/social/social.go:76-87 | The byte scan returns the pair in bytewise order. |
| `Social.OrderedIsCanonical` | internal/domain/social/social.go:34-43 | A pair has one stored form, whoever is named first, with the lower id first. |
| `Social.SamePair` | internal/domain/social/social.go:34-87 | Two pairs share a stored form iff they are the same two players. |
| `Social.EveryRunIsConsistent` | internal/usecase/social/social.go:26-132 | Over every serial run: no self-edges, at most one pending direction per pair, no requests between friends, and a block in either direction excludes friendship and requests. |
| `Social.AcceptSucceedsIffRequested` | internal/usecase/social/social.go:75-84 | After any run, accepting succeeds iff the request is pending, and never meets an existing friendship. |
| `Social.MutualRequestsBefriend` | internal/usecase/social/social.go:26-73 | After any run, a request answered by the opposite request has the effect of accepting it. |
| `Social.RequestIsUndone` | internal/usecase/social/social.go:86-98 | After any run, declining or cancelling a new request restores the graph. |
| `Social.FriendshipIsUndone` | internal/usecase/social/social.go:75-104 | After any run, either side ending an accepted friendship leaves the graph as if the request had been declined. |
| `Social.BlockIsUndone` | internal/usecase/social/social.go:106-132 | Lifting a block restores the graph between strangers, and otherwise only the old tie stays broken. |
| `Social.BlockedUntilLifted` | internal/usecase/social/social.go:106-126 | After any run and a block, whatever follows, neither side can ask the other until the block is lifted. |
| `Social.SendOutcome` | internal/usecase/social/social.go:26-73 | Exactly when a request is refused and for which reason, and what it does when it is not. |
| `Social.OthersUntouched` | internal/usecase/social/social.go:26-132 | No operation changes anything between any other two players. |
| `Social.SocialStore.SendFriendRequest` | internal/usecase/social/social.go:26-73 | The checks in order, then a friendship, a refusal or a new request. |
| `Social.SocialStore.AcceptFriendRequest` | internal/usecase/social/social.go:75-84 | Moves the request into a friendship, or fails without one. |
| `Social.SocialStore.BlockPlayer` | internal/usecase/social/social.go:106-126 | Adds the block and drops the friendship and both requests. |
| `Social.SocialStore.DeleteRequest` | internal/usecase/social/social.go:86-98 | Drops exactly the named direction, or reports it missing. |
| `Social.SocialStore.Unfriend` | internal/usecase/social/social.go:100-104 | Drops the pair's one row, or reports that there is none. |
| `Storage.TotalWithout` | internal/usecase/storage/storage.go:252-272 | The usage sum does not depend on the order of the files. |
| `Storage.PlayerFiles.CheckQuota` | internal/usecase/storage/storage.go:252-272 | Accepts iff the files after the write meet both limits: the 64-bit subtraction never wraps, and the addition does not for any file its callers let through. |
| `Storage.PlayerFiles.CommitPlayerFile` | internal/usecase/storage/storage.go:119-146 | Records the uploaded size iff it is present, at most the ceiling and within quota; otherwise changes nothing. |
| `Storage.PlayerFiles.DeletePlayerFile` | internal/usecase/storage/storage.go:148-171 | The named file is gone and every other is as before, or it is reported missing. |
| `Storage.EveryRunWithinQuota` | internal/usecase/storage/storage.go:119-171 | Every serial run keeps an owner with files within both limits and every file within the ceiling. |
| `Storage.UsageNeverOverflows` | internal/usecase/storage/storage.go:252-272 | The usage sum stays in 64 signed bits in every run if the byte limit, or the file limit times the file ceiling, does. |
| `Rps.DecisionIsFair` | examples/rps/plugin/game.go:208-217 | Rock beats scissors, paper rock, scissors paper; swapping seats swaps the outcome; equal choices tie and different ones have one winner. |
| `Rps.NormalizeIsCaseless` | examples/rps/plugin/game.go:219-230 | Either case of the three letters is that choice, and nothing else is one. |
| `Rps.BatchingIsIrrelevant` | examples/rps/plugin/game.go:53-78 | Two splits of the same actions into ticks lead to the same game. |
| `Rps.PlayKeepsInv` | examples/rps/plugin/game.go:133-192 | Any actions of the two players keep rounds, scores, choices, history and verdict consistent. |
| `Rps.GameIsSound` | examples/rps/plugin/game.go:53-217 | A whole game resolves at most three rounds and the third decides; every recorded round went to the better choice; scores are the wins recorded; the winner has more wins and rank 1; the two ranks cancel out. |
| `Rps.GameRecordsFirstChoices` | examples/rps/plugin/game.go:133-192 | In a whole game the recorded rounds are made of consecutive actions, each ending with the action by which the second player chose, and record for each player their own first valid choice since the last round; no action is left out until there is a winner. |
| `Rps.RoundsAreFirstChoices` | examples/rps/plugin/game.go:133-192 | The same from any point of a game. |
| `Rps.WinnerIsFinal` | examples/rps/plugin/game.go:53-78 | Once there is a winner, nothing that follows changes the game. |
| `Rps.Game.Init` | examples/rps/plugin/game.go:34-51 | Accepts exactly two players and seats them in order. |
| `Rps.Game.Resolve` | examples/rps/plugin/game.go:155-192 | Scores, records and judges the round, then clears the table. |
| `Rps.Game.Apply` | examples/rps/plugin/game.go:133-153 | A first valid choice counts, the second player's resolves the round, anything else is ignored. |
| `Rps.Game.OnTick` | examples/rps/plugin/game.go:53-78 | Plays the actions up to the deciding one, and reports progress iff a round was resolved and the end iff there is a winner. |

## Left out

- Connect handlers, interceptors, WebTransport sessions, SDK clients, CLI, bootstrap and metrics other than the two gauges modelled: plumbing.
- JWT signing, OIDC verification, hashing and signed URLs: library work. Tokens and match ids are opaque fresh values; signing, allocating and storing may fail at any point.
- JSON and protobuf encodings; messages are datatypes, and the free-text message of a Failed event is dropped.
- wazero, Agones and the leader lock. The claim theorems hold without any leader.
- Real clocks, TTLs and stream trimming: expiry is "the key disappears" for the leaderboard index and is not modelled for queue tickets, refresh tokens or assignments.
- Floating point: ratings, windows and waits are reals; pending-set scores and ZSET scores are exact.
- Ids are numbers whose order stands for the order of their text form; a party key is the sorted roster itself, since joining fixed-width ids is injective.
- MatchmakerLoop.Matchmaker.ProcessMode: one queue and no other caller, so the claim never loses; what allocator, signer and store answer is an input, and errors of Pending and Claim are left out because the in-memory queue has none.
- ValkeyQueue.Subscribe: takes the sequence of stream contents its polls see, in place of blocking reads and cancellation.
- Fairness.SelectableLater: one direction; over all pools the exact condition is the match size, stated by Widening.WaitingNeverHurtsIff.
- LeaderboardIndex.ExactUnderIff: one call at a time; LeaderboardOverlap covers overlapping calls. In both a submission's row is visible to every call at once and stays; a rollback after the mirror write is not modelled, and scores stay within the exact range of a double.
- LeaderboardIndex.RanksCoincide: one direction, since equal scores may happen to be ordered alike.
- Leaderboard.TopRanks: the listing is what the database returned, any order of ties allowed; the join with nicknames is dropped.
- MatchLoop.Match.Tick: what a session does with a frame, and frames sent while players come and go, are left out.
- Auth.DoKeepsInv: nicknames, token expiry and the deletion of expired tokens are left out.
- Social.EveryRunIsConsistent: transactions one at a time; listings are left out.
- Storage.EveryRunWithinQuota: commits and deletes one at a time; blobs, signed uploads and title files are left out.
- Rps.GameIsSound: actions come from the two seated players, as the room forwards them; other senders are outside the claim.
- Groups, chat, profiles, validation of names and messages: single-branch facts.
