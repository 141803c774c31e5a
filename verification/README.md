# mars-api match core, modelled in Dafny

This project models the part of the mars-api game backend that follows a live
Minecraft match and keeps its players' statistics. It covers four pieces of
the Kotlin source.

- **Match lifecycle** (`match_lifecycle.dfy`, module `MatchLifecycle`): a game
  server's current match is loaded, started and ended, and players join and
  leave its parties. The handlers update the match in place and append to its
  event log. Their `RuntimeException`s become a returned `MatchError`.
- **Newer stat listener** (`durable_stats.dfy`, module `DurableStatListener`):
  - Statistics are kept on durable player records (`getPlayer` / `setPlayer`).
  - Handlers give up silently on a missing record.
  - Match end is one pass over the participants. It settles each player's big
    stats, outcome (tie, win or loss), participation thresholds and playtime.
  - The pass stops at a participant without a player record and fails on a
    missing end or start time.
- **Older stat listener** (`participant_stats.dfy`, module
  `ParticipantStatListener`):
  - Statistics are kept on the match's participants: deaths, kills, weapon
    kills, duels, first blood and objectives.
  - Unknown contributors are dereferenced with `!!`, which throws. Core leak and
    control point capture therefore fail before any change. Destroyable destroy
    fails part way, with the earlier contributors already credited.
- **Player context** (`player_context.dfy`, module `PlayerContexts`): the
  participant lookup, the `isTrackingStats` flag, and the per-gamemode update
  `modifyGamemodeStats`. That update touches only ARCADE when the match does
  not track stats, and every level gamemode otherwise.

Two files are shared:
- `stat_records.dfy` (module `StatRecords`) holds the objective counters both
  listeners raise. `Delta` is the table of how much each action adds to each
  counter.
- `wrappers.dfy` (module `Wrappers`) holds `Option` and a total map lookup.

Objects whose fields the source assigns are classes:
- `LiveServer` and `LiveMatch`;
- the state each listener mutates (`PlayerStatListener`, `MatchStats`);
- the player `Profile`.

Records kept in maps are datatype values. An in-place mutation followed by a
write-back (`setPlayer`, `saveParticipants`, `participants[id] = …`) becomes a
map update.

The following become parameters:
- the clock (`now`);
- the random match id (`newId`);
- the iteration order of the participant hash map at match end (`order`);
- whether the match already has first blood, in the newer `OnKill`
  (`firstBloodTaken`);
- the `modify` lambda of `modifyGamemodeStats` (`update`).

The model follows the code in these places, where a caller might expect
otherwise:
- A handler that meets an unknown player does not skip just that
  contribution and go on with the others in the event:
  - In the newer listener, `?: return` inside `forEach` returns from the whole
    handler, so that contributor and every later one get nothing. See
    Findings.
  - The newer listener's match-end pass likewise stops at the first
    participant without a player record.
  - The older listener throws on an unknown contributor.
- First blood is not simply credited on any kill with an attacker:
  - the older listener also ignores self-kills;
  - the newer listener only reads the match's first-blood record. It raises
    `firstBloods` / `firstBloodsSuffered` while that record is unset and both
    player records exist.
- The end handler only stamps `endedAt`. It does not clear the server's
  current match.

## Model

| member | source | states |
|---|---|---|
| StatRecords.Add | src/main/kotlin/socket/listeners/stats/PlayerStatListener.kt:78 | `o.c += n`: counter `c` rises by `n` and every other counter keeps its value |
| StatRecords.Credit | src/main/kotlin/socket/listeners/stats/PlayerStatListener.kt:104-168 | crediting an action moves every one of the 13 counters by exactly its `Delta` entry. Flag place/drop also add the held time; a destroy also adds the block count |
| StatRecords.CountersDetermine | src/main/kotlin/socket/listeners/stats/PlayerStatListener.kt:73-168 | two objective records that agree on every counter are equal |
| StatRecords.NoContributionNoDelta | src/main/kotlin/socket/listeners/stats/PlayerStatListener.kt:73-102 | a player named by no contribution gains nothing on any counter |
| StatRecords.SingleContribution | src/main/kotlin/socket/listeners/stats/PlayerStatListener.kt:73-102 | a player named by exactly one contribution gains exactly that contribution's delta |
| StatRecords.Contributions | src/main/kotlin/socket/listeners/stats/PlayerStatListener.kt:75-78 | one contribution per listed id, in list order, all with the same action |
| StatRecords.Destroys | src/main/kotlin/socket/listeners/stats/PlayerStatListener.kt:95-99 | one destroy per listed contribution, in order, carrying that player's own block count |
| MatchLifecycle.LiveParties | src/main/kotlin/socket/listeners/MatchListener.kt:42-50 | the live parties are the load data's parties, same length, same order, each field copied |
| MatchLifecycle.FindParty | src/main/kotlin/socket/listeners/MatchListener.kt:80-81 | a party is found exactly when the match has one with that name; the one found has the name and belongs to the match |
| MatchLifecycle.RosterMap | src/main/kotlin/socket/listeners/MatchListener.kt:60-62 | the roster's participants are stored under their own ids, and its keys are exactly the roster's ids |
| MatchLifecycle.RosterMapLastWins | src/main/kotlin/socket/listeners/MatchListener.kt:60-62 | a roster entry whose id no later entry repeats is the participant stored under that id |
| MatchLifecycle.Joined | src/main/kotlin/socket/listeners/MatchListener.kt:82-88 | the joining player is in the party afterwards. A known player keeps its record with only the party changed; a new one is created with its name and id. Everyone else is unchanged |
| MatchLifecycle.Left | src/main/kotlin/socket/listeners/MatchListener.kt:96-99 | the leaving player's party is cleared and nothing else changes; no participant is added or removed |
| MatchLifecycle.ApplyMove | src/main/kotlin/socket/listeners/MatchListener.kt:77-102 | a join succeeds exactly when its party exists; a leave exactly when the player is a participant |
| MatchLifecycle.UnmovedPlayerKept | src/main/kotlin/socket/listeners/MatchListener.kt:77-102 | a history of joins and leaves that succeeds leaves every player it never moves exactly as it was |
| MatchLifecycle.FinalPartyIsLastMove | src/main/kotlin/socket/listeners/MatchListener.kt:77-102 | after any successful history, a player's party is the party of its last join, or none if a leave came last |
| MatchLifecycle.LiveMatch.constructor | src/main/kotlin/socket/listeners/MatchListener.kt:30-40 | a new match is neither started nor ended, has no parties or participants, and its log holds only the load event |
| MatchLifecycle.LiveMatch.PutRoster | src/main/kotlin/socket/listeners/MatchListener.kt:60-62 | the participants become the old ones overridden by the roster, each player under its id |
| MatchLifecycle.LiveServer.OnLoad | src/main/kotlin/socket/listeners/MatchListener.kt:28-54 | a fresh match becomes current under the new id, stamped with the load time, with no start, end or participants, the load event alone in its log, and the load data's parties |
| MatchLifecycle.LiveServer.OnStart | src/main/kotlin/socket/listeners/MatchListener.kt:56-65 | it fails without a match, or on a match already started, and then changes nothing. Otherwise it stamps the start, stores the roster and logs one start event |
| MatchLifecycle.LiveServer.OnEnd | src/main/kotlin/socket/listeners/MatchListener.kt:69-75 | it fails only without a match. A match not started, or already ended, is left unchanged; a started match gets its end stamp and nothing else |
| MatchLifecycle.LiveServer.OnPartyJoin | src/main/kotlin/socket/listeners/MatchListener.kt:77-91 | with a current match it succeeds exactly when some party has the name, and fails with no match. On failure nothing changes. On success the participants become `Joined` and one join event is logged |
| MatchLifecycle.LiveServer.OnPartyLeave | src/main/kotlin/socket/listeners/MatchListener.kt:93-102 | with a current match it succeeds exactly when the player is a participant, and fails with no match. On failure nothing changes. On success the participants become `Left` and one leave event is logged |
| MatchLifecycle.LiveServer.Handle | src/main/kotlin/socket/listeners/MatchListener.kt:17-26 | each event kind has its handler's outcome. A load always succeeds and installs a fresh loaded match of this server under the new id, leaving the previous match untouched. A start, join or leave succeeds exactly when its handler's condition holds, with that handler's effects, and changes nothing when it fails. An end fails only without a match, and stamps `endedAt` only on a started match. Other kinds change nothing, and only a load replaces the current match |
| ParticipantStatListener.WeaponKill | src/main/kotlin/socket/listeners/player/PlayerStatListener.kt:52-55 | the weapon's kill count rises by one from its old value, or from 0 when absent; other weapons are unchanged |
| ParticipantStatListener.DuelAfter | src/main/kotlin/socket/listeners/player/PlayerStatListener.kt:58-63 | the duel against the opponent gains one kill or one death from its old value, or from `Duel()`; other duels are unchanged |
| ParticipantStatListener.RecordFirstBlood | src/main/kotlin/socket/listeners/player/PlayerStatListener.kt:70-73 | first blood is set after a counted kill. It keeps an existing record, and an unset one takes this attacker and victim |
| ParticipantStatListener.FirstBloodIsSetOnce | src/main/kotlin/socket/listeners/player/PlayerStatListener.kt:69-73 | once set, first blood is unchanged by any series of later kills |
| ParticipantStatListener.FirstBloodIsFirstCountedKill | src/main/kotlin/socket/listeners/player/PlayerStatListener.kt:43-73 | from an unset record, first blood ends as the first kill with an attacker who is not the victim |
| ParticipantStatListener.CreditParticipant | src/main/kotlin/socket/listeners/player/PlayerStatListener.kt:104-152 | crediting a participant changes only its objective counters, to `Credit` of the old ones |
| ParticipantStatListener.CreditAll | src/main/kotlin/socket/listeners/player/PlayerStatListener.kt:78-102 | crediting a series of contributions keeps exactly the same participants |
| ParticipantStatListener.CreditAllAdds | src/main/kotlin/socket/listeners/player/PlayerStatListener.kt:78-102 | each participant's counters rise by the sum of its own contributions' deltas, repeated listings included; nothing else of it changes |
| ParticipantStatListener.CreditAllSkips | src/main/kotlin/socket/listeners/player/PlayerStatListener.kt:78-102 | a participant without contributions is left exactly as it was |
| ParticipantStatListener.KnownPrefix | src/main/kotlin/socket/listeners/player/PlayerStatListener.kt:95-96 | the contributors before index `k` are all participants, and the one at `k`, if any, is not |
| ParticipantStatListener.AllKnownIsWholePrefix | src/main/kotlin/socket/listeners/player/PlayerStatListener.kt:80 | every contributor is a participant exactly when the known prefix is the whole list |
| ParticipantStatListener.MatchStats.OnDeath | src/main/kotlin/socket/listeners/player/PlayerStatListener.kt:29-40 | the victim's deaths rise by one, and its void deaths by one exactly on a void death; every other participant is unchanged |
| ParticipantStatListener.MatchStats.OnKill | src/main/kotlin/socket/listeners/player/PlayerStatListener.kt:42-76 | with no attacker, or on a self-kill, nothing changes. Otherwise the attacker gains a kill, a weapon kill ("NONE" when unnamed), a duel kill and a void kill on a void death; the victim gains a duel death; first blood is set if unset; everyone else is unchanged |
| ParticipantStatListener.MatchStats.CreditNext | src/main/kotlin/socket/listeners/player/PlayerStatListener.kt:95-99 | one contribution is credited exactly when its contributor is a participant, extending the credited prefix by one |
| ParticipantStatListener.MatchStats.CreditUntilUnknown | src/main/kotlin/socket/listeners/player/PlayerStatListener.kt:94-101 | the known prefix is credited. An error is reported exactly when the prefix is short, and it names the first unknown contributor |
| ParticipantStatListener.MatchStats.CheckContributors | src/main/kotlin/socket/listeners/player/PlayerStatListener.kt:80 | it succeeds exactly when every contributor is a participant; otherwise it names the first one that is not |
| ParticipantStatListener.MatchStats.CreditAllOrNothing | src/main/kotlin/socket/listeners/player/PlayerStatListener.kt:80-82 | it fails exactly when some contributor is unknown, and then nothing changes; otherwise every contribution is credited |
| ParticipantStatListener.MatchStats.OnCoreLeak | src/main/kotlin/socket/listeners/player/PlayerStatListener.kt:78-83 | it fails exactly when a listed id is not a participant, and then nothing changes. Otherwise each listed player gains a core leak per listing |
| ParticipantStatListener.MatchStats.OnControlPointCapture | src/main/kotlin/socket/listeners/player/PlayerStatListener.kt:85-90 | it fails exactly when a listed id is not a participant, and then nothing changes. Otherwise each listed player gains a capture per listing |
| ParticipantStatListener.MatchStats.OnDestroyableDestroy | src/main/kotlin/socket/listeners/player/PlayerStatListener.kt:92-102 | the contributors before the first unknown one are credited with a destroy and their block count, and no later one is; an error is reported exactly when an unknown one exists |
| ParticipantStatListener.MatchStats.OnPlayerObjective | src/main/kotlin/socket/listeners/player/PlayerStatListener.kt:104-152 | the event's participant is credited with its flag or wool action; nothing else changes |
| ParticipantStatListener.MatchStats.OnMatchEnd | src/main/kotlin/socket/listeners/player/PlayerStatListener.kt:154-157 | match end changes no statistic |
| DurableStatListener.WeaponKill | src/main/kotlin/socket/listeners/stats/PlayerStatListener.kt:55-57 | the weapon's kill count rises by one from its old value, or from 0 when absent; other weapons are unchanged |
| DurableStatListener.MergedAddsReported | src/main/kotlin/socket/listeners/stats/PlayerStatListener.kt:189-200 | merging block entries adds to every block exactly the total its entries report, a missing block counting as 0 |
| DurableStatListener.MergeCounts | src/main/kotlin/socket/listeners/stats/PlayerStatListener.kt:189-200 | the entry-by-entry loop computes the merged tally, or leaves the tally alone when nothing was reported |
| DurableStatListener.CreditPlayer | src/main/kotlin/socket/listeners/stats/PlayerStatListener.kt:104-168 | crediting a player changes only its objective counters, to `Credit` of the old ones |
| DurableStatListener.CreditAll | src/main/kotlin/socket/listeners/stats/PlayerStatListener.kt:73-102 | crediting a series of contributions keeps exactly the same player records |
| DurableStatListener.CreditAllAdds | src/main/kotlin/socket/listeners/stats/PlayerStatListener.kt:73-102 | each player's counters rise by the sum of its own contributions' deltas; nothing else of the record changes |
| DurableStatListener.KnownPrefix | src/main/kotlin/socket/listeners/stats/PlayerStatListener.kt:75-77 | the contributors before index `k` all have a participant and a player record, and the one at `k`, if any, lacks one |
| DurableStatListener.CreditSkippingUnknown | src/main/kotlin/socket/listeners/stats/PlayerStatListener.kt:73-102 | the contributor loop as intended keeps exactly the same player records |
| DurableStatListener.SkippingUnknownCreditsEveryKnown | src/main/kotlin/socket/listeners/stats/PlayerStatListener.kt:73-102 | when unknown contributors are skipped, every known player receives the deltas of all of its own contributions |
| DurableStatListener.UnknownContributorBlocksLaterOnes | src/main/kotlin/socket/listeners/stats/PlayerStatListener.kt:75-77 | as written, an unknown contributor listed first leaves the known one after it uncredited |
| DurableStatListener.ResultOf | src/main/kotlin/socket/listeners/stats/PlayerStatListener.kt:212-214 | a tie means a party in a tied match; a win, a winning party in a match that is not tied; a loss, a party that did not win in a match that is not tied; without a party there is no result |
| DurableStatListener.ThresholdsMatchMinimumPlaytime | src/main/kotlin/socket/listeners/stats/PlayerStatListener.kt:216-223 | the integer threshold tests are exactly the comparisons with `min(0.10 * length, 60000.0)` |
| DurableStatListener.SettleStep | src/main/kotlin/socket/listeners/stats/PlayerStatListener.kt:175-229 | a turn stops exactly when the participant has no player record, and then nothing changes; no other player or participant changes |
| DurableStatListener.EndPass | src/main/kotlin/socket/listeners/stats/PlayerStatListener.kt:175-231 | the match-end pass keeps exactly the same player records and participants |
| DurableStatListener.MissingPlayerStopsPass | src/main/kotlin/socket/listeners/stats/PlayerStatListener.kt:177 | a participant without a player record stops the pass: the earlier turns stay settled, and nothing after it is touched or can fail |
| DurableStatListener.CompletedPassSettlesEach | src/main/kotlin/socket/listeners/stats/PlayerStatListener.kt:175-230 | a completed pass means every participant had a record and a start time was present. Each record is settled exactly once, from its old state and its participant with the open stint closed |
| DurableStatListener.UntouchedByPass | src/main/kotlin/socket/listeners/stats/PlayerStatListener.kt:175-231 | a player the pass never reaches keeps its record and its participant entry |
| DurableStatListener.CompletedPassCounters | src/main/kotlin/socket/listeners/stats/PlayerStatListener.kt:212-228 | at most one of ties, wins and losses rises, by one, and none without a party. The end, full-match and played counters and the playtime follow the participant's party, away time and settled playtime |
| DurableStatListener.MissingOrCrashEndsPass | src/main/kotlin/socket/listeners/stats/PlayerStatListener.kt:175-231 | once a turn stops or fails, the rest of the order changes nothing |
| DurableStatListener.AddBigStats | src/main/kotlin/socket/listeners/stats/PlayerStatListener.kt:187-210 | the big stats are added: block tallies merged entry by entry, and messages, bow shots and damage summed |
| DurableStatListener.AddOutcome | src/main/kotlin/socket/listeners/stats/PlayerStatListener.kt:212-214 | exactly the outcome counter `ResultOf` picks rises by one |
| DurableStatListener.AddAttendance | src/main/kotlin/socket/listeners/stats/PlayerStatListener.kt:216-228 | `matches` rises when the playtime exceeds the minimum; present-at-start when the join came within it; full-match on under 20 s away while in a party; present-at-end while in a party. The playtime is added |
| DurableStatListener.PlayerStatListener.OnDeath | src/main/kotlin/socket/listeners/stats/PlayerStatListener.kt:32-43 | without a record nothing changes. Otherwise the victim's deaths rise by one, and its void deaths by one exactly on a void death |
| DurableStatListener.PlayerStatListener.OnKill | src/main/kotlin/socket/listeners/stats/PlayerStatListener.kt:45-71 | without an attacker, a record, or on a self-kill, nothing changes. Otherwise the attacker gains a kill, a weapon kill and a void kill on a void death; while first blood is unset, the attacker gains a first blood and the victim a first blood suffered |
| DurableStatListener.PlayerStatListener.CreditNext | src/main/kotlin/socket/listeners/stats/PlayerStatListener.kt:75-79 | one contribution is credited exactly when its contributor has a participant and a record, extending the credited prefix |
| DurableStatListener.PlayerStatListener.CreditContributors | src/main/kotlin/socket/listeners/stats/PlayerStatListener.kt:73-102 | exactly the known prefix of the contributions is credited |
| DurableStatListener.PlayerStatListener.OnCoreLeak | src/main/kotlin/socket/listeners/stats/PlayerStatListener.kt:73-81 | the listed players before the first unknown one gain a core leak per listing |
| DurableStatListener.PlayerStatListener.OnControlPointCapture | src/main/kotlin/socket/listeners/stats/PlayerStatListener.kt:83-91 | the listed players before the first unknown one gain a capture per listing |
| DurableStatListener.PlayerStatListener.OnDestroyableDestroy | src/main/kotlin/socket/listeners/stats/PlayerStatListener.kt:93-102 | the contributors before the first unknown one gain a destroy and their block count |
| DurableStatListener.PlayerStatListener.OnPlayerObjective | src/main/kotlin/socket/listeners/stats/PlayerStatListener.kt:104-168 | without a record nothing changes; otherwise the player is credited with the flag or wool action |
| DurableStatListener.PlayerStatListener.Settle | src/main/kotlin/socket/listeners/stats/PlayerStatListener.kt:175-230 | one participant's turn ends in the state and status `SettleStep` gives |
| DurableStatListener.PlayerStatListener.SettleNext | src/main/kotlin/socket/listeners/stats/PlayerStatListener.kt:175-231 | the next turn extends the pass over the order's prefix by one participant |
| DurableStatListener.PlayerStatListener.OnMatchEnd | src/main/kotlin/socket/listeners/stats/PlayerStatListener.kt:170-232 | the new state is the pass over the participants in map order, and an error is returned exactly when the pass failed on a missing time |
| PlayerContexts.Modified | src/main/kotlin/socket/player/PlayerContext.kt:30-38 | the gamemodes with statistics afterwards are the old ones plus every listed gamemode |
| PlayerContexts.UnlistedUnchanged | src/main/kotlin/socket/player/PlayerContext.kt:33-35 | a gamemode not listed keeps its entry, or stays absent |
| PlayerContexts.ListedOnceModified | src/main/kotlin/socket/player/PlayerContext.kt:33-35 | a gamemode listed once becomes `modify` of its old entry, or of fresh statistics |
| PlayerContexts.ModifiedOncePerListing | src/main/kotlin/socket/player/PlayerContext.kt:33-35 | a gamemode's entry ends up as `modify` applied once per listing to its old entry, or to fresh statistics. It has an entry exactly when it had one or is listed |
| PlayerContexts.ListedTwiceModifiedTwice | src/main/kotlin/socket/player/PlayerContext.kt:33-35 | a gamemode listed exactly twice, anywhere in the list, has `modify` applied twice to its old entry or to fresh statistics |
| PlayerContexts.PlayerContext.GetParticipant | src/main/kotlin/socket/player/PlayerContext.kt:16-19 | a participant is returned exactly when the match has one under the profile's id; it is that participant with the same match |
| PlayerContexts.PlayerContext.SelectedGamemodes | src/main/kotlin/socket/player/PlayerContext.kt:31-32 | an update touches the level's gamemodes when the match tracks stats, and only ARCADE otherwise |
| PlayerContexts.PlayerContext.ModifyGamemodeStats | src/main/kotlin/socket/player/PlayerContext.kt:30-38 | the profile's gamemode statistics become `Modified` over the selected gamemodes, and the same context is returned |
| PlayerContexts.UntrackedTouchesOnlyArcade | src/main/kotlin/socket/player/PlayerContext.kt:31-35 | without stat tracking, only ARCADE changes, to `modify` of its old entry |
| PlayerContexts.TrackedModifiesEachLevelGamemode | src/main/kotlin/socket/player/PlayerContext.kt:31-35 | with stat tracking over distinct level gamemodes, each becomes `modify` of its old entry and every other gamemode is unchanged |

## Left out

- JSON decoding of events, `save()`, `saveParticipants`, `setPlayer`
  persistence and `PlayerCache.set`: these are I/O. A record written back is a
  map update here.
- Event dispatch by priority (EARLY before LATE) and the reflective handler
  map: these are outside the named handlers. Each handler is modelled on its
  own.
- `PlayerContext.sendMessage`, `addXP` and `update`: these call the game
  server and the XP leaderboard, which are not part of this model.
- `isTrackingStats` is a plain read of the match's flag. It is modelled as
  `PlayerContext.IsTrackingStats`, which has no contract of its own.
- Kotlin `Int` / `Long` overflow is not modelled; counters are unbounded
  integers.
- The damage counters are `Double` in the source and `int` here, so floating
  point rounding is not modelled.
- `minimumPlaytime` is a `Double`. It is compared exactly over the reals and
  restated over integers (`ThresholdsMatchMinimumPlaytime`).
- `ModifyGamemodeStats`: the suspending `modify` lambda is taken as a pure
  function. Its side effects are not modelled.
- `DurableStatListener.PlayerStatListener.OnMatchEnd`: the participant map's
  iteration order is a parameter. `getPlayer` is a lookup in the player map,
  and its result is a copy that reaches the map only at `PlayerCache.set`. A
  failure after a turn's in-memory changes to that copy therefore loses them,
  while the participant's playtime accrual stays in the match.
- `DurableStatListener.PlayerStatListener.OnKill`: the match's first-blood
  record is an input (`firstBloodTaken`). This handler never sets it.
- `DurableStatListener.CreditAll`, `DurableStatListener.SettleStep` and
  `ParticipantStatListener.CreditAll` are total:
  - the credit functions skip a contributor without a record;
  - a turn for an id with no participant continues unchanged.
  The handlers never reach those cases.
- `server.currentMatch` reads the live match store. It is modelled as a
  `currentMatch` reference that `Valid()` keeps in step with
  `currentMatchId`; the store itself is not modelled.
- `LiveMatchPlayer` objects are values. Aliasing between a participant object
  and other holders of it is not modelled.
- The start roster is a `Set` in the source and a sequence in its iteration
  order here. When two entries share an id, the later one wins.
- `MatchLifecycle.FindParty` states that the party found has the name, not
  that it is the first such party.

## Findings

| source | as written | input that shows it | evidently intended | confidence | as-written member | corrected member |
|---|---|---|---|---|---|---|
| src/main/kotlin/socket/listeners/stats/PlayerStatListener.kt:76-77 | `?: return` inside `forEach` returns from the whole handler, so the first contributor without a participant or player record ends crediting for every later contributor (also at lines 86-87 and 96-97) | contributions `[unknown, known]`: the known player gets no core leak | skip only the unknown contributor (`return@forEach`), so every known player is credited | medium; not executed | DurableStatListener.UnknownContributorBlocksLaterOnes (models DurableStatListener.PlayerStatListener.CreditContributors as written) | DurableStatListener.CreditSkippingUnknown, proved by DurableStatListener.SkippingUnknownCreditsEveryKnown |
