# Mines subgraph aggregator in Dafny

This project models the event handlers of a subgraph that indexes a
provably-fair "Mines" betting game. The subgraph keeps one `MineGame` record
per player address and one `PlatformStats` record under the fixed id `"1"`.
Four handlers change these records: game creation, cell commitment, cell
resolution and cash-out. A separate file holds a second, add-only set of
counter helpers over the same stats entity.

The model follows the code as written:

- the record key is the player address alone, so a player's successive games
  share one record and a new game overwrites the previous one;
- no handler checks that an event is legal for the game's current state;
- an unrecognised cell count gives `tableDimension` 0;
- cash-out sets `pendingCell` to 0, not -1;
- the "new user" test reads the record as stored before the handler saves;
- resolution appends the event's own `cellIndex` to `revealedCells` and never
  increments `steps`.

The handlers of commit, resolution and cash-out carry a TODO to key records
by player and game id (src/mines-game.ts:127, :138, :155), but every handler
keys by player only. `MinesGameProps.CashOutNeverDropsStakers` shows that with
a non-negative amount the stakers decrement at src/mines-game.ts:167-169 is
never taken. `MinesGameInvariants.RunStakersTrackUsers` follows from it: from
an empty store, `totalStakers` always equals `totalUsers`.

Layout:

- `common.dfy` (`Common`): the optional load result, `i32`, the wad scale
  10^18, graph-ts `BigInt.div` as truncating division, and `BigDecimal`
  scaling as exact `real` division.
- `mines_game.dfy` (`MinesGame`): the records and events. It has one pure
  function per handler and helper, describing what one event does to a
  `Store` value. The class `MinesStore` holds the store (a map from address to
  record, plus the optional stats record). Its handler methods change a loaded
  record field by field and save it, as the source does. Each method is proved
  to produce exactly the state that its pure function gives.
- `mines_game_props.dfy` (`MinesGameProps`): what one event changes.
- `mines_game_invariants.dfy` (`MinesGameInvariants`): counter invariants
  over any sequence of events.
- `game_stats.dfy` (`GameStats`): the helpers of `src/game-stats.ts` and how
  they compose.

## Model

| member | source | states |
|---|---|---|
| `Common.TruncDiv` | src/mines-game.ts:83 | The quotient truncates toward zero. For a non-negative dividend it is the largest q with q·10^18 ≤ stake; for a negative one it rounds up. |
| `Common.ScaleDown` | src/mines-game.ts:145 | A wad value becomes the exact decimal d with d·10^18 = wad. It is zero or positive exactly when the wad is. |
| `MinesGame.StakersAdded` | src/mines-game.ts:42-47 | `updateTotalStakers` saves the loaded or new record with `totalStakers` moved by the delta and `updatedAt` set to the timestamp. Every other field keeps its value. |
| `MinesGame.StakedAdded` | src/mines-game.ts:50-59 | `updateTotalStaked` adds the amount, or subtracts it when `isAdd` is false, and stamps `updatedAt`. Every other field keeps its value. |
| `MinesGame.GamesAdded` | src/mines-game.ts:62-67 | `updateTotalGames` moves only `totalGames` by the delta and stamps `updatedAt`. |
| `MinesGame.UsersAdded` | src/mines-game.ts:70-75 | `updateTotalUsers` moves only `totalUsers` by the delta and stamps `updatedAt`. |
| `MinesGame.TableDimension` | src/mines-game.ts:101-108 | The result is always in 0..3. It is 1, 2 or 3 exactly for 25, 49 or 64 cells, and 0 for 9 cells or any other count. |
| `MinesGame.MinesStore.LoadGame` | src/mines-game.ts:90 | `MineGame.load` finds a record exactly when one is stored under the key, and returns that record. |
| `MinesGame.MinesStore.GetOrCreateMineGame` | src/mines-game.ts:7-24 | A stored record is returned unchanged. Otherwise the new record has `cumMul` 0, `steps` 0, `active`, `vrfPending` and `isMine` false, `vrfRequestId` 0, no revealed cells, `pendingCell` -1, `cashedOut` false and `cashoutAmount` 0. |
| `MinesGame.MinesStore.SaveGame` | src/mines-game.ts:123 | Saving replaces the record under its key. The stats and every other record are unchanged. |
| `MinesGame.MinesStore.GetOrCreateTotalStakes` | src/mines-game.ts:27-39 | Stored stats are returned unchanged. Otherwise a new record has id "1" and every counter and `updatedAt` at 0. |
| `MinesGame.MinesStore.UpdateTotalStakers` | src/mines-game.ts:42-47 | The saved stats are `StakersAdded` of the old stats. No game record changes. |
| `MinesGame.MinesStore.UpdateTotalStaked` | src/mines-game.ts:50-59 | The saved stats are `StakedAdded` of the old stats. No game record changes. |
| `MinesGame.MinesStore.UpdateTotalGames` | src/mines-game.ts:62-67 | The saved stats are `GamesAdded` of the old stats. No game record changes. |
| `MinesGame.MinesStore.UpdateTotalUsers` | src/mines-game.ts:70-75 | The saved stats are `UsersAdded` of the old stats. No game record changes. |
| `MinesGame.MinesStore.HandleGameCreated` | src/mines-game.ts:77-124 | The field-by-field handler leaves the store exactly as `GameCreatedStep` describes. The stats record keeps id "1". |
| `MinesGame.MinesStore.HandleCommitCell` | src/mines-game.ts:126-135 | The handler leaves the store as `CommitCellStep` describes. Stats and other players' records are unchanged. The player's record is pending, with the event's request id and cell. |
| `MinesGame.MinesStore.HandleCellResolved` | src/mines-game.ts:137-152 | The handler leaves the store as `CellResolvedStep` describes. Stats are unchanged. The revealed cells are the old ones followed by the event's cell. `active` is the negation of `isMine`, and `pendingCell` is -1. |
| `MinesGame.MinesStore.HandleCashedOut` | src/mines-game.ts:154-185 | The handler leaves the store as `CashedOutStep` describes. The record has stake 0, `cashedOut` true and `active` false. Stats are unchanged when the earlier stake was not positive. |
| `MinesGameProps.StepTouchesOnlyPlayer` | src/mines-game.ts:78-79 | Every handler saves the record under the event's player and leaves every other record unchanged. |
| `MinesGameProps.GameIdIgnored` | src/mines-game.ts:126-129 | Commit, resolve and cash-out events that differ only in `gameId` give the same store. |
| `MinesGameProps.SecondGameOverwritesFirst` | src/mines-game.ts:77-82 | Two creations by one player leave one record, holding the second game's id. Both games are counted. |
| `MinesGameProps.CreateCountsStakeOnce` | src/mines-game.ts:83-99 | The stored stake is the raw stake truncated to whole tokens. `totalStaked` rises by exactly that stake and `totalGames` by exactly 1. `updatedAt` becomes the block timestamp and the stats id is kept or "1". |
| `MinesGameProps.CreateCountsNewUser` | src/mines-game.ts:89-96 | `totalUsers` and `totalStakers` each rise by 1 exactly when the store held no record for the player, or one with stake 0. Otherwise neither changes. |
| `MinesGameProps.CreateSetsBoard` | src/mines-game.ts:101-121 | Dimension is 0/1/2/3 for 9/25/49/64 cells and 0 otherwise. Remaining cells and mines come from the event. The game is active and not pending, with `pendingCell` -1, no revealed cells, `cumMul` 1, `steps` 0 and `cashedOut` false. `cashoutAmount` keeps its old value. |
| `MinesGameProps.CommitTouchesThreeFields` | src/mines-game.ts:131-134 | Commit sets `vrfPending`, `vrfRequestId` and `pendingCell`. Restoring those three fields gives back the old record. No counter changes. |
| `MinesGameProps.ResolveAppendsCell` | src/mines-game.ts:142-151 | Resolve sets `isMine`, sets `active` to not `isMine`, clears the pending state and sets `cumMul` to wad/10^18. The revealed cells gain exactly the event's cell at the end. `steps`, stake, board fields and the stats are unchanged. |
| `MinesGameProps.CashOutReleasesStake` | src/mines-game.ts:159-183 | A positive earlier stake lowers `totalStaked` by exactly that stake. Otherwise the stats are unchanged. `totalStakers` falls only when stake + amount = 0, and games and users never change. The record is reset, with `pendingCell` 0 and `cashoutAmount` = amount/10^18. |
| `MinesGameProps.CashOutNeverDropsStakers` | src/mines-game.ts:164-170 | With a non-negative amount, cash-out leaves `totalStakers` unchanged. |
| `MinesGameProps.SecondCashOutChangesNoCounter` | src/mines-game.ts:164-183 | A second cash-out by the same player leaves the stats record as the first one left it. |
| `MinesGameProps.ReturningPlayerCountedTwice` | src/mines-game.ts:90-96 | A new player who creates a game, cashes out and creates another raises `totalUsers` by 2. |
| `MinesGameProps.CommitThenCreateCountsNewUser` | src/mines-game.ts:90-96 | From an empty store, a commit followed by a creation for the same player leaves `totalUsers` and `totalStakers` at 1: the record the commit saved reads as stake 0. |
| `MinesGameProps.DoubleCreateLeaksStake` | src/mines-game.ts:83-87 | Two creations by one player with stakes of 2 and 3 tokens leave `totalStaked` at 5 while the stored stake is 3: the overwritten stake is never released. |
| `MinesGameProps.ScenarioCreateCommitResolve` | src/mines-game.ts:77-152 | Worked example: a 2-token game on 25 cells gets dimension 1 and adds 2 to `totalStaked`. Committing and resolving cell 4 as safe at 1.25×10^18 leaves `cumMul` 1.25, revealed cells [4] and the game still active. |
| `MinesGameInvariants.StepKeepsInv` | src/mines-game.ts:83-87 | After a well-formed event, stored stakes are still non-negative and `totalStaked` is still at least their sum. |
| `MinesGameInvariants.RunKeepsInv` | src/mines-game.ts:164-183 | That invariant holds after any sequence of well-formed events. |
| `MinesGameInvariants.RunStakedNonNegative` | src/mines-game.ts:165 | From an empty store, `totalStaked` and every stored stake stay non-negative. |
| `MinesGameInvariants.RunCountsGames` | src/mines-game.ts:99 | `totalGames` grows by exactly the number of creation events, so it never falls. |
| `MinesGameInvariants.RunUsersNeverFall` | src/mines-game.ts:95 | `totalUsers` never falls over any event sequence. |
| `MinesGameInvariants.RunStakersNeverFall` | src/mines-game.ts:167-169 | `totalStakers` never falls over any sequence of well-formed events. |
| `MinesGameInvariants.RunStakersTrackUsers` | src/mines-game.ts:94-95 | When `totalStakers` starts equal to `totalUsers`, they stay equal over any sequence of well-formed events. |
| `GameStats.ApplyChangesOneCounter` | src/game-stats.ts:19-40 | Each helper changes only its own counter, by its amount or delta, and sets `updatedAt` to the timestamp. The id and `totalStakers` are untouched. |
| `GameStats.StakedOnlyAdds` | src/game-stats.ts:19-24 | With an amount of at least 0, `updateTotalStaked` does not lower `totalStaked`. |
| `GameStats.ApplyAllAddsUp` | src/game-stats.ts:19-40 | After any non-empty run of helper calls, each counter has moved by the sum of its calls' deltas. `updatedAt` is the last call's timestamp, and the id and `totalStakers` are unchanged. |
| `GameStats.ApplyAllNeverFalls` | src/game-stats.ts:19-40 | With non-negative amounts and deltas, no counter falls over any run of calls. |
| `GameStats.GameStatsStore.GetOrCreateGameStats` | src/game-stats.ts:5-16 | A stored record is returned unchanged. Otherwise a new record has id "1", `totalStaked`, `totalGames`, `totalUsers` and `updatedAt` at 0, and `totalStakers` unset. |
| `GameStats.GameStatsStore.UpdateTotalStaked` | src/game-stats.ts:21-23 | The saved record is the old one with `totalStaked` raised by the amount and `updatedAt` stamped. |
| `GameStats.GameStatsStore.UpdateTotalGames` | src/game-stats.ts:28-31 | The saved record is the old one with `totalGames` moved by the delta and `updatedAt` stamped. |
| `GameStats.GameStatsStore.UpdateTotalUsers` | src/game-stats.ts:36-39 | The saved record is the old one with `totalUsers` moved by the delta and `updatedAt` stamped. |

## Left out

- Event decoding, the graph-ts `Bytes`, `Address` and `BigInt` types, and the
  host-side `load` and `save` are foreign calls. The player address is a byte
  sequence, and the store is a map held by a class.
- The `toI32` conversions of `totalCells`, `totalMines` and `cellIndex` are
  outside the model. Their results are given as `i32` values, and the abort on
  an out-of-range value is not modelled.
- `BigDecimal` division keeps 34 significant digits. The model divides
  exactly in `real`, so `cumMul` and `cashoutAmount` are exact quotients.
- `getOrCreateMineGame` leaves `player`, `gameId`, `stake`, `tableDimension`,
  `remainingCells` and `remainingMines` unset. The model gives them the key
  and 0. The unset `stake` is read in two places, where the real runtime would
  abort and the model reads 0 instead. The cash-out test at
  src/mines-game.ts:164 then changes no counter for an unknown player. The
  new-user test at src/mines-game.ts:91 then counts a new user and a new
  staker when an earlier commit or resolution created the record
  (`MinesGameProps.CommitThenCreateCountsNewUser`).
- `PlatformStats` records shared by the two files are modelled as two separate
  stores. The helpers in `src/game-stats.ts` are never called from
  `src/mines-game.ts`. If they created the record, `totalStakers` would be
  unset, and a later `updateTotalStakers` would abort.
- The routing of events to handlers belongs to the subgraph manifest, which is
  not part of this model. `MinesStore.Handle` and `Run` stand in for it.
- Composite (player, gameId) keys: the code carries only a TODO for them
  (src/mines-game.ts:127, :138, :155) and keys by player. The lemmas
  `SecondGameOverwritesFirst` and `GameIdIgnored` state what it does instead.
- `MinesGame.MinesStore.HandleGameCreated`: the method's contract is only its
  equality with `GameCreatedStep`, because listing the field values in the
  same contract exceeds the solver's budget. Those values are proved about
  `GameCreatedStep` in `CreateCountsStakeOnce`, `CreateCountsNewUser` and
  `CreateSetsBoard`.
