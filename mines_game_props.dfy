/** What one event does to the Mines store, as the handlers in
    src/mines-game.ts are written: which record and which counters change,
    and by how much. None of these lemmas assumes that the event is legal for
    the game's current state, because no handler checks that. */
module MinesGameProps {
  import opened Common
  import opened MinesGame

  /** Every handler saves exactly the record keyed by the event's player and
      no other record: games of one player share one record. */
  lemma StepTouchesOnlyPlayer(s: Store, e: Event)
    ensures Step(s, e).games.Keys == s.games.Keys + {e.player}
    ensures forall q | q in s.games && q != e.player :: Step(s, e).games[q] == s.games[q]
  {
  }

  /** The `gameId` of a commit, resolve or cash-out event is never read: the
      record is selected by the player alone. */
  lemma GameIdIgnored(s: Store, p: Address, id1: int, id2: int, requestId: int, cellIndex: i32,
                      isMine: bool, cumMulWad: int, amount: int, timestamp: int)
    ensures Step(s, CommitCell(p, id1, requestId, cellIndex, timestamp))
         == Step(s, CommitCell(p, id2, requestId, cellIndex, timestamp))
    ensures Step(s, CellResolved(p, id1, isMine, cumMulWad, cellIndex, timestamp))
         == Step(s, CellResolved(p, id2, isMine, cumMulWad, cellIndex, timestamp))
    ensures Step(s, CashedOut(p, id1, amount, timestamp)) == Step(s, CashedOut(p, id2, amount, timestamp))
  {
  }

  /** A second game of the same player overwrites the first one's record. */
  lemma {:induction false} SecondGameOverwritesFirst(s: Store, e1: Event, e2: Event)
    requires e1.GameCreated? && e2.GameCreated? && e1.player == e2.player
    ensures Run(s, [e1, e2]).games.Keys == s.games.Keys + {e1.player}
    ensures Run(s, [e1, e2]).games[e1.player].gameId == e2.gameId
    ensures Games(Run(s, [e1, e2])) == Games(s) + 2
  {
    var r1 := Step(s, e1);
    assert Run(s, [e1, e2]) == Run(r1, [e2]);
    assert Run(r1, [e2]) == Run(Step(r1, e2), []);
  }

  /** Creation: the stake is stored in whole tokens, truncated, and counted
      once; one game is counted; every counter helper stamps the block time. */
  lemma CreateCountsStakeOnce(s: Store, e: Event)
    requires e.GameCreated?
    ensures var r := GameCreatedStep(s, e); var stake := r.games[e.player].stake;
      (0 <= e.stake ==> 0 <= stake && stake * WAD <= e.stake < stake * WAD + WAD) &&
      Staked(r) == Staked(s) + stake &&
      Games(r) == Games(s) + 1 &&
      r.stats.Some? && r.stats.value.updatedAt == e.timestamp &&
      (s.stats.Some? ==> r.stats.value.id == s.stats.value.id) &&
      (s.stats.None? ==> r.stats.value.id == STATS_ID)
  {
  }

  /** Creation counts a new user and a new staker exactly when the store
      held no record for the player, or one whose stake was 0; the record is
      read before the handler saves its own. */
  lemma CreateCountsNewUser(s: Store, e: Event)
    requires e.GameCreated?
    ensures var r := GameCreatedStep(s, e);
      (Users(r) == Users(s) + 1 <==> (e.player !in s.games || s.games[e.player].stake == 0)) &&
      (Stakers(r) == Stakers(s) + 1 <==> (e.player !in s.games || s.games[e.player].stake == 0)) &&
      (e.player in s.games && s.games[e.player].stake != 0 ==> Users(r) == Users(s) && Stakers(r) == Stakers(s))
  {
  }

  /** Creation sets the board and the play state, and keeps the previous
      record's cash-out amount. An unknown cell count gives dimension 0. */
  lemma CreateSetsBoard(s: Store, e: Event)
    requires e.GameCreated?
    ensures var g := GameCreatedStep(s, e).games[e.player];
      g.player == e.player && g.gameId == e.gameId &&
      (e.totalCells == 9 ==> g.tableDimension == 0) &&
      (e.totalCells == 25 ==> g.tableDimension == 1) &&
      (e.totalCells == 49 ==> g.tableDimension == 2) &&
      (e.totalCells == 64 ==> g.tableDimension == 3) &&
      (e.totalCells !in {9, 25, 49, 64} ==> g.tableDimension == 0) &&
      g.remainingCells == e.totalCells && g.remainingMines == e.totalMines &&
      g.active && !g.vrfPending && g.pendingCell == -1 && g.revealedCells == [] &&
      g.cumMul == 1.0 && g.steps == 0 && !g.cashedOut && !g.isMine && g.vrfRequestId == 0 &&
      g.cashoutAmount == LoadMineGame(s.games, e.player).cashoutAmount
  {
  }

  /** Commit changes only `vrfPending`, `vrfRequestId` and `pendingCell` of
      the player's record, and no counter. */
  lemma CommitTouchesThreeFields(s: Store, e: Event)
    requires e.CommitCell?
    ensures var g := LoadMineGame(s.games, e.player); var g' := CommitCellStep(s, e).games[e.player];
      g'.vrfPending && g'.vrfRequestId == e.requestId && g'.pendingCell == e.cellIndex &&
      g'.(vrfPending := g.vrfPending, vrfRequestId := g.vrfRequestId, pendingCell := g.pendingCell) == g &&
      CommitCellStep(s, e).stats == s.stats
  {
  }

  /** Resolution records the outcome and appends the event's cell to the
      revealed cells; `steps` and every counter stay as they were. */
  lemma ResolveAppendsCell(s: Store, e: Event)
    requires e.CellResolved?
    ensures var g := LoadMineGame(s.games, e.player); var g' := CellResolvedStep(s, e).games[e.player];
      g'.isMine == e.isMine && g'.active == !e.isMine &&
      !g'.vrfPending && g'.vrfRequestId == 0 && g'.pendingCell == -1 &&
      g'.cumMul * WAD as real == e.cumMulWad as real &&
      g'.revealedCells == g.revealedCells + [e.cellIndex] &&
      |g'.revealedCells| == |g.revealedCells| + 1 &&
      g'.steps == g.steps && g'.stake == g.stake && g'.cashedOut == g.cashedOut &&
      g'.tableDimension == g.tableDimension && g'.remainingCells == g.remainingCells &&
      g'.remainingMines == g.remainingMines && g'.cashoutAmount == g.cashoutAmount &&
      CellResolvedStep(s, e).stats == s.stats
  {
  }

  /** Cash-out releases the stake held before it and resets the record;
      a record without a positive stake changes no counter. */
  lemma CashOutReleasesStake(s: Store, e: Event)
    requires e.CashedOut?
    ensures var stake := LoadMineGame(s.games, e.player).stake; var r := CashedOutStep(s, e);
      (stake > 0 ==> Staked(r) == Staked(s) - stake && r.stats.Some? && r.stats.value.updatedAt == e.timestamp) &&
      (stake <= 0 ==> r.stats == s.stats) &&
      Stakers(r) == (if stake > 0 && stake + e.amount == 0 then Stakers(s) - 1 else Stakers(s)) &&
      Games(r) == Games(s) && Users(r) == Users(s)
    ensures var g := CashedOutStep(s, e).games[e.player];
      g.stake == 0 && !g.active && g.cashedOut && !g.vrfPending && g.vrfRequestId == 0 &&
      !g.isMine && g.revealedCells == [] && g.pendingCell == 0 && g.steps == 0 &&
      g.cumMul == 0.0 && g.remainingCells == 0 && g.remainingMines == 0 &&
      g.cashoutAmount * WAD as real == e.amount as real
  {
  }

  /** With a non-negative cash-out amount the stakers decrement is never
      taken: a whole-token stake above 0 plus a raw amount of at least 0
      cannot be 0. */
  lemma CashOutNeverDropsStakers(s: Store, e: Event)
    requires e.CashedOut? && e.amount >= 0
    ensures Stakers(CashedOutStep(s, e)) == Stakers(s)
  {
  }

  /** A cash-out after a cash-out of the same player changes no counter. */
  lemma {:induction false} SecondCashOutChangesNoCounter(s: Store, e1: Event, e2: Event)
    requires e1.CashedOut? && e2.CashedOut? && e1.player == e2.player
    ensures CashedOutStep(CashedOutStep(s, e1), e2).stats == CashedOutStep(s, e1).stats
  {
    var r1 := CashedOutStep(s, e1);
    assert LoadMineGame(r1.games, e2.player).stake == 0;
  }

  /** A player who cashes out and plays again is counted as a new user and a
      new staker a second time: `totalUsers` counts stakes made from a zero
      stake, not distinct players. */
  lemma {:induction false} ReturningPlayerCountedTwice(s: Store, create1: Event, cashOut: Event, create2: Event)
    requires create1.GameCreated? && cashOut.CashedOut? && create2.GameCreated?
    requires create1.player == cashOut.player == create2.player
    requires create1.player !in s.games
    ensures Users(Run(s, [create1, cashOut, create2])) == Users(s) + 2
    ensures Stakers(Run(s, [create1, cashOut, create2])) >= Stakers(s) + 1
  {
    var r1 := Step(s, create1);
    var r2 := Step(r1, cashOut);
    var r3 := Step(r2, create2);
    assert Run(s, [create1, cashOut, create2]) == Run(r1, [cashOut, create2]);
    assert Run(r1, [cashOut, create2]) == Run(r2, [create2]);
    assert Run(r2, [create2]) == Run(r3, []);
    assert Users(r1) == Users(s) + 1;
    assert Users(r2) == Users(r1);
    assert r2.games[create2.player].stake == 0;
    assert Users(r3) == Users(r2) + 1;
  }

  /** A commit for an unknown player saves a record whose stake reads as 0,
      so a later creation for that player counts a new user and a new
      staker. */
  lemma {:induction false} CommitThenCreateCountsNewUser(commit: Event, create: Event)
    requires commit.CommitCell? && create.GameCreated? && commit.player == create.player
    ensures Users(Run(Store(map[], None), [commit, create])) == 1
    ensures Stakers(Run(Store(map[], None), [commit, create])) == 1
  {
    var s0 := Store(map[], None);
    var r1 := Step(s0, commit);
    assert Run(s0, [commit, create]) == Run(r1, [create]);
    assert Run(r1, [create]) == Run(Step(r1, create), []);
    assert r1.games[create.player].stake == 0;
  }

  /** A second creation over a record that still holds a stake adds the new
      stake to `totalStaked` without releasing the old one: stakes of 2 and
      3 tokens leave `totalStaked` at 5 and the stored stake at 3. */
  lemma {:induction false} DoubleCreateLeaksStake(p: Address, cells: i32, mines: i32, ts: int)
    ensures var create1 := GameCreated(p, 1, 2 * WAD, cells, mines, ts);
      var create2 := GameCreated(p, 2, 3 * WAD, cells, mines, ts);
      var r := Run(Store(map[], None), [create1, create2]);
      Staked(r) == 5 && r.games.Keys == {p} && r.games[p].stake == 3
  {
    var s0 := Store(map[], None);
    var create1 := GameCreated(p, 1, 2 * WAD, cells, mines, ts);
    var create2 := GameCreated(p, 2, 3 * WAD, cells, mines, ts);
    var r1 := Step(s0, create1);
    assert TruncDiv(2 * WAD, WAD) == 2 by {
      assert 2 * WAD == 2 * WAD + 0;
    }
    assert TruncDiv(3 * WAD, WAD) == 3 by {
      assert 3 * WAD == 3 * WAD + 0;
    }
    assert Run(s0, [create1, create2]) == Run(r1, [create2]);
    assert Run(r1, [create2]) == Run(Step(r1, create2), []);
  }

  /** Create with a 2-token stake on a 25-cell board, commit cell 4, resolve
      it safe with multiplier 1.25. */
  lemma {:induction false} ScenarioCreateCommitResolve(s: Store, p: Address)
    ensures var create := GameCreated(p, 1, 2 * WAD, 25, 3, 100);
      var commit := CommitCell(p, 1, 7, 4, 101);
      var resolve := CellResolved(p, 1, false, 125 * WAD / 100, 4, 102);
      var r1 := Step(s, create);
      var r3 := Run(s, [create, commit, resolve]);
      r1.games[p].tableDimension == 1 && r1.games[p].remainingCells == 25 && r1.games[p].remainingMines == 3 &&
      Games(r1) == Games(s) + 1 && Staked(r1) == Staked(s) + 2 &&
      p in r3.games && !r3.games[p].vrfPending && r3.games[p].cumMul == 1.25 && r3.games[p].revealedCells == [4] &&
      r3.games[p].active && r3.games[p].stake == 2
  {
    var create := GameCreated(p, 1, 2 * WAD, 25, 3, 100);
    var commit := CommitCell(p, 1, 7, 4, 101);
    var resolve := CellResolved(p, 1, false, 125 * WAD / 100, 4, 102);
    var r1 := Step(s, create);
    var r2 := Step(r1, commit);
    assert TruncDiv(2 * WAD, WAD) == 2 by {
      assert 2 * WAD == 2 * WAD + 0;
    }
    assert Run(s, [create, commit, resolve]) == Run(r1, [commit, resolve]);
    assert Run(r1, [commit, resolve]) == Run(r2, [resolve]);
    assert Run(r2, [resolve]) == Run(Step(r2, resolve), []);
  }
}
