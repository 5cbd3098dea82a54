/** The Mines event handlers (src/mines-game.ts).

    The subgraph keeps one `MineGame` record per player address and one
    `PlatformStats` record under the fixed id "1". Each handler loads the
    player's record (creating it with defaults when absent), overwrites some of
    its fields, adjusts the platform counters through small read-modify-write
    helpers, and saves the record.

    The entity store is the class `MinesStore`: a map from player address to
    record plus the optional stats singleton. Loading gives a copy of the
    stored record, and nothing is stored until it is saved, so records are
    datatype values that the handlers change field by field in a local
    variable before writing them back. Next to every handler stands a pure
    function on `Store` values that says what one event does; the handler
    method is proved equal to it, and the lemmas in `MinesGameProps` and
    `MinesGameInvariants` are proved about those functions. */
module MinesGame {
  import opened Common

  /** The player address of an event (graph-ts `Bytes`), used as the key. */
  type Address = seq<bv8>

  /** The id under which the one `PlatformStats` record is stored. */
  const STATS_ID: string := "1"

  /** The `MineGame` entity. `stake` is in whole tokens (the raw wad stake
      divided by 10^18); `cumMul` and `cashoutAmount` are exact decimals. */
  datatype MineGame = MineGame(
    player: Address,
    gameId: int,
    stake: int,
    tableDimension: int,
    remainingCells: i32,
    remainingMines: i32,
    cumMul: real,
    steps: int,
    active: bool,
    vrfPending: bool,
    vrfRequestId: int,
    isMine: bool,
    revealedCells: seq<i32>,
    pendingCell: i32,
    cashedOut: bool,
    cashoutAmount: real)

  /** The `PlatformStats` entity. */
  datatype PlatformStats = PlatformStats(
    id: string,
    totalStaked: int,
    totalStakers: int,
    totalGames: int,
    totalUsers: int,
    updatedAt: int)

  /** The contents of the entity store. */
  datatype Store = Store(games: map<Address, MineGame>, stats: Option<PlatformStats>)

  /** The contract events, with the parameters the handlers read and the
      block timestamp. Every event carries its `gameId`; only the creation
      handler reads it. */
  datatype Event =
    | GameCreated(player: Address, gameId: int, stake: int, totalCells: i32, totalMines: i32, timestamp: int)
    | CommitCell(player: Address, gameId: int, requestId: int, cellIndex: i32, timestamp: int)
    | CellResolved(player: Address, gameId: int, isMine: bool, cumMulWad: int, cellIndex: i32, timestamp: int)
    | CashedOut(player: Address, gameId: int, amount: int, timestamp: int)

  // ---------------------------------------------------------------------
  // Get-or-create

  /** The record `getOrCreateMineGame` makes for an unknown key. The source
      leaves player, gameId, stake, tableDimension, remainingCells and
      remainingMines unset; here they are the key and 0. */
  function NewMineGame(id: Address): MineGame {
    MineGame(
      player := id, gameId := 0, stake := 0, tableDimension := 0,
      remainingCells := 0, remainingMines := 0,
      cumMul := 0.0, steps := 0, active := false, vrfPending := false,
      vrfRequestId := 0, isMine := false, revealedCells := [], pendingCell := -1,
      cashedOut := false, cashoutAmount := 0.0)
  }

  /** The record a handler works on: the stored one, or a new one. */
  function LoadMineGame(games: map<Address, MineGame>, id: Address): MineGame {
    if id in games then games[id] else NewMineGame(id)
  }

  /** The record `getOrCreateTotalStakes` makes when none is stored. */
  function NewPlatformStats(): PlatformStats {
    PlatformStats(STATS_ID, 0, 0, 0, 0, 0)
  }

  function LoadStats(stats: Option<PlatformStats>): PlatformStats {
    if stats.Some? then stats.value else NewPlatformStats()
  }

  // ---------------------------------------------------------------------
  // Counter helpers: each loads (or creates) the stats record, changes one
  // counter, stamps `updatedAt` and saves the whole record.

  function StakersAdded(stats: Option<PlatformStats>, delta: i32, timestamp: int): (r: PlatformStats)
    ensures var p := LoadStats(stats);
      r == p.(totalStakers := r.totalStakers, updatedAt := r.updatedAt) &&
      r.totalStakers == p.totalStakers + delta && r.updatedAt == timestamp
  {
    var p := LoadStats(stats);
    p.(totalStakers := p.totalStakers + delta, updatedAt := timestamp)
  }

  function StakedAdded(stats: Option<PlatformStats>, amount: int, timestamp: int, isAdd: bool): (r: PlatformStats)
    ensures var p := LoadStats(stats);
      r == p.(totalStaked := r.totalStaked, updatedAt := r.updatedAt) &&
      r.totalStaked == (if isAdd then p.totalStaked + amount else p.totalStaked - amount) &&
      r.updatedAt == timestamp
  {
    var p := LoadStats(stats);
    if isAdd then p.(totalStaked := p.totalStaked + amount, updatedAt := timestamp)
    else p.(totalStaked := p.totalStaked - amount, updatedAt := timestamp)
  }

  function GamesAdded(stats: Option<PlatformStats>, delta: i32, timestamp: int): (r: PlatformStats)
    ensures var p := LoadStats(stats);
      r == p.(totalGames := r.totalGames, updatedAt := r.updatedAt) &&
      r.totalGames == p.totalGames + delta && r.updatedAt == timestamp
  {
    var p := LoadStats(stats);
    p.(totalGames := p.totalGames + delta, updatedAt := timestamp)
  }

  function UsersAdded(stats: Option<PlatformStats>, delta: i32, timestamp: int): (r: PlatformStats)
    ensures var p := LoadStats(stats);
      r == p.(totalUsers := r.totalUsers, updatedAt := r.updatedAt) &&
      r.totalUsers == p.totalUsers + delta && r.updatedAt == timestamp
  {
    var p := LoadStats(stats);
    p.(totalUsers := p.totalUsers + delta, updatedAt := timestamp)
  }

  // ---------------------------------------------------------------------
  // What one event does to the store

  /** The board size index stored for a cell count: 0, 1, 2, 3 for 9, 25,
      49, 64 cells, and the initial 0 for any other count. */
  function TableDimension(cells: int): (d: int)
    ensures 0 <= d <= 3
    ensures d == 1 <==> cells == 25
    ensures d == 2 <==> cells == 49
    ensures d == 3 <==> cells == 64
  {
    if cells == 25 then 1 else if cells == 49 then 2 else if cells == 64 then 3 else 0
  }

  /** The "new user" test of the creation handler, made on the record as
      stored before the event: no record, or one whose stake is 0. */
  predicate IsNewUser(games: map<Address, MineGame>, id: Address) {
    id !in games || games[id].stake == 0
  }

  function CreatedGame(g: MineGame, e: Event): MineGame
    requires e.GameCreated?
  {
    g.(player := e.player, gameId := e.gameId, stake := TruncDiv(e.stake, WAD),
       tableDimension := TableDimension(e.totalCells),
       remainingCells := e.totalCells, remainingMines := e.totalMines,
       cumMul := 1.0, steps := 0, active := true, vrfPending := false,
       vrfRequestId := 0, isMine := false, revealedCells := [], pendingCell := -1,
       cashedOut := false)
  }

  function CreatedStats(s: Store, e: Event): PlatformStats
    requires e.GameCreated?
  {
    var ts := e.timestamp;
    var afterStaked := StakedAdded(s.stats, TruncDiv(e.stake, WAD), ts, true);
    var afterUsers :=
      if IsNewUser(s.games, e.player) then UsersAdded(Some(StakersAdded(Some(afterStaked), 1, ts)), 1, ts)
      else afterStaked;
    GamesAdded(Some(afterUsers), 1, ts)
  }

  function GameCreatedStep(s: Store, e: Event): Store
    requires e.GameCreated?
  {
    Store(s.games[e.player := CreatedGame(LoadMineGame(s.games, e.player), e)], Some(CreatedStats(s, e)))
  }

  function CommitCellStep(s: Store, e: Event): Store
    requires e.CommitCell?
  {
    var g := LoadMineGame(s.games, e.player);
    Store(s.games[e.player := g.(vrfPending := true, vrfRequestId := e.requestId, pendingCell := e.cellIndex)], s.stats)
  }

  function ResolvedGame(g: MineGame, e: Event): MineGame
    requires e.CellResolved?
  {
    g.(isMine := e.isMine, active := !e.isMine, vrfPending := false,
       cumMul := ScaleDown(e.cumMulWad), vrfRequestId := 0,
       revealedCells := g.revealedCells + [e.cellIndex], pendingCell := -1)
  }

  function CellResolvedStep(s: Store, e: Event): Store
    requires e.CellResolved?
  {
    Store(s.games[e.player := ResolvedGame(LoadMineGame(s.games, e.player), e)], s.stats)
  }

  /** The counter updates of a cash-out, decided on the stake held before it. */
  function CashedOutStats(stats: Option<PlatformStats>, stake: int, amount: int, timestamp: int): Option<PlatformStats> {
    if stake > 0 then
      var afterStaked := StakedAdded(stats, stake, timestamp, false);
      if stake + amount == 0 then Some(StakersAdded(Some(afterStaked), -1, timestamp)) else Some(afterStaked)
    else stats
  }

  function CashedOutGame(g: MineGame, e: Event): MineGame
    requires e.CashedOut?
  {
    g.(cashoutAmount := ScaleDown(e.amount), active := false, cashedOut := true,
       vrfPending := false, vrfRequestId := 0, isMine := false, revealedCells := [],
       pendingCell := 0, steps := 0, cumMul := 0.0, remainingCells := 0,
       remainingMines := 0, stake := 0)
  }

  function CashedOutStep(s: Store, e: Event): Store
    requires e.CashedOut?
  {
    var g := LoadMineGame(s.games, e.player);
    Store(s.games[e.player := CashedOutGame(g, e)], CashedOutStats(s.stats, g.stake, e.amount, e.timestamp))
  }

  /** The handler the subgraph routes an event to. */
  function Step(s: Store, e: Event): Store {
    match e
    case GameCreated(_, _, _, _, _, _) => GameCreatedStep(s, e)
    case CommitCell(_, _, _, _, _) => CommitCellStep(s, e)
    case CellResolved(_, _, _, _, _, _) => CellResolvedStep(s, e)
    case CashedOut(_, _, _, _) => CashedOutStep(s, e)
  }

  /** Events handled one after another, in delivery order. */
  function Run(s: Store, events: seq<Event>): Store
    decreases |events|
  {
    if events == [] then s else Run(Step(s, events[0]), events[1..])
  }

  /** The platform counters of a store; a store without the stats record
      reads as the record `getOrCreateTotalStakes` would create. */
  function Staked(s: Store): int { LoadStats(s.stats).totalStaked }
  function Stakers(s: Store): int { LoadStats(s.stats).totalStakers }
  function Games(s: Store): int { LoadStats(s.stats).totalGames }
  function Users(s: Store): int { LoadStats(s.stats).totalUsers }

  // ---------------------------------------------------------------------
  // The entity store and the handlers as the source writes them

  class MinesStore {
    var games: map<Address, MineGame>
    var stats: Option<PlatformStats>

    /** The stats singleton is only ever stored under its fixed id. */
    ghost predicate Valid()
      reads this
    {
      stats.Some? ==> stats.value.id == STATS_ID
    }

    function State(): Store
      reads this
    {
      Store(games, stats)
    }

    constructor ()
      ensures Valid() && games == map[] && stats == None
    {
      games := map[];
      stats := None;
    }

    /** `MineGame.load`. */
    method LoadGame(id: Address) returns (g: Option<MineGame>)
      ensures g.Some? <==> id in games
      ensures g.Some? ==> g.value == games[id]
    {
      if id in games {
        g := Some(games[id]);
      } else {
        g := None;
      }
    }

    /** `getOrCreateMineGame`: the stored record unchanged, or a new one with
        the documented defaults; nothing is saved. */
    method GetOrCreateMineGame(id: Address) returns (g: MineGame)
      ensures id in games ==> g == games[id]
      ensures id !in games ==>
        (g.player == id && g.stake == 0 && g.cumMul == 0.0 && g.steps == 0
         && !g.active && !g.vrfPending && g.vrfRequestId == 0 && !g.isMine && g.revealedCells == []
         && g.pendingCell == -1 && !g.cashedOut && g.cashoutAmount == 0.0)
      ensures g == LoadMineGame(games, id)
    {
      var entity := LoadGame(id);
      if entity.None? {
        // `NewMineGame` carries the defaults set at src/mines-game.ts:12-21.
        entity := Some(NewMineGame(id));
      }
      g := entity.value;
    }

    /** `entity.save()` for a game record. */
    method SaveGame(id: Address, g: MineGame)
      modifies this
      ensures games == old(games)[id := g] && stats == old(stats)
    {
      games := games[id := g];
    }

    /** `getOrCreateTotalStakes`: the stored stats, or all counters at 0 under
        id "1"; nothing is saved. */
    method GetOrCreateTotalStakes() returns (p: PlatformStats)
      requires Valid()
      ensures stats.Some? ==> p == stats.value
      ensures stats.None? ==>
        (p.id == STATS_ID && p.totalStaked == 0 && p.totalStakers == 0
         && p.totalGames == 0 && p.totalUsers == 0 && p.updatedAt == 0)
      ensures p.id == STATS_ID
    {
      if stats.Some? {
        p := stats.value;
      } else {
        p := PlatformStats(STATS_ID, 0, 0, 0, 0, 0);
      }
    }

    method UpdateTotalStakers(delta: i32, timestamp: int)
      requires Valid()
      modifies this
      ensures Valid() && games == old(games)
      ensures stats == Some(StakersAdded(old(stats), delta, timestamp))
    {
      var totalStakes := GetOrCreateTotalStakes();
      totalStakes := totalStakes.(totalStakers := totalStakes.totalStakers + delta);
      totalStakes := totalStakes.(updatedAt := timestamp);
      stats := Some(totalStakes);
    }

    method UpdateTotalStaked(amount: int, timestamp: int, isAdd: bool)
      requires Valid()
      modifies this
      ensures Valid() && games == old(games)
      ensures stats == Some(StakedAdded(old(stats), amount, timestamp, isAdd))
    {
      var totalStakes := GetOrCreateTotalStakes();
      if isAdd {
        totalStakes := totalStakes.(totalStaked := totalStakes.totalStaked + amount);
      } else {
        totalStakes := totalStakes.(totalStaked := totalStakes.totalStaked - amount);
      }
      totalStakes := totalStakes.(updatedAt := timestamp);
      stats := Some(totalStakes);
    }

    method UpdateTotalGames(delta: i32, timestamp: int)
      requires Valid()
      modifies this
      ensures Valid() && games == old(games)
      ensures stats == Some(GamesAdded(old(stats), delta, timestamp))
    {
      var totalStakes := GetOrCreateTotalStakes();
      totalStakes := totalStakes.(totalGames := totalStakes.totalGames + delta);
      totalStakes := totalStakes.(updatedAt := timestamp);
      stats := Some(totalStakes);
    }

    method UpdateTotalUsers(delta: i32, timestamp: int)
      requires Valid()
      modifies this
      ensures Valid() && games == old(games)
      ensures stats == Some(UsersAdded(old(stats), delta, timestamp))
    {
      var totalStakes := GetOrCreateTotalStakes();
      totalStakes := totalStakes.(totalUsers := totalStakes.totalUsers + delta);
      totalStakes := totalStakes.(updatedAt := timestamp);
      stats := Some(totalStakes);
    }

    method HandleGameCreated(e: Event)
      requires Valid() && e.GameCreated?
      modifies this
      ensures Valid() && State() == GameCreatedStep(old(State()), e)
    {
      ghost var before := State();
      var id := e.player;
      var entity := GetOrCreateMineGame(id);

      entity := entity.(player := e.player);
      entity := entity.(gameId := e.gameId);
      var stakeAmount := TruncDiv(e.stake, WAD);
      entity := entity.(stake := stakeAmount);

      UpdateTotalStaked(stakeAmount, e.timestamp, true);
      ghost var afterStaked := StakedAdded(before.stats, stakeAmount, e.timestamp, true);

      // The test reads the store, where this handler has saved nothing yet.
      var previousGame := LoadGame(id);
      var isNewUser := previousGame.None? || previousGame.value.stake == 0;

      assert isNewUser == IsNewUser(before.games, id);

      if isNewUser {
        UpdateTotalStakers(1, e.timestamp);
        UpdateTotalUsers(1, e.timestamp);
        assert stats == Some(UsersAdded(Some(StakersAdded(Some(afterStaked), 1, e.timestamp)), 1, e.timestamp));
      }

      UpdateTotalGames(1, e.timestamp);
      assert stats == Some(CreatedStats(before, e));

      var cells := e.totalCells;
      var tableDimensions := 0;
      if cells == 9 { tableDimensions := 0; }
      if cells == 25 { tableDimensions := 1; }
      if cells == 49 { tableDimensions := 2; }
      if cells == 64 { tableDimensions := 3; }
      entity := entity.(tableDimension := tableDimensions);
      entity := entity.(remainingCells := cells);
      entity := entity.(remainingMines := e.totalMines);

      // The remaining fields the schema requires.
      entity := entity.(cumMul := 1.0, steps := 0, active := true, vrfPending := false,
                        vrfRequestId := 0, isMine := false, revealedCells := [],
                        pendingCell := -1, cashedOut := false);
      assert entity == CreatedGame(LoadMineGame(before.games, id), e);

      SaveGame(id, entity);
    }

    method HandleCommitCell(e: Event)
      requires Valid() && e.CommitCell?
      modifies this
      ensures Valid() && State() == CommitCellStep(old(State()), e)
      ensures stats == old(stats) && games.Keys == old(games).Keys + {e.player}
      ensures forall p | p in old(games) && p != e.player :: games[p] == old(games)[p]
      ensures games[e.player].vrfPending && games[e.player].vrfRequestId == e.requestId
        && games[e.player].pendingCell == e.cellIndex
    {
      var id := e.player;
      var entity := GetOrCreateMineGame(id);

      entity := entity.(vrfPending := true);
      entity := entity.(vrfRequestId := e.requestId);
      entity := entity.(pendingCell := e.cellIndex);
      SaveGame(id, entity);
    }

    method HandleCellResolved(e: Event)
      requires Valid() && e.CellResolved?
      modifies this
      ensures Valid() && State() == CellResolvedStep(old(State()), e)
      ensures stats == old(stats) && games.Keys == old(games).Keys + {e.player}
      ensures forall p | p in old(games) && p != e.player :: games[p] == old(games)[p]
      ensures games[e.player].revealedCells == LoadMineGame(old(games), e.player).revealedCells + [e.cellIndex]
      ensures games[e.player].active == !e.isMine && games[e.player].pendingCell == -1
    {
      var id := e.player;
      var entity := GetOrCreateMineGame(id);

      entity := entity.(isMine := e.isMine);
      entity := entity.(active := !e.isMine);
      entity := entity.(vrfPending := false);
      entity := entity.(cumMul := ScaleDown(e.cumMulWad));
      entity := entity.(vrfRequestId := 0);
      var revealed := entity.revealedCells;
      revealed := revealed + [e.cellIndex];
      entity := entity.(revealedCells := revealed);
      entity := entity.(pendingCell := -1);
      SaveGame(id, entity);
    }

    method HandleCashedOut(e: Event)
      requires Valid() && e.CashedOut?
      modifies this
      ensures Valid() && State() == CashedOutStep(old(State()), e)
      ensures games.Keys == old(games).Keys + {e.player}
      ensures forall p | p in old(games) && p != e.player :: games[p] == old(games)[p]
      ensures games[e.player].stake == 0 && games[e.player].cashedOut && !games[e.player].active
      ensures LoadMineGame(old(games), e.player).stake <= 0 ==> stats == old(stats)
    {
      var id := e.player;
      var entity := GetOrCreateMineGame(id);

      var cashoutAmount := e.amount;
      entity := entity.(cashoutAmount := ScaleDown(cashoutAmount));
      entity := entity.(active := false);

      if entity.stake > 0 {
        UpdateTotalStaked(entity.stake, e.timestamp, false);
        if entity.stake + cashoutAmount == 0 {
          UpdateTotalStakers(-1, e.timestamp);
        }
      }

      entity := entity.(cashedOut := true);
      entity := entity.(vrfPending := false);
      entity := entity.(vrfRequestId := 0);
      entity := entity.(isMine := false);
      entity := entity.(revealedCells := []);
      entity := entity.(pendingCell := 0);
      entity := entity.(steps := 0);
      entity := entity.(cumMul := 0.0);
      entity := entity.(remainingCells := 0);
      entity := entity.(remainingMines := 0);
      entity := entity.(stake := 0);
      SaveGame(id, entity);
    }

    /** Routes an event to its handler, as the subgraph manifest does. */
    method Handle(e: Event)
      requires Valid()
      modifies this
      ensures Valid() && State() == Step(old(State()), e)
    {
      match e
      case GameCreated(_, _, _, _, _, _) => HandleGameCreated(e);
      case CommitCell(_, _, _, _, _) => HandleCommitCell(e);
      case CellResolved(_, _, _, _, _, _) => HandleCellResolved(e);
      case CashedOut(_, _, _, _) => HandleCashedOut(e);
    }
  }
}
