/** The second set of platform counter helpers (src/game-stats.ts).

    Each helper loads the `PlatformStats` record stored under id "1"
    (creating it when absent), adds to one counter, stamps `updatedAt` and
    saves the whole record. Unlike the helpers of src/mines-game.ts, these
    never subtract, and the record they create leaves `totalStakers` unset,
    written here as `None`. The two files never call each other, so this
    module keeps its own store. */
module GameStats {
  import opened Common

  const STATS_ID: string := "1"

  /** The `PlatformStats` entity as this file sees it. */
  datatype PlatformStats = PlatformStats(
    id: string,
    totalStaked: int,
    totalStakers: Option<int>,
    totalGames: int,
    totalUsers: int,
    updatedAt: int)

  /** One helper call with its arguments. */
  datatype Update =
    | AddStaked(amount: int, timestamp: int)
    | AddGames(delta: i32, timestamp: int)
    | AddUsers(delta: i32, timestamp: int)

  function NewGameStats(): PlatformStats {
    PlatformStats(STATS_ID, 0, None, 0, 0, 0)
  }

  function LoadGameStats(stats: Option<PlatformStats>): PlatformStats {
    if stats.Some? then stats.value else NewGameStats()
  }

  /** The record one helper call saves. */
  function Apply(stats: Option<PlatformStats>, u: Update): PlatformStats {
    var p := LoadGameStats(stats);
    match u
    case AddStaked(amount, ts) => p.(totalStaked := p.totalStaked + amount, updatedAt := ts)
    case AddGames(delta, ts) => p.(totalGames := p.totalGames + delta, updatedAt := ts)
    case AddUsers(delta, ts) => p.(totalUsers := p.totalUsers + delta, updatedAt := ts)
  }

  /** The stored record after helper calls made one after another. */
  function ApplyAll(stats: Option<PlatformStats>, updates: seq<Update>): Option<PlatformStats>
    decreases |updates|
  {
    if updates == [] then stats else ApplyAll(Some(Apply(stats, updates[0])), updates[1..])
  }

  /** The sums of the deltas the calls make to each counter. */
  function StakedDelta(updates: seq<Update>): int
    decreases |updates|
  {
    if updates == [] then 0
    else (if updates[0].AddStaked? then updates[0].amount else 0) + StakedDelta(updates[1..])
  }

  function GamesDelta(updates: seq<Update>): int
    decreases |updates|
  {
    if updates == [] then 0
    else (if updates[0].AddGames? then updates[0].delta else 0) + GamesDelta(updates[1..])
  }

  function UsersDelta(updates: seq<Update>): int
    decreases |updates|
  {
    if updates == [] then 0
    else (if updates[0].AddUsers? then updates[0].delta else 0) + UsersDelta(updates[1..])
  }

  /** Each helper changes its own counter and `updatedAt`, and nothing else. */
  lemma ApplyChangesOneCounter(stats: Option<PlatformStats>, u: Update)
    ensures var p := LoadGameStats(stats); var r := Apply(stats, u);
      r.id == p.id && r.totalStakers == p.totalStakers && r.updatedAt == u.timestamp &&
      r.totalStaked == p.totalStaked + (if u.AddStaked? then u.amount else 0) &&
      r.totalGames == p.totalGames + (if u.AddGames? then u.delta else 0) &&
      r.totalUsers == p.totalUsers + (if u.AddUsers? then u.delta else 0)
  {
  }

  /** `updateTotalStaked` only adds: with an amount of at least 0 the total
      does not fall. */
  lemma StakedOnlyAdds(stats: Option<PlatformStats>, amount: int, timestamp: int)
    requires amount >= 0
    ensures Apply(stats, AddStaked(amount, timestamp)).totalStaked >= LoadGameStats(stats).totalStaked
  {
  }

  /** Helper calls compose additively: after any non-empty run of calls each
      counter has moved by the sum of its deltas, `totalStakers` and the id
      are untouched, and `updatedAt` is the last call's timestamp. */
  lemma {:induction false} ApplyAllAddsUp(stats: Option<PlatformStats>, updates: seq<Update>)
    requires updates != []
    ensures var p := LoadGameStats(stats); var r := ApplyAll(stats, updates);
      r.Some? &&
      r.value.totalStaked == p.totalStaked + StakedDelta(updates) &&
      r.value.totalGames == p.totalGames + GamesDelta(updates) &&
      r.value.totalUsers == p.totalUsers + UsersDelta(updates) &&
      r.value.totalStakers == p.totalStakers && r.value.id == p.id &&
      r.value.updatedAt == updates[|updates| - 1].timestamp
    decreases |updates|
  {
    var first := Some(Apply(stats, updates[0]));
    if |updates| > 1 {
      ApplyAllAddsUp(first, updates[1..]);
      assert updates[1..][|updates[1..]| - 1] == updates[|updates| - 1];
    }
  }

  /** With only non-negative amounts and deltas, no counter ever falls. */
  lemma {:induction false} ApplyAllNeverFalls(stats: Option<PlatformStats>, updates: seq<Update>)
    requires forall i | 0 <= i < |updates| ::
      (updates[i].AddStaked? ==> updates[i].amount >= 0) && (!updates[i].AddStaked? ==> updates[i].delta >= 0)
    ensures var p := LoadGameStats(stats); var r := LoadGameStats(ApplyAll(stats, updates));
      r.totalStaked >= p.totalStaked && r.totalGames >= p.totalGames && r.totalUsers >= p.totalUsers
    decreases |updates|
  {
    if updates != [] {
      ApplyAllNeverFalls(Some(Apply(stats, updates[0])), updates[1..]);
    }
  }

  /** The stats record as src/game-stats.ts reads and writes it. */
  class GameStatsStore {
    var stats: Option<PlatformStats>

    constructor ()
      ensures stats == None
    {
      stats := None;
    }

    /** `getOrCreateGameStats`: the stored record as it is, or a new one
        under id "1" with every counter but `totalStakers` at 0; nothing is
        saved. */
    method GetOrCreateGameStats() returns (p: PlatformStats)
      ensures stats.Some? ==> p == stats.value
      ensures stats.None? ==>
        (p.id == STATS_ID && p.totalStaked == 0 && p.totalGames == 0 && p.totalUsers == 0
         && p.updatedAt == 0 && p.totalStakers.None?)
    {
      if stats.Some? {
        p := stats.value;
      } else {
        p := PlatformStats(STATS_ID, 0, None, 0, 0, 0);
      }
    }

    method UpdateTotalStaked(amount: int, timestamp: int)
      modifies this
      ensures stats == Some(Apply(old(stats), AddStaked(amount, timestamp)))
      ensures stats.value.totalStaked == old(LoadGameStats(stats)).totalStaked + amount
    {
      var platformStats := GetOrCreateGameStats();
      platformStats := platformStats.(totalStaked := platformStats.totalStaked + amount);
      platformStats := platformStats.(updatedAt := timestamp);
      stats := Some(platformStats);
    }

    method UpdateTotalGames(delta: i32, timestamp: int)
      modifies this
      ensures stats == Some(Apply(old(stats), AddGames(delta, timestamp)))
      ensures stats.value.totalGames == old(LoadGameStats(stats)).totalGames + delta
    {
      var platformStats := GetOrCreateGameStats();
      platformStats := platformStats.(totalGames := platformStats.totalGames + delta);
      platformStats := platformStats.(updatedAt := timestamp);
      stats := Some(platformStats);
    }

    method UpdateTotalUsers(delta: i32, timestamp: int)
      modifies this
      ensures stats == Some(Apply(old(stats), AddUsers(delta, timestamp)))
      ensures stats.value.totalUsers == old(LoadGameStats(stats)).totalUsers + delta
    {
      var platformStats := GetOrCreateGameStats();
      platformStats := platformStats.(totalUsers := platformStats.totalUsers + delta);
      platformStats := platformStats.(updatedAt := timestamp);
      stats := Some(platformStats);
    }
  }
}
