/** What holds of the platform counters after any sequence of events handled
    by src/mines-game.ts: `totalGames` counts the creation events,
    `totalUsers` and `totalStakers` never fall, and `totalStaked` stays at
    least the sum of the stakes stored in the game records. The last two
    assume that raw stakes and cash-out amounts are never negative, which is
    what `WellFormed` states. */
module MinesGameInvariants {
  import opened Common
  import opened MinesGame

  /** The assumption that the raw stake and cash-out amount of an event are
      not negative. */
  predicate WellFormed(e: Event) {
    (e.GameCreated? ==> e.stake >= 0) && (e.CashedOut? ==> e.amount >= 0)
  }

  /** How many creation events a sequence holds. */
  function CountCreated(events: seq<Event>): nat
    decreases |events|
  {
    if events == [] then 0
    else (if events[0].GameCreated? then 1 else 0) + CountCreated(events[1..])
  }

  /** Some key of a non-empty store. */
  ghost function AnyKey(games: map<Address, MineGame>): (k: Address)
    requires games != map[]
    ensures k in games
  {
    var k :| k in games; k
  }

  /** The sum of the stakes stored in the game records. */
  ghost function SumStakes(games: map<Address, MineGame>): int
    decreases |games|
  {
    if games == map[] then 0
    else
      var k := AnyKey(games);
      games[k].stake + SumStakes(games - {k})
  }

  /** Taking out any one record takes its stake out of the sum. */
  lemma {:induction false} SumStakesRemove(games: map<Address, MineGame>, k: Address)
    requires k in games
    ensures SumStakes(games) == games[k].stake + SumStakes(games - {k})
    decreases |games|
  {
    var j := AnyKey(games);
    assert (games - {j}).Keys == games.Keys - {j};
    assert SumStakes(games) == games[j].stake + SumStakes(games - {j});
    if j != k {
      assert (games - {k}).Keys == games.Keys - {k};
      SumStakesRemove(games - {j}, k);
      SumStakesRemove(games - {k}, j);
      assert games - {j} - {k} == games - {k} - {j};
    }
  }

  /** Saving a record under `k` replaces that key's stake in the sum. */
  lemma SumStakesUpdate(games: map<Address, MineGame>, k: Address, g: MineGame)
    ensures SumStakes(games[k := g])
         == SumStakes(games) - (if k in games then games[k].stake else 0) + g.stake
  {
    SumStakesRemove(games[k := g], k);
    if k in games {
      SumStakesRemove(games, k);
      assert games[k := g] - {k} == games - {k};
    } else {
      assert games[k := g] - {k} == games;
    }
  }

  /** With no negative stake stored, the sum is not negative. */
  lemma {:induction false} SumStakesNonNegative(games: map<Address, MineGame>)
    requires forall p | p in games :: games[p].stake >= 0
    ensures SumStakes(games) >= 0
    decreases |games|
  {
    if games != map[] {
      var k := AnyKey(games);
      assert (games - {k}).Keys == games.Keys - {k};
      SumStakesNonNegative(games - {k});
    }
  }

  /** The accounting invariant of the store. */
  ghost predicate Inv(s: Store) {
    (forall p | p in s.games :: s.games[p].stake >= 0) &&
    Staked(s) >= SumStakes(s.games)
  }

  lemma EmptyStoreInv()
    ensures Inv(Store(map[], None))
  {
  }

  /** Under the invariant the staked total is never negative. */
  lemma InvStakedNonNegative(s: Store)
    requires Inv(s)
    ensures Staked(s) >= SumStakes(s.games) >= 0
  {
    SumStakesNonNegative(s.games);
  }

  /** One well-formed event keeps the invariant. A new game over a record
      that still held a stake drops that stake from the sum but not from
      `totalStaked`, which is why the relation is at least, not equal. */
  lemma StepKeepsInv(s: Store, e: Event)
    requires Inv(s) && WellFormed(e)
    ensures Inv(Step(s, e))
  {
    var g := LoadMineGame(s.games, e.player);
    var r := Step(s, e);
    assert g.stake >= 0;
    assert e.player in s.games ==> s.games[e.player].stake == g.stake;
    match e
    case GameCreated(_, _, _, _, _, _) =>
      SumStakesUpdate(s.games, e.player, r.games[e.player]);
    case CommitCell(_, _, _, _, _) =>
      SumStakesUpdate(s.games, e.player, r.games[e.player]);
    case CellResolved(_, _, _, _, _, _) =>
      SumStakesUpdate(s.games, e.player, r.games[e.player]);
    case CashedOut(_, _, _, _) =>
      SumStakesUpdate(s.games, e.player, r.games[e.player]);
  }

  /** Any sequence of well-formed events keeps the invariant. */
  lemma {:induction false} RunKeepsInv(s: Store, events: seq<Event>)
    requires Inv(s)
    requires forall i | 0 <= i < |events| :: WellFormed(events[i])
    ensures Inv(Run(s, events))
    decreases |events|
  {
    if events != [] {
      StepKeepsInv(s, events[0]);
      RunKeepsInv(Step(s, events[0]), events[1..]);
    }
  }

  /** From an empty store, `totalStaked` and the stored stakes are never
      negative. */
  lemma RunStakedNonNegative(events: seq<Event>)
    requires forall i | 0 <= i < |events| :: WellFormed(events[i])
    ensures Staked(Run(Store(map[], None), events)) >= 0
    ensures forall p | p in Run(Store(map[], None), events).games :: Run(Store(map[], None), events).games[p].stake >= 0
  {
    EmptyStoreInv();
    RunKeepsInv(Store(map[], None), events);
    InvStakedNonNegative(Run(Store(map[], None), events));
  }

  /** `totalGames` rises by exactly one per creation event. */
  lemma {:induction false} RunCountsGames(s: Store, events: seq<Event>)
    ensures Games(Run(s, events)) == Games(s) + CountCreated(events)
    decreases |events|
  {
    if events != [] {
      RunCountsGames(Step(s, events[0]), events[1..]);
    }
  }

  /** `totalUsers` never falls, whatever the events. */
  lemma {:induction false} RunUsersNeverFall(s: Store, events: seq<Event>)
    ensures Users(Run(s, events)) >= Users(s)
    decreases |events|
  {
    if events != [] {
      RunUsersNeverFall(Step(s, events[0]), events[1..]);
    }
  }

  /** `totalStakers` never falls when cash-out amounts are not negative. */
  lemma {:induction false} RunStakersNeverFall(s: Store, events: seq<Event>)
    requires forall i | 0 <= i < |events| :: WellFormed(events[i])
    ensures Stakers(Run(s, events)) >= Stakers(s)
    decreases |events|
  {
    if events != [] {
      RunStakersNeverFall(Step(s, events[0]), events[1..]);
    }
  }

  /** Since the decrement is never taken, `totalStakers` moves in lockstep
      with `totalUsers`: from an empty store the two are always equal. */
  lemma {:induction false} RunStakersTrackUsers(s: Store, events: seq<Event>)
    requires Stakers(s) == Users(s)
    requires forall i | 0 <= i < |events| :: WellFormed(events[i])
    ensures Stakers(Run(s, events)) == Users(Run(s, events))
    decreases |events|
  {
    if events != [] {
      RunStakersTrackUsers(Step(s, events[0]), events[1..]);
    }
  }
}
