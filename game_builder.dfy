/**
 * The game builder: two slots for a player and its strategy, the maximum
 * computation time per move, and the validation `build` performs before the
 * framework's game object is created.
 */
module GameBuilders {
  import opened Wrappers
  import opened Domain
  import opened Players
  import opened States
  import opened Strategies
  import opened LinkedMaps

  /** What `build` hands to the framework's game: initial state, strategies by player name, time budget. */
  datatype BuiltGame = BuiltGame(
    initialState: State,
    strategies: LinkedMap<string, Strategy>,
    maxComputationTimePerMove: int)

  class GameBuilder {
    var firstPlayer: Option<Player>
    var firstPlayerStrategy: Option<Strategy>
    var secondPlayer: Option<Player>
    var secondPlayerStrategy: Option<Strategy>
    var maxComputationTimePerMove: int

    /** Both player slots hold a player. */
    predicate BothSlotsFilled()
      reads this
    {
      firstPlayer.Some? && secondPlayer.Some?
    }

    /** Both strategy slots hold a strategy. */
    predicate BothStrategiesSet()
      reads this
    {
      firstPlayerStrategy.Some? && secondPlayerStrategy.Some?
    }

    /** The second slot is filled only once the first one is: `addPlayer` fills them in order. */
    predicate SlotsFilledInOrder()
      reads this
    {
      secondPlayer.Some? ==> firstPlayer.Some?
    }

    /** A fresh builder: both slots empty, the framework's default time budget. */
    constructor (defaultMaxComputationTimePerMove: int)
      ensures firstPlayer == None && firstPlayerStrategy == None
      ensures secondPlayer == None && secondPlayerStrategy == None
      ensures maxComputationTimePerMove == defaultMaxComputationTimePerMove
      ensures SlotsFilledInOrder()
    {
      firstPlayer := None;
      firstPlayerStrategy := None;
      secondPlayer := None;
      secondPlayerStrategy := None;
      maxComputationTimePerMove := defaultMaxComputationTimePerMove;
    }

    /**
     * `addPlayer`: fills the first empty slot, the player before its strategy
     * (a null strategy throws after the player was stored); a third player is
     * refused and changes nothing. `None` stands for a null strategy.
     */
    method AddPlayer(player: Player?, strategy: Option<Strategy>) returns (r: Outcome<Error>)
      modifies this`firstPlayer, this`firstPlayerStrategy, this`secondPlayer, this`secondPlayerStrategy
      ensures old(firstPlayer).None? ==>
        secondPlayer == old(secondPlayer) && secondPlayerStrategy == old(secondPlayerStrategy)
      ensures old(firstPlayer).None? && player == null ==> r == Fail(NullPointer) && unchanged(this)
      ensures old(firstPlayer).None? && player != null ==> firstPlayer == Some(player)
      ensures old(firstPlayer).None? && player != null && strategy.None? ==>
        r == Fail(NullPointer) && firstPlayerStrategy == old(firstPlayerStrategy)
      ensures old(firstPlayer).None? && player != null && strategy.Some? ==>
        r == Pass && firstPlayerStrategy == strategy
      ensures old(firstPlayer).Some? ==>
        firstPlayer == old(firstPlayer) && firstPlayerStrategy == old(firstPlayerStrategy)
      ensures old(firstPlayer).Some? && old(secondPlayer).None? && player == null ==>
        r == Fail(NullPointer) && unchanged(this)
      ensures old(firstPlayer).Some? && old(secondPlayer).None? && player != null ==>
        secondPlayer == Some(player)
      ensures old(firstPlayer).Some? && old(secondPlayer).None? && player != null && strategy.None? ==>
        r == Fail(NullPointer) && secondPlayerStrategy == old(secondPlayerStrategy)
      ensures old(firstPlayer).Some? && old(secondPlayer).None? && player != null && strategy.Some? ==>
        r == Pass && secondPlayerStrategy == strategy
      ensures old(firstPlayer).Some? && old(secondPlayer).Some? ==>
        r == Fail(TooManyPlayers) && unchanged(this)
      ensures old(SlotsFilledInOrder()) ==> SlotsFilledInOrder()
    {
      if firstPlayer.None? {
        if player == null {
          return Fail(NullPointer);
        }
        firstPlayer := Some(player);
        if strategy.None? {
          return Fail(NullPointer);
        }
        firstPlayerStrategy := strategy;
      } else if secondPlayer.None? {
        if player == null {
          return Fail(NullPointer);
        }
        secondPlayer := Some(player);
        if strategy.None? {
          return Fail(NullPointer);
        }
        secondPlayerStrategy := strategy;
      } else {
        return Fail(TooManyPlayers);
      }
      r := Pass;
    }

    /** `changeMaximumComputationTimePerMove`: stored as given, without validation. */
    method ChangeMaximumComputationTimePerMove(newMaxComputationTimePerMove: int)
      modifies this`maxComputationTimePerMove
      ensures maxComputationTimePerMove == newMaxComputationTimePerMove
    {
      maxComputationTimePerMove := newMaxComputationTimePerMove;
    }

    /**
     * `build`: fails unless both slots hold a player, then creates the initial
     * state (equal names fail there), then maps each player's name to its
     * strategy, the first player's entry first (a missing strategy fails there).
     */
    method Build() returns (r: Result<BuiltGame, Error>)
      ensures !BothSlotsFilled() ==> r == Failure(MissingPlayer)
      ensures SlotsFilledInOrder() ==> (r == Failure(MissingPlayer) <==> secondPlayer.None?)
      ensures BothSlotsFilled() && firstPlayer.value.name == secondPlayer.value.name ==>
        r == Failure(SameName(firstPlayer.value.name))
      ensures BothSlotsFilled() && firstPlayer.value.name != secondPlayer.value.name && !BothStrategiesSet() ==>
        r == Failure(NoSuchElement)
      ensures BothSlotsFilled() && firstPlayer.value.name != secondPlayer.value.name && BothStrategiesSet() ==>
        r.Success? && fresh(r.value.initialState) && r.value.initialState.Valid() &&
        r.value.initialState.first == firstPlayer.value &&
        r.value.initialState.second == secondPlayer.value &&
        Keys(r.value.strategies) == [firstPlayer.value.name, secondPlayer.value.name] &&
        Get(r.value.strategies, firstPlayer.value.name) == firstPlayerStrategy &&
        Get(r.value.strategies, secondPlayer.value.name) == secondPlayerStrategy &&
        r.value.maxComputationTimePerMove == maxComputationTimePerMove
    {
      if firstPlayer.None? || secondPlayer.None? {
        return Failure(MissingPlayer);
      }
      var created := State.Create(firstPlayer.value, secondPlayer.value);
      if created.Failure? {
        return Failure(created.error);
      }
      var initialState := created.value;
      var strategies: LinkedMap<string, Strategy> := [];
      if firstPlayerStrategy.None? {
        return Failure(NoSuchElement);
      }
      strategies := Put(strategies, initialState.first.name, firstPlayerStrategy.value);
      if secondPlayerStrategy.None? {
        return Failure(NoSuchElement);
      }
      strategies := Put(strategies, initialState.second.name, secondPlayerStrategy.value);
      r := Success(BuiltGame(initialState, strategies, maxComputationTimePerMove));
    }
  }
}
