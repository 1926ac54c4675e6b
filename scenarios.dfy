/**
 * The repository's unit-test scenarios, replayed against the model: each method
 * builds its objects, runs the operations in the test's order and states what the
 * test asserts. The tests key their tables by Booleans; here `false` is SNITCH and
 * `true` is REMAINSILENT, as the move tests' expected answers show. Where a test
 * gets its game from the factory's input dialog, `SetUpGame` takes the values
 * the test feeds in. `GameBuilderRefusalsScenario` and
 * `DefaultTablesScoreBothPlayersAtFirstAnswerFirst` belong to no test: they
 * exercise the builder's refusals and the payoff indexing.
 */
module Scenarios {
  import opened Wrappers
  import opened Domain
  import opened Players
  import opened PlayerBuilders
  import opened States
  import opened Moves
  import opened Strategies
  import opened GameBuilders
  import opened GameBuilderFactory

  /** Player A's table of the state tests: [SNITCH] = (-2, 0), [REMAINSILENT] = (1, 2). */
  function TableA(): PayoffTable { PayoffTableOf(-2, 0, 1, 2) }

  /** Player B's table of the state tests: [SNITCH] = (-2, 0), [REMAINSILENT] = (-1, 2). */
  function TableB(): PayoffTable { PayoffTableOf(-2, 0, -1, 2) }

  /**
   * A stays silent, B snitches: A is scored at A[REMAINSILENT][SNITCH] = 1 and
   * wins, B is scored at B[REMAINSILENT][SNITCH] = -1 (its own table, but keyed
   * by the first player's answer first) and loses.
   */
  method NextTurnScenario() returns (a: Player, b: Player)
    ensures a.answer == Some(RemainSilent) && b.answer == Some(Snitch)
    ensures a.state == Won && a.GetOutcome() == Some(1)
    ensures b.state == Lost && b.GetOutcome() == Some(-1)
  {
    a := new Player("A", TableA());
    b := new Player("B", TableB());
    var state := new State(a, b);
    var pending := state.ComputeNextPlayers();
    assert pending == [a, b];

    var answered := a.SetAnswer(RemainSilent);
    TurnWaitsForBothAnswers(a.View(), b.View());
    var r := state.NextTurn();
    pending := state.ComputeNextPlayers();
    assert |pending| == 1 && b in pending;
    assert pending == [b];
    assert a.state == Playing && a.GetOutcome() == None;

    answered := b.SetAnswer(Snitch);
    TurnResolvesAtFirstAnswerSecondAnswer(a.View(), b.View(), RemainSilent, Snitch);
    r := state.NextTurn();
    pending := state.ComputeNextPlayers();
    assert pending == [];
  }

  /**
   * A deep copy evolves independently (first half): answering in the copy makes
   * it differ from the original, and the two agree again once the original's
   * first player has given the same answer.
   */
  method DeepCopyScenario() returns (original: State, copy: State)
    ensures original.Valid() && copy.Valid()
    ensures original.first != copy.first && original.second != copy.second
    ensures original.first.View() == PlayerView("A", TableA(), Some(Snitch), Playing, None)
    ensures original.second.View() == PlayerView("B", TableB(), None, Playing, None)
    ensures copy.first.View() == original.first.View() && copy.second.View() == original.second.View()
    ensures copy.Equals(original)
    ensures fresh(original.first) && fresh(original.second) && fresh(copy.first) && fresh(copy.second)
  {
    var a := new Player("A", TableA());
    var b := new Player("B", TableB());
    original := new State(a, b);
    copy := original.DeepCopy();
    assert copy.Equals(original);

    // Only the copy's first player answers: the copy differs, the original is untouched.
    var answered := copy.first.SetAnswer(Snitch);
    TurnWaitsForBothAnswers(copy.first.View(), copy.second.View());
    var r := copy.NextTurn();
    assert copy.first.answer != original.first.answer;
    assert !copy.Equals(original);

    // The original's first player gives the same answer: equal again.
    answered := a.SetAnswer(Snitch);
    TurnWaitsForBothAnswers(a.View(), b.View());
    r := original.NextTurn();
  }

  /**
   * A deep copy evolves independently (second half): the original resolves its
   * round while the copy still waits, and the copy, resolving the same round
   * from the same answers and tables, becomes equal to it again.
   */
  method DeepCopyResolvesScenario(original: State, copy: State)
    requires original.Valid() && copy.Valid()
    requires original.first != copy.first && original.second != copy.second
    requires original.first.View() == PlayerView("A", TableA(), Some(Snitch), Playing, None)
    requires original.second.View() == PlayerView("B", TableB(), None, Playing, None)
    requires copy.first.View() == original.first.View() && copy.second.View() == original.second.View()
    modifies original.first, original.second, copy.first, copy.second
    ensures original.first.answer == Some(Snitch) && original.second.answer == Some(RemainSilent)
    ensures copy.Equals(original)
  {
    // The original resolves its round: the copy, still waiting, differs.
    var answered := original.second.SetAnswer(RemainSilent);
    ghost var originalFirst, originalSecond := original.first.View(), original.second.View();
    var r := original.NextTurn();
    assert copy.second.answer != original.second.answer;
    assert !copy.Equals(original);

    // The copy resolves the same round from the same answers and tables: equal again.
    answered := copy.second.SetAnswer(RemainSilent);
    ghost var copyFirst, copySecond := copy.first.View(), copy.second.View();
    r := copy.NextTurn();
    TurnDependsOnlyOnAnswersAndTables(originalFirst, originalSecond, copyFirst, copySecond);
    TurnKeepsNamesTablesAndAnswers(originalFirst, originalSecond);
    TurnKeepsNamesTablesAndAnswers(copyFirst, copySecond);
  }

  /**
   * The deep-copy test end to end: the copy diverges and is reconciled by the
   * first answer, then both states resolve the round and are equal once more.
   */
  method DeepCopyTestScenario() returns (original: State, copy: State)
    ensures original.Valid() && copy.Valid()
    ensures original.first != copy.first && original.second != copy.second
    ensures original.first.answer == Some(Snitch) && original.second.answer == Some(RemainSilent)
    ensures copy.first.answer == Some(Snitch) && copy.second.answer == Some(RemainSilent)
    ensures copy.Equals(original)
  {
    original, copy := DeepCopyScenario();
    DeepCopyResolvesScenario(original, copy);
  }

  /** The values a test feeds the factory's input dialog for one player. */
  datatype PlayerData = PlayerData(
    name: string,
    strategy: Strategy,
    snitchSnitch: int,
    snitchStaySilent: int,
    staySilentSnitch: int,
    staySilentStaySilent: int)

  /** The table `createPlayer` builds from a player's data. */
  function TableOf(data: PlayerData): PayoffTable
  {
    PayoffTableOf(data.snitchSnitch, data.snitchStaySilent, data.staySilentSnitch, data.staySilentStaySilent)
  }

  /**
   * The set-up of the move tests: the factory's assembly of a game builder from
   * the dialog's values (time budget, then each player created through its own
   * player builder and added with its strategy), followed by `build`.
   */
  method SetUpGame(defaultMaxComputationTimePerMove: int, maxComputationTimePerMove: int,
                   first: PlayerData, second: PlayerData)
    returns (r: Result<BuiltGame, Error>)
    ensures first.name == second.name ==> r == Failure(SameName(first.name))
    ensures first.name != second.name ==> r.Success?
    ensures r.Success? ==>
      fresh(r.value.initialState) && fresh(r.value.initialState.first) && fresh(r.value.initialState.second)
    ensures r.Success? ==>
      r.value.initialState.Valid() &&
      r.value.initialState.first.View() == PlayerView(first.name, TableOf(first), None, Playing, None) &&
      r.value.initialState.second.View() == PlayerView(second.name, TableOf(second), None, Playing, None)
    ensures r.Success? ==>
      LinkedMaps.Keys(r.value.strategies) == [first.name, second.name] &&
      LinkedMaps.Get(r.value.strategies, first.name) == Some(first.strategy) &&
      LinkedMaps.Get(r.value.strategies, second.name) == Some(second.strategy) &&
      r.value.maxComputationTimePerMove == maxComputationTimePerMove
  {
    var builder := new GameBuilder(defaultMaxComputationTimePerMove);
    builder.ChangeMaximumComputationTimePerMove(maxComputationTimePerMove);

    var playerBuilder := new PlayerBuilder();
    var created := CreatePlayer(playerBuilder, first.name, first.snitchSnitch, first.snitchStaySilent,
                                first.staySilentSnitch, first.staySilentStaySilent);
    var firstPlayer := created.value;
    var added := builder.AddPlayer(firstPlayer, Some(first.strategy));

    playerBuilder := new PlayerBuilder();
    created := CreatePlayer(playerBuilder, second.name, second.snitchSnitch, second.snitchStaySilent,
                            second.staySilentSnitch, second.staySilentStaySilent);
    var secondPlayer := created.value;
    added := builder.AddPlayer(secondPlayer, Some(second.strategy));

    r := builder.Build();
  }

  /**
   * The stay-silent move test: in a game of A (stay-silent strategy) and B
   * (snitch strategy), the stay-silent move is applied to A and then to B, and
   * each answers REMAINSILENT.
   */
  method StaySilentMoveScenario(defaultMaxComputationTimePerMove: int) returns (a: Player, b: Player)
    ensures a.name == "A" && b.name == "B"
    ensures a.answer == Some(RemainSilent) && b.answer == Some(RemainSilent)
  {
    var built := SetUpGame(defaultMaxComputationTimePerMove, 60,
                           PlayerData("A", StaySilentStrategy, -8, 0, -10, 1),
                           PlayerData("B", SnitchStrategy, -2, 0, 1, 2));
    var state := built.value.initialState;
    var players := state.GetPlayers();
    a := LinkedMaps.Get(players, "A").value;
    b := LinkedMaps.Get(players, "B").value;
    assert a.answer == None;

    var r := ApplyTo(StaySilentMove, state, a);
    assert a.answer == Some(RemainSilent);
    r := ApplyTo(StaySilentMove, state, b);
  }

  /**
   * The snitch move test: in a game of A and B (both with the snitch strategy
   * and the default payoffs), the snitch move is applied to A and then to B, and
   * each answers SNITCH.
   */
  method SnitchMoveScenario(defaultMaxComputationTimePerMove: int) returns (a: Player, b: Player)
    ensures a.name == "A" && b.name == "B"
    ensures a.answer == Some(Snitch) && b.answer == Some(Snitch)
  {
    var built := SetUpGame(defaultMaxComputationTimePerMove, 60,
                           PlayerData("A", SnitchStrategy, -8, 0, -10, -1),
                           PlayerData("B", SnitchStrategy, -8, 0, -10, -1));
    var state := built.value.initialState;
    var players := state.GetPlayers();
    a := LinkedMaps.Get(players, "A").value;
    b := LinkedMaps.Get(players, "B").value;
    assert a.answer == None;

    var r := ApplyTo(SnitchMove, state, a);
    assert a.answer == Some(Snitch);
    r := ApplyTo(SnitchMove, state, b);
  }

  /**
   * A player made the way the game builder test makes one: a new player builder,
   * the name, the table, `build`.
   */
  method BuildPlayer(name: string, table: PayoffTable) returns (r: Result<Player, Error>)
    ensures Complete(table) ==> r.Success? && fresh(r.value) && r.value.View() == PlayerView(name, table, None, Playing, None)
    ensures !Complete(table) ==> r.Failure?
  {
    var playerBuilder := new PlayerBuilder();
    playerBuilder.ChangeName(name);
    playerBuilder.ChangePossibleOutcomes(table);
    r := playerBuilder.Build();
  }

  /**
   * The game builder chain of the game builder test: a new builder, the time
   * budget, the two players with their strategies, `build`.
   */
  method AssembleGame(defaultMaxComputationTimePerMove: int, maxComputationTimePerMove: int,
                      first: Player, firstStrategy: Strategy, second: Player, secondStrategy: Strategy)
    returns (r: Result<BuiltGame, Error>)
    ensures first.name == second.name ==> r == Failure(SameName(first.name))
    ensures first.name != second.name ==>
      r.Success? && fresh(r.value.initialState) && r.value.initialState.Valid() &&
      r.value.initialState.first == first && r.value.initialState.second == second
    ensures first.name != second.name ==>
      LinkedMaps.Keys(r.value.strategies) == [first.name, second.name] &&
      LinkedMaps.Get(r.value.strategies, first.name) == Some(firstStrategy) &&
      LinkedMaps.Get(r.value.strategies, second.name) == Some(secondStrategy) &&
      r.value.maxComputationTimePerMove == maxComputationTimePerMove
  {
    var builder := new GameBuilder(defaultMaxComputationTimePerMove);
    builder.ChangeMaximumComputationTimePerMove(maxComputationTimePerMove);
    var added := builder.AddPlayer(first, Some(firstStrategy));
    added := builder.AddPlayer(second, Some(secondStrategy));
    r := builder.Build();
  }

  /**
   * The game builder test: A and B are built through player builders from the
   * same table, added with the stay-silent and the snitch strategy, and the game
   * is built with a budget of 60. Its state equals a state made directly from A
   * and B, its players map is A and B by name, and its strategies map is the two
   * strategies by name.
   */
  method GameBuilderScenario(defaultMaxComputationTimePerMove: int)
    returns (a: Player, b: Player, game: BuiltGame, expected: State, players: LinkedMaps.LinkedMap<string, Player>)
    ensures a.name == "A" && b.name == "B"
    ensures expected.first == a && expected.second == b && game.initialState.Equals(expected)
    ensures LinkedMaps.Keys(players) == ["A", "B"]
    ensures LinkedMaps.Get(players, "A") == Some(a) && LinkedMaps.Get(players, "B") == Some(b)
    ensures LinkedMaps.Keys(game.strategies) == ["A", "B"]
    ensures LinkedMaps.Get(game.strategies, "A") == Some(StaySilentStrategy)
    ensures LinkedMaps.Get(game.strategies, "B") == Some(SnitchStrategy)
    ensures game.maxComputationTimePerMove == 60
  {
    var table := PayoffTableOf(-2, 0, 1, 2);
    PayoffTableOfIsComplete(-2, 0, 1, 2);

    var created := BuildPlayer("A", table);
    a := created.value;
    created := BuildPlayer("B", table);
    b := created.value;

    var built := AssembleGame(defaultMaxComputationTimePerMove, 60, a, StaySilentStrategy, b, SnitchStrategy);
    game := built.value;

    expected := new State(a, b);
    players := game.initialState.GetPlayers();
  }

  /**
   * The builder's refusals: a null player is refused, building with one player
   * fails, and a third player is refused once both slots are filled.
   */
  method GameBuilderRefusalsScenario(defaultMaxComputationTimePerMove: int)
    returns (nullPlayer: Outcome<Error>, onePlayer: Result<BuiltGame, Error>, thirdPlayer: Outcome<Error>)
    ensures nullPlayer == Fail(NullPointer)
    ensures onePlayer == Failure(MissingPlayer)
    ensures thirdPlayer == Fail(TooManyPlayers)
  {
    var a := new Player("A", PayoffTableOf(-2, 0, 1, 2));
    var b := new Player("B", PayoffTableOf(-2, 0, 1, 2));
    var c := new Player("C", PayoffTableOf(-2, 0, 1, 2));
    var builder := new GameBuilder(defaultMaxComputationTimePerMove);

    nullPlayer := builder.AddPlayer(null, Some(SnitchStrategy));
    var added := builder.AddPlayer(a, Some(StaySilentStrategy));
    onePlayer := builder.Build();
    added := builder.AddPlayer(b, Some(SnitchStrategy));
    thirdPlayer := builder.AddPlayer(c, Some(SnitchStrategy));
  }

  /**
   * With the default table for both players, the first player snitching and the
   * second staying silent scores BOTH at [SNITCH][REMAINSILENT] = 0: a draw for
   * each, because the second player's table is keyed by the first player's
   * answer first.
   */
  lemma DefaultTablesScoreBothPlayersAtFirstAnswerFirst(first: PlayerView, second: PlayerView)
    requires first.answer == Some(Snitch) && second.answer == Some(RemainSilent)
    requires first.possibleOutcomes == PayoffTableOf(-8, 0, -10, -1)
    requires second.possibleOutcomes == PayoffTableOf(-8, 0, -10, -1)
    ensures Turn(first, second).result == Pass
    ensures Turn(first, second).first.outcome == Some(0) && Turn(first, second).first.state == Draw
    ensures Turn(first, second).second.outcome == Some(0) && Turn(first, second).second.state == Draw
  {
    PayoffTableOfIsComplete(-8, 0, -10, -1);
    TurnResolvesAtFirstAnswerSecondAnswer(first, second, Snitch, RemainSilent);
  }
}
