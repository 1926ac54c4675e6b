# Prisoner's dilemma ("GefangenenDilemma") — a Dafny model

This project models the domain core of a two-player prisoner's dilemma played
inside a generic turn-based gaming framework. Each player answers once, either
SNITCH or REMAINSILENT. When both have answered, each player is scored from its
own payoff table. The player's state then becomes WON, LOST or DRAW by the sign
of the payoff.

The modelled parts, one module each:

- **Domain** (`domain.dfy`): the move enum, the framework's player states and the
  error kinds the Java code throws. A payoff table is a map of maps whose cells
  may hold a Java `null`.
- **Players** (`player.dfy`): the player object. Its name and table are set at
  construction and never reassigned; its answer, state and outcome are mutable
  fields. It has copy, equality and the set-once answer.
- **PlayerBuilders** (`player_builder.dfy`): the player builder and its check that
  all four table cells are defined.
- **States** (`state.dfy`): the game state holding the two players. It provides
  the players map, the pending players and `nextTurn`. `nextTurn` is proved
  against the pure function `Turn` on player views.
- **Moves**, **Strategies**, **MoveGenerators**: the stay-silent move, the
  always-snitch strategy and the fallback move generator.
- **GameBuilders** (`game_builder.dfy`): the game builder with its two player
  slots and its build step.
- **GameBuilderFactory** (`game_builder_factory.dfy`): the factory's constants,
  the name pattern, the default payoffs and `createPlayer`.
- **LinkedMaps** (`linked_maps.dfy`): insertion-ordered maps, which model
  `LinkedHashMap`.
- **Scenarios** (`scenarios.dfy`): the repository's unit-test scenarios, written
  as verified client code.

Java exceptions become `Failure`/`Fail` values of the `Result` and `Outcome`
datatypes. A `null` map cell becomes `None`.

**How the payoff tables are indexed.** Both tables are read as
`[first player's answer][second player's answer]`, not as
`[own answer][opponent's answer]` (`GefangenenDilemmaStateImpl.java:141-147`; the
constructor documentation at `GefangenenDilemmaPlayerImpl.java:48-49` says the
same). `Scenarios.NextTurnScenario` and
`Scenarios.DefaultTablesScoreBothPlayersAtFirstAnswerFirst` show what this means.
`GameBuilderFactory.DefaultPayoffsAreADilemmaOnlyForTheFirstPlayer` shows that
the default table is a prisoner's dilemma only for the first player. Read by the
second player, staying silent dominates.

**The tests' tables.** The unit tests key their tables by Booleans rather than by
the move enum. The scenarios read `false` as SNITCH and `true` as REMAINSILENT,
as the move tests' expected answers show.

**A missing cell.** If a table has no value at the answered cell, `nextTurn`
fails with a null-pointer error. If only the second player's cell is missing,
the first player has already been scored by then. The model keeps this behaviour.

## Model

| member | source | states |
|---|---|---|
| Domain.FourCellsMakeComplete | src/main/java/de/fhdw/gaming/GefangenenDilemma/domain/impl/GefangenenDilemmaPlayerBuilderImpl.java:80-87 | If the four (first, second) answer cells are defined, every cell of the table is defined |
| LinkedMaps.Keys | src/main/java/de/fhdw/gaming/GefangenenDilemma/domain/impl/GefangenenDilemmaStateImpl.java:114 | An insertion-ordered map has one key per entry, and the i-th key is the key of the i-th entry |
| LinkedMaps.Get | src/main/java/de/fhdw/gaming/GefangenenDilemma/domain/impl/GefangenenDilemmaStateImpl.java:114 | A lookup finds a value exactly when the key is present |
| LinkedMaps.GetFindsFirstEntry | src/main/java/de/fhdw/gaming/GefangenenDilemma/domain/impl/GefangenenDilemmaStateImpl.java:114 | The value a lookup finds is the value of the first entry with that key: no earlier entry has it |
| LinkedMaps.Put | src/main/java/de/fhdw/gaming/GefangenenDilemma/domain/impl/GefangenenDilemmaStateImpl.java:115-116 | After a put, the key maps to the new value and every other key is unchanged. A new key is appended at the end of the key order; an existing key keeps its place |
| Players.DefaultOutcome | src/test/java/de/fhdw/gaming/GefangenenDilemma/domain/impl/GefangenenDilemmaPlayerImplTest.java:145-160 | A finished player without an explicit outcome scores 1 if won, 0 if drawn, and -1 if lost or resigned |
| Players.Player.constructor | src/main/java/de/fhdw/gaming/GefangenenDilemma/domain/impl/GefangenenDilemmaPlayerImpl.java:51-58 | A new player has the given name and table, no answer, the PLAYING state and no outcome |
| Players.Player.Copy | src/main/java/de/fhdw/gaming/GefangenenDilemma/domain/impl/GefangenenDilemmaPlayerImpl.java:65-69 | The copy has the same name, table, answer, state and outcome as the source |
| Players.Player.Equals | src/main/java/de/fhdw/gaming/GefangenenDilemma/domain/impl/GefangenenDilemmaPlayerImpl.java:80-87 | Two players are equal iff name, state, outcome, answer and table all agree |
| Players.Player.DeepCopy | src/main/java/de/fhdw/gaming/GefangenenDilemma/domain/impl/GefangenenDilemmaPlayerImpl.java:115-117 | Returns a new object that is equal to this player |
| Players.Player.SetAnswer | src/main/java/de/fhdw/gaming/GefangenenDilemma/domain/impl/GefangenenDilemmaPlayerImpl.java:106-112 | The first answer is stored. A second answer is refused with an error naming the player, and the stored answer stays as it was |
| Players.Player.SetState | src/test/java/de/fhdw/gaming/GefangenenDilemma/domain/impl/GefangenenDilemmaPlayerImplTest.java:136-142 | Sets the state and nothing else |
| Players.Player.SetOutcome | src/test/java/de/fhdw/gaming/GefangenenDilemma/domain/impl/GefangenenDilemmaPlayerImplTest.java:163-170 | Setting an outcome while PLAYING is refused and changes nothing. Otherwise the outcome is stored |
| Players.Player.GetOutcome | src/test/java/de/fhdw/gaming/GefangenenDilemma/domain/impl/GefangenenDilemmaPlayerImplTest.java:145-160 | No outcome exactly while PLAYING. Otherwise the explicit outcome if one was set, else the default for the state |
| PlayerBuilders.CheckPossibleOutcome | src/main/java/de/fhdw/gaming/GefangenenDilemma/domain/impl/GefangenenDilemmaPlayerBuilderImpl.java:98-111 | Passes iff the cell [first][second] holds a non-null value. Otherwise fails with "no outcome defined" for that combination |
| PlayerBuilders.CheckPossibleOutcomes | src/main/java/de/fhdw/gaming/GefangenenDilemma/domain/impl/GefangenenDilemmaPlayerBuilderImpl.java:76-89 | Succeeds iff the table is complete, and then returns the table unchanged. Otherwise it reports a missing cell, and every cell checked before that one is defined |
| PlayerBuilders.PlayerBuilder.constructor | src/main/java/de/fhdw/gaming/GefangenenDilemma/domain/impl/GefangenenDilemmaPlayerBuilderImpl.java:45-48 | A new builder has neither a name nor a table |
| PlayerBuilders.PlayerBuilder.ChangeName | src/main/java/de/fhdw/gaming/GefangenenDilemma/domain/impl/GefangenenDilemmaPlayerBuilderImpl.java:51-54 | Stores the name and leaves the table alone |
| PlayerBuilders.PlayerBuilder.ChangePossibleOutcomes | src/main/java/de/fhdw/gaming/GefangenenDilemma/domain/impl/GefangenenDilemmaPlayerBuilderImpl.java:57-62 | Stores the table and leaves the name alone |
| PlayerBuilders.PlayerBuilder.Build | src/main/java/de/fhdw/gaming/GefangenenDilemma/domain/impl/GefangenenDilemmaPlayerBuilderImpl.java:65-69 | Fails with no-such-element if the name is missing, then if the table is missing. An incomplete table fails with the check's error. Otherwise returns a new player with that name and table, no answer and the PLAYING state |
| States.OutcomeToState | src/main/java/de/fhdw/gaming/GefangenenDilemma/domain/impl/GefangenenDilemmaStateImpl.java:158-160 | WON iff the payoff is positive, LOST iff it is negative, DRAW iff it is zero |
| States.State.constructor | src/main/java/de/fhdw/gaming/GefangenenDilemma/domain/impl/GefangenenDilemmaStateImpl.java:50-60 | Holds the two given players, which must have different names |
| States.State.Create | src/main/java/de/fhdw/gaming/GefangenenDilemma/domain/impl/GefangenenDilemmaStateImpl.java:50-60 | A null player fails with a null-pointer error. Otherwise it fails with a same-name error iff the two players share a name, and else returns a new state holding both players |
| States.State.Copy | src/main/java/de/fhdw/gaming/GefangenenDilemma/domain/impl/GefangenenDilemmaStateImpl.java:67-70 | Holds new deep copies of both players, each equal to its source |
| States.State.Equals | src/main/java/de/fhdw/gaming/GefangenenDilemma/domain/impl/GefangenenDilemmaStateImpl.java:94-100 | Two states are equal iff their first players are equal and their second players are equal |
| States.State.DeepCopy | src/main/java/de/fhdw/gaming/GefangenenDilemma/domain/impl/GefangenenDilemmaStateImpl.java:103-105 | Returns a new state that is equal to this one and shares no player object with it |
| States.State.GetPlayers | src/main/java/de/fhdw/gaming/GefangenenDilemma/domain/impl/GefangenenDilemmaStateImpl.java:113-118 | The map's keys are exactly [first name, second name] in that order, and each name maps to its player |
| States.State.ComputeNextPlayers | src/main/java/de/fhdw/gaming/GefangenenDilemma/domain/impl/GefangenenDilemmaStateImpl.java:121-130 | A player is pending iff it has no answer. The first player comes before the second. The result is empty iff both have answered |
| States.State.NextTurn | src/main/java/de/fhdw/gaming/GefangenenDilemma/domain/impl/GefangenenDilemmaStateImpl.java:133-151 | The new player states and outcomes, and the error if any, are exactly what `Turn` gives for the old player views |
| States.TurnWaitsForBothAnswers | src/main/java/de/fhdw/gaming/GefangenenDilemma/domain/impl/GefangenenDilemmaStateImpl.java:134-135 | While either player has no answer, a turn changes nothing and raises no error |
| States.TurnResolvesAtFirstAnswerSecondAnswer | src/main/java/de/fhdw/gaming/GefangenenDilemma/domain/impl/GefangenenDilemmaStateImpl.java:136-149 | With answers a1, a2 and both tables defined at [a1][a2], each player gets the outcome in its own table at [a1][a2], and its state follows the sign of that outcome |
| States.TurnKeepsNamesTablesAndAnswers | src/main/java/de/fhdw/gaming/GefangenenDilemma/domain/impl/GefangenenDilemmaStateImpl.java:133-151 | A turn never changes a name, a table or an answer |
| States.TurnIsIdempotent | src/main/java/de/fhdw/gaming/GefangenenDilemma/domain/impl/GefangenenDilemmaStateImpl.java:133-151 | A second turn on the result of a turn gives the same states, outcomes and result |
| States.TurnDependsOnlyOnAnswersAndTables | src/main/java/de/fhdw/gaming/GefangenenDilemma/domain/impl/GefangenenDilemmaStateImpl.java:141-149 | Players who agree on their answers and tables get the same result, and on success the same states and outcomes, whatever they held before |
| States.DefaultOutcomeFollowsSignLaw | src/main/java/de/fhdw/gaming/GefangenenDilemma/domain/impl/GefangenenDilemmaStateImpl.java:158-160 | A finished player's default outcome maps back to its own state under the sign rule; RESIGNED maps to LOST |
| States.SwappedStateIsUnequal | src/main/java/de/fhdw/gaming/GefangenenDilemma/domain/impl/GefangenenDilemmaStateImpl.java:94-100 | Equality is positional, so a state with its players swapped is not equal to the original |
| Moves.ApplyTo | src/main/java/de/fhdw/gaming/GefangenenDilemma/moves/impl/GefangenenDilemmaStaySilentMove.java:29-31 | Applying a move records its answer (REMAINSILENT for the stay-silent move) as the player's answer. It fails if the player has already answered |
| Moves.LegalMovesAreTheTwoGameMoves | src/main/java/de/fhdw/gaming/GefangenenDilemma/domain/impl/GefangenenDilemmaGameBuilderImpl.java:133 | A submitted move is legal iff it is one of the game's two moves |
| Strategies.SnitchComputeNextMove | src/main/java/de/fhdw/gaming/GefangenenDilemma/strategy/GefangenenDilemmaSnitchStrategy.java:45-52 | Always proposes a legal move, and that move answers SNITCH |
| MoveGenerators.Generate | src/main/java/de/fhdw/gaming/GefangenenDilemma/domain/impl/GefangenenDilemmaMoveGeneratorImpl.java:38-42 | The fallback move is always present and legal, and it answers SNITCH |
| GameBuilders.GameBuilder.constructor | src/main/java/de/fhdw/gaming/GefangenenDilemma/domain/impl/GefangenenDilemmaGameBuilderImpl.java:70-77 | A new builder has no players, no strategies and the framework's default time budget |
| GameBuilders.GameBuilder.AddPlayer | src/main/java/de/fhdw/gaming/GefangenenDilemma/domain/impl/GefangenenDilemmaGameBuilderImpl.java:85-99 | Fills the first empty slot with the player and its strategy. A null player fails with nothing changed. A null strategy fails after the player has been stored. A third player fails with too-many-players and nothing changed. The second slot is never filled before the first |
| GameBuilders.GameBuilder.ChangeMaximumComputationTimePerMove | src/main/java/de/fhdw/gaming/GefangenenDilemma/domain/impl/GefangenenDilemmaGameBuilderImpl.java:102-105 | Sets the time budget and nothing else |
| GameBuilders.GameBuilder.Build | src/main/java/de/fhdw/gaming/GefangenenDilemma/domain/impl/GefangenenDilemmaGameBuilderImpl.java:116-136 | Fails if a player is missing (for slots filled in order: iff the second slot is empty), then if the names clash, then if a strategy is missing. Otherwise: a new initial state of the two players, strategies keyed by the two names in order, and the builder's time budget |
| GameBuilderFactory.FactoryBounds | src/main/java/de/fhdw/gaming/GefangenenDilemma/domain/impl/GefangenenDilemmaGameBuilderFactoryImpl.java:55-121 | Minimum and maximum player counts are both 2, as the constants at lines 55-63 and the getters at lines 113-121 return. The admissible time budgets are exactly 1 to 3600 seconds |
| GameBuilderFactory.ScanAfterFirstWord | src/main/java/de/fhdw/gaming/GefangenenDilemma/domain/impl/GefangenenDilemmaGameBuilderFactoryImpl.java:185 | After the first word, the name scanner accepts iff the rest is empty or ends in a non-whitespace character |
| GameBuilderFactory.NamePatternMeansTrimmedNonEmpty | src/main/java/de/fhdw/gaming/GefangenenDilemma/domain/impl/GefangenenDilemmaGameBuilderFactoryImpl.java:185 | A name matches `\S+(\s+\S+)*` iff it is non-empty and neither starts nor ends with whitespace |
| GameBuilderFactory.PayoffTableOfIsComplete | src/main/java/de/fhdw/gaming/GefangenenDilemma/domain/impl/GefangenenDilemmaGameBuilderFactoryImpl.java:220-241 | The table built from four payoffs holds each payoff in its cell and nothing else, so it passes the builder's completeness check |
| GameBuilderFactory.CreatePlayer | src/main/java/de/fhdw/gaming/GefangenenDilemma/domain/impl/GefangenenDilemmaGameBuilderFactoryImpl.java:216-244 | Always builds a new player with the given name and the table of the four given payoffs |
| GameBuilderFactory.DefaultPayoffsAreADilemmaOnlyForTheFirstPlayer | src/main/java/de/fhdw/gaming/GefangenenDilemma/domain/impl/GefangenenDilemmaGameBuilderFactoryImpl.java:186-201 | In the default table, read by the player whose answer is the first key, snitching strictly dominates and temptation > reward > punishment > sucker. Read by the player whose answer is the second key, staying silent strictly dominates |
| Scenarios.NextTurnScenario | src/test/java/de/fhdw/gaming/GefangenenDilemma/domain/impl/GefangenenDilemmaStateImplTest.java:162-176 | A stays silent and B snitches: A wins with 1, B loses with -1 |
| Scenarios.DeepCopyScenario | src/test/java/de/fhdw/gaming/GefangenenDilemma/domain/impl/GefangenenDilemmaStateImplTest.java:120-131 | A deep copy is equal to the original. Answering in the copy alone makes them differ; once the original's first player gives the same answer they are equal again, with distinct player objects |
| Scenarios.DeepCopyResolvesScenario | src/test/java/de/fhdw/gaming/GefangenenDilemma/domain/impl/GefangenenDilemmaStateImplTest.java:132-138 | Starting from two equal states, each with only the first answer given, both second players answer REMAINSILENT and both states resolve. The two states are then equal again |
| Scenarios.DeepCopyTestScenario | src/test/java/de/fhdw/gaming/GefangenenDilemma/domain/impl/GefangenenDilemmaStateImplTest.java:120-139 | The whole deep-copy test in order: after the copy diverges and is reconciled, both states resolve the round with SNITCH and REMAINSILENT as the answers. They end equal, with distinct player objects |
| Scenarios.SetUpGame | src/main/java/de/fhdw/gaming/GefangenenDilemma/domain/impl/GefangenenDilemmaGameBuilderFactoryImpl.java:145-160 | Assembling a game builder from the dialog's values and building it fails with a same-name error iff the names are equal. Otherwise the game holds two new players with the given names, the tables of their payoffs, no answers, the PLAYING state, the two strategies by name in order and the given time budget |
| Scenarios.StaySilentMoveScenario | src/test/java/de/fhdw/gaming/GefangenenDilemma/moves/impl/DemoYesMoveTest.java:94-101 | In the test's game, the stay-silent move applied to A and then to B leaves both answering REMAINSILENT |
| Scenarios.SnitchMoveScenario | src/test/java/de/fhdw/gaming/GefangenenDilemma/moves/impl/DemoNoMoveTest.java:98-105 | In the test's game, the snitch move applied to A and then to B leaves both answering SNITCH |
| Scenarios.BuildPlayer | src/test/java/de/fhdw/gaming/GefangenenDilemma/domain/impl/GefangenenDilemmaGameBuilderImplTest.java:36-41 | A player made through a new player builder succeeds iff its table is complete, and then has the given name and table, no answer and the PLAYING state |
| Scenarios.AssembleGame | src/test/java/de/fhdw/gaming/GefangenenDilemma/domain/impl/GefangenenDilemmaGameBuilderImplTest.java:47-51 | The builder chain fails with a same-name error iff the names are equal. Otherwise its state holds exactly the two players, with the strategies by name in order and the given time budget |
| Scenarios.GameBuilderScenario | src/test/java/de/fhdw/gaming/GefangenenDilemma/domain/impl/GefangenenDilemmaGameBuilderImplTest.java:29-57 | The built game's state equals a state made directly from A and B. Its players map is exactly A and B by name, its strategies map is the stay-silent and the snitch strategy by name, and its time budget is 60 |
| Scenarios.GameBuilderRefusalsScenario | src/main/java/de/fhdw/gaming/GefangenenDilemma/domain/impl/GefangenenDilemmaGameBuilderImpl.java:85-120 | A null player is refused with a null-pointer error, a build with one player fails with a missing-player error, and a third player is refused with too-many-players |
| Scenarios.DefaultTablesScoreBothPlayersAtFirstAnswerFirst | src/main/java/de/fhdw/gaming/GefangenenDilemma/domain/impl/GefangenenDilemmaStateImpl.java:141-149 | With the default table for both players, first SNITCH and second REMAINSILENT score BOTH players 0 (a draw each), because both tables are read at [first answer][second answer] |

## Left out

- Payoffs are Java `Double`s. They are modelled as integers; NaN, infinities and rounding are not modelled.
- The player's state and outcome fields, `getOutcome` and `setOutcome` belong to the framework's abstract player, which is not part of this model. The model assumes this behaviour:
  - there is no outcome while PLAYING;
  - an outcome that was set explicitly wins over the state's default (1, 0, -1);
  - `setOutcome` is refused while PLAYING;
  - `setState` leaves the outcome alone.
- Players.Player.Equals: the framework's part of equality (`super.equals`) is not part of this model. It is assumed to compare name, state and outcome.
- The framework's default time budget constant is not part of this model. The game builder's constructor takes it as a parameter.
- The game object that `build` creates (`DefaultGame`) is left out, together with its run loop, its observers and its timing of strategies. `Build` returns only the initial state, the strategy map and the time budget. The game id, the observer factory provider, the legality predicate (`GefangenenDilemmaGameBuilderImpl.java:133`, modelled on its own as `Moves.IsLegalMove`) and the move generator (line 134, modelled on its own as `MoveGenerators.Generate`) are not part of the returned value.
- `changeObserverFactoryProvider` and `createPlayerBuilder` are left out. They only store or return a framework object.
- `createGameBuilder` and `requestPlayerData`: only the reading of dialog input through the framework's input provider is left out. The values read become parameters. `Scenarios.SetUpGame` replays the assembly that `createGameBuilder` performs with them (`GefangenenDilemmaGameBuilderFactoryImpl.java:145-160`). The constants, the default payoffs, the time bounds and the name pattern are modelled. `createPlayer` is modelled with its four payoffs and its name as parameters.
- Strategy discovery through the service loader and the strategy factories is left out. A strategy is an enumerated value; a plug-in strategy is an opaque id.
- The snitch move class and the move factory are not part of this model. The snitch move is modelled as the counterpart of the stay-silent move, with the answer SNITCH.
- The name pattern is modelled as a four-state scanner (start, inside a word, inside a gap, and a rejecting sink) for `\S+(\s+\S+)*` over the six ASCII whitespace characters of Java's `\s`. The whole name must match.
- `LinkedHashSet` (`computeNextPlayers`) is modelled as a sequence without duplicates, in insertion order.
- `toString`, `hashCode` and the exception message texts are left out. Errors are kept as kinds with their data (player name, answer combination).
- Thread safety and concurrent access are left out.
- The payoff table is a value here. The player constructor (`GefangenenDilemmaPlayerImpl.java:55-56`) copies only the outer map and wraps it as unmodifiable; the inner rows stay the caller's mutable maps, and the copy constructor (line 67) shares the table. Aliasing of the rows, and changes to a row after construction, are not captured.
- Null arguments other than the players of the state and of `addPlayer` are not modelled. These are a null name or null table given to the player constructor (`requireNonNull`), and a null name or table given to `changeName` or `changePossibleOutcomes` (`Optional.of(null)` throws there). Parameters of those operations are non-null in the model.
- A table row mapped to `null` is not modelled; only missing rows, missing cells and `null` cells are. With a `null` row, `checkPossibleOutcome` (`GefangenenDilemmaPlayerBuilderImpl.java:103`) throws a null-pointer exception rather than reporting a missing outcome. In `nextTurn` (`GefangenenDilemmaStateImpl.java:141-147`) a `null` row behaves like a missing one: both end in a null-pointer exception, which the model gives as `Fail(NullPointer)`.
- Scenarios.GameBuilderScenario: the test's check of the game id is not modelled, because the game object is left out.
