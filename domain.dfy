/**
 * The vocabulary shared by every class of the game: the two answers (the `MOVES`
 * enum of the factory), the player states of the hosting framework, the exceptions
 * the core throws and the per-player payoff table with its lookup.
 */
module Domain {
  import opened Wrappers

  /** The `MOVES` enum: exactly the two answers a prisoner can give. */
  datatype Move = Snitch | RemainSilent

  /** The framework's `PlayerState`. */
  datatype PlayerState = Playing | Won | Lost | Draw | Resigned

  /** The exceptions thrown by the core, one constructor per throw site kind. */
  datatype Error =
    | AnswerAlreadyGiven(player: string)          // IllegalStateException from setAnswer
    | OutcomeWhilePlaying                         // IllegalStateException from setOutcome
    | SameName(name: string)                      // IllegalArgumentException from the state constructor
    | NoOutcomeDefined(first: Move, second: Move) // IllegalArgumentException from checkPossibleOutcome
    | NoSuchElement                               // Optional.orElseThrow on an empty optional
    | NullPointer                                 // requireNonNull, or unboxing a null payoff
    | TooManyPlayers                              // GameException: a third addPlayer
    | MissingPlayer                               // GameException: build with fewer than two players

  /**
   * A payoff table `Map<MOVES, Map<MOVES, Double>>`. The first key is the answer of
   * the FIRST player of the game, the second key the answer of the SECOND player,
   * whichever player owns the table. A cell holding `None` is a Java `null` value.
   */
  type PayoffTable = map<Move, map<Move, Option<int>>>

  /** `table.getOrDefault(first, emptyMap()).get(second)`: `None` for a missing row, a missing cell or a null cell. */
  function Lookup(table: PayoffTable, first: Move, second: Move): Option<int>
  {
    if first in table && second in table[first] then table[first][second] else None
  }

  /** The combination (first, second) has a non-null payoff. */
  predicate Present(table: PayoffTable, first: Move, second: Move)
  {
    Lookup(table, first, second).Some?
  }

  /** All four combinations have a payoff. */
  predicate Complete(table: PayoffTable)
  {
    forall first: Move, second: Move :: Present(table, first, second)
  }

  /** A table is complete as soon as the four combinations of the two answers are present. */
  lemma {:induction false} FourCellsMakeComplete(table: PayoffTable)
    requires Present(table, Snitch, Snitch) && Present(table, Snitch, RemainSilent)
    requires Present(table, RemainSilent, Snitch) && Present(table, RemainSilent, RemainSilent)
    ensures Complete(table)
  {
    forall first: Move, second: Move
      ensures Present(table, first, second)
    {
      match first
      case Snitch => { match second { case Snitch => case RemainSilent => } }
      case RemainSilent => { match second { case Snitch => case RemainSilent => } }
    }
  }

  /** Position of an answer in the enum's declaration order. */
  function MoveRank(m: Move): nat
  {
    match m
    case Snitch => 0
    case RemainSilent => 1
  }

  /** Position of a combination in the order the player builder checks them. */
  function CellRank(first: Move, second: Move): nat
  {
    2 * MoveRank(first) + MoveRank(second)
  }
}
