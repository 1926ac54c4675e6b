/**
 * The moves a strategy may submit. The two moves of the game form a closed type;
 * any other move object is foreign and not allowed by the rules.
 */
module Moves {
  import opened Wrappers
  import opened Domain
  import opened Players
  import opened States

  /** The moves allowed by the rules of the game (the subclasses of the marker base class). */
  datatype GameMove = SnitchMove | StaySilentMove

  /** Any move a strategy may return: one of the game's own, or a foreign implementation. */
  datatype SubmittedMove = Legal(move: GameMove) | Foreign(id: nat)

  /** The legality check the game is built with: the move is one of the game's own moves. */
  predicate IsLegalMove(m: SubmittedMove)
  {
    m.Legal?
  }

  /** The answer a move gives. */
  function AnswerOf(m: GameMove): Move
  {
    match m
    case SnitchMove => Snitch
    case StaySilentMove => RemainSilent
  }

  /**
   * `applyTo`: the move writes its answer into the player; a player that already
   * answered refuses it. The state argument is neither read nor changed.
   */
  method ApplyTo(m: GameMove, state: State, player: Player) returns (r: Outcome<Error>)
    modifies player`answer
    ensures old(player.answer).None? ==> r == Pass && player.answer == Some(AnswerOf(m))
    ensures old(player.answer).Some? ==> r == Fail(AnswerAlreadyGiven(player.name)) && player.answer == old(player.answer)
  {
    r := player.SetAnswer(AnswerOf(m));
  }

  /** Exactly the game's two moves are legal, and they give different answers. */
  lemma LegalMovesAreTheTwoGameMoves(m: SubmittedMove)
    ensures IsLegalMove(m) <==> m == Legal(SnitchMove) || m == Legal(StaySilentMove)
    ensures AnswerOf(SnitchMove) == Snitch && AnswerOf(StaySilentMove) == RemainSilent
  {
    match m
    case Legal(g) => { match g { case SnitchMove => case StaySilentMove => } }
    case Foreign(_) =>
  }
}
