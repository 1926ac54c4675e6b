/** The fallback move generator the game uses when a strategy gives no move in time. */
module MoveGenerators {
  import opened Wrappers
  import opened Domain
  import opened Players
  import opened States
  import opened Moves

  /**
   * `generate`: always a present, legal move that answers SNITCH, to punish lame
   * strategies; it reads neither the player nor the state.
   */
  function Generate(player: Player, state: State): (r: Option<SubmittedMove>)
    ensures r.Some? && IsLegalMove(r.value) && AnswerOf(r.value.move) == Snitch
  {
    Some(Legal(SnitchMove))
  }
}
