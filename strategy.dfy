/** The strategies a player can be given. */
module Strategies {
  import opened Wrappers
  import opened Domain
  import opened Players
  import opened States
  import opened Moves

  /** A strategy object: the two shipped ones, or one loaded as a plug-in. */
  datatype Strategy = SnitchStrategy | StaySilentStrategy | PluginStrategy(id: nat)

  /**
   * `computeNextMove` of the snitch strategy: always a present, legal move that
   * answers SNITCH. It reads neither the player nor the state, so no argument
   * can change the result.
   */
  function SnitchComputeNextMove(gameId: int, player: Player, state: State, maxComputationTimePerMove: int)
    : (r: Option<SubmittedMove>)
    ensures r.Some? && IsLegalMove(r.value) && AnswerOf(r.value.move) == Snitch
  {
    Some(Legal(SnitchMove))
  }
}
