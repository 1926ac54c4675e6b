/**
 * A player of the prisoner's dilemma: a name and an immutable payoff table, an
 * answer that can be given once, and the state and outcome the framework's
 * player base class keeps.
 */
module Players {
  import opened Wrappers
  import opened Domain

  /** Everything `equals` compares, as one value. */
  datatype PlayerView = PlayerView(
    name: string,
    possibleOutcomes: PayoffTable,
    answer: Option<Move>,
    state: PlayerState,
    outcome: Option<int>)

  /** The outcome the framework reports for a finished player whose outcome was never set. */
  function DefaultOutcome(state: PlayerState): (v: int)
    requires state != Playing
    ensures state == Won ==> v == 1
    ensures state == Draw ==> v == 0
    ensures state == Lost || state == Resigned ==> v == -1
  {
    match state
    case Won => 1
    case Draw => 0
    case Lost => -1
    case Resigned => -1
  }

  class Player {
    const name: string
    /** Fixed at construction; indexed [first player's answer][second player's answer]. */
    const possibleOutcomes: PayoffTable
    var answer: Option<Move>
    var state: PlayerState
    /** The explicitly set outcome, if any. */
    var outcome: Option<int>

    /** The player's fields as one value. */
    function View(): PlayerView
      reads this
    {
      PlayerView(name, possibleOutcomes, answer, state, outcome)
    }

    /** A new player: no answer yet, still playing, no outcome. */
    constructor (name: string, possibleOutcomes: PayoffTable)
      ensures View() == PlayerView(name, possibleOutcomes, None, Playing, None)
    {
      this.name := name;
      this.possibleOutcomes := possibleOutcomes;
      answer := None;
      state := Playing;
      outcome := None;
    }

    /** The copy constructor: every field equal to the source's, the table shared. */
    constructor Copy(source: Player)
      ensures View() == source.View()
    {
      name := source.name;
      possibleOutcomes := source.possibleOutcomes;
      answer := source.answer;
      state := source.state;
      outcome := source.outcome;
    }

    /** `equals`: same name, state, outcome, answer and table. */
    predicate Equals(other: Player)
      reads this, other
      ensures Equals(other) <==>
        name == other.name && possibleOutcomes == other.possibleOutcomes &&
        answer == other.answer && state == other.state && outcome == other.outcome
    {
      View() == other.View()
    }

    /** `deepCopy`: an equal but distinct player. */
    method DeepCopy() returns (copy: Player)
      ensures fresh(copy) && copy.Equals(this)
    {
      copy := new Player.Copy(this);
    }

    /** `setAnswer`: an answer can be given once; a second one is refused and changes nothing. */
    method SetAnswer(newAnswer: Move) returns (r: Outcome<Error>)
      modifies this`answer
      ensures old(answer).None? ==> r == Pass && answer == Some(newAnswer)
      ensures old(answer).Some? ==> r == Fail(AnswerAlreadyGiven(name)) && answer == old(answer)
    {
      if answer.Some? {
        return Fail(AnswerAlreadyGiven(name));
      }
      answer := Some(newAnswer);
      r := Pass;
    }

    /** `setState` of the framework's player. */
    method SetState(newState: PlayerState)
      modifies this`state
      ensures state == newState
    {
      state := newState;
    }

    /** `setOutcome` of the framework's player: refused while the player is still playing. */
    method SetOutcome(newOutcome: int) returns (r: Outcome<Error>)
      modifies this`outcome
      ensures old(state) == Playing ==> r == Fail(OutcomeWhilePlaying) && outcome == old(outcome)
      ensures old(state) != Playing ==> r == Pass && outcome == Some(newOutcome)
    {
      if state == Playing {
        return Fail(OutcomeWhilePlaying);
      }
      outcome := Some(newOutcome);
      r := Pass;
    }

    /**
     * `getOutcome` of the framework's player: nothing while playing, the explicit
     * outcome once one was set, and otherwise the default for the state.
     */
    function GetOutcome(): (r: Option<int>)
      reads this
      ensures r.None? <==> state == Playing
      ensures state != Playing && outcome.Some? ==> r == outcome
      ensures state != Playing && outcome.None? ==> r == Some(DefaultOutcome(state))
    {
      if state == Playing then None
      else if outcome.Some? then outcome
      else Some(DefaultOutcome(state))
    }
  }
}
