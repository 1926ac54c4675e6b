/**
 * The game state: exactly two players with different names, the query for the
 * players that still owe an answer, and the resolution of the round once both
 * have answered.
 */
module States {
  import opened Wrappers
  import opened Domain
  import opened Players
  import opened LinkedMaps

  /** `outcomeToState`: the sign of a payoff decides won, lost or draw. */
  function OutcomeToState(outcome: int): (s: PlayerState)
    ensures s == Won <==> outcome > 0
    ensures s == Lost <==> outcome < 0
    ensures s == Draw <==> outcome == 0
  {
    if outcome > 0 then Won else if outcome < 0 then Lost else Draw
  }

  /** A player after resolution: the state derived from the payoff, and the payoff as outcome. */
  function Resolve(p: PlayerView, payoff: int): PlayerView
  {
    p.(state := OutcomeToState(payoff), outcome := Some(payoff))
  }

  /** Both players after a call of `nextTurn`, and whether it returned or threw. */
  datatype Round = Round(first: PlayerView, second: PlayerView, result: Outcome<Error>)

  /**
   * What `nextTurn` does to the two players. Nothing happens while either has no
   * answer. Otherwise BOTH tables are looked up at [first answer][second answer];
   * a missing payoff throws, the first player's one before anything is written,
   * the second player's one after the first player was resolved.
   */
  function Turn(first: PlayerView, second: PlayerView): Round
  {
    if first.answer.None? || second.answer.None? then Round(first, second, Pass)
    else
      var a1, a2 := first.answer.value, second.answer.value;
      match Lookup(first.possibleOutcomes, a1, a2)
      case None => Round(first, second, Fail(NullPointer))
      case Some(v1) =>
        match Lookup(second.possibleOutcomes, a1, a2)
        case None => Round(Resolve(first, v1), second, Fail(NullPointer))
        case Some(v2) => Round(Resolve(first, v1), Resolve(second, v2), Pass)
  }

  class State {
    const first: Player
    const second: Player

    /** The invariant the constructor establishes: the two names differ. */
    predicate Valid()
    {
      first.name != second.name
    }

    /** The constructor for names already known to differ. */
    constructor (first: Player, second: Player)
      requires first.name != second.name
      ensures Valid() && this.first == first && this.second == second
    {
      this.first := first;
      this.second := second;
    }

    /** The checking constructor: a null player or two players with the same name are refused. */
    static method Create(first: Player?, second: Player?) returns (r: Result<State, Error>)
      ensures first == null || second == null ==> r == Failure(NullPointer)
      ensures first != null && second != null && first.name == second.name ==> r == Failure(SameName(first.name))
      ensures first != null && second != null && first.name != second.name ==>
        r.Success? && fresh(r.value) && r.value.Valid() &&
        r.value.first == first && r.value.second == second
    {
      if first == null || second == null {
        return Failure(NullPointer);
      }
      if first.name == second.name {
        return Failure(SameName(first.name));
      }
      var s := new State(first, second);
      r := Success(s);
    }

    /** The copy constructor: both players deep-copied. */
    constructor Copy(source: State)
      requires source.Valid()
      ensures Valid() && fresh(first) && fresh(second)
      ensures first.View() == source.first.View() && second.View() == source.second.View()
    {
      var f := new Player.Copy(source.first);
      var s := new Player.Copy(source.second);
      first := f;
      second := s;
    }

    /** `equals`: slot by slot. */
    predicate Equals(other: State)
      reads first, second, other.first, other.second
      ensures Equals(other) <==> first.Equals(other.first) && second.Equals(other.second)
    {
      first.View() == other.first.View() && second.View() == other.second.View()
    }

    /** `deepCopy`: an equal state whose players are new objects. */
    method DeepCopy() returns (copy: State)
      requires Valid()
      ensures fresh(copy) && fresh(copy.first) && fresh(copy.second)
      ensures copy.Valid() && copy.Equals(this)
    {
      copy := new State.Copy(this);
    }

    /** `getPlayers`: each name mapped to its player, the first player's entry first. */
    method GetPlayers() returns (result: LinkedMap<string, Player>)
      requires Valid()
      ensures Keys(result) == [first.name, second.name]
      ensures Get(result, first.name) == Some(first) && Get(result, second.name) == Some(second)
    {
      result := [];
      result := Put(result, first.name, first);
      result := Put(result, second.name, second);
    }

    /**
     * `computeNextPlayers`: exactly the players without an answer, the first
     * before the second; empty once both have answered.
     */
    method ComputeNextPlayers() returns (pending: seq<Player>)
      requires Valid()
      ensures forall p :: p in pending <==> (p == first && first.answer.None?) || (p == second && second.answer.None?)
      ensures first.answer.None? && second.answer.None? ==> pending == [first, second]
      ensures pending == [] <==> first.answer.Some? && second.answer.Some?
      ensures |pending| == (if first.answer.None? then 1 else 0) + (if second.answer.None? then 1 else 0)
    {
      pending := [];
      if first.answer.None? {
        pending := pending + [first];
      }
      if second.answer.None? {
        pending := pending + [second];
      }
    }

    /**
     * `nextTurn`: resolves the round as `Turn` describes, writing only the state
     * and outcome of the two players.
     */
    method NextTurn() returns (r: Outcome<Error>)
      requires Valid()
      modifies first`state, first`outcome, second`state, second`outcome
      ensures Round(first.View(), second.View(), r) == Turn(old(first.View()), old(second.View()))
    {
      var pending := ComputeNextPlayers();
      if pending == [] {
        var a1 := first.answer.value;
        var a2 := second.answer.value;
        var outcomeOfFirstPlayer := Lookup(first.possibleOutcomes, a1, a2);
        if outcomeOfFirstPlayer.None? {
          return Fail(NullPointer);
        }
        first.SetState(OutcomeToState(outcomeOfFirstPlayer.value));
        var set1 := first.SetOutcome(outcomeOfFirstPlayer.value);
        var outcomeOfSecondPlayer := Lookup(second.possibleOutcomes, a1, a2);
        if outcomeOfSecondPlayer.None? {
          return Fail(NullPointer);
        }
        second.SetState(OutcomeToState(outcomeOfSecondPlayer.value));
        var set2 := second.SetOutcome(outcomeOfSecondPlayer.value);
      }
      r := Pass;
    }
  }

  /** While a player has no answer, `nextTurn` changes nothing and throws nothing. */
  lemma TurnWaitsForBothAnswers(first: PlayerView, second: PlayerView)
    requires first.answer.None? || second.answer.None?
    ensures Turn(first, second) == Round(first, second, Pass)
  {
  }

  /**
   * Once both have answered a1 and a2, each player's outcome is its own table's
   * payoff at [a1][a2] (the first player's answer first, for both players), and
   * its state follows the payoff's sign.
   */
  lemma TurnResolvesAtFirstAnswerSecondAnswer(first: PlayerView, second: PlayerView, a1: Move, a2: Move)
    requires first.answer == Some(a1) && second.answer == Some(a2)
    requires Present(first.possibleOutcomes, a1, a2) && Present(second.possibleOutcomes, a1, a2)
    ensures Turn(first, second).result == Pass
    ensures Turn(first, second).first.outcome == first.possibleOutcomes[a1][a2]
    ensures Turn(first, second).second.outcome == second.possibleOutcomes[a1][a2]
    ensures Turn(first, second).first.state == OutcomeToState(first.possibleOutcomes[a1][a2].value)
    ensures Turn(first, second).second.state == OutcomeToState(second.possibleOutcomes[a1][a2].value)
  {
  }

  /** `nextTurn` never changes a name, a table or an answer. */
  lemma TurnKeepsNamesTablesAndAnswers(first: PlayerView, second: PlayerView)
    ensures Turn(first, second).first.(state := first.state, outcome := first.outcome) == first
    ensures Turn(first, second).second.(state := second.state, outcome := second.outcome) == second
  {
  }

  /** Calling `nextTurn` again writes the same states and outcomes and gives the same result. */
  lemma TurnIsIdempotent(first: PlayerView, second: PlayerView)
    ensures var r := Turn(first, second); Turn(r.first, r.second) == r
  {
  }

  /**
   * Resolution depends only on the two answers and the two tables: players that
   * agree on those are resolved to the same states and outcomes, whatever they
   * held before.
   */
  lemma TurnDependsOnlyOnAnswersAndTables(first: PlayerView, second: PlayerView, first': PlayerView, second': PlayerView)
    requires first.answer.Some? && second.answer.Some?
    requires first.answer == first'.answer && second.answer == second'.answer
    requires first.possibleOutcomes == first'.possibleOutcomes && second.possibleOutcomes == second'.possibleOutcomes
    ensures Turn(first, second).result == Turn(first', second').result
    ensures Turn(first, second).result == Pass ==>
      Turn(first, second).first.state == Turn(first', second').first.state &&
      Turn(first, second).first.outcome == Turn(first', second').first.outcome &&
      Turn(first, second).second.state == Turn(first', second').second.state &&
      Turn(first, second).second.outcome == Turn(first', second').second.outcome
  {
  }

  /** The framework's default outcome of a finished player has the sign its state stands for. */
  lemma DefaultOutcomeFollowsSignLaw(state: PlayerState)
    requires state != Playing
    ensures OutcomeToState(DefaultOutcome(state)) == if state == Resigned then Lost else state
  {
  }

  /** Swapping the two players gives a state that is not equal to the original. */
  lemma SwappedStateIsUnequal(s: State, swapped: State)
    requires s.Valid() && swapped.first == s.second && swapped.second == s.first
    ensures !s.Equals(swapped)
  {
  }
}
