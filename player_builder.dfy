/**
 * The player builder: collects a name and a payoff table and builds a player only
 * when the table defines all four combinations of answers.
 */
module PlayerBuilders {
  import opened Wrappers
  import opened Domain
  import opened Players

  /** `checkPossibleOutcome`: the combination (first, second) must have a payoff. */
  function CheckPossibleOutcome(outcomes: PayoffTable, first: Move, second: Move): (r: Outcome<Error>)
    ensures r == Pass <==> Present(outcomes, first, second)
    ensures r != Pass ==> r == Fail(NoOutcomeDefined(first, second))
  {
    if Lookup(outcomes, first, second).None? then Fail(NoOutcomeDefined(first, second)) else Pass
  }

  /**
   * `checkPossibleOutcomes`: checks SNITCH/SNITCH, SNITCH/REMAINSILENT,
   * REMAINSILENT/SNITCH and REMAINSILENT/REMAINSILENT in that order and reports
   * the first combination that is missing; a complete table is returned unchanged.
   */
  function CheckPossibleOutcomes(outcomes: PayoffTable): (r: Result<PayoffTable, Error>)
    ensures r.Success? <==> Complete(outcomes)
    ensures r.Success? ==> r.value == outcomes
    ensures r.Failure? ==>
      r.error.NoOutcomeDefined? &&
      !Present(outcomes, r.error.first, r.error.second) &&
      forall first: Move, second: Move ::
        CellRank(first, second) < CellRank(r.error.first, r.error.second) ==> Present(outcomes, first, second)
  {
    var c1 := CheckPossibleOutcome(outcomes, Snitch, Snitch);
    var c2 := CheckPossibleOutcome(outcomes, Snitch, RemainSilent);
    var c3 := CheckPossibleOutcome(outcomes, RemainSilent, Snitch);
    var c4 := CheckPossibleOutcome(outcomes, RemainSilent, RemainSilent);
    if c1.Fail? then Failure(c1.error)
    else if c2.Fail? then Failure(c2.error)
    else if c3.Fail? then Failure(c3.error)
    else if c4.Fail? then Failure(c4.error)
    else
      FourCellsMakeComplete(outcomes);
      Success(outcomes)
  }

  class PlayerBuilder {
    var name: Option<string>
    var possibleOutcomes: Option<PayoffTable>

    /** A fresh builder knows neither a name nor a table. */
    constructor ()
      ensures name == None && possibleOutcomes == None
    {
      name := None;
      possibleOutcomes := None;
    }

    /** `changeName`: the last name given wins. */
    method ChangeName(newName: string)
      modifies this`name
      ensures name == Some(newName)
    {
      name := Some(newName);
    }

    /** `changePossibleOutcomes`: the last table given wins. */
    method ChangePossibleOutcomes(newPossibleOutcomes: PayoffTable)
      modifies this`possibleOutcomes
      ensures possibleOutcomes == Some(newPossibleOutcomes)
    {
      possibleOutcomes := Some(newPossibleOutcomes);
    }

    /**
     * `build`: a missing name, then a missing table, then the first missing
     * combination is reported; otherwise a new player with exactly the given name
     * and table.
     */
    method Build() returns (r: Result<Player, Error>)
      ensures name.None? ==> r == Failure(NoSuchElement)
      ensures name.Some? && possibleOutcomes.None? ==> r == Failure(NoSuchElement)
      ensures name.Some? && possibleOutcomes.Some? && !Complete(possibleOutcomes.value) ==>
        r == Failure(CheckPossibleOutcomes(possibleOutcomes.value).error)
      ensures name.Some? && possibleOutcomes.Some? && Complete(possibleOutcomes.value) ==>
        r.Success? && fresh(r.value) &&
        r.value.View() == PlayerView(name.value, possibleOutcomes.value, None, Playing, None)
    {
      if name.None? || possibleOutcomes.None? {
        return Failure(NoSuchElement);
      }
      var checked := CheckPossibleOutcomes(possibleOutcomes.value);
      if checked.Failure? {
        return Failure(checked.error);
      }
      var player := new Player(name.value, checked.value);
      r := Success(player);
    }
  }
}
