/**
 * The game builder factory: the number of players, the bounds and defaults of the
 * values asked from the user, the pattern a player name must match, and the
 * assembly of a player's payoff table from four integers.
 */
module GameBuilderFactory {
  import opened Wrappers
  import opened Domain
  import opened Players
  import opened PlayerBuilders

  const NumberOfPlayers: nat := 2
  /** Smallest allowed maximum computation time per move, in seconds. */
  const MinMaxComputationTimePerMove: int := 1
  /** Largest allowed maximum computation time per move, in seconds. */
  const MaxMaxComputationTimePerMove: int := 3600

  /** Default payoffs offered for a new player, keyed [first answer][second answer]. */
  const DefaultOutcomeOnSnitchSnitch: int := -8
  const DefaultOutcomeOnSnitchStaySilent: int := 0
  const DefaultOutcomeOnStaySilentSnitch: int := -10
  const DefaultOutcomeOnStaySilentStaySilent: int := -1

  function MinimumNumberOfPlayers(): nat { NumberOfPlayers }

  function MaximumNumberOfPlayers(): nat { NumberOfPlayers }

  /** The validators of the time budget: a value in [1, 3600]. */
  predicate IsAllowedMaxComputationTimePerMove(seconds: int)
  {
    MinMaxComputationTimePerMove <= seconds <= MaxMaxComputationTimePerMove
  }

  /** Exactly two players, and a non-empty range of admissible time budgets. */
  lemma FactoryBounds()
    ensures MinimumNumberOfPlayers() == MaximumNumberOfPlayers() == 2
    ensures forall seconds :: IsAllowedMaxComputationTimePerMove(seconds) <==> 1 <= seconds <= 3600
  {
  }

  /** The characters of the regular-expression class `\s`: space, tab, newline, vertical tab, form feed, carriage return. */
  predicate IsWhitespace(c: char)
  {
    c == ' ' || c == '\t' || c == '\n' || c == '\U{000B}' || c == '\U{000C}' || c == '\r'
  }

  /** The states of the automaton of the name pattern `\S+(\s+\S+)*`. */
  datatype NameScan = Start | InWord | InGap | Rejected

  function NameStep(q: NameScan, c: char): NameScan
  {
    match q
    case Start => if IsWhitespace(c) then Rejected else InWord
    case InWord => if IsWhitespace(c) then InGap else InWord
    case InGap => if IsWhitespace(c) then InGap else InWord
    case Rejected => Rejected
  }

  function NameRun(q: NameScan, s: string): NameScan
    decreases s
  {
    if s == [] then q else NameRun(NameStep(q, s[0]), s[1..])
  }

  /** The whole name matches `\S+(\s+\S+)*`. */
  predicate MatchesNamePattern(name: string)
  {
    NameRun(Start, name) == InWord
  }

  lemma {:induction false} RejectedStaysRejected(s: string)
    ensures NameRun(Rejected, s) == Rejected
  {
    if s != [] {
      RejectedStaysRejected(s[1..]);
    }
  }

  /** Once a word has begun, only the last character decides whether the scan ends inside a word. */
  lemma {:induction false} ScanAfterFirstWord(q: NameScan, s: string)
    requires q == InWord || q == InGap
    decreases s
    ensures NameRun(q, s) == if s == [] then q else if IsWhitespace(s[|s| - 1]) then InGap else InWord
  {
    if s != [] {
      ScanAfterFirstWord(NameStep(q, s[0]), s[1..]);
      if |s| > 1 {
        assert s[1..][|s[1..]| - 1] == s[|s| - 1];
      }
    }
  }

  /** A name matches the pattern exactly when it is non-empty and neither starts nor ends with whitespace. */
  lemma NamePatternMeansTrimmedNonEmpty(name: string)
    ensures MatchesNamePattern(name) <==> |name| > 0 && !IsWhitespace(name[0]) && !IsWhitespace(name[|name| - 1])
  {
    if name != [] {
      if IsWhitespace(name[0]) {
        RejectedStaysRejected(name[1..]);
      } else {
        ScanAfterFirstWord(InWord, name[1..]);
        if |name| > 1 {
          assert name[1..][|name[1..]| - 1] == name[|name| - 1];
        }
      }
    }
  }

  /** The table `createPlayer` assembles: one row per first answer, one cell per second answer. */
  function PayoffTableOf(snitchSnitch: int, snitchStaySilent: int, staySilentSnitch: int, staySilentStaySilent: int)
    : PayoffTable
  {
    map[Snitch := map[Snitch := Some(snitchSnitch), RemainSilent := Some(snitchStaySilent)],
        RemainSilent := map[Snitch := Some(staySilentSnitch), RemainSilent := Some(staySilentStaySilent)]]
  }

  /**
   * The assembled table holds each parameter in its cell and nothing else, so it
   * always passes the player builder's completeness check.
   */
  lemma PayoffTableOfIsComplete(ss: int, sr: int, rs: int, rr: int)
    ensures var t := PayoffTableOf(ss, sr, rs, rr);
      Lookup(t, Snitch, Snitch) == Some(ss) && Lookup(t, Snitch, RemainSilent) == Some(sr) &&
      Lookup(t, RemainSilent, Snitch) == Some(rs) && Lookup(t, RemainSilent, RemainSilent) == Some(rr) &&
      t.Keys == {Snitch, RemainSilent} && t[Snitch].Keys == {Snitch, RemainSilent} &&
      t[RemainSilent].Keys == {Snitch, RemainSilent} &&
      Complete(t) && CheckPossibleOutcomes(t) == Success(t)
  {
    var t := PayoffTableOf(ss, sr, rs, rr);
    FourCellsMakeComplete(t);
  }

  /**
   * `createPlayer`: builds the table by successive puts and hands it with the
   * name to the player builder; the build always succeeds.
   */
  method CreatePlayer(playerBuilder: PlayerBuilder, name: string,
                      snitchSnitch: int, snitchStaySilent: int, staySilentSnitch: int, staySilentStaySilent: int)
    returns (r: Result<Player, Error>)
    modifies playerBuilder
    ensures r.Success? && fresh(r.value)
    ensures r.value.View() ==
      PlayerView(name, PayoffTableOf(snitchSnitch, snitchStaySilent, staySilentSnitch, staySilentStaySilent), None, Playing, None)
  {
    var possibleOutcomes: PayoffTable := map[];
    var possibleOutcomesSnitch: map<Move, Option<int>> := map[];
    possibleOutcomesSnitch := possibleOutcomesSnitch[Snitch := Some(snitchSnitch)];
    possibleOutcomesSnitch := possibleOutcomesSnitch[RemainSilent := Some(snitchStaySilent)];
    possibleOutcomes := possibleOutcomes[Snitch := possibleOutcomesSnitch];
    var possibleOutcomesStaySilent: map<Move, Option<int>> := map[];
    possibleOutcomesStaySilent := possibleOutcomesStaySilent[Snitch := Some(staySilentSnitch)];
    possibleOutcomesStaySilent := possibleOutcomesStaySilent[RemainSilent := Some(staySilentStaySilent)];
    possibleOutcomes := possibleOutcomes[RemainSilent := possibleOutcomesStaySilent];
    assert possibleOutcomes == PayoffTableOf(snitchSnitch, snitchStaySilent, staySilentSnitch, staySilentStaySilent);
    PayoffTableOfIsComplete(snitchSnitch, snitchStaySilent, staySilentSnitch, staySilentStaySilent);
    playerBuilder.ChangeName(name);
    playerBuilder.ChangePossibleOutcomes(possibleOutcomes);
    r := playerBuilder.Build();
  }

  /** The table `createPlayer` builds from the four default payoffs of the input dialog. */
  function DefaultPayoffTable(): PayoffTable
  {
    PayoffTableOf(DefaultOutcomeOnSnitchSnitch, DefaultOutcomeOnSnitchStaySilent,
                  DefaultOutcomeOnStaySilentSnitch, DefaultOutcomeOnStaySilentStaySilent)
  }

  /**
   * For the player whose answer is the table's FIRST key: whatever the other
   * answers, snitching pays strictly more than staying silent.
   */
  predicate SnitchingDominatesForFirstPlayer(t: PayoffTable)
  {
    forall other: Move ::
      Present(t, Snitch, other) && Present(t, RemainSilent, other) &&
      Lookup(t, Snitch, other).value > Lookup(t, RemainSilent, other).value
  }

  /**
   * For the player whose answer is the table's SECOND key: whatever the other
   * answers, staying silent pays strictly more than snitching.
   */
  predicate SilenceDominatesForSecondPlayer(t: PayoffTable)
  {
    forall other: Move ::
      Present(t, other, Snitch) && Present(t, other, RemainSilent) &&
      Lookup(t, other, RemainSilent).value > Lookup(t, other, Snitch).value
  }

  /**
   * Read by the first player (their answer is the row), the default table is a
   * prisoner's dilemma: snitching dominates, yet both staying silent beats both
   * snitching. Read by the second player, whose answer is the column because both
   * tables are keyed [first answer][second answer], staying silent dominates
   * instead, so for that player there is no dilemma.
   */
  lemma {:induction false} DefaultPayoffsAreADilemmaOnlyForTheFirstPlayer()
    ensures SnitchingDominatesForFirstPlayer(DefaultPayoffTable())
    ensures var t := DefaultPayoffTable();
      // temptation > reward > punishment > sucker's payoff, for the first player
      Lookup(t, Snitch, RemainSilent).value > Lookup(t, RemainSilent, RemainSilent).value > Lookup(t, Snitch, Snitch).value
        > Lookup(t, RemainSilent, Snitch).value
    ensures SilenceDominatesForSecondPlayer(DefaultPayoffTable())
  {
    var t := DefaultPayoffTable();
    PayoffTableOfIsComplete(DefaultOutcomeOnSnitchSnitch, DefaultOutcomeOnSnitchStaySilent,
                            DefaultOutcomeOnStaySilentSnitch, DefaultOutcomeOnStaySilentStaySilent);
    forall other: Move
      ensures Present(t, Snitch, other) && Present(t, RemainSilent, other) &&
              Lookup(t, Snitch, other).value > Lookup(t, RemainSilent, other).value
      ensures Present(t, other, Snitch) && Present(t, other, RemainSilent) &&
              Lookup(t, other, RemainSilent).value > Lookup(t, other, Snitch).value
    {
      match other { case Snitch => case RemainSilent => }
    }
  }
}
