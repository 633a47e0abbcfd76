/**
 * The three-dice tier classifier (roll-dice-player.helper.ts) and the
 * result records of result.ts.
 */
module Roll {
  import opened Wrappers
  import opened Dice

  /** The four outcome tiers of a roll. */
  datatype Tier = CriticalFailure | CriticalSuccess | Success | Failure {

    /** SUCCESS or CRITICAL_SUCCESS. */
    predicate Succeeded() {
      this == Success || this == CriticalSuccess
    }

    /** How good the outcome is for the roller, worst first. */
    function Rank(): (r: nat)
      ensures r <= 3
    {
      match this
      case CriticalFailure => 0
      case Failure => 1
      case Success => 2
      case CriticalSuccess => 3
    }
  }

  /** `ResultResponse`: the dice thrown, their total and the tier. */
  datatype RollResult = RollResult(dice: seq<int>, total: int, tier: Tier)

  /** `ResultAttackResponse`: a roll plus the damage it deals. */
  datatype AttackResult = AttackResult(roll: RollResult, damage: int)

  /** `ResultDefenseResponse`: a roll plus an optional damage reduction. */
  datatype DefenseResult = DefenseResult(roll: RollResult, damageResistance: Option<int>)

  const DefaultCriticalFailure: int := 17
  const DefaultCriticalDice: int := 4
  const DiceThrown: int := 3

  /** The `switch (true)` of `roll`: first matching case wins. */
  function Classify(total: int, skill: int, criticalFailure: int, criticalDice: int): (t: Tier)
    ensures t == CriticalFailure <==> total >= criticalFailure
    ensures t == CriticalSuccess <==> total < criticalFailure && total <= criticalDice
    ensures t == Success <==> total < criticalFailure && criticalDice < total <= skill
    ensures t == Failure <==> total < criticalFailure && criticalDice < total && skill < total
  {
    if total >= criticalFailure then CriticalFailure
    else if total <= criticalDice then CriticalSuccess
    else if total <= skill then Success
    else Failure
  }

  /** `RollDicePlayerHelper.roll(skill, critical_failure, criticalDice)`. */
  function RollAgainst(skill: int, supply: seq<int>,
                       criticalFailure: int := DefaultCriticalFailure,
                       criticalDice: int := DefaultCriticalDice): (r: RollResult)
    requires AllD6(supply)
    requires DiceThrown <= |supply|
    ensures |r.dice| == 3 && AllD6(r.dice)
    ensures r.dice == supply[..3]
    ensures r.total == supply[0] + supply[1] + supply[2]
    ensures 3 <= r.total <= 18
    ensures r.tier == Classify(r.total, skill, criticalFailure, criticalDice)
  {
    var dice := Draw(DiceThrown, supply);
    SumOfThree(dice);
    SumBounds(dice);
    RollResult(dice, Sum(dice), Classify(Sum(dice), skill, criticalFailure, criticalDice))
  }

  /** A higher skill never makes the tier worse, for the same dice and thresholds. */
  lemma ClassifyMonotoneInSkill(total: int, skill: int, skill': int, criticalFailure: int, criticalDice: int)
    requires skill <= skill'
    ensures Classify(total, skill, criticalFailure, criticalDice).Rank()
            <= Classify(total, skill', criticalFailure, criticalDice).Rank()
  {
  }

  /** The tier never depends on the skill at the critical ends of the range. */
  lemma CriticalsIgnoreSkill(total: int, skill: int, skill': int, criticalFailure: int, criticalDice: int)
    requires total >= criticalFailure || total <= criticalDice
    ensures Classify(total, skill, criticalFailure, criticalDice)
            == Classify(total, skill', criticalFailure, criticalDice)
  {
  }

  /** The worked boundaries for skill 10 under the default thresholds. */
  lemma DefaultThresholdExamples()
    ensures Classify(17, 10, DefaultCriticalFailure, DefaultCriticalDice) == CriticalFailure
    ensures Classify(4, 10, DefaultCriticalFailure, DefaultCriticalDice) == CriticalSuccess
    ensures Classify(10, 10, DefaultCriticalFailure, DefaultCriticalDice) == Success
    ensures Classify(11, 10, DefaultCriticalFailure, DefaultCriticalDice) == Failure
    ensures RollAgainst(10, [6, 6, 5]).tier == CriticalFailure
    ensures RollAgainst(10, [1, 1, 2]).tier == CriticalSuccess
  {
  }
}
