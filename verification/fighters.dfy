/**
 * The fighter action layer (fighter.helpers.ts): a fighter owns a copy of a
 * character, rolls initiative, attacks, defends and dodges, and takes,
 * recovers and loses life.
 *
 * Every roll reads its dice from a `supply` argument (see module Dice), and
 * the level table the class reads from its JSON import is an argument.
 */
module Fighters {
  import opened Wrappers
  import opened JsNumber
  import opened Dice
  import opened Roll
  import opened Levels
  import opened Characters

  /** `FigtherHelper`: the owned character, the cached level entry and the defeat flag. */
  datatype Fighter = Fighter(character: Character, selectLevel: LevelEntry, lose: bool)

  /** What the constructor receives: a character helper, or a plain record (or nothing). */
  datatype FighterSource = FromHelper(helper: Character) | FromPlain(data: Option<CharacterData>)

  /** `getLevelData() || { level, dice: 1, modifier: 0 }`. */
  function SelectLevel(c: Character, table: LevelTable): (e: LevelEntry)
    ensures Find(table, c.level).Some? ==> e == Find(table, c.level).value
    ensures Find(table, c.level).None? ==> e == LevelEntry(c.level, 1, 0, None)
    ensures e.level == c.level
  {
    match GetLevelData(c, table)
    case Some(entry) => entry
    case None => LevelEntry(c.level, 1, 0, None)
  }

  /** The constructor: copy the character, recompute its advanced attributes, cache its level entry. */
  function NewFighter(source: FighterSource, table: LevelTable): (f: Fighter)
    ensures source.FromHelper? ==> f.character == CalculateAdvancedAttributes(Clone(source.helper), table)
    ensures source.FromPlain? ==> f.character == CalculateAdvancedAttributes(New(source.data), table)
    ensures f.selectLevel == SelectLevel(f.character, table)
    ensures Derived(f.character) && Synced(f.character)
    ensures !f.lose && !f.character.knockdown
  {
    var copy := match source
      case FromHelper(c) => Clone(c)
      case FromPlain(d) => New(d);
    var character := CalculateAdvancedAttributes(copy, table);
    Fighter(character, SelectLevel(character, table), false)
  }

  /** A fighter built from a consistent template with an unlisted level carries that template, with only knockdown cleared. */
  lemma NewFighterFromConsistentTemplate(c: Character, table: LevelTable)
    requires Derived(c) && Synced(c) && c.totalLife > 0 && c.lifePoints != 0
    requires Find(table, c.level).None?
    ensures NewFighter(FromHelper(c), table).character == c.(knockdown := false)
  {
  }

  // ---------------------------------------------------------------------
  // Rolls
  // ---------------------------------------------------------------------

  /** `initiative`: base initiative plus three dice. */
  function Initiative(f: Fighter, supply: seq<int>): (r: int)
    requires AllD6(supply) && 3 <= |supply|
    ensures r == CalculateInitiative(f.character) + supply[0] + supply[1] + supply[2]
    ensures CalculateInitiative(f.character) + 3 <= r <= CalculateInitiative(f.character) + 18
  {
    SumOfThree(Draw(3, supply));
    CalculateInitiative(f.character) + D6Sum(3, supply)
  }

  /** `calculateCombatInitiative`: the same quantity as `initiative`. */
  function CombatInitiative(f: Fighter, supply: seq<int>): (r: int)
    requires AllD6(supply) && 3 <= |supply|
    ensures r == Initiative(f, supply)
  {
    CalculateInitiative(f.character) + D6Sum(3, supply)
  }

  /** Target skill of `attack`. */
  function AttackTarget(c: Character): int {
    c.attackSkill + c.attackBonus + c.modifier + 10
  }

  /** Target skill of `attackSpecial`: no attack bonus, a smaller constant. */
  function SpecialAttackTarget(c: Character): int {
    c.attackSkill + c.modifier + 8
  }

  /** Target skill of `defend`. */
  function DefendTarget(c: Character): int {
    c.defenseSkill + c.defenseBonus + c.modifier + 10
  }

  /** Target skill of `dodge`: half the dodge skill, rounded up. */
  function DodgeTarget(c: Character): int {
    CeilHalf(c.dodgeSkill) + c.dodgeBonus + c.modifier + 8
  }

  /** Damage dice a fighter throws: the level entry's count, or 1 for an unlisted level. */
  function DamageDiceCount(f: Fighter, table: LevelTable): nat {
    Count(GetDamageDice(f.character, table))
  }

  /**
   * `damage`: nothing on a failed roll; otherwise the level's dice, never less
   * than two per die, plus the level modifier when the dice clear that floor,
   * plus the damage bonus.
   */
  function Damage(f: Fighter, table: LevelTable, tier: Tier, supply: seq<int>): (r: int)
    requires AllD6(supply) && DamageDiceCount(f, table) <= |supply|
    ensures !tier.Succeeded() ==> r == 0
    ensures tier.Succeeded() ==>
              var k := GetDamageDice(f.character, table);
              var s := D6Sum(k, supply);
              r == (if s < 2 * k then 2 * k else s + CalculateLevelModifier(f.character, table)) + f.character.damageBonus
  {
    if tier.Succeeded() then
      var amountDices := GetDamageDice(f.character, table);
      var minDamage := amountDices * 2;
      var valueDices := D6Sum(amountDices, supply);
      var damageSum := valueDices + CalculateLevelModifier(f.character, table);
      if valueDices < minDamage then minDamage + f.character.damageBonus
      else damageSum + f.character.damageBonus
    else
      0
  }

  /**
   * The damage floor: a successful hit deals at least two per die plus the
   * bonus when the level modifier is not negative, and at most six per die
   * plus modifier and bonus.
   */
  lemma DamageBounds(f: Fighter, table: LevelTable, tier: Tier, supply: seq<int>)
    requires AllD6(supply) && DamageDiceCount(f, table) <= |supply|
    requires tier.Succeeded()
    requires CalculateLevelModifier(f.character, table) >= 0
    requires GetDamageDice(f.character, table) >= 0
    ensures var k := GetDamageDice(f.character, table);
            var m := CalculateLevelModifier(f.character, table);
            var b := f.character.damageBonus;
            2 * k + b <= Damage(f, table, tier, supply) <= 6 * k + m + b
  {
  }

  /** Damage is never negative when the bonus and the level modifier are not. */
  lemma DamageNonNegative(f: Fighter, table: LevelTable, tier: Tier, supply: seq<int>)
    requires AllD6(supply) && DamageDiceCount(f, table) <= |supply|
    requires CalculateLevelModifier(f.character, table) >= 0
    requires f.character.damageBonus >= 0
    ensures Damage(f, table, tier, supply) >= 0
  {
    if tier.Succeeded() {
      var k := GetDamageDice(f.character, table);
      assert D6Sum(k, supply) >= 0;
    }
  }

  /** Dice for one attack: three for the roll, then the damage dice. */
  predicate AttackSupply(f: Fighter, table: LevelTable, supply: seq<int>) {
    AllD6(supply) && 3 + DamageDiceCount(f, table) <= |supply|
  }

  /** `attack`: roll against the attack target with thresholds 17/4, then damage. */
  function Attack(f: Fighter, table: LevelTable, supply: seq<int>): (r: AttackResult)
    requires AttackSupply(f, table, supply)
    ensures r.roll == RollAgainst(AttackTarget(f.character), supply, 17, 4)
    ensures r.damage == Damage(f, table, r.roll.tier, supply[3..])
    ensures !r.roll.tier.Succeeded() ==> r.damage == 0
  {
    var roll := RollAgainst(AttackTarget(f.character), supply);
    AttackResult(roll, Damage(f, table, roll.tier, supply[3..]))
  }

  /** `attackSpecial`: roll against the special target with thresholds 18/3, then damage. */
  function AttackSpecial(f: Fighter, table: LevelTable, supply: seq<int>): (r: AttackResult)
    requires AttackSupply(f, table, supply)
    ensures r.roll == RollAgainst(SpecialAttackTarget(f.character), supply, 18, 3)
    ensures r.damage == Damage(f, table, r.roll.tier, supply[3..])
    ensures !r.roll.tier.Succeeded() ==> r.damage == 0
  {
    var roll := RollAgainst(SpecialAttackTarget(f.character), supply, 18, 3);
    AttackResult(roll, Damage(f, table, roll.tier, supply[3..]))
  }

  /** A larger attack bonus never worsens a normal attack's tier on the same dice. */
  lemma AttackBonusHelps(f: Fighter, bonus: int, table: LevelTable, supply: seq<int>)
    requires bonus >= 0
    requires AttackSupply(f, table, supply)
    ensures var g := f.(character := AddBonus(f.character, bonus));
            AttackSupply(g, table, supply)
            && Attack(f, table, supply).roll.tier.Rank() <= Attack(g, table, supply).roll.tier.Rank()
  {
    var g := f.(character := AddBonus(f.character, bonus));
    assert GetDamageDice(g.character, table) == GetDamageDice(f.character, table);
    var t := Attack(f, table, supply).roll.total;
    ClassifyMonotoneInSkill(t, AttackTarget(f.character), AttackTarget(g.character), 17, 4);
  }

  /** The special attack does not read the attack bonus at all. */
  lemma AttackSpecialIgnoresAttackBonus(f: Fighter, bonus: int, table: LevelTable, supply: seq<int>)
    requires AttackSupply(f, table, supply)
    ensures var g := f.(character := f.character.(attackBonus := bonus));
            AttackSupply(g, table, supply)
            && AttackSpecial(g, table, supply) == AttackSpecial(f, table, supply)
  {
    var g := f.(character := f.character.(attackBonus := bonus));
    assert GetDamageDice(g.character, table) == GetDamageDice(f.character, table);
  }

  /** Damage reduction of a block before the roll: half the resistance rounded up, plus damage resistance. */
  function BlockValue(c: Character): int {
    CeilHalf(c.resistance) + c.damageResistance
  }

  /** `defend`: roll against the defence target; the block value, doubled on a critical, nothing on a failure. */
  function Defend(f: Fighter, supply: seq<int>): (r: DefenseResult)
    requires AllD6(supply) && 3 <= |supply|
    ensures r.roll == RollAgainst(DefendTarget(f.character), supply)
    ensures r.damageResistance.Some?
    ensures r.roll.tier == Success ==> r.damageResistance.value == BlockValue(f.character)
    ensures r.roll.tier == CriticalSuccess ==> r.damageResistance.value == 2 * BlockValue(f.character)
    ensures !r.roll.tier.Succeeded() ==> r.damageResistance.value == 0
  {
    var roll := RollAgainst(DefendTarget(f.character), supply);
    var decrease := BlockValue(f.character);
    var doubled := if roll.tier == CriticalSuccess then decrease * 2 else decrease;
    var reduced := if roll.tier == CriticalFailure || roll.tier == Failure then 0 else doubled;
    DefenseResult(roll, Some(reduced))
  }

  /** `dodge`: roll against the dodge target; no damage reduction value. */
  function Dodge(f: Fighter, supply: seq<int>): (r: DefenseResult)
    requires AllD6(supply) && 3 <= |supply|
    ensures r.roll == RollAgainst(DodgeTarget(f.character), supply)
    ensures r.damageResistance.None?
  {
    DefenseResult(RollAgainst(DodgeTarget(f.character), supply), None)
  }

  // ---------------------------------------------------------------------
  // Losing life
  // ---------------------------------------------------------------------

  /**
   * Damage that gets through: what exceeds the resistance, but at least 1
   * for a positive hit unless the block was critical or the dodge succeeded.
   */
  function NetDamage(received: int, resistance: int, blockCritical: bool, dodgeSuccessful: bool): (r: int)
    ensures r >= 0
    ensures received > resistance ==> r == received - resistance
    ensures received <= resistance ==> (r == 1 <==> received > 0 && !blockCritical && !dodgeSuccessful)
    ensures received <= resistance ==> r <= 1
  {
    var net := if received - resistance > 0 then received - resistance else 0;
    if net == 0 && !blockCritical && !dodgeSuccessful && received > 0 then 1 else net
  }

  /** The worked minimum-damage cases: a blocked 3 against 5 still costs 1 unless the block was critical. */
  lemma NetDamageExamples()
    ensures NetDamage(3, 5, false, false) == 1
    ensures NetDamage(3, 5, true, false) == 0
    ensures NetDamage(0, 0, false, false) == 0
  {
  }

  /** The inner `calculateLife` of `loseLife`: apply one hit. */
  function ApplyDamage(f: Fighter, received: int, resistance: int, blockCritical: bool, dodgeSuccessful: bool): (r: Fighter)
    ensures var net := NetDamage(received, resistance, blockCritical, dodgeSuccessful);
            && (net >= f.character.lifePoints ==>
                  r.lose && r.character.lifePoints == 0 && r.character.knockdown == f.character.knockdown)
            && (net < f.character.lifePoints ==>
                  && r.lose == f.lose
                  && r.character.lifePoints == f.character.lifePoints - net
                  && r.character.lifePoints > 0
                  && (r.character.knockdown <==> f.character.knockdown || net >= CeilHalf(f.character.totalLife)))
    ensures r.lose == (f.lose || NetDamage(received, resistance, blockCritical, dodgeSuccessful) >= f.character.lifePoints)
    ensures Synced(r.character)
    ensures r.selectLevel == f.selectLevel
    ensures r.character.(lifePoints := f.character.lifePoints, knockdown := f.character.knockdown,
                         percentageLifePoints := f.character.percentageLifePoints) == f.character
  {
    var c := f.character;
    var net := NetDamage(received, resistance, blockCritical, dodgeSuccessful);
    if net >= c.lifePoints then
      f.(lose := true, character := UpdatePercentageLife(c.(lifePoints := 0)))
    else
      var knocked := if net >= CeilHalf(c.totalLife) then c.(knockdown := true) else c;
      f.(character := UpdatePercentageLife(knocked.(lifePoints := c.lifePoints - net)))
  }

  /** A roll the attacker failed. */
  predicate Failed(t: Tier) {
    t == Failure || t == CriticalFailure
  }

  /**
   * `loseLife`: a critical attack hits in full; a plain success is first
   * reduced by the block (when one is given) and then hits again in full if
   * a dodge is given and failed; a failed attack does nothing.
   */
  function LoseLife(f: Fighter, attack: AttackResult, defend: Option<DefenseResult>, dodge: Option<DefenseResult>): (r: Fighter)
    ensures !attack.roll.tier.Succeeded() ==> r == f
    ensures attack.roll.tier == CriticalSuccess ==> r == ApplyDamage(f, attack.damage, 0, false, false)
    ensures attack.roll.tier == Success && defend.None? && (dodge.None? || !Failed(dodge.value.roll.tier)) ==> r == f
    ensures attack.roll.tier == Success && defend.Some? && (dodge.None? || !Failed(dodge.value.roll.tier)) ==>
              r == ApplyDamage(f, attack.damage, defend.value.damageResistance.GetOr(0),
                               defend.value.roll.tier == CriticalSuccess, false)
    ensures attack.roll.tier == Success && defend.None? && dodge.Some? && Failed(dodge.value.roll.tier) ==>
              r == ApplyDamage(f, attack.damage, 0, false, false)
    ensures attack.roll.tier == Success && defend.Some? && dodge.Some? && Failed(dodge.value.roll.tier) ==>
              r == ApplyDamage(ApplyDamage(f, attack.damage, defend.value.damageResistance.GetOr(0),
                                           defend.value.roll.tier == CriticalSuccess, false),
                               attack.damage, 0, false, false)
    ensures f.lose ==> r.lose
    ensures f.character.knockdown ==> r.character.knockdown
    ensures r.character.lifePoints <= f.character.lifePoints || r.character.lifePoints == 0
    ensures r.selectLevel == f.selectLevel
  {
    match attack.roll.tier
    case CriticalSuccess =>
      ApplyDamage(f, attack.damage, 0, false, false)
    case Success =>
      var afterDefend := match defend
        case Some(d) => ApplyDamage(f, attack.damage, d.damageResistance.GetOr(0), d.roll.tier == CriticalSuccess, false)
        case None => f;
      if dodge.Some? && Failed(dodge.value.roll.tier) then
        ApplyDamage(afterDefend, attack.damage, 0, false, false)
      else
        afterDefend
    case _ => f
  }

  /** No block or dodge result changes what a critical attack does. */
  lemma CriticalAttackIgnoresDefence(f: Fighter, attack: AttackResult, defend: Option<DefenseResult>, dodge: Option<DefenseResult>)
    requires attack.roll.tier == CriticalSuccess
    ensures LoseLife(f, attack, defend, dodge) == LoseLife(f, attack, None, None)
  {
  }

  /**
   * A block rolled by `defend` reaches the hit: a plain success against it,
   * with no dodge, costs the net damage over the block's reduction, or
   * defeats.
   */
  lemma DefendReducesHit(f: Fighter, attack: AttackResult, supply: seq<int>)
    requires AllD6(supply) && 3 <= |supply|
    requires attack.roll.tier == Success
    ensures var d := Defend(f, supply);
            var net := NetDamage(attack.damage, d.damageResistance.value, d.roll.tier == CriticalSuccess, false);
            var r := LoseLife(f, attack, Some(d), None);
            r.character.lifePoints == (if net >= f.character.lifePoints then 0 else f.character.lifePoints - net)
            && (r.lose <==> f.lose || net >= f.character.lifePoints)
  {
  }

  /** A plain success of 3 against a non-critical block of 5 still costs exactly one life point. */
  lemma BlockedHitCostsOne(f: Fighter, attack: AttackResult, defend: DefenseResult)
    requires attack.roll.tier == Success && attack.damage == 3
    requires defend.roll.tier == Success && defend.damageResistance == Some(5)
    requires f.character.lifePoints > 1
    ensures LoseLife(f, attack, Some(defend), None).character.lifePoints == f.character.lifePoints - 1
  {
  }

  /** A failed dodge alone lets the whole hit through. */
  lemma FailedDodgeTakesFullHit(f: Fighter, attack: AttackResult, dodge: DefenseResult)
    requires attack.roll.tier == Success && Failed(dodge.roll.tier)
    requires 0 < attack.damage < f.character.lifePoints
    ensures LoseLife(f, attack, None, Some(dodge)).character.lifePoints == f.character.lifePoints - attack.damage
  {
  }

  /** Given both a block and a failed dodge, a plain success lands twice. */
  lemma BlockAndFailedDodgeHitTwice(f: Fighter, attack: AttackResult, defend: DefenseResult, dodge: DefenseResult)
    requires attack.roll.tier == Success && Failed(dodge.roll.tier)
    requires defend.roll.tier != CriticalSuccess && defend.damageResistance.GetOr(0) == 0
    requires attack.damage > 0 && 2 * attack.damage < f.character.lifePoints
    ensures LoseLife(f, attack, Some(defend), Some(dodge)).character.lifePoints
            == f.character.lifePoints - 2 * attack.damage
  {
  }

  // ---------------------------------------------------------------------
  // The alive / defeated state machine
  // ---------------------------------------------------------------------

  /** Still in the fight: life left and not defeated (possibly knocked down). */
  predicate Alive(f: Fighter) {
    f.character.lifePoints > 0 && !f.lose
  }

  /** Defeated: the terminal state of `loseLife`. */
  predicate Defeated(f: Fighter) {
    f.lose && f.character.lifePoints == 0
  }

  /** Life in range, percentage up to date, and exactly one of alive or defeated. */
  predicate Consistent(f: Fighter) {
    && LifeInRange(f.character)
    && Synced(f.character)
    && (Alive(f) || Defeated(f))
  }

  /** One hit keeps a consistent fighter consistent, and a defeated one defeated. */
  lemma ApplyDamageKeepsConsistent(f: Fighter, received: int, resistance: int, blockCritical: bool, dodgeSuccessful: bool)
    requires Consistent(f)
    ensures Consistent(ApplyDamage(f, received, resistance, blockCritical, dodgeSuccessful))
    ensures Defeated(f) ==> Defeated(ApplyDamage(f, received, resistance, blockCritical, dodgeSuccessful))
  {
  }

  /** Losing life keeps a consistent fighter consistent; defeat is never undone by it. */
  lemma LoseLifeKeepsConsistent(f: Fighter, attack: AttackResult, defend: Option<DefenseResult>, dodge: Option<DefenseResult>)
    requires Consistent(f)
    ensures Consistent(LoseLife(f, attack, defend, dodge))
    ensures Defeated(f) ==> Defeated(LoseLife(f, attack, defend, dodge))
  {
  }

  /** For a consistent fighter, `canFight` is exactly the alive state of the state machine. */
  lemma CanFightWhenConsistent(f: Fighter)
    requires Consistent(f)
    ensures CanFight(f) <==> Alive(f)
  {
  }

  /** Defeat is exact: five damage on five life points defeats, without a knockdown. */
  lemma DefeatIsExact(f: Fighter)
    requires f.character.lifePoints == 5 && !f.character.knockdown
    ensures var r := ApplyDamage(f, 5, 0, false, false);
            r.lose && r.character.lifePoints == 0 && !r.character.knockdown
  {
  }

  /** Knockdown threshold: a hit of exactly half of 20 knocks down a fighter it does not defeat. */
  lemma KnockdownAtHalf(f: Fighter)
    requires f.character.totalLife == 20 && f.character.lifePoints > 10 && !f.lose
    ensures var r := ApplyDamage(f, 10, 0, false, false);
            r.character.knockdown && !r.lose && r.character.lifePoints == f.character.lifePoints - 10
  {
  }

  // ---------------------------------------------------------------------
  // Healing, revival, reset and queries
  // ---------------------------------------------------------------------

  /** `recoverLife`: add life up to the total; the stored percentage is not refreshed. */
  function RecoverLife(f: Fighter, recover: int): (r: Fighter)
    ensures r.character.lifePoints == (if f.character.lifePoints + recover > f.character.totalLife
                                       then f.character.totalLife else f.character.lifePoints + recover)
    ensures r.character.lifePoints <= f.character.totalLife
    ensures r.character.(lifePoints := f.character.lifePoints) == f.character
    ensures r.lose == f.lose && r.selectLevel == f.selectLevel
  {
    var newLifePoints := f.character.lifePoints + recover;
    if newLifePoints > f.character.totalLife then
      f.(character := f.character.(lifePoints := f.character.totalLife))
    else
      f.(character := f.character.(lifePoints := newLifePoints))
  }

  /** Healing that changes life points leaves the stored percentage out of date. */
  lemma RecoverLifeLeavesPercentageStale(f: Fighter, recover: int)
    requires Synced(f.character) && f.character.totalLife > 0
    requires recover > 0 && f.character.lifePoints < f.character.totalLife
    ensures !Synced(RecoverLife(f, recover).character)
  {
    var c := f.character;
    var r := RecoverLife(f, recover).character;
    assert r.lifePoints > c.lifePoints;
  }

  /** Healing keeps life in range when it starts in range and the amount is not negative. */
  lemma RecoverLifeInRange(f: Fighter, recover: int)
    requires LifeInRange(f.character) && recover >= 0
    ensures LifeInRange(RecoverLife(f, recover).character)
    ensures RecoverLife(f, recover).character.lifePoints >= f.character.lifePoints
  {
  }

  /** Healing alone never brings a defeated fighter back into the fight. */
  lemma RecoverLifeDoesNotRevive(f: Fighter, recover: int)
    requires f.lose
    ensures !CanFight(RecoverLife(f, recover))
    ensures RecoverLife(f, recover).character.lifePoints > 0 <==> f.character.lifePoints + recover > 0 && f.character.totalLife > 0
  {
  }

  /** `naturalHealing`: recover half the resistance rounded down, plus one. */
  function NaturalHealing(f: Fighter): (r: Fighter)
    ensures r == RecoverLife(f, FloorHalf(f.character.resistance) + 1)
    ensures f.character.resistance >= 0 && f.character.lifePoints < f.character.totalLife ==>
              r.character.lifePoints > f.character.lifePoints
  {
    RecoverLife(f, FloorHalf(f.character.resistance) + 1)
  }

  /** `revive`: a third of the total life, rounded up, and the defeat flag cleared. */
  function Revive(f: Fighter): (r: Fighter)
    ensures 3 * r.character.lifePoints - 2 <= f.character.totalLife <= 3 * r.character.lifePoints
    ensures !r.lose && Synced(r.character)
    ensures r.character.(lifePoints := f.character.lifePoints,
                         percentageLifePoints := f.character.percentageLifePoints) == f.character
    ensures r.selectLevel == f.selectLevel
  {
    f.(character := UpdatePercentageLife(f.character.(lifePoints := CeilThird(f.character.totalLife))), lose := false)
  }

  /** A defeated fighter with positive total life comes back alive and consistent. */
  lemma ReviveRestoresAlive(f: Fighter)
    requires Defeated(f) && f.character.totalLife > 0
    ensures Alive(Revive(f)) && Consistent(Revive(f))
    ensures CanFight(Revive(f))
  {
  }

  /** Reviving with a total life of 10 gives back 4 life points. */
  lemma ReviveExample(f: Fighter)
    requires f.character.totalLife == 10
    ensures Revive(f).character.lifePoints == 4
  {
  }

  /** `updateLevel`: level the character up and re-read the cached level entry. */
  function UpdateLevel(f: Fighter, newLevel: int, table: LevelTable): (r: Fighter)
    ensures r.character == LevelUp(f.character, newLevel, table)
    ensures r.selectLevel.level == newLevel
    ensures Find(table, newLevel).None? ==> r.selectLevel == LevelEntry(newLevel, 1, 0, None)
    ensures Find(table, newLevel).Some? ==> r.selectLevel == Find(table, newLevel).value
    ensures r.selectLevel == SelectLevel(r.character, table)
    ensures r.lose == f.lose
  {
    var character := LevelUp(f.character, newLevel, table);
    f.(character := character, selectLevel := SelectLevel(character, table))
  }

  /** `canFight`: alive and not defeated. */
  function CanFight(f: Fighter): (b: bool)
    ensures b <==> f.character.lifePoints > 0 && !f.lose
    ensures Consistent(f) ==> (b <==> !f.lose)
  {
    IsAlive(f.character) && !f.lose
  }

  /** `resetCombatState`: defeat and knockdown cleared, full life. */
  function ResetCombatState(f: Fighter): (r: Fighter)
    ensures !r.lose && !r.character.knockdown
    ensures r.character.lifePoints == r.character.totalLife
    ensures r.character.percentageLifePoints == Finite(1.0)
    ensures CanFight(r) <==> f.character.totalLife > 0
    ensures r.character.totalLife > 0 ==> Consistent(r)
    ensures r.character.totalLife == f.character.totalLife && r.selectLevel == f.selectLevel
    ensures r.character.(lifePoints := f.character.lifePoints, percentageLifePoints := f.character.percentageLifePoints,
                         knockdown := f.character.knockdown) == f.character
  {
    f.(lose := false, character := FullHeal(f.character.(knockdown := false)))
  }

  /** `getMaxHP`. */
  function GetMaxHP(f: Fighter): (r: int)
    ensures r == f.character.totalLife
    ensures Consistent(f) ==> r >= f.character.lifePoints && r >= 0
  {
    f.character.totalLife
  }

  /** `getCurrentHP`. */
  function GetCurrentHP(f: Fighter): (r: int)
    ensures r == f.character.lifePoints
    ensures Consistent(f) ==> 0 <= r <= GetMaxHP(f)
    ensures Consistent(f) ==> (r == 0 <==> f.lose)
  {
    f.character.lifePoints
  }

  /** `getHPPercentage`: the stored percentage times 100. */
  function GetHPPercentage(f: Fighter): (r: Ratio)
    ensures f.character.percentageLifePoints.Finite? ==> r == Finite(100.0 * f.character.percentageLifePoints.value)
    ensures !f.character.percentageLifePoints.Finite? ==> r == f.character.percentageLifePoints
    ensures Synced(f.character) && f.character.totalLife > 0 ==>
              r.Finite? && r.value * f.character.totalLife as real == 100.0 * f.character.lifePoints as real
  {
    f.character.percentageLifePoints.Percent()
  }

  /** The three HP getters agree: with an up-to-date percentage, the percentage is 100 · current / max. */
  lemma HPGettersAgree(f: Fighter)
    requires Synced(f.character) && GetMaxHP(f) > 0
    ensures GetHPPercentage(f).Finite?
    ensures GetHPPercentage(f).value * GetMaxHP(f) as real == 100.0 * GetCurrentHP(f) as real
  {
  }

  /** A heal does not move the percentage a caller reads: it shows the value from before the heal. */
  lemma HPPercentageIgnoresHeal(f: Fighter, recover: int)
    ensures GetHPPercentage(RecoverLife(f, recover)) == GetHPPercentage(f)
  {
  }

  /** The record of the worked case: level 1, strength 4, speed 3, resistance 2. */
  function ScenarioData(): CharacterData {
    CharacterData(Some(1), Some(4), Some(3), Some(2), None, None, None, None,
                  None, None, None, None, None, None, None)
  }

  /**
   * The worked case has 15 life, attack 5, defence 3, dodge 4 and damage
   * resistance 1, so its attack target is 15.
   */
  lemma ScenarioStats()
    ensures var f := NewFighter(FromPlain(Some(ScenarioData())), []);
            && f.character.totalLife == 15 && f.character.lifePoints == 15
            && f.character.attackSkill == 5 && f.character.defenseSkill == 3
            && f.character.dodgeSkill == 4 && f.character.damageResistance == 1
            && AttackTarget(f.character) == 15
  {
    var c := New(Some(ScenarioData()));
    assert c.level == 1 && c.strength == 4 && c.speed == 3 && c.resistance == 2;
    assert c.modifier == 0 && c.attackBonus == 0;
    assert c.totalLife == 15 && c.lifePoints == 15;
  }

  /** Dice totalling 10 succeed against an attack target of 15. */
  lemma TenAgainstFifteen(f: Fighter)
    requires AttackTarget(f.character) == 15
    ensures AttackSupply(f, [], [3, 3, 4, 6])
    ensures Attack(f, [], [3, 3, 4, 6]).roll.tier == Success
  {
    var dice: seq<int> := [3, 3, 4, 6];
    assert AllD6(dice);
    var roll := RollAgainst(15, dice);
    assert roll.total == 10;
  }

  /** In the worked case, dice totalling 10 are a successful attack. */
  lemma ScenarioAttack()
    ensures var f := NewFighter(FromPlain(Some(ScenarioData())), []);
            AttackSupply(f, [], [3, 3, 4, 6]) && Attack(f, [], [3, 3, 4, 6]).roll.tier == Success
  {
    ScenarioStats();
    TenAgainstFifteen(NewFighter(FromPlain(Some(ScenarioData())), []));
  }
}
