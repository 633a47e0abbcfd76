/**
 * The character model (character.helper.ts): base attributes, the combat
 * stats derived from them, bonuses, life bookkeeping and level progression.
 *
 * A `CharacterHelper` instance is an immutable `Character` value here; each
 * mutating method is a function from the old value to the new one.
 */
module Characters {
  import opened Wrappers
  import opened JsNumber
  import opened Levels

  datatype Character = Character(
    // base attributes
    level: int,
    resistance: int,
    strength: int,
    speed: int,
    // combat stats derived from the base attributes
    totalLife: int,
    attackSkill: int,
    defenseSkill: int,
    dodgeSkill: int,
    damageResistance: int,
    // difficulty modifier
    modifier: int,
    // bonuses
    attackBonus: int,
    defenseBonus: int,
    dodgeBonus: int,
    damageBonus: int,
    // life
    lifePoints: int,
    percentageLifePoints: Ratio,
    knockdown: bool)

  /** The plain `Character` record: every field may be left undefined. */
  datatype CharacterData = CharacterData(
    level: Option<int>,
    strength: Option<int>,
    speed: Option<int>,
    resistance: Option<int>,
    attackSkill: Option<int>,
    defenseSkill: Option<int>,
    dodgeSkill: Option<int>,
    modifier: Option<int>,
    attackBonus: Option<int>,
    defenseBonus: Option<int>,
    dodgeBonus: Option<int>,
    damageBonus: Option<int>,
    damageResistance: Option<int>,
    totalLife: Option<int>,
    lifePoints: Option<int>)

  /** The partial record of `applyTemporaryModifiers`/`removeTemporaryModifiers`. */
  datatype Modifiers = Modifiers(
    attackBonus: Option<int>,
    defenseBonus: Option<int>,
    dodgeBonus: Option<int>,
    damageBonus: Option<int>,
    modifier: Option<int>)

  // ---------------------------------------------------------------------
  // Formulas
  // ---------------------------------------------------------------------

  /** Life formula shared by `calculateAttributes` and `calculateTotalLife`. */
  function LifeFormula(strength: int, resistance: int, level: int): int {
    CeilHalf(strength) + resistance + level + 10
  }

  /** `calculateTotalLife`. */
  function CalculateTotalLife(c: Character): (r: int)
    ensures 2 * (r - c.resistance - c.level - 10) - 1 <= c.strength <= 2 * (r - c.resistance - c.level - 10)
  {
    LifeFormula(c.strength, c.resistance, c.level)
  }

  /** The derived combat stats agree with the base attributes. */
  predicate Derived(c: Character) {
    && c.totalLife == LifeFormula(c.strength, c.resistance, c.level)
    && c.attackSkill == c.strength + c.level
    && c.defenseSkill == c.resistance + c.level
    && c.dodgeSkill == c.speed + c.level
    && c.damageResistance == CeilHalf(c.resistance)
  }

  /** The guarded percentage of `updatePercentageLife`: 0 unless total life is positive. */
  function PercentageOf(lifePoints: int, totalLife: int): (r: Ratio)
    ensures r.Finite?
    ensures totalLife > 0 ==> r.value * totalLife as real == lifePoints as real
    ensures totalLife <= 0 ==> r.value == 0.0
  {
    if totalLife > 0 then Divide(lifePoints, totalLife) else Finite(0.0)
  }

  /** The stored percentage is the one `updatePercentageLife` would store. */
  predicate Synced(c: Character) {
    c.percentageLifePoints == PercentageOf(c.lifePoints, c.totalLife)
  }

  /** Life points stay between 0 and the total. */
  predicate LifeInRange(c: Character) {
    0 <= c.lifePoints <= c.totalLife
  }

  /** `updatePercentageLife`. */
  function UpdatePercentageLife(c: Character): (r: Character)
    ensures Synced(r)
    ensures r.totalLife > 0 ==> r.percentageLifePoints.value * r.totalLife as real == r.lifePoints as real
    ensures r.totalLife <= 0 ==> r.percentageLifePoints == Finite(0.0)
    ensures r.(percentageLifePoints := c.percentageLifePoints) == c
  {
    c.(percentageLifePoints := PercentageOf(c.lifePoints, c.totalLife))
  }

  /** `calculateAttributes`. */
  function CalculateAttributes(c: Character): (r: Character)
    ensures Derived(r) && Synced(r)
    ensures r.lifePoints == (if c.lifePoints == 0 then r.totalLife else c.lifePoints)
    ensures r.level == c.level && r.strength == c.strength
    ensures r.speed == c.speed && r.resistance == c.resistance
    ensures r.modifier == c.modifier && r.knockdown == c.knockdown
    ensures r.attackBonus == c.attackBonus && r.defenseBonus == c.defenseBonus
    ensures r.dodgeBonus == c.dodgeBonus && r.damageBonus == c.damageBonus
  {
    var derived := c.(
      totalLife := LifeFormula(c.strength, c.resistance, c.level),
      attackSkill := c.strength + c.level,
      defenseSkill := c.resistance + c.level,
      dodgeSkill := c.speed + c.level,
      damageResistance := CeilHalf(c.resistance));
    var refilled := if derived.lifePoints == 0 then derived.(lifePoints := derived.totalLife) else derived;
    UpdatePercentageLife(refilled)
  }

  /** Recomputing twice changes nothing the first recomputation did not. */
  lemma CalculateAttributesIdempotent(c: Character)
    ensures CalculateAttributes(CalculateAttributes(c)) == CalculateAttributes(c)
  {
  }

  /** The derived stats depend on the base attributes alone, not on stale stored values. */
  lemma DerivedStatsDependOnBaseOnly(c: Character, d: Character)
    requires c.level == d.level && c.strength == d.strength
    requires c.speed == d.speed && c.resistance == d.resistance
    ensures CalculateAttributes(c).totalLife == CalculateAttributes(d).totalLife
    ensures CalculateAttributes(c).attackSkill == CalculateAttributes(d).attackSkill
    ensures CalculateAttributes(c).defenseSkill == CalculateAttributes(d).defenseSkill
    ensures CalculateAttributes(c).dodgeSkill == CalculateAttributes(d).dodgeSkill
    ensures CalculateAttributes(c).damageResistance == CalculateAttributes(d).damageResistance
  {
  }

  /** Recomputing does not clamp: lowering an attribute can leave life above the new total. */
  lemma RecomputeDoesNotClamp()
    ensures var c := SetAttributes(InitializeDefault(), 0, 1, 0);
            c.lifePoints == 13 && c.totalLife == 11 && !LifeInRange(c)
  {
    var d := InitializeDefault();
    assert d.lifePoints == 13;
    var c := SetAttributes(d, 0, 1, 0);
    assert c.totalLife == LifeFormula(0, 0, 1) == 11;
  }

  // ---------------------------------------------------------------------
  // Construction
  // ---------------------------------------------------------------------

  /** `initializeFromData`: copy each defined field, fall back where undefined. */
  function InitializeFromData(d: CharacterData): (r: Character)
    ensures r.level == d.level.GetOr(1)
    ensures r.strength == d.strength.GetOr(0) && r.speed == d.speed.GetOr(0)
    ensures r.resistance == d.resistance.GetOr(0)
    ensures d.totalLife.None? ==> r.totalLife == LifeFormula(r.strength, r.resistance, r.level)
    ensures d.totalLife.Some? ==> r.totalLife == d.totalLife.value
    ensures d.lifePoints.None? ==> r.lifePoints == r.totalLife
    ensures d.lifePoints.Some? ==> r.lifePoints == d.lifePoints.value
    ensures r.percentageLifePoints == Divide(r.lifePoints, r.totalLife)
    ensures r.totalLife != 0 ==>
              r.percentageLifePoints.Finite? && r.percentageLifePoints.value * r.totalLife as real == r.lifePoints as real
    ensures r.totalLife == 0 && r.lifePoints == 0 ==> r.percentageLifePoints.NaN?
    ensures r.totalLife == 0 && r.lifePoints != 0 ==> r.percentageLifePoints == Infinity(r.lifePoints < 0)
    ensures r.attackSkill == d.attackSkill.GetOr(0) && r.defenseSkill == d.defenseSkill.GetOr(0)
    ensures r.dodgeSkill == d.dodgeSkill.GetOr(0) && r.damageResistance == d.damageResistance.GetOr(0)
    ensures r.modifier == d.modifier.GetOr(0)
    ensures r.attackBonus == d.attackBonus.GetOr(0) && r.defenseBonus == d.defenseBonus.GetOr(0)
    ensures r.dodgeBonus == d.dodgeBonus.GetOr(0) && r.damageBonus == d.damageBonus.GetOr(0)
    ensures !r.knockdown
  {
    var level := d.level.GetOr(1);
    var strength := d.strength.GetOr(0);
    var resistance := d.resistance.GetOr(0);
    var totalLife := d.totalLife.GetOr(LifeFormula(strength, resistance, level));
    var lifePoints := d.lifePoints.GetOr(totalLife);
    Character(
      level := level,
      resistance := resistance,
      strength := strength,
      speed := d.speed.GetOr(0),
      totalLife := totalLife,
      attackSkill := d.attackSkill.GetOr(0),
      defenseSkill := d.defenseSkill.GetOr(0),
      dodgeSkill := d.dodgeSkill.GetOr(0),
      damageResistance := d.damageResistance.GetOr(0),
      modifier := d.modifier.GetOr(0),
      attackBonus := d.attackBonus.GetOr(0),
      defenseBonus := d.defenseBonus.GetOr(0),
      dodgeBonus := d.dodgeBonus.GetOr(0),
      damageBonus := d.damageBonus.GetOr(0),
      lifePoints := lifePoints,
      percentageLifePoints := Divide(lifePoints, totalLife),
      knockdown := false)
  }

  /** The field initialisers of `CharacterHelper`, before the constructor body runs. */
  function Blank(): Character {
    Character(
      level := 1, resistance := 0, strength := 0, speed := 0,
      totalLife := 0, attackSkill := 0, defenseSkill := 0, dodgeSkill := 0, damageResistance := 0,
      modifier := 0, attackBonus := 0, defenseBonus := 0, dodgeBonus := 0, damageBonus := 0,
      lifePoints := 0, percentageLifePoints := Finite(1.0), knockdown := false)
  }

  /** `initializeDefault`: level 1 with strength, speed and resistance 1, at full life. */
  function InitializeDefault(): (r: Character)
    ensures r.level == 1 && r.strength == 1 && r.speed == 1 && r.resistance == 1
    ensures Derived(r) && Synced(r)
    ensures r.totalLife == 13 && r.lifePoints == 13 && r.percentageLifePoints == Finite(1.0)
    ensures r.attackSkill == 2 && r.defenseSkill == 2 && r.dodgeSkill == 2 && r.damageResistance == 1
    ensures r.modifier == 0 && r.attackBonus == 0 && r.defenseBonus == 0
    ensures r.dodgeBonus == 0 && r.damageBonus == 0 && !r.knockdown
  {
    var c := CalculateAttributes(Blank().(level := 1, resistance := 1, strength := 1, speed := 1));
    var total := CalculateTotalLife(c);
    c.(totalLife := total, lifePoints := total, percentageLifePoints := Finite(1.0), knockdown := false)
  }

  /** `new CharacterHelper(data?)`. */
  function New(data: Option<CharacterData>): (r: Character)
    ensures data.None? ==> r == InitializeDefault()
    ensures data.Some? ==> r == InitializeFromData(data.value)
    ensures !r.knockdown
  {
    match data
    case Some(d) => InitializeFromData(d)
    case None => InitializeDefault()
  }

  /** A character seen as the plain record it is read through by `initializeFromData`. */
  function Describe(c: Character): CharacterData {
    CharacterData(
      level := Some(c.level), strength := Some(c.strength), speed := Some(c.speed),
      resistance := Some(c.resistance), attackSkill := Some(c.attackSkill),
      defenseSkill := Some(c.defenseSkill), dodgeSkill := Some(c.dodgeSkill),
      modifier := Some(c.modifier), attackBonus := Some(c.attackBonus),
      defenseBonus := Some(c.defenseBonus), dodgeBonus := Some(c.dodgeBonus),
      damageBonus := Some(c.damageBonus), damageResistance := Some(c.damageResistance),
      totalLife := Some(c.totalLife), lifePoints := Some(c.lifePoints))
  }

  /** `clone`: a copy of every numeric field, with knockdown cleared and the percentage re-divided. */
  function Clone(c: Character): (r: Character)
    ensures r.(percentageLifePoints := c.percentageLifePoints, knockdown := c.knockdown) == c
    ensures !r.knockdown
    ensures r.percentageLifePoints == Divide(c.lifePoints, c.totalLife)
  {
    New(Some(Describe(c)))
  }

  /** A clone of a character whose stats are consistent is equal to it, up to knockdown. */
  lemma CloneOfConsistent(c: Character)
    requires Synced(c) && c.totalLife > 0
    ensures Clone(c) == c.(knockdown := false)
  {
  }

  // ---------------------------------------------------------------------
  // Setters and bonuses
  // ---------------------------------------------------------------------

  /** `setAttributes`: new base attributes, then recomputation. */
  function SetAttributes(c: Character, strength: int, speed: int, resistance: int): (r: Character)
    ensures r.strength == strength && r.speed == speed && r.resistance == resistance
    ensures r.level == c.level
    ensures Derived(r) && Synced(r)
    ensures r.lifePoints == (if c.lifePoints == 0 then r.totalLife else c.lifePoints)
    ensures r.modifier == c.modifier && r.knockdown == c.knockdown
    ensures r.attackBonus == c.attackBonus && r.defenseBonus == c.defenseBonus
    ensures r.dodgeBonus == c.dodgeBonus && r.damageBonus == c.damageBonus
  {
    CalculateAttributes(c.(strength := strength, speed := speed, resistance := resistance))
  }

  /** `setLevel`: a new level, then recomputation. */
  function SetLevel(c: Character, level: int): (r: Character)
    ensures r.level == level
    ensures Derived(r) && Synced(r)
    ensures r.strength == c.strength && r.speed == c.speed && r.resistance == c.resistance
    ensures r.lifePoints == (if c.lifePoints == 0 then r.totalLife else c.lifePoints)
    ensures r.modifier == c.modifier && r.knockdown == c.knockdown
    ensures r.attackBonus == c.attackBonus && r.defenseBonus == c.defenseBonus
    ensures r.dodgeBonus == c.dodgeBonus && r.damageBonus == c.damageBonus
  {
    CalculateAttributes(c.(level := level))
  }

  /** `setModifier`. */
  function SetModifier(c: Character, modifier: int): (r: Character)
    ensures r.modifier == modifier
    ensures r.(modifier := c.modifier) == c
  {
    c.(modifier := modifier)
  }

  /** `addBonus`: each bonus grows by its argument (default 0). */
  function AddBonus(c: Character, attackBonus: int := 0, defenseBonus: int := 0,
                    dodgeBonus: int := 0, damageBonus: int := 0): (r: Character)
    ensures r.attackBonus - c.attackBonus == attackBonus
    ensures r.defenseBonus - c.defenseBonus == defenseBonus
    ensures r.dodgeBonus - c.dodgeBonus == dodgeBonus
    ensures r.damageBonus - c.damageBonus == damageBonus
    ensures r.(attackBonus := c.attackBonus, defenseBonus := c.defenseBonus,
               dodgeBonus := c.dodgeBonus, damageBonus := c.damageBonus) == c
  {
    c.(attackBonus := c.attackBonus + attackBonus,
       defenseBonus := c.defenseBonus + defenseBonus,
       dodgeBonus := c.dodgeBonus + dodgeBonus,
       damageBonus := c.damageBonus + damageBonus)
  }

  /** Bonuses are added and removed in matched pairs: the negated call undoes the first. */
  lemma AddBonusUndo(c: Character, a: int, d: int, g: int, m: int)
    ensures AddBonus(AddBonus(c, a, d, g, m), -a, -d, -g, -m) == c
  {
  }

  /**
   * What an optional modifier field contributes: `if (modifiers.x)` skips an
   * undefined or zero field, and skipping a zero adds nothing.
   */
  function Amount(o: Option<int>): (r: int)
    ensures o.None? ==> r == 0
    ensures o.Some? ==> r == o.value
  {
    if o.Some? && o.value != 0 then o.value else 0
  }

  /** `applyTemporaryModifiers`. */
  function ApplyTemporaryModifiers(c: Character, m: Modifiers): (r: Character)
    ensures r.attackBonus == c.attackBonus + Amount(m.attackBonus)
    ensures r.defenseBonus == c.defenseBonus + Amount(m.defenseBonus)
    ensures r.dodgeBonus == c.dodgeBonus + Amount(m.dodgeBonus)
    ensures r.damageBonus == c.damageBonus + Amount(m.damageBonus)
    ensures r.modifier == c.modifier + Amount(m.modifier)
    ensures r.(attackBonus := c.attackBonus, defenseBonus := c.defenseBonus, dodgeBonus := c.dodgeBonus,
               damageBonus := c.damageBonus, modifier := c.modifier) == c
  {
    c.(attackBonus := c.attackBonus + Amount(m.attackBonus),
       defenseBonus := c.defenseBonus + Amount(m.defenseBonus),
       dodgeBonus := c.dodgeBonus + Amount(m.dodgeBonus),
       damageBonus := c.damageBonus + Amount(m.damageBonus),
       modifier := c.modifier + Amount(m.modifier))
  }

  /** `removeTemporaryModifiers`. */
  function RemoveTemporaryModifiers(c: Character, m: Modifiers): (r: Character)
    ensures r.attackBonus == c.attackBonus - Amount(m.attackBonus)
    ensures r.defenseBonus == c.defenseBonus - Amount(m.defenseBonus)
    ensures r.dodgeBonus == c.dodgeBonus - Amount(m.dodgeBonus)
    ensures r.damageBonus == c.damageBonus - Amount(m.damageBonus)
    ensures r.modifier == c.modifier - Amount(m.modifier)
    ensures r.(attackBonus := c.attackBonus, defenseBonus := c.defenseBonus, dodgeBonus := c.dodgeBonus,
               damageBonus := c.damageBonus, modifier := c.modifier) == c
  {
    c.(attackBonus := c.attackBonus - Amount(m.attackBonus),
       defenseBonus := c.defenseBonus - Amount(m.defenseBonus),
       dodgeBonus := c.dodgeBonus - Amount(m.dodgeBonus),
       damageBonus := c.damageBonus - Amount(m.damageBonus),
       modifier := c.modifier - Amount(m.modifier))
  }

  /** A temporary effect applied and then removed leaves the character exactly as it was. */
  lemma TemporaryModifiersRoundTrip(c: Character, m: Modifiers)
    ensures RemoveTemporaryModifiers(ApplyTemporaryModifiers(c, m), m) == c
    ensures ApplyTemporaryModifiers(RemoveTemporaryModifiers(c, m), m) == c
  {
  }

  // ---------------------------------------------------------------------
  // Life
  // ---------------------------------------------------------------------

  /** `fullHeal`. */
  function FullHeal(c: Character): (r: Character)
    ensures r.lifePoints == r.totalLife
    ensures r.percentageLifePoints == Finite(1.0)
    ensures !r.knockdown
    ensures r.totalLife > 0 ==> Synced(r)
    ensures r.(lifePoints := c.lifePoints, percentageLifePoints := c.percentageLifePoints,
               knockdown := c.knockdown) == c
  {
    c.(lifePoints := c.totalLife, percentageLifePoints := Finite(1.0), knockdown := false)
  }

  /** `isAlive`. */
  function IsAlive(c: Character): (b: bool)
    ensures b <==> c.lifePoints > 0
    ensures LifeInRange(c) ==> (b <==> c.lifePoints != 0)
  {
    c.lifePoints > 0
  }

  /** `isCritical`: the stored percentage is below a quarter. */
  function IsCritical(c: Character): (b: bool)
    ensures c.percentageLifePoints.Finite? ==> (b <==> c.percentageLifePoints.value < 0.25)
    ensures c.percentageLifePoints.NaN? ==> !b
    ensures c.percentageLifePoints.Infinity? ==> (b <==> c.percentageLifePoints.negative)
  {
    c.percentageLifePoints.Below(0.25)
  }

  /** With an up-to-date percentage, a character is critical exactly below a quarter of its life. */
  lemma IsCriticalBelowQuarter(c: Character)
    requires Synced(c) && c.totalLife > 0
    ensures IsCritical(c) <==> 4 * c.lifePoints < c.totalLife
  {
    QuarterThreshold(c.percentageLifePoints.value, c.lifePoints, c.totalLife);
  }

  /** Multiplying by a positive number keeps the sign. */
  lemma SignOfProduct(a: real, b: real)
    requires b > 0.0
    ensures a < 0.0 <==> a * b < 0.0
  {
  }

  /** For a percentage `v` of `l` over a positive total `t`, `v < 0.25` exactly when `4l < t`. */
  lemma QuarterThreshold(v: real, l: int, t: int)
    requires t > 0 && v * t as real == l as real
    ensures v < 0.25 <==> 4 * l < t
  {
    var tr := t as real;
    var w := 4.0 * v - 1.0;
    assert w * tr == 4.0 * (l as real) - tr;
    SignOfProduct(w, tr);
  }

  // ---------------------------------------------------------------------
  // Level table and auxiliary formulas
  // ---------------------------------------------------------------------

  /** `getLevelData`. */
  function GetLevelData(c: Character, table: LevelTable): (r: Option<LevelEntry>)
    ensures r.Some? ==> r.value in table && r.value.level == c.level
    ensures r.None? <==> forall i :: 0 <= i < |table| ==> table[i].level != c.level
  {
    Find(table, c.level)
  }

  /** `calculateLevelModifier`: the entry's modifier, or 0 when the level is missing. */
  function CalculateLevelModifier(c: Character, table: LevelTable): (r: int)
    ensures GetLevelData(c, table).None? ==> r == 0
    ensures GetLevelData(c, table).Some? ==> r == GetLevelData(c, table).value.modifier
  {
    match GetLevelData(c, table)
    case Some(e) => e.modifier
    case None => 0
  }

  /** `getDamageDice`: the entry's dice count, or 1 when the level is missing. */
  function GetDamageDice(c: Character, table: LevelTable): (r: int)
    ensures GetLevelData(c, table).None? ==> r == 1
    ensures GetLevelData(c, table).Some? ==> r == GetLevelData(c, table).value.dice
  {
    match GetLevelData(c, table)
    case Some(e) => e.dice
    case None => 1
  }

  /** `calculateAdvancedAttributes`: pull the modifier from the table when listed, then recompute. */
  function CalculateAdvancedAttributes(c: Character, table: LevelTable): (r: Character)
    ensures Derived(r) && Synced(r)
    ensures GetLevelData(c, table).Some? ==> r.modifier == GetLevelData(c, table).value.modifier
    ensures GetLevelData(c, table).None? ==> r.modifier == c.modifier
    ensures r.level == c.level && r.strength == c.strength
    ensures r.speed == c.speed && r.resistance == c.resistance
    ensures r.lifePoints == (if c.lifePoints == 0 then r.totalLife else c.lifePoints)
    ensures r.knockdown == c.knockdown
    ensures r.attackBonus == c.attackBonus && r.defenseBonus == c.defenseBonus
    ensures r.dodgeBonus == c.dodgeBonus && r.damageBonus == c.damageBonus
  {
    var withModifier := match GetLevelData(c, table)
      case Some(e) => c.(modifier := e.modifier)
      case None => c;
    CalculateAttributes(withModifier)
  }

  /** `calculateInitiative`: speed, half the strength rounded down, and level. */
  function CalculateInitiative(c: Character): (r: int)
    ensures 2 * (r - c.speed - c.level) <= c.strength <= 2 * (r - c.speed - c.level) + 1
  {
    c.speed + FloorHalf(c.strength) + c.level
  }

  /** `calculateDodge`: initiative plus level. */
  function CalculateDodge(c: Character): (r: int)
    ensures r == c.speed + FloorHalf(c.strength) + 2 * c.level
  {
    CalculateInitiative(c) + c.level
  }

  /** `calculateBlock`: a third of the strength rounded down, plus level. */
  function CalculateBlock(c: Character): (r: int)
    ensures 3 * (r - c.level) <= c.strength <= 3 * (r - c.level) + 2
  {
    FloorThird(c.strength) + c.level
  }

  /** `calculateMaxFatigue`: resistance, speed and level. */
  function CalculateMaxFatigue(c: Character): (r: int)
    ensures r == c.resistance + c.speed + c.level
  {
    c.resistance + c.speed + c.level
  }

  // ---------------------------------------------------------------------
  // Level up
  // ---------------------------------------------------------------------

  /**
   * `levelUp`: set the level, re-read the table and recompute, then add the
   * level difference to the (already recomputed) total and to current life.
   */
  function LevelUp(c: Character, newLevel: int, table: LevelTable): (r: Character)
    ensures r.level == newLevel
    ensures r.totalLife == LifeFormula(c.strength, c.resistance, newLevel) + (newLevel - c.level)
    ensures c.lifePoints != 0 ==> r.lifePoints == c.lifePoints + (newLevel - c.level)
    ensures c.lifePoints == 0 ==> r.lifePoints == r.totalLife
    ensures Synced(r)
    ensures r.attackSkill == c.strength + newLevel && r.defenseSkill == c.resistance + newLevel
    ensures r.dodgeSkill == c.speed + newLevel && r.damageResistance == CeilHalf(c.resistance)
    ensures Find(table, newLevel).Some? ==> r.modifier == Find(table, newLevel).value.modifier
    ensures Find(table, newLevel).None? ==> r.modifier == c.modifier
    ensures r.strength == c.strength && r.speed == c.speed && r.resistance == c.resistance
    ensures r.attackBonus == c.attackBonus && r.defenseBonus == c.defenseBonus
    ensures r.dodgeBonus == c.dodgeBonus && r.damageBonus == c.damageBonus
    ensures r.knockdown == c.knockdown
  {
    var lifeIncrease := newLevel - c.level;
    var recomputed := CalculateAdvancedAttributes(c.(level := newLevel), table);
    UpdatePercentageLife(recomputed.(totalLife := recomputed.totalLife + lifeIncrease,
                                     lifePoints := recomputed.lifePoints + lifeIncrease))
  }

  /** Raising the level of a consistent character never lowers its life nor overfills it. */
  lemma LevelUpFromDerived(c: Character, newLevel: int, table: LevelTable)
    requires Derived(c) && LifeInRange(c)
    requires newLevel >= c.level
    ensures LifeInRange(LevelUp(c, newLevel, table))
    ensures LevelUp(c, newLevel, table).lifePoints >= c.lifePoints
  {
  }

  /** The level difference is counted twice: the total ends that far above the formula. */
  lemma LevelUpBreaksDerived(c: Character, newLevel: int, table: LevelTable)
    requires newLevel != c.level
    ensures !Derived(LevelUp(c, newLevel, table))
  {
  }

  /** Level-ups do not compose: 1 to 3 directly gives a larger total than 1 to 2 to 3. */
  lemma LevelUpPathDependent()
    ensures LevelUp(InitializeDefault(), 3, []).totalLife == 17
    ensures LevelUp(LevelUp(InitializeDefault(), 2, []), 3, []).totalLife == 16
  {
  }

  /** After a full heal, a second level-up leaves life points above total life. */
  lemma LevelUpCanOverfill()
    ensures var c := LevelUp(FullHeal(LevelUp(InitializeDefault(), 3, [])), 4, []);
            c.lifePoints == 18 && c.totalLife == 17 && !LifeInRange(c)
  {
  }
}
