# Combat rules engine of meu-galinho, in Dafny

This project models the rules engine of a turn-based rooster-fighting game.
The engine covers:

- the d6 dice primitives (`DiceHelper`);
- the three-dice roll classifier (`RollDicePlayerHelper.roll`), which sorts a
  roll into one of four tiers: CRITICAL_FAILURE, CRITICAL_SUCCESS, SUCCESS or
  FAILURE;
- the character model (`CharacterHelper`): base attributes, derived combat
  stats, bonuses, life bookkeeping, level-table lookups and level-up;
- the fighter (`FigtherHelper`): initiative, attack, special attack, defend,
  dodge, damage, losing and recovering life, revival and reset.

Every class instance becomes an immutable datatype. Every mutating method
becomes a function from the old value to the new one.

Modules:

- `Wrappers`: `Option`, used for the record fields that may be undefined.
- `JsNumber`: the JavaScript arithmetic the engine uses.
  - `Math.ceil` and `Math.floor` of a half or a third. With a positive
    divisor, Dafny's `/` on `int` rounds down, so these are exact for every
    integer, negative ones included.
  - Division. `x / 0` is NaN or ±Infinity, so division yields a `Ratio`.
- `Dice`: dice are inputs. A *supply* is the sequence of values the random
  source would produce next, and throwing `n` dice reads the first
  `max(n, 0)` of them. `Sum` is the left fold of `reduce((s, r) => s + r, 0)`.
- `Roll`: the tier classifier and the result records (`RollResult`,
  `AttackResult`, `DefenseResult`).
- `Levels`: the level table (level, dice, modifier). It is an argument of
  every lookup, and a lookup returns the first matching entry, like
  `Array.find`.
- `Characters`: the character model.
- `Fighters`: the fighter actions and the alive/defeated state machine.

Behaviour kept exactly as the code has it, including where it looks
unintended:

- `recoverLife` does not refresh `percentageLifePoints`. See
  `RecoverLifeLeavesPercentageStale`.
- `levelUp` first recomputes `totalLife`, whose formula already contains the
  new level. It then adds the level difference to it a second time.
  - So the total is path-dependent (`LevelUpPathDependent`).
  - After a full heal, a second level-up leaves `lifePoints > totalLife`
    (`LevelUpCanOverfill`).
  - A level-up to a lower level lowers current life.
- Recomputing the attributes never clamps `lifePoints` to a smaller total
  (`RecomputeDoesNotClamp`).
- `initializeFromData` divides `lifePoints / totalLife` without a guard. A
  total of 0 therefore stores NaN or Infinity as the percentage.
  `updatePercentageLife` does guard, and stores 0.
- `clone` goes through `initializeFromData`, so the copy has `knockdown`
  cleared and its percentage divided again.
- `loseLife`, given a plain SUCCESS together with both a block and a failed
  dodge, applies the hit twice (`BlockAndFailedDodgeHitTwice`).
- Healing does not clear `lose`. A defeated fighter cannot fight again until
  it is revived or reset (`RecoverLifeDoesNotRevive`).

## Model

| member | source | states |
|---|---|---|
| `Dice.RollD6` | src/app/shared/helpers/dice.helper.ts:9-11 | a die shows between 1 and 6 |
| `Dice.RollMultipleD6` | src/app/shared/helpers/dice.helper.ts:18-24 | the loop returns exactly `max(count, 0)` dice, each in 1..6, in the order thrown |
| `Dice.SumBounds` | src/app/shared/helpers/dice.helper.ts:31-33 | n dice sum to between n and 6n |
| `Dice.RollD6Sum` | src/app/shared/helpers/dice.helper.ts:31-33 | the reduce loop computes the sum of the thrown dice; it lies in [count, 6·count], and it is 0 when count ≤ 0 |
| `Dice.D6Sum` | src/app/shared/helpers/dice.helper.ts:31-33 | the total of `count` dice lies in [max(count,0), 6·max(count,0)] |
| `Dice.RollD6WithModifier` | src/app/shared/helpers/dice.helper.ts:40-42 | one die plus m lies in [1+m, 6+m] |
| `Roll.Classify` | src/app/shared/helpers/roll-dice-player.helper.ts:16-33 | exactly one tier per total: CRITICAL_FAILURE iff total ≥ critical_failure; CRITICAL_SUCCESS iff below that and ≤ criticalDice; SUCCESS iff between criticalDice and skill; FAILURE otherwise |
| `Roll.RollAgainst` | src/app/shared/helpers/roll-dice-player.helper.ts:5-39 | three dice are thrown; the record echoes those dice and their total, which lies in 3..18, and carries the classified tier; thresholds default to 17 and 4 |
| `Roll.ClassifyMonotoneInSkill` | src/app/shared/helpers/roll-dice-player.helper.ts:27-33 | a higher skill never gives a worse tier for the same total |
| `Roll.CriticalsIgnoreSkill` | src/app/shared/helpers/roll-dice-player.helper.ts:19-25 | at or past either critical threshold the tier does not depend on skill |
| `Roll.DefaultThresholdExamples` | src/app/shared/helpers/roll-dice-player.helper.ts:8-33 | skill 10 under 17/4: 17 is CRITICAL_FAILURE, 4 CRITICAL_SUCCESS, 10 SUCCESS, 11 FAILURE |
| `Levels.Find` | src/app/shared/helpers/character.helper.ts:228-230 | the lookup returns the first table entry with the level, and returns nothing iff no entry has it |
| `Levels.FindEntry` | src/app/shared/helpers/character.helper.ts:228-230 | with unique levels, looking up an entry's level returns that entry |
| `JsNumber.Divide` | src/app/shared/helpers/character.helper.ts:74 | unguarded division: a finite quotient for a non-zero divisor; otherwise Infinity with the sign of the dividend, or NaN for 0/0 |
| `Characters.CalculateTotalLife` | src/app/shared/helpers/character.helper.ts:143-145 | total life is ceil(strength/2) + resistance + level + 10 |
| `Characters.PercentageOf` | src/app/shared/helpers/character.helper.ts:150-153 | the guarded percentage: lifePoints/totalLife when totalLife > 0, otherwise 0 |
| `Characters.UpdatePercentageLife` | src/app/shared/helpers/character.helper.ts:150-153 | only the percentage changes, and it ends up equal to the guarded quotient |
| `Characters.CalculateAttributes` | src/app/shared/helpers/character.helper.ts:118-138 | the five derived stats follow their formulas; lifePoints becomes totalLife only when it was 0; the percentage is refreshed; base attributes, bonuses, modifier and knockdown are kept |
| `Characters.CalculateAttributesIdempotent` | src/app/shared/helpers/character.helper.ts:118-138 | recomputing twice equals recomputing once |
| `Characters.DerivedStatsDependOnBaseOnly` | src/app/shared/helpers/character.helper.ts:118-131 | the derived stats depend on level, strength, speed and resistance alone |
| `Characters.RecomputeDoesNotClamp` | src/app/shared/helpers/character.helper.ts:132-135 | lowering strength and resistance on a full-life character leaves lifePoints above the new total |
| `Characters.InitializeFromData` | src/app/shared/helpers/character.helper.ts:58-76 | each of the fifteen fields is copied when defined and falls back otherwise (level 1, the others 0); totalLife falls back to the formula and lifePoints to totalLife; the percentage is the unguarded quotient: life/total for a non-zero total, NaN for 0/0, and +Infinity or -Infinity by the sign of life over a zero total; knockdown is false |
| `Characters.InitializeDefault` | src/app/shared/helpers/character.helper.ts:81-91 | the default character has level 1, attributes 1, total life 13 at full life, skills 2, damage resistance 1, percentage 1.0 |
| `Characters.New` | src/app/shared/helpers/character.helper.ts:47-53 | the constructor builds from the record when one is given, otherwise from the defaults |
| `Characters.Clone` | src/app/shared/helpers/character.helper.ts:221-223 | a clone copies every numeric field, clears knockdown and re-divides the percentage |
| `Characters.CloneOfConsistent` | src/app/shared/helpers/character.helper.ts:221-223 | a clone of a character with an up-to-date percentage and positive total life equals it with knockdown cleared |
| `Characters.SetAttributes` | src/app/shared/helpers/character.helper.ts:158-163 | the new base attributes are stored, the level is kept, the derived stats follow from them, lifePoints is kept (refilled only from 0), the percentage is refreshed, and the modifier, the four bonuses and knockdown are kept |
| `Characters.SetLevel` | src/app/shared/helpers/character.helper.ts:168-171 | the new level is stored, the base attributes are kept, the derived stats follow from them, lifePoints is kept (refilled only from 0), the percentage is refreshed, and the modifier, the four bonuses and knockdown are kept |
| `Characters.SetModifier` | src/app/shared/helpers/character.helper.ts:191-193 | only the modifier changes |
| `Characters.AddBonus` | src/app/shared/helpers/character.helper.ts:176-186 | each bonus grows by its argument and nothing else changes |
| `Characters.AddBonusUndo` | src/app/shared/helpers/character.helper.ts:176-186 | adding the negated bonuses undoes an `addBonus` |
| `Characters.Amount` | src/app/shared/helpers/character.helper.ts:323-327 | a field that is undefined or 0 contributes nothing; any other value contributes itself |
| `Characters.ApplyTemporaryModifiers` | src/app/shared/helpers/character.helper.ts:316-328 | the four bonuses and the modifier grow by the given amounts, and nothing else changes |
| `Characters.RemoveTemporaryModifiers` | src/app/shared/helpers/character.helper.ts:333-345 | the four bonuses and the modifier shrink by the given amounts, and nothing else changes |
| `Characters.TemporaryModifiersRoundTrip` | src/app/shared/helpers/character.helper.ts:316-345 | applying and then removing the same record, in either order, restores the character exactly |
| `Characters.FullHeal` | src/app/shared/helpers/character.helper.ts:198-202 | lifePoints becomes totalLife, the percentage becomes 1.0 and knockdown is cleared; nothing else changes |
| `Characters.IsAlive` | src/app/shared/helpers/character.helper.ts:207-209 | alive exactly when life points are above 0, for every character, so -3 life is not alive and 18 over 17 is; for life in range, that is life not 0 |
| `Characters.IsCritical` | src/app/shared/helpers/character.helper.ts:214-216 | JavaScript's `< 0.25` on the stored percentage: a finite value below a quarter, or -Infinity; never NaN |
| `Characters.IsCriticalBelowQuarter` | src/app/shared/helpers/character.helper.ts:214-216 | with an up-to-date percentage, a character is critical iff its life is below a quarter of its total |
| `Characters.GetLevelData` | src/app/shared/helpers/character.helper.ts:228-230 | the entry for the character's level, if the table has one |
| `Characters.CalculateLevelModifier` | src/app/shared/helpers/character.helper.ts:235-238 | the entry's modifier, or 0 when the level is missing |
| `Characters.GetDamageDice` | src/app/shared/helpers/character.helper.ts:243-246 | the entry's dice count, or 1 when the level is missing |
| `Characters.CalculateAdvancedAttributes` | src/app/shared/helpers/character.helper.ts:251-261 | the modifier is taken from the table when the level is listed and kept otherwise; the derived stats are recomputed from the kept base attributes; lifePoints, the four bonuses and knockdown are kept |
| `Characters.CalculateInitiative` | src/app/shared/helpers/character.helper.ts:266-269 | initiative is speed + floor(strength/2) + level |
| `Characters.CalculateDodge` | src/app/shared/helpers/character.helper.ts:274-277 | dodge is initiative + level, that is speed + floor(strength/2) + 2·level |
| `Characters.CalculateBlock` | src/app/shared/helpers/character.helper.ts:282-285 | block is floor(strength/3) + level |
| `Characters.CalculateMaxFatigue` | src/app/shared/helpers/character.helper.ts:290-293 | max fatigue is resistance + speed + level |
| `Characters.LevelUp` | src/app/shared/helpers/character.helper.ts:298-311 | the level becomes n; the total is the formula at n plus (n − old); lifePoints rises by (n − old) when it was non-zero and becomes the new total when it was 0; skills follow n; the modifier follows the table; the percentage is refreshed; strength, speed, resistance, the four bonuses and knockdown are kept |
| `Characters.LevelUpFromDerived` | src/app/shared/helpers/character.helper.ts:298-311 | raising the level of a consistent character keeps life in range and never lowers it |
| `Characters.LevelUpBreaksDerived` | src/app/shared/helpers/character.helper.ts:303-308 | after any real level change, the total is no longer the formula's value |
| `Characters.LevelUpPathDependent` | src/app/shared/helpers/character.helper.ts:303-308 | from the default character, 1→3 gives total 17, but 1→2→3 gives 16 |
| `Characters.LevelUpCanOverfill` | src/app/shared/helpers/character.helper.ts:298-311 | level-up to 3, full heal, then level-up to 4 leaves 18 life points over a total of 17 |
| `Fighters.SelectLevel` | src/app/shared/helpers/fighter.helpers.ts:32-36 | the matching table entry, or `{level, dice 1, modifier 0}` when there is none |
| `Fighters.NewFighter` | src/app/shared/helpers/fighter.helpers.ts:20-37 | the fighter owns a clone (or a fresh character) with advanced attributes computed and its level entry cached; it is not defeated and not knocked down |
| `Fighters.NewFighterFromConsistentTemplate` | src/app/shared/helpers/fighter.helpers.ts:20-30 | a fighter built from a consistent template with an unlisted level carries that template with only knockdown cleared |
| `Fighters.Initiative` | src/app/shared/helpers/fighter.helpers.ts:39-44 | initiative is the base initiative plus three dice, so it lies 3..18 above the base |
| `Fighters.CombatInitiative` | src/app/shared/helpers/fighter.helpers.ts:271-275 | combat initiative equals initiative for the same dice |
| `Fighters.Damage` | src/app/shared/helpers/fighter.helpers.ts:115-137 | 0 on FAILURE or CRITICAL_FAILURE; otherwise, with k dice summing to s: 2k + bonus if s < 2k, else s + level modifier + bonus |
| `Fighters.DamageBounds` | src/app/shared/helpers/fighter.helpers.ts:115-137 | with a non-negative level modifier, a successful hit deals between 2k + bonus and 6k + modifier + bonus |
| `Fighters.DamageNonNegative` | src/app/shared/helpers/fighter.helpers.ts:115-137 | damage is never negative when the bonus and the level modifier are not |
| `Fighters.Attack` | src/app/shared/helpers/fighter.helpers.ts:46-61 | the roll is against attackSkill + attackBonus + modifier + 10 with thresholds 17/4; damage follows the tier and is 0 when the roll failed |
| `Fighters.AttackSpecial` | src/app/shared/helpers/fighter.helpers.ts:63-74 | the roll is against attackSkill + modifier + 8 with thresholds 18/3; damage is computed as for a normal attack |
| `Fighters.AttackBonusHelps` | src/app/shared/helpers/fighter.helpers.ts:46-61 | a larger attack bonus never worsens a normal attack's tier on the same dice |
| `Fighters.AttackSpecialIgnoresAttackBonus` | src/app/shared/helpers/fighter.helpers.ts:63-66 | the special attack's result does not depend on the attack bonus |
| `Fighters.Defend` | src/app/shared/helpers/fighter.helpers.ts:76-103 | the roll is against defenseSkill + defenseBonus + modifier + 10; the reduction is ceil(resistance/2) + damageResistance on SUCCESS, double that on CRITICAL_SUCCESS, and 0 on a failure |
| `Fighters.Dodge` | src/app/shared/helpers/fighter.helpers.ts:105-113 | the roll is against ceil(dodgeSkill/2) + dodgeBonus + modifier + 8, and the result carries no reduction |
| `Fighters.NetDamage` | src/app/shared/helpers/fighter.helpers.ts:152-164 | net damage is the excess over resistance, never negative; at or below resistance it is 1 iff the hit is positive and neither a critical block nor a successful dodge is involved, otherwise 0 |
| `Fighters.NetDamageExamples` | src/app/shared/helpers/fighter.helpers.ts:152-164 | 3 against resistance 5 costs 1, but 0 after a critical block |
| `Fighters.ApplyDamage` | src/app/shared/helpers/fighter.helpers.ts:146-181 | net damage ≥ life defeats (lose set, life 0); otherwise life drops by net and stays positive, and knockdown is set iff net ≥ ceil(total/2) or it was already set; lose is never cleared; the percentage is refreshed; nothing else changes |
| `Fighters.LoseLife` | src/app/shared/helpers/fighter.helpers.ts:139-209 | a failed attack changes nothing; a critical hits in full; on a plain success, a block applies the hit reduced by its `damageResistance` (the floor of 1 waived for a critical block), a failed dodge then applies the full hit, and with neither nothing changes; lose and knockdown are never cleared; life never rises, except to 0 from a negative value |
| `Fighters.CriticalAttackIgnoresDefence` | src/app/shared/helpers/fighter.helpers.ts:183-185 | the block and dodge results do not affect a critical attack |
| `Fighters.DefendReducesHit` | src/app/shared/helpers/fighter.helpers.ts:76-103 | the reduction `defend` rolls is the one `loseLife` subtracts: a plain success against it costs the net damage, or defeats |
| `Fighters.BlockedHitCostsOne` | src/app/shared/helpers/fighter.helpers.ts:187-197 | a plain success of 3 against a non-critical block of 5 costs exactly 1 life point |
| `Fighters.FailedDodgeTakesFullHit` | src/app/shared/helpers/fighter.helpers.ts:199-205 | a failed dodge alone lets the whole hit through |
| `Fighters.BlockAndFailedDodgeHitTwice` | src/app/shared/helpers/fighter.helpers.ts:187-207 | a success with a zero-reduction, non-critical block and a failed dodge costs twice the damage |
| `Fighters.ApplyDamageKeepsConsistent` | src/app/shared/helpers/fighter.helpers.ts:166-180 | one hit keeps life in range, the percentage up to date, and the fighter either alive or defeated; a defeated fighter stays defeated |
| `Fighters.LoseLifeKeepsConsistent` | src/app/shared/helpers/fighter.helpers.ts:139-209 | the same holds for a whole `loseLife`, including the double application |
| `Fighters.DefeatIsExact` | src/app/shared/helpers/fighter.helpers.ts:166-172 | 5 damage on 5 life points defeats without a knockdown |
| `Fighters.KnockdownAtHalf` | src/app/shared/helpers/fighter.helpers.ts:175-180 | with total life 20, a hit of 10 that does not defeat sets knockdown |
| `Fighters.RecoverLife` | src/app/shared/helpers/fighter.helpers.ts:211-220 | life becomes min(total, life + amount), and nothing else changes, the percentage included |
| `Fighters.RecoverLifeLeavesPercentageStale` | src/app/shared/helpers/fighter.helpers.ts:211-220 | a heal that changes life leaves an up-to-date percentage out of date |
| `Fighters.RecoverLifeInRange` | src/app/shared/helpers/fighter.helpers.ts:211-220 | a non-negative heal keeps life in range and never lowers it |
| `Fighters.RecoverLifeDoesNotRevive` | src/app/shared/helpers/fighter.helpers.ts:211-220 | after healing, a defeated fighter still cannot fight |
| `Fighters.NaturalHealing` | src/app/shared/helpers/fighter.helpers.ts:263-266 | natural healing recovers floor(resistance/2) + 1, so it raises the life of a wounded fighter whose resistance is not negative |
| `Fighters.Revive` | src/app/shared/helpers/fighter.helpers.ts:222-226 | life becomes ceil(total/3), lose is cleared and the percentage is refreshed; nothing else changes |
| `Fighters.ReviveRestoresAlive` | src/app/shared/helpers/fighter.helpers.ts:222-226 | a defeated fighter with positive total life comes back alive, consistent and able to fight |
| `Fighters.ReviveExample` | src/app/shared/helpers/fighter.helpers.ts:222-226 | with total life 10, revival gives 4 life points |
| `Fighters.UpdateLevel` | src/app/shared/helpers/fighter.helpers.ts:244-251 | the character levels up and the cached entry is re-read: the table's entry for the new level, or dice 1 and modifier 0; so the cache stays the entry `SelectLevel` gives for the character |
| `Fighters.CanFight` | src/app/shared/helpers/fighter.helpers.ts:256-258 | a fighter can fight exactly when it has life left and is not defeated; for a consistent fighter, exactly when not defeated |
| `Fighters.CanFightWhenConsistent` | src/app/shared/helpers/fighter.helpers.ts:256-258 | for a consistent fighter, `canFight` is exactly the alive state |
| `Fighters.ResetCombatState` | src/app/shared/helpers/fighter.helpers.ts:280-284 | lose and knockdown are cleared and life is full with percentage 1.0; every other character field and the cached entry are kept; the fighter can fight iff its total life is positive |
| `Fighters.GetMaxHP` | src/app/shared/helpers/fighter.helpers.ts:289-291 | max HP is the character's total life; for a consistent fighter it is at least current HP and not negative |
| `Fighters.GetCurrentHP` | src/app/shared/helpers/fighter.helpers.ts:296-298 | current HP is the character's life points; for a consistent fighter it is between 0 and max HP, and 0 exactly when defeated |
| `Fighters.GetHPPercentage` | src/app/shared/helpers/fighter.helpers.ts:303-305 | the stored percentage times 100, stale or not; NaN and ±Infinity pass through unchanged; with an up-to-date percentage it is 100 · life / total |
| `Fighters.HPPercentageIgnoresHeal` | src/app/shared/helpers/fighter.helpers.ts:211-220 | after `recoverLife` the percentage getter still returns the value from before the heal |
| `Fighters.HPGettersAgree` | src/app/shared/helpers/fighter.helpers.ts:289-305 | with an up-to-date percentage and positive max HP, the percentage getter equals 100 · current HP / max HP |
| `Fighters.ScenarioStats` | src/app/shared/helpers/fighter.helpers.ts:20-37 | level 1, strength 4, speed 3, resistance 2 gives life 15, skills 5/3/4, damage resistance 1 and attack target 15 |
| `Fighters.ScenarioAttack` | src/app/shared/helpers/fighter.helpers.ts:46-61 | in that case, dice totalling 10 make a successful attack |

## Left out

- The random source. `Math.random` and its float-to-integer mapping are
  replaced by dice supplied as inputs. Every operation that throws dice
  requires a supply holding enough of them (`Count(n) <= |supply|`), where the
  random source would never run out.
- JavaScript number precision. Integers are unbounded, so values beyond 2^53
  and non-integer attributes are not modelled. Division results are exact
  rationals rather than doubles.
- `null` versus `undefined` in plain records. Both are an absent `Option`
  field, as `??` treats them alike.
- The move list (`listaGolpes`), `getGolpes`, `getStats` and `toJSON`. These
  are display data and plain projections that no formula reads. Because a
  clone does not copy the move list, that detail is not modelled either.
- The contents of levelData.json. The table is a parameter.
- The scene, orchestration, UI components, audio services, routing and the
  debug script. None of them compute combat outcomes.
