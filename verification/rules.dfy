/**
 * The combat and progression rules, as pure functions.
 *
 * Every draw of `Math.random()` is an explicit integer roll: for a positive `a`,
 * `floor(random * a / 2)` takes exactly the values `k` with `HalfRoll(k, a)`, and
 * `floor(random * a)` exactly those with `FullRoll(k, a)`. Every strength in play is
 * positive (at least 5). Dafny's `/` by 2 is the floor division the source's
 * `Math.floor(a / 2)` computes, negative operands included.
 */
module Rules {
  import opened Catalog

  predicate HalfRoll(k: int, a: int) { 0 <= k && 2 * k < a }

  predicate FullRoll(k: int, a: int) { 0 <= k < a }

  function Max(a: int, b: int): int { if a >= b then a else b }

  function Min(a: int, b: int): int { if a <= b then a else b }

  /**
   * What happens next, as the source announces it: the action menu, the victory or
   * the defeat. `PlayerTurn` also stands for a command that leaves the player's turn
   * open without showing the menu again (Power Strike without the ability).
   */
  datatype Outcome = PlayerTurn | Victory | Defeat

  // ---------------------------------------------------------------------------
  // Damage and heal formulas

  /**
   * A plain hit of strength `a`: the player's attack and every enemy turn. It always
   * does at least 1 damage, at least half the strength, and at most the strength minus
   * one (one for a strength of 1).
   */
  function HitDamage(roll: int, a: int): (d: int)
    requires HalfRoll(roll, a)
    ensures 1 <= d && a / 2 <= d
    ensures d <= Max(a - 1, 1)
  {
    Max(roll + a / 2, 1)
  }

  /** Power Strike: never less than the attack stat and less than twice it. */
  function PowerStrikeDamage(roll: int, attack: int): (d: int)
    requires FullRoll(roll, attack)
    ensures attack <= d < 2 * attack
  {
    Max(roll + attack, 1)
  }

  /**
   * The hit taken while defending: never negative, never more than the undefended
   * hit with the same roll, and nothing at all once twice the defence reaches the
   * monster's attack minus one.
   */
  function DefendDamage(roll: int, monsterAttack: int, defense: int): (d: int)
    requires HalfRoll(roll, monsterAttack)
    ensures 0 <= d
    ensures 0 <= defense ==> d <= HitDamage(roll, monsterAttack)
    ensures monsterAttack - 1 <= 2 * defense ==> d == 0
  {
    Max(roll + monsterAttack / 2 - defense * 2, 0)
  }

  /** The health a potion restores: its percentage of the maximum health. */
  function HealAmount(maxHealth: int): int {
    maxHealth * HEALTH_POTION.healPercent / 100
  }

  /**
   * The source multiplies by the float 0.75. Whenever the maximum health is a
   * multiple of 4 (it is always 80 + 20 * level) that product is a whole number,
   * and it equals the integer heal used here.
   */
  lemma HealIsExact(maxHealth: int)
    requires maxHealth % 4 == 0
    ensures (maxHealth * HEALTH_POTION.healPercent) % 100 == 0
    ensures HealAmount(maxHealth) * 4 == maxHealth * 3
  {
    var q := maxHealth / 4;
    assert maxHealth * HEALTH_POTION.healPercent == 100 * (3 * q);
  }

  /**
   * For every player state that satisfies the invariant, the potion heal is exactly
   * three quarters of the maximum health, with no rounding.
   */
  lemma HealIsExactForEveryPlayer(v: Vitals)
    requires VitalsOk(v)
    ensures v.maxHealth % 4 == 0
    ensures (v.maxHealth * HEALTH_POTION.healPercent) % 100 == 0
    ensures HealAmount(v.maxHealth) * 4 == v.maxHealth * 3
  {
    assert v.maxHealth == 4 * (20 + 5 * v.level);
    HealIsExact(v.maxHealth);
  }

  /** Drinking a potion: health rises by the heal, capped at the maximum. */
  function PotionHeal(health: int, maxHealth: int): (h: int)
    requires health <= maxHealth && 0 <= maxHealth
    ensures health <= h <= maxHealth
    ensures h <= health + HealAmount(maxHealth)
    ensures h == maxHealth || h == health + HealAmount(maxHealth)
  {
    Min(maxHealth, health + HealAmount(maxHealth))
  }

  // ---------------------------------------------------------------------------
  // Progression

  /** The player fields the outcome check, the enemy turn and the level-up change. */
  datatype Vitals = Vitals(health: int, maxHealth: int, level: int, experience: int, currency: int)

  /** Experience needed to leave `level`. */
  function Threshold(level: int): int { level * 100 }

  /** What holds of the player between commands. */
  predicate VitalsOk(v: Vitals) {
    1 <= v.level && v.maxHealth == 80 + 20 * v.level && v.health <= v.maxHealth &&
    0 <= v.experience < Threshold(v.level) && 0 <= v.currency
  }

  /** `checkLevelUp`: one check, at most one level gained. */
  function LevelUp(v: Vitals): (w: Vitals)
    ensures w.level == v.level + 1 <==> v.experience >= Threshold(v.level)
    ensures w.level == v.level || w.level == v.level + 1
    ensures w.level != v.level ==> w.experience == v.experience - Threshold(v.level)
    ensures w.level != v.level ==> w.maxHealth == v.maxHealth + 20 && w.health == w.maxHealth
    ensures w.level == v.level ==> w == v
    ensures w.currency == v.currency
  {
    var needed := Threshold(v.level);
    if v.experience >= needed then
      Vitals(v.maxHealth + 20, v.maxHealth + 20, v.level + 1, v.experience - needed, v.currency)
    else v
  }

  /** One check suffices exactly when the experience is below two thresholds: the first direction. */
  lemma LevelUpSettles(v: Vitals)
    requires 1 <= v.level && 0 <= v.experience < Threshold(v.level) + Threshold(v.level + 1)
    ensures 0 <= LevelUp(v).experience < Threshold(LevelUp(v).level)
  {
  }

  /** The other direction: from two thresholds on, the single check leaves the player over the next one. */
  lemma LevelUpDoesNotCascade(v: Vitals)
    requires 1 <= v.level && v.experience >= Threshold(v.level) + Threshold(v.level + 1)
    ensures LevelUp(v).experience >= Threshold(LevelUp(v).level)
  {
  }

  /** A level-up keeps the maximum health at 80 + 20 * level and the health within it. */
  lemma LevelUpKeepsHealthShape(v: Vitals)
    requires v.maxHealth == 80 + 20 * v.level && v.health <= v.maxHealth
    ensures LevelUp(v).maxHealth == 80 + 20 * LevelUp(v).level
    ensures LevelUp(v).health <= LevelUp(v).maxHealth
  {
  }

  /** Victory: the monster's experience and gold are added, then the level-up check runs. */
  function Reward(v: Vitals, m: Monster): (w: Vitals)
    ensures w.currency == v.currency + m.gold
    ensures w.level == v.level || w.level == v.level + 1
    ensures w.level == v.level + 1 <==> v.experience + m.experience >= Threshold(v.level)
    ensures w.level == v.level ==>
      w.experience == v.experience + m.experience && w.health == v.health && w.maxHealth == v.maxHealth
    ensures w.level != v.level ==>
      w.experience == v.experience + m.experience - Threshold(v.level) &&
      w.maxHealth == v.maxHealth + 20 && w.health == w.maxHealth
  {
    LevelUp(v.(experience := v.experience + m.experience, currency := v.currency + m.gold))
  }

  /**
   * Because no reward exceeds 100 experience (the catalog's largest is 50), the
   * single level-up check restores `experience < level * 100` after every victory.
   */
  lemma RewardKeepsVitalsOk(v: Vitals, m: Monster)
    requires VitalsOk(v)
    requires 0 <= m.experience <= 100 && 0 <= m.gold
    ensures VitalsOk(Reward(v, m))
  {
    var gained := v.(experience := v.experience + m.experience, currency := v.currency + m.gold);
    LevelUpSettles(gained);
    LevelUpKeepsHealthShape(gained);
  }

  // ---------------------------------------------------------------------------
  // Turn resolution

  /** `enemyTurn`: the monster hits once; the player keeps the turn exactly when health stays positive. */
  function EnemyStrike(v: Vitals, monsterAttack: int, roll: int): (r: (Vitals, Outcome))
    requires HalfRoll(roll, monsterAttack)
    ensures r.0 == v.(health := v.health - HitDamage(roll, monsterAttack))
    ensures r.0.health < v.health
    ensures r.1 != Victory
    ensures r.1 == PlayerTurn <==> r.0.health > 0
  {
    var health := v.health - HitDamage(roll, monsterAttack);
    (v.(health := health), if health > 0 then PlayerTurn else Defeat)
  }

  /**
   * `checkCombatOutcome`: victory exactly when the monster is down, with its reward and
   * no enemy turn; otherwise no reward, and the player either is already defeated
   * (nothing changes) or takes exactly one enemy hit.
   */
  function Resolve(v: Vitals, m: Monster, roll: int): (r: (Vitals, Outcome))
    requires HalfRoll(roll, m.attack)
    ensures r.1 == Victory <==> m.health <= 0
    ensures r.1 == Victory ==> r.0 == Reward(v, m)
    ensures m.health > 0 ==> r.0 == v.(health := r.0.health) && r.0.health <= v.health
    ensures m.health > 0 && v.health <= 0 ==> r.0 == v && r.1 == Defeat
    ensures m.health > 0 && 0 < v.health ==> r.0.health == v.health - HitDamage(roll, m.attack)
    ensures r.1 == PlayerTurn <==> m.health > 0 && r.0.health > 0
  {
    if m.health <= 0 then (Reward(v, m), Victory)
    else if v.health <= 0 then (v, Defeat)
    else EnemyStrike(v, m.attack, roll)
  }

  /** Every turn resolution keeps the player's invariant, for the monsters of the catalog. */
  lemma ResolveKeepsVitalsOk(v: Vitals, m: Monster, roll: int)
    requires VitalsOk(v) && HalfRoll(roll, m.attack)
    requires 0 <= m.experience <= 100 && 0 <= m.gold
    ensures VitalsOk(Resolve(v, m, roll).0)
  {
  }
}
