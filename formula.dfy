/**
 * CombatFormula: the hit, dodge, counter, damage, escape and steal rules of
 * melee and magic combat. Every random draw is an input: a `real` draw stands
 * for `Random.Range(0.0f, 1.0f)`, a `nat` draw for the generator state behind
 * an integer `Random.Range` (see `Common.RangeInt`). Float arithmetic on the
 * chances is computed exactly on `real`.
 */
module Formula {
  import opened Common

  datatype HitResult = Miss | Dodge | Hit | Critical

  /** The outcome of one attack: its classification and the damage dealt. */
  datatype FormulaResult = FormulaResult(result: HitResult, damage: int)

  /** The tuning constants of the formulas (their values live outside this model). */
  datatype Tuning = Tuning(
    chanceToHit: real,
    chanceToCrit: real,
    chanceToDodge: real,
    counterMultiplier: real,
    escapeChance: real,
    escapeBonus: real,
    chanceToSteal: real,
    stealBonus: int,
    stealMinChance: real,
    stealMaxChance: real)

  /** The four draws one melee attack consumes. */
  datatype MeleeDraws = MeleeDraws(hit: real, dodge: real, damage: nat, crit: nat)

  /** The attacker's chance to hit: the base chance plus half the mean of speed and attack, scaled to 255. */
  function HitChance(t: Tuning, speed: int, attack: int): (c: real)
    ensures speed + attack >= 0 ==> c >= t.chanceToHit
    ensures speed + attack <= 510 ==> c <= t.chanceToHit + 0.5
  {
    t.chanceToHit + (((speed + attack) as real * 0.5) / 255.0) * 0.5
  }

  /**
   * IsHit: a draw at or below the critical chance is a Critical whatever the
   * hit chance; otherwise a draw at or below the hit chance is a Hit, and
   * anything else a Miss. IsHit never answers Dodge.
   */
  function IsHit(t: Tuning, attacker: StatMap, draw: real): (r: HitResult)
    ensures r == Critical <==> draw <= t.chanceToCrit
    ensures r == Hit <==> t.chanceToCrit < draw <= HitChance(t, Get(attacker, Speed), Get(attacker, Attack))
    ensures r == Miss <==> t.chanceToCrit < draw && HitChance(t, Get(attacker, Speed), Get(attacker, Attack)) < draw
  {
    var chance := HitChance(t, Get(attacker, Speed), Get(attacker, Attack));
    var isHit := draw <= chance;
    var isCrit := draw <= t.chanceToCrit;
    if isCrit then Critical else if isHit then Hit else Miss
  }

  /**
   * The target's chance to dodge: the base chance moved by one hundredth per
   * point of the attacker's speed advantage, that advantage clamped to
   * [-10, 10], and floored at 0.
   */
  function DodgeChance(t: Tuning, attackerSpeed: int, targetSpeed: int): (c: real)
    ensures c >= 0.0
    ensures c <= if t.chanceToDodge + 0.1 > 0.0 then t.chanceToDodge + 0.1 else 0.0
    ensures t.chanceToDodge - 0.1 >= 0.0 ==> c >= t.chanceToDodge - 0.1
  {
    var difference := ClampReal((attackerSpeed - targetSpeed) as real, -10.0, 10.0) * 0.01;
    var chance := t.chanceToDodge + difference;
    if chance > 0.0 then chance else 0.0
  }

  function IsDodge(t: Tuning, attacker: StatMap, target: StatMap, draw: real): (r: bool)
    ensures r <==> draw <= DodgeChance(t, Get(attacker, Speed), Get(target, Speed))
    ensures draw < 0.0 ==> r
  {
    draw <= DodgeChance(t, Get(attacker, Speed), Get(target, Speed))
  }

  /**
   * As written, the dodge chance grows with the ATTACKER's speed advantage:
   * a faster attacker is dodged at least as often as a slower one.
   */
  lemma DodgeChanceGrowsWithAttackerSpeed(t: Tuning, slow: int, fast: int, targetSpeed: int)
    requires slow <= fast
    ensures DodgeChance(t, slow, targetSpeed) <= DodgeChance(t, fast, targetSpeed)
  {
  }

  /**
   * IsCounter multiplies the integer `Random.Range(0, 1)`, always 0, by the
   * counter multiplier, so the target counters exactly when its Counter
   * statistic is positive, whatever the draw.
   */
  function IsCounter(t: Tuning, target: StatMap, draw: nat): (r: bool)
    ensures r <==> Get(target, Counter) > 0
  {
    RangeZeroOne(draw);
    (RangeInt(0, 1, draw) as real) * t.counterMultiplier < Get(target, Counter) as real
  }

  /** The attack strength attack² / (attack − defense), with C#'s truncating division. */
  function Strength(attack: int, defense: int): int
    requires attack != defense
  {
    TruncDiv(attack * attack, attack - defense)
  }

  /** For attack > defense ≥ 0 the strength lies between the attack and its square. */
  lemma StrengthBounds(attack: int, defense: int)
    requires attack > defense >= 0
    ensures attack <= Strength(attack, defense) <= attack * attack
  {
    var k := attack - defense;
    var q := Strength(attack, defense);
    assert q >= 0;
    assert q * k <= attack * attack < (q + 1) * k;
    if q < attack {
      MulMonotone(q + 1, attack, k);
      MulMonotone(k, attack, attack);
      assert false;
    }
    MulMonotone(1, k, q);
  }

  lemma MulMonotone(x: int, y: int, k: int)
    requires x <= y && k >= 0
    ensures x * k <= y * k
  {
    assert y * k - x * k == (y - x) * k;
  }

  /**
   * BaseAttack: a draw from [strength, 2·strength) (Unity's integer range).
   * It divides by zero exactly when attack equals the target's defense.
   */
  function BaseAttack(attacker: StatMap, target: StatMap, draw: nat): (r: Result<int>)
    ensures r.Err? <==> Get(attacker, Attack) == Get(target, Defense)
    ensures r.Err? ==> r.fault == DivideByZero
    ensures r.Ok? && Strength(Get(attacker, Attack), Get(target, Defense)) > 0 ==>
              var s := Strength(Get(attacker, Attack), Get(target, Defense));
              s <= r.value < 2 * s
    ensures r.Ok? && Strength(Get(attacker, Attack), Get(target, Defense)) == 0 ==> r.value == 0
  {
    var attack := Get(attacker, Attack);
    var defense := Get(target, Defense);
    if attack == defense then Err(DivideByZero)
    else
      var strength := Strength(attack, defense);
      Ok(RangeInt(strength, strength * 2, draw))
  }

  /** CalculateDamage: the base attack less the target's defense, floored at 0. */
  function CalculateDamage(attacker: StatMap, target: StatMap, draw: nat): (r: Result<int>)
    ensures r.Ok? ==> r.value >= 0
    ensures r.Err? <==> Get(attacker, Attack) == Get(target, Defense)
    ensures r.Ok? ==> r.value == Max(0, BaseAttack(attacker, target, draw).value - Get(target, Defense))
  {
    match BaseAttack(attacker, target, draw)
    case Err(f) => Err(f)
    case Ok(attack) => Ok(Max(0, attack - Get(target, Defense)))
  }

  /** Whenever attack exceeds a non-negative defense, a hit deals at least attack − defense, so at least 1. */
  lemma DamageAtLeastMargin(attacker: StatMap, target: StatMap, draw: nat)
    requires Get(attacker, Attack) > Get(target, Defense) >= 0
    ensures CalculateDamage(attacker, target, draw).Ok?
    ensures CalculateDamage(attacker, target, draw).value >= Get(attacker, Attack) - Get(target, Defense) >= 1
  {
    StrengthBounds(Get(attacker, Attack), Get(target, Defense));
  }

  /**
   * MeleeAttack: a miss from IsHit and a successful dodge both give Miss with
   * no damage (the result is never Dodge); a Hit deals CalculateDamage; a
   * Critical deals CalculateDamage plus one more BaseAttack.
   */
  function MeleeAttack(t: Tuning, attacker: StatMap, target: StatMap, d: MeleeDraws): (r: Result<FormulaResult>)
    ensures r.Ok? ==> r.value.result != Dodge
    ensures r.Ok? && r.value.result == Miss <==>
              IsHit(t, attacker, d.hit) == Miss || IsDodge(t, attacker, target, d.dodge)
    ensures r.Ok? && r.value.result == Miss ==> r.value.damage == 0
    ensures r.Ok? && r.value.result == Hit ==>
              IsHit(t, attacker, d.hit) == Hit && CalculateDamage(attacker, target, d.damage).Ok? &&
              r.value.damage == CalculateDamage(attacker, target, d.damage).value
    ensures r.Ok? && r.value.result == Critical ==>
              IsHit(t, attacker, d.hit) == Critical &&
              CalculateDamage(attacker, target, d.damage).Ok? && BaseAttack(attacker, target, d.crit).Ok? &&
              r.value.damage == CalculateDamage(attacker, target, d.damage).value + BaseAttack(attacker, target, d.crit).value
    ensures r.Err? <==>
              IsHit(t, attacker, d.hit) != Miss && !IsDodge(t, attacker, target, d.dodge) &&
              Get(attacker, Attack) == Get(target, Defense)
  {
    var hit := IsHit(t, attacker, d.hit);
    if hit == Miss then Ok(FormulaResult(Miss, 0))
    else if IsDodge(t, attacker, target, d.dodge) then Ok(FormulaResult(Miss, 0))
    else
      match CalculateDamage(attacker, target, d.damage)
      case Err(f) => Err(f)
      case Ok(damage) =>
        if hit == Hit then Ok(FormulaResult(Hit, damage))
        else
          match BaseAttack(attacker, target, d.crit)
          case Err(f) => Err(f)
          case Ok(extra) => Ok(FormulaResult(Critical, damage + extra))
  }

  /** When attack exceeds a non-negative defense, melee never fails and never heals. */
  lemma MeleeDamageNonNegative(t: Tuning, attacker: StatMap, target: StatMap, d: MeleeDraws)
    requires Get(attacker, Attack) > Get(target, Defense) >= 0
    ensures MeleeAttack(t, attacker, target, d).Ok?
    ensures MeleeAttack(t, attacker, target, d).value.damage >= 0
    ensures MeleeAttack(t, attacker, target, d).value.result == Critical ==>
              MeleeAttack(t, attacker, target, d).value.damage > CalculateDamage(attacker, target, d.damage).value
  {
    StrengthBounds(Get(attacker, Attack), Get(target, Defense));
  }

  /** The sum of the enemies' speeds, accumulated front to back. */
  function SpeedSum(enemies: seq<StatMap>): int
  {
    if enemies == [] then 0 else SpeedSum(enemies[..|enemies| - 1]) + Get(enemies[|enemies| - 1], Speed)
  }

  /** The escape chance: the base chance plus the bonus when the actor outruns the enemies' (truncated) mean speed, minus it otherwise. */
  function EscapeChance(t: Tuning, speed: int, enemies: seq<StatMap>): (c: real)
    requires |enemies| > 0
    ensures c == t.escapeChance + t.escapeBonus || c == t.escapeChance - t.escapeBonus
    ensures c == t.escapeChance + t.escapeBonus <== speed > TruncDiv(SpeedSum(enemies), |enemies|)
    ensures speed <= TruncDiv(SpeedSum(enemies), |enemies|) ==> c == t.escapeChance - t.escapeBonus
  {
    var averageSpeed := TruncDiv(SpeedSum(enemies), |enemies|);
    t.escapeChance + (if speed > averageSpeed then t.escapeBonus else -t.escapeBonus)
  }

  /**
   * CanEscape: sums the enemies' speeds, compares the actor's speed with the
   * mean, and succeeds iff the integer draw `Random.Range(0, 1)` = 0 is at
   * most the escape chance, i.e. iff that chance is non-negative. An empty
   * enemy list divides by zero.
   */
  method CanEscape(t: Tuning, enemies: seq<StatMap>, actor: StatMap, draw: nat) returns (r: Result<bool>)
    ensures r.Err? <==> |enemies| == 0
    ensures r.Err? ==> r.fault == DivideByZero
    ensures r.Ok? ==> (r.value <==> EscapeChance(t, Get(actor, Speed), enemies) >= 0.0)
  {
    var speed := Get(actor, Speed);
    var enemyCount := |enemies|;
    var totalSpeed := 0;
    var i := 0;
    while i < enemyCount
      invariant 0 <= i <= enemyCount
      invariant totalSpeed == SpeedSum(enemies[..i])
    {
      assert enemies[..i + 1][..i] == enemies[..i];
      totalSpeed := totalSpeed + Get(enemies[i], Speed);
      i := i + 1;
    }
    assert enemies[..i] == enemies;
    if enemyCount == 0 {
      return Err(DivideByZero);
    }
    var averageSpeed := TruncDiv(totalSpeed, enemyCount);
    var escapeChance := t.escapeChance;
    escapeChance := escapeChance + if speed > averageSpeed then t.escapeBonus else -t.escapeBonus;
    RangeZeroOne(draw);
    r := Ok(RangeInt(0, 1, draw) as real <= escapeChance);
  }

  /** The steal chance: the base chance, or (bonus + level gap) / 128 clamped to [min, max] when the thief out-levels the target. */
  function StealChance(t: Tuning, attackerLevel: int, targetLevel: int): (c: real)
    ensures attackerLevel <= targetLevel ==> c == t.chanceToSteal
    ensures attackerLevel > targetLevel && t.stealMinChance <= t.stealMaxChance ==>
              t.stealMinChance <= c <= t.stealMaxChance
  {
    if attackerLevel > targetLevel then
      ClampReal(TruncDiv(t.stealBonus + attackerLevel - targetLevel, 128) as real, t.stealMinChance, t.stealMaxChance)
    else t.chanceToSteal
  }

  /** CanSteal succeeds iff the steal chance is non-negative, the integer draw being always 0. */
  function CanSteal(t: Tuning, attackerLevel: int, targetLevel: int, draw: nat): (r: bool)
    ensures r <==> StealChance(t, attackerLevel, targetLevel) >= 0.0
  {
    RangeZeroOne(draw);
    RangeInt(0, 1, draw) as real <= StealChance(t, attackerLevel, targetLevel)
  }

  /** IsHitMagic: the spell hits iff the draw is strictly below the spell's own hit chance. */
  function IsHitMagic(hitChance: real, draw: real): (r: HitResult)
    ensures r == Hit <==> draw < hitChance
    ensures r == Miss <==> draw >= hitChance
  {
    if draw < hitChance then Hit else Miss
  }

  /**
   * MagicAttack: a Hit carries the spell damage, anything else is a Miss with
   * no damage. CalculateSpellDamage is float arithmetic and enters as its
   * integer value `spellDamage`.
   */
  function MagicAttack(hitChance: real, draw: real, spellDamage: int): (r: FormulaResult)
    ensures r.result == Hit || r.result == Miss
    ensures r.result == Hit <==> draw < hitChance
    ensures r.result == Hit ==> r.damage == spellDamage
    ensures r.result == Miss ==> r.damage == 0
  {
    var result := IsHitMagic(hitChance, draw);
    if result == Hit then FormulaResult(Hit, spellDamage) else FormulaResult(result, 0)
  }
}
