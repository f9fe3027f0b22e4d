/** Damage resolution for a player attack (calculateDamage in combatSystem.ts). */
module Combat {
  import opened GameTypes

  /** Damage used when the attacker has none (or zero) of its own. */
  const DefaultDamage := 20
  const CriticalHitEffect := "Critical Hit!"

  datatype CombatResult = CombatResult(damage: int, critical: bool, effects: seq<string>)

  /** `attacker.damage || 20`: a missing or zero damage falls back to the default. */
  function BaseDamage(attackerDamage: Option<int>): (b: int)
    ensures b != 0
    ensures attackerDamage.None? ==> b == DefaultDamage
    ensures attackerDamage == Some(0) ==> b == DefaultDamage
    ensures attackerDamage.Some? && attackerDamage.value != 0 ==> b == attackerDamage.value
  {
    match attackerDamage
    case None => DefaultDamage
    case Some(d) => if d == 0 then DefaultDamage else d
  }

  /**
   * calculateDamage with the 10% critical roll (`Math.random() < 0.1`) given as
   * `isCritical`: a critical hit doubles the base damage and reports one effect.
   */
  function CalculateDamage(attackerDamage: Option<int>, isCritical: bool): (r: CombatResult)
    ensures r.critical == isCritical
    ensures r.damage == (if isCritical then 2 else 1) * BaseDamage(attackerDamage)
    ensures |r.effects| == (if isCritical then 1 else 0)
    ensures isCritical ==> r.effects[0] == CriticalHitEffect
  {
    var base := BaseDamage(attackerDamage);
    CombatResult(if isCritical then base * 2 else base, isCritical, if isCritical then [CriticalHitEffect] else [])
  }

  /** A critical hit deals exactly twice what the same attack deals otherwise. */
  lemma CriticalDoublesDamage(attackerDamage: Option<int>)
    ensures CalculateDamage(attackerDamage, true).damage == 2 * CalculateDamage(attackerDamage, false).damage
    ensures CalculateDamage(attackerDamage, true).effects != []
    ensures CalculateDamage(attackerDamage, false).effects == []
  {
  }
}
