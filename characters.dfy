/** The combat rules of characters.py: a snapshot of a character's state and, for every
    attack of `Character` and its subclasses, a function from the two snapshots before
    the attack (and the random draws it makes) to the two snapshots after it and the
    damage it reports. The class `Combatants.Combatant` performs the same steps in place. */
module Characters {
  import opened Basics
  import opened Items

  /** The concrete class of a combatant: the player classes, the villains and the
      monsters of MagicalRealm/monsters.py. `Plain` is `Character` itself and
      `PlainMonster` is `Monster` itself. */
  datatype Kind =
    | Plain | Barbarian | Archer | Mage
    | Villain | DarkKnight | DarkArcher | DarkMage
    | PlainMonster | Slime | Goblin | Skeleton | Dragon | Vampire
  {
    /** `isinstance(x, Monster)` */
    predicate IsMonster() { PlainMonster? || Slime? || Goblin? || Skeleton? || Dragon? || Vampire? }

    /** `isinstance(x, Villain)` */
    predicate IsVillain() { Villain? || DarkKnight? || DarkArcher? || DarkMage? }
  }

  /** Every attribute of a character that some operation changes. */
  datatype Stats = Stats(
    kind: Kind,
    hp: int, maxHp: int, mana: int, maxMana: int,
    attack: int, defense: int,
    blocking: bool, dodging: bool,
    level: int, xp: int, xpToLevel: int,
    tier: int, title: string, skills: seq<string>,
    luck: int, attackBoost: int, attackBoostDuration: int,
    equipment: map<Slot, Item>,
    poisonedTarget: bool)

  /** Hit points and mana lie between zero and their maxima. */
  predicate Vital(s: Stats)
  {
    0 <= s.hp <= s.maxHp && 0 <= s.mana <= s.maxMana
  }

  /** `Character.__init__(name, hp, mana, attack, defense)` */
  function Newborn(k: Kind, hp: int, mana: int, attack: int, defense: int): (s: Stats)
    ensures s.hp == s.maxHp == hp && s.mana == s.maxMana == mana
    ensures s.level == 1 && s.xp == 0 && s.xpToLevel == 100 && s.tier == 0 && s.skills == []
    ensures !s.blocking && !s.dodging && s.equipment == map[]
    ensures hp >= 0 && mana >= 0 ==> Vital(s)
  {
    Stats(k, hp, hp, mana, mana, attack, defense, false, false, 1, 0, 100, 0, "", [], 0, 0, 0, map[], false)
  }

  /** The starting snapshot of every character class other than the monsters. */
  function InitialStats(k: Kind): (s: Stats)
    requires !k.IsMonster()
    ensures s.kind == k && Vital(s) && s.level == 1 && s.xp == 0 && s.tier == 0
    ensures s.hp > 0 && s.attack > 0 && s.defense > 0
  {
    match k
    case Plain => Newborn(k, 100, 50, 20, 10)
    case Barbarian => Newborn(k, 150, 30, 25, 8)
    case Archer => Newborn(k, 90, 60, 22, 12)
    case Mage => Newborn(k, 80, 120, 15, 5)
    case Villain => Newborn(k, 120, 50, 22, 12)
    case DarkKnight => Newborn(k, 130, 40, 20, 20)
    case DarkArcher => Newborn(k, 90, 70, 25, 8)
    case DarkMage => Newborn(k, 85, 130, 15, 6)
  }

  /** What an attack leaves behind: both snapshots and the damage it returns. */
  datatype Exchange = Exchange(actor: Stats, target: Stats, damage: int)

  /** A blow of `damage` lands on the target: its hit points (when not already below
      zero) drop by that much but not below zero, its dodge stance may be spent, and
      nothing else about it changes. */
  predicate Lands(t: Stats, after: Stats, damage: int)
  {
    && damage >= 0
    && after == t.(hp := after.hp, dodging := after.dodging)
    && (t.hp >= 0 ==> after.hp == Max(0, t.hp - damage))
  }

  /** `effective_defense`: doubled while blocking. */
  function Guarded(defense: int, blocking: bool): int
  {
    if blocking then 2 * defense else defense
  }

  /** `max(0, attack_value - effective_defense)` */
  function Hit(attackValue: int, effective: int): int
  {
    Max(0, attackValue - effective)
  }

  /** `target.hp = max(0, target.hp - damage)` */
  function Wound(t: Stats, damage: int): Stats
  {
    t.(hp := Max(0, t.hp - damage))
  }

  /** `min(max_hp, hp + amount)`, the cap on every heal. */
  function Restore(s: Stats, amount: int): Stats
  {
    s.(hp := Min(s.maxHp, s.hp + amount))
  }

  /** The dodge check of the base attacks: a dodging target avoids the blow when the
      roll is below `chance`, and the stance is spent either way. */
  function Dodged(t: Stats, roll: real, chance: real): bool
  {
    t.dodging && roll < chance
  }

  // ---------------------------------------------------------------- Character

  /** `Character.attack`: a blocking attacker only lowers its guard; otherwise the attack
      value with a draw in [-10, 10], floored at zero, may be dodged (40%), and what
      gets through is reduced by the target's (doubled when blocking) defence. */
  function Strike(a: Stats, t: Stats, spread: int, roll: real): (r: Exchange)
    requires -10 <= spread <= 10
    ensures Lands(t, r.target, r.damage)
    ensures r.actor == a.(blocking := false)
    ensures a.blocking ==> r.damage == 0 && r.target == t
    ensures !a.blocking ==> !r.target.dodging
    ensures Dodged(t, roll, 0.4) ==> r.damage == 0
    ensures !a.blocking && !Dodged(t, roll, 0.4) ==> r.damage == Max(0, Max(0, a.attack + spread) - Guarded(t.defense, t.blocking))
    ensures t.defense >= 0 ==> r.damage <= Max(0, a.attack + spread)
  {
    if a.blocking then Exchange(a.(blocking := false), t, 0)
    else
      var value := Max(0, a.attack + spread);
      if Dodged(t, roll, 0.4) then Exchange(a, t.(dodging := false), 0)
      else
        var damage := Hit(value, Guarded(t.defense, t.blocking));
        Exchange(a, Wound(t.(dodging := false), damage), damage)
  }

  /** `Character.special_attack`: lowers the guard, needs 15 mana, hits for
      1.5 times attack plus a draw in [-5, 15], dodged at 30%. */
  function SpecialStrike(a: Stats, t: Stats, spread: int, roll: real): (r: Exchange)
    requires -5 <= spread <= 15
    ensures Lands(t, r.target, r.damage)
    ensures a.mana < 15 ==> r == Exchange(a.(blocking := false), t, 0)
    ensures a.mana >= 15 ==> r.actor == a.(blocking := false, mana := a.mana - 15) && !r.target.dodging
    ensures Dodged(t, roll, 0.3) ==> r.damage == 0
    ensures a.mana >= 15 && !Dodged(t, roll, 0.3) ==> r.damage == Max(0, Max(0, Trunc(3 * a.attack, 2) + spread) - Guarded(t.defense, t.blocking))
    ensures t.defense >= 0 ==> r.damage <= Max(0, Trunc(3 * a.attack, 2) + spread)
  {
    var a1 := a.(blocking := false);
    if a1.mana < 15 then Exchange(a1, t, 0)
    else
      var a2 := a1.(mana := a1.mana - 15);
      var value := Max(0, Trunc(3 * a.attack, 2) + spread);
      if Dodged(t, roll, 0.3) then Exchange(a2, t.(dodging := false), 0)
      else
        var damage := Hit(value, Guarded(t.defense, t.blocking));
        Exchange(a2, Wound(t.(dodging := false), damage), damage)
  }

  /** Blocking doubles the defence for the base attacks: against a blocking target they
      deal what they would deal against the same target, not blocking, with twice the
      defence. */
  lemma BlockDoubles(a: Stats, t: Stats, spread: int, special: int, roll: real)
    requires -10 <= spread <= 10 && -5 <= special <= 15
    ensures Strike(a, t.(blocking := true), spread, roll).damage
         == Strike(a, t.(blocking := false, defense := 2 * t.defense), spread, roll).damage
    ensures SpecialStrike(a, t.(blocking := true), special, roll).damage
         == SpecialStrike(a, t.(blocking := false, defense := 2 * t.defense), special, roll).damage
  {
  }

  // ---------------------------------------------------------------- Barbarian

  /** `Barbarian.special_attack`, the Rage Attack: 20 mana, twice the attack plus a draw
      in [-10, 20], never dodged. */
  function RageAttack(a: Stats, t: Stats, spread: int): (r: Exchange)
    requires -10 <= spread <= 20
    ensures Lands(t, r.target, r.damage) && r.target.dodging == t.dodging
    ensures a.mana < 20 ==> r == Exchange(a.(blocking := false), t, 0)
    ensures a.mana >= 20 ==> r.actor == a.(blocking := false, mana := a.mana - 20)
    ensures a.mana >= 20 ==> r.damage == Max(0, Max(0, 2 * a.attack + spread) - Guarded(t.defense, t.blocking))
  {
    var a1 := a.(blocking := false);
    if a1.mana < 20 then Exchange(a1, t, 0)
    else
      var damage := Hit(Max(0, 2 * a.attack + spread), Guarded(t.defense, t.blocking));
      Exchange(a1.(mana := a1.mana - 20), Wound(t, damage), damage)
  }

  // ---------------------------------------------------------------- Archer

  /** `Archer.attack`: a steadier draw in [-5, 5] and no dodge check at all. */
  function SteadyShot(a: Stats, t: Stats, spread: int): (r: Exchange)
    requires -5 <= spread <= 5
    ensures Lands(t, r.target, r.damage) && r.target.dodging == t.dodging
    ensures r.actor == a.(blocking := false)
    ensures a.blocking ==> r.damage == 0 && r.target == t
    ensures !a.blocking ==> r.damage == Max(0, Max(0, a.attack + spread) - Guarded(t.defense, t.blocking))
  {
    if a.blocking then Exchange(a.(blocking := false), t, 0)
    else
      var damage := Hit(Max(0, a.attack + spread), Guarded(t.defense, t.blocking));
      Exchange(a, Wound(t, damage), damage)
  }

  /** `Archer.special_attack`, the Precision Shot: 15 mana, 1.3 times attack plus a draw
      in [-5, 10]; with a 30% critical roll the target's defence, blocking or not, is
      ignored. */
  function PrecisionShot(a: Stats, t: Stats, crit: real, spread: int): (r: Exchange)
    requires -5 <= spread <= 10
    ensures Lands(t, r.target, r.damage) && r.target.dodging == t.dodging
    ensures a.mana < 15 ==> r == Exchange(a.(blocking := false), t, 0)
    ensures a.mana >= 15 ==> r.actor == a.(blocking := false, mana := a.mana - 15)
    ensures a.mana >= 15 && crit < 0.3 ==> r.damage == Max(0, Trunc(13 * a.attack, 10) + spread)
    ensures a.mana >= 15 && crit >= 0.3 ==> r.damage == Max(0, Max(0, Trunc(13 * a.attack, 10) + spread) - Guarded(t.defense, t.blocking))
  {
    var a1 := a.(blocking := false);
    if a1.mana < 15 then Exchange(a1, t, 0)
    else
      var ignore := crit < 0.3;
      var value := Max(0, Trunc(13 * a.attack, 10) + spread);
      var effective := if ignore then 0 else Guarded(t.defense, t.blocking);
      var damage := Hit(value, effective);
      Exchange(a1.(mana := a1.mana - 15), Wound(t, damage), damage)
  }

  // ---------------------------------------------------------------- Mage

  /** `Mage.special_attack`, the Fireball: 25 mana, 2.5 times attack plus a draw in
      [-10, 30]; a blocking target only gets 1.5 times its defence. */
  function Fireball(a: Stats, t: Stats, spread: int): (r: Exchange)
    requires -10 <= spread <= 30
    ensures Lands(t, r.target, r.damage) && r.target.dodging == t.dodging
    ensures a.mana < 25 ==> r == Exchange(a.(blocking := false), t, 0)
    ensures a.mana >= 25 ==> r.actor == a.(blocking := false, mana := a.mana - 25)
    ensures a.mana >= 25 && !t.blocking ==> r.damage == Max(0, Max(0, Trunc(5 * a.attack, 2) + spread) - t.defense)
    ensures a.mana >= 25 && t.blocking ==> r.damage == Max(0, Max(0, Trunc(5 * a.attack, 2) + spread) - Trunc(3 * t.defense, 2))
  {
    var a1 := a.(blocking := false);
    if a1.mana < 25 then Exchange(a1, t, 0)
    else
      var effective := if t.blocking then Trunc(3 * t.defense, 2) else t.defense;
      var damage := Hit(Max(0, Trunc(5 * a.attack, 2) + spread), effective);
      Exchange(a1.(mana := a1.mana - 25), Wound(t, damage), damage)
  }

  /** `Mage.heal`: 30 mana for 25 plus a draw in [0, 15] hit points, capped at the
      maximum; returns the hit points actually gained. */
  function HealSpell(a: Stats, extra: int): (r: (Stats, int))
    requires 0 <= extra <= 15
    ensures a.mana < 30 ==> r == (a.(blocking := false), 0)
    ensures a.mana >= 30 ==> r.0 == a.(blocking := false, mana := a.mana - 30, hp := r.0.hp)
    ensures a.mana >= 30 ==> r.0.hp == Min(a.maxHp, a.hp + 25 + extra) && r.1 == r.0.hp - a.hp
    ensures Vital(a) ==> Vital(r.0) && 0 <= r.1 <= 40
    ensures Vital(a) && a.mana >= 30 && a.hp + 40 <= a.maxHp ==> r.1 == 25 + extra
  {
    var a1 := a.(blocking := false);
    if a1.mana < 30 then (a1, 0)
    else
      var a2 := Restore(a1.(mana := a1.mana - 30), 25 + extra);
      (a2, a2.hp - a.hp)
  }

  // ---------------------------------------------------------------- villains

  /** `DarkKnight.special_attack`, the Dark Slash: 20 mana, 1.7 times attack plus a draw
      in [-5, 15], never dodged, and 30% of the damage comes back as hit points; with
      less mana it falls back to the base special attack. */
  function DarkSlash(a: Stats, t: Stats, spread: int, roll: real): (r: Exchange)
    requires -5 <= spread <= 15
    ensures Lands(t, r.target, r.damage)
    ensures a.mana < 20 ==> r == SpecialStrike(a.(blocking := false), t, spread, roll)
    ensures a.mana >= 20 ==> r.target.dodging == t.dodging
    ensures a.mana >= 20 ==> r.damage == Max(0, Max(0, Trunc(17 * a.attack, 10) + spread) - Guarded(t.defense, t.blocking))
    ensures a.mana >= 20 ==> r.actor == a.(blocking := false, mana := a.mana - 20, hp := Min(a.maxHp, a.hp + Trunc(3 * r.damage, 10)))
    ensures Vital(a) ==> Vital(r.actor)
  {
    var a1 := a.(blocking := false);
    if a1.mana < 20 then SpecialStrike(a1, t, spread, roll)
    else
      var damage := Hit(Max(0, Trunc(17 * a.attack, 10) + spread), Guarded(t.defense, t.blocking));
      Exchange(Restore(a1.(mana := a1.mana - 20), Trunc(3 * damage, 10)), Wound(t, damage), damage)
  }

  /** `DarkArcher.special_attack`, the Poison Arrow: 25 mana, 1.2 times attack plus a
      draw in [-5, 10], then 5 to 8 poison damage on top, never dodged. The reported
      damage includes the poison. */
  function PoisonArrow(a: Stats, t: Stats, spread: int, poison: int, roll: real): (r: Exchange)
    requires -5 <= spread <= 15 && 5 <= poison <= 8
    requires a.mana >= 25 ==> spread <= 10
    ensures Lands(t, r.target, r.damage)
    ensures a.mana < 25 ==> r == SpecialStrike(a.(blocking := false), t, spread, roll)
    ensures a.mana >= 25 ==> r.actor == a.(blocking := false, mana := a.mana - 25, poisonedTarget := true)
    ensures a.mana >= 25 ==> r.damage >= poison && r.target.dodging == t.dodging
    ensures a.mana >= 25 ==> r.damage == Max(0, Max(0, Trunc(6 * a.attack, 5) + spread) - Guarded(t.defense, t.blocking)) + poison
  {
    var a1 := a.(blocking := false);
    if a1.mana < 25 then SpecialStrike(a1, t, spread, roll)
    else
      var damage := Hit(Max(0, Trunc(6 * a.attack, 5) + spread), Guarded(t.defense, t.blocking));
      var t1 := Wound(t, damage);
      Exchange(a1.(mana := a1.mana - 25, poisonedTarget := true), Wound(t1, poison), damage + poison)
  }

  /** `DarkMage.special_attack`, the Dark Energy Blast: 30 mana, three times attack plus
      a draw in [-5, 25], against 70% of the defence (1.5 times that when blocking). */
  function DarkEnergyBlast(a: Stats, t: Stats, spread: int, roll: real): (r: Exchange)
    requires -5 <= spread <= 25
    requires a.mana < 30 ==> spread <= 15
    ensures Lands(t, r.target, r.damage)
    ensures a.mana < 30 ==> r == SpecialStrike(a.(blocking := false), t, spread, roll)
    ensures a.mana >= 30 ==> r.actor == a.(blocking := false, mana := a.mana - 30) && r.target.dodging == t.dodging
    ensures a.mana >= 30 && t.defense >= 0 && !t.blocking ==> r.damage >= Max(0, 3 * a.attack + spread) - t.defense
    ensures a.mana >= 30 && !t.blocking ==> r.damage == Max(0, Max(0, 3 * a.attack + spread) - Trunc(7 * t.defense, 10))
    ensures a.mana >= 30 && t.blocking ==> r.damage == Max(0, Max(0, 3 * a.attack + spread) - Trunc(3 * Trunc(7 * t.defense, 10), 2))
  {
    var a1 := a.(blocking := false);
    if a1.mana < 30 then SpecialStrike(a1, t, spread, roll)
    else
      var reduced := Trunc(7 * t.defense, 10);
      var effective := if t.blocking then Trunc(3 * reduced, 2) else reduced;
      var damage := Hit(Max(0, 3 * a.attack + spread), effective);
      Exchange(a1.(mana := a1.mana - 30), Wound(t, damage), damage)
  }
}
