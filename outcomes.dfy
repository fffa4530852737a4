/** Python's method dispatch over the class hierarchy: which `attack` and which
    `special_attack` a combatant of each class runs, the draws each one may make, and
    what holds of every attack in the game whichever class makes it. */
module Outcomes {
  import opened Basics
  import opened Characters
  import opened Monsters

  /** The random draws of one attack. Each attack reads the ones it needs: the
      `randint` spread of its attack value, a `random()` dodge roll, the Archer's
      critical roll, the Dark Archer's poison and the Slime's three spreads. */
  datatype Dice = Dice(spread: int, roll: real, crit: real, poison: int, splits: seq<int>)

  /** The spread `attack` draws. */
  function AttackBand(k: Kind): Band
  {
    if k == Archer then Band(-5, 5) else Band(-10, 10)
  }

  /** The mana `special_attack` costs. */
  function SpecialCost(a: Stats): int
  {
    match a.kind
    case Plain => 15
    case Villain => 15
    case Archer => 15
    case Barbarian => 20
    case DarkKnight => 20
    case Mage => 25
    case DarkArcher => 25
    case DarkMage => 30
    case _ => MonsterCost(a)
  }

  /** The spread `special_attack` draws on the path it takes: its own band when the
      mana suffices, otherwise the band of the method it falls back to. */
  function SpecialBand(a: Stats): Band
  {
    var paid := a.mana >= SpecialCost(a);
    match a.kind
    case Plain => Band(-5, 15)
    case Villain => Band(-5, 15)
    case DarkKnight => Band(-5, 15)
    case Barbarian => Band(-10, 20)
    case Archer => Band(-5, 10)
    case Mage => Band(-10, 30)
    case DarkArcher => if paid then Band(-5, 10) else Band(-5, 15)
    case DarkMage => if paid then Band(-5, 25) else Band(-5, 15)
    case PlainMonster => if paid then Band(-5, 10) else Band(-10, 10)
    case Slime => Band(-10, 10)
    case Goblin => if paid then Band(-3, 8) else Band(-10, 10)
    case Skeleton => if paid then Band(-2, 12) else Band(-10, 10)
    case Dragon => if paid then Band(0, 15) else Band(-10, 10)
    case Vampire => if paid then Band(-3, 10) else Band(-10, 10)
  }

  predicate AttackFits(a: Stats, d: Dice)
  {
    AttackBand(a.kind).Has(d.spread)
  }

  predicate SpecialFits(a: Stats, d: Dice)
  {
    && SpecialBand(a).Has(d.spread)
    && 5 <= d.poison <= 8
    && |d.splits| == 3 && (forall i :: 0 <= i < 3 ==> -2 <= d.splits[i] <= 5)
  }

  /** `attacker.attack(target)` */
  function AttackOutcome(a: Stats, t: Stats, d: Dice): (r: Exchange)
    requires AttackFits(a, d)
    ensures Lands(t, r.target, r.damage)
    ensures r.actor == a.(blocking := false, hp := r.actor.hp)
    ensures a.blocking ==> r.damage == 0 && r.target == t
    ensures a.kind != Vampire ==> r.actor.hp == a.hp
  {
    match a.kind
    case Archer => SteadyShot(a, t, d.spread)
    case Vampire => DrainingBite(a, t, d.spread, d.roll)
    case _ => Strike(a, t, d.spread, d.roll)
  }

  /** `attacker.special_attack(target)` */
  function SpecialOutcome(a: Stats, t: Stats, d: Dice): (r: Exchange)
    requires SpecialFits(a, d)
    ensures Lands(t, r.target, r.damage)
    ensures r.actor == a.(blocking := false, hp := r.actor.hp, mana := r.actor.mana, poisonedTarget := r.actor.poisonedTarget)
  {
    if a.kind.IsMonster() then MonsterSpecial(a, t, d)
    else if a.kind in {DarkKnight, DarkArcher, DarkMage} then DarkSpecial(a, t, d)
    else HeroSpecial(a, t, d)
  }

  /** The special attacks of `Character`, `Villain` and the three player classes. */
  function HeroSpecial(a: Stats, t: Stats, d: Dice): (r: Exchange)
    requires SpecialFits(a, d) && a.kind in {Plain, Villain, Barbarian, Archer, Mage}
    ensures Lands(t, r.target, r.damage)
    ensures r.actor == a.(blocking := false, mana := r.actor.mana)
  {
    match a.kind
    case Barbarian => RageAttack(a, t, d.spread)
    case Archer => PrecisionShot(a, t, d.crit, d.spread)
    case Mage => Fireball(a, t, d.spread)
    case Plain => SpecialStrike(a, t, d.spread, d.roll)
    case Villain => SpecialStrike(a, t, d.spread, d.roll)
  }

  /** The special attacks of the three villain classes. */
  function DarkSpecial(a: Stats, t: Stats, d: Dice): (r: Exchange)
    requires SpecialFits(a, d) && a.kind in {DarkKnight, DarkArcher, DarkMage}
    ensures Lands(t, r.target, r.damage)
    ensures r.actor == a.(blocking := false, hp := r.actor.hp, mana := r.actor.mana, poisonedTarget := r.actor.poisonedTarget)
  {
    match a.kind
    case DarkKnight => DarkSlash(a, t, d.spread, d.roll)
    case DarkArcher => PoisonArrow(a, t, d.spread, d.poison, d.roll)
    case DarkMage => DarkEnergyBlast(a, t, d.spread, d.roll)
  }

  /** The special attacks of `Monster` and its five kinds. */
  function MonsterSpecial(a: Stats, t: Stats, d: Dice): (r: Exchange)
    requires SpecialFits(a, d) && a.kind.IsMonster()
    ensures Lands(t, r.target, r.damage)
    ensures r.actor == a.(blocking := false, hp := r.actor.hp, mana := r.actor.mana)
  {
    match a.kind
    case PlainMonster => MonsterStrike(a, t, d.spread, d.roll)
    case Slime => SlimeSplit(a, t, d.splits, d.spread, d.roll)
    case Goblin => SneakyStrike(a, t, d.spread, d.roll)
    case Skeleton => BoneVolley(a, t, d.spread, d.roll)
    case Dragon => FireBreath(a, t, d.spread, d.roll)
    case Vampire => BloodDrain(a, t, d.spread, d.roll)
  }

  // ---------------------------------------------------------------- game-wide facts

  /** Mana is spent exactly when the special attack goes off; a villain that cannot pay
      falls back to the base special attack, which may still cost 15; a monster falls
      back to the free base attack. Only a paid Poison Arrow marks its target poisoned,
      and the attacker's hit points can only rise. */
  lemma SpecialSpendsMana(a: Stats, t: Stats, d: Dice)
    requires SpecialFits(a, d)
    ensures var r := SpecialOutcome(a, t, d);
      && (a.mana >= SpecialCost(a) ==> r.actor.mana == a.mana - SpecialCost(a))
      && (a.mana < SpecialCost(a) ==>
            r.actor.mana == if a.kind in {DarkKnight, DarkArcher, DarkMage} && a.mana >= 15 then a.mana - 15 else a.mana)
      && (r.actor.poisonedTarget != a.poisonedTarget ==> a.kind == DarkArcher && a.mana >= 25)
      && (Vital(a) ==> a.hp <= r.actor.hp)
  {
    if a.kind.IsMonster() {
      MonsterSpendsMana(a, t, d);
    } else if a.kind in {DarkKnight, DarkArcher, DarkMage} {
      DarkSpendsMana(a, t, d);
    } else {
      HeroSpendsMana(a, t, d);
    }
  }

  lemma HeroSpendsMana(a: Stats, t: Stats, d: Dice)
    requires SpecialFits(a, d) && a.kind in {Plain, Villain, Barbarian, Archer, Mage}
    ensures var r := HeroSpecial(a, t, d);
      r.actor.mana == if a.mana >= SpecialCost(a) then a.mana - SpecialCost(a) else a.mana
  {
  }

  lemma DarkSpendsMana(a: Stats, t: Stats, d: Dice)
    requires SpecialFits(a, d) && a.kind in {DarkKnight, DarkArcher, DarkMage}
    ensures var r := DarkSpecial(a, t, d);
      && r.actor.mana == (if a.mana >= SpecialCost(a) then a.mana - SpecialCost(a)
                          else if a.mana >= 15 then a.mana - 15 else a.mana)
      && (r.actor.poisonedTarget != a.poisonedTarget ==> a.kind == DarkArcher && a.mana >= 25)
      && (Vital(a) ==> a.hp <= r.actor.hp)
  {
    match a.kind {
      case DarkKnight =>
      case DarkArcher =>
      case DarkMage =>
    }
  }

  lemma MonsterSpendsMana(a: Stats, t: Stats, d: Dice)
    requires SpecialFits(a, d) && a.kind.IsMonster()
    ensures var r := MonsterSpecial(a, t, d);
      && r.actor.mana == (if a.mana >= SpecialCost(a) then a.mana - SpecialCost(a) else a.mana)
      && (Vital(a) ==> a.hp <= r.actor.hp)
  {
    MonsterKindSpends(a, t, d, a.kind);
  }

  /** `MonsterSpendsMana` for one kind of monster at a time. */
  lemma MonsterKindSpends(a: Stats, t: Stats, d: Dice, k: Kind)
    requires SpecialFits(a, d) && a.kind == k && k.IsMonster()
    ensures var r := MonsterSpecial(a, t, d);
      && r.actor.mana == (if a.mana >= SpecialCost(a) then a.mana - SpecialCost(a) else a.mana)
      && (Vital(a) ==> a.hp <= r.actor.hp)
  {
    if k == PlainMonster {
    } else if k == Slime {
    } else if k == Goblin {
    } else if k == Skeleton {
    } else if k == Dragon {
    } else {
    }
  }

  /** No attack breaks the bounds on hit points and mana, of either side, and none
      costs the attacker hit points. */
  lemma AttackKeepsVital(a: Stats, t: Stats, d: Dice)
    requires AttackFits(a, d) && Vital(a) && Vital(t)
    ensures Vital(AttackOutcome(a, t, d).actor) && Vital(AttackOutcome(a, t, d).target)
    ensures a.hp <= AttackOutcome(a, t, d).actor.hp
  {
    if a.kind == Vampire {
      assert AttackOutcome(a, t, d) == DrainingBite(a, t, d.spread, d.roll);
    }
  }

  lemma SpecialKeepsVital(a: Stats, t: Stats, d: Dice)
    requires SpecialFits(a, d) && Vital(a) && Vital(t) && a.level >= 0
    ensures Vital(SpecialOutcome(a, t, d).actor) && Vital(SpecialOutcome(a, t, d).target)
    ensures a.hp <= SpecialOutcome(a, t, d).actor.hp
  {
    SpecialSpendsMana(a, t, d);
  }

  /** Blocking never increases the damage taken: against a target with non-negative
      defence, the same attack with the same draws deals no more to it when it blocks. */
  lemma GuardNeverHurtsAttack(a: Stats, t: Stats, d: Dice)
    requires t.defense >= 0 && AttackFits(a, d)
    ensures AttackOutcome(a, t.(blocking := true), d).damage <= AttackOutcome(a, t.(blocking := false), d).damage
  {
    var b, u := t.(blocking := true), t.(blocking := false);
    if a.kind == Archer {
      assert AttackOutcome(a, b, d) == SteadyShot(a, b, d.spread);
      assert AttackOutcome(a, u, d) == SteadyShot(a, u, d.spread);
    } else {
      StrikeGuard(a, t, d.spread, d.roll);
      if a.kind == Vampire {
        assert AttackOutcome(a, b, d).damage == Strike(a, b, d.spread, d.roll).damage;
        assert AttackOutcome(a, u, d).damage == Strike(a, u, d.spread, d.roll).damage;
      } else {
        assert AttackOutcome(a, b, d) == Strike(a, b, d.spread, d.roll);
        assert AttackOutcome(a, u, d) == Strike(a, u, d.spread, d.roll);
      }
    }
  }

  /** The base attack deals no more to a blocking target. */
  lemma StrikeGuard(a: Stats, t: Stats, spread: int, roll: real)
    requires t.defense >= 0 && -10 <= spread <= 10
    ensures Strike(a, t.(blocking := true), spread, roll).damage <= Strike(a, t.(blocking := false), spread, roll).damage
  {
  }

  lemma GuardNeverHurtsSpecial(a: Stats, t: Stats, d: Dice)
    requires t.defense >= 0 && SpecialFits(a, d)
    ensures SpecialOutcome(a, t.(blocking := true), d).damage <= SpecialOutcome(a, t.(blocking := false), d).damage
  {
    if a.kind.IsMonster() {
      MonsterGuard(a, t, d);
    } else if a.kind in {DarkKnight, DarkArcher, DarkMage} {
      DarkGuard(a, t, d);
    } else {
      HeroGuard(a, t, d);
    }
  }

  lemma HeroGuard(a: Stats, t: Stats, d: Dice)
    requires t.defense >= 0 && SpecialFits(a, d) && a.kind in {Plain, Villain, Barbarian, Archer, Mage}
    ensures HeroSpecial(a, t.(blocking := true), d).damage <= HeroSpecial(a, t.(blocking := false), d).damage
  {
    if a.kind == Mage {
      assert Trunc(3 * t.defense, 2) >= t.defense;
    }
  }

  lemma DarkGuard(a: Stats, t: Stats, d: Dice)
    requires t.defense >= 0 && SpecialFits(a, d) && a.kind in {DarkKnight, DarkArcher, DarkMage}
    ensures DarkSpecial(a, t.(blocking := true), d).damage <= DarkSpecial(a, t.(blocking := false), d).damage
  {
    if a.kind == DarkMage {
      var reduced := Trunc(7 * t.defense, 10);
      assert reduced >= 0 && Trunc(3 * reduced, 2) >= reduced;
    }
  }

  lemma MonsterGuard(a: Stats, t: Stats, d: Dice)
    requires t.defense >= 0 && SpecialFits(a, d) && a.kind.IsMonster()
    ensures MonsterSpecial(a, t.(blocking := true), d).damage <= MonsterSpecial(a, t.(blocking := false), d).damage
  {
    match a.kind {
      case PlainMonster =>
        PlainMonsterGuard(a, t, d.spread, d.roll);
      case Slime =>
        SlimeGuard(a, t, d);
      case Goblin =>
        GoblinGuard(a, t, d.spread, d.roll);
      case Skeleton =>
        SkeletonGuard(a, t, d.spread, d.roll);
      case Dragon =>
        DragonGuard(a, t, d.spread, d.roll);
      case Vampire =>
        VampireGuard(a, t, d.spread, d.roll);
    }
  }

  /** Each monster's special attack, paid for or fallen back to the base attack, deals
      no more to a blocking target. */
  lemma PlainMonsterGuard(a: Stats, t: Stats, spread: int, roll: real)
    requires t.defense >= 0
    requires a.mana < 10 + a.level ==> -10 <= spread <= 10
    requires a.mana >= 10 + a.level ==> -5 <= spread <= 10
    ensures MonsterStrike(a, t.(blocking := true), spread, roll).damage <= MonsterStrike(a, t.(blocking := false), spread, roll).damage
  {
    if a.mana < 10 + a.level {
      StrikeGuard(a.(blocking := false), t, spread, roll);
    }
  }

  lemma GoblinGuard(a: Stats, t: Stats, spread: int, roll: real)
    requires t.defense >= 0
    requires a.mana < 10 + a.level ==> -10 <= spread <= 10
    requires a.mana >= 10 + a.level ==> -3 <= spread <= 8
    ensures SneakyStrike(a, t.(blocking := true), spread, roll).damage <= SneakyStrike(a, t.(blocking := false), spread, roll).damage
  {
    if a.mana < 10 + a.level {
      StrikeGuard(a.(blocking := false), t, spread, roll);
    } else {
      assert Trunc(t.defense, 2) <= t.defense;
    }
  }

  lemma SkeletonGuard(a: Stats, t: Stats, spread: int, roll: real)
    requires t.defense >= 0
    requires a.mana < 12 + a.level ==> -10 <= spread <= 10
    requires a.mana >= 12 + a.level ==> -2 <= spread <= 12
    ensures BoneVolley(a, t.(blocking := true), spread, roll).damage <= BoneVolley(a, t.(blocking := false), spread, roll).damage
  {
    if a.mana < 12 + a.level {
      StrikeGuard(a.(blocking := false), t, spread, roll);
    }
  }

  lemma DragonGuard(a: Stats, t: Stats, spread: int, roll: real)
    requires t.defense >= 0
    requires a.mana < 20 + a.level ==> -10 <= spread <= 10
    requires a.mana >= 20 + a.level ==> 0 <= spread <= 15
    ensures FireBreath(a, t.(blocking := true), spread, roll).damage <= FireBreath(a, t.(blocking := false), spread, roll).damage
  {
    if a.mana < 20 + a.level {
      StrikeGuard(a.(blocking := false), t, spread, roll);
    } else {
      assert Trunc(t.defense, 2) <= t.defense;
    }
  }

  lemma VampireGuard(a: Stats, t: Stats, spread: int, roll: real)
    requires t.defense >= 0
    requires a.mana < 15 + a.level ==> -10 <= spread <= 10
    requires a.mana >= 15 + a.level ==> -3 <= spread <= 10
    ensures BloodDrain(a, t.(blocking := true), spread, roll).damage <= BloodDrain(a, t.(blocking := false), spread, roll).damage
  {
    if a.mana < 15 + a.level {
      StrikeGuard(a.(blocking := false), t, spread, roll);
    }
  }

  lemma SlimeGuard(a: Stats, t: Stats, d: Dice)
    requires t.defense >= 0 && SpecialFits(a, d) && a.kind == Slime
    ensures SlimeSplit(a, t.(blocking := true), d.splits, d.spread, d.roll).damage
         <= SlimeSplit(a, t.(blocking := false), d.splits, d.spread, d.roll).damage
  {
    if a.mana >= 8 + a.level {
      VolleyGuard(Trunc(3 * a.attack, 5), t.(blocking := true), t.(blocking := false), d.splits);
    }
  }

  /** A volley deals no more to a blocking target than to an unguarded one with the same
      defence, whatever their hit points. */
  lemma {:induction false} VolleyGuard(base: int, b: Stats, u: Stats, splits: seq<int>)
    requires b.defense == u.defense >= 0 && b.blocking && !u.blocking
    ensures Volley(base, b, splits).1 <= Volley(base, u, splits).1
    decreases |splits|
  {
    if splits != [] {
      var hb := Hit(Max(0, base + splits[0]), Guarded(b.defense, true));
      var hu := Hit(Max(0, base + splits[0]), Guarded(u.defense, false));
      VolleyGuard(base, Wound(b, hb), Wound(u, hu), splits[1..]);
    }
  }
}
