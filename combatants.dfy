/** A character object of characters.py and MagicalRealm/monsters.py. Python models
    every class of the game as a subclass of `Character` and updates the two objects of
    an attack in place; here one class carries the concrete class as `kind`, its
    methods perform the same assignments in the same order, and each one is proved to
    leave exactly the snapshots the rule functions of `Characters`, `Monsters` and
    `Progression` describe. */
module Combatants {
  import opened Basics
  import opened Items
  import opened Characters
  import opened Monsters
  import Progression
  import opened Outcomes

  class Combatant {
    const kind: Kind
    var hp: int
    var maxHp: int
    var mana: int
    var maxMana: int
    /** `base_attack` */
    var attack: int
    var defense: int
    var blocking: bool
    var dodging: bool
    var level: int
    var xp: int
    var xpToLevel: int
    /** `class_tier` and `class_title` */
    var tier: int
    var title: string
    var skills: seq<string>
    var luck: int
    var attackBoost: int
    var attackBoostDuration: int
    var equipment: map<Slot, Item>
    /** `DarkArcher.target_poisoned` (false for every other class) */
    var poisonedTarget: bool
    /** The bag every character is created with, of ten slots. */
    const inventory: Inventory
    /** `Monster.is_boss` and `Monster.gold_reward` (false and 0 outside monsters). */
    const isBoss: bool
    const goldReward: int

    /** The snapshot of everything an operation can change. */
    function View(): Stats
      reads this
    {
      Stats(kind, hp, maxHp, mana, maxMana, attack, defense, blocking, dodging,
            level, xp, xpToLevel, tier, title, skills, luck, attackBoost, attackBoostDuration,
            equipment, poisonedTarget)
    }

    /** `Character.__init__` with the stats of the class `k` passes to it. */
    constructor (k: Kind)
      requires !k.IsMonster()
      ensures View() == InitialStats(k)
      ensures fresh(inventory) && inventory.items == [] && inventory.maxSize == 10 && inventory.gold == 0
      ensures !isBoss && goldReward == 0
    {
      var s := InitialStats(k);
      kind := k;
      hp, maxHp, mana, maxMana := s.hp, s.maxHp, s.mana, s.maxMana;
      attack, defense := s.attack, s.defense;
      blocking, dodging := false, false;
      level, xp, xpToLevel := 1, 0, 100;
      tier, title, skills := 0, "", [];
      luck, attackBoost, attackBoostDuration := 0, 0, 0;
      equipment := map[];
      poisonedTarget := false;
      isBoss, goldReward := false, 0;
      inventory := new Inventory(10);
    }

    /** `Monster.__init__` and the subclass constructors. A Dragon is always a boss;
        `goldDraw` is the `randint(5, 20)` of the gold reward. */
    constructor Spawn(k: Kind, level: int, isBoss: bool, goldDraw: int)
      requires k.IsMonster() && 5 <= goldDraw <= 20
      ensures View() == MonsterStats(k, level, isBoss)
      ensures this.isBoss == (isBoss || k == Dragon)
      ensures goldReward == GoldReward(level, this.isBoss, goldDraw)
      ensures fresh(inventory) && inventory.items == [] && inventory.maxSize == 10
    {
      var boss := isBoss || k == Dragon;
      var s := MonsterStats(k, level, isBoss);
      kind := k;
      hp, maxHp, mana, maxMana := s.hp, s.maxHp, s.mana, s.maxMana;
      attack, defense := s.attack, s.defense;
      blocking, dodging := false, false;
      this.level, xp, xpToLevel := level, 0, 100;
      tier, title, skills := 0, "", [];
      luck, attackBoost, attackBoostDuration := 0, 0, 0;
      equipment := map[];
      poisonedTarget := false;
      this.isBoss := boss;
      goldReward := GoldReward(level, boss, goldDraw);
      inventory := new Inventory(10);
    }

    // ------------------------------------------------------------ stances and queries

    /** `block` */
    method Block()
      modifies this
      ensures View() == old(View()).(blocking := true)
    {
      blocking := true;
    }

    /** `dodge` */
    method Dodge()
      modifies this
      ensures View() == old(View()).(dodging := true)
    {
      dodging := true;
    }

    /** `is_alive` */
    function IsAlive(): (alive: bool)
      reads this
      ensures alive <==> hp > 0
    {
      hp > 0
    }

    // ------------------------------------------------------------ single assignments

    /** `self.is_blocking = False`, the first line of every special attack. */
    method LowerGuard()
      modifies this
      ensures View() == old(View()).(blocking := false)
    {
      blocking := false;
    }

    /** `self.mana -= cost` */
    method Spend(cost: int)
      modifies this
      ensures View() == old(View()).(mana := old(mana) - cost)
    {
      mana := mana - cost;
    }

    /** `self.hp = max(0, self.hp - damage)`, the line every blow ends with. */
    method Suffer(damage: int)
      modifies this
      ensures View() == Wound(old(View()), damage)
    {
      hp := Max(0, hp - damage);
    }

    /** `self.hp = min(self.max_hp, self.hp + amount)` */
    method Recover(amount: int)
      modifies this
      ensures View() == Restore(old(View()), amount)
    {
      hp := Min(maxHp, hp + amount);
    }

    /** `self.mana = min(self.max_mana, self.mana + amount)` */
    method Replenish(amount: int)
      modifies this
      ensures View() == old(View()).(mana := Min(old(maxMana), old(mana) + amount))
    {
      mana := Min(maxMana, mana + amount);
    }

    /** The Strength Elixir's three assignments. */
    method Empower(boost: int, duration: int)
      modifies this
      ensures View() == old(View()).(attackBoost := boost, attackBoostDuration := duration, attack := old(attack) + boost)
    {
      attackBoost := boost;
      attackBoostDuration := duration;
      attack := attack + boost;
    }

    /** `self.max_hp += n`, with no refill */
    method WidenHp(n: int)
      modifies this
      ensures View() == old(View()).(maxHp := old(maxHp) + n)
    {
      maxHp := maxHp + n;
    }

    /** `self.hp = min(self.hp, self.max_hp)` */
    method ClampHp()
      modifies this
      ensures View() == old(View()).(hp := Min(old(hp), old(maxHp)))
    {
      hp := Min(hp, maxHp);
    }

    /** `self.max_mana += n`, with no refill */
    method WidenMana(n: int)
      modifies this
      ensures View() == old(View()).(maxMana := old(maxMana) + n)
    {
      maxMana := maxMana + n;
    }

    /** `self.mana = min(self.mana, self.max_mana)` */
    method ClampMana()
      modifies this
      ensures View() == old(View()).(mana := Min(old(mana), old(maxMana)))
    {
      mana := Min(mana, maxMana);
    }

    /** `self.equipment = equipment`, one slot changed */
    method Outfit(equipment: map<Slot, Item>)
      modifies this
      ensures View() == old(View()).(equipment := equipment)
    {
      this.equipment := equipment;
    }

    /** `target.is_dodging = False` */
    method LeaveDodge()
      modifies this
      ensures View() == old(View()).(dodging := false)
    {
      dodging := false;
    }

    /** `self.target_poisoned = True` */
    method MarkPoisoned()
      modifies this
      ensures View() == old(View()).(poisonedTarget := true)
    {
      poisonedTarget := true;
    }

    // ------------------------------------------------------------ the blow itself

    /** The four lines every attack ends with: the target's defence, doubled while it
        blocks, comes off the attack value, and the rest comes off its hit points. */
    method Blow(target: Combatant, value: int) returns (damage: int)
      modifies target
      ensures damage == Hit(value, Guarded(old(target.defense), old(target.blocking)))
      ensures target.View() == Wound(old(target.View()), damage)
    {
      var effective := target.defense;
      if target.blocking {
        effective := effective * 2;
      }
      damage := Max(0, value - effective);
      target.Suffer(damage);
    }

    /** The dodge check of the base attacks; the stance is spent either way. */
    method TryDodge(target: Combatant, roll: real, chance: real) returns (dodged: bool)
      modifies target
      ensures dodged == Dodged(old(target.View()), roll, chance)
      ensures target.View() == if old(target.dodging) then old(target.View()).(dodging := false) else old(target.View())
    {
      dodged := false;
      if target.dodging {
        dodged := roll < chance;
        target.LeaveDodge();
      }
    }

    // ------------------------------------------------------------ Character

    /** `Character.attack` */
    method CharacterAttack(target: Combatant, spread: int, roll: real) returns (damage: int)
      requires target != this && -10 <= spread <= 10
      modifies this, target
      ensures Exchange(View(), target.View(), damage) == Strike(old(View()), old(target.View()), spread, roll)
    {
      if blocking {
        LowerGuard();
        return 0;
      }
      var value := attack + spread;
      if value < 0 {
        value := 0;
      }
      var dodged := TryDodge(target, roll, 0.4);
      if dodged {
        return 0;
      }
      damage := Blow(target, value);
    }

    /** `Character.special_attack` */
    method CharacterSpecialAttack(target: Combatant, spread: int, roll: real) returns (damage: int)
      requires target != this && -5 <= spread <= 15
      modifies this, target
      ensures Exchange(View(), target.View(), damage) == SpecialStrike(old(View()), old(target.View()), spread, roll)
    {
      LowerGuard();
      if mana < 15 {
        return 0;
      }
      Spend(15);
      var value := Trunc(3 * attack, 2) + spread;
      if value < 0 {
        value := 0;
      }
      var dodged := TryDodge(target, roll, 0.3);
      if dodged {
        return 0;
      }
      damage := Blow(target, value);
    }

    // ------------------------------------------------------------ Barbarian

    /** `Barbarian.special_attack` */
    method BarbarianSpecialAttack(target: Combatant, spread: int) returns (damage: int)
      requires target != this && -10 <= spread <= 20
      modifies this, target
      ensures Exchange(View(), target.View(), damage) == RageAttack(old(View()), old(target.View()), spread)
    {
      LowerGuard();
      if mana < 20 {
        return 0;
      }
      Spend(20);
      var value := 2 * attack + spread;
      if value < 0 {
        value := 0;
      }
      damage := Blow(target, value);
    }

    // ------------------------------------------------------------ Archer

    /** `Archer.attack` */
    method ArcherAttack(target: Combatant, spread: int) returns (damage: int)
      requires target != this && -5 <= spread <= 5
      modifies this, target
      ensures Exchange(View(), target.View(), damage) == SteadyShot(old(View()), old(target.View()), spread)
    {
      if blocking {
        LowerGuard();
        return 0;
      }
      var value := attack + spread;
      if value < 0 {
        value := 0;
      }
      damage := Blow(target, value);
    }

    /** `Archer.special_attack`; `crit` is the `random()` of the critical check. */
    method ArcherSpecialAttack(target: Combatant, crit: real, spread: int) returns (damage: int)
      requires target != this && -5 <= spread <= 10
      modifies this, target
      ensures Exchange(View(), target.View(), damage) == PrecisionShot(old(View()), old(target.View()), crit, spread)
    {
      LowerGuard();
      if mana < 15 {
        return 0;
      }
      Spend(15);
      var ignoreDefense := crit < 0.3;
      var value := Trunc(13 * attack, 10) + spread;
      if value < 0 {
        value := 0;
      }
      var effective := if ignoreDefense then 0 else target.defense;
      if target.blocking && !ignoreDefense {
        effective := effective * 2;
      }
      damage := Max(0, value - effective);
      target.Suffer(damage);
    }

    // ------------------------------------------------------------ Mage

    /** `Mage.special_attack` */
    method MageSpecialAttack(target: Combatant, spread: int) returns (damage: int)
      requires target != this && -10 <= spread <= 30
      modifies this, target
      ensures Exchange(View(), target.View(), damage) == Fireball(old(View()), old(target.View()), spread)
    {
      LowerGuard();
      if mana < 25 {
        return 0;
      }
      Spend(25);
      var value := Trunc(5 * attack, 2) + spread;
      if value < 0 {
        value := 0;
      }
      var effective := target.defense;
      if target.blocking {
        effective := Trunc(3 * effective, 2);
      }
      damage := Max(0, value - effective);
      target.Suffer(damage);
    }

    /** `Mage.heal`; `extra` is the `randint(0, 15)` on top of the 25 hit points. */
    method Heal(extra: int) returns (healed: int)
      requires kind == Mage && 0 <= extra <= 15
      modifies this
      ensures (View(), healed) == HealSpell(old(View()), extra)
    {
      LowerGuard();
      if mana < 30 {
        return 0;
      }
      var amount := 25 + extra;
      Spend(30);
      var before := hp;
      Recover(amount);
      healed := hp - before;
    }

    // ------------------------------------------------------------ villains

    /** `DarkKnight.special_attack` */
    method DarkKnightSpecialAttack(target: Combatant, spread: int, roll: real) returns (damage: int)
      requires target != this && -5 <= spread <= 15
      modifies this, target
      ensures Exchange(View(), target.View(), damage) == DarkSlash(old(View()), old(target.View()), spread, roll)
    {
      LowerGuard();
      if mana < 20 {
        damage := CharacterSpecialAttack(target, spread, roll);
        return;
      }
      Spend(20);
      var value := Trunc(17 * attack, 10) + spread;
      if value < 0 {
        value := 0;
      }
      damage := Blow(target, value);
      var heal := Trunc(3 * damage, 10);
      Recover(heal);
    }

    /** `DarkArcher.special_attack`; `poison` is the `randint(5, 8)` of the poison. */
    method DarkArcherSpecialAttack(target: Combatant, spread: int, poison: int, roll: real) returns (damage: int)
      requires target != this && -5 <= spread <= 15 && 5 <= poison <= 8
      requires mana >= 25 ==> spread <= 10
      modifies this, target
      ensures Exchange(View(), target.View(), damage) == PoisonArrow(old(View()), old(target.View()), spread, poison, roll)
    {
      LowerGuard();
      if mana < 25 {
        damage := CharacterSpecialAttack(target, spread, roll);
        return;
      }
      Spend(25);
      var value := Trunc(6 * attack, 5) + spread;
      if value < 0 {
        value := 0;
      }
      var dealt := Blow(target, value);
      MarkPoisoned();
      target.Suffer(poison);
      damage := dealt + poison;
    }

    /** `DarkMage.special_attack` */
    method DarkMageSpecialAttack(target: Combatant, spread: int, roll: real) returns (damage: int)
      requires target != this && -5 <= spread <= 25
      requires mana < 30 ==> spread <= 15
      modifies this, target
      ensures Exchange(View(), target.View(), damage) == DarkEnergyBlast(old(View()), old(target.View()), spread, roll)
    {
      LowerGuard();
      if mana < 30 {
        damage := CharacterSpecialAttack(target, spread, roll);
        return;
      }
      Spend(30);
      var value := 3 * attack + spread;
      if value < 0 {
        value := 0;
      }
      var effective := Trunc(7 * target.defense, 10);
      if target.blocking {
        effective := Trunc(3 * effective, 2);
      }
      damage := Max(0, value - effective);
      target.Suffer(damage);
    }

    // ------------------------------------------------------------ monsters

    /** `Monster.special_attack` */
    method MonsterSpecialAttack(target: Combatant, spread: int, roll: real) returns (damage: int)
      requires target != this
      requires mana < 10 + level ==> -10 <= spread <= 10
      requires mana >= 10 + level ==> -5 <= spread <= 10
      modifies this, target
      ensures Exchange(View(), target.View(), damage) == MonsterStrike(old(View()), old(target.View()), spread, roll)
    {
      LowerGuard();
      var cost := 10 + level;
      if mana < cost {
        damage := CharacterAttack(target, spread, roll);
        return;
      }
      Spend(cost);
      var value := Trunc(14 * attack, 10) + spread;
      if value < 0 {
        value := 0;
      }
      damage := Blow(target, value);
    }

    /** `Slime.special_attack`: the three hits of the `for` loop, `splits[i]` being the
        draw of hit `i`. */
    method SlimeSpecialAttack(target: Combatant, splits: seq<int>, spread: int, roll: real) returns (damage: int)
      requires target != this
      requires |splits| == 3 && forall i :: 0 <= i < 3 ==> -2 <= splits[i] <= 5
      requires mana < 8 + level ==> -10 <= spread <= 10
      modifies this, target
      ensures Exchange(View(), target.View(), damage) == SlimeSplit(old(View()), old(target.View()), splits, spread, roll)
    {
      LowerGuard();
      var cost := 8 + level;
      if mana < cost {
        damage := CharacterAttack(target, spread, roll);
        return;
      }
      Spend(cost);
      var base := Trunc(3 * attack, 5);
      ghost var paid, start := View(), target.View();
      damage := 0;
      for i := 0 to 3
        invariant View() == paid
        invariant Volley(base, start, splits).0 == Volley(base, target.View(), splits[i..]).0
        invariant Volley(base, start, splits).1 == damage + Volley(base, target.View(), splits[i..]).1
      {
        ghost var before := target.View();
        VolleyStep(base, before, splits, i);
        var value := base + splits[i];
        if value < 0 {
          value := 0;
        }
        var hit := Blow(target, value);
        damage := damage + hit;
      }
      assert splits[3..] == [];
    }

    /** `Goblin.special_attack` */
    method GoblinSpecialAttack(target: Combatant, spread: int, roll: real) returns (damage: int)
      requires target != this
      requires mana < 10 + level ==> -10 <= spread <= 10
      requires mana >= 10 + level ==> -3 <= spread <= 8
      modifies this, target
      ensures Exchange(View(), target.View(), damage) == SneakyStrike(old(View()), old(target.View()), spread, roll)
    {
      LowerGuard();
      var cost := 10 + level;
      if mana < cost {
        damage := CharacterAttack(target, spread, roll);
        return;
      }
      Spend(cost);
      var value := Trunc(13 * attack, 10) + spread;
      if value < 0 {
        value := 0;
      }
      var effective := Trunc(target.defense, 2);
      if target.blocking {
        effective := target.defense;
      }
      damage := Max(0, value - effective);
      target.Suffer(damage);
    }

    /** `Skeleton.take_damage` */
    method TakeDamage(amount: int) returns (taken: int)
      requires kind == Skeleton
      modifies this
      ensures (View(), taken) == BoneAbsorb(old(View()), amount)
    {
      taken := Trunc(3 * amount, 4);
      Suffer(taken);
    }

    /** `Skeleton.special_attack` */
    method SkeletonSpecialAttack(target: Combatant, spread: int, roll: real) returns (damage: int)
      requires target != this
      requires mana < 12 + level ==> -10 <= spread <= 10
      requires mana >= 12 + level ==> -2 <= spread <= 12
      modifies this, target
      ensures Exchange(View(), target.View(), damage) == BoneVolley(old(View()), old(target.View()), spread, roll)
    {
      LowerGuard();
      var cost := 12 + level;
      if mana < cost {
        damage := CharacterAttack(target, spread, roll);
        return;
      }
      Spend(cost);
      var value := Trunc(3 * attack, 2) + spread;
      if value < 0 {
        value := 0;
      }
      damage := Blow(target, value);
    }

    /** `Dragon.special_attack` */
    method DragonSpecialAttack(target: Combatant, spread: int, roll: real) returns (damage: int)
      requires target != this
      requires mana < 20 + level ==> -10 <= spread <= 10
      requires mana >= 20 + level ==> 0 <= spread <= 15
      modifies this, target
      ensures Exchange(View(), target.View(), damage) == FireBreath(old(View()), old(target.View()), spread, roll)
    {
      LowerGuard();
      var cost := 20 + level;
      if mana < cost {
        damage := CharacterAttack(target, spread, roll);
        return;
      }
      Spend(cost);
      var value := 2 * attack + spread;
      var effective := Trunc(target.defense, 2);
      if target.blocking {
        effective := target.defense;
      }
      damage := Max(0, value - effective);
      target.Suffer(damage);
    }

    /** `Vampire.attack` */
    method VampireAttack(target: Combatant, spread: int, roll: real) returns (damage: int)
      requires target != this && -10 <= spread <= 10
      modifies this, target
      ensures Exchange(View(), target.View(), damage) == DrainingBite(old(View()), old(target.View()), spread, roll)
    {
      damage := CharacterAttack(target, spread, roll);
      var lifesteal := Trunc(damage, 5);
      if lifesteal > 0 {
        Recover(lifesteal);
      }
    }

    /** `Vampire.special_attack` */
    method VampireSpecialAttack(target: Combatant, spread: int, roll: real) returns (damage: int)
      requires target != this
      requires mana < 15 + level ==> -10 <= spread <= 10
      requires mana >= 15 + level ==> -3 <= spread <= 10
      modifies this, target
      ensures Exchange(View(), target.View(), damage) == BloodDrain(old(View()), old(target.View()), spread, roll)
    {
      LowerGuard();
      var cost := 15 + level;
      if mana < cost {
        damage := CharacterAttack(target, spread, roll);
        return;
      }
      Spend(cost);
      var value := Trunc(8 * attack, 5) + spread;
      if value < 0 {
        value := 0;
      }
      damage := Blow(target, value);
      var lifesteal := Trunc(2 * damage, 5);
      if lifesteal > 0 {
        Recover(lifesteal);
      }
    }

    // ------------------------------------------------------------ dispatch

    /** `attacker.attack(target)`: the Archer and the Vampire override the base attack. */
    method Attack(target: Combatant, d: Dice) returns (damage: int)
      requires target != this && AttackBand(kind).Has(d.spread)
      modifies this, target
      ensures Exchange(View(), target.View(), damage) == AttackOutcome(old(View()), old(target.View()), d)
    {
      if kind == Archer {
        damage := ArcherAttack(target, d.spread);
      } else if kind == Vampire {
        damage := VampireAttack(target, d.spread, d.roll);
      } else {
        damage := CharacterAttack(target, d.spread, d.roll);
      }
    }

    /** `attacker.special_attack(target)`, whichever class overrides it. */
    method SpecialAttack(target: Combatant, d: Dice) returns (damage: int)
      requires target != this && SpecialFits(View(), d)
      modifies this, target
      ensures Exchange(View(), target.View(), damage) == SpecialOutcome(old(View()), old(target.View()), d)
    {
      if kind.IsMonster() {
        damage := MonsterSpecialMove(target, d);
      } else if kind in {DarkKnight, DarkArcher, DarkMage} {
        damage := DarkSpecialMove(target, d);
      } else {
        damage := HeroSpecialMove(target, d);
      }
    }

    /** The special attacks of `Character`, `Villain` and the player classes. */
    method HeroSpecialMove(target: Combatant, d: Dice) returns (damage: int)
      requires target != this && SpecialFits(View(), d) && kind in {Plain, Villain, Barbarian, Archer, Mage}
      modifies this, target
      ensures Exchange(View(), target.View(), damage) == HeroSpecial(old(View()), old(target.View()), d)
    {
      if kind == Barbarian {
        damage := BarbarianSpecialAttack(target, d.spread);
      } else if kind == Archer {
        damage := ArcherSpecialAttack(target, d.crit, d.spread);
      } else if kind == Mage {
        damage := MageSpecialAttack(target, d.spread);
      } else {
        damage := CharacterSpecialAttack(target, d.spread, d.roll);
      }
    }

    /** The special attacks of the three villain classes. */
    method DarkSpecialMove(target: Combatant, d: Dice) returns (damage: int)
      requires target != this && SpecialFits(View(), d) && kind in {DarkKnight, DarkArcher, DarkMage}
      modifies this, target
      ensures Exchange(View(), target.View(), damage) == DarkSpecial(old(View()), old(target.View()), d)
    {
      if kind == DarkKnight {
        damage := DarkKnightSpecialAttack(target, d.spread, d.roll);
      } else if kind == DarkArcher {
        damage := DarkArcherSpecialAttack(target, d.spread, d.poison, d.roll);
      } else {
        damage := DarkMageSpecialAttack(target, d.spread, d.roll);
      }
    }

    /** The special attacks of `Monster` and its five kinds. */
    method MonsterSpecialMove(target: Combatant, d: Dice) returns (damage: int)
      requires target != this && SpecialFits(View(), d) && kind.IsMonster()
      modifies this, target
      ensures Exchange(View(), target.View(), damage) == MonsterSpecial(old(View()), old(target.View()), d)
    {
      if kind == PlainMonster {
        damage := MonsterSpecialAttack(target, d.spread, d.roll);
      } else if kind == Slime {
        damage := SlimeSpecialAttack(target, d.splits, d.spread, d.roll);
      } else if kind == Goblin {
        damage := GoblinSpecialAttack(target, d.spread, d.roll);
      } else if kind == Skeleton {
        damage := SkeletonSpecialAttack(target, d.spread, d.roll);
      } else if kind == Dragon {
        damage := DragonSpecialAttack(target, d.spread, d.roll);
      } else {
        damage := VampireSpecialAttack(target, d.spread, d.roll);
      }
    }

    // ------------------------------------------------------------ progression

    /** `gain_xp(amount)` */
    method GainXp(amount: int) returns (leveled: bool)
      modifies this
      ensures (View(), leveled) == Progression.GainXp(old(View()), amount)
    {
      xp := xp + amount;
      if xp >= xpToLevel {
        LevelUp();
        return true;
      }
      return false;
    }

    /** `level_up` */
    method LevelUp()
      modifies this
      ensures View() == Progression.LevelUp(old(View()))
    {
      Advance();
      var t := Progression.UnlockedTier(level);
      if t > 0 && tier < t {
        EvolveClass(t);
      }
    }

    /** The lines of `level_up` before the evolution check. */
    method Advance()
      modifies this
      ensures View() == Progression.Advance(old(View()))
    {
      var g := Progression.GrowthOf(kind);
      level := level + 1;
      Grow(g);
      xpToLevel := Trunc(3 * xpToLevel, 2);
    }

    /** The "apply increases" lines of `level_up`: the maxima grow, both pools refill. */
    method Grow(g: Progression.Growth)
      modifies this
      ensures View() == old(View()).(maxHp := old(maxHp) + g.hp, hp := old(maxHp) + g.hp,
                                     maxMana := old(maxMana) + g.mana, mana := old(maxMana) + g.mana,
                                     attack := old(attack) + g.attack, defense := old(defense) + g.defense)
    {
      RaiseHp(g.hp);
      RaiseMana(g.mana);
      Train(g.attack, g.defense);
    }

    /** `self.max_hp += n` followed by `self.hp = self.max_hp` */
    method RaiseHp(n: int)
      modifies this
      ensures View() == old(View()).(maxHp := old(maxHp) + n, hp := old(maxHp) + n)
    {
      maxHp := maxHp + n;
      hp := maxHp;
    }

    /** `self.max_mana += n` followed by `self.mana = self.max_mana` */
    method RaiseMana(n: int)
      modifies this
      ensures View() == old(View()).(maxMana := old(maxMana) + n, mana := old(maxMana) + n)
    {
      maxMana := maxMana + n;
      mana := maxMana;
    }

    /** `self.base_attack += a` and `self.defense += d` */
    method Train(a: int, d: int)
      modifies this
      ensures View() == old(View()).(attack := old(attack) + a, defense := old(defense) + d)
    {
      attack := attack + a;
      defense := defense + d;
    }

    /** `evolve_class(new_tier)` */
    method EvolveClass(newTier: int)
      requires 1 <= newTier <= 6
      modifies this
      ensures View() == Progression.Evolve(old(View()), newTier)
    {
      tier := newTier;
      var g := Progression.Growth(Trunc(maxHp, 5), Trunc(maxMana, 5), Trunc(3 * attack, 20), Trunc(3 * defense, 20));
      Grow(g);
      Retitle(Progression.Titles(kind)[newTier]);
      ghost var grown := View();
      if Progression.Archetype(kind) {
        Learn(Progression.SkillAt(kind, newTier));
      }
      assert View() == grown.(skills := Progression.Evolve(old(View()), newTier).skills);
    }

    /** `self.class_title = title` */
    method Retitle(title: string)
      modifies this
      ensures View() == old(View()).(title := title)
    {
      this.title := title;
    }

    /** `self.skills.append(skill)` */
    method Learn(skill: string)
      modifies this
      ensures View() == old(View()).(skills := old(skills) + [skill])
    {
      skills := skills + [skill];
    }
  }

  /** `get_monster_by_level(level, force_boss)`: the encounter `ChooseMonster` draws,
      spawned at the player's level. */
  method GetMonsterByLevel(level: int, forceBoss: bool, bossRoll: real, dragonRoll: real, pick: int, goldDraw: int)
    returns (m: Combatant)
    requires 0 <= pick < |MonsterPool(level)| && 5 <= goldDraw <= 20
    ensures fresh(m)
    ensures (m.kind, m.isBoss) == ChooseMonster(level, forceBoss, bossRoll, dragonRoll, pick)
    ensures m.View() == MonsterStats(m.kind, level, m.isBoss)
    ensures m.goldReward == GoldReward(level, m.isBoss, goldDraw)
  {
    var choice := ChooseMonster(level, forceBoss, bossRoll, dragonRoll, pick);
    m := new Combatant.Spawn(choice.0, level, choice.1, goldDraw);
  }

  /** One turn of the Slime's loop: the volley from hit `i` on is hit `i` followed by
      the volley from hit `i + 1` on. */
  lemma VolleyStep(base: int, t: Stats, splits: seq<int>, i: int)
    requires 0 <= i < |splits|
    ensures var damage := Hit(Max(0, base + splits[i]), Guarded(t.defense, t.blocking));
      && Volley(base, t, splits[i..]).0 == Volley(base, Wound(t, damage), splits[i + 1..]).0
      && Volley(base, t, splits[i..]).1 == damage + Volley(base, Wound(t, damage), splits[i + 1..]).1
  {
    assert splits[i..][0] == splits[i] && splits[i..][1..] == splits[i + 1..];
  }
}
