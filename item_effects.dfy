/** What items do to a character (MagicalRealm/items.py): `use` of the consumables and
    `equip` / `unequip` of the equipment. Each operation is a function on the snapshot
    `Characters.Stats` and a method that performs the source's assignments on an `Item`
    and a `Combatant`, proved to leave the snapshot the function describes. */
module ItemEffects {
  import opened Basics
  import opened Items
  import opened Characters
  import opened Combatants

  // ---------------------------------------------------------------- consumables

  /** The effect of a consumable once a use has been spent: a potion refills up to the
      maximum, the elixir sets the boost, its duration, and adds 10 to the attack. */
  function Drink(s: Stats, k: ItemKind): (r: Stats)
    requires k.IsConsumable()
    ensures k.HealthPotion? ==> r == s.(hp := Min(s.maxHp, s.hp + HealAmount(k.size)))
    ensures k.ManaPotion? ==> r == s.(mana := Min(s.maxMana, s.mana + ManaAmount(k.size)))
    ensures k.StrengthElixir? ==> r == s.(attackBoost := 10, attackBoostDuration := 3, attack := s.attack + 10)
  {
    match k
    case HealthPotion(size) => Restore(s, HealAmount(size))
    case ManaPotion(size) => s.(mana := Min(s.maxMana, s.mana + ManaAmount(size)))
    case StrengthElixir => s.(attackBoost := 10, attackBoostDuration := 3, attack := s.attack + 10)
  }

  /** `item.use(character)`: the character's new snapshot, the item's uses left, and
      whether it was used. Equipment cannot be used; a depleted consumable neither. */
  function UseItem(s: Stats, k: ItemKind, uses: int): (r: (Stats, int, bool))
    ensures r.2 <==> k.IsConsumable() && uses > 0
    ensures !r.2 ==> r.0 == s && r.1 == uses
    ensures r.2 ==> r.1 == uses - 1 && r.0 == Drink(s, k)
  {
    if !k.IsConsumable() || uses <= 0 then (s, uses, false)
    else (Drink(s, k), uses - 1, true)
  }

  /** No item use breaks the bounds on hit points and mana, and a potion never takes
      anything away: a health potion gains at most its amount and reaches the maximum
      whenever the missing hit points are no more than that. */
  lemma UseKeepsVital(s: Stats, k: ItemKind, uses: int)
    requires Vital(s)
    ensures var r := UseItem(s, k, uses).0;
      && Vital(r)
      && s.hp <= r.hp && s.mana <= r.mana
      && (k.HealthPotion? && uses > 0 ==> r.hp - s.hp == Min(HealAmount(k.size), s.maxHp - s.hp))
  {
  }

  /** A consumable can be used as many times as its counter says, and never again. */
  lemma UsesRunOut(s: Stats, k: ItemKind)
    requires k.IsConsumable()
    ensures UseItem(s, k, 1).2 && UseItem(s, k, 1).1 == 0
    ensures !UseItem(UseItem(s, k, 1).0, k, UseItem(s, k, 1).1).2
  {
  }

  /** `Consumable.use` and the overrides of the three consumables; `Item.use`, which
      refuses, for equipment. */
  method Use(item: Item, c: Combatant) returns (used: bool)
    modifies item, c
    ensures (c.View(), item.uses, used) == UseItem(old(c.View()), item.kind, old(item.uses))
  {
    if !item.kind.IsConsumable() {
      return false;
    }
    if item.uses <= 0 {
      return false;
    }
    item.uses := item.uses - 1;
    match item.kind {
      case HealthPotion(size) =>
        c.Recover(HealAmount(size));
      case ManaPotion(size) =>
        c.Replenish(ManaAmount(size));
      case StrengthElixir =>
        c.Empower(10, 3);
    }
    return true;
  }

  // ---------------------------------------------------------------- equipment

  /** The stat names in the order the loops below visit them. */
  const AllStats: seq<Stat> := [AttackStat, DefenseStat, MaxHpStat, MaxManaStat]

  /** The boost `b` gives `stat`, 0 when it has no entry for it. */
  function Boost(b: map<Stat, int>, stat: Stat): int
  {
    if stat in b then b[stat] else 0
  }

  /** One entry of a `stat_boost` dict taken off: a lower maximum also lowers the
      current value down to it. */
  function StripOne(s: Stats, stat: Stat, v: int): Stats
  {
    match stat
    case AttackStat => s.(attack := s.attack - v)
    case DefenseStat => s.(defense := s.defense - v)
    case MaxHpStat => s.(maxHp := s.maxHp - v, hp := Min(s.hp, s.maxHp - v))
    case MaxManaStat => s.(maxMana := s.maxMana - v, mana := Min(s.mana, s.maxMana - v))
  }

  /** One entry of a `stat_boost` dict put on: a higher maximum does not refill. */
  function ApplyOne(s: Stats, stat: Stat, v: int): Stats
  {
    match stat
    case AttackStat => s.(attack := s.attack + v)
    case DefenseStat => s.(defense := s.defense + v)
    case MaxHpStat => s.(maxHp := s.maxHp + v)
    case MaxManaStat => s.(maxMana := s.maxMana + v)
  }

  /** Two different entries touch different fields, so the order in which Python
      iterates a dict does not change what the loops leave. */
  lemma StripCommutes(s: Stats, x: Stat, vx: int, y: Stat, vy: int)
    requires x != y
    ensures StripOne(StripOne(s, x, vx), y, vy) == StripOne(StripOne(s, y, vy), x, vx)
    ensures ApplyOne(ApplyOne(s, x, vx), y, vy) == ApplyOne(ApplyOne(s, y, vy), x, vx)
  {
  }

  /** All of a piece's boosts taken off: each maximum lowered by its boost, the points
      above a lowered maximum cut back to it, attack and defence lowered. */
  function Strip(s: Stats, b: map<Stat, int>): Stats
  {
    s.(attack := s.attack - Boost(b, AttackStat),
       defense := s.defense - Boost(b, DefenseStat),
       maxHp := s.maxHp - Boost(b, MaxHpStat),
       hp := if MaxHpStat in b then Min(s.hp, s.maxHp - b[MaxHpStat]) else s.hp,
       maxMana := s.maxMana - Boost(b, MaxManaStat),
       mana := if MaxManaStat in b then Min(s.mana, s.maxMana - b[MaxManaStat]) else s.mana)
  }

  /** All of a piece's boosts put on: maxima, attack and defence raised, the points kept. */
  function Apply(s: Stats, b: map<Stat, int>): Stats
  {
    s.(attack := s.attack + Boost(b, AttackStat),
       defense := s.defense + Boost(b, DefenseStat),
       maxHp := s.maxHp + Boost(b, MaxHpStat),
       maxMana := s.maxMana + Boost(b, MaxManaStat))
  }

  /** Whether the loops below have handled an entry of `b` for `x` once they have visited
      the first `n` stats of `AllStats`. */
  predicate Visited(b: map<Stat, int>, x: Stat, n: int)
  {
    x in b && (match x case AttackStat => 0 case DefenseStat => 1 case MaxHpStat => 2 case MaxManaStat => 3) < n
  }

  /** The removal loop after it has visited the first `n` stats. */
  function StripUpTo(s: Stats, b: map<Stat, int>, n: int): Stats
  {
    s.(attack := if Visited(b, AttackStat, n) then s.attack - b[AttackStat] else s.attack,
       defense := if Visited(b, DefenseStat, n) then s.defense - b[DefenseStat] else s.defense,
       maxHp := if Visited(b, MaxHpStat, n) then s.maxHp - b[MaxHpStat] else s.maxHp,
       hp := if Visited(b, MaxHpStat, n) then Min(s.hp, s.maxHp - b[MaxHpStat]) else s.hp,
       maxMana := if Visited(b, MaxManaStat, n) then s.maxMana - b[MaxManaStat] else s.maxMana,
       mana := if Visited(b, MaxManaStat, n) then Min(s.mana, s.maxMana - b[MaxManaStat]) else s.mana)
  }

  /** The application loop after it has visited the first `n` stats. */
  function ApplyUpTo(s: Stats, b: map<Stat, int>, n: int): Stats
  {
    s.(attack := if Visited(b, AttackStat, n) then s.attack + b[AttackStat] else s.attack,
       defense := if Visited(b, DefenseStat, n) then s.defense + b[DefenseStat] else s.defense,
       maxHp := if Visited(b, MaxHpStat, n) then s.maxHp + b[MaxHpStat] else s.maxHp,
       maxMana := if Visited(b, MaxManaStat, n) then s.maxMana + b[MaxManaStat] else s.maxMana)
  }

  /** Visiting one more stat takes off its entry, if any. */
  lemma StripStep(s: Stats, b: map<Stat, int>, n: int)
    requires 0 <= n < |AllStats|
    ensures StripUpTo(s, b, n + 1) ==
      var x := AllStats[n]; if x in b then StripOne(StripUpTo(s, b, n), x, b[x]) else StripUpTo(s, b, n)
  {
    if n == 0 {
    } else if n == 1 {
    } else if n == 2 {
    } else {
    }
  }

  /** Visiting one more stat puts on its entry, if any. */
  lemma ApplyStep(s: Stats, b: map<Stat, int>, n: int)
    requires 0 <= n < |AllStats|
    ensures ApplyUpTo(s, b, n + 1) ==
      var x := AllStats[n]; if x in b then ApplyOne(ApplyUpTo(s, b, n), x, b[x]) else ApplyUpTo(s, b, n)
  {
    if n == 0 {
    } else if n == 1 {
    } else if n == 2 {
    } else {
    }
  }

  /** Before the loop nothing is taken off; after it, everything is. */
  lemma StripUpToEnds(s: Stats, b: map<Stat, int>)
    ensures StripUpTo(s, b, 0) == s
    ensures StripUpTo(s, b, |AllStats|) == Strip(s, b)
  {
  }

  /** Before the loop nothing is put on; after it, everything is. */
  lemma ApplyUpToEnds(s: Stats, b: map<Stat, int>)
    ensures ApplyUpTo(s, b, 0) == s
    ensures ApplyUpTo(s, b, |AllStats|) == Apply(s, b)
  {
  }

  /** `equip(character)`: the piece in the same slot, if any, has its boosts taken off,
      then this piece's boosts are put on and it takes the slot. */
  function EquipStats(s: Stats, item: Item): (r: Stats)
    requires item.kind.IsEquipment()
    ensures r.equipment == s.equipment[item.kind.SlotOf() := item]
    ensures r.hp <= s.hp && r.mana <= s.mana
  {
    var slot := item.kind.SlotOf();
    var s1 := if slot in s.equipment then Strip(s, s.equipment[slot].boosts) else s;
    Apply(s1, item.boosts).(equipment := s.equipment[slot := item])
  }

  /** `unequip(character)`: refused when nothing is in the piece's slot; otherwise the
      piece's own boosts are taken off and the slot is emptied. */
  function UnequipStats(s: Stats, item: Item): (r: (Stats, bool))
    requires item.kind.IsEquipment()
    ensures r.1 <==> item.kind.SlotOf() in s.equipment
    ensures !r.1 ==> r.0 == s
    ensures r.1 ==> r.0.equipment == s.equipment - {item.kind.SlotOf()}
    ensures r.0.hp <= s.hp && r.0.mana <= s.mana
  {
    var slot := item.kind.SlotOf();
    if slot !in s.equipment then (s, false)
    else (Strip(s, item.boosts).(equipment := s.equipment - {slot}), true)
  }

  /** Equipping into an empty slot and unequipping again restores the character, as
      long as the hit points and mana were within their maxima to begin with. */
  lemma EquipUnequipRoundTrip(s: Stats, item: Item)
    requires item.kind.IsEquipment() && item.kind.SlotOf() !in s.equipment
    requires s.hp <= s.maxHp && s.mana <= s.maxMana
    ensures UnequipStats(EquipStats(s, item), item) == (s, true)
  {
    var slot := item.kind.SlotOf();
    var e := EquipStats(s, item);
    assert e.equipment - {slot} == s.equipment;
  }

  /** Equipping over an occupied slot is unequipping the occupant and then equipping
      into the empty slot. */
  lemma EquipReplaces(s: Stats, item: Item)
    requires item.kind.IsEquipment() && item.kind.SlotOf() in s.equipment
    requires s.equipment[item.kind.SlotOf()].kind.IsEquipment()
    requires s.equipment[item.kind.SlotOf()].kind.SlotOf() == item.kind.SlotOf()
    ensures EquipStats(s, item) == EquipStats(UnequipStats(s, s.equipment[item.kind.SlotOf()]).0, item)
  {
    var slot := item.kind.SlotOf();
    assert (s.equipment - {slot})[slot := item] == s.equipment[slot := item];
  }

  /** With non-negative boosts, equipping into an empty slot keeps the bounds on hit
      points and mana (the maxima only grow) and never lowers a stat. */
  lemma EquipKeepsVital(s: Stats, item: Item)
    requires item.kind.IsEquipment() && item.kind.SlotOf() !in s.equipment && Vital(s)
    requires forall x :: x in item.boosts ==> item.boosts[x] >= 0
    ensures var r := EquipStats(s, item);
      && Vital(r) && r.hp == s.hp && r.mana == s.mana
      && r.attack >= s.attack && r.defense >= s.defense && r.maxHp >= s.maxHp && r.maxMana >= s.maxMana
  {
  }

  /** `unequip` goes by the slot only: a piece that is not the one worn there still
      empties the slot, and it is its own boosts, not the occupant's, that come off. */
  lemma UnequipGoesBySlot(s: Stats, item: Item)
    requires item.kind.IsEquipment() && item.kind.SlotOf() in s.equipment
    ensures UnequipStats(s, item).1
    ensures UnequipStats(s, item).0.attack == s.attack - Boost(item.boosts, AttackStat)
    ensures item.kind.SlotOf() !in UnequipStats(s, item).0.equipment
  {
  }

  /** One entry of the loop that takes boosts off. */
  method StripEntry(c: Combatant, stat: Stat, value: int)
    modifies c
    ensures c.View() == StripOne(old(c.View()), stat, value)
  {
    match stat {
      case AttackStat =>
        c.Train(-value, 0);
      case DefenseStat =>
        c.Train(0, -value);
      case MaxHpStat =>
        c.WidenHp(-value);
        c.ClampHp();
      case MaxManaStat =>
        c.WidenMana(-value);
        c.ClampMana();
    }
  }

  /** One entry of the loop that puts boosts on. */
  method ApplyEntry(c: Combatant, stat: Stat, value: int)
    modifies c
    ensures c.View() == ApplyOne(old(c.View()), stat, value)
  {
    match stat {
      case AttackStat =>
        c.Train(value, 0);
      case DefenseStat =>
        c.Train(0, value);
      case MaxHpStat =>
        c.WidenHp(value);
      case MaxManaStat =>
        c.WidenMana(value);
    }
  }

  /** The `for stat, value in stat_boost.items()` loop that takes boosts off. */
  method StripBoosts(c: Combatant, b: map<Stat, int>)
    modifies c
    ensures c.View() == Strip(old(c.View()), b)
  {
    StripUpToEnds(c.View(), b);
    for i := 0 to |AllStats|
      invariant c.View() == StripUpTo(old(c.View()), b, i)
    {
      StripStep(old(c.View()), b, i);
      var stat := AllStats[i];
      if stat in b {
        StripEntry(c, stat, b[stat]);
      }
    }
    StripUpToEnds(old(c.View()), b);
  }

  /** The `for stat, value in self.stat_boost.items()` loop that puts boosts on. */
  method ApplyBoosts(c: Combatant, b: map<Stat, int>)
    modifies c
    ensures c.View() == Apply(old(c.View()), b)
  {
    ApplyUpToEnds(c.View(), b);
    for i := 0 to |AllStats|
      invariant c.View() == ApplyUpTo(old(c.View()), b, i)
    {
      ApplyStep(old(c.View()), b, i);
      var stat := AllStats[i];
      if stat in b {
        ApplyEntry(c, stat, b[stat]);
      }
    }
    ApplyUpToEnds(old(c.View()), b);
  }

  /** `Equipment.equip` */
  method Equip(item: Item, c: Combatant) returns (ok: bool)
    requires item.kind.IsEquipment()
    modifies c
    ensures ok && c.View() == EquipStats(old(c.View()), item)
  {
    var slot := item.kind.SlotOf();
    if slot in c.equipment {
      var worn := c.equipment[slot];
      StripBoosts(c, worn.boosts);
    }
    ApplyBoosts(c, item.boosts);
    c.Outfit(c.equipment[slot := item]);
    return true;
  }

  /** `Equipment.unequip` */
  method Unequip(item: Item, c: Combatant) returns (ok: bool)
    requires item.kind.IsEquipment()
    modifies c
    ensures (c.View(), ok) == UnequipStats(old(c.View()), item)
  {
    var slot := item.kind.SlotOf();
    if slot !in c.equipment {
      return false;
    }
    StripBoosts(c, item.boosts);
    c.Outfit(c.equipment - {slot});
    return true;
  }
}
