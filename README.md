# Magical Realms: a verified model of the combat and progression engine

Magical Realms is a turn-based role-playing game. A player character fights villains
and monsters, gains experience and levels, evolves through class tiers, and collects
and trades items. This project models the engine underneath the game in Dafny:

- **characters.py**: the character classes (`Character`, `Barbarian`, `Archer`, `Mage`,
  `Villain`, `DarkKnight`, `DarkArcher`, `DarkMage`), covering their attacks, blocking
  and dodging, the Mage's heal, and experience, levels and class evolution.
- **MagicalRealm/monsters.py**: the monsters (`Monster`, `Slime`, `Goblin`, `Skeleton`,
  `Dragon`, `Vampire`), their level-scaled stats, boss multipliers, gold rewards and
  special attacks, plus the encounter generator `get_monster_by_level`.
- **MagicalRealm/items.py**: consumables and their `uses` counter, equipment and the
  equipment slots, the capacity-bounded inventory, the item generators, and the shop.
- **combat.py**: the turn machine that alternates player and villain turns, the block
  reset after each turn, the end check, and the villain's decision policy.

The model takes the source's own shape. Each rule of the game is a function on a
snapshot `Characters.Stats` of a character, with the random draws it makes passed in
as parameters. The objects the game changes in place have classes whose methods
perform the same assignments in the same order:

- `Combatants.Combatant`, a character or monster;
- `Items.Item` and `Items.Inventory`;
- `Market.Shop`;
- `Combat.Combat`.

Each such method is proved to leave exactly the snapshot the rule function describes.
The properties the game relies on are then proved about the rule functions. Examples:

- hit points and mana stay within their bounds through every attack, item use and turn;
- blocking never increases the damage taken;
- each special attack spends its mana exactly when it goes off;
- levelling keeps tier, title and skills in step with the level;
- equipping and then unequipping restores the character;
- a failed purchase changes nothing.

Modules, in dependency order:

| module | file | contents |
|---|---|---|
| Basics | basics.dfy | `Max`, `Min`, truncating division `Trunc`, integer bands, `Option` |
| Items | items.dfy | item kinds, `Item`, `Inventory`, `list.remove` as `RemoveFirst` |
| Loot | loot.dfy | `random.choices`, the item generators |
| Market | market.dfy | `Shop` |
| Characters | characters.dfy | `Stats`, every attack of characters.py as a function |
| Monsters | monsters.dfy | monster stats, monster attacks, encounter choice |
| Progression | progression.dfy | `gain_xp`, `level_up`, `evolve_class` and the evolution invariant |
| Outcomes | outcomes.dfy | method dispatch of `attack` / `special_attack` and the properties of every attack |
| Combatants | combatants.dfy | the class `Combatant` |
| ItemEffects | item_effects.dfy | `use`, `equip`, `unequip` on a `Combatant` |
| Combat | combat.dfy | the villain policy and the class `Combat` |

## Model

Members without a row are helpers of the rows' members: the single-field update
methods of `Combatants.Combatant` (`Advance`, `Grow`, `RaiseHp`, `RaiseMana`, `Train`,
`Retitle`, `Learn`, `Blow`, `TryDodge`) and its dispatchers `HeroSpecialMove`,
`DarkSpecialMove` and `MonsterSpecialMove`, plus `Combatants.VolleyStep`,
`Outcomes.MonsterKindSpends`, `Market.StockItem`, `Loot.Sum`, `Loot.SumSnoc` and `Basics.DivMod`.

| member | source | states |
|---|---|---|
| Basics.TruncTowardZero | characters.py:89 | the quotient rounded toward zero, as Python's `int()` of a product truncates |
| Items.Item.constructor | MagicalRealm/items.py:6-26 | a new item carries its data; a consumable starts with one use, equipment with none |
| Items.RemoveFirst | MagicalRealm/items.py:262-267 | an absent element leaves the list alone; a present one shortens it by one and adds nothing |
| Items.RemoveFirstCounts | MagicalRealm/items.py:262-267 | `list.remove` takes away exactly one copy of the element (multiset difference) |
| Items.RemoveFirstAfter | MagicalRealm/items.py:262-267 | the copy removed is the first one |
| Items.RemoveFirstAt | MagicalRealm/items.py:262-267 | removing the element at its first index cuts out exactly that index |
| Items.ConsumablesOf | MagicalRealm/items.py:269-271 | keeps exactly the consumables of the list: every kept item is one, and every consumable is kept |
| Items.EquipmentOf | MagicalRealm/items.py:273-275 | keeps exactly the equipment pieces of the list |
| Items.ConsumablesOfAppend | MagicalRealm/items.py:269-271 | the consumables of two lists joined are those of the first followed by those of the second, so the list order is kept |
| Items.EquipmentOfAppend | MagicalRealm/items.py:273-275 | the same for equipment: filtering keeps the list order |
| Items.ConsumablesAndEquipmentSplit | MagicalRealm/items.py:269-275 | every item of a list is in exactly one of the two filtered lists: together they are a permutation of it |
| Items.Inventory.constructor | MagicalRealm/items.py:250-253 | an empty bag with the given capacity and no gold |
| Items.Inventory.AddItem | MagicalRealm/items.py:255-260 | succeeds iff the bag is below capacity; then appends at the end, otherwise changes nothing; gold untouched |
| Items.Inventory.RemoveItem | MagicalRealm/items.py:262-267 | succeeds iff the item is in the bag, and removes its first occurrence only |
| Items.Inventory.Consumables | MagicalRealm/items.py:269-271 | the bag's consumables in bag order: only consumables held in the bag, and every one of them |
| Items.Inventory.Equipment | MagicalRealm/items.py:273-275 | the bag's equipment in bag order: only equipment held in the bag, and every piece of it |
| Loot.Pick | MagicalRealm/items.py:293-296 | `random.choices` returns an index of the population, and with non-negative weights one of positive weight |
| Loot.PickInterval | MagicalRealm/items.py:293-296 | the picked index is the one whose slice of the running weight totals holds the draw, as the bisection in `random.choices` selects it |
| Loot.DropTotals | MagicalRealm/items.py:295 | the running totals of the drop weights are 20, 40, 50, 75, 95 and 100 |
| Loot.DropWeightsTotal | MagicalRealm/items.py:295 | the drop weights add up to 100 |
| Loot.DropCategory | MagicalRealm/items.py:293-296 | with `random() == u` the drop is a weapon below 0.2, armour below 0.4, an accessory below 0.5, a health potion below 0.75, a mana potion below 0.95 and an elixir from there on, each an if-and-only-if |
| Loot.GenerateWeapon | MagicalRealm/items.py:336-369 | a weapon boosting attack only, by the level plus the quality's band, worth the level times the quality's factor plus its band |
| Loot.GenerateArmor | MagicalRealm/items.py:372-405 | armour boosting defence only, within the quality's band, priced likewise |
| Loot.BandsRiseWithQuality | MagicalRealm/items.py:349-364 | a better quality strictly raises both ends of the weapon and armour bands and every price factor |
| Loot.BoostsOf | MagicalRealm/items.py:440-447 | the dict built by the loop has an entry for every selected stat and no other |
| Loot.BoostsOfSize | MagicalRealm/items.py:439-447 | distinct selected stats give one entry each |
| Loot.BoostsOfValues | MagicalRealm/items.py:443-447 | each selected stat keeps its level part plus its own draw |
| Loot.BoostsInBand | MagicalRealm/items.py:443-447 | every boost lies within its stat's band: `stat_range` for attack and defence, five times it for the maxima |
| Loot.AccessoryData | MagicalRealm/items.py:408-465 | an accessory boosting as many distinct stats as the quality allows, each within its band, with a quality-scaled value |
| Loot.GenerateAccessory | MagicalRealm/items.py:408-465 | the generator, loop included, returns exactly `AccessoryData` |
| Loot.FillBoosts | MagicalRealm/items.py:440-447 | the `for stat in selected_stats` loop builds exactly `BoostsOf` |
| Loot.DropQuality | MagicalRealm/items.py:299-309 | rare iff the first draw is below 0.2 (0.3 for a boss); uncommon iff not rare and the second draw is below 0.3 (0.5); legendary iff all three draws miss, the third threshold being 0.5 (0.8) |
| Loot.BossBonusSkew | MagicalRealm/items.py:299-309 | the boss bonus never makes rare or uncommon worse and never creates a legendary; it can turn a legendary roll into a common one |
| Loot.DropPotionSize | MagicalRealm/items.py:318-331 | large iff past level 10 or rare; small iff at most level 5 and neither uncommon nor rare |
| Loot.GenerateRandomItem | MagicalRealm/items.py:291-333 | the drawn category fixes the kind: weapons and armour carry one boost within the band of the drawn quality, accessories a quality-bounded number of boosts, potions the size of the drawn quality and level (large past level 10), the elixir its fixed data; an item has boosts iff it is equipment |
| Market.StockSize | MagicalRealm/items.py:482 | three items plus one per two levels, never more than ten |
| Market.QualityWeights | MagicalRealm/items.py:495-500 | three non-negative weights summing to 100 |
| Market.LuckFavoursRare | MagicalRealm/items.py:495-500 | more luck never lowers the weight of rare nor raises that of common |
| Market.ShopWeightsTotal | MagicalRealm/items.py:489 | the shop's category weights add up to 100 |
| Market.ShopCategory | MagicalRealm/items.py:487-491 | with `random() == u` the stocked item is a weapon below 0.2, armour below 0.4, an accessory below 0.55, a health potion below 0.75, a mana potion below 0.95 and an elixir from there on, each an if-and-only-if |
| Market.ShopTotals | MagicalRealm/items.py:489 | the running totals of the shop weights are 20, 40, 55, 75, 95 and 100 |
| Market.ShopQuality | MagicalRealm/items.py:502-506 | common iff `100·u` is below the common weight, uncommon iff it is below common plus uncommon, rare otherwise; never legendary and never a quality of zero weight |
| Market.ShopItem | MagicalRealm/items.py:486-524 | each category yields its kind of item; shop weapons and armour stay within the rare bands; potions of the drawn size |
| Market.SellPrice | MagicalRealm/items.py:586 | half the value rounded down but at least 1, and never more than the value |
| Market.BuyThenSellLoses | MagicalRealm/items.py:552-593 | buying an item and selling it back never gains gold, and loses some for any item worth 3 or more |
| Market.NewItems | MagicalRealm/items.py:523 | one fresh item per description, in order, each consumable with one use |
| Market.Shop.constructor | MagicalRealm/items.py:471-475 | the new shop holds `StockSize(level)` fresh items, the j-th generated from the j-th draw; every consumable has its one use, equipment none |
| Market.Shop.Refresh | MagicalRealm/items.py:477-524 | the old stock is replaced by `StockSize(level)` fresh items, the j-th generated from the j-th draw; every consumable has its one use, equipment none |
| Market.Shop.BuyItem | MagicalRealm/items.py:552-575 | succeeds iff the index is valid, the gold suffices and the bag has room; then the item moves from the stock to the end of the bag for exactly its value; on failure nothing changes |
| Market.Shop.SellItem | MagicalRealm/items.py:577-593 | an invalid index returns false and changes nothing; otherwise the seller gains the sell price, loses that one item, and the result is `None` |
| Characters.Newborn | characters.py:6-32 | a new character is at full hit points and mana, level 1 with no experience and a threshold of 100, tier 0, no skills, stance or equipment |
| Characters.InitialStats | characters.py:309-311 | every non-monster class starts alive, within its bounds, at level 1 (the classes' constructors at lines 6, 310, 348, 413, 473, 482, 522, 564) |
| Characters.Strike | characters.py:34-70 | a blocking attacker only lowers its guard; otherwise a dodging target loses its stance and avoids the blow at 40%, and a blow that lands deals `max(0, max(0, attack + δ) − defence)` with the defence doubled while the target blocks |
| Characters.SpecialStrike | characters.py:72-115 | without 15 mana nothing but the guard changes; otherwise exactly 15 mana is spent, the dodge is spent, a 30% dodge avoids it, and a landing blow deals `int(1.5·attack) + δ` floored at 0, less the (doubled when blocking) defence, floored at 0 |
| Characters.BlockDoubles | characters.py:59-64 | against a blocking target the base attack and the base special deal what they deal against a non-blocking target with twice the defence |
| Characters.RageAttack | characters.py:313-341 | 20 mana or nothing; the damage is exactly twice the attack plus the draw against the guarded defence, and the dodge stance is ignored |
| Characters.SteadyShot | characters.py:351-371 | a blocking archer only lowers its guard; otherwise exact damage against the guarded defence, with no dodge check |
| Characters.PrecisionShot | characters.py:373-406 | 15 mana or nothing; on a critical roll the damage is `max(0, int(1.3·attack) + δ)` whatever the target's stance, otherwise that value less the (doubled when blocking) defence, floored at 0 |
| Characters.Fireball | characters.py:416-444 | 25 mana or nothing; the damage is `int(2.5·attack) + δ` floored at 0, less the defence, or less 1.5 times the defence (rounded down) when the target blocks, floored at 0 |
| Characters.HealSpell | characters.py:446-467 | without 30 mana nothing but the guard changes; otherwise 30 mana for 25 plus the draw in hit points, capped at the maximum; the reported gain lies in [0, 40] |
| Characters.DarkSlash | characters.py:485-515 | below 20 mana the generic special; otherwise 20 mana, undodgeable, damage `int(1.7·attack) + δ` floored at 0 less the (doubled when blocking) defence, and 30% of it returned as hit points within the maximum |
| Characters.PoisonArrow | characters.py:526-557 | below 25 mana the generic special; otherwise 25 mana, the target marked poisoned, and the reported damage is the mitigated `int(1.2·attack) + δ` hit plus the poison |
| Characters.DarkEnergyBlast | characters.py:567-593 | below 30 mana the generic special; otherwise 30 mana and damage `3·attack + δ` floored at 0 less `int(0.7·defence)`, times 1.5 (rounded down) when the target blocks, floored at 0 |
| Monsters.MonsterStats | MagicalRealm/monsters.py:7-29 | a monster starts at full hit points and mana, at its level, and for any level from 1 alive with positive stats |
| Monsters.BossIsStronger | MagicalRealm/monsters.py:14-19 | a boss has more hit points, mana and attack, and no less defence, than the ordinary monster |
| Monsters.DragonIsAlwaysBoss | MagicalRealm/monsters.py:204-213 | a Dragon's stats do not depend on the boss flag passed in |
| Monsters.GoldReward | MagicalRealm/monsters.py:25-29 | ten per level plus the draw, and `int(2.5·` that `)` for a boss; a non-boss reward lies in 10L+5 .. 10L+20 |
| Monsters.MonsterStrike | MagicalRealm/monsters.py:31-57 | without the mana the base attack with mana untouched; otherwise exactly its cost spent, undodgeable, damage `int(1.4·attack) + δ` floored at 0 less the (doubled when blocking) defence, floored at 0 |
| Monsters.Volley | MagicalRealm/monsters.py:87-105 | the hits of a volley only take hit points away, never below zero, and leave the dodge stance |
| Monsters.VolleyAtMostHits | MagicalRealm/monsters.py:87-105 | the damage of a volley is at most the sum of its floored hit values, and exactly that against no defence |
| Monsters.SlimeSplit | MagicalRealm/monsters.py:73-105 | without the mana the base attack; otherwise its cost and the three-hit volley |
| Monsters.SneakyStrike | MagicalRealm/monsters.py:122-148 | without the mana the base attack; otherwise the damage `int(1.3·attack) + δ` floored at 0 less half the defence, or the full (never doubled) defence when the target blocks |
| Monsters.BoneVolley | MagicalRealm/monsters.py:173-198 | without the mana the base attack; otherwise damage `int(1.5·attack) + δ` floored at 0 less the (doubled when blocking) defence, floored at 0 |
| Monsters.FireBreath | MagicalRealm/monsters.py:215-240 | without the mana the base attack; otherwise damage `2·attack + δ` less half the defence, or the full (never doubled) defence when the target blocks, floored at 0 |
| Monsters.BlockOnlyRestoresDefence | MagicalRealm/monsters.py:141-143 | a block against the Goblin's or the Dragon's special counts as a non-blocking target with twice the defence, that is, the full defence instead of half |
| Monsters.DrainingBite | MagicalRealm/monsters.py:251-261 | the base attack's effect on the target, and a fifth of the damage back to the vampire, never above its maximum and never a loss |
| Monsters.BloodDrain | MagicalRealm/monsters.py:263-294 | without the mana the base attack (no drain); otherwise its cost, damage `int(1.6·attack) + δ` floored at 0 less the (doubled when blocking) defence, and two fifths of it back within the bounds |
| Monsters.BoneAbsorb | MagicalRealm/monsters.py:164-171 | only hit points change; a non-negative amount is reduced to exactly `floor(3·amount/4)`, never more than the amount and strictly less from 4 on |
| Monsters.MonsterPool | MagicalRealm/monsters.py:298-321 | Slime and Goblin always; a Skeleton iff level 2 or more, a Vampire iff level 3 or more; never a Dragon |
| Monsters.ChooseMonster | MagicalRealm/monsters.py:298-321 | a boss iff forced or on a 10% roll; a Dragon iff level 5 or more, a boss, and a 30% roll; otherwise the picked kind of the level's pool, so Skeletons and Vampires only at their levels |
| Outcomes.AttackOutcome | characters.py:34-70 | whichever class attacks, the blow lands as the target's stance allows, the attacker's guard drops, and only a vampire's own hit points change |
| Outcomes.SpecialOutcome | characters.py:72-115 | whichever class uses its special, only the target's hit points and stance and the attacker's guard, hit points, mana and poison mark change |
| Outcomes.HeroSpecial | characters.py:313-467 | the player classes' specials change only the attacker's guard and mana |
| Outcomes.DarkSpecial | characters.py:485-593 | the villains' specials change only the attacker's guard, hit points, mana and poison mark |
| Outcomes.MonsterSpecial | MagicalRealm/monsters.py:31-294 | the monsters' specials change only the attacker's guard, hit points and mana |
| Outcomes.SpecialSpendsMana | characters.py:490-493 | mana is spent exactly when the special goes off; a villain short of mana pays the generic 15 if it can, a monster nothing; only a paid Poison Arrow marks poison; the attacker never loses hit points |
| Outcomes.HeroSpendsMana | characters.py:74-86 | a player class spends exactly its cost when it has it, and nothing otherwise |
| Outcomes.DarkSpendsMana | characters.py:531-534 | a villain spends its cost, else the fallback's 15, else nothing |
| Outcomes.MonsterSpendsMana | MagicalRealm/monsters.py:36-39 | a monster spends its cost or, falling back to the base attack, nothing |
| Outcomes.AttackKeepsVital | characters.py:43-67 | no basic attack takes either side outside its bounds or costs the attacker hit points |
| Outcomes.SpecialKeepsVital | characters.py:72-115 | no special attack takes either side outside its bounds or costs the attacker hit points |
| Outcomes.GuardNeverHurtsAttack | characters.py:58-64 | blocking never increases the damage a basic attack deals |
| Outcomes.StrikeGuard | characters.py:58-64 | blocking never increases the damage of the generic attack |
| Outcomes.GuardNeverHurtsSpecial | characters.py:103-109 | blocking never increases the damage a special attack deals |
| Outcomes.HeroGuard | characters.py:333-338 | blocking never worsens a player class's special |
| Outcomes.DarkGuard | characters.py:502-506 | blocking never worsens a villain's special |
| Outcomes.MonsterGuard | MagicalRealm/monsters.py:49-54 | blocking never worsens a monster's special |
| Outcomes.PlainMonsterGuard | MagicalRealm/monsters.py:49-54 | blocking never worsens the generic monster special |
| Outcomes.GoblinGuard | MagicalRealm/monsters.py:141-145 | blocking never worsens the sneaky strike |
| Outcomes.SkeletonGuard | MagicalRealm/monsters.py:190-195 | blocking never worsens the bone volley |
| Outcomes.DragonGuard | MagicalRealm/monsters.py:232-237 | blocking never worsens the fire breath |
| Outcomes.VampireGuard | MagicalRealm/monsters.py:280-285 | blocking never worsens the blood drain |
| Outcomes.SlimeGuard | MagicalRealm/monsters.py:95-99 | blocking never worsens the Slime's split attack |
| Outcomes.VolleyGuard | MagicalRealm/monsters.py:90-103 | a volley deals no more to a blocking target than to an unguarded one of the same defence |
| Progression.GrowthOf | characters.py:144-166 | every level adds at least 8 hit points, 5 mana, 2 attack and 1 defence |
| Progression.UnlockedTier | characters.py:181-185 | a level unlocks a tier iff it is a multiple of 5 from 5 to 30, the tier being level / 5 |
| Progression.Titles | characters.py:206-209 | seven titles per class, one per tier |
| Progression.Skills | characters.py:212-264 | six skills per player class, no two alike |
| Progression.SkillAt | characters.py:212-264 | the skill of a tier is one of the class's skills and is taught at no other tier |
| Progression.SkillsThrough | characters.py:212-264 | a player class holds one skill per tier, other classes none |
| Progression.SkillsThroughPrefix | characters.py:212-264 | a player class evolved to a tier holds the first that many skills of its table, in order and each once |
| Progression.Evolve | characters.py:187-281 | the new tier with its title and, for a player class, its skill appended; full refill; no stat lowered, hit points strictly raised from 5 |
| Progression.Advance | characters.py:140-175 | one level more, the growth added, full refill, the threshold half as large again; tier, title and skills unchanged |
| Progression.LevelUp | characters.py:140-185 | level up raises every stat, refills, keeps the bounds, and changes tier only when the new level unlocks a higher one |
| Progression.GainXp | characters.py:129-138 | experience is added and never spent; one level up iff the total reaches the threshold, and the result says so |
| Progression.NewbornProgressed | characters.py:6-32 | every new character satisfies the evolution invariant |
| Progression.LevelUpProgressed | characters.py:140-185 | a level up keeps tier, title and skills in step with the level, and raises the tier by at most one |
| Progression.GainXpProgressed | characters.py:129-138 | gaining experience keeps the evolution invariant |
| Progression.XpProgressed | characters.py:131 | experience alone has no bearing on the invariant |
| Progression.Threshold | characters.py:175 | the threshold never falls below 100 |
| Progression.LevelUpsFollowThreshold | characters.py:175 | successive level ups walk the threshold sequence |
| Progression.ThresholdDrift | characters.py:175 | after four level ups the threshold is 505, one below `int(100 * 1.5 ** 4)` == 506 |
| Combatants.Combatant.constructor | characters.py:6-32 | a new character has the initial snapshot of its class and an empty ten-slot bag |
| Combatants.Combatant.Spawn | MagicalRealm/monsters.py:7-29 | a new monster has the monster snapshot and gold reward, and a Dragon is always a boss |
| Combatants.Combatant.Block | characters.py:117-119 | only the blocking stance is set |
| Combatants.Combatant.Dodge | characters.py:121-123 | only the dodging stance is set |
| Combatants.Combatant.IsAlive | characters.py:125-127 | alive iff hit points are positive |
| Combatants.Combatant.CharacterAttack | characters.py:34-70 | leaves both objects as `Strike` describes |
| Combatants.Combatant.CharacterSpecialAttack | characters.py:72-115 | leaves both objects as `SpecialStrike` describes |
| Combatants.Combatant.BarbarianSpecialAttack | characters.py:313-341 | leaves both objects as `RageAttack` describes |
| Combatants.Combatant.ArcherAttack | characters.py:351-371 | leaves both objects as `SteadyShot` describes |
| Combatants.Combatant.ArcherSpecialAttack | characters.py:373-406 | leaves both objects as `PrecisionShot` describes |
| Combatants.Combatant.MageSpecialAttack | characters.py:416-444 | leaves both objects as `Fireball` describes |
| Combatants.Combatant.Heal | characters.py:446-467 | leaves the mage as `HealSpell` describes, returning the gain |
| Combatants.Combatant.DarkKnightSpecialAttack | characters.py:485-515 | leaves both objects as `DarkSlash` describes |
| Combatants.Combatant.DarkArcherSpecialAttack | characters.py:526-557 | leaves both objects as `PoisonArrow` describes |
| Combatants.Combatant.DarkMageSpecialAttack | characters.py:567-593 | leaves both objects as `DarkEnergyBlast` describes |
| Combatants.Combatant.MonsterSpecialAttack | MagicalRealm/monsters.py:31-57 | leaves both objects as `MonsterStrike` describes |
| Combatants.Combatant.SlimeSpecialAttack | MagicalRealm/monsters.py:73-105 | the three-hit loop leaves both objects as `SlimeSplit` describes |
| Combatants.Combatant.GoblinSpecialAttack | MagicalRealm/monsters.py:122-148 | leaves both objects as `SneakyStrike` describes |
| Combatants.Combatant.TakeDamage | MagicalRealm/monsters.py:164-171 | leaves the skeleton as `BoneAbsorb` describes |
| Combatants.Combatant.SkeletonSpecialAttack | MagicalRealm/monsters.py:173-198 | leaves both objects as `BoneVolley` describes |
| Combatants.Combatant.DragonSpecialAttack | MagicalRealm/monsters.py:215-240 | leaves both objects as `FireBreath` describes |
| Combatants.Combatant.VampireAttack | MagicalRealm/monsters.py:251-261 | leaves both objects as `DrainingBite` describes |
| Combatants.Combatant.VampireSpecialAttack | MagicalRealm/monsters.py:263-294 | leaves both objects as `BloodDrain` describes |
| Combatants.Combatant.Attack | characters.py:34-70 | dispatches to the class's `attack` and leaves `AttackOutcome` |
| Combatants.Combatant.SpecialAttack | characters.py:72-115 | dispatches to the class's `special_attack` and leaves `SpecialOutcome` |
| Combatants.Combatant.GainXp | characters.py:129-138 | leaves the snapshot `GainXp` describes and reports the level up |
| Combatants.Combatant.LevelUp | characters.py:140-185 | leaves the snapshot `LevelUp` describes |
| Combatants.Combatant.EvolveClass | characters.py:187-281 | leaves the snapshot `Evolve` describes |
| Combatants.GetMonsterByLevel | MagicalRealm/monsters.py:298-321 | a fresh monster of the chosen kind and boss flag with its level's stats and reward |
| ItemEffects.Drink | MagicalRealm/items.py:65-145 | a potion refills by its amount up to the maximum; the elixir adds 10 attack and sets the boost to 10 for 3 |
| ItemEffects.UseItem | MagicalRealm/items.py:15-36 | used iff a consumable with uses left; then one use fewer and the effect, otherwise nothing changes |
| ItemEffects.UseKeepsVital | MagicalRealm/items.py:65-114 | no item use breaks the bounds or takes hit points or mana away; a health potion gains exactly its amount or up to the maximum |
| ItemEffects.UsesRunOut | MagicalRealm/items.py:28-36 | a consumable is used once and then refuses |
| ItemEffects.Use | MagicalRealm/items.py:28-145 | leaves character and counter as `UseItem` describes, returning whether it was used |
| ItemEffects.StripCommutes | MagicalRealm/items.py:166-176 | entries for different stats commute, so dict order does not matter |
| ItemEffects.StripStep | MagicalRealm/items.py:166-176 | visiting one more stat takes off its entry, if any |
| ItemEffects.ApplyStep | MagicalRealm/items.py:180-187 | visiting one more stat puts on its entry, if any |
| ItemEffects.StripUpToEnds | MagicalRealm/items.py:166-176 | the removal loop starts from the character and ends at all boosts taken off |
| ItemEffects.ApplyUpToEnds | MagicalRealm/items.py:180-187 | the application loop starts from the character and ends at all boosts put on |
| ItemEffects.EquipStats | MagicalRealm/items.py:156-193 | the piece takes its slot; hit points and mana never rise |
| ItemEffects.UnequipStats | MagicalRealm/items.py:195-218 | refused with no change iff the slot is empty; otherwise the slot is emptied; hit points and mana never rise |
| ItemEffects.EquipUnequipRoundTrip | MagicalRealm/items.py:156-218 | equipping into an empty slot and unequipping restores the character exactly |
| ItemEffects.EquipReplaces | MagicalRealm/items.py:159-176 | equipping over an occupant is unequipping it and then equipping into the empty slot |
| ItemEffects.EquipKeepsVital | MagicalRealm/items.py:178-190 | with non-negative boosts equipping keeps the bounds and never lowers a stat |
| ItemEffects.UnequipGoesBySlot | MagicalRealm/items.py:197 | unequip checks only the slot: any piece of that slot empties it and takes off its own boosts |
| ItemEffects.StripEntry | MagicalRealm/items.py:168-176 | one entry taken off the object as `StripOne` describes |
| ItemEffects.ApplyEntry | MagicalRealm/items.py:181-187 | one entry put on the object as `ApplyOne` describes |
| ItemEffects.StripBoosts | MagicalRealm/items.py:166-176 | the loop leaves `Strip` of the boosts |
| ItemEffects.ApplyBoosts | MagicalRealm/items.py:180-187 | the loop leaves `Apply` of the boosts |
| ItemEffects.Equip | MagicalRealm/items.py:156-193 | succeeds and leaves `EquipStats` |
| ItemEffects.Unequip | MagicalRealm/items.py:195-218 | leaves `UnequipStats` and reports it |
| Combat.VillainAction | combat.py:151-179 | one of the four actions; block only below a fifth of max hit points; heal only as a Dark Mage below two fifths with 30 mana; special only with the class's mana threshold |
| Combat.LowVillainBlocks | combat.py:154-156 | below a fifth of max hit points a roll under 0.7 always blocks |
| Combat.SpecialByHealth | combat.py:171-176 | the special is tried iff the roll is under the chance, 0.6 above seven tenths of max hit points and 0.4 otherwise |
| Combat.ShortVillainAttacks | combat.py:175-179 | without the mana and without cause to block or heal, the villain attacks |
| Combat.DarkHealing | combat.py:208-216 | exactly 30 mana for 30 plus the draw, capped at the maximum, and only hit points and mana change |
| Combat.PlayerOutcome | combat.py:77-112 | block and dodge only set the player's stance; only the two attacks touch the villain; a cancelled item choice, a heal by a non-Mage and an unknown action change nothing |
| Combat.VillainOutcome | combat.py:181-220 | block only sets the villain's stance; a Dark Mage's heal leaves the player alone; action 4 by any other villain and an unknown action change nothing |
| Combat.EndTurn | combat.py:34-35 | the side stays blocking iff it chose to block this turn; nothing else changes |
| Combat.PlayerTurnOutcome | combat.py:24-37 | the player's action, after which the player blocks exactly when it chose action 3 and nothing else changes |
| Combat.VillainTurnOutcome | combat.py:39-53 | the action the policy picks, after which the villain blocks exactly when that action was 3 and nothing else changes |
| Combat.Over | combat.py:222-238 | while hit points stay within their bounds, the fight is over exactly when a side is at zero |
| Combat.PlayerTurnStance | combat.py:24-37 | after the player's turn the player blocks iff it chose action 3; the villain's stance is unchanged |
| Combat.VillainTurnStance | combat.py:39-53 | after the villain's turn the villain blocks iff its policy chose 3; the player's stance is unchanged |
| Combat.PlayerTurnKeepsVital | combat.py:24-37 | a player turn keeps both sides within bounds and never costs the player hit points |
| Combat.PlayerActionKeepsVital | combat.py:77-112 | every player action keeps both sides within bounds and never costs the player hit points |
| Combat.VillainTurnKeepsVital | combat.py:39-53 | a villain turn keeps both sides within bounds and never costs the villain hit points |
| Combat.VillainActionKeepsVital | combat.py:181-220 | every villain action keeps both sides within bounds and never costs the villain hit points |
| Combat.Combat.constructor | combat.py:8-12 | the player's turn first, no turns counted |
| Combat.Combat.UseChosenItem | combat.py:124-145 | a cancelled choice changes nothing; otherwise the item is used and leaves the bag iff the use succeeded; gold and every other item's uses are unchanged |
| Combat.Combat.ExecutePlayerAction | combat.py:77-112 | leaves both sides as `PlayerOutcome` describes; the bag and gold are unchanged except that a used item loses its use and leaves the bag iff the use succeeded |
| Combat.Combat.PlayerTurn | combat.py:24-37 | leaves both sides as `PlayerTurnOutcome` describes; the bag and gold are unchanged except that a used item loses its use and leaves the bag iff the use succeeded |
| Combat.Combat.ExecuteVillainAction | combat.py:181-220 | leaves both sides as `VillainOutcome` describes |
| Combat.Combat.VillainTurn | combat.py:39-53 | leaves both sides as `VillainTurnOutcome` describes |
| Combat.Combat.CheckCombatEnd | combat.py:222-238 | over iff either side has no hit points left |
| Combat.Combat.ExecuteTurn | combat.py:247-257 | the side whose turn it is acts and the turn passes to the other; the result says whether the fight is over after this one turn; only a player's item use changes the bag, as in `PlayerTurn`, and gold never changes |

## Left out

- Console input and output, `time.sleep`, names, emoji, descriptions, `status()`,
  `display_status`, `start_combat`, `Shop.display`, `Inventory.display` and the
  `get_player_action` input loop are not modelled. The player's choice is a parameter,
  and the action strings "1" to "6" are numbers.
- Random draws are parameters whose `requires` give the draw's range. Statements about
  the probability of an outcome are not modelled, only which outcome each draw yields.
- `Characters.Fireball` and `Characters.DarkEnergyBlast` multiply a blocking target's
  defence by 1.5 without `int()`, so the source's hit points can become fractional
  (characters.py:437-442, 585-590). The model rounds that defence down.
- Float products such as `int(x * 0.2)` and `int(x * 0.15)` are exact integer
  quotients rounded toward zero, and comparisons such as `hp < max_hp * 0.2` are exact
  rationals (`5 * hp < max_hp`). For the factors 0.15, 0.2, 0.3, 0.4, 0.5, 0.6, 0.75,
  1.2, 1.3, 1.5, 1.6, 1.7 and 2.5 this agrees with double-precision arithmetic for
  every value from 0 to 4999. The factors 0.7 and 1.4 do not agree, as the next three
  lines say.
- Characters.DarkEnergyBlast: `int(target.defense * 0.7)` (characters.py:585) is one
  less in doubles than the exact quotient for some defences, for example 90, 170, 180
  and 330, where `90 * 0.7` is 62.99… and the model's `Trunc(7 * 90, 10)` is 63.
- Monsters.MonsterStrike: `int(self.base_attack * 1.4)` (MagicalRealm/monsters.py:45)
  is likewise one less than the exact quotient for some attacks, for example 45, 85, 90
  and 165 (`45 * 1.4` is 62.99…, the model gives 63).
- Combat.VillainAction: `hp > max_hp * 0.7` (combat.py:172) holds in doubles for some
  hit points equal to the exact product, for example `max_hp == 90` with `hp == 63`.
  There the source uses the 0.6 chance and the model's `10 * hp > 7 * max_hp` uses 0.4.
- `Market.QualityWeights` requires luck of at least -10. Below that, the source's
  weights go negative and `random.choices` behaves in ways the model does not follow.
- `Combatants.Combatant.EvolveClass` of a non-player class: the source prints
  `skills[-1]` of an empty list (characters.py:280) and raises after changing the
  state. The model completes the evolution.
- Progression.Evolve, Progression.LevelUp and Progression.GainXp: the same holds on
  the function side; for a non-player class they describe a completed evolution where
  the source raises.
- `attack_boost` and `attack_boost_duration` are set by the Strength Elixir and never
  decrease anywhere in the source; the model keeps them unchanged as well. `turn_count`
  is never advanced.
- The source iterates the `stat_boost` dict in insertion order; the model visits the
  stats in one fixed order. `ItemEffects.StripCommutes` shows the order does not
  change the result.
- `use_item` checks `hasattr(player, 'inventory')`; every character has an inventory
  from its constructor (characters.py:32), so that branch is not modelled. The menu
  listing and input validation of `use_item` are out as well, leaving the removal rule.
- `Combat.Combat` and the attack methods require the two sides to be different objects.
- The GUI, the database utilities and the game loops (including the reward arithmetic
  between fights) are not part of this model.
- `Combatants.Combatant.TakeDamage` is modelled but, as in the source, no attack calls
  it. A Skeleton therefore takes full damage from every attack.
- The dodge stance is spent only by `Character.attack` and `Character.special_attack`.
  `Archer.attack`, the Barbarian's Rage Attack and every villain and monster special
  never check or clear it. The model follows the code.
- `Progression.Threshold` follows the code's repeated truncation of `xp_to_level`.
  This is not the closed form `int(100 * 1.5 ** n)`; `Progression.ThresholdDrift`
  exhibits the first level where the two differ.
- `Equipment.equip` does not remove the piece from the inventory, and the model leaves
  the bag alone too. `unequip` checks only that the slot is occupied
  (`ItemEffects.UnequipGoesBySlot`).
