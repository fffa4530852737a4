/** The level- and quality-driven item generators of MagicalRealm/items.py
    (`generate_random_item`, `generate_weapon`, `generate_armor`, `generate_accessory`).
    Every random draw is a parameter: a `randint` result lies in its `Band`, a
    `random()` result is a real in [0, 1). Names and descriptions are cosmetic and
    not modelled. */
module Loot {
  import opened Basics
  import opened Items

  datatype Quality = Common | Uncommon | Rare | Legendary

  /** Position of a quality in the order common < uncommon < rare < legendary. */
  function Rank(q: Quality): int
  {
    match q
    case Common => 0
    case Uncommon => 1
    case Rare => 2
    case Legendary => 3
  }

  // ---------------------------------------------------------------- weighted choice

  function Sum(w: seq<int>): int
  {
    if w == [] then 0 else w[0] + Sum(w[1..])
  }

  /** A running total grows by the next weight. */
  lemma {:induction false} SumSnoc(w: seq<int>, k: nat)
    requires k < |w|
    ensures Sum(w[..k + 1]) == Sum(w[..k]) + w[k]
  {
    if k > 0 {
      SumSnoc(w[1..], k - 1);
      assert w[..k + 1][1..] == w[1..][..k];
      assert w[..k][1..] == w[1..][..k - 1];
    }
  }

  /** `random.choices(population, weights)[0]` as an index: Python bisects the running
      totals of the weights with `x == random() * total`, searching no further than the
      last index. */
  function Pick(w: seq<int>, x: real): (i: nat)
    requires |w| > 0
    ensures i < |w|
    ensures (forall j :: 0 <= j < |w| ==> w[j] >= 0) && 0.0 <= x < Sum(w) as real ==> w[i] > 0
  {
    if |w| == 1 || x < w[0] as real then 0
    else 1 + Pick(w[1..], x - w[0] as real)
  }

  /** The index picked is the one whose slice of the running totals holds the draw:
      the weights before it sum to at most `x`, and with it to more than `x`. */
  lemma {:induction false} PickInterval(w: seq<int>, x: real)
    requires |w| > 0 && forall j :: 0 <= j < |w| ==> w[j] >= 0
    requires 0.0 <= x < Sum(w) as real
    ensures Sum(w[..Pick(w, x)]) as real <= x < Sum(w[..Pick(w, x) + 1]) as real
  {
    assert w[..1] == [w[0]] && Sum([w[0]]) == w[0] + Sum([]);
    if |w| == 1 {
      assert w[..1] == w;
    } else if x >= w[0] as real {
      var i := Pick(w[1..], x - w[0] as real);
      PickInterval(w[1..], x - w[0] as real);
      assert w[..i + 1][1..] == w[1..][..i];
      assert w[..i + 2][1..] == w[1..][..i + 1];
    }
  }

  /** What `generate_random_item` and `Shop.refresh` choose between, in their order. */
  datatype Category = WeaponPick | ArmorPick | AccessoryPick | HealthPick | ManaPick | ElixirPick

  const Categories: seq<Category> := [WeaponPick, ArmorPick, AccessoryPick, HealthPick, ManaPick, ElixirPick]

  /** Weights of `generate_random_item`. */
  const DropWeights: seq<int> := [20, 20, 10, 25, 20, 5]

  /** The drop weights are percentages. */
  lemma DropWeightsTotal()
    ensures Sum(DropWeights) == 100
  {
  }

  /** The running totals of the drop weights. */
  lemma DropTotals()
    ensures Sum(DropWeights[..0]) == 0 && Sum(DropWeights[..1]) == 20 && Sum(DropWeights[..2]) == 40
    ensures Sum(DropWeights[..3]) == 50 && Sum(DropWeights[..4]) == 75 && Sum(DropWeights[..5]) == 95
    ensures Sum(DropWeights[..6]) == 100
  {
    SumSnoc(DropWeights, 0); SumSnoc(DropWeights, 1); SumSnoc(DropWeights, 2);
    SumSnoc(DropWeights, 3); SumSnoc(DropWeights, 4); SumSnoc(DropWeights, 5);
  }

  /** The category drawn by `random.choices(..., weights=DropWeights)` with `random() == u`:
      each category takes its weight's share of [0, 1) in the listed order. */
  function DropCategory(u: real): (c: Category)
    requires Unit(u)
    ensures c == WeaponPick <==> u < 0.2
    ensures c == ArmorPick <==> 0.2 <= u < 0.4
    ensures c == AccessoryPick <==> 0.4 <= u < 0.5
    ensures c == HealthPick <==> 0.5 <= u < 0.75
    ensures c == ManaPick <==> 0.75 <= u < 0.95
    ensures c == ElixirPick <==> 0.95 <= u
  {
    DropWeightsTotal();
    DropTotals();
    var i := Pick(DropWeights, u * 100.0);
    PickInterval(DropWeights, u * 100.0);
    Categories[i]
  }

  // ---------------------------------------------------------------- weapons and armour

  /** The draws of `generate_weapon` / `generate_armor`: the boost's and the value's `randint`. */
  datatype GearRoll = GearRoll(boost: int, price: int)

  function WeaponBoostBand(q: Quality): Band
  {
    match q
    case Common => Band(1, 3)
    case Uncommon => Band(3, 6)
    case Rare => Band(5, 10)
    case Legendary => Band(10, 20)
  }

  function ArmorBoostBand(q: Quality): Band
  {
    match q
    case Common => Band(1, 2)
    case Uncommon => Band(2, 4)
    case Rare => Band(3, 7)
    case Legendary => Band(5, 15)
  }

  /** Weapons and armour are worth `level * GearPriceFactor(q) + randint(GearPriceBand(q))`. */
  function GearPriceFactor(q: Quality): int
  {
    match q
    case Common => 10
    case Uncommon => 20
    case Rare => 50
    case Legendary => 100
  }

  function GearPriceBand(q: Quality): Band
  {
    match q
    case Common => Band(5, 15)
    case Uncommon => Band(10, 30)
    case Rare => Band(25, 75)
    case Legendary => Band(50, 150)
  }

  predicate WeaponRollFits(q: Quality, g: GearRoll)
  {
    WeaponBoostBand(q).Has(g.boost) && GearPriceBand(q).Has(g.price)
  }

  predicate ArmorRollFits(q: Quality, g: GearRoll)
  {
    ArmorBoostBand(q).Has(g.boost) && GearPriceBand(q).Has(g.price)
  }

  /** `generate_weapon(level, quality)`: a weapon boosting attack only, by `level` plus
      the quality's band. */
  function GenerateWeapon(level: int, q: Quality, g: GearRoll): (d: ItemData)
    requires WeaponRollFits(q, g)
    ensures d.kind == Weapon && d.boosts.Keys == {AttackStat}
    ensures level + WeaponBoostBand(q).lo <= d.boosts[AttackStat] <= level + WeaponBoostBand(q).hi
    ensures level * GearPriceFactor(q) + GearPriceBand(q).lo <= d.value
    ensures d.value <= level * GearPriceFactor(q) + GearPriceBand(q).hi
  {
    ItemData(Weapon, level * GearPriceFactor(q) + g.price, map[AttackStat := level + g.boost])
  }

  /** `generate_armor(level, quality)`: armour boosting defence only. */
  function GenerateArmor(level: int, q: Quality, g: GearRoll): (d: ItemData)
    requires ArmorRollFits(q, g)
    ensures d.kind == Armor && d.boosts.Keys == {DefenseStat}
    ensures level + ArmorBoostBand(q).lo <= d.boosts[DefenseStat] <= level + ArmorBoostBand(q).hi
    ensures level * GearPriceFactor(q) + GearPriceBand(q).lo <= d.value
    ensures d.value <= level * GearPriceFactor(q) + GearPriceBand(q).hi
  {
    ItemData(Armor, level * GearPriceFactor(q) + g.price, map[DefenseStat := level + g.boost])
  }

  /** Better quality never lowers either end of a boost band or the price factor, and
      strictly raises both ends. */
  lemma BandsRiseWithQuality(q1: Quality, q2: Quality)
    requires Rank(q1) < Rank(q2)
    ensures WeaponBoostBand(q1).lo < WeaponBoostBand(q2).lo && WeaponBoostBand(q1).hi < WeaponBoostBand(q2).hi
    ensures ArmorBoostBand(q1).lo < ArmorBoostBand(q2).lo && ArmorBoostBand(q1).hi < ArmorBoostBand(q2).hi
    ensures GearPriceFactor(q1) < GearPriceFactor(q2) && AccessoryPriceFactor(q1) < AccessoryPriceFactor(q2)
  {
  }

  // ---------------------------------------------------------------- accessories

  /** How many distinct stats an accessory of this quality boosts (`num_stats`). */
  function AccessoryCountBand(q: Quality): Band
  {
    match q
    case Common => Band(1, 1)
    case Uncommon => Band(1, 2)
    case Rare => Band(2, 3)
    case Legendary => Band(3, 4)
  }

  /** `stat_range` */
  function AccessoryStatRange(q: Quality): Band
  {
    match q
    case Common => Band(1, 2)
    case Uncommon => Band(2, 4)
    case Rare => Band(3, 6)
    case Legendary => Band(5, 10)
  }

  function AccessoryPriceFactor(q: Quality): int
  {
    match q
    case Common => 15
    case Uncommon => 30
    case Rare => 70
    case Legendary => 150
  }

  function AccessoryPriceBand(q: Quality): Band
  {
    match q
    case Common => Band(5, 25)
    case Uncommon => Band(15, 45)
    case Rare => Band(30, 90)
    case Legendary => Band(50, 200)
  }

  /** The `randint` band of one selected stat: `stat_range` for attack and defence,
      five times it for max hp and max mana. */
  function StatBand(q: Quality, s: Stat): Band
  {
    var r := AccessoryStatRange(q);
    if s == AttackStat || s == DefenseStat then r else Band(r.lo * 5, r.hi * 5)
  }

  /** The level-dependent part of one stat's boost: `level // 2` or `level * 2`. */
  function StatBase(level: int, s: Stat): int
  {
    if s == AttackStat || s == DefenseStat then level / 2 else level * 2
  }

  /** The draws of `generate_accessory`. `random.sample(possible_stats, num_stats)` is the
      first `count` entries of `order`, an arrangement of all four stats; `rolls[i]` is the
      `randint` for the i-th selected stat. */
  datatype TrinketRoll = TrinketRoll(count: int, order: seq<Stat>, rolls: seq<int>, price: int)

  predicate Distinct<T(==)>(s: seq<T>)
  {
    forall i, j :: 0 <= i < j < |s| ==> s[i] != s[j]
  }

  predicate TrinketRollFits(q: Quality, t: TrinketRoll)
  {
    && AccessoryCountBand(q).Has(t.count)
    && |t.order| == 4 && Distinct(t.order)
    && |t.rolls| == t.count
    && (forall i :: 0 <= i < t.count ==> StatBand(q, t.order[i]).Has(t.rolls[i]))
    && AccessoryPriceBand(q).Has(t.price)
  }

  /** The `stat_boosts` dict after the loop has visited `stats` in order. */
  function BoostsOf(level: int, stats: seq<Stat>, rolls: seq<int>): (m: map<Stat, int>)
    requires |rolls| == |stats|
    ensures forall s :: s in m <==> s in stats
    decreases |stats|
  {
    if stats == [] then map[]
    else
      var n := |stats| - 1;
      assert stats == stats[..n] + [stats[n]];
      BoostsOf(level, stats[..n], rolls[..n])[stats[n] := StatBase(level, stats[n]) + rolls[n]]
  }

  /** With distinct stats the dict has exactly one entry per selected stat. */
  lemma {:induction false} BoostsOfSize(level: int, stats: seq<Stat>, rolls: seq<int>)
    requires |rolls| == |stats| && Distinct(stats)
    ensures |BoostsOf(level, stats, rolls)| == |stats|
  {
    if stats != [] {
      var n := |stats| - 1;
      var m := BoostsOf(level, stats[..n], rolls[..n]);
      assert Distinct(stats[..n]);
      BoostsOfSize(level, stats[..n], rolls[..n]);
      assert stats[n] !in stats[..n];
      assert stats[n] !in m;
    }
  }

  /** With distinct stats, each selected stat keeps the boost drawn for it. */
  lemma {:induction false} BoostsOfValues(level: int, stats: seq<Stat>, rolls: seq<int>)
    requires |rolls| == |stats| && Distinct(stats)
    ensures forall i :: 0 <= i < |stats| ==> BoostsOf(level, stats, rolls)[stats[i]] == StatBase(level, stats[i]) + rolls[i]
  {
    if stats != [] {
      var n := |stats| - 1;
      assert Distinct(stats[..n]);
      BoostsOfValues(level, stats[..n], rolls[..n]);
      forall i | 0 <= i < n
        ensures BoostsOf(level, stats, rolls)[stats[i]] == StatBase(level, stats[i]) + rolls[i]
      {
        assert stats[..n][i] == stats[i];
        assert rolls[..n][i] == rolls[i];
      }
    }
  }

  /** Every boost of the selected stats lies within its stat's band, shifted by the level part. */
  lemma BoostsInBand(level: int, q: Quality, t: TrinketRoll)
    requires TrinketRollFits(q, t)
    ensures forall s :: s in BoostsOf(level, t.order[..t.count], t.rolls) ==>
              StatBase(level, s) + StatBand(q, s).lo <= BoostsOf(level, t.order[..t.count], t.rolls)[s] <= StatBase(level, s) + StatBand(q, s).hi
  {
    var selected := t.order[..t.count];
    assert Distinct(selected);
    BoostsOfValues(level, selected, t.rolls);
    var m := BoostsOf(level, selected, t.rolls);
    forall s | s in m
      ensures StatBase(level, s) + StatBand(q, s).lo <= m[s] <= StatBase(level, s) + StatBand(q, s).hi
    {
      var i :| 0 <= i < t.count && selected[i] == s;
      assert StatBand(q, t.order[i]).Has(t.rolls[i]);
    }
  }

  /** What `generate_accessory(level, quality)` returns:
      `count` distinct stats, each boosted within its band, and a quality-scaled value. */
  function AccessoryData(level: int, q: Quality, t: TrinketRoll): (d: ItemData)
    requires TrinketRollFits(q, t)
    ensures d.kind == Accessory
    ensures |d.boosts| == t.count && d.boosts != map[]
    ensures AccessoryCountBand(q).lo <= |d.boosts| <= AccessoryCountBand(q).hi
    ensures forall s :: s in d.boosts ==>
              StatBase(level, s) + StatBand(q, s).lo <= d.boosts[s] <= StatBase(level, s) + StatBand(q, s).hi
    ensures level * AccessoryPriceFactor(q) + AccessoryPriceBand(q).lo <= d.value
    ensures d.value <= level * AccessoryPriceFactor(q) + AccessoryPriceBand(q).hi
  {
    var selected := t.order[..t.count];
    assert Distinct(selected);
    BoostsOfSize(level, selected, t.rolls);
    BoostsInBand(level, q, t);
    ItemData(Accessory, level * AccessoryPriceFactor(q) + t.price, BoostsOf(level, selected, t.rolls))
  }

  /** `generate_accessory` itself: the draws fix the stats and their boosts, and the
      loop fills `stat_boosts`. */
  method GenerateAccessory(level: int, q: Quality, t: TrinketRoll) returns (d: ItemData)
    requires TrinketRollFits(q, t)
    ensures d == AccessoryData(level, q, t)
  {
    var boosts := FillBoosts(level, t.order[..t.count], t.rolls);
    d := ItemData(Accessory, level * AccessoryPriceFactor(q) + t.price, boosts);
  }

  /** The `for stat in selected_stats` loop: one entry per visited stat, the base part
      for the level plus its own draw. */
  method FillBoosts(level: int, selected: seq<Stat>, rolls: seq<int>) returns (boosts: map<Stat, int>)
    requires |rolls| == |selected|
    ensures boosts == BoostsOf(level, selected, rolls)
  {
    boosts := map[];
    for i := 0 to |selected|
      invariant boosts == BoostsOf(level, selected[..i], rolls[..i])
    {
      var stats, draws := selected[..i + 1], rolls[..i + 1];
      assert stats[..i] == selected[..i] && stats[i] == selected[i];
      assert draws[..i] == rolls[..i] && draws[i] == rolls[i];
      boosts := boosts[selected[i] := StatBase(level, selected[i]) + rolls[i]];
    }
    assert selected[..|selected|] == selected;
    assert rolls[..|selected|] == rolls;
  }

  // ---------------------------------------------------------------- drops

  /** The quality ladder of `generate_random_item`: three separate `random()` draws against
      thresholds raised by `k == 2` for a boss; "legendary" is what is left over. */
  function DropQuality(isBoss: bool, r1: real, r2: real, r3: real): (q: Quality)
    ensures q == Rare <==> r1 < (if isBoss then 0.3 else 0.2)
    ensures q == Uncommon <==> r1 >= (if isBoss then 0.3 else 0.2) && r2 < (if isBoss then 0.5 else 0.3)
    ensures q == Legendary <==>
      r1 >= (if isBoss then 0.3 else 0.2) && r2 >= (if isBoss then 0.5 else 0.3) && r3 >= (if isBoss then 0.8 else 0.5)
  {
    var k := if isBoss then 2.0 else 0.0;
    if r1 < 0.2 + 0.05 * k then Rare
    else if r2 < 0.3 + 0.1 * k then Uncommon
    else if r3 < 0.5 + 0.15 * k then Common
    else Legendary
  }

  /** The boss bonus only moves draws toward "rare", "uncommon" and "common": it never
      turns a non-legendary result into a worse one, and it can turn a legendary result
      into a common one. */
  lemma BossBonusSkew(r1: real, r2: real, r3: real)
    ensures DropQuality(false, r1, r2, r3) == Rare ==> DropQuality(true, r1, r2, r3) == Rare
    ensures DropQuality(false, r1, r2, r3) == Uncommon ==> DropQuality(true, r1, r2, r3) in {Rare, Uncommon}
    ensures DropQuality(false, r1, r2, r3) != Legendary ==> DropQuality(true, r1, r2, r3) != Legendary
    ensures DropQuality(false, 0.9, 0.9, 0.6) == Legendary && DropQuality(true, 0.9, 0.9, 0.6) == Common
  {
  }

  /** Potion size of a drop: medium past level 5 or when uncommon, large past level 10
      or when rare (the later test wins). */
  function DropPotionSize(level: int, q: Quality): (s: Size)
    ensures s == Large <==> level > 10 || q == Rare
    ensures s == Small <==> level <= 5 && q != Uncommon && q != Rare
  {
    var s := if level > 5 || q == Uncommon then Medium else Small;
    if level > 10 || q == Rare then Large else s
  }

  /** All draws of one `generate_random_item` call. */
  datatype DropRoll = DropRoll(category: real, r1: real, r2: real, r3: real, gear: GearRoll, trinket: TrinketRoll)

  predicate DropRollFits(isBoss: bool, r: DropRoll)
  {
    && Unit(r.category) && Unit(r.r1) && Unit(r.r2) && Unit(r.r3)
    && var q := DropQuality(isBoss, r.r1, r.r2, r.r3);
       match DropCategory(r.category)
       case WeaponPick => WeaponRollFits(q, r.gear)
       case ArmorPick => ArmorRollFits(q, r.gear)
       case AccessoryPick => TrinketRollFits(q, r.trinket)
       case _ => true
  }

  /** `generate_random_item(level, is_boss)` */
  function GenerateRandomItem(level: int, isBoss: bool, r: DropRoll): (d: ItemData)
    requires DropRollFits(isBoss, r)
    ensures var q := DropQuality(isBoss, r.r1, r.r2, r.r3);
      DropCategory(r.category) == WeaponPick ==>
        && d.kind == Weapon && d.boosts.Keys == {AttackStat}
        && level + WeaponBoostBand(q).lo <= d.boosts[AttackStat] <= level + WeaponBoostBand(q).hi
    ensures var q := DropQuality(isBoss, r.r1, r.r2, r.r3);
      DropCategory(r.category) == ArmorPick ==>
        && d.kind == Armor && d.boosts.Keys == {DefenseStat}
        && level + ArmorBoostBand(q).lo <= d.boosts[DefenseStat] <= level + ArmorBoostBand(q).hi
    ensures var q := DropQuality(isBoss, r.r1, r.r2, r.r3);
      DropCategory(r.category) == AccessoryPick ==>
        d.kind == Accessory && AccessoryCountBand(q).lo <= |d.boosts| <= AccessoryCountBand(q).hi
    ensures DropCategory(r.category) == HealthPick ==> d == HealthPotionData(DropPotionSize(level, DropQuality(isBoss, r.r1, r.r2, r.r3)))
    ensures DropCategory(r.category) == ManaPick ==> d == ManaPotionData(DropPotionSize(level, DropQuality(isBoss, r.r1, r.r2, r.r3)))
    ensures DropCategory(r.category) == ElixirPick ==> d == StrengthElixirData()
    ensures d.kind.IsConsumable() <==> d.boosts == map[]
    ensures (d.kind.HealthPotion? || d.kind.ManaPotion?) && level > 10 ==> d.kind.size == Large
  {
    var q := DropQuality(isBoss, r.r1, r.r2, r.r3);
    match DropCategory(r.category)
    case WeaponPick => GenerateWeapon(level, q, r.gear)
    case ArmorPick => GenerateArmor(level, q, r.gear)
    case AccessoryPick => AccessoryData(level, q, r.trinket)
    case HealthPick => HealthPotionData(DropPotionSize(level, q))
    case ManaPick => ManaPotionData(DropPotionSize(level, q))
    case ElixirPick => StrengthElixirData()
  }
}
