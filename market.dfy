/** The merchant of MagicalRealm/items.py (`Shop`): a level- and luck-driven stock of
    generated items, bought for their value and sold back for half of it. */
module Market {
  import opened Basics
  import opened Items
  import opened Loot

  /** `num_items` of `refresh`: three items, one more per two levels, at most ten. */
  function StockSize(level: int): (n: nat)
    ensures n <= 10
    ensures level >= 14 ==> n == 10
    ensures 0 <= level < 14 ==> n == 3 + level / 2
    ensures level < -6 ==> n == 0
  {
    Max(0, Min(10, 3 + level / 2))
  }

  /** Category weights of `refresh` (accessories weigh 15 here, 10 in drops). */
  const ShopWeights: seq<int> := [20, 20, 15, 20, 20, 5]

  /** `quality_weights` for common, uncommon and rare; luck above 10 moves weight
      from common to rare. */
  function QualityWeights(luck: int): (w: seq<int>)
    requires luck >= -10
    ensures |w| == 3 && Sum(w) == 100
    ensures forall i :: 0 <= i < 3 ==> w[i] >= 0
  {
    var boost := Min(20, luck);
    var w := if luck > 10 then [50 - boost / 2, 30, 20 + boost / 2]
             else [70 - boost / 2, 25, 5 + boost / 2];
    assert Sum(w) == w[0] + Sum(w[1..]) && Sum(w[1..]) == w[1] + Sum(w[2..]);
    assert Sum(w[2..]) == w[2] + Sum(w[3..]) && w[3..] == [];
    w
  }

  /** More luck never lowers the weight of "rare" nor raises that of "common". */
  lemma LuckFavoursRare(l1: int, l2: int)
    requires -10 <= l1 <= l2
    ensures QualityWeights(l1)[2] <= QualityWeights(l2)[2]
    ensures QualityWeights(l1)[0] >= QualityWeights(l2)[0]
  {
  }

  /** The quality drawn with `random() == u`: common below the first weight's share,
      uncommon within the second's, rare beyond; the shop never stocks legendary items. */
  function ShopQuality(luck: int, u: real): (q: Quality)
    requires luck >= -10 && Unit(u)
    ensures q != Legendary
    ensures q == Common <==> 100.0 * u < QualityWeights(luck)[0] as real
    ensures q == Uncommon <==> QualityWeights(luck)[0] as real <= 100.0 * u < (QualityWeights(luck)[0] + QualityWeights(luck)[1]) as real
    ensures q == Rare <==> (QualityWeights(luck)[0] + QualityWeights(luck)[1]) as real <= 100.0 * u
    ensures QualityWeights(luck)[Rank(q)] > 0
  {
    var w := QualityWeights(luck);
    PickInterval(w, u * 100.0);
    assert w[..0] == [] && w[..1] == [w[0]] && w[..2] == [w[0], w[1]] && w[..3] == w;
    assert Sum([w[0]]) == w[0] + Sum([]) && Sum([w[0], w[1]]) == w[0] + Sum([w[1]]) && Sum([w[1]]) == w[1] + Sum([]);
    [Common, Uncommon, Rare][Pick(w, u * 100.0)]
  }

  const Sizes: seq<Size> := [Small, Medium, Large]

  /** The draws for one stocked item: category, quality, the generator's draws and
      `random.choice` of a potion size as an index. */
  datatype ShopRoll = ShopRoll(category: real, quality: real, gear: GearRoll, trinket: TrinketRoll, size: int)

  /** The shop's category weights are percentages. */
  lemma ShopWeightsTotal()
    ensures Sum(ShopWeights) == 100
  {
  }

  /** The running totals of the shop's category weights. */
  lemma ShopTotals()
    ensures Sum(ShopWeights[..0]) == 0 && Sum(ShopWeights[..1]) == 20 && Sum(ShopWeights[..2]) == 40
    ensures Sum(ShopWeights[..3]) == 55 && Sum(ShopWeights[..4]) == 75 && Sum(ShopWeights[..5]) == 95
    ensures Sum(ShopWeights[..6]) == 100
  {
    SumSnoc(ShopWeights, 0); SumSnoc(ShopWeights, 1); SumSnoc(ShopWeights, 2);
    SumSnoc(ShopWeights, 3); SumSnoc(ShopWeights, 4); SumSnoc(ShopWeights, 5);
  }

  /** The category drawn by `random.choices(..., weights=ShopWeights)` with `random() == u`:
      each category takes its weight's share of [0, 1) in the listed order. */
  function ShopCategory(u: real): (c: Category)
    requires Unit(u)
    ensures c == WeaponPick <==> u < 0.2
    ensures c == ArmorPick <==> 0.2 <= u < 0.4
    ensures c == AccessoryPick <==> 0.4 <= u < 0.55
    ensures c == HealthPick <==> 0.55 <= u < 0.75
    ensures c == ManaPick <==> 0.75 <= u < 0.95
    ensures c == ElixirPick <==> 0.95 <= u
  {
    ShopWeightsTotal();
    ShopTotals();
    PickInterval(ShopWeights, u * 100.0);
    Categories[Pick(ShopWeights, u * 100.0)]
  }

  predicate ShopRollFits(luck: int, r: ShopRoll)
  {
    && luck >= -10 && Unit(r.category) && Unit(r.quality) && 0 <= r.size < 3
    && var q := ShopQuality(luck, r.quality);
       match ShopCategory(r.category)
       case WeaponPick => WeaponRollFits(q, r.gear)
       case ArmorPick => ArmorRollFits(q, r.gear)
       case AccessoryPick => TrinketRollFits(q, r.trinket)
       case _ => true
  }

  /** One iteration of the `refresh` loop. Equipment is at most rare, so its boosts stay
      below the legendary bands; potions take any size, regardless of level. */
  function ShopItem(level: int, luck: int, r: ShopRoll): (d: ItemData)
    requires ShopRollFits(luck, r)
    ensures ShopCategory(r.category) == WeaponPick ==>
              d.kind == Weapon && d.boosts.Keys == {AttackStat} && level + 1 <= d.boosts[AttackStat] <= level + 10
    ensures ShopCategory(r.category) == ArmorPick ==>
              d.kind == Armor && d.boosts.Keys == {DefenseStat} && level + 1 <= d.boosts[DefenseStat] <= level + 7
    ensures ShopCategory(r.category) == AccessoryPick ==> d.kind == Accessory && 1 <= |d.boosts| <= 3
    ensures ShopCategory(r.category) == HealthPick ==> d == HealthPotionData(Sizes[r.size])
    ensures ShopCategory(r.category) == ManaPick ==> d == ManaPotionData(Sizes[r.size])
    ensures ShopCategory(r.category) == ElixirPick ==> d == StrengthElixirData()
  {
    var q := ShopQuality(luck, r.quality);
    match ShopCategory(r.category)
    case WeaponPick => GenerateWeapon(level, q, r.gear)
    case ArmorPick => GenerateArmor(level, q, r.gear)
    case AccessoryPick => AccessoryData(level, q, r.trinket)
    case HealthPick => HealthPotionData(Sizes[r.size])
    case ManaPick => ManaPotionData(Sizes[r.size])
    case ElixirPick => StrengthElixirData()
  }

  /** Every draw of a stock fits the shop's luck. */
  predicate RollsFit(luck: int, rolls: seq<ShopRoll>)
  {
    forall i :: 0 <= i < |rolls| ==> ShopRollFits(luck, rolls[i])
  }

  /** The item `refresh` stocks from the draw `rolls[i]`. */
  function StockItem(level: int, luck: int, rolls: seq<ShopRoll>, i: int): ItemData
    requires RollsFit(luck, rolls) && 0 <= i < |rolls|
  {
    ShopItem(level, luck, rolls[i])
  }

  /** Half the value, rounded down, but at least one gold piece. */
  function SellPrice(value: int): (p: int)
    ensures p >= 1
    ensures value >= 1 ==> p <= value
    ensures value >= 2 ==> value - 1 <= 2 * p <= value
  {
    Max(1, value / 2)
  }

  /** Buying an item and selling it straight back never makes gold. */
  lemma BuyThenSellLoses(gold: int, value: int)
    requires value >= 1
    ensures gold - value + SellPrice(value) <= gold
    ensures value >= 3 ==> gold - value + SellPrice(value) < gold
  {
  }

  /** One new item per description, in order, each as its constructor leaves it. */
  method NewItems(ds: seq<ItemData>) returns (items: seq<Item>)
    ensures |items| == |ds|
    ensures forall j :: 0 <= j < |ds| ==> items[j].Data() == ds[j]
    ensures forall j :: 0 <= j < |ds| ==> items[j].uses == if ds[j].kind.IsConsumable() then 1 else 0
    ensures forall j :: 0 <= j < |items| ==> fresh(items[j])
  {
    items := [];
    for i := 0 to |ds|
      invariant |items| == i
      invariant forall j :: 0 <= j < i ==> items[j].Data() == ds[j]
      invariant forall j :: 0 <= j < i ==> items[j].uses == if ds[j].kind.IsConsumable() then 1 else 0
      invariant forall j :: 0 <= j < i ==> fresh(items[j])
    {
      var item := new Item(ds[i]);
      items := items + [item];
    }
  }

  class Shop {
    /** `Shop.inventory`: the items offered, in display order. */
    var stock: seq<Item>
    const level: int
    const luck: int

    /** `Shop(level, luck)`, which stocks itself at once. */
    constructor (level: int, luck: int, rolls: seq<ShopRoll>)
      requires |rolls| == StockSize(level)
      requires RollsFit(luck, rolls)
      ensures this.level == level && this.luck == luck
      ensures |stock| == |rolls|
      ensures forall j :: 0 <= j < |rolls| ==> stock[j].Data() == StockItem(level, luck, rolls, j)
      ensures forall j :: 0 <= j < |stock| ==> stock[j].uses == if stock[j].kind.IsConsumable() then 1 else 0
      ensures forall i :: 0 <= i < |stock| ==> fresh(stock[i])
    {
      this.level := level;
      this.luck := luck;
      new;
      Refresh(rolls);
    }

    /** `refresh`: throws the old stock away and generates `StockSize(level)` new items. */
    method Refresh(rolls: seq<ShopRoll>)
      requires |rolls| == StockSize(level)
      requires RollsFit(luck, rolls)
      modifies this
      ensures |stock| == |rolls|
      ensures forall j :: 0 <= j < |rolls| ==> stock[j].Data() == StockItem(level, luck, rolls, j)
      ensures forall j :: 0 <= j < |stock| ==> stock[j].uses == if stock[j].kind.IsConsumable() then 1 else 0
      ensures forall i :: 0 <= i < |stock| ==> fresh(stock[i])
    {
      var ds := seq(|rolls|, j requires 0 <= j < |rolls| => StockItem(level, luck, rolls, j));
      stock := NewItems(ds);
    }

    /** `buy_item`: fails on a bad index, too little gold or a full bag, changing nothing;
        otherwise the item moves from the stock to the end of the bag for its value. */
    method BuyItem(bag: Inventory, index: int) returns (ok: bool)
      modifies this, bag
      ensures ok <==> 0 <= index < |old(stock)| && old(bag.gold) >= old(stock)[index].value && |old(bag.items)| < bag.maxSize
      ensures ok ==> bag.items == old(bag.items) + [old(stock)[index]]
      ensures ok ==> bag.gold == old(bag.gold) - old(stock)[index].value
      ensures ok ==> stock == old(stock)[..index] + old(stock)[index + 1..]
      ensures !ok ==> bag.items == old(bag.items) && bag.gold == old(bag.gold) && stock == old(stock)
      ensures old(bag.gold) >= 0 ==> bag.gold >= 0
    {
      if index < 0 || index >= |stock| {
        return false;
      }
      var item := stock[index];
      if bag.gold < item.value {
        return false;
      }
      ok := bag.AddItem(item);
      if ok {
        bag.gold := bag.gold - item.value;
        stock := stock[..index] + stock[index + 1..];
      }
    }

    /** `sell_item`: `Some(false)` on a bad index; otherwise the seller earns
        `SellPrice` of the item's value, loses the first occurrence of it, and the
        source returns `None`. The shop's stock does not change. */
    method SellItem(bag: Inventory, index: int) returns (r: Option<bool>)
      modifies bag
      ensures r == Some(false) <==> !(0 <= index < |old(bag.items)|)
      ensures r == Some(false) || r == None
      ensures r == None ==> bag.gold == old(bag.gold) + SellPrice(old(bag.items)[index].value)
      ensures r == None ==> bag.items == RemoveFirst(old(bag.items), old(bag.items)[index])
      ensures r == None ==> |bag.items| == |old(bag.items)| - 1
      ensures r == Some(false) ==> bag.items == old(bag.items) && bag.gold == old(bag.gold)
    {
      if index < 0 || index >= |bag.items| {
        return Some(false);
      }
      var item := bag.items[index];
      bag.gold := bag.gold + SellPrice(item.value);
      var _ := bag.RemoveItem(item);
      return None;
    }
  }
}
