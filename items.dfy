/** Items, their kinds, and the capacity-bounded inventory of MagicalRealm/items.py. */
module Items {

  /** Where an equipment piece is worn (`Equipment.slot`). */
  datatype Slot = WeaponSlot | ArmorSlot | AccessorySlot

  /** The stat names a `stat_boost` entry can carry and that equipping applies. */
  datatype Stat = AttackStat | DefenseStat | MaxHpStat | MaxManaStat

  datatype Size = Small | Medium | Large

  /** The concrete item classes of the game. */
  datatype ItemKind =
    | HealthPotion(size: Size)
    | ManaPotion(size: Size)
    | StrengthElixir
    | Weapon
    | Armor
    | Accessory
  {
    /** `isinstance(item, Consumable)` */
    predicate IsConsumable() { HealthPotion? || ManaPotion? || StrengthElixir? }

    /** `isinstance(item, Equipment)` */
    predicate IsEquipment() { Weapon? || Armor? || Accessory? }

    /** The slot each equipment class passes to `Equipment.__init__`. */
    function SlotOf(): Slot
      requires IsEquipment()
    {
      match this
      case Weapon => WeaponSlot
      case Armor => ArmorSlot
      case Accessory => AccessorySlot
    }
  }

  /** Hit points a health potion of this size restores. */
  function HealAmount(size: Size): int
  {
    match size
    case Small => 25
    case Medium => 50
    case Large => 100
  }

  /** Mana a mana potion of this size restores. */
  function ManaAmount(size: Size): int
  {
    match size
    case Small => 15
    case Medium => 30
    case Large => 60
  }

  /** Gold value of a potion of either kind. */
  function PotionValue(size: Size): int
  {
    match size
    case Small => 15
    case Medium => 30
    case Large => 60
  }

  /** The immutable part of an item: what it is, its gold value, and its stat boosts
      (empty for a consumable). */
  datatype ItemData = ItemData(kind: ItemKind, value: int, boosts: map<Stat, int>)

  /** `HealthPotion(size)` */
  function HealthPotionData(size: Size): ItemData
  {
    ItemData(HealthPotion(size), PotionValue(size), map[])
  }

  /** `ManaPotion(size)` */
  function ManaPotionData(size: Size): ItemData
  {
    ItemData(ManaPotion(size), PotionValue(size), map[])
  }

  /** `StrengthElixir()` */
  function StrengthElixirData(): ItemData
  {
    ItemData(StrengthElixir, 50, map[])
  }

  /** An item object. Only a consumable's `uses` counter ever changes; the inventory,
      the shop and the equipment slots hold references, so list membership and removal
      go by identity as in the source. */
  class Item {
    const kind: ItemKind
    const value: int
    const boosts: map<Stat, int>
    var uses: int

    /** Every consumable starts with one use; equipment carries no counter (0 here). */
    constructor (d: ItemData)
      ensures Data() == d
      ensures uses == if d.kind.IsConsumable() then 1 else 0
    {
      kind, value, boosts := d.kind, d.value, d.boosts;
      uses := if d.kind.IsConsumable() then 1 else 0;
    }

    function Data(): ItemData
    {
      ItemData(kind, value, boosts)
    }
  }

  /** Python's `list.remove(x)` on a list that holds `x`: drops the first occurrence. */
  function RemoveFirst<T(==)>(s: seq<T>, x: T): (r: seq<T>)
    ensures x !in s ==> r == s
    ensures x in s ==> |r| == |s| - 1
    ensures forall y :: y in r ==> y in s
  {
    if s == [] then []
    else
      assert s == [s[0]] + s[1..];
      if s[0] == x then s[1..]
      else [s[0]] + RemoveFirst(s[1..], x)
  }

  /** `list.remove` takes away exactly one copy of the element, and nothing else. */
  lemma {:induction false} RemoveFirstCounts<T>(s: seq<T>, x: T)
    ensures multiset(RemoveFirst(s, x)) == multiset(s) - multiset{x}
  {
    if s != [] {
      assert s == [s[0]] + s[1..];
      RemoveFirstCounts(s[1..], x);
      if s[0] != x {
        assert RemoveFirst(s, x) == [s[0]] + RemoveFirst(s[1..], x);
      }
    }
  }

  /** Removing `x` from a list whose prefix `p` does not hold it cuts out the `x` that
      follows `p`. */
  lemma {:induction false} RemoveFirstAfter<T>(p: seq<T>, x: T, r: seq<T>)
    requires x !in p
    ensures RemoveFirst(p + [x] + r, x) == p + r
    decreases |p|
  {
    var s := p + [x] + r;
    if p == [] {
      assert s == [x] + r;
      assert s[1..] == r;
    } else {
      assert s[0] == p[0] && s[1..] == p[1..] + [x] + r;
      assert p[0] != x by { assert p[0] in p; }
      assert RemoveFirst(s, x) == [p[0]] + RemoveFirst(p[1..] + [x] + r, x);
      RemoveFirstAfter(p[1..], x, r);
      assert [p[0]] + (p[1..] + r) == p + r;
    }
  }

  /** Removing the element found at index `i`, when no earlier index holds it, is the
      same as cutting index `i` out. */
  lemma {:induction false} RemoveFirstAt<T>(s: seq<T>, i: int)
    requires 0 <= i < |s| && s[i] !in s[..i]
    ensures RemoveFirst(s, s[i]) == s[..i] + s[i + 1..]
  {
    var p, x, r := s[..i], s[i], s[i + 1..];
    assert s == p + [x] + r;
    RemoveFirstAfter(p, x, r);
  }

  /** `[item for item in items if isinstance(item, Consumable)]` */
  function ConsumablesOf(s: seq<Item>): (r: seq<Item>)
    ensures |r| <= |s|
    ensures forall i :: 0 <= i < |r| ==> r[i] in s && r[i].kind.IsConsumable()
    ensures forall i :: 0 <= i < |s| && s[i].kind.IsConsumable() ==> s[i] in r
  {
    if s == [] then []
    else if s[0].kind.IsConsumable() then [s[0]] + ConsumablesOf(s[1..])
    else ConsumablesOf(s[1..])
  }

  /** `[item for item in items if isinstance(item, Equipment)]` */
  function EquipmentOf(s: seq<Item>): (r: seq<Item>)
    ensures |r| <= |s|
    ensures forall i :: 0 <= i < |r| ==> r[i] in s && r[i].kind.IsEquipment()
    ensures forall i :: 0 <= i < |s| && s[i].kind.IsEquipment() ==> s[i] in r
  {
    if s == [] then []
    else if s[0].kind.IsEquipment() then [s[0]] + EquipmentOf(s[1..])
    else EquipmentOf(s[1..])
  }

  /** Filtering distributes over concatenation, so both filters keep the list's order. */
  lemma {:induction false} ConsumablesOfAppend(s: seq<Item>, t: seq<Item>)
    ensures ConsumablesOf(s + t) == ConsumablesOf(s) + ConsumablesOf(t)
  {
    if s == [] {
      assert s + t == t;
    } else {
      assert (s + t)[1..] == s[1..] + t;
      ConsumablesOfAppend(s[1..], t);
    }
  }

  lemma {:induction false} EquipmentOfAppend(s: seq<Item>, t: seq<Item>)
    ensures EquipmentOf(s + t) == EquipmentOf(s) + EquipmentOf(t)
  {
    if s == [] {
      assert s + t == t;
    } else {
      assert (s + t)[1..] == s[1..] + t;
      EquipmentOfAppend(s[1..], t);
    }
  }

  /** Every item is a consumable or an equipment piece, never both, so the two
      filters split the list between them. */
  lemma {:induction false} ConsumablesAndEquipmentSplit(s: seq<Item>)
    ensures multiset(ConsumablesOf(s)) + multiset(EquipmentOf(s)) == multiset(s)
    ensures |ConsumablesOf(s)| + |EquipmentOf(s)| == |s|
  {
    if s != [] {
      assert s == [s[0]] + s[1..];
      ConsumablesAndEquipmentSplit(s[1..]);
    }
  }

  /** A character's bag: an ordered list of items bounded by `maxSize`, plus gold. */
  class Inventory {
    var items: seq<Item>
    const maxSize: int
    var gold: int

    constructor (maxSize: int)
      ensures this.maxSize == maxSize && items == [] && gold == 0
    {
      items := [];
      this.maxSize := maxSize;
      gold := 0;
    }

    /** Appends the item unless the bag already holds `maxSize` items. */
    method AddItem(item: Item) returns (ok: bool)
      modifies this
      ensures ok <==> |old(items)| < maxSize
      ensures items == if ok then old(items) + [item] else old(items)
      ensures gold == old(gold)
    {
      if |items| >= maxSize {
        return false;
      }
      items := items + [item];
      return true;
    }

    /** Removes the first occurrence of the item, reporting whether it was there. */
    method RemoveItem(item: Item) returns (ok: bool)
      modifies this
      ensures ok <==> item in old(items)
      ensures items == RemoveFirst(old(items), item)
      ensures ok ==> |items| == |old(items)| - 1
      ensures gold == old(gold)
    {
      if item in items {
        items := RemoveFirst(items, item);
        return true;
      }
      return false;
    }

    /** `get_consumables` */
    function Consumables(): (r: seq<Item>)
      reads this
      ensures forall i :: 0 <= i < |r| ==> r[i] in items && r[i].kind.IsConsumable()
      ensures forall i :: 0 <= i < |items| && items[i].kind.IsConsumable() ==> items[i] in r
      ensures r == ConsumablesOf(items)
    {
      ConsumablesOf(items)
    }

    /** `get_equipment` */
    function Equipment(): (r: seq<Item>)
      reads this
      ensures forall i :: 0 <= i < |r| ==> r[i] in items && r[i].kind.IsEquipment()
      ensures forall i :: 0 <= i < |items| && items[i].kind.IsEquipment() ==> items[i] in r
      ensures r == EquipmentOf(items)
    {
      EquipmentOf(items)
    }
  }
}
