/** The monsters of MagicalRealm/monsters.py: their level-scaled stats, their special
    attacks, the Vampire's draining basic attack, the Skeleton's damage reduction and
    the encounter generator `get_monster_by_level`. */
module Monsters {
  import opened Basics
  import opened Characters

  // ---------------------------------------------------------------- stats

  /** `Monster.__init__` followed by the subclass's adjustments. The Dragon is always a
      boss whatever `isBoss` says. */
  function MonsterStats(k: Kind, level: int, isBoss: bool): (s: Stats)
    requires k.IsMonster()
    ensures s.kind == k && s.level == level && s.hp == s.maxHp && s.mana == s.maxMana
    ensures s.xp == 0 && s.xpToLevel == 100 && s.tier == 0 && !s.blocking && !s.dodging
    ensures level >= 1 ==> Vital(s) && s.hp > 0 && s.attack > 0 && s.defense > 0
  {
    var boss := isBoss || k == Dragon;
    var hp := 50 + level * 10;
    var mana := 30 + level * 5;
    var attack := 15 + level * 2;
    var defense := 8 + level;
    var base :=
      if boss then Newborn(k, Trunc(3 * hp, 2), Trunc(3 * mana, 2), Trunc(13 * attack, 10), Trunc(13 * defense, 10))
      else Newborn(k, hp, mana, attack, defense);
    var s := base.(level := level);
    match k
    case Slime => s.(maxHp := s.maxHp + 10, hp := s.maxHp + 10, attack := s.attack - 2)
    case Goblin => s.(attack := s.attack + 4, defense := s.defense - 2, maxHp := s.maxHp - 10, hp := s.maxHp - 10)
    case Skeleton => s.(maxHp := s.maxHp - 15, hp := s.maxHp - 15, defense := s.defense + 3)
    case Dragon => s.(maxHp := Trunc(6 * s.maxHp, 5), hp := Trunc(6 * s.maxHp, 5), attack := s.attack + 8, defense := s.defense + 5)
    case _ => s
  }

  /** A boss is stronger than the ordinary monster of its kind and level (a Dragon is
      a boss either way). */
  lemma BossIsStronger(k: Kind, level: int)
    requires k.IsMonster() && k != Dragon && level >= 1
    ensures MonsterStats(k, level, true).maxHp > MonsterStats(k, level, false).maxHp
    ensures MonsterStats(k, level, true).maxMana > MonsterStats(k, level, false).maxMana
    ensures MonsterStats(k, level, true).attack > MonsterStats(k, level, false).attack
    ensures MonsterStats(k, level, true).defense >= MonsterStats(k, level, false).defense
  {
  }

  lemma DragonIsAlwaysBoss(level: int)
    ensures MonsterStats(Dragon, level, false) == MonsterStats(Dragon, level, true)
  {
  }

  /** `gold_reward`: ten per level plus a draw in [5, 20], two and a half times that for
      a boss. */
  function GoldReward(level: int, isBoss: bool, draw: int): (g: int)
    requires 5 <= draw <= 20
    ensures g == if isBoss then Trunc(5 * (10 * level + draw), 2) else 10 * level + draw
    ensures !isBoss ==> 10 * level + 5 <= g <= 10 * level + 20
    ensures isBoss && level >= 0 ==> 2 * (10 * level + draw) <= g <= 3 * (10 * level + draw)
  {
    var g := level * 10 + draw;
    if isBoss then Trunc(5 * g, 2) else g
  }

  // ---------------------------------------------------------------- attacks

  /** The mana each monster's special attack costs. */
  function MonsterCost(a: Stats): int
  {
    match a.kind
    case Slime => 8 + a.level
    case Skeleton => 12 + a.level
    case Dragon => 20 + a.level
    case Vampire => 15 + a.level
    case _ => 10 + a.level
  }

  /** `Monster.special_attack`: 1.4 times attack plus a draw in [-5, 10], never dodged;
      without the mana it falls back to the base attack. */
  function MonsterStrike(a: Stats, t: Stats, spread: int, roll: real): (r: Exchange)
    requires a.mana < 10 + a.level ==> -10 <= spread <= 10
    requires a.mana >= 10 + a.level ==> -5 <= spread <= 10
    ensures Lands(t, r.target, r.damage)
    ensures a.mana < 10 + a.level ==> r == Strike(a.(blocking := false), t, spread, roll)
    ensures a.mana >= 10 + a.level ==> r.actor == a.(blocking := false, mana := a.mana - (10 + a.level)) && r.target.dodging == t.dodging
    ensures a.mana >= 10 + a.level && t.defense >= 0 ==> r.damage <= Max(0, Trunc(14 * a.attack, 10) + spread)
    ensures a.mana >= 10 + a.level ==> r.damage == Max(0, Max(0, Trunc(14 * a.attack, 10) + spread) - Guarded(t.defense, t.blocking))
  {
    var a1 := a.(blocking := false);
    var cost := 10 + a.level;
    if a1.mana < cost then Strike(a1, t, spread, roll)
    else
      var damage := Hit(Max(0, Trunc(14 * a.attack, 10) + spread), Guarded(t.defense, t.blocking));
      Exchange(a1.(mana := a1.mana - cost), Wound(t, damage), damage)
  }

  /** The Slime's hits in order, each with its own draw, each against the target as the
      previous hit left it; the total damage dealt. */
  function Volley(base: int, t: Stats, splits: seq<int>): (r: (Stats, int))
    ensures Lands(t, r.0, r.1) && r.0.dodging == t.dodging
    ensures t.hp >= 0 ==> r.0.hp >= 0
    decreases |splits|
  {
    if splits == [] then (t, 0)
    else
      var damage := Hit(Max(0, base + splits[0]), Guarded(t.defense, t.blocking));
      var rest := Volley(base, Wound(t, damage), splits[1..]);
      (rest.0, damage + rest.1)
  }

  /** Defence can only take damage off a volley: the total is at most the sum of the
      hits' floored attack values, and exactly that against no defence and no guard. */
  lemma {:induction false} VolleyAtMostHits(base: int, t: Stats, splits: seq<int>)
    requires t.defense >= 0
    ensures Volley(base, t, splits).1 <= HitsSum(base, splits)
    ensures t.defense == 0 && !t.blocking ==> Volley(base, t, splits).1 == HitsSum(base, splits)
    decreases |splits|
  {
    if splits != [] {
      var damage := Hit(Max(0, base + splits[0]), Guarded(t.defense, t.blocking));
      VolleyAtMostHits(base, Wound(t, damage), splits[1..]);
    }
  }

  /** The sum of the floored attack values of a volley. */
  function HitsSum(base: int, splits: seq<int>): int
  {
    if splits == [] then 0 else Max(0, base + splits[0]) + HitsSum(base, splits[1..])
  }

  /** `Slime.special_attack`: three hits of 0.6 times attack plus a draw in [-2, 5] each. */
  function SlimeSplit(a: Stats, t: Stats, splits: seq<int>, spread: int, roll: real): (r: Exchange)
    requires |splits| == 3 && forall i :: 0 <= i < 3 ==> -2 <= splits[i] <= 5
    requires a.mana < 8 + a.level ==> -10 <= spread <= 10
    ensures Lands(t, r.target, r.damage)
    ensures a.mana < 8 + a.level ==> r == Strike(a.(blocking := false), t, spread, roll)
    ensures a.mana >= 8 + a.level ==> r.actor == a.(blocking := false, mana := a.mana - (8 + a.level)) && r.target.dodging == t.dodging
    ensures a.mana >= 8 + a.level ==> (r.target, r.damage) == Volley(Trunc(3 * a.attack, 5), t, splits)
  {
    var a1 := a.(blocking := false);
    var cost := 8 + a.level;
    if a1.mana < cost then Strike(a1, t, spread, roll)
    else
      var v := Volley(Trunc(3 * a.attack, 5), t, splits);
      Exchange(a1.(mana := a1.mana - cost), v.0, v.1)
  }

  /** `Goblin.special_attack`, the sneaky strike: 1.3 times attack plus a draw in [-3, 8]
      against half the defence; blocking only restores the full defence. */
  function SneakyStrike(a: Stats, t: Stats, spread: int, roll: real): (r: Exchange)
    requires a.mana < 10 + a.level ==> -10 <= spread <= 10
    requires a.mana >= 10 + a.level ==> -3 <= spread <= 8
    ensures Lands(t, r.target, r.damage)
    ensures a.mana < 10 + a.level ==> r == Strike(a.(blocking := false), t, spread, roll)
    ensures a.mana >= 10 + a.level ==> r.actor == a.(blocking := false, mana := a.mana - (10 + a.level)) && r.target.dodging == t.dodging
    ensures a.mana >= 10 + a.level && t.blocking ==> r.damage == Max(0, Max(0, Trunc(13 * a.attack, 10) + spread) - t.defense)
    ensures a.mana >= 10 + a.level && !t.blocking ==> r.damage == Max(0, Max(0, Trunc(13 * a.attack, 10) + spread) - Trunc(t.defense, 2))
  {
    var a1 := a.(blocking := false);
    var cost := 10 + a.level;
    if a1.mana < cost then Strike(a1, t, spread, roll)
    else
      var effective := if t.blocking then t.defense else Trunc(t.defense, 2);
      var damage := Hit(Max(0, Trunc(13 * a.attack, 10) + spread), effective);
      Exchange(a1.(mana := a1.mana - cost), Wound(t, damage), damage)
  }

  /** `Skeleton.special_attack`, the bone volley: 1.5 times attack plus a draw in
      [-2, 12]. */
  function BoneVolley(a: Stats, t: Stats, spread: int, roll: real): (r: Exchange)
    requires a.mana < 12 + a.level ==> -10 <= spread <= 10
    requires a.mana >= 12 + a.level ==> -2 <= spread <= 12
    ensures Lands(t, r.target, r.damage)
    ensures a.mana < 12 + a.level ==> r == Strike(a.(blocking := false), t, spread, roll)
    ensures a.mana >= 12 + a.level ==> r.actor == a.(blocking := false, mana := a.mana - (12 + a.level)) && r.target.dodging == t.dodging
    ensures a.mana >= 12 + a.level && t.defense >= 0 ==> r.damage <= Max(0, Trunc(3 * a.attack, 2) + spread)
    ensures a.mana >= 12 + a.level ==> r.damage == Max(0, Max(0, Trunc(3 * a.attack, 2) + spread) - Guarded(t.defense, t.blocking))
  {
    var a1 := a.(blocking := false);
    var cost := 12 + a.level;
    if a1.mana < cost then Strike(a1, t, spread, roll)
    else
      var damage := Hit(Max(0, Trunc(3 * a.attack, 2) + spread), Guarded(t.defense, t.blocking));
      Exchange(a1.(mana := a1.mana - cost), Wound(t, damage), damage)
  }

  /** `Dragon.special_attack`, the fire breath: twice the attack plus a draw in [0, 15]
      (not floored at zero) against half the defence, the full defence when blocking. */
  function FireBreath(a: Stats, t: Stats, spread: int, roll: real): (r: Exchange)
    requires a.mana < 20 + a.level ==> -10 <= spread <= 10
    requires a.mana >= 20 + a.level ==> 0 <= spread <= 15
    ensures Lands(t, r.target, r.damage)
    ensures a.mana < 20 + a.level ==> r == Strike(a.(blocking := false), t, spread, roll)
    ensures a.mana >= 20 + a.level ==> r.actor == a.(blocking := false, mana := a.mana - (20 + a.level)) && r.target.dodging == t.dodging
    ensures a.mana >= 20 + a.level && t.defense >= 0 ==> r.damage >= 2 * a.attack + spread - t.defense
    ensures a.mana >= 20 + a.level && t.blocking ==> r.damage == Max(0, 2 * a.attack + spread - t.defense)
    ensures a.mana >= 20 + a.level && !t.blocking ==> r.damage == Max(0, 2 * a.attack + spread - Trunc(t.defense, 2))
  {
    var a1 := a.(blocking := false);
    var cost := 20 + a.level;
    if a1.mana < cost then Strike(a1, t, spread, roll)
    else
      var effective := if t.blocking then t.defense else Trunc(t.defense, 2);
      var damage := Hit(2 * a.attack + spread, effective);
      Exchange(a1.(mana := a1.mana - cost), Wound(t, damage), damage)
  }

  /** The Goblin's and the Dragon's specials never double a blocking target's defence:
      blocking only lifts the effective defence from half to the full value, the same
      as a non-blocking target with twice the defence. */
  lemma BlockOnlyRestoresDefence(a: Stats, t: Stats, goblinSpread: int, dragonSpread: int, roll: real)
    requires a.mana >= 20 + a.level && t.defense >= 0
    requires -3 <= goblinSpread <= 8 && 0 <= dragonSpread <= 15
    ensures SneakyStrike(a, t.(blocking := true), goblinSpread, roll).damage
         == SneakyStrike(a, t.(blocking := false, defense := 2 * t.defense), goblinSpread, roll).damage
    ensures FireBreath(a, t.(blocking := true), dragonSpread, roll).damage
         == FireBreath(a, t.(blocking := false, defense := 2 * t.defense), dragonSpread, roll).damage
  {
  }

  /** The Vampire's heal from a blow: applied, and capped, only when positive. */
  function Drain(a: Stats, amount: int): Stats
  {
    if amount > 0 then Restore(a, amount) else a
  }

  /** `Vampire.attack`: the base attack, then a fifth of the damage back as hit points. */
  function DrainingBite(a: Stats, t: Stats, spread: int, roll: real): (r: Exchange)
    requires -10 <= spread <= 10
    ensures Lands(t, r.target, r.damage)
    ensures (r.target, r.damage) == (Strike(a, t, spread, roll).target, Strike(a, t, spread, roll).damage)
    ensures r.actor == Drain(a.(blocking := false), Trunc(r.damage, 5))
    ensures Vital(a) ==> Vital(r.actor) && a.hp <= r.actor.hp
  {
    var s := Strike(a, t, spread, roll);
    Exchange(Drain(s.actor, Trunc(s.damage, 5)), s.target, s.damage)
  }

  /** `Vampire.special_attack`, the blood drain: 1.6 times attack plus a draw in [-3, 10],
      and two fifths of the damage back as hit points. The fallback is the base attack,
      which does not drain. */
  function BloodDrain(a: Stats, t: Stats, spread: int, roll: real): (r: Exchange)
    requires a.mana < 15 + a.level ==> -10 <= spread <= 10
    requires a.mana >= 15 + a.level ==> -3 <= spread <= 10
    ensures Lands(t, r.target, r.damage)
    ensures a.mana < 15 + a.level ==> r == Strike(a.(blocking := false), t, spread, roll)
    ensures a.mana >= 15 + a.level ==> r.target.dodging == t.dodging
    ensures a.mana >= 15 + a.level ==> r.damage == Max(0, Max(0, Trunc(8 * a.attack, 5) + spread) - Guarded(t.defense, t.blocking))
    ensures a.mana >= 15 + a.level ==> r.actor == Drain(a.(blocking := false, mana := a.mana - (15 + a.level)), Trunc(2 * r.damage, 5))
    ensures Vital(a) && a.level >= 0 ==> Vital(r.actor)
  {
    var a1 := a.(blocking := false);
    var cost := 15 + a.level;
    if a1.mana < cost then Strike(a1, t, spread, roll)
    else
      var damage := Hit(Max(0, Trunc(8 * a.attack, 5) + spread), Guarded(t.defense, t.blocking));
      Exchange(Drain(a1.(mana := a1.mana - cost), Trunc(2 * damage, 5)), Wound(t, damage), damage)
  }

  /** `Skeleton.take_damage`: a quarter of the incoming damage is absorbed (rounded in
      the Skeleton's favour only down to the whole point); returns what was taken. */
  function BoneAbsorb(s: Stats, amount: int): (r: (Stats, int))
    ensures r.0 == s.(hp := Max(0, s.hp - r.1))
    ensures amount >= 0 ==> 0 <= r.1 <= amount && 3 * amount <= 4 * r.1 + 3
    ensures amount >= 4 ==> r.1 < amount
    ensures amount >= 0 ==> r.1 == (3 * amount) / 4
  {
    var reduced := Trunc(3 * amount, 4);
    (s.(hp := Max(0, s.hp - reduced)), reduced)
  }

  // ---------------------------------------------------------------- encounters

  /** The kinds `get_monster_by_level` draws from: Slime and Goblin always, Skeleton
      from level 2, Vampire from level 3. */
  function MonsterPool(level: int): (pool: seq<Kind>)
    ensures 2 <= |pool| <= 4 && pool[0] == Slime && pool[1] == Goblin
    ensures Skeleton in pool <==> level >= 2
    ensures Vampire in pool <==> level >= 3
    ensures Dragon !in pool && PlainMonster !in pool
    ensures forall i :: 0 <= i < |pool| ==> pool[i].IsMonster()
  {
    [Slime, Goblin] + (if level >= 2 then [Skeleton] else []) + (if level >= 3 then [Vampire] else [])
  }

  /** The encounter: a boss when forced or with a 10% roll; from level 5 a boss is a
      Dragon with a 30% roll; otherwise `random.choice` (as an index) over the pool. */
  function ChooseMonster(level: int, forceBoss: bool, bossRoll: real, dragonRoll: real, pick: int): (r: (Kind, bool))
    requires 0 <= pick < |MonsterPool(level)|
    ensures r.0.IsMonster() && r.0 != PlainMonster
    ensures r.1 <==> forceBoss || bossRoll < 0.1
    ensures r.0 == Dragon <==> level >= 5 && r.1 && dragonRoll < 0.3
    ensures r.0 == Skeleton ==> level >= 2
    ensures r.0 == Vampire ==> level >= 3
    ensures r.0 != Dragon ==> r.0 == MonsterPool(level)[pick]
  {
    var boss := forceBoss || bossRoll < 0.1;
    if level >= 5 && boss && dragonRoll < 0.3 then (Dragon, true)
    else (MonsterPool(level)[pick], boss)
  }
}
