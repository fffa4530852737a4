/** Experience, levels and class evolution of characters.py (`gain_xp`, `level_up`,
    `evolve_class`), as functions on `Characters.Stats`. */
module Progression {
  import opened Basics
  import opened Characters

  /** The four stat gains of one level, per class (`hp_increase`, `mana_increase`,
      `attack_increase`, `defense_increase`). */
  datatype Growth = Growth(hp: int, mana: int, attack: int, defense: int)

  function GrowthOf(k: Kind): (g: Growth)
    ensures g.hp >= 8 && g.mana >= 5 && g.attack >= 2 && g.defense >= 1
  {
    match k
    case Barbarian => Growth(15, 5, 3, 1)
    case Archer => Growth(10, 8, 2, 2)
    case Mage => Growth(8, 12, 2, 1)
    case _ => Growth(10, 5, 2, 1)
  }

  /** The player classes, the only ones with titles and skills of their own. */
  predicate Archetype(k: Kind)
  {
    k == Barbarian || k == Archer || k == Mage
  }

  /** `evolution_levels`: the tier a level unlocks, 0 for a level that unlocks none. */
  function UnlockedTier(level: int): (t: int)
    ensures 0 <= t <= 6
    ensures t > 0 <==> 5 <= level <= 30 && level % 5 == 0
    ensures t > 0 ==> t == level / 5
  {
    if 5 <= level <= 30 && level % 5 == 0 then level / 5 else 0
  }

  /** The seven titles of a class, tier 0 first. */
  function Titles(k: Kind): (ts: seq<string>)
    ensures |ts| == 7
  {
    match k
    case Barbarian => ["Barbarian", "Berserker", "Warlord", "Champion", "Warchief", "Legendary Warrior", "Celestial Conqueror"]
    case Archer => ["Archer", "Scout", "Ranger", "Sharpshooter", "Marksman", "Legendary Hunter", "Celestial Deadeye"]
    case Mage => ["Mage", "Apprentice Mage", "Adept Mage", "Master Mage", "Grand Mage", "Elder Sage", "Celestial Magus"]
    case _ => ["Novice", "Initiate", "Adept", "Expert", "Master", "Grandmaster", "Celestial"]
  }

  /** The six skills of a player class, the tier-1 skill first; no two are alike. */
  function Skills(k: Kind): (ss: seq<string>)
    requires Archetype(k)
    ensures |ss| == 6
    ensures forall i, j :: 0 <= i < j < 6 ==> ss[i] != ss[j]
  {
    match k
    case Barbarian => ["Battle Cry", "Cleave", "Endurance", "Rallying Shout", "Unstoppable Force", "Divine Fury"]
    case Archer => ["Quick Shot", "Trap", "Aimed Shot", "Volley", "Shadow Step", "Rain of Arrows"]
    case Mage => ["Frost Nova", "Arcane Missile", "Teleport", "Mirror Image", "Mana Shield", "Meteor Storm"]
  }

  /** The skill a player class learns on reaching a tier from 1 to 6, which no other
      tier teaches. */
  function SkillAt(k: Kind, tier: int): (s: string)
    requires Archetype(k) && 1 <= tier <= 6
    ensures s in Skills(k)
    ensures forall i :: 0 <= i < 6 && i != tier - 1 ==> Skills(k)[i] != s
  {
    Skills(k)[tier - 1]
  }

  /** The skills a character holds after evolving through tiers 1 to `tier` in order. */
  function SkillsThrough(k: Kind, tier: int): (ss: seq<string>)
    requires 0 <= tier <= 6
    ensures |ss| == if Archetype(k) then tier else 0
    decreases tier
  {
    if tier == 0 || !Archetype(k) then [] else SkillsThrough(k, tier - 1) + [SkillAt(k, tier)]
  }

  /** A player class that has evolved to `tier` holds the table's first `tier` skills,
      in order and each once. */
  lemma {:induction false} SkillsThroughPrefix(k: Kind, tier: int)
    requires Archetype(k) && 0 <= tier <= 6
    ensures SkillsThrough(k, tier) == Skills(k)[..tier]
    ensures forall i, j :: 0 <= i < j < tier ==> SkillsThrough(k, tier)[i] != SkillsThrough(k, tier)[j]
  {
    if tier > 0 {
      SkillsThroughPrefix(k, tier - 1);
      assert Skills(k)[..tier] == Skills(k)[..tier - 1] + [Skills(k)[tier - 1]];
    }
  }

  /** `evolve_class(new_tier)`: a fifth more maximum hit points and mana, 15% more attack
      and defence (each rounded toward zero), a full refill, the tier's title, and for a
      player class the tier's skill. */
  function Evolve(s: Stats, newTier: int): (r: Stats)
    requires 1 <= newTier <= 6
    ensures r.tier == newTier && r.title == Titles(s.kind)[newTier]
    ensures r.skills == if Archetype(s.kind) then s.skills + [SkillAt(s.kind, newTier)] else s.skills
    ensures r.hp == r.maxHp && r.mana == r.maxMana
    ensures s.maxHp >= 0 && s.maxMana >= 0 && s.attack >= 0 && s.defense >= 0 ==>
              s.maxHp <= r.maxHp && s.maxMana <= r.maxMana && s.attack <= r.attack && s.defense <= r.defense
    ensures s.maxHp >= 5 ==> r.maxHp > s.maxHp
    ensures r == s.(tier := r.tier, title := r.title, skills := r.skills, maxHp := r.maxHp, hp := r.hp,
                    maxMana := r.maxMana, mana := r.mana, attack := r.attack, defense := r.defense)
  {
    var maxHp := s.maxHp + Trunc(s.maxHp, 5);
    var maxMana := s.maxMana + Trunc(s.maxMana, 5);
    s.(tier := newTier,
       maxHp := maxHp, hp := maxHp,
       maxMana := maxMana, mana := maxMana,
       attack := s.attack + Trunc(3 * s.attack, 20),
       defense := s.defense + Trunc(3 * s.defense, 20),
       title := Titles(s.kind)[newTier],
       skills := if Archetype(s.kind) then s.skills + [SkillAt(s.kind, newTier)] else s.skills)
  }

  /** `level_up` up to the evolution check: one more level, the class's growth, a full
      refill and a threshold half as large again (rounded toward zero). */
  function Advance(s: Stats): (r: Stats)
    ensures r.level == s.level + 1 && r.xp == s.xp && r.xpToLevel == Trunc(3 * s.xpToLevel, 2)
    ensures r.kind == s.kind && r.tier == s.tier && r.title == s.title && r.skills == s.skills
    ensures r.hp == r.maxHp && r.mana == r.maxMana
    ensures r.maxHp >= s.maxHp + 8 && r.maxMana >= s.maxMana + 5 && r.attack >= s.attack + 2 && r.defense >= s.defense + 1
  {
    var g := GrowthOf(s.kind);
    s.(level := s.level + 1,
       maxHp := s.maxHp + g.hp, hp := s.maxHp + g.hp,
       maxMana := s.maxMana + g.mana, mana := s.maxMana + g.mana,
       attack := s.attack + g.attack, defense := s.defense + g.defense,
       xpToLevel := Trunc(3 * s.xpToLevel, 2))
  }

  /** `level_up`: `Advance`, then an evolution when the new level unlocks a tier above
      the current one. */
  function LevelUp(s: Stats): (r: Stats)
    ensures r.level == s.level + 1
    ensures r.hp == r.maxHp && r.mana == r.maxMana
    ensures s.maxHp >= 0 && s.maxMana >= 0 && s.attack >= 0 && s.defense >= 0 ==>
              r.maxHp > s.maxHp && r.maxMana > s.maxMana && r.attack > s.attack && r.defense > s.defense
    ensures s.maxHp >= 0 && s.maxMana >= 0 ==> Vital(r)
    ensures r.xpToLevel == Trunc(3 * s.xpToLevel, 2) && r.xp == s.xp
    ensures r.tier == if 0 < UnlockedTier(s.level + 1) && s.tier < UnlockedTier(s.level + 1) then UnlockedTier(s.level + 1) else s.tier
  {
    var s1 := Advance(s);
    var tier := UnlockedTier(s1.level);
    if tier > 0 && s1.tier < tier then Evolve(s1, tier) else s1
  }

  /** `gain_xp(amount)`: adds the experience and levels up once, and only once, when the
      total reaches the threshold; reports whether it did. Experience is never spent. */
  function GainXp(s: Stats, amount: int): (r: (Stats, bool))
    ensures r.1 <==> s.xp + amount >= s.xpToLevel
    ensures r.0.xp == s.xp + amount
    ensures r.0.level == if r.1 then s.level + 1 else s.level
    ensures !r.1 ==> r.0 == s.(xp := s.xp + amount)
    ensures r.1 ==> r.0 == LevelUp(s.(xp := s.xp + amount))
  {
    var s1 := s.(xp := s.xp + amount);
    if s1.xp >= s1.xpToLevel then (LevelUp(s1), true) else (s1, false)
  }

  // ---------------------------------------------------------------- the evolution invariant

  /** The tier a character that has only ever levelled up one level at a time holds. */
  function TierFor(level: int): int
  {
    Min(6, level / 5)
  }

  /** What levelling up from a new character keeps true: the tier follows the level,
      the title names the tier (none before the first evolution), and a player class
      holds exactly one skill per tier, in order. */
  ghost predicate Progressed(s: Stats)
  {
    ProgressedAt(s.kind, s.level, s.tier, s.title, s.skills)
  }

  /** `Progressed` over the only fields it reads. */
  ghost predicate ProgressedAt(k: Kind, level: int, tier: int, title: string, skills: seq<string>)
  {
    && level >= 1
    && tier == TierFor(level)
    && title == (if tier == 0 then "" else Titles(k)[tier])
    && skills == SkillsThrough(k, tier)
  }

  lemma NewbornProgressed(k: Kind)
    requires !k.IsMonster()
    ensures Progressed(InitialStats(k))
  {
  }

  /** One level-up raises the tier by at most one and keeps the evolution invariant. */
  lemma LevelUpProgressed(s: Stats)
    requires Progressed(s)
    ensures Progressed(LevelUp(s))
    ensures s.tier <= LevelUp(s).tier <= s.tier + 1
  {
    var l := s.level + 1;
    var a := Advance(s);
    var r := LevelUp(s);
    if UnlockedTier(l) > 0 {
      assert l % 5 == 0 && l <= 30;
      assert s.level / 5 == l / 5 - 1;
      assert r == Evolve(a, l / 5);
      assert ProgressedAt(s.kind, l, r.tier, r.title, r.skills);
    } else {
      assert l % 5 != 0 || l > 30;
      assert TierFor(l) == TierFor(s.level);
      assert r == a;
      assert ProgressedAt(s.kind, l, r.tier, r.title, r.skills);
    }
  }

  /** Gaining experience keeps the evolution invariant. */
  lemma GainXpProgressed(s: Stats, amount: int)
    requires Progressed(s)
    ensures Progressed(GainXp(s, amount).0)
  {
    var s1 := s.(xp := s.xp + amount);
    var r := GainXp(s, amount);
    if r.1 {
      LevelUpProgressed(s1);
      assert r.0 == LevelUp(s1);
    } else {
      XpProgressed(s, s1.xp);
      assert r.0 == s1;
    }
  }

  /** Experience alone does not bear on the invariant. */
  lemma XpProgressed(s: Stats, xp: int)
    requires Progressed(s)
    ensures Progressed(s.(xp := xp))
  {
  }

  // ---------------------------------------------------------------- the experience threshold

  /** The threshold after `n` level-ups from the starting 100, each one truncating. */
  function Threshold(n: nat): (x: int)
    ensures x >= 100
  {
    if n == 0 then 100 else Trunc(3 * Threshold(n - 1), 2)
  }

  /** Level-ups follow the threshold sequence. */
  lemma {:induction false} LevelUpsFollowThreshold(s: Stats, n: nat)
    requires s.xpToLevel == Threshold(n)
    ensures LevelUp(s).xpToLevel == Threshold(n + 1)
  {
  }

  /** Truncating at every step drifts below the closed form `int(100 * 1.5 ** n)`:
      the threshold for the fifth level is 505, while `int(100 * 1.5 ** 4)`, with
      `1.5 ** 4 == 81 / 16` exactly, is 506. */
  lemma ThresholdDrift()
    ensures Threshold(4) == 505
    ensures Trunc(100 * 81, 16) == 506
  {
    assert Threshold(1) == 150;
    assert Threshold(2) == 225;
    assert Threshold(3) == 337;
  }
}
