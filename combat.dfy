/** The combat turn machine of combat.py: a player and a villain take turns, each turn
    is one action, a stance of blocking lasts only through a turn that chose it, and the
    fight is over as soon as either side has no hit points left. The villain's choice of
    action is a function of its own snapshot and three `random.random()` draws. */
module Combat {
  import opened Basics
  import opened Items
  import opened Characters
  import opened Monsters
  import opened Outcomes
  import opened Combatants
  import opened ItemEffects

  // ---------------------------------------------------------------- the villain's policy

  /** The three `random.random()` draws `get_villain_action` may consult: whether to
      block, whether to heal, whether to use the special attack. */
  datatype PolicyRolls = PolicyRolls(block: real, heal: real, special: real)

  predicate RollsFit(u: PolicyRolls)
  {
    Unit(u.block) && Unit(u.heal) && Unit(u.special)
  }

  /** The mana a villain waits for before it tries its special attack. */
  function ManaThreshold(k: Kind): int
  {
    if k == DarkMage then 30 else if k == DarkArcher then 25 else 20
  }

  /** The chance of trying the special attack: higher above seven tenths of the
      maximum hit points. */
  function SpecialChance(v: Stats): real
  {
    if 10 * v.hp > 7 * v.maxHp then 0.6 else 0.4
  }

  /** `get_villain_action`: 3 blocks, 4 heals, 2 is the special attack and 1 the basic
      attack. The comparisons with fractions of `max_hp` are exact rationals. */
  function VillainAction(v: Stats, u: PolicyRolls): (action: int)
    ensures action in {1, 2, 3, 4}
    ensures action == 3 ==> 5 * v.hp < v.maxHp
    ensures action == 4 ==> v.kind == DarkMage && 5 * v.hp < 2 * v.maxHp && v.mana >= 30
    ensures action == 2 ==> v.mana >= ManaThreshold(v.kind)
  {
    if 5 * v.hp < v.maxHp && u.block < 0.7 then 3
    else if 5 * v.hp < 2 * v.maxHp && v.kind == DarkMage && v.mana >= 30 && u.heal < 0.6 then 4
    else if v.mana >= ManaThreshold(v.kind) && u.special < SpecialChance(v) then 2
    else 1
  }

  /** A villain below a fifth of its hit points blocks on a roll below 0.7, whatever
      else holds. */
  lemma LowVillainBlocks(v: Stats, u: PolicyRolls)
    requires 5 * v.hp < v.maxHp && u.block < 0.7
    ensures VillainAction(v, u) == 3
  {
  }

  /** Once it neither blocks nor heals, a villain with the mana for it tries its special
      attack exactly when the roll is below 0.6 if it holds more than seven tenths of its
      hit points and below 0.4 otherwise; so a roll in [0.4, 0.6) decides by health. */
  lemma SpecialByHealth(v: Stats, u: PolicyRolls)
    requires !(5 * v.hp < v.maxHp && u.block < 0.7)
    requires !(5 * v.hp < 2 * v.maxHp && v.kind == DarkMage && v.mana >= 30 && u.heal < 0.6)
    requires v.mana >= ManaThreshold(v.kind)
    ensures VillainAction(v, u) == 2 <==> u.special < SpecialChance(v)
    ensures 0.4 <= u.special < 0.6 ==> (VillainAction(v, u) == 2 <==> 10 * v.hp > 7 * v.maxHp)
  {
  }

  /** Without the mana for its special attack and without cause to block or heal, the
      villain attacks. */
  lemma ShortVillainAttacks(v: Stats, u: PolicyRolls)
    requires v.maxHp >= 0 && 5 * v.hp >= 2 * v.maxHp && v.mana < ManaThreshold(v.kind)
    ensures VillainAction(v, u) == 1
  {
  }

  /** The Dark Mage's heal in `execute_villain_action`: 30 mana for `30 + extra` hit
      points, capped at the maximum; `extra` is the `randint(0, 10)`. */
  function DarkHealing(v: Stats, extra: int): (r: Stats)
    requires v.mana >= 30 && 0 <= extra <= 10
    ensures r == v.(mana := v.mana - 30, hp := r.hp)
    ensures v.hp <= v.maxHp ==> r.hp - v.hp == Min(30 + extra, v.maxHp - v.hp)
    ensures Vital(v) ==> Vital(r) && v.hp <= r.hp <= v.hp + 40
  {
    Restore(v.(mana := v.mana - 30), 30 + extra)
  }

  // ---------------------------------------------------------------- turns as functions

  /** The draws of one player turn: the chosen action (`"1"` to `"6"`, as a number),
      the attack's draws, the `randint(0, 15)` of the Mage's heal, and the item chosen
      from the list of consumables (1-based, 0 cancels). */
  datatype PlayerMove = PlayerMove(action: int, dice: Dice, extra: int, choice: int)

  /** The draws of one villain turn: the policy's rolls, the attack's draws and the
      `randint(0, 10)` of the Dark Mage's heal. */
  datatype VillainMove = VillainMove(rolls: PolicyRolls, dice: Dice, extra: int)

  /** The player's draws lie in the ranges the chosen action draws them from. */
  predicate PlayerFits(p: Stats, m: PlayerMove)
  {
    && (m.action == 1 ==> AttackFits(p, m.dice))
    && (m.action == 2 ==> SpecialFits(p, m.dice))
    && 0 <= m.extra <= 15
  }

  /** The villain's draws lie in the ranges the action it is given draws them from. */
  predicate VillainFits(v: Stats, action: int, m: VillainMove)
  {
    && RollsFit(m.rolls)
    && (action == 1 || (action == 4 && v.kind == DarkMage && v.mana < 30) ==> AttackFits(v, m.dice))
    && (action == 2 ==> SpecialFits(v, m.dice))
    && 0 <= m.extra <= 10
  }

  /** `execute_player_action` on the two snapshots. `pick` is the consumable the choice
      selects, with its remaining uses, for action 5; action 6 heals only a Mage, and
      any other action does nothing. */
  function PlayerOutcome(p: Stats, v: Stats, m: PlayerMove, pick: Option<(ItemKind, int)>): (r: (Stats, Stats))
    requires PlayerFits(p, m)
    ensures m.action == 3 ==> r == (p.(blocking := true), v)
    ensures m.action == 4 ==> r == (p.(dodging := true), v)
    ensures m.action !in {1, 2} ==> r.1 == v
    ensures (m.action == 5 && pick.None?) || (m.action == 6 && p.kind != Mage) || m.action !in {1, 2, 3, 4, 5, 6} ==> r == (p, v)
  {
    if m.action == 1 then
      var e := AttackOutcome(p, v, m.dice); (e.actor, e.target)
    else if m.action == 2 then
      var e := SpecialOutcome(p, v, m.dice); (e.actor, e.target)
    else if m.action == 3 then (p.(blocking := true), v)
    else if m.action == 4 then (p.(dodging := true), v)
    else if m.action == 5 then
      (if pick.Some? then UseItem(p, pick.value.0, pick.value.1).0 else p, v)
    else if m.action == 6 && p.kind == Mage then (HealSpell(p, m.extra).0, v)
    else (p, v)
  }

  /** `execute_villain_action` on the two snapshots, the player's first. Action 4 heals
      only a Dark Mage, which attacks instead when short of mana. */
  function VillainOutcome(p: Stats, v: Stats, action: int, m: VillainMove): (r: (Stats, Stats))
    requires VillainFits(v, action, m)
    ensures action == 3 ==> r == (p, v.(blocking := true))
    ensures action == 4 && v.kind == DarkMage && v.mana >= 30 ==> r.0 == p
    ensures (action == 4 && v.kind != DarkMage) || action !in {1, 2, 3, 4} ==> r == (p, v)
  {
    if action == 1 then
      var e := AttackOutcome(v, p, m.dice); (e.target, e.actor)
    else if action == 2 then
      var e := SpecialOutcome(v, p, m.dice); (e.target, e.actor)
    else if action == 3 then (p, v.(blocking := true))
    else if action == 4 && v.kind == DarkMage then
      if v.mana >= 30 then (p, DarkHealing(v, m.extra))
      else var e := AttackOutcome(v, p, m.dice); (e.target, e.actor)
    else (p, v)
  }

  /** The end of a turn: a side that did not choose to block this turn stops blocking. */
  function EndTurn(s: Stats, blocked: bool): (r: Stats)
    ensures r.blocking <==> s.blocking && blocked
    ensures r == s.(blocking := r.blocking)
  {
    if !blocked && s.blocking then s.(blocking := false) else s
  }

  /** `player_turn` */
  function PlayerTurnOutcome(p: Stats, v: Stats, m: PlayerMove, pick: Option<(ItemKind, int)>): (r: (Stats, Stats))
    requires PlayerFits(p, m)
    ensures r.0 == PlayerOutcome(p, v, m, pick).0.(blocking := m.action == 3)
    ensures r.1 == PlayerOutcome(p, v, m, pick).1
  {
    var (p1, v1) := PlayerOutcome(p, v, m, pick);
    (EndTurn(p1, m.action == 3), v1)
  }

  /** `villain_turn`: the policy picks the action, which is then carried out. */
  function VillainTurnOutcome(p: Stats, v: Stats, m: VillainMove): (r: (Stats, Stats))
    requires VillainFits(v, VillainAction(v, m.rolls), m)
    ensures var action := VillainAction(v, m.rolls);
      && r.0 == VillainOutcome(p, v, action, m).0
      && r.1 == VillainOutcome(p, v, action, m).1.(blocking := action == 3)
  {
    var action := VillainAction(v, m.rolls);
    var (p1, v1) := VillainOutcome(p, v, action, m);
    (p1, EndTurn(v1, action == 3))
  }

  /** `check_combat_end`: as long as hit points stay within their bounds, the fight is
      over exactly when one side is at zero. */
  predicate Over(p: Stats, v: Stats)
    ensures Vital(p) && Vital(v) ==> (Over(p, v) <==> p.hp == 0 || v.hp == 0)
  {
    p.hp <= 0 || v.hp <= 0
  }

  // ---------------------------------------------------------------- what a turn keeps

  /** After the player's turn the player is blocking exactly when it chose to block,
      and the villain's stance is what it was. */
  lemma PlayerTurnStance(p: Stats, v: Stats, m: PlayerMove, pick: Option<(ItemKind, int)>)
    requires PlayerFits(p, m)
    ensures PlayerTurnOutcome(p, v, m, pick).0.blocking <==> m.action == 3
    ensures PlayerTurnOutcome(p, v, m, pick).1.blocking == v.blocking
  {
    var (p1, v1) := PlayerOutcome(p, v, m, pick);
    if m.action == 1 {
      var e := AttackOutcome(p, v, m.dice);
      assert Lands(v, e.target, e.damage);
    } else if m.action == 2 {
      var e := SpecialOutcome(p, v, m.dice);
      assert Lands(v, e.target, e.damage);
    }
    assert m.action == 3 ==> p1.blocking;
  }

  /** After the villain's turn the villain is blocking exactly when its policy chose to
      block, and the player's stance is what it was. */
  lemma VillainTurnStance(p: Stats, v: Stats, m: VillainMove)
    requires VillainFits(v, VillainAction(v, m.rolls), m)
    ensures VillainTurnOutcome(p, v, m).1.blocking <==> VillainAction(v, m.rolls) == 3
    ensures VillainTurnOutcome(p, v, m).0.blocking == p.blocking
  {
    var action := VillainAction(v, m.rolls);
    if action == 1 || (action == 4 && v.mana < 30) {
      var e := AttackOutcome(v, p, m.dice);
      assert Lands(p, e.target, e.damage);
    } else if action == 2 {
      var e := SpecialOutcome(v, p, m.dice);
      assert Lands(p, e.target, e.damage);
    }
  }

  /** A player's turn keeps hit points and mana of both sides within their bounds, and
      never costs the player hit points: the fight can end on the player's turn only by
      the villain falling. */
  lemma PlayerTurnKeepsVital(p: Stats, v: Stats, m: PlayerMove, pick: Option<(ItemKind, int)>)
    requires PlayerFits(p, m) && Vital(p) && Vital(v) && p.level >= 0
    ensures Vital(PlayerTurnOutcome(p, v, m, pick).0) && Vital(PlayerTurnOutcome(p, v, m, pick).1)
    ensures p.hp <= PlayerTurnOutcome(p, v, m, pick).0.hp
  {
    PlayerActionKeepsVital(p, v, m, pick);
  }

  lemma PlayerActionKeepsVital(p: Stats, v: Stats, m: PlayerMove, pick: Option<(ItemKind, int)>)
    requires PlayerFits(p, m) && Vital(p) && Vital(v) && p.level >= 0
    ensures Vital(PlayerOutcome(p, v, m, pick).0) && Vital(PlayerOutcome(p, v, m, pick).1)
    ensures p.hp <= PlayerOutcome(p, v, m, pick).0.hp
  {
    if m.action == 1 {
      AttackKeepsVital(p, v, m.dice);
    } else if m.action == 2 {
      SpecialKeepsVital(p, v, m.dice);
    } else if m.action == 5 && pick.Some? {
      UseKeepsVital(p, pick.value.0, pick.value.1);
    }
  }

  /** A villain's turn keeps hit points and mana of both sides within their bounds, and
      never costs the villain hit points: the fight can end on the villain's turn only
      by the player falling. */
  lemma VillainTurnKeepsVital(p: Stats, v: Stats, m: VillainMove)
    requires VillainFits(v, VillainAction(v, m.rolls), m) && Vital(p) && Vital(v) && v.level >= 0
    ensures Vital(VillainTurnOutcome(p, v, m).0) && Vital(VillainTurnOutcome(p, v, m).1)
    ensures v.hp <= VillainTurnOutcome(p, v, m).1.hp
  {
    VillainActionKeepsVital(p, v, VillainAction(v, m.rolls), m);
  }

  lemma VillainActionKeepsVital(p: Stats, v: Stats, action: int, m: VillainMove)
    requires VillainFits(v, action, m) && Vital(p) && Vital(v) && v.level >= 0
    ensures Vital(VillainOutcome(p, v, action, m).0) && Vital(VillainOutcome(p, v, action, m).1)
    ensures v.hp <= VillainOutcome(p, v, action, m).1.hp
  {
    if action == 1 || (action == 4 && v.kind == DarkMage && v.mana < 30) {
      AttackKeepsVital(v, p, m.dice);
    } else if action == 2 {
      SpecialKeepsVital(v, p, m.dice);
    }
  }

  // ---------------------------------------------------------------- the turn machine

  /** `Combat`: the two sides, whose turn it is (0 the player's, 1 the villain's), and
      a turn counter that nothing advances. */
  class Combat {
    const player: Combatant
    const villain: Combatant
    var turn: int
    var turnCount: int

    constructor (player: Combatant, villain: Combatant)
      ensures this.player == player && this.villain == villain
      ensures turn == 0 && turnCount == 0
    {
      this.player := player;
      this.villain := villain;
      turn := 0;
      turnCount := 0;
    }

    /** The consumable the player's choice selects, with its remaining uses. */
    function Chosen(choice: int): Option<(ItemKind, int)>
      reads player, player.inventory, player.inventory.items
    {
      var cs := player.inventory.Consumables();
      if 1 <= choice <= |cs| then Some((cs[choice - 1].kind, cs[choice - 1].uses)) else None
    }

    /** `use_item`, once a valid choice has been entered: the chosen consumable is used,
        and removed from the inventory only when the use succeeded. */
    method UseChosenItem(choice: int) returns (used: bool)
      requires 0 <= choice <= |player.inventory.Consumables()|
      modifies player, player.inventory, player.inventory.items
      ensures choice == 0 ==> !used && player.View() == old(player.View()) && player.inventory.items == old(player.inventory.items)
      ensures choice > 0 ==>
        var item := old(player.inventory.Consumables())[choice - 1];
        && (player.View(), item.uses, used) == UseItem(old(player.View()), item.kind, old(item.uses))
        && player.inventory.items == if used then RemoveFirst(old(player.inventory.items), item) else old(player.inventory.items)
      ensures player.inventory.gold == old(player.inventory.gold)
      ensures forall it :: it in old(player.inventory.items) && (choice == 0 || it != old(player.inventory.Consumables())[choice - 1]) ==>
        it.uses == old(it.uses)
    {
      if choice == 0 {
        return false;
      }
      var item := player.inventory.Consumables()[choice - 1];
      used := Use(item, player);
      if used {
        var removed := player.inventory.RemoveItem(item);
      }
    }

    /** `execute_player_action` */
    method ExecutePlayerAction(m: PlayerMove)
      requires player != villain && PlayerFits(player.View(), m)
      requires m.action == 5 ==> 0 <= m.choice <= |player.inventory.Consumables()|
      modifies player, villain, player.inventory, player.inventory.items
      ensures (player.View(), villain.View()) == PlayerOutcome(old(player.View()), old(villain.View()), m, old(Chosen(m.choice)))
      ensures player.inventory.gold == old(player.inventory.gold)
      ensures m.action != 5 || m.choice == 0 ==> player.inventory.items == old(player.inventory.items)
      ensures m.action == 5 && m.choice > 0 ==>
        var item := old(player.inventory.Consumables())[m.choice - 1];
        var use := UseItem(old(player.View()), item.kind, old(item.uses));
        && item.uses == use.1
        && player.inventory.items == if use.2 then RemoveFirst(old(player.inventory.items), item) else old(player.inventory.items)
      ensures forall it :: it in old(player.inventory.items) && (m.action != 5 || m.choice == 0 || it != old(player.inventory.Consumables())[m.choice - 1]) ==>
        it.uses == old(it.uses)
    {
      if m.action == 1 {
        var damage := player.Attack(villain, m.dice);
      } else if m.action == 2 {
        var damage := player.SpecialAttack(villain, m.dice);
      } else if m.action == 3 {
        player.Block();
      } else if m.action == 4 {
        player.Dodge();
      } else if m.action == 5 {
        var used := UseChosenItem(m.choice);
      } else if m.action == 6 && player.kind == Mage {
        var healed := player.Heal(m.extra);
      }
    }

    /** `player_turn` */
    method PlayerTurn(m: PlayerMove)
      requires player != villain && PlayerFits(player.View(), m)
      requires m.action == 5 ==> 0 <= m.choice <= |player.inventory.Consumables()|
      modifies player, villain, player.inventory, player.inventory.items
      ensures (player.View(), villain.View()) == PlayerTurnOutcome(old(player.View()), old(villain.View()), m, old(Chosen(m.choice)))
      ensures player.inventory.gold == old(player.inventory.gold)
      ensures m.action != 5 || m.choice == 0 ==> player.inventory.items == old(player.inventory.items)
      ensures m.action == 5 && m.choice > 0 ==>
        var item := old(player.inventory.Consumables())[m.choice - 1];
        var use := UseItem(old(player.View()), item.kind, old(item.uses));
        && item.uses == use.1
        && player.inventory.items == if use.2 then RemoveFirst(old(player.inventory.items), item) else old(player.inventory.items)
      ensures forall it :: it in old(player.inventory.items) && (m.action != 5 || m.choice == 0 || it != old(player.inventory.Consumables())[m.choice - 1]) ==>
        it.uses == old(it.uses)
    {
      ExecutePlayerAction(m);
      if m.action != 3 && player.blocking {
        player.LowerGuard();
      }
    }

    /** `execute_villain_action` */
    method ExecuteVillainAction(action: int, m: VillainMove)
      requires player != villain && VillainFits(villain.View(), action, m)
      modifies player, villain
      ensures (player.View(), villain.View()) == VillainOutcome(old(player.View()), old(villain.View()), action, m)
    {
      if action == 1 {
        var damage := villain.Attack(player, m.dice);
      } else if action == 2 {
        var damage := villain.SpecialAttack(player, m.dice);
      } else if action == 3 {
        villain.Block();
      } else if action == 4 && villain.kind == DarkMage {
        if villain.mana >= 30 {
          villain.Spend(30);
          villain.Recover(30 + m.extra);
        } else {
          var damage := villain.Attack(player, m.dice);
        }
      }
    }

    /** `villain_turn` */
    method VillainTurn(m: VillainMove)
      requires player != villain && VillainFits(villain.View(), VillainAction(villain.View(), m.rolls), m)
      modifies player, villain
      ensures (player.View(), villain.View()) == VillainTurnOutcome(old(player.View()), old(villain.View()), m)
    {
      var action := VillainAction(villain.View(), m.rolls);
      ExecuteVillainAction(action, m);
      if action != 3 && villain.blocking {
        villain.LowerGuard();
      }
    }

    /** `check_combat_end` */
    function CheckCombatEnd(): (over: bool)
      reads player, villain
      ensures over <==> Over(player.View(), villain.View())
    {
      !player.IsAlive() || !villain.IsAlive()
    }

    /** `execute_turn`: the side whose turn it is acts, the turn passes to the other
        side, and the result says whether the fight is over. */
    method ExecuteTurn(pm: PlayerMove, vm: VillainMove) returns (over: bool)
      requires player != villain
      requires turn == 0 ==> PlayerFits(player.View(), pm) && (pm.action == 5 ==> 0 <= pm.choice <= |player.inventory.Consumables()|)
      requires turn != 0 ==> VillainFits(villain.View(), VillainAction(villain.View(), vm.rolls), vm)
      modifies this, player, villain, player.inventory, player.inventory.items
      ensures old(turn) == 0 ==>
        turn == 1 && (player.View(), villain.View()) == PlayerTurnOutcome(old(player.View()), old(villain.View()), pm, old(Chosen(pm.choice)))
      ensures old(turn) != 0 ==>
        turn == 0 && (player.View(), villain.View()) == VillainTurnOutcome(old(player.View()), old(villain.View()), vm)
      ensures over <==> Over(player.View(), villain.View())
      ensures turnCount == old(turnCount)
      ensures player.inventory.gold == old(player.inventory.gold)
      ensures old(turn) != 0 || pm.action != 5 || pm.choice == 0 ==> player.inventory.items == old(player.inventory.items)
      ensures old(turn) == 0 && pm.action == 5 && pm.choice > 0 ==>
        var item := old(player.inventory.Consumables())[pm.choice - 1];
        var use := UseItem(old(player.View()), item.kind, old(item.uses));
        && item.uses == use.1
        && player.inventory.items == if use.2 then RemoveFirst(old(player.inventory.items), item) else old(player.inventory.items)
      ensures forall it :: it in old(player.inventory.items) && (old(turn) != 0 || pm.action != 5 || pm.choice == 0 || it != old(player.inventory.Consumables())[pm.choice - 1]) ==>
        it.uses == old(it.uses)
    {
      if turn == 0 {
        PlayerTurn(pm);
        turn := 1;
      } else {
        VillainTurn(vm);
        turn := 0;
      }
      over := CheckCombatEnd();
    }
  }
}
