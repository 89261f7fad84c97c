/**
 The encounter engine of game.py: the state that `main` keeps in local
 variables (and in the module-level inventory), and one transition per
 menu choice.

 Printing is dropped and each read of a line becomes a command. A Python
 exception that ends the program becomes a `Crashed` outcome that carries
 the state at the moment it was raised.
 */
module Engine {
  import opened Monsters
  import opened Items
  import opened Combat

  const MaxHealth := 100
  const StartHealth := 100
  const StartGold := 10
  const StartAttack := 10
  const SleepCost := 5
  const SleepRestore := 15

  /** Everything a turn can read or change. */
  datatype GameState = GameState(
    health: int,
    gold: int,
    attack: int,
    equipped: seq<string>,
    durability: int,
    defeated: bool,
    inventory: seq<Item>,
    monster: Monster)

  /** The exceptions the engine can raise: `list.remove` of an absent name
      (ValueError) and `item['quantity']` on an item without one (KeyError). */
  datatype Error = SwordNotEquipped | MissingQuantity

  /** Where a turn leaves the game: waiting for the next choice, or ended one of three ways. */
  datatype Outcome =
    | Playing(state: GameState)
    | GameOver(state: GameState)
    | Quit(state: GameState)
    | Crashed(state: GameState, error: Error)

  /** One line typed into the equip sub-menu, already classified. */
  datatype EquipInput = Done | Digit(n: nat) | NonDigit

  /** One line typed at the main menu; the equip choice carries the sub-menu lines that follow it. */
  datatype Command =
    | FightChoice
    | SleepChoice
    | EquipChoice(inputs: seq<EquipInput>)
    | PotionChoice
    | QuitChoice
    | OtherChoice

  function Min(a: int, b: int): (r: int)
    ensures r <= a && r <= b && (r == a || r == b)
  {
    if a <= b then a else b
  }

  /** What every turn keeps true of a game that started from the initial state. */
  predicate Valid(st: GameState) {
    && st.health <= MaxHealth
    && st.gold >= 0
    && st.attack > 0
    && st.monster.power >= 0
    && WellFormed(st.inventory)
  }

  /** Enough for every fight to end: attack stays positive because no weapon lowers it. */
  predicate Terminating(st: GameState) {
    st.attack > 0 && BoostsNonNegative(st.inventory)
  }

  /** The state `main` sets up before its first prompt. */
  function InitialState(monster: Monster): (r: GameState)
    ensures monster.power >= 0 ==> Valid(r)
    ensures Terminating(r)
    ensures r.health == MaxHealth && r.gold == StartGold && r.attack == StartAttack
    ensures r.equipped == [] && !r.defeated && r.monster == monster
    ensures r.inventory == DefaultInventory && r.durability == DefaultInventory[0].currentDurability == 25
  {
    GameState(StartHealth, StartGold, StartAttack, [], DefaultInventory[0].currentDurability, false, DefaultInventory, monster)
  }

  /** Position of the first occurrence of `x` in `s`. */
  function IndexOf(s: seq<string>, x: string): (i: nat)
    requires x in s
    ensures i < |s| && s[i] == x && x !in s[..i]
  {
    if s[0] == x then 0 else 1 + IndexOf(s[1..], x)
  }

  /** `list.remove(x)`: drops the first occurrence of `x` and keeps the order of the rest. */
  function RemoveFirst(s: seq<string>, x: string): (r: seq<string>)
    requires x in s
    ensures r == s[..IndexOf(s, x)] + s[IndexOf(s, x) + 1..]
  {
    if s[0] == x then s[1..]
    else
      var i := IndexOf(s[1..], x);
      assert s[..i + 1] == [s[0]] + s[1..][..i];
      assert s[i + 2..] == s[1..][i + 1..];
      [s[0]] + RemoveFirst(s[1..], x)
  }

  /** Removing leaves every other name with its count and `x` with one fewer. */
  lemma RemoveFirstCounts(s: seq<string>, x: string)
    requires x in s
    ensures multiset(RemoveFirst(s, x)) == multiset(s) - multiset{x}
    ensures |RemoveFirst(s, x)| == |s| - 1
  {
    var i := IndexOf(s, x);
    var a, b := s[..i], s[i + 1..];
    assert s == a + [x] + b;
    assert multiset(s) == multiset(a) + multiset{x} + multiset(b);
    assert multiset(RemoveFirst(s, x)) == multiset(a) + multiset(b);
  }

  /**
   Choice '1' while the monster is not defeated: fight it out, end the game
   if the player is down, otherwise wear the sword by one and, once its
   durability is at or below zero, take one sword off the equipped list.
   The attack bonus the sword gave is kept.
   */
  function FightTurn(st: GameState): (r: Outcome)
    requires Ends(st.monster, st.health, st.attack)
    ensures !r.Quit?
    // health and the monster are what the fight left them at
    ensures var after := Fight(st.monster, st.health, st.attack);
            r.state.health == after.health && r.state.monster == after.monster
    // gold, attack power, inventory and the defeated flag are never touched
    ensures r.state.gold == st.gold && r.state.attack == st.attack
    ensures r.state.inventory == st.inventory && r.state.defeated == st.defeated
    ensures r.state.monster.power == st.monster.power && r.state.monster.name == st.monster.name
    // the game ends exactly when the player is down, and then the sword is not worn
    ensures r.GameOver? <==> r.state.health <= 0
    ensures r.GameOver? ==> r.state.durability == st.durability && r.state.equipped == st.equipped
    ensures !r.GameOver? ==> r.state.durability == st.durability - 1
    // the sword comes off only once worn out, and the source raises if it was not on
    ensures r.Crashed? <==> !r.GameOver? && st.durability - 1 <= 0 && SwordName !in st.equipped
    ensures r.Crashed? ==> r.state.equipped == st.equipped && r.error == SwordNotEquipped
    ensures r.Playing? && st.durability - 1 <= 0 ==> r.state.equipped == RemoveFirst(st.equipped, SwordName)
    ensures r.Playing? && st.durability - 1 > 0 ==> r.state.equipped == st.equipped
    // an already beaten monster leaves a living player untouched, but the sword still wears
    ensures st.monster.health <= 0 && st.health > 0 ==>
              r.state.health == st.health && r.state.monster == st.monster && !r.GameOver?
    ensures st.attack >= 0 && st.monster.power >= 0 ==>
              r.state.health <= st.health && r.state.monster.health <= st.monster.health
  {
    var after := Fight(st.monster, st.health, st.attack);
    var fought := st.(health := after.health, monster := after.monster);
    if fought.health <= 0 then GameOver(fought)
    else
      var worn := fought.(durability := fought.durability - 1);
      if worn.durability <= 0 then
        if SwordName in worn.equipped then Playing(worn.(equipped := RemoveFirst(worn.equipped, SwordName)))
        else Crashed(worn, SwordNotEquipped)
      else Playing(worn)
  }

  /** Choice '2': pay for a night's rest if the gold is there. */
  function SleepTurn(st: GameState): (r: GameState)
    // only health and gold can change
    ensures r == st.(health := r.health, gold := r.gold)
    ensures st.gold < SleepCost <==> r == st
    ensures st.gold >= SleepCost ==> r.gold == st.gold - SleepCost && r.health <= MaxHealth
    // from a capped health, sleep restores up to 15 and never lowers it
    ensures st.gold >= SleepCost && st.health <= MaxHealth ==>
              st.health <= r.health <= st.health + SleepRestore &&
              (r.health == st.health + SleepRestore || r.health == MaxHealth)
  {
    if st.gold >= SleepCost then
      st.(health := Min(st.health + SleepRestore, MaxHealth), gold := st.gold - SleepCost)
    else st
  }

  /** One selection in the equip sub-menu, by zero-based position in the inventory. */
  function Select(st: GameState, index: int): (r: GameState)
    // the sub-menu never touches gold, durability, the defeated flag or the monster
    ensures r == st.(health := r.health, attack := r.attack, equipped := r.equipped, inventory := r.inventory)
    ensures SameItems(st.inventory, r.inventory)
    // positions outside the inventory and potions change nothing
    ensures !(0 <= index < |st.inventory|) ==> r == st
    ensures 0 <= index < |st.inventory| && st.inventory[index].Potion? ==> r == st
    // a health item is consumed one unit at a time while any is left
    ensures 0 <= index < |st.inventory| && st.inventory[index].HealthBoost? ==>
              var item := st.inventory[index];
              if item.quantity > 0 then
                && r.health == Min(st.health + item.healthRestore, MaxHealth)
                && r.inventory == st.inventory[index := WithQuantity(item, item.quantity - 1)]
                && r.equipped == st.equipped + [item.name]
                && r.attack == st.attack
              else r == st
    // a weapon adds its bonus again on every selection while the sword is not worn out
    ensures 0 <= index < |st.inventory| && st.inventory[index].Weapon? ==>
              var item := st.inventory[index];
              if st.durability > 0 then
                && r.attack == st.attack + item.attackBoost
                && r.equipped == st.equipped + [item.name]
                && r.health == st.health && r.inventory == st.inventory
              else r == st
  {
    if 0 <= index < |st.inventory| then
      match st.inventory[index]
      case HealthBoost(name, restore, q) =>
        if q > 0 then
          st.(health := Min(st.health + restore, MaxHealth),
              inventory := st.inventory[index := HealthBoost(name, restore, q - 1)],
              equipped := st.equipped + [name])
        else st
      case Weapon(name, _, _, boost) =>
        if st.durability > 0 then st.(attack := st.attack + boost, equipped := st.equipped + [name])
        else st
      case Potion(_, _, _) => st
    else st
  }

  /** Choice '3': the equip sub-menu reads lines until "done"; a digit `n` selects item `n - 1`. */
  function EquipMenu(st: GameState, inputs: seq<EquipInput>): (r: GameState)
    ensures r.gold == st.gold && r.durability == st.durability
    ensures r.defeated == st.defeated && r.monster == st.monster
    ensures SameItems(st.inventory, r.inventory)
    // equipped names are only ever appended
    ensures st.equipped <= r.equipped
    ensures BoostsNonNegative(st.inventory) ==> r.attack >= st.attack
    ensures Valid(st) ==> Valid(r)
    decreases |inputs|
  {
    if |inputs| == 0 then st
    else match inputs[0]
      case Done => st
      case Digit(n) => EquipMenu(Select(st, n - 1), inputs[1..])
      case NonDigit => EquipMenu(st, inputs[1..])
  }

  /** "done" ends the sub-menu: nothing typed after it is read as a selection. */
  lemma {:induction false} DoneEndsSubMenu(st: GameState, a: seq<EquipInput>, b: seq<EquipInput>)
    requires Done !in a
    ensures EquipMenu(st, a + [Done] + b) == EquipMenu(st, a)
    decreases |a|
  {
    if |a| == 0 {
      assert (a + [Done] + b)[0] == Done;
    } else {
      var next := if a[0].Digit? then Select(st, a[0].n - 1) else st;
      DoneEndsSubMenu(next, a[1..], b);
      assert (a + [Done] + b)[1..] == a[1..] + [Done] + b;
    }
  }

  /** A line that is neither "done" nor a number changes nothing and the sub-menu reads on. */
  lemma {:induction false} NonDigitIgnored(st: GameState, a: seq<EquipInput>, b: seq<EquipInput>)
    requires Done !in a
    ensures EquipMenu(st, a + [NonDigit] + b) == EquipMenu(st, a + b)
    decreases |a|
  {
    if |a| == 0 {
      assert (a + [NonDigit] + b)[1..] == b;
      assert a + b == b;
    } else {
      var next := if a[0].Digit? then Select(st, a[0].n - 1) else st;
      NonDigitIgnored(next, a[1..], b);
      assert (a + [NonDigit] + b)[1..] == a[1..] + [NonDigit] + b;
      assert (a + b)[1..] == a[1..] + b;
    }
  }

  /** The zero-based positions the numbers typed before the first "done" stand for. */
  function Selections(inputs: seq<EquipInput>): (r: seq<int>)
    ensures |r| <= |inputs|
  {
    if |inputs| == 0 || inputs[0] == Done then []
    else if inputs[0].Digit? then [inputs[0].n - 1] + Selections(inputs[1..])
    else Selections(inputs[1..])
  }

  /** Selections made one after another, in order. */
  function SelectAll(st: GameState, positions: seq<int>): GameState
    decreases |positions|
  {
    if |positions| == 0 then st else SelectAll(Select(st, positions[0]), positions[1..])
  }

  /** A visit to the sub-menu amounts to selecting, in order, the item `n - 1` for each number `n`
      typed before the first "done"; other lines and everything after "done" change nothing. */
  lemma {:induction false} EquipMenuIsSelections(st: GameState, inputs: seq<EquipInput>)
    ensures EquipMenu(st, inputs) == SelectAll(st, Selections(inputs))
    decreases |inputs|
  {
    if |inputs| > 0 && inputs[0] != Done {
      if inputs[0].Digit? {
        EquipMenuIsSelections(Select(st, inputs[0].n - 1), inputs[1..]);
      } else {
        EquipMenuIsSelections(st, inputs[1..]);
      }
    }
  }

  /** Choice '4': drink the first item named "magic potion", if one is left and the monster still stands. */
  function PotionTurn(st: GameState): (r: Outcome)
    ensures r.Playing? || r.Crashed?
    // only the inventory and the flag can change, and a raise leaves everything as it was
    ensures r.state == st.(inventory := r.state.inventory, defeated := r.state.defeated)
    ensures r.Crashed? ==> r.state == st && r.error == MissingQuantity
    // no health is lost and the monster is not touched
    ensures r.state.health == st.health && r.state.monster == st.monster
    ensures r.state.attack == st.attack && r.state.gold == st.gold && r.state.durability == st.durability
    ensures SameItems(st.inventory, r.state.inventory)
    // the lookup reads a quantity before it looks at the flag, so a weapon by that name raises
    ensures r.Crashed? <==>
              var f := FindNamed(st.inventory, PotionName);
              f.Some? && st.inventory[f.value].Weapon?
    // the flag is set, and one unit used, exactly when a potion is left and the monster was not beaten
    ensures r.Playing? && r.state.defeated != st.defeated <==>
              var f := FindNamed(st.inventory, PotionName);
              !st.defeated && f.Some? && !st.inventory[f.value].Weapon? && st.inventory[f.value].quantity > 0
    ensures r.Playing? && r.state.defeated != st.defeated ==>
              var i := FindNamed(st.inventory, PotionName).value;
              r.state.inventory == st.inventory[i := WithQuantity(st.inventory[i], st.inventory[i].quantity - 1)]
    ensures r.Playing? && r.state.defeated == st.defeated ==> r.state == st
  {
    match FindNamed(st.inventory, PotionName)
    case None => Playing(st)
    case Some(i) =>
      match QuantityOf(st.inventory[i])
      case None => Crashed(st, MissingQuantity)
      case Some(q) =>
        if q > 0 && !st.defeated then
          Playing(st.(inventory := st.inventory[i := WithQuantity(st.inventory[i], q - 1)], defeated := true))
        else Playing(st)
  }

  /** One pass through the main loop. */
  function Step(st: GameState, cmd: Command): (r: Outcome)
    requires Terminating(st)
    ensures Terminating(r.state)
    ensures Valid(st) ==> Valid(r.state)
    // the defeated flag is one-way and only the potion sets it
    ensures st.defeated ==> r.state.defeated
    ensures !st.defeated && r.state.defeated ==> cmd == PotionChoice
    // a beaten monster blocks the fight choice; it is read as an invalid choice
    ensures st.defeated && cmd == FightChoice ==> r == Playing(st)
    ensures r.Quit? <==> cmd == QuitChoice
    ensures cmd == QuitChoice ==> r == Quit(st)
    // an unrecognised choice only re-prompts
    ensures cmd == OtherChoice ==> r == Playing(st)
    // choice '3' runs the sub-menu over the lines typed into it and returns to the main menu
    ensures cmd.EquipChoice? ==> r == Playing(EquipMenu(st, cmd.inputs))
    ensures r.state.attack >= st.attack && r.state.durability <= st.durability
    ensures r.state.monster.power == st.monster.power && r.state.monster.name == st.monster.name
    ensures Valid(st) ==> r.state.health <= st.health || cmd == SleepChoice || cmd.EquipChoice?
    ensures Valid(st) ==> r.state.monster.health <= st.monster.health
  {
    match cmd
    case FightChoice => if !st.defeated then FightTurn(st) else Playing(st)
    case SleepChoice => Playing(SleepTurn(st))
    case EquipChoice(inputs) => Playing(EquipMenu(st, inputs))
    case PotionChoice => PotionTurn(st)
    case QuitChoice => Quit(st)
    case OtherChoice => Playing(st)
  }

  /** The main loop over a sequence of choices; it stops at the first outcome that ends the game. */
  function Play(st: GameState, cmds: seq<Command>): (r: Outcome)
    requires Terminating(st)
    ensures Terminating(r.state)
    ensures Valid(st) ==> Valid(r.state)
    ensures st.defeated ==> r.state.defeated
    ensures !st.defeated && r.state.defeated ==> PotionChoice in cmds
    ensures r.Quit? ==> QuitChoice in cmds
    ensures r.state.attack >= st.attack && r.state.durability <= st.durability
    ensures Valid(st) ==> r.state.monster.health <= st.monster.health
    decreases |cmds|
  {
    if |cmds| == 0 then Playing(st)
    else
      match Step(st, cmds[0])
      case Playing(next) => Play(next, cmds[1..])
      case GameOver(_) => Step(st, cmds[0])
      case Quit(_) => Step(st, cmds[0])
      case Crashed(_, _) => Step(st, cmds[0])
  }

  /** A single choice is exactly one pass through the loop. */
  lemma PlayOne(st: GameState, cmd: Command)
    requires Terminating(st)
    ensures Play(st, [cmd]) == Step(st, cmd)
  {
    assert [cmd][1..] == [];
  }

  /** The loop runs the first choices, then carries on from where they left the game unless it ended. */
  lemma {:induction false} PlaySplit(st: GameState, a: seq<Command>, b: seq<Command>)
    requires Terminating(st)
    ensures Play(st, a + b) == if Play(st, a).Playing? then Play(Play(st, a).state, b) else Play(st, a)
    decreases |a|
  {
    if |a| == 0 {
      assert a + b == b;
    } else {
      assert (a + b)[0] == a[0];
      assert (a + b)[1..] == a[1..] + b;
      var first := Step(st, a[0]);
      if first.Playing? {
        PlaySplit(first.state, a[1..], b);
      }
    }
  }

  /** Once the monster is beaten, the fight choice does nothing, and so does the
      potion choice unless a weapon carries the potion's name. */
  lemma DefeatedIsFinal(st: GameState)
    requires Terminating(st) && st.defeated
    ensures Step(st, FightChoice) == Playing(st)
    ensures Step(st, PotionChoice).Playing? ==> Step(st, PotionChoice) == Playing(st)
    ensures (forall i :: 0 <= i < |st.inventory| ==> !st.inventory[i].Weapon?) ==>
              Step(st, PotionChoice) == Playing(st)
  {
  }

  /** The inventory laid out as the game's own: a weapon, a health item, a potion, with distinct names. */
  predicate DefaultLayout(inventory: seq<Item>) {
    && |inventory| == 3
    && inventory[0].Weapon? && inventory[1].HealthBoost? && inventory[2].Potion?
    && inventory[0].name != inventory[1].name
  }

  /**
   `after` follows from `before` by sub-menu selections, as read off the names
   appended in between: every weapon name added one weapon bonus, every
   health-item name used one unit, and nothing else was appended.
   */
  predicate Accounted(before: GameState, after: GameState) {
    && DefaultLayout(before.inventory)
    && before.equipped <= after.equipped
    && |after.inventory| == 3
    && after.inventory[0] == before.inventory[0]
    && after.inventory[2] == before.inventory[2]
    && after.inventory[1].HealthBoost?
    && after.inventory[1].name == before.inventory[1].name
    && after.inventory[1].healthRestore == before.inventory[1].healthRestore
    && var added := after.equipped[|before.equipped|..];
       var weapon := before.inventory[0];
       var drink := before.inventory[1];
       && after.attack == before.attack + weapon.attackBoost * multiset(added)[weapon.name]
       && after.inventory[1].quantity == drink.quantity - multiset(added)[drink.name]
       && |added| == multiset(added)[weapon.name] + multiset(added)[drink.name]
  }

  lemma AccountedRefl(st: GameState)
    requires DefaultLayout(st.inventory)
    ensures Accounted(st, st)
  {
    assert st.equipped[|st.equipped|..] == [];
  }

  /** One selection appends at most one name, and that name says what it did. */
  lemma SelectAccounted(st: GameState, index: int)
    requires DefaultLayout(st.inventory)
    ensures Accounted(st, Select(st, index))
  {
    var r := Select(st, index);
    var step := r.equipped[|st.equipped|..];
    if r.equipped == st.equipped {
      assert step == [];
    } else {
      assert step == [r.equipped[|st.equipped|]];
    }
  }

  lemma AccountedTrans(a: GameState, b: GameState, c: GameState)
    requires Accounted(a, b) && Accounted(b, c)
    ensures Accounted(a, c)
  {
    var ab := b.equipped[|a.equipped|..];
    var bc := c.equipped[|b.equipped|..];
    var ac := c.equipped[|a.equipped|..];
    assert ac == ab + bc;
    var w := a.inventory[0].name;
    assert multiset(ac) == multiset(ab) + multiset(bc);
    LedgerAdds(a.inventory[0].attackBoost, a.attack, b.attack, c.attack, multiset(ab)[w], multiset(bc)[w]);
  }

  lemma LedgerAdds(boost: int, a: int, b: int, c: int, x: int, y: int)
    requires b == a + boost * x && c == b + boost * y
    ensures c == a + boost * (x + y)
  {
  }

  /** A whole visit to the equip sub-menu is accounted for by the names it appended. */
  lemma {:induction false} EquipAccounting(st: GameState, inputs: seq<EquipInput>)
    requires DefaultLayout(st.inventory)
    ensures Accounted(st, EquipMenu(st, inputs))
    decreases |inputs|
  {
    if |inputs| == 0 || inputs[0] == Done {
      AccountedRefl(st);
    } else {
      var next := if inputs[0].Digit? then Select(st, inputs[0].n - 1) else st;
      if inputs[0].Digit? {
        SelectAccounted(st, inputs[0].n - 1);
      } else {
        AccountedRefl(st);
      }
      EquipAccounting(next, inputs[1..]);
      AccountedTrans(st, next, EquipMenu(next, inputs[1..]));
    }
  }

  /** From a fresh game, a fight with a monster of health 12 and power 2 costs 2 health
      and one point of durability, and leaves the monster at -8 without setting the flag. */
  lemma FirstFightExample(name: string, description: string, money: int)
    ensures var st := InitialState(Monster(name, description, 12, 2, money));
            Step(st, FightChoice)
            == Playing(st.(health := 98, durability := 24, monster := Monster(name, description, -8, 2, money)))
  {
    WorkedExample(name, description, money);
  }

  /** A sword equipped twice survives its first break: one copy comes off, the bonus stays. */
  lemma BrokenSwordKeepsBonus(st: GameState)
    requires Terminating(st) && !st.defeated
    requires st.monster.health <= 0 && st.health > 0
    requires st.durability == 1 && st.equipped == [SwordName, MilkshakeName, SwordName]
    ensures Step(st, FightChoice) == Playing(st.(durability := 0, equipped := [MilkshakeName, SwordName]))
    ensures Step(st, FightChoice).state.attack == st.attack
  {
    assert IndexOf(st.equipped, SwordName) == 0;
  }

  /** The sword can also break in a real fight: at durability 1 with the sword on (attack 10 plus
      its bonus of 10), one blow takes a monster of health 12 to -8, the sword comes off and
      attack power stays at 20. */
  lemma SwordBreaksInRealFight(name: string, description: string, money: int)
    ensures var st := InitialState(Monster(name, description, 12, 2, money)).(
                        durability := 1, attack := 20, equipped := [SwordName]);
            Step(st, FightChoice)
            == Playing(st.(durability := 0, equipped := [],
                           monster := Monster(name, description, -8, 2, money)))
            && Step(st, FightChoice).state.attack == 20
  {
  }
}
