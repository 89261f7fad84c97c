# Encounter engine of the game-functions text adventure, in Dafny

This project models the turn-based core of a small Python text adventure. A player
meets one randomly generated monster and answers a numbered menu each turn:

1. fight;
2. sleep (5 gold for up to 15 health, capped at 100);
3. equip items from a three-item inventory;
4. drink a magic potion that defeats the monster outright;
5. quit.

The model also covers the two helpers in `gamefunctions.py`: the monster generator
and the shop arithmetic of `purchase_item`.

The model is purely functional. `main`'s local variables and the module-level inventory
become one `GameState` record. Each menu choice is a pure transition to an `Outcome`:

- `Playing` — waiting for the next line;
- `GameOver` — the player is at or below zero health;
- `Quit`;
- `Crashed` — a Python exception ended the program.

The fight loop is a recursive function with a decreasing health measure. The equip
sub-menu is a fold over the classified lines typed into it. The typed lines themselves
are turned into commands by a small console layer.

Files and modules:

- `monsters.dfy` — `Monsters`: the species table and `new_random_monster`. The four random choices are passed in as indices.
- `purchase.dfy` — `Purchase`: `purchase_item` over `real`, since Python's `/` is true division.
- `items.dfy` — `Items`: the item kinds as one variant type, the default inventory, and the first-by-name lookup used for the potion.
- `combat.dfy` — `Combat`: `fightMonster`, together with a closed-form account of how a fight ends.
- `engine.dfy` — `Engine`: the game state, the per-choice transitions, the equip sub-menu, and the main loop over commands.
- `console.dfy` — `Console`: main-menu lines, sub-menu lines (`lower()`, `isdigit()`, `int()`), and a whole session over typed lines.

Behaviour kept exactly as the code has it, even where it looks unintended:

- Healths are never clamped at 0. The last blow of a fight can leave either side negative.
- `purchase_item` never rejects anything. Its first result is the affordable count minus the
  requested count, not a number of items purchased.
- Winning a fight does not set the monster-defeated flag. Only the potion sets it.
- Fighting an already beaten monster still wears the sword by one.
- A broken sword keeps its attack bonus. Each fight survived after the durability has reached
  zero removes one more sword name. When none is left, `list.remove` raises `ValueError`.
  The model shows this as `Crashed(_, SwordNotEquipped)`.
- The potion lookup reads `item['quantity']` before it checks the flag. An item named
  "magic potion" without a quantity would raise `KeyError` (`Crashed(_, MissingQuantity)`).
- The sword's durability keeps counting down below 0.
- There is no save or load step; the modelled files contain none.

## Model

| member | source | states |
|---|---|---|
| Monsters.NewRandomMonster | gamefunctions.py:30-40 | the monster is named goblin, troll or George the Giant, each of its health, power and money comes from that species' own three values (goblin health in {8, 10, 12} and so on), and every stat is strictly positive |
| Monsters.EveryTierReachable | gamefunctions.py:31-38 | every combination of one health, one power and one money value from a species' lists is produced by some choice of the random indices |
| Purchase.PurchaseItem | gamefunctions.py:8-11 | the leftover plus price times quantity gives back the starting money; the first result times the price equals the leftover; the leftover is negative exactly when the purchase costs more than the money, so nothing is rejected; a zero price is the only excluded input |
| Purchase.NumPurchasedIsSurplus | gamefunctions.py:9 | the first result plus the quantity is the money divided by the price, so it equals the requested quantity only when the money is exactly twice the cost |
| Purchase.DemoPurchases | gamefunctions.py:13-21 | the three calls made on import give (6.0, 12), (1.0, 3) and (3.0, 4.5) |
| Purchase.DefaultQuantityIsOne | gamefunctions.py:8 | leaving out the quantity buys one item |
| Items.WithQuantity | game.py:64 | replacing a quantity keeps the item's kind, name, healing amount and potion effect, changing nothing but the quantity, and leaves a weapon as it is |
| Items.FindNamed | game.py:61 | the lookup returns the first position holding the name, and nothing exactly when no item has that name |
| Items.DefaultInventoryShape | game.py:3-7 | the starting inventory has non-negative quantities and bonuses, and its potion is at the third position |
| Combat.Fight | game.py:98-127 | the loop stops with the monster or the player at or below zero; if either is already down nothing changes; from a live start exactly one side ends down; with non-negative blows neither health ever rises; only the monster's health is changed |
| Combat.FightMatchesPrediction | game.py:111-125 | each exchange takes exactly the attack from the monster and, only if it survives, exactly its power from the player, so the fight ends as the closed form counting the blows each side needs predicts |
| Combat.PlayerWinsIff | game.py:113-125 | the player survives exactly when they need no more blows to finish the monster than the monster needs to finish them |
| Combat.WorkedExample | game.py:111-127 | monster health 12 and power 2 against attack 10 and health 100 leaves the player at 98 and the monster at -8 |
| Engine.InitialState | game.py:25-30 | a new game starts at 100 health, 10 gold, attack 10, nothing equipped, the flag false, the given monster, the default inventory and sword durability 25 read from it, and this state satisfies the invariant |
| Engine.RemoveFirst | game.py:44 | removing a name drops exactly its first occurrence and keeps the order of the rest |
| Engine.RemoveFirstCounts | game.py:44 | removal leaves one fewer of that name, every other name's count unchanged, and a list one shorter |
| Engine.FightTurn | game.py:36-44 | health and the monster are exactly what the fight left them at; the game ends exactly when the player's health is at or below 0, and then the durability is not decremented; otherwise durability drops by exactly 1, even against a dead monster; at or below 0 the first sword is unequipped, or the program raises `ValueError` (`SwordNotEquipped`) when none is equipped, with the equipped list left as it was; attack power, gold, inventory and the defeated flag never change |
| Engine.SleepTurn | game.py:46-53 | with at least 5 gold it costs exactly 5 gold and leaves health at most 100, restoring up to 15 from a capped health without lowering it; with less, nothing changes |
| Engine.Select | game.py:155-180 | an in-stock health item loses exactly one unit, sets health to the lesser of health plus its restore amount and 100, and has its name appended; a weapon adds its bonus each time while durability is above 0, and does nothing at or below 0; potions, out-of-range positions and empty health items change nothing; durability, gold, flag and monster are never touched |
| Engine.EquipMenu | game.py:149-182 | the sub-menu only appends to the equipped list and never changes gold, durability, the flag or the monster; it keeps the invariant and never lowers attack power |
| Engine.DoneEndsSubMenu | game.py:152-153 | the first "done" ends the sub-menu: nothing typed after it has any effect |
| Engine.NonDigitIgnored | game.py:155-180 | a line that is neither "done" nor a number changes nothing, wherever it is typed before "done" |
| Engine.EquipMenuIsSelections | game.py:149-180 | a visit to the sub-menu equals selecting, in order, position n - 1 for each number n typed before the first "done" |
| Engine.PotionTurn | game.py:60-67 | the flag is set and exactly one unit of the potion is used exactly when a potion is left and the monster was not defeated; otherwise nothing changes, except that an item with the potion's name but no quantity raises `KeyError` (`MissingQuantity`) and leaves the state as it was; only the inventory and the flag can change, so no health is lost, nothing is unequipped and the monster is not touched |
| Engine.Step | game.py:32-74 | one turn keeps the invariant, including health at most 100; it never lowers attack power, never raises durability or the monster's health, and never clears the defeated flag; only the potion sets the flag; a fight after defeat and any unrecognised choice leave the state unchanged; choice 3 runs the sub-menu over its lines and returns to the menu; only choice 5 quits, with the state unchanged |
| Engine.Play | game.py:32-74 | over any sequence of choices, the invariant holds and the defeated flag stays set once set; if the flag became set, a potion choice was among the commands; quitting needs a quit choice |
| Engine.PlayOne | game.py:32-74 | one choice fed to the main loop is exactly one turn |
| Engine.PlaySplit | game.py:32-74 | the loop runs the first choices, then continues from the state they left unless a turn ended the game, in which case later choices are never read |
| Engine.DefeatedIsFinal | game.py:36-67 | once the monster is defeated, choosing to fight does nothing, and choosing the potion does nothing unless the lookup raises |
| Engine.EquipAccounting | game.py:158-175 | for the game's inventory layout, each sword name appended added one sword bonus, each health-item name appended used one unit, and nothing else was appended |
| Engine.FirstFightExample | game.py:25-44 | from a new game, fighting a monster with health 12 and power 2 leaves health 98, durability 24 and the monster at -8, with the flag still false |
| Engine.BrokenSwordKeepsBonus | game.py:41-44 | fighting an already beaten monster at durability 1 with the sword equipped twice takes the first copy off and keeps attack power |
| Engine.SwordBreaksInRealFight | game.py:36-44 | at durability 1 with one sword on and attack 20, a fight that takes a monster of health 12 to -8 leaves durability 0, takes the sword off and keeps attack power at 20 |
| Console.DigitsRoundTrip | game.py:147-156 | the decimal text of a number reads back as that number |
| Console.TypedNumberSelects | game.py:145-156 | the number printed beside an item is read back by the sub-menu as that same number |
| Console.TypedNumberEquips | game.py:145-159 | typing the number printed beside item i + 1 and then "done" gives the sub-menu exactly those two inputs, and the turn selects position i and returns to the main menu |
| Console.EquipLineOpensSubMenu | game.py:55-57 | line "3" turns the lines up to the first "done" into one sub-menu visit, and the main menu resumes after them |
| Console.DoneInAnyCase | game.py:152 | "done", "DONE" and "Done" end the sub-menu; an empty line and "done " are not selections |
| Console.MainMenuDispatch | game.py:35-74 | line "1" runs the fight turn unless the monster is defeated, when it only re-prompts; "2" sleeps; "4" runs the potion turn; "5" quits with the state as it is; every other line except "3" leaves the state unchanged and re-prompts |
| Console.SubMenu | game.py:149-153 | the sub-menu consumes lines up to and including the first "done", classifying each; the main menu resumes with the rest |
| Console.Commands | game.py:32-57 | the commands read from the lines are no more than the lines; a potion or quit command needs a "4" or "5" line |
| Console.Session | game.py:32-74 | a session keeps the invariant, quits only if "5" was typed, and never marks the monster defeated unless "4" was typed |
| Console.MainLineParsed | game.py:32-74 | every main-menu line other than "3" becomes exactly one command, the one that line selects, and reading goes on with the next line |
| Console.SessionStep | game.py:32-74 | a session runs the turn selected by its first line and continues with the remaining lines from the resulting state, or stops with that turn's outcome if it ended the game |
| Console.SessionExamples | game.py:35-70 | typing "5" quits at once with the state unchanged; typing "1" against a standing monster runs the fight turn and continues from it, or ends the session with its outcome |

## Left out

- The graphics prototypes `gameGraphics.py` and `OldGameGraphics(DONT USE).py` are not modelled. They are a pygame window with drawing, a grid and frame timing.
- `displayMenu` and all printing are dropped. The model keeps only the state changes.
- Saving and loading are not modelled. No persistence code exists in the modelled files.
- Python's `random` is replaced by explicit index parameters. The uniform distribution is not modelled.
- `print_welcome` and `print_shop_menu` are not modelled. They only print; `print_welcome` also ignores its width argument.
- The module-level demo calls of `gamefunctions.py` are not modelled. Their values are stated once, in `Purchase.DemoPurchases`.
- Purchase.PurchaseItem: results are exact `real` values. Python computes in IEEE doubles: `purchase_item(0.1, 0.3, 1)` gives 1.9999999999999996 where the model gives 2.0, so the relation between the two results holds only up to rounding there. Python also returns an `int` leftover for integer arguments, with the same value.
- Purchase.PurchaseItem: a zero price is excluded by the precondition; Python raises `ZeroDivisionError` for it, and the model has no outcome for that error.
- Combat.Fight: requires that some blow does damage, or that one side is already down. Otherwise the source loops forever, and a total function cannot express that.
- Console.ClassifyEquipInput: only ASCII letters and digits are handled; Python's `lower()` is Unicode-wide. A line of non-ASCII decimal digits such as "١" passes `isdigit()` and `int()` reads it, so the source selects that item; the model reads it as a non-digit and re-prompts. A line of other digit characters such as "²" passes `isdigit()` but makes `int()` raise `ValueError`, ending the program; the model re-prompts instead. On Python 3.11 and later, a line of more than 4300 ASCII digits also makes `int()` raise `ValueError` (the integer string conversion length limit), ending the program; the model reads it as that number, which selects an item only when leading zeros bring it into range, and otherwise re-prompts.
- Console.Session: when the typed lines run out, the session is left `Playing`. The real program would block on input, or raise `EOFError` at end of file.
- Engine.Select: any weapon item is checked against the single shared sword durability, as the source does. Each weapon's own `currentDurability` and `minDurability` are never read after start-up.
