/**
 The inventory of game.py: the module-level item list and the lookups the
 game performs on it.

 The source stores items as dictionaries whose `type` string selects which
 other keys are present; here each kind is its own variant carrying exactly
 the keys the source gives it.
 */
module Items {

  datatype Option<T> = None | Some(value: T)

  datatype Item =
    | Weapon(name: string, minDurability: int, currentDurability: int, attackBoost: int)
    | HealthBoost(name: string, healthRestore: int, quantity: int)
    | Potion(name: string, effect: string, quantity: int)

  const SwordName := "swashbuckler sword"
  const MilkshakeName := "milkshake"
  const PotionName := "magic potion"

  /** The inventory the game starts with. */
  const DefaultInventory: seq<Item> := [
    Weapon(SwordName, 1, 25, 10),
    HealthBoost(MilkshakeName, 10, 3),
    Potion(PotionName, "Defeats any one monster without losing HP.", 1)
  ]

  /** `item['quantity']`: only health items and potions have that key. */
  function QuantityOf(item: Item): (r: Option<int>)
    ensures r.Some? <==> !item.Weapon?
    ensures r.Some? ==> r.value == item.quantity
  {
    match item
    case Weapon(_, _, _, _) => None
    case HealthBoost(_, _, q) => Some(q)
    case Potion(_, _, q) => Some(q)
  }

  /** The same item with its quantity replaced; weapons have none and are returned as they are. */
  function WithQuantity(item: Item, q: int): (r: Item)
    ensures r.name == item.name
    ensures r.Weapon? == item.Weapon? && r.HealthBoost? == item.HealthBoost? && r.Potion? == item.Potion?
    ensures QuantityOf(r) == if item.Weapon? then None else Some(q)
    ensures item.HealthBoost? ==> r.healthRestore == item.healthRestore
    ensures item.Weapon? ==> r == item
    ensures !item.Weapon? ==> r == item.(quantity := q)
  {
    match item
    case Weapon(_, _, _, _) => item
    case HealthBoost(name, restore, _) => HealthBoost(name, restore, q)
    case Potion(name, effect, _) => Potion(name, effect, q)
  }

  /** Position of the first item called `name`, as `next(item for item in inventory if ...)` finds it. */
  function FindNamed(inventory: seq<Item>, name: string): (r: Option<nat>)
    ensures r.Some? ==> r.value < |inventory| && inventory[r.value].name == name
    ensures r.Some? ==> forall j :: 0 <= j < r.value ==> inventory[j].name != name
    ensures r.None? <==> forall j :: 0 <= j < |inventory| ==> inventory[j].name != name
  {
    if |inventory| == 0 then None
    else if inventory[0].name == name then Some(0)
    else match FindNamed(inventory[1..], name)
      case None => None
      case Some(i) => Some(i + 1)
  }

  /** No weapon lowers attack power when equipped. */
  predicate BoostsNonNegative(inventory: seq<Item>) {
    forall i :: 0 <= i < |inventory| ==> inventory[i].Weapon? ==> inventory[i].attackBoost >= 0
  }

  /** Weapon bonuses are non-negative and no quantity is below zero. */
  predicate WellFormed(inventory: seq<Item>) {
    BoostsNonNegative(inventory) &&
    forall i :: 0 <= i < |inventory| ==> !inventory[i].Weapon? ==> inventory[i].quantity >= 0
  }

  /** Two inventories hold the same items in the same places, differing at most in quantities. */
  predicate SameItems(a: seq<Item>, b: seq<Item>) {
    |a| == |b| &&
    forall i :: 0 <= i < |a| ==> WithQuantity(a[i], 0) == WithQuantity(b[i], 0)
  }

  lemma DefaultInventoryShape()
    ensures WellFormed(DefaultInventory)
    ensures FindNamed(DefaultInventory, PotionName) == Some(2)
  {
    assert DefaultInventory[1..][1..] == [DefaultInventory[2]];
  }
}
