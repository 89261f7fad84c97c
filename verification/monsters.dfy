/**
 The monster generator of gamefunctions.py (new_random_monster).

 The source picks a species uniformly from a three-entry table and then
 one value from each of the species' three-element health, power and
 money lists. Randomness is made explicit here: the caller passes the
 index that each of the four random choices would have produced.
 */
module Monsters {

  /** A monster as the game sees it once its stats have been drawn. */
  datatype Monster = Monster(name: string, description: string, health: int, power: int, money: int)

  /** One row of the species table: three candidate values per stat. */
  datatype Species = Species(name: string, description: string, healths: seq<int>, powers: seq<int>, moneys: seq<int>)

  const GoblinName := "goblin"
  const TrollName := "troll"
  const GiantName := "George the Giant"

  /** The species table. The source rebuilds it on every call, so no call can see
      another call's overwritten list fields; a constant has the same effect. */
  const SpeciesTable: seq<Species> := [
    Species(GoblinName, "A sneaky little guy, grabbing your gold.", [8, 10, 12], [1, 2, 3], [20, 22, 24]),
    Species(TrollName, "A grumpy bridge troll who has a huge wooden club.", [15, 18, 21], [25, 30, 35], [8, 10, 12]),
    Species(GiantName, "The gentlest giant of the land, but quite a sensitive fella.", [1000, 1200, 1400], [100, 120, 140], [3, 5, 7])
  ]

  /** Number of choices each random draw ranges over. */
  const Choices := 3

  /** The names a generated monster can carry. */
  predicate IsSpeciesName(name: string) {
    name == GoblinName || name == TrollName || name == GiantName
  }

  /**
   The monster produced when random.choice returns `species` for the table and
   `h`, `p`, `m` for the health, power and money lists of that species.
   */
  function NewRandomMonster(species: nat, h: nat, p: nat, m: nat): (r: Monster)
    requires species < Choices && h < Choices && p < Choices && m < Choices
    ensures IsSpeciesName(r.name)
    ensures r.health > 0 && r.power > 0 && r.money > 0
    ensures r.name == GoblinName ==> r.health in {8, 10, 12} && r.power in {1, 2, 3} && r.money in {20, 22, 24}
    ensures r.name == TrollName ==> r.health in {15, 18, 21} && r.power in {25, 30, 35} && r.money in {8, 10, 12}
    ensures r.name == GiantName ==> r.health in {1000, 1200, 1400} && r.power in {100, 120, 140} && r.money in {3, 5, 7}
  {
    var s := SpeciesTable[species];
    Monster(s.name, s.description, s.healths[h], s.powers[p], s.moneys[m])
  }

  /** Every combination of a species and one value from each of its lists is
      reachable by some choice of indices: the generator does not leave out a tier. */
  lemma EveryTierReachable(species: nat, health: int, power: int, money: int)
    requires species < Choices
    requires health in SpeciesTable[species].healths
    requires power in SpeciesTable[species].powers
    requires money in SpeciesTable[species].moneys
    ensures exists h: nat, p: nat, m: nat | h < Choices && p < Choices && m < Choices ::
              NewRandomMonster(species, h, p, m) == Monster(SpeciesTable[species].name, SpeciesTable[species].description, health, power, money)
  {
    var s := SpeciesTable[species];
    var h :| 0 <= h < |s.healths| && s.healths[h] == health;
    var p :| 0 <= p < |s.powers| && s.powers[p] == power;
    var m :| 0 <= m < |s.moneys| && s.moneys[m] == money;
    assert NewRandomMonster(species, h, p, m) == Monster(s.name, s.description, health, power, money);
  }
}
