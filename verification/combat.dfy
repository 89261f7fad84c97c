/**
 fightMonster of game.py: repeated exchanges of blows until one side is at
 or below zero health.

 Neither health is clamped: the last blow can leave either value negative.
 The monster's health is part of the result because the source mutates the
 monster dictionary in place, so the damage persists after the fight.
 */
module Combat {
  import opened Monsters

  /** What a fight leaves behind: the player's health and the monster as it now stands. */
  datatype Aftermath = Aftermath(health: int, monster: Monster)

  /**
   The fight loop stops on its own: some blow does damage, or one side is
   already down. With neither, the source loops forever.
   */
  predicate Ends(m: Monster, health: int, attack: int) {
    attack > 0 || m.power > 0 || m.health <= 0 || health <= 0
  }

  /** The player strikes first; the monster strikes back only if it is still above zero. */
  function Fight(m: Monster, health: int, attack: int): (r: Aftermath)
    requires Ends(m, health, attack)
    // only the monster's health is touched
    ensures r.monster == m.(health := r.monster.health)
    // the loop exits only once one side is down
    ensures r.monster.health <= 0 || r.health <= 0
    // nothing happens when one side is already down
    ensures m.health <= 0 || health <= 0 ==> r == Aftermath(health, m)
    // from a live start exactly one side ends up down
    ensures m.health > 0 && health > 0 ==> (r.monster.health <= 0 <==> r.health > 0)
    // with non-negative blows neither health ever rises
    ensures attack >= 0 && m.power >= 0 ==> r.health <= health && r.monster.health <= m.health
    decreases if m.health <= 0 || health <= 0 then 0 else if attack > 0 then m.health else health
  {
    if m.health > 0 && health > 0 then
      var struck := m.(health := m.health - attack);
      if struck.health <= 0 then Aftermath(health, struck)
      else
        var hurt := health - m.power;
        if hurt <= 0 then Aftermath(hurt, struck)
        else Fight(struck, hurt, attack)
    else Aftermath(health, m)
  }

  /** The number of blows of size `d` that bring `x` to zero or below. */
  function BlowsNeeded(x: int, d: int): (k: nat)
    requires x > 0 && d > 0
    ensures k >= 1
    ensures (k - 1) * d < x <= k * d
  {
    var k := (x + d - 1) / d;
    assert k * d == x + d - 1 - (x + d - 1) % d;
    k
  }

  /** Only one count of blows fits the bracketing of BlowsNeeded. */
  lemma BlowsNeededUnique(x: int, d: int, k: int)
    requires x > 0 && d > 0
    requires (k - 1) * d < x <= k * d
    ensures k == BlowsNeeded(x, d)
  {
  }

  /** After one blow that does not finish it, one blow fewer is needed. */
  lemma BlowsNeededAfterBlow(x: int, d: int)
    requires x > d > 0
    ensures BlowsNeeded(x - d, d) == BlowsNeeded(x, d) - 1
  {
    var k := BlowsNeeded(x - d, d);
    assert (k + 1 - 1) * d < x <= (k + 1) * d;
    BlowsNeededUnique(x, d, k + 1);
  }

  /** The state after the player has struck `blows` times and the monster `counters` times. */
  function Exchanged(m: Monster, health: int, attack: int, blows: int, counters: int): Aftermath {
    Aftermath(health - counters * m.power, m.(health := m.health - blows * attack))
  }

  /** One exchange taken off the front leaves one blow and one counter-blow fewer to account for. */
  lemma ExchangedShift(m: Monster, health: int, attack: int, blows: int, counters: int)
    ensures Exchanged(m.(health := m.health - attack), health - m.power, attack, blows - 1, counters - 1)
            == Exchanged(m, health, attack, blows, counters)
  {
    assert (counters - 1) * m.power == counters * m.power - m.power;
    assert (blows - 1) * attack == blows * attack - attack;
  }

  /**
   The outcome of a fight computed in closed form: the player needs `k`
   blows, the monster `j` counter-blows. The player wins when `k <= j`,
   having taken `k - 1` counter-blows; otherwise the monster's `j`-th
   counter-blow ends it after the player has struck `j` times.
   */
  function Predicted(m: Monster, health: int, attack: int): Aftermath
    requires m.health > 0 && health > 0 && attack > 0 && m.power > 0
  {
    var k := BlowsNeeded(m.health, attack);
    var j := BlowsNeeded(health, m.power);
    if k <= j then Exchanged(m, health, attack, k, k - 1)
    else Exchanged(m, health, attack, j, j)
  }

  /** Each exchange takes exactly `attack` from the monster and, if it survives,
      exactly `power` from the player, so the loop computes the closed form. */
  lemma {:induction false} FightMatchesPrediction(m: Monster, health: int, attack: int)
    requires m.health > 0 && health > 0 && attack > 0 && m.power > 0
    ensures Fight(m, health, attack) == Predicted(m, health, attack)
    decreases m.health
  {
    var struck := m.(health := m.health - attack);
    var hurt := health - m.power;
    if struck.health <= 0 {
      BlowsNeededUnique(m.health, attack, 1);
      assert Fight(m, health, attack) == Exchanged(m, health, attack, 1, 0);
    } else if hurt <= 0 {
      BlowsNeededUnique(health, m.power, 1);
      BlowsNeededAfterBlow(m.health, attack);
      assert Fight(m, health, attack) == Exchanged(m, health, attack, 1, 1);
    } else {
      FightMatchesPrediction(struck, hurt, attack);
      BlowsNeededAfterBlow(m.health, attack);
      BlowsNeededAfterBlow(health, m.power);
      var k := BlowsNeeded(m.health, attack);
      var j := BlowsNeeded(health, m.power);
      if k <= j {
        ExchangedShift(m, health, attack, k, k - 1);
      } else {
        ExchangedShift(m, health, attack, j, j);
      }
    }
  }

  /** The player survives the fight exactly when they need no more blows than the monster does. */
  lemma PlayerWinsIff(m: Monster, health: int, attack: int)
    requires m.health > 0 && health > 0 && attack > 0 && m.power > 0
    ensures Fight(m, health, attack).health > 0 <==> BlowsNeeded(m.health, attack) <= BlowsNeeded(health, m.power)
  {
    FightMatchesPrediction(m, health, attack);
  }

  /** Monster health 12 and power 2 against attack 10 and health 100: two blows, one counter-blow. */
  lemma WorkedExample(name: string, description: string, money: int)
    ensures Fight(Monster(name, description, 12, 2, money), 100, 10)
            == Aftermath(98, Monster(name, description, -8, 2, money))
  {
    var m := Monster(name, description, 12, 2, money);
    assert Fight(m, 100, 10) == Fight(m.(health := 2), 98, 10);
  }
}
