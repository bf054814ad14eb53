/**
 * Short games played against the contracts of the engine, with every roll at its lowest
 * except one defend roll of 6 against the Troll, so that the defended hit is not zero.
 */
module Scenarios {
  import opened Catalog
  import opened Rules
  import opened Engine

  /** One exchange with a live Goblin that survives the hit: it loses 5 health, the player 2. */
  method ExchangeWithGoblin(g: Game) returns (outcome: Outcome)
    requires g.Valid() && g.currentMonster == Some(0)
    requires g.player.attack == 10 && g.monsters[0].health > 5 && g.player.health > 2
    modifies g.player, g.monsters
    ensures g.Valid() && outcome == PlayerTurn
    ensures g.monsters[0].health == old(g.monsters[0].health) - 5
    ensures g.player.health == old(g.player.health) - 2
    ensures g.player.CurrentLoadout() == old(g.player.CurrentLoadout())
    ensures g.player.experience == old(g.player.experience) && g.player.currency == old(g.player.currency)
  {
    assert g.monsters[0].attack == 5;
    outcome := g.Attack(0, 0);
  }

  /**
   * A fresh player fights a fresh Goblin: 5 damage per hit, six hits, five Goblin
   * turns of 2 damage each. Entering the dungeon again and picking the Goblin brings
   * back the same, already dead, table entry: the first hit wins again and pays again.
   */
  method GoblinFight() {
    var g := new Game();
    g.EnterDungeon(0);
    var outcome := ExchangeWithGoblin(g);
    outcome := ExchangeWithGoblin(g);
    outcome := ExchangeWithGoblin(g);
    outcome := ExchangeWithGoblin(g);
    outcome := ExchangeWithGoblin(g);
    assert g.monsters[0].health == 5 && g.player.health == 90;
    assert g.monsters[0].attack == 5;
    outcome := g.Attack(0, 0);
    assert outcome == Victory && g.monsters[0].health == 0;
    assert g.player.health == 90 && g.player.experience == 10 && g.player.currency == 110;

    g.EnterDungeon(0);
    assert g.monsters[0].health == 0;
    outcome := g.Attack(0, 0);
    assert outcome == Victory && g.monsters[0].health == -5;
    assert g.player.health == 90 && g.player.experience == 20 && g.player.currency == 120;
  }

  /** Defending against a Troll still lets the Troll strike afterwards: two hits in one turn. */
  method DefendAgainstTroll() {
    var g := new Game();
    g.EnterDungeon(2);
    var outcome := g.Defend(6, 0);
    assert outcome == PlayerTurn && g.player.health == 100 - 3 - 7;
    assert g.monsters[2].health == 80;
  }

  /** Without a potion the turn is still lost; a bought potion heals and is used up. */
  method PotionTurns() {
    var g := new Game();
    g.EnterDungeon(1);
    var outcome := g.UseItem(0);
    assert outcome == PlayerTurn && g.player.health == 95 && g.player.inventory == [];
    g.player.BuyItem(HealthPotionKey);
    assert g.player.inventory == [HEALTH_POTION] && g.player.currency == 85;
    outcome := g.UseItem(0);
    assert g.player.health == 95 && g.player.inventory == [];
  }

  /** Buying a sword and a shield, then spending the rest down to exactly zero. */
  method Shopping() {
    var p := new Player();
    p.BuyItem(SwordKey);
    p.BuyItem(ShieldKey);
    assert p.currency == 20 && p.attack == 20 && p.defense == 10;
    p.BuyItem(ShieldKey);
    assert p.currency == 20 && p.defense == 10;
    p.BuyItem(HealthPotionKey);
    p.BuyItem(HerbKey);
    assert p.currency == 0 && p.inventory == [HEALTH_POTION, HERBS];
    p.BuyItem(HerbKey);
    assert p.currency == 0 && p.inventory == [HEALTH_POTION, HERBS];
  }

  /** From 95 experience at level 1, a Goblin kill levels the player up with a full heal. */
  lemma GoblinLevelsUp()
    ensures Reward(Vitals(60, 100, 1, 95, 100), MONSTERS[0]) == Vitals(120, 120, 2, 5, 110)
  {
  }
}
