/**
 * The mutable game state and the commands that change it: the `player` record, the
 * `monsters` table, whose entries combat damages in place, and `currentMonster`, an
 * index into that table (the source stores a reference to the table entry, so damage
 * done in one encounter is still there at the next encounter with the same monster).
 */
module Engine {
  import opened Catalog
  import opened Inventory
  import opened Rules

  const BASE_ATTACK := 10
  const BASE_DEFENSE := 5
  const POWER_STRIKE := "Power Strike"

  /** The attack bonus of the equipped weapon, if any. */
  function WeaponBonus(equipment: map<ItemKind, Item>): (b: int)
    ensures 0 <= b
    ensures Weapon !in equipment ==> b == 0
  {
    if Weapon in equipment then equipment[Weapon].attack else 0
  }

  /** The defence bonus of the equipped armour, if any. */
  function ArmorBonus(equipment: map<ItemKind, Item>): (b: int)
    ensures 0 <= b
    ensures Armor !in equipment ==> b == 0
  {
    if Armor in equipment then equipment[Armor].defense else 0
  }

  /** Each equipment slot holds an item of its own kind; consumables are never equipped. */
  predicate EquipmentOk(equipment: map<ItemKind, Item>) {
    forall k :: k in equipment ==> k != Consumable && equipment[k].kind == k
  }

  /**
   * The player fields no combat turn changes, apart from the inventory, from which
   * `UseItem` removes a potion.
   */
  datatype Loadout = Loadout(
    inventory: seq<Item>,
    equipment: map<ItemKind, Item>,
    attack: int,
    defense: int,
    specialAbilities: seq<string>)

  class Player {
    var health: int
    var maxHealth: int
    var inventory: seq<Item>
    var equipment: map<ItemKind, Item>
    var currency: int
    var attack: int
    var defense: int
    var level: int
    var experience: int
    var specialAbilities: seq<string>

    function CurrentVitals(): Vitals
      reads this
    {
      Vitals(health, maxHealth, level, experience, currency)
    }

    function CurrentLoadout(): Loadout
      reads this
    {
      Loadout(inventory, equipment, attack, defense, specialAbilities)
    }

    /** Attack and defence are the base values plus the bonuses of what is equipped. */
    predicate StatsCurrent()
      reads this
    {
      attack == BASE_ATTACK + WeaponBonus(equipment) && defense == BASE_DEFENSE + ArmorBonus(equipment)
    }

    ghost predicate Valid()
      reads this
    {
      VitalsOk(CurrentVitals()) && EquipmentOk(equipment) && StatsCurrent() &&
      (forall it :: it in inventory ==> it.kind == Consumable)
    }

    /** The player as the game starts. */
    constructor ()
      ensures Valid()
      ensures CurrentVitals() == Vitals(100, 100, 1, 0, 100)
      ensures CurrentLoadout() == Loadout([], map[], 10, 5, [POWER_STRIKE])
    {
      health := 100;
      maxHealth := 100;
      inventory := [];
      equipment := map[];
      currency := 100;
      attack := 10;
      defense := 5;
      level := 1;
      experience := 0;
      specialAbilities := [POWER_STRIKE];
      new;
      assert StatsCurrent();
    }

    /** `findItem`: one bundle of herbs goes to the end of the inventory. */
    method FindItem()
      requires Valid()
      modifies this
      ensures Valid()
      ensures CurrentVitals() == old(CurrentVitals())
      ensures CurrentLoadout() == old(CurrentLoadout()).(inventory := old(inventory) + [HERBS])
    {
      inventory := inventory + [HERBS];
    }

    /**
     * `updatePlayerStats`: attack and defence are recomputed from the equipment alone,
     * so a second call changes nothing.
     */
    method UpdatePlayerStats()
      modifies this
      ensures StatsCurrent()
      ensures CurrentVitals() == old(CurrentVitals())
      ensures CurrentLoadout() == old(CurrentLoadout()).(attack := attack, defense := defense)
      ensures old(StatsCurrent()) ==> unchanged(this)
    {
      attack := BASE_ATTACK;
      defense := BASE_DEFENSE;
      if Weapon in equipment {
        attack := attack + equipment[Weapon].attack;
      }
      if Armor in equipment {
        defense := defense + equipment[Armor].defense;
      }
    }

    /** `checkLevelUp`, on the player's fields. */
    method CheckLevelUp()
      modifies this
      ensures CurrentVitals() == LevelUp(old(CurrentVitals()))
      ensures CurrentLoadout() == old(CurrentLoadout())
    {
      var experienceNeeded := level * 100;
      if experience >= experienceNeeded {
        level := level + 1;
        experience := experience - experienceNeeded;
        maxHealth := maxHealth + 20;
        health := maxHealth;
      }
    }

    /**
     * `buyItem`: with enough gold the price is paid; a consumable is appended to the
     * inventory, a weapon or armour replaces whatever its slot held and the stats are
     * recomputed. Without enough gold nothing changes.
     */
    method BuyItem(key: ItemKey)
      requires Valid()
      modifies this
      ensures Valid()
      ensures var item := Lookup(key);
        if old(currency) >= item.value then
          currency == old(currency) - item.value &&
          CurrentVitals() == old(CurrentVitals()).(currency := currency) &&
          specialAbilities == old(specialAbilities) &&
          (item.kind == Consumable ==>
             CurrentLoadout() == old(CurrentLoadout()).(inventory := old(inventory) + [item])) &&
          (item.kind != Consumable ==>
             inventory == old(inventory) && equipment == old(equipment)[item.kind := item] &&
             attack == BASE_ATTACK + WeaponBonus(equipment) &&
             defense == BASE_DEFENSE + ArmorBonus(equipment))
        else
          unchanged(this)
    {
      var item := Lookup(key);
      if currency >= item.value {
        currency := currency - item.value;
        if item.kind == Consumable {
          inventory := inventory + [item];
        } else {
          equipment := equipment[item.kind := item];
          UpdatePlayerStats();
        }
      }
    }

    /**
     * `sellItem`: the first item whose name matches ignoring letter case is removed and
     * its sell price credited; the rest of the inventory keeps its order. Without a
     * match nothing changes. Selling an item without a sell price (the potion) is
     * excluded: the source adds `undefined` to the gold there.
     */
    method SellItem(name: string)
      requires Valid()
      requires var i := IndexWhere(inventory, name, true); i == -1 || inventory[i].sellValue.Some?
      modifies this
      ensures Valid()
      ensures var i := IndexWhere(old(inventory), name, true);
        if i == -1 then
          unchanged(this)
        else
          inventory == RemoveAt(old(inventory), i) &&
          currency == old(currency) + old(inventory)[i].sellValue.value &&
          CurrentVitals() == old(CurrentVitals()).(currency := currency) &&
          CurrentLoadout() == old(CurrentLoadout()).(inventory := inventory)
    {
      var itemIndex := IndexWhere(inventory, name, true);
      if itemIndex != -1 {
        var item := inventory[itemIndex];
        inventory := RemoveAt(inventory, itemIndex);
        currency := currency + item.sellValue.value;
        forall it | it in inventory
          ensures it.kind == Consumable
        {
          assert it in multiset(inventory);
          assert it in multiset(old(inventory));
        }
      }
    }
  }

  class Game {
    const player: Player
    const monsters: array<Monster>
    var currentMonster: Option<nat>

    /** The table keeps the catalog's monsters in order; only their health changes. */
    ghost predicate Valid()
      reads this, player, monsters
    {
      player.Valid() &&
      monsters.Length == |MONSTERS| &&
      (forall i :: 0 <= i < monsters.Length ==> SameKind(monsters[i], MONSTERS[i])) &&
      (currentMonster.Some? ==> currentMonster.value < monsters.Length)
    }

    /** The monster being fought, as it is now. */
    function Foe(): Monster
      reads this, monsters
      requires currentMonster.Some? && currentMonster.value < monsters.Length
    {
      monsters[currentMonster.value]
    }

    /** The current monster's catalog rewards and attack are within the catalog's bounds. */
    lemma FoeBounds()
      requires Valid() && currentMonster.Some?
      ensures 1 <= Foe().attack && 0 <= Foe().experience <= 50 && 0 <= Foe().gold
    {
      MonsterBounds(currentMonster.value);
    }

    /** The game as it starts: the fresh player, the catalog monsters at full health, no encounter. */
    constructor ()
      ensures Valid() && fresh(player) && fresh(monsters)
      ensures player.CurrentVitals() == Vitals(100, 100, 1, 0, 100)
      ensures player.CurrentLoadout() == Loadout([], map[], 10, 5, [POWER_STRIKE])
      ensures monsters[..] == MONSTERS
      ensures currentMonster == None
    {
      player := new Player();
      monsters := new Monster[] [MONSTERS[0], MONSTERS[1], MONSTERS[2], MONSTERS[3]];
      currentMonster := None;
      new;
      assert monsters[..] == MONSTERS;
    }

    /** `encounterMonster`: the picked table entry, not a copy, becomes the current monster. */
    method EncounterMonster(pick: nat)
      requires Valid() && pick < monsters.Length
      modifies this
      ensures Valid()
      ensures currentMonster == Some(pick)
      ensures Foe() == monsters[pick]
    {
      currentMonster := Some(pick);
    }

    /** `explore`: the coin decides between an encounter and finding herbs. */
    method Explore(encounter: bool, pick: nat)
      requires Valid() && (encounter ==> pick < monsters.Length)
      modifies this, player
      ensures Valid()
      ensures encounter ==> currentMonster == Some(pick) && unchanged(player)
      ensures !encounter ==> currentMonster == old(currentMonster)
      ensures !encounter ==> player.CurrentVitals() == old(player.CurrentVitals())
      ensures !encounter ==>
        player.CurrentLoadout() == old(player.CurrentLoadout()).(inventory := old(player.inventory) + [HERBS])
    {
      if encounter {
        EncounterMonster(pick);
      } else {
        player.FindItem();
      }
    }

    /** `enterDungeon`: always an encounter. */
    method EnterDungeon(pick: nat)
      requires Valid() && pick < monsters.Length
      modifies this
      ensures Valid()
      ensures currentMonster == Some(pick)
    {
      EncounterMonster(pick);
    }

    /** `enemyTurn`: the current monster hits the player once. */
    method EnemyTurn(roll: int) returns (outcome: Outcome)
      requires Valid() && currentMonster.Some? && HalfRoll(roll, Foe().attack)
      modifies player
      ensures Valid()
      ensures (player.CurrentVitals(), outcome) == EnemyStrike(old(player.CurrentVitals()), Foe().attack, roll)
      ensures player.CurrentLoadout() == old(player.CurrentLoadout())
    {
      var damage := HitDamage(roll, Foe().attack);
      player.health := player.health - damage;
      if player.health > 0 {
        outcome := PlayerTurn;
      } else {
        outcome := Defeat;
      }
    }

    /**
     * `checkCombatOutcome`: reward and level-up check when the monster is down,
     * nothing when the player is, and otherwise one enemy turn.
     */
    method CheckCombatOutcome(roll: int) returns (outcome: Outcome)
      requires Valid() && currentMonster.Some? && HalfRoll(roll, Foe().attack)
      modifies player
      ensures Valid()
      ensures (player.CurrentVitals(), outcome) == Resolve(old(player.CurrentVitals()), Foe(), roll)
      ensures player.CurrentLoadout() == old(player.CurrentLoadout())
    {
      FoeBounds();
      ResolveKeepsVitalsOk(player.CurrentVitals(), Foe(), roll);
      var m := Foe();
      if m.health <= 0 {
        player.experience := player.experience + m.experience;
        player.currency := player.currency + m.gold;
        player.CheckLevelUp();
        outcome := Victory;
      } else if player.health <= 0 {
        outcome := Defeat;
      } else {
        outcome := EnemyTurn(roll);
      }
    }

    /** `attack`: the current monster loses exactly the hit, then the outcome is checked. */
    method Attack(roll: int, enemyRoll: int) returns (outcome: Outcome)
      requires Valid() && currentMonster.Some?
      requires HalfRoll(roll, player.attack) && HalfRoll(enemyRoll, Foe().attack)
      modifies player, monsters
      ensures Valid()
      ensures Foe() == old(Foe()).(health := old(Foe().health) - HitDamage(roll, old(player.attack)))
      ensures forall j :: 0 <= j < monsters.Length && j != currentMonster.value ==> monsters[j] == old(monsters[j])
      ensures (player.CurrentVitals(), outcome) == Resolve(old(player.CurrentVitals()), Foe(), enemyRoll)
      ensures player.CurrentLoadout() == old(player.CurrentLoadout())
    {
      var damage := HitDamage(roll, player.attack);
      var c := currentMonster.value;
      monsters[c] := monsters[c].(health := monsters[c].health - damage);
      outcome := CheckCombatOutcome(enemyRoll);
    }

    /**
     * `defend`: the player takes the reduced hit, and then the outcome check still
     * runs, so a live monster strikes a second time.
     */
    method Defend(roll: int, enemyRoll: int) returns (outcome: Outcome)
      requires Valid() && currentMonster.Some?
      requires HalfRoll(roll, Foe().attack) && HalfRoll(enemyRoll, Foe().attack)
      modifies player
      ensures Valid()
      ensures var reduced := DefendDamage(roll, Foe().attack, old(player.defense));
        (player.CurrentVitals(), outcome) ==
          Resolve(old(player.CurrentVitals()).(health := old(player.health) - reduced), Foe(), enemyRoll)
      ensures player.CurrentLoadout() == old(player.CurrentLoadout())
    {
      var reducedDamage := DefendDamage(roll, Foe().attack, player.defense);
      player.health := player.health - reducedDamage;
      outcome := CheckCombatOutcome(enemyRoll);
    }

    /**
     * `useItem`: the first item named exactly "Health Potion" is drunk and removed;
     * without one nothing is drunk. In both cases the enemy turn follows, whatever the
     * monster's health.
     */
    method UseItem(enemyRoll: int) returns (outcome: Outcome)
      requires Valid() && currentMonster.Some? && HalfRoll(enemyRoll, Foe().attack)
      modifies player
      ensures Valid()
      ensures HealAmount(old(player.maxHealth)) * 4 == old(player.maxHealth) * 3
      ensures var i := IndexWhere(old(player.inventory), HEALTH_POTION.name, false);
        var healed := if i == -1 then old(player.health)
                      else PotionHeal(old(player.health), old(player.maxHealth));
        (player.CurrentVitals(), outcome) ==
          EnemyStrike(old(player.CurrentVitals()).(health := healed), Foe().attack, enemyRoll) &&
        player.inventory == (if i == -1 then old(player.inventory) else RemoveAt(old(player.inventory), i)) &&
        player.CurrentLoadout() == old(player.CurrentLoadout()).(inventory := player.inventory)
    {
      HealIsExactForEveryPlayer(player.CurrentVitals());
      var potionIndex := IndexWhere(player.inventory, HEALTH_POTION.name, false);
      if potionIndex != -1 {
        player.health := Min(player.maxHealth, player.health + HealAmount(player.maxHealth));
        ghost var before := player.inventory;
        player.inventory := RemoveAt(player.inventory, potionIndex);
        forall it | it in player.inventory
          ensures it.kind == Consumable
        {
          assert it in multiset(player.inventory);
          assert it in multiset(before);
        }
      }
      outcome := EnemyTurn(enemyRoll);
    }

    /**
     * `useSpecial`: with Power Strike the monster loses exactly the strike's damage and
     * the outcome is checked; without it nothing changes and no enemy turn runs. In
     * that case the result `PlayerTurn` only says the player still has the turn: the
     * source writes the failure message and does not show the action menu again.
     */
    method UseSpecial(roll: int, enemyRoll: int) returns (outcome: Outcome)
      requires Valid() && currentMonster.Some?
      requires FullRoll(roll, player.attack) && HalfRoll(enemyRoll, Foe().attack)
      modifies player, monsters
      ensures Valid()
      ensures POWER_STRIKE !in old(player.specialAbilities) ==>
        unchanged(player) && unchanged(monsters) && outcome == PlayerTurn
      ensures POWER_STRIKE in old(player.specialAbilities) ==>
        Foe() == old(Foe()).(health := old(Foe().health) - PowerStrikeDamage(roll, old(player.attack))) &&
        (player.CurrentVitals(), outcome) == Resolve(old(player.CurrentVitals()), Foe(), enemyRoll)
      ensures forall j :: 0 <= j < monsters.Length && j != currentMonster.value ==> monsters[j] == old(monsters[j])
      ensures player.CurrentLoadout() == old(player.CurrentLoadout())
    {
      if POWER_STRIKE in player.specialAbilities {
        var damage := PowerStrikeDamage(roll, player.attack);
        var c := currentMonster.value;
        monsters[c] := monsters[c].(health := monsters[c].health - damage);
        outcome := CheckCombatOutcome(enemyRoll);
      } else {
        outcome := PlayerTurn;
      }
    }
  }
}
