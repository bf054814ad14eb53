/** The fixed tables of the game: the four items the shop knows and the four monsters. */
module Catalog {

  datatype Option<T> = None | Some(value: T)

  /** The `type` tag of an item. For a weapon or armour it is also the equipment slot it goes to. */
  datatype ItemKind = Consumable | Weapon | Armor

  /**
   * A catalog item: display name, kind, buy price (`value`), sell price (absent on
   * the potion), attack bonus of a weapon, defence bonus of an armour, and the heal of
   * a potion as a percentage of the player's maximum health. A bonus or heal the item
   * does not have is 0; only the slot of its own kind ever reads it.
   */
  datatype Item = Item(
    name: string,
    kind: ItemKind,
    value: nat,
    sellValue: Option<nat>,
    attack: nat,
    defense: nat,
    healPercent: nat)

  const HERBS := Item("Herbs", Consumable, 5, Some(15), 0, 0, 0)
  const SWORD := Item("Sword", Weapon, 50, None, 10, 0, 0)
  const SHIELD := Item("Shield", Armor, 30, None, 0, 5, 0)
  /** The heal factor 0.75 of the source, written as 75 percent. */
  const HEALTH_POTION := Item("Health Potion", Consumable, 15, None, 0, 0, 75)

  /** The keys of the `items` table; a key outside this table is not representable. */
  datatype ItemKey = HerbKey | SwordKey | ShieldKey | HealthPotionKey

  function Lookup(key: ItemKey): Item {
    match key
    case HerbKey => HERBS
    case SwordKey => SWORD
    case ShieldKey => SHIELD
    case HealthPotionKey => HEALTH_POTION
  }

  /** A monster. `health` is the only field the game ever changes. */
  datatype Monster = Monster(
    name: string,
    health: int,
    attack: int,
    defense: int,
    experience: int,
    gold: int)

  const MONSTERS: seq<Monster> := [
    Monster("Goblin", 30, 5, 2, 10, 10),
    Monster("Orc", 50, 10, 5, 20, 20),
    Monster("Troll", 80, 15, 8, 30, 30),
    Monster("Dragon", 150, 25, 15, 50, 50)
  ]

  /** `m` is the catalog monster `t`, whatever its current health. */
  predicate SameKind(m: Monster, t: Monster) {
    m.name == t.name && m.attack == t.attack && m.defense == t.defense &&
    m.experience == t.experience && m.gold == t.gold
  }

  /** Every monster of the catalog hits for at least one, and rewards at most 50 experience and no negative gold. */
  lemma MonsterBounds(i: nat)
    requires i < |MONSTERS|
    ensures 1 <= MONSTERS[i].attack
    ensures 0 <= MONSTERS[i].experience <= 50 && 0 <= MONSTERS[i].gold
  {
  }
}
