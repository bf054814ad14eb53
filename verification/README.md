# Browser dungeon game engine in Dafny

This project models the game engine of a small browser adventure game (`scripts.js`).
A single player explores, enters dungeons, fights one of four monsters turn by turn,
buys and sells items in town and levels up. The engine is one mutable game state:

- the `player` record (health, maximum health, inventory, equipment, gold, attack, defence, level, experience, special abilities);
- the `monsters` table, whose entries combat damages in place;
- `currentMonster`, the monster being fought.

Files and modules:

- `catalog.dfy` (`Catalog`): the item table (`HERBS`, `SWORD`, `SHIELD`, `HEALTH_POTION`, looked up by `ItemKey`) and the monster table `MONSTERS`.
- `inventory.dfy` (`Inventory`): `findIndex` by exact or case-insensitive name (`IndexWhere`) and `splice(i, 1)` (`RemoveAt`).
- `rules.dfy` (`Rules`): the damage and heal formulas, level-up, the victory reward, the enemy turn and the outcome check. These are pure functions over `Vitals`, the player fields the outcome check, the enemy turn and the level-up change (the inventory, which `useItem` also changes, is not among them).
- `engine.dfy` (`Engine`): class `Player` holds the player's fields. Its methods are `findItem`, `buyItem`, `sellItem`, `updatePlayerStats` and `checkLevelUp`. Class `Game` owns the player, the monster table as an `array<Monster>` and `currentMonster` as an index into that array. Its methods are `explore`, `enterDungeon`, `encounterMonster`, `attack`, `defend`, `useItem`, `useSpecial`, `checkCombatOutcome` and `enemyTurn`. Each method's `ensures` gives the new state as a function of the old state, through the `Rules`, `Inventory` and `Engine` functions (and `Catalog.Lookup` for buying). Every player command (every method of `Game`, and `FindItem`, `BuyItem` and `SellItem` of `Player`) requires and keeps the object invariant `Valid()`. `UpdatePlayerStats` and `CheckLevelUp` are intermediate steps of `BuyItem` and of the victory branch of `CheckCombatOutcome`. They run while the invariant is temporarily broken, so they neither require nor promise it; their callers re-establish it.
- `scenarios.dfy` (`Scenarios`): short games played against those contracts, with the lowest rolls except a defend roll of 6 against the Troll, so that the defended hit is not zero:
  - a Goblin fight, six hits for 10 experience and 10 gold;
  - re-entering the dungeon and meeting the same, already dead Goblin;
  - defending against a Troll, a defended hit of 3 followed by the Troll's turn;
  - drinking potions, with and without one in the inventory;
  - shopping down to exactly zero gold;
  - a level-up from 95 experience.

Every `Math.random()` draw is an explicit integer parameter (every strength `a` in play is positive, at least 5):

- `floor(random * a / 2)` is a roll `k` with `0 <= k` and `2k < a` (`HalfRoll`);
- `floor(random * a)` is a roll `k` with `0 <= k < a` (`FullRoll`);
- the coin of `explore` is a boolean;
- the monster pick is an index below 4.

The combat methods return an `Outcome` (`PlayerTurn`, `Victory`, `Defeat`). It stands for what the source announces after the command: the action menu, the victory message or the defeat message. There is one exception. `UseSpecial` without Power Strike returns `PlayerTurn` because the player keeps the turn, but the source then writes only "You have no special abilities to use." and does not show the action menu again.

The object invariant `Valid()` includes these facts:

- `maxHealth == 80 + 20 * level`;
- `health <= maxHealth`;
- `0 <= experience < level * 100`;
- gold is never negative;
- attack and defence equal the base values plus the equipped bonuses;
- each equipment slot holds an item of its own kind;
- the inventory holds only consumables;
- the monster table keeps the catalog's monsters in catalog order, and only their health changes.

The model keeps these behaviours of the code as written:

- An encounter stores the monster table's entry itself, not a copy (`scripts.js:89`). Damage stays in the table, so a monster killed once is still at health 0 or below when it is met again.
- `currentMonster` is never cleared after a fight. Attacking a dead monster wins again and pays again (`Scenarios.GoblinFight`).
- `checkLevelUp` is a single `if`, not a loop, so at most one level is gained per victory.
- Herbs cost 5 gold (`scripts.js:24`), not the 10 that the town text announces.
- Health is not clamped at 0 and can become negative.

## Model

| member | source | states |
|---|---|---|
| `Catalog.MonsterBounds` | scripts.js:30-35 | every catalog monster hits for at least 1, gives no negative gold and at most 50 experience |
| `Inventory.IndexWhere` | scripts.js:184 | `findIndex` (also at line 114): -1 exactly when no item matches; otherwise the position of a matching item with no match before it |
| `Inventory.RemoveAt` | scripts.js:186 | `splice(i, 1)`: one element shorter, the items before `i` are unchanged, the items after it shift down by one in order, and the removed item is the only one missing (multiset) |
| `Inventory.SellNameIgnoresCase` | scripts.js:184 | selling matches "herbs" and "HERBS" to the Herbs item, while the exact comparison of line 114 matches neither "herbs" nor "health potion" |
| `Inventory.IgnoringCaseFindsNoLater` | scripts.js:184 | whenever the exact name lookup of line 114 finds an item, the case-insensitive lookup of selling finds one too, at the same or an earlier position |
| `Rules.HitDamage` | scripts.js:100 | the attack damage (and the enemy hit of line 154) is at least 1, at least half the attacker's strength, and at most strength minus 1 (or 1) |
| `Rules.PowerStrikeDamage` | scripts.js:128 | Power Strike deals at least the attack stat and less than twice it |
| `Rules.DefendDamage` | scripts.js:107 | the defended hit is never negative, never more than the undefended hit for a non-negative defence, and zero once `2 * defense >= monster attack - 1` |
| `Rules.HealIsExact` | scripts.js:116 | when the maximum health is a multiple of 4, `maxHealth * 0.75` is a whole number, equal to the integer heal of the model |
| `Rules.PotionHeal` | scripts.js:116 | a potion never lowers health, never raises it above the maximum nor above health plus 75% of the maximum, and reaches one of the two: the smaller of them |
| `Rules.HealIsExactForEveryPlayer` | scripts.js:116 | for every player state satisfying the invariant the maximum health is a multiple of 4, so `maxHealth * 0.75` is a whole number equal to the integer heal |
| `Rules.LevelUp` | scripts.js:206-216 | a level is gained exactly when experience reaches `level * 100`; at most one level; the threshold is subtracted, the maximum health rises by 20 and health is refilled to it; otherwise nothing changes |
| `Rules.LevelUpSettles` | scripts.js:206-212 | with experience below two thresholds, the single check leaves `0 <= experience < level * 100` |
| `Rules.LevelUpDoesNotCascade` | scripts.js:206-212 | with experience at two thresholds or more, the single check leaves experience still at or over the new threshold |
| `Rules.LevelUpKeepsHealthShape` | scripts.js:209-212 | a level-up keeps `maxHealth == 80 + 20 * level` and `health <= maxHealth` |
| `Rules.Reward` | scripts.js:138-143 | victory adds exactly the monster's gold and gains at most one level, exactly when the new experience reaches the threshold; without a level-up, experience rises by exactly the monster's experience and health and maximum health are unchanged; with one, experience is the new total minus the threshold, maximum health rises by 20 and health is refilled to it |
| `Rules.RewardKeepsVitalsOk` | scripts.js:140-143 | with a reward of at most 100 experience (the catalog's largest is 50), the player invariant, `experience < level * 100` included, holds after every victory |
| `Rules.EnemyStrike` | scripts.js:153-164 | the enemy turn lowers health by exactly the hit, so health strictly decreases; control returns to the player exactly when health stays positive; it is never a victory |
| `Rules.Resolve` | scripts.js:137-151 | victory exactly when the monster's health is at most 0, with exactly the reward; otherwise no reward, no change if the player is already down, and exactly one enemy hit if not; the player's turn comes back exactly when both are still standing |
| `Rules.ResolveKeepsVitalsOk` | scripts.js:137-151 | the outcome check keeps the player invariant for every monster with a reward of at most 100 experience |
| `Engine.WeaponBonus` | scripts.js:198-200 | the weapon bonus is never negative and is 0 with no weapon equipped |
| `Engine.ArmorBonus` | scripts.js:201-203 | the armour bonus is never negative and is 0 with no armour equipped |
| `Engine.Player.constructor` | scripts.js:10-21 | the starting player: health 100 of 100, level 1, no experience, 100 gold, attack 10, defence 5, empty inventory and equipment, Power Strike |
| `Engine.Player.FindItem` | scripts.js:81-86 | one Herbs item is appended to the inventory and nothing else changes |
| `Engine.Player.UpdatePlayerStats` | scripts.js:195-204 | attack becomes 10 plus the weapon bonus, defence becomes 5 plus the armour bonus, nothing else changes, and a call on already current stats changes nothing (idempotence) |
| `Engine.Player.CheckLevelUp` | scripts.js:206-216 | the player's vitals become `LevelUp` of the old ones and nothing else changes |
| `Engine.Player.BuyItem` | scripts.js:166-181 | with enough gold, gold drops by exactly the price and stays non-negative; a consumable is appended; a weapon or armour overwrites its slot and attack and defence are recomputed; without enough gold nothing changes |
| `Engine.Player.SellItem` | scripts.js:183-193 | the first case-insensitive match is removed and exactly its sell price is credited, and the other items keep their order; with no match nothing changes |
| `Engine.Game.constructor` | scripts.js:30-37 | the starting game: the fresh player, the monster table equal to the catalog, no current monster |
| `Engine.Game.EncounterMonster` | scripts.js:88-93 | the picked table entry itself becomes the current monster; the table and the player are untouched, so earlier damage persists |
| `Engine.Game.Explore` | scripts.js:65-73 | on the coin, an encounter with the picked monster and the player untouched; otherwise Herbs are found and the current monster is unchanged |
| `Engine.Game.EnterDungeon` | scripts.js:75-79 | always an encounter with the picked monster |
| `Engine.Game.EnemyTurn` | scripts.js:153-164 | the player's vitals and the outcome are `EnemyStrike` with the current monster's attack; the loadout is unchanged |
| `Engine.Game.CheckCombatOutcome` | scripts.js:137-151 | the player's vitals and the outcome are `Resolve` on the current monster; the loadout is unchanged; the invariant is kept |
| `Engine.Game.Attack` | scripts.js:99-104 | the current monster's health drops by exactly `HitDamage` of the player's attack, the other monsters are unchanged, and then the outcome check runs |
| `Engine.Game.Defend` | scripts.js:106-111 | player health first drops by exactly the defended hit, then the outcome check runs, which includes an enemy hit if both are standing; the monsters are unchanged |
| `Engine.Game.UseItem` | scripts.js:113-124 | with a "Health Potion" (exact name), the first one is removed, the rest keep their order and health is healed and capped (the heal being exactly three quarters of the maximum); without one, inventory and health stay; in both cases exactly one enemy turn follows |
| `Engine.Game.UseSpecial` | scripts.js:126-135 | with Power Strike the monster loses exactly `PowerStrikeDamage` and the outcome check runs; without it nothing changes and no enemy turn runs |
| `Scenarios.GoblinLevelsUp` | scripts.js:206-216 | at level 1 with 95 experience, a Goblin kill gives level 2, 5 experience, 120 maximum health and full health |

## Left out

- The page output is not modelled because it is presentation only: the element lookups, `updateStats`, `log`, the menu text of `playerTurn` and every change to the action picture.
- `goToTown` is not modelled: it only writes text and changes the picture.
- `Math.random` is not modelled. Each draw is an integer parameter whose range is exactly the set of values the floored draw can take.
- Buying with a key that is not in the item table is not modelled: the source dereferences `undefined` there, and the key type `ItemKey` makes such a key impossible to write.
- Selling an item without a sell price (the Health Potion) is excluded by a precondition, because the source adds `undefined` to the gold there.
- Every combat command requires a current monster, because the source throws without one.
- Case-insensitive matching lower-cases only the ASCII letters `A`-`Z`. JavaScript's full Unicode `toLowerCase` is not modelled; all item names are ASCII.
- An item's bonuses and heal that do not apply to its kind are stored as 0 instead of being absent; only the slot of the item's own kind ever reads them.
- The potion heal is the integer `maxHealth * 75 / 100` instead of the float `maxHealth * 0.75`; `Rules.HealIsExactForEveryPlayer` shows the two agree in every state satisfying the player invariant, and every command keeps that invariant.
- The monster `defense` field is kept as data; the source never reads it.
