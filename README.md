# Dungeon Master Legacy — game core in Dafny

This project models the game logic of Dungeon Master Legacy, a browser roguelike, as verified Dafny. The player explores procedurally generated dungeon floors, fights monsters that drop crafting materials, and spends materials between runs to upgrade rooms of a persistent home base, the sanctum.

The model covers six parts of the game:

- The dungeon generator (`dungeon_generator.dfy`) places rooms by rejection sampling on a wall-filled grid. It carves each accepted room into the grid and joins consecutive rooms with L-shaped corridors. The grid is an `array2<int>` while it is being carved, and a `seq<seq<int>>` value in the returned dungeon.
- The run-state store (`game_state.dfy`, class `GameState`) holds the player's position, health, level and experience, plus the current floor, its monsters and the drops waiting to be handed to the inventory. Its actions are initialise, reset, move, damage, heal, gain experience, attack, next floor and clear drops. Spawning monsters is a bounded retry loop with a fallback into a room.
- The sanctum store (`sanctum.dfy`, class `Sanctum`) holds material counts by name and four rooms. A room is upgraded one level at a time, up to level 5, at a cost of 5/3/2/1 of stone/wood/iron/magic crystal, each multiplied by the room's current level.
- The inventory store (`inventory.dfy`, class `Inventory`) merges items by name on arrival and removes one unit at a time. Only consumables can be used. Two panel flags are mutually exclusive.
- The crafting rules (`crafting_system.dfy`) cover the three recipes, the case-insensitive craftability test and the crafted item.
- The damage rule (`combat_system.dfy`): base damage defaults to 20, and a critical hit doubles it.

The stores' `find` and `filter` calls share one generic search and one generic filter (`seq_util.dfy`). String helpers for ids and labels are in `text_util.dfy`.

Everything random is passed in as an argument:
- Each `Math.random()` call is a real draw in [0, 1): `RoomDraw`, `SpawnDraw`, drop rolls as booleans, and the critical-hit roll as a boolean.
- `Date.now()` is a natural number `now`.

Each store is a class whose fields the actions reassign. Each action states its whole new state in terms of the old one; a new floor's layout is pinned down by its rooms, since its floor cells are exactly the rooms plus the corridors between consecutive rooms. The properties the game relies on are proved as lemmas about the specification functions those contracts use:
- room layouts are valid;
- the grid is exactly rooms plus corridors;
- total experience is conserved;
- material costs are paid exactly;
- the drop list has a fixed shape;
- crafting is monotone.

In these places the model follows the code as written:
- `attackMonster` subtracts a fixed 20 and does not call the damage rule.
- `gainExp` converts 100 experience into a level at most once per call, rather than looping.
- `initializeGame` leaves pending drops untouched.
- A kill removes every monster carrying the killed monster's id.

## Model

| member | source | states |
|---|---|---|
| DungeonGenerator.DrawTimesWhole | client/src/lib/dungeonGenerator.ts:32-35 | `Math.random() * n` lies in [0, n) for positive n and in [n, 0] otherwise |
| DungeonGenerator.ScaledRange | client/src/lib/dungeonGenerator.ts:32-35 | `Math.floor(Math.random() * n)` lies in [0, n) for positive n and in [n, 0] otherwise |
| DungeonGenerator.Proposal | client/src/lib/dungeonGenerator.ts:31-36 | a proposed room is 4 to 9 cells on each side; on a grid wider than 8 its x lies in [2, width - 6); on a grid of width 8 or less it always ends at or beyond width - 2, so it is rejected (same for y and height) |
| DungeonGenerator.RoomTarget | client/src/lib/dungeonGenerator.ts:27 | the room target is min(8 + floor, 15) |
| DungeonGenerator.Overlaps | client/src/lib/dungeonGenerator.ts:39-44 | two rooms overlap when their rectangles, each grown by a one-cell buffer on the right and bottom, intersect |
| DungeonGenerator.Accepts | client/src/lib/dungeonGenerator.ts:46 | a proposal is kept when it overlaps no accepted room and ends more than two cells inside the right and bottom edges |
| DungeonGenerator.PlaceFrom | client/src/lib/dungeonGenerator.ts:30-56 | the reference placement: draws are examined in order until the target is reached, and each acceptable proposal is appended |
| DungeonGenerator.AcceptKeepsValid | client/src/lib/dungeonGenerator.ts:39-47 | accepting a proposal that overlaps no room (with the 1-cell buffer) and fits inside the margin keeps the room list in bounds and pairwise non-overlapping |
| DungeonGenerator.PlaceFromValid | client/src/lib/dungeonGenerator.ts:30-56 | the placement loop yields valid rooms, never more than the target, and extends what it started with |
| DungeonGenerator.PlacedRoomsValid | client/src/lib/dungeonGenerator.ts:27-56 | the rooms of a floor are valid and number at most min(8 + floor, 15) |
| DungeonGenerator.LPathCovered | client/src/lib/dungeonGenerator.ts:59-71 | every cell of the inclusive L between two centres lies in one of the rooms or on one of the two corridor segments |
| DungeonGenerator.CarveRoom | client/src/lib/dungeonGenerator.ts:50-54 | exactly the room's cells become floor; every other cell keeps its value |
| DungeonGenerator.CreateCorridor | client/src/lib/dungeonGenerator.ts:81-102 | exactly the in-bounds cells of the half-open horizontal run from x1 to x2 at y1, then the vertical run from y1 to y2 at x2, become floor |
| DungeonGenerator.Freeze | client/src/lib/dungeonGenerator.ts:73-78 | the returned tiles have the array's shape and contents |
| DungeonGenerator.PlaceRooms | client/src/lib/dungeonGenerator.ts:23-56 | the rooms are the reference placement, they are valid, and a cell is floor exactly when some room covers it |
| DungeonGenerator.AddRoomCovers | client/src/lib/dungeonGenerator.ts:47-54 | after a room is pushed, the covered cells are the old ones plus the new room's |
| DungeonGenerator.ConnectRooms | client/src/lib/dungeonGenerator.ts:59-71 | after the corridor loop, a cell is floor exactly when it was floor or lies on a corridor between consecutive rooms |
| DungeonGenerator.JoinedPathGrows | client/src/lib/dungeonGenerator.ts:59-71 | each iteration of the corridor loop adds exactly the corridor between room k and room k + 1 |
| DungeonGenerator.GenerateDungeon | client/src/lib/dungeonGenerator.ts:21-79 | generateDungeon: a width x height grid of floor and wall; rooms as placed, valid and at most min(8 + floor, 15); a cell is floor exactly when it is in a room or on a corridor; every room cell and every cell on the L between consecutive room centres is floor |
| DungeonGenerator.PathsAreFloor | client/src/lib/dungeonGenerator.ts:59-71 | from the exact floor characterisation: every room is walkable and consecutive rooms are connected by floor along their centres' L |
| Combat.BaseDamage | client/src/lib/combatSystem.ts:10 | `attacker.damage \|\| 20`: never 0; 20 when the attacker has no damage or a damage of 0; otherwise the attacker's damage |
| Combat.CalculateDamage | client/src/lib/combatSystem.ts:9-21 | the critical flag is the roll; damage is twice the base on a critical, the base otherwise; a critical carries exactly the one "Critical Hit!" effect, a normal hit none |
| Combat.CriticalDoublesDamage | client/src/lib/combatSystem.ts:13-19 | a critical hit does exactly double the damage of a normal hit with the same attacker |
| Crafting.GetCraftingRecipes | client/src/lib/craftingSystem.ts:3-51 | three recipes with distinct ids, each with ingredients, each ingredient needed at least once |
| Crafting.Available | client/src/lib/craftingSystem.ts:55-57 | the summed quantity of the inventory entries whose name matches case-insensitively |
| Crafting.CanCraftItem | client/src/lib/craftingSystem.ts:53-61 | craftable exactly when every ingredient is available in at least its required quantity |
| Crafting.AvailableAppend | client/src/lib/craftingSystem.ts:55-57 | the summed matching quantity over two inventories laid end to end is the sum over each |
| Crafting.AvailableNonNegative | client/src/lib/craftingSystem.ts:55-57 | with no negative quantities, the summed quantity is never negative |
| Crafting.AvailableRaise | client/src/lib/craftingSystem.ts:55-57 | raising one entry's quantity never lowers the summed quantity of any name |
| Crafting.AvailableIgnoresCase | client/src/lib/craftingSystem.ts:55-57 | names that are equal after lower-casing have the same available quantity |
| Crafting.NoIngredientsAlwaysCraftable | client/src/lib/craftingSystem.ts:53-61 | a recipe without ingredients is always craftable |
| Crafting.CanCraftMonotoneAdd | client/src/lib/craftingSystem.ts:53-61 | gaining items never makes a craftable recipe uncraftable |
| Crafting.CanCraftMonotoneRaise | client/src/lib/craftingSystem.ts:53-61 | raising an item's quantity never makes a craftable recipe uncraftable |
| Crafting.CanCraftIgnoresItemIds | client/src/lib/craftingSystem.ts:53-61 | craftability depends only on the ingredients' names and quantities, not on their item ids |
| Crafting.CraftItem | client/src/lib/craftingSystem.ts:63-73 | the crafted item copies the result's name, type, icon, description and effects, has quantity 1, and its id is the recipe id, a dash, then more characters |
| Crafting.CraftedIdsDistinct | client/src/lib/craftingSystem.ts:65 | items crafted from one recipe at different instants have different ids |
| TextUtil.ToLower | client/src/lib/craftingSystem.ts:56 | lower-casing keeps the length and maps every character on its own |
| TextUtil.NatToString | client/src/lib/stores/useGameState.tsx:268 | a number prints as a non-empty string of decimal digits |
| TextUtil.NatToStringInjective | client/src/lib/stores/useGameState.tsx:268 | different numbers print differently |
| TextUtil.PrefixedNumbersDistinct | client/src/lib/stores/useGameState.tsx:268 | `monster-${i}` ids for different i differ |
| TextUtil.ReplaceFirst | client/src/lib/stores/useGameState.tsx:176 | `replace(' ', '-')` replaces only the first space and keeps everything else |
| SeqUtil.FirstWhere | client/src/lib/stores/useInventory.tsx:50 | `find` as an index, used for items by name and by id and for monsters by id: the first element passing the test, or -1 exactly when none does |
| SeqUtil.Keep | client/src/lib/stores/useInventory.tsx:69 | `filter`, used to drop items and monsters by id: exactly the elements passing the test, and shorter when some element fails it |
| SeqUtil.KeepAll | client/src/lib/stores/useInventory.tsx:69 | filtering out an id that no entry has changes nothing |
| SeqUtil.KeepConcat | client/src/lib/stores/useInventory.tsx:69 | the filter keeps order: filtering a concatenation concatenates the filtered parts |
| SeqUtil.KeepIgnoresDropped | client/src/lib/stores/useGameState.tsx:155-192 | the filter gives the same list whether or not the target was hit in place before its id was filtered out |
| GameStateStore.DropId | client/src/lib/stores/useGameState.tsx:176 | the lower-cased name with its first space turned into a dash, a dash, then the clock reading |
| GameStateStore.DropIdsDistinct | client/src/lib/stores/useGameState.tsx:176 | drops of one material made at different instants get different ids |
| GameStateStore.DropTableIdsDistinct | client/src/lib/stores/useGameState.tsx:162-176 | the drops of one kill get different ids even at a single clock reading, because the table's material names start with different letters |
| GameStateStore.Rolled | client/src/lib/stores/useGameState.tsx:172-185 | the reference drop list: one item per table entry whose roll came up, in table order |
| GameStateStore.RolledMaterials | client/src/lib/stores/useGameState.tsx:172-185 | a kill drops exactly as many items as rolls came up, so at most one per table entry, each a single unit of material |
| GameStateStore.RolledOnlyRolled | client/src/lib/stores/useGameState.tsx:173-184 | every dropped item is the item of a table entry whose roll came up |
| GameStateStore.RolledAllRolled | client/src/lib/stores/useGameState.tsx:173-184 | the item of every entry whose roll came up is dropped |
| GameStateStore.DropTableNamesDistinct | client/src/lib/stores/useGameState.tsx:162-167 | the four drop table entries name different materials |
| GameStateStore.RollDrops | client/src/lib/stores/useGameState.tsx:172-185 | the forEach over the drop table builds exactly the reference drop list |
| GameStateStore.SpawnOk | client/src/lib/stores/useGameState.tsx:247-254 | a candidate is acceptable when its grid cell is in the grid and floor and it lies outside the 2-unit square around the origin |
| GameStateStore.FirstSpawn | client/src/lib/stores/useGameState.tsx:242-258 | the index of the first acceptable candidate spot, or -1 exactly when none is acceptable |
| GameStateStore.TrySpots | client/src/lib/stores/useGameState.tsx:237-258 | the retry loop stops at the first acceptable candidate; without one it ends on the last candidate tried |
| GameStateStore.FallbackSpot | client/src/lib/stores/useGameState.tsx:261-265 | the fallback spot lies between 1 and width - 1 cells inside the chosen room, in world coordinates |
| GameStateStore.SpawnPosition | client/src/lib/stores/useGameState.tsx:236-265 | a monster spawns at the first acceptable candidate; else at the fallback spot of the drawn room; else, with no rooms, at the last candidate |
| GameStateStore.SpawnSpotKinds | client/src/lib/stores/useGameState.tsx:242-265 | every spawn spot is an acceptable floor cell away from the start, inside a room, or (with no rooms) in the [-9, 9) square |
| GameStateStore.GenerateMonsters | client/src/lib/stores/useGameState.tsx:231-277 | count monsters with distinct ids monster-0, monster-1, ..., kinds from goblin/orc/skeleton, health 50 + 10 * floor, damage 10 + 2 * floor, placed as SpawnPosition says |
| GameStateStore.StartPosition | client/src/lib/stores/useGameState.tsx:55-63 | the start lies in the grid cell at the first room's centre, or at the origin when there are no rooms |
| GameStateStore.LevelUp | client/src/lib/stores/useGameState.tsx:139-151 | a level is gained exactly when experience reaches 100, and at most one per award; experience plus 100 per level is conserved |
| GameStateStore.Blocked | client/src/lib/stores/useGameState.tsx:96-113 | with a layout, a move is refused when its grid cell is off the grid or a wall; without one nothing is refused |
| GameStateStore.CanMoveTo | client/src/lib/stores/useGameState.tsx:90-113 | a move is allowed when the target is within ±9.5 on both axes and the layout does not refuse it |
| GameStateStore.AcceptedMoveLandsOnFloor | client/src/lib/stores/useGameState.tsx:96-113 | on a well-formed grid, a move the layout check lets through lands on a floor cell |
| GameStateStore.NewFloor | client/src/lib/stores/useGameState.tsx:52-63 | a fresh floor is the generator's 20 x 20 dungeon: rooms as placed, valid, a cell floor exactly when it lies in a room or on a corridor between consecutive rooms, and the start cell floor |
| GameStateStore.RoomsAvoidBorder | client/src/lib/dungeonGenerator.ts:32-46 | no cell of a room accepted inside the margin lies within two cells of the grid's edge |
| GameStateStore.CorridorsAvoidBorder | client/src/lib/dungeonGenerator.ts:59-71 | no corridor between the centres of two such rooms comes within two cells of the grid's edge |
| GameStateStore.FreshFloorBorderIsWall | client/src/lib/stores/useGameState.tsx:52-53 | on a fresh floor every cell within two cells of the edge is wall |
| GameStateStore.GameState.constructor | client/src/lib/stores/useGameState.tsx:37-47 | ready, at the origin, 100 health, level 1, no experience, floor 1, no dungeon, no monsters, no drops |
| GameStateStore.GameState.SetGamePhase | client/src/lib/stores/useGameState.tsx:49 | sets the phase and nothing else |
| GameStateStore.GameState.InitializeGame | client/src/lib/stores/useGameState.tsx:51-78 | floor 1 on a fresh dungeon (rooms plus corridors, as generated), the player at its start, five spawned monsters, full health, level 1, no experience, phase ready; pending drops untouched |
| GameStateStore.GameState.ResetRun | client/src/lib/stores/useGameState.tsx:80-83 | the same new state as initializeGame, on a freshly generated dungeon |
| GameStateStore.GameState.MovePlayer | client/src/lib/stores/useGameState.tsx:85-119 | the player moves by (dx, dy) exactly when the target is within ±9.5 and, given a layout, lands in the grid and not on a wall; otherwise nothing changes |
| GameStateStore.GameState.TakeDamage | client/src/lib/stores/useGameState.tsx:121-130 | health becomes max(0, health - damage); the phase becomes game over exactly when health reaches 0 |
| GameStateStore.GameState.HealPlayer | client/src/lib/stores/useGameState.tsx:132-137 | health becomes min(100, health + amount), so never above 100 |
| GameStateStore.GameState.GainExp | client/src/lib/stores/useGameState.tsx:139-151 | experience and level become LevelUp of the old ones |
| GameStateStore.GameState.AttackMonster | client/src/lib/stores/useGameState.tsx:153-197 | an unknown id changes nothing; a surviving target loses 20 health in place; a killed target gets the rolled drops, removal of every monster with its id, and the 10-experience award |
| GameStateStore.GameState.NextFloor | client/src/lib/stores/useGameState.tsx:199-223 | one floor deeper on a fresh dungeon (rooms plus corridors, as generated), 5 + floor monsters scaled to the new floor, the player at the start; health, level, experience, phase and drops carried over |
| GameStateStore.GameState.ClearPendingDrops | client/src/lib/stores/useGameState.tsx:225-227 | the drop queue becomes empty |
| GameStateStore.TwoAwardsOfSixty | client/src/lib/stores/useGameState.tsx:139-151 | from level 1 with no experience, two awards of 60 give level 2 with 20 experience |
| GameStateStore.OverHeal | client/src/lib/stores/useGameState.tsx:132-137 | healing by 1000 after damage restores exactly 100 health |
| SanctumStore.Held | client/src/lib/stores/useSanctum.tsx:100 | `materials[m] \|\| 0`: the held amount, 0 for a material never added |
| SanctumStore.BonusEffect | client/src/lib/stores/useSanctum.tsx:83 | the effect line `Level n bonus` for the new level n |
| SanctumStore.GetRoomUpgradeCost | client/src/lib/stores/useSanctum.tsx:104-123 | nothing for an unknown room; otherwise exactly stone, wood, iron and magic crystal at 5, 3, 2 and 1 times the room's level |
| SanctumStore.CanUpgradeRoom | client/src/lib/stores/useSanctum.tsx:92-102 | false for an unknown room or one at level 5 or above; otherwise true exactly when every cost material is held in the required amount, a missing one counting as 0 |
| SanctumStore.CostScalesWithLevel | client/src/lib/stores/useSanctum.tsx:117-122 | the cost from level 2 is twice the cost from level 1 |
| SanctumStore.InitialWorkshopCost | client/src/lib/stores/useSanctum.tsx:21-53 | in the initial sanctum the first upgrade costs exactly 5 stone, 3 wood, 2 iron, 1 magic crystal |
| SanctumStore.Sanctum.constructor | client/src/lib/stores/useSanctum.tsx:21-53 | the four initial rooms at level 1 with one effect each, and 10/5/3/1 of the materials |
| SanctumStore.Sanctum.AddMaterial | client/src/lib/stores/useSanctum.tsx:55-63 | the material's count grows by the quantity, a missing one counting as 0; rooms unchanged |
| SanctumStore.Upgraded | client/src/lib/stores/useSanctum.tsx:65-90 | the state upgradeRoom leaves: unchanged unless the upgrade is allowed, otherwise every cost material paid exactly, every other count kept, and the room one level up with that level's bonus line appended |
| SanctumStore.PayCost | client/src/lib/stores/useSanctum.tsx:71-76 | the deduction loop over the four cost materials lowers each held material by exactly its cost and keeps every other count and the set of names |
| SanctumStore.Sanctum.UpgradeRoom | client/src/lib/stores/useSanctum.tsx:65-90 | a no-op unless the upgrade is allowed; otherwise each cost material drops by exactly its cost, every other count is kept, and the room rises one level and gains the "Level n bonus" effect; the store stays valid |
| SanctumStore.UpgradeKeepsStock | client/src/lib/stores/useSanctum.tsx:65-102 | an upgrade keeps the material names, and no count that was non-negative goes negative, because the affordability test comes first |
| SanctumStore.UpgradeKeepsRoomsValid | client/src/lib/stores/useSanctum.tsx:78-90 | after an upgrade, every room is still between level 1 and 5 with one effect per level |
| SanctumStore.UpgradeStep | client/src/lib/stores/useSanctum.tsx:65-102 | with enough materials for every remaining level, an upgrade raises the room one level below the cap and leaves it at 5 at the cap, and enough materials remain for the levels still left |
| SanctumStore.StockedSanctum | client/src/lib/stores/useSanctum.tsx:44-63 | the initial sanctum with 100 more of each material has a level-1 room and enough materials to reach level 5 |
| SanctumStore.UpgradeToCap | client/src/lib/stores/useSanctum.tsx:65-102 | upgrading a room past its cap with plenty of materials stops at level 5 |
| InventoryStore.AfterRemove | client/src/lib/stores/useInventory.tsx:60-72 | an unknown id changes nothing; the first match loses one unit when it holds more than one, and nothing else changes; otherwise every item with that id goes |
| InventoryStore.Inventory.constructor | client/src/lib/stores/useInventory.tsx:18-46 | the three starting items, both panels closed |
| InventoryStore.Inventory.AddItem | client/src/lib/stores/useInventory.tsx:48-58 | an item whose name is held raises that entry by exactly one, whatever quantity arrives; a new name is appended with quantity 1; names stay unique |
| InventoryStore.Inventory.RemoveItem | client/src/lib/stores/useInventory.tsx:60-72 | the items become AfterRemove of the old ones; panels unchanged |
| InventoryStore.Inventory.UseItem | client/src/lib/stores/useInventory.tsx:74-91 | a held consumable loses one unit as removeItem says; anything else leaves the items unchanged |
| InventoryStore.Inventory.ToggleInventory | client/src/lib/stores/useInventory.tsx:93-96 | the inventory panel flips and the crafting panel closes, so both are never open together |
| InventoryStore.Inventory.ToggleCrafting | client/src/lib/stores/useInventory.tsx:98-101 | the crafting panel flips and the inventory panel closes, so both are never open together |
| InventoryStore.PickUpPotion | client/src/lib/stores/useInventory.tsx:48-58 | a pickup of 5 health potions adds exactly one to the starting entry, giving 2 potions and no new entry |

## Left out

- Probabilities are not modelled. The 10% critical chance, the 30/40/20/10% drop chances and the uniformity of `Math.random()` become caller-supplied draws and boolean rolls. The drop chances are kept as data in the table.
- `Date.now()` is a caller-supplied natural number.
- GameStateStore.GameState.AttackMonster: one clock reading `now` serves every drop of a kill. The source reads `Date.now()` once per dropped item inside the `forEach`, so two drops of one kill could get different suffixes there; in the model they share one. Drops of one kill still have different ids, because their material names start with different letters.
- IEEE floating point is modelled by exact reals. Rounding of `Math.random() * 18 - 9` and of the world/grid conversion is not modelled, and neither are NaN and non-numeric `damage` or `quantity` values.
- TextUtil.ToLower maps only the ASCII letters A-Z. JavaScript's full Unicode case mapping is not modelled; every name the game uses is ASCII.
- Combat.CalculateDamage: the unused `defender` parameter is dropped. A missing or zero `attacker.damage` is `None` or `Some(0)`.
- processMonsterAI and checkCollision (combatSystem.ts) are not part of this model. Nothing in the game calls them. The chase the game actually runs is written inline in the `Game` component, on a 500 ms timer, and belongs to that component, which is also not part of this model.
- The zustand `persist` middleware (saving the sanctum to browser storage), `subscribeWithSelector`, `console.log` output and the React components are not part of this model. This includes the component that moves pending drops into the inventory and the one that calls craftItem and removes its ingredients.
- Object aliasing is not modelled. Items and monsters are values. The source mutates a found item or monster object in place, and the model replaces that element of the sequence with the updated value. Because the sequence is the only holder of these objects, the observable state is the same.
- The dungeon's grid is returned as an immutable value. Nothing in the game mutates it after generation.
- GameStateStore.LevelUp: a single award of 200 or more experience still converts only 100 of it into one level. The model follows the code here, not a multi-level loop.
- GameStateStore.GameState.MovePlayer: the `dungeonLayout.tiles` existence test is not modelled separately. The layout is either absent (`None`) or a full dungeon.
