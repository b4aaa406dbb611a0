# og_valley world simulation in Dafny

This project models the world simulation of og_valley, a small farming
game. In the original program the game lives in one React component,
`Game`. Its state is four 16×12 tile grids (farm, town, mine, house), the
player, the clock, two NPCs, the monsters, the chests and the current
overlay. Its handlers and tickers change that state:

- moving, with warps and collisions;
- interacting: attack, talk, shop, shipping bin, chests, harvesting and
  the tools;
- the backpack and chest slot protocol, the trash slot and eating;
- the clock with its forced sleep;
- the monster AI;
- floating-text decay and the hotbar and overlay keys.

The item catalogue, the initial inventory, the NPC lines and the tuning
constants come from `constants.ts`. The record shapes come from `types.ts`.

## Layout

The model has two layers.

- **`Game.World`** (world.dfy) is a class whose fields are the component's
  state.
  - Each handler or ticker is a method that updates those fields in place
    and follows the source's control flow. The two exceptions are the
    harvest callback and the affection rule, where the World applies the
    corrected behaviour of the Findings table (see "Left out").
  - Every method `ensures State() == Step(old(State()), …)` for the step
    function of `Simulation` that describes it.
  - The public methods also keep `Valid()`, the well-formedness invariant
    `Simulation.StateOk`.
  - Each deferred `setTimeout(…, 0)` follow-up runs as an immediate
    follow-up step inside the same method.
- **The functional modules** hold the decisions and the proofs:
  - `Simulation` holds the step functions, the invariant and the
    properties of whole steps;
  - `Catalog` models `constants.ts`;
  - `Inventory` covers the slot arrays;
  - `Generator` is the grid generator;
  - `Clock`, `Combat`, `Movement`, `Farming`, `Social` and `Feedback`
    cover the other parts;
  - `Records` and `Util` hold the shared types and helpers.

Conventions:

- Random draws (`Math.random()`) are parameters: `real`s in `[0, 1)`.
- The grid generator reads them from one sequence in the order the source
  draws them.
- The monster AI takes one roll per monster.
- JavaScript truthiness is written out (`Util.Truthy`), because the Weed's
  id, 0, is falsy.
- The JavaScript `%` is `Util.JsRem`.
- Sound effects are recorded as cue tags in a `sounds` log.
- The autosave is a `saved` snapshot value.

## Model

| member | source | states |
|---|---|---|
| Catalog.Lookup | constants.ts:33-77 | the catalogue has an entry exactly for the 29 ids of ITEM_DB |
| Catalog.SeedIds | constants.ts:51-55 | the only seed entries are Parsnip Seeds (472) and Potato Seeds (474) |
| Catalog.SeedsNameCrops | constants.ts:51-55 | every seed's cropId names a crop entry that has a seasons list, which the planting check dereferences |
| Catalog.ObstacleIds | constants.ts:35-40 | the obstacle entries are exactly the Weed, the Stone Node, the Twig and the three ore nodes |
| Catalog.ObstaclesDropResources | constants.ts:35-49 | every obstacle's drop is a truthy id that names a resource entry |
| Catalog.ToolEffectsAreExclusive | components/Game.tsx:480-529 | no catalogue entry selects two of the five grid-modifying tool branches, so at most one applies per use |
| Catalog.EdibleRestoresEnergy | constants.ts:52 | every edible entry restores a positive amount of energy |
| Catalog.InitialInventory | constants.ts:81-90 | INITIAL_INVENTORY has 24 slots; slots 0-8 hold catalogue items with count at least 1, and the rest are empty |
| Catalog.NpcDialogues | constants.ts:92-105 | both NPC variants have a two-line list under INTRO and under every weather |
| Catalog.SeasonCount | constants.ts:30 | SEASONS has four distinct names, matching the `% 4` of the season rollover |
| Util.JsRem | components/Game.tsx:181 | JavaScript's `%`: equals Dafny's `%` for a non-negative dividend and is always strictly smaller than the divisor in magnitude |
| Inventory.FindId | components/Game.tsx:351 | `findIndex` for an id: the first slot holding it, or -1 when no slot does |
| Inventory.FindEmpty | components/Game.tsx:355 | `findIndex` for null: the first empty slot, or -1 when none is empty |
| Inventory.AddedToInventory | components/Game.tsx:348-366 | the first stack of the id grows by `count`; failing that, the first empty slot gets the new stack; with neither, nothing changes; no other slot changes |
| Inventory.AddConserves | components/Game.tsx:348-366 | adding raises the id's unit total by `count` exactly when there is room, and leaves every other id's total alone |
| Inventory.AddKeepsSlotsOk | components/Game.tsx:348-366 | adding a catalogue item with count ≥ 1 keeps every slot well-formed |
| Inventory.ClickSlot | components/Game.tsx:556-606 | the five click outcomes: unless the cursor stacks onto the slot, the cursor and the slot are exchanged (this covers place, pick up, swap, and empty on empty changing nothing); a matching id stacks into the slot and empties the cursor; no other slot changes |
| Inventory.ClickConserves | components/Game.tsx:556-606 | for every id, the cursor plus the clicked array hold as many units after a click as before |
| Inventory.ClickTwiceUndoes | components/Game.tsx:556-606 | a second click on the same slot undoes a click that did not stack |
| Inventory.ClickKeepsSlotsOk | components/Game.tsx:556-606 | a click keeps the cursor and the slots well-formed |
| Inventory.TakeOne | components/Game.tsx:483-489 | taking one unit: the count drops by 1 and the slot becomes empty at 0; no other slot changes |
| Inventory.TakeOneConserves | components/Game.tsx:483-489 | taking one unit lowers that id's total by exactly 1 and no other id's |
| Inventory.TakeOneKeepsSlotsOk | components/Game.tsx:483-489 | taking one unit keeps the slots well-formed |
| Generator.GenTile | components/Game.tsx:31-85 | each generated tile is the scene's fixed layout tile, with at most debris or ore added, and reads at most the tile's share of draws |
| Generator.Layout | components/Game.tsx:31-83 | the fixed part of each scene's tile at (x, y): its type, walkability, warp and fixtures, before any random placement |
| Generator.RowUpTo | components/Game.tsx:29-87 | a generated row prefix has the requested length and consumes a bounded number of draws |
| Generator.GridUpTo | components/Game.tsx:27-89 | the generated rows have the requested count and consume a bounded number of draws |
| Generator.RowFromLayout | components/Game.tsx:29-87 | every tile of a generated row comes from the layout |
| Generator.GridFromLayout | components/Game.tsx:27-89 | every generated row has full width and comes from the layout |
| Generator.GenerateGrid | components/Game.tsx:26-90 | the nested-loop generator returns the grid the functional definition describes and reads at most MAX_DRAWS draws |
| Generator.GridIsGenerated | components/Game.tsx:26-90 | a generated grid is 12 rows of 16 tiles, each from the layout |
| Generator.GeneratedGridOk | components/Game.tsx:26-90 | a generated grid is well-formed: 12 rows of 16 tiles, any crop is on tilled soil with a catalogue id, tilled soil is dirt, and every warp leads onto the grid |
| Generator.WarpTargetsWalkable | components/Game.tsx:47-77 | every warp of the layout leads to an in-bounds, walkable tile of its target scene |
| Generator.WarpsReciprocal | components/Game.tsx:47-77 | every warp's target scene has a warp leading back |
| Generator.ScatterKeepsLayout | components/Game.tsx:42-72 | random placement never changes warps, walkability or the fixed fixtures, and places no crop |
| Generator.DebrisCanCoverFarmWarp | components/Game.tsx:42-48 | a rock can land on a farm edge warp tile, because debris is scattered before the warps are assigned |
| Clock.ClockTick | components/Game.tsx:165-203 | a tick adds 10 minutes; at END_TIME or later the time is START_TIME and the day advances, and past day 28 the day is 1 and the season advances mod 4 |
| Clock.TickAdvancesCalendar | components/Game.tsx:165-203 | a tick keeps the clock valid, and a sleep advances the day of the year by exactly one (mod 112) |
| Clock.QuietRun | components/Game.tsx:166 | ticks that stay below END_TIME only add 10 minutes each and never sleep |
| Clock.OneSleepPerDay | constants.ts:13-14 | 124 ticks from START_TIME sleep exactly once and end at START_TIME one day later |
| Combat.Stepped | components/Game.tsx:230-277 | a chasing monster moves at most one tile per axis, stays on the grid and ends strictly closer; any other monster, attackers included, stays put |
| Combat.Acts | components/Game.tsx:232-233 | a monster acts this tick only in the current scene and when its roll is at most 0.3 |
| Combat.Attacks | components/Game.tsx:232-239 | an acting monster attacks when the player is within distance 1 (squared distance at most 1) |
| Combat.Chases | components/Game.tsx:232-270 | an acting monster chases when the player is farther than 1 but closer than 5 and the step towards the player stays on the grid |
| Combat.StepAll | components/Game.tsx:230-278 | the AI map: monster i steps with roll i |
| Combat.AttackDamages | components/Game.tsx:231-239 | the damages of this tick's attackers: none when no monster attacks, and never negative |
| Combat.HitPlayer | components/Game.tsx:240-264 | a melee hit sets hp to max(0, hp - damage); at 0 the player loses min(1000, money div 10) gold (never below 0), is restored to full hp and energy, and is moved to (6, 4) |
| Combat.FaintPenaltyBounded | components/Game.tsx:246-258 | the faint penalty is between 0 and 1000 and never more than the player has |
| Combat.FaintFromStartingPurse | components/Game.tsx:246-258 | with the starting 50 gold, a faint costs 5 |
| Combat.HitKeepsVitals | components/Game.tsx:240-264 | one non-negative hit keeps the vitals in range and never raises money |
| Combat.ApplyHits | components/Game.tsx:240-264 | the queued player updates of one tick keep the old floating texts as a prefix and change only hp, energy, money and position |
| Combat.HitsKeepVitals | components/Game.tsx:240-264 | any number of hits keep the vitals in range, never raise money and keep maxHp |
| Combat.FaintIsReported | components/Game.tsx:245-249 | a first hit that faints the player is reported as a faint |
| Combat.FirstMonsterAt | components/Game.tsx:382 | `find` by scene and position: the first monster there, or -1 when none is |
| Combat.SwordDamage | components/Game.tsx:384 | the sword does 2 to 4 damage |
| Combat.SwordDamageInRange | components/Game.tsx:384 | the sword's damage lies within the Rusty Sword's listed minDmg-maxDmg range |
| Combat.Strike | components/Game.tsx:386-389 | after the hit and the filter, every monster left is alive and is a struck copy of an old one |
| Combat.StrikeSpares | components/Game.tsx:386-389 | every living monster the hit does not target survives unchanged |
| Combat.StrikeKills | components/Game.tsx:386-389 | a monster taken to 0 hp or below is removed |
| Combat.StrikeWounds | components/Game.tsx:386-389 | a struck monster that survives remains, with `damage` less hp |
| Movement.NewFacing | components/Game.tsx:303-307 | the facing after (dx, dy): a vertical component wins over a horizontal one, and (0, 0) keeps the facing |
| Movement.TargetCoords | components/Game.tsx:285-294 | the tile in front of the player is the adjacent tile in the facing direction |
| Movement.FacingPointsAlongMove | components/Game.tsx:285-307 | after a one-tile move attempt the player faces the tile it tried to enter |
| Movement.ResolveMove | components/Game.tsx:309-343 | the move rules apply in this order: off the grid, then warp, then not walkable, then blocking object, then NPC, then walk; each holds exactly when its condition holds and no earlier one does |
| Movement.Blocks | components/Game.tsx:331-334 | an object blocks a walk when its entry is solid, interactive or a container |
| Movement.MovedScene | components/Game.tsx:318-321 | a warp changes the scene to the warp's target; every other outcome keeps it |
| Movement.Moved | components/Game.tsx:309-343 | a warp relocates to the warp's coordinates, a walk moves by exactly (dx, dy), and every other outcome keeps the position; the facing turns except on object collision, which leaves the player untouched |
| Movement.WalkLandsOnFreeTile | components/Game.tsx:324-343 | a walk ends on an in-bounds, walkable tile with no warp, no blocking object and no NPC |
| Movement.MoveStaysOnGrid | components/Game.tsx:296-346 | on a well-formed grid a move never takes the player off the grid |
| Farming.UseTool | components/Game.tsx:480-542 | the chest, hoe, watering can, pickaxe and seed rules, each in both directions for an entry that selects one effect (every catalogue entry does): the rule's use happens exactly when its condition holds, with its exact tile update; a seed is refused exactly when it may be sown but its crop is out of season; the tile is untouched exactly when no rule's condition holds; the cost and the swing follow the entry's energy and action |
| Farming.ActOnTile | components/Game.tsx:449-542 | a ripe crop is harvested exactly when there is one; otherwise the use is refused exactly when the item's energy cost exceeds the player's energy; otherwise the outcome is exactly the tool rules' outcome; an empty hand on an unripe tile does nothing |
| Farming.Ripe | components/Game.tsx:456 | a tile is harvested when it has a crop at stage 4 or more that is not dead |
| Farming.Breakable | components/Game.tsx:501 | the pickaxe applies to a truthy object id whose entry is an obstacle |
| Farming.PlacesChest | components/Game.tsx:481 | a chest goes on a walkable tile with no truthy object and no crop |
| Farming.Tills | components/Game.tsx:493 | the hoe applies to grass with no truthy object |
| Farming.Waters | components/Game.tsx:497 | the watering can applies to tilled soil |
| Farming.Breaks | components/Game.tsx:501 | the pickaxe applies to a breakable obstacle |
| Farming.Sows | components/Game.tsx:508 | a seed applies to tilled soil with no crop and no truthy object |
| Farming.TooTired | components/Game.tsx:472 | the selected entry has a positive energy cost above the player's energy |
| Farming.ToolRules | components/Game.tsx:472-529 | for any catalogue item on an unripe tile with the energy to pay: a chest on a free walkable tile is placed, the hoe tills grass with no object, the can waters tilled soil, the pickaxe breaks an obstacle and removes it, and a seed on a bare tilled plot is planted in season and refused out of season, each with the exact resulting tile, cost and swing |
| Farming.ActKeepsTileOk | components/Game.tsx:449-551 | every tile outcome keeps a well-formed tile well-formed |
| Farming.HarvestClearsPlot | components/Game.tsx:456-465 | a harvest clears the crop and the tilled flag and yields the crop's id |
| Farming.HarvestedPlotIsBarren | components/Game.tsx:493-529 | an untilled dirt plot is never tilled, watered or planted again |
| Farming.TiredPlayerIsRefused | components/Game.tsx:472-478 | a tool costing more energy than the player has is refused on any unripe tile |
| Farming.Spent | components/Game.tsx:532-536 | spending energy gives max(0, energy - cost), which is exact when the cost is affordable |
| Farming.ParsnipsGrowInSpringOnly | components/Game.tsx:508-529 | Parsnip Seeds on tilled, empty soil make a fresh crop (stage 0, not dead) in Spring and are refused in Summer |
| Farming.PickaxeOnNodes | components/Game.tsx:501-507 | the pickaxe breaks a Stone Node into Stone for 2 energy, and does nothing to a Weed (id 0 is falsy) |
| Feedback.Spawn | components/Game.tsx:156-158 | a spawned text is appended with life 40 after the existing ones |
| Feedback.Decayed | components/Game.tsx:147-153 | decay keeps only texts still alive, each an aged old text, and clears the list when every text is at its last frame |
| Feedback.DecaySpares | components/Game.tsx:147-153 | a text with life above 1 survives, aged |
| Feedback.TextsExpire | components/Game.tsx:147-153 | after as many decay ticks as the largest life, no text remains |
| Social.FirstNpcAt | components/Game.tsx:395 | `find` by scene and position: the first NPC there, or -1 exactly when none is |
| Social.Befriended | components/Game.tsx:402-406 | befriending adds 10 affection capped at 250, records the given date in lastTalked and changes nothing else |
| Social.OncePerDay | components/Game.tsx:401 | with the corrected date rule, an NPC befriended today earns nothing more today, and earns again on exactly the other days of the year |
| Social.CanGainAffection | components/Game.tsx:401 | the corrected rule: no affection has been earned today, that is lastTalked holds no date or a date other than today's |
| Social.CanGainAffectionAsWritten | components/Game.tsx:401 | the source's test: lastTalked is falsy or a smaller day number than today's |
| Social.Today | components/Game.tsx:405 | the date recorded in lastTalked: the day of the year counted from 1, always between 1 and 112 |
| Social.RolloverLocksAffection | components/Game.tsx:401-405 | as written, an NPC befriended on day d is refused exactly on days 1..d of any season, and one befriended on day 28 is refused on every day |
| Social.AsWrittenRefusesAfterRollover | components/Game.tsx:401-405 | as written, an NPC befriended on day 28 is refused on day 1 of the next season |
| Social.EarnsAgainNextDay | components/Game.tsx:401-405 | with the corrected rule, after the forced sleep that ends a day, season rollover included, the NPC can earn affection again |
| Social.TalkedTo | components/Game.tsx:402-406 | the NPC update befriends exactly the NPCs with the talked-to id, with the given date, and leaves the others alone |
| Social.TalkKeepsAffectionOk | components/Game.tsx:402-406 | the update keeps affection in range and changes only affection and lastTalked |
| Social.Lines | components/Game.tsx:397 | the lines for the weather are never empty, so the random pick is defined |
| Social.PickLine | components/Game.tsx:411 | the picked line is one of the lines |
| Simulation.SetTile | components/Game.tsx:544-547 | writing a tile back changes only that tile of that scene |
| Simulation.SetTileKeepsGridsOk | components/Game.tsx:544-547 | writing back a well-formed tile keeps the grids well-formed |
| Simulation.ContainerKey | components/Game.tsx:439 | a chest key is the scene name, "_", the coordinates and a trailing space |
| Simulation.Ticked | components/Game.tsx:162-206 | the clock ticker: nothing while an overlay is open or paused, otherwise the clock tick, and at END_TIME the forced sleep |
| Simulation.WokenUp | components/Game.tsx:170-201 | the forced sleep: the message, the player at (6, 4) with full energy and hp, the farm, and the snapshot of that state |
| Simulation.MonstersActed | components/Game.tsx:226-281 | the AI ticker: nothing outside play; otherwise the monsters step and the queued hits are applied to the player, a faint sending the player to the farm |
| Simulation.Fainted | components/Game.tsx:245-253 | a faint: the gold-lost message, the farm and START_TIME |
| Simulation.AfterMove | components/Game.tsx:296-346 | handleMove: nothing outside play; otherwise the move is resolved and applied |
| Simulation.MoveApplied | components/Game.tsx:311-343 | a resolved move: the new player and scene, and for a walk the next frame and the step sound |
| Simulation.Added | components/Game.tsx:348-366 | addToInventory: the slot update when there is room, otherwise only the "Inventory Full" message |
| Simulation.OverlayClosed | components/Game.tsx:369-374 | space in the dialogue, shop or chest screen closes it; the backpack stays open |
| Simulation.Interacted | components/Game.tsx:368-553 | handleInteract: close an overlay, or act on the tile in front |
| Simulation.Acted | components/Game.tsx:376-553 | the interaction rules in order: a sword hit on a monster, a talk, nothing off the grid, then the tile in front |
| Simulation.MonsterStruck | components/Game.tsx:383-390 | the sword hit: the damage text and the struck, filtered monster list |
| Simulation.TalkedWith | components/Game.tsx:395-413 | the talk: affection when not befriended today, a line for the weather, the dialogue screen and the pickup sound |
| Simulation.GainedAffection | components/Game.tsx:401-409 | today's affection for the NPCs with that id and the heart text |
| Simulation.Shipped | components/Game.tsx:422-435 | the shipping bin: the selected stack is sold whole when its entry has a sell price, otherwise nothing |
| Simulation.ChestOpened | components/Game.tsx:437-446 | the chest at the target: nine empty slots on first use, then the chest screen with it open |
| Simulation.TargetUsed | components/Game.tsx:416-551 | the fixtures in order: the mailbox opens the shop, the bin ships, a chest opens, else the tile is worked |
| Simulation.TileWorked | components/Game.tsx:449-551 | the grid updater: a harvest with its callback, a refusal message, or a tool use written back with its sounds and follow-ups |
| Simulation.HarvestCallback | components/Game.tsx:458-461 | the harvest callback on the crop it sees: one unit and its name when there is a crop, nothing when it reads a cleared crop |
| Simulation.Consumed | components/Game.tsx:483-504 | the placed chest or seed leaves the selected slot; a broken node's truthy drop enters the inventory |
| Simulation.ToolFinished | components/Game.tsx:481-542 | the tool's follow-ups in order: the item, the energy when the cost is positive, the swing when the tool has an action |
| Simulation.SlotClicked | components/Game.tsx:556-606 | handleSlotClick on a slot of the backpack or of the open chest: the click outcome on that array and the cursor, nothing else changed |
| Simulation.Eaten | components/Game.tsx:634-653 | handleRightClick: an empty slot does nothing, food is eaten, any other item shows the "not edible" message |
| Simulation.Fed | components/Game.tsx:639-648 | one unit eaten, energy raised capped at the maximum, and the restore text |
| Simulation.InventoryToggled | components/Game.tsx:657-664 | 'e' opens the backpack while playing, closes the backpack or the chest screen, and does nothing in the shop or the dialogue |
| Simulation.Escaped | components/Game.tsx:665-669 | Escape returns from any overlay to play with no chest open |
| Simulation.InitialStateOk | components/Game.tsx:98-123 | the initial state is well-formed |
| Simulation.InitialGridsOk | components/Game.tsx:99-104 | the four generated grids are well-formed |
| Simulation.InitialPlayerOk | components/Game.tsx:106-112 | the initial player is well-formed |
| Simulation.TickKeepsStateOk | components/Game.tsx:162-206 | a clock tick keeps the state well-formed |
| Simulation.SleepRestoresPlayer | components/Game.tsx:165-203 | a tick that reaches END_TIME wakes the player at (6, 4) on the farm with full energy and hp, at START_TIME one day later, keeping the items and money, and saves that state; any other tick adds 10 minutes and changes nothing else |
| Simulation.OverlayStopsClock | components/Game.tsx:163 | the clock does not run while an overlay is open |
| Simulation.MonstersKeepStateOk | components/Game.tsx:226-281 | a monster tick keeps the state well-formed |
| Simulation.StepAllKeepsMonstersOk | components/Game.tsx:230-278 | the AI step keeps every monster alive and on the grid |
| Simulation.MonstersOnlyMove | components/Game.tsx:230-278 | the AI tick changes only monster positions: the count, ids, scenes, hp and damage stay |
| Simulation.MoveKeepsStateOk | components/Game.tsx:296-346 | a move keeps the state well-formed |
| Simulation.MoveOutcomes | components/Game.tsx:296-346 | a walk moves by (dx, dy) with a step sound and a new frame; a warp relocates to the warp's position and scene; every other outcome keeps position and scene; nothing but the player, scene, frame and sounds changes |
| Simulation.AddKeepsStateOk | components/Game.tsx:348-366 | adding a catalogue item keeps the state well-formed |
| Simulation.AddedConserves | components/Game.tsx:348-366 | adding gains exactly `count` units when there is room; otherwise only the "Inventory Full" message changes; other ids are untouched |
| Simulation.InteractReachesTile | components/Game.tsx:376-449 | when no weapon target, NPC, fixture or chest claims the tile in front, the interaction is the grid step on that tile |
| Simulation.TalkKeepsStateOk | components/Game.tsx:393-414 | talking keeps the state well-formed |
| Simulation.StrikeKeepsStateOk | components/Game.tsx:379-391 | a sword hit keeps the state well-formed |
| Simulation.ToolFinishedKeepsStateOk | components/Game.tsx:481-542 | a tool's follow-ups keep the state well-formed |
| Simulation.ConsumedKeepsStateOk | components/Game.tsx:481-507 | taking the placed item or adding a drop keeps the state well-formed |
| Simulation.TileWorkedKeepsStateOk | components/Game.tsx:449-551 | the grid step keeps the state well-formed |
| Simulation.InteractKeepsStateOk | components/Game.tsx:368-553 | an interaction keeps the state well-formed |
| Simulation.TargetUsedKeepsStateOk | components/Game.tsx:416-551 | using the tile in front keeps the state well-formed |
| Simulation.ShipKeepsStateOk | components/Game.tsx:422-435 | shipping keeps the state well-formed |
| Simulation.HarvestAddsOne | components/Game.tsx:456-465 | harvesting a ripe crop clears the crop and the tilled flag, and adds exactly one unit of the crop when there is room (otherwise only the message changes) |
| Simulation.HarvestAsWrittenAddsNothing | components/Game.tsx:456-465 | as written the harvest callback finds the crop already cleared: the plot is emptied but the player and the texts stay as they were |
| Simulation.RefusalChangesOnlyMessage | components/Game.tsx:472-478 | a refusal for energy or season changes only the message: no tile, energy or item changes |
| Simulation.PlantTakesOneSeed | components/Game.tsx:508-529 | a seed used on a bare tilled plot is planted exactly when its crop is in season: a fresh crop on the plot, exactly one seed taken, the energy unchanged (no seed costs energy) and the plant sound; out of season only the season message changes |
| Simulation.BreakAddsDrop | components/Game.tsx:501-536 | the pickaxe on an obstacle, with the energy to swing it, writes back the tile with no object, plays the hit sound, pays exactly the pickaxe's energy cost and adds one unit of the obstacle's (always present) drop when there is room |
| Simulation.BrokenAddsDrop | components/Game.tsx:503-536 | the break's follow-up adds one unit of the drop, spends the cost when it is positive and leaves the grids alone |
| Simulation.ToolSpendsEnergy | components/Game.tsx:530-541 | every successful tool use lowers the energy by exactly its cost (never below 0, by the energy check) and starts the swing exactly when the tool has an action |
| Simulation.ConsumedKeepsEnergy | components/Game.tsx:483-504 | taking the placed item or adding the drop changes neither the energy nor the swing |
| Simulation.ShippingConverts | components/Game.tsx:422-435 | shipping adds price × count gold and removes exactly the shipped stack |
| Simulation.ChestOpensLazily | components/Game.tsx:437-446 | a chest gets nine empty slots on first opening and is reopened unchanged later; the chest screen shows it |
| Simulation.TalkOncePerDay | components/Game.tsx:393-414 | talking opens the dialogue with the NPC's name and a line for the weather; an NPC not befriended today is befriended; an NPC already befriended today leaves every NPC and the floating texts unchanged; so a second talk the same day earns nothing |
| Simulation.SlotClickKeepsStateOk | components/Game.tsx:556-606 | a slot click keeps the state well-formed |
| Simulation.SlotClickConserves | components/Game.tsx:556-606 | a click changes only the cursor and the clicked array, and conserves every id's units across them |
| Simulation.CursorDeleted | components/Game.tsx:608-610 | the trash slot empties the cursor and changes nothing else |
| Simulation.EatKeepsStateOk | components/Game.tsx:634-653 | eating keeps the state well-formed |
| Simulation.EatRestores | components/Game.tsx:634-653 | eating food raises energy by its restore value capped at the maximum and uses exactly one unit; anything else only shows the "not edible" message |
| Simulation.TextsDecayed | components/Game.tsx:147-153 | the decay tick changes only the floating texts and never adds one |
| Simulation.SlotSelected | components/Game.tsx:677-681 | keys 1-5 and the hotbar select that slot while playing and do nothing otherwise |
| Simulation.KeysKeepStateOk | components/Game.tsx:655-682 | the decay tick, slot selection, the trash slot, 'e' and Escape keep the state well-formed |
| Simulation.ToggleTwiceRestores | components/Game.tsx:657-664 | pressing 'e' twice while playing returns to the same state |
| Simulation.EscapeReturnsToPlay | components/Game.tsx:665-669 | Escape returns to play with no chest open, and does nothing while playing |
| Game.World.constructor | components/Game.tsx:98-123 | a new game is the initial state, with the four grids generated in order from one stream of draws, and is well-formed |
| Game.World.TimeTick | components/Game.tsx:162-206 | the clock ticker produces the Ticked state and keeps the invariant |
| Game.World.WakeUp | components/Game.tsx:170-201 | the forced sleep: spawn position, full vitals, the farm, the message and the snapshot |
| Game.World.MonsterTick | components/Game.tsx:226-281 | the AI ticker produces the MonstersActed state and keeps the invariant |
| Game.World.Faint | components/Game.tsx:245-253 | a faint shows the gold lost and sends the player to the farm at START_TIME |
| Game.World.HandleMove | components/Game.tsx:296-346 | handleMove produces the AfterMove state and keeps the invariant |
| Game.World.Step | components/Game.tsx:311-343 | the resolved move: player, scene, and for a walk the frame and the step sound |
| Game.World.AddToInventory | components/Game.tsx:348-366 | addToInventory updates the first stack or the first empty slot in place, or reports a full inventory |
| Game.World.HandleInteract | components/Game.tsx:368-553 | handleInteract produces the Interacted state and keeps the invariant |
| Game.World.CloseOverlay | components/Game.tsx:369-374 | space in an overlay closes the dialogue, the shop or the chest |
| Game.World.Act | components/Game.tsx:376-553 | the interaction rules in order: attack, talk, bounds, then the tile in front |
| Game.World.Hit | components/Game.tsx:383-390 | the sword hit: the damage text and the filtered monster list |
| Game.World.Talk | components/Game.tsx:395-413 | the NPC branch: affection once a day, a line, the dialogue screen and the pickup sound |
| Game.World.Befriend | components/Game.tsx:401-409 | today's affection and the heart text |
| Game.World.UseTarget | components/Game.tsx:417-551 | the mailbox opens the shop, the bin ships, a chest opens, and any other tile is worked |
| Game.World.Ship | components/Game.tsx:422-435 | the shipping bin sells the selected stack when it has a sell price |
| Game.World.OpenChest | components/Game.tsx:437-446 | the chest's slots are created on first use and the chest screen opens |
| Game.World.WorkTile | components/Game.tsx:449-551 | the grid updater on the tile in front, with its deferred follow-ups |
| Game.World.Reap | components/Game.tsx:456-465 | the harvested plot is written back, then the harvest callback runs |
| Game.World.UseTool | components/Game.tsx:480-551 | the worked tile is written back with its sounds, then the tool's follow-ups run |
| Game.World.HarvestFollowUp | components/Game.tsx:458-461 | the harvest callback: one unit of the crop and its name as a floating text |
| Game.World.ToolFollowUp | components/Game.tsx:483-542 | the tool's follow-ups: the item, the energy, the swing |
| Game.World.Consume | components/Game.tsx:483-504 | the placed chest or seed leaves the hotbar slot; a broken node's drop enters the inventory |
| Game.World.HandleSlotClick | components/Game.tsx:556-606 | handleSlotClick on the backpack or the open chest produces the SlotClicked state and keeps the invariant |
| Game.World.DeleteCursorItem | components/Game.tsx:608-610 | the trash slot empties the cursor and keeps the invariant |
| Game.World.HandleRightClick | components/Game.tsx:634-653 | handleRightClick produces the Eaten state and keeps the invariant |
| Game.World.Eat | components/Game.tsx:639-648 | one unit of the food is eaten, with capped energy and a floating text |
| Game.World.DecayFloatingTexts | components/Game.tsx:147-153 | the decay ticker produces the TextsDecayed state and keeps the invariant |
| Game.World.SelectSlot | components/Game.tsx:677-681 | a hotbar selection produces the SlotSelected state and keeps the invariant |
| Game.World.ToggleInventory | components/Game.tsx:657-664 | 'e' produces the InventoryToggled state and keeps the invariant |
| Game.World.Escape | components/Game.tsx:665-669 | Escape produces the Escaped state and keeps the invariant |

## Left out

- Rendering is not modelled. This covers the JSX section of components/Game.tsx, PixelArt.tsx, Intro.tsx and App.tsx. The tap-to-interact tile handler (components/Game.tsx:778-793) is rendering glue: it sets the facing and then calls handleInteract, which is modelled.
- Audio is recorded only as cue tags; Web Audio synthesis is a foreign API.
- Loading a saved game is left out: `localStorage` and JSON parsing are I/O, and a loaded state is unconstrained.
- Saving is recorded as a snapshot value. The 100 ms autosave reads the player after the sleep reset, and the snapshot holds that player.
- Timers that only affect presentation are left out: message expiry, the 300 ms swing reset, the tooltip and long-press timers. The `Date.now()` ids of floating texts are left out too.
- Concurrency is left out. The interleaving of the `setInterval` tickers, React batching and StrictMode double rendering are not modelled. Each handler or tick is one atomic method call.
- Floating point is left out. Distances are compared as integer squared distances (`Math.sqrt(d) < 1.1` becomes `d ≤ 1`, `< 5` becomes `d < 25`). `Math.floor(money * 0.1)` becomes `money / 10` on non-negative money. Floating-text drift is exact on reals.
- Game.World.AddToInventory, Game.World.Consume, Game.World.Eat, Game.World.HandleSlotClick: in-place mutation of item objects shared between old and new inventory arrays (`n[i]!.count--`, `targetItem.count += …`) is modelled on values. The model does not capture the aliasing this creates between the previous state and the next.
- Game.World.WorkTile, Simulation.TileWorked: the World applies the corrected harvest of the Findings table. It passes the harvested crop to the callback, which adds one unit; the source's callback reads the cleared crop and throws, so it adds nothing (Simulation.HarvestAsWrittenAddsNothing).
- Game.World.Talk, Game.World.Befriend, Simulation.TalkedWith, Simulation.GainedAffection: the World applies the corrected affection rule of the Findings table. It records the day of the year (Social.Today) in lastTalked and refuses only a second talk on the same day; the source records the day of the season and compares with `<` (Social.CanGainAffectionAsWritten). Social.CanGainAffection still refuses an NPC talked to exactly one year (112 days) earlier and never since, because the game keeps no year count.
- Stale closures are not modelled. handleInteract reads `grids` and `gameState.day` as captured when the callback was last rebuilt (its dependency list omits them). The model reads the current state.
- Interacted: every JavaScript caller of handleInteract runs it only while playing, so its overlay-closing branch is modelled but unreachable in practice. A dialogue is left only with Escape, although it reads "PRESS SPACE".
- Left out because the source does not implement them:
  - daily crop growth;
  - the watering reset;
  - weather changes;
  - buying in the shop.
- The tile types' `tree` field and the unused crop fields (`daysGrown`, `isWatered`) are carried but never read.
- The fallback to the SUNNY lines (components/Game.tsx:397) is never taken, because every weather has its own non-empty list (Social.Lines).
- Item names live in `Catalog.ItemName` rather than in the entries, so that proofs about the entries do not carry long strings.
- Random damage, line picks and monster rolls are inputs; `Math.random()` itself is not modelled.

## Findings

| source | as written | input that shows it | evidently intended | confidence | as-written member | corrected member |
|---|---|---|---|---|---|---|
| components/Game.tsx:456-465 | the deferred harvest callback reads `tile.crop!.id` after `tile.crop = undefined` has already run, so it throws before adding anything | any ripe crop (stage ≥ 4, not dead) harvested with any item selected | the harvested crop's id gets one unit and "+ 1 name" floats over the plot | high, not executed | Simulation.HarvestAsWrittenAddsNothing | Simulation.HarvestAddsOne |
| components/Game.tsx:401-405 | `lastTalked` records the day of the season and affection needs `lastTalked < gameState.day`, but the day restarts at 1 after day 28 | an NPC befriended on day 28; after the forced sleep it is day 1 of the next season and 28 < 1 fails, and as no day exceeds 28 it never earns affection again | affection once per calendar day: a first talk on any later day earns it | high, not executed | Social.RolloverLocksAffection | Social.EarnsAgainNextDay |
