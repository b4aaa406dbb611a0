// The Game component of components/Game.tsx as an object: its fields are
// the React state, and each handler or ticker is a method that updates the
// fields in place, following the source's control flow. Every method is
// proved to produce the state the matching step function of the
// Simulation module describes, which is where the properties are proved.
module Game {
  import opened Util
  import opened Records
  import opened Catalog
  import opened Inventory
  import opened Generator
  import opened Feedback
  import opened Clock
  import opened Combat
  import opened Movement
  import opened Farming
  import opened Social
  import opened Simulation

  class World {
    var grids: map<Scene, Grid>
    var player: Player
    var gameState: GameState
    var npcs: seq<Npc>
    var monsters: seq<Monster>
    var containers: map<string, seq<Slot>>
    var activeContainer: Option<string>
    var uiMode: UIMode
    var currentScene: Scene
    var message: Option<Message>
    var dialogue: Option<Dialogue>
    var floatingTexts: seq<FloatingText>
    var walkFrame: int
    var isSwinging: bool
    var sounds: seq<Sound>
    var saved: Option<Snapshot>

    /** The fields as one value. */
    function State(): WorldState
      reads this
    {
      WorldState(grids, player, gameState, npcs, monsters, containers, activeContainer, uiMode,
                 currentScene, message, dialogue, floatingTexts, walkFrame, isSwinging, sounds, saved)
    }

    predicate Valid()
      reads this
    {
      StateOk(State())
    }

    /** A new game: the four grids generated in order from one stream of draws, and the initial records. */
    constructor (draws: seq<real>)
      requires |draws| >= 4 * MAX_DRAWS
      ensures State() == InitialState(draws)
      ensures Valid()
    {
      var farm, k1 := GenerateGrid(Farm, draws);
      var town, k2 := GenerateGrid(Town, draws[k1..]);
      var mine, k3 := GenerateGrid(Mine, draws[k1 + k2..]);
      var house, _ := GenerateGrid(House, draws[k1 + k2 + k3..]);
      var generated := map[Farm := farm, Town := town, Mine := mine, House := house];
      assert generated == InitialGrids(draws);
      grids := generated;
      player := Player(8, 6, Down, MAX_ENERGY, 100, 100, 100, 50, InitialInventory(), 0, None);
      gameState := GameState(1, START_TIME, 0, Sunny, false);
      npcs := InitialNpcs();
      monsters := InitialMonsters();
      containers := map[];
      activeContainer := None;
      uiMode := Playing;
      currentScene := Farm;
      message := None;
      dialogue := None;
      floatingTexts := [];
      walkFrame := 0;
      isSwinging := false;
      sounds := [];
      saved := None;
      InitialStateOk(draws);
    }

    /** The time ticker: ten minutes, and the forced sleep at END_TIME. */
    method TimeTick()
      requires Valid()
      modifies this
      ensures State() == Ticked(old(State()))
      ensures Valid()
    {
      TickKeepsStateOk(State());
      if gameState.isPaused || uiMode != Playing {
        return;
      }
      var t := ClockTick(gameState);
      gameState := t.state;
      if t.slept {
        var m := ForcedSleep;
        if t.newSeason {
          m := SeasonArrives(SEASONS[gameState.seasonIdx]);
        }
        WakeUp(m);
      }
    }

    /** The side effects of the clock's rollover: message, player reset, scene change and autosave. */
    method WakeUp(m: Message)
      modifies this
      ensures State() == WokenUp(old(State()), m)
    {
      message := Some(m);
      player := player.(x := SPAWN_X, y := SPAWN_Y, energy := player.maxEnergy, hp := player.maxHp);
      currentScene := Farm;
      saved := Some(Snapshot(player, grids, containers, gameState, monsters, npcs, Farm));
    }

    /** The monster ticker; `rolls[i]` is monster i's draw. */
    method MonsterTick(rolls: seq<real>)
      requires Valid() && |rolls| == |monsters|
      modifies this
      ensures State() == MonstersActed(old(State()), rolls)
      ensures Valid()
    {
      MonstersKeepStateOk(State(), rolls);
      if uiMode != Playing {
        return;
      }
      var px, py := player.x, player.y;
      var hits := ApplyHits(player, AttackDamages(monsters, rolls, currentScene, px, py), floatingTexts);
      monsters := StepAll(monsters, currentScene, px, py, rolls);
      player := hits.player;
      floatingTexts := hits.texts;
      if hits.lastLost.Some? {
        Faint(hits.lastLost.value);
      }
    }

    /** A monster's hit took the player's last hp. */
    method Faint(lost: int)
      modifies this
      ensures State() == Fainted(old(State()), lost)
    {
      message := Some(PassedOut(lost));
      currentScene := Farm;
      gameState := gameState.(time := START_TIME);
    }

    /** handleMove: the first of the move rules that applies decides the outcome. */
    method HandleMove(dx: int, dy: int)
      requires Valid()
      modifies this
      ensures State() == AfterMove(old(State()), dx, dy)
      ensures Valid()
    {
      MoveKeepsStateOk(State(), dx, dy);
      if uiMode != Playing {
        return;
      }
      var outcome := ResolveMove(grids[currentScene], npcs, currentScene, player.x, player.y, dx, dy);
      Step(outcome, dx, dy);
    }

    /** The resolved move applied. */
    method Step(outcome: MoveOutcome, dx: int, dy: int)
      modifies this
      ensures State() == MoveApplied(old(State()), outcome, dx, dy)
    {
      player := Moved(player, outcome, dx, dy);
      currentScene := MovedScene(currentScene, outcome);
      if outcome == Walked {
        walkFrame := (walkFrame + 1) % 2;
        sounds := sounds + [StepSound];
      }
    }

    /** addToInventory: grow the first stack of `id`, else fill the first empty slot, else report. */
    method AddToInventory(id: int, count: int)
      modifies this
      ensures State() == Added(old(State()), id, count)
    {
      var inv := player.inventory;
      var existingIdx := FindId(inv, id);
      if existingIdx != -1 {
        inv := inv[existingIdx := Some(ItemInstance(id, inv[existingIdx].value.count + count))];
      } else {
        var emptyIdx := FindEmpty(inv);
        if emptyIdx != -1 {
          inv := inv[emptyIdx := Some(ItemInstance(id, count))];
        } else {
          message := Some(InventoryFull);
          return;
        }
      }
      player := player.(inventory := inv);
    }

    /** handleInteract: close an overlay, or act on the tile in front. */
    method HandleInteract(damageRoll: real, lineRoll: real)
      requires Valid() && 0.0 <= damageRoll < 1.0 && 0.0 <= lineRoll < 1.0
      modifies this
      ensures State() == Interacted(old(State()), damageRoll, lineRoll)
      ensures Valid()
    {
      InteractKeepsStateOk(State(), damageRoll, lineRoll);
      if uiMode != Playing {
        CloseOverlay();
      } else {
        Act(damageRoll, lineRoll);
      }
    }

    /** Space in an overlay: close the dialogue, the shop or the chest. */
    method CloseOverlay()
      modifies this
      ensures State() == OverlayClosed(old(State()))
    {
      if uiMode == DialogueScreen {
        uiMode := Playing;
        dialogue := None;
      } else if uiMode == ShopScreen {
        uiMode := Playing;
      } else if uiMode == ChestScreen {
        uiMode := Playing;
        activeContainer := None;
      }
    }

    /** The rules of handleInteract in order: attack, talk, then the object or the tile in front. */
    method Act(damageRoll: real, lineRoll: real)
      requires Valid() && 0.0 <= damageRoll < 1.0 && 0.0 <= lineRoll < 1.0
      modifies this
      ensures State() == Acted(old(State()), damageRoll, lineRoll)
    {
      var (tx, ty) := TargetCoords(player.x, player.y, player.facing);
      var slotItem := player.inventory[player.selectedSlot];
      // 1. Attack
      if slotItem.Some? && Def(slotItem.value.id).action == Some(AttackAction) {
        var hit := FirstMonsterAt(monsters, currentScene, tx, ty);
        if hit >= 0 {
          Hit(monsters[hit].id, SwordDamage(damageRoll), tx, ty);
          return;
        }
      }
      // 2. NPC interaction
      var talkTo := FirstNpcAt(npcs, currentScene, tx, ty);
      if talkTo >= 0 {
        Talk(npcs[talkTo], lineRoll, tx, ty);
        return;
      }
      if InBounds(tx, ty) {
        UseTarget(tx, ty);
      }
    }

    /** The sword hits monster `id`. */
    method Hit(id: int, damage: int, tx: int, ty: int)
      modifies this
      ensures State() == MonsterStruck(old(State()), id, damage, tx, ty)
    {
      floatingTexts := Spawn(floatingTexts, tx, ty, DamageDealt(damage));
      monsters := Strike(monsters, id, damage);
    }

    /** The NPC branch of handleInteract. */
    method Talk(n: Npc, lineRoll: real, tx: int, ty: int)
      requires ClockValid(gameState) && 0.0 <= lineRoll < 1.0
      modifies this
      ensures State() == TalkedWith(old(State()), n, lineRoll, tx, ty)
    {
      var lines := Lines(n.variant, gameState.weather);
      if CanGainAffection(n, gameState) {
        Befriend(n, tx, ty);
      }
      dialogue := Some(Dialogue(n.name, PickLine(lines, lineRoll)));
      uiMode := DialogueScreen;
      sounds := sounds + [PickupSound];
    }

    /** The NPC earns today's affection. */
    method Befriend(n: Npc, tx: int, ty: int)
      requires ClockValid(gameState)
      modifies this
      ensures State() == GainedAffection(old(State()), n, tx, ty)
    {
      npcs := TalkedTo(npcs, n.id, Today(gameState));
      floatingTexts := Spawn(floatingTexts, tx, ty, AffectionGain);
    }

    /** The object on the in-bounds tile in front: mailbox, shipping bin, chest, or none of them. */
    method UseTarget(tx: int, ty: int)
      requires Valid() && InBounds(tx, ty)
      modifies this
      ensures State() == TargetUsed(old(State()), tx, ty)
    {
      var objectId := grids[currentScene][ty][tx].objectId;
      if objectId == Some(998) {
        uiMode := ShopScreen;
        sounds := sounds + [PickupSound];
      } else if objectId == Some(999) {
        Ship(tx, ty);
      } else if objectId == Some(130) {
        OpenChest(tx, ty);
      } else {
        WorkTile(tx, ty);
      }
    }

    /** The shipping-bin branch of handleInteract. */
    method Ship(tx: int, ty: int)
      requires PlayerOk(player)
      modifies this
      ensures State() == Shipped(old(State()), tx, ty)
    {
      var slotItem := player.inventory[player.selectedSlot];
      if slotItem.Some? {
        var def := Def(slotItem.value.id);
        if def.sellPrice > 0 {
          var value := def.sellPrice * slotItem.value.count;
          var n := player.inventory;
          n := n[player.selectedSlot := None];
          player := player.(money := player.money + value, inventory := n);
          floatingTexts := Spawn(floatingTexts, tx, ty, Earned(value));
        }
      }
    }

    /** The chest branch of handleInteract: create the chest's slots on first use and open it. */
    method OpenChest(tx: nat, ty: nat)
      modifies this
      ensures State() == ChestOpened(old(State()), tx, ty)
    {
      var containerKey := ContainerKey(currentScene, tx, ty);
      if containerKey !in containers {
        containers := containers[containerKey := seq(CHEST_SLOTS, _ => None)];
      }
      activeContainer := Some(containerKey);
      uiMode := ChestScreen;
    }

    /** The grid updater of handleInteract, then its deferred follow-ups. */
    method WorkTile(tx: int, ty: int)
      requires Valid() && InBounds(tx, ty)
      modifies this
      ensures State() == TileWorked(old(State()), tx, ty)
    {
      var tile := grids[currentScene][ty][tx];
      var outcome := ActOnTile(tile, player.inventory[player.selectedSlot], player.energy, gameState.seasonIdx);
      match outcome
      case Harvested(t, produce) =>
        Reap(tx, ty, t, tile.crop, ItemName(produce));
      case Exhausted =>
        message := Some(NotEnoughEnergy);
      case OutOfSeason =>
        message := Some(WrongSeason);
      case Used(t, use, cost, swing) =>
        UseTool(tx, ty, t, use, cost, swing);
      case Untouched =>
    }

    /** The harvested plot is written back, then the deferred callback runs. */
    method Reap(tx: int, ty: int, t: Tile, crop: Option<Crop>, name: string)
      requires GridsOk(grids) && InBounds(tx, ty)
      modifies this
      ensures State() == HarvestCallback(old(State()).(grids := SetTile(old(grids), old(currentScene), tx, ty, t)), crop, name, tx, ty)
    {
      grids := SetTile(grids, currentScene, tx, ty, t);
      HarvestFollowUp(crop, name, tx, ty);
    }

    /** The worked tile is written back with its cues, then the tool's follow-ups run. */
    method UseTool(tx: int, ty: int, t: Tile, use: ToolUse, cost: int, swing: bool)
      requires GridsOk(grids) && InBounds(tx, ty) && PlayerOk(player)
      requires use == ChestPlaced || use == Planted ==> player.inventory[player.selectedSlot].Some?
      modifies this
      ensures State() == ToolFinished(old(State()).(grids := SetTile(old(grids), old(currentScene), tx, ty, t),
                                                    sounds := old(sounds) + UseSounds(use)), use, cost, swing)
    {
      grids := SetTile(grids, currentScene, tx, ty, t);
      sounds := sounds + UseSounds(use);
      ToolFollowUp(use, cost, swing);
    }

    /** The harvest's deferred callback, given the crop it reads. */
    method HarvestFollowUp(crop: Option<Crop>, name: string, tx: int, ty: int)
      modifies this
      ensures State() == HarvestCallback(old(State()), crop, name, tx, ty)
    {
      if crop.Some? {
        AddToInventory(crop.value.id, 1);
        floatingTexts := Spawn(floatingTexts, tx, ty, Picked(name));
      }
    }

    /** A tool use's deferred follow-ups: the item, the energy, the swing. */
    method ToolFollowUp(use: ToolUse, cost: int, swing: bool)
      requires PlayerOk(player)
      requires use == ChestPlaced || use == Planted ==> player.inventory[player.selectedSlot].Some?
      modifies this
      ensures State() == ToolFinished(old(State()), use, cost, swing)
    {
      Consume(use);
      if cost > 0 {
        player := player.(energy := Spent(player.energy, cost));
      }
      if swing {
        isSwinging := true;
      }
    }

    /** The chest or seed placed leaves the hotbar; a broken node's drop enters the inventory. */
    method Consume(use: ToolUse)
      requires PlayerOk(player)
      requires use == ChestPlaced || use == Planted ==> player.inventory[player.selectedSlot].Some?
      modifies this
      ensures State() == Consumed(old(State()), use)
    {
      if use == ChestPlaced || use == Planted {
        player := player.(inventory := TakeOne(player.inventory, player.selectedSlot));
      } else if use.Broken? && Truthy(use.drop) {
        AddToInventory(use.drop.value, 1);
      }
    }

    /** handleSlotClick on slot `index` of the backpack or the open chest: place, pick up, stack or swap. */
    method HandleSlotClick(index: int, source: SlotSource)
      requires Valid() && ClickInRange(State(), index, source)
      modifies this
      ensures State() == SlotClicked(old(State()), index, source)
      ensures Valid()
    {
      SlotClickKeepsStateOk(State(), index, source);
      if source == PlayerSlots {
        var (cursor, slots) := ClickSlot(player.cursorItem, player.inventory, index);
        player := player.(cursorItem := cursor, inventory := slots);
      } else {
        var key := activeContainer.value;
        var (cursor, slots) := ClickSlot(player.cursorItem, containers[key], index);
        player := player.(cursorItem := cursor);
        containers := containers[key := slots];
      }
    }

    /** deleteCursorItem: the trash slot. */
    method DeleteCursorItem()
      requires Valid()
      modifies this
      ensures State() == CursorDeleted(old(State()))
      ensures Valid()
    {
      player := player.(cursorItem := None);
    }

    /** handleRightClick: eat one unit of the food in slot `index`. */
    method HandleRightClick(index: int)
      requires Valid() && 0 <= index < INVENTORY_SIZE
      modifies this
      ensures State() == Eaten(old(State()), index)
      ensures Valid()
    {
      EatKeepsStateOk(State(), index);
      var item := player.inventory[index];
      if item.None? {
        return;
      }
      var def := Def(item.value.id);
      if def.edible && def.energyRestore > 0 {
        Eat(index, def.energyRestore);
      } else {
        message := Some(NotEdible);
      }
    }

    /** One unit of the food in slot `index` is eaten. */
    method Eat(index: int, restore: int)
      requires PlayerOk(player) && 0 <= index < INVENTORY_SIZE && player.inventory[index].Some?
      modifies this
      ensures State() == Fed(old(State()), index, restore)
    {
      var newEnergy := Min(player.maxEnergy, player.energy + restore);
      floatingTexts := Spawn(floatingTexts, player.x, player.y, EnergyGain(restore));
      player := player.(energy := newEnergy, inventory := TakeOne(player.inventory, index));
    }

    /** The 30 ms floating-text ticker. */
    method DecayFloatingTexts()
      requires Valid()
      modifies this
      ensures State() == TextsDecayed(old(State()))
      ensures Valid()
    {
      floatingTexts := Decayed(floatingTexts);
    }

    /** Keys 1-5 and the hotbar: select slot `index`. */
    method SelectSlot(index: int)
      requires Valid() && 0 <= index < HOTBAR_SIZE
      modifies this
      ensures State() == SlotSelected(old(State()), index)
      ensures Valid()
    {
      if uiMode == Playing {
        player := player.(selectedSlot := index);
      }
    }

    /** The 'e' key. */
    method ToggleInventory()
      requires Valid()
      modifies this
      ensures State() == InventoryToggled(old(State()))
      ensures Valid()
    {
      if uiMode == Playing {
        uiMode := InventoryScreen;
      } else if uiMode == InventoryScreen || uiMode == ChestScreen {
        uiMode := Playing;
        activeContainer := None;
      }
    }

    /** The Escape key. */
    method Escape()
      requires Valid()
      modifies this
      ensures State() == Escaped(old(State()))
      ensures Valid()
    {
      if uiMode != Playing {
        uiMode := Playing;
        activeContainer := None;
      }
    }
  }
}
