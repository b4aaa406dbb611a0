// The whole React state of components/Game.tsx as one value, and every
// handler and ticker as a function from the state before to the state
// after. Deferred `setTimeout(..., 0)` follow-ups run as the last part of
// the same step. Sounds are recorded as a log of cues and the autosave as
// the last snapshot written.
module Simulation {
  import opened Util
  import opened Records
  import opened Catalog
  import opened Inventory
  import opened Generator
  import opened Feedback
  import opened Clock
  import opened Combat
  import opened Movement
  import opened Farming
  import opened Social

  /** The record saveGame writes. */
  datatype Snapshot = Snapshot(
    player: Player,
    grids: map<Scene, Grid>,
    containers: map<string, seq<Slot>>,
    gameState: GameState,
    monsters: seq<Monster>,
    npcs: seq<Npc>,
    currentScene: Scene)

  datatype WorldState = WorldState(
    grids: map<Scene, Grid>,
    player: Player,
    gameState: GameState,
    npcs: seq<Npc>,
    monsters: seq<Monster>,
    containers: map<string, seq<Slot>>,
    activeContainer: Option<string>,
    uiMode: UIMode,
    currentScene: Scene,
    message: Option<Message>,
    dialogue: Option<Dialogue>,
    floatingTexts: seq<FloatingText>,
    walkFrame: int,
    isSwinging: bool,
    sounds: seq<Sound>,
    saved: Option<Snapshot>)

  /** The slots of a chest (`Array(9).fill(null)`). */
  const CHEST_SLOTS: int := 9

  // ---------------------------------------------------------------------
  // The states the game can reach

  predicate GridsOk(grids: map<Scene, Grid>)
  {
    forall s: Scene :: s in grids && GridOk(grids[s])
  }

  predicate PlayerOk(p: Player)
  {
    && VitalsOk(p)
    && |p.inventory| == INVENTORY_SIZE && SlotsOk(p.inventory)
    && SlotOk(p.cursorItem)
    && 0 <= p.selectedSlot < HOTBAR_SIZE
  }

  predicate ContainersOk(c: map<string, seq<Slot>>)
  {
    forall key :: key in c ==> |c[key]| == CHEST_SLOTS && SlotsOk(c[key])
  }

  predicate MonsterOk(m: Monster)
  {
    m.hp > 0 && m.damage >= 0 && InBounds(m.x, m.y)
  }

  predicate MonstersOk(ms: seq<Monster>)
  {
    forall i :: 0 <= i < |ms| ==> MonsterOk(ms[i])
  }

  predicate NpcsOk(npcs: seq<Npc>)
  {
    forall i :: 0 <= i < |npcs| ==> AffectionOk(npcs[i])
  }

  /**
   * Every scene has a well-formed grid, the player's vitals and slots are
   * in range, the clock is valid, every chest has nine well-formed slots,
   * a chest is open exactly on the chest screen, the dialogue screen has a
   * dialogue, monsters are alive and on the grid, affection is in range.
   */
  predicate StateOk(w: WorldState)
  {
    && GridsOk(w.grids)
    && PlayerOk(w.player)
    && ClockValid(w.gameState)
    && ContainersOk(w.containers)
    && (w.activeContainer.Some? <==> w.uiMode == ChestScreen)
    && (w.activeContainer.Some? ==> w.activeContainer.value in w.containers)
    && (w.uiMode == DialogueScreen ==> w.dialogue.Some?)
    && MonstersOk(w.monsters)
    && NpcsOk(w.npcs)
    && 0 <= w.walkFrame < 2
  }

  // ---------------------------------------------------------------------
  // Small pieces shared by the steps

  /** The tile (x, y) of the scene's grid replaced by `t`. */
  function SetTile(grids: map<Scene, Grid>, scene: Scene, x: int, y: int, t: Tile): (r: map<Scene, Grid>)
    requires GridsOk(grids) && InBounds(x, y)
    ensures r.Keys == grids.Keys
    ensures forall s :: s in grids && s != scene ==> r[s] == grids[s]
    ensures Shaped(r[scene]) && r[scene][y][x] == t
    ensures forall v, u :: 0 <= v < GRID_H && 0 <= u < GRID_W && (v, u) != (y, x) ==> r[scene][v][u] == grids[scene][v][u]
  {
    grids[scene := grids[scene][y := grids[scene][y][x := t]]]
  }

  lemma SetTileKeepsGridsOk(grids: map<Scene, Grid>, scene: Scene, x: int, y: int, t: Tile)
    requires GridsOk(grids) && InBounds(x, y) && TileOk(t)
    ensures GridsOk(SetTile(grids, scene, x, y, t))
  {
    var r := SetTile(grids, scene, x, y, t);
    forall s: Scene
      ensures s in r && GridOk(r[s])
    {
      assert s in grids && GridOk(grids[s]);
      if s == scene {
        forall v, u | 0 <= v < GRID_H && 0 <= u < GRID_W
          ensures TileOk(r[s][v][u])
        {
          if (v, u) != (y, x) {
            assert TileOk(grids[s][v][u]);
          }
        }
      }
    }
  }

  /** The key of the chest at (x, y): `${scene}_${x}_${y} `, with its trailing space. */
  function ContainerKey(scene: Scene, x: nat, y: nat): (key: string)
    ensures |key| > |SceneName(scene)| + 1
    ensures key[|key| - 1] == ' '
    ensures key[..|SceneName(scene)| + 1] == SceneName(scene) + "_"
  {
    SceneName(scene) + "_" + NatToString(x) + "_" + NatToString(y) + " "
  }

  /** The slot under the hotbar selection. */
  function Selected(w: WorldState): Slot
    requires PlayerOk(w.player)
  {
    w.player.inventory[w.player.selectedSlot]
  }

  /** The player in front of whom the interaction happens. */
  function Target(w: WorldState): (int, int)
  {
    TargetCoords(w.player.x, w.player.y, w.player.facing)
  }

  // ---------------------------------------------------------------------
  // The initial state

  function InitialNpcs(): seq<Npc>
  {
    [ Npc("may1", "Mayor Lewis", Mayor, Town, 10, 5, Left, None, None),
      Npc("gra1", "Granny Ella", Granny, Town, 6, 8, Right, None, None) ]
  }

  function InitialMonsters(): seq<Monster>
  {
    [ Monster(1, Slime, Mine, 8, 8, 20, 20, 5),
      Monster(2, Slime, Mine, 12, 4, 20, 20, 5) ]
  }

  function InitialPlayer(): Player
  {
    Player(8, 6, Down, MAX_ENERGY, 100, 100, 100, 50, InitialInventory(), 0, None)
  }

  /** The four grids, generated in the order FARM, TOWN, MINE, HOUSE from one stream of draws. */
  function InitialGrids(draws: seq<real>): map<Scene, Grid>
    requires |draws| >= 4 * MAX_DRAWS
  {
    var (farm, k1) := GridUpTo(Farm, GRID_H, draws);
    var (town, k2) := GridUpTo(Town, GRID_H, draws[k1..]);
    var (mine, k3) := GridUpTo(Mine, GRID_H, draws[k1 + k2..]);
    var (house, _) := GridUpTo(House, GRID_H, draws[k1 + k2 + k3..]);
    map[Farm := farm, Town := town, Mine := mine, House := house]
  }

  function InitialState(draws: seq<real>): WorldState
    requires |draws| >= 4 * MAX_DRAWS
  {
    WorldState(
      InitialGrids(draws), InitialPlayer(), GameState(1, START_TIME, 0, Sunny, false),
      InitialNpcs(), InitialMonsters(), map[], None, Playing, Farm,
      None, None, [], 0, false, [], None)
  }

  /** The game starts in a well-formed state. */
  lemma InitialStateOk(draws: seq<real>)
    requires |draws| >= 4 * MAX_DRAWS
    ensures StateOk(InitialState(draws))
  {
    InitialGridsOk(draws);
    InitialPlayerOk();
  }

  lemma InitialGridsOk(draws: seq<real>)
    requires |draws| >= 4 * MAX_DRAWS
    ensures GridsOk(InitialGrids(draws))
  {
    var (farm, k1) := GridUpTo(Farm, GRID_H, draws);
    var (town, k2) := GridUpTo(Town, GRID_H, draws[k1..]);
    var (mine, k3) := GridUpTo(Mine, GRID_H, draws[k1 + k2..]);
    var (house, _) := GridUpTo(House, GRID_H, draws[k1 + k2 + k3..]);
    GridIsGenerated(Farm, draws);
    GeneratedGridOk(Farm, farm);
    GridIsGenerated(Town, draws[k1..]);
    GeneratedGridOk(Town, town);
    GridIsGenerated(Mine, draws[k1 + k2..]);
    GeneratedGridOk(Mine, mine);
    GridIsGenerated(House, draws[k1 + k2 + k3..]);
    GeneratedGridOk(House, house);
    var g := InitialGrids(draws);
    forall s: Scene ensures s in g && GridOk(g[s]) {
      match s
      case Farm => assert g[s] == farm;
      case Town => assert g[s] == town;
      case Mine => assert g[s] == mine;
      case House => assert g[s] == house;
    }
  }

  lemma InitialPlayerOk()
    ensures PlayerOk(InitialPlayer())
  {
    var inv := InitialInventory();
    assert SlotsOk(inv) by {
      forall i | 0 <= i < |inv| ensures SlotOk(inv[i]) {
        if i >= 9 { assert inv[i] == None; }
      }
    }
  }

  // ---------------------------------------------------------------------
  // The clock (components/Game.tsx:160-206)

  /**
   * The forced sleep, once the clock has rolled over: the player wakes at
   * the farm spawn with full energy and hp, message `m` is shown, and the
   * game is saved.
   */
  function WokenUp(w: WorldState, m: Message): (r: WorldState)
  {
    var p := w.player.(x := SPAWN_X, y := SPAWN_Y, energy := w.player.maxEnergy, hp := w.player.maxHp);
    w.(player := p, currentScene := Farm, message := Some(m),
       saved := Some(Snapshot(p, w.grids, w.containers, w.gameState, w.monsters, w.npcs, Farm)))
  }

  /** The world after one TIME_TICK_INTERVAL. */
  function Ticked(w: WorldState): (r: WorldState)
    requires StateOk(w)
  {
    if w.gameState.isPaused || w.uiMode != Playing then w
    else
      var t := ClockTick(w.gameState);
      var w1 := w.(gameState := t.state);
      if !t.slept then w1
      else WokenUp(w1, if t.newSeason then SeasonArrives(SEASONS[t.state.seasonIdx]) else ForcedSleep)
  }

  lemma TickKeepsStateOk(w: WorldState)
    requires StateOk(w)
    ensures StateOk(Ticked(w))
  {
    TickAdvancesCalendar(w.gameState);
  }

  /**
   * The forced sleep: at END_TIME the player wakes at the farm spawn with
   * full energy and hp at START_TIME of the next day, and the autosave
   * records exactly that state; before it, a tick only moves the clock.
   */
  lemma SleepRestoresPlayer(w: WorldState)
    requires StateOk(w) && !w.gameState.isPaused && w.uiMode == Playing
    ensures var r := Ticked(w);
            if w.gameState.time + TICK_MINUTES >= END_TIME then
              && r.gameState.time == START_TIME
              && DayOfYear(r.gameState) == (DayOfYear(w.gameState) + 1) % (SEASON_COUNT * DAYS_PER_SEASON)
              && (r.player.x, r.player.y) == (SPAWN_X, SPAWN_Y) && r.currentScene == Farm
              && r.player.energy == r.player.maxEnergy && r.player.hp == r.player.maxHp
              && r.player.inventory == w.player.inventory && r.player.money == w.player.money
              && r.saved == Some(Snapshot(r.player, r.grids, r.containers, r.gameState, r.monsters, r.npcs, Farm))
            else
              r == w.(gameState := w.gameState.(time := w.gameState.time + TICK_MINUTES))
  {
    TickAdvancesCalendar(w.gameState);
  }

  /** A paused game, or one showing an overlay, does not tick. */
  lemma OverlayStopsClock(w: WorldState)
    requires StateOk(w) && w.uiMode != Playing
    ensures Ticked(w) == w
  {
  }

  // ---------------------------------------------------------------------
  // The monster AI (components/Game.tsx:226-281)

  /**
   * One AI tick: every monster in the player's scene with a roll of at
   * most 0.3 acts on the player's position before the tick; the hits are
   * applied in monster order, and a faint sends the player home at
   * START_TIME with the last faint's message.
   */
  function MonstersActed(w: WorldState, rolls: seq<real>): (r: WorldState)
    requires StateOk(w) && |rolls| == |w.monsters|
  {
    if w.uiMode != Playing then w
    else
      var p := w.player;
      var moved := StepAll(w.monsters, w.currentScene, p.x, p.y, rolls);
      var h := ApplyHits(p, AttackDamages(w.monsters, rolls, w.currentScene, p.x, p.y), w.floatingTexts);
      var w1 := w.(monsters := moved, player := h.player, floatingTexts := h.texts);
      if h.lastLost.Some? then Fainted(w1, h.lastLost.value) else w1
  }

  /** Fainting: the player is sent to the farm at START_TIME with the hp lost shown. */
  function Fainted(w: WorldState, lost: int): WorldState
  {
    w.(message := Some(PassedOut(lost)), currentScene := Farm, gameState := w.gameState.(time := START_TIME))
  }

  lemma MonstersKeepStateOk(w: WorldState, rolls: seq<real>)
    requires StateOk(w) && |rolls| == |w.monsters|
    ensures StateOk(MonstersActed(w, rolls))
  {
    if w.uiMode == Playing {
      var p := w.player;
      var damages := AttackDamages(w.monsters, rolls, w.currentScene, p.x, p.y);
      var moved := StepAll(w.monsters, w.currentScene, p.x, p.y, rolls);
      var h := ApplyHits(p, damages, w.floatingTexts);
      HitsKeepVitals(p, damages, w.floatingTexts);
      StepAllKeepsMonstersOk(w.monsters, w.currentScene, p.x, p.y, rolls);
      var w1 := w.(monsters := moved, player := h.player, floatingTexts := h.texts);
      assert PlayerOk(w1.player);
      assert StateOk(w1);
    }
  }

  lemma StepAllKeepsMonstersOk(ms: seq<Monster>, scene: Scene, px: int, py: int, rolls: seq<real>)
    requires MonstersOk(ms) && |rolls| == |ms|
    ensures MonstersOk(StepAll(ms, scene, px, py, rolls))
  {
    var moved := StepAll(ms, scene, px, py, rolls);
    forall i | 0 <= i < |moved| ensures MonsterOk(moved[i]) {
      assert MonsterOk(ms[i]);
    }
  }

  /** Monsters never leave their scene and never change their health, id or damage on their own. */
  lemma MonstersOnlyMove(w: WorldState, rolls: seq<real>)
    requires StateOk(w) && |rolls| == |w.monsters|
    ensures var r := MonstersActed(w, rolls);
            |r.monsters| == |w.monsters|
            && forall i :: 0 <= i < |w.monsters| ==> r.monsters[i].(x := w.monsters[i].x, y := w.monsters[i].y) == w.monsters[i]
  {
    if w.uiMode == Playing {
      var moved := StepAll(w.monsters, w.currentScene, w.player.x, w.player.y, rolls);
      assert MonstersActed(w, rolls).monsters == moved;
    }
  }

  // ---------------------------------------------------------------------
  // Moving (components/Game.tsx:296-346)

  function AfterMove(w: WorldState, dx: int, dy: int): (r: WorldState)
    requires StateOk(w)
  {
    if w.uiMode != Playing then w
    else
      MoveApplied(w, ResolveMove(w.grids[w.currentScene], w.npcs, w.currentScene, w.player.x, w.player.y, dx, dy), dx, dy)
  }

  /** The move's outcome applied: the player and the scene, and for a walk the frame and the step cue. */
  function MoveApplied(w: WorldState, o: MoveOutcome, dx: int, dy: int): WorldState
  {
    var w1 := w.(player := Moved(w.player, o, dx, dy), currentScene := MovedScene(w.currentScene, o));
    if o == Walked then w1.(walkFrame := (w.walkFrame + 1) % 2, sounds := w.sounds + [StepSound]) else w1
  }

  lemma MoveKeepsStateOk(w: WorldState, dx: int, dy: int)
    requires StateOk(w)
    ensures StateOk(AfterMove(w, dx, dy))
  {
    if w.uiMode == Playing {
      MoveStaysOnGrid(w.grids[w.currentScene], w.npcs, w.currentScene, w.player, dx, dy);
    }
  }

  /**
   * A move changes the player's position exactly when it walks (by
   * (dx, dy), onto a free tile, with a step sound) or warps (to the warp's
   * coordinates and scene); only the player, the scene, the walk frame and
   * the sound log ever change.
   */
  lemma MoveOutcomes(w: WorldState, dx: int, dy: int)
    requires StateOk(w) && w.uiMode == Playing
    ensures var r := AfterMove(w, dx, dy);
            var g := w.grids[w.currentScene];
            var o := ResolveMove(g, w.npcs, w.currentScene, w.player.x, w.player.y, dx, dy);
            && r.(player := w.player, currentScene := w.currentScene, walkFrame := w.walkFrame, sounds := w.sounds) == w
            && (o == Walked ==> ((r.player.x, r.player.y) == (w.player.x + dx, w.player.y + dy)
                                 && r.currentScene == w.currentScene && r.sounds == w.sounds + [StepSound]
                                 && r.walkFrame != w.walkFrame))
            && (o.Warped? ==> (r.player.x, r.player.y, r.currentScene) == (o.warp.x, o.warp.y, o.warp.target))
            && (o != Walked && !o.Warped? ==> (r.player.x, r.player.y, r.currentScene) == (w.player.x, w.player.y, w.currentScene))
  {
  }

  // ---------------------------------------------------------------------
  // addToInventory (components/Game.tsx:348-366)

  function Added(w: WorldState, id: int, count: int): (r: WorldState)
  {
    if CanAdd(w.player.inventory, id) then
      w.(player := w.player.(inventory := AddedToInventory(w.player.inventory, id, count)))
    else
      w.(message := Some(InventoryFull))
  }

  lemma AddKeepsStateOk(w: WorldState, id: int, count: int)
    requires StateOk(w) && InCatalog(id) && count >= 1
    ensures StateOk(Added(w, id, count))
  {
    AddKeepsSlotsOk(w.player.inventory, id, count);
  }

  /** Adding gains `count` units of `id` and keeps every other item's units, or reports a full inventory. */
  lemma AddedConserves(w: WorldState, id: int, count: int, other: int)
    ensures var r := Added(w, id, count);
            && (CanAdd(w.player.inventory, id) ==> Total(r.player.inventory, id) == Total(w.player.inventory, id) + count)
            && (!CanAdd(w.player.inventory, id) ==> r == w.(message := Some(InventoryFull)))
            && (other != id ==> Total(r.player.inventory, other) == Total(w.player.inventory, other))
  {
    AddConserves(w.player.inventory, id, count, other);
  }

  // ---------------------------------------------------------------------
  // handleInteract (components/Game.tsx:368-553)

  /** Space in an overlay closes the dialogue, the shop or the chest; the backpack stays open. */
  function OverlayClosed(w: WorldState): (r: WorldState)
  {
    if w.uiMode == DialogueScreen then w.(uiMode := Playing, dialogue := None)
    else if w.uiMode == ShopScreen then w.(uiMode := Playing)
    else if w.uiMode == ChestScreen then w.(uiMode := Playing, activeContainer := None)
    else w
  }

  /** The selected item is a weapon (its action is `attack`). */
  predicate Wields(item: Slot)
    requires SlotOk(item)
  {
    item.Some? && Def(item.value.id).action == Some(AttackAction)
  }

  /** The sword hits monster `id` standing on (tx, ty). */
  function MonsterStruck(w: WorldState, id: int, damage: int, tx: int, ty: int): WorldState
  {
    w.(floatingTexts := Spawn(w.floatingTexts, tx, ty, DamageDealt(damage)),
       monsters := Strike(w.monsters, id, damage))
  }

  /** Talking to `n`: affection once a day, a line for today's weather, the dialogue screen. */
  function TalkedWith(w: WorldState, n: Npc, lineRoll: real, tx: int, ty: int): WorldState
    requires ClockValid(w.gameState) && 0.0 <= lineRoll < 1.0
  {
    var gs := w.gameState;
    var w1 := if CanGainAffection(n, gs) then GainedAffection(w, n, tx, ty) else w;
    w1.(dialogue := Some(Dialogue(n.name, PickLine(Lines(n.variant, gs.weather), lineRoll))),
        uiMode := DialogueScreen, sounds := w.sounds + [PickupSound])
  }

  /** The affection `n` earns today, with the heart floating over it. */
  function GainedAffection(w: WorldState, n: Npc, tx: int, ty: int): WorldState
    requires ClockValid(w.gameState)
  {
    w.(npcs := TalkedTo(w.npcs, n.id, Today(w.gameState)),
       floatingTexts := Spawn(w.floatingTexts, tx, ty, AffectionGain))
  }

  /** The shipping bin: the selected stack is sold whole when its entry has a sell price. */
  function Shipped(w: WorldState, tx: int, ty: int): WorldState
    requires PlayerOk(w.player)
  {
    var item := Selected(w);
    if item.Some? && Def(item.value.id).sellPrice > 0 then
      var value := Def(item.value.id).sellPrice * item.value.count;
      w.(player := w.player.(money := w.player.money + value,
                             inventory := w.player.inventory[w.player.selectedSlot := None]),
         floatingTexts := Spawn(w.floatingTexts, tx, ty, Earned(value)))
    else w
  }

  /** Opening the chest at (tx, ty): its nine empty slots are created on first use. */
  function ChestOpened(w: WorldState, tx: nat, ty: nat): WorldState
  {
    var key := ContainerKey(w.currentScene, tx, ty);
    w.(containers := if key in w.containers then w.containers else w.containers[key := seq(CHEST_SLOTS, _ => None)],
       activeContainer := Some(key), uiMode := ChestScreen)
  }

  /**
   * The deferred harvest callback, given what the tile's `crop` field holds
   * when the callback runs: one unit of the crop goes to the inventory and
   * its name floats over the plot. Reading the id of a crop that is no longer
   * there throws, which ends the callback before either effect.
   */
  function HarvestCallback(w: WorldState, crop: Option<Crop>, name: string, tx: int, ty: int): WorldState
  {
    if crop.None? then w
    else
      var w1 := Added(w, crop.value.id, 1);
      w1.(floatingTexts := Spawn(w1.floatingTexts, tx, ty, Picked(name)))
  }

  /** The cues of a tool use. */
  function UseSounds(use: ToolUse): seq<Sound>
  {
    match use
    case ChestPlaced => []
    case Tilled => [DigSound]
    case Watered => [WaterSound]
    case Broken(_) => [HitSound]
    case Planted => [PlantSound]
  }

  /** The item a tool use consumes or yields: the chest or seed placed is taken, a broken node's drop is added. */
  function Consumed(w: WorldState, use: ToolUse): WorldState
    requires PlayerOk(w.player)
    requires use == ChestPlaced || use == Planted ==> Selected(w).Some?
  {
    if use == ChestPlaced || use == Planted then
      w.(player := w.player.(inventory := TakeOne(w.player.inventory, w.player.selectedSlot)))
    else if use.Broken? && Truthy(use.drop) then Added(w, use.drop.value, 1)
    else w
  }

  /** The deferred follow-ups of a tool use: the item taken, the drop added, the energy spent, the swing. */
  function ToolFinished(w: WorldState, use: ToolUse, cost: int, swing: bool): WorldState
    requires PlayerOk(w.player)
    requires use == ChestPlaced || use == Planted ==> Selected(w).Some?
  {
    var w1 := Consumed(w, use);
    var w2 := if cost > 0 then w1.(player := w1.player.(energy := Spent(w1.player.energy, cost))) else w1;
    if swing then w2.(isSwinging := true) else w2
  }

  /** The grid-modifying step on the tile (tx, ty) of the current scene. */
  function TileWorked(w: WorldState, tx: int, ty: int): WorldState
    requires StateOk(w) && InBounds(tx, ty)
  {
    var tile := w.grids[w.currentScene][ty][tx];
    var item := Selected(w);
    match ActOnTile(tile, item, w.player.energy, w.gameState.seasonIdx)
    case Harvested(t, produce) =>
      HarvestCallback(w.(grids := SetTile(w.grids, w.currentScene, tx, ty, t)), tile.crop, ItemName(produce), tx, ty)
    case Exhausted => w.(message := Some(NotEnoughEnergy))
    case OutOfSeason => w.(message := Some(WrongSeason))
    case Used(t, use, cost, swing) =>
      ToolFinished(w.(grids := SetTile(w.grids, w.currentScene, tx, ty, t), sounds := w.sounds + UseSounds(use)),
                   use, cost, swing)
    case Untouched => w
  }

  /**
   * handleInteract as written, except for the harvest, where the source's
   * deferred callback reads the crop after clearing it (see
   * HarvestAsWrittenAddsNothing), and the affection rule, where the source
   * compares days of the season (see Social.RolloverLocksAffection): the
   * first rule that applies wins.
   */
  function Interacted(w: WorldState, damageRoll: real, lineRoll: real): WorldState
    requires StateOk(w) && 0.0 <= damageRoll < 1.0 && 0.0 <= lineRoll < 1.0
  {
    if w.uiMode != Playing then OverlayClosed(w) else Acted(w, damageRoll, lineRoll)
  }

  /** handleInteract outside the overlays: attack, talk, use a fixture or work the tile. */
  function Acted(w: WorldState, damageRoll: real, lineRoll: real): WorldState
    requires StateOk(w) && 0.0 <= damageRoll < 1.0 && 0.0 <= lineRoll < 1.0
  {
    var (tx, ty) := Target(w);
    var mi := FirstMonsterAt(w.monsters, w.currentScene, tx, ty);
    var ni := FirstNpcAt(w.npcs, w.currentScene, tx, ty);
    if Wields(Selected(w)) && mi >= 0 then
      MonsterStruck(w, w.monsters[mi].id, SwordDamage(damageRoll), tx, ty)
    else if ni >= 0 then TalkedWith(w, w.npcs[ni], lineRoll, tx, ty)
    else if !InBounds(tx, ty) then w
    else TargetUsed(w, tx, ty)
  }

  /** The fixtures: the mailbox opens the shop, the bin ships, a chest opens; any other tile is worked. */
  function TargetUsed(w: WorldState, tx: int, ty: int): WorldState
    requires StateOk(w) && InBounds(tx, ty)
  {
    var obj := w.grids[w.currentScene][ty][tx].objectId;
    if obj == Some(998) then w.(uiMode := ShopScreen, sounds := w.sounds + [PickupSound])
    else if obj == Some(999) then Shipped(w, tx, ty)
    else if obj == Some(130) then ChestOpened(w, tx, ty)
    else TileWorked(w, tx, ty)
  }

  /** No monster, NPC, fixture or chest claims the target: the interaction works the tile. */
  predicate ReachesTile(w: WorldState)
    requires StateOk(w)
  {
    var (tx, ty) := Target(w);
    && w.uiMode == Playing
    && !(Wields(Selected(w)) && FirstMonsterAt(w.monsters, w.currentScene, tx, ty) >= 0)
    && !NpcAt(w.npcs, w.currentScene, tx, ty)
    && InBounds(tx, ty)
    && w.grids[w.currentScene][ty][tx].objectId !in {Some(998), Some(999), Some(130)}
  }

  lemma InteractReachesTile(w: WorldState, damageRoll: real, lineRoll: real)
    requires StateOk(w) && 0.0 <= damageRoll < 1.0 && 0.0 <= lineRoll < 1.0 && ReachesTile(w)
    ensures Interacted(w, damageRoll, lineRoll) == TileWorked(w, Target(w).0, Target(w).1)
  {
    var (tx, ty) := Target(w);
    assert FirstNpcAt(w.npcs, w.currentScene, tx, ty) == -1;
    assert Interacted(w, damageRoll, lineRoll) == TargetUsed(w, tx, ty);
  }

  lemma TalkKeepsStateOk(w: WorldState, n: Npc, lineRoll: real, tx: int, ty: int)
    requires StateOk(w) && w.uiMode == Playing && 0.0 <= lineRoll < 1.0
    ensures StateOk(TalkedWith(w, n, lineRoll, tx, ty))
  {
    TalkKeepsAffectionOk(w.npcs, n.id, Today(w.gameState));
  }

  lemma StrikeKeepsStateOk(w: WorldState, id: int, damage: int, tx: int, ty: int)
    requires StateOk(w)
    ensures StateOk(MonsterStruck(w, id, damage, tx, ty))
  {
    var r := Strike(w.monsters, id, damage);
    forall k | 0 <= k < |r| ensures MonsterOk(r[k]) {
      var i :| 0 <= i < |w.monsters| && r[k] == Struck(w.monsters[i], id, damage);
      assert MonsterOk(w.monsters[i]);
    }
  }

  lemma ToolFinishedKeepsStateOk(w: WorldState, use: ToolUse, cost: int, swing: bool)
    requires StateOk(w)
    requires use == ChestPlaced || use == Planted ==> Selected(w).Some?
    requires use.Broken? && Truthy(use.drop) ==> InCatalog(use.drop.value)
    ensures StateOk(ToolFinished(w, use, cost, swing))
  {
    ConsumedKeepsStateOk(w, use);
  }

  lemma ConsumedKeepsStateOk(w: WorldState, use: ToolUse)
    requires StateOk(w)
    requires use == ChestPlaced || use == Planted ==> Selected(w).Some?
    requires use.Broken? && Truthy(use.drop) ==> InCatalog(use.drop.value)
    ensures StateOk(Consumed(w, use))
  {
    if use == ChestPlaced || use == Planted {
      TakeOneKeepsSlotsOk(w.player.inventory, w.player.selectedSlot);
    } else if use.Broken? && Truthy(use.drop) {
      AddKeepsStateOk(w, use.drop.value, 1);
    }
  }

  lemma TileWorkedKeepsStateOk(w: WorldState, tx: int, ty: int)
    requires StateOk(w) && InBounds(tx, ty)
    ensures StateOk(TileWorked(w, tx, ty))
  {
    var tile := w.grids[w.currentScene][ty][tx];
    var item := Selected(w);
    assert TileOk(tile);
    var o := ActOnTile(tile, item, w.player.energy, w.gameState.seasonIdx);
    ActKeepsTileOk(tile, item, w.player.energy, w.gameState.seasonIdx);
    match o
    case Harvested(t, produce) =>
      SetTileKeepsGridsOk(w.grids, w.currentScene, tx, ty, t);
      AddKeepsStateOk(w.(grids := SetTile(w.grids, w.currentScene, tx, ty, t)), produce, 1);
    case Used(t, use, cost, swing) =>
      SetTileKeepsGridsOk(w.grids, w.currentScene, tx, ty, t);
      if use.Broken? && Truthy(use.drop) {
        ObstaclesDropResources(tile.objectId.value);
      }
      ToolFinishedKeepsStateOk(w.(grids := SetTile(w.grids, w.currentScene, tx, ty, t), sounds := w.sounds + UseSounds(use)),
                               use, cost, swing);
    case _ =>
  }

  lemma InteractKeepsStateOk(w: WorldState, damageRoll: real, lineRoll: real)
    requires StateOk(w) && 0.0 <= damageRoll < 1.0 && 0.0 <= lineRoll < 1.0
    ensures StateOk(Interacted(w, damageRoll, lineRoll))
  {
    if w.uiMode == Playing {
      var (tx, ty) := Target(w);
      var mi := FirstMonsterAt(w.monsters, w.currentScene, tx, ty);
      var ni := FirstNpcAt(w.npcs, w.currentScene, tx, ty);
      if Wields(Selected(w)) && mi >= 0 {
        StrikeKeepsStateOk(w, w.monsters[mi].id, SwordDamage(damageRoll), tx, ty);
      } else if ni >= 0 {
        TalkKeepsStateOk(w, w.npcs[ni], lineRoll, tx, ty);
      } else if InBounds(tx, ty) {
        TargetUsedKeepsStateOk(w, tx, ty);
      }
    }
  }

  lemma TargetUsedKeepsStateOk(w: WorldState, tx: int, ty: int)
    requires StateOk(w) && InBounds(tx, ty) && w.uiMode == Playing
    ensures StateOk(TargetUsed(w, tx, ty))
  {
    var obj := w.grids[w.currentScene][ty][tx].objectId;
    if obj == Some(999) {
      ShipKeepsStateOk(w, tx, ty);
    } else if obj != Some(998) && obj != Some(130) {
      TileWorkedKeepsStateOk(w, tx, ty);
    }
  }

  lemma ShipKeepsStateOk(w: WorldState, tx: int, ty: int)
    requires StateOk(w)
    ensures StateOk(Shipped(w, tx, ty))
  {
    var item := Selected(w);
    if item.Some? && Def(item.value.id).sellPrice > 0 {
      var inv := w.player.inventory[w.player.selectedSlot := None];
      assert SlotsOk(inv) by {
        forall i | 0 <= i < |inv| ensures SlotOk(inv[i]) {
          if i != w.player.selectedSlot { assert inv[i] == w.player.inventory[i]; }
        }
      }
    }
  }

  /** A ripe crop is harvested: the plot is cleared and untilled, and one unit of the produce is added. */
  lemma HarvestAddsOne(w: WorldState, tx: int, ty: int)
    requires StateOk(w) && InBounds(tx, ty) && Ripe(w.grids[w.currentScene][ty][tx])
    ensures var tile := w.grids[w.currentScene][ty][tx];
            var id := tile.crop.value.id;
            var r := TileWorked(w, tx, ty);
            && r.grids[w.currentScene][ty][tx] == tile.(crop := None, isTilled := false)
            && (CanAdd(w.player.inventory, id) ==> Total(r.player.inventory, id) == Total(w.player.inventory, id) + 1)
            && (!CanAdd(w.player.inventory, id) ==> r.message == Some(InventoryFull) && r.player == w.player)
  {
    var tile := w.grids[w.currentScene][ty][tx];
    var id := tile.crop.value.id;
    var t := tile.(crop := None, isTilled := false);
    AddedConserves(w.(grids := SetTile(w.grids, w.currentScene, tx, ty, t)), id, 1, id);
  }

  /**
   * As written, the harvest callback runs after `tile.crop` was cleared:
   * the plot is emptied but the inventory gains nothing and no text appears.
   */
  lemma HarvestAsWrittenAddsNothing(w: WorldState, tx: int, ty: int)
    requires StateOk(w) && InBounds(tx, ty) && Ripe(w.grids[w.currentScene][ty][tx])
    ensures var tile := w.grids[w.currentScene][ty][tx];
            var o := ActOnTile(tile, Selected(w), w.player.energy, w.gameState.seasonIdx);
            var w1 := w.(grids := SetTile(w.grids, w.currentScene, tx, ty, o.tile));
            var r := HarvestCallback(w1, o.tile.crop, ItemName(o.produce), tx, ty);
            && r.grids[w.currentScene][ty][tx].crop.None?
            && r.player == w.player && r.floatingTexts == w.floatingTexts
  {
  }

  /** A tool the player lacks the energy for changes only the message: no tile, energy or item changes. */
  lemma RefusalChangesOnlyMessage(w: WorldState, tx: int, ty: int)
    requires StateOk(w) && InBounds(tx, ty)
    ensures var tile := w.grids[w.currentScene][ty][tx];
            var o := ActOnTile(tile, Selected(w), w.player.energy, w.gameState.seasonIdx);
            (o == Exhausted ==> TileWorked(w, tx, ty) == w.(message := Some(NotEnoughEnergy)))
            && (o == OutOfSeason ==> TileWorked(w, tx, ty) == w.(message := Some(WrongSeason)))
  {
  }

  /**
   * A seed used on a bare tilled plot (no ripe crop in the way) is planted
   * when its crop is in season: a fresh crop goes on the plot, one seed
   * leaves the selected slot and, since no seed costs energy, the energy is
   * unchanged. Out of season it is refused with the season message and
   * nothing else changes.
   */
  lemma PlantTakesOneSeed(w: WorldState, tx: int, ty: int)
    requires StateOk(w) && InBounds(tx, ty)
    requires var tile := w.grids[w.currentScene][ty][tx];
             Selected(w).Some? && !Ripe(tile) && Sows(tile, Def(Selected(w).value.id))
    ensures var tile := w.grids[w.currentScene][ty][tx];
            var seed := Selected(w).value.id;
            var r := TileWorked(w, tx, ty);
            CropInSeason(Def(seed).cropId, w.gameState.seasonIdx) ==>
              && r.grids == SetTile(w.grids, w.currentScene, tx, ty,
                                    tile.(crop := Some(Crop(Def(seed).cropId.value, 0, 0, false, false))))
              && Total(r.player.inventory, seed) == Total(w.player.inventory, seed) - 1
              && r.player.energy == w.player.energy
              && r.sounds == w.sounds + [PlantSound]
    ensures var seed := Selected(w).value.id;
            !CropInSeason(Def(seed).cropId, w.gameState.seasonIdx) ==>
              TileWorked(w, tx, ty) == w.(message := Some(WrongSeason))
  {
    var seed := Selected(w).value.id;
    SeedIds(seed);
    ToolRules(w.grids[w.currentScene][ty][tx], seed, w.player.energy, w.gameState.seasonIdx);
    TakeOneConserves(w.player.inventory, w.player.selectedSlot, seed);
  }

  /**
   * The pickaxe on an obstacle, with the energy to swing it, breaks it: the
   * tile written back holds no object, the hit sounds, the energy cost is
   * paid, and the obstacle's drop (every breakable obstacle has one) is
   * added to the inventory when there is room.
   */
  lemma BreakAddsDrop(w: WorldState, tx: int, ty: int)
    requires StateOk(w) && InBounds(tx, ty)
    requires var tile := w.grids[w.currentScene][ty][tx];
             Selected(w).Some? && !Ripe(tile) && Breaks(tile, Def(Selected(w).value.id))
             && !TooTired(Selected(w), w.player.energy)
    ensures var tile := w.grids[w.currentScene][ty][tx];
            var tool := Def(Selected(w).value.id);
            var drop := Def(tile.objectId.value).drop;
            var r := TileWorked(w, tx, ty);
            && Truthy(drop)
            && r.grids == SetTile(w.grids, w.currentScene, tx, ty, tile.(objectId := None))
            && r.sounds == w.sounds + [HitSound]
            && r.player.energy == w.player.energy - tool.energy
            && (CanAdd(w.player.inventory, drop.value) ==>
                  Total(r.player.inventory, drop.value) == Total(w.player.inventory, drop.value) + 1)
  {
    var tile := w.grids[w.currentScene][ty][tx];
    var id := Selected(w).value.id;
    ToolRules(tile, id, w.player.energy, w.gameState.seasonIdx);
    ObstaclesDropResources(tile.objectId.value);
    var o := ActOnTile(tile, Selected(w), w.player.energy, w.gameState.seasonIdx);
    var drop := Def(tile.objectId.value).drop;
    assert o == Used(tile.(objectId := None), Broken(drop), Def(id).energy, true);
    var w1 := w.(grids := SetTile(w.grids, w.currentScene, tx, ty, o.tile), sounds := w.sounds + UseSounds(o.use));
    assert TileWorked(w, tx, ty) == ToolFinished(w1, o.use, o.cost, o.swing);
    BrokenAddsDrop(w1, drop.value, o.cost, o.swing);
  }

  /**
   * Every successful tool use pays its energy cost, which the energy check
   * guarantees the player has, and starts the swing animation when the tool
   * has an action.
   */
  lemma ToolSpendsEnergy(w: WorldState, tx: int, ty: int)
    requires StateOk(w) && InBounds(tx, ty)
    ensures var o := ActOnTile(w.grids[w.currentScene][ty][tx], Selected(w), w.player.energy, w.gameState.seasonIdx);
            var r := TileWorked(w, tx, ty);
            o.Used? ==> r.player.energy == w.player.energy - o.cost && r.isSwinging == (o.swing || w.isSwinging)
  {
    var o := ActOnTile(w.grids[w.currentScene][ty][tx], Selected(w), w.player.energy, w.gameState.seasonIdx);
    if o.Used? {
      var w1 := w.(grids := SetTile(w.grids, w.currentScene, tx, ty, o.tile), sounds := w.sounds + UseSounds(o.use));
      ConsumedKeepsEnergy(w1, o.use);
    }
  }

  /** Taking the placed item or adding a drop leaves the energy and the swing alone. */
  lemma ConsumedKeepsEnergy(w: WorldState, use: ToolUse)
    requires PlayerOk(w.player)
    requires use == ChestPlaced || use == Planted ==> Selected(w).Some?
    ensures Consumed(w, use).player.energy == w.player.energy
    ensures Consumed(w, use).isSwinging == w.isSwinging
  {
  }

  lemma BrokenAddsDrop(w: WorldState, drop: int, cost: int, swing: bool)
    requires PlayerOk(w.player) && drop != 0
    ensures var r := ToolFinished(w, Broken(Some(drop)), cost, swing);
            && r.grids == w.grids
            && r.player.energy == (if cost > 0 then Spent(w.player.energy, cost) else w.player.energy)
            && (CanAdd(w.player.inventory, drop) ==> Total(r.player.inventory, drop) == Total(w.player.inventory, drop) + 1)
  {
    AddedConserves(w, drop, 1, drop);
  }

  /** Shipping sells the whole selected stack: the money grows by price times count and the stack is gone. */
  lemma ShippingConverts(w: WorldState, tx: int, ty: int, id: int)
    requires StateOk(w)
    requires Selected(w).Some? && Def(Selected(w).value.id).sellPrice > 0
    ensures var item := Selected(w).value;
            var r := Shipped(w, tx, ty);
            && r.player.money == w.player.money + Def(item.id).sellPrice * item.count
            && Total(r.player.inventory, id) == Total(w.player.inventory, id) - (if id == item.id then item.count else 0)
  {
    TotalUpdate(w.player.inventory, w.player.selectedSlot, None, id);
  }

  /** A chest is created empty on first opening and reopened unchanged afterwards. */
  lemma ChestOpensLazily(w: WorldState, tx: nat, ty: nat)
    ensures var key := ContainerKey(w.currentScene, tx, ty);
            var r := ChestOpened(w, tx, ty);
            && r.activeContainer == Some(key) && r.uiMode == ChestScreen
            && key in r.containers
            && (key in w.containers ==> r.containers == w.containers)
            && (key !in w.containers ==> r.containers[key] == seq(CHEST_SLOTS, _ => None)
                                          && forall k :: k in w.containers ==> r.containers[k] == w.containers[k])
  {
  }

  /**
   * Talking always opens the dialogue with one of the weather's lines. It
   * befriends the NPC when it has not been befriended today, and otherwise
   * leaves every NPC and the floating texts as they were, so a second talk
   * on the same day earns nothing.
   */
  lemma TalkOncePerDay(w: WorldState, n: Npc, roll1: real, roll2: real, tx: int, ty: int)
    requires ClockValid(w.gameState) && 0.0 <= roll1 < 1.0 && 0.0 <= roll2 < 1.0
    requires n in w.npcs
    ensures var r := TalkedWith(w, n, roll1, tx, ty);
            && r.uiMode == DialogueScreen
            && r.dialogue.Some? && r.dialogue.value.speaker == n.name
            && r.dialogue.value.text in Lines(n.variant, w.gameState.weather)
    ensures CanGainAffection(n, w.gameState) ==>
              TalkedWith(w, n, roll1, tx, ty).npcs == TalkedTo(w.npcs, n.id, Today(w.gameState))
    ensures !CanGainAffection(n, w.gameState) ==>
              var r := TalkedWith(w, n, roll1, tx, ty);
              r.npcs == w.npcs && r.floatingTexts == w.floatingTexts
    ensures var r := TalkedWith(w, n, roll1, tx, ty);
            var i :| 0 <= i < |w.npcs| && w.npcs[i] == n;
            TalkedWith(r, r.npcs[i], roll2, tx, ty).npcs == r.npcs
  {
    var gs := w.gameState;
    var r := TalkedWith(w, n, roll1, tx, ty);
    var i :| 0 <= i < |w.npcs| && w.npcs[i] == n;
    if CanGainAffection(n, gs) {
      OncePerDay(n, gs, gs);
      assert r.npcs[i] == Befriended(n, Today(gs));
    }
    assert !CanGainAffection(r.npcs[i], gs);
  }

  // ---------------------------------------------------------------------
  // Slots, the cursor and eating (components/Game.tsx:556-610, 634-653)

  /** Which slot array a click lands on. */
  datatype SlotSource = PlayerSlots | ChestSlots

  /** The click's index addresses a slot: the backpack's, or the open chest's. */
  predicate ClickInRange(w: WorldState, index: int, source: SlotSource)
  {
    if source == PlayerSlots then 0 <= index < |w.player.inventory|
    else w.activeContainer.Some? && w.activeContainer.value in w.containers
         && 0 <= index < |w.containers[w.activeContainer.value]|
  }

  function SlotClicked(w: WorldState, index: int, source: SlotSource): WorldState
    requires ClickInRange(w, index, source)
  {
    if source == PlayerSlots then
      var (c, inv) := ClickSlot(w.player.cursorItem, w.player.inventory, index);
      w.(player := w.player.(cursorItem := c, inventory := inv))
    else
      var key := w.activeContainer.value;
      var (c, slots) := ClickSlot(w.player.cursorItem, w.containers[key], index);
      w.(player := w.player.(cursorItem := c), containers := w.containers[key := slots])
  }

  lemma SlotClickKeepsStateOk(w: WorldState, index: int, source: SlotSource)
    requires StateOk(w) && ClickInRange(w, index, source)
    ensures StateOk(SlotClicked(w, index, source))
  {
    if source == PlayerSlots {
      ClickKeepsSlotsOk(w.player.cursorItem, w.player.inventory, index);
    } else {
      ClickKeepsSlotsOk(w.player.cursorItem, w.containers[w.activeContainer.value], index);
    }
  }

  /**
   * A click moves units between the cursor and the clicked array only: for
   * every item id the cursor and that array together hold as many units as
   * before, and everything else stays put.
   */
  lemma SlotClickConserves(w: WorldState, index: int, source: SlotSource, id: int)
    requires ClickInRange(w, index, source)
    ensures var r := SlotClicked(w, index, source);
            && r.(player := w.player, containers := w.containers) == w
            && r.player.(cursorItem := w.player.cursorItem, inventory := w.player.inventory) == w.player
            && (source == PlayerSlots ==>
                  r.containers == w.containers
                  && Units(r.player.cursorItem, id) + Total(r.player.inventory, id)
                     == Units(w.player.cursorItem, id) + Total(w.player.inventory, id))
            && (source == ChestSlots ==>
                  var key := w.activeContainer.value;
                  r.player.inventory == w.player.inventory
                  && r.containers.Keys == w.containers.Keys
                  && (forall k :: k in w.containers && k != key ==> r.containers[k] == w.containers[k])
                  && Units(r.player.cursorItem, id) + Total(r.containers[key], id)
                     == Units(w.player.cursorItem, id) + Total(w.containers[key], id))
  {
    if source == PlayerSlots {
      ClickConserves(w.player.cursorItem, w.player.inventory, index, id);
    } else {
      ClickConserves(w.player.cursorItem, w.containers[w.activeContainer.value], index, id);
    }
  }

  /** The trash slot: the held stack is destroyed. */
  function CursorDeleted(w: WorldState): (r: WorldState)
    ensures r.player.cursorItem.None?
    ensures r.(player := w.player) == w && r.player.(cursorItem := w.player.cursorItem) == w.player
  {
    w.(player := w.player.(cursorItem := None))
  }

  /** Eating from slot `index`: food restores energy, capped at the maximum, and one unit is consumed. */
  function Eaten(w: WorldState, index: int): WorldState
    requires PlayerOk(w.player) && 0 <= index < INVENTORY_SIZE
  {
    var item := w.player.inventory[index];
    if item.None? then w
    else
      var d := Def(item.value.id);
      if d.edible && d.energyRestore > 0 then Fed(w, index, d.energyRestore)
      else w.(message := Some(NotEdible))
  }

  /** One unit of the food in slot `index` eaten: `restore` energy, capped at the maximum. */
  function Fed(w: WorldState, index: int, restore: int): WorldState
    requires PlayerOk(w.player) && 0 <= index < INVENTORY_SIZE && w.player.inventory[index].Some?
  {
    var p := w.player;
    w.(player := p.(energy := Min(p.maxEnergy, p.energy + restore), inventory := TakeOne(p.inventory, index)),
       floatingTexts := Spawn(w.floatingTexts, p.x, p.y, EnergyGain(restore)))
  }

  lemma EatKeepsStateOk(w: WorldState, index: int)
    requires StateOk(w) && 0 <= index < INVENTORY_SIZE
    ensures StateOk(Eaten(w, index))
  {
    if w.player.inventory[index].Some? {
      TakeOneKeepsSlotsOk(w.player.inventory, index);
    }
  }

  /**
   * Eating food raises energy by its restore value, never past the
   * maximum, and consumes exactly one unit; anything else is refused with
   * a message and nothing else changes.
   */
  lemma EatRestores(w: WorldState, index: int, id: int)
    requires StateOk(w) && 0 <= index < INVENTORY_SIZE && w.player.inventory[index].Some?
    ensures var food := w.player.inventory[index].value.id;
            var r := Eaten(w, index);
            if Def(food).edible then
              && r.player.energy == Min(w.player.maxEnergy, w.player.energy + Def(food).energyRestore)
              && w.player.energy <= r.player.energy <= r.player.maxEnergy
              && Total(r.player.inventory, id) == Total(w.player.inventory, id) - (if id == food then 1 else 0)
            else r == w.(message := Some(NotEdible))
  {
    var food := w.player.inventory[index].value.id;
    if Def(food).edible {
      EdibleRestoresEnergy(food);
      TakeOneConserves(w.player.inventory, index, id);
    }
  }

  // ---------------------------------------------------------------------
  // Floating texts, hotbar and overlay keys (components/Game.tsx:147-158, 655-681)

  function TextsDecayed(w: WorldState): (r: WorldState)
    ensures r.(floatingTexts := w.floatingTexts) == w
    ensures |r.floatingTexts| <= |w.floatingTexts|
  {
    w.(floatingTexts := Decayed(w.floatingTexts))
  }

  /** Keys 1-5 and a hotbar click select a hotbar slot (only while playing). */
  function SlotSelected(w: WorldState, index: int): (r: WorldState)
    requires 0 <= index < HOTBAR_SIZE
    ensures w.uiMode == Playing ==> r == w.(player := w.player.(selectedSlot := index))
    ensures w.uiMode != Playing ==> r == w
  {
    if w.uiMode == Playing then w.(player := w.player.(selectedSlot := index)) else w
  }

  /** The 'e' key: opens the backpack while playing; closes the backpack or a chest. */
  function InventoryToggled(w: WorldState): WorldState
  {
    if w.uiMode == Playing then w.(uiMode := InventoryScreen)
    else if w.uiMode == InventoryScreen || w.uiMode == ChestScreen then w.(uiMode := Playing, activeContainer := None)
    else w
  }

  /** Escape leaves any overlay; the dialogue text is kept. */
  function Escaped(w: WorldState): WorldState
  {
    if w.uiMode != Playing then w.(uiMode := Playing, activeContainer := None) else w
  }

  lemma KeysKeepStateOk(w: WorldState, index: int)
    requires StateOk(w) && 0 <= index < HOTBAR_SIZE
    ensures StateOk(TextsDecayed(w)) && StateOk(SlotSelected(w, index)) && StateOk(CursorDeleted(w))
    ensures StateOk(InventoryToggled(w)) && StateOk(Escaped(w))
  {
  }

  /** Opening and closing the backpack with 'e' returns to the same state. */
  lemma ToggleTwiceRestores(w: WorldState)
    requires StateOk(w) && w.uiMode == Playing
    ensures InventoryToggled(InventoryToggled(w)) == w
  {
  }

  /** Escape returns every overlay to play, with no chest open. */
  lemma EscapeReturnsToPlay(w: WorldState)
    requires StateOk(w)
    ensures Escaped(w).uiMode == Playing && Escaped(w).activeContainer.None?
    ensures w.uiMode == Playing ==> Escaped(w) == w
  {
  }
}
