// The grid-modifying step of handleInteract (components/Game.tsx:449-551):
// on the tile in front of the player, a ripe crop is harvested first;
// otherwise the selected item is used, after an energy check, as a chest
// to place, a hoe, a watering can, a pickaxe or a seed. Object ids are
// tested with JavaScript truthiness, so the Weed (id 0) counts as no
// object: it cannot be broken, and the hoe and seeds work through it.
module Farming {
  import opened Util
  import opened Records
  import opened Catalog
  import opened Generator

  /** The stage from which handleInteract harvests a crop. */
  const HARVEST_STAGE: int := 4

  predicate Ripe(t: Tile)
  {
    t.crop.Some? && t.crop.value.stage >= HARVEST_STAGE && !t.crop.value.dead
  }

  /** `SEASONS[seasonIdx]`, which is `undefined` outside the table. */
  function SeasonName(seasonIdx: int): Option<string>
  {
    if 0 <= seasonIdx < |SEASONS| then Some(SEASONS[seasonIdx]) else None
  }

  /** `cropDef.seasons?.includes(SEASONS[seasonIdx])` */
  predicate InSeason(seasons: Option<seq<string>>, seasonIdx: int)
  {
    seasons.Some? && SeasonName(seasonIdx).Some? && SeasonName(seasonIdx).value in seasons.value
  }

  /**
   * The crop a seed names may be planted this season. A seed whose crop
   * entry were missing would make the source throw; no seed of the
   * catalogue is such a seed (Catalog.SeedsNameCrops).
   */
  predicate CropInSeason(cropId: Option<int>, seasonIdx: int)
  {
    cropId.Some? && InCatalog(cropId.value) && InSeason(Def(cropId.value).seasons, seasonIdx)
  }

  /** The object is an obstacle the pickaxe breaks: a truthy id whose entry is an obstacle. */
  predicate Breakable(objectId: Option<int>)
  {
    Truthy(objectId) && Lookup(objectId.value).Some? && Lookup(objectId.value).value.category == ObstacleCat
  }

  datatype ToolUse = ChestPlaced | Tilled | Watered | Broken(drop: Option<int>) | Planted

  /**
   * What the interaction does to the tile: a harvest (with the produce to
   * add), a refusal for lack of energy or for the season, a successful use
   * of the selected item (with its energy cost and whether the swing
   * animation plays), or nothing.
   */
  datatype TileOutcome =
    | Harvested(tile: Tile, produce: int)
    | Exhausted
    | OutOfSeason
    | Used(tile: Tile, use: ToolUse, cost: int, swing: bool)
    | Untouched

  // The conditions of the five tool rules, as the source tests them.

  /** A chest is placed on a walkable tile with no object and no crop. */
  predicate PlacesChest(tile: Tile, tool: ItemDef)
  {
    tool.category == ContainerCat && !Truthy(tile.objectId) && tile.crop.None? && tile.canWalk
  }

  /** The hoe tills grass that holds no object. */
  predicate Tills(tile: Tile, tool: ItemDef)
  {
    tool.action == Some(TillAction) && !Truthy(tile.objectId) && tile.kind == Grass
  }

  /** The watering can waters tilled soil. */
  predicate Waters(tile: Tile, tool: ItemDef)
  {
    tool.action == Some(WaterAction) && tile.isTilled
  }

  /** The pickaxe breaks an obstacle. */
  predicate Breaks(tile: Tile, tool: ItemDef)
  {
    tool.action == Some(BreakAction) && Breakable(tile.objectId)
  }

  /** A seed goes on a tilled plot with no crop and no object, if its crop is in season. */
  predicate Sows(tile: Tile, tool: ItemDef)
  {
    tool.category == SeedCat && tile.isTilled && tile.crop.None? && !Truthy(tile.objectId)
  }

  /**
   * The tool rules, for an item with catalogue entry `tool`. The five rules
   * of the source are tested one after another on the same tile; each
   * selects on a different property of the entry, and no catalogue entry
   * has two of them (Catalog.ToolEffectsAreExclusive). So at most one
   * applies, and they are written as one chain here. Each rule is stated in
   * both directions for such an entry: it applies exactly when its
   * condition holds, and then the tile, the cost and the swing are as given.
   */
  function UseTool(tile: Tile, id: int, tool: ItemDef, seasonIdx: int): (r: TileOutcome)
    ensures r.Used? || r == OutOfSeason || r == Untouched
    ensures r.Used? ==> r.cost == tool.energy && r.swing == tool.action.Some?
    ensures r.Used? ==> r.tile.x == tile.x && r.tile.y == tile.y && r.tile.warp == tile.warp
                        && r.tile.canWalk == tile.canWalk
    ensures r == Untouched <==>
              !PlacesChest(tile, tool) && !Tills(tile, tool) && !Waters(tile, tool)
              && !Breaks(tile, tool) && !Sows(tile, tool)
    ensures r.Used? && r.use == ChestPlaced <==> PlacesChest(tile, tool)
    ensures r.Used? && r.use == ChestPlaced ==> r.tile == tile.(objectId := Some(id))
    ensures ToolEffectsExclusive(tool) ==> (r.Used? && r.use == Tilled <==> Tills(tile, tool))
    ensures r.Used? && r.use == Tilled ==> Tills(tile, tool) && r.tile == tile.(kind := Dirt, isTilled := true)
    ensures ToolEffectsExclusive(tool) ==> (r.Used? && r.use == Watered <==> Waters(tile, tool))
    ensures r.Used? && r.use == Watered ==> Waters(tile, tool) && r.tile == tile.(isWatered := true)
    ensures ToolEffectsExclusive(tool) ==> (r.Used? && r.use.Broken? <==> Breaks(tile, tool))
    ensures r.Used? && r.use.Broken? ==>
              Breaks(tile, tool) && r.tile == tile.(objectId := None) && r.use.drop == Def(tile.objectId.value).drop
    ensures ToolEffectsExclusive(tool) ==>
              (r.Used? && r.use == Planted <==> Sows(tile, tool) && CropInSeason(tool.cropId, seasonIdx))
    ensures r.Used? && r.use == Planted ==>
              Sows(tile, tool) && CropInSeason(tool.cropId, seasonIdx)
              && r.tile == tile.(crop := Some(Crop(tool.cropId.value, 0, 0, false, false)))
    ensures ToolEffectsExclusive(tool) ==>
              (r == OutOfSeason <==> Sows(tile, tool) && !CropInSeason(tool.cropId, seasonIdx))
    ensures r == OutOfSeason ==> Sows(tile, tool) && !CropInSeason(tool.cropId, seasonIdx)
  {
    var swing := tool.action.Some?;
    if PlacesChest(tile, tool) then
      Used(tile.(objectId := Some(id)), ChestPlaced, tool.energy, swing)
    else if Tills(tile, tool) then
      Used(tile.(kind := Dirt, isTilled := true), Tilled, tool.energy, swing)
    else if Waters(tile, tool) then
      Used(tile.(isWatered := true), Watered, tool.energy, swing)
    else if Breaks(tile, tool) then
      Used(tile.(objectId := None), Broken(Def(tile.objectId.value).drop), tool.energy, swing)
    else if Sows(tile, tool) then
      if !CropInSeason(tool.cropId, seasonIdx) then OutOfSeason
      else Used(tile.(crop := Some(Crop(tool.cropId.value, 0, 0, false, false))), Planted, tool.energy, swing)
    else Untouched
  }

  /** The selected item's entry costs more energy than the player has. */
  predicate TooTired(item: Slot, energy: int)
    requires item.Some? ==> InCatalog(item.value.id)
  {
    item.Some? && Def(item.value.id).energy > 0 && energy < Def(item.value.id).energy
  }

  /**
   * The grid-modifying step on `tile` with `item` selected: harvest a ripe
   * crop; otherwise refuse a tool the player lacks the energy for;
   * otherwise apply the tool rules.
   */
  function ActOnTile(tile: Tile, item: Slot, energy: int, seasonIdx: int): (r: TileOutcome)
    requires item.Some? ==> InCatalog(item.value.id)
    ensures r.Harvested? <==> Ripe(tile)
    ensures r.Harvested? ==> r.tile == tile.(crop := None, isTilled := false) && r.produce == tile.crop.value.id
    ensures r == Exhausted <==> !Ripe(tile) && TooTired(item, energy)
    ensures !Ripe(tile) && item.Some? && !TooTired(item, energy) ==>
              r == UseTool(tile, item.value.id, Def(item.value.id), seasonIdx)
    ensures r.Used? ==> r.cost == 0 || energy >= r.cost
    ensures item.None? && !Ripe(tile) ==> r == Untouched
  {
    if Ripe(tile) then
      Harvested(tile.(crop := None, isTilled := false), tile.crop.value.id)
    else if item.None? then Untouched
    else
      var id := item.value.id;
      var tool := Def(id);
      if TooTired(item, energy) then Exhausted
      else
        UseTool(tile, id, tool, seasonIdx)
  }

  /**
   * For a catalogue item the tool rules hold without the chain's order:
   * on an unripe tile, with the energy to pay, the hoe tills grass with no
   * object, the watering can waters tilled soil, the pickaxe breaks an
   * obstacle, and a seed on a bare tilled plot is planted in season and
   * refused out of season.
   */
  lemma ToolRules(tile: Tile, id: int, energy: int, seasonIdx: int)
    requires InCatalog(id) && !Ripe(tile) && !TooTired(Some(ItemInstance(id, 1)), energy)
    ensures var tool := Def(id);
            var r := ActOnTile(tile, Some(ItemInstance(id, 1)), energy, seasonIdx);
            var swing := tool.action.Some?;
            && (PlacesChest(tile, tool) ==> r == Used(tile.(objectId := Some(id)), ChestPlaced, tool.energy, swing))
            && (Tills(tile, tool) ==> r == Used(tile.(kind := Dirt, isTilled := true), Tilled, tool.energy, swing))
            && (Waters(tile, tool) ==> r == Used(tile.(isWatered := true), Watered, tool.energy, swing))
            && (Breaks(tile, tool) ==>
                  r == Used(tile.(objectId := None), Broken(Def(tile.objectId.value).drop), tool.energy, swing))
            && (Sows(tile, tool) && CropInSeason(tool.cropId, seasonIdx) ==>
                  r == Used(tile.(crop := Some(Crop(tool.cropId.value, 0, 0, false, false))), Planted, tool.energy, swing))
            && (Sows(tile, tool) && !CropInSeason(tool.cropId, seasonIdx) ==> r == OutOfSeason)
  {
    ToolEffectsAreExclusive(id);
  }

  /** Every outcome keeps a well-formed tile well-formed. */
  lemma ActKeepsTileOk(tile: Tile, item: Slot, energy: int, seasonIdx: int)
    requires item.Some? ==> InCatalog(item.value.id)
    requires TileOk(tile)
    ensures var r := ActOnTile(tile, item, energy, seasonIdx);
            (r.Harvested? || r.Used?) ==> TileOk(r.tile)
  {
    var r := ActOnTile(tile, item, energy, seasonIdx);
    if r.Used? && r.use == Planted {
      SeedsNameCrops(item.value.id);
    }
  }

  /** A harvest leaves no crop and untilled soil behind. */
  lemma HarvestClearsPlot(tile: Tile, item: Slot, energy: int, seasonIdx: int)
    requires item.Some? ==> InCatalog(item.value.id)
    requires Ripe(tile)
    ensures var r := ActOnTile(tile, item, energy, seasonIdx);
            r.tile.crop.None? && !r.tile.isTilled && r.produce == tile.crop.value.id
  {
  }

  /**
   * A harvested plot stays barren: it is dirt that is no longer tilled, so
   * the hoe (which needs grass), the watering can and seeds (which need
   * tilled soil) never apply to it again.
   */
  lemma HarvestedPlotIsBarren(tile: Tile, item: Slot, energy: int, seasonIdx: int)
    requires item.Some? ==> InCatalog(item.value.id)
    requires tile.kind == Dirt && !tile.isTilled && tile.crop.None?
    ensures var r := ActOnTile(tile, item, energy, seasonIdx);
            r.Used? ==> r.use != Tilled && r.use != Watered && r.use != Planted
  {
  }

  /** A tool costing more energy than the player has is refused, whatever the tile. */
  lemma TiredPlayerIsRefused(tile: Tile, id: int, energy: int, seasonIdx: int)
    requires InCatalog(id) && !Ripe(tile)
    requires 0 <= energy < Def(id).energy
    ensures ActOnTile(tile, Some(ItemInstance(id, 1)), energy, seasonIdx) == Exhausted
  {
  }

  /** Spending energy: `Math.max(0, energy - cost)`. */
  function Spent(energy: int, cost: int): (e: int)
    ensures e >= 0
    ensures 0 <= cost <= energy ==> e == energy - cost
  {
    Max(0, energy - cost)
  }

  /** Parsnip Seeds planted in Spring become a fresh parsnip crop; in Summer they are refused. */
  lemma ParsnipsGrowInSpringOnly(tile: Tile, energy: int)
    requires tile.isTilled && tile.crop.None? && tile.objectId.None?
    ensures ActOnTile(tile, Some(ItemInstance(472, 1)), energy, 0)
            == Used(tile.(crop := Some(Crop(24, 0, 0, false, false))), Planted, 0, false)
    ensures ActOnTile(tile, Some(ItemInstance(472, 1)), energy, 1) == OutOfSeason
  {
    assert SeasonName(0) == Some("Spring");
    assert SeasonName(1) == Some("Summer");
  }

  /** The pickaxe on a stone node yields stone; on a weed it does nothing. */
  lemma PickaxeOnNodes(tile: Tile)
    requires tile.crop.None? && !tile.isTilled
    ensures ActOnTile(tile.(objectId := Some(2)), Some(ItemInstance(104, 1)), 10, 0)
            == Used(tile.(objectId := None), Broken(Some(390)), 2, true)
    ensures ActOnTile(tile.(objectId := Some(0)), Some(ItemInstance(104, 1)), 10, 0) == Untouched
  {
  }
}
