// The static tables and tuning constants of the game (constants.ts): grid
// and clock constants, the item catalogue, the starting inventory, the
// seasons and the NPC dialogue lines.
module Catalog {
  import opened Util
  import opened Records

  const GRID_W: int := 16
  const GRID_H: int := 12
  const MAX_ENERGY: int := 100
  const INVENTORY_SIZE: int := 24

  const MINUTES_PER_DAY: int := 1440
  /** 6:00 in minutes after midnight. */
  const START_TIME: int := 360
  /** 26:00, i.e. 2:00 the next morning. */
  const END_TIME: int := 1600

  const SEASONS: seq<string> := ["Spring", "Summer", "Fall", "Winter"]

  const SHOP_INVENTORY: seq<int> := [472, 474]

  predicate InBounds(x: int, y: int) { 0 <= x < GRID_W && 0 <= y < GRID_H }

  datatype Category =
    | ToolCat | SeedCat | CropCat | ResourceCat | ObstacleCat | InteractiveCat
    | PlaceableCat | WeaponCat | FishCat | ContainerCat | MachineCat | WarpCat

  datatype Action = TillAction | WaterAction | ClearAction | BreakAction | FishAction | AttackAction

  /**
   * One catalogue entry. Fields the source leaves out of an entry are 0,
   * None or false here: every use of a numeric field in the game logic is a
   * JavaScript truthiness test, for which an absent field and 0 agree.
   * The name is kept apart, in ItemName; sprite, colour, description and
   * icon are presentation and are not kept.
   */
  datatype ItemDef = ItemDef(
    category: Category,
    price: nat,
    sellPrice: nat,
    action: Option<Action>,
    energy: nat,
    tier: nat,
    minDmg: nat,
    maxDmg: nat,
    cropId: Option<int>,
    daysToGrow: nat,
    stages: nat,
    seasons: Option<seq<string>>,
    drop: Option<int>,
    solid: bool,
    slots: nat,
    edible: bool,
    energyRestore: nat)

  /** An entry with only a category. */
  function Blank(category: Category): ItemDef
  {
    ItemDef(category, 0, 0, None, 0, 0, 0, 0, None, 0, 0, None, None, false, 0, false, 0)
  }

  /** The effect-selecting parts of the grid-modifying tool branches: at most one holds. */
  predicate ToolEffectsExclusive(d: ItemDef)
  {
    var place := d.category == ContainerCat;
    var till := d.action == Some(TillAction);
    var water := d.action == Some(WaterAction);
    var break_ := d.action == Some(BreakAction);
    var seed := d.category == SeedCat;
    (place ==> !till && !water && !break_ && !seed)
    && (till ==> !water && !break_ && !seed)
    && (water ==> !break_ && !seed)
    && (break_ ==> !seed)
  }

  /**
   * The item catalogue ITEM_DB: `Lookup(id)` is `ITEM_DB[id]`, which is
   * `undefined` (None) for an id the catalogue lacks.
   */
  function Lookup(id: int): (r: Option<ItemDef>)
    ensures r.Some? <==> id in ITEM_IDS
  {
    match id
    // Environment
    case 0 => Some(Blank(ObstacleCat).(drop := Some(771)))
    case 2 => Some(Blank(ObstacleCat).(drop := Some(390), solid := true))
    case 4 => Some(Blank(ObstacleCat).(drop := Some(388), solid := true))
    case 75 => Some(Blank(ObstacleCat).(drop := Some(378), solid := true))
    case 76 => Some(Blank(ObstacleCat).(drop := Some(380), solid := true))
    case 77 => Some(Blank(ObstacleCat).(drop := Some(384), solid := true))
    case 18 => Some(Blank(ResourceCat).(sellPrice := 30))
    // Resources
    case 388 => Some(Blank(ResourceCat).(sellPrice := 2))
    case 390 => Some(Blank(ResourceCat).(sellPrice := 2))
    case 378 => Some(Blank(ResourceCat).(sellPrice := 5))
    case 380 => Some(Blank(ResourceCat).(sellPrice := 10))
    case 384 => Some(Blank(ResourceCat).(sellPrice := 25))
    case 771 => Some(Blank(ResourceCat).(sellPrice := 1))
    // Crops & Seeds
    case 472 => Some(Blank(SeedCat).(price := 20, cropId := Some(24)))
    case 24 => Some(Blank(CropCat).(sellPrice := 35, daysToGrow := 4, stages := 5,
                 seasons := Some(["Spring"]), edible := true, energyRestore := 25))
    case 474 => Some(Blank(SeedCat).(price := 50, cropId := Some(192)))
    case 192 => Some(Blank(CropCat).(sellPrice := 80, daysToGrow := 6, stages := 5,
                  seasons := Some(["Spring"])))
    // Tools & Weapons
    case 101 => Some(Blank(ToolCat).(action := Some(TillAction), energy := 2, tier := 1))
    case 102 => Some(Blank(ToolCat).(action := Some(WaterAction), energy := 2, tier := 1))
    case 103 => Some(Blank(ToolCat).(action := Some(ClearAction), energy := 2, tier := 1))
    case 104 => Some(Blank(ToolCat).(action := Some(BreakAction), energy := 2, tier := 1))
    case 105 => Some(Blank(WeaponCat).(action := Some(AttackAction), minDmg := 2, maxDmg := 5))
    case 106 => Some(Blank(ToolCat).(action := Some(ClearAction), tier := 1))
    case 107 => Some(Blank(ToolCat).(action := Some(FishAction), tier := 1))
    // Placeables & Containers
    case 130 => Some(Blank(ContainerCat).(slots := 9, solid := true))
    // Mine
    case 903 => Some(Blank(WarpCat))
    case 904 => Some(Blank(WarpCat))
    // Interactive
    case 999 => Some(Blank(InteractiveCat))
    case 998 => Some(Blank(InteractiveCat))
    case _ => None
  }

  /** The ids ITEM_DB has an entry for. */
  const ITEM_IDS: set<int> :=
    {0, 2, 4, 75, 76, 77, 18, 388, 390, 378, 380, 384, 771, 472, 24, 474, 192,
     101, 102, 103, 104, 105, 106, 107, 130, 903, 904, 999, 998}

  /** `ITEM_DB[id]` is defined. */
  predicate InCatalog(id: int) { id in ITEM_IDS }

  /** The `name` field of `ITEM_DB[id]`. */
  function ItemName(id: int): string
    requires InCatalog(id)
  {
    match id
    case 0 => "Weed"
    case 2 => "Stone Node"
    case 4 => "Twig"
    case 75 => "Copper Ore Node"
    case 76 => "Iron Ore Node"
    case 77 => "Gold Ore Node"
    case 18 => "Daffodil"
    case 388 => "Wood"
    case 390 => "Stone"
    case 378 => "Copper Ore"
    case 380 => "Iron Ore"
    case 384 => "Gold Ore"
    case 771 => "Fiber"
    case 472 => "Parsnip Seeds"
    case 24 => "Parsnip"
    case 474 => "Potato Seeds"
    case 192 => "Potato"
    case 101 => "Hoe"
    case 102 => "Watering Can"
    case 103 => "Axe"
    case 104 => "Pickaxe"
    case 105 => "Rusty Sword"
    case 106 => "Scythe"
    case 107 => "Fishing Rod"
    case 130 => "Chest"
    case 903 => "Ladder Down"
    case 904 => "Ladder Up"
    case 999 => "Shipping Bin"
    case 998 => "Mailbox"
  }

  /** The catalogue entry of an id known to be in it. */
  function Def(id: int): ItemDef
    requires InCatalog(id)
  {
    Lookup(id).value
  }

  /** The catalogue's ids one by one, for proofs that go through the entries case by case. */
  lemma CatalogIds(id: int)
    requires InCatalog(id)
    ensures id == 0 || id == 2 || id == 4 || id == 75 || id == 76 || id == 77 || id == 18 ||
            id == 388 || id == 390 || id == 378 || id == 380 || id == 384 || id == 771 ||
            id == 472 || id == 24 || id == 474 || id == 192 || id == 101 || id == 102 ||
            id == 103 || id == 104 || id == 105 || id == 106 || id == 107 || id == 130 ||
            id == 903 || id == 904 || id == 999 || id == 998
  {
  }

  /** The catalogue's seeds are Parsnip Seeds and Potato Seeds. */
  lemma SeedIds(id: int)
    requires InCatalog(id) && Def(id).category == SeedCat
    ensures id == 472 || id == 474
  {
    CatalogIds(id);
  }

  /** The catalogue's obstacles are the debris and ore nodes. */
  lemma ObstacleIds(id: int)
    requires InCatalog(id) && Def(id).category == ObstacleCat
    ensures id in {0, 2, 4, 75, 76, 77}
  {
    CatalogIds(id);
  }

  /** A seed's cropId names a crop entry that lists its seasons. */
  lemma SeedsNameCrops(id: int)
    requires InCatalog(id) && Def(id).category == SeedCat
    ensures Def(id).cropId.Some? && InCatalog(Def(id).cropId.value)
    ensures Def(Def(id).cropId.value).category == CropCat
    ensures Def(Def(id).cropId.value).seasons.Some?
  {
    SeedIds(id);
  }

  /** An obstacle's drop is a truthy id naming a resource entry. */
  lemma ObstaclesDropResources(id: int)
    requires InCatalog(id) && Def(id).category == ObstacleCat
    ensures Def(id).drop.Some? && Def(id).drop.value != 0 && InCatalog(Def(id).drop.value)
    ensures Def(Def(id).drop.value).category == ResourceCat
  {
    ObstacleIds(id);
  }

  /** No catalogue entry selects two of the grid-modifying tool effects. */
  lemma ToolEffectsAreExclusive(id: int)
    requires InCatalog(id)
    ensures ToolEffectsExclusive(Def(id))
  {
    CatalogIds(id);
  }

  /** Every edible entry restores a positive amount of energy. */
  lemma EdibleRestoresEnergy(id: int)
    requires InCatalog(id) && Def(id).edible
    ensures Def(id).energyRestore > 0
  {
    CatalogIds(id);
  }

  /** The number of hotbar slots the player can select directly. */
  const HOTBAR_SIZE: int := 6

  /** INITIAL_INVENTORY, built by index assignments into a null-filled array. */
  function InitialInventory(): (inv: seq<Slot>)
    ensures |inv| == INVENTORY_SIZE
    ensures forall i :: 0 <= i < 9 ==>
              inv[i].Some? && InCatalog(inv[i].value.id) && inv[i].value.count >= 1
    ensures forall i :: 9 <= i < |inv| ==> inv[i] == None
  {
    seq(INVENTORY_SIZE, _ => None)
      [0 := Some(ItemInstance(101, 1))]  // Hoe
      [1 := Some(ItemInstance(102, 1))]  // Can
      [2 := Some(ItemInstance(103, 1))]  // Axe
      [3 := Some(ItemInstance(104, 1))]  // Pickaxe
      [4 := Some(ItemInstance(105, 1))]  // Sword
      [5 := Some(ItemInstance(106, 1))]  // Scythe
      [6 := Some(ItemInstance(107, 1))]  // Rod
      [7 := Some(ItemInstance(472, 5))]  // Parsnip Seeds
      [8 := Some(ItemInstance(130, 1))]  // Free Chest
  }

  /** The keys of a variant's table of lines: 'INTRO' and one per weather name. */
  datatype DialogueKey = IntroKey | WeatherKey(weather: Weather)

  /** NPC_DIALOGUES[variant][key]; both variants have a list under every key. */
  function NpcDialogues(variant: Variant, key: DialogueKey): (lines: seq<string>)
    ensures |lines| == 2
  {
    match (variant, key)
    case (Mayor, IntroKey) => ["Welcome to Og Valley!", "I'm Mayor Lewis. It's great to see new faces."]
    case (Mayor, WeatherKey(Sunny)) => ["A perfect day for farming!", "Keep the valley clean, will you?"]
    case (Mayor, WeatherKey(Rainy)) => ["Ah, the rain. Good for the crops, bad for my boots.", "You don't need to water crops today."]
    case (Mayor, WeatherKey(Stormy)) => ["Stay safe! The lightning is fierce today.", "I hope the town hall roof holds..."]
    case (Granny, IntroKey) => ["Oh, hello dearie.", "You remind me of my grandson."]
    case (Granny, WeatherKey(Sunny)) => ["The flowers look lovely in the sun.", "Make sure to take breaks, dear."]
    case (Granny, WeatherKey(Rainy)) => ["My knees ache when it rains...", "Nothing like a cup of tea on a wet day."]
    case (Granny, WeatherKey(Stormy)) => ["Oh my, what a racket outside!", "I'm staying indoors with my knitting."]
  }

  /** The season count matches the `% 4` of the clock's rollover. */
  lemma SeasonCount()
    ensures |SEASONS| == 4
    ensures forall i, j :: 0 <= i < j < |SEASONS| ==> SEASONS[i] != SEASONS[j]
  {
  }
}
