// The record shapes of the simulation (types.ts) as Dafny values.
module Records {
  import opened Util

  datatype Scene = Farm | Town | Mine | House

  /** The scene's name as the source spells it ('FARM', 'TOWN', ...). */
  function SceneName(s: Scene): string
  {
    match s
    case Farm => "FARM"
    case Town => "TOWN"
    case Mine => "MINE"
    case House => "HOUSE"
  }

  datatype TileType = Grass | Dirt | Water | HouseFloor | StoneFloor | DarkDirt

  datatype Facing = Up | Down | Left | Right

  datatype UIMode = Playing | InventoryScreen | ChestScreen | ShopScreen | DialogueScreen

  datatype Weather = Sunny | Rainy | Stormy

  /** The weather's name, which is also its key in the dialogue table. */
  function WeatherName(w: Weather): string
  {
    match w
    case Sunny => "SUNNY"
    case Rainy => "RAINY"
    case Stormy => "STORMY"
  }

  /** An item stack; a slot that holds nothing is `None`, never a zero count. */
  datatype ItemInstance = ItemInstance(id: int, count: int)

  type Slot = Option<ItemInstance>

  /** A crop planted on a tile; `id` is the produce's catalogue id. */
  datatype Crop = Crop(id: int, stage: int, daysGrown: int, isWatered: bool, dead: bool)

  datatype Warp = Warp(target: Scene, x: int, y: int)

  /** One grid cell. The source's optional `tree` field is never set and is not modelled. */
  datatype Tile = Tile(
    x: int, y: int,
    kind: TileType,
    objectId: Option<int>,
    crop: Option<Crop>,
    isTilled: bool,
    isWatered: bool,
    canWalk: bool,
    warp: Option<Warp>)

  /** A scene's tiles, indexed `grid[y][x]`. */
  type Grid = seq<seq<Tile>>

  datatype Player = Player(
    x: int, y: int,
    facing: Facing,
    energy: int, maxEnergy: int,
    hp: int, maxHp: int,
    money: int,
    inventory: seq<Slot>,
    selectedSlot: int,
    cursorItem: Slot)

  datatype Variant = Mayor | Granny

  /** `affection` and `lastTalked` are absent until the first conversation. */
  datatype Npc = Npc(
    id: string, name: string,
    variant: Variant,
    scene: Scene,
    x: int, y: int,
    facing: Facing,
    affection: Option<int>,
    lastTalked: Option<int>)

  datatype MonsterKind = Slime

  datatype Monster = Monster(
    id: int, kind: MonsterKind,
    scene: Scene,
    x: int, y: int,
    hp: int, maxHp: int,
    damage: int)

  datatype GameState = GameState(day: int, time: int, seasonIdx: int, weather: Weather, isPaused: bool)
}
