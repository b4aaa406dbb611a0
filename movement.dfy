// Facing and walking: getTargetCoords (components/Game.tsx:285-294) and the
// move resolver handleMove (components/Game.tsx:296-346), which checks, in
// this order, the grid bounds, a warp on the target tile, the tile's
// walkability, a blocking object and an NPC standing there.
module Movement {
  import opened Util
  import opened Records
  import opened Catalog
  import opened Generator
  import opened Social

  /**
   * The facing after pressing (dx, dy): each later test overrides the
   * earlier ones, so a vertical component wins over a horizontal one.
   */
  function NewFacing(f: Facing, dx: int, dy: int): (r: Facing)
    ensures dy > 0 ==> r == Down
    ensures dy < 0 ==> r == Up
    ensures dy == 0 && dx > 0 ==> r == Right
    ensures dy == 0 && dx < 0 ==> r == Left
    ensures dx == 0 && dy == 0 ==> r == f
  {
    var f1 := if dx > 0 then Right else f;
    var f2 := if dx < 0 then Left else f1;
    var f3 := if dy > 0 then Down else f2;
    if dy < 0 then Up else f3
  }

  /** The tile in front of the player. */
  function TargetCoords(x: int, y: int, facing: Facing): (r: (int, int))
    ensures Abs(r.0 - x) + Abs(r.1 - y) == 1
    ensures facing == Up ==> r == (x, y - 1)
    ensures facing == Down ==> r == (x, y + 1)
    ensures facing == Left ==> r == (x - 1, y)
    ensures facing == Right ==> r == (x + 1, y)
  {
    match facing
    case Up => (x, y - 1)
    case Down => (x, y + 1)
    case Left => (x - 1, y)
    case Right => (x + 1, y)
  }

  /** After a one-tile move attempt the player faces the tile it tried to enter. */
  lemma FacingPointsAlongMove(x: int, y: int, f: Facing, dx: int, dy: int)
    requires Abs(dx) + Abs(dy) == 1
    ensures TargetCoords(x, y, NewFacing(f, dx, dy)) == (x + dx, y + dy)
  {
  }

  /** An object the player cannot walk into: solid, interactive or a container. */
  predicate Blocks(objectId: Option<int>)
  {
    objectId.Some? && Lookup(objectId.value).Some?
    && var d := Lookup(objectId.value).value;
       d.solid || d.category == InteractiveCat || d.category == ContainerCat
  }

  datatype MoveOutcome = OffGrid | Warped(warp: Warp) | Unwalkable | ObjectBlocked | NpcBlocked | Walked

  /** The first rule of handleMove that applies to a step by (dx, dy) from (x, y). */
  function ResolveMove(g: Grid, npcs: seq<Npc>, scene: Scene, x: int, y: int, dx: int, dy: int): (r: MoveOutcome)
    requires Shaped(g)
    ensures r == OffGrid <==> !InBounds(x + dx, y + dy)
    ensures r.Warped? <==> InBounds(x + dx, y + dy) && g[y + dy][x + dx].warp.Some?
    ensures r.Warped? ==> r.warp == g[y + dy][x + dx].warp.value
    ensures r == Unwalkable <==>
              InBounds(x + dx, y + dy) && g[y + dy][x + dx].warp.None? && !g[y + dy][x + dx].canWalk
    ensures r == ObjectBlocked <==>
              InBounds(x + dx, y + dy) && g[y + dy][x + dx].warp.None? && g[y + dy][x + dx].canWalk
              && Blocks(g[y + dy][x + dx].objectId)
    ensures r == NpcBlocked <==>
              InBounds(x + dx, y + dy) && g[y + dy][x + dx].warp.None? && g[y + dy][x + dx].canWalk
              && !Blocks(g[y + dy][x + dx].objectId) && NpcAt(npcs, scene, x + dx, y + dy)
    ensures r == Walked <==>
              InBounds(x + dx, y + dy) && g[y + dy][x + dx].warp.None? && g[y + dy][x + dx].canWalk
              && !Blocks(g[y + dy][x + dx].objectId) && !NpcAt(npcs, scene, x + dx, y + dy)
  {
    var nx, ny := x + dx, y + dy;
    if !InBounds(nx, ny) then OffGrid
    else
      var t := g[ny][nx];
      if t.warp.Some? then Warped(t.warp.value)
      else if !t.canWalk then Unwalkable
      else if Blocks(t.objectId) then ObjectBlocked
      else if NpcAt(npcs, scene, nx, ny) then NpcBlocked
      else Walked
  }

  /**
   * The player after the move: a warp relocates to the warp's coordinates, a
   * walk moves by exactly (dx, dy), and every other outcome leaves the
   * position alone; the facing turns toward the move except when an object
   * blocks it, which leaves the player untouched.
   */
  function Moved(p: Player, r: MoveOutcome, dx: int, dy: int): (q: Player)
    ensures q.(x := p.x, y := p.y, facing := p.facing) == p
    ensures r == ObjectBlocked ==> q == p
    ensures r != ObjectBlocked ==> q.facing == NewFacing(p.facing, dx, dy)
    ensures r.Warped? ==> (q.x, q.y) == (r.warp.x, r.warp.y)
    ensures r == Walked ==> (q.x, q.y) == (p.x + dx, p.y + dy)
    ensures !r.Warped? && r != Walked ==> (q.x, q.y) == (p.x, p.y)
  {
    var facing := NewFacing(p.facing, dx, dy);
    match r
    case OffGrid => p.(facing := facing)
    case Warped(w) => p.(x := w.x, y := w.y, facing := facing)
    case Unwalkable => p.(facing := facing)
    case ObjectBlocked => p
    case NpcBlocked => p.(facing := facing)
    case Walked => p.(x := p.x + dx, y := p.y + dy, facing := facing)
  }

  /** The scene after the move: a warp's target, otherwise the same scene. */
  function MovedScene(scene: Scene, r: MoveOutcome): Scene
  {
    if r.Warped? then r.warp.target else scene
  }

  /** A walk ends on an in-bounds, walkable tile with no warp, no blocking object and no NPC. */
  lemma WalkLandsOnFreeTile(g: Grid, npcs: seq<Npc>, scene: Scene, p: Player, dx: int, dy: int)
    requires Shaped(g) && ResolveMove(g, npcs, scene, p.x, p.y, dx, dy) == Walked
    ensures var q := Moved(p, Walked, dx, dy);
            InBounds(q.x, q.y) && g[q.y][q.x].canWalk && g[q.y][q.x].warp.None?
            && !Blocks(g[q.y][q.x].objectId) && !NpcAt(npcs, scene, q.x, q.y)
  {
  }

  /** On a well-formed grid a move never takes the player off the grid. */
  lemma MoveStaysOnGrid(g: Grid, npcs: seq<Npc>, scene: Scene, p: Player, dx: int, dy: int)
    requires GridOk(g) && InBounds(p.x, p.y)
    ensures var q := Moved(p, ResolveMove(g, npcs, scene, p.x, p.y, dx, dy), dx, dy);
            InBounds(q.x, q.y)
  {
    var r := ResolveMove(g, npcs, scene, p.x, p.y, dx, dy);
    if r.Warped? {
      assert TileOk(g[p.y + dy][p.x + dx]);
    }
  }
}
