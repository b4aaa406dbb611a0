// The scene generator generateGrid of components/Game.tsx:26-90: a fixed
// layout per scene plus debris (Farm) and ore nodes (Mine) placed by random
// draws. The draws are a parameter: a sequence of reals standing for the
// successive results of Math.random(), consumed in the order the source
// evaluates them.
module Generator {
  import opened Util
  import opened Records
  import opened Catalog

  /** Ids the generator may scatter: rocks, weeds and flowers on the Farm, ore and stone nodes in the Mine. */
  function DebrisIds(scene: Scene): set<int>
  {
    match scene
    case Farm => {2, 0, 18}
    case Mine => {77, 76, 75, 2}
    case _ => {}
  }

  /** A tile before any random placement: the deterministic part of generateGrid. */
  function Layout(scene: Scene, x: int, y: int): Tile
  {
    match scene
    case Farm =>
      var water := (x > 12 && y > 8) || (x == 13 && y == 9);
      var house := x >= 1 && x <= 4 && y >= 1 && y <= 3;
      var kind := if house then HouseFloor else if water then Water else Grass;
      var objectId: Option<int> := if x == 5 && y == 2 then Some(999)        // Bin
                                   else if x == 5 && y == 3 then Some(998)   // Mailbox
                                   else None;
      var canWalk := !water && !house && objectId.None?;
      var warp := if x == 2 && y == 3 then Some(Warp(House, 7, 9))           // house door
                  else if x == GRID_W - 1 then Some(Warp(Town, 1, 5))
                  else None;
      Tile(x, y, kind, objectId, None, false, false, canWalk, warp)
    case Town =>
      var warp := if x == GRID_W - 1 && y == 0 then Some(Warp(Mine, 2, 2))
                  else if x == 0 then Some(Warp(Farm, GRID_W - 2, 5))
                  else None;
      var objectId: Option<int> := if x == 8 && y == 5 then Some(18) else None;  // decorative flower
      Tile(x, y, StoneFloor, objectId, None, false, false, true, warp)
    case Mine =>
      var ladder := x == 1 && y == 1;
      Tile(x, y, DarkDirt, if ladder then Some(904) else None, None, false, false, true,
           if ladder then Some(Warp(Town, GRID_W - 2, 1)) else None)
    case House =>
      var furniture := (x >= 3 && x <= 5 && y == 2) || (x == 10 && y == 5);  // bed, TV
      Tile(x, y, HouseFloor, if x == 2 && y == 5 then Some(130) else None, None, false, false,
           !furniture, if x == 7 && y == 9 then Some(Warp(Farm, 2, 4)) else None)
  }

  /** A scene's grid has GRID_H rows of GRID_W tiles. */
  predicate Shaped(g: Grid)
  {
    |g| == GRID_H && forall y :: 0 <= y < GRID_H ==> |g[y]| == GRID_W
  }

  /**
   * What every tile of the game keeps: a crop grows only on tilled soil and
   * names a catalogue entry, tilled soil is dirt, and a warp leads onto the
   * grid.
   */
  predicate TileOk(t: Tile)
  {
    && (t.crop.Some? ==> t.isTilled && InCatalog(t.crop.value.id))
    && (t.isTilled ==> t.kind == Dirt)
    && (t.warp.Some? ==> InBounds(t.warp.value.x, t.warp.value.y))
  }

  /** A well-formed grid: the right shape and every tile well-formed. */
  predicate GridOk(g: Grid)
  {
    Shaped(g) && forall y, x :: 0 <= y < GRID_H && 0 <= x < GRID_W ==> TileOk(g[y][x])
  }

  /** The most draws one tile consumes (three debris rolls on the Farm). */
  const DRAWS_PER_TILE: int := 3
  /** Enough draws for a whole grid. */
  const MAX_DRAWS: int := DRAWS_PER_TILE * GRID_W * GRID_H

  /** The tile agrees with the layout except perhaps for a scattered object. */
  predicate FromLayout(scene: Scene, x: int, y: int, t: Tile)
  {
    var l := Layout(scene, x, y);
    && t == l.(objectId := t.objectId)
    && (t.objectId == l.objectId
        || (t.objectId.Some? && t.objectId.value in DebrisIds(scene) && l.objectId.None?
            && (scene == Farm ==> l.canWalk)))
  }

  /**
   * One generated tile, reading the draws from position `k` on; returns the
   * tile and the position of the next unread draw. On the Farm each debris
   * roll is drawn only while the tile is still walkable and empty; in the
   * Mine an ore roll is drawn only past x = 2, and the ore kind only when
   * that roll places a node.
   */
  function GenTile(scene: Scene, x: int, y: int, draws: seq<real>, k: nat): (r: (Tile, nat))
    requires k + DRAWS_PER_TILE <= |draws|
    ensures k <= r.1 <= k + DRAWS_PER_TILE
    ensures FromLayout(scene, x, y, r.0)
  {
    var l := Layout(scene, x, y);
    match scene
    case Farm =>
      if !(l.canWalk && l.objectId.None?) then (l, k)
      else if draws[k] < 0.08 then (l.(objectId := Some(2)), k + 1)        // Rock
      else if draws[k + 1] < 0.05 then (l.(objectId := Some(0)), k + 2)   // Weed
      else if draws[k + 2] < 0.02 then (l.(objectId := Some(18)), k + 3)  // Flower
      else (l, k + 3)
    case Mine =>
      if !(x > 2) then (l, k)
      else if !(draws[k] < 0.15) then (l, k + 1)
      else
        var rand := draws[k + 1];
        var ore := if rand < 0.05 then 77        // Gold (5%)
                   else if rand < 0.20 then 76   // Iron (15%)
                   else if rand < 0.50 then 75   // Copper (30%)
                   else 2;                       // Stone (50%)
        (l.(objectId := Some(ore)), k + 2)
    case _ => (l, k)
  }

  /** The first `n` tiles of row `y`, reading the draws from `k` on. */
  function RowUpTo(scene: Scene, y: int, n: nat, draws: seq<real>, k: nat): (r: (seq<Tile>, nat))
    requires k + DRAWS_PER_TILE * n <= |draws|
    ensures |r.0| == n
    ensures k <= r.1 <= k + DRAWS_PER_TILE * n
  {
    if n == 0 then ([], k)
    else
      var (row, k1) := RowUpTo(scene, y, n - 1, draws, k);
      var (t, k2) := GenTile(scene, n - 1, y, draws, k1);
      (row + [t], k2)
  }

  /** The first `m` rows of the grid and the number of draws they consume. */
  function GridUpTo(scene: Scene, m: nat, draws: seq<real>): (r: (Grid, nat))
    requires DRAWS_PER_TILE * GRID_W * m <= |draws|
    ensures |r.0| == m
    ensures r.1 <= DRAWS_PER_TILE * GRID_W * m
  {
    if m == 0 then ([], 0)
    else
      var (grid, k1) := GridUpTo(scene, m - 1, draws);
      var (row, k2) := RowUpTo(scene, m - 1, GRID_W, draws, k1);
      (grid + [row], k2)
  }

  /** A full-size grid whose every tile carries its own coordinates and comes from the layout. */
  predicate Generated(scene: Scene, g: Grid)
  {
    && |g| == GRID_H
    && (forall y :: 0 <= y < GRID_H ==> |g[y]| == GRID_W)
    && (forall y, x :: 0 <= y < GRID_H && 0 <= x < GRID_W ==> FromLayout(scene, x, y, g[y][x]))
  }

  /** Row `y` of a grid comes from the layout, tile by tile. */
  lemma {:induction false} RowFromLayout(scene: Scene, y: int, n: nat, draws: seq<real>, k: nat)
    requires k + DRAWS_PER_TILE * n <= |draws|
    ensures forall i :: 0 <= i < n ==> FromLayout(scene, i, y, RowUpTo(scene, y, n, draws, k).0[i])
  {
    if n > 0 {
      RowFromLayout(scene, y, n - 1, draws, k);
      var (row, k1) := RowUpTo(scene, y, n - 1, draws, k);
      assert RowUpTo(scene, y, n, draws, k).0 == row + [GenTile(scene, n - 1, y, draws, k1).0];
    }
  }

  /** The first `m` rows have full width and every tile comes from the layout. */
  predicate RowsFromLayout(scene: Scene, g: Grid, m: int)
    requires 0 <= m <= |g|
  {
    forall y :: 0 <= y < m ==>
      (|g[y]| == GRID_W && forall x :: 0 <= x < GRID_W ==> FromLayout(scene, x, y, g[y][x]))
  }

  /** Every generated row has full width and comes from the layout. */
  lemma {:induction false} GridFromLayout(scene: Scene, m: nat, draws: seq<real>)
    requires DRAWS_PER_TILE * GRID_W * m <= |draws|
    ensures RowsFromLayout(scene, GridUpTo(scene, m, draws).0, m)
  {
    if m > 0 {
      GridFromLayout(scene, m - 1, draws);
      var (grid, k1) := GridUpTo(scene, m - 1, draws);
      assert RowsFromLayout(scene, grid, m - 1);
      var row := RowUpTo(scene, m - 1, GRID_W, draws, k1).0;
      RowFromLayout(scene, m - 1, GRID_W, draws, k1);
      var g := GridUpTo(scene, m, draws).0;
      assert g == grid + [row];
      forall y | 0 <= y < m
        ensures |g[y]| == GRID_W && forall x :: 0 <= x < GRID_W ==> FromLayout(scene, x, y, g[y][x])
      {
        if y < m - 1 { assert g[y] == grid[y]; } else { assert g[y] == row; }
      }
    }
  }

  /**
   * generateGrid(scene): row by row, tile by tile, consuming draws as the
   * source does. Returns the grid and the number of draws read.
   */
  method GenerateGrid(scene: Scene, draws: seq<real>) returns (grid: Grid, used: nat)
    requires |draws| >= MAX_DRAWS
    ensures (grid, used) == GridUpTo(scene, GRID_H, draws)
    ensures used <= MAX_DRAWS
  {
    grid, used := [], 0;
    for y := 0 to GRID_H
      invariant (grid, used) == GridUpTo(scene, y, draws)
      invariant used <= DRAWS_PER_TILE * GRID_W * y
    {
      var row: seq<Tile> := [];
      var start := used;
      for x := 0 to GRID_W
        invariant (row, used) == RowUpTo(scene, y, x, draws, start)
        invariant start <= used <= start + DRAWS_PER_TILE * x
      {
        var (t, next) := GenTile(scene, x, y, draws, used);
        row := row + [t];
        used := next;
      }
      grid := grid + [row];
    }
  }

  /** A generated grid has full size and every tile comes from the layout. */
  lemma GridIsGenerated(scene: Scene, draws: seq<real>)
    requires |draws| >= MAX_DRAWS
    ensures Generated(scene, GridUpTo(scene, GRID_H, draws).0)
  {
    GridFromLayout(scene, GRID_H, draws);
  }

  /** Every warp leads to an in-bounds, walkable tile of its target scene. */
  lemma WarpTargetsWalkable(scene: Scene, x: int, y: int)
    requires InBounds(x, y) && Layout(scene, x, y).warp.Some?
    ensures var w := Layout(scene, x, y).warp.value;
            InBounds(w.x, w.y) && Layout(w.target, w.x, w.y).canWalk
  {
  }

  /** A generated grid is well-formed. */
  lemma GeneratedGridOk(scene: Scene, g: Grid)
    requires Generated(scene, g)
    ensures GridOk(g)
  {
    forall y, x | 0 <= y < GRID_H && 0 <= x < GRID_W
      ensures TileOk(g[y][x])
    {
      assert FromLayout(scene, x, y, g[y][x]);
      if g[y][x].warp.Some? {
        WarpTargetsWalkable(scene, x, y);
      }
    }
  }

  /** Every warp's target scene has a warp leading back. */
  lemma WarpsReciprocal(scene: Scene, x: int, y: int)
    requires InBounds(x, y) && Layout(scene, x, y).warp.Some?
    ensures var w := Layout(scene, x, y).warp.value;
            exists u, v :: InBounds(u, v) && Layout(w.target, u, v).warp.Some?
                             && Layout(w.target, u, v).warp.value.target == scene
  {
    var w := Layout(scene, x, y).warp.value;
    match scene
    case Farm =>
      if x == 2 && y == 3 { assert Layout(House, 7, 9).warp.value.target == Farm; }
      else { assert Layout(Town, 0, 5).warp.value.target == Farm; }
    case Town =>
      if x == GRID_W - 1 && y == 0 { assert Layout(Mine, 1, 1).warp.value.target == Town; }
      else { assert Layout(Farm, GRID_W - 1, 5).warp.value.target == Town; }
    case Mine => assert Layout(Town, GRID_W - 1, 0).warp.value.target == Mine;
    case House => assert Layout(Farm, 2, 3).warp.value.target == House;
  }

  /** Random placement never touches warps, walkability or the fixed fixtures. */
  lemma ScatterKeepsLayout(scene: Scene, g: Grid, x: int, y: int)
    requires Generated(scene, g) && InBounds(x, y)
    ensures g[y][x].warp == Layout(scene, x, y).warp
    ensures g[y][x].canWalk == Layout(scene, x, y).canWalk
    ensures Layout(scene, x, y).objectId.Some? ==> g[y][x].objectId == Layout(scene, x, y).objectId
    ensures g[y][x].crop.None? && !g[y][x].isTilled && !g[y][x].isWatered
  {
  }

  /**
   * On the Farm's east edge a rock can land on a warp tile: generateGrid
   * scatters debris before it assigns the edge warps.
   */
  lemma DebrisCanCoverFarmWarp()
    ensures var draws := [0.0] + seq(MAX_DRAWS - 1, _ => 0.5);
            GenTile(Farm, GRID_W - 1, 0, draws, 0).0.objectId == Some(2)
            && GenTile(Farm, GRID_W - 1, 0, draws, 0).0.warp.Some?
  {
  }
}
