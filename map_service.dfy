/** src/game/MapService.ts: the one-voxel-high ground map the helper walks
    on.  The ground is a Uint32 ndarray of shape [32·sx, 1, 32·sz], held here
    as `ground[x, z]`; the pathfinding grid marks water (id 6) unwalkable.
    The A* finder is a parameter: it is handed the rounded start, the target
    cell and a clone of the grid, and answers a list of cells. */
module MapServices {
  import opened Common
  import NearestVoxels

  const CHUNK_SIZE: int := 32
  const WATER: int := 6

  /** A terrain chunk: its position in chunk units and its bottom slab,
      `floor[x][z]` being `matrix.get(x, 0, z)`. */
  datatype Chunk = Chunk(position: (int, int, int), floor: seq<seq<int>>)

  /** What `ndarray.lo`/`hi` and `ops.assign` rely on: a non-negative
      horizontal position and a full 32 × 32 slab.  The height only enters
      the size fold, so any height will do. */
  predicate ValidChunk(c: Chunk)
  {
    && c.position.0 >= 0 && c.position.2 >= 0
    && |c.floor| == CHUNK_SIZE
    && forall i :: 0 <= i < |c.floor| ==> |c.floor[i]| == CHUNK_SIZE
  }

  /** A number as a Uint32Array slot stores it. */
  function Uint32(v: int): int
  {
    v % 0x1_0000_0000
  }

  function Max(a: int, b: int): int
  {
    if a >= b then a else b
  }

  /** The `reduce` over the chunks: per axis, the largest `position + 1`,
      starting from [0, 0, 0]. */
  function Size(chunks: seq<Chunk>): (int, int, int)
  {
    if chunks == [] then (0, 0, 0)
    else
      var prev := Size(chunks[..|chunks| - 1]);
      var p := chunks[|chunks| - 1].position;
      (Max(p.0 + 1, prev.0), Max(p.1 + 1, prev.1), Max(p.2 + 1, prev.2))
  }

  /** The size is the least that holds every chunk: each chunk lies below it
      on every axis, and each axis is 0 or one past some chunk's position. */
  lemma {:induction false} SizeCovers(chunks: seq<Chunk>)
    ensures var s := Size(chunks);
      && s.0 >= 0 && s.1 >= 0 && s.2 >= 0
      && (forall i :: 0 <= i < |chunks| ==>
            chunks[i].position.0 < s.0 && chunks[i].position.1 < s.1 && chunks[i].position.2 < s.2)
      && (s.0 == 0 || exists i :: 0 <= i < |chunks| && s.0 == chunks[i].position.0 + 1)
      && (s.2 == 0 || exists i :: 0 <= i < |chunks| && s.2 == chunks[i].position.2 + 1)
  {
    if chunks != [] {
      var init := chunks[..|chunks| - 1];
      SizeCovers(init);
      var s := Size(chunks);
      var last := |chunks| - 1;
      forall i | 0 <= i < |chunks|
        ensures chunks[i].position.0 < s.0 && chunks[i].position.1 < s.1 && chunks[i].position.2 < s.2
      {
        if i < last {
          assert chunks[i] == init[i];
        }
      }
      if s.0 != 0 && s.0 != chunks[last].position.0 + 1 {
        var j :| 0 <= j < |init| && Size(init).0 == init[j].position.0 + 1;
        assert chunks[j] == init[j];
      }
      if s.2 != 0 && s.2 != chunks[last].position.2 + 1 {
        var j :| 0 <= j < |init| && Size(init).2 == init[j].position.2 + 1;
        assert chunks[j] == init[j];
      }
    }
  }

  /** Cell (x, z) of the ground lies in the chunk's destination block. */
  predicate InBlock(c: Chunk, x: int, z: int)
  {
    && CHUNK_SIZE * c.position.0 <= x < CHUNK_SIZE * c.position.0 + CHUNK_SIZE
    && CHUNK_SIZE * c.position.2 <= z < CHUNK_SIZE * c.position.2 + CHUNK_SIZE
  }

  /** The ground value the constructor leaves at (x, z): the slab of the last
      chunk whose block holds the cell, or 0.  A chunk's y position plays no
      part, so of two chunks stacked at the same x and z the later wins. */
  function Covering(chunks: seq<Chunk>, x: int, z: int): int
    requires forall i :: 0 <= i < |chunks| ==> ValidChunk(chunks[i])
  {
    if chunks == [] then 0
    else
      var c := chunks[|chunks| - 1];
      assert ValidChunk(c);
      if InBlock(c, x, z)
      then Uint32(c.floor[x - CHUNK_SIZE * c.position.0][z - CHUNK_SIZE * c.position.2])
      else Covering(chunks[..|chunks| - 1], x, z)
  }

  /** Chunks stacked at the same x and z: only the later one's slab is seen. */
  lemma StackedChunksOverwrite(chunks: seq<Chunk>, lower: Chunk, upper: Chunk, x: int, z: int)
    requires forall i :: 0 <= i < |chunks| ==> ValidChunk(chunks[i])
    requires ValidChunk(lower) && ValidChunk(upper)
    requires lower.position.0 == upper.position.0 && lower.position.2 == upper.position.2
    requires lower.position.1 != upper.position.1
    requires InBlock(upper, x, z)
    ensures Covering(chunks + [lower, upper], x, z)
         == Uint32(upper.floor[x - CHUNK_SIZE * upper.position.0][z - CHUNK_SIZE * upper.position.2])
  {
  }

  /** `ops.assign(dest, src)` for one chunk: its slab is copied into the
      ground block at (32·px, 32·pz), every other cell kept. */
  method AssignSlab(g: array2<int>, c: Chunk)
    requires ValidChunk(c)
    requires CHUNK_SIZE * c.position.0 + CHUNK_SIZE <= g.Length0
    requires CHUNK_SIZE * c.position.2 + CHUNK_SIZE <= g.Length1
    modifies g
    ensures forall i, j :: 0 <= i < g.Length0 && 0 <= j < g.Length1 ==>
      g[i, j] == if InBlock(c, i, j)
                 then Uint32(c.floor[i - CHUNK_SIZE * c.position.0][j - CHUNK_SIZE * c.position.2])
                 else old(g[i, j])
  {
    var ox, oz := CHUNK_SIZE * c.position.0, CHUNK_SIZE * c.position.2;
    var x := 0;
    while x < CHUNK_SIZE
      invariant 0 <= x <= CHUNK_SIZE
      invariant forall i, j :: 0 <= i < g.Length0 && 0 <= j < g.Length1 ==>
        g[i, j] == if ox <= i < ox + x && oz <= j < oz + CHUNK_SIZE
                   then Uint32(c.floor[i - ox][j - oz])
                   else old(g[i, j])
    {
      var z := 0;
      while z < CHUNK_SIZE
        invariant 0 <= z <= CHUNK_SIZE
        invariant forall i, j :: 0 <= i < g.Length0 && 0 <= j < g.Length1 ==>
          g[i, j] == if (ox <= i < ox + x && oz <= j < oz + CHUNK_SIZE) || (i == ox + x && oz <= j < oz + z)
                     then Uint32(c.floor[i - ox][j - oz])
                     else old(g[i, j])
      {
        g[ox + x, oz + z] := Uint32(c.floor[x][z]);
        z := z + 1;
      }
      x := x + 1;
    }
  }

  /** The constructor's ground: a zeroed buffer sized by `Size`, then each
      chunk's slab copied in, in order. */
  method BuildGround(chunks: seq<Chunk>) returns (g: array2<int>)
    requires forall i :: 0 <= i < |chunks| ==> ValidChunk(chunks[i])
    ensures fresh(g)
    ensures g.Length0 == CHUNK_SIZE * Size(chunks).0 && g.Length1 == CHUNK_SIZE * Size(chunks).2
    ensures forall i, j :: 0 <= i < g.Length0 && 0 <= j < g.Length1 ==> g[i, j] == Covering(chunks, i, j)
  {
    SizeCovers(chunks);
    var size := Size(chunks);
    g := new int[CHUNK_SIZE * size.0, CHUNK_SIZE * size.2]((i, j) => 0);
    var k := 0;
    while k < |chunks|
      invariant 0 <= k <= |chunks|
      invariant forall i, j :: 0 <= i < g.Length0 && 0 <= j < g.Length1 ==> g[i, j] == Covering(chunks[..k], i, j)
    {
      assert chunks[..k + 1][..k] == chunks[..k];
      AssignSlab(g, chunks[k]);
      k := k + 1;
    }
    assert chunks[..k] == chunks;
  }

  /** The constructor's grid: every cell walkable except those holding water. */
  method BuildGrid(g: array2<int>) returns (w: array2<bool>)
    ensures fresh(w)
    ensures w.Length0 == g.Length0 && w.Length1 == g.Length1
    ensures forall i, j :: 0 <= i < g.Length0 && 0 <= j < g.Length1 ==> (w[i, j] <==> g[i, j] != WATER)
  {
    w := new bool[g.Length0, g.Length1]((i, j) => true);
    var x := 0;
    while x < g.Length0
      invariant 0 <= x <= g.Length0
      invariant forall i, j :: 0 <= i < g.Length0 && 0 <= j < g.Length1 ==>
        (w[i, j] <==> !(i < x && g[i, j] == WATER))
    {
      var z := 0;
      while z < g.Length1
        invariant 0 <= z <= g.Length1
        invariant forall i, j :: 0 <= i < g.Length0 && 0 <= j < g.Length1 ==>
          (w[i, j] <==> !((i < x || (i == x && j < z)) && g[i, j] == WATER))
      {
        if g[x, z] == WATER {
          w[x, z] := false;
        }
        z := z + 1;
      }
      x := x + 1;
    }
  }

  /** `Math.round`: halves go up. */
  function Round(v: real): int
  {
    (v + 0.5).Floor
  }

  /** `findPath`'s `path.map`: each A* cell at the start's height. */
  function Waypoints(path: seq<(int, int)>, y: real): (ws: seq<Vec3>)
    ensures |ws| == |path|
    ensures forall i :: 0 <= i < |path| ==> ws[i] == Vec3(path[i].0 as real, y, path[i].1 as real)
  {
    seq(|path|, i requires 0 <= i < |path| => Vec3(path[i].0 as real, y, path[i].1 as real))
  }

  /** The candidate cells `findWalkableAdjacent` tries around a water cell. */
  function Neighbours(x: int, z: int): seq<(int, int)>
  {
    [(x, z - 1), (x, z + 1), (x - 1, z), (x + 1, z)]
  }

  /** Every neighbour is at squared distance 1 from the cell. */
  lemma NeighboursAtDistanceOne(x: int, z: int, i: int)
    requires 0 <= i < 4
    ensures var p := Neighbours(x, z)[i];
      (p.0 - x) * (p.0 - x) + (p.1 - z) * (p.1 - z) == 1
  {
  }

  class MapService {
    const ground: array2<int>
    /** The PF.Grid's walkable flags, `grid[x, z]`. */
    const grid: array2<bool>
    /** Calls forwarded to `game.setBlock`, as (x, y, z, blockId). */
    var blockWrites: seq<(int, int, int, int)>

    constructor (chunks: seq<Chunk>)
      requires forall i :: 0 <= i < |chunks| ==> ValidChunk(chunks[i])
      ensures ground.Length0 == CHUNK_SIZE * Size(chunks).0 && ground.Length1 == CHUNK_SIZE * Size(chunks).2
      ensures forall i, j :: 0 <= i < ground.Length0 && 0 <= j < ground.Length1 ==>
        ground[i, j] == Covering(chunks, i, j)
      ensures grid.Length0 == ground.Length0 && grid.Length1 == ground.Length1
      ensures forall i, j :: 0 <= i < ground.Length0 && 0 <= j < ground.Length1 ==>
        (grid[i, j] <==> Covering(chunks, i, j) != WATER)
      ensures blockWrites == []
    {
      var g := BuildGround(chunks);
      var w := BuildGrid(g);
      ground := g;
      grid := w;
      blockWrites := [];
    }

    /** The cell at buffer offset x·Z + z, which is how the ndarray addresses
        `(x, 0, z)`: it does not check the axes, so a z just outside [0, Z)
        lands in the neighbouring row, and an offset outside the buffer
        names no cell. */
    function FlatCell(x: int, z: int): (c: Option<(int, int)>)
      reads this
      ensures c.Some? ==> 0 <= c.value.0 < ground.Length0 && 0 <= c.value.1 < ground.Length1
    {
      var zs := ground.Length1;
      var k := x * zs + z;
      if zs > 0 && 0 <= k < ground.Length0 * zs then
        FlatIndexInRange(k, ground.Length0, zs);
        Some((k / zs, k % zs))
      else None
    }

    /** `ground.get(x, 0, z)`: undefined outside the buffer. */
    function Get(x: int, z: int): Option<int>
      reads this, ground
    {
      match FlatCell(x, z)
      case None => None
      case Some(c) => Some(ground[c.0, c.1])
    }

    /** `findWalkableAdjacent`, as a specification: the cell itself unless it
        reads as water, else the first neighbour that does not. */
    function WalkableAdjacent(x: int, z: int): Option<(int, int)>
      reads this, ground
    {
      if Get(x, z) != Some(WATER) then Some((x, z))
      else FirstNotWater(Neighbours(x, z))
    }

    function FirstNotWater(ps: seq<(int, int)>): Option<(int, int)>
      reads this, ground
    {
      if ps == [] then None
      else if Get(ps[0].0, ps[0].1) != Some(WATER) then Some(ps[0])
      else FirstNotWater(ps[1..])
    }

    /** The loop keeps the strictly closer candidate; all four are at the
        same distance, so the first that is not water is kept. */
    method FindWalkableAdjacent(x: int, z: int) returns (r: Option<(int, int)>)
      ensures r == WalkableAdjacent(x, z)
    {
      if Get(x, z) != Some(WATER) {
        return Some((x, z));
      }
      var points := Neighbours(x, z);
      var minDist: Option<int> := None;
      r := None;
      var i := 0;
      while i < |points|
        invariant 0 <= i <= |points|
        invariant FirstNotWater(points) == if r.Some? then r else FirstNotWater(points[i..])
        invariant r.Some? <==> minDist.Some?
        invariant minDist.Some? ==> minDist.value == 1
      {
        var p := points[i];
        if Get(p.0, p.1) != Some(WATER) {
          NeighboursAtDistanceOne(x, z, i);
          var distance := (p.0 - x) * (p.0 - x) + (p.1 - z) * (p.1 - z);
          if minDist.None? || distance < minDist.value {
            minDist := Some(distance);
            r := Some(p);
          }
        }
        assert points[i..][1..] == points[i + 1..];
        i := i + 1;
      }
    }

    /** `findPath(src, dest)`: the A* cells toward the walkable cell next to
        `dest`, each at the start's height, then `dest` itself.  When no cell
        around `dest` is walkable, reading `point[0]` throws.  The finder
        works on a clone, so the grid is not changed. */
    method FindPath(src: Vec3, dest: (int, real, int), finder: (int, int, int, int) -> seq<(int, int)>)
        returns (r: Result<seq<Vec3>>)
      ensures r.Ok? <==> WalkableAdjacent(dest.0, dest.2).Some?
      ensures r.Ok? ==>
        var p := WalkableAdjacent(dest.0, dest.2).value;
        var cells := finder(Round(src.x), Round(src.z), p.0, p.1);
        && |r.value| == |cells| + 1
        && (forall i :: 0 <= i < |cells| ==>
              r.value[i] == Vec3(cells[i].0 as real, src.y, cells[i].1 as real))
        && r.value[|cells|] == Vec3(dest.0 as real, dest.1, dest.2 as real)
    {
      var point := FindWalkableAdjacent(dest.0, dest.2);
      if point.None? {
        return Err("TypeError: Cannot read property '0' of undefined");
      }
      var path := finder(Round(src.x), Round(src.z), point.value.0, point.value.1);
      r := Ok(Waypoints(path, src.y) + [Vec3(dest.0 as real, dest.1, dest.2 as real)]);
    }

    /** `setBlock`: forwards to the game and stores the id (as Uint32) in the
        ground at (x, 0, z) whatever y is; the grid is not updated. */
    method SetBlock(x: int, y: int, z: int, blockId: int)
      modifies this, ground
      ensures blockWrites == old(blockWrites) + [(x, y, z, blockId)]
      ensures forall i, j :: 0 <= i < ground.Length0 && 0 <= j < ground.Length1 ==>
        ground[i, j] == if FlatCell(x, z) == Some((i, j)) then Uint32(blockId) else old(ground[i, j])
    {
      blockWrites := blockWrites + [(x, y, z, blockId)];
      var cell := FlatCell(x, z);
      if cell.Some? {
        ground[cell.value.0, cell.value.1] := Uint32(blockId);
      }
    }

    /** `searchForNearestVoxel`: the one-id kernel for one id, the seven-id
        kernel for seven, and null for any other count. */
    method SearchForNearestVoxel(center: Vec3, blockIds: seq<int>) returns (r: Option<(int, int, int)>)
      ensures |blockIds| != 1 && |blockIds| != 7 ==> r.None?
      ensures r.Some? ==>
        && NearestVoxels.IsNearest(ground, center.x, center.z, blockIds, r.value.1, r.value.2)
        && r.value.0 == ground[r.value.1, r.value.2] && r.value.0 != 0
      ensures r.None? && (|blockIds| == 1 || |blockIds| == 7) ==>
        || NearestVoxels.NoMatch(ground, blockIds)
        || exists x: int, z: int :: NearestVoxels.IsNearest(ground, center.x, center.z, blockIds, x, z) && ground[x, z] == 0
    {
      if |blockIds| == 1 || |blockIds| == 7 {
        r := NearestVoxels.Search(ground, center.x, center.z, blockIds);
      } else {
        r := None;
      }
    }
  }

  /** An offset inside an X × Z buffer names a cell of it. */
  lemma FlatIndexInRange(k: int, xs: int, zs: int)
    requires zs > 0 && 0 <= k < xs * zs
    ensures 0 <= k / zs < xs && 0 <= k % zs < zs
  {
    if k / zs >= xs {
      MulMonotone(k / zs, xs, zs);
      assert false;
    }
  }

  lemma MulMonotone(a: int, b: int, c: int)
    requires a >= b && c >= 0
    ensures a * c >= b * c
  {
  }

  /** The quotient and remainder of k by d are the only such pair. */
  lemma DivModUnique(q: int, r: int, d: int, k: int)
    requires d > 0 && 0 <= r < d && k == q * d + r
    ensures q == k / d && r == k % d
  {
    var q', r' := k / d, k % d;
    assert k == q' * d + r';
    if q > q' {
      MulMonotone(q, q' + 1, d);
      assert false;
    } else if q < q' {
      MulMonotone(q', q + 1, d);
      assert false;
    }
  }

  lemma FlatIndexBound(i: int, j: int, xs: int, zs: int)
    requires 0 <= i < xs && 0 <= j < zs
    ensures 0 <= i * zs + j < xs * zs
  {
    MulMonotone(xs, i + 1, zs);
  }

  /** An in-range pair addresses its own cell. */
  lemma FlatCellInGround(m: MapService, x: int, z: int)
    requires 0 <= x < m.ground.Length0 && 0 <= z < m.ground.Length1
    ensures m.FlatCell(x, z) == Some((x, z))
    ensures m.Get(x, z) == Some(m.ground[x, z])
  {
    FlatIndexBound(x, z, m.ground.Length0, m.ground.Length1);
    DivModUnique(x, z, m.ground.Length1, x * m.ground.Length1 + z);
  }

  /** At the z = 0 edge, the neighbour `(x, z - 1)` reads the last cell of
      the previous row. */
  lemma EdgeReadWraps(m: MapService, x: int)
    requires 1 <= x < m.ground.Length0 && m.ground.Length1 > 0
    ensures m.FlatCell(x, -1) == Some((x - 1, m.ground.Length1 - 1))
    ensures m.Get(x, -1) == Some(m.ground[x - 1, m.ground.Length1 - 1])
  {
    var zs := m.ground.Length1;
    assert x * zs - 1 == (x - 1) * zs + (zs - 1);
    FlatIndexBound(x - 1, zs - 1, m.ground.Length0, zs);
    DivModUnique(x - 1, zs - 1, zs, x * zs - 1);
  }

  /** The first candidate that does not read as water, if any. */
  lemma {:induction false} FirstNotWaterFinds(m: MapService, ps: seq<(int, int)>)
    ensures m.FirstNotWater(ps).None? <==> forall i :: 0 <= i < |ps| ==> m.Get(ps[i].0, ps[i].1) == Some(WATER)
    ensures m.FirstNotWater(ps).Some? ==>
      exists i :: (&& 0 <= i < |ps| && m.FirstNotWater(ps).value == ps[i]
                   && m.Get(ps[i].0, ps[i].1) != Some(WATER)
                   && forall j :: 0 <= j < i ==> m.Get(ps[j].0, ps[j].1) == Some(WATER))
  {
    if ps != [] {
      FirstNotWaterFinds(m, ps[1..]);
      if m.Get(ps[0].0, ps[0].1) == Some(WATER) {
        if m.FirstNotWater(ps[1..]).Some? {
          var i :| 0 <= i < |ps[1..]| && m.FirstNotWater(ps[1..]).value == ps[1..][i]
            && m.Get(ps[1..][i].0, ps[1..][i].1) != Some(WATER)
            && forall j :: 0 <= j < i ==> m.Get(ps[1..][j].0, ps[1..][j].1) == Some(WATER);
          assert m.FirstNotWater(ps).value == ps[i + 1];
        }
        forall i | 0 <= i < |ps| && m.FirstNotWater(ps[1..]).None?
          ensures m.Get(ps[i].0, ps[i].1) == Some(WATER)
        {
          if i > 0 {
            assert ps[i] == ps[1..][i - 1];
          }
        }
      } else {
        assert m.FirstNotWater(ps).value == ps[0];
      }
    }
  }

  /** A walkable cell is kept; a water cell with a walkable neighbour gives
      the first such neighbour; a water cell surrounded by water gives none. */
  lemma WalkableAdjacentCases(m: MapService, x: int, z: int)
    requires 0 <= x < m.ground.Length0 && 0 <= z < m.ground.Length1
    ensures m.ground[x, z] != WATER ==> m.WalkableAdjacent(x, z) == Some((x, z))
    ensures m.ground[x, z] == WATER ==>
      (m.WalkableAdjacent(x, z).None? <==>
         forall i :: 0 <= i < 4 ==> m.Get(Neighbours(x, z)[i].0, Neighbours(x, z)[i].1) == Some(WATER))
  {
    FlatCellInGround(m, x, z);
    FirstNotWaterFinds(m, Neighbours(x, z));
  }

  /** A path that ends at the voxel with one of the ids nearest to `from`,
      at the height of `from`. */
  ghost predicate EndsAtNearest(g: array2<int>, from: Vec3, blockIds: seq<int>, path: seq<Vec3>)
    reads g
  {
    && |path| > 0
    && exists x: int, z: int ::
         && NearestVoxels.IsNearest(g, from.x, from.z, blockIds, x, z)
         && path[|path| - 1] == Vec3(x as real, from.y, z as real)
  }

  /** (x, z) is where a walk for the ids from `from` heads: the search
      answers it (one or seven ids, the nearest match, not the falsy id 0)
      and `findWalkableAdjacent` finds a cell next to it. */
  ghost predicate Reachable(m: MapService, from: Vec3, blockIds: seq<int>, x: int, z: int)
    reads m, m.ground
  {
    && (|blockIds| == 1 || |blockIds| == 7)
    && NearestVoxels.IsNearest(m.ground, from.x, from.z, blockIds, x, z)
    && m.ground[x, z] != 0
    && m.WalkableAdjacent(x, z).Some?
  }

  /** A walk for the ids can start from `from`. */
  ghost predicate CanWalk(m: MapService, from: Vec3, blockIds: seq<int>)
    reads m, m.ground
  {
    exists x: int, z: int :: Reachable(m, from, blockIds, x, z)
  }

  /** The path `findPath` plans from `from` to (x, z): the finder's cells
      toward the walkable cell next to (x, z), then (x, z), all at the
      height of `from`. */
  ghost function Route(m: MapService, from: Vec3, x: int, z: int, finder: (int, int, int, int) -> seq<(int, int)>): seq<Vec3>
    requires m.WalkableAdjacent(x, z).Some?
    reads m, m.ground
  {
    var p := m.WalkableAdjacent(x, z).value;
    Waypoints(finder(Round(from.x), Round(from.z), p.0, p.1), from.y) + [Vec3(x as real, from.y, z as real)]
  }

  /** `path` is the route to the voxel a walk for the ids heads to. */
  ghost predicate PlannedWalk(m: MapService, from: Vec3, blockIds: seq<int>,
                              finder: (int, int, int, int) -> seq<(int, int)>, path: seq<Vec3>)
    reads m, m.ground
  {
    exists x: int, z: int :: Reachable(m, from, blockIds, x, z) && path == Route(m, from, x, z, finder)
  }

  /** A planned walk ends at the nearest voxel with one of the ids. */
  lemma PlannedWalkEndsAtNearest(m: MapService, from: Vec3, blockIds: seq<int>,
                                 finder: (int, int, int, int) -> seq<(int, int)>, path: seq<Vec3>)
    requires PlannedWalk(m, from, blockIds, finder, path)
    ensures EndsAtNearest(m.ground, from, blockIds, path)
  {
    var x: int, z: int :| Reachable(m, from, blockIds, x, z) && path == Route(m, from, x, z, finder);
    assert path[|path| - 1] == Vec3(x as real, from.y, z as real);
  }

  /** The walk the behaviours plan: the nearest voxel with one of the ids
      from `position`, then a path from `position` to that voxel at the
      walker's own height.  A null search result cannot be destructured
      and throws, and so does a path to a voxel with no walkable cell next
      to it; otherwise the walk is planned. */
  method PathToNearest(m: MapService, position: Vec3, blockIds: seq<int>,
                       finder: (int, int, int, int) -> seq<(int, int)>) returns (r: Result<seq<Vec3>>)
    ensures r.Ok? <==> CanWalk(m, position, blockIds)
    ensures r.Ok? ==> PlannedWalk(m, position, blockIds, finder, r.value)
    ensures |blockIds| != 1 && |blockIds| != 7 ==> r.Err?
    ensures NearestVoxels.NoMatch(m.ground, blockIds) ==> r.Err?
    ensures r.Ok? ==> EndsAtNearest(m.ground, position, blockIds, r.value)
  {
    var result := m.SearchForNearestVoxel(position, blockIds);
    if result.None? {
      return Err("TypeError: result is not iterable");
    }
    var (voxelId, p0, p1) := result.value;
    assert NearestVoxels.Matches(m.ground, blockIds, p0, p1);
    r := m.FindPath(position, (p0, position.y, p1), finder);
    forall x: int, z: int | Reachable(m, position, blockIds, x, z)
      ensures x == p0 && z == p1
    {
      NearestVoxels.NearestIsUnique(m.ground, position.x, position.z, blockIds, x, z, p0, p1);
    }
    if r.Ok? {
      assert Reachable(m, position, blockIds, p0, p1);
      assert r.value == Route(m, position, p0, p1, finder);
      PlannedWalkEndsAtNearest(m, position, blockIds, finder, r.value);
    }
  }
}
