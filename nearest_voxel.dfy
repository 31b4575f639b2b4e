/** src/game/ndops/searchForNearestVoxel.ts: a scan of a ground array (one
    voxel high, `ground[x, z]`) for the matching cell nearest to a point in
    the x-z plane.  The two exported kernels differ only in how many ids they
    compare against (one or seven), so both are this one scan with the ids as
    a sequence.  The kernel library visits cells in row-major order: x outer,
    z inner. */
module NearestVoxels {
  import opened Common

  /** The squared distance from (px, pz) to the cell (x, z); y plays no part. */
  function SquaredDistance(px: real, pz: real, x: int, z: int): real
  {
    (px - x as real) * (px - x as real) + (pz - z as real) * (pz - z as real)
  }

  /** (x1, z1) is visited before (x2, z2). */
  predicate Before(x1: int, z1: int, x2: int, z2: int)
  {
    x1 < x2 || (x1 == x2 && z1 < z2)
  }

  predicate InGround(g: array2<int>, x: int, z: int)
  {
    0 <= x < g.Length0 && 0 <= z < g.Length1
  }

  /** A cell whose value is one of the ids. */
  predicate Matches(g: array2<int>, ids: seq<int>, x: int, z: int)
    reads g
  {
    InGround(g, x, z) && g[x, z] in ids
  }

  ghost predicate NoMatch(g: array2<int>, ids: seq<int>)
    reads g
  {
    forall x, z :: !Matches(g, ids, x, z)
  }

  /** (x, z) is the cell the scan settles on: it matches, no matching cell is
      closer, and every matching cell as close is visited after it. */
  ghost predicate IsNearest(g: array2<int>, px: real, pz: real, ids: seq<int>, x: int, z: int)
    reads g
  {
    && Matches(g, ids, x, z)
    && forall x', z' :: Matches(g, ids, x', z') ==>
         && SquaredDistance(px, pz, x, z) <= SquaredDistance(px, pz, x', z')
         && (Before(x', z', x, z) ==> SquaredDistance(px, pz, x, z) < SquaredDistance(px, pz, x', z'))
  }

  /** At most one cell is the nearest. */
  lemma NearestIsUnique(g: array2<int>, px: real, pz: real, ids: seq<int>, x1: int, z1: int, x2: int, z2: int)
    requires IsNearest(g, px, pz, ids, x1, z1) && IsNearest(g, px, pz, ids, x2, z2)
    ensures x1 == x2 && z1 == z2
  {
    assert Matches(g, ids, x2, z2) && Matches(g, ids, x1, z1);
    assert !Before(x1, z1, x2, z2) && !Before(x2, z2, x1, z1);
  }

  /** What the scan has established after visiting every cell before (x, z). */
  ghost predicate ScannedUpTo(g: array2<int>, px: real, pz: real, ids: seq<int>, x: int, z: int,
                        found: bool, best: real, bx: int, bz: int)
    reads g
  {
    && (!found ==> forall x', z' :: Matches(g, ids, x', z') ==> !Before(x', z', x, z))
    && (found ==>
          && Matches(g, ids, bx, bz) && Before(bx, bz, x, z)
          && best == SquaredDistance(px, pz, bx, bz)
          && forall x', z' :: Matches(g, ids, x', z') && Before(x', z', x, z) ==>
               && best <= SquaredDistance(px, pz, x', z')
               && (Before(x', z', bx, bz) ==> best < SquaredDistance(px, pz, x', z')))
  }

  /** The kernel's body on one cell: a matching cell strictly closer than the
      best so far (or the first matching cell, against the initial
      `Infinity`) becomes the best. */
  method Visit(g: array2<int>, px: real, pz: real, ids: seq<int>, x: int, z: int,
               found: bool, best: real, bx: int, bz: int)
      returns (found': bool, best': real, bx': int, bz': int)
    requires InGround(g, x, z)
    requires ScannedUpTo(g, px, pz, ids, x, z, found, best, bx, bz)
    ensures ScannedUpTo(g, px, pz, ids, x, z + 1, found', best', bx', bz')
  {
    found', best', bx', bz' := found, best, bx, bz;
    if g[x, z] in ids {
      var d := SquaredDistance(px, pz, x, z);
      if !found || d < best {
        found', best', bx', bz' := true, d, x, z;
      }
    }
  }

  /** `searchForNearestVoxel1` / `searchForNearestVoxel7`: the nearest
      matching cell as `[value, x, z]`, or null when no cell matches or when
      the nearest one holds the falsy id 0. */
  method Search(g: array2<int>, px: real, pz: real, ids: seq<int>) returns (r: Option<(int, int, int)>)
    ensures r.Some? ==>
      && IsNearest(g, px, pz, ids, r.value.1, r.value.2)
      && r.value.0 == g[r.value.1, r.value.2] && r.value.0 != 0
    ensures r.None? ==>
      NoMatch(g, ids) || exists x: int, z: int :: IsNearest(g, px, pz, ids, x, z) && g[x, z] == 0
  {
    var found, best, bx, bz := false, 0.0, 0, 0;
    var x := 0;
    while x < g.Length0
      invariant 0 <= x <= g.Length0
      invariant ScannedUpTo(g, px, pz, ids, x, 0, found, best, bx, bz)
    {
      var z := 0;
      while z < g.Length1
        invariant 0 <= z <= g.Length1
        invariant ScannedUpTo(g, px, pz, ids, x, z, found, best, bx, bz)
      {
        found, best, bx, bz := Visit(g, px, pz, ids, x, z, found, best, bx, bz);
        z := z + 1;
      }
      x := x + 1;
    }
    if !found {
      return None;
    }
    assert IsNearest(g, px, pz, ids, bx, bz);
    if g[bx, bz] == 0 {
      return None;
    }
    return Some((g[bx, bz], bx, bz));
  }
}
