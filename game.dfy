/** src/game/Game.ts: the game's path finding over the nav mesh and the
    choice of a standing place next to a target voxel.  The voxel world,
    the ray cast, the chunk lookup, the nav mesh's node search, the path
    finder and the channel's string pulling belong to libraries and are
    parameters here. */
module Games {
  import opened Common

  /** How far down the ray to the nav mesh is cast. */
  const RAY_MIN_DIST: real := 6.0

  /** The squared distance in x and z from `p` to the centre of the column
      at (x, z); y plays no part. */
  function ColumnDistance(p: Vec3, c: Vec3): real
  {
    (c.x + 0.5 - p.x) * (c.x + 0.5 - p.x) + (c.z + 0.5 - p.z) * (c.z + 0.5 - p.z)
  }

  /** The height at which a candidate voxel offers a place to stand: its
      own when it is not solid, else one up when that is not solid. */
  function Standing(solid: (real, real, real) -> bool, c: Vec3): Option<real>
  {
    if !solid(c.x, c.y, c.z) then Some(c.y)
    else if !solid(c.x, c.y + 1.0, c.z) then Some(c.y + 1.0)
    else None
  }

  /** `testNearestWalkable` on the distance so far (`None` is `Infinity`):
      the distance and the centre written to `out` when the candidate is
      taken.  A candidate is refused when it has no standing place or is
      strictly farther than the best so far. */
  function Accept(solid: (real, real, real) -> bool, p: Vec3, minSqDist: Option<real>, c: Vec3): Option<(real, Vec3)>
  {
    match Standing(solid, c)
    case None => None
    case Some(y) =>
      var d := ColumnDistance(p, c);
      if minSqDist.Some? && d > minSqDist.value then None
      else Some((d, Vec3(c.x + 0.5, y, c.z + 0.5)))
  }

  /** The four neighbours of the target, in the order they are tested. */
  function Candidates(target: Vec3): seq<Vec3>
  {
    [Vec3(target.x - 1.0, target.y, target.z), Vec3(target.x + 1.0, target.y, target.z),
     Vec3(target.x, target.y, target.z - 1.0), Vec3(target.x, target.y, target.z + 1.0)]
  }

  /** The distance and centre left after testing the candidates in order. */
  function Choose(solid: (real, real, real) -> bool, p: Vec3, cs: seq<Vec3>): Option<(real, Vec3)>
  {
    if cs == [] then None
    else
      var best := Choose(solid, p, cs[..|cs| - 1]);
      var taken := Accept(solid, p, if best.Some? then Some(best.value.0) else None, cs[|cs| - 1]);
      if taken.Some? then taken else best
  }

  /** Predicate for the candidate at `i` being the one chosen: it has a
      standing place, no candidate with one is closer, and every later
      candidate with one is strictly farther (an equally near later
      candidate would have replaced it). */
  ghost predicate ChosenAt(solid: (real, real, real) -> bool, p: Vec3, cs: seq<Vec3>, i: int)
  {
    && 0 <= i < |cs|
    && Standing(solid, cs[i]).Some?
    && (forall j :: 0 <= j < |cs| && Standing(solid, cs[j]).Some? ==> ColumnDistance(p, cs[i]) <= ColumnDistance(p, cs[j]))
    && (forall j :: i < j < |cs| && Standing(solid, cs[j]).Some? ==> ColumnDistance(p, cs[i]) < ColumnDistance(p, cs[j]))
  }

  /** The choice is the nearest candidate with a standing place, the last
      of equally near ones, at its centre and standing height; there is
      none exactly when no candidate has a standing place. */
  lemma {:induction false} ChooseIsNearest(solid: (real, real, real) -> bool, p: Vec3, cs: seq<Vec3>)
    ensures Choose(solid, p, cs).None? <==> forall j :: 0 <= j < |cs| ==> Standing(solid, cs[j]).None?
    ensures Choose(solid, p, cs).Some? ==>
      exists i :: ChosenAt(solid, p, cs, i)
        && Choose(solid, p, cs).value
           == (ColumnDistance(p, cs[i]), Vec3(cs[i].x + 0.5, Standing(solid, cs[i]).value, cs[i].z + 0.5))
  {
    if cs != [] {
      var init := cs[..|cs| - 1];
      var last := cs[|cs| - 1];
      ChooseIsNearest(solid, p, init);
      var best := Choose(solid, p, init);
      assert forall j :: 0 <= j < |init| ==> init[j] == cs[j];
      var r := Choose(solid, p, cs);
      var n := |cs| - 1;
      if best.None? {
        if Standing(solid, last).Some? {
          ChosenLast(solid, p, cs, ColumnDistance(p, last));
          assert r.value == (ColumnDistance(p, cs[n]), Vec3(cs[n].x + 0.5, Standing(solid, cs[n]).value, cs[n].z + 0.5));
        }
      } else {
        var i :| ChosenAt(solid, p, init, i)
          && best.value == (ColumnDistance(p, init[i]), Vec3(init[i].x + 0.5, Standing(solid, init[i]).value, init[i].z + 0.5));
        if Accept(solid, p, Some(best.value.0), last).Some? {
          ChosenLast(solid, p, cs, best.value.0);
          assert r.value == (ColumnDistance(p, cs[n]), Vec3(cs[n].x + 0.5, Standing(solid, cs[n]).value, cs[n].z + 0.5));
        } else {
          ChosenKept(solid, p, cs, i);
          assert r.value == (ColumnDistance(p, cs[i]), Vec3(cs[i].x + 0.5, Standing(solid, cs[i]).value, cs[i].z + 0.5));
        }
      }
    }
  }

  /** The last candidate is chosen when it stands and is no farther than a
      bound that every earlier standing candidate reaches. */
  lemma ChosenLast(solid: (real, real, real) -> bool, p: Vec3, cs: seq<Vec3>, bound: real)
    requires cs != [] && Standing(solid, cs[|cs| - 1]).Some?
    requires ColumnDistance(p, cs[|cs| - 1]) <= bound
    requires forall j :: 0 <= j < |cs| - 1 && Standing(solid, cs[j]).Some? ==> bound <= ColumnDistance(p, cs[j])
    ensures ChosenAt(solid, p, cs, |cs| - 1)
  {
  }

  /** An earlier choice stays chosen when the last candidate does not
      stand or is strictly farther. */
  lemma ChosenKept(solid: (real, real, real) -> bool, p: Vec3, cs: seq<Vec3>, i: int)
    requires cs != [] && ChosenAt(solid, p, cs[..|cs| - 1], i)
    requires Standing(solid, cs[|cs| - 1]).Some? ==> ColumnDistance(p, cs[i]) < ColumnDistance(p, cs[|cs| - 1])
    ensures ChosenAt(solid, p, cs, i)
  {
    assert forall j :: 0 <= j < |cs| - 1 ==> cs[..|cs| - 1][j] == cs[j];
  }

  /** `testNearestWalkable`: writes the candidate's centre to `out` and
      answers its distance when it is taken, and otherwise leaves `out`
      and the distance as they were. */
  method TestNearestWalkable(out: array<real>, minSqDist: Option<real>, p: Vec3, c: Vec3,
                             solid: (real, real, real) -> bool) returns (m: Option<real>)
    requires out.Length == 3
    modifies out
    ensures Accept(solid, p, minSqDist, c).None? ==> m == minSqDist && out[..] == old(out[..])
    ensures Accept(solid, p, minSqDist, c).Some? ==>
      var (d, v) := Accept(solid, p, minSqDist, c).value;
      m == Some(d) && out[..] == [v.x, v.y, v.z]
  {
    var y := c.y;
    if solid(c.x, y, c.z) {
      y := y + 1.0;
    }
    if solid(c.x, y, c.z) {
      return minSqDist;
    }
    var cx := c.x + 0.5;
    var cz := c.z + 0.5;
    var squaredDistance := (cx - p.x) * (cx - p.x) + (cz - p.z) * (cz - p.z);
    assert squaredDistance == ColumnDistance(p, c);
    if minSqDist.Some? && squaredDistance > minSqDist.value {
      return minSqDist;
    }
    out[0], out[1], out[2] := cx, y, cz;
    m := Some(squaredDistance);
  }

  /** `getNearestWalkableVoxel`: tests x-1, x+1, z-1, z+1 and answers
      whether any was taken; `out` then holds the chosen centre. */
  method GetNearestWalkableVoxel(out: array<real>, p: Vec3, target: Vec3, solid: (real, real, real) -> bool)
      returns (found: bool)
    requires out.Length == 3
    modifies out
    ensures found <==> Choose(solid, p, Candidates(target)).Some?
    ensures found ==>
      var v := Choose(solid, p, Candidates(target)).value.1;
      out[..] == [v.x, v.y, v.z]
    ensures !found ==> out[..] == old(out[..])
  {
    var cs := Candidates(target);
    var minSqDist: Option<real> := None;
    var k := 0;
    while k < 4
      invariant 0 <= k <= 4
      invariant var best := Choose(solid, p, cs[..k]);
        && minSqDist == (if best.Some? then Some(best.value.0) else None)
        && (best.Some? ==> out[..] == [best.value.1.x, best.value.1.y, best.value.1.z])
        && (best.None? ==> out[..] == old(out[..]))
    {
      assert cs[..k + 1][..k] == cs[..k];
      minSqDist := TestNearestWalkable(out, minSqDist, p, cs[k], solid);
      k := k + 1;
    }
    assert cs[..4] == cs;
    found := minSqDist.Some?;
  }

  /** A push onto the string-pulling channel: a point, or a portal's two
      ends. */
  datatype ChannelPush = Point(p: Vec3) | Portal(left: Vec3, right: Vec3)

  /** The portals of a path, last entry first. */
  function PortalsReversed(path: seq<(Vec3, Vec3)>): seq<ChannelPush>
  {
    if path == [] then [] else PortalsReversed(path[1..]) + [Portal(path[0].0, path[0].1)]
  }

  /** The channel `findPath` pulls a string through. */
  function Channel(from: Vec3, path: seq<(Vec3, Vec3)>, to: Vec3): seq<ChannelPush>
  {
    [Point(from)] + PortalsReversed(path) + [Point(to)]
  }

  /** The channel starts at the start point, walks the path's portals from
      its last entry to its first, and ends at the end point. */
  lemma {:induction false} ChannelOrder(from: Vec3, path: seq<(Vec3, Vec3)>, to: Vec3)
    ensures |Channel(from, path, to)| == |path| + 2
    ensures Channel(from, path, to)[0] == Point(from)
    ensures Channel(from, path, to)[|path| + 1] == Point(to)
    ensures forall k :: 1 <= k <= |path| ==>
      Channel(from, path, to)[k] == Portal(path[|path| - k].0, path[|path| - k].1)
  {
    PortalsReversedIndex(path);
  }

  lemma {:induction false} PortalsReversedIndex(path: seq<(Vec3, Vec3)>)
    ensures |PortalsReversed(path)| == |path|
    ensures forall k :: 0 <= k < |path| ==>
      PortalsReversed(path)[k] == Portal(path[|path| - 1 - k].0, path[|path| - 1 - k].1)
  {
    if path != [] {
      PortalsReversedIndex(path[1..]);
    }
  }

  /** The loop of `findPath` that fills the channel. */
  method BuildChannel(from: Vec3, path: seq<(Vec3, Vec3)>, to: Vec3) returns (pushes: seq<ChannelPush>)
    ensures pushes == Channel(from, path, to)
  {
    pushes := [Point(from)];
    var i := |path| - 1;
    while i >= 0
      invariant -1 <= i < |path|
      invariant pushes == [Point(from)] + PortalsReversed(path[i + 1..])
    {
      assert path[i..][1..] == path[i + 1..];
      pushes := pushes + [Portal(path[i].0, path[i].1)];
      i := i - 1;
    }
    assert path[0..] == path;
    pushes := pushes + [Point(to)];
  }

  /** `getNavMeshNode`: the ray cast down from `position` gives the point on
      the mesh (null on a miss), the chunk at that point (null when there is
      none) holds the mesh whose node at the point is the answer.  The
      point on the mesh is answered with the node, as the source writes it
      into `posOnMesh`. */
  function NavMeshNode(position: Vec3, raycast: (Vec3, real) -> Option<Vec3>, chunkAt: Vec3 -> Option<nat>,
                       searchNode: (nat, Vec3) -> Option<nat>): (r: Option<(nat, Vec3)>)
    ensures r.Some? <==>
      && raycast(position, RAY_MIN_DIST).Some?
      && chunkAt(raycast(position, RAY_MIN_DIST).value).Some?
      && searchNode(chunkAt(raycast(position, RAY_MIN_DIST).value).value, raycast(position, RAY_MIN_DIST).value).Some?
    ensures r.Some? ==> r.value.1 == raycast(position, RAY_MIN_DIST).value
  {
    var hit := raycast(position, RAY_MIN_DIST);
    if hit.None? then None
    else
      var chunk := chunkAt(hit.value);
      if chunk.None? then None
      else
        var node := searchNode(chunk.value, hit.value);
        if node.None? then None else Some((node.value, hit.value))
  }

  /** `findPath`: null when either end has no nav-mesh node or the path
      finder finds no path; otherwise the pulled string of the channel from
      the start's point on the mesh, through the path's portals in reverse,
      to the end's point on the mesh. */
  method FindPath(fromPos: Vec3, toPos: Vec3, raycast: (Vec3, real) -> Option<Vec3>, chunkAt: Vec3 -> Option<nat>,
                  searchNode: (nat, Vec3) -> Option<nat>, pathfinder: (nat, nat) -> Option<seq<(Vec3, Vec3)>>,
                  stringPull: seq<ChannelPush> -> seq<Vec3>) returns (r: Option<seq<Vec3>>)
    ensures var from := NavMeshNode(fromPos, raycast, chunkAt, searchNode);
      var to := NavMeshNode(toPos, raycast, chunkAt, searchNode);
      && (r.Some? <==> from.Some? && to.Some? && pathfinder(from.value.0, to.value.0).Some?)
      && (r.Some? ==> r.value == stringPull(Channel(from.value.1, pathfinder(from.value.0, to.value.0).value, to.value.1)))
  {
    var fromNode := NavMeshNode(fromPos, raycast, chunkAt, searchNode);
    if fromNode.None? {
      return None;
    }
    var toNode := NavMeshNode(toPos, raycast, chunkAt, searchNode);
    if toNode.None? {
      return None;
    }
    var path := pathfinder(fromNode.value.0, toNode.value.0);
    if path.None? {
      return None;
    }
    var channel := BuildChannel(fromNode.value.1, path.value, toNode.value.1);
    r := Some(stringPull(channel));
  }
}
