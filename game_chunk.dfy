/** src/game/GameChunk.ts: a chunk of voxels that keeps its nav mesh and the
    vertex buffers that draw it, rebuilding each only when what it was built
    from has changed.  The nav mesher, the GL buffers and vertex arrays and
    the engine's chunk storage belong to libraries: a buffer handed to GL is
    modelled by its contents, a vertex array by its buffer and its vertex
    count, and the nav mesher by a function parameter. */
module GameChunks {
  import opened Common

  const NODE_VERTEX_SIZE: int := 8
  const POINT_VERTEX_SIZE: int := 3
  const POINT_SIZE: real := 0.1

  /** An edge of the nav mesh, by the centres of the nodes it joins. */
  datatype Edge = Edge(src: Vec3, dest: Vec3)

  /** A node: a rectangle from `lo` to `hi` in (x, z) at height `y`. */
  datatype Node = Node(lo: (real, real), hi: (real, real), y: real, center: Vec3, edges: seq<Edge>)

  datatype NavMesh = NavMesh(nodes: seq<Node>)

  /** A vertex array: the contents of its buffer and its vertex count. */
  datatype Vao = Vao(data: seq<real>, length: int)

  // ---------------------------------------------------------------------
  // Vertex layouts

  /** The eight slots of a node vertex: position, a slot left 0, the
      texture coordinates, two slots left 0. */
  function NodeVertex(x: real, y: real, z: real, u: real, v: real): seq<real>
  {
    [x, y, z, 0.0, u, v, 0.0, 0.0]
  }

  /** The two triangles that cover a node, corners (lo, lo) (lo, hi)
      (hi, lo) and (hi, hi) (hi, lo) (lo, hi), each corner textured by its
      position in the rectangle. */
  function NodeQuad(n: Node): seq<real>
  {
    NodeVertex(n.lo.0, n.y, n.lo.1, 0.0, 0.0) + NodeVertex(n.lo.0, n.y, n.hi.1, 0.0, 1.0)
      + NodeVertex(n.hi.0, n.y, n.lo.1, 1.0, 0.0) + NodeVertex(n.hi.0, n.y, n.hi.1, 1.0, 1.0)
      + NodeVertex(n.hi.0, n.y, n.lo.1, 1.0, 0.0) + NodeVertex(n.lo.0, n.y, n.hi.1, 0.0, 1.0)
  }

  function NodeBuffer(ns: seq<Node>): seq<real>
  {
    if ns == [] then [] else NodeBuffer(ns[..|ns| - 1]) + NodeQuad(ns[|ns| - 1])
  }

  /** The two end points of every edge, node by node. */
  function EdgePoints(es: seq<Edge>): seq<real>
  {
    if es == [] then [] else
      EdgePoints(es[..|es| - 1])
      + [es[|es| - 1].src.x, es[|es| - 1].src.y, es[|es| - 1].src.z,
         es[|es| - 1].dest.x, es[|es| - 1].dest.y, es[|es| - 1].dest.z]
  }

  function StitchBuffer(ns: seq<Node>): seq<real>
  {
    if ns == [] then [] else StitchBuffer(ns[..|ns| - 1]) + EdgePoints(ns[|ns| - 1].edges)
  }

  function EdgeCount(ns: seq<Node>): int
  {
    if ns == [] then 0 else EdgeCount(ns[..|ns| - 1]) + |ns[|ns| - 1].edges|
  }

  /** Six points around a centre, forming the same two triangles as a node. */
  function CenterPoints(p: Vec3): seq<real>
  {
    [p.x - POINT_SIZE, p.y, p.z - POINT_SIZE, p.x - POINT_SIZE, p.y, p.z + POINT_SIZE,
     p.x + POINT_SIZE, p.y, p.z - POINT_SIZE, p.x + POINT_SIZE, p.y, p.z + POINT_SIZE,
     p.x + POINT_SIZE, p.y, p.z - POINT_SIZE, p.x - POINT_SIZE, p.y, p.z + POINT_SIZE]
  }

  function CenterBuffer(ns: seq<Node>): seq<real>
  {
    if ns == [] then [] else CenterBuffer(ns[..|ns| - 1]) + CenterPoints(ns[|ns| - 1].center)
  }

  /** What the three builders answer for a mesh: nothing for a mesh without
      nodes, else the buffer and its vertex count. */
  function NodeVao(m: NavMesh): Option<Vao>
  {
    if m.nodes == [] then None else Some(Vao(NodeBuffer(m.nodes), |NodeBuffer(m.nodes)| / NODE_VERTEX_SIZE))
  }

  function StitchVao(m: NavMesh): Option<Vao>
  {
    if m.nodes == [] then None else Some(Vao(StitchBuffer(m.nodes), |StitchBuffer(m.nodes)| / POINT_VERTEX_SIZE))
  }

  function CenterVao(m: NavMesh): Option<Vao>
  {
    if m.nodes == [] then None else Some(Vao(CenterBuffer(m.nodes), |CenterBuffer(m.nodes)| / POINT_VERTEX_SIZE))
  }

  // ---------------------------------------------------------------------
  // Properties of the layouts

  /** Each node takes six vertices of eight slots, in order: the node at
      index i occupies slots 48·i to 48·i + 47. */
  lemma {:induction false} NodeBufferLayout(ns: seq<Node>, i: int)
    requires 0 <= i < |ns|
    ensures |NodeBuffer(ns)| == 48 * |ns|
    ensures NodeBuffer(ns)[48 * i .. 48 * i + 48] == NodeQuad(ns[i])
  {
    NodeBufferLength(ns);
    var init := ns[..|ns| - 1];
    NodeBufferLength(init);
    if i < |ns| - 1 {
      NodeBufferLayout(init, i);
    }
    SliceOfAppend(NodeBuffer(init), NodeQuad(ns[|ns| - 1]), 48 * i, 48 * i + 48);
  }

  /** A slice of a concatenation that lies in one of its halves. */
  lemma SliceOfAppend(a: seq<real>, b: seq<real>, lo: int, hi: int)
    requires 0 <= lo <= hi <= |a| + |b|
    ensures hi <= |a| ==> (a + b)[lo..hi] == a[lo..hi]
    ensures lo == |a| && hi == |a| + |b| ==> (a + b)[lo..hi] == b
  {
  }

  /** The buffer of the first k + 1 nodes extends that of the first k by
      the quad of node k. */
  lemma NodeBufferStep(ns: seq<Node>, k: int)
    requires 0 <= k < |ns|
    ensures |NodeBuffer(ns[..k])| == 48 * k
    ensures NodeBuffer(ns[..k + 1]) == NodeBuffer(ns[..k]) + NodeQuad(ns[k])
  {
    NodeBufferLength(ns[..k]);
    assert ns[..k + 1][..k] == ns[..k];
  }

  lemma {:induction false} NodeBufferLength(ns: seq<Node>)
    ensures |NodeBuffer(ns)| == 48 * |ns|
  {
    if ns != [] {
      NodeBufferLength(ns[..|ns| - 1]);
    }
  }

  /** The stitch buffer holds two points of three slots per edge, so a mesh
      whose nodes have no edges gets an empty buffer, not none. */
  lemma {:induction false} StitchBufferLength(ns: seq<Node>)
    ensures |StitchBuffer(ns)| == 6 * EdgeCount(ns)
    ensures EdgeCount(ns) >= 0
  {
    if ns != [] {
      StitchBufferLength(ns[..|ns| - 1]);
      EdgePointsLength(ns[|ns| - 1].edges);
    }
  }

  lemma {:induction false} EdgePointsLength(es: seq<Edge>)
    ensures |EdgePoints(es)| == 6 * |es|
  {
    if es != [] {
      EdgePointsLength(es[..|es| - 1]);
    }
  }

  /** A mesh with nodes but no edges draws no stitches, and still gets a
      vertex array; a mesh with n nodes draws 6·n node vertices. */
  lemma VaoCounts(m: NavMesh)
    ensures m.nodes != [] ==> NodeVao(m).value.length == 6 * |m.nodes|
    ensures m.nodes != [] ==> StitchVao(m).value.length == 2 * EdgeCount(m.nodes)
    ensures m.nodes != [] && EdgeCount(m.nodes) == 0 ==> StitchVao(m) == Some(Vao([], 0))
    ensures m.nodes != [] ==> CenterVao(m).value.length == 6 * |m.nodes|
  {
    NodeBufferLength(m.nodes);
    StitchBufferLength(m.nodes);
    CenterBufferLength(m.nodes);
  }

  lemma {:induction false} CenterBufferLength(ns: seq<Node>)
    ensures |CenterBuffer(ns)| == 18 * |ns|
  {
    if ns != [] {
      CenterBufferLength(ns[..|ns| - 1]);
    }
  }

  /** Every centre point lies 0.1 from the node's centre in x and in z, at
      the centre's height. */
  lemma CenterPointsAround(p: Vec3, k: int)
    requires 0 <= k < 6
    ensures |CenterPoints(p)| == 18
    ensures var x := CenterPoints(p)[3 * k];
      x == p.x - POINT_SIZE || x == p.x + POINT_SIZE
    ensures CenterPoints(p)[3 * k + 1] == p.y
    ensures var z := CenterPoints(p)[3 * k + 2];
      z == p.z - POINT_SIZE || z == p.z + POINT_SIZE
  {
  }

  // ---------------------------------------------------------------------
  // The writers, on a buffer filled in place

  /** `writeNodeVertex`: the position at `ptr`..`ptr+2` and the texture
      coordinates at `ptr+4` and `ptr+5`; every other slot, `ptr+3` among
      them, keeps its value, and a write past either end of the buffer is
      dropped, as a typed array drops it.  Answers the next vertex's
      offset. */
  method WriteNodeVertex(data: array<real>, ptr: int, x: real, y: real, z: real, u: real, v: real) returns (next: int)
    modifies data
    ensures next == ptr + NODE_VERTEX_SIZE
    ensures forall i :: 0 <= i < data.Length ==>
      data[i] == (if i == ptr then x else if i == ptr + 1 then y else if i == ptr + 2 then z
                  else if i == ptr + 4 then u else if i == ptr + 5 then v else old(data[i]))
  {
    if 0 <= ptr < data.Length { data[ptr] := x; }
    if 0 <= ptr + 1 < data.Length { data[ptr + 1] := y; }
    if 0 <= ptr + 2 < data.Length { data[ptr + 2] := z; }
    if 0 <= ptr + 4 < data.Length { data[ptr + 4] := u; }
    if 0 <= ptr + 5 < data.Length { data[ptr + 5] := v; }
    next := ptr + NODE_VERTEX_SIZE;
  }

  /** `writePointVertex`: three consecutive slots, dropped past the ends. */
  method WritePointVertex(data: array<real>, ptr: int, x: real, y: real, z: real) returns (next: int)
    modifies data
    ensures next == ptr + POINT_VERTEX_SIZE
    ensures forall i :: 0 <= i < data.Length ==>
      data[i] == (if i == ptr then x else if i == ptr + 1 then y else if i == ptr + 2 then z else old(data[i]))
  {
    if 0 <= ptr < data.Length { data[ptr] := x; }
    if 0 <= ptr + 1 < data.Length { data[ptr + 1] := y; }
    if 0 <= ptr + 2 < data.Length { data[ptr + 2] := z; }
    next := ptr + POINT_VERTEX_SIZE;
  }

  /** The buffer `d` with the slots from `p` on replaced by `a`. */
  function Splice(d: seq<real>, p: int, a: seq<real>): (r: seq<real>)
    requires 0 <= p && p + |a| <= |d|
    ensures |r| == |d|
    ensures forall i :: 0 <= i < |d| && !(p <= i < p + |a|) ==> r[i] == d[i]
  {
    d[..p] + a + d[p + |a|..]
  }

  /** Two writes side by side are one write of both. */
  lemma SpliceTwice(d: seq<real>, p: int, a: seq<real>, b: seq<real>)
    requires 0 <= p && p + |a| + |b| <= |d|
    ensures Splice(Splice(d, p, a), p + |a|, b) == Splice(d, p, a + b)
  {
    var e := Splice(d, p, a);
    assert e[..p + |a|] == d[..p] + a;
    assert e[p + |a| + |b|..] == d[p + |a| + |b|..];
  }

  /** After a write, the buffer up to the end of the write is what was
      before it, then what was written. */
  lemma SplicePrefix(d: seq<real>, p: int, a: seq<real>)
    requires 0 <= p && p + |a| <= |d|
    ensures Splice(d, p, a)[..p + |a|] == d[..p] + a
  {
  }

  function Zeros(n: nat): seq<real>
  {
    seq(n, _ => 0.0)
  }

  /** A write at the start of the zeroed tail leaves a shorter zeroed tail. */
  lemma SpliceZeros(pre: seq<real>, a: seq<real>, m: nat)
    requires |a| <= m
    ensures Splice(pre + Zeros(m), |pre|, a) == pre + a + Zeros(m - |a|)
  {
    var d := pre + Zeros(m);
    assert d[..|pre|] == pre;
    assert d[|pre| + |a|..] == Zeros(m - |a|);
  }

  lemma ZerosTail(pre: seq<real>, m: nat)
    ensures forall i :: |pre| <= i < |pre| + m ==> (pre + Zeros(m))[i] == 0.0
  {
  }

  /** A node vertex written over zeros is the vertex's eight slots. */
  method PutNodeVertex(data: array<real>, ptr: int, x: real, y: real, z: real, u: real, v: real) returns (next: int)
    requires 0 <= ptr && ptr + 8 <= data.Length
    requires data[ptr + 3] == 0.0 && data[ptr + 6] == 0.0 && data[ptr + 7] == 0.0
    modifies data
    ensures next == ptr + 8
    ensures data[..] == Splice(old(data[..]), ptr, NodeVertex(x, y, z, u, v))
  {
    next := WriteNodeVertex(data, ptr, x, y, z, u, v);
    assert data[..] == Splice(old(data[..]), ptr, NodeVertex(x, y, z, u, v));
  }

  /** A point written inside the buffer. */
  method PutPoint(data: array<real>, ptr: int, x: real, y: real, z: real) returns (next: int)
    requires 0 <= ptr && ptr + 3 <= data.Length
    modifies data
    ensures next == ptr + 3
    ensures data[..] == Splice(old(data[..]), ptr, [x, y, z])
  {
    next := WritePointVertex(data, ptr, x, y, z);
    assert data[..] == Splice(old(data[..]), ptr, [x, y, z]);
  }

  /** The six vertices of one node, written over zeros. */
  method PutNodeQuad(data: array<real>, ptr: int, n: Node) returns (next: int)
    requires 0 <= ptr && ptr + 48 <= data.Length
    requires forall i :: ptr <= i < ptr + 48 ==> data[i] == 0.0
    modifies data
    ensures next == ptr + 48
    ensures data[..] == Splice(old(data[..]), ptr, NodeQuad(n))
  {
    ghost var d := data[..];
    ghost var v1 := NodeVertex(n.lo.0, n.y, n.lo.1, 0.0, 0.0);
    ghost var v2 := NodeVertex(n.lo.0, n.y, n.hi.1, 0.0, 1.0);
    ghost var v3 := NodeVertex(n.hi.0, n.y, n.lo.1, 1.0, 0.0);
    ghost var v4 := NodeVertex(n.hi.0, n.y, n.hi.1, 1.0, 1.0);
    ghost var v5 := NodeVertex(n.hi.0, n.y, n.lo.1, 1.0, 0.0);
    ghost var v6 := NodeVertex(n.lo.0, n.y, n.hi.1, 0.0, 1.0);
    var p := PutNodeVertex(data, ptr, n.lo.0, n.y, n.lo.1, 0.0, 0.0);
    assert data[..] == Splice(d, ptr, v1);
    p := PutNodeVertex(data, p, n.lo.0, n.y, n.hi.1, 0.0, 1.0);
    SpliceTwice(d, ptr, v1, v2);
    assert data[..] == Splice(d, ptr, v1 + v2);
    p := PutNodeVertex(data, p, n.hi.0, n.y, n.lo.1, 1.0, 0.0);
    SpliceTwice(d, ptr, v1 + v2, v3);
    assert data[..] == Splice(d, ptr, v1 + v2 + v3);
    p := PutNodeVertex(data, p, n.hi.0, n.y, n.hi.1, 1.0, 1.0);
    SpliceTwice(d, ptr, v1 + v2 + v3, v4);
    assert data[..] == Splice(d, ptr, v1 + v2 + v3 + v4);
    p := PutNodeVertex(data, p, n.hi.0, n.y, n.lo.1, 1.0, 0.0);
    SpliceTwice(d, ptr, v1 + v2 + v3 + v4, v5);
    assert data[..] == Splice(d, ptr, v1 + v2 + v3 + v4 + v5);
    next := PutNodeVertex(data, p, n.lo.0, n.y, n.hi.1, 0.0, 1.0);
    SpliceTwice(d, ptr, v1 + v2 + v3 + v4 + v5, v6);
  }

  /** One pass of the node loop: the quad of `n` goes right after the
      nodes already written, into the zeroed rest of the buffer. */
  method PutNode(data: array<real>, ptr: int, n: Node, ghost built: seq<real>) returns (next: int)
    requires |built| == ptr && ptr + 48 <= data.Length
    requires data[..] == built + Zeros(data.Length - ptr)
    modifies data
    ensures next == ptr + 48
    ensures data[..] == built + NodeQuad(n) + Zeros(data.Length - next)
  {
    ZerosTail(built, data.Length - ptr);
    SpliceZeros(built, NodeQuad(n), data.Length - ptr);
    assert forall i :: ptr <= i < ptr + 48 ==> data[i] == data[..][i];
    next := PutNodeQuad(data, ptr, n);
  }

  /** The loop body of the centre-point builder. */
  method PutCenterPoints(data: array<real>, ptr: int, c: Vec3) returns (next: int)
    requires 0 <= ptr && ptr + 18 <= data.Length
    modifies data
    ensures next == ptr + 18
    ensures data[..] == Splice(old(data[..]), ptr, CenterPoints(c))
  {
    ghost var d := data[..];
    ghost var v1 := [c.x - POINT_SIZE, c.y, c.z - POINT_SIZE];
    ghost var v2 := [c.x - POINT_SIZE, c.y, c.z + POINT_SIZE];
    ghost var v3 := [c.x + POINT_SIZE, c.y, c.z - POINT_SIZE];
    ghost var v4 := [c.x + POINT_SIZE, c.y, c.z + POINT_SIZE];
    ghost var v5 := [c.x + POINT_SIZE, c.y, c.z - POINT_SIZE];
    ghost var v6 := [c.x - POINT_SIZE, c.y, c.z + POINT_SIZE];
    var p := PutPoint(data, ptr, c.x - POINT_SIZE, c.y, c.z - POINT_SIZE);
    p := PutPoint(data, p, c.x - POINT_SIZE, c.y, c.z + POINT_SIZE);
    SpliceTwice(d, ptr, v1, v2);
    p := PutPoint(data, p, c.x + POINT_SIZE, c.y, c.z - POINT_SIZE);
    SpliceTwice(d, ptr, v1 + v2, v3);
    p := PutPoint(data, p, c.x + POINT_SIZE, c.y, c.z + POINT_SIZE);
    SpliceTwice(d, ptr, v1 + v2 + v3, v4);
    p := PutPoint(data, p, c.x + POINT_SIZE, c.y, c.z - POINT_SIZE);
    SpliceTwice(d, ptr, v1 + v2 + v3 + v4, v5);
    next := PutPoint(data, p, c.x - POINT_SIZE, c.y, c.z + POINT_SIZE);
    SpliceTwice(d, ptr, v1 + v2 + v3 + v4 + v5, v6);
    assert v1 + v2 + v3 + v4 + v5 + v6 == CenterPoints(c);
  }

  // ---------------------------------------------------------------------
  // The three builders

  /** `createNavMeshVao`: none for a mesh without nodes; otherwise a zeroed
      buffer of 6·8 slots per node filled node by node. */
  method CreateNavMeshVao(mesh: NavMesh) returns (vao: Option<Vao>)
    ensures vao == NodeVao(mesh)
  {
    if |mesh.nodes| == 0 {
      return None;
    }
    var nodes := mesh.nodes;
    var data := new real[|nodes| * 6 * NODE_VERTEX_SIZE](_ => 0.0);
    var ptr := 0;
    var k := 0;
    ghost var built: seq<real> := [];
    assert data[..] == built + Zeros(data.Length - ptr) by {
      assert data.Length == 48 * |nodes|;
    }
    while k < |nodes|
      invariant 0 <= k <= |nodes|
      invariant ptr == 48 * k
      invariant built == NodeBuffer(nodes[..k]) && |built| == ptr
      invariant data[..] == built + Zeros(data.Length - ptr)
    {
      NodeBufferStep(nodes, k);
      ptr := PutNode(data, ptr, nodes[k], built);
      built := built + NodeQuad(nodes[k]);
      k := k + 1;
    }
    assert data[..] == NodeBuffer(nodes) && ptr == |NodeBuffer(nodes)| by {
      assert nodes[..k] == nodes && ptr == data.Length;
      assert Zeros(0) == [];
    }
    vao := Some(Vao(data[..], ptr / NODE_VERTEX_SIZE));
  }

  /** `createNavMeshStitchVao`: none for a mesh without nodes; otherwise a
      buffer sized by a first pass over the edges and filled with each
      edge's two centres. */
  method CreateNavMeshStitchVao(mesh: NavMesh) returns (vao: Option<Vao>)
    ensures vao == StitchVao(mesh)
  {
    if |mesh.nodes| == 0 {
      return None;
    }
    var nodes := mesh.nodes;
    var size := 0;
    var k := 0;
    while k < |nodes|
      invariant 0 <= k <= |nodes|
      invariant size == 6 * EdgeCount(nodes[..k])
    {
      assert nodes[..k + 1][..k] == nodes[..k];
      size := size + |nodes[k].edges| * 2 * POINT_VERTEX_SIZE;
      k := k + 1;
    }
    assert nodes[..k] == nodes;
    StitchBufferLength(nodes);
    var data := new real[size](_ => 0.0);
    var ptr := 0;
    k := 0;
    while k < |nodes|
      invariant 0 <= k <= |nodes|
      invariant ptr == |StitchBuffer(nodes[..k])| && ptr <= data.Length
      invariant data[..ptr] == StitchBuffer(nodes[..k])
    {
      StitchBufferPrefix(nodes, k);
      EdgePointsLength(nodes[k].edges);
      ptr := PutEdges(data, ptr, nodes[k].edges);
      assert nodes[..k + 1][..k] == nodes[..k];
      k := k + 1;
    }
    assert data[..] == StitchBuffer(nodes) && ptr == |StitchBuffer(nodes)| by {
      assert nodes[..k] == nodes;
    }
    vao := Some(Vao(data[..], ptr / POINT_VERTEX_SIZE));
  }

  /** The loop body of the stitch builder: an edge's two centres, written
      right after what the buffer holds up to `ptr`. */
  method PutEdge(data: array<real>, ptr: int, e: Edge) returns (next: int)
    requires 0 <= ptr && ptr + 6 <= data.Length
    modifies data
    ensures next == ptr + 6
    ensures data[..next] == old(data[..ptr]) + [e.src.x, e.src.y, e.src.z, e.dest.x, e.dest.y, e.dest.z]
  {
    ghost var d := data[..];
    ghost var src := [e.src.x, e.src.y, e.src.z];
    ghost var dest := [e.dest.x, e.dest.y, e.dest.z];
    var p := PutPoint(data, ptr, e.src.x, e.src.y, e.src.z);
    next := PutPoint(data, p, e.dest.x, e.dest.y, e.dest.z);
    SpliceTwice(d, ptr, src, dest);
    SplicePrefix(d, ptr, src + dest);
  }

  /** The inner loop of the stitch builder: a node's edges, one after the
      other, right after what the buffer holds up to `ptr`. */
  method PutEdges(data: array<real>, ptr: int, edges: seq<Edge>) returns (next: int)
    requires 0 <= ptr && ptr + 6 * |edges| <= data.Length
    modifies data
    ensures next == ptr + 6 * |edges|
    ensures data[..next] == old(data[..ptr]) + EdgePoints(edges)
  {
    ghost var pre := data[..ptr];
    next := ptr;
    var e := 0;
    while e < |edges|
      invariant 0 <= e <= |edges|
      invariant next == ptr + 6 * e
      invariant data[..next] == pre + EdgePoints(edges[..e])
    {
      EdgePointsStep(edges, e);
      next := PutEdge(data, next, edges[e]);
      e := e + 1;
    }
    assert edges[..e] == edges;
  }

  /** The end points of the first e + 1 edges extend those of the first e
      by edge e's two centres; the first e edges take 6·e slots. */
  lemma EdgePointsStep(es: seq<Edge>, e: int)
    requires 0 <= e < |es|
    ensures |EdgePoints(es[..e])| == 6 * e
    ensures EdgePoints(es[..e + 1])
      == EdgePoints(es[..e]) + [es[e].src.x, es[e].src.y, es[e].src.z, es[e].dest.x, es[e].dest.y, es[e].dest.z]
  {
    EdgePointsLength(es[..e]);
    assert es[..e + 1][..e] == es[..e];
  }

  /** The edges of the first k nodes fit in the buffer sized for all. */
  lemma {:induction false} StitchBufferPrefix(ns: seq<Node>, k: int)
    requires 0 <= k < |ns|
    ensures |StitchBuffer(ns[..k])| + 6 * |ns[k].edges| <= |StitchBuffer(ns)|
  {
    StitchBufferLength(ns);
    StitchBufferLength(ns[..k + 1]);
    assert ns[..k + 1][..k] == ns[..k];
    StitchBufferLength(ns[..k]);
    EdgePointsLength(ns[k].edges);
    EdgeCountMonotone(ns, k + 1);
  }

  lemma {:induction false} EdgeCountMonotone(ns: seq<Node>, k: int)
    requires 0 <= k <= |ns|
    ensures EdgeCount(ns[..k]) <= EdgeCount(ns)
  {
    if k < |ns| {
      EdgeCountMonotone(ns[..|ns| - 1], k);
      assert ns[..|ns| - 1][..k] == ns[..k];
    } else {
      assert ns[..k] == ns;
    }
  }

  /** `createNavMeshCenterPointVao`: none for a mesh without nodes;
      otherwise six points of three slots around each node's centre. */
  method CreateNavMeshCenterPointVao(mesh: NavMesh) returns (vao: Option<Vao>)
    ensures vao == CenterVao(mesh)
  {
    if |mesh.nodes| == 0 {
      return None;
    }
    var nodes := mesh.nodes;
    var data := new real[|nodes| * 6 * POINT_VERTEX_SIZE](_ => 0.0);
    var ptr := 0;
    var k := 0;
    while k < |nodes|
      invariant 0 <= k <= |nodes|
      invariant ptr == 18 * k
      invariant data[..ptr] == CenterBuffer(nodes[..k])
    {
      ghost var d := data[..];
      ptr := PutCenterPoints(data, ptr, nodes[k].center);
      SplicePrefix(d, ptr - 18, CenterPoints(nodes[k].center));
      assert nodes[..k + 1][..k] == nodes[..k];
      k := k + 1;
    }
    assert nodes[..k] == nodes;
    assert data[..] == data[..ptr];
    vao := Some(Vao(data[..], ptr / POINT_VERTEX_SIZE));
  }

  // ---------------------------------------------------------------------
  // The chunk and its caches

  /** The value the nav mesher sees for a voxel: 1 for a solid one, 0 for
      empty (0) or a non-solid one. */
  function SolidMask(isSolidVoxel: int -> bool, v: int): int
  {
    if v != 0 && isSolidVoxel(v) then 1 else 0
  }

  /** The voxels as the nav mesher sees them. */
  function Padded(data: map<(int, int, int), int>, isSolidVoxel: int -> bool): map<(int, int, int), int>
  {
    map k | k in data :: SolidMask(isSolidVoxel, data[k])
  }

  /** The mesher sees exactly two values, and an empty voxel is never
      solid to it, whatever the solidity test says of id 0. */
  lemma PaddedIsMask(data: map<(int, int, int), int>, isSolidVoxel: int -> bool, k: (int, int, int))
    requires k in data
    ensures k in Padded(data, isSolidVoxel)
    ensures Padded(data, isSolidVoxel)[k] == 1 <==> data[k] != 0 && isSolidVoxel(data[k])
    ensures Padded(data, isSolidVoxel)[k] == 0 || Padded(data, isSolidVoxel)[k] == 1
  {
  }

  class GameChunk {
    const isSolidVoxel: int -> bool
    const offset: (int, int, int)
    /** The voxels, as the engine's chunk stores them. */
    var data: map<(int, int, int), int>
    var navmesh: NavMesh
    /** Identifies the mesh object: each build makes a new one. */
    var navmeshSerial: nat
    var navmeshNeedsToUpdate: bool
    /** The mesh the vertex arrays were built from (null at first). */
    var navmeshVaoSource: Option<nat>
    var navmeshVao: Option<Vao>
    var navmeshStitchVao: Option<Vao>
    var navmeshCenterPointVao: Option<Vao>

    /** The vertex arrays, once built, are those of the mesh they name, and
        that mesh is the current one or an earlier one. */
    predicate Valid()
      reads this
    {
      && (navmeshVaoSource.Some? ==> navmeshVaoSource.value <= navmeshSerial)
      && (navmeshVaoSource == Some(navmeshSerial) ==>
            && navmeshVao == NodeVao(navmesh)
            && navmeshStitchVao == StitchVao(navmesh)
            && navmeshCenterPointVao == CenterVao(navmesh))
    }

    constructor (isSolidVoxel: int -> bool, data: map<(int, int, int), int>, offset: (int, int, int))
      ensures this.isSolidVoxel == isSolidVoxel && this.data == data && this.offset == offset
      ensures navmeshNeedsToUpdate && navmeshVaoSource == None && Valid()
    {
      this.isSolidVoxel := isSolidVoxel;
      this.data := data;
      this.offset := offset;
      navmesh := NavMesh([]);
      navmeshSerial := 0;
      navmeshNeedsToUpdate := true;
      navmeshVaoSource := None;
      navmeshVao := None;
      navmeshStitchVao := None;
      navmeshCenterPointVao := None;
    }

    /** `set`: the voxel is stored and the mesh marked out of date. */
    method Set(x: int, y: int, z: int, val: int)
      requires Valid()
      modifies this
      ensures Valid()
      ensures data == old(data)[(x, y, z) := val] && navmeshNeedsToUpdate
      ensures navmesh == old(navmesh) && navmeshSerial == old(navmeshSerial)
      ensures navmeshVaoSource == old(navmeshVaoSource)
      ensures navmeshVao == old(navmeshVao) && navmeshStitchVao == old(navmeshStitchVao)
      ensures navmeshCenterPointVao == old(navmeshCenterPointVao)
    {
      navmeshNeedsToUpdate := true;
      data := data[(x, y, z) := val];
    }

    /** `getNavMesh`: an out-of-date mesh is rebuilt from the padded voxels
        and the chunk's offset, and is then up to date; an up-to-date one
        is answered as it is, the same mesh as before. */
    method GetNavMesh(build: (map<(int, int, int), int>, (int, int, int)) -> NavMesh) returns (m: NavMesh)
      requires Valid()
      modifies this
      ensures Valid() && !navmeshNeedsToUpdate && m == navmesh
      ensures old(navmeshNeedsToUpdate) ==>
        navmesh == build(Padded(data, isSolidVoxel), offset) && navmeshSerial == old(navmeshSerial) + 1
      ensures !old(navmeshNeedsToUpdate) ==> navmesh == old(navmesh) && navmeshSerial == old(navmeshSerial)
      ensures data == old(data) && navmeshVaoSource == old(navmeshVaoSource)
      ensures navmeshVao == old(navmeshVao) && navmeshStitchVao == old(navmeshStitchVao)
      ensures navmeshCenterPointVao == old(navmeshCenterPointVao)
    {
      if navmeshNeedsToUpdate {
        var padded := Padded(data, isSolidVoxel);
        navmesh := build(padded, offset);
        navmeshSerial := navmeshSerial + 1;
        navmeshNeedsToUpdate := false;
      }
      m := navmesh;
    }

    /** `getNavMeshVao`: the three vertex arrays of the current mesh,
        rebuilt only when the mesh is not the one they were built from. */
    method GetNavMeshVao(build: (map<(int, int, int), int>, (int, int, int)) -> NavMesh)
        returns (vao: Option<Vao>, stitchVao: Option<Vao>, centerPointVao: Option<Vao>)
      requires Valid()
      modifies this
      ensures Valid() && !navmeshNeedsToUpdate
      ensures old(navmeshNeedsToUpdate) ==> navmesh == build(Padded(data, isSolidVoxel), offset)
      ensures !old(navmeshNeedsToUpdate) ==> navmesh == old(navmesh)
      ensures vao == NodeVao(navmesh) && stitchVao == StitchVao(navmesh) && centerPointVao == CenterVao(navmesh)
      ensures navmeshVaoSource == Some(navmeshSerial) && data == old(data)
      ensures old(navmeshVaoSource) == Some(navmeshSerial) ==>
        && navmeshVao == old(navmeshVao) && navmeshStitchVao == old(navmeshStitchVao)
        && navmeshCenterPointVao == old(navmeshCenterPointVao)
    {
      var mesh := GetNavMesh(build);
      if navmeshVaoSource != Some(navmeshSerial) {
        navmeshVao := CreateNavMeshVao(mesh);
        navmeshStitchVao := CreateNavMeshStitchVao(mesh);
        navmeshCenterPointVao := CreateNavMeshCenterPointVao(mesh);
        navmeshVaoSource := Some(navmeshSerial);
      }
      vao, stitchVao, centerPointVao := navmeshVao, navmeshStitchVao, navmeshCenterPointVao;
    }
  }

  /** A voxel write between two draws makes the second draw rebuild the
      mesh and its vertex arrays; two draws with no write between them
      share one mesh and one set of vertex arrays. */
  method WriteThenDraw(c: GameChunk, build: (map<(int, int, int), int>, (int, int, int)) -> NavMesh,
                       x: int, y: int, z: int, val: int)
      returns (first: Option<Vao>, second: Option<Vao>, third: Option<Vao>)
    requires c.Valid()
    modifies c
    ensures first == second
    ensures third == NodeVao(build(Padded(old(c.data)[(x, y, z) := val], c.isSolidVoxel), c.offset))
  {
    var s1, p1;
    first, s1, p1 := c.GetNavMeshVao(build);
    var s2, p2;
    second, s2, p2 := c.GetNavMeshVao(build);
    c.Set(x, y, z, val);
    var s3, p3;
    third, s3, p3 := c.GetNavMeshVao(build);
  }
}
