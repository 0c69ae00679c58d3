/** The flat buffers shared by the terrain and the triangle mesh: a vertex
    buffer holds x, y, z of vertex i at offsets 3i, 3i+1, 3i+2, a face buffer
    holds the three corner indices of face t at offsets 3t, 3t+1, 3t+2, and
    an edge buffer holds pairs of vertex indices for wireframe drawing. */
module FlatBuffers {
  import opened Vectors

  /** Vertex i of a flat vertex buffer. */
  function VertexAt(vs: seq<real>, i: int): Vec3
    requires 0 <= i && 3 * i + 2 < |vs|
  {
    Vec3(vs[3 * i], vs[3 * i + 1], vs[3 * i + 2])
  }

  /** Which corner of its triangle the m-th number of a triangle's six edge
      entries names: the pairs (v0,v1), (v1,v2), (v2,v0). */
  function EdgeCorner(m: int): int
    requires 0 <= m < 6
  {
    if m == 0 then 0 else if m <= 2 then 1 else if m <= 4 then 2 else 0
  }

  /** The six edge entries generateLines appends for triangle t. */
  function TriangleEdges(fs: seq<int>, t: nat): seq<int>
    requires 3 * t + 2 < |fs|
  {
    [fs[3 * t], fs[3 * t + 1], fs[3 * t + 1], fs[3 * t + 2], fs[3 * t + 2], fs[3 * t]]
  }

  /** The edge entries of the first t triangles, in triangle order. */
  function EdgesUpTo(fs: seq<int>, t: nat): seq<int>
    requires 3 * t <= |fs|
  {
    if t == 0 then [] else EdgesUpTo(fs, t - 1) + TriangleEdges(fs, t - 1)
  }

  /** The wireframe of a face buffer: every triangle's three edges, with no
      de-duplication. */
  function Edges(fs: seq<int>): seq<int>
    requires |fs| % 3 == 0
  {
    EdgesUpTo(fs, |fs| / 3)
  }

  /** Six entries per triangle: entry 6u+m is corner EdgeCorner(m) of triangle
      u, so the edge list is exactly twice as long as the face list and pair
      3u+e joins corners e and (e+1) mod 3 of triangle u. */
  lemma {:induction false} EdgesLayout(fs: seq<int>, t: nat)
    requires 3 * t <= |fs|
    ensures |EdgesUpTo(fs, t)| == 6 * t
    ensures forall k :: 0 <= k < 6 * t ==> EdgesUpTo(fs, t)[k] == fs[3 * (k / 6) + EdgeCorner(k % 6)]
  {
    if t > 0 {
      EdgesLayout(fs, t - 1);
      var e := EdgesUpTo(fs, t);
      forall k | 6 * (t - 1) <= k < 6 * t
        ensures e[k] == fs[3 * (k / 6) + EdgeCorner(k % 6)]
      {
        assert k / 6 == t - 1;
      }
    }
  }

  /** The edge list of a whole face buffer has length 2 * |fs| and names
      only vertices that some face names. */
  lemma EdgesOfFaces(fs: seq<int>)
    requires |fs| % 3 == 0
    ensures |Edges(fs)| == 2 * |fs|
    ensures forall k :: 0 <= k < |Edges(fs)| ==> Edges(fs)[k] in fs
  {
    EdgesLayout(fs, |fs| / 3);
    forall k | 0 <= k < |Edges(fs)|
      ensures Edges(fs)[k] in fs
    {
      assert 3 * (k / 6) + 2 < |fs|;
    }
  }

  /** The running minimum of axis c over the first n vertices, replaced
      only by a strictly smaller value, as the bounding-box and height scans
      do. */
  function MinAxis(vs: seq<real>, c: nat, n: nat): real
    requires c < 3 && 1 <= n && 3 * n <= |vs|
  {
    if n == 1 then vs[c]
    else
      var m := MinAxis(vs, c, n - 1);
      if vs[3 * (n - 1) + c] < m then vs[3 * (n - 1) + c] else m
  }

  /** The running maximum of axis c over the first n vertices. */
  function MaxAxis(vs: seq<real>, c: nat, n: nat): real
    requires c < 3 && 1 <= n && 3 * n <= |vs|
  {
    if n == 1 then vs[c]
    else
      var m := MaxAxis(vs, c, n - 1);
      if vs[3 * (n - 1) + c] > m then vs[3 * (n - 1) + c] else m
  }

  /** The box bounds every vertex and each bound is attained by a vertex. */
  lemma {:induction false} AxisBounds(vs: seq<real>, c: nat, n: nat)
    requires c < 3 && 1 <= n && 3 * n <= |vs|
    ensures forall t :: 0 <= t < n ==> MinAxis(vs, c, n) <= Comp(VertexAt(vs, t), c) <= MaxAxis(vs, c, n)
    ensures exists t :: 0 <= t < n && Comp(VertexAt(vs, t), c) == MinAxis(vs, c, n)
    ensures exists t :: 0 <= t < n && Comp(VertexAt(vs, t), c) == MaxAxis(vs, c, n)
  {
    if n == 1 {
      assert Comp(VertexAt(vs, 0), c) == vs[c];
    } else {
      AxisBounds(vs, c, n - 1);
      assert Comp(VertexAt(vs, n - 1), c) == vs[3 * (n - 1) + c];
    }
  }
}
