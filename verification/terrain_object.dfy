/** The terrain object: its buffers are filled in place, pass by pass, and
    each pass is proved to leave the buffers equal to the functions of the
    terrain model. */
module TerrainObject {
  import opened Vectors
  import opened FlatBuffers
  import opened TerrainModel

  /** Three more entries of a sequence. */
  lemma PrefixPush3(s: seq<real>, m: nat, a: real, b: real, c: real)
    requires m + 3 <= |s| && s[m] == a && s[m + 1] == b && s[m + 2] == c
    ensures s[..m + 3] == s[..m] + [a, b, c]
  {
  }

  /** Six more entries of a sequence. */
  lemma PrefixPush6(s: seq<int>, m: nat, a: int, b: int, c: int, d: int, e: int, f: int)
    requires m + 6 <= |s| && s[m] == a && s[m + 1] == b && s[m + 2] == c
    requires s[m + 3] == d && s[m + 4] == e && s[m + 5] == f
    ensures s[..m + 6] == s[..m] + [a, b, c, d, e, f]
  {
  }

  /** The end of row i of a grid with w vertices per row is the start of
      row i + 1. */
  lemma RowEnd(w: int, i: int)
    ensures i * w + w == (i + 1) * w
  {
  }

  /** Grid point (i, j) from the step sizes dx and dy. */
  lemma GridPointIs(r: Rect, div: int, i: int, j: int, dx: real, dy: real)
    requires div >= 1
    requires dx == (r.maxX - r.minX) / (div as real) && dy == (r.maxY - r.minY) / (div as real)
    ensures GridPoint(r, div, i, j) == Vec3(r.minX + dx * (j as real), r.minY + dy * (i as real), 0.0)
  {
  }

  /** Vertex (i, j) is the next three entries of the flat grid's buffer
      after the vertices before it. */
  lemma VertexPush(r: Rect, div: int, i: int, j: int, dx: real, dy: real)
    requires div >= 1 && InGrid(div, i, j)
    requires dx == (r.maxX - r.minX) / (div as real) && dy == (r.maxY - r.minY) / (div as real)
    ensures 3 * Vid(div, i, j) + 3 <= |GridVertices(r, div)|
    ensures GridVertices(r, div)[..3 * Vid(div, i, j) + 3] == GridVertices(r, div)[..3 * Vid(div, i, j)]
      + [r.minX + dx * (j as real), r.minY + dy * (i as real), 0.0]
  {
    var all, v := GridVertices(r, div), Vid(div, i, j);
    GridVertexAt(r, div, i, j);
    var p := GridPoint(r, div, i, j);
    GridPointIs(r, div, i, j, dx, dy);
    PrefixPush3(all, 3 * v, p.x, p.y, p.z);
  }

  /** The six face entries of square (i, j), at offset 6 * (i * div + j). */
  lemma QuadEntries(div: int, i: int, j: int, vid: int)
    requires div >= 1 && 0 <= i < div && 0 <= j < div && vid == Vid(div, i, j)
    ensures 0 <= 6 * (i * div + j) && 6 * (i * div + j) + 6 <= |GridFaces(div)|
    ensures GridFaces(div)[6 * (i * div + j)] == vid && GridFaces(div)[6 * (i * div + j) + 1] == vid + 1
    ensures GridFaces(div)[6 * (i * div + j) + 2] == vid + (div + 1) && GridFaces(div)[6 * (i * div + j) + 3] == vid + 1
    ensures GridFaces(div)[6 * (i * div + j) + 4] == (vid + 1) + (div + 1) && GridFaces(div)[6 * (i * div + j) + 5] == vid + (div + 1)
  {
    GridQuadAt(div, i, j, 0);
    GridQuadAt(div, i, j, 1);
    GridQuadAt(div, i, j, 2);
    GridQuadAt(div, i, j, 3);
    GridQuadAt(div, i, j, 4);
    GridQuadAt(div, i, j, 5);
  }

  /** Square (i, j)'s two triangles are the next six entries of the face
      buffer after the squares before it, which take its first m entries. */
  lemma QuadPush(div: int, i: int, j: int, vid: int, m: int)
    requires div >= 1 && 0 <= i < div && 0 <= j < div && vid == Vid(div, i, j) && m == 6 * (i * div + j)
    ensures 0 <= m && m + 6 <= |GridFaces(div)|
    ensures GridFaces(div)[..m + 6] == GridFaces(div)[..m] + [vid, vid + 1, vid + (div + 1), vid + 1, (vid + 1) + (div + 1), vid + (div + 1)]
  {
    QuadEntries(div, i, j, vid);
    PrefixPush6(GridFaces(div), m, vid, vid + 1, vid + (div + 1), vid + 1, (vid + 1) + (div + 1), vid + (div + 1));
  }

  /** A buffer whose first m entries come from a and the rest from b:
      entries m .. m + 2 still hold b's. */
  lemma BlendAt(a: seq<real>, b: seq<real>, m: nat)
    requires |a| == |b| && m + 3 <= |a|
    ensures (a[..m] + b[m..])[m] == b[m] && (a[..m] + b[m..])[m + 1] == b[m + 1] && (a[..m] + b[m..])[m + 2] == b[m + 2]
  {
  }

  /** Overwriting entries m .. m + 2 of such a buffer with a's moves the
      boundary three entries on. */
  lemma BlendStep(a: seq<real>, b: seq<real>, m: nat, x: real, y: real, z: real)
    requires |a| == |b| && m + 3 <= |a| && a[m] == x && a[m + 1] == y && a[m + 2] == z
    ensures (a[..m] + b[m..])[m := x][m + 1 := y][m + 2 := z] == a[..m + 3] + b[m + 3..]
  {
  }

  /** Once the boundary reaches the end, the buffer is a. */
  lemma BlendDone(a: seq<real>, b: seq<real>, m: nat)
    requires |a| == |b| == m
    ensures a[..m] + b[m..] == a
  {
  }

  /** One step of the lowest/highest scan: vertex n's height z replaces
      the running minimum only when strictly lower and the running maximum
      only when strictly higher; vertex 0 is compared with itself. */
  lemma ExtremesStep(vs: seq<real>, n: nat, z: real, lo: real, hi: real)
    requires 3 * n + 3 <= |vs| && z == vs[3 * n + 2]
    requires lo == MinAxis(vs, 2, if n == 0 then 1 else n) && hi == MaxAxis(vs, 2, if n == 0 then 1 else n)
    ensures (if z < lo then z else lo) == MinAxis(vs, 2, n + 1)
    ensures (if z > hi then z else hi) == MaxAxis(vs, 2, n + 1)
  {
  }

  /** Vertex t after one fault: x and y as before, z moved by the fault's
      step. */
  lemma ApplyFaultAt(vs: seq<real>, f: Fault, delta: real, t: nat)
    requires |vs| % 3 == 0 && 3 * t + 2 < |vs|
    ensures ApplyFault(vs, f, delta)[3 * t] == vs[3 * t]
    ensures ApplyFault(vs, f, delta)[3 * t + 1] == vs[3 * t + 1]
    ensures ApplyFault(vs, f, delta)[3 * t + 2] == vs[3 * t + 2] + FaultStep(VertexAt(vs, t), f, delta)
  {
    assert (3 * t + 2) / 3 == t && (3 * t + 2) % 3 == 2;
    assert (3 * t + 1) % 3 == 1 && (3 * t) % 3 == 0;
  }

  /** Vertex t after a shift: x and y as before, z raised by d. */
  lemma ShiftAt(vs: seq<real>, d: real, t: nat)
    requires 3 * t + 2 < |vs|
    ensures ShiftHeights(vs, d)[3 * t] == vs[3 * t]
    ensures ShiftHeights(vs, d)[3 * t + 1] == vs[3 * t + 1]
    ensures ShiftHeights(vs, d)[3 * t + 2] == vs[3 * t + 2] + d
  {
    assert (3 * t + 2) % 3 == 2 && (3 * t + 1) % 3 == 1 && (3 * t) % 3 == 0;
  }

  /** The weighted sum of the first k of the eight neighbour heights:
      weight 2 for the even positions (the side neighbours) and 1 for the
      odd ones (the diagonal neighbours). */
  function WeightedHeights(ns: seq<Vec3>, k: nat): real
    requires k <= |ns|
  {
    if k == 0 then 0.0
    else WeightedHeights(ns, k - 1) + (if (k - 1) % 2 == 0 then 2.0 else 1.0) * ns[k - 1].z
  }

  /** The eight weighted neighbour heights, added in order. */
  lemma WeightedEight(ns: seq<Vec3>)
    requires |ns| == 8
    ensures WeightedHeights(ns, 8) == 2.0 * ns[0].z + ns[1].z + 2.0 * ns[2].z + ns[3].z + 2.0 * ns[4].z + ns[5].z + 2.0 * ns[6].z + ns[7].z
  {
    assert WeightedHeights(ns, 1) == 2.0 * ns[0].z;
    assert WeightedHeights(ns, 2) == 2.0 * ns[0].z + ns[1].z;
    assert WeightedHeights(ns, 4) == WeightedHeights(ns, 2) + 2.0 * ns[2].z + ns[3].z;
    assert WeightedHeights(ns, 6) == WeightedHeights(ns, 4) + 2.0 * ns[4].z + ns[5].z;
  }

  /** The z coordinate of the grid vertex is the height of that vertex. */
  lemma HeightIsZ(vs: seq<real>, div: int, i: int, j: int)
    requires GridSized(vs, div) && InGrid(div, i, j)
    ensures GridVertex(vs, div, i, j).z == Height(vs, div, i, j)
  {
  }

  /** The flat grid lies at height 0. */
  lemma GridVerticesFlat(r: Rect, div: int)
    requires div >= 1
    ensures forall k :: 0 <= k < |GridVertices(r, div)| && k % 3 == 2 ==> GridVertices(r, div)[k] == 0.0
  {
  }

  /** vs is the flat grid flat with its heights moved into [0, top]: every
      x and y as in flat, every height between 0 and top. */
  ghost predicate Relief(vs: seq<real>, flat: seq<real>, top: real) {
    |vs| == |flat|
    && (forall k :: 0 <= k < |vs| && k % 3 != 2 ==> vs[k] == flat[k])
    && (forall k :: 0 <= k < |vs| && k % 3 == 2 ==> 0.0 <= vs[k] <= top)
  }

  /** Partitioning the flat grid keeps its plan and puts every height
      between 0 and twice the faults' total displacement. */
  lemma PartitionRelief(r: Rect, div: int, faults: seq<Fault>, delta: real, top: real)
    requires div >= 1 && delta >= 0.0 && top == 2.0 * (|faults| as real) * delta
    ensures Relief(Partitioned(GridVertices(r, div), div, faults, delta), GridVertices(r, div), top)
  {
    GridVerticesFlat(r, div);
    PartitionBounds(GridVertices(r, div), div, faults, delta);
  }

  /** On such a relief the highest height lies between 0 and top. */
  lemma HighestInRange(vs: seq<real>, flat: seq<real>, top: real, n: nat)
    requires Relief(vs, flat, top) && 1 <= n && 3 * n <= |vs|
    ensures 0.0 <= MaxAxis(vs, 2, n) <= top
  {
    AxisBounds(vs, 2, n);
    var t :| 0 <= t < n && Comp(VertexAt(vs, t), 2) == MaxAxis(vs, 2, n);
    assert (3 * t + 2) % 3 == 2;
  }

  /** Buffers of 3g and 6h entries hold g vertices and 2h triangles. */
  lemma BufferThirds(nv: int, nf: int, g: int, h: int)
    requires nv == 3 * g && nf == 6 * h
    ensures nv / 3 == g && nf % 3 == 0 && nf / 3 == 2 * h
  {
    ThirdOfTriple(g);
    ThirdOfTriple(2 * h);
  }

  /** A third of 3x is x. */
  lemma ThirdOfTriple(x: int)
    ensures (3 * x) % 3 == 0 && (3 * x) / 3 == x
  {
  }

  /** The buffer with vertex (i, j) replaced by v. */
  function PutVertex(vs: seq<real>, div: int, i: int, j: int, v: Vec3): (r: seq<real>)
    requires GridSized(vs, div) && InGrid(div, i, j)
    ensures GridSized(r, div)
  {
    VidInGrid(div, i, j);
    vs[3 * Vid(div, i, j) := v.x][3 * Vid(div, i, j) + 1 := v.y][3 * Vid(div, i, j) + 2 := v.z]
  }

  /** Reading vertex (i, j) after replacing it gives the new vertex, and
      every other vertex is as before. */
  lemma GetAfterPut(vs: seq<real>, div: int, i: int, j: int, v: Vec3)
    requires GridSized(vs, div) && InGrid(div, i, j)
    ensures GridVertex(PutVertex(vs, div, i, j, v), div, i, j) == v
    ensures forall a, b :: InGrid(div, a, b) && (a, b) != (i, j) ==> GridVertex(PutVertex(vs, div, i, j, v), div, a, b) == GridVertex(vs, div, a, b)
  {
    forall a, b | InGrid(div, a, b) && (a, b) != (i, j)
      ensures GridVertex(PutVertex(vs, div, i, j, v), div, a, b) == GridVertex(vs, div, a, b)
    {
      VidInjective(div, i, j, a, b);
      VidInGrid(div, a, b);
    }
  }

  /** Replacing vertex n = Vid(div, i, j) of a buffer made of a's first
      3n entries and b's remaining ones by a's vertex n moves the boundary
      one vertex on. */
  lemma BlendPut(a: seq<real>, b: seq<real>, div: int, i: int, j: int, n: nat, v: Vec3)
    requires GridSized(a, div) && GridSized(b, div) && InGrid(div, i, j) && n == Vid(div, i, j)
    requires a[3 * n] == v.x && a[3 * n + 1] == v.y && a[3 * n + 2] == v.z
    ensures 3 * n + 3 <= |a|
    ensures PutVertex(a[..3 * n] + b[3 * n..], div, i, j, v) == a[..3 * n + 3] + b[3 * n + 3..]
  {
    VidInGrid(div, i, j);
    BlendStep(a, b, 3 * n, v.x, v.y, v.z);
  }

  /** One step of the fault pass: vertex n rewritten with its own x and y
      and its height moved by the fault's step. */
  lemma FaultPut(vs: seq<real>, f: Fault, delta: real, div: int, i: int, j: int, n: nat, v: Vec3, z: real)
    requires GridSized(vs, div) && InGrid(div, i, j) && n == Vid(div, i, j)
    requires 3 * n + 2 < |vs| && v == VertexAt(vs, n) && z == v.z + FaultStep(v, f, delta)
    ensures PutVertex(ApplyFault(vs, f, delta)[..3 * n] + vs[3 * n..], div, i, j, Vec3(v.x, v.y, z))
         == ApplyFault(vs, f, delta)[..3 * n + 3] + vs[3 * n + 3..]
  {
    ApplyFaultAt(vs, f, delta, n);
    BlendPut(ApplyFault(vs, f, delta), vs, div, i, j, n, Vec3(v.x, v.y, z));
  }

  /** Rewriting an interior vertex with its own x and y and the weighted
      average of its neighbourhood as height is one smoothing step. */
  lemma SmoothPut(vs: seq<real>, div: int, i: int, j: int, v: Vec3, h: real)
    requires GridSized(vs, div) && Interior(div, i, j)
    requires v == GridVertex(vs, div, i, j) && h == Average3x3(vs, div, i, j)
    ensures PutVertex(vs, div, i, j, Vec3(v.x, v.y, h)) == SmoothAt(vs, div, i, j)
  {
    VidInGrid(div, i, j);
  }

  class Terrain {
    var div: int
    var minX: real
    var maxX: real
    var minY: real
    var maxY: real
    var lowestHeight: real
    var highestHeight: real
    var numVertices: int
    var numFaces: int
    var vBuffer: seq<real>
    var fBuffer: seq<int>
    var nBuffer: seq<real>
    var eBuffer: seq<int>

    /** A terrain over [minX, maxX] x [minY, maxY] split into div x div
        squares: the flat grid and its faces, then 100 faults of 0.005
        (one per element of faults) and one smoothing pass, then the
        normals and the wireframe. The heights end between 0 and 1. */
    constructor(div: int, minX: real, maxX: real, minY: real, maxY: real, faults: seq<Fault>, norm: Normalizer)
      requires div >= 1 && |faults| == 100
      ensures this.div == div && this.minX == minX && this.maxX == maxX && this.minY == minY && this.maxY == maxY
      ensures Valid() && 1 <= GridCount(div)
      ensures vBuffer == Partitioned(GridVertices(Area(), div), div, faults, 0.005)
      ensures Relief(vBuffer, GridVertices(Area(), div), 1.0)
      ensures fBuffer == GridFaces(div) && |fBuffer| % 3 == 0 && eBuffer == Edges(fBuffer)
      ensures nBuffer == GridNormals(vBuffer, div, norm)
      ensures numVertices == GridCount(div) && numFaces == 2 * (div * div)
      ensures lowestHeight == 0.0 && 0.0 <= highestHeight <= 1.0
    {
      this.div := div;
      this.minX := minX;
      this.minY := minY;
      this.maxX := maxX;
      this.maxY := maxY;
      lowestHeight := 0.0;
      highestHeight := 0.0;
      numVertices := 0;
      numFaces := 0;
      vBuffer := [];
      fBuffer := [];
      nBuffer := [];
      eBuffer := [];
      new;
      Build(faults, norm);
    }

    /** The constructor's work once the fields are set: the grid, the
        heights, the normals and the wireframe, in that order. */
    method Build(faults: seq<Fault>, norm: Normalizer)
      requires div >= 1 && |faults| == 100 && vBuffer == [] && fBuffer == [] && nBuffer == [] && eBuffer == []
      modifies this`vBuffer, this`fBuffer, this`nBuffer, this`eBuffer, this`numVertices, this`numFaces
      modifies this`lowestHeight, this`highestHeight
      ensures Valid() && 1 <= GridCount(div)
      ensures vBuffer == Partitioned(GridVertices(Area(), div), div, faults, 0.005)
      ensures Relief(vBuffer, GridVertices(Area(), div), 1.0)
      ensures fBuffer == GridFaces(div) && |fBuffer| % 3 == 0 && eBuffer == Edges(fBuffer)
      ensures nBuffer == GridNormals(vBuffer, div, norm)
      ensures numVertices == GridCount(div) && numFaces == 2 * (div * div)
      ensures lowestHeight == 0.0 && 0.0 <= highestHeight <= 1.0
    {
      BuildHeights(faults);
      BuildNormalsAndLines(norm);
    }

    /** The normals and the wireframe of the finished grid. */
    method BuildNormalsAndLines(norm: Normalizer)
      requires Valid() && |fBuffer| % 3 == 0 && nBuffer == [] && eBuffer == []
      modifies this`nBuffer, this`eBuffer
      ensures nBuffer == GridNormals(vBuffer, div, norm) && eBuffer == Edges(fBuffer)
    {
      SetNormals(norm);
      GenerateLines();
    }

    /** The grid and its heights. */
    method BuildHeights(faults: seq<Fault>)
      requires div >= 1 && |faults| == 100 && vBuffer == [] && fBuffer == []
      modifies this`vBuffer, this`fBuffer, this`numVertices, this`numFaces, this`lowestHeight, this`highestHeight
      ensures Valid() && 1 <= GridCount(div)
      ensures vBuffer == Partitioned(GridVertices(Area(), div), div, faults, 0.005)
      ensures Relief(vBuffer, GridVertices(Area(), div), 1.0)
      ensures fBuffer == GridFaces(div) && |fBuffer| % 3 == 0
      ensures numVertices == GridCount(div) && numFaces == 2 * (div * div)
      ensures lowestHeight == 0.0 && 0.0 <= highestHeight <= 1.0
    {
      GenerateTriangles();
      ghost var area := Area();
      ghost var flat := vBuffer;
      assert flat == GridVertices(area, div);
      MulMono(1, div + 1, div + 1);
      PartitionRelief(area, div, faults, 0.005, 1.0);
      BufferThirds(|vBuffer|, |fBuffer|, GridCount(div), div * div);
      SetHeightsByPartition(faults, 0.005);
      assert vBuffer == Partitioned(flat, div, faults, 0.005);
      HighestInRange(vBuffer, flat, 1.0, GridCount(div));
    }

    /** The vertex buffer holds the (div + 1) x (div + 1) grid. */
    predicate Valid()
      reads this
    {
      GridSized(vBuffer, div) && |vBuffer| % 3 == 0
    }

    /** The rectangle the terrain spans. */
    function Area(): (r: Rect)
      reads this
      ensures r.minX == minX && r.maxX == maxX && r.minY == minY && r.maxY == maxY
    {
      Rect(minX, maxX, minY, maxY)
    }

    /** Overwrites vertex (i, j). */
    method SetVertex(v: Vec3, i: int, j: int)
      requires Valid() && InGrid(div, i, j)
      modifies this`vBuffer
      ensures Valid()
      ensures vBuffer == PutVertex(old(vBuffer), div, i, j, v)
    {
      VidInGrid(div, i, j);
      var vid := 3 * (i * (div + 1) + j);
      vBuffer := vBuffer[vid := v.x];
      vBuffer := vBuffer[vid + 1 := v.y];
      vBuffer := vBuffer[vid + 2 := v.z];
    }

    /** The coordinates of vertex (i, j). */
    method GetVertex(i: int, j: int) returns (v: Vec3)
      requires Valid() && InGrid(div, i, j)
      ensures v == GridVertex(vBuffer, div, i, j)
      ensures v == VertexAt(vBuffer, Vid(div, i, j))
    {
      VidInGrid(div, i, j);
      var vid := 3 * (i * (div + 1) + j);
      v := Vec3(vBuffer[vid], vBuffer[vid + 1], vBuffer[vid + 2]);
    }

    /** Appends the grid's vertices, row by row, and its two triangles per
        square, and records the counts. */
    method GenerateTriangles()
      requires div >= 1
      modifies this`vBuffer, this`fBuffer, this`numVertices, this`numFaces
      ensures vBuffer == old(vBuffer) + GridVertices(Area(), div)
      ensures fBuffer == old(fBuffer) + GridFaces(div)
      ensures numVertices == |vBuffer| / 3 && numFaces == |fBuffer| / 3
    {
      PushGridVertices();
      PushGridFaces();
      numVertices := |vBuffer| / 3;
      numFaces := |fBuffer| / 3;
    }

    /** The vertex loop of generateTriangles. */
    method PushGridVertices()
      requires div >= 1
      modifies this`vBuffer
      ensures vBuffer == old(vBuffer) + GridVertices(Area(), div)
    {
      var r := Area();
      var deltaX := (r.maxX - r.minX) / (div as real);
      var deltaY := (r.maxY - r.minY) / (div as real);
      ghost var all := GridVertices(r, div);
      ghost var n := 0;
      for i := 0 to div + 1
        invariant n == Vid(div, i, 0) && 3 * n <= |all|
        invariant vBuffer == old(vBuffer) + all[..3 * n]
      {
        for j := 0 to div + 1
          invariant n == Vid(div, i, j) && 3 * n <= |all|
          invariant vBuffer == old(vBuffer) + all[..3 * n]
        {
          var x, y := r.minX + deltaX * (j as real), r.minY + deltaY * (i as real);
          VertexPush(r, div, i, j, deltaX, deltaY);
          vBuffer := vBuffer + [x, y, 0.0];
          n := n + 1;
        }
        RowEnd(div + 1, i);
      }
      RowEnd(div + 1, div);
    }

    /** The face loop of generateTriangles. */
    method PushGridFaces()
      requires div >= 1
      modifies this`fBuffer
      ensures fBuffer == old(fBuffer) + GridFaces(div)
    {
      ghost var all := GridFaces(div);
      ghost var q := 0;
      for i := 0 to div
        invariant q == i * div && 6 * q <= |all|
        invariant fBuffer == old(fBuffer) + all[..6 * q]
      {
        for j := 0 to div
          invariant q == i * div + j && 6 * q <= |all|
          invariant fBuffer == old(fBuffer) + all[..6 * q]
        {
          var vid := i * (div + 1) + j;
          QuadPush(div, i, j, vid, 6 * q);
          ghost var before := fBuffer;
          fBuffer := fBuffer + [vid, vid + 1, vid + (div + 1)];
          fBuffer := fBuffer + [vid + 1, (vid + 1) + (div + 1), vid + (div + 1)];
          assert fBuffer == before + [vid, vid + 1, vid + (div + 1), vid + 1, (vid + 1) + (div + 1), vid + (div + 1)];
          q := q + 1;
        }
        RowEnd(div, i);
      }
      RowEnd(div, div - 1);
      assert all[..6 * q] == all;
    }

    /** The heights: the faults one after the other, one smoothing pass,
        every height lowered so the lowest is 0, and the lowest and highest
        heights recorded. One fault is drawn per element of faults. */
    method SetHeightsByPartition(faults: seq<Fault>, delta: real)
      requires Valid()
      modifies this`vBuffer, this`lowestHeight, this`highestHeight
      ensures Valid()
      ensures vBuffer == Partitioned(old(vBuffer), div, faults, delta)
      ensures lowestHeight == MinAxis(vBuffer, 2, GridCount(div)) && lowestHeight == 0.0
      ensures highestHeight == MaxAxis(vBuffer, 2, GridCount(div))
    {
      FaultAll(faults, delta);
      SmoothInPlace();
      RestOnZeroInPlace();
    }

    /** The fault stage: the faults applied one after the other. */
    method FaultAll(faults: seq<Fault>, delta: real)
      requires Valid()
      modifies this`vBuffer
      ensures Valid() && vBuffer == ApplyFaults(old(vBuffer), faults, delta)
    {
      ghost var vs0 := vBuffer;
      for times := 0 to |faults|
        invariant Valid() && vBuffer == ApplyFaults(vs0, faults[..times], delta)
      {
        assert faults[..times + 1][..times] == faults[..times];
        ApplyFaultInPlace(faults[times], delta);
      }
      assert faults[..|faults|] == faults;
    }

    /** The last stage: every height lowered by the lowest one, then the
        lowest and highest heights recorded. */
    method RestOnZeroInPlace()
      requires Valid()
      modifies this`vBuffer, this`lowestHeight, this`highestHeight
      ensures Valid() && 1 <= GridCount(div)
      ensures vBuffer == RestOnZero(old(vBuffer), GridCount(div))
      ensures lowestHeight == MinAxis(vBuffer, 2, GridCount(div)) && lowestHeight == 0.0
      ensures highestHeight == MaxAxis(vBuffer, 2, GridCount(div))
    {
      MulMono(1, div + 1, div + 1);
      ghost var s := vBuffer;
      var min := LowestHeight();
      min := 0.0 - min;
      ShiftInPlace(min);
      SetHeightRange();
      RestsOnZero(s, GridCount(div));
    }

    /** One fault: every vertex on the non-negative side of the cut raised
        by delta, every other vertex lowered by delta. */
    method ApplyFaultInPlace(f: Fault, delta: real)
      requires Valid()
      modifies this`vBuffer
      ensures Valid()
      ensures vBuffer == ApplyFault(old(vBuffer), f, delta)
    {
      ghost var vs0 := vBuffer;
      ghost var n := 0;
      for i := 0 to div + 1
        invariant Valid() && GridSized(vs0, div) && |vs0| % 3 == 0 && n == Vid(div, i, 0) && 3 * n <= |vs0|
        invariant vBuffer == ApplyFault(vs0, f, delta)[..3 * n] + vs0[3 * n..]
      {
        FaultRow(f, delta, i, vs0, n);
        RowEnd(div + 1, i);
        n := n + div + 1;
      }
      BlendDone(ApplyFault(vs0, f, delta), vs0, 3 * n);
    }

    /** Row i of the fault pass, column by column. */
    method FaultRow(f: Fault, delta: real, i: int, ghost vs0: seq<real>, ghost n0: nat)
      requires Valid() && GridSized(vs0, div) && |vs0| % 3 == 0 && 0 <= i <= div && n0 == Vid(div, i, 0)
      requires vBuffer == ApplyFault(vs0, f, delta)[..3 * n0] + vs0[3 * n0..]
      modifies this`vBuffer
      ensures Valid() && 3 * (n0 + div + 1) <= |vs0|
      ensures vBuffer == ApplyFault(vs0, f, delta)[..3 * (n0 + div + 1)] + vs0[3 * (n0 + div + 1)..]
    {
      ghost var n := n0;
      for j := 0 to div + 1
        invariant Valid() && n == Vid(div, i, j) && n == n0 + j && 3 * n <= |vs0|
        invariant vBuffer == ApplyFault(vs0, f, delta)[..3 * n] + vs0[3 * n..]
      {
        FaultVertex(f, delta, i, j, vs0, n);
        n := n + 1;
      }
    }

    /** Vertex (i, j) raised or lowered by one fault, every vertex before
        it in row-major order already moved. */
    method FaultVertex(f: Fault, delta: real, i: int, j: int, ghost vs0: seq<real>, ghost n: nat)
      requires Valid() && GridSized(vs0, div) && |vs0| % 3 == 0 && InGrid(div, i, j) && n == Vid(div, i, j)
      requires vBuffer == ApplyFault(vs0, f, delta)[..3 * n] + vs0[3 * n..]
      modifies this`vBuffer
      ensures Valid() && 3 * n + 3 <= |vs0|
      ensures vBuffer == ApplyFault(vs0, f, delta)[..3 * n + 3] + vs0[3 * n + 3..]
    {
      VidInGrid(div, i, j);
      BlendAt(ApplyFault(vs0, f, delta), vs0, 3 * n);
      var vertex := GetVertex(i, j);
      var z := vertex.z + FaultStep(vertex, f, delta);
      FaultPut(vs0, f, delta, div, i, j, n, vertex, z);
      SetVertex(Vec3(vertex.x, vertex.y, z), i, j);
    }

    /** The smoothing pass: each interior vertex, row by row, replaced by
        the weighted average of its 3x3 neighbourhood as the buffer stands. */
    method SmoothInPlace()
      requires Valid()
      modifies this`vBuffer
      ensures Valid()
      ensures vBuffer == Smoothed(old(vBuffer), div)
    {
      ghost var vs0 := vBuffer;
      for i := 1 to div
        invariant Valid() && vBuffer == SmoothTo(vs0, div, i, 1)
      {
        SmoothRow(i, vs0);
      }
    }

    /** Row i of the smoothing pass, column by column. */
    method SmoothRow(i: int, ghost vs0: seq<real>)
      requires Valid() && GridSized(vs0, div) && 1 <= i < div && vBuffer == SmoothTo(vs0, div, i, 1)
      modifies this`vBuffer
      ensures Valid() && vBuffer == SmoothTo(vs0, div, i, div)
    {
      for j := 1 to div
        invariant Valid() && vBuffer == SmoothTo(vs0, div, i, j)
      {
        var vertex := GetVertex(i, j);
        var average := SmoothedHeight(i, j);
        SmoothPut(vBuffer, div, i, j, vertex, average);
        SetVertex(Vec3(vertex.x, vertex.y, average), i, j);
      }
    }

    /** The weighted average of vertex (i, j)'s 3x3 neighbourhood: weight
        4 for the vertex, 2 for each side neighbour, 1 for each diagonal
        neighbour, over 16. */
    method SmoothedHeight(i: int, j: int) returns (average: real)
      requires Valid() && Interior(div, i, j)
      ensures average == Average3x3(vBuffer, div, i, j)
    {
      var vertex := GetVertex(i, j);
      var n0 := GetVertex(i, j + 1);
      var n1 := GetVertex(i + 1, j + 1);
      var n2 := GetVertex(i + 1, j);
      var n3 := GetVertex(i + 1, j - 1);
      var n4 := GetVertex(i, j - 1);
      var n5 := GetVertex(i - 1, j - 1);
      var n6 := GetVertex(i - 1, j);
      var n7 := GetVertex(i - 1, j + 1);
      var neighbors := [n0, n1, n2, n3, n4, n5, n6, n7];
      average := 4.0 * vertex.z;
      for k := 0 to 8
        invariant average == 4.0 * vertex.z + WeightedHeights(neighbors, k)
      {
        if k % 2 == 0 {
          average := average + 2.0 * neighbors[k].z;
        } else {
          average := average + neighbors[k].z;
        }
      }
      WeightedEight(neighbors);
      average := average / 16.0;
    }

    /** The lowest height, scanning from vertex (0, 0) row by row. */
    method LowestHeight() returns (min: real)
      requires Valid()
      ensures min == MinAxis(vBuffer, 2, GridCount(div))
    {
      var vertex := GetVertex(0, 0);
      min := vertex.z;
      ghost var n := 0;
      for i := 0 to div + 1
        invariant n == Vid(div, i, 0) && n <= GridCount(div)
        invariant min == MinAxis(vBuffer, 2, if n == 0 then 1 else n)
      {
        for j := 0 to div + 1
          invariant n == Vid(div, i, j) && n <= GridCount(div)
          invariant min == MinAxis(vBuffer, 2, if n == 0 then 1 else n)
        {
          VidInGrid(div, i, j);
          vertex := GetVertex(i, j);
          ExtremesStep(vBuffer, n, vertex.z, min, MaxAxis(vBuffer, 2, if n == 0 then 1 else n));
          min := if vertex.z < min then vertex.z else min;
          n := n + 1;
        }
        RowEnd(div + 1, i);
      }
      RowEnd(div + 1, div);
    }

    /** Every height raised by d. */
    method ShiftInPlace(d: real)
      requires Valid()
      modifies this`vBuffer
      ensures Valid()
      ensures vBuffer == ShiftHeights(old(vBuffer), d)
    {
      ghost var vs0 := vBuffer;
      ghost var n := 0;
      for i := 0 to div + 1
        invariant Valid() && GridSized(vs0, div) && n == Vid(div, i, 0) && 3 * n <= |vs0|
        invariant vBuffer == ShiftHeights(vs0, d)[..3 * n] + vs0[3 * n..]
      {
        ShiftRow(d, i, vs0, n);
        RowEnd(div + 1, i);
        n := n + div + 1;
      }
      BlendDone(ShiftHeights(vs0, d), vs0, 3 * n);
    }

    /** Row i of the shift, column by column. */
    method ShiftRow(d: real, i: int, ghost vs0: seq<real>, ghost n0: nat)
      requires Valid() && GridSized(vs0, div) && 0 <= i <= div && n0 == Vid(div, i, 0)
      requires vBuffer == ShiftHeights(vs0, d)[..3 * n0] + vs0[3 * n0..]
      modifies this`vBuffer
      ensures Valid() && 3 * (n0 + div + 1) <= |vs0|
      ensures vBuffer == ShiftHeights(vs0, d)[..3 * (n0 + div + 1)] + vs0[3 * (n0 + div + 1)..]
    {
      ghost var n := n0;
      for j := 0 to div + 1
        invariant Valid() && n == Vid(div, i, j) && n == n0 + j && 3 * n <= |vs0|
        invariant vBuffer == ShiftHeights(vs0, d)[..3 * n] + vs0[3 * n..]
      {
        VidInGrid(div, i, j);
        BlendAt(ShiftHeights(vs0, d), vs0, 3 * n);
        ShiftAt(vs0, d, n);
        var vertex := GetVertex(i, j);
        BlendPut(ShiftHeights(vs0, d), vs0, div, i, j, n, Vec3(vertex.x, vertex.y, vertex.z + d));
        SetVertex(Vec3(vertex.x, vertex.y, vertex.z + d), i, j);
        n := n + 1;
      }
    }

    /** Records the lowest and the highest height, scanning from vertex
        (0, 0) row by row. */
    method SetHeightRange()
      requires Valid()
      modifies this`lowestHeight, this`highestHeight
      ensures lowestHeight == MinAxis(vBuffer, 2, GridCount(div))
      ensures highestHeight == MaxAxis(vBuffer, 2, GridCount(div))
    {
      var vertex := GetVertex(0, 0);
      lowestHeight := vertex.z;
      highestHeight := vertex.z;
      ghost var n := 0;
      for i := 0 to div + 1
        invariant n == Vid(div, i, 0) && n <= GridCount(div)
        invariant lowestHeight == MinAxis(vBuffer, 2, if n == 0 then 1 else n)
        invariant highestHeight == MaxAxis(vBuffer, 2, if n == 0 then 1 else n)
      {
        for j := 0 to div + 1
          invariant n == Vid(div, i, j) && n <= GridCount(div)
          invariant lowestHeight == MinAxis(vBuffer, 2, if n == 0 then 1 else n)
          invariant highestHeight == MaxAxis(vBuffer, 2, if n == 0 then 1 else n)
        {
          VidInGrid(div, i, j);
          vertex := GetVertex(i, j);
          ExtremesStep(vBuffer, n, vertex.z, lowestHeight, highestHeight);
          lowestHeight := if vertex.z < lowestHeight then vertex.z else lowestHeight;
          highestHeight := if vertex.z > highestHeight then vertex.z else highestHeight;
          n := n + 1;
        }
        RowEnd(div + 1, i);
      }
      RowEnd(div + 1, div);
    }

    /** Appends the normal of every vertex, row by row. */
    method SetNormals(norm: Normalizer)
      requires Valid()
      modifies this`nBuffer
      ensures nBuffer == old(nBuffer) + GridNormals(vBuffer, div, norm)
    {
      ghost var field := NormalField(vBuffer, div, norm);
      for i := 0 to div + 1
        invariant nBuffer == old(nBuffer) + ValuesTo(field, div, i, 0)
      {
        for j := 0 to div + 1
          invariant nBuffer == old(nBuffer) + ValuesTo(field, div, i, j)
        {
          var sum := VertexNormalSum(i, j);
          var vNormal := norm(sum);
          nBuffer := nBuffer + [vNormal.x, vNormal.y, vNormal.z];
        }
      }
    }

    /** The normal sum of vertex (i, j) before normalising: its neighbours
        read in the program's order, then the cross products of the edges
        to each consecutive pair added up. */
    method VertexNormalSum(i: int, j: int) returns (sum: Vec3)
      requires Valid() && InGrid(div, i, j)
      ensures sum == NormalSumAt(vBuffer, div, i, j)
    {
      var vertex := GetVertex(i, j);
      var o := Offsets(div, i, j);
      OffsetsFan(div, i, j);
      NeighbourPointsAt(vBuffer, div, i, j);
      ghost var ps := NeighbourPoints(vBuffer, div, i, j);
      var neighbors: seq<Vec3> := [];
      for k := 0 to |o|
        invariant neighbors == ps[..k]
      {
        var p := GetVertex(i + o[k].0, j + o[k].1);
        neighbors := neighbors + [p];
      }
      assert neighbors == ps;
      var closed := Interior(div, i, j);
      ghost var faces := FanNormals(vertex, neighbors, closed);
      sum := Zero3;
      for k := 0 to FanCount(|neighbors|, closed)
        invariant sum == SumVecs(faces[..k])
      {
        var a := Sub(neighbors[k], vertex);
        var b := Sub(neighbors[Next(k, |neighbors|)], vertex);
        SumPrefixStep(faces, k);
        sum := Add(sum, Cross(a, b));
      }
      assert faces[..|faces|] == faces;
    }

    /** Appends the three edges of every face to the edge buffer. */
    method GenerateLines()
      requires |fBuffer| % 3 == 0
      modifies this`eBuffer
      ensures eBuffer == old(eBuffer) + Edges(fBuffer)
    {
      var numTris := |fBuffer| / 3;
      for f := 0 to numTris
        invariant eBuffer == old(eBuffer) + EdgesUpTo(fBuffer, f)
      {
        var fid := f * 3;
        eBuffer := eBuffer + [fBuffer[fid], fBuffer[fid + 1]];
        eBuffer := eBuffer + [fBuffer[fid + 1], fBuffer[fid + 2]];
        eBuffer := eBuffer + [fBuffer[fid + 2], fBuffer[fid]];
      }
    }
  }
}
