/** A square terrain grid: (div + 1) x (div + 1) vertices laid out row by
    row in a flat vertex buffer, two triangles per grid square, heights
    raised and lowered by random half-plane faults, smoothed once in place,
    shifted so the lowest point is at height 0, per-vertex normals from the
    surrounding faces, and a wireframe edge list. */
module TerrainModel {
  import opened Vectors
  import opened FlatBuffers

  // ---------------------------------------------------------------------
  // Grid arithmetic

  /** The index of vertex (i, j) (row i, column j) in a grid with div + 1
      vertices per row. */
  function Vid(div: int, i: int, j: int): int {
    i * (div + 1) + j
  }

  /** Whether (i, j) is a vertex of the grid. */
  predicate InGrid(div: int, i: int, j: int) {
    0 <= i <= div && 0 <= j <= div
  }

  lemma MulMono(a: int, b: int, c: int)
    requires 0 <= a <= b && 0 <= c
    ensures a * c <= b * c
  {
    assert b * c - a * c == (b - a) * c;
  }

  /** Row-major positions in a w-wide block are unique: (i, j) is recovered
      from i * w + j by division and remainder. */
  lemma RowMajor(w: int, i: int, j: int)
    requires w >= 1 && 0 <= i && 0 <= j < w
    ensures (i * w + j) / w == i && (i * w + j) % w == j
  {
    var q, r := (i * w + j) / w, (i * w + j) % w;
    assert q * w + r == i * w + j;
    if q > i {
      assert (q - i) * w == j - r;
      MulMono(1, q - i, w);
    } else if q < i {
      assert (i - q) * w == r - j;
      MulMono(1, i - q, w);
    }
  }

  /** A position inside a w x w block, split into row and column. */
  function Split(w: int, v: int): (r: (int, int))
    requires w >= 1 && 0 <= v < w * w
    ensures 0 <= r.0 < w && 0 <= r.1 < w && r.0 * w + r.1 == v
  {
    var i, j := v / w, v % w;
    if i >= w then
      MulMono(w, i, w);
      assert false;
      (0, 0)
    else
      (i, j)
  }

  /** Entries 3v, 3v + 1 and 3v + 2 of a flat buffer belong to vertex v. */
  lemma Thirds(v: int)
    requires 0 <= v
    ensures (3 * v) / 3 == v && (3 * v + 1) / 3 == v && (3 * v + 2) / 3 == v
    ensures (3 * v) % 3 == 0 && (3 * v + 1) % 3 == 1 && (3 * v + 2) % 3 == 2
  {
  }

  /** Row i starts where row i - 1 ends. */
  lemma RowStep(w: int, i: int)
    ensures (i - 1) * w + w == i * w
  {
  }

  /** Splitting the row-major position of (i, j) gives back (i, j). */
  lemma SplitRowMajor(w: int, i: int, j: int)
    requires w >= 1 && 0 <= i < w && 0 <= j < w
    ensures 0 <= i * w + j < w * w && Split(w, i * w + j) == (i, j)
  {
    RowMajor(w, i, j);
    MulMono(i, w - 1, w);
  }

  // ---------------------------------------------------------------------
  // The grid generateTriangles lays out

  /** The rectangle the grid spans. */
  datatype Rect = Rect(minX: real, maxX: real, minY: real, maxY: real)

  /** Vertex (i, j): column j steps along x and row i along y, each by a
      div-th of the rectangle's side, at height 0. */
  function GridPoint(r: Rect, div: int, i: int, j: int): Vec3
    requires div >= 1
  {
    var deltaX := (r.maxX - r.minX) / (div as real);
    var deltaY := (r.maxY - r.minY) / (div as real);
    Vec3(r.minX + deltaX * (j as real), r.minY + deltaY * (i as real), 0.0)
  }

  /** The vertex buffer of the flat grid, row by row. */
  function GridVertices(r: Rect, div: int): (vs: seq<real>)
    requires div >= 1
    ensures |vs| == 3 * ((div + 1) * (div + 1))
  {
    seq(3 * ((div + 1) * (div + 1)), k requires 0 <= k < 3 * ((div + 1) * (div + 1)) =>
      var c := Split(div + 1, k / 3);
      Comp(GridPoint(r, div, c.0, c.1), k % 3))
  }

  /** Corner m of the two triangles of grid square (i, j): first (vid,
      vid + 1, vid + div + 1), then (vid + 1, vid + div + 2, vid + div + 1),
      where vid is the square's lower-left vertex. */
  function QuadCorner(div: int, i: int, j: int, m: int): int
    requires 0 <= m < 6
  {
    var vid := Vid(div, i, j);
    if m == 0 then vid
    else if m == 1 || m == 3 then vid + 1
    else if m == 4 then vid + 1 + (div + 1)
    else vid + (div + 1)
  }

  /** The face buffer: the six corners of every grid square, squares in
      row-major order. */
  function GridFaces(div: int): (fs: seq<int>)
    requires div >= 1
    ensures |fs| == 6 * (div * div)
  {
    seq(6 * (div * div), k requires 0 <= k < 6 * (div * div) =>
      var q := Split(div, k / 6);
      QuadCorner(div, q.0, q.1, k % 6))
  }

  /** Vertex (i, j) of the flat grid sits at offset 3 * Vid(div, i, j). */
  lemma GridVertexAt(r: Rect, div: int, i: int, j: int)
    requires div >= 1 && InGrid(div, i, j)
    ensures 0 <= Vid(div, i, j) < (div + 1) * (div + 1)
    ensures VertexAt(GridVertices(r, div), Vid(div, i, j)) == GridPoint(r, div, i, j)
  {
    SplitRowMajor(div + 1, i, j);
    var v := Vid(div, i, j);
    Thirds(v);
    var vs := GridVertices(r, div);
    var p := GridPoint(r, div, i, j);
    assert vs[3 * v] == p.x && vs[3 * v + 1] == p.y && vs[3 * v + 2] == p.z;
  }

  /** Square (i, j) contributes its two triangles at offset
      6 * (i * div + j) of the face buffer. */
  lemma GridQuadAt(div: int, i: int, j: int, m: int)
    requires div >= 1 && 0 <= i < div && 0 <= j < div && 0 <= m < 6
    ensures 0 <= 6 * (i * div + j) + m < |GridFaces(div)|
    ensures GridFaces(div)[6 * (i * div + j) + m] == QuadCorner(div, i, j, m)
  {
    SplitRowMajor(div, i, j);
    var q := i * div + j;
    assert (6 * q + m) / 6 == q && (6 * q + m) % 6 == m;
  }

  /** Every face index names a vertex of the grid. */
  lemma GridFacesInRange(div: int)
    requires div >= 1
    ensures forall k :: 0 <= k < |GridFaces(div)| ==> 0 <= GridFaces(div)[k] < (div + 1) * (div + 1)
  {
    forall k | 0 <= k < |GridFaces(div)|
      ensures 0 <= GridFaces(div)[k] < (div + 1) * (div + 1)
    {
      var q := Split(div, k / 6);
      QuadCornerInGrid(div, q.0, q.1, k % 6);
    }
  }

  lemma QuadCornerInGrid(div: int, i: int, j: int, m: int)
    requires div >= 1 && 0 <= i < div && 0 <= j < div && 0 <= m < 6
    ensures 0 <= QuadCorner(div, i, j, m) < (div + 1) * (div + 1)
  {
    MulMono(i, div - 1, div + 1);
    assert (div - 1) * (div + 1) == div * (div + 1) - (div + 1);
    assert (div + 1) * (div + 1) == div * (div + 1) + (div + 1);
    assert 0 <= i * (div + 1);
  }

  // ---------------------------------------------------------------------
  // Heights: faults

  /** One random cut of setHeightsByPartition: a point p on the cutting
      line and the line's normal n (both drawn at random by the program). */
  datatype Fault = Fault(p: Vec3, n: Vec3)

  /** The height change a fault makes at vertex v: +delta where
      (v - p) . n >= 0, -delta on the other side. */
  function FaultStep(v: Vec3, f: Fault, delta: real): real {
    if Dot(Sub(v, f.p), f.n) >= 0.0 then delta else -delta
  }

  /** One fault applied to every vertex: only heights change. */
  function ApplyFault(vs: seq<real>, f: Fault, delta: real): (r: seq<real>)
    requires |vs| % 3 == 0
    ensures |r| == |vs|
  {
    seq(|vs|, k requires 0 <= k < |vs| =>
      if k % 3 == 2 then vs[k] + FaultStep(VertexAt(vs, k / 3), f, delta) else vs[k])
  }

  /** The faults applied one after the other, in order. */
  function ApplyFaults(vs: seq<real>, fs: seq<Fault>, delta: real): (r: seq<real>)
    requires |vs| % 3 == 0
    ensures |r| == |vs|
    decreases |fs|
  {
    if fs == [] then vs
    else ApplyFault(ApplyFaults(vs, fs[..|fs| - 1], delta), fs[|fs| - 1], delta)
  }

  /** One fault moves only heights, each by delta up or down. */
  lemma FaultBound(vs: seq<real>, f: Fault, delta: real)
    requires |vs| % 3 == 0 && delta >= 0.0
    ensures forall k :: 0 <= k < |vs| && k % 3 != 2 ==> ApplyFault(vs, f, delta)[k] == vs[k]
    ensures forall k :: 0 <= k < |vs| && k % 3 == 2 ==> vs[k] - delta <= ApplyFault(vs, f, delta)[k] <= vs[k] + delta
  {
  }

  /** Faults move only heights: every x and y is as before. */
  lemma {:induction false} FaultsKeepPlan(vs: seq<real>, fs: seq<Fault>, delta: real)
    requires |vs| % 3 == 0 && delta >= 0.0
    ensures forall k :: 0 <= k < |vs| && k % 3 != 2 ==> ApplyFaults(vs, fs, delta)[k] == vs[k]
    decreases |fs|
  {
    if fs != [] {
      var prev := fs[..|fs| - 1];
      FaultsKeepPlan(vs, prev, delta);
      FaultBound(ApplyFaults(vs, prev, delta), fs[|fs| - 1], delta);
    }
  }

  /** N faults of size delta move each height by at most N * delta either
      way. */
  lemma {:induction false} FaultsBound(vs: seq<real>, fs: seq<Fault>, delta: real)
    requires |vs| % 3 == 0 && delta >= 0.0
    ensures forall k :: 0 <= k < |vs| && k % 3 == 2 ==>
      vs[k] - (|fs| as real) * delta <= ApplyFaults(vs, fs, delta)[k] <= vs[k] + (|fs| as real) * delta
    decreases |fs|
  {
    if fs != [] {
      var prev := fs[..|fs| - 1];
      var before := ApplyFaults(vs, prev, delta);
      FaultsBound(vs, prev, delta);
      FaultBound(before, fs[|fs| - 1], delta);
      var step := (|prev| as real) * delta;
      assert (|fs| as real) * delta == step + delta;
      forall k | 0 <= k < |vs| && k % 3 == 2
        ensures vs[k] - (step + delta) <= ApplyFaults(vs, fs, delta)[k] <= vs[k] + (step + delta)
      {
        assert vs[k] - step <= before[k] <= vs[k] + step;
      }
    }
  }

  // ---------------------------------------------------------------------
  // Heights: smoothing

  /** Vertex (i, j) lies inside the buffer of a grid with div + 1 vertices
      per row. */
  lemma VidInGrid(div: int, i: int, j: int)
    requires InGrid(div, i, j)
    ensures 0 <= Vid(div, i, j) < (div + 1) * (div + 1)
  {
    SplitRowMajor(div + 1, i, j);
  }

  /** Distinct vertices of the grid have distinct indexes. */
  lemma VidInjective(div: int, i: int, j: int, a: int, b: int)
    requires InGrid(div, i, j) && InGrid(div, a, b) && (i, j) != (a, b)
    ensures Vid(div, i, j) != Vid(div, a, b)
  {
    SplitRowMajor(div + 1, i, j);
    SplitRowMajor(div + 1, a, b);
  }

  /** The size of a grid's vertex buffer. */
  predicate GridSized(vs: seq<real>, div: int) {
    div >= 1 && |vs| == 3 * ((div + 1) * (div + 1))
  }

  /** The height (z) of vertex (i, j). */
  function Height(vs: seq<real>, div: int, i: int, j: int): real
    requires GridSized(vs, div) && InGrid(div, i, j)
  {
    VidInGrid(div, i, j);
    vs[3 * Vid(div, i, j) + 2]
  }

  predicate Interior(div: int, i: int, j: int) {
    0 < i < div && 0 < j < div
  }

  /** The 3x3 weighted average of the smoothing pass: weight 4 for the
      vertex itself, 2 for its four side neighbours, 1 for its four
      diagonal neighbours, over 16, neighbours taken in the program's
      order. */
  function Average3x3(vs: seq<real>, div: int, i: int, j: int): real
    requires GridSized(vs, div) && Interior(div, i, j)
  {
    (4.0 * Height(vs, div, i, j)
     + 2.0 * Height(vs, div, i, j + 1) + Height(vs, div, i + 1, j + 1)
     + 2.0 * Height(vs, div, i + 1, j) + Height(vs, div, i + 1, j - 1)
     + 2.0 * Height(vs, div, i, j - 1) + Height(vs, div, i - 1, j - 1)
     + 2.0 * Height(vs, div, i - 1, j) + Height(vs, div, i - 1, j + 1)) / 16.0
  }

  /** The buffer with the height of vertex (i, j) replaced by h. */
  function SetHeight(vs: seq<real>, div: int, i: int, j: int, h: real): (r: seq<real>)
    requires GridSized(vs, div) && InGrid(div, i, j)
    ensures GridSized(r, div)
  {
    VidInGrid(div, i, j);
    vs[3 * Vid(div, i, j) + 2 := h]
  }

  /** Setting one height leaves every x and y as it was. */
  lemma SetHeightKeepsPlan(vs: seq<real>, div: int, i: int, j: int, h: real)
    requires GridSized(vs, div) && InGrid(div, i, j)
    ensures forall k :: 0 <= k < |vs| && k % 3 != 2 ==> SetHeight(vs, div, i, j, h)[k] == vs[k]
  {
    assert (3 * Vid(div, i, j) + 2) % 3 == 2;
  }

  /** Setting one height gives vertex (i, j) that height and leaves every
      other height as it was. */
  lemma SetHeightKeeps(vs: seq<real>, div: int, i: int, j: int, h: real)
    requires GridSized(vs, div) && InGrid(div, i, j)
    ensures Height(SetHeight(vs, div, i, j, h), div, i, j) == h
    ensures forall a, b :: InGrid(div, a, b) && (a, b) != (i, j) ==> Height(SetHeight(vs, div, i, j, h), div, a, b) == Height(vs, div, a, b)
  {
    forall a, b | InGrid(div, a, b) && (a, b) != (i, j)
      ensures Height(SetHeight(vs, div, i, j, h), div, a, b) == Height(vs, div, a, b)
    {
      VidInjective(div, i, j, a, b);
      VidInGrid(div, a, b);
    }
  }

  /** One smoothing step: the height of interior vertex (i, j) replaced by
      its average, read from the buffer as it stands. */
  function SmoothAt(vs: seq<real>, div: int, i: int, j: int): (r: seq<real>)
    requires GridSized(vs, div) && Interior(div, i, j)
    ensures GridSized(r, div)
  {
    SetHeight(vs, div, i, j, Average3x3(vs, div, i, j))
  }

  /** The buffer after the in-place smoothing pass has visited every
      interior vertex of rows 1 .. i - 1 and vertices (i, 1) .. (i, j - 1),
      each step reading the heights earlier steps already wrote. */
  function SmoothTo(vs: seq<real>, div: int, i: int, j: int): (r: seq<real>)
    requires GridSized(vs, div) && 1 <= i <= div && 1 <= j <= div && (j > 1 ==> i < div)
    ensures GridSized(r, div)
    decreases i, j
  {
    if j > 1 then SmoothAt(SmoothTo(vs, div, i, j - 1), div, i, j - 1)
    else if i > 1 then SmoothTo(vs, div, i - 1, div)
    else vs
  }

  /** The whole smoothing pass. */
  function Smoothed(vs: seq<real>, div: int): (r: seq<real>)
    requires GridSized(vs, div)
    ensures GridSized(r, div)
  {
    SmoothTo(vs, div, div, 1)
  }

  /** Smoothing writes only heights, and only those of interior vertices:
      every x and y and every border height is as before. */
  lemma {:induction false} SmoothKeeps(vs: seq<real>, div: int, i: int, j: int)
    requires GridSized(vs, div) && 1 <= i <= div && 1 <= j <= div && (j > 1 ==> i < div)
    ensures forall k :: 0 <= k < |vs| && k % 3 != 2 ==> SmoothTo(vs, div, i, j)[k] == vs[k]
    ensures forall a, b :: InGrid(div, a, b) && !Interior(div, a, b) ==> Height(SmoothTo(vs, div, i, j), div, a, b) == Height(vs, div, a, b)
    decreases i, j
  {
    if j > 1 {
      SmoothKeeps(vs, div, i, j - 1);
      var prev := SmoothTo(vs, div, i, j - 1);
      SetHeightKeeps(prev, div, i, j - 1, Average3x3(prev, div, i, j - 1));
      SetHeightKeepsPlan(prev, div, i, j - 1, Average3x3(prev, div, i, j - 1));
    } else if i > 1 {
      SmoothKeeps(vs, div, i - 1, div);
    }
  }

  /** Heights between lo and hi stay between lo and hi: every step takes a
      weighted mean with positive weights. */
  lemma {:induction false} SmoothBounds(vs: seq<real>, div: int, i: int, j: int, lo: real, hi: real)
    requires GridSized(vs, div) && 1 <= i <= div && 1 <= j <= div && (j > 1 ==> i < div)
    requires forall k :: 0 <= k < |vs| && k % 3 == 2 ==> lo <= vs[k] <= hi
    ensures forall k :: 0 <= k < |vs| && k % 3 == 2 ==> lo <= SmoothTo(vs, div, i, j)[k] <= hi
    decreases i, j
  {
    if j > 1 {
      SmoothBounds(vs, div, i, j - 1, lo, hi);
      var prev := SmoothTo(vs, div, i, j - 1);
      AverageBounds(prev, div, i, j - 1, lo, hi);
    } else if i > 1 {
      SmoothBounds(vs, div, i - 1, div, lo, hi);
    }
  }

  lemma AverageBounds(vs: seq<real>, div: int, i: int, j: int, lo: real, hi: real)
    requires GridSized(vs, div) && Interior(div, i, j)
    requires forall k :: 0 <= k < |vs| && k % 3 == 2 ==> lo <= vs[k] <= hi
    ensures lo <= Average3x3(vs, div, i, j) <= hi
  {
    forall a, b | InGrid(div, a, b)
      ensures lo <= Height(vs, div, a, b) <= hi
    {
      VidInGrid(div, a, b);
      assert (3 * Vid(div, a, b) + 2) % 3 == 2;
    }
  }

  /** A flat terrain stays flat: the weights sum to 16. */
  lemma SmoothFlat(vs: seq<real>, div: int, h: real)
    requires GridSized(vs, div)
    requires forall k :: 0 <= k < |vs| && k % 3 == 2 ==> vs[k] == h
    ensures forall k :: 0 <= k < |vs| && k % 3 == 2 ==> Smoothed(vs, div)[k] == h
  {
    SmoothBounds(vs, div, div, 1, h, h);
  }

  // ---------------------------------------------------------------------
  // Heights: resting the terrain on z = 0

  /** Every height raised by d; x and y untouched. */
  function ShiftHeights(vs: seq<real>, d: real): (r: seq<real>)
    ensures |r| == |vs|
  {
    seq(|vs|, k requires 0 <= k < |vs| => if k % 3 == 2 then vs[k] + d else vs[k])
  }

  /** Raising every height by d raises the lowest and the highest by d. */
  lemma {:induction false} ShiftExtremes(vs: seq<real>, d: real, n: nat)
    requires 1 <= n && 3 * n <= |vs|
    ensures MinAxis(ShiftHeights(vs, d), 2, n) == MinAxis(vs, 2, n) + d
    ensures MaxAxis(ShiftHeights(vs, d), 2, n) == MaxAxis(vs, 2, n) + d
  {
    if n > 1 {
      ShiftExtremes(vs, d, n - 1);
      assert (3 * (n - 1) + 2) % 3 == 2;
    }
  }

  /** The number of vertices of a grid. */
  function GridCount(div: int): int {
    (div + 1) * (div + 1)
  }

  /** Every height lowered by the lowest of the first n vertices. */
  function RestOnZero(s: seq<real>, n: nat): (r: seq<real>)
    requires 1 <= n && 3 * n <= |s|
    ensures |r| == |s|
  {
    ShiftHeights(s, 0.0 - MinAxis(s, 2, n))
  }

  /** The height pass of setHeightsByPartition as a whole: the faults, one
      smoothing pass, then every height lowered by the lowest one. */
  function Partitioned(vs: seq<real>, div: int, faults: seq<Fault>, delta: real): (r: seq<real>)
    requires GridSized(vs, div)
    ensures GridSized(r, div)
  {
    RestOnZero(Smoothed(ApplyFaults(vs, faults, delta), div), GridCount(div))
  }

  /** Lowering every height by the lowest one: the lowest becomes exactly
      0, some vertex sits at 0 and every height lies between 0 and the
      highest. */
  lemma RestsOnZero(s: seq<real>, n: nat)
    requires 1 <= n && 3 * n <= |s|
    ensures MinAxis(RestOnZero(s, n), 2, n) == 0.0
    ensures forall t :: 0 <= t < n ==> 0.0 <= VertexAt(RestOnZero(s, n), t).z <= MaxAxis(RestOnZero(s, n), 2, n)
    ensures exists t :: 0 <= t < n && VertexAt(RestOnZero(s, n), t).z == 0.0
  {
    ShiftExtremes(s, 0.0 - MinAxis(s, 2, n), n);
    AxisBounds(RestOnZero(s, n), 2, n);
  }

  /** Heights that spanned [lo, hi] span [0, hi - lo] once the lowest is
      moved to 0; x and y do not move. */
  lemma RestSpan(s: seq<real>, n: nat, lo: real, hi: real)
    requires 1 <= n && |s| == 3 * n
    requires forall k :: 0 <= k < |s| && k % 3 == 2 ==> lo <= s[k] <= hi
    ensures forall k :: 0 <= k < |s| && k % 3 != 2 ==> RestOnZero(s, n)[k] == s[k]
    ensures forall k :: 0 <= k < |s| && k % 3 == 2 ==> 0.0 <= RestOnZero(s, n)[k] <= hi - lo
  {
    var m := MinAxis(s, 2, n);
    AxisBounds(s, 2, n);
    var t :| 0 <= t < n && VertexAt(s, t).z == m;
    assert (3 * t + 2) % 3 == 2;
    forall k | 0 <= k < |s| && k % 3 == 2
      ensures 0.0 <= RestOnZero(s, n)[k] <= hi - lo
    {
      assert VertexAt(s, k / 3).z == s[k];
    }
  }

  /** Starting from a flat grid at z = 0, N faults of size delta >= 0 leave
      x and y where they were and every height between 0 and 2 * N * delta. */
  lemma PartitionBounds(vs: seq<real>, div: int, faults: seq<Fault>, delta: real)
    requires GridSized(vs, div) && delta >= 0.0
    requires forall k :: 0 <= k < |vs| && k % 3 == 2 ==> vs[k] == 0.0
    ensures forall k :: 0 <= k < |vs| && k % 3 != 2 ==> Partitioned(vs, div, faults, delta)[k] == vs[k]
    ensures forall k :: 0 <= k < |vs| && k % 3 == 2 ==>
      0.0 <= Partitioned(vs, div, faults, delta)[k] <= 2.0 * (|faults| as real) * delta
  {
    var bound := (|faults| as real) * delta;
    var cut := ApplyFaults(vs, faults, delta);
    FaultsKeepPlan(vs, faults, delta);
    FaultsBound(vs, faults, delta);
    SmoothKeeps(cut, div, div, 1);
    SmoothBounds(cut, div, div, 1, -bound, bound);
    RestSpan(Smoothed(cut, div), GridCount(div), -bound, bound);
  }

  // ---------------------------------------------------------------------
  // Normals

  /** Where a vertex sits: its neighbour fan depends on it. */
  datatype Place = Inside | Corner | Border

  function PlaceOf(div: int, i: int, j: int): Place {
    if Interior(div, i, j) then Inside
    else if (i == 0 && j == 0) || (i == div && j == div) || (i == 0 && j == div) || (i == div && j == 0) then Corner
    else Border
  }

  /** The neighbours setNormals visits around vertex (i, j), as (row, column)
      offsets in the program's order: six all round an interior vertex, two
      or three at a corner, four along a border. */
  function Offsets(div: int, i: int, j: int): seq<(int, int)> {
    if Interior(div, i, j) then [(0, 1), (1, 0), (1, -1), (0, -1), (-1, 0), (-1, 1)]
    else if i == 0 && j == 0 then [(0, 1), (1, 0)]
    else if i == div && j == div then [(0, -1), (-1, 0)]
    else if i == 0 && j == div then [(1, 0), (1, -1), (0, -1)]
    else if i == div && j == 0 then [(-1, 0), (-1, 1), (0, 1)]
    else if i == 0 then [(0, 1), (1, 0), (1, -1), (0, -1)]
    else if j == 0 then [(-1, 0), (-1, 1), (0, 1), (1, 0)]
    else if i == div then [(0, -1), (-1, 0), (-1, 1), (0, 1)]
    else [(1, 0), (1, -1), (0, -1), (-1, 0)]
  }

  /** How many consecutive neighbour pairs a fan of n neighbours has: all n
      when it closes round the vertex, n - 1 when it does not. */
  function FanCount(n: nat, closed: bool): nat {
    if closed then n else if n == 0 then 0 else n - 1
  }

  /** The neighbour after the k-th, wrapping to the first. */
  function Next(k: nat, n: nat): nat {
    if k + 1 < n then k + 1 else 0
  }

  /** Twice the signed area of the grid triangle spanned by two offsets
      (column = x, row = y): 1 when the pair turns counter-clockwise. */
  function Turn(a: (int, int), b: (int, int)): int {
    a.1 * b.0 - a.0 * b.1
  }

  /** Every neighbour lies on the grid, the fan closes exactly round the
      interior vertices, and every pair the fan joins turns
      counter-clockwise, so each triangle's normal points up. */
  lemma OffsetsFan(div: int, i: int, j: int)
    requires div >= 1 && InGrid(div, i, j)
    ensures PlaceOf(div, i, j) == Inside ==> |Offsets(div, i, j)| == 6
    ensures PlaceOf(div, i, j) == Border ==> |Offsets(div, i, j)| == 4
    ensures PlaceOf(div, i, j) == Corner ==> 2 <= |Offsets(div, i, j)| <= 3
    ensures forall k :: 0 <= k < |Offsets(div, i, j)| ==> InGrid(div, i + Offsets(div, i, j)[k].0, j + Offsets(div, i, j)[k].1)
    ensures forall k :: 0 <= k < |Offsets(div, i, j)| ==> -1 <= Offsets(div, i, j)[k].0 <= 1 && -1 <= Offsets(div, i, j)[k].1 <= 1
    ensures forall k :: 0 <= k < FanCount(|Offsets(div, i, j)|, Interior(div, i, j)) ==>
      Turn(Offsets(div, i, j)[k], Offsets(div, i, j)[Next(k, |Offsets(div, i, j)|)]) == 1
  {
  }

  /** The face normals of a fan: the cross product of the edges to each
      consecutive pair of neighbours. */
  function FanNormals(v: Vec3, ps: seq<Vec3>, closed: bool): (ns: seq<Vec3>)
    ensures |ns| == FanCount(|ps|, closed)
  {
    seq(FanCount(|ps|, closed), k requires 0 <= k < FanCount(|ps|, closed) =>
      Cross(Sub(ps[k], v), Sub(ps[Next(k, |ps|)], v)))
  }

  /** The vectors added up in order from zero. */
  function SumVecs(ns: seq<Vec3>): Vec3 {
    if ns == [] then Zero3 else Add(SumVecs(ns[..|ns| - 1]), ns[|ns| - 1])
  }

  /** The intended vertex normal before normalising: the sum of the fan's
      face normals. */
  function FanSum(v: Vec3, ps: seq<Vec3>, closed: bool): Vec3 {
    SumVecs(FanNormals(v, ps, closed))
  }

  /** The sum setNormals computes: every face normal is written into one
      shared vector and the list holds that same vector each time, so the
      sum is the last face normal taken once per face. */
  function AliasedFanSum(v: Vec3, ps: seq<Vec3>, closed: bool): Vec3 {
    var ns := FanNormals(v, ps, closed);
    SumVecs(seq(|ns|, k requires 0 <= k < |ns| => ns[|ns| - 1]))
  }

  lemma {:induction false} SumVecsAppend(a: seq<Vec3>, b: seq<Vec3>)
    ensures SumVecs(a + b) == Add(SumVecs(a), SumVecs(b))
    decreases |b|
  {
    if b == [] {
      assert a + b == a;
    } else {
      var c := b[..|b| - 1];
      assert (a + b)[..|a + b| - 1] == a + c;
      SumVecsAppend(a, c);
    }
  }

  /** n copies of x add up to n * x. */
  lemma {:induction false} SumCopies(n: nat, x: Vec3)
    ensures SumVecs(seq(n, k => x)) == Scale(n as real, x)
  {
    if n > 0 {
      assert seq(n, k => x)[..n - 1] == seq(n - 1, k => x);
      SumCopies(n - 1, x);
      var m := (n - 1) as real;
      assert (n as real) * x.x == m * x.x + x.x;
      assert (n as real) * x.y == m * x.y + x.y;
      assert (n as real) * x.z == m * x.z + x.z;
    }
  }

  /** What setNormals computes is the last face normal scaled by the
      number of faces: it depends on one triangle of the fan only. */
  lemma AliasedIsLastFace(v: Vec3, ps: seq<Vec3>, closed: bool)
    requires FanCount(|ps|, closed) >= 1
    ensures AliasedFanSum(v, ps, closed)
      == Scale(FanCount(|ps|, closed) as real, FanNormals(v, ps, closed)[FanCount(|ps|, closed) - 1])
  {
    var ns := FanNormals(v, ps, closed);
    var last := ns[|ns| - 1];
    assert seq(|ns|, k requires 0 <= k < |ns| => ns[|ns| - 1]) == seq(|ns|, k => last);
    SumCopies(|ns|, last);
  }

  /** The fan started one neighbour later. */
  function Rotate(ps: seq<Vec3>): seq<Vec3>
    requires |ps| >= 1
  {
    ps[1..] + [ps[0]]
  }

  lemma FanNormalsRotate(v: Vec3, ps: seq<Vec3>)
    requires |ps| >= 1
    ensures FanNormals(v, Rotate(ps), true) == FanNormals(v, ps, true)[1..] + [FanNormals(v, ps, true)[0]]
  {
  }

  /** Corrected: a closed fan's normal does not depend on which neighbour
      the list starts from. */
  lemma FanSumRotate(v: Vec3, ps: seq<Vec3>)
    requires |ps| >= 1
    ensures FanSum(v, Rotate(ps), true) == FanSum(v, ps, true)
  {
    var ns := FanNormals(v, ps, true);
    FanNormalsRotate(v, ps);
    SumVecsAppend(ns[1..], [ns[0]]);
    SumVecsAppend([ns[0]], ns[1..]);
    assert [ns[0]] + ns[1..] == ns;
    assert [ns[0]][..0] == [];
  }

  lemma SumPrefixStep(ns: seq<Vec3>, k: nat)
    requires k < |ns|
    ensures SumVecs(ns[..k + 1]) == Add(SumVecs(ns[..k]), ns[k])
  {
    assert ns[..k + 1][..k] == ns[..k];
  }

  /** Six vectors added up in order. */
  lemma SumSix(ns: seq<Vec3>)
    requires |ns| == 6
    ensures SumVecs(ns) == Add(Add(Add(Add(Add(Add(Zero3, ns[0]), ns[1]), ns[2]), ns[3]), ns[4]), ns[5])
  {
    assert ns[..0] == [];
    SumPrefixStep(ns, 0);
    SumPrefixStep(ns, 1);
    SumPrefixStep(ns, 2);
    SumPrefixStep(ns, 3);
    SumPrefixStep(ns, 4);
    SumPrefixStep(ns, 5);
    assert ns[..6] == ns;
  }

  /** Face normal k of a closed fan round the origin, from the two
      neighbours it joins. */
  lemma FanNormalIs(ps: seq<Vec3>, k: nat, a: Vec3, b: Vec3, n: Vec3)
    requires k + 1 < |ps| && ps[k] == a && ps[k + 1] == b && Cross(a, b) == n
    ensures FanNormals(Zero3, ps, true)[k] == n
  {
    assert Sub(a, Zero3) == a && Sub(b, Zero3) == b;
  }

  /** The last face normal of a closed fan round the origin: it joins the
      last neighbour to the first. */
  lemma FanNormalWraps(ps: seq<Vec3>, a: Vec3, b: Vec3, n: Vec3)
    requires 1 <= |ps| && ps[|ps| - 1] == a && ps[0] == b && Cross(a, b) == n
    ensures FanNormals(Zero3, ps, true)[|ps| - 1] == n
  {
    assert Sub(a, Zero3) == a && Sub(b, Zero3) == b;
  }

  /** The neighbours of the vertex at the origin in AliasedNormalWrong: the
      six grid neighbours of a unit grid, the east one raised by 1. */
  function ExamplePoint(k: int): Vec3 {
    if k == 0 then Vec3(1.0, 0.0, 1.0)
    else if k == 1 then Vec3(0.0, 1.0, 0.0)
    else if k == 2 then Vec3(-1.0, 1.0, 0.0)
    else if k == 3 then Vec3(-1.0, 0.0, 0.0)
    else if k == 4 then Vec3(0.0, -1.0, 0.0)
    else Vec3(1.0, -1.0, 0.0)
  }

  /** The face normals of the fan in AliasedNormalWrong. */
  function ExampleNormal(k: int): Vec3 {
    if k == 0 then Vec3(-1.0, 0.0, 1.0)
    else if k == 5 then Vec3(-1.0, -1.0, 1.0)
    else Vec3(0.0, 0.0, 1.0)
  }

  /** Face normal k of the fan in AliasedNormalWrong. */
  lemma ExampleNormalAt(ps: seq<Vec3>, k: int)
    requires |ps| == 6 && forall k :: 0 <= k < 6 ==> ps[k] == ExamplePoint(k)
    requires 0 <= k < 6
    ensures FanNormals(Zero3, ps, true)[k] == ExampleNormal(k)
  {
    if k == 5 {
      FanNormalWraps(ps, ExamplePoint(5), ExamplePoint(0), ExampleNormal(5));
    } else {
      FanNormalIs(ps, k, ExamplePoint(k), ExamplePoint(k + 1), ExampleNormal(k));
    }
  }

  /** ExampleNormal's six vectors add up to (-2, -1, 6). */
  lemma ExampleNormalsSum(ns: seq<Vec3>)
    requires |ns| == 6 && forall k :: 0 <= k < 6 ==> ns[k] == ExampleNormal(k)
    ensures SumVecs(ns) == Vec3(-2.0, -1.0, 6.0)
  {
    SumSix(ns);
  }

  /** The six face normals of AliasedNormalWrong's fan add up to
      (-2, -1, 6). */
  lemma ExampleFanSum(ps: seq<Vec3>)
    requires |ps| == 6 && forall k :: 0 <= k < 6 ==> ps[k] == ExamplePoint(k)
    ensures FanSum(Zero3, ps, true) == Vec3(-2.0, -1.0, 6.0)
  {
    var ns := FanNormals(Zero3, ps, true);
    forall k | 0 <= k < 6
      ensures ns[k] == ExampleNormal(k)
    {
      ExampleNormalAt(ps, k);
    }
    ExampleNormalsSum(ns);
  }

  /** The sums setNormals computes for AliasedNormalWrong's fan and for the
      same fan started one neighbour later. */
  lemma ExampleAliasedSums(ps: seq<Vec3>)
    requires |ps| == 6 && forall k :: 0 <= k < 6 ==> ps[k] == ExamplePoint(k)
    ensures AliasedFanSum(Zero3, ps, true) == Vec3(-6.0, -6.0, 6.0)
    ensures AliasedFanSum(Zero3, Rotate(ps), true) == Vec3(-6.0, 0.0, 6.0)
  {
    ExampleNormalAt(ps, 0);
    ExampleNormalAt(ps, 5);
    AliasedIsLastFace(Zero3, ps, true);
    FanNormalsRotate(Zero3, ps);
    AliasedIsLastFace(Zero3, Rotate(ps), true);
  }

  /** As written: around an interior vertex of a unit grid whose east
      neighbour is raised by 1, the computed sum is 6 * (-1, -1, 1) while
      the six face normals add up to (-2, -1, 6), which is not parallel to
      it; starting the same fan one neighbour later changes the computed
      sum to 6 * (-1, 0, 1). */
  lemma AliasedNormalWrong(ps: seq<Vec3>)
    requires |ps| == 6 && forall k :: 0 <= k < 6 ==> ps[k] == ExamplePoint(k)
    ensures FanSum(Zero3, ps, true) == Vec3(-2.0, -1.0, 6.0)
    ensures AliasedFanSum(Zero3, ps, true) == Vec3(-6.0, -6.0, 6.0)
    ensures Cross(AliasedFanSum(Zero3, ps, true), FanSum(Zero3, ps, true)).x == -30.0
    ensures AliasedFanSum(Zero3, Rotate(ps), true) == Vec3(-6.0, 0.0, 6.0)
  {
    ExampleFanSum(ps);
    ExampleAliasedSums(ps);
  }

  /** On level ground two neighbour offsets that turn counter-clockwise
      give a face normal pointing straight up. */
  lemma FlatCross(v: Vec3, a: (int, int), b: (int, int), dx: real, dy: real)
    requires Turn(a, b) == 1
    ensures Cross(Vec3(dx * a.1 as real, dy * a.0 as real, 0.0), Vec3(dx * b.1 as real, dy * b.0 as real, 0.0))
      == Vec3(0.0, 0.0, dx * dy)
  {
    var p, q, r, t := a.1 as real, a.0 as real, b.1 as real, b.0 as real;
    assert p * t - q * r == 1.0;
    calc {
      (dx * p) * (dy * t) - (dy * q) * (dx * r);
      (dx * dy) * (p * t) - (dx * dy) * (q * r);
      (dx * dy) * (p * t - q * r);
    }
  }

  /** Fan lemma for level ground: with every neighbour at the same height
      and offset by whole grid steps of dx and dy, every face normal of the
      fan is (0, 0, dx * dy). */
  lemma FlatFan(v: Vec3, offs: seq<(int, int)>, ps: seq<Vec3>, closed: bool, dx: real, dy: real)
    requires |ps| == |offs|
    requires forall k :: 0 <= k < |ps| ==> Sub(ps[k], v) == Vec3(dx * offs[k].1 as real, dy * offs[k].0 as real, 0.0)
    requires forall k :: 0 <= k < FanCount(|offs|, closed) ==> Turn(offs[k], offs[Next(k, |offs|)]) == 1
    ensures FanSum(v, ps, closed) == Scale(FanCount(|offs|, closed) as real, Vec3(0.0, 0.0, dx * dy))
  {
    var ns := FanNormals(v, ps, closed);
    var up := Vec3(0.0, 0.0, dx * dy);
    forall k | 0 <= k < |ns|
      ensures ns[k] == up
    {
      FlatCross(v, offs[k], offs[Next(k, |offs|)], dx, dy);
    }
    assert ns == seq(|ns|, k => up);
    SumCopies(|ns|, up);
  }

  // ---------------------------------------------------------------------
  // Normals on the grid

  /** Vertex (i, j) of a grid's vertex buffer. */
  function GridVertex(vs: seq<real>, div: int, i: int, j: int): Vec3
    requires GridSized(vs, div) && InGrid(div, i, j)
  {
    VidInGrid(div, i, j);
    VertexAt(vs, Vid(div, i, j))
  }

  /** The neighbours of vertex (i, j) in the order setNormals reads them. */
  function NeighbourPoints(vs: seq<real>, div: int, i: int, j: int): (ps: seq<Vec3>)
    requires GridSized(vs, div) && InGrid(div, i, j)
    ensures |ps| == |Offsets(div, i, j)|
  {
    OffsetsFan(div, i, j);
    var o := Offsets(div, i, j);
    seq(|o|, k requires 0 <= k < |o| => GridVertex(vs, div, i + o[k].0, j + o[k].1))
  }

  /** The un-normalised normal of vertex (i, j): the sum of the normals of
      the triangles round it, the fan closing only round interior
      vertices. */
  function NormalSumAt(vs: seq<real>, div: int, i: int, j: int): Vec3
    requires GridSized(vs, div) && InGrid(div, i, j)
  {
    FanSum(GridVertex(vs, div, i, j), NeighbourPoints(vs, div, i, j), Interior(div, i, j))
  }

  /** The same sum as setNormals computes it, through the shared vector. */
  function AsWrittenSumAt(vs: seq<real>, div: int, i: int, j: int): Vec3
    requires GridSized(vs, div) && InGrid(div, i, j)
  {
    AliasedFanSum(GridVertex(vs, div, i, j), NeighbourPoints(vs, div, i, j), Interior(div, i, j))
  }

  /** At every grid vertex the fan has a face, and the sum setNormals
      computes is the fan's last face normal taken once per face. */
  lemma AsWrittenSumAtLastFace(vs: seq<real>, div: int, i: int, j: int)
    requires GridSized(vs, div) && InGrid(div, i, j)
    ensures FanCount(|NeighbourPoints(vs, div, i, j)|, Interior(div, i, j)) >= 1
    ensures AsWrittenSumAt(vs, div, i, j)
      == Scale(FanCount(|NeighbourPoints(vs, div, i, j)|, Interior(div, i, j)) as real,
               FanNormals(GridVertex(vs, div, i, j), NeighbourPoints(vs, div, i, j), Interior(div, i, j))
                 [FanCount(|NeighbourPoints(vs, div, i, j)|, Interior(div, i, j)) - 1])
  {
    OffsetsFan(div, i, j);
    AliasedIsLastFace(GridVertex(vs, div, i, j), NeighbourPoints(vs, div, i, j), Interior(div, i, j));
  }

  /** A value per vertex laid out as the loops over rows and columns push
      it, three entries each: the vertices of rows 0 .. i - 1, then columns
      0 .. j - 1 of row i. */
  function ValuesTo(f: (int, int) -> Vec3, div: int, i: int, j: int): seq<real>
    requires div >= 1 && 0 <= i <= div + 1 && 0 <= j <= div + 1 && (j > 0 ==> i <= div)
    decreases i, j
  {
    if j > 0 then ValuesTo(f, div, i, j - 1) + [f(i, j - 1).x, f(i, j - 1).y, f(i, j - 1).z]
    else if i > 0 then ValuesTo(f, div, i - 1, div + 1)
    else []
  }

  /** Three entries per vertex visited. */
  lemma {:induction false} ValuesToLength(f: (int, int) -> Vec3, div: int, i: int, j: int)
    requires div >= 1 && 0 <= i <= div + 1 && 0 <= j <= div + 1 && (j > 0 ==> i <= div)
    ensures |ValuesTo(f, div, i, j)| == 3 * Vid(div, i, j)
    decreases i, j
  {
    if j > 0 {
      ValuesToLength(f, div, i, j - 1);
    } else if i > 0 {
      ValuesToLength(f, div, i - 1, div + 1);
      RowStep(div + 1, i);
    }
  }

  /** Among the values before (i, j), vertex (a, b)'s sits at offset
      3 * Vid(div, a, b). */
  lemma {:induction false} ValuesToAt(f: (int, int) -> Vec3, div: int, i: int, j: int, a: int, b: int)
    requires div >= 1 && 0 <= i <= div + 1 && 0 <= j <= div + 1 && (j > 0 ==> i <= div)
    requires InGrid(div, a, b) && (a < i || (a == i && b < j))
    ensures 3 * Vid(div, a, b) + 2 < |ValuesTo(f, div, i, j)|
    ensures VertexAt(ValuesTo(f, div, i, j), Vid(div, a, b)) == f(a, b)
    decreases i, j
  {
    ValuesToLength(f, div, i, j);
    if j > 0 {
      ValuesToLength(f, div, i, j - 1);
      if a != i || b != j - 1 {
        ValuesToAt(f, div, i, j - 1, a, b);
      }
    } else {
      ValuesToAt(f, div, i - 1, div + 1, a, b);
    }
  }

  /** The normal of every vertex, normalised; total so that it can be laid
      out, with zero off the grid. */
  function NormalField(vs: seq<real>, div: int, norm: Normalizer): (int, int) -> Vec3 {
    (a: int, b: int) => if GridSized(vs, div) && InGrid(div, a, b) then norm(NormalSumAt(vs, div, a, b)) else Zero3
  }

  /** The normal buffer: the normalised sum of every vertex, row by row. */
  function GridNormals(vs: seq<real>, div: int, norm: Normalizer): seq<real>
    requires GridSized(vs, div)
  {
    ValuesTo(NormalField(vs, div, norm), div, div + 1, 0)
  }

  /** The normal buffer runs beside the vertex buffer: as long, and vertex
      (i, j)'s normal at the offset of its position. */
  lemma GridNormalAt(vs: seq<real>, div: int, norm: Normalizer, i: int, j: int)
    requires GridSized(vs, div) && InGrid(div, i, j)
    ensures |GridNormals(vs, div, norm)| == |vs|
    ensures VertexAt(GridNormals(vs, div, norm), Vid(div, i, j)) == norm(NormalSumAt(vs, div, i, j))
  {
    ValuesToLength(NormalField(vs, div, norm), div, div + 1, 0);
    ValuesToAt(NormalField(vs, div, norm), div, div + 1, 0, i, j);
  }

  /** A level grid: every vertex at height h, each vertex dx further along
      x than the one before it in its row, and each row dy further along y
      than the row before it. */
  ghost predicate LevelGrid(vs: seq<real>, div: int, dx: real, dy: real, h: real)
    requires GridSized(vs, div)
  {
    (forall a, b :: InGrid(div, a, b) ==> GridVertex(vs, div, a, b).z == h)
    && (forall a, b :: InGrid(div, a, b) && b < div ==>
      Sub(GridVertex(vs, div, a, b + 1), GridVertex(vs, div, a, b)) == Vec3(dx, 0.0, 0.0))
    && (forall a, b :: InGrid(div, a, b) && a < div ==>
      Sub(GridVertex(vs, div, a + 1, b), GridVertex(vs, div, a, b)) == Vec3(0.0, dy, 0.0))
  }

  /** Points n and n + 1 steps of d from x0 are d apart. */
  lemma StepApart(x0: real, d: real, n: int)
    ensures (x0 + d * ((n + 1) as real)) - (x0 + d * (n as real)) == d
  {
    assert d * ((n + 1) as real) == d * (n as real) + d;
  }

  /** Consecutive grid points of a row are one x-step apart, and those of a
      column one y-step apart. */
  lemma PointSteps(r: Rect, div: int, a: int, b: int)
    requires div >= 1
    ensures Sub(GridPoint(r, div, a, b + 1), GridPoint(r, div, a, b)) == Vec3((r.maxX - r.minX) / (div as real), 0.0, 0.0)
    ensures Sub(GridPoint(r, div, a + 1, b), GridPoint(r, div, a, b)) == Vec3(0.0, (r.maxY - r.minY) / (div as real), 0.0)
  {
    StepApart(r.minX, (r.maxX - r.minX) / (div as real), b);
    StepApart(r.minY, (r.maxY - r.minY) / (div as real), a);
  }

  /** Along a row of the flat grid, consecutive vertices are one x-step
      apart. */
  lemma GridRowStep(r: Rect, div: int, a: int, b: int)
    requires div >= 1 && InGrid(div, a, b) && b < div
    ensures GridSized(GridVertices(r, div), div)
    ensures Sub(GridVertex(GridVertices(r, div), div, a, b + 1), GridVertex(GridVertices(r, div), div, a, b))
      == Vec3((r.maxX - r.minX) / (div as real), 0.0, 0.0)
  {
    GridVertexAt(r, div, a, b);
    GridVertexAt(r, div, a, b + 1);
    PointSteps(r, div, a, b);
  }

  /** Down a column of the flat grid, consecutive vertices are one y-step
      apart. */
  lemma GridColumnStep(r: Rect, div: int, a: int, b: int)
    requires div >= 1 && InGrid(div, a, b) && a < div
    ensures GridSized(GridVertices(r, div), div)
    ensures Sub(GridVertex(GridVertices(r, div), div, a + 1, b), GridVertex(GridVertices(r, div), div, a, b))
      == Vec3(0.0, (r.maxY - r.minY) / (div as real), 0.0)
  {
    GridVertexAt(r, div, a, b);
    GridVertexAt(r, div, a + 1, b);
    PointSteps(r, div, a, b);
  }

  /** The grid generateTriangles lays out is level, at height 0, with
      steps of a div-th of the rectangle's sides. */
  lemma GridVerticesLevel(r: Rect, div: int)
    requires div >= 1
    ensures GridSized(GridVertices(r, div), div)
    ensures LevelGrid(GridVertices(r, div), div, (r.maxX - r.minX) / (div as real), (r.maxY - r.minY) / (div as real), 0.0)
  {
    var vs := GridVertices(r, div);
    var dx := (r.maxX - r.minX) / (div as real);
    var dy := (r.maxY - r.minY) / (div as real);
    forall a, b | InGrid(div, a, b)
      ensures GridVertex(vs, div, a, b).z == 0.0
    {
      GridVertexAt(r, div, a, b);
    }
    forall a, b | InGrid(div, a, b) && b < div
      ensures Sub(GridVertex(vs, div, a, b + 1), GridVertex(vs, div, a, b)) == Vec3(dx, 0.0, 0.0)
    {
      GridRowStep(r, div, a, b);
    }
    forall a, b | InGrid(div, a, b) && a < div
      ensures Sub(GridVertex(vs, div, a + 1, b), GridVertex(vs, div, a, b)) == Vec3(0.0, dy, 0.0)
    {
      GridColumnStep(r, div, a, b);
    }
  }

  /** On a level grid, the vertex b columns (|b| <= 1) away is b x-steps
      away. */
  lemma LevelColumns(vs: seq<real>, div: int, dx: real, dy: real, h: real, i: int, j: int, b: int)
    requires GridSized(vs, div) && LevelGrid(vs, div, dx, dy, h)
    requires -1 <= b <= 1 && InGrid(div, i, j) && InGrid(div, i, j + b)
    ensures Sub(GridVertex(vs, div, i, j + b), GridVertex(vs, div, i, j)) == Vec3(dx * (b as real), 0.0, 0.0)
  {
    var p, q := GridVertex(vs, div, i, j + b), GridVertex(vs, div, i, j);
    assert p.z == h && q.z == h;
    if b == -1 {
      assert Sub(q, p) == Vec3(dx, 0.0, 0.0);
    } else if b == 1 {
      assert Sub(p, q) == Vec3(dx, 0.0, 0.0);
    }
  }

  /** On a level grid, the vertex a rows (|a| <= 1) away is a y-steps
      away. */
  lemma LevelRows(vs: seq<real>, div: int, dx: real, dy: real, h: real, i: int, j: int, a: int)
    requires GridSized(vs, div) && LevelGrid(vs, div, dx, dy, h)
    requires -1 <= a <= 1 && InGrid(div, i, j) && InGrid(div, i + a, j)
    ensures Sub(GridVertex(vs, div, i + a, j), GridVertex(vs, div, i, j)) == Vec3(0.0, dy * (a as real), 0.0)
  {
    var p, q := GridVertex(vs, div, i + a, j), GridVertex(vs, div, i, j);
    assert p.z == h && q.z == h;
    if a == -1 {
      assert Sub(q, p) == Vec3(0.0, dy, 0.0);
    } else if a == 1 {
      assert Sub(p, q) == Vec3(0.0, dy, 0.0);
    }
  }

  /** On a level grid, vertex (i + a, j + b) with |a|, |b| <= 1 sits a
      y-steps and b x-steps away from vertex (i, j), at the same height. */
  lemma LevelStep(vs: seq<real>, div: int, dx: real, dy: real, h: real, i: int, j: int, a: int, b: int)
    requires GridSized(vs, div) && LevelGrid(vs, div, dx, dy, h)
    requires -1 <= a <= 1 && -1 <= b <= 1 && InGrid(div, i, j) && InGrid(div, i + a, j + b)
    ensures Sub(GridVertex(vs, div, i + a, j + b), GridVertex(vs, div, i, j)) == Vec3(dx * (b as real), dy * (a as real), 0.0)
  {
    LevelColumns(vs, div, dx, dy, h, i, j, b);
    LevelRows(vs, div, dx, dy, h, i, j + b, a);
  }

  /** On a level grid, points at unit offsets o from (i, j) sit whole grid
      steps away at the same height. */
  lemma LevelOffsets(vs: seq<real>, div: int, dx: real, dy: real, h: real, i: int, j: int, o: seq<(int, int)>, ps: seq<Vec3>)
    requires GridSized(vs, div) && LevelGrid(vs, div, dx, dy, h) && InGrid(div, i, j) && |ps| == |o|
    requires forall k :: 0 <= k < |o| ==> -1 <= o[k].0 <= 1 && -1 <= o[k].1 <= 1 && InGrid(div, i + o[k].0, j + o[k].1)
    requires forall k :: 0 <= k < |o| ==> ps[k] == GridVertex(vs, div, i + o[k].0, j + o[k].1)
    ensures forall k :: 0 <= k < |o| ==> Sub(ps[k], GridVertex(vs, div, i, j)) == Vec3(dx * (o[k].1 as real), dy * (o[k].0 as real), 0.0)
  {
    forall k | 0 <= k < |o|
      ensures Sub(ps[k], GridVertex(vs, div, i, j)) == Vec3(dx * (o[k].1 as real), dy * (o[k].0 as real), 0.0)
    {
      LevelStep(vs, div, dx, dy, h, i, j, o[k].0, o[k].1);
    }
  }

  /** Neighbour k of (i, j) is the grid vertex at offset k. */
  lemma NeighbourPointsAt(vs: seq<real>, div: int, i: int, j: int)
    requires GridSized(vs, div) && InGrid(div, i, j)
    ensures forall k :: 0 <= k < |Offsets(div, i, j)| ==>
      InGrid(div, i + Offsets(div, i, j)[k].0, j + Offsets(div, i, j)[k].1)
      && NeighbourPoints(vs, div, i, j)[k] == GridVertex(vs, div, i + Offsets(div, i, j)[k].0, j + Offsets(div, i, j)[k].1)
  {
    OffsetsFan(div, i, j);
  }

  /** A fan of neighbours at unit offsets o round (i, j) of a level grid
      with positive steps, each consecutive pair turning counter-clockwise,
      has a normal sum pointing straight up. */
  lemma LevelFanUp(vs: seq<real>, div: int, dx: real, dy: real, h: real, i: int, j: int, o: seq<(int, int)>, ps: seq<Vec3>, closed: bool)
    requires GridSized(vs, div) && LevelGrid(vs, div, dx, dy, h) && InGrid(div, i, j) && |ps| == |o|
    requires dx > 0.0 && dy > 0.0 && FanCount(|o|, closed) >= 1
    requires forall k :: 0 <= k < |o| ==> -1 <= o[k].0 <= 1 && -1 <= o[k].1 <= 1 && InGrid(div, i + o[k].0, j + o[k].1)
    requires forall k :: 0 <= k < |o| ==> ps[k] == GridVertex(vs, div, i + o[k].0, j + o[k].1)
    requires forall k :: 0 <= k < FanCount(|o|, closed) ==> Turn(o[k], o[Next(k, |o|)]) == 1
    ensures FanSum(GridVertex(vs, div, i, j), ps, closed).x == 0.0
    ensures FanSum(GridVertex(vs, div, i, j), ps, closed).y == 0.0
    ensures FanSum(GridVertex(vs, div, i, j), ps, closed).z > 0.0
  {
    LevelOffsets(vs, div, dx, dy, h, i, j, o, ps);
    FlatFan(GridVertex(vs, div, i, j), o, ps, closed, dx, dy);
    PositiveUp(FanCount(|o|, closed), dx, dy);
  }

  /** On a level grid with positive steps, every vertex's normal sum points
      straight up. */
  lemma LevelNormalsUp(vs: seq<real>, div: int, dx: real, dy: real, h: real, i: int, j: int)
    requires GridSized(vs, div) && LevelGrid(vs, div, dx, dy, h) && InGrid(div, i, j)
    requires dx > 0.0 && dy > 0.0
    ensures NormalSumAt(vs, div, i, j).x == 0.0
    ensures NormalSumAt(vs, div, i, j).y == 0.0
    ensures NormalSumAt(vs, div, i, j).z > 0.0
  {
    OffsetsFan(div, i, j);
    NeighbourPointsAt(vs, div, i, j);
    LevelFanUp(vs, div, dx, dy, h, i, j, Offsets(div, i, j), NeighbourPoints(vs, div, i, j), Interior(div, i, j));
  }

  lemma PositiveUp(n: nat, dx: real, dy: real)
    requires n >= 1 && dx > 0.0 && dy > 0.0
    ensures Scale(n as real, Vec3(0.0, 0.0, dx * dy)) == Vec3(0.0, 0.0, (n as real) * (dx * dy))
    ensures (n as real) * (dx * dy) > 0.0
  {
    assert dx * dy > 0.0;
  }

  /** A positive length divided into div >= 1 steps gives a positive
      step. */
  lemma PositiveStep(len: real, div: int)
    requires len > 0.0 && div >= 1
    ensures len / (div as real) > 0.0
  {
  }

  /** On the flat grid generateTriangles lays out, over a rectangle of
      positive width and height, every vertex's normal sum points straight
      up. */
  lemma FlatGridNormalsUp(r: Rect, div: int, i: int, j: int)
    requires div >= 1 && InGrid(div, i, j) && r.minX < r.maxX && r.minY < r.maxY
    ensures NormalSumAt(GridVertices(r, div), div, i, j).x == 0.0
    ensures NormalSumAt(GridVertices(r, div), div, i, j).y == 0.0
    ensures NormalSumAt(GridVertices(r, div), div, i, j).z > 0.0
  {
    GridVerticesLevel(r, div);
    PositiveStep(r.maxX - r.minX, div);
    PositiveStep(r.maxY - r.minY, div);
    LevelNormalsUp(GridVertices(r, div), div, (r.maxX - r.minX) / (div as real), (r.maxY - r.minY) / (div as real), 0.0, i, j);
  }
}
