/** The geodesic-sphere tessellator of MP4/simpleModeling.js: the four faces of
    a tetrahedron are subdivided recursively, and the resulting triangle soup is
    appended to a vertex array and, identically, to a normal array. */
module SimpleModeling {
  import opened Vectors

  /** A JavaScript array of numbers that the tessellator appends to. */
  class FloatArray {
    var items: seq<real>

    constructor ()
      ensures items == []
    {
      items := [];
    }
  }

  /** 4^k, the reference count of triangles per subdivided face. */
  function Pow4(k: nat): nat {
    if k == 0 then 1 else 4 * Pow4(k - 1)
  }

  /** How deep the recursion really goes: every depth <= 0 is the base case. */
  function Depth(n: int): nat {
    if n > 0 then n else 0
  }

  /** The renormalised edge midpoint (lerp by 0.5, then normalise). */
  function Mid(a: Vec4, b: Vec4, norm: Normalizer4): Vec4 {
    norm(Lerp4(a, b, 0.5))
  }

  /** The points sphDivideTriangle(a, b, c, n, ...) emits, three per triangle,
      in the order it emits them. */
  function Points(a: Vec4, b: Vec4, c: Vec4, n: int, norm: Normalizer4): seq<Vec4>
    decreases Depth(n)
  {
    if n > 0 then
      var ab, ac, bc := Mid(a, b, norm), Mid(a, c, norm), Mid(b, c, norm);
      Points(a, ab, ac, n - 1, norm) + Points(ab, b, bc, n - 1, norm)
      + Points(bc, c, ac, n - 1, norm) + Points(ab, bc, ac, n - 1, norm)
    else
      [a, b, c]
  }

  /** The numbers pushVertex appends for each point in turn: x, y, z (w dropped). */
  function Flatten(ps: seq<Vec4>): seq<real> {
    if ps == [] then [] else [ps[0].x, ps[0].y, ps[0].z] + Flatten(ps[1..])
  }

  lemma {:induction false} FlattenAppend(p: seq<Vec4>, q: seq<Vec4>)
    ensures Flatten(p + q) == Flatten(p) + Flatten(q)
  {
    if p == [] {
      assert p + q == q;
    } else {
      assert (p + q)[1..] == p[1..] + q;
      FlattenAppend(p[1..], q);
    }
  }

  lemma Flatten4(p1: seq<Vec4>, p2: seq<Vec4>, p3: seq<Vec4>, p4: seq<Vec4>)
    ensures Flatten(p1 + p2 + p3 + p4) == Flatten(p1) + Flatten(p2) + Flatten(p3) + Flatten(p4)
  {
    FlattenAppend(p1, p2);
    FlattenAppend(p1 + p2, p3);
    FlattenAppend(p1 + p2 + p3, p4);
  }

  lemma AppendAssoc(x: seq<real>, s1: seq<real>, s2: seq<real>, s3: seq<real>, s4: seq<real>)
    ensures x + s1 + s2 + s3 + s4 == x + (s1 + s2 + s3 + s4)
  {
  }

  /** Flattening keeps three numbers per point, the point's x, y and z in order. */
  lemma {:induction false} FlattenLayout(ps: seq<Vec4>)
    ensures |Flatten(ps)| == 3 * |ps|
    ensures forall i :: 0 <= i < |ps| ==>
      Flatten(ps)[3 * i] == ps[i].x && Flatten(ps)[3 * i + 1] == ps[i].y && Flatten(ps)[3 * i + 2] == ps[i].z
  {
    if ps != [] {
      FlattenLayout(ps[1..]);
      forall i | 1 <= i < |ps|
        ensures Flatten(ps)[3 * i] == ps[i].x && Flatten(ps)[3 * i + 1] == ps[i].y && Flatten(ps)[3 * i + 2] == ps[i].z
      {
        assert ps[1..][i - 1] == ps[i];
      }
    }
  }

  lemma FlattenTriple(a: Vec4, b: Vec4, c: Vec4)
    ensures Flatten([a, b, c]) == [a.x, a.y, a.z] + [b.x, b.y, b.z] + [c.x, c.y, c.z]
  {
    assert Flatten([c]) == [c.x, c.y, c.z] by {
      assert [c][1..] == [];
    }
    assert Flatten([b, c]) == [b.x, b.y, b.z] + Flatten([c]) by {
      assert [b, c][1..] == [c];
    }
    assert Flatten([a, b, c]) == [a.x, a.y, a.z] + Flatten([b, c]) by {
      assert [a, b, c][1..] == [b, c];
    }
  }

  /** The numbers sphDivideTriangle appends to each of its two arrays, in order. */
  function Soup(a: Vec4, b: Vec4, c: Vec4, n: int, norm: Normalizer4): seq<real>
    decreases Depth(n)
  {
    if n > 0 then
      var ab, ac, bc := Mid(a, b, norm), Mid(a, c, norm), Mid(b, c, norm);
      Soup(a, ab, ac, n - 1, norm) + Soup(ab, b, bc, n - 1, norm)
      + Soup(bc, c, ac, n - 1, norm) + Soup(ab, bc, ac, n - 1, norm)
    else
      [a.x, a.y, a.z] + [b.x, b.y, b.z] + [c.x, c.y, c.z]
  }

  /** The appended numbers are exactly the x, y, z of the emitted points. */
  lemma {:induction false} SoupIsFlattenedPoints(a: Vec4, b: Vec4, c: Vec4, n: int, norm: Normalizer4)
    ensures Soup(a, b, c, n, norm) == Flatten(Points(a, b, c, n, norm))
    decreases Depth(n)
  {
    if n > 0 {
      var ab, ac, bc := Mid(a, b, norm), Mid(a, c, norm), Mid(b, c, norm);
      SoupIsFlattenedPoints(a, ab, ac, n - 1, norm);
      SoupIsFlattenedPoints(ab, b, bc, n - 1, norm);
      SoupIsFlattenedPoints(bc, c, ac, n - 1, norm);
      SoupIsFlattenedPoints(ab, bc, ac, n - 1, norm);
      Flatten4(Points(a, ab, ac, n - 1, norm), Points(ab, b, bc, n - 1, norm),
               Points(bc, c, ac, n - 1, norm), Points(ab, bc, ac, n - 1, norm));
    } else {
      FlattenTriple(a, b, c);
    }
  }

  /** Each call emits exactly 4^n triangles (one for any n <= 0), three points each. */
  lemma {:induction false} PointsCount(a: Vec4, b: Vec4, c: Vec4, n: int, norm: Normalizer4)
    ensures |Points(a, b, c, n, norm)| == 3 * Pow4(Depth(n))
    decreases Depth(n)
  {
    if n > 0 {
      var ab, ac, bc := Mid(a, b, norm), Mid(a, c, norm), Mid(b, c, norm);
      PointsCount(a, ab, ac, n - 1, norm);
      PointsCount(ab, b, bc, n - 1, norm);
      PointsCount(bc, c, ac, n - 1, norm);
      PointsCount(ab, bc, ac, n - 1, norm);
    }
  }

  /** Each call appends exactly 9 numbers per triangle to each array. */
  lemma SoupLength(a: Vec4, b: Vec4, c: Vec4, n: int, norm: Normalizer4)
    ensures |Soup(a, b, c, n, norm)| == 9 * Pow4(Depth(n))
  {
    SoupIsFlattenedPoints(a, b, c, n, norm);
    PointsCount(a, b, c, n, norm);
    FlattenLayout(Points(a, b, c, n, norm));
  }

  /** One level of subdivision emits the four sub-triangles in the order
      (a,ab,ac), (ab,b,bc), (bc,c,ac), (ab,bc,ac). */
  lemma OneLevelOrder(a: Vec4, b: Vec4, c: Vec4, norm: Normalizer4)
    ensures var ab, ac, bc := Mid(a, b, norm), Mid(a, c, norm), Mid(b, c, norm);
      Points(a, b, c, 1, norm) == [a, ab, ac, ab, b, bc, bc, c, ac, ab, bc, ac]
  {
  }

  /** The points reachable from s by k rounds of "add the normalised midpoint
      of any two points already reached". */
  ghost function Closure(s: set<Vec4>, k: nat, norm: Normalizer4): set<Vec4> {
    if k == 0 then s
    else
      var c := Closure(s, k - 1, norm);
      c + set p, q | p in c && q in c :: Mid(p, q, norm)
  }

  lemma {:induction false} ClosureMonotone(s: set<Vec4>, t: set<Vec4>, k: nat, norm: Normalizer4)
    requires s <= t
    ensures Closure(s, k, norm) <= Closure(t, k, norm)
  {
    if k > 0 {
      ClosureMonotone(s, t, k - 1, norm);
    }
  }

  /** Closing a set that was itself reached in one round costs one extra round. */
  lemma {:induction false} ClosureCompose(s: set<Vec4>, t: set<Vec4>, k: nat, norm: Normalizer4)
    requires t <= Closure(s, 1, norm)
    ensures Closure(t, k, norm) <= Closure(s, k + 1, norm)
  {
    if k > 0 {
      ClosureCompose(s, t, k - 1, norm);
      var c, d := Closure(t, k - 1, norm), Closure(s, k, norm);
      forall m | m in Closure(t, k, norm)
        ensures m in Closure(s, k + 1, norm)
      {
        if m !in c {
          var p, q :| p in c && q in c && m == Mid(p, q, norm);
          assert p in d && q in d;
        }
      }
    }
  }

  /** Every point emitted is one of the three corners or is obtained from them
      by repeatedly normalising the midpoint of two earlier points, at most n rounds deep. */
  lemma {:induction false} PointsFromCorners(a: Vec4, b: Vec4, c: Vec4, n: int, norm: Normalizer4)
    ensures forall p :: p in Points(a, b, c, n, norm) ==> p in Closure({a, b, c}, Depth(n), norm)
    decreases Depth(n)
  {
    if n > 0 {
      var ab, ac, bc := Mid(a, b, norm), Mid(a, c, norm), Mid(b, c, norm);
      var s := {a, b, c};
      assert a in s && b in s && c in s;
      assert ab in Closure(s, 1, norm) && ac in Closure(s, 1, norm) && bc in Closure(s, 1, norm);
      PointsFromCorners(a, ab, ac, n - 1, norm);
      PointsFromCorners(ab, b, bc, n - 1, norm);
      PointsFromCorners(bc, c, ac, n - 1, norm);
      PointsFromCorners(ab, bc, ac, n - 1, norm);
      ClosureCompose(s, {a, ab, ac}, n - 1, norm);
      ClosureCompose(s, {ab, b, bc}, n - 1, norm);
      ClosureCompose(s, {bc, c, ac}, n - 1, norm);
      ClosureCompose(s, {ab, bc, ac}, n - 1, norm);
    }
  }

  /** pushVertex: appends v[0], v[1], v[2] and nothing else. */
  method PushVertex(v: Vec4, vArray: FloatArray)
    modifies vArray
    ensures vArray.items == old(vArray.items) + [v.x, v.y, v.z]
  {
    for i := 0 to 3
      invariant vArray.items == old(vArray.items) + [v.x, v.y, v.z][..i]
    {
      vArray.items := vArray.items + [Comp4(v, i)];
    }
  }

  /** sphDivideTriangle: returns the number of triangles it emitted and appends
      their corners to vertexArray and, identically, to normalArray. */
  method SphDivideTriangle(a: Vec4, b: Vec4, c: Vec4, numSubDivs: int,
                           vertexArray: FloatArray, normalArray: FloatArray, norm: Normalizer4)
    returns (numT: int)
    requires vertexArray != normalArray
    modifies vertexArray, normalArray
    ensures numT == Pow4(Depth(numSubDivs))
    ensures vertexArray.items == old(vertexArray.items) + Soup(a, b, c, numSubDivs, norm)
    ensures normalArray.items == old(normalArray.items) + Soup(a, b, c, numSubDivs, norm)
    decreases Depth(numSubDivs)
  {
    if numSubDivs > 0 {
      numT := 0;
      var ab := Mid(a, b, norm);
      var ac := Mid(a, c, norm);
      var bc := Mid(b, c, norm);
      var n := numSubDivs - 1;
      ghost var v0, n0 := vertexArray.items, normalArray.items;
      ghost var s1, s2, s3, s4 := Soup(a, ab, ac, n, norm), Soup(ab, b, bc, n, norm),
                                  Soup(bc, c, ac, n, norm), Soup(ab, bc, ac, n, norm);

      var t := SphDivideTriangle(a, ab, ac, n, vertexArray, normalArray, norm);
      numT := numT + t;
      t := SphDivideTriangle(ab, b, bc, n, vertexArray, normalArray, norm);
      numT := numT + t;
      t := SphDivideTriangle(bc, c, ac, n, vertexArray, normalArray, norm);
      numT := numT + t;
      t := SphDivideTriangle(ab, bc, ac, n, vertexArray, normalArray, norm);
      numT := numT + t;

      assert vertexArray.items == v0 + s1 + s2 + s3 + s4;
      assert normalArray.items == n0 + s1 + s2 + s3 + s4;
      AppendAssoc(v0, s1, s2, s3, s4);
      AppendAssoc(n0, s1, s2, s3, s4);

    } else {
      PushVertex(a, vertexArray);
      PushVertex(b, vertexArray);
      PushVertex(c, vertexArray);

      PushVertex(a, normalArray);
      PushVertex(b, normalArray);
      PushVertex(c, normalArray);
      numT := 1;
    }
  }

  /** The fixed tetrahedron corners (w = 0). */
  const CornerA := Vec4(0.0, 0.0, -1.0, 0.0)
  const CornerB := Vec4(0.0, 0.942809, 0.333333, 0.0)
  const CornerC := Vec4(-0.816497, -0.471405, 0.333333, 0.0)
  const CornerD := Vec4(0.816497, -0.471405, 0.333333, 0.0)

  /** All points the sphere emits: faces (a,b,c), (d,c,b), (a,d,b), (a,c,d) in that order. */
  function SpherePoints(n: int, norm: Normalizer4): seq<Vec4> {
    Points(CornerA, CornerB, CornerC, n, norm) + Points(CornerD, CornerC, CornerB, n, norm)
    + Points(CornerA, CornerD, CornerB, n, norm) + Points(CornerA, CornerC, CornerD, n, norm)
  }

  /** The numbers sphereFromSubdivision appends to each array. */
  function SphereSoup(n: int, norm: Normalizer4): seq<real> {
    Soup(CornerA, CornerB, CornerC, n, norm) + Soup(CornerD, CornerC, CornerB, n, norm)
    + Soup(CornerA, CornerD, CornerB, n, norm) + Soup(CornerA, CornerC, CornerD, n, norm)
  }

  /** The sphere holds 4 * 4^n triangles: its soup is the x, y, z of its
      3 * 4 * 4^n points, 36 * 4^n numbers per array. */
  lemma SphereSize(n: int, norm: Normalizer4)
    ensures |SpherePoints(n, norm)| == 3 * (4 * Pow4(Depth(n)))
    ensures SphereSoup(n, norm) == Flatten(SpherePoints(n, norm))
    ensures |SphereSoup(n, norm)| == 9 * (4 * Pow4(Depth(n)))
  {
    var a, b, c, d := CornerA, CornerB, CornerC, CornerD;
    PointsCount(a, b, c, n, norm);
    PointsCount(d, c, b, n, norm);
    PointsCount(a, d, b, n, norm);
    PointsCount(a, c, d, n, norm);
    SoupIsFlattenedPoints(a, b, c, n, norm);
    SoupIsFlattenedPoints(d, c, b, n, norm);
    SoupIsFlattenedPoints(a, d, b, n, norm);
    SoupIsFlattenedPoints(a, c, d, n, norm);
    Flatten4(Points(a, b, c, n, norm), Points(d, c, b, n, norm), Points(a, d, b, n, norm), Points(a, c, d, n, norm));
    FlattenLayout(SpherePoints(n, norm));
  }

  /** Every point of the sphere is a tetrahedron corner or a normalised midpoint
      of points reached before it, at most n rounds deep. */
  lemma SphereFromCorners(n: int, norm: Normalizer4)
    ensures forall p :: p in SpherePoints(n, norm) ==>
      p in Closure({CornerA, CornerB, CornerC, CornerD}, Depth(n), norm)
  {
    var s := {CornerA, CornerB, CornerC, CornerD};
    var k := Depth(n);
    PointsFromCorners(CornerA, CornerB, CornerC, n, norm);
    PointsFromCorners(CornerD, CornerC, CornerB, n, norm);
    PointsFromCorners(CornerA, CornerD, CornerB, n, norm);
    PointsFromCorners(CornerA, CornerC, CornerD, n, norm);
    ClosureMonotone({CornerA, CornerB, CornerC}, s, k, norm);
    ClosureMonotone({CornerD, CornerC, CornerB}, s, k, norm);
    ClosureMonotone({CornerA, CornerD, CornerB}, s, k, norm);
    ClosureMonotone({CornerA, CornerC, CornerD}, s, k, norm);
  }

  /** sphereFromSubdivision: subdivides the four tetrahedron faces in order and
      returns the total triangle count, 4 * 4^n. */
  method SphereFromSubdivision(numSubDivs: int, vertexArray: FloatArray, normalArray: FloatArray,
                               norm: Normalizer4)
    returns (numT: int)
    requires vertexArray != normalArray
    modifies vertexArray, normalArray
    ensures numT == 4 * Pow4(Depth(numSubDivs))
    ensures vertexArray.items == old(vertexArray.items) + SphereSoup(numSubDivs, norm)
    ensures normalArray.items == old(normalArray.items) + SphereSoup(numSubDivs, norm)
  {
    numT := 0;
    var a := Vec4(0.0, 0.0, -1.0, 0.0);
    var b := Vec4(0.0, 0.942809, 0.333333, 0.0);
    var c := Vec4(-0.816497, -0.471405, 0.333333, 0.0);
    var d := Vec4(0.816497, -0.471405, 0.333333, 0.0);

    ghost var v0, n0 := vertexArray.items, normalArray.items;
    ghost var s1, s2, s3, s4 := Soup(a, b, c, numSubDivs, norm), Soup(d, c, b, numSubDivs, norm),
                                Soup(a, d, b, numSubDivs, norm), Soup(a, c, d, numSubDivs, norm);

    var t := SphDivideTriangle(a, b, c, numSubDivs, vertexArray, normalArray, norm);
    numT := numT + t;
    t := SphDivideTriangle(d, c, b, numSubDivs, vertexArray, normalArray, norm);
    numT := numT + t;
    t := SphDivideTriangle(a, d, b, numSubDivs, vertexArray, normalArray, norm);
    numT := numT + t;
    t := SphDivideTriangle(a, c, d, numSubDivs, vertexArray, normalArray, norm);
    numT := numT + t;

    assert vertexArray.items == v0 + s1 + s2 + s3 + s4;
    assert normalArray.items == n0 + s1 + s2 + s3 + s4;
    AppendAssoc(v0, s1, s2, s3, s4);
    AppendAssoc(n0, s1, s2, s3, s4);
  }
}
