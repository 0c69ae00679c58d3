/** A triangle surface mesh read from the text of an OBJ file: flat vertex,
    face, normal and edge buffers, per-vertex normals accumulated from the
    faces, a wireframe edge list and an axis-aligned bounding box. */
module TriMeshModel {
  import opened Vectors
  import opened FlatBuffers
  import opened ObjText

  /** Every face index names one of the first n vertices. */
  predicate IndexesBelow(fs: seq<int>, n: int) {
    forall k :: 0 <= k < |fs| ==> 0 <= fs[k] < n
  }

  // ---------------------------------------------------------------------
  // Parsing

  /** elements[k] of a split line, with the empty string standing for a
      token that is not there (parseFloat and parseInt treat both alike). */
  function Arg(el: seq<string>, k: nat): string {
    if k < |el| then el[k] else ""
  }

  /** The three numbers a line whose first token is "v" contributes to the
      vertex buffer. */
  function VertexTokens(el: seq<string>, parseFloat: string -> real): (r: seq<real>)
    requires |el| >= 1
    ensures |r| == 0 || |r| == 3
  {
    if el[0] == "v" then [parseFloat(Arg(el, 1)), parseFloat(Arg(el, 2)), parseFloat(Arg(el, 3))]
    else []
  }

  /** The three zero-based indexes a line whose first token is "f"
      contributes to the face buffer; corners after the third are ignored. */
  function FaceTokens(el: seq<string>, parseInt: string -> int): (r: seq<int>)
    requires |el| >= 1
    ensures |r| == 0 || |r| == 3
  {
    if el[0] == "v" then []
    else if el[0] == "f" then [parseInt(Arg(el, 1)) - 1, parseInt(Arg(el, 2)) - 1, parseInt(Arg(el, 3)) - 1]
    else []
  }

  function LineVertices(line: string, parseFloat: string -> real): (r: seq<real>)
    ensures |r| == 0 || |r| == 3
  {
    VertexTokens(Tokenize(line), parseFloat)
  }

  function LineFaces(line: string, parseInt: string -> int): (r: seq<int>)
    ensures |r| == 0 || |r| == 3
  {
    FaceTokens(Tokenize(line), parseInt)
  }

  /** The vertex buffer contents of a sequence of lines, in line order. */
  function ObjVertices(lines: seq<string>, parseFloat: string -> real): (r: seq<real>)
    ensures |r| % 3 == 0
  {
    if lines == [] then []
    else ObjVertices(lines[..|lines| - 1], parseFloat) + LineVertices(lines[|lines| - 1], parseFloat)
  }

  /** The face buffer contents of a sequence of lines, in line order. */
  function ObjFaces(lines: seq<string>, parseInt: string -> int): (r: seq<int>)
    ensures |r| % 3 == 0
  {
    if lines == [] then []
    else ObjFaces(lines[..|lines| - 1], parseInt) + LineFaces(lines[|lines| - 1], parseInt)
  }

  function ObjLines(fileText: string): seq<string> {
    SplitOn(fileText, '\n')
  }

  /** Lines are read independently: the buffers of a concatenation of
      line sequences are the concatenation of their buffers. */
  lemma {:induction false} ObjAppend(a: seq<string>, b: seq<string>, parseFloat: string -> real, parseInt: string -> int)
    ensures ObjVertices(a + b, parseFloat) == ObjVertices(a, parseFloat) + ObjVertices(b, parseFloat)
    ensures ObjFaces(a + b, parseInt) == ObjFaces(a, parseInt) + ObjFaces(b, parseInt)
    decreases |b|
  {
    if b == [] {
      assert a + b == a;
    } else {
      var b' := b[..|b| - 1];
      assert (a + b)[..|a + b| - 1] == a + b';
      assert (a + b)[|a + b| - 1] == b[|b| - 1];
      ObjAppend(a, b', parseFloat, parseInt);
      assert ObjVertices(b, parseFloat) == ObjVertices(b', parseFloat) + LineVertices(b[|b| - 1], parseFloat);
      assert ObjFaces(b, parseInt) == ObjFaces(b', parseInt) + LineFaces(b[|b| - 1], parseInt);
    }
  }

  /** A line that starts with white space is neither a vertex nor a face:
      its first token keeps the leading white space. */
  lemma IndentedLineIgnored(line: string, parseFloat: string -> real, parseInt: string -> int)
    requires |line| >= 1 && IsSpace(line[0])
    ensures LineVertices(line, parseFloat) == [] && LineFaces(line, parseInt) == []
  {
    FirstToken(line);
    var t := Tokenize(line)[0];
    assert t[0] == line[0];
  }

  /** A line written as tokens separated by single spaces is read from
      exactly those tokens. */
  lemma JoinedLineRead(ws: seq<string>, parseFloat: string -> real, parseInt: string -> int)
    requires |ws| >= 1
    requires forall i :: 0 <= i < |ws| ==> IsToken(ws[i])
    ensures LineVertices(Join(ws, ' '), parseFloat) == VertexTokens(ws, parseFloat)
    ensures LineFaces(Join(ws, ' '), parseInt) == FaceTokens(ws, parseInt)
  {
    TokenizeJoin(ws);
  }

  /** A face line with four corners yields one triangle, from the first
      three of them. */
  lemma QuadKeepsFirstTriangle(line: string, parseFloat: string -> real, parseInt: string -> int)
    requires line == "f 1 2 3 4"
    ensures LineFaces(line, parseInt) == [parseInt("1") - 1, parseInt("2") - 1, parseInt("3") - 1]
  {
    var ws := ["f", "1", "2", "3", "4"];
    assert Join(ws, ' ') == line;
    JoinedLineRead(ws, parseFloat, parseInt);
    assert ws[0][0] != "v"[0];
  }

  /** A vertex line with negative and fractional coordinates splits into
      its keyword and its three numbers. */
  lemma SignedVertexParsed(line: string, parseFloat: string -> real, parseInt: string -> int)
    requires line == "v -1.5 0 2.25"
    ensures LineVertices(line, parseFloat) == [parseFloat("-1.5"), parseFloat("0"), parseFloat("2.25")]
  {
    var ws := ["v", "-1.5", "0", "2.25"];
    assert Join(ws, ' ') == line;
    JoinedLineRead(ws, parseFloat, parseInt);
  }

  // ---------------------------------------------------------------------
  // Normals

  /** What one coordinate x of a face normal adds to the matching
      coordinate of vertex w's sum: x once for each corner of face t that
      is w. */
  function CornerGain(fs: seq<int>, t: nat, w: int, x: real): real
    requires 3 * t + 2 < |fs|
  {
    (if fs[3 * t] == w then x else 0.0) + (if fs[3 * t + 1] == w then x else 0.0) + (if fs[3 * t + 2] == w then x else 0.0)
  }

  /** The unnormalised normal of face t with corners a, b, c: (b - a) x (c - a). */
  function FaceNormal(vs: seq<real>, fs: seq<int>, t: nat): Vec3
    requires 3 * t + 2 < |fs| && IndexesBelow(fs, |vs| / 3)
  {
    var a := VertexAt(vs, fs[3 * t]);
    var b := VertexAt(vs, fs[3 * t + 1]);
    var c := VertexAt(vs, fs[3 * t + 2]);
    Cross(Sub(b, a), Sub(c, a))
  }

  /** The normals of all faces, in face order. */
  function FaceNormals(vs: seq<real>, fs: seq<int>): (ns: seq<Vec3>)
    requires IndexesBelow(fs, |vs| / 3)
    ensures |ns| == |fs| / 3
  {
    seq(|fs| / 3, t requires 0 <= t < |fs| / 3 => FaceNormal(vs, fs, t))
  }

  /** The accumulated normal of vertex w after the first t faces, given
      the face normals ns: every face normal added once for each corner of
      the face that is w. */
  function NormalSum(ns: seq<Vec3>, fs: seq<int>, t: nat, w: int): Vec3
    requires t <= |ns| && 3 * t <= |fs|
  {
    if t == 0 then Zero3
    else
      var s, n := NormalSum(ns, fs, t - 1, w), ns[t - 1];
      Vec3(s.x + CornerGain(fs, t - 1, w, n.x), s.y + CornerGain(fs, t - 1, w, n.y), s.z + CornerGain(fs, t - 1, w, n.z))
  }

  lemma NormalSumStep(ns: seq<Vec3>, fs: seq<int>, t: nat, w: int, c: nat)
    requires t < |ns| && 3 * t + 2 < |fs| && c < 3
    ensures Comp(NormalSum(ns, fs, t + 1, w), c) == Comp(NormalSum(ns, fs, t, w), c) + CornerGain(fs, t, w, Comp(ns[t], c))
  {
  }

  /** A vertex that no face uses keeps a zero normal sum. */
  lemma {:induction false} NormalSumUnused(ns: seq<Vec3>, fs: seq<int>, t: nat, w: int)
    requires t <= |ns| && 3 * t <= |fs|
    requires forall k :: 0 <= k < 3 * t ==> fs[k] != w
    ensures NormalSum(ns, fs, t, w) == Zero3
  {
    if t > 0 {
      NormalSumUnused(ns, fs, t - 1, w);
    }
  }

  /** A face normal is perpendicular to both edges it is built from. */
  lemma FaceNormalPerpendicular(vs: seq<real>, fs: seq<int>, t: nat)
    requires 3 * t + 2 < |fs| && IndexesBelow(fs, |vs| / 3)
    ensures var a := VertexAt(vs, fs[3 * t]);
            Dot(FaceNormal(vs, fs, t), Sub(VertexAt(vs, fs[3 * t + 1]), a)) == 0.0
            && Dot(FaceNormal(vs, fs, t), Sub(VertexAt(vs, fs[3 * t + 2]), a)) == 0.0
  {
    var a := VertexAt(vs, fs[3 * t]);
    CrossPerpendicular(Sub(VertexAt(vs, fs[3 * t + 1]), a), Sub(VertexAt(vs, fs[3 * t + 2]), a));
  }

  lemma CrossPerpendicular(u: Vec3, v: Vec3)
    ensures Dot(Cross(u, v), u) == 0.0 && Dot(Cross(u, v), v) == 0.0
  {
    assert Dot(Cross(u, v), u) == u.x * (u.y * v.z - u.z * v.y) + u.y * (u.z * v.x - u.x * v.z) + u.z * (u.x * v.y - u.y * v.x);
    assert Dot(Cross(u, v), v) == v.x * (u.y * v.z - u.z * v.y) + v.y * (u.z * v.x - u.x * v.z) + v.z * (u.x * v.y - u.y * v.x);
  }

  /** The vertex buffer with every vertex moved by d. */
  function Translate(vs: seq<real>, d: Vec3): (r: seq<real>)
    ensures |r| == |vs|
  {
    seq(|vs|, k requires 0 <= k < |vs| => vs[k] + Comp(d, k % 3))
  }

  lemma TranslateVertex(vs: seq<real>, d: Vec3, i: int)
    requires 0 <= i && 3 * i + 2 < |vs|
    ensures VertexAt(Translate(vs, d), i) == Add(VertexAt(vs, i), d)
  {
    var ts := Translate(vs, d);
    SlotIndex(i, 0);
    SlotIndex(i, 1);
    SlotIndex(i, 2);
    assert ts[3 * i] == vs[3 * i] + d.x;
    assert ts[3 * i + 1] == vs[3 * i + 1] + d.y;
    assert ts[3 * i + 2] == vs[3 * i + 2] + d.z;
  }

  /** Normals depend only on the shape: moving the whole mesh leaves
      every face normal, and so every accumulated normal, as it was. */
  lemma FaceNormalsTranslate(vs: seq<real>, fs: seq<int>, d: Vec3)
    requires IndexesBelow(fs, |vs| / 3)
    ensures IndexesBelow(fs, |Translate(vs, d)| / 3)
    ensures FaceNormals(Translate(vs, d), fs) == FaceNormals(vs, fs)
  {
    var ts := Translate(vs, d);
    forall t | 0 <= t < |fs| / 3
      ensures FaceNormal(ts, fs, t) == FaceNormal(vs, fs, t)
    {
      FaceNormalTranslate(vs, fs, t, d);
    }
  }

  lemma FaceNormalTranslate(vs: seq<real>, fs: seq<int>, t: nat, d: Vec3)
    requires 3 * t + 2 < |fs| && IndexesBelow(fs, |vs| / 3)
    ensures FaceNormal(Translate(vs, d), fs, t) == FaceNormal(vs, fs, t)
  {
    var ts := Translate(vs, d);
    TranslateVertex(vs, d, fs[3 * t]);
    TranslateVertex(vs, d, fs[3 * t + 1]);
    TranslateVertex(vs, d, fs[3 * t + 2]);
    var a, b, c := VertexAt(vs, fs[3 * t]), VertexAt(vs, fs[3 * t + 1]), VertexAt(vs, fs[3 * t + 2]);
    assert Sub(Add(b, d), Add(a, d)) == Sub(b, a);
    assert Sub(Add(c, d), Add(a, d)) == Sub(c, a);
  }

  // ---------------------------------------------------------------------
  // The mesh

  /** A script array after `a[k] = x` with k at most its length: entry k
      becomes x, the array grows by one when k is its length, and every
      other entry stays. */
  function ArrayPut(a: seq<real>, k: nat, x: real): (r: seq<real>)
    requires k <= |a|
    ensures |r| == if k == |a| then |a| + 1 else |a|
    ensures r[k] == x
    ensures forall m :: 0 <= m < |a| && m != k ==> r[m] == a[m]
  {
    if k == |a| then a + [x] else a[k := x]
  }

  class TriMesh {
    var isLoaded: bool
    var minXYZ: array<real>
    var maxXYZ: array<real>
    var numFaces: int
    var numVertices: int
    var numNormals: int
    var vBuffer: seq<real>
    var fBuffer: seq<int>
    var nBuffer: array<real>
    var eBuffer: seq<int>
    var texcoordBuffer: seq<real>

    /** Buffer lengths agree with the counts and the two bound arrays are
        separate length-3 arrays. */
    predicate Valid()
      reads this
    {
      |vBuffer| == 3 * numVertices && |fBuffer| == 3 * numFaces
      && minXYZ.Length == 3 && maxXYZ.Length == 3 && minXYZ != maxXYZ
    }

    constructor()
      ensures Valid() && !Loaded()
      ensures numFaces == 0 && numVertices == 0
      ensures vBuffer == [] && fBuffer == [] && nBuffer.Length == 0 && eBuffer == [] && texcoordBuffer == []
      ensures minXYZ[..] == [0.0, 0.0, 0.0] && maxXYZ[..] == [0.0, 0.0, 0.0]
    {
      isLoaded := false;
      var lo := new real[3];
      lo[0], lo[1], lo[2] := 0.0, 0.0, 0.0;
      var hi := new real[3];
      hi[0], hi[1], hi[2] := 0.0, 0.0, 0.0;
      minXYZ, maxXYZ := lo, hi;
      numFaces, numVertices, numNormals := 0, 0, 0;
      vBuffer, fBuffer, eBuffer, texcoordBuffer := [], [], [], [];
      nBuffer := new real[0];
    }

    /** Whether the buffers have been filled from an OBJ file. */
    function Loaded(): (b: bool)
      reads this
      ensures b <==> isLoaded
    {
      isLoaded
    }

    /** Scans the vertex buffer for the smallest and largest coordinate on
        each axis. */
    method ComputeAABB()
      requires Valid() && numVertices >= 1
      modifies minXYZ, maxXYZ
      ensures forall c :: 0 <= c < 3 ==> minXYZ[c] == MinAxis(vBuffer, c, numVertices) && maxXYZ[c] == MaxAxis(vBuffer, c, numVertices)
    {
      var minX, minY, minZ := vBuffer[0], vBuffer[1], vBuffer[2];
      var maxX, maxY, maxZ := vBuffer[0], vBuffer[1], vBuffer[2];
      for i := 1 to |vBuffer| / 3
        invariant minX == MinAxis(vBuffer, 0, i) && minY == MinAxis(vBuffer, 1, i) && minZ == MinAxis(vBuffer, 2, i)
        invariant maxX == MaxAxis(vBuffer, 0, i) && maxY == MaxAxis(vBuffer, 1, i) && maxZ == MaxAxis(vBuffer, 2, i)
      {
        if vBuffer[i * 3] < minX { minX := vBuffer[i * 3]; }
        if vBuffer[i * 3] > maxX { maxX := vBuffer[i * 3]; }
        if vBuffer[i * 3 + 1] < minY { minY := vBuffer[i * 3 + 1]; }
        if vBuffer[i * 3 + 1] > maxY { maxY := vBuffer[i * 3 + 1]; }
        if vBuffer[i * 3 + 2] < minZ { minZ := vBuffer[i * 3 + 2]; }
        if vBuffer[i * 3 + 2] > maxZ { maxZ := vBuffer[i * 3 + 2]; }
      }
      minXYZ[0], minXYZ[1], minXYZ[2] := minX, minY, minZ;
      maxXYZ[0], maxXYZ[1], maxXYZ[2] := maxX, maxY, maxZ;
    }

    /** Copies the bounding box into the caller's two arrays, given and
        returned as their contents: entries 0 to 2 are overwritten with the
        box, the array growing as needed, and any further entries stay. */
    method GetAABB(minIn: seq<real>, maxIn: seq<real>) returns (minOut: seq<real>, maxOut: seq<real>)
      requires Valid()
      ensures |minOut| == if |minIn| > 3 then |minIn| else 3
      ensures |maxOut| == if |maxIn| > 3 then |maxIn| else 3
      ensures minOut[..3] == minXYZ[..] && forall m :: 3 <= m < |minIn| ==> minOut[m] == minIn[m]
      ensures maxOut[..3] == maxXYZ[..] && forall m :: 3 <= m < |maxIn| ==> maxOut[m] == maxIn[m]
    {
      minOut := minIn;
      minOut := ArrayPut(minOut, 0, minXYZ[0]);
      minOut := ArrayPut(minOut, 1, minXYZ[1]);
      minOut := ArrayPut(minOut, 2, minXYZ[2]);
      maxOut := maxIn;
      maxOut := ArrayPut(maxOut, 0, maxXYZ[0]);
      maxOut := ArrayPut(maxOut, 1, maxXYZ[1]);
      maxOut := ArrayPut(maxOut, 2, maxXYZ[2]);
      assert minOut[..3] == [minXYZ[0], minXYZ[1], minXYZ[2]] == minXYZ[..];
      assert maxOut[..3] == [maxXYZ[0], maxXYZ[1], maxXYZ[2]] == maxXYZ[..];
    }

    /** Appends the three edges of every face to the edge buffer. */
    method GenerateLines()
      requires Valid()
      modifies this`eBuffer
      ensures eBuffer == old(eBuffer) + Edges(fBuffer)
    {
      var numTris := |fBuffer| / 3;
      for f := 0 to numTris
        invariant eBuffer == old(eBuffer) + EdgesUpTo(fBuffer, f)
      {
        var fid := f * 3;
        eBuffer := eBuffer + [fBuffer[fid], fBuffer[fid + 1]] + [fBuffer[fid + 1], fBuffer[fid + 2]] + [fBuffer[fid + 2], fBuffer[fid]];
      }
    }

    /** Overwrites the coordinates of vertex id; every other vertex keeps
        its coordinates. */
    method SetVertex(id: int, x: real, y: real, z: real)
      requires Valid() && 0 <= id < numVertices
      modifies this`vBuffer
      ensures Valid()
      ensures VertexAt(vBuffer, id) == Vec3(x, y, z)
      ensures forall i :: 0 <= i < numVertices && i != id ==> VertexAt(vBuffer, i) == VertexAt(old(vBuffer), i)
    {
      var vid := 3 * id;
      vBuffer := vBuffer[vid := x];
      vBuffer := vBuffer[vid + 1 := y];
      vBuffer := vBuffer[vid + 2 := z];
    }

    /** Copies the coordinates of vertex id into v. */
    method GetVertex(id: int, v: array<real>)
      requires Valid() && 0 <= id < numVertices && v.Length >= 3
      modifies v
      ensures v[..3] == [VertexAt(vBuffer, id).x, VertexAt(vBuffer, id).y, VertexAt(vBuffer, id).z]
      ensures v[3..] == old(v[3..])
    {
      var vid := 3 * id;
      v[0] := vBuffer[vid];
      v[1] := vBuffer[vid + 1];
      v[2] := vBuffer[vid + 2];
    }

    /** Per-vertex normals: the face normals are summed into a fresh
        zero-filled buffer, once per corner, and each sum is normalised. */
    method GenerateNormals(norm: Normalizer)
      requires Valid() && IndexesBelow(fBuffer, numVertices)
      modifies this`nBuffer, this`numNormals
      ensures numNormals == numVertices && fresh(nBuffer) && nBuffer.Length == 3 * numVertices
      ensures forall k :: 0 <= k < nBuffer.Length ==> nBuffer[k] == Comp(norm(NormalSum(FaceNormals(vBuffer, fBuffer), fBuffer, numFaces, k / 3)), k % 3)
    {
      numNormals := numVertices;
      var nb := new real[numNormals * 3];
      nBuffer := nb;
      for i := 0 to nb.Length
        invariant nBuffer == nb && numNormals == numVertices
        invariant forall k :: 0 <= k < i ==> nb[k] == 0.0
      {
        nb[i] := 0.0;
      }
      AccumulateFaces(nb, vBuffer, fBuffer);
      ghost var ns, fs, nf := FaceNormals(vBuffer, fBuffer), fBuffer, numFaces;
      ghost var sums := seq(numVertices, w => NormalSum(ns, fs, nf, w));
      forall k | 0 <= k < nb.Length
        ensures nb[k] == Comp(sums[k / 3], k % 3)
      {
        assert k / 3 < numVertices;
      }
      NormalizeAll(nb, sums, norm);
    }

    /** The line loop of loadFromOBJ. */
    method ReadLines(lines: seq<string>, parseFloat: string -> real, parseInt: string -> int)
      requires Valid()
      modifies this`vBuffer, this`fBuffer, this`numVertices, this`numFaces
      ensures Valid()
      ensures vBuffer == old(vBuffer) + ObjVertices(lines, parseFloat)
      ensures fBuffer == old(fBuffer) + ObjFaces(lines, parseInt)
    {
      for i := 0 to |lines|
        invariant Valid()
        invariant vBuffer == old(vBuffer) + ObjVertices(lines[..i], parseFloat)
        invariant fBuffer == old(fBuffer) + ObjFaces(lines[..i], parseInt)
      {
        assert lines[..i + 1][..i] == lines[..i];
        ReadLine(lines[i], parseFloat, parseInt);
        ghost var A, B := ObjVertices(lines[..i], parseFloat), LineVertices(lines[i], parseFloat);
        assert vBuffer == old(vBuffer) + A + B;
        assert old(vBuffer) + A + B == old(vBuffer) + (A + B);
        ghost var C, D := ObjFaces(lines[..i], parseInt), LineFaces(lines[i], parseInt);
        assert fBuffer == old(fBuffer) + C + D;
        assert old(fBuffer) + C + D == old(fBuffer) + (C + D);
      }
      assert lines[..|lines|] == lines;
    }

    /** One pass of the line loop: a line whose first token is "v" appends
        a vertex, one whose first token is "f" appends a face with its
        one-based indexes made zero-based, and every other line is skipped. */
    method ReadLine(line: string, parseFloat: string -> real, parseInt: string -> int)
      requires Valid()
      modifies this`vBuffer, this`fBuffer, this`numVertices, this`numFaces
      ensures Valid()
      ensures vBuffer == old(vBuffer) + LineVertices(line, parseFloat)
      ensures fBuffer == old(fBuffer) + LineFaces(line, parseInt)
    {
      var elements := Tokenize(line);
      if elements[0] == "v" {
        vBuffer := vBuffer + [parseFloat(Arg(elements, 1))];
        vBuffer := vBuffer + [parseFloat(Arg(elements, 2))];
        vBuffer := vBuffer + [parseFloat(Arg(elements, 3))];
        numVertices := numVertices + 1;
      } else if elements[0] == "f" {
        fBuffer := fBuffer + [parseInt(Arg(elements, 1)) - 1];
        fBuffer := fBuffer + [parseInt(Arg(elements, 2)) - 1];
        fBuffer := fBuffer + [parseInt(Arg(elements, 3)) - 1];
        numFaces := numFaces + 1;
      }
    }

    /** Reads every line of an OBJ text into the buffers, then builds the
        normals, the wireframe and the bounding box. */
    method LoadFromOBJ(fileText: string, parseFloat: string -> real, parseInt: string -> int, norm: Normalizer)
      requires Valid()
      requires IndexesBelow(fBuffer + ObjFaces(ObjLines(fileText), parseInt), numVertices + |ObjVertices(ObjLines(fileText), parseFloat)| / 3)
      modifies this`vBuffer, this`fBuffer, this`numVertices, this`numFaces
      modifies this`nBuffer, this`numNormals, this`eBuffer, this`isLoaded, minXYZ, maxXYZ
      ensures Valid() && Loaded()
      ensures vBuffer == old(vBuffer) + ObjVertices(ObjLines(fileText), parseFloat)
      ensures fBuffer == old(fBuffer) + ObjFaces(ObjLines(fileText), parseInt)
      ensures IndexesBelow(fBuffer, numVertices)
      ensures numNormals == numVertices && fresh(nBuffer) && nBuffer.Length == 3 * numVertices
      ensures forall k :: 0 <= k < nBuffer.Length ==> nBuffer[k] == Comp(norm(NormalSum(FaceNormals(vBuffer, fBuffer), fBuffer, numFaces, k / 3)), k % 3)
      ensures eBuffer == old(eBuffer) + Edges(fBuffer)
      ensures numVertices >= 1 ==> forall c :: 0 <= c < 3 ==> minXYZ[c] == MinAxis(vBuffer, c, numVertices) && maxXYZ[c] == MaxAxis(vBuffer, c, numVertices)
    {
      var lines := ObjLines(fileText);
      ReadLines(lines, parseFloat, parseInt);
      GenerateNormals(norm);
      GenerateLines();
      isLoaded := true;
      if numVertices >= 1 {
        ComputeAABB();
      }
    }
  }

  /** The face loop of generateNormals: starting from a zero-filled
      buffer with three slots per vertex, each face's normal is added at
      its three corners, so each vertex ends with the sum over all faces. */
  method AccumulateFaces(nb: array<real>, vs: seq<real>, fs: seq<int>)
    requires nb.Length == |vs| && |vs| % 3 == 0 && |fs| % 3 == 0
    requires IndexesBelow(fs, |vs| / 3)
    requires forall k :: 0 <= k < nb.Length ==> nb[k] == 0.0
    modifies nb
    ensures forall k :: 0 <= k < nb.Length ==> nb[k] == Comp(NormalSum(FaceNormals(vs, fs), fs, |fs| / 3, k / 3), k % 3)
  {
    ghost var ns := FaceNormals(vs, fs);
    for i := 0 to |fs| / 3
      invariant forall k :: 0 <= k < nb.Length ==> nb[k] == Comp(NormalSum(ns, fs, i, k / 3), k % 3)
    {
      var v1 := fs[3 * i];
      var v1Vec := Vec3(vs[3 * v1], vs[3 * v1 + 1], vs[3 * v1 + 2]);
      var v2 := fs[3 * i + 1];
      var v2Vec := Vec3(vs[3 * v2], vs[3 * v2 + 1], vs[3 * v2 + 2]);
      var v3 := fs[3 * i + 2];
      var v3Vec := Vec3(vs[3 * v3], vs[3 * v3 + 1], vs[3 * v3 + 2]);
      var e1 := Sub(v2Vec, v1Vec);
      var e2 := Sub(v3Vec, v1Vec);
      var n := Cross(e1, e2);
      assert n == ns[i];
      ghost var prev := nb[..];
      AddToCorners(nb, fs, i, n);
      AccumulateStep(ns, fs, i, n, prev, nb[..]);
    }
  }

  /** The accumulation loop for face t: every component of n is added to
      the slots of each of the face's three corners, so the slot of
      component c of vertex w gains n's component c once per corner of the
      face that is w. */
  method AddToCorners(nb: array<real>, fs: seq<int>, t: nat, n: Vec3)
    requires 3 * t + 2 < |fs|
    requires 0 <= fs[3 * t] && 3 * fs[3 * t] + 2 < nb.Length
    requires 0 <= fs[3 * t + 1] && 3 * fs[3 * t + 1] + 2 < nb.Length
    requires 0 <= fs[3 * t + 2] && 3 * fs[3 * t + 2] + 2 < nb.Length
    modifies nb
    ensures forall k :: 0 <= k < nb.Length ==> nb[k] == old(nb[k]) + CornerGain(fs, t, k / 3, Comp(n, k % 3))
  {
    var v1, v2, v3 := fs[3 * t], fs[3 * t + 1], fs[3 * t + 2];
    for j := 0 to 3
      invariant forall k :: 0 <= k < nb.Length ==>
        nb[k] == old(nb[k]) + (if k % 3 < j then CornerGain(fs, t, k / 3, Comp(n, k % 3)) else 0.0)
    {
      ghost var before := nb[..];
      SlotIndex(v1, j);
      SlotIndex(v2, j);
      SlotIndex(v3, j);
      nb[3 * v1 + j] := nb[3 * v1 + j] + Comp(n, j);
      nb[3 * v2 + j] := nb[3 * v2 + j] + Comp(n, j);
      nb[3 * v3 + j] := nb[3 * v3 + j] + Comp(n, j);
      forall k | 0 <= k < nb.Length
        ensures nb[k] == before[k] + (if k % 3 == j then CornerGain(fs, t, k / 3, Comp(n, j)) else 0.0)
      {
        if k % 3 == j {
          assert k == 3 * (k / 3) + j;
        }
      }
    }
  }

  /** Adding face t's normal at its corners turns the sums over the first
      t faces into the sums over the first t + 1. */
  lemma AccumulateStep(ns: seq<Vec3>, fs: seq<int>, t: nat, n: Vec3, prev: seq<real>, next: seq<real>)
    requires t < |ns| && 3 * t + 2 < |fs| && n == ns[t] && |next| == |prev|
    requires forall k :: 0 <= k < |prev| ==> prev[k] == Comp(NormalSum(ns, fs, t, k / 3), k % 3)
    requires forall k :: 0 <= k < |next| ==> next[k] == prev[k] + CornerGain(fs, t, k / 3, Comp(n, k % 3))
    ensures forall k :: 0 <= k < |next| ==> next[k] == Comp(NormalSum(ns, fs, t + 1, k / 3), k % 3)
  {
    forall k | 0 <= k < |next|
      ensures next[k] == Comp(NormalSum(ns, fs, t + 1, k / 3), k % 3)
    {
      NormalSumStep(ns, fs, t, k / 3, k % 3);
    }
  }

  /** The normalisation loop: buffer nb holds the vectors sums, one per
      three slots, and each is replaced by its normalised form. */
  method NormalizeAll(nb: array<real>, ghost sums: seq<Vec3>, norm: Normalizer)
    requires nb.Length == 3 * |sums|
    requires forall k :: 0 <= k < nb.Length ==> nb[k] == Comp(sums[k / 3], k % 3)
    modifies nb
    ensures forall k :: 0 <= k < nb.Length ==> nb[k] == Comp(norm(sums[k / 3]), k % 3)
  {
    for i := 0 to nb.Length / 3
      invariant forall k :: 0 <= k < nb.Length ==>
        nb[k] == Comp(if k / 3 < i then norm(sums[k / 3]) else sums[k / 3], k % 3)
    {
      NormalizeVertex(nb, i, norm);
    }
  }

  /** One pass of the normalisation loop: vertex i's three slots are
      replaced by the normalised vector they hold; no other slot changes. */
  method NormalizeVertex(nb: array<real>, i: nat, norm: Normalizer)
    requires 3 * i + 2 < nb.Length
    modifies nb
    ensures forall k :: 0 <= k < nb.Length ==>
      nb[k] == if k / 3 == i then Comp(norm(Vec3(old(nb[3 * i]), old(nb[3 * i + 1]), old(nb[3 * i + 2]))), k % 3) else old(nb[k])
  {
    SlotIndex(i, 0);
    SlotIndex(i, 1);
    SlotIndex(i, 2);
    var n := Vec3(nb[3 * i], nb[3 * i + 1], nb[3 * i + 2]);
    n := norm(n);
    nb[3 * i] := n.x;
    nb[3 * i + 1] := n.y;
    nb[3 * i + 2] := n.z;
  }

  /** Slot 3w + j of a flat buffer holds component j of vertex w. */
  lemma SlotIndex(w: int, j: int)
    requires 0 <= w && 0 <= j < 3
    ensures (3 * w + j) / 3 == w && (3 * w + j) % 3 == j
    ensures forall k :: k / 3 == w && k % 3 == j ==> k == 3 * w + j
  {
  }
}
