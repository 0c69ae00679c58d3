/** The counter state machine and the in-place vertex rewrite of the logo
    animation (MP1/mp1.js). All coordinates of the two logos are whole numbers,
    so they are kept as integers. The animation counters move in steps of 0.5
    degrees and 0.125 scale units, both exact in binary floating point, so the
    model counts them in integer units: defAngle in half-degrees and scaleSize
    in eighths. */
module Logo {

  /** One triangle of a logo, as the x and y of its three corners. */
  datatype Tri = Tri(x1: int, y1: int, x2: int, y2: int, x3: int, y3: int)

  /** Number j (0..8) of triangle t in the flat layout: x1, y1, z, x2, y2, z, x3, y3, z. */
  function Slot(t: Tri, z: int, j: nat): int
    requires j < 9
  {
    match j
    case 0 => t.x1 case 1 => t.y1 case 3 => t.x2 case 4 => t.y2 case 6 => t.x3 case 7 => t.y3
    case _ => z
  }

  /** The flat array of triangles lying in the plane at height z, 9 numbers per triangle. */
  function Layout(ts: seq<Tri>, z: int): seq<int> {
    seq(9 * |ts|, k requires 0 <= k < 9 * |ts| => Slot(ts[k / 9], z, k % 9))
  }

  /** The flat layout holds three numbers per vertex, and every third one is z. */
  lemma LayoutShape(ts: seq<Tri>, z: int)
    ensures |Layout(ts, z)| == 9 * |ts|
    ensures forall k :: 0 <= k < 3 * |ts| ==> Layout(ts, z)[3 * k + 2] == z
  {
    forall k | 0 <= k < 3 * |ts|
      ensures Layout(ts, z)[3 * k + 2] == z
    {
      var j := (3 * k + 2) % 9;
      assert j == 2 || j == 5 || j == 8;
    }
  }

  /** The 40 triangles of logo I (resetFirVertices), eight per band of the letter. */
  function LogoITriangles(): (ts: seq<Tri>)
    ensures |ts| == 40
  {
    LogoITrianglesPart0()
    + LogoITrianglesPart1()
    + LogoITrianglesPart2()
    + LogoITrianglesPart3()
    + LogoITrianglesPart4()
  }

  function LogoITrianglesPart0(): (ts: seq<Tri>)
    ensures |ts| == 8
  {
    [
      Tri(-22, 33, -22, 24, -12, 24),
      Tri(-22, 33, -12, 33, -12, 24),
      Tri(0, 33, -12, 33, -12, 24),
      Tri(0, 33, 0, 24, -12, 24),
      Tri(0, 33, 0, 24, 12, 24),
      Tri(0, 33, 12, 33, 12, 24),
      Tri(22, 33, 12, 33, 12, 24),
      Tri(22, 33, 22, 24, 12, 24)
    ]
  }

  function LogoITrianglesPart1(): (ts: seq<Tri>)
    ensures |ts| == 8
  {
    [
      Tri(-22, 24, -22, 15, -12, 24),
      Tri(-12, 15, -22, 15, -12, 24),
      Tri(-12, 15, 0, 15, -12, 24),
      Tri(0, 15, -12, 24, 0, 24),
      Tri(0, 15, 12, 24, 0, 24),
      Tri(12, 15, 0, 15, 12, 24),
      Tri(12, 15, 22, 15, 12, 24),
      Tri(22, 24, 22, 15, 12, 24)
    ]
  }

  function LogoITrianglesPart2(): (ts: seq<Tri>)
    ensures |ts| == 8
  {
    [
      Tri(-12, 15, -12, 0, 0, 0),
      Tri(-12, 15, 0, 15, 0, 0),
      Tri(12, 15, 0, 15, 0, 0),
      Tri(12, 15, 12, 0, 0, 0),
      Tri(-12, 0, -12, -15, 0, 0),
      Tri(-12, -15, 0, 0, 0, -15),
      Tri(12, -15, 0, 0, 0, -15),
      Tri(12, 0, 12, -15, 0, 0)
    ]
  }

  function LogoITrianglesPart3(): (ts: seq<Tri>)
    ensures |ts| == 8
  {
    [
      Tri(-22, -15, -22, -24, -12, -24),
      Tri(-22, -15, -12, -15, -12, -24),
      Tri(-12, -15, -12, -24, 0, -15),
      Tri(0, -15, 0, -24, -12, -24),
      Tri(0, -15, 0, -24, 12, -24),
      Tri(12, -15, 12, -24, 0, -15),
      Tri(22, -15, 12, -15, 12, -24),
      Tri(22, -15, 22, -24, 12, -24)
    ]
  }

  function LogoITrianglesPart4(): (ts: seq<Tri>)
    ensures |ts| == 8
  {
    [
      Tri(-22, -24, -22, -33, -12, -24),
      Tri(-12, -33, -22, -33, -12, -24),
      Tri(-12, -33, 0, -33, -12, -24),
      Tri(0, -33, -12, -24, 0, -24),
      Tri(0, -33, 12, -24, 0, -24),
      Tri(12, -33, 0, -33, 12, -24),
      Tri(12, -33, 22, -33, 12, -24),
      Tri(22, -24, 22, -33, 12, -24)
    ]
  }

  /** The 32 triangles of logo L (resetSecVertices); its two lower bands
      are the same triangles as those of logo I. */
  function LogoLTriangles(): (ts: seq<Tri>)
    ensures |ts| == 32
  {
    LogoLTrianglesPart0()
    + LogoLTrianglesPart1()
    + LogoITrianglesPart3()
    + LogoITrianglesPart4()
  }

  function LogoLTrianglesPart0(): (ts: seq<Tri>)
    ensures |ts| == 8
  {
    [
      Tri(-22, 33, -22, 24, -12, 24),
      Tri(-22, 33, -12, 33, -12, 24),
      Tri(0, 33, -12, 33, -12, 24),
      Tri(0, 33, 0, 24, -12, 24),
      Tri(-22, 24, -22, 15, -12, 24),
      Tri(-12, 15, -22, 15, -12, 24),
      Tri(-12, 15, 0, 15, -12, 24),
      Tri(0, 15, -12, 24, 0, 24)
    ]
  }

  function LogoLTrianglesPart1(): (ts: seq<Tri>)
    ensures |ts| == 8
  {
    [
      Tri(-22, 15, -22, 0, -12, 0),
      Tri(-22, 15, -12, 15, -12, 0),
      Tri(0, 15, -12, 15, -12, 0),
      Tri(0, 15, 0, 0, -12, 0),
      Tri(-22, 0, -22, -15, -12, 0),
      Tri(-22, -15, -12, 0, -12, -15),
      Tri(0, -15, -12, 0, -12, -15),
      Tri(0, 0, 0, -15, -12, 0)
    ]
  }

  /** triangleVerticesOfI as resetFirVertices sets it: 360 numbers for
      numVertices[0] = 120 vertices, every z equal to 0. */
  function FirVertices(): (s: seq<int>)
    ensures |s| == 3 * 120
    ensures forall k :: 0 <= k < 120 ==> s[3 * k + 2] == 0
  {
    LayoutShape(LogoITriangles(), 0);
    Layout(LogoITriangles(), 0)
  }

  /** triangleVerticesOfL as resetSecVertices sets it: 288 numbers for
      numVertices[2] = 96 vertices, every z equal to 1. */
  function SecVerticesOfL(): (s: seq<int>)
    ensures |s| == 3 * 96
    ensures forall k :: 0 <= k < 96 ==> s[3 * k + 2] == 1
  {
    LayoutShape(LogoLTriangles(), 1);
    Layout(LogoLTriangles(), 1)
  }

  /** The y value nonUniTransform looks for in each stage (stage 0 and every
      stage outside 1..6 take the default case, 33). */
  function RowValue(stage: int): int {
    if stage == 1 then 24
    else if stage == 2 then 15
    else if stage == 3 then 0
    else if stage == 4 then -15
    else if stage == 5 then -24
    else if stage == 6 then -33
    else 33
  }

  /** What an x value preceding a matching y becomes: stage 3 pulls -12/12 in
      to -6/6, every other stage pulls -22/22 in to -17/17. */
  function Pulled(x: int, stage: int): int {
    if stage == 3 then
      if x == -12 then -6 else if x == 12 then 6 else x
    else
      if x == -22 then -17 else if x == 22 then 17 else x
  }

  /** The array nonUniTransform leaves, stated on the unmodified input: entry k
      is rewritten exactly when entry k + 1 holds the stage's row value. */
  function NonUniform(s: seq<int>, stage: int): seq<int> {
    seq(|s|, k requires 0 <= k < |s| =>
      if k + 1 < |s| && s[k + 1] == RowValue(stage) then Pulled(s[k], stage) else s[k])
  }

  /** The rewrite keeps the length and changes entry k exactly when the next
      entry is the stage's row value and entry k is one of the two values the
      stage moves (-22/22, or -12/12 in stage 3); those become -17/17 (-6/6). */
  lemma NonUniformChanges(s: seq<int>, stage: int)
    ensures |NonUniform(s, stage)| == |s|
    ensures forall k :: 0 <= k < |s| ==>
      (NonUniform(s, stage)[k] != s[k] <==>
        k + 1 < |s| && s[k + 1] == RowValue(stage) &&
        (if stage == 3 then s[k] == -12 || s[k] == 12 else s[k] == -22 || s[k] == 22))
    ensures forall k :: 0 <= k < |s| && NonUniform(s, stage)[k] != s[k] ==>
      NonUniform(s, stage)[k] == (if stage == 3 then s[k] / 2 else s[k] - 5 * (s[k] / 22))
  {
  }

  /** The counters of the first animation, in integer units: the angle in
      half-degrees, the scale in eighths. */
  datatype Counters = Counters(defAngle: int, scaleSize: int, incOrDec: bool, nonUniStage: int)

  /** The ranges animateFir keeps its counters in: the angle in [0, 360)
      degrees, the scale in [0, 10], the stage in 0..6. */
  predicate InRange(c: Counters) {
    0 <= c.defAngle < 720 && 0 <= c.scaleSize <= 80 && 0 <= c.nonUniStage < 7
  }

  /** One tick of animateFir: turn by half a degree, step the scale by 1/8 in
      the current direction (flipping to increasing at 0 and to decreasing at
      10 first), and advance the stage when the new scale is a whole number. */
  function Tick(c: Counters): Counters {
    var angle := (c.defAngle + 1) % 720;
    var inc := if c.scaleSize == 0 then true else if c.scaleSize == 80 then false else c.incOrDec;
    var scale := if inc then c.scaleSize + 1 else c.scaleSize - 1;
    var stage := if scale % 8 == 0 then (c.nonUniStage + 1) % 7 else c.nonUniStage;
    Counters(angle, scale, inc, stage)
  }

  /** A tick keeps every counter in range. */
  lemma TickInRange(c: Counters)
    requires InRange(c)
    ensures InRange(Tick(c))
  {
  }

  /** The state myClick (and the global initialisers) start the first animation from. */
  const Start := Counters(0, 8, true, 0)

  function Ticks(c: Counters, k: nat): Counters {
    if k == 0 then c else Tick(Ticks(c, k - 1))
  }

  /** The scale as a triangle wave of period 160 eighths (it climbs from 0 to
      10 and back down in 160 ticks). */
  function Wave(p: nat): int {
    if p % 160 <= 80 then p % 160 else 160 - p % 160
  }

  /** The counters k ticks after a reset, in closed form: the angle is k half
      degrees modulo 360 degrees, the scale follows the triangle wave from
      1 = 8 eighths, it is increasing exactly on the rising half of the wave,
      and the stage advances once every 8 ticks (each time the scale passes a
      whole number), modulo 7. */
  lemma TicksFromStart(k: nat)
    ensures Ticks(Start, k) == Counters(k % 720, Wave(k + 8), 1 <= (k + 8) % 160 <= 80, (k / 8) % 7)
  {
    AngleAfter(k);
    ScaleAfter(k);
    StageAfter(k);
  }

  lemma {:induction false} AngleAfter(k: nat)
    ensures Ticks(Start, k).defAngle == k % 720
  {
    if k > 0 {
      AngleAfter(k - 1);
      PhaseStep(k);
    }
  }

  lemma {:induction false} ScaleAfter(k: nat)
    ensures Ticks(Start, k).scaleSize == Wave(k + 8)
    ensures Ticks(Start, k).incOrDec == (1 <= (k + 8) % 160 <= 80)
  {
    if k > 0 {
      ScaleAfter(k - 1);
      WaveStep(k + 7);
    }
  }

  lemma {:induction false} StageAfter(k: nat)
    ensures Ticks(Start, k).nonUniStage == (k / 8) % 7
  {
    if k > 0 {
      StageAfter(k - 1);
      ScaleAfter(k);
      WaveWhole(k);
      var c := Ticks(Start, k - 1);
      assert Ticks(Start, k) == Tick(c);
      StageStep(k, c.nonUniStage, Tick(c).scaleSize);
    }
  }

  /** The arithmetic of one more tick. */
  lemma PhaseStep(k: nat)
    requires k > 0
    ensures ((k - 1) % 720 + 1) % 720 == k % 720
    ensures k % 8 == 0 ==> k / 8 == (k - 1) / 8 + 1
    ensures k % 8 != 0 ==> k / 8 == (k - 1) / 8
  {
  }

  /** The stage after tick k, from the stage before it and the new scale. */
  lemma StageStep(k: nat, stage: int, scale: int)
    requires k > 0 && stage == ((k - 1) / 8) % 7
    requires scale % 8 == 0 <==> k % 8 == 0
    ensures (if scale % 8 == 0 then (stage + 1) % 7 else stage) == (k / 8) % 7
  {
    var m := (k - 1) / 8;
    assert k - 1 == 8 * m + (k - 1) % 8;
    if k % 8 == 0 {
      assert k / 8 == m + 1;
      var q := m / 7;
      assert m == 7 * q + stage;
      assert (stage + 1) % 7 == (m + 1) % 7;
    } else {
      assert k / 8 == m;
    }
  }

  /** Stepping the wave's phase by one: the scale moves by one eighth in the
      direction the phase says, flipping exactly at 0 and at 10. */
  lemma WaveStep(p: nat)
    ensures var q := p % 160;
      var inc := if Wave(p) == 0 then true else if Wave(p) == 80 then false else 1 <= q <= 80;
      inc == (1 <= (p + 1) % 160 <= 80) &&
      Wave(p + 1) == (if inc then Wave(p) + 1 else Wave(p) - 1)
  {
    var q := p % 160;
    assert (p + 1) % 160 == if q == 159 then 0 else q + 1;
  }

  /** The scale is a whole number exactly when the phase is a multiple of 8. */
  lemma WaveWhole(k: nat)
    ensures Wave(k + 8) % 8 == 0 <==> k % 8 == 0
  {
    var p := k + 8;
    var q := p % 160;
    assert p % 8 == q % 8;
    assert (160 - q) % 8 == 0 <==> q % 8 == 0;
  }

  /** The global state of the logo animation that these functions touch. */
  class LogoState {
    var verticesOfI: array<int>
    var verticesOfL: array<int>
    var animation: int
    /** In half-degrees. */
    var defAngle: int
    var incOrDec: bool
    /** In eighths. */
    var scaleSize: int
    var nonUniStage: int

    function Counts(): Counters
      reads this
    {
      Counters(defAngle, scaleSize, incOrDec, nonUniStage)
    }

    ghost predicate Valid()
      reads this
    {
      InRange(Counts())
    }

    /** The globals as the script declares them; the two vertex arrays start empty. */
    constructor ()
      ensures Valid() && Counts() == Start && animation == 0
      ensures verticesOfI.Length == 0 && verticesOfL.Length == 0
    {
      verticesOfI := new int[0];
      verticesOfL := new int[0];
      animation := 0;
      defAngle := 0;
      incOrDec := true;
      scaleSize := 8;
      nonUniStage := 0;
    }

    /** resetFirVertices: replaces logo I by a fresh copy of the original. */
    method ResetFirVertices()
      modifies this`verticesOfI
      ensures fresh(verticesOfI) && verticesOfI[..] == FirVertices()
    {
      verticesOfI := FromSeq(FirVertices());
    }

    /** resetSecVertices: resets logo I and replaces logo L by a fresh copy. */
    method ResetSecVertices()
      modifies this`verticesOfI, this`verticesOfL
      ensures fresh(verticesOfI) && verticesOfI[..] == FirVertices()
      ensures fresh(verticesOfL) && verticesOfL[..] == SecVerticesOfL()
    {
      ResetFirVertices();
      verticesOfL := FromSeq(SecVerticesOfL());
    }

    /** nonUniTransform: rewrites logo I in place for the current stage; the
        result is the rule applied to the unmodified array, because iteration i
        reads entries i and i - 1 and writes only entry i - 1. */
    method NonUniTransform()
      modifies verticesOfI
      ensures verticesOfI[..] == NonUniform(old(verticesOfI[..]), nonUniStage)
    {
      var a := verticesOfI;
      var row := RowValue(nonUniStage);
      for i := 0 to a.Length
        invariant forall k :: 0 <= k < a.Length && k + 1 < i ==> a[k] == NonUniform(old(a[..]), nonUniStage)[k]
        invariant forall k :: 0 <= k < a.Length && i <= k + 1 ==> a[k] == old(a[k])
      {
        // a[i - 1] does not exist for i = 0: the comparison fails and nothing is written
        if a[i] == row && i > 0 {
          a[i - 1] := Pulled(a[i - 1], nonUniStage);
        }
      }
    }

    /** animateFir: one tick of the counters; every counter stays in range. */
    method AnimateFir()
      requires Valid()
      modifies this`defAngle, this`scaleSize, this`incOrDec, this`nonUniStage
      ensures Valid()
      ensures Counts() == Tick(old(Counts()))
    {
      defAngle := (defAngle + 1) % 720;

      if scaleSize == 0 {
        incOrDec := true;
      } else if scaleSize == 80 {
        incOrDec := false;
      }
      if incOrDec {
        scaleSize := scaleSize + 1;
      } else {
        scaleSize := scaleSize - 1;
      }

      // the string test on scaleSize's decimal fraction succeeds exactly for whole numbers
      if scaleSize % 8 == 0 {
        nonUniStage := (nonUniStage + 1) % 7;
      }
      TickInRange(old(Counts()));
    }

    /** myClick: the first radio button restarts the first animation from
        Start, the other switches to the second animation; both reset the
        logos. The closing setupBuffers, which rescales the logos for
        drawing, is not part of this model. */
    method Click(firstChecked: bool)
      requires Valid()
      modifies this
      ensures Valid()
      ensures firstChecked ==> animation == 0 && Counts() == Start
      ensures !firstChecked ==>
        animation == 1 && defAngle == 0 && !incOrDec && scaleSize == old(scaleSize) && nonUniStage == old(nonUniStage)
      ensures fresh(verticesOfI) && verticesOfI[..] == FirVertices()
      ensures fresh(verticesOfL) && verticesOfL[..] == SecVerticesOfL()
    {
      if firstChecked {
        animation := 0;
        defAngle := 0;
        scaleSize := 8;
        incOrDec := true;
        nonUniStage := 0;
      } else {
        animation := 1;
        defAngle := 0;
        incOrDec := false;
      }
      ResetSecVertices();
    }
  }

  /** A fresh array holding s (a JavaScript array literal). */
  method FromSeq(s: seq<int>) returns (a: array<int>)
    ensures fresh(a) && a[..] == s
  {
    a := new int[|s|];
    for i := 0 to |s|
      invariant a[..i] == s[..i]
    {
      a[i] := s[i];
    }
    assert a[..] == a[..|s|];
  }
}
