/** The constant vertex tables of Engine/src/Tools/BaseShapes.cpp. The
    source holds flat `float` arrays; here each array is written as the
    sequence of records it is laid out from, and `GridFloats`/`LitFloats` flatten those
    records in field order into the array the GPU receives. A `float` is
    four bytes. */
module BaseShapes {

  const FloatBytes: nat := 4

  import opened Vectors

  /** A vertex of the lit tables: position followed by normal, six floats. */
  datatype Lit = Lit(pos: Vec3, normal: Vec3)

  function PointFloats(p: Vec3): seq<real> { [p.x, p.y, p.z] }

  /** The grid's flat array: three floats per point. */
  function GridFloats(ps: seq<Vec3>): (fs: seq<real>)
    ensures |fs| == 3 * |ps|
  {
    if |ps| == 0 then [] else PointFloats(ps[0]) + GridFloats(ps[1..])
  }

  /** A lit table's flat array: six floats per vertex, position first. */
  function LitFloats(vs: seq<Lit>): (fs: seq<real>)
    ensures |fs| == 6 * |vs|
  {
    if |vs| == 0 then [] else PointFloats(vs[0].pos) + PointFloats(vs[0].normal) + LitFloats(vs[1..])
  }

  /** Float `k` of vertex `i` sits at index `6 * i + k`: the stride is six
      floats, the position at offset 0 and the normal at offset 3. */
  lemma {:induction false} LitFloatsLayout(vs: seq<Lit>, i: nat)
    requires i < |vs|
    ensures LitFloats(vs)[6 * i..6 * i + 3] == PointFloats(vs[i].pos)
    ensures LitFloats(vs)[6 * i + 3..6 * i + 6] == PointFloats(vs[i].normal)
  {
    var head := PointFloats(vs[0].pos) + PointFloats(vs[0].normal);
    assert LitFloats(vs) == head + LitFloats(vs[1..]);
    if i > 0 {
      LitFloatsLayout(vs[1..], i - 1);
      assert vs[1..][i - 1] == vs[i];
    }
  }


  /** `gridVertices`: four lines of two endpoints each. */
  const Grid: seq<Vec3> := [
    Vec3(-100.0, 0.0, -100.0), Vec3(100.0, 0.0, -100.0),
    Vec3(-100.0, 0.0, 100.0), Vec3(100.0, 0.0, 100.0),
    Vec3(-100.0, 0.0, -100.0), Vec3(-100.0, 0.0, 100.0),
    Vec3(100.0, 0.0, -100.0), Vec3(100.0, 0.0, 100.0)
  ]

  /** `cubeVertices`, face by face: two triangles per face. */
  const BackFace: seq<Lit> := [  // z = -1
    Lit(Vec3(-1.0, -1.0, -1.0), Vec3(0.0, 0.0, -1.0)), Lit(Vec3(1.0, -1.0, -1.0), Vec3(0.0, 0.0, -1.0)),
    Lit(Vec3(1.0, 1.0, -1.0), Vec3(0.0, 0.0, -1.0)), Lit(Vec3(1.0, 1.0, -1.0), Vec3(0.0, 0.0, -1.0)),
    Lit(Vec3(-1.0, 1.0, -1.0), Vec3(0.0, 0.0, -1.0)), Lit(Vec3(-1.0, -1.0, -1.0), Vec3(0.0, 0.0, -1.0))
  ]
  const FrontFace: seq<Lit> := [  // z = 1
    Lit(Vec3(-1.0, -1.0, 1.0), Vec3(0.0, 0.0, 1.0)), Lit(Vec3(1.0, -1.0, 1.0), Vec3(0.0, 0.0, 1.0)),
    Lit(Vec3(1.0, 1.0, 1.0), Vec3(0.0, 0.0, 1.0)), Lit(Vec3(1.0, 1.0, 1.0), Vec3(0.0, 0.0, 1.0)),
    Lit(Vec3(-1.0, 1.0, 1.0), Vec3(0.0, 0.0, 1.0)), Lit(Vec3(-1.0, -1.0, 1.0), Vec3(0.0, 0.0, 1.0))
  ]
  const LeftFace: seq<Lit> := [  // x = -1
    Lit(Vec3(-1.0, 1.0, 1.0), Vec3(-1.0, 0.0, 0.0)), Lit(Vec3(-1.0, 1.0, -1.0), Vec3(-1.0, 0.0, 0.0)),
    Lit(Vec3(-1.0, -1.0, -1.0), Vec3(-1.0, 0.0, 0.0)), Lit(Vec3(-1.0, -1.0, -1.0), Vec3(-1.0, 0.0, 0.0)),
    Lit(Vec3(-1.0, -1.0, 1.0), Vec3(-1.0, 0.0, 0.0)), Lit(Vec3(-1.0, 1.0, 1.0), Vec3(-1.0, 0.0, 0.0))
  ]
  const RightFace: seq<Lit> := [  // x = 1
    Lit(Vec3(1.0, 1.0, 1.0), Vec3(1.0, 0.0, 0.0)), Lit(Vec3(1.0, 1.0, -1.0), Vec3(1.0, 0.0, 0.0)),
    Lit(Vec3(1.0, -1.0, -1.0), Vec3(1.0, 0.0, 0.0)), Lit(Vec3(1.0, -1.0, -1.0), Vec3(1.0, 0.0, 0.0)),
    Lit(Vec3(1.0, -1.0, 1.0), Vec3(1.0, 0.0, 0.0)), Lit(Vec3(1.0, 1.0, 1.0), Vec3(1.0, 0.0, 0.0))
  ]
  const BottomFace: seq<Lit> := [  // y = -1
    Lit(Vec3(-1.0, -1.0, -1.0), Vec3(0.0, -1.0, 0.0)), Lit(Vec3(1.0, -1.0, -1.0), Vec3(0.0, -1.0, 0.0)),
    Lit(Vec3(1.0, -1.0, 1.0), Vec3(0.0, -1.0, 0.0)), Lit(Vec3(1.0, -1.0, 1.0), Vec3(0.0, -1.0, 0.0)),
    Lit(Vec3(-1.0, -1.0, 1.0), Vec3(0.0, -1.0, 0.0)), Lit(Vec3(-1.0, -1.0, -1.0), Vec3(0.0, -1.0, 0.0))
  ]
  const TopFace: seq<Lit> := [  // y = 1
    Lit(Vec3(-1.0, 1.0, -1.0), Vec3(0.0, 1.0, 0.0)), Lit(Vec3(1.0, 1.0, -1.0), Vec3(0.0, 1.0, 0.0)),
    Lit(Vec3(1.0, 1.0, 1.0), Vec3(0.0, 1.0, 0.0)), Lit(Vec3(1.0, 1.0, 1.0), Vec3(0.0, 1.0, 0.0)),
    Lit(Vec3(-1.0, 1.0, 1.0), Vec3(0.0, 1.0, 0.0)), Lit(Vec3(-1.0, 1.0, -1.0), Vec3(0.0, 1.0, 0.0))
  ]

  const Cube: seq<Lit> := BackFace + FrontFace + LeftFace + RightFace + BottomFace + TopFace

  /** `pyramidVertices`: four base corners and the apex. */
  const Pyramid: seq<Lit> := [
    Lit(Vec3(-0.5, 0.0, -0.5), Vec3(0.0, -1.0, 0.0)),
    Lit(Vec3(0.5, 0.0, -0.5), Vec3(0.0, -1.0, 0.0)),
    Lit(Vec3(0.5, 0.0, 0.5), Vec3(0.0, -1.0, 0.0)),
    Lit(Vec3(-0.5, 0.0, 0.5), Vec3(0.0, -1.0, 0.0)),
    Lit(Vec3(0.0, 1.0, 0.0), Vec3(0.0, 1.0, 0.0))
  ]

  /** The `*Size` constants: `sizeof` of each array. */
  const GridVerticesSize: nat := |GridFloats(Grid)| * FloatBytes
  const CubeVerticesSize: nat := |LitFloats(Cube)| * FloatBytes
  const PyramidVerticesSize: nat := |LitFloats(Pyramid)| * FloatBytes

  /** Array lengths and byte sizes: 8 grid points of 3 floats, 36 cube
      vertices and 5 pyramid vertices of 6 floats. */
  lemma TableSizes()
    ensures |Grid| == 8 && |GridFloats(Grid)| == 24 && GridVerticesSize == 96
    ensures |Cube| == 36 && |LitFloats(Cube)| == 216 && CubeVerticesSize == 864
    ensures |Pyramid| == 5 && |LitFloats(Pyramid)| == 30 && PyramidVerticesSize == 120
    ensures CubeVerticesSize == |Cube| * (6 * FloatBytes)
  {
  }

  predicate Unit(v: real) { v == 1.0 || v == -1.0 }

  /** A unit axis vector: exactly one component is nonzero, and it is ±1. */
  predicate AxisUnit(n: Vec3) {
    || (Unit(n.x) && n.y == 0.0 && n.z == 0.0)
    || (n.x == 0.0 && Unit(n.y) && n.z == 0.0)
    || (n.x == 0.0 && n.y == 0.0 && Unit(n.z))
  }

  function Dot(a: Vec3, b: Vec3): real { a.x * b.x + a.y * b.y + a.z * b.z }

  /** A vertex on the face of the [-1, 1] cube whose outward normal is `n`,
      carrying `n` as its normal. */
  predicate VertexOn(v: Lit, n: Vec3) {
    v.normal == n && AxisUnit(n) && Unit(v.pos.x) && Unit(v.pos.y) && Unit(v.pos.z) && OnPlane(v.pos, n)
  }

  /** The component along the axis of `n` equals that component of `n`. */
  predicate OnPlane(p: Vec3, n: Vec3) {
    (n.x == 0.0 || p.x == n.x) && (n.y == 0.0 || p.y == n.y) && (n.z == 0.0 || p.z == n.z)
  }

  /** A point on the face plane of an axis normal has dot product 1 with it. */
  lemma DotOnPlane(p: Vec3, n: Vec3)
    requires AxisUnit(n) && OnPlane(p, n)
    ensures Dot(p, n) == 1.0
  {
    if n.x != 0.0 {
      assert p.x * n.x == n.x * n.x == 1.0;
    } else if n.y != 0.0 {
      assert p.y * n.y == n.y * n.y == 1.0;
    } else {
      assert p.z * n.z == n.z * n.z == 1.0;
    }
  }

  /** Six vertices on the face whose outward normal is `n`. */
  predicate FaceOn(face: seq<Lit>, n: Vec3) {
    |face| == 6 && forall i | 0 <= i < |face| :: VertexOn(face[i], n)
  }

  /** The cube table is six faces of six vertices, each face on the side
      of the cube its shared normal points out of. */
  lemma CubeFaces()
    ensures Cube == BackFace + FrontFace + LeftFace + RightFace + BottomFace + TopFace
    ensures FaceOn(BackFace, Vec3(0.0, 0.0, -1.0))
    ensures FaceOn(FrontFace, Vec3(0.0, 0.0, 1.0))
    ensures FaceOn(LeftFace, Vec3(-1.0, 0.0, 0.0))
    ensures FaceOn(RightFace, Vec3(1.0, 0.0, 0.0))
    ensures FaceOn(BottomFace, Vec3(0.0, -1.0, 0.0))
    ensures FaceOn(TopFace, Vec3(0.0, 1.0, 0.0))
  {
    BackFaceOn();
    FrontFaceOn();
    LeftFaceOn();
    RightFaceOn();
    BottomFaceOn();
    TopFaceOn();
  }

  lemma BackFaceOn() ensures FaceOn(BackFace, Vec3(0.0, 0.0, -1.0)) { }
  lemma FrontFaceOn() ensures FaceOn(FrontFace, Vec3(0.0, 0.0, 1.0)) { }
  lemma LeftFaceOn() ensures FaceOn(LeftFace, Vec3(-1.0, 0.0, 0.0)) { }
  lemma RightFaceOn() ensures FaceOn(RightFace, Vec3(1.0, 0.0, 0.0)) { }
  lemma BottomFaceOn() ensures FaceOn(BottomFace, Vec3(0.0, -1.0, 0.0)) { }
  lemma TopFaceOn() ensures FaceOn(TopFace, Vec3(0.0, 1.0, 0.0)) { }

  lemma MemberOn(face: seq<Lit>, n: Vec3, v: Lit)
    requires FaceOn(face, n) && v in face
    ensures VertexOn(v, n)
  {
    var i :| 0 <= i < |face| && face[i] == v;
  }

  /** Every cube corner has ±1 coordinates; every normal is a unit axis
      vector pointing out of the face its vertex lies on. */
  lemma CubeGeometry()
    ensures forall v | v in Cube :: Unit(v.pos.x) && Unit(v.pos.y) && Unit(v.pos.z)
    ensures forall v | v in Cube :: AxisUnit(v.normal) && Dot(v.pos, v.normal) == 1.0
  {
    CubeFaces();
    forall v | v in Cube
      ensures Unit(v.pos.x) && Unit(v.pos.y) && Unit(v.pos.z) && AxisUnit(v.normal) && Dot(v.pos, v.normal) == 1.0
    {
      if v in BackFace {
        MemberOn(BackFace, Vec3(0.0, 0.0, -1.0), v);
      } else if v in FrontFace {
        MemberOn(FrontFace, Vec3(0.0, 0.0, 1.0), v);
      } else if v in LeftFace {
        MemberOn(LeftFace, Vec3(-1.0, 0.0, 0.0), v);
      } else if v in RightFace {
        MemberOn(RightFace, Vec3(1.0, 0.0, 0.0), v);
      } else if v in BottomFace {
        MemberOn(BottomFace, Vec3(0.0, -1.0, 0.0), v);
      } else {
        MemberOn(TopFace, Vec3(0.0, 1.0, 0.0), v);
      }
      DotOnPlane(v.pos, v.normal);
    }
  }

  /** The grid lies in the plane y = 0 with its corners at ±100. */
  lemma GridGeometry()
    ensures forall p | p in Grid :: p.y == 0.0 && (p.x == 100.0 || p.x == -100.0) && (p.z == 100.0 || p.z == -100.0)
  {
  }

  /** The pyramid's base is the square of half-side 0.5 at y = 0 facing
      down; the apex is at height 1. */
  lemma PyramidGeometry()
    ensures forall i | 0 <= i < 4 :: Pyramid[i].pos.y == 0.0 && Pyramid[i].normal == Vec3(0.0, -1.0, 0.0)
    ensures forall i | 0 <= i < 4 :: (Pyramid[i].pos.x == 0.5 || Pyramid[i].pos.x == -0.5) && (Pyramid[i].pos.z == 0.5 || Pyramid[i].pos.z == -0.5)
    ensures Pyramid[4].pos == Vec3(0.0, 1.0, 0.0)
  {
  }
}
