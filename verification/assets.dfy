/** What the mesh and model code share: the vertex record and its byte
    layout (Engine/src/Renderer/Include/Mesh.h), textures, and the uniform
    names `Draw` gives them. */
module MeshData {
  import opened Wrappers
  import opened Vectors
  import Decimal

  /** A mesh vertex. A field the loader never writes is `None`. The bone
      ids and weights are never written by either loader and are left out
      of the record; their bytes still count in the layout below. */
  datatype Vertex = Vertex(
    position: Vec3,
    normal: Option<Vec3>,
    texCoords: Vec2,
    tangent: Option<Vec3>,
    bitangent: Option<Vec3>)

  /** `Mesh::Texture`: GL handle, sampler kind ("texture_diffuse", ...) and
      the path it was loaded from. */
  datatype Texture = Texture(id: nat, kind: string, path: string)

  // Byte layout of `Vertex`: three vec3/vec2 floats fields, then two int[4].
  const FloatBytes: nat := 4
  const UnsignedBytes: nat := 4
  const PositionOffset: nat := 0
  const NormalOffset: nat := 12
  const TexCoordsOffset: nat := 24
  const TangentOffset: nat := 32
  const BitangentOffset: nat := 44
  const BoneIdsOffset: nat := 56
  const WeightsOffset: nat := 72
  const VertexBytes: nat := 88

  /** The fields tile the record: each starts where the previous one ends
      (vec3 = 12 bytes, vec2 = 8, int[4] = 16) and the last ends at
      `sizeof(Vertex)`. */
  lemma LayoutTiles()
    ensures PositionOffset + 3 * FloatBytes == NormalOffset
    ensures NormalOffset + 3 * FloatBytes == TexCoordsOffset
    ensures TexCoordsOffset + 2 * FloatBytes == TangentOffset
    ensures TangentOffset + 3 * FloatBytes == BitangentOffset
    ensures BitangentOffset + 3 * FloatBytes == BoneIdsOffset
    ensures BoneIdsOffset + 4 * 4 == WeightsOffset
    ensures WeightsOffset + 4 * 4 == VertexBytes
  {
  }

  /** The byte range `[offset, offset + 4 * count)` an attribute reads. */
  predicate Inside(count: nat, offset: nat, stride: nat) {
    offset + count * FloatBytes <= stride
  }

  predicate Disjoint(c1: nat, o1: nat, c2: nat, o2: nat) {
    o1 + c1 * FloatBytes <= o2 || o2 + c2 * FloatBytes <= o1
  }

  /** How many of `ts` have kind `k`. */
  function Count(ts: seq<Texture>, k: string): (n: nat)
    ensures n <= |ts|
    decreases |ts|
  {
    if |ts| == 0 then 0
    else Count(ts[..|ts| - 1], k) + (if ts[|ts| - 1].kind == k then 1 else 0)
  }

  /** The count is zero exactly when no texture has that kind. */
  lemma {:induction false} CountZero(ts: seq<Texture>, k: string)
    ensures Count(ts, k) == 0 <==> forall j | 0 <= j < |ts| :: ts[j].kind != k
    decreases |ts|
  {
    if |ts| > 0 {
      var init := ts[..|ts| - 1];
      CountZero(init, k);
      assert forall j | 0 <= j < |init| :: init[j] == ts[j];
    }
  }

  /** The uniform `Draw` sets for texture `i`: "material." + kind, followed
      for a numbered kind by 1 + the number of earlier textures of that
      kind. */
  function UniformName(ts: seq<Texture>, i: nat, numbered: set<string>): string
    requires i < |ts|
  {
    var k := ts[i].kind;
    "material." + k + (if k in numbered then Decimal.NatToString(1 + Count(ts[..i], k)) else "")
  }

  /** The kinds the newer `Draw` numbers, and the older one's. */
  const NewerNumbered: set<string> := {"texture_diffuse", "texture_specular", "texture_normal", "texture_height"}
  const OlderNumbered: set<string> := {"texture_diffuse", "texture_specular"}

  lemma {:induction false} CountMonotone(ts: seq<Texture>, i: nat, j: nat, k: string)
    requires i < j <= |ts|
    requires ts[i].kind == k
    ensures Count(ts[..j], k) >= Count(ts[..i], k) + 1
    decreases j
  {
    var pre := ts[..j];
    assert pre[..j - 1] == ts[..j - 1];
    if j - 1 > i {
      CountMonotone(ts, i, j - 1, k);
    } else {
      assert ts[..j - 1] == ts[..i];
    }
  }

  /** Counting one more texture adds one to its own kind's count only. */
  lemma CountStep(ts: seq<Texture>, i: nat)
    requires i < |ts|
    ensures forall k :: Count(ts[..i + 1], k) == Count(ts[..i], k) + (if ts[i].kind == k then 1 else 0)
  {
    assert ts[..i + 1][..i] == ts[..i];
  }

  lemma SamePrefix(p: string, a: string, b: string)
    requires p + a == p + b
    ensures a == b
  {
    assert a == (p + a)[|p|..];
    assert b == (p + b)[|p|..];
  }

  /** Two textures of the same numbered kind get different uniforms. */
  lemma NumberedNamesDiffer(ts: seq<Texture>, i: nat, j: nat, numbered: set<string>)
    requires i < j < |ts|
    requires ts[i].kind == ts[j].kind && ts[i].kind in numbered
    ensures UniformName(ts, i, numbered) != UniformName(ts, j, numbered)
  {
    var k := ts[i].kind;
    CountMonotone(ts, i, j, k);
    var a, b := 1 + Count(ts[..i], k), 1 + Count(ts[..j], k);
    if UniformName(ts, i, numbered) == UniformName(ts, j, numbered) {
      SamePrefix("material." + k, Decimal.NatToString(a), Decimal.NatToString(b));
      Decimal.NatToStringInjective(a, b);
    }
  }

  /** A kind outside the numbered ones gets no suffix, so all textures of
      such a kind set one and the same uniform. */
  lemma UnnumberedNamesCollide(ts: seq<Texture>, i: nat, j: nat, numbered: set<string>)
    requires i < |ts| && j < |ts|
    requires ts[i].kind == ts[j].kind && ts[i].kind !in numbered
    ensures UniformName(ts, i, numbered) == UniformName(ts, j, numbered) == "material." + ts[i].kind
  {
  }

  /** The first texture of a numbered kind is number 1. */
  lemma FirstIsOne(ts: seq<Texture>, i: nat, numbered: set<string>)
    requires i < |ts| && ts[i].kind in numbered
    requires forall j | 0 <= j < i :: ts[j].kind != ts[i].kind
    ensures UniformName(ts, i, numbered) == "material." + ts[i].kind + "1"
  {
    CountZero(ts[..i], ts[i].kind);
    assert Decimal.NatToString(1) == "1";
  }
}

/** The imported asset graph (assimp's `aiScene`) and the parts of it the
    loaders read. A node holds its meshes and children directly, `None`
    standing for a null pointer; mesh and material indices are resolved,
    as the importer guarantees them valid. Per-vertex channels are stored
    with their vertex; the `has*` flags say which channels exist. */
module Assets {
  import opened Wrappers
  import opened Vectors

  datatype TextureType = Diffuse | Specular | Height | Ambient | OtherTexture

  /** Texture paths per type, in the material's order. */
  datatype AiMaterial = AiMaterial(textures: map<TextureType, seq<string>>)

  function TexturePaths(m: AiMaterial, t: TextureType): seq<string> {
    if t in m.textures then m.textures[t] else []
  }

  datatype AiVertex = AiVertex(position: Vec3, normal: Vec3, texCoord: Vec3, tangent: Vec3, bitangent: Vec3)

  datatype AiMesh = AiMesh(
    vertices: seq<AiVertex>,
    hasNormals: bool,
    hasTexCoords: bool,
    hasTangents: bool,
    faces: seq<seq<nat>>,
    material: AiMaterial)

  datatype AiNode = AiNode(meshes: seq<Option<AiMesh>>, children: seq<Option<AiNode>>)

  datatype AiScene = AiScene(incomplete: bool, root: Option<AiNode>)

  /** The non-null entries, in order. */
  function Present(xs: seq<Option<AiMesh>>): (r: seq<AiMesh>)
    ensures |r| <= |xs|
    ensures forall x :: x in r <==> Some(x) in xs
  {
    if |xs| == 0 then [] else (if xs[0].Some? then [xs[0].value] else []) + Present(xs[1..])
  }

  /** Pre-order mesh list: a node's own meshes, then each child's subtree
      left to right, null entries skipped. */
  function CollectNode(n: AiNode): seq<AiMesh>
    decreases n, |n.children| + 1
  {
    Present(n.meshes) + CollectChildren(n, 0)
  }

  function CollectChildren(n: AiNode, i: nat): seq<AiMesh>
    decreases n, |n.children| - i
  {
    if i >= |n.children| then []
    else
      (match n.children[i]
       case None => []
       case Some(c) => assert c < n; CollectNode(c))
      + CollectChildren(n, i + 1)
  }

  /** The number of non-null meshes in a subtree. */
  function MeshCount(n: AiNode): nat
    decreases n, |n.children| + 1
  {
    |Present(n.meshes)| + ChildrenMeshCount(n, 0)
  }

  function ChildrenMeshCount(n: AiNode, i: nat): nat
    decreases n, |n.children| - i
  {
    if i >= |n.children| then 0
    else
      (match n.children[i]
       case None => 0
       case Some(c) => assert c < n; MeshCount(c))
      + ChildrenMeshCount(n, i + 1)
  }

  /** The pre-order list holds every non-null mesh once. */
  lemma {:induction false} CollectCounts(n: AiNode)
    ensures |CollectNode(n)| == MeshCount(n)
    decreases n, |n.children| + 1
  {
    CollectChildrenCounts(n, 0);
  }

  lemma {:induction false} CollectChildrenCounts(n: AiNode, i: nat)
    ensures |CollectChildren(n, i)| == ChildrenMeshCount(n, i)
    decreases n, |n.children| - i
  {
    if i < |n.children| {
      match n.children[i] {
        case None =>
        case Some(c) => assert c < n; CollectCounts(c);
      }
      CollectChildrenCounts(n, i + 1);
    }
  }

  /** A leaf contributes exactly its own non-null meshes. */
  lemma CollectLeaf(n: AiNode)
    requires forall i | 0 <= i < |n.children| :: n.children[i].None?
    ensures CollectNode(n) == Present(n.meshes)
  {
    assert CollectChildren(n, 0) == [] by {
      LeafChildren(n, 0);
    }
  }

  lemma {:induction false} LeafChildren(n: AiNode, i: nat)
    requires forall j | 0 <= j < |n.children| :: n.children[j].None?
    ensures CollectChildren(n, i) == []
    decreases |n.children| - i
  {
    if i < |n.children| {
      LeafChildren(n, i + 1);
    }
  }

  /** Index flattening: each face's indices in face order. */
  function Flatten(faces: seq<seq<nat>>): seq<nat>
    decreases |faces|
  {
    if |faces| == 0 then [] else faces[0] + Flatten(faces[1..])
  }

  /** Flattening maps concatenation to concatenation and a single face to
      its own index list. */
  lemma {:induction false} FlattenConcat(a: seq<seq<nat>>, b: seq<seq<nat>>)
    ensures Flatten(a + b) == Flatten(a) + Flatten(b)
    ensures Flatten([]) == [] && forall f :: Flatten([f]) == f
    decreases |a|
  {
    if |a| > 0 {
      assert (a + b)[1..] == a[1..] + b;
      FlattenConcat(a[1..], b);
    } else {
      assert a + b == b;
    }
    forall f: seq<nat> ensures Flatten([f]) == f {
      assert [f][1..] == [];
    }
  }

  /** Every index of the flattened list comes from some face. */
  lemma {:induction false} FlattenMembers(faces: seq<seq<nat>>, x: nat)
    ensures x in Flatten(faces) <==> exists f :: f in faces && x in f
    decreases |faces|
  {
    if |faces| > 0 {
      FlattenMembers(faces[1..], x);
      assert forall f :: f in faces <==> f == faces[0] || f in faces[1..];
    }
  }

  /** `m_Directory`: the prefix before the last '/', or the whole path when
      there is none (`find_last_of` yields npos and `substr(0, npos)` is
      the whole string). */
  function Directory(path: string): (d: string)
    ensures '/' !in path ==> d == path
    ensures '/' in path ==> |d| < |path| && path[|d|] == '/' && d == path[..|d|] && '/' !in path[|d| + 1..]
    decreases |path|
  {
    if |path| == 0 then path
    else if path[|path| - 1] == '/' then path[..|path| - 1]
    else if '/' in path[..|path| - 1] then
      var d := Directory(path[..|path| - 1]);
      assert path[..|path| - 1][..|d|] == path[..|d|];
      assert path[|d| + 1..] == path[..|path| - 1][|d| + 1..] + [path[|path| - 1]];
      d
    else
      assert forall k | 0 <= k < |path| :: path[k] != '/' by {
        forall k | 0 <= k < |path| ensures path[k] != '/' {
          if k < |path| - 1 { assert path[k] == path[..|path| - 1][k]; }
        }
      }
      path
  }

  /** The file name after the last '/'. */
  function BaseName(path: string): string {
    if '/' in path then path[|Directory(path)| + 1..] else path
  }

  /** Splitting at the last '/' and joining back with '/', as
      `TextureFromFile` joins a directory and a file name, restores the
      path; the file name part has no '/'. */
  lemma DirectoryRoundTrip(path: string)
    requires '/' in path
    ensures Directory(path) + "/" + BaseName(path) == path
    ensures '/' !in BaseName(path)
  {
    var d := Directory(path);
    assert path == path[..|d|] + [path[|d|]] + path[|d| + 1..];
  }
}
