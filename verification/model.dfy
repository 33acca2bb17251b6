/** What both model loaders share (Engine/src/Rendering/Model.cpp and
    Engine/src/Renderer/Model.cpp): texture files, the loaded-texture cache
    and the walk over the imported node tree. The importer's result is an
    `Assets.AiScene`; the image decoder is a function from file name to
    what it reports about the decoded image. */
module ModelLoading {
  import opened Wrappers
  import opened Gpu
  import opened MeshData
  import opened Assets

  /** What `stbi_load` reports for a file it could decode. */
  datatype Image = Image(width: int, height: int, components: int)

  type Decoder = string -> Option<Image>

  /** Reading a per-vertex channel the imported mesh does not have: the
      source dereferences a null array. */
  datatype Fault = MissingNormals | MissingTangents

  /** The loader's mutable part: `m_Directory`, `m_TexturesLoaded` and the
      GPU the textures and buffers go to. */
  datatype State = State(directory: string, loaded: seq<Texture>, gpu: Gpu)

  /** The texture format for a channel count; any count but 1, 3 and 4
      leaves the format variable uninitialised. */
  function FormatOf(components: int): (f: Option<Format>)
    ensures f == Some(Red) <==> components == 1
    ensures f == Some(RGB) <==> components == 3
    ensures f == Some(RGBA) <==> components == 4
    ensures f.None? <==> components != 1 && components != 3 && components != 4
  {
    if components == 1 then Some(Red)
    else if components == 3 then Some(RGB)
    else if components == 4 then Some(RGBA)
    else None
  }

  /** Repeat wrapping both ways, trilinear minification, linear
      magnification. */
  const TextureParameters: seq<Call> := [
    SetTextureParameter(TextureWrapS, Repeat),
    SetTextureParameter(TextureWrapT, Repeat),
    SetTextureParameter(TextureFilteringMin, LinearMipmapLinear),
    SetTextureParameter(TextureFilteringMag, Linear)
  ]

  /** `directory + '/' + path`. */
  function FileName(directory: string, path: string): (f: string)
    ensures |f| == |directory| + 1 + |path| && f[|directory|] == '/'
    ensures f[..|directory|] == directory && f[|directory| + 1..] == path
  {
    directory + "/" + path
  }

  /** `TextureFromFile`: a texture name is created whether or not the file
      decodes; only a decoded file is uploaded and given its parameters. */
  function TextureFromFile(path: string, directory: string, load: Decoder, g: Gpu): (r: (nat, Gpu))
    ensures r.0 == g.textures && r.1.textures == g.textures + 1
    ensures r.1.arrays == g.arrays && r.1.buffers == g.buffers
    ensures |r.1.calls| > |g.calls| && r.1.calls[..|g.calls|] == g.calls && r.1.calls[|g.calls|] == CreateTexture(r.0)
    ensures load(FileName(directory, path)).None? ==> |r.1.calls| == |g.calls| + 1
    ensures load(FileName(directory, path)).Some? ==>
      var img := load(FileName(directory, path)).value;
      r.1.calls[|g.calls| + 1..] == [UploadTexture(img.width, img.height, FormatOf(img.components))] + TextureParameters
  {
    var (id, g1) := Generate(g, Textures);
    var file := load(FileName(directory, path));
    var upload :=
      if file.Some? then [UploadTexture(file.value.width, file.value.height, FormatOf(file.value.components))] + TextureParameters
      else [];
    (id, Emit(g1, [CreateTexture(id)] + upload))
  }

  /** The first cached texture with that path, as the cache scan's `break`
      picks it. */
  function Find(loaded: seq<Texture>, path: string): (r: Option<nat>)
    ensures r.Some? ==> r.value < |loaded| && loaded[r.value].path == path
    ensures r.Some? ==> forall j | 0 <= j < r.value :: loaded[j].path != path
    ensures r.None? ==> forall j | 0 <= j < |loaded| :: loaded[j].path != path
    decreases |loaded|
  {
    if |loaded| == 0 then None
    else if loaded[0].path == path then Some(0)
    else match Find(loaded[1..], path)
      case None => None
      case Some(j) => Some(j + 1)
  }

  /** A path found in a list is found at the same place once the list grows. */
  lemma {:induction false} FindExtend(a: seq<Texture>, b: seq<Texture>, path: string)
    requires Find(a, path).Some?
    ensures Find(a + b, path) == Find(a, path)
    decreases |a|
  {
    if a[0].path != path {
      assert (a + b)[1..] == a[1..] + b;
      FindExtend(a[1..], b, path);
    }
  }

  /** One texture request: a cached texture with the same path is reused
      as it is (kind included); otherwise the file is loaded, and with
      `cache` set the new texture is remembered. */
  function LoadTexture(st: State, path: string, kind: string, cache: bool, load: Decoder): (r: (Texture, State))
    ensures r.0.path == path && r.1.directory == st.directory
    ensures Find(st.loaded, path).Some? ==> r.0 == st.loaded[Find(st.loaded, path).value] && r.1 == st
    ensures Find(st.loaded, path).None? ==>
      && r.0.id == st.gpu.textures && r.0.kind == kind
      && r.1.gpu.textures == st.gpu.textures + 1
      && r.1.loaded == (if cache then st.loaded + [r.0] else st.loaded)
  {
    match Find(st.loaded, path)
    case Some(j) => (st.loaded[j], st)
    case None =>
      var (id, g) := TextureFromFile(path, st.directory, load, st.gpu);
      var t := Texture(id, kind, path);
      (t, st.(loaded := if cache then st.loaded + [t] else st.loaded, gpu := g))
  }

  /** `LoadMaterialTextures` over one texture list: one texture per path,
      in order. `cache` says whether new textures are remembered. */
  function LoadTextures(st: State, paths: seq<string>, kind: string, cache: bool, load: Decoder): (r: (seq<Texture>, State))
    ensures |r.0| == |paths| && forall i | 0 <= i < |paths| :: r.0[i].path == paths[i]
    ensures r.1.directory == st.directory
    ensures !cache ==> r.1.loaded == st.loaded
    ensures |r.1.loaded| >= |st.loaded| && r.1.loaded[..|st.loaded|] == st.loaded
    ensures r.1.gpu.textures >= st.gpu.textures
    decreases |paths|
  {
    if |paths| == 0 then ([], st)
    else
      var (t, st1) := LoadTexture(st, paths[0], kind, cache, load);
      var (ts, st2) := LoadTextures(st1, paths[1..], kind, cache, load);
      ([t] + ts, st2)
  }

  predicate DistinctPaths(loaded: seq<Texture>) {
    forall i, j | 0 <= i < j < |loaded| :: loaded[i].path != loaded[j].path
  }

  function Paths(loaded: seq<Texture>): set<string> {
    set i | 0 <= i < |loaded| :: loaded[i].path
  }

  function Elements(paths: seq<string>): set<string> {
    set p | p in paths
  }

  /** With the cache on, the cache never holds a path twice, ends up
      holding exactly the paths it held plus the ones requested, and every
      GPU texture created is one new cache entry. */
  lemma {:induction false} CacheInvariant(st: State, paths: seq<string>, kind: string, load: Decoder)
    requires DistinctPaths(st.loaded)
    ensures var r := LoadTextures(st, paths, kind, true, load);
      && DistinctPaths(r.1.loaded)
      && Paths(r.1.loaded) == Paths(st.loaded) + Elements(paths)
      && r.1.gpu.textures - st.gpu.textures == |r.1.loaded| - |st.loaded|
    decreases |paths|
  {
    if |paths| > 0 {
      var (t, st1) := LoadTexture(st, paths[0], kind, true, load);
      LoadTextureKeepsCache(st, paths[0], kind, load);
      CacheInvariant(st1, paths[1..], kind, load);
      var r1 := LoadTextures(st1, paths[1..], kind, true, load).1;
      assert LoadTextures(st, paths, kind, true, load).1 == r1;
      assert Elements(paths) == {paths[0]} + Elements(paths[1..]) by {
        assert paths == [paths[0]] + paths[1..];
      }
      calc {
        Paths(r1.loaded);
        Paths(st1.loaded) + Elements(paths[1..]);
        Paths(st.loaded) + {paths[0]} + Elements(paths[1..]);
        Paths(st.loaded) + Elements(paths);
      }
      assert r1.gpu.textures - st.gpu.textures == (r1.gpu.textures - st1.gpu.textures) + (st1.gpu.textures - st.gpu.textures);
    }
  }

  /** One cached request keeps the cache duplicate-free, adds its path to
      the cache's paths, and allocates a name exactly when it adds an entry. */
  lemma LoadTextureKeepsCache(st: State, path: string, kind: string, load: Decoder)
    requires DistinctPaths(st.loaded)
    ensures var st1 := LoadTexture(st, path, kind, true, load).1;
      && DistinctPaths(st1.loaded)
      && Paths(st1.loaded) == Paths(st.loaded) + {path}
      && st1.gpu.textures - st.gpu.textures == |st1.loaded| - |st.loaded|
  {
    var st1 := LoadTexture(st, path, kind, true, load).1;
    if Find(st.loaded, path).Some? {
      assert st.loaded[Find(st.loaded, path).value].path == path;
    } else {
      assert st1.loaded[|st.loaded|].path == path;
      forall p | p in Paths(st1.loaded) ensures p in Paths(st.loaded) + {path} {
        var i :| 0 <= i < |st1.loaded| && st1.loaded[i].path == p;
        if i < |st.loaded| { assert st.loaded[i] == st1.loaded[i]; }
      }
      forall p | p in Paths(st.loaded) ensures p in Paths(st1.loaded) {
        var i :| 0 <= i < |st.loaded| && st.loaded[i].path == p;
        assert st1.loaded[i] == st.loaded[i];
      }
    }
  }

  /** With the cache on, every texture returned is the cache's entry for
      its path, so two requests for one path yield one and the same
      texture, under one GPU name. */
  lemma {:induction false} CachedTexturesShared(st: State, paths: seq<string>, kind: string, load: Decoder)
    ensures var r := LoadTextures(st, paths, kind, true, load);
      forall i | 0 <= i < |paths| ::
        Find(r.1.loaded, paths[i]).Some? && r.0[i] == r.1.loaded[Find(r.1.loaded, paths[i]).value]
    decreases |paths|
  {
    if |paths| > 0 {
      var (t, st1) := LoadTexture(st, paths[0], kind, true, load);
      var r := LoadTextures(st, paths, kind, true, load);
      LoadTextureCached(st, paths[0], kind, load);
      CachedTexturesShared(st1, paths[1..], kind, load);
      var rest := LoadTextures(st1, paths[1..], kind, true, load);
      assert rest.1 == r.1;
      assert r.1.loaded == st1.loaded + r.1.loaded[|st1.loaded|..];
      FindExtend(st1.loaded, r.1.loaded[|st1.loaded|..], paths[0]);
      assert r.1.loaded[Find(st1.loaded, paths[0]).value] == st1.loaded[Find(st1.loaded, paths[0]).value];
      forall i | 1 <= i < |paths|
        ensures Find(r.1.loaded, paths[i]).Some? && r.0[i] == r.1.loaded[Find(r.1.loaded, paths[i]).value]
      {
        assert paths[i] == paths[1..][i - 1] && r.0[i] == rest.0[i - 1];
      }
    }
  }

  /** With the cache on, the texture one request returns is the cache's
      entry for its path afterwards. */
  lemma LoadTextureCached(st: State, path: string, kind: string, load: Decoder)
    ensures var (t, st1) := LoadTexture(st, path, kind, true, load);
      Find(st1.loaded, path).Some? && t == st1.loaded[Find(st1.loaded, path).value]
  {
    var (t, st1) := LoadTexture(st, path, kind, true, load);
    if Find(st.loaded, path).None? {
      assert st1.loaded == st.loaded + [t];
      FindFirst(st1.loaded, path, |st.loaded|);
    }
  }

  /** `Find` returns the first index holding the path. */
  lemma FindFirst(loaded: seq<Texture>, path: string, k: nat)
    requires k < |loaded| && loaded[k].path == path
    requires forall j | 0 <= j < k :: loaded[j].path != path
    ensures Find(loaded, path) == Some(k)
  {
  }

  /** With the cache off and nothing cached, every request loads its file
      again: the i-th texture gets the i-th new name. */
  lemma {:induction false} UncachedReloads(st: State, paths: seq<string>, kind: string, load: Decoder)
    requires st.loaded == []
    ensures var r := LoadTextures(st, paths, kind, false, load);
      && r.1.gpu.textures == st.gpu.textures + |paths|
      && forall i | 0 <= i < |paths| :: r.0[i].id == st.gpu.textures + i
    decreases |paths|
  {
    if |paths| > 0 {
      var (t, st1) := LoadTexture(st, paths[0], kind, false, load);
      UncachedReloads(st1, paths[1..], kind, load);
      var r := LoadTextures(st, paths, kind, false, load);
      var rest := LoadTextures(st1, paths[1..], kind, false, load);
      forall i | 1 <= i < |paths| ensures r.0[i].id == st.gpu.textures + i {
        assert r.0[i] == rest.0[i - 1];
      }
    }
  }

  /** The texture lists a material asks for, concatenated in the order of
      `kinds`. */
  function RequestedPaths(mat: AiMaterial, kinds: seq<(TextureType, string)>): (ps: seq<string>)
    ensures |kinds| > 0 ==> ps == TexturePaths(mat, kinds[0].0) + RequestedPaths(mat, kinds[1..])
    decreases |kinds|
  {
    if |kinds| == 0 then [] else TexturePaths(mat, kinds[0].0) + RequestedPaths(mat, kinds[1..])
  }

  /** `ProcessMesh`'s texture part: each list loaded as its kind, the
      results appended in order. */
  function LoadKinds(st: State, mat: AiMaterial, kinds: seq<(TextureType, string)>, cache: bool, load: Decoder)
    : (r: (seq<Texture>, State))
    ensures |r.0| == |RequestedPaths(mat, kinds)|
    ensures forall i | 0 <= i < |r.0| :: r.0[i].path == RequestedPaths(mat, kinds)[i]
    ensures r.1.directory == st.directory
    ensures !cache ==> r.1.loaded == st.loaded
    ensures |r.1.loaded| >= |st.loaded| && r.1.loaded[..|st.loaded|] == st.loaded
    ensures cache && DistinctPaths(st.loaded) ==> DistinctPaths(r.1.loaded)
    decreases |kinds|
  {
    if |kinds| == 0 then ([], st)
    else
      var (ts, st1) := LoadTextures(st, TexturePaths(mat, kinds[0].0), kinds[0].1, cache, load);
      var (rest, st2) := LoadKinds(st1, mat, kinds[1..], cache, load);
      assert cache && DistinctPaths(st.loaded) ==> DistinctPaths(st1.loaded) by {
        if cache && DistinctPaths(st.loaded) {
          CacheInvariant(st, TexturePaths(mat, kinds[0].0), kinds[0].1, load);
        }
      }
      assert st2.loaded[..|st.loaded|] == st1.loaded[..|st1.loaded|][..|st.loaded|];
      assert forall i | 0 <= i < |ts + rest| :: (ts + rest)[i].path == RequestedPaths(mat, kinds)[i] by {
        var ps := TexturePaths(mat, kinds[0].0);
        forall i | 0 <= i < |ts + rest| ensures (ts + rest)[i].path == RequestedPaths(mat, kinds)[i] {
          if i < |ts| {
            assert (ts + rest)[i] == ts[i] && RequestedPaths(mat, kinds)[i] == ps[i];
          } else {
            assert (ts + rest)[i] == rest[i - |ts|];
            assert RequestedPaths(mat, kinds)[i] == RequestedPaths(mat, kinds[1..])[i - |ps|];
          }
        }
      }
      (ts + rest, st2)
  }

  /** With the cache off and empty, the textures of all the lists get
      consecutive new names, one per request, whatever their paths. */
  lemma {:induction false} LoadKindsUncached(st: State, mat: AiMaterial, kinds: seq<(TextureType, string)>, load: Decoder)
    requires st.loaded == []
    ensures var r := LoadKinds(st, mat, kinds, false, load);
      && r.1.gpu.textures == st.gpu.textures + |r.0|
      && forall i | 0 <= i < |r.0| :: r.0[i].id == st.gpu.textures + i
    decreases |kinds|
  {
    if |kinds| > 0 {
      var ps := TexturePaths(mat, kinds[0].0);
      var a := LoadTextures(st, ps, kinds[0].1, false, load);
      UncachedReloads(st, ps, kinds[0].1, load);
      LoadKindsUncached(a.1, mat, kinds[1..], load);
      var b := LoadKinds(a.1, mat, kinds[1..], false, load);
      LoadKindsStep(st, mat, kinds, false, load);
      ConsecutiveConcat(a.0, b.0, st.gpu.textures);
    }
  }

  /** One kind of `LoadKinds`: its list, then the remaining kinds in the
      state it leaves. */
  lemma LoadKindsStep(st: State, mat: AiMaterial, kinds: seq<(TextureType, string)>, cache: bool, load: Decoder)
    requires |kinds| > 0
    ensures var a := LoadTextures(st, TexturePaths(mat, kinds[0].0), kinds[0].1, cache, load);
      var b := LoadKinds(a.1, mat, kinds[1..], cache, load);
      LoadKinds(st, mat, kinds, cache, load) == (a.0 + b.0, b.1)
  {
  }

  /** Two runs of consecutive names, the second starting where the first
      ends, make one run. */
  lemma ConsecutiveConcat(x: seq<Texture>, y: seq<Texture>, base: nat)
    requires forall i | 0 <= i < |x| :: x[i].id == base + i
    requires forall i | 0 <= i < |y| :: y[i].id == base + |x| + i
    ensures forall i | 0 <= i < |x + y| :: (x + y)[i].id == base + i
  {
    forall i | 0 <= i < |x + y|
      ensures (x + y)[i].id == base + i
    {
      if i < |x| {
        assert (x + y)[i] == x[i];
      } else {
        assert (x + y)[i] == y[i - |x|];
      }
    }
  }

  /** How one imported mesh becomes an engine mesh. */
  type Processor<M> = (State, AiMesh) -> Result<(M, State), Fault>

  /** Processing meshes in order, each in the state the previous left; the
      first fault stops the walk. */
  function ProcessList<M>(st: State, ms: seq<AiMesh>, p: Processor<M>): (r: Result<(seq<M>, State), Fault>)
    ensures r.Ok? ==> |r.value.0| == |ms|
    decreases |ms|
  {
    if |ms| == 0 then Ok(([], st))
    else match p(st, ms[0])
      case Err(e) => Err(e)
      case Ok((x, st1)) =>
        match ProcessList(st1, ms[1..], p)
        case Err(e) => Err(e)
        case Ok((xs, st2)) => Ok(([x] + xs, st2))
  }

  /** `ProcessNode`: the node's non-null meshes, then each non-null child's
      subtree, left to right. */
  function ProcessNode<M>(st: State, n: AiNode, p: Processor<M>): Result<(seq<M>, State), Fault>
    decreases n, |n.children| + 1
  {
    match ProcessList(st, Present(n.meshes), p)
    case Err(e) => Err(e)
    case Ok((own, st1)) =>
      match ProcessChildren(st1, n, 0, p)
      case Err(e) => Err(e)
      case Ok((rest, st2)) => Ok((own + rest, st2))
  }

  function ProcessChildren<M>(st: State, n: AiNode, i: nat, p: Processor<M>): Result<(seq<M>, State), Fault>
    decreases n, |n.children| - i
  {
    if i >= |n.children| then Ok(([], st))
    else match n.children[i]
      case None => ProcessChildren(st, n, i + 1, p)
      case Some(c) =>
        assert c < n;
        match ProcessNode(st, c, p)
        case Err(e) => Err(e)
        case Ok((a, st1)) =>
          match ProcessChildren(st1, n, i + 1, p)
          case Err(e) => Err(e)
          case Ok((b, st2)) => Ok((a + b, st2))
  }

  /** Processing a concatenation is processing its halves in turn. */
  lemma {:induction false} ProcessListConcat<M>(st: State, a: seq<AiMesh>, b: seq<AiMesh>, p: Processor<M>)
    ensures ProcessList(st, a + b, p) ==
      match ProcessList(st, a, p)
      case Err(e) => Err(e)
      case Ok((xs, st1)) =>
        match ProcessList(st1, b, p)
        case Err(e) => Err(e)
        case Ok((ys, st2)) => Ok((xs + ys, st2))
    decreases |a|
  {
    if |a| == 0 {
      assert a + b == b;
      match ProcessList(st, b, p) {
        case Err(_) =>
        case Ok((ys, st2)) => assert [] + ys == ys;
      }
    } else {
      assert (a + b)[0] == a[0] && (a + b)[1..] == a[1..] + b;
      match p(st, a[0]) {
        case Err(_) =>
        case Ok((x, st1)) =>
          ProcessListConcat(st1, a[1..], b, p);
          match ProcessList(st1, a[1..], p) {
            case Err(_) =>
            case Ok((xs, st2)) =>
              match ProcessList(st2, b, p) {
                case Err(_) =>
                case Ok((ys, st3)) => assert [x] + (xs + ys) == ([x] + xs) + ys;
              }
          }
      }
    }
  }

  /** The recursive walk is processing the pre-order mesh list. */
  lemma {:induction false} ProcessNodePreorder<M>(st: State, n: AiNode, p: Processor<M>)
    ensures ProcessNode(st, n, p) == ProcessList(st, CollectNode(n), p)
    decreases n, |n.children| + 1
  {
    ProcessListConcat(st, Present(n.meshes), CollectChildren(n, 0), p);
    match ProcessList(st, Present(n.meshes), p) {
      case Err(_) =>
      case Ok((own, st1)) => ProcessChildrenPreorder(st1, n, 0, p);
    }
  }

  lemma {:induction false} ProcessChildrenPreorder<M>(st: State, n: AiNode, i: nat, p: Processor<M>)
    ensures ProcessChildren(st, n, i, p) == ProcessList(st, CollectChildren(n, i), p)
    decreases n, |n.children| - i
  {
    if i < |n.children| {
      match n.children[i] {
        case None =>
          assert CollectChildren(n, i) == CollectChildren(n, i + 1);
          ProcessChildrenPreorder(st, n, i + 1, p);
        case Some(c) =>
          assert c < n;
          ProcessListConcat(st, CollectNode(c), CollectChildren(n, i + 1), p);
          ProcessNodePreorder(st, c, p);
          match ProcessNode(st, c, p) {
            case Err(_) =>
            case Ok((a, st1)) => ProcessChildrenPreorder(st1, n, i + 1, p);
          }
      }
    }
  }

  /** When whether a mesh faults depends on the mesh alone, the walk
      faults exactly when one of the meshes is a faulty one. */
  lemma {:induction false} ProcessListFaults<M>(st: State, ms: seq<AiMesh>, p: Processor<M>, bad: AiMesh -> bool)
    requires forall s: State, x: AiMesh :: p(s, x).Err? <==> bad(x)
    ensures ProcessList(st, ms, p).Err? <==> exists k | 0 <= k < |ms| :: bad(ms[k])
    decreases |ms|
  {
    if |ms| > 0 {
      match p(st, ms[0]) {
        case Err(_) =>
        case Ok((x, st1)) =>
          ProcessListFaults(st1, ms[1..], p, bad);
          assert (exists k | 0 <= k < |ms| :: bad(ms[k])) <==> exists k | 0 <= k < |ms[1..]| :: bad(ms[1..][k]) by {
            if exists k | 0 <= k < |ms| :: bad(ms[k]) {
              var k :| 0 <= k < |ms| && bad(ms[k]);
              assert k > 0 && ms[1..][k - 1] == ms[k];
            }
          }
      }
    }
  }

  /** A property of the state every mesh step keeps is kept by the walk. */
  lemma {:induction false} ProcessListKeeps<M>(st: State, ms: seq<AiMesh>, p: Processor<M>, inv: State -> bool)
    requires inv(st)
    requires forall s: State, x: AiMesh :: inv(s) && p(s, x).Ok? ==> inv(p(s, x).value.1)
    ensures ProcessList(st, ms, p).Ok? ==> inv(ProcessList(st, ms, p).value.1)
    decreases |ms|
  {
    if |ms| > 0 {
      match p(st, ms[0]) {
        case Err(_) =>
        case Ok((x, st1)) => ProcessListKeeps(st1, ms[1..], p, inv);
      }
    }
  }

  /** The importer gave nothing to walk: no scene, an incomplete one, or no
      root node. */
  predicate ImportFailed(imported: Option<AiScene>) {
    imported.None? || imported.value.incomplete || imported.value.root.None?
  }
}

/** The newer model (Engine/src/Rendering/Model.cpp and
    Engine/src/Rendering/Include/Model.h). */
module RenderingModel {
  import opened Wrappers
  import opened Vectors
  import opened Gpu
  import opened MeshData
  import opened Assets
  import opened ModelLoading
  import RenderingMesh

  datatype Model = Model(
    id: string,
    shader: nat,
    position: Vec3,
    rotation: Vec3,
    scale: Vec3,
    meshes: seq<RenderingMesh.Mesh>,
    directory: string,
    loaded: seq<Texture>)

  /** The material's lists in the order `ProcessMesh` loads them, with the
      kind each is loaded as: height maps as normal maps and ambient maps
      as height maps. */
  const Kinds: seq<(TextureType, string)> := [
    (Diffuse, "texture_diffuse"),
    (Specular, "texture_specular"),
    (Height, "texture_normal"),
    (Ambient, "texture_height")
  ]

  /** One vertex: position always; normal when the mesh has normals;
      texture coordinates (x and y), tangent and bitangent when it has a
      first texture-coordinate set, else zero coordinates. */
  function ConvertVertex(v: AiVertex, hasNormals: bool, hasTexCoords: bool): (r: Vertex)
    ensures r.position == v.position
    ensures r.normal.Some? <==> hasNormals
    ensures r.tangent.Some? <==> hasTexCoords
    ensures r.bitangent.Some? == r.tangent.Some?
    ensures !hasTexCoords ==> r.texCoords == Vec2(0.0, 0.0)
  {
    Vertex(
      v.position,
      if hasNormals then Some(v.normal) else None,
      if hasTexCoords then Vec2(v.texCoord.x, v.texCoord.y) else Vec2(0.0, 0.0),
      if hasTexCoords then Some(v.tangent) else None,
      if hasTexCoords then Some(v.bitangent) else None)
  }

  /** The vertex an engine vertex came from, as far as it tells: absent
      channels read as zero. */
  function Restore(r: Vertex): AiVertex {
    AiVertex(r.position, r.normal.GetOr(Zero3), Vec3(r.texCoords.x, r.texCoords.y, 0.0),
             r.tangent.GetOr(Zero3), r.bitangent.GetOr(Zero3))
  }

  /** With every channel present, conversion loses only the third texture
      coordinate. */
  lemma ConvertVertexRoundTrip(v: AiVertex)
    ensures Restore(ConvertVertex(v, true, true)) == v.(texCoord := Vec3(v.texCoord.x, v.texCoord.y, 0.0))
  {
  }

  /** `ProcessMesh`. With texture coordinates present the vertex loop
      reads the tangent arrays unconditionally; a mesh with vertices but
      without tangents is the fault. A mesh without vertices never enters
      the loop, so it loads whatever its flags say. */
  function ProcessMesh(st: State, mesh: AiMesh, load: Decoder): (r: Result<(RenderingMesh.Mesh, State), Fault>)
    ensures r.Err? <==> |mesh.vertices| > 0 && mesh.hasTexCoords && !mesh.hasTangents
    ensures r.Ok? ==>
      var (m, st') := r.value;
      && |m.vertices| == |mesh.vertices|
      && (forall i | 0 <= i < |m.vertices| ::
            m.vertices[i] == ConvertVertex(mesh.vertices[i], mesh.hasNormals, mesh.hasTexCoords))
      && m.indices == Flatten(mesh.faces)
      && |m.textures| == |RequestedPaths(mesh.material, Kinds)|
      && (forall i | 0 <= i < |m.textures| :: m.textures[i].path == RequestedPaths(mesh.material, Kinds)[i])
      && st'.directory == st.directory
      && |st'.loaded| >= |st.loaded| && st'.loaded[..|st.loaded|] == st.loaded
      && (DistinctPaths(st.loaded) ==> DistinctPaths(st'.loaded))
  {
    if |mesh.vertices| > 0 && mesh.hasTexCoords && !mesh.hasTangents then Err(MissingTangents)
    else
      var vs := seq(|mesh.vertices|, i requires 0 <= i < |mesh.vertices| =>
        ConvertVertex(mesh.vertices[i], mesh.hasNormals, mesh.hasTexCoords));
      var loaded := LoadKinds(st, mesh.material, Kinds, true, load);
      var built := RenderingMesh.NewMesh(vs, Flatten(mesh.faces), loaded.0, loaded.1.gpu);
      Ok((built.0, loaded.1.(gpu := built.1)))
  }

  function Process(load: Decoder): Processor<RenderingMesh.Mesh> {
    (st: State, mesh: AiMesh) => ProcessMesh(st, mesh, load)
  }

  function Faulty(mesh: AiMesh): bool {
    |mesh.vertices| > 0 && mesh.hasTexCoords && !mesh.hasTangents
  }

  predicate AnyFaulty(ms: seq<AiMesh>) {
    exists k | 0 <= k < |ms| :: Faulty(ms[k])
  }

  /** `LoadModel`. A failed import leaves the model as it was. Otherwise
      the directory is the path up to its last '/', and the meshes of the
      tree are appended in pre-order. */
  function LoadModel(m: Model, g: Gpu, imported: Option<AiScene>, path: string, load: Decoder)
    : (r: Result<(Model, Gpu), Fault>)
    ensures ImportFailed(imported) ==> r == Ok((m, g))
    ensures !ImportFailed(imported) ==>
      var walk := ProcessList(State(Directory(path), m.loaded, g), CollectNode(imported.value.root.value), Process(load));
      && (r.Err? <==> walk.Err?)
      && (r.Ok? ==>
            && r.value.0.meshes == m.meshes + walk.value.0
            && r.value.0.directory == Directory(path)
            && r.value.0.loaded == walk.value.1.loaded
            && r.value.1 == walk.value.1.gpu
            && r.value.0.(meshes := m.meshes, directory := m.directory, loaded := m.loaded) == m)
  {
    if ImportFailed(imported) then Ok((m, g))
    else
      var root := imported.value.root.value;
      var st := State(Directory(path), m.loaded, g);
      ProcessNodePreorder(st, root, Process(load));
      match ProcessNode(st, root, Process(load))
      case Err(e) => Err(e)
      case Ok((ms, st1)) => Ok((m.(meshes := m.meshes + ms, directory := Directory(path), loaded := st1.loaded), st1.gpu))
  }

  /** Loading faults exactly when some mesh of the tree has vertices and
      texture coordinates but no tangents. */
  lemma LoadModelFaults(m: Model, g: Gpu, imported: Option<AiScene>, path: string, load: Decoder)
    requires !ImportFailed(imported)
    ensures var ms := CollectNode(imported.value.root.value);
      LoadModel(m, g, imported, path, load).Err? <==> AnyFaulty(ms)
  {
    var ms := CollectNode(imported.value.root.value);
    forall s: State, x: AiMesh
      ensures Process(load)(s, x).Err? <==> Faulty(x)
    {
      assert Process(load)(s, x) == ProcessMesh(s, x, load);
    }
    var st := State(Directory(path), m.loaded, g);
    ProcessListFaults(st, ms, Process(load), Faulty);
    assert ProcessList(st, ms, Process(load)).Err? <==> AnyFaulty(ms);
  }

  /** A loaded model gets one engine mesh per non-null imported mesh, and
      its texture cache never holds a path twice. */
  lemma LoadModelCounts(m: Model, g: Gpu, imported: Option<AiScene>, path: string, load: Decoder)
    requires DistinctPaths(m.loaded)
    ensures var r := LoadModel(m, g, imported, path, load);
      r.Ok? ==> DistinctPaths(r.value.0.loaded)
    ensures var r := LoadModel(m, g, imported, path, load);
      r.Ok? && !ImportFailed(imported) ==>
        |r.value.0.meshes| == |m.meshes| + MeshCount(imported.value.root.value)
  {
    if !ImportFailed(imported) {
      var root := imported.value.root.value;
      CollectCounts(root);
      ProcessListKeeps(State(Directory(path), m.loaded, g), CollectNode(root), Process(load),
                       (s: State) => DistinctPaths(s.loaded));
    }
  }

  /** The constructor: the given name, shader and transform, then
      `LoadModel`. */
  function New(id: string, shader: nat, position: Vec3, rotation: Vec3, scale: Vec3,
               path: string, imported: Option<AiScene>, load: Decoder, g: Gpu): (r: Result<(Model, Gpu), Fault>)
    ensures r.Ok? ==> var m := r.value.0;
      && m.id == id && m.shader == shader
      && m.position == position && m.rotation == rotation && m.scale == scale
      && DistinctPaths(m.loaded)
    ensures ImportFailed(imported) ==> r.Ok? && r.value.0.meshes == [] && r.value.1 == g
  {
    var empty := Model(id, shader, position, rotation, scale, [], "", []);
    LoadModelCounts(empty, g, imported, path, load);
    LoadModel(empty, g, imported, path, load)
  }

  /** `Clear`: the name emptied and the transform reset; meshes, textures
      and shader are kept. */
  function Clear(m: Model): (r: Model)
    ensures r.id == "" && r.position == Zero3 && r.rotation == Zero3 && r.scale == One3
    ensures r.meshes == m.meshes && r.directory == m.directory && r.loaded == m.loaded && r.shader == m.shader
  {
    m.(id := "", position := Zero3, rotation := Zero3, scale := One3)
  }

  /** Clearing twice is clearing once, and a cleared model still draws
      exactly as before. */
  lemma ClearIdempotent(m: Model, shader: nat)
    ensures Clear(Clear(m)) == Clear(m)
    ensures DrawAll(Clear(m).meshes, shader) == DrawAll(m.meshes, shader)
  {
  }

  /** The calls drawing the meshes in order make. */
  function DrawAll(meshes: seq<RenderingMesh.Mesh>, shader: nat): seq<Call>
    decreases |meshes|
  {
    if |meshes| == 0 then []
    else DrawAll(meshes[..|meshes| - 1], shader) + RenderingMesh.DrawCalls(meshes[|meshes| - 1], shader)
  }

  /** `Draw`: every mesh draws itself with the given shader, in order. */
  method Draw(m: Model, shader: nat, g: Gpu) returns (r: Gpu)
    ensures r.arrays == g.arrays && r.buffers == g.buffers && r.textures == g.textures
    ensures r.calls == g.calls + DrawAll(m.meshes, shader)
  {
    r := g;
    var i := 0;
    while i < |m.meshes|
      invariant 0 <= i <= |m.meshes|
      invariant r.arrays == g.arrays && r.buffers == g.buffers && r.textures == g.textures && r.calls == g.calls + DrawAll(m.meshes[..i], shader)
    {
      r := RenderingMesh.Draw(m.meshes[i], shader, r);
      assert m.meshes[..i + 1][..i] == m.meshes[..i];
      i := i + 1;
    }
    assert m.meshes[..|m.meshes|] == m.meshes;
  }

  /** A model draw issues one draw per mesh, of all of that mesh's
      indices, in mesh order. */
  lemma {:induction false} DrawAllDraws(meshes: seq<RenderingMesh.Mesh>, shader: nat)
    ensures Draws(DrawAll(meshes, shader)) == seq(|meshes|, i requires 0 <= i < |meshes| => |meshes[i].indices|)
    decreases |meshes|
  {
    if |meshes| > 0 {
      var init := meshes[..|meshes| - 1];
      DrawAllDraws(init, shader);
      DrawsConcat(DrawAll(init, shader), RenderingMesh.DrawCalls(meshes[|meshes| - 1], shader));
      RenderingMesh.DrawSubmitsOnce(meshes[|meshes| - 1], shader);
    }
  }
}

/** The older model (Engine/src/Renderer/Model.cpp). Its header,
    Engine/src/Renderer/Include/Model.h, is not part of this model; the
    state kept is the one its loader reads and writes. */
module RendererModel {
  import opened Wrappers
  import opened Vectors
  import opened Gpu
  import opened MeshData
  import opened Assets
  import opened ModelLoading
  import RendererMesh

  datatype Model = Model(meshes: seq<RendererMesh.Mesh>, directory: string, loaded: seq<Texture>)

  const Kinds: seq<(TextureType, string)> := [
    (Diffuse, "texture_diffuse"),
    (Specular, "texture_specular")
  ]

  /** `LoadMaterialTextures` as written: the cache is searched but nothing
      is ever added to it. */
  function LoadMaterialTextures(st: State, paths: seq<string>, kind: string, load: Decoder): (r: (seq<Texture>, State))
    ensures |r.0| == |paths| && forall i | 0 <= i < |paths| :: r.0[i].path == paths[i]
    ensures r.1.loaded == st.loaded
  {
    LoadTextures(st, paths, kind, false, load)
  }

  /** With new textures remembered, as the newer loader does. */
  function LoadMaterialTexturesFixed(st: State, paths: seq<string>, kind: string, load: Decoder): (r: (seq<Texture>, State))
    ensures |r.0| == |paths| && forall i | 0 <= i < |paths| :: r.0[i].path == paths[i]
    ensures DistinctPaths(st.loaded) ==> DistinctPaths(r.1.loaded)
  {
    if DistinctPaths(st.loaded) then CacheInvariant(st, paths, kind, load); LoadTextures(st, paths, kind, true, load)
    else LoadTextures(st, paths, kind, true, load)
  }

  /** As written, the cache stays empty, so a path requested twice is
      loaded twice under two names; fixed, it is loaded once and both
      requests share the texture. */
  lemma DuplicatePathLoadedTwice(st: State, load: Decoder)
    requires st.loaded == []
    ensures var r := LoadMaterialTextures(st, ["a.png", "a.png"], "texture_diffuse", load);
      r.0[0].id != r.0[1].id && r.1.gpu.textures == st.gpu.textures + 2
    ensures var r := LoadMaterialTexturesFixed(st, ["a.png", "a.png"], "texture_diffuse", load);
      r.0[0] == r.0[1] && r.1.gpu.textures == st.gpu.textures + 1
  {
    UncachedReloads(st, ["a.png", "a.png"], "texture_diffuse", load);
    CachedTexturesShared(st, ["a.png", "a.png"], "texture_diffuse", load);
    CacheInvariant(st, ["a.png", "a.png"], "texture_diffuse", load);
    var r := LoadTextures(st, ["a.png", "a.png"], "texture_diffuse", true, load);
    assert Paths(r.1.loaded) == {"a.png"} by {
      assert Elements(["a.png", "a.png"]) == {"a.png"};
    }
  }

  /** One vertex: position and normal always; texture coordinates when the
      mesh has a first set; no tangent space. */
  function ConvertVertex(v: AiVertex, hasTexCoords: bool): (r: Vertex)
    ensures r.position == v.position && r.normal == Some(v.normal)
    ensures r.tangent == None && r.bitangent == None
    ensures r.texCoords == (if hasTexCoords then Vec2(v.texCoord.x, v.texCoord.y) else Vec2(0.0, 0.0))
  {
    Vertex(v.position, Some(v.normal),
           if hasTexCoords then Vec2(v.texCoord.x, v.texCoord.y) else Vec2(0.0, 0.0), None, None)
  }

  /** `ProcessMesh`. The vertex loop reads normals unconditionally (the
      import does not ask for them to be generated); a mesh with vertices
      but without normals is the fault, and one without vertices loads.
      Only diffuse and specular maps are loaded, through the
      `LoadMaterialTextures` that never adds to the cache: the cache is
      left as it was, and from an empty cache every texture request gets
      a new name. */
  function ProcessMesh(st: State, mesh: AiMesh, load: Decoder): (r: Result<(RendererMesh.Mesh, State), Fault>)
    ensures r.Err? <==> |mesh.vertices| > 0 && !mesh.hasNormals
    ensures r.Ok? ==>
      var (m, st') := r.value;
      && |m.vertices| == |mesh.vertices|
      && (forall i | 0 <= i < |m.vertices| :: m.vertices[i] == ConvertVertex(mesh.vertices[i], mesh.hasTexCoords))
      && m.indices == Flatten(mesh.faces)
      && |m.textures| == |RequestedPaths(mesh.material, Kinds)|
      && (forall i | 0 <= i < |m.textures| :: m.textures[i].path == RequestedPaths(mesh.material, Kinds)[i])
      && st'.directory == st.directory
      && st'.loaded == st.loaded
      && (st.loaded == [] ==>
            && st'.gpu.textures == st.gpu.textures + |m.textures|
            && forall i | 0 <= i < |m.textures| :: m.textures[i].id == st.gpu.textures + i)
  {
    if |mesh.vertices| > 0 && !mesh.hasNormals then Err(MissingNormals)
    else
      var vs := seq(|mesh.vertices|, i requires 0 <= i < |mesh.vertices| => ConvertVertex(mesh.vertices[i], mesh.hasTexCoords));
      var (ts, st1) := LoadKinds(st, mesh.material, Kinds, false, load);
      var (m, g) := RendererMesh.NewMesh(vs, Flatten(mesh.faces), ts, st1.gpu);
      if st.loaded == [] then
        LoadKindsUncached(st, mesh.material, Kinds, load);
        Ok((m, st1.(gpu := g)))
      else
        Ok((m, st1.(gpu := g)))
  }

  /** `ProcessMesh` with `LoadMaterialTexturesFixed`: new textures are
      remembered, so the cache never holds a path twice. */
  function ProcessMeshFixed(st: State, mesh: AiMesh, load: Decoder): (r: Result<(RendererMesh.Mesh, State), Fault>)
    ensures r.Err? <==> |mesh.vertices| > 0 && !mesh.hasNormals
    ensures r.Ok? ==>
      var (m, st') := r.value;
      && |m.vertices| == |mesh.vertices|
      && m.indices == Flatten(mesh.faces)
      && |m.textures| == |RequestedPaths(mesh.material, Kinds)|
      && (forall i | 0 <= i < |m.textures| :: m.textures[i].path == RequestedPaths(mesh.material, Kinds)[i])
      && st'.directory == st.directory
      && |st'.loaded| >= |st.loaded| && st'.loaded[..|st.loaded|] == st.loaded
      && (DistinctPaths(st.loaded) ==> DistinctPaths(st'.loaded))
  {
    if |mesh.vertices| > 0 && !mesh.hasNormals then Err(MissingNormals)
    else
      var vs := seq(|mesh.vertices|, i requires 0 <= i < |mesh.vertices| => ConvertVertex(mesh.vertices[i], mesh.hasTexCoords));
      var (ts, st1) := LoadKinds(st, mesh.material, Kinds, true, load);
      var (m, g) := RendererMesh.NewMesh(vs, Flatten(mesh.faces), ts, st1.gpu);
      Ok((m, st1.(gpu := g)))
  }

  function Process(load: Decoder): Processor<RendererMesh.Mesh> {
    (st: State, mesh: AiMesh) => ProcessMesh(st, mesh, load)
  }

  function Faulty(mesh: AiMesh): bool {
    |mesh.vertices| > 0 && !mesh.hasNormals
  }

  predicate AnyFaulty(ms: seq<AiMesh>) {
    exists k | 0 <= k < |ms| :: Faulty(ms[k])
  }

  /** `LoadModel`: as the newer one, with the older `ProcessMesh`. */
  function LoadModel(m: Model, g: Gpu, imported: Option<AiScene>, path: string, load: Decoder)
    : (r: Result<(Model, Gpu), Fault>)
    ensures ImportFailed(imported) ==> r == Ok((m, g))
    ensures !ImportFailed(imported) ==>
      var walk := ProcessList(State(Directory(path), m.loaded, g), CollectNode(imported.value.root.value), Process(load));
      && (r.Err? <==> walk.Err?)
      && (r.Ok? ==>
            && r.value.0.meshes == m.meshes + walk.value.0
            && r.value.0.directory == Directory(path)
            && r.value.0.loaded == walk.value.1.loaded
            && r.value.1 == walk.value.1.gpu)
  {
    if ImportFailed(imported) then Ok((m, g))
    else
      var root := imported.value.root.value;
      var st := State(Directory(path), m.loaded, g);
      ProcessNodePreorder(st, root, Process(load));
      match ProcessNode(st, root, Process(load))
      case Err(e) => Err(e)
      case Ok((ms, st1)) => Ok((Model(m.meshes + ms, Directory(path), st1.loaded), st1.gpu))
  }

  /** The older loader never caches a texture: a loaded model's cache is
      the one it started with, and a model whose cache starts empty (as
      every model's does) keeps it empty. */
  lemma LoadModelNeverCaches(m: Model, g: Gpu, imported: Option<AiScene>, path: string, load: Decoder)
    ensures var r := LoadModel(m, g, imported, path, load);
      r.Ok? ==> r.value.0.loaded == m.loaded
  {
    if !ImportFailed(imported) {
      var st := State(Directory(path), m.loaded, g);
      forall s: State, x: AiMesh | s.loaded == m.loaded && Process(load)(s, x).Ok?
        ensures Process(load)(s, x).value.1.loaded == m.loaded
      {
        assert Process(load)(s, x) == ProcessMesh(s, x, load);
      }
      ProcessListKeeps(st, CollectNode(imported.value.root.value), Process(load),
                       (s: State) => s.loaded == m.loaded);
    }
  }

  /** Loading faults exactly when some mesh of the tree has vertices but
      no normals. */
  lemma LoadModelFaults(m: Model, g: Gpu, imported: Option<AiScene>, path: string, load: Decoder)
    requires !ImportFailed(imported)
    ensures var ms := CollectNode(imported.value.root.value);
      LoadModel(m, g, imported, path, load).Err? <==> AnyFaulty(ms)
  {
    var ms := CollectNode(imported.value.root.value);
    forall s: State, x: AiMesh
      ensures Process(load)(s, x).Err? <==> Faulty(x)
    {
      assert Process(load)(s, x) == ProcessMesh(s, x, load);
    }
    var st := State(Directory(path), m.loaded, g);
    ProcessListFaults(st, ms, Process(load), Faulty);
    assert ProcessList(st, ms, Process(load)).Err? <==> AnyFaulty(ms);
  }

  function DrawAll(meshes: seq<RendererMesh.Mesh>, shader: nat): seq<Call>
    decreases |meshes|
  {
    if |meshes| == 0 then []
    else DrawAll(meshes[..|meshes| - 1], shader) + RendererMesh.DrawCalls(meshes[|meshes| - 1], shader)
  }

  /** `Draw`: every mesh draws itself with the given shader, in order. */
  method Draw(m: Model, shader: nat, g: Gpu) returns (r: Gpu)
    ensures r.arrays == g.arrays && r.buffers == g.buffers && r.textures == g.textures
    ensures r.calls == g.calls + DrawAll(m.meshes, shader)
  {
    r := g;
    var i := 0;
    while i < |m.meshes|
      invariant 0 <= i <= |m.meshes|
      invariant r.arrays == g.arrays && r.buffers == g.buffers && r.textures == g.textures && r.calls == g.calls + DrawAll(m.meshes[..i], shader)
    {
      r := RendererMesh.Draw(m.meshes[i], shader, r);
      assert m.meshes[..i + 1][..i] == m.meshes[..i];
      i := i + 1;
    }
    assert m.meshes[..|m.meshes|] == m.meshes;
  }

  /** One indexed draw per mesh, of all its indices, in mesh order. */
  lemma {:induction false} DrawAllDraws(meshes: seq<RendererMesh.Mesh>, shader: nat)
    ensures Draws(DrawAll(meshes, shader)) == seq(|meshes|, i requires 0 <= i < |meshes| => |meshes[i].indices|)
    decreases |meshes|
  {
    if |meshes| > 0 {
      var init := meshes[..|meshes| - 1];
      DrawAllDraws(init, shader);
      DrawsConcat(DrawAll(init, shader), RendererMesh.DrawCalls(meshes[|meshes| - 1], shader));
      RendererMesh.DrawSubmitsOnce(meshes[|meshes| - 1], shader);
    }
  }
}
