/** The newer mesh (Engine/src/Rendering/Mesh.cpp): buffer set-up and the
    draw call sequence. */
module RenderingMesh {
  import opened Wrappers
  import opened MeshData
  import opened Gpu

  datatype Mesh = Mesh(vertices: seq<Vertex>, indices: seq<nat>, textures: seq<Texture>, vao: nat, vbo: nat, ebo: nat)

  /** `SetupMesh`'s seven attribute calls as written. Attributes 5 and 6
      are given the texture-coordinate offset. */
  const AttributeTable: seq<Call> := [
    VertexAttributes(0, 3, VertexBytes, PositionOffset),
    VertexAttributes(1, 3, VertexBytes, NormalOffset),
    VertexAttributes(2, 2, VertexBytes, TexCoordsOffset),
    VertexAttributes(3, 3, VertexBytes, TangentOffset),
    VertexAttributes(4, 3, VertexBytes, BitangentOffset),
    VertexAttributes(5, 4, VertexBytes, TexCoordsOffset),
    VertexAttributes(6, 4, VertexBytes, TexCoordsOffset)
  ]

  /** The table with attributes 5 and 6 at the bone ids and weights. */
  const AttributeTableFixed: seq<Call> := AttributeTable[..5] + [
    VertexAttributes(5, 4, VertexBytes, BoneIdsOffset),
    VertexAttributes(6, 4, VertexBytes, WeightsOffset)
  ]

  /** `SetupMesh`: a vertex array, a vertex buffer of `|vertices|` records
      and an element buffer of `|indices|` unsigned ints, the attribute
      table, then vertex array 0 bound again. The vertex array is the next
      unused array name; the two buffers are the next two unused buffer
      names, so they differ from each other and from every earlier buffer. */
  function SetupWith(table: seq<Call>, vertexCount: nat, indexCount: nat, g: Gpu): (r: (nat, nat, nat, Gpu))
    ensures r.0 == g.arrays && r.3.arrays == g.arrays + 1
    ensures g.buffers <= r.1 < r.2 < r.3.buffers == g.buffers + 2
    ensures r.3.textures == g.textures
    ensures r.3.calls == g.calls
      + [InitVertexArray(r.0), InitVertexBuffer(r.1, vertexCount * VertexBytes), InitElementBuffer(r.2, indexCount * UnsignedBytes)]
      + table + [BindVertexArray(0)]
  {
    var (vao, g1) := Generate(g, VertexArrays);
    var (vbo, g2) := Generate(g1, Buffers);
    var (ebo, g3) := Generate(g2, Buffers);
    var g4 := Emit(g3, [InitVertexArray(vao), InitVertexBuffer(vbo, vertexCount * VertexBytes),
                        InitElementBuffer(ebo, indexCount * UnsignedBytes)] + table + [BindVertexArray(0)]);
    (vao, vbo, ebo, g4)
  }

  /** Whatever else the set-up emits, the vertex layout it leaves is the
      one the table gives. */
  lemma SetupLayout(table: seq<Call>, vertexCount: nat, indexCount: nat, g: Gpu)
    ensures var r := SetupWith(table, vertexCount, indexCount, g);
      Attributes(r.3.calls[|g.calls|..], map[]) == Attributes(table, map[])
  {
    var r := SetupWith(table, vertexCount, indexCount, g);
    var head := [InitVertexArray(r.0), InitVertexBuffer(r.1, vertexCount * VertexBytes),
                 InitElementBuffer(r.2, indexCount * UnsignedBytes)];
    var tail := [BindVertexArray(0)];
    assert r.3.calls[|g.calls|..] == head + table + tail;
    AttributesConcat(head + table, tail, map[]);
    AttributesConcat(head, table, map[]);
    AttributesIgnore(head, map[]);
    AttributesIgnore(tail, Attributes(head + table, map[]));
  }

  /** The seven calls, as written, configure attributes 0 to 6 once each,
      with component counts 3, 3, 2, 3, 3, 4, 4 and stride `sizeof(Vertex)`;
      5 and 6 both read from the texture coordinates, so they overlap
      attribute 2 and each other. */
  lemma AttributeTableAsWritten()
    ensures forall i: nat | i < 7 :: ConfigCount(AttributeTable, i) == 1
    ensures forall i: nat | i >= 7 :: ConfigCount(AttributeTable, i) == 0
    ensures forall k | 0 <= k < 7 :: AttributeTable[k].index == k && AttributeTable[k].stride == VertexBytes
    ensures [AttributeTable[0].count, AttributeTable[1].count, AttributeTable[2].count, AttributeTable[3].count,
             AttributeTable[4].count, AttributeTable[5].count, AttributeTable[6].count] == [3, 3, 2, 3, 3, 4, 4]
    ensures AttributeTable[5].offset == AttributeTable[6].offset == TexCoordsOffset
    ensures !Disjoint(AttributeTable[2].count, AttributeTable[2].offset, AttributeTable[5].count, AttributeTable[5].offset)
    ensures !Disjoint(AttributeTable[5].count, AttributeTable[5].offset, AttributeTable[6].count, AttributeTable[6].offset)
  {
    var t := AttributeTable;
    assert forall k | 0 <= k < 7 :: t[k].VertexAttributes? && t[k].index == k;
    forall i: nat | i < 7
      ensures ConfigCount(t, i) == 1
    {
      DistinctConfiguredOnce(t, i, map[]);
      assert t[i].index == i;
    }
    forall i: nat | i >= 7
      ensures ConfigCount(t, i) == 0
    {
      DistinctConfiguredOnce(t, i, map[]);
    }
  }

  /** In the corrected table the seven attributes lie inside one vertex and
      read pairwise disjoint bytes, each its own field; indices and counts
      are unchanged. */
  lemma AttributeTableFixedSound()
    ensures |AttributeTableFixed| == 7
    ensures forall k | 0 <= k < 7 ::
      && AttributeTableFixed[k].VertexAttributes?
      && AttributeTableFixed[k].index == AttributeTable[k].index
      && AttributeTableFixed[k].count == AttributeTable[k].count
      && Inside(AttributeTableFixed[k].count, AttributeTableFixed[k].offset, VertexBytes)
    ensures forall k, l | 0 <= k < l < 7 ::
      Disjoint(AttributeTableFixed[k].count, AttributeTableFixed[k].offset, AttributeTableFixed[l].count, AttributeTableFixed[l].offset)
  {
  }

  /** The mesh constructor: store the data, then set up the buffers with
      the attribute table as written. */
  function NewMesh(vs: seq<Vertex>, ixs: seq<nat>, ts: seq<Texture>, g: Gpu): (r: (Mesh, Gpu))
    ensures r.0.vertices == vs && r.0.indices == ixs && r.0.textures == ts
    ensures r.0.vao == g.arrays && g.buffers <= r.0.vbo < r.0.ebo < r.1.buffers
    ensures r.1.calls == g.calls
      + [InitVertexArray(r.0.vao), InitVertexBuffer(r.0.vbo, |vs| * VertexBytes), InitElementBuffer(r.0.ebo, |ixs| * UnsignedBytes)]
      + AttributeTable + [BindVertexArray(0)]
    ensures r.1.arrays == g.arrays + 1 && r.1.buffers == g.buffers + 2 && r.1.textures == g.textures
  {
    var (vao, vbo, ebo, g1) := SetupWith(AttributeTable, |vs|, |ixs|, g);
    (Mesh(vs, ixs, ts, vao, vbo, ebo), g1)
  }

  /** The constructor with the corrected attribute table. */
  function NewMeshFixed(vs: seq<Vertex>, ixs: seq<nat>, ts: seq<Texture>, g: Gpu): (r: (Mesh, Gpu))
    ensures r.0.vertices == vs && r.0.indices == ixs && r.0.textures == ts
    ensures r.0.vao == g.arrays && g.buffers <= r.0.vbo < r.0.ebo < r.1.buffers
    ensures r.1.calls == g.calls
      + [InitVertexArray(r.0.vao), InitVertexBuffer(r.0.vbo, |vs| * VertexBytes), InitElementBuffer(r.0.ebo, |ixs| * UnsignedBytes)]
      + AttributeTableFixed + [BindVertexArray(0)]
    ensures r.1.arrays == g.arrays + 1 && r.1.buffers == g.buffers + 2 && r.1.textures == g.textures
  {
    var (vao, vbo, ebo, g1) := SetupWith(AttributeTableFixed, |vs|, |ixs|, g);
    (Mesh(vs, ixs, ts, vao, vbo, ebo), g1)
  }

  /** The layout a mesh built as written leaves: attributes 0 to 6 each
      configured by their own table entry and nothing else, with the bone
      ids and weights (5 and 6) both read from the texture coordinates,
      where attribute 2 reads too. */
  lemma NewMeshLayout(vs: seq<Vertex>, ixs: seq<nat>, ts: seq<Texture>, g: Gpu)
    ensures var r := NewMesh(vs, ixs, ts, g);
      var layout := Attributes(r.1.calls[|g.calls|..], map[]);
      && (forall i: nat | i < 7 :: i in layout && layout[i] == AttributeTable[i])
      && (forall i: nat | i >= 7 :: i !in layout)
      && layout[5].offset == layout[6].offset == layout[2].offset == TexCoordsOffset
  {
    SetupLayout(AttributeTable, |vs|, |ixs|, g);
    OneCallPerIndex(AttributeTable);
  }

  /** Built with the corrected table, the seven attributes read seven
      disjoint fields of one vertex. */
  lemma NewMeshFixedLayout(vs: seq<Vertex>, ixs: seq<nat>, ts: seq<Texture>, g: Gpu)
    ensures var r := NewMeshFixed(vs, ixs, ts, g);
      var layout := Attributes(r.1.calls[|g.calls|..], map[]);
      && (forall i: nat | i < 7 :: i in layout && layout[i] == AttributeTableFixed[i]
            && Inside(layout[i].count, layout[i].offset, VertexBytes))
      && (forall i: nat | i >= 7 :: i !in layout)
      && (forall i, j | 0 <= i < j < 7 :: Disjoint(layout[i].count, layout[i].offset, layout[j].count, layout[j].offset))
  {
    SetupLayout(AttributeTableFixed, |vs|, |ixs|, g);
    AttributeTableFixedSound();
    OneCallPerIndex(AttributeTableFixed);
  }

  /** The layout a table whose k-th call configures index k leaves. */
  lemma OneCallPerIndex(t: seq<Call>)
    requires forall k | 0 <= k < |t| :: t[k].VertexAttributes? && t[k].index == k
    ensures forall i: nat | i < |t| :: i in Attributes(t, map[]) && Attributes(t, map[])[i] == t[i]
    ensures forall i: nat | i >= |t| :: i !in Attributes(t, map[])
  {
    assert DistinctIndices(t);
    forall i: nat | i < |t|
      ensures i in Attributes(t, map[]) && Attributes(t, map[])[i] == t[i]
    {
      DistinctConfiguredOnce(t, i, map[]);
      assert t[i].VertexAttributes? && t[i].index == i;
    }
    forall i: nat | i >= |t|
      ensures i !in Attributes(t, map[])
    {
      AttributesKeeps(t, i, map[]);
    }
  }

  /** The unit the uniform for texture `i` names. The loop passes `i`, but
      `SetUniformInt` declares its value `bool`, so as written (`narrowed`)
      it reaches GL as 0 or 1; otherwise it is the intended `i`. */
  function Sampler(i: nat, narrowed: bool): nat {
    if narrowed then Narrow(i) else i
  }

  /** The calls the texture loop makes for the first `n` textures: bind
      texture i to unit i, then point its uniform at `Sampler(i, narrowed)`. */
  function TextureCalls(ts: seq<Texture>, shader: nat, n: nat, narrowed: bool): (cs: seq<Call>)
    requires n <= |ts|
    ensures |cs| == 2 * n
  {
    if n == 0 then [] else
    TextureCalls(ts, shader, n - 1, narrowed)
      + [BindTextureUnit(n - 1, ts[n - 1].id),
         SetUniformInt(shader, UniformName(ts, n - 1, NewerNumbered), Sampler(n - 1, narrowed))]
  }

  /** One iteration of the loop binds its texture to its own unit, leaves
      that unit active and sets one uniform. */
  lemma StepBinds(u: nat, id: nat, shader: nat, name: string, v: int, active: nat, before: map<nat, nat>)
    ensures Bindings([BindTextureUnit(u, id), SetUniformInt(shader, name, v)], active, before) == before[u := id]
    ensures ActiveAfter([BindTextureUnit(u, id), SetUniformInt(shader, name, v)], active) == u
    ensures UniformValues([BindTextureUnit(u, id), SetUniformInt(shader, name, v)]) == [v]
  {
    var step := [BindTextureUnit(u, id), SetUniformInt(shader, name, v)];
    var s1 := [SetUniformInt(shader, name, v)];
    assert step[1..] == s1 && s1[1..] == [];
    assert Bindings(step, active, before) == Bindings(s1, u, before[u := id]) == Bindings([], u, before[u := id]);
    assert ActiveAfter(step, active) == ActiveAfter(s1, u) == ActiveAfter([], u);
    assert UniformValues(step) == UniformValues(s1) == [v] + UniformValues([]);
  }

  /** Every texture ends up on the unit of its position in the list, the
      last one's unit is left active, and the i-th uniform set names unit
      `Sampler(i, narrowed)`. */
  lemma {:induction false} TextureCallsBind(ts: seq<Texture>, shader: nat, n: nat, narrowed: bool)
    requires n <= |ts|
    ensures Bindings(TextureCalls(ts, shader, n, narrowed), 0, map[]) == map i | 0 <= i < n :: ts[i].id
    ensures n > 0 ==> ActiveAfter(TextureCalls(ts, shader, n, narrowed), 0) == n - 1
    ensures var us := UniformValues(TextureCalls(ts, shader, n, narrowed));
      |us| == n && forall i | 0 <= i < n :: us[i] == Sampler(i, narrowed)
    decreases n
  {
    if n > 0 {
      var prev := TextureCalls(ts, shader, n - 1, narrowed);
      var v := Sampler(n - 1, narrowed);
      var name := UniformName(ts, n - 1, NewerNumbered);
      var step := [BindTextureUnit(n - 1, ts[n - 1].id), SetUniformInt(shader, name, v)];
      assert TextureCalls(ts, shader, n, narrowed) == prev + step;
      TextureCallsBind(ts, shader, n - 1, narrowed);
      BindingsConcat(prev, step, 0, map[]);
      UniformValuesConcat(prev, step);
      var before := map i | 0 <= i < n - 1 :: ts[i].id;
      StepBinds(n - 1, ts[n - 1].id, shader, name, v, ActiveAfter(prev, 0), before);
      assert before[n - 1 := ts[n - 1].id] == map i | 0 <= i < n :: ts[i].id;
    }
  }

  /** `Draw`: one bind and one uniform per texture, numbering the four known
      kinds separately, then one submit of all the indices. The loop index
      is passed to the uniform through the bool parameter. */
  method Draw(m: Mesh, shader: nat, g: Gpu) returns (r: Gpu)
    ensures r.arrays == g.arrays && r.buffers == g.buffers && r.textures == g.textures
    ensures r.calls == g.calls + TextureCalls(m.textures, shader, |m.textures|, true)
      + [SubmitDrawCommands(shader, m.vao, |m.indices|)]
  {
    var ts := m.textures;
    var diffuseNr, specularNr, normalNr, heightNr := 1, 1, 1, 1;
    r := g;
    var i := 0;
    while i < |ts|
      invariant 0 <= i <= |ts|
      invariant r.arrays == g.arrays && r.buffers == g.buffers && r.textures == g.textures
      invariant r.calls == g.calls + TextureCalls(ts, shader, i, true)
      invariant diffuseNr == 1 + Count(ts[..i], "texture_diffuse")
      invariant specularNr == 1 + Count(ts[..i], "texture_specular")
      invariant normalNr == 1 + Count(ts[..i], "texture_normal")
      invariant heightNr == 1 + Count(ts[..i], "texture_height")
    {
      var name := ts[i].kind;
      CountStep(ts, i);
      UniformFor(ts, i, diffuseNr, specularNr, normalNr, heightNr);
      var number := "";
      if name == "texture_diffuse" {
        number := Decimal.NatToString(diffuseNr);
        diffuseNr := diffuseNr + 1;
      } else if name == "texture_specular" {
        number := Decimal.NatToString(specularNr);
        specularNr := specularNr + 1;
      } else if name == "texture_normal" {
        number := Decimal.NatToString(normalNr);
        normalNr := normalNr + 1;
      } else if name == "texture_height" {
        number := Decimal.NatToString(heightNr);
        heightNr := heightNr + 1;
      }
      var uniform := "material." + name + number;
      assert uniform == UniformName(ts, i, NewerNumbered);
      var step := [BindTextureUnit(i, ts[i].id), SetUniformInt(shader, uniform, Narrow(i))];
      assert TextureCalls(ts, shader, i + 1, true) == TextureCalls(ts, shader, i, true) + step;
      assert g.calls + TextureCalls(ts, shader, i + 1, true) == r.calls + step;
      r := Emit(r, step);
      i := i + 1;
    }
    r := Emit(r, [SubmitDrawCommands(shader, m.vao, |m.indices|)]);
  }

  /** The uniform name for texture `i`, given the four running counters. */
  lemma UniformFor(ts: seq<Texture>, i: nat, diffuseNr: nat, specularNr: nat, normalNr: nat, heightNr: nat)
    requires i < |ts|
    requires diffuseNr == 1 + Count(ts[..i], "texture_diffuse")
    requires specularNr == 1 + Count(ts[..i], "texture_specular")
    requires normalNr == 1 + Count(ts[..i], "texture_normal")
    requires heightNr == 1 + Count(ts[..i], "texture_height")
    ensures var k := ts[i].kind;
      UniformName(ts, i, NewerNumbered) == "material." + k +
        if k == "texture_diffuse" then Decimal.NatToString(diffuseNr)
        else if k == "texture_specular" then Decimal.NatToString(specularNr)
        else if k == "texture_normal" then Decimal.NatToString(normalNr)
        else if k == "texture_height" then Decimal.NatToString(heightNr)
        else ""
  {
  }

  /** What `Draw` emits, as a value. */
  function DrawCalls(m: Mesh, shader: nat): seq<Call> {
    TextureCalls(m.textures, shader, |m.textures|, true) + [SubmitDrawCommands(shader, m.vao, |m.indices|)]
  }

  /** After `Draw` texture i is on unit i, the submit has made unit 0
      active again, and the last call submits every index of the mesh's
      own vertex array. */
  lemma DrawBindsEveryTexture(m: Mesh, shader: nat)
    ensures Bindings(DrawCalls(m, shader), 0, map[]) == map i | 0 <= i < |m.textures| :: m.textures[i].id
    ensures ActiveAfter(DrawCalls(m, shader), 0) == 0
    ensures DrawCalls(m, shader)[|DrawCalls(m, shader)| - 1] == SubmitDrawCommands(shader, m.vao, |m.indices|)
  {
    var tc := TextureCalls(m.textures, shader, |m.textures|, true);
    var tail := [SubmitDrawCommands(shader, m.vao, |m.indices|)];
    TextureCallsBind(m.textures, shader, |m.textures|, true);
    BindingsConcat(tc, tail, 0, map[]);
    assert tail[1..] == [];
  }

  /** As written, the uniform of every texture after the first names unit
      1, which holds the second texture: from the third texture on, each
      uniform samples another texture than its own. */
  lemma SamplersAsWritten(m: Mesh, shader: nat)
    ensures var b := Bindings(DrawCalls(m, shader), 0, map[]);
      var us := UniformValues(DrawCalls(m, shader));
      && |us| == |m.textures|
      && (forall i | 0 <= i < |us| :: us[i] == if i == 0 then 0 else 1)
      && (|us| > 1 ==> 1 in b && b[1] == m.textures[1].id)
    ensures |m.textures| >= 3 && m.textures[1].id != m.textures[2].id ==>
      var b := Bindings(DrawCalls(m, shader), 0, map[]);
      UniformValues(DrawCalls(m, shader))[2] == 1 && b[1] != m.textures[2].id
  {
    var tc := TextureCalls(m.textures, shader, |m.textures|, true);
    var tail := [SubmitDrawCommands(shader, m.vao, |m.indices|)];
    DrawBindsEveryTexture(m, shader);
    TextureCallsBind(m.textures, shader, |m.textures|, true);
    UniformValuesConcat(tc, tail);
    assert tail[1..] == [];
  }

  /** With the index passed as an int, the uniform of texture i names unit
      i, which holds texture i. */
  lemma SamplersFixed(ts: seq<Texture>, shader: nat)
    ensures var calls := TextureCalls(ts, shader, |ts|, false);
      var b := Bindings(calls, 0, map[]);
      var us := UniformValues(calls);
      && |us| == |ts|
      && forall i | 0 <= i < |us| :: us[i] == i && i in b && b[i] == ts[i].id
  {
    TextureCallsBind(ts, shader, |ts|, false);
  }

  lemma {:induction false} TextureCallsDrawNothing(ts: seq<Texture>, shader: nat, n: nat, narrowed: bool)
    requires n <= |ts|
    ensures Draws(TextureCalls(ts, shader, n, narrowed)) == []
    decreases n
  {
    if n > 0 {
      var step := [BindTextureUnit(n - 1, ts[n - 1].id),
                   SetUniformInt(shader, UniformName(ts, n - 1, NewerNumbered), Sampler(n - 1, narrowed))];
      TextureCallsDrawNothing(ts, shader, n - 1, narrowed);
      DrawsConcat(TextureCalls(ts, shader, n - 1, narrowed), step);
      assert step[1..][1..] == [];
      assert Draws(step) == Draws(step[1..]) == Draws(step[1..][1..]) == [];
    }
  }

  /** Drawing a mesh is one draw of all its indices. */
  lemma DrawSubmitsOnce(m: Mesh, shader: nat)
    ensures Draws(DrawCalls(m, shader)) == [|m.indices|]
  {
    var tail := [SubmitDrawCommands(shader, m.vao, |m.indices|)];
    TextureCallsDrawNothing(m.textures, shader, |m.textures|, true);
    DrawsConcat(TextureCalls(m.textures, shader, |m.textures|, true), tail);
    assert tail[1..] == [];
  }
}

/** The older mesh (Engine/src/Renderer/Mesh.cpp). */
module RendererMesh {
  import opened Wrappers
  import opened MeshData
  import opened Gpu
  import RenderingMesh

  datatype Mesh = Mesh(vertices: seq<Vertex>, indices: seq<nat>, textures: seq<Texture>, vao: nat, vbo: nat, ebo: nat)

  /** `SetupMesh`'s attribute calls as written: the third call reuses
      index 0 with the texture-coordinate offset. */
  const AttributeTable: seq<Call> := [
    VertexAttributes(0, 3, VertexBytes, PositionOffset),
    VertexAttributes(1, 3, VertexBytes, NormalOffset),
    VertexAttributes(0, 3, VertexBytes, TexCoordsOffset)
  ]

  /** The third call as index 2, two components. */
  const AttributeTableFixed: seq<Call> := AttributeTable[..2] + [VertexAttributes(2, 2, VertexBytes, TexCoordsOffset)]

  /** As written, index 0 is configured twice and the later call wins: the
      shader's attribute 0 reads the texture coordinates (and the first
      tangent float), not the position. Only 0 and 1 are configured. */
  lemma AttributeTableAsWritten()
    ensures ConfigCount(AttributeTable, 0) == 2 && ConfigCount(AttributeTable, 1) == 1
    ensures forall i: nat | i >= 2 :: ConfigCount(AttributeTable, i) == 0
    ensures Attributes(AttributeTable, map[]) == map[
      0 := VertexAttributes(0, 3, VertexBytes, TexCoordsOffset),
      1 := VertexAttributes(1, 3, VertexBytes, NormalOffset)]
    ensures Attributes(AttributeTable, map[])[0].offset != PositionOffset
  {
    var t := AttributeTable;
    var t1, t2 := t[1..], t[1..][1..];
    assert t2[1..] == [];
    forall i: nat
      ensures ConfigCount(t, i) == (if i == 0 then 2 else if i == 1 then 1 else 0)
    {
      assert ConfigCount(t2, i) == (if i == 0 then 1 else 0);
      assert ConfigCount(t1, i) == (if i == 1 then 1 else 0) + ConfigCount(t2, i);
    }
    var c1 := map[0 := t[0]];
    var c2 := c1[1 := t[1]];
    assert Attributes(t, map[]) == Attributes(t1, c1) == Attributes(t2, c2) == c2[0 := t[2]];
  }

  /** Corrected, the effective configuration feeds position, normal and
      texture coordinates from their own fields, inside one vertex and
      without overlap. */
  lemma AttributeTableFixedSound()
    ensures forall i: nat | i < 3 :: ConfigCount(AttributeTableFixed, i) == 1
    ensures Attributes(AttributeTableFixed, map[]) == map[
      0 := VertexAttributes(0, 3, VertexBytes, PositionOffset),
      1 := VertexAttributes(1, 3, VertexBytes, NormalOffset),
      2 := VertexAttributes(2, 2, VertexBytes, TexCoordsOffset)]
    ensures forall k | 0 <= k < 3 :: Inside(AttributeTableFixed[k].count, AttributeTableFixed[k].offset, VertexBytes)
    ensures forall k, l | 0 <= k < l < 3 ::
      Disjoint(AttributeTableFixed[k].count, AttributeTableFixed[k].offset, AttributeTableFixed[l].count, AttributeTableFixed[l].offset)
  {
    var t := AttributeTableFixed;
    assert forall k | 0 <= k < 3 :: t[k].VertexAttributes? && t[k].index == k;
    forall i: nat | i < 3
      ensures ConfigCount(t, i) == 1
      ensures i in Attributes(t, map[]) && Attributes(t, map[])[i] == t[i]
    {
      DistinctConfiguredOnce(t, i, map[]);
      assert t[i].index == i;
    }
    forall i: nat | i >= 3
      ensures i !in Attributes(t, map[])
    {
      AttributesKeeps(t, i, map[]);
    }
    assert t == [VertexAttributes(0, 3, VertexBytes, PositionOffset),
                 VertexAttributes(1, 3, VertexBytes, NormalOffset),
                 VertexAttributes(2, 2, VertexBytes, TexCoordsOffset)];
  }

  /** The mesh constructor with the attribute table as written. The buffer
      part of `SetupMesh` is the same as the newer mesh's. */
  function NewMesh(vs: seq<Vertex>, ixs: seq<nat>, ts: seq<Texture>, g: Gpu): (r: (Mesh, Gpu))
    ensures r.0.vertices == vs && r.0.indices == ixs && r.0.textures == ts
    ensures r.0.vao == g.arrays && g.buffers <= r.0.vbo < r.0.ebo < r.1.buffers
    ensures r.1.calls == g.calls
      + [InitVertexArray(r.0.vao), InitVertexBuffer(r.0.vbo, |vs| * VertexBytes), InitElementBuffer(r.0.ebo, |ixs| * UnsignedBytes)]
      + AttributeTable + [BindVertexArray(0)]
    ensures r.1.arrays == g.arrays + 1 && r.1.buffers == g.buffers + 2 && r.1.textures == g.textures
  {
    var (vao, vbo, ebo, g1) := RenderingMesh.SetupWith(AttributeTable, |vs|, |ixs|, g);
    (Mesh(vs, ixs, ts, vao, vbo, ebo), g1)
  }

  /** The constructor with the corrected table. */
  function NewMeshFixed(vs: seq<Vertex>, ixs: seq<nat>, ts: seq<Texture>, g: Gpu): (r: (Mesh, Gpu))
    ensures r.0.vertices == vs && r.0.indices == ixs && r.0.textures == ts
    ensures r.0.vao == g.arrays && g.buffers <= r.0.vbo < r.0.ebo < r.1.buffers
    ensures r.1.calls == g.calls
      + [InitVertexArray(r.0.vao), InitVertexBuffer(r.0.vbo, |vs| * VertexBytes), InitElementBuffer(r.0.ebo, |ixs| * UnsignedBytes)]
      + AttributeTableFixed + [BindVertexArray(0)]
    ensures r.1.arrays == g.arrays + 1 && r.1.buffers == g.buffers + 2 && r.1.textures == g.textures
  {
    var (vao, vbo, ebo, g1) := RenderingMesh.SetupWith(AttributeTableFixed, |vs|, |ixs|, g);
    (Mesh(vs, ixs, ts, vao, vbo, ebo), g1)
  }

  /** A mesh built as written feeds attribute 0 from the texture
      coordinates and leaves attribute 2 unconfigured. */
  lemma NewMeshLayout(vs: seq<Vertex>, ixs: seq<nat>, ts: seq<Texture>, g: Gpu)
    ensures var r := NewMesh(vs, ixs, ts, g);
      Attributes(r.1.calls[|g.calls|..], map[]) == map[
        0 := VertexAttributes(0, 3, VertexBytes, TexCoordsOffset),
        1 := VertexAttributes(1, 3, VertexBytes, NormalOffset)]
  {
    RenderingMesh.SetupLayout(AttributeTable, |vs|, |ixs|, g);
    AttributeTableAsWritten();
  }

  /** Built with the corrected table, position, normal and texture
      coordinates come from their own fields. */
  lemma NewMeshFixedLayout(vs: seq<Vertex>, ixs: seq<nat>, ts: seq<Texture>, g: Gpu)
    ensures var r := NewMeshFixed(vs, ixs, ts, g);
      Attributes(r.1.calls[|g.calls|..], map[]) == map[
        0 := VertexAttributes(0, 3, VertexBytes, PositionOffset),
        1 := VertexAttributes(1, 3, VertexBytes, NormalOffset),
        2 := VertexAttributes(2, 2, VertexBytes, TexCoordsOffset)]
  {
    RenderingMesh.SetupLayout(AttributeTableFixed, |vs|, |ixs|, g);
    AttributeTableFixedSound();
  }

  /** The texture loop's calls for the first `n` textures: make unit i
      active, point the uniform at `Sampler(i, narrowed)`, bind the texture
      there. `Shader::SetInt` takes an int but hands it on as the bool
      parameter of `SetUniformInt`. */
  function TextureCalls(ts: seq<Texture>, shader: nat, n: nat, narrowed: bool): (cs: seq<Call>)
    requires n <= |ts|
    ensures |cs| == 3 * n
  {
    if n == 0 then [] else
    TextureCalls(ts, shader, n - 1, narrowed)
      + [ActiveTexture(n - 1),
         SetUniformInt(shader, UniformName(ts, n - 1, OlderNumbered), RenderingMesh.Sampler(n - 1, narrowed)),
         BindTexture(ts[n - 1].id)]
  }

  /** Although it binds through the active unit, the older loop leaves the
      same bindings as the newer one: texture i on unit i; the i-th
      uniform names unit `Sampler(i, narrowed)`. */
  lemma {:induction false} TextureCallsBind(ts: seq<Texture>, shader: nat, n: nat, narrowed: bool)
    requires n <= |ts|
    ensures Bindings(TextureCalls(ts, shader, n, narrowed), 0, map[]) == map i | 0 <= i < n :: ts[i].id
    ensures n > 0 ==> ActiveAfter(TextureCalls(ts, shader, n, narrowed), 0) == n - 1
    ensures var us := UniformValues(TextureCalls(ts, shader, n, narrowed));
      |us| == n && forall i | 0 <= i < n :: us[i] == RenderingMesh.Sampler(i, narrowed)
    decreases n
  {
    if n > 0 {
      var prev := TextureCalls(ts, shader, n - 1, narrowed);
      var v := RenderingMesh.Sampler(n - 1, narrowed);
      var name := UniformName(ts, n - 1, OlderNumbered);
      var step := [ActiveTexture(n - 1), SetUniformInt(shader, name, v), BindTexture(ts[n - 1].id)];
      assert TextureCalls(ts, shader, n, narrowed) == prev + step;
      TextureCallsBind(ts, shader, n - 1, narrowed);
      BindingsConcat(prev, step, 0, map[]);
      UniformValuesConcat(prev, step);
      var before := map i | 0 <= i < n - 1 :: ts[i].id;
      StepBinds(n - 1, shader, name, v, ts[n - 1].id, ActiveAfter(prev, 0), before);
      assert before[n - 1 := ts[n - 1].id] == map i | 0 <= i < n :: ts[i].id;
    }
  }

  /** One iteration of the older loop binds its texture to its own unit,
      leaves that unit active, whichever unit was active before, and sets
      one uniform. */
  lemma StepBinds(u: nat, shader: nat, name: string, v: int, id: nat, active: nat, before: map<nat, nat>)
    ensures Bindings([ActiveTexture(u), SetUniformInt(shader, name, v), BindTexture(id)], active, before) == before[u := id]
    ensures ActiveAfter([ActiveTexture(u), SetUniformInt(shader, name, v), BindTexture(id)], active) == u
    ensures UniformValues([ActiveTexture(u), SetUniformInt(shader, name, v), BindTexture(id)]) == [v]
  {
    var step := [ActiveTexture(u), SetUniformInt(shader, name, v), BindTexture(id)];
    var s1 := [SetUniformInt(shader, name, v), BindTexture(id)];
    var s2 := [BindTexture(id)];
    assert step[1..] == s1 && s1[1..] == s2 && s2[1..] == [];
    assert Bindings(s2, u, before) == before[u := id];
    assert Bindings(step, active, before) == Bindings(s1, u, before) == Bindings(s2, u, before);
    assert ActiveAfter(step, active) == ActiveAfter(s1, u) == ActiveAfter(s2, u) == u;
    assert UniformValues(step) == UniformValues(s1) == [v] + UniformValues(s2);
    assert UniformValues(s2) == UniformValues([]) == [];
  }

  /** `Draw`: the texture loop numbering only diffuse and specular maps,
      then bind the vertex array, draw all indices, unbind it and make
      unit 0 active again. */
  method Draw(m: Mesh, shader: nat, g: Gpu) returns (r: Gpu)
    ensures r.arrays == g.arrays && r.buffers == g.buffers && r.textures == g.textures
    ensures r.calls == g.calls + TextureCalls(m.textures, shader, |m.textures|, true)
      + [BindVertexArray(m.vao), DrawElements(|m.indices|), BindVertexArray(0), ActiveTexture(0)]
  {
    var ts := m.textures;
    var diffuseNr, specularNr := 1, 1;
    r := g;
    var i := 0;
    while i < |ts|
      invariant 0 <= i <= |ts|
      invariant r.arrays == g.arrays && r.buffers == g.buffers && r.textures == g.textures
      invariant r.calls == g.calls + TextureCalls(ts, shader, i, true)
      invariant diffuseNr == 1 + Count(ts[..i], "texture_diffuse")
      invariant specularNr == 1 + Count(ts[..i], "texture_specular")
    {
      var name := ts[i].kind;
      CountStep(ts, i);
      var number := "";
      if name == "texture_diffuse" {
        number := Decimal.NatToString(diffuseNr);
        diffuseNr := diffuseNr + 1;
      } else if name == "texture_specular" {
        number := Decimal.NatToString(specularNr);
        specularNr := specularNr + 1;
      }
      var uniform := "material." + name + number;
      assert uniform == UniformName(ts, i, OlderNumbered);
      var step := [ActiveTexture(i), SetUniformInt(shader, uniform, Narrow(i)), BindTexture(ts[i].id)];
      assert TextureCalls(ts, shader, i + 1, true) == TextureCalls(ts, shader, i, true) + step;
      r := Emit(r, step);
      i := i + 1;
    }
    r := Emit(r, [BindVertexArray(m.vao), DrawElements(|m.indices|), BindVertexArray(0), ActiveTexture(0)]);
  }

  function DrawCalls(m: Mesh, shader: nat): seq<Call> {
    TextureCalls(m.textures, shader, |m.textures|, true)
      + [BindVertexArray(m.vao), DrawElements(|m.indices|), BindVertexArray(0), ActiveTexture(0)]
  }

  /** After `Draw` texture i is on unit i and unit 0 is active again. */
  lemma DrawLeavesUnitZero(m: Mesh, shader: nat)
    ensures Bindings(DrawCalls(m, shader), 0, map[]) == map i | 0 <= i < |m.textures| :: m.textures[i].id
    ensures ActiveAfter(DrawCalls(m, shader), 0) == 0
  {
    var tc := TextureCalls(m.textures, shader, |m.textures|, true);
    var tail := [BindVertexArray(m.vao), DrawElements(|m.indices|), BindVertexArray(0), ActiveTexture(0)];
    TextureCallsBind(m.textures, shader, |m.textures|, true);
    BindingsConcat(tc, tail, 0, map[]);
    var b := Bindings(tc, 0, map[]);
    var a := ActiveAfter(tc, 0);
    var t1, t2, t3 := tail[1..], tail[1..][1..], tail[1..][1..][1..];
    assert t3[1..] == [];
    assert Bindings(tail, a, b) == Bindings(t1, a, b) == Bindings(t2, a, b) == Bindings(t3, a, b) == b;
    assert ActiveAfter(tail, a) == ActiveAfter(t1, a) == ActiveAfter(t2, a) == ActiveAfter(t3, a) == 0;
  }

  /** As in the newer mesh, every uniform after the first names unit 1,
      which holds the second texture. */
  lemma SamplersAsWritten(m: Mesh, shader: nat)
    ensures var b := Bindings(DrawCalls(m, shader), 0, map[]);
      var us := UniformValues(DrawCalls(m, shader));
      && |us| == |m.textures|
      && (forall i | 0 <= i < |us| :: us[i] == if i == 0 then 0 else 1)
      && (|us| > 1 ==> 1 in b && b[1] == m.textures[1].id)
    ensures |m.textures| >= 3 && m.textures[1].id != m.textures[2].id ==>
      var b := Bindings(DrawCalls(m, shader), 0, map[]);
      UniformValues(DrawCalls(m, shader))[2] == 1 && b[1] != m.textures[2].id
  {
    var tc := TextureCalls(m.textures, shader, |m.textures|, true);
    var tail := [BindVertexArray(m.vao), DrawElements(|m.indices|), BindVertexArray(0), ActiveTexture(0)];
    DrawLeavesUnitZero(m, shader);
    TextureCallsBind(m.textures, shader, |m.textures|, true);
    UniformValuesConcat(tc, tail);
    var t1, t2, t3 := tail[1..], tail[1..][1..], tail[1..][1..][1..];
    assert t3[1..] == [];
    assert UniformValues(tail) == UniformValues(t1) == UniformValues(t2) == UniformValues(t3) == [];
  }

  /** With the index passed as an int, the uniform of texture i names unit
      i, which holds texture i. */
  lemma SamplersFixed(ts: seq<Texture>, shader: nat)
    ensures var calls := TextureCalls(ts, shader, |ts|, false);
      var b := Bindings(calls, 0, map[]);
      var us := UniformValues(calls);
      && |us| == |ts|
      && forall i | 0 <= i < |us| :: us[i] == i && i in b && b[i] == ts[i].id
  {
    TextureCallsBind(ts, shader, |ts|, false);
  }

  lemma {:induction false} TextureCallsDrawNothing(ts: seq<Texture>, shader: nat, n: nat, narrowed: bool)
    requires n <= |ts|
    ensures Draws(TextureCalls(ts, shader, n, narrowed)) == []
    decreases n
  {
    if n > 0 {
      var step := [ActiveTexture(n - 1),
                   SetUniformInt(shader, UniformName(ts, n - 1, OlderNumbered), RenderingMesh.Sampler(n - 1, narrowed)),
                   BindTexture(ts[n - 1].id)];
      TextureCallsDrawNothing(ts, shader, n - 1, narrowed);
      DrawsConcat(TextureCalls(ts, shader, n - 1, narrowed), step);
      assert step[1..][1..][1..] == [];
      assert Draws(step) == Draws(step[1..]) == Draws(step[1..][1..]) == Draws(step[1..][1..][1..]) == [];
    }
  }

  /** Drawing a mesh is one indexed draw of all its indices. */
  lemma DrawSubmitsOnce(m: Mesh, shader: nat)
    ensures Draws(DrawCalls(m, shader)) == [|m.indices|]
  {
    var tail := [BindVertexArray(m.vao), DrawElements(|m.indices|), BindVertexArray(0), ActiveTexture(0)];
    TextureCallsDrawNothing(m.textures, shader, |m.textures|, true);
    DrawsConcat(TextureCalls(m.textures, shader, |m.textures|, true), tail);
    var t1, t2, t3 := tail[1..], tail[1..][1..], tail[1..][1..][1..];
    assert t3[1..] == [];
    assert Draws(tail) == Draws(t1) == [|m.indices|] + Draws(t2);
    assert Draws(t2) == Draws(t3) == [];
  }
}
