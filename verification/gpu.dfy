/** The graphics calls the engine makes, as a log. GL draws the names it
    generates from separate name spaces, one for vertex arrays, one for
    buffers and one for textures; each is modelled as its own counter, so
    two allocations in the same name space get distinct names while a
    vertex array and a buffer may share one. */
module Gpu {
  import opened Wrappers

  datatype Format = Red | RGB | RGBA

  datatype TextureParameterName = TextureWrapS | TextureWrapT | TextureFilteringMin | TextureFilteringMag
  datatype TextureParameter = Repeat | LinearMipmapLinear | Linear

  datatype Call =
    | InitVertexArray(vao: nat)
    | InitVertexBuffer(vbo: nat, bytes: nat)
    | InitElementBuffer(ebo: nat, bytes: nat)
      /** `index`, component count, stride and offset in bytes. */
    | VertexAttributes(index: nat, count: nat, stride: nat, offset: nat)
    | BindVertexArray(vao: nat)
    | CreateTexture(texture: nat)
      /** `None` is the uninitialised format an unexpected channel count leaves. */
    | UploadTexture(width: int, height: int, format: Option<Format>)
    | SetTextureParameter(parameter: TextureParameterName, setting: TextureParameter)
      /** `BindTexture(Texture0 + unit, Texture2D, id)`: makes the unit
          active, then binds the texture to it. The Rendering module's
          `ToOpenGLTexture` is declared in a header that is not part of this
          model; it is taken to map `Texture0 + unit` to `GL_TEXTURE0 + unit`. */
    | BindTextureUnit(unit: nat, texture: nat)
      /** `glActiveTexture(GL_TEXTURE0 + unit)`. */
    | ActiveTexture(unit: nat)
      /** `glBindTexture(GL_TEXTURE_2D, id)`: binds to the active unit. */
    | BindTexture(texture: nat)
      /** `glUniform1i` with the value the call reached it with. */
    | SetUniformInt(shader: nat, name: string, value: int)
      /** Bind the vertex array, draw `count` indices, unbind it and make
          unit 0 active again. */
    | SubmitDrawCommands(shader: nat, vao: nat, count: nat)
    | DrawElements(count: nat)

  datatype Namespace = VertexArrays | Buffers | Textures

  /** The next unused name in each name space, and the calls so far. */
  datatype Gpu = Gpu(arrays: nat, buffers: nat, textures: nat, calls: seq<Call>)

  function Next(g: Gpu, ns: Namespace): nat {
    match ns
    case VertexArrays => g.arrays
    case Buffers => g.buffers
    case Textures => g.textures
  }

  /** A name no earlier allocation in the same name space returned; the
      other name spaces and the log are untouched. */
  function Generate(g: Gpu, ns: Namespace): (r: (nat, Gpu))
    ensures r.0 == Next(g, ns) && Next(r.1, ns) == Next(g, ns) + 1
    ensures forall other: Namespace | other != ns :: Next(r.1, other) == Next(g, other)
    ensures r.1.calls == g.calls
  {
    match ns
    case VertexArrays => (g.arrays, g.(arrays := g.arrays + 1))
    case Buffers => (g.buffers, g.(buffers := g.buffers + 1))
    case Textures => (g.textures, g.(textures := g.textures + 1))
  }

  /** Names handed out one after another from one name space differ. */
  lemma GenerateFresh(g: Gpu, ns: Namespace)
    ensures var (a, g1) := Generate(g, ns); var (b, _) := Generate(g1, ns); a != b
  {
  }

  function Emit(g: Gpu, cs: seq<Call>): (r: Gpu)
    ensures r.arrays == g.arrays && r.buffers == g.buffers && r.textures == g.textures
    ensures r.calls == g.calls + cs
  {
    g.(calls := g.calls + cs)
  }

  /** The texture each unit holds after the calls, given the unit that was
      active and the bindings before them. Both ways of binding are
      interpreted: an explicit unit, or the unit last made active. */
  function Bindings(calls: seq<Call>, active: nat, bound: map<nat, nat>): (r: map<nat, nat>)
    decreases |calls|
  {
    if |calls| == 0 then bound
    else match calls[0]
      case ActiveTexture(u) => Bindings(calls[1..], u, bound)
      case BindTexture(t) => Bindings(calls[1..], active, bound[active := t])
      case BindTextureUnit(u, t) => Bindings(calls[1..], u, bound[u := t])
      case SubmitDrawCommands(_, _, _) => Bindings(calls[1..], 0, bound)
      case _ => Bindings(calls[1..], active, bound)
  }

  /** The unit left active after the calls. */
  function ActiveAfter(calls: seq<Call>, active: nat): nat
    decreases |calls|
  {
    if |calls| == 0 then active
    else match calls[0]
      case ActiveTexture(u) => ActiveAfter(calls[1..], u)
      case BindTextureUnit(u, _) => ActiveAfter(calls[1..], u)
      case SubmitDrawCommands(_, _, _) => ActiveAfter(calls[1..], 0)
      case _ => ActiveAfter(calls[1..], active)
  }

  /** The bool parameter `SetUniformInt` declares: an int argument reaches
      GL as 0 when it was 0 and as 1 otherwise. */
  function Narrow(i: int): (b: int)
    ensures b == 0 || b == 1
    ensures b == 0 <==> i == 0
  {
    if i == 0 then 0 else 1
  }

  /** The values the `SetUniformInt` calls pass, in order. */
  function UniformValues(calls: seq<Call>): seq<int>
    decreases |calls|
  {
    if |calls| == 0 then []
    else match calls[0]
      case SetUniformInt(_, _, v) => [v] + UniformValues(calls[1..])
      case _ => UniformValues(calls[1..])
  }

  lemma {:induction false} UniformValuesConcat(a: seq<Call>, b: seq<Call>)
    ensures UniformValues(a + b) == UniformValues(a) + UniformValues(b)
    decreases |a|
  {
    if |a| > 0 {
      assert (a + b)[1..] == a[1..] + b;
      UniformValuesConcat(a[1..], b);
    } else {
      assert a + b == b;
    }
  }

  /** Interpreting a concatenation is interpreting its halves in turn. */
  lemma {:induction false} BindingsConcat(a: seq<Call>, b: seq<Call>, active: nat, bound: map<nat, nat>)
    ensures Bindings(a + b, active, bound) == Bindings(b, ActiveAfter(a, active), Bindings(a, active, bound))
    ensures ActiveAfter(a + b, active) == ActiveAfter(b, ActiveAfter(a, active))
    decreases |a|
  {
    if |a| > 0 {
      assert (a + b)[1..] == a[1..] + b;
      match a[0]
      case ActiveTexture(u) => BindingsConcat(a[1..], b, u, bound);
      case BindTexture(t) => BindingsConcat(a[1..], b, active, bound[active := t]);
      case BindTextureUnit(u, t) => BindingsConcat(a[1..], b, u, bound[u := t]);
      case SubmitDrawCommands(_, _, _) => BindingsConcat(a[1..], b, 0, bound);
      case _ => BindingsConcat(a[1..], b, active, bound);
    } else {
      assert a + b == b;
    }
  }

  /** The vertex-attribute configuration the calls leave: for each index,
      the last `VertexAttributes` call for it. */
  function Attributes(calls: seq<Call>, config: map<nat, Call>): (r: map<nat, Call>)
    decreases |calls|
  {
    if |calls| == 0 then config
    else match calls[0]
      case VertexAttributes(i, _, _, _) => Attributes(calls[1..], config[i := calls[0]])
      case _ => Attributes(calls[1..], config)
  }

  /** The index counts drawn, in order: one entry per `SubmitDrawCommands`
      or `DrawElements` call. */
  function Draws(calls: seq<Call>): seq<nat>
    decreases |calls|
  {
    if |calls| == 0 then []
    else match calls[0]
      case SubmitDrawCommands(_, _, count) => [count] + Draws(calls[1..])
      case DrawElements(count) => [count] + Draws(calls[1..])
      case _ => Draws(calls[1..])
  }

  lemma {:induction false} DrawsConcat(a: seq<Call>, b: seq<Call>)
    ensures Draws(a + b) == Draws(a) + Draws(b)
    decreases |a|
  {
    if |a| > 0 {
      assert (a + b)[1..] == a[1..] + b;
      DrawsConcat(a[1..], b);
    } else {
      assert a + b == b;
    }
  }

  /** How many `VertexAttributes` calls configure index `i`. */
  function ConfigCount(calls: seq<Call>, i: nat): nat
    decreases |calls|
  {
    if |calls| == 0 then 0
    else (if calls[0].VertexAttributes? && calls[0].index == i then 1 else 0) + ConfigCount(calls[1..], i)
  }

  /** No two attribute calls in `calls` name the same index. */
  predicate DistinctIndices(calls: seq<Call>) {
    forall k, l | 0 <= k < l < |calls| && calls[k].VertexAttributes? && calls[l].VertexAttributes? ::
      calls[k].index != calls[l].index
  }

  /** Some attribute call in `calls` names index `i`. */
  predicate Configures(calls: seq<Call>, i: nat) {
    exists k | 0 <= k < |calls| :: calls[k].VertexAttributes? && calls[k].index == i
  }

  /** When no index repeats, each index is configured once or not at all,
      and the configuration left for a configured index is its one call. */
  lemma {:induction false} DistinctConfiguredOnce(calls: seq<Call>, i: nat, config: map<nat, Call>)
    requires DistinctIndices(calls)
    ensures ConfigCount(calls, i) == if Configures(calls, i) then 1 else 0
    ensures forall k | 0 <= k < |calls| && calls[k].VertexAttributes? && calls[k].index == i ::
      i in Attributes(calls, config) && Attributes(calls, config)[i] == calls[k]
    decreases |calls|
  {
    if |calls| > 0 {
      var rest := calls[1..];
      assert DistinctIndices(rest) by {
        forall k, l | 0 <= k < l < |rest| && rest[k].VertexAttributes? && rest[l].VertexAttributes?
          ensures rest[k].index != rest[l].index
        {
          assert rest[k] == calls[k + 1] && rest[l] == calls[l + 1];
        }
      }
      var c := calls[0];
      var config' := if c.VertexAttributes? then config[c.index := c] else config;
      DistinctConfiguredOnce(rest, i, config');
      if c.VertexAttributes? && c.index == i {
        forall k | 0 <= k < |rest|
          ensures !(rest[k].VertexAttributes? && rest[k].index == i)
        {
          assert rest[k] == calls[k + 1];
        }
        assert Configures(calls, i) by { assert calls[0] == c; }
      } else {
        assert Configures(calls, i) <==> Configures(rest, i) by {
          if Configures(calls, i) {
            var k :| 0 <= k < |calls| && calls[k].VertexAttributes? && calls[k].index == i;
            assert k > 0 && rest[k - 1] == calls[k];
          }
          if Configures(rest, i) {
            var k :| 0 <= k < |rest| && rest[k].VertexAttributes? && rest[k].index == i;
            assert calls[k + 1] == rest[k];
          }
        }
      }
      forall k | 0 <= k < |calls| && calls[k].VertexAttributes? && calls[k].index == i
        ensures i in Attributes(calls, config) && Attributes(calls, config)[i] == calls[k]
      {
        if k > 0 {
          assert rest[k - 1] == calls[k];
        } else {
          forall j | 0 <= j < |rest|
            ensures !(rest[j].VertexAttributes? && rest[j].index == i)
          {
            assert rest[j] == calls[j + 1];
          }
          AttributesKeeps(rest, i, config');
        }
      }
    }
  }

  /** An index no call configures keeps whatever configuration it had. */
  lemma {:induction false} AttributesKeeps(calls: seq<Call>, i: nat, config: map<nat, Call>)
    requires !Configures(calls, i)
    ensures i in config ==> i in Attributes(calls, config) && Attributes(calls, config)[i] == config[i]
    ensures i !in config ==> i !in Attributes(calls, config)
    decreases |calls|
  {
    if |calls| > 0 {
      var rest := calls[1..];
      forall k | 0 <= k < |rest|
        ensures !(rest[k].VertexAttributes? && rest[k].index == i)
      {
        assert rest[k] == calls[k + 1];
      }
      assert !(calls[0].VertexAttributes? && calls[0].index == i);
      var c := calls[0];
      var config' := if c.VertexAttributes? then config[c.index := c] else config;
      AttributesKeeps(rest, i, config');
    }
  }

  lemma {:induction false} AttributesConcat(a: seq<Call>, b: seq<Call>, config: map<nat, Call>)
    ensures Attributes(a + b, config) == Attributes(b, Attributes(a, config))
    decreases |a|
  {
    if |a| > 0 {
      assert (a + b)[1..] == a[1..] + b;
      var c := a[0];
      AttributesConcat(a[1..], b, if c.VertexAttributes? then config[c.index := c] else config);
    } else {
      assert a + b == b;
    }
  }

  /** Calls that configure no attribute leave the configuration alone. */
  lemma {:induction false} AttributesIgnore(calls: seq<Call>, config: map<nat, Call>)
    requires forall k | 0 <= k < |calls| :: !calls[k].VertexAttributes?
    ensures Attributes(calls, config) == config
    decreases |calls|
  {
    if |calls| > 0 {
      assert forall k | 0 <= k < |calls[1..]| :: calls[1..][k] == calls[k + 1];
      AttributesIgnore(calls[1..], config);
    }
  }
}
