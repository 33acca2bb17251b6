/** Surface parameters (Engine/src/Rendering/Include/Material.h). */
module Material {
  import opened Vectors

  datatype Mat = Mat(diffuse: Vec3, specular: Vec3, shininess: real, baseColour: Vec3)

  /** `Mat()`: black diffuse and specular, shininess 1, green base colour. */
  function Default(): (m: Mat)
    ensures m.diffuse == Zero3 && m.specular == Zero3
    ensures m.shininess == 1.0
    ensures m.baseColour == Vec3(0.0, 1.0, 0.0)
  {
    Mat(Zero3, Zero3, 1.0, Vec3(0.0, 1.0, 0.0))
  }

  /** `Mat(diffuse, specular, shininess, baseColour)` stores its arguments. */
  function New(diffuse: Vec3, specular: Vec3, shininess: real, baseColour: Vec3): (m: Mat)
    ensures m.diffuse == diffuse && m.specular == specular
    ensures m.shininess == shininess && m.baseColour == baseColour
  {
    Mat(diffuse, specular, shininess, baseColour)
  }

  /** The four-argument constructor can rebuild any material, the default
      one included. */
  lemma NewRebuilds(m: Mat)
    ensures New(m.diffuse, m.specular, m.shininess, m.baseColour) == m
    ensures New(Zero3, Zero3, 1.0, Vec3(0.0, 1.0, 0.0)) == Default()
  {
  }
}

/** The light list of a scene (Engine/src/Rendering/Include/Lighting.h).
    Each constructor leaves one field uninitialised: the directional one
    the position, the point one the direction. Those are `None` here. */
module Lighting {
  import opened Wrappers
  import opened Vectors

  datatype LightType = Directional | Point

  datatype Light = Light(
    kind: LightType,
    direction: Option<real>,
    ambient: Vec3,
    diffuse: Vec3,
    specular: Vec3,
    position: Option<Vec3>,
    isActive: bool)

  /** `Light(float dir, amb, diff, spec, active)`. */
  function DirectionalLight(dir: real, amb: Vec3, diff: Vec3, spec: Vec3, active: bool): (l: Light)
    ensures l.kind == Directional && l.direction == Some(dir) && l.position == None
    ensures l.ambient == amb && l.diffuse == diff && l.specular == spec && l.isActive == active
  {
    Light(Directional, Some(dir), amb, diff, spec, None, active)
  }

  /** `Light(vec3 pos, amb, diff, spec, active)`. */
  function PointLight(pos: Vec3, amb: Vec3, diff: Vec3, spec: Vec3, active: bool): (l: Light)
    ensures l.kind == Point && l.position == Some(pos) && l.direction == None
    ensures l.ambient == amb && l.diffuse == diff && l.specular == spec && l.isActive == active
  {
    Light(Point, None, amb, diff, spec, Some(pos), active)
  }

  datatype Lighting = Lighting(lights: seq<Light>)

  const Empty: Lighting := Lighting([])

  /** `AddLight`: appended, with no deduplication and no limit. */
  function AddLight(l: Lighting, light: Light): (r: Lighting)
    ensures |r.lights| == |l.lights| + 1
    ensures r.lights[..|l.lights|] == l.lights && r.lights[|l.lights|] == light
  {
    Lighting(l.lights + [light])
  }

  /** `GetLights`: every light, in insertion order. */
  function GetLights(l: Lighting): (ls: seq<Light>)
    ensures |ls| == |l.lights| && forall i | 0 <= i < |ls| :: ls[i] == l.lights[i]
  {
    l.lights
  }

  /** Adding lights one at a time, front to back. */
  function AddLights(l: Lighting, ls: seq<Light>): Lighting
    decreases |ls|
  {
    if |ls| == 0 then l else AddLights(AddLight(l, ls[0]), ls[1..])
  }

  /** After adding a run of lights, `GetLights` returns what was there
      followed by that run, duplicates included. */
  lemma {:induction false} AddLightsThenGet(l: Lighting, ls: seq<Light>)
    ensures GetLights(AddLights(l, ls)) == GetLights(l) + ls
    decreases |ls|
  {
    if |ls| > 0 {
      AddLightsThenGet(AddLight(l, ls[0]), ls[1..]);
      assert GetLights(l) + [ls[0]] + ls[1..] == GetLights(l) + ls;
    }
  }

  /** From an empty list, `GetLights` returns exactly the lights added. */
  lemma GetFromEmpty(ls: seq<Light>)
    ensures GetLights(AddLights(Empty, ls)) == ls
  {
    AddLightsThenGet(Empty, ls);
  }
}

/** Scene value types (Engine/src/Rendering/Include/Scene.h). A shader is
    a GL program handle. */
module Scene {
  import opened Wrappers
  import opened Vectors
  import Material
  import Lighting
  import Camera

  datatype Shader = Shader(id: nat)

  datatype SceneObject = SceneObject(
    isActive: bool,
    vao: nat,
    vbo: nat,
    position: Vec3,
    rotation: Vec3,
    scale: Vec3,
    material: Material.Mat,
    name: string,
    shader: Shader,
    size: nat)

  /** A default-constructed `SceneObject`. `isActive`, `size` and the
      shader's id have no initialiser, so whatever they hold is passed in. */
  function DefaultObject(isActive: bool, shader: Shader, size: nat): (o: SceneObject)
    ensures o.vao == 0 && o.vbo == 0
    ensures o.position == Zero3 && o.rotation == Zero3 && o.scale == One3
    ensures o.material == Material.Default() && o.name == ""
    ensures o.isActive == isActive && o.shader == shader && o.size == size
  {
    SceneObject(isActive, 0, 0, Zero3, Zero3, One3, Material.Default(), "", shader, size)
  }

  /** `SceneObject::Clear`. The shader line declares a fresh local instead
      of assigning the member, so the shader, like the material, survives. */
  function Clear(o: SceneObject): (r: SceneObject)
    ensures !r.isActive && r.vao == 0 && r.vbo == 0 && r.size == 0
    ensures r.position == Zero3 && r.rotation == Zero3 && r.scale == One3 && r.name == ""
    ensures r.material == o.material && r.shader == o.shader
  {
    o.(isActive := false, vao := 0, vbo := 0, position := Zero3, rotation := Zero3,
       scale := One3, name := "", size := 0)
  }

  /** Clearing twice is clearing once. */
  lemma ClearIdempotent(o: SceneObject)
    ensures Clear(Clear(o)) == Clear(o)
  {
  }

  /** `Clear` forgets everything but the material and the shader: two
      objects that share those clear to the same value, which is a
      default object with the material kept. */
  lemma ClearForgets(a: SceneObject, b: SceneObject)
    requires a.material == b.material && a.shader == b.shader
    ensures Clear(a) == Clear(b)
    ensures Clear(a) == DefaultObject(false, a.shader, 0).(material := a.material)
  {
  }

  /** `Scene`. `activeCamera` is the index in `cameras` of the camera the
      shared pointer designates, `None` for null. */
  datatype Scene = Scene(
    sceneID: int,
    shaders: seq<Shader>,
    cameras: seq<Camera.Camera>,
    activeCamera: Option<nat>,
    objects: seq<SceneObject>,
    lighting: Lighting.Lighting,
    background: Vec4,
    isGridEnabled: bool)

  /** `Scene()`: everything empty or null, a dark grey background, the grid
      on. */
  function DefaultScene(): (s: Scene)
    ensures s.sceneID == 0
    ensures s.shaders == [] && s.cameras == [] && s.objects == []
    ensures s.activeCamera == None && Lighting.GetLights(s.lighting) == []
    ensures s.background == Vec4(0.15, 0.15, 0.15, 1.0) && s.isGridEnabled
  {
    Scene(0, [], [], None, [], Lighting.Empty, Vec4(0.15, 0.15, 0.15, 1.0), true)
  }

  /** The active camera, when the pointer is set and designates one of the
      scene's cameras. */
  function ActiveCamera(s: Scene): (c: Option<Camera.Camera>)
    ensures c.Some? <==> s.activeCamera.Some? && s.activeCamera.value < |s.cameras|
    ensures c.Some? ==> c.value == s.cameras[s.activeCamera.value]
  {
    if s.activeCamera.Some? && s.activeCamera.value < |s.cameras| then Some(s.cameras[s.activeCamera.value]) else None
  }
}
