/** Default-scene construction (Engine/src/Rendering/SceneManager.cpp).
    Compiling a shader reads files and links a GL program; the program
    handles are passed in. Vertex arrays and buffers are generated from
    the GPU state. */
module SceneManager {
  import opened Wrappers
  import opened Vectors
  import Material
  import Lighting
  import Camera
  import Decimal
  import BaseShapes
  import opened Scene
  import opened Gpu

  /** The cube table's vertex layout as declared: six floats per vertex,
      normals three floats in. */
  const Stride: nat := 6 * BaseShapes.FloatBytes
  const NormalOffset: nat := 3 * BaseShapes.FloatBytes

  const LightPosition: Vec3 := Vec3(3.3, 1.3, 0.3)

  /** The light the default scene adds. The call passes three attenuation
      coefficients to a constructor `Lighting.h` does not declare; the
      declared point-light constructor is used without them. */
  const DefaultPointLight: Lighting.Light :=
    Lighting.PointLight(LightPosition, Splat(0.2), Splat(2.0), Splat(2.0), true)

  const CubeMat: Material.Mat :=
    Material.New(Vec3(1.2, 0.7, 0.64), Vec3(1.73, 1.73, 1.72), 64.0, Vec3(1.0, 0.0, 1.0))
  const LampMat: Material.Mat :=
    Material.New(Vec3(1.2, 0.7, 0.64), Vec3(1.73, 1.73, 1.72), 64.0, One3)

  /** `AddModelToScene`: one fresh vertex array and one fresh buffer
      holding the cube table, then a cube at the origin and a small lamp
      cube at the light, both drawn from that array and named after the
      object count. */
  function AddModelToScene(s: Scene, g: Gpu, cubeShader: Shader, lampShader: Shader)
    : (r: (Scene, Gpu))
    ensures |r.0.objects| == |s.objects| + 2 && r.0.objects[..|s.objects|] == s.objects
    ensures r.0.(objects := s.objects) == s
    ensures var cube := r.0.objects[|s.objects|];
      var lamp := r.0.objects[|s.objects| + 1];
      && cube.isActive && lamp.isActive
      && cube.vao == lamp.vao == g.arrays && cube.vbo == lamp.vbo == g.buffers
      && cube.name == lamp.name == "default_cube_" + Decimal.NatToString(|s.objects|)
      && cube.position == Zero3 && cube.scale == One3 && cube.material == CubeMat
      && lamp.position == LightPosition && lamp.scale == Splat(0.2) && lamp.material == LampMat
      && cube.size == lamp.size == BaseShapes.CubeVerticesSize
      && r.1.calls == g.calls + [
           InitVertexArray(cube.vao),
           InitVertexBuffer(cube.vbo, BaseShapes.CubeVerticesSize),
           VertexAttributes(0, 3, Stride, 0),
           VertexAttributes(1, 3, Stride, NormalOffset)]
    ensures r.1.arrays == g.arrays + 1 && r.1.buffers == g.buffers + 1 && r.1.textures == g.textures
  {
    var (vao, g1) := Generate(g, VertexArrays);
    var (vbo, g2) := Generate(g1, Buffers);
    var g3 := Emit(g2, [
      InitVertexArray(vao),
      InitVertexBuffer(vbo, BaseShapes.CubeVerticesSize),
      VertexAttributes(0, 3, Stride, 0),
      VertexAttributes(1, 3, Stride, NormalOffset)]);
    var name := "default_cube_" + Decimal.NatToString(|s.objects|);
    var cube := SceneObject(true, vao, vbo, Zero3, Zero3, One3, CubeMat, name, cubeShader,
                            BaseShapes.CubeVerticesSize);
    var lamp := SceneObject(true, vao, vbo, LightPosition, Zero3, Splat(0.2), LampMat, name, lampShader,
                            BaseShapes.CubeVerticesSize);
    (s.(objects := s.objects + [cube, lamp]), g3)
  }

  /** `LoadDefaultScene`: scene 0 with the grid shader, one camera that is
      also the active one, one point light, the grid on, then the two
      cubes. The directional light is built but never added. */
  function LoadDefaultScene(g: Gpu, gridShader: Shader, cubeShader: Shader, lampShader: Shader)
    : (r: (Scene, Gpu))
    ensures r.0.sceneID == 0 && r.0.isGridEnabled && r.0.shaders == [gridShader]
    ensures |r.0.cameras| == 1 && ActiveCamera(r.0) == Some(r.0.cameras[0])
    ensures r.0.cameras[0].position == Vec3(0.0, 10.0, 20.0)
    ensures r.0.cameras[0].front == Vec3(0.0, 0.0, -1.0) && r.0.cameras[0].up == Vec3(0.0, 1.0, 0.0)
    ensures Lighting.GetLights(r.0.lighting) == [DefaultPointLight]
    ensures |r.0.objects| == 2 && r.0.objects[0].name == r.0.objects[1].name == "default_cube_0"
    ensures r.0.background == DefaultScene().background
  {
    var camera := Camera.New(Vec3(0.0, 10.0, 20.0), Vec3(0.0, 0.0, -1.0), Vec3(0.0, 1.0, 0.0));
    var lighting := Lighting.AddLight(Lighting.Empty, DefaultPointLight);
    var s := DefaultScene().(sceneID := 0, shaders := [gridShader], cameras := [camera],
                             activeCamera := Some(0), lighting := lighting, isGridEnabled := true);
    assert Decimal.NatToString(0) == "0";
    AddModelToScene(s, g, cubeShader, lampShader)
  }

  /** The lamp cube sits where the scene's only light is. */
  lemma LampAtLight(g: Gpu, gridShader: Shader, cubeShader: Shader, lampShader: Shader)
    ensures var s := LoadDefaultScene(g, gridShader, cubeShader, lampShader).0;
      && Lighting.GetLights(s.lighting)[0].position == Some(s.objects[1].position)
      && Lighting.GetLights(s.lighting)[0].kind == Lighting.Point
  {
  }

  /** The declared layout reads the cube table correctly: with the stride
      and offsets the attribute calls give, attribute 0 of vertex `i` is
      that vertex's position and attribute 1 its normal, and the uploaded
      byte count is exactly the 36 vertices at that stride. */
  lemma LayoutMatchesCube(i: nat)
    requires i < |BaseShapes.Cube|
    ensures var fs := BaseShapes.LitFloats(BaseShapes.Cube);
      var at := (i * Stride) / BaseShapes.FloatBytes;
      var nrm := (i * Stride + NormalOffset) / BaseShapes.FloatBytes;
      && fs[at..at + 3] == BaseShapes.PointFloats(BaseShapes.Cube[i].pos)
      && fs[nrm..nrm + 3] == BaseShapes.PointFloats(BaseShapes.Cube[i].normal)
    ensures BaseShapes.CubeVerticesSize == |BaseShapes.Cube| * Stride
  {
    BaseShapes.LitFloatsLayout(BaseShapes.Cube, i);
    BaseShapes.TableSizes();
    assert (i * Stride) / BaseShapes.FloatBytes == 6 * i;
    assert (i * Stride + NormalOffset) / BaseShapes.FloatBytes == 6 * i + 3;
  }
}
