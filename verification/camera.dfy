/** The fly camera (Engine/src/Renderer/Include/Camera.h). Vectors are
    exact `real` triples. `m_CameraDirection` has no initialiser, so it is
    `None` until set. The left/right moves need
    `normalize(cross(front, up))`; that vector is supplied by the caller. */
module Camera {
  import opened Wrappers
  import opened Vectors

  datatype Camera = Camera(
    position: Vec3,
    front: Vec3,
    up: Vec3,
    direction: Option<Vec3>,
    pitch: real,
    yaw: real,
    fov: real,
    speed: real,
    connected: bool)

  /** The constructor stores the three vectors; everything else takes its
      in-class default. */
  function New(pos: Vec3, front: Vec3, up: Vec3): (c: Camera)
    ensures c.position == pos && c.front == front && c.up == up
    ensures c.direction == None
    ensures c.pitch == 0.0 && c.yaw == -90.0 && c.fov == 65.0 && c.speed == 10.0
    ensures c.connected
  {
    Camera(pos, front, up, None, 0.0, -90.0, 65.0, 10.0, true)
  }

  function SetPosition(c: Camera, v: Vec3): Camera { c.(position := v) }
  function SetFront(c: Camera, v: Vec3): Camera { c.(front := v) }
  function SetUp(c: Camera, v: Vec3): Camera { c.(up := v) }
  function SetPitch(c: Camera, v: real): Camera { c.(pitch := v) }
  function SetYaw(c: Camera, v: real): Camera { c.(yaw := v) }
  function SetFov(c: Camera, v: real): Camera { c.(fov := v) }
  function SetSpeed(c: Camera, v: real): Camera { c.(speed := v) }
  function SetDirection(c: Camera, v: Vec3): Camera { c.(direction := Some(v)) }
  function SetConnected(c: Camera, b: bool): Camera { c.(connected := b) }

  /** Each setter is read back by its getter and changes no other field. */
  lemma SettersFrame(c: Camera, v: Vec3, x: real, b: bool)
    ensures SetPosition(c, v).position == v && SetPosition(c, v).(position := c.position) == c
    ensures SetFront(c, v).front == v && SetFront(c, v).(front := c.front) == c
    ensures SetUp(c, v).up == v && SetUp(c, v).(up := c.up) == c
    ensures SetPitch(c, x).pitch == x && SetPitch(c, x).(pitch := c.pitch) == c
    ensures SetYaw(c, x).yaw == x && SetYaw(c, x).(yaw := c.yaw) == c
    ensures SetFov(c, x).fov == x && SetFov(c, x).(fov := c.fov) == c
    ensures SetSpeed(c, x).speed == x && SetSpeed(c, x).(speed := c.speed) == c
    ensures SetDirection(c, v).direction == Some(v) && SetDirection(c, v).(direction := c.direction) == c
    ensures SetConnected(c, b).connected == b && SetConnected(c, b).(connected := c.connected) == c
  {
  }

  datatype Move = Forward | Backward | Left | Right

  function Scale(k: real, v: Vec3): Vec3 { Vec3(k * v.x, k * v.y, k * v.z) }
  function Add(a: Vec3, b: Vec3): Vec3 { Vec3(a.x + b.x, a.y + b.y, a.z + b.z) }
  function Sub(a: Vec3, b: Vec3): Vec3 { Vec3(a.x - b.x, a.y - b.y, a.z - b.z) }

  /** `OnMove*`: a step of `speed * deltaTime` along the front vector, or
      along `side` (the normalised cross product of front and up). Only
      the position changes. */
  function OnMove(c: Camera, m: Move, deltaTime: real, side: Vec3): (r: Camera)
    ensures r.(position := c.position) == c
    ensures m == Forward ==> Sub(r.position, c.position) == Scale(c.speed * deltaTime, c.front)
    ensures m == Backward ==> Sub(c.position, r.position) == Scale(c.speed * deltaTime, c.front)
    ensures m == Left ==> Sub(c.position, r.position) == Scale(c.speed * deltaTime, side)
    ensures m == Right ==> Sub(r.position, c.position) == Scale(c.speed * deltaTime, side)
  {
    var step := c.speed * deltaTime;
    match m
    case Forward => c.(position := Add(c.position, Scale(step, c.front)))
    case Backward => c.(position := Sub(c.position, Scale(step, c.front)))
    case Left => c.(position := Sub(c.position, Scale(step, side)))
    case Right => c.(position := Add(c.position, Scale(step, side)))
  }

  /** Opposite moves over the same frame time cancel out. */
  lemma OppositeMovesCancel(c: Camera, deltaTime: real, side: Vec3)
    ensures OnMove(OnMove(c, Forward, deltaTime, side), Backward, deltaTime, side) == c
    ensures OnMove(OnMove(c, Left, deltaTime, side), Right, deltaTime, side) == c
  {
  }
}
