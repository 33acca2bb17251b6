/** The window's input handling (Engine/src/Core/Window.cpp): `SetVSync`,
    the eight dispatcher subscriptions made by `SetupInitEvents`, the camera
    control state machine those handlers implement, and `TerminateWindow`.
    GLFW calls are recorded as effects. The frame time, the side vector for
    strafing and the yaw/pitch -> direction trigonometry are parameters. */
module Window {
  import opened Wrappers
  import opened Vectors
  import opened Events
  import EventDispatcher
  import EventQueue
  import Camera

  // GLFW constants the handlers compare against (glfw3.h).
  const GLFW_RELEASE: int := 0
  const GLFW_PRESS: int := 1
  const GLFW_REPEAT: int := 2
  const GLFW_KEY_A: int := 65
  const GLFW_KEY_D: int := 68
  const GLFW_KEY_S: int := 83
  const GLFW_KEY_W: int := 87
  const GLFW_KEY_ESCAPE: int := 256
  const GLFW_MOUSE_BUTTON_MIDDLE: int := 2

  datatype CursorMode = CursorNormal | CursorDisabled

  /** Native calls the window makes, in order. */
  datatype Effect =
    | SwapInterval(interval: int)
    | SetInputMode(mode: CursorMode)
    | SetViewport(width: int, height: int)
    | SetWindowShouldClose

  /** The callbacks held by the dispatcher: one per type the window
      subscribes, and callbacks of other subscribers. */
  datatype Callback = WindowHandler(handles: EventType) | Foreign(id: nat)

  /** The window's own state. `controller` is `m_CameraController`, which
      may be null. */
  datatype Window = Window(
    controller: Option<Camera.Camera>,
    firstMouse: bool,
    lastX: real,
    lastY: real,
    sensitivity: real,
    vsync: bool,
    subscribed: seq<EventType>,
    effects: seq<Effect>)

  /** A handler dereferenced the null camera controller. */
  datatype Fault = NullController

  /** The environment a handler runs in: the frame time of the `Time`
      singleton, the strafing vector for a camera, and the direction the
      trigonometry at lines 367-376 derives from yaw and pitch. */
  datatype Env = Env(deltaTime: real, sideOf: Camera.Camera -> Vec3, directionOf: (real, real) -> Vec3)

  /** `SetVSync`: swap interval 1 exactly when enabled; the flag is kept. */
  function SetVSync(w: Window, enabled: bool): (r: Window)
    ensures r.vsync == enabled
    ensures r.effects == w.effects + [SwapInterval(if enabled then 1 else 0)]
    ensures r.(vsync := w.vsync, effects := w.effects) == w
  {
    w.(vsync := enabled, effects := w.effects + [SwapInterval(if enabled then 1 else 0)])
  }

  predicate Connected(w: Window) {
    w.controller.Some? && w.controller.value.connected
  }

  function Clamp(v: real, lo: real, hi: real): (r: real)
    requires lo <= hi
    ensures lo <= r <= hi
    ensures lo <= v <= hi ==> r == v
    ensures v < lo ==> r == lo
    ensures v > hi ==> r == hi
  {
    var a := if v < lo then lo else v;
    if a > hi then hi else a
  }

  function MoveFor(key: int): Option<Camera.Move> {
    if key == GLFW_KEY_W then Some(Camera.Forward)
    else if key == GLFW_KEY_S then Some(Camera.Backward)
    else if key == GLFW_KEY_A then Some(Camera.Left)
    else if key == GLFW_KEY_D then Some(Camera.Right)
    else None
  }

  /** The W/S/A/D block shared by PRESS and REPEAT. */
  function MoveCamera(w: Window, key: int, env: Env): (r: Window)
    ensures !Connected(w) || MoveFor(key).None? ==> r == w
    ensures r.controller.Some? <==> w.controller.Some?
    ensures r.controller.Some? ==> r.controller.value.(position := w.controller.value.position) == w.controller.value
    ensures r.(controller := w.controller) == w
  {
    if Connected(w) && MoveFor(key).Some? then
      var c := w.controller.value;
      w.(controller := Some(Camera.OnMove(c, MoveFor(key).value, env.deltaTime, env.sideOf(c))))
    else w
  }

  /** The key handler. On PRESS the moves run first; then ESC flips the
      connection, releasing the cursor and arming `m_FirstMouse` when it
      disconnects. The ESC test dereferences the controller unchecked. */
  function OnKey(w: Window, key: int, action: int, env: Env): (r: Result<Window, Fault>)
    ensures r.Err? <==> action == GLFW_PRESS && key == GLFW_KEY_ESCAPE && w.controller.None?
  {
    if action == GLFW_PRESS then
      var m := MoveCamera(w, key, env);
      if key == GLFW_KEY_ESCAPE then
        if m.controller.None? then Err(NullController)
        else if m.controller.value.connected then
          Ok(m.(controller := Some(Camera.SetConnected(m.controller.value, false)),
                firstMouse := true,
                effects := m.effects + [SetInputMode(CursorNormal)]))
        else
          Ok(m.(controller := Some(Camera.SetConnected(m.controller.value, true)),
                effects := m.effects + [SetInputMode(CursorDisabled)]))
      else Ok(m)
    else if action == GLFW_REPEAT then Ok(MoveCamera(w, key, env))
    else Ok(w)
  }

  /** ESC flips the connection only on PRESS; going from connected to
      disconnected also arms `m_FirstMouse`. */
  lemma EscapeToggles(w: Window, action: int, env: Env)
    requires w.controller.Some?
    ensures var r := OnKey(w, GLFW_KEY_ESCAPE, action, env);
      && r.Ok?
      && r.value.controller.Some?
      && (action == GLFW_PRESS ==> r.value.controller.value.connected == !w.controller.value.connected)
      && (action != GLFW_PRESS ==> r.value == w)
      && (action == GLFW_PRESS && w.controller.value.connected ==> r.value.firstMouse)
      && (action == GLFW_PRESS && !w.controller.value.connected ==> r.value.firstMouse == w.firstMouse)
  {
  }

  /** Only a present, connected controller moves, and only for W/S/A/D on
      PRESS or REPEAT; nothing but the camera position can change. */
  lemma MovesNeedConnection(w: Window, key: int, action: int, env: Env)
    requires key != GLFW_KEY_ESCAPE
    ensures OnKey(w, key, action, env).Ok?
    ensures var r := OnKey(w, key, action, env).value;
      && (!Connected(w) || MoveFor(key).None? || (action != GLFW_PRESS && action != GLFW_REPEAT) ==> r == w)
      && r.(controller := w.controller) == w
  {
  }

  /** The mouse-button handler: a middle PRESS while connected resets the
      field of view to 65. */
  function OnMouseButton(w: Window, button: int, action: int): (r: Window)
    ensures Connected(w) && action == GLFW_PRESS && button == GLFW_MOUSE_BUTTON_MIDDLE ==>
      r.controller == Some(w.controller.value.(fov := 65.0))
    ensures !(Connected(w) && action == GLFW_PRESS && button == GLFW_MOUSE_BUTTON_MIDDLE) ==> r == w
  {
    if action == GLFW_PRESS && Connected(w) && button == GLFW_MOUSE_BUTTON_MIDDLE then
      w.(controller := Some(Camera.SetFov(w.controller.value, 65.0)))
    else w
  }

  /** The scroll handler: `fov - yOffset`, pulled back into [1, 120], only
      while connected. */
  function OnScroll(w: Window, xOffset: int, yOffset: int): (r: Window)
    ensures !Connected(w) ==> r == w
    ensures Connected(w) ==>
      && r.controller.Some?
      && 1.0 <= r.controller.value.fov <= 120.0
      && r.controller.value.(fov := w.controller.value.fov) == w.controller.value
      && r.(controller := w.controller) == w
    ensures Connected(w) && 1.0 <= w.controller.value.fov - yOffset as real <= 120.0 ==>
      r.controller.value.fov == w.controller.value.fov - yOffset as real
  {
    if Connected(w) then
      var c := w.controller.value;
      var c1 := Camera.SetFov(c, c.fov - yOffset as real);
      var c2 := if c1.fov < 1.0 then Camera.SetFov(c1, 1.0) else c1;
      var c3 := if c2.fov > 120.0 then Camera.SetFov(c2, 120.0) else c2;
      w.(controller := Some(c3))
    else w
  }

  /** Scrolling one way and back restores the field of view when no clamp
      was hit. */
  lemma ScrollBackRestores(w: Window, y: int)
    requires Connected(w)
    requires 1.0 <= w.controller.value.fov - y as real <= 120.0
    requires 1.0 <= w.controller.value.fov <= 120.0
    ensures OnScroll(OnScroll(w, 0, y), 0, -y) == w
  {
  }

  /** The cursor handler. With `m_FirstMouse` armed the last position is
      first reset to the new one, so the offsets are zero. Pitch is
      clamped to [-89, 89]; yaw is not. Front and direction are both set
      to the direction derived from the new yaw and pitch. */
  function OnMouseMove(w: Window, x: real, y: real, env: Env): (r: Window)
    ensures !Connected(w) ==> r == w
    ensures Connected(w) ==> r.controller.Some?
    ensures Connected(w) ==>
      var c := w.controller.value;
      var lx := if w.firstMouse then x else w.lastX;
      var ly := if w.firstMouse then y else w.lastY;
      var c' := r.controller.value;
      && c'.pitch == Clamp(c.pitch + (ly - y) * w.sensitivity, -89.0, 89.0)
      && c'.yaw == c.yaw + (x - lx) * w.sensitivity
      && c'.direction == Some(env.directionOf(c'.yaw, c'.pitch))
      && c'.front == env.directionOf(c'.yaw, c'.pitch)
      && r.lastX == x && r.lastY == y && !r.firstMouse
      && c'.(pitch := c.pitch, yaw := c.yaw, direction := c.direction, front := c.front) == c
  {
    if Connected(w) then
      var lastX := if w.firstMouse then x else w.lastX;
      var lastY := if w.firstMouse then y else w.lastY;
      var xoffset := (x - lastX) * w.sensitivity;
      var yoffset := (lastY - y) * w.sensitivity;
      var c := w.controller.value;
      var c1 := Camera.SetYaw(Camera.SetPitch(c, c.pitch + yoffset), c.yaw + xoffset);
      var c2 := if c1.pitch > 89.0 then Camera.SetPitch(c1, 89.0) else c1;
      var c3 := if c2.pitch < -89.0 then Camera.SetPitch(c2, -89.0) else c2;
      var d := env.directionOf(c3.yaw, c3.pitch);
      var c4 := Camera.SetFront(Camera.SetDirection(c3, d), d);
      w.(controller := Some(c4), lastX := x, lastY := y, firstMouse := false)
    else w
  }

  /** The first move after `m_FirstMouse` is armed leaves pitch and yaw
      where they were (pitch already inside its clamp range). */
  lemma FirstMoveIsZero(w: Window, x: real, y: real, env: Env)
    requires Connected(w) && w.firstMouse
    requires -89.0 <= w.controller.value.pitch <= 89.0
    ensures OnMouseMove(w, x, y, env).controller.value.pitch == w.controller.value.pitch
    ensures OnMouseMove(w, x, y, env).controller.value.yaw == w.controller.value.yaw
  {
  }

  /** ESC to release the cursor, ESC to capture it again: the next move
      does not jump the view, wherever the cursor went meanwhile. */
  lemma ReconnectDoesNotJump(w: Window, x: real, y: real, env: Env)
    requires Connected(w)
    requires -89.0 <= w.controller.value.pitch <= 89.0
    ensures OnKey(w, GLFW_KEY_ESCAPE, GLFW_PRESS, env).Ok?
    ensures var w1 := OnKey(w, GLFW_KEY_ESCAPE, GLFW_PRESS, env).value;
      && OnKey(w1, GLFW_KEY_ESCAPE, GLFW_PRESS, env).Ok?
      && var w2 := OnKey(w1, GLFW_KEY_ESCAPE, GLFW_PRESS, env).value;
      && Connected(w2)
      && OnMouseMove(w2, x, y, env).controller.value.pitch == w.controller.value.pitch
      && OnMouseMove(w2, x, y, env).controller.value.yaw == w.controller.value.yaw
  {
    var w1 := OnKey(w, GLFW_KEY_ESCAPE, GLFW_PRESS, env).value;
    assert w1.firstMouse && !Connected(w1);
    var w2 := OnKey(w1, GLFW_KEY_ESCAPE, GLFW_PRESS, env).value;
    assert w2.firstMouse && Connected(w2);
    FirstMoveIsZero(w2, x, y, env);
  }

  /** The eight types `SetupInitEvents` subscribes, in order. */
  const WindowEventTypes: seq<EventType> := [
    KeyPressType, MouseButtonPressType, MouseScrollType, MouseMoveType,
    WindowCloseType, WindowResizeType, WindowMinimizeType
  ] + [WindowFocusType]

  function SubscribeAll(m: EventDispatcher.Subscribers<Callback>, ts: seq<EventType>): (r: EventDispatcher.Subscribers<Callback>)
    ensures forall t :: t in ts ==> WindowHandler(t) in EventDispatcher.Callbacks(r, t)
    ensures forall t :: t !in ts ==> EventDispatcher.Callbacks(r, t) == EventDispatcher.Callbacks(m, t)
    decreases |ts|
  {
    if |ts| == 0 then m else SubscribeAll(EventDispatcher.Subscribe(m, ts[0], WindowHandler(ts[0])), ts[1..])
  }

  /** `SetupInitEvents`: one handler per window event type, each type
      remembered for `TerminateWindow`. */
  function SetupInitEvents(w: Window, m: EventDispatcher.Subscribers<Callback>): (r: (Window, EventDispatcher.Subscribers<Callback>))
    ensures r.0.subscribed == w.subscribed + WindowEventTypes
    ensures forall t :: t in WindowEventTypes ==> WindowHandler(t) in EventDispatcher.Callbacks(r.1, t)
    ensures forall t :: t !in WindowEventTypes ==> EventDispatcher.Callbacks(r.1, t) == EventDispatcher.Callbacks(m, t)
  {
    (w.(subscribed := w.subscribed + WindowEventTypes), SubscribeAll(m, WindowEventTypes))
  }

  /** `TerminateWindow`: ask GLFW to close, then unsubscribe every type the
      window subscribed. `Unsubscribe` erases the whole entry, so other
      subscribers' callbacks for those types go too. */
  function TerminateWindow(w: Window, m: EventDispatcher.Subscribers<Callback>): (r: (Window, EventDispatcher.Subscribers<Callback>))
    ensures r.0.effects == w.effects + [SetWindowShouldClose]
    ensures forall t :: t in w.subscribed ==> EventDispatcher.Callbacks(r.1, t) == []
    ensures forall t :: t !in w.subscribed ==> EventDispatcher.Callbacks(r.1, t) == EventDispatcher.Callbacks(m, t)
  {
    (w.(effects := w.effects + [SetWindowShouldClose]), EventDispatcher.UnsubscribeAll(m, w.subscribed))
  }

  /** After set-up and termination no event of a window type reaches any
      callback, the window's or anyone else's, while events of other types
      still reach exactly what they reached before. */
  lemma TerminateSilencesWindowTypes(w: Window, m: EventDispatcher.Subscribers<Callback>, e: Event)
    ensures var (w1, m1) := SetupInitEvents(w, m);
      var (_, m2) := TerminateWindow(w1, m1);
      && (TypeOf(e) in WindowEventTypes ==> EventDispatcher.Dispatch(m2, e) == [])
      && (TypeOf(e) !in WindowEventTypes && TypeOf(e) !in w.subscribed ==>
            EventDispatcher.Dispatch(m2, e) == EventDispatcher.Dispatch(m, e))
  {
  }

  /** A foreign callback subscribed to a window type before set-up is lost
      by termination. */
  lemma TerminateDropsForeign(w: Window, m: EventDispatcher.Subscribers<Callback>, id: nat)
    ensures var m0 := EventDispatcher.Subscribe(m, KeyPressType, Foreign(id));
      var (w1, m1) := SetupInitEvents(w, m0);
      && Foreign(id) in EventDispatcher.Callbacks(m1, KeyPressType)
      && Foreign(id) !in EventDispatcher.Callbacks(TerminateWindow(w1, m1).1, KeyPressType)
  {
    var m0 := EventDispatcher.Subscribe(m, KeyPressType, Foreign(id));
    assert Foreign(id) in EventDispatcher.Callbacks(m0, KeyPressType);
    SubscribeKeeps(m0, WindowEventTypes, KeyPressType, Foreign(id));
  }

  lemma {:induction false} SubscribeKeeps(m: EventDispatcher.Subscribers<Callback>, ts: seq<EventType>, t: EventType, c: Callback)
    requires c in EventDispatcher.Callbacks(m, t)
    ensures c in EventDispatcher.Callbacks(SubscribeAll(m, ts), t)
    decreases |ts|
  {
    if |ts| > 0 {
      var m' := EventDispatcher.Subscribe(m, ts[0], WindowHandler(ts[0]));
      assert c in EventDispatcher.Callbacks(m', t);
      SubscribeKeeps(m', ts[1..], t, c);
    }
  }

  /** What one window handler does with the event it is dispatched. The
      close handler terminates the window; resize sets the viewport;
      minimise and focus only log. */
  function RunHandler(w: Window, m: EventDispatcher.Subscribers<Callback>, e: Event, env: Env)
    : (r: Result<(Window, EventDispatcher.Subscribers<Callback>), Fault>)
    ensures e.WindowCloseEvent? ==> r == Ok(TerminateWindow(w, m))
    ensures !e.KeyPressEvent? && !e.WindowCloseEvent? ==> r.Ok? && r.value.1 == m
  {
    match e
    case KeyPressEvent(key, action) =>
      (match OnKey(w, key, action, env)
       case Ok(w') => Ok((w', m))
       case Err(f) => Err(f))
    case MouseButtonPressEvent(button, action) => Ok((OnMouseButton(w, button, action), m))
    case MouseScrollEvent(x, y) => Ok((OnScroll(w, x, y), m))
    case MouseMoveEvent(x, y) => Ok((OnMouseMove(w, x, y, env), m))
    case WindowCloseEvent => Ok(TerminateWindow(w, m))
    case WindowResizeEvent(width, height) => Ok((w.(effects := w.effects + [SetViewport(width, height)]), m))
    case _ => Ok((w, m))
  }

  /** Subscribing a list of distinct types adds exactly one window handler
      to each. */
  lemma {:induction false} SubscribeAllOnce(m: EventDispatcher.Subscribers<Callback>, ts: seq<EventType>, t: EventType)
    requires forall i, j | 0 <= i < j < |ts| :: ts[i] != ts[j]
    requires t in ts
    ensures EventDispatcher.Callbacks(SubscribeAll(m, ts), t) == EventDispatcher.Callbacks(m, t) + [WindowHandler(t)]
    decreases |ts|
  {
    var m' := EventDispatcher.Subscribe(m, ts[0], WindowHandler(ts[0]));
    if ts[0] == t {
      assert t !in ts[1..];
    } else {
      assert t in ts[1..];
      SubscribeAllOnce(m', ts[1..], t);
    }
  }

  /** The dispatcher side of the window's handlers: none enqueues
      anything; the close handler terminates the window, unsubscribing
      every type it subscribed, and the others leave the map alone. */
  function Effects(w: Window): EventDispatcher.Handler<Callback> {
    (c: Callback, e: Event, m: EventDispatcher.Subscribers<Callback>) =>
      if c == WindowHandler(WindowCloseType) then ([], TerminateWindow(w, m).1) else ([], m)
  }

  /** After setting up from a window with no subscriptions, the window
      is subscribed to its eight types and is the only callback for
      closing. */
  lemma SetupCloseEntry(w: Window, m: EventDispatcher.Subscribers<Callback>)
    requires w.subscribed == [] && EventDispatcher.Callbacks(m, WindowCloseType) == []
    ensures SetupInitEvents(w, m).0.subscribed == WindowEventTypes
    ensures EventDispatcher.Dispatch(SetupInitEvents(w, m).1, WindowCloseEvent) == [WindowHandler(WindowCloseType)]
  {
    var ts := WindowEventTypes;
    WindowTypesDistinct();
    assert ts[4] == WindowCloseType;
    SubscribeAllOnce(m, ts, WindowCloseType);
    var r := SubscribeAll(m, ts);
    assert EventDispatcher.Callbacks(r, WindowCloseType) == [] + [WindowHandler(WindowCloseType)];
    assert SetupInitEvents(w, m).1 == r;
    assert TypeOf(WindowCloseEvent) == WindowCloseType;
  }

  /** No type is subscribed twice. */
  lemma WindowTypesDistinct()
    ensures forall i, j | 0 <= i < j < |WindowEventTypes| :: WindowEventTypes[i] != WindowEventTypes[j]
  {
  }

  /** The close handler, run over a copy of its one-callback list, runs
      once and leaves the terminated map. */
  lemma CloseRunsOnce(w1: Window, m1: EventDispatcher.Subscribers<Callback>)
    ensures var entry := [WindowHandler(WindowCloseType)];
      EventDispatcher.RunCallbacks(entry, 0, WindowCloseEvent, m1, Effects(w1), true)
        == Ok(EventDispatcher.Run(entry, [], TerminateWindow(w1, m1).1))
  {
    var h := Effects(w1);
    var e := WindowCloseEvent;
    var entry := [WindowHandler(WindowCloseType)];
    var m2 := TerminateWindow(w1, m1).1;
    var none: seq<Event> := [];
    assert h(entry[0], e, m1) == (none, m2);
    assert EventDispatcher.RunCallbacks(entry, 1, e, m2, h, true) == Ok(EventDispatcher.Run([], none, m2));
    assert [entry[0]] + [] == entry && none + none == none;
  }

  /** An event nobody is subscribed to drains without reaching anyone. */
  lemma LoneEventReachesNothing(m: EventDispatcher.Subscribers<Callback>, h: EventDispatcher.Handler<Callback>, e: Event)
    requires EventDispatcher.Dispatch(m, e) == []
    ensures EventQueue.Process([e], m, h, 1, true) == Ok(EventQueue.Drain([e], [], [], m))
  {
    var none: seq<Event> := [];
    assert EventDispatcher.RunCallbacks([], 0, e, m, h, true) == Ok(EventDispatcher.Run([], none, m));
    assert [e][1..] + none == [];
    assert EventQueue.Process([], m, h, 0, true) == Ok(EventQueue.Drain([], [], [], m));
    assert [e] + [] == [e];
  }

  /** The drain walking a copy: the close handler runs once, the key
      press after it reaches nothing, and every window type ends
      unsubscribed. */
  lemma CloseCopyDrain(w1: Window, m1: EventDispatcher.Subscribers<Callback>, key: int, action: int)
    requires w1.subscribed == WindowEventTypes
    requires EventDispatcher.Dispatch(m1, WindowCloseEvent) == [WindowHandler(WindowCloseType)]
    ensures var r := EventQueue.Process([WindowCloseEvent, KeyPressEvent(key, action)], m1, Effects(w1), 2, true);
      && r.Ok? && r.value.dispatched == [WindowCloseEvent, KeyPressEvent(key, action)]
      && r.value.invoked == [WindowHandler(WindowCloseType)]
      && forall t :: t in WindowEventTypes ==> EventDispatcher.Callbacks(r.value.subs, t) == []
  {
    var h := Effects(w1);
    var k := KeyPressEvent(key, action);
    var m2 := TerminateWindow(w1, m1).1;
    CloseRunsOnce(w1, m1);
    assert WindowEventTypes[0] == KeyPressType;
    assert EventDispatcher.Dispatch(m2, k) == [];
    LoneEventReachesNothing(m2, h, k);
    assert [WindowCloseEvent, k][1..] + [] == [k];
  }

  /** A close event followed by a key press, with the window the only
      subscriber to closing. As written, the close handler erases the
      list the dispatch loop is walking, so the drain goes wrong inside
      the first dispatch. Walking a copy, the close handler runs once, the
      key press reaches nothing, and every window type ends unsubscribed. */
  lemma CloseDuringDispatch(w: Window, m: EventDispatcher.Subscribers<Callback>, key: int, action: int)
    requires w.subscribed == [] && EventDispatcher.Callbacks(m, WindowCloseType) == []
    ensures var w1 := SetupInitEvents(w, m).0;
      var m1 := SetupInitEvents(w, m).1;
      EventQueue.Process([WindowCloseEvent, KeyPressEvent(key, action)], m1, Effects(w1), 2, false)
        == Err(EventDispatcher.IteratorInvalidated(WindowCloseEvent, WindowHandler(WindowCloseType)))
    ensures var w1 := SetupInitEvents(w, m).0;
      var m1 := SetupInitEvents(w, m).1;
      var r := EventQueue.Process([WindowCloseEvent, KeyPressEvent(key, action)], m1, Effects(w1), 2, true);
      && r.Ok? && r.value.dispatched == [WindowCloseEvent, KeyPressEvent(key, action)]
      && r.value.invoked == [WindowHandler(WindowCloseType)]
      && forall t :: t in WindowEventTypes ==> EventDispatcher.Callbacks(r.value.subs, t) == []
  {
    var w1 := SetupInitEvents(w, m).0;
    var m1 := SetupInitEvents(w, m).1;
    SetupCloseEntry(w, m);
    var h := Effects(w1);
    var q := [WindowCloseEvent, KeyPressEvent(key, action)];
    assert h(WindowHandler(WindowCloseType), WindowCloseEvent, m1).1 == TerminateWindow(w1, m1).1;
    EventQueue.EraseDuringDispatch(q, m1, h, 2);
    CloseCopyDrain(w1, m1, key, action);
  }
}
