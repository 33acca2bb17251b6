# Moonstone engine core in Dafny

A functional model of the core of Moonstone, a small C++ OpenGL engine with
an ImGui editor. The model covers:

- the editor's layer stack and the `EditorUI` wrappers around it;
- the editor panels' own logic: the 16:9 letterbox, the transform panel's
  linked scale, the entity list and its selection, and the shape picker;
- the event system: dispatcher, queue, and manager/listener;
- the window's input handlers: key, mouse button, scroll, mouse move,
  close, and the subscription set-up and tear-down;
- the frame timer, the fly camera, materials, lights and scene values;
- the constant vertex tables and the default scene;
- both generations of the mesh/model loaders (`Rendering/` and
  `Renderer/`): vertex conversion, index flattening, the texture cache,
  the node walk, buffer set-up and the draw calls.

Everything is an immutable value with pure transitions. Calls into OpenGL,
GLFW and stb_image become entries in a call log (`Gpu.Call`). GL keeps
separate name spaces for vertex arrays, buffers and textures, and the
model keeps one counter for each: a new name differs from every earlier
name of its own kind, while an array and a buffer may share a number, as
they may in GL. The log has interpreters for what the engine relies on:

- `Bindings` and `ActiveAfter`: the texture bound to each unit, and the
  active unit;
- `UniformValues`: the integer values set on sampler uniforms;
- `Attributes`: the vertex layout;
- `Draws`: the index counts drawn.

Decoding an image file is a parameter (`Decoder`). The assimp scene is a
datatype (`AiScene`, `AiNode`, `AiMesh`). A `float` is a `real`. An
`unsigned` that can wrap (the layer index) wraps explicitly modulo 2^32.

A few functions the code calls are not declared in the headers shown:

- `Renderer::Scene::SceneObject` (Renderer/Include/Scene.h) has no
  rotation, scale or `Clear`, although `TransformLayer` uses all three. The
  panels are modelled on the `Rendering` scene object, which has them.
- `SceneManager.cpp` builds its point light with an eight-argument
  constructor that `Lighting.h` does not declare. The declared
  five-argument point-light constructor is used.
- Engine/src/Rendering/Include/Mesh.h, Engine/src/Rendering/Include/Camera.h
  and Engine/src/Renderer/Include/Model.h are not part of this model. The
  newer mesh uses the vertex layout of Renderer/Include/Mesh.h (88 bytes per
  vertex), and the scene uses the `Renderer` camera.
- Engine/src/Rendering/Platform/OpenGL/Include/OpenGLRenderingAPI.h, which
  declares the `ToOpenGLTexture` that `OpenGLRenderingAPI::BindTexture` calls,
  is not part of this model. The model takes `Texture0 + i` to reach
  `glActiveTexture` as `GL_TEXTURE0 + i`. The older
  Renderer/Platform/OpenGL/Include/OpenGLRendererAPI.h:182-199 maps only
  `Texture0`-`Texture2` and returns 0 for every other unit.

## Model

| member | source | states |
|---|---|---|
| LayerStack.PushLayer | Engine/src/Core/LayerStack.cpp:37-43 | fails exactly when the index is past the end; otherwise inserts at the split point, attaches the layer once, and moves the index on by one |
| LayerStack.PushOverlay | Engine/src/Core/LayerStack.cpp:71 | appends at the back; the index and the hook log are unchanged |
| LayerStack.PushLayerSplit | Engine/src/Core/LayerStack.cpp:37-43 | pushing keeps the split valid: the layer region gains `l` at its end and the overlays are untouched |
| LayerStack.PushOverlaySplit | Engine/src/Core/LayerStack.cpp:71 | the overlay region gains `l` at its end and the layer region is untouched |
| LayerStack.PopLayer | Engine/src/Core/LayerStack.cpp:53-62 | as written; the only failure is an index past the end of the vector, and the lemmas below state what it does otherwise |
| LayerStack.PopLayerPresent | Engine/src/Core/LayerStack.cpp:53-62 | for a layer in the layer region, removes its first occurrence, decrements the index, keeps the overlays, and agrees with the corrected pop |
| LayerStack.PopLayerAbsent | Engine/src/Core/LayerStack.cpp:55-61 | for a pointer not in the layer region, it is a no-op only without overlays; otherwise it erases the first overlay and decrements the index |
| LayerStack.PopLayerUnderflow | Engine/src/Core/LayerStack.cpp:55-60 | with an empty layer region and an overlay, the unsigned index wraps to 2^32-1 and the split is invalid |
| LayerStack.PopLayerCounterexample | Engine/src/Core/LayerStack.cpp:53-62 | one overlay, then popping an unrelated layer erases the overlay and leaves the index at 2^32-1 |
| LayerStack.PopOverlay | Engine/src/Core/LayerStack.cpp:80-88 | as written; the only failure is an index past the end of the vector, and the lemmas below state what it does otherwise |
| LayerStack.PopOverlayOnlySeesRegion | Engine/src/Core/LayerStack.cpp:82-87 | for a pointer outside the layer region, erases whichever element comes first in the overlay region |
| LayerStack.PopOverlayKeepsIndex | Engine/src/Core/LayerStack.cpp:80-88 | popping a layer through `PopOverlay` keeps the index, so the split is off by one |
| LayerStack.PopOverlayCounterexample | Engine/src/Core/LayerStack.cpp:80-88 | with overlays 7 and 8, popping 8 removes 7 |
| LayerStack.DetachOnlyOnErase | Engine/src/Core/LayerStack.cpp:56-60 | `OnDetach` is logged exactly when one element is erased, for both pops |
| LayerStack.PopLayerFixed | Engine/src/Core/LayerStack.cpp:53-62 | corrected pop: removes the first match in the layer region and decrements the index; an absent layer changes nothing; the overlays are kept |
| LayerStack.PopOverlayFixed | Engine/src/Core/LayerStack.cpp:80-88 | corrected pop: removes the first match in the overlay region; the index and the layer region are kept |
| LayerStack.PushPopLayerRoundTrip | Engine/src/Core/LayerStack.cpp:37-62 | pushing a new layer and popping it (corrected) restores the layers and the index; only the attach and detach remain in the log |
| LayerStack.PushPopOverlayRoundTrip | Engine/src/Core/LayerStack.cpp:71-88 | pushing a new overlay and popping it (corrected) restores the stack |
| EditorUI.PushLayer | Engine/src/Core/EditorUI.cpp:164-168 | delegates and then attaches again: the log gains two attaches of the layer |
| EditorUI.PushOverlay | Engine/src/Core/EditorUI.cpp:172-176 | delegates (no attach) and then attaches once |
| EditorUI.AttachCounts | Engine/src/Core/EditorUI.cpp:164-176 | through the wrappers a layer is attached twice and an overlay once |
| EditorUI.PopLayer | Engine/src/Core/EditorUI.cpp:170 | forwards to the stack's pop as written: fails exactly on an invalid stack; a layer in the region is removed as the corrected pop would, with the index decremented and the overlays kept; a pointer outside it is a no-op only without overlays, and otherwise erases the first overlay and decrements the index |
| EditorUI.PopLayerFixed | Engine/src/Core/EditorUI.cpp:170 | the wrapper over the corrected pop: a pointer outside the layer region changes nothing; a layer in it is removed, the index decremented, the overlays kept and one detach logged |
| EditorUI.PopOverlay | Engine/src/Core/EditorUI.cpp:178 | forwards to the stack's overlay pop as written: a layer in the layer region is erased with the index kept; a pointer outside it is a no-op only without overlays, and otherwise erases the first overlay |
| EditorUI.PopOverlayFixed | Engine/src/Core/EditorUI.cpp:178 | the wrapper over the corrected overlay pop: the first matching overlay is removed, the layer region and index kept; a pointer not among the overlays changes nothing |
| EditorUI.PushPopLayer | Engine/src/Core/EditorUI.cpp:164-170 | pushing a new layer and popping it through the as-written wrappers restores the stack; the log keeps two attaches and one detach |
| EditorUI.PushPopOverlay | Engine/src/Core/EditorUI.cpp:172-178 | as written, on a stack without overlays, pushing an overlay and popping it restores the stack; the log keeps one attach and one detach |
| EditorUI.PushPopOverlayDropsOlder | Engine/src/Core/EditorUI.cpp:172-178 | as written, with an overlay already present, the same round trip erases the older overlay and keeps the new one |
| EditorUI.PushPopOverlayFixed | Engine/src/Core/EditorUI.cpp:172-178 | with the corrected pop, the overlay round trip restores any valid stack the overlay was not on |
| EditorUI.PushAllOnTop | Engine/src/Core/EditorUI.cpp:164-168 | pushing a list of layers onto a stack without overlays appends them in order and attaches each twice |
| EditorUI.Init | Engine/src/Core/EditorUI.cpp:19-31 | the stack holds Menu, Debug, Entity, Transform, Controls in that order as layers, with no overlays; each is attached twice; `m_Layers` holds a copy of the controls layer |
| EditorUI.PopAllNewestFirst | Engine/src/Core/EditorUI.cpp:170 | popping the layers of a stack without overlays newest first, each present once, empties it |
| EditorUI.InitThenPopAll | Engine/src/Core/EditorUI.cpp:19-156 | popping the five layers `Init` pushed, in reverse order, empties the stack |
| EditorUI.ToggleWireframe | Engine/src/Core/EditorUI.cpp:86-104 | line mode goes to fill, every other mode (the unset one included) goes to line; the mode stored equals the mode sent |
| EditorUI.ToggleTwice | Engine/src/Core/EditorUI.cpp:90-103 | two toggles restore line or fill; from the unset mode they end in fill |
| EditorUI.ClearSelection | Engine/src/Core/EditorUI.cpp:28-29 | the entity selection becomes -1 and the object list is kept |
| EditorUI.AddObjectPressed | Engine/src/Core/EditorUI.cpp:118-133 | a picked cube clears the entity selection; any other pick changes nothing |
| EditorUI.PickThenAdd | Engine/src/Core/EditorUI.cpp:118-133 | picking the first row and pressing add clears the selection; with nothing picked the list state is unchanged |
| Letterbox.Trunc | Engine/src/Core/Layers/Include/BaseLayers.h:46-57 | a `float` to `int` store truncates toward zero: the result is within one unit, on the zero side |
| Letterbox.Letterbox | Engine/src/Core/Layers/Include/BaseLayers.h:45-60 | height-limited when the region is wider than 16:9, width-limited otherwise; offsets are half the leftover space |
| Letterbox.LetterboxFits | Engine/src/Core/Layers/Include/BaseLayers.h:45-60 | for any non-negative region the target fits, both offsets are non-negative, and the target is centred |
| Letterbox.RatioBound | Engine/src/Core/Layers/Include/BaseLayers.h:48 | comparing `w / h` with 16/9 is comparing `w` with `h * 16/9` |
| Letterbox.LetterboxKeepsAspect | Engine/src/Core/Layers/Include/BaseLayers.h:48-57 | the side that is not limited is within one pixel of the exact 16:9 ratio, on the short side |
| TransformLayer.New | Engine/src/Core/Layers/Include/BaseLayers.h:334-339 | scale fields start at 1 and the selected object has an empty name |
| TransformLayer.SetSelectedObject | Engine/src/Core/Layers/Include/BaseLayers.h:179-194 | stores the object and loads its position, rotation and scale into the fields |
| TransformLayer.ClearSelectedObject | Engine/src/Core/Layers/Include/BaseLayers.h:196-203 | clears the stored object (its name becomes empty), zeroes position and rotation, and sets the scale to 1 |
| TransformLayer.ScaleDrag | Engine/src/Core/Layers/Include/BaseLayers.h:286-309 | with the link on, all three scale axes take the dragged value; otherwise only the dragged axis changes |
| TransformLayer.Link | Engine/src/Core/Layers/Include/BaseLayers.h:312-318 | the checkbox flips the link; turning it on copies X into Y and Z; turning it off keeps the scale |
| TransformLayer.WriteBack | Engine/src/Core/Layers/Include/BaseLayers.h:320-322 | the object's position, rotation and scale become the fields |
| TransformLayer.Frame | Engine/src/Core/Layers/Include/BaseLayers.h:233-328 | with an empty name nothing changes; otherwise the object afterwards agrees with the fields and keeps its name |
| TransformLayer.SelectRoundTrip | Engine/src/Core/Layers/Include/BaseLayers.h:179-194 | selecting a named object and running an idle frame writes back exactly that object |
| TransformLayer.LinkedDragEqualises | Engine/src/Core/Layers/Include/BaseLayers.h:286-309 | with the link on, a drag on any axis leaves all three axes equal, in the fields and in the object |
| TransformLayer.UnlinkedDragMovesOneAxis | Engine/src/Core/Layers/Include/BaseLayers.h:286-309 | with the link off, only the dragged axis changes |
| TransformLayer.EnablingLinkCopiesX | Engine/src/Core/Layers/Include/BaseLayers.h:312-318 | enabling the link makes every scale axis equal to X |
| TransformLayer.ClearedPanelIsInert | Engine/src/Core/Layers/Include/BaseLayers.h:196-203 | after clearing, the fields are reset and no input changes the panel |
| EntityLayer.AddObject | Engine/src/Core/Layers/Include/BaseLayers.h:364 | appends the object; the selection is kept |
| EntityLayer.SetObjectVector | Engine/src/Core/Layers/Include/BaseLayers.h:377 | replaces the whole list; the selection is kept |
| EntityLayer.FindName | Engine/src/Core/Layers/Include/BaseLayers.h:367-370 | the first object with the name, or the list length when none has it |
| EntityLayer.RemoveObject | Engine/src/Core/Layers/Include/BaseLayers.h:365-376 | erases the first object with a matching name and keeps the rest in order; with no match the list is unchanged |
| EntityLayer.AddRemoveRoundTrip | Engine/src/Core/Layers/Include/BaseLayers.h:364-376 | adding an object with a new name and removing it restores the list |
| EntityLayer.RemoveDropsOne | Engine/src/Core/Layers/Include/BaseLayers.h:365-376 | removal takes out exactly one element: the multiset loses the first match and nothing else |
| EntityLayer.SetSelectedEntity | Engine/src/Core/Layers/Include/BaseLayers.h:381 | the selection becomes the given index |
| EntityLayer.ClearEntitySelection | Engine/src/Core/Layers/Include/BaseLayers.h:383 | the selection becomes -1 |
| EntityLayer.Frame | Engine/src/Core/Layers/Include/BaseLayers.h:408-429 | a clicked row becomes the selection and is loaded into the transform panel; the clear button sets -1, which clears the panel |
| EntityLayer.ClearSelectionClearsPanel | Engine/src/Core/Layers/Include/BaseLayers.h:426-429 | after the clear button the panel's fields are reset and it ignores input |
| EntityLayer.ClickedRowReachesPanel | Engine/src/Core/Layers/Include/BaseLayers.h:414-424 | clicking a named row makes it the selection, and the panel then holds exactly that object |
| ControlsLayer.Ordinal | Engine/src/Core/Layers/Include/BaseLayers.h:462-468 | the enumerators' values in declaration order, 0 to 3 |
| ControlsLayer.ShapeOf | Engine/src/Core/Layers/Include/BaseLayers.h:613 | selection -1, 0, 1, 2 maps to the enumerator with value selection + 1; `None` exactly for -1 |
| ControlsLayer.SelectionOf | Engine/src/Core/Layers/Include/BaseLayers.h:613 | the inverse mapping: enumerator value minus one |
| ControlsLayer.ShapeSelectionRoundTrip | Engine/src/Core/Layers/Include/BaseLayers.h:596-613 | the mapping is a bijection between the picker's selections and the four shapes |
| ControlsLayer.Pick | Engine/src/Core/Layers/Include/BaseLayers.h:596-614 | a clicked row becomes the selection; while the popup is open the stored shape follows the selection; when it is closed nothing changes |
| ControlsLayer.NothingPickedIsNone | Engine/src/Core/Layers/Include/BaseLayers.h:596-613 | an open popup with nothing picked stores `None` |
| EventDispatcher.Subscribe | Engine/src/Core/Events/Include/EventDispatcher.h:17-20 | the callback is appended to its type's list, which is created if missing; the other types are unchanged |
| EventDispatcher.Unsubscribe | Engine/src/Core/Events/Include/EventDispatcher.h:22 | the type's whole list is dropped; the other types are unchanged |
| EventDispatcher.Dispatch | Engine/src/Core/Events/Include/EventDispatcher.h:24-35 | every callback of the event's type, in subscription order; nothing for an unknown type |
| EventDispatcher.DispatchAfterSubscribe | Engine/src/Core/Events/Include/EventDispatcher.h:17-35 | after subscribing, dispatch reaches the new callback last; other types are unaffected |
| EventDispatcher.DispatchAfterUnsubscribe | Engine/src/Core/Events/Include/EventDispatcher.h:22-35 | after unsubscribing, nothing of that type is reached; other types are unaffected |
| EventDispatcher.UnsubscribeAll | Engine/src/Core/Window.cpp:198-201 | every listed type loses its callbacks; the other types are unchanged |
| EventQueue.Enqueue | Engine/src/Core/Events/Include/EventQueue.h:28 | the event goes at the back |
| EventQueue.Process | Engine/src/Core/Events/Include/EventQueue.h:29-37 | an empty queue dispatches nothing; events are left over only when exactly `fuel` events were dispatched, so the drain stops early only for lack of fuel; it dispatches at most the fuel; walking a copy of each callback list it never faults |
| EventDispatcher.RunCallbacks | Engine/src/Core/Events/Include/EventDispatcher.h:24-35 | one dispatch's loop: when it completes it invoked the whole callback list in order; it faults only as written (not over a copy), naming the event and a callback of the list, when a callback changed the list being walked |
| EventDispatcher.RunCallbacksAgree | Engine/src/Core/Events/Include/EventDispatcher.h:24-35 | where the loop as written completes, walking a copy gives the same result |
| EventQueue.ProcessPrefix | Engine/src/Core/Events/Include/EventQueue.h:29-37 | FIFO: when the drain succeeds with fuel for the queue, the queued events are dispatched first, in queue order, whatever handlers enqueue |
| EventQueue.HandlerEventsFollow | Engine/src/Core/Events/Include/EventQueue.h:29-37 | when the drain succeeds, the events the first dispatch's handlers enqueue are dispatched right after the rest of the queue |
| EventQueue.ProcessQuiet | Engine/src/Core/Events/Include/EventQueue.h:29-37 | when no handler enqueues or changes a subscription, a drain with enough fuel succeeds, dispatches exactly the queue, invokes each event's callbacks in queue order and leaves the map alone |
| EventQueue.ProcessAgree | Engine/src/Core/Events/Include/EventQueue.h:29-37 | wherever the drain as written succeeds, the drain over copies gives the same result |
| EventQueue.EraseDuringDispatch | Engine/src/Core/Events/Include/EventDispatcher.h:24-35 | when the first callback reached changes its own list, the drain as written faults at that callback, while the drain over copies still reaches every callback of the first event |
| Window.CloseDuringDispatch | Engine/src/Core/Window.cpp:194-202 | after set-up, a close event followed by a key press: as written the close handler erases the list being walked and the drain faults; over copies the close handler runs once, the key press reaches nothing and every window type ends unsubscribed |
| Window.SetupCloseEntry | Engine/src/Core/Window.cpp:384-392 | after set-up from a window without subscriptions, the window's close handler is the only callback for closing |
| Window.SubscribeAllOnce | Engine/src/Core/Window.cpp:204-427 | subscribing distinct types adds exactly one window handler to each |
| EventManager.RemoveListener | Engine/src/Core/Events/Include/EventManager.h:29-33 | erase-remove: no occurrence survives, and every other listener keeps its multiplicity |
| EventManager.Dispatch | Engine/src/Core/Events/Include/EventManager.h:35-43 | `onEvent` is called once per entry, in list order |
| EventManager.RemoveListenerConcat | Engine/src/Core/Events/Include/EventManager.h:29-33 | erase-remove keeps the survivors' order: it distributes over concatenation |
| EventManager.RemoveAbsent | Engine/src/Core/Events/Include/EventManager.h:29-33 | removing an absent listener changes nothing |
| EventManager.RemoveAfterAdd | Engine/src/Core/Events/Include/EventManager.h:28-33 | removal cancels every earlier addition of the same listener |
| EventManager.Construct | Engine/src/Core/Events/Include/EventListener.h:16-20 | the new listener is registered at the end of its manager's list |
| EventManager.OnEvent | Engine/src/Core/Events/Include/EventListener.h:24-28 | the listener stores the event |
| EventManager.DetachEvent | Engine/src/Core/Events/Include/EventListener.h:30 | the manager no longer holds the listener |
| EventManager.DetachedNotReached | Engine/src/Core/Events/Include/EventListener.h:30 | after detaching, later dispatches skip the listener and reach every other listener as often as before |
| EventManager.ConstructThenDetach | Engine/src/Core/Events/Include/EventListener.h:16-30 | constructing and detaching leaves the list as if the listener had been removed from the original |
| Time.Update | Engine/src/Core/Include/Time.h:22-26 | the new delta is measured from the previous frame, which becomes the current time |
| Time.SetDeltaTime | Engine/src/Core/Include/Time.h:28 | sets the delta only |
| Time.SetLastFrame | Engine/src/Core/Include/Time.h:29 | sets the last frame only |
| Time.DeltasTelescope | Engine/src/Core/Include/Time.h:22-26 | the deltas of a run of updates sum to the last timestamp minus the starting frame |
| Time.DeltasFromStart | Engine/src/Core/Include/Time.h:36-37 | from the zero-initialised singleton the deltas sum to the last timestamp |
| Camera.New | Engine/src/Renderer/Include/Camera.h:26-32 | stores position, front and up; pitch 0, yaw -90, fov 65, speed 10, connected; no direction |
| Camera.SettersFrame | Engine/src/Renderer/Include/Camera.h:60-70 | each setter is read back by its getter and changes no other field |
| Camera.OnMove | Engine/src/Renderer/Include/Camera.h:34-46 | a step of speed times delta time along front (forward/backward) or along the side vector (left/right); only the position changes |
| Camera.OppositeMovesCancel | Engine/src/Renderer/Include/Camera.h:34-46 | opposite moves over the same frame time cancel |
| Material.Default | Engine/src/Rendering/Include/Material.h:23 | zero diffuse and specular, shininess 1, green base colour |
| Material.New | Engine/src/Rendering/Include/Material.h:27-29 | stores its four arguments |
| Material.NewRebuilds | Engine/src/Rendering/Include/Material.h:23-29 | the four-argument constructor rebuilds any material, the default included |
| Lighting.DirectionalLight | Engine/src/Rendering/Include/Lighting.h:32-39 | type directional with the direction set and no position |
| Lighting.PointLight | Engine/src/Rendering/Include/Lighting.h:42-53 | type point with the position set and no direction |
| Lighting.AddLight | Engine/src/Rendering/Include/Lighting.h:60 | appends, with no deduplication and no limit |
| Lighting.GetLights | Engine/src/Rendering/Include/Lighting.h:61 | every light in insertion order |
| Lighting.AddLightsThenGet | Engine/src/Rendering/Include/Lighting.h:60-61 | after adding a run of lights, they come back after the earlier ones, duplicates included |
| Lighting.GetFromEmpty | Engine/src/Rendering/Include/Lighting.h:57-61 | from an empty list, exactly the lights added come back |
| Scene.DefaultObject | Engine/src/Rendering/Include/Scene.h:16-29 | the member initialisers: zero handles, zero position and rotation, unit scale, default material, empty name |
| Scene.Clear | Engine/src/Rendering/Include/Scene.h:31-42 | resets every field but the material and the shader (the shader line declares a local) |
| Scene.ClearIdempotent | Engine/src/Rendering/Include/Scene.h:31-42 | clearing twice is clearing once |
| Scene.ClearForgets | Engine/src/Rendering/Include/Scene.h:31-42 | two objects that share material and shader clear to the same default object |
| Scene.DefaultScene | Engine/src/Rendering/Include/Scene.h:45-58 | id 0, no shaders, cameras, objects or lights, grey background, grid on |
| Scene.ActiveCamera | Engine/src/Rendering/Include/Scene.h:50 | the active camera when the pointer designates one of the scene's cameras |
| BaseShapes.LitFloatsLayout | Engine/src/Tools/BaseShapes.cpp:20-42 | float k of vertex i sits at 6i + k: position at offset 0, normal at offset 3 |
| BaseShapes.TableSizes | Engine/src/Tools/BaseShapes.cpp:8-59 | 8 grid points, 36 cube and 5 pyramid vertices; byte sizes 96, 864 and 120 |
| BaseShapes.CubeGeometry | Engine/src/Tools/BaseShapes.cpp:20-42 | every cube corner is at ±1 and every normal is a unit axis vector pointing out of its face |
| BaseShapes.GridGeometry | Engine/src/Tools/BaseShapes.cpp:8-16 | the grid lies at y = 0 with corners at ±100 |
| BaseShapes.PyramidGeometry | Engine/src/Tools/BaseShapes.cpp:49-57 | a downward-facing square base of half-side 0.5 at y = 0, apex at height 1 |
| SceneManager.AddModelToScene | Engine/src/Rendering/SceneManager.cpp:62-109 | one fresh array and one fresh buffer, shared by a cube at the origin and a lamp cube at the light, both named after the object count; the cube table's layout calls follow; no texture name is used |
| SceneManager.LoadDefaultScene | Engine/src/Rendering/SceneManager.cpp:9-53 | scene 0 with the grid shader, one active camera, one point light, grid on, and two cubes named `default_cube_0` |
| SceneManager.LampAtLight | Engine/src/Rendering/SceneManager.cpp:36-40 | the lamp cube sits where the only light is, and that light is a point light |
| SceneManager.LayoutMatchesCube | Engine/src/Rendering/SceneManager.cpp:68-72 | with the declared stride and offsets, attribute 0 reads each vertex's position and attribute 1 its normal; the upload size matches |
| Decimal.ParseNatToString | Engine/src/Rendering/Mesh.cpp:77 | the decimal text of a counter parses back to the counter |
| Decimal.NatToStringInjective | Engine/src/Rendering/Mesh.cpp:77-83 | distinct counters give distinct texts |
| MeshData.LayoutTiles | Engine/src/Renderer/Include/Mesh.h:19-29 | the vertex fields tile the 88-byte vertex with no gaps |
| MeshData.CountZero | Engine/src/Rendering/Mesh.cpp:66-83 | a kind's count is zero exactly when no texture has that kind |
| MeshData.CountMonotone | Engine/src/Rendering/Mesh.cpp:71-83 | a later prefix counts strictly more of a kind that occurs in between |
| MeshData.CountStep | Engine/src/Rendering/Mesh.cpp:76-83 | one more texture adds one to its own kind's count and nothing to the others |
| MeshData.NumberedNamesDiffer | Engine/src/Rendering/Mesh.cpp:76-89 | two textures of the same numbered kind get different uniform names |
| MeshData.UnnumberedNamesCollide | Engine/src/Rendering/Mesh.cpp:73-89 | textures of an unnumbered kind all get the same bare name |
| MeshData.FirstIsOne | Engine/src/Rendering/Mesh.cpp:66-89 | the first texture of a numbered kind is suffixed 1 |
| Assets.Present | Engine/src/Rendering/Model.cpp:40-44 | the meshes a node references, in order |
| Assets.CollectCounts | Engine/src/Rendering/Model.cpp:35-54 | the pre-order mesh list has one entry per mesh reference in the tree |
| Assets.CollectLeaf | Engine/src/Rendering/Model.cpp:40-44 | a node without children contributes exactly its own meshes |
| Assets.FlattenConcat | Engine/src/Rendering/Model.cpp:107-115 | flattening faces distributes over concatenation |
| Assets.FlattenMembers | Engine/src/Rendering/Model.cpp:107-115 | an index is in the flattened list exactly when some face holds it |
| Assets.Directory | Engine/src/Rendering/Model.cpp:31 | the path up to its last `/`, or the whole path without one |
| Assets.DirectoryRoundTrip | Engine/src/Rendering/Model.cpp:31 | directory, `/`, and base name rebuild the path |
| Gpu.Generate | Engine/src/Rendering/Platform/OpenGL/OpenGLRenderingAPI.cpp:83-100 | each GL name space (vertex arrays, buffers, textures) hands out its next unused name and advances; the other name spaces and the call log are unchanged |
| Gpu.BindingsConcat | Engine/src/Renderer/Mesh.cpp:47-57 | binding calls are interpreted left to right across a concatenation |
| Gpu.DrawsConcat | Engine/src/Rendering/Mesh.cpp:92 | the draws of a concatenation are the draws of its halves |
| Gpu.DistinctConfiguredOnce | Engine/src/Rendering/Mesh.cpp:17-58 | without repeated indices, each attribute is configured at most once and keeps its one call |
| Gpu.AttributesKeeps | Engine/src/Renderer/Mesh.cpp:17-34 | an attribute no call configures keeps its configuration |
| RenderingMesh.SetupWith | Engine/src/Rendering/Mesh.cpp:9-62 | the next unused array name and two distinct unused buffer names; array, vertex and element buffers sized from the data, then the table, then array 0 bound |
| RenderingMesh.SetupLayout | Engine/src/Rendering/Mesh.cpp:17-58 | the layout the set-up leaves is the one its attribute table gives |
| RenderingMesh.AttributeTableAsWritten | Engine/src/Rendering/Mesh.cpp:17-58 | attributes 0 to 6 configured once, counts 3,3,2,3,3,4,4, stride 88; attributes 5 and 6 sit at the texture-coordinate offset and overlap it and each other |
| RenderingMesh.AttributeTableFixedSound | Engine/src/Rendering/Mesh.cpp:17-58 | corrected table: same indices and counts, each inside the vertex and pairwise disjoint |
| RenderingMesh.NewMesh | Engine/src/Rendering/Mesh.cpp:9-62 | stores the data and emits the set-up calls with the attribute table as written, on fresh names |
| RenderingMesh.NewMeshLayout | Engine/src/Rendering/Mesh.cpp:17-58 | a mesh built as written configures attributes 0 to 6 once each, and the bone ids and weights read the texture-coordinate offset attribute 2 reads |
| RenderingMesh.NewMeshFixed | Engine/src/Rendering/Mesh.cpp:9-62 | the constructor with the corrected table, on the same fresh names |
| RenderingMesh.NewMeshFixedLayout | Engine/src/Rendering/Mesh.cpp:17-58 | built with the corrected table, the seven attributes lie inside one vertex and are pairwise disjoint |
| RenderingMesh.TextureCallsBind | Engine/src/Rendering/Mesh.cpp:71-90 | texture i ends up bound to unit i, the last texture's unit is left active, and the i-th uniform value is the sampler unit for i, narrowed or not |
| RenderingMesh.Draw | Engine/src/Rendering/Mesh.cpp:64-93 | per texture a bind to unit i and a uniform named by the kind's running count whose value is i narrowed to bool, as `SetUniformInt` (Rendering/Include/RenderingCommand.h:90) declares it; then one submit; no name is allocated |
| RenderingMesh.SamplersAsWritten | Engine/src/Rendering/Platform/OpenGL/OpenGLRenderingAPI.cpp:156-159 | as written the first uniform names unit 0 and every later one unit 1, which holds the second texture, so from the third texture on a uniform samples a texture other than its own |
| RenderingMesh.SamplersFixed | Engine/src/Rendering/Mesh.cpp:71-90 | with the index passed as an int, the uniform of texture i names unit i, which holds texture i |
| RenderingMesh.DrawBindsEveryTexture | Engine/src/Rendering/Platform/OpenGL/OpenGLRenderingAPI.cpp:130-136 | after drawing, unit i holds texture i, the submit has made unit 0 active again, and the last call is the submit |
| RenderingMesh.TextureCallsDrawNothing | Engine/src/Rendering/Mesh.cpp:71-90 | the per-texture calls draw nothing |
| RenderingMesh.DrawSubmitsOnce | Engine/src/Rendering/Mesh.cpp:92 | one draw of all the mesh's indices |
| RendererMesh.AttributeTableAsWritten | Engine/src/Renderer/Mesh.cpp:17-34 | attribute 0 is configured twice; the second call leaves it at the texture-coordinate offset, not the position offset |
| RendererMesh.AttributeTableFixedSound | Engine/src/Renderer/Mesh.cpp:17-34 | corrected table: attributes 0, 1 and 2 at the position, normal and texture offsets, inside the vertex and disjoint |
| RendererMesh.NewMesh | Engine/src/Renderer/Mesh.cpp:9-38 | stores the data and emits the set-up calls with the attribute table as written, on fresh names |
| RendererMesh.NewMeshLayout | Engine/src/Renderer/Mesh.cpp:17-34 | a mesh built as written ends with attribute 0 at the texture-coordinate offset, attribute 1 the normal, and nothing else configured |
| RendererMesh.NewMeshFixed | Engine/src/Renderer/Mesh.cpp:9-38 | the constructor with the corrected table, on the same fresh names |
| RendererMesh.NewMeshFixedLayout | Engine/src/Renderer/Mesh.cpp:17-34 | built with the corrected table, attributes 0, 1 and 2 read the position, normal and texture coordinates |
| RendererMesh.TextureCallsBind | Engine/src/Renderer/Mesh.cpp:45-58 | texture i is bound to unit i, the last unit made active is the last texture's, and the i-th uniform value is the sampler unit for i, narrowed or not |
| RendererMesh.Draw | Engine/src/Renderer/Mesh.cpp:40-70 | per texture: activate unit i, set the numbered uniform to i narrowed to bool (`SetInt` forwards to the bool `SetUniformInt`, Renderer/Shader.cpp:61-63), bind; then bind the array, draw, unbind, and activate unit 0 |
| RendererMesh.SamplersAsWritten | Engine/src/Renderer/Include/RendererCommand.h:72-75 | as written the first uniform names unit 0 and every later one unit 1, so from the third texture on a uniform samples a texture other than its own |
| RendererMesh.SamplersFixed | Engine/src/Renderer/Mesh.cpp:45-58 | with the index passed as an int, the uniform of texture i names unit i, which holds texture i |
| RendererMesh.DrawLeavesUnitZero | Engine/src/Renderer/Mesh.cpp:63-68 | after drawing, unit i holds texture i and unit 0 is active again |
| RendererMesh.TextureCallsDrawNothing | Engine/src/Renderer/Mesh.cpp:45-58 | the per-texture calls draw nothing |
| RendererMesh.DrawSubmitsOnce | Engine/src/Renderer/Mesh.cpp:63-68 | one draw of all the mesh's indices |
| ModelLoading.FormatOf | Engine/src/Rendering/Model.cpp:183-194 | 1, 3, 4 channels give red, RGB, RGBA; any other count leaves the format unset |
| ModelLoading.FileName | Engine/src/Rendering/Model.cpp:172-173 | directory, `/`, then the texture path |
| ModelLoading.TextureFromFile | Engine/src/Rendering/Model.cpp:170-222 | a fresh texture is always created; the upload and the four parameters follow exactly when decoding succeeds |
| ModelLoading.Find | Engine/src/Rendering/Model.cpp:147-155 | the first loaded texture with the path, if any |
| ModelLoading.FindExtend | Engine/src/Rendering/Model.cpp:147-164 | appending to the cache does not change an existing hit |
| ModelLoading.LoadTexture | Engine/src/Rendering/Model.cpp:145-164 | a hit returns the cached texture unchanged; a miss allocates a fresh id and, with caching, appends it |
| ModelLoading.LoadTextures | Engine/src/Rendering/Model.cpp:139-168 | one texture per path, in order; the cache only grows, and without caching it is unchanged |
| ModelLoading.CacheInvariant | Engine/src/Rendering/Model.cpp:139-168 | with caching, loaded paths stay distinct, the path set gains exactly the requested paths, and one id is allocated per new entry |
| ModelLoading.CachedTexturesShared | Engine/src/Rendering/Model.cpp:147-164 | with caching, every returned texture is the cache entry for its path |
| ModelLoading.UncachedReloads | Engine/src/Renderer/Model.cpp:134-141 | without caching, every path allocates a new id, even a repeated one |
| ModelLoading.LoadKinds | Engine/src/Rendering/Model.cpp:117-134 | the textures of each requested kind, in kind order; the cache only grows and stays duplicate-free with caching |
| ModelLoading.ProcessListConcat | Engine/src/Rendering/Model.cpp:40-44 | processing a concatenation is processing its halves in turn, stopping at the first fault |
| ModelLoading.ProcessNodePreorder | Engine/src/Rendering/Model.cpp:35-54 | the node walk processes the tree's meshes in pre-order: own meshes, then children |
| ModelLoading.ProcessListFaults | Engine/src/Rendering/Model.cpp:40-44 | the walk fails exactly when some mesh is faulty |
| ModelLoading.ProcessListKeeps | Engine/src/Rendering/Model.cpp:40-44 | an invariant every mesh step preserves holds after the walk |
| RenderingModel.ConvertVertexRoundTrip | Engine/src/Rendering/Model.cpp:62-105 | a vertex with normals and texture coordinates converts without loss, apart from the third texture coordinate |
| RenderingModel.ProcessMesh | Engine/src/Rendering/Model.cpp:56-137 | fails exactly when a mesh with vertices has texture coordinates but no tangents (a mesh without vertices never reads them and loads); otherwise converts every vertex, flattens the faces, loads the four kinds through the cache |
| RenderingModel.LoadModel | Engine/src/Rendering/Model.cpp:18-33 | a failed import changes nothing; otherwise the directory is set and the meshes of the pre-order walk are appended |
| RenderingModel.LoadModelFaults | Engine/src/Rendering/Model.cpp:18-33 | loading fails exactly when some mesh in the tree has vertices and texture coordinates but no tangents |
| RenderingModel.LoadModelCounts | Engine/src/Rendering/Model.cpp:18-54 | the cache stays duplicate-free and the model gains one mesh per mesh reference in the tree |
| RenderingModel.New | Engine/src/Rendering/Include/Model.h:21-26 | stores id, shader and transform, then loads once; a failed import gives no meshes |
| RenderingModel.Clear | Engine/src/Rendering/Include/Model.h:31-36 | clears the id, zeroes position and rotation and sets the scale to 1; meshes and cache are kept |
| RenderingModel.ClearIdempotent | Engine/src/Rendering/Include/Model.h:31-36 | clearing twice is clearing once, and clearing does not change what is drawn |
| RenderingModel.Draw | Engine/src/Rendering/Model.cpp:10-16 | draws every mesh in order |
| RenderingModel.DrawAllDraws | Engine/src/Rendering/Model.cpp:10-16 | one draw per mesh, of that mesh's index count, in order |
| RendererModel.LoadMaterialTextures | Engine/src/Renderer/Model.cpp:117-145 | as written: one texture per path and the cache never grows |
| RendererModel.LoadMaterialTexturesFixed | Engine/src/Renderer/Model.cpp:117-145 | corrected: misses are appended, so the cache stays duplicate-free |
| RendererModel.DuplicatePathLoadedTwice | Engine/src/Renderer/Model.cpp:134-141 | the same path twice gives two ids as written, one shared texture when corrected |
| RendererModel.ConvertVertex | Engine/src/Renderer/Model.cpp:62-86 | normals are always read; texture coordinates are zero when absent; no tangents |
| RendererModel.ProcessMesh | Engine/src/Renderer/Model.cpp:54-115 | fails exactly when a mesh with vertices has no normals (a mesh without vertices loads); converts vertices, flattens faces, loads diffuse then specular maps through the non-caching loader: the cache is unchanged, and from an empty cache every request gets a consecutive new texture name |
| RendererModel.ProcessMeshFixed | Engine/src/Renderer/Model.cpp:54-145 | fails exactly when a mesh with vertices has no normals; with the corrected loader the cache only grows and stays free of repeated paths |
| ModelLoading.LoadKindsUncached | Engine/src/Renderer/Model.cpp:117-145 | with the cache off and empty, every requested texture gets a consecutive new name, whatever its path |
| RendererModel.LoadModel | Engine/src/Renderer/Model.cpp:17-31 | a failed import changes nothing; otherwise the directory is set, the walk's meshes are appended, and the cache and GPU are the walk's |
| RendererModel.LoadModelNeverCaches | Engine/src/Renderer/Model.cpp:17-145 | a successful load leaves the model's texture cache as it was |
| RendererModel.LoadModelFaults | Engine/src/Renderer/Model.cpp:17-52 | loading fails exactly when some mesh in the tree has vertices but no normals |
| RendererModel.Draw | Engine/src/Renderer/Model.cpp:9-15 | draws every mesh in order |
| RendererModel.DrawAllDraws | Engine/src/Renderer/Model.cpp:9-15 | one draw per mesh, of that mesh's index count, in order |
| Window.SetVSync | Engine/src/Core/Window.cpp:103-115 | swap interval 1 or 0 and the flag stored; nothing else changes |
| Window.Clamp | Engine/src/Core/Window.cpp:320-328 | the value clamped into the bounds; unchanged when inside |
| Window.MoveCamera | Engine/src/Core/Window.cpp:206-282 | W/S/A/D move a connected camera; otherwise nothing changes, and only the position can change |
| Window.OnKey | Engine/src/Core/Window.cpp:206-282 | fails exactly on an escape press with no camera controller |
| Window.EscapeToggles | Engine/src/Core/Window.cpp:206-282 | an escape press toggles the connection and re-arms the first-mouse flag on disconnect; other actions change nothing |
| Window.MovesNeedConnection | Engine/src/Core/Window.cpp:206-282 | keys other than escape move only a connected camera on press or repeat, and touch nothing but the camera |
| Window.OnMouseButton | Engine/src/Core/Window.cpp:284-311 | a middle press on a connected camera resets the fov to 65; anything else changes nothing |
| Window.OnScroll | Engine/src/Core/Window.cpp:313-333 | scrolling moves the fov by minus the offset, clamped to [1, 120]; a disconnected camera is untouched |
| Window.ScrollBackRestores | Engine/src/Core/Window.cpp:313-333 | within the bounds, scrolling back restores the window |
| Window.OnMouseMove | Engine/src/Core/Window.cpp:335-382 | yaw and clamped pitch change by the scaled offsets from the last position, front follows the new angles, and the position is remembered |
| Window.FirstMoveIsZero | Engine/src/Core/Window.cpp:335-382 | the first move after arming changes neither pitch nor yaw |
| Window.ReconnectDoesNotJump | Engine/src/Core/Window.cpp:206-382 | after escape twice, the next mouse move does not turn the camera |
| Window.SubscribeAll | Engine/src/Core/Window.cpp:204-427 | each listed type gets the window's handler; others are untouched |
| Window.SetupInitEvents | Engine/src/Core/Window.cpp:204-427 | the window's handler is subscribed for every window event type, and the types are remembered |
| Window.TerminateWindow | Engine/src/Core/Window.cpp:194-202 | asks the window to close and drops every callback of each type the window subscribed |
| Window.TerminateSilencesWindowTypes | Engine/src/Core/Window.cpp:194-427 | after set-up and terminate, window event types reach nothing and other types are unaffected |
| Window.TerminateDropsForeign | Engine/src/Core/Window.cpp:194-202 | terminate also drops callbacks others registered for those types |
| Window.SubscribeKeeps | Engine/src/Core/Window.cpp:204-427 | subscribing never drops an existing callback |
| Window.RunHandler | Engine/src/Core/Window.cpp:384-426 | a close event terminates the window; events other than key and close leave the subscriptions alone |

## Left out

- GL backends, shader compilation, `stbi_load` and assimp's file reading: the engine only forwards to them. Their effects are log entries, and their results are parameters.
- `InitializeWindow` and the callback plumbing in Window.cpp, the application shell, the logger and ImGui set-up: windowing glue with no logic.
- The ImGui widget calls in BaseLayers.h (menus, sliders, colour editor, sun toggle, FPS text). Only the state the widgets change is modelled.
- The TimeOfDay sine/cosine callback, the yaw/pitch-to-direction trigonometry and `normalize(cross(front, up))`: trigonometry and floating-point vector math. The direction and side vectors are parameters (`Window.Env`).
- Floating-point rounding: every `float` is an exact `real`, and 16.0f/9.0f is the exact ratio.
- `EntityLayer::GetObjects`: it calls itself with no base case, so it never returns.
- The remove-object and transform-slider callbacks of `EditorUI::Init`: their bodies are commented out.
- Bone IDs and weights of the vertex: only their size and offset in the layout are modelled.
- The `unsigned` texture counters in the mesh draw loops: they are unbounded, with no 32-bit wrap.
- Window.SetupInitEvents: the handlers are modelled for the eight event types the window subscribes to. Their GLFW-side effects are log entries.
- EventQueue.Process: handlers may keep enqueueing forever, so the drain takes a fuel bound that the source loop does not have.
- EventDispatcher.RunCallbacks: when a callback erases or changes the list `Dispatch` is iterating, C++ leaves the behaviour undefined. The model stops with an `IteratorInvalidated` fault instead of guessing what the dangling iterators do.
- RenderingMesh.TextureCallsBind: assumes the absent Rendering `ToOpenGLTexture` maps `Texture0 + i` to `GL_TEXTURE0 + i` for every texture index. If it matched the older Renderer switch (units 0-2 only, 0 otherwise), textures from the fourth on would reach `glActiveTexture(0)`, and unit i would not hold texture i.
- RenderingMesh.DrawBindsEveryTexture: rests on the same assumption about `ToOpenGLTexture` as RenderingMesh.TextureCallsBind. It also leaves unmodelled that `Texture0 + i` past `Texture16` is not a declared enumerator.
- RenderingMesh.SamplersFixed: rests on the same assumption about `ToOpenGLTexture` as RenderingMesh.TextureCallsBind. RenderingMesh.SamplersAsWritten involves only units 0-2, which both mappings agree on.
- Letterbox.LetterboxFits: proved for non-negative regions only. ImGui's content region is never negative.
- EventManager.Dispatch: `onEvent()` takes no event in the interface, so the model records which listeners are called. `EventListener::onEvent(event)` is modelled separately (`EventManager.OnEvent`).
- The eight-argument light constructor (SceneManager.cpp:38-39): `Lighting.h` does not declare it, so the attenuation coefficients are dropped.

## Findings

| source | as written | input that shows it | evidently intended | confidence | as-written member | corrected member |
|---|---|---|---|---|---|---|
| Engine/src/Core/LayerStack.cpp:55-56 | `PopLayer` searches `[begin, begin + index)` but compares the result with `end()`, so a miss erases the first overlay and decrements the index | one overlay 7, then `PopLayer(3)`: the overlay is erased and the index wraps to 2^32-1 | compare with `begin + index`, so a miss changes nothing | high, not executed | LayerStack.PopLayerCounterexample | LayerStack.PopLayerFixed |
| Engine/src/Core/LayerStack.cpp:82-83 | `PopOverlay` searches the layer region and compares with `end()`, so it never finds an overlay and erases the first overlay instead | overlays 7 and 8, then `PopOverlay(8)`: 7 is removed | search `[begin + index, end)` | high, not executed | LayerStack.PopOverlayCounterexample | LayerStack.PopOverlayFixed |
| Engine/src/Renderer/Mesh.cpp:17-34 | the third attribute call configures index 0 again, at the texture-coordinate offset, overwriting the position attribute | any mesh: attribute 0 ends at offset 24, not 0 | index 2, two floats, at the texture-coordinate offset | high, not executed | RendererMesh.NewMeshLayout | RendererMesh.NewMeshFixedLayout |
| Engine/src/Rendering/Mesh.cpp:17-58 | bone IDs and weights (attributes 5 and 6) are both read from the texture-coordinate offset | any mesh: attributes 5 and 6 overlap attribute 2 and each other | offsets of `m_BoneIDs` and `m_Weights` (56 and 72) | medium (the vertex header is not part of this model), not executed | RenderingMesh.NewMeshLayout | RenderingMesh.NewMeshFixedLayout |
| Engine/src/Renderer/Model.cpp:134-141 | a texture loaded on a miss is never appended to `m_TexturesLoaded`, so the cache never hits | a material listing `a.png` twice: two GL textures are created | append the new texture, as the newer loader does | high, not executed | RendererModel.DuplicatePathLoadedTwice | RendererModel.LoadMaterialTexturesFixed |
| Engine/src/Rendering/Platform/OpenGL/OpenGLRenderingAPI.cpp:156-159 | `SetUniformInt` declares its value `bool`, so the texture loop's unit index `i` reaches `glUniform1i` as 0 or 1 | a mesh with three textures of distinct names: the third texture's uniform names unit 1, which holds the second texture | declare the value `int` | high, not executed | RenderingMesh.SamplersAsWritten | RenderingMesh.SamplersFixed |
| Engine/src/Renderer/Include/RendererCommand.h:72-75 | `Shader::SetInt` passes its `int` to the `bool` parameter of `SetUniformInt`, so the older mesh's unit index also arrives as 0 or 1 | a mesh with three textures of distinct names: the third uniform names unit 1 | declare the value `int` | high, not executed | RendererMesh.SamplersAsWritten | RendererMesh.SamplersFixed |
| Engine/src/Core/Events/Include/EventDispatcher.h:24-35 | `Dispatch` iterates the stored callback vector while the callbacks run; the window's close handler unsubscribes its own type, erasing that vector mid-loop | set up the window, then drain a close event followed by a key press | iterate over a copy of the callback list | high, not executed | Window.CloseDuringDispatch | EventQueue.ProcessAgree |
