/** The scene panel's letterbox fit (`SceneLayer::OnImGuiRender` in
    Engine/src/Core/Layers/Include/BaseLayers.h). The region is given as
    `float` width and height; the target sizes are `int`s, so every store
    into them truncates toward zero. */
module Letterbox {
  /** `16.0f / 9.0f`, taken as the exact ratio. */
  const Aspect: real := 16.0 / 9.0

  /** A `float` to `int` conversion: truncation toward zero. */
  function Trunc(x: real): (r: int)
    ensures x >= 0.0 ==> 0 <= r && r as real <= x < r as real + 1.0
    ensures x < 0.0 ==> r <= 0 && r as real - 1.0 < x <= r as real
  {
    if x >= 0.0 then x.Floor else -((-x).Floor)
  }

  /** `winWidth / winHeight > aspectRatio` in floating point: a zero height
      makes the ratio +inf for a positive width (true) and NaN or -inf
      otherwise (false). */
  predicate ExceedsAspect(w: real, h: real) {
    if h == 0.0 then w > 0.0 else w / h > Aspect
  }

  datatype Fit = Fit(width: int, height: int, xOffset: real, yOffset: real)

  /** The target rectangle and its offsets in the region: height-limited
      when the region is wider than 16:9, width-limited otherwise. */
  function Letterbox(w: real, h: real): (r: Fit)
    ensures ExceedsAspect(w, h) ==> r.height == Trunc(h) && r.width == Trunc(r.height as real * Aspect)
    ensures !ExceedsAspect(w, h) ==> r.width == Trunc(w) && r.height == Trunc(r.width as real / Aspect)
    ensures r.xOffset == (w - r.width as real) * 0.5 && r.yOffset == (h - r.height as real) * 0.5
  {
    if ExceedsAspect(w, h) then
      var th := Trunc(h);
      var tw := Trunc(th as real * Aspect);
      Fit(tw, th, (w - tw as real) * 0.5, (h - th as real) * 0.5)
    else
      var tw := Trunc(w);
      var th := Trunc(tw as real / Aspect);
      Fit(tw, th, (w - tw as real) * 0.5, (h - th as real) * 0.5)
  }

  /** For any non-negative region the target fits inside it, the offsets
      are non-negative, and the target is centred: the offset on each side
      is the same. */
  lemma LetterboxFits(w: real, h: real)
    requires w >= 0.0 && h >= 0.0
    ensures var r := Letterbox(w, h);
      && 0 <= r.width && r.width as real <= w
      && 0 <= r.height && r.height as real <= h
      && r.xOffset >= 0.0 && r.yOffset >= 0.0
      && r.xOffset + r.width as real + r.xOffset == w
      && r.yOffset + r.height as real + r.yOffset == h
  {
    var r := Letterbox(w, h);
    if ExceedsAspect(w, h) {
      if h > 0.0 {
        RatioBound(w, h);
        ScaleMonotone(r.height as real, h, Aspect);
      } else {
        assert r.height == 0;
      }
    } else {
      if h > 0.0 {
        RatioBound(w, h);
        ScaleMonotone(r.width as real, w, 1.0 / Aspect);
        assert r.width as real / Aspect == r.width as real * (1.0 / Aspect);
      } else {
        assert w == 0.0;
        assert r.width == 0;
      }
    }
  }

  /** Comparing `w / h` with the ratio compares `w` with `h` scaled by it. */
  lemma RatioBound(w: real, h: real)
    requires h > 0.0
    ensures w / h > Aspect ==> w > h * Aspect
    ensures w / h <= Aspect ==> w * (1.0 / Aspect) <= h
  {
    var q := w / h;
    assert w == q * h;
    if q > Aspect {
      assert q * h > Aspect * h;
    } else {
      assert q * h <= Aspect * h;
      assert w * (1.0 / Aspect) <= (Aspect * h) * (1.0 / Aspect);
    }
  }

  lemma ScaleMonotone(a: real, b: real, k: real)
    requires a <= b && k >= 0.0
    ensures a * k <= b * k
  {
  }

  /** The target keeps 16:9 up to the truncation: the limited side is the
      region's, the other is within one pixel of the exact ratio. */
  lemma LetterboxKeepsAspect(w: real, h: real)
    requires w >= 0.0 && h >= 0.0
    ensures var r := Letterbox(w, h);
      if ExceedsAspect(w, h) then
        r.width as real <= r.height as real * Aspect < r.width as real + 1.0
      else
        r.height as real <= r.width as real / Aspect < r.height as real + 1.0
  {
    var r := Letterbox(w, h);
    if ExceedsAspect(w, h) {
      assert r.height >= 0;
    } else {
      assert r.width >= 0;
    }
  }
}

/** The transform panel (`TransformLayer` in
    Engine/src/Core/Layers/Include/BaseLayers.h): nine float fields edited
    by drag widgets and written back into the selected object at the end of
    every frame in which an object with a name is selected. */
module TransformLayer {
  import opened Vectors
  import Scene

  datatype Axis = X | Y | Z

  function Get(v: Vec3, a: Axis): real {
    match a
    case X => v.x
    case Y => v.y
    case Z => v.z
  }

  function With(v: Vec3, a: Axis, value: real): (r: Vec3)
    ensures Get(r, a) == value
    ensures forall b :: b != a ==> Get(r, b) == Get(v, b)
  {
    match a
    case X => v.(x := value)
    case Y => v.(y := value)
    case Z => v.(z := value)
  }

  datatype Transform = Transform(
    selected: Scene.SceneObject,
    position: Vec3,
    rotation: Vec3,
    scale: Vec3,
    linked: bool)

  /** A freshly constructed panel. Position, rotation and the link flag have
      no initialiser, so whatever they hold is passed in; the scale fields
      start at 1 and the selected object is default-constructed. */
  function New(position: Vec3, rotation: Vec3, linked: bool, shader: Scene.Shader, size: nat): (t: Transform)
    ensures t.scale == One3 && t.selected.name == ""
    ensures t.position == position && t.rotation == rotation && t.linked == linked
  {
    Transform(Scene.DefaultObject(false, shader, size), position, rotation, One3, linked)
  }

  /** `SetSelectedObject`: store a copy and load its transform into the
      fields. */
  function SetSelectedObject(t: Transform, o: Scene.SceneObject): (r: Transform)
    ensures r.selected == o
    ensures r.position == o.position && r.rotation == o.rotation && r.scale == o.scale
    ensures r.linked == t.linked
  {
    t.(selected := o, position := o.position, rotation := o.rotation, scale := o.scale)
  }

  /** `ClearSelectedObject`: clear the stored object, zero the position and
      rotation fields and set the scale fields to 1. */
  function ClearSelectedObject(t: Transform): (r: Transform)
    ensures r.selected == Scene.Clear(t.selected) && r.selected.name == ""
    ensures r.position == Zero3 && r.rotation == Zero3 && r.scale == One3
    ensures r.linked == t.linked
  {
    t.(selected := Scene.Clear(t.selected), position := Zero3, rotation := Zero3, scale := One3)
  }

  /** The widget the user works in one frame. `DragScale` carries the
      value the drag produced; `ClickLink` toggles the link checkbox. */
  datatype Input =
    | Idle
    | DragPosition(axis: Axis, value: real)
    | DragRotation(axis: Axis, value: real)
    | DragScale(axis: Axis, value: real)
    | ClickLink

  /** A scale drag on one axis: with the link on, the other two axes take
      the dragged value as well. */
  function ScaleDrag(t: Transform, a: Axis, value: real): (r: Transform)
    ensures t.linked ==> r.scale == Splat(value)
    ensures !t.linked ==> r.scale == With(t.scale, a, value)
    ensures r.(scale := t.scale) == t
  {
    if t.linked then t.(scale := Splat(value)) else t.(scale := With(t.scale, a, value))
  }

  /** The link checkbox changes state; turning it on copies X into Y and
      Z, turning it off keeps the scale. */
  function Link(t: Transform): (r: Transform)
    ensures r.linked == !t.linked
    ensures r.linked ==> r.scale == Splat(t.scale.x)
    ensures !r.linked ==> r.scale == t.scale
    ensures r.(linked := t.linked, scale := t.scale) == t
  {
    if !t.linked then t.(linked := true, scale := Splat(t.scale.x)) else t.(linked := false)
  }

  /** The fields copied back into the selected object. */
  function WriteBack(t: Transform): (r: Transform)
    ensures r.selected.position == t.position && r.selected.rotation == t.rotation
    ensures r.selected.scale == t.scale
    ensures r.selected.name == t.selected.name
  {
    t.(selected := t.selected.(position := t.position, rotation := t.rotation, scale := t.scale))
  }

  /** The selected object agrees with the fields. */
  predicate InSync(t: Transform) {
    t.selected.position == t.position && t.selected.rotation == t.rotation && t.selected.scale == t.scale
  }

  /** One frame of the panel: nothing happens while the selected object has
      an empty name; otherwise the input is applied and the fields are
      written back. The remove and slider callbacks the editor registers
      have empty bodies, so they add nothing. */
  function Frame(t: Transform, input: Input): (r: Transform)
    ensures t.selected.name == "" ==> r == t
    ensures t.selected.name != "" ==> InSync(r) && r.selected.name == t.selected.name
  {
    if t.selected.name == "" then t
    else
      var t' := match input
        case Idle => t
        case DragPosition(a, v) => t.(position := With(t.position, a, v))
        case DragRotation(a, v) => t.(rotation := With(t.rotation, a, v))
        case DragScale(a, v) => ScaleDrag(t, a, v)
        case ClickLink => Link(t);
      WriteBack(t')
  }

  /** Selecting an object and running an idle frame writes back exactly
      the object selected. */
  lemma SelectRoundTrip(t: Transform, o: Scene.SceneObject)
    requires o.name != ""
    ensures Frame(SetSelectedObject(t, o), Idle).selected == o
  {
  }

  /** With the link on, dragging any one axis leaves all three scale axes
      equal, in the fields and in the object. */
  lemma LinkedDragEqualises(t: Transform, a: Axis, v: real)
    requires t.linked && t.selected.name != ""
    ensures var r := Frame(t, DragScale(a, v));
      r.scale == Splat(v) && r.selected.scale == Splat(v) && r.linked
  {
  }

  /** With the link off, a scale drag moves only the dragged axis. */
  lemma UnlinkedDragMovesOneAxis(t: Transform, a: Axis, v: real)
    requires !t.linked && t.selected.name != ""
    ensures var r := Frame(t, DragScale(a, v));
      Get(r.scale, a) == v && forall b :: b != a ==> Get(r.scale, b) == Get(t.scale, b)
  {
  }

  /** Turning the link on copies X into Y and Z; a later linked drag keeps
      the three equal. */
  lemma EnablingLinkCopiesX(t: Transform)
    requires !t.linked && t.selected.name != ""
    ensures var r := Frame(t, ClickLink);
      r.linked && r.scale == Splat(t.scale.x) && r.selected.scale == r.scale
  {
  }

  /** Clearing resets the fields and empties the name, so later frames
      leave the panel alone whatever the input. */
  lemma ClearedPanelIsInert(t: Transform, input: Input)
    ensures var c := ClearSelectedObject(t);
      Frame(c, input) == c && c.position == Zero3 && c.scale == One3
  {
  }
}

/** The entity list (`EntityLayer` in
    Engine/src/Core/Layers/Include/BaseLayers.h). The selection is a
    static member shared by all instances; its definition is not part of
    this model, so its first value is passed in. */
module EntityLayer {
  import opened Wrappers
  import opened Vectors
  import Scene
  import TransformLayer

  datatype Entities = Entities(objects: seq<Scene.SceneObject>, selection: int)

  /** `AddObject`: append. */
  function AddObject(es: Entities, o: Scene.SceneObject): (r: Entities)
    ensures r.objects == es.objects + [o] && r.selection == es.selection
  {
    es.(objects := es.objects + [o])
  }

  /** `SetObjectVector`: replace the whole list. */
  function SetObjectVector(es: Entities, objects: seq<Scene.SceneObject>): (r: Entities)
    ensures r.objects == objects && r.selection == es.selection
  {
    es.(objects := objects)
  }

  /** The position of the first object called `name`, or the length of the
      list. */
  function FindName(objects: seq<Scene.SceneObject>, name: string): (p: nat)
    ensures p <= |objects|
    ensures p < |objects| ==> objects[p].name == name
    ensures forall j :: 0 <= j < p ==> objects[j].name != name
  {
    if |objects| == 0 then 0
    else if objects[0].name == name then 0
    else 1 + FindName(objects[1..], name)
  }

  predicate HasName(objects: seq<Scene.SceneObject>, name: string) {
    exists j | 0 <= j < |objects| :: objects[j].name == name
  }

  /** `RemoveObject`: erase the first object whose name matches, keeping
      the order of the rest. */
  function RemoveObject(es: Entities, o: Scene.SceneObject): (r: Entities)
    ensures r.selection == es.selection
    ensures !HasName(es.objects, o.name) ==> r == es
    ensures HasName(es.objects, o.name) ==>
      var p := FindName(es.objects, o.name);
      && |r.objects| == |es.objects| - 1
      && r.objects == es.objects[..p] + es.objects[p + 1..]
  {
    var p := FindName(es.objects, o.name);
    if p == |es.objects| then es
    else es.(objects := es.objects[..p] + es.objects[p + 1..])
  }

  /** Adding an object whose name is new and removing it again restores the
      list. */
  lemma AddRemoveRoundTrip(es: Entities, o: Scene.SceneObject)
    requires !HasName(es.objects, o.name)
    ensures RemoveObject(AddObject(es, o), o) == es
  {
    var xs := es.objects + [o];
    assert xs[|es.objects|].name == o.name;
    assert FindName(xs, o.name) == |es.objects|;
    assert xs[..|es.objects|] == es.objects;
  }

  /** Removal drops exactly one object with the name, and every other
      object with that name stays. */
  lemma RemoveDropsOne(es: Entities, o: Scene.SceneObject)
    requires HasName(es.objects, o.name)
    ensures var r := RemoveObject(es, o);
      |r.objects| == |es.objects| - 1
      && multiset(r.objects) + multiset{es.objects[FindName(es.objects, o.name)]} == multiset(es.objects)
  {
    var p := FindName(es.objects, o.name);
    assert es.objects == es.objects[..p] + [es.objects[p]] + es.objects[p + 1..];
  }

  /** `SetSelectedEntity`. */
  function SetSelectedEntity(es: Entities, i: int): (r: Entities)
    ensures r.selection == i && r.objects == es.objects
  {
    es.(selection := i)
  }

  /** `ClearEntitySelection`: the selection becomes -1. */
  function ClearEntitySelection(es: Entities): (r: Entities)
    ensures r.selection == -1 && r.objects == es.objects
  {
    es.(selection := -1)
  }

  /** One frame of the list. The clear button calls the registered callback,
      which the editor sets to `ClearEntitySelection`; a clicked row becomes
      the selection and is loaded into the transform panel; a selection of
      -1 clears that panel. */
  function Frame(es: Entities, t: TransformLayer.Transform, clearClicked: bool, clicked: Option<nat>)
    : (r: (Entities, TransformLayer.Transform))
    ensures r.0.objects == es.objects
    ensures clicked.Some? && clicked.value < |es.objects| ==>
      r.0.selection == clicked.value && r.1 == TransformLayer.SetSelectedObject(t, es.objects[clicked.value])
    ensures !(clicked.Some? && clicked.value < |es.objects|) && clearClicked ==>
      r.0.selection == -1 && r.1 == TransformLayer.ClearSelectedObject(t)
  {
    var es1 := if clearClicked then ClearEntitySelection(es) else es;
    var (es2, t2) :=
      if clicked.Some? && clicked.value < |es.objects| then
        (SetSelectedEntity(es1, clicked.value), TransformLayer.SetSelectedObject(t, es.objects[clicked.value]))
      else (es1, t);
    (es2, if es2.selection == -1 then TransformLayer.ClearSelectedObject(t2) else t2)
  }

  /** After the clear button the transform panel shows nothing: its fields
      are reset and it ignores input until something is selected again. */
  lemma ClearSelectionClearsPanel(es: Entities, t: TransformLayer.Transform, input: TransformLayer.Input)
    ensures var r := Frame(es, t, true, None);
      && r.0.selection == -1
      && r.1.position == Zero3 && r.1.rotation == Zero3 && r.1.scale == One3
      && TransformLayer.Frame(r.1, input) == r.1
  {
  }

  /** Clicking a named row and letting the panel run an idle frame leaves
      the panel holding exactly that object. */
  lemma ClickedRowReachesPanel(es: Entities, t: TransformLayer.Transform, i: nat)
    requires i < |es.objects| && es.objects[i].name != ""
    ensures var r := Frame(es, t, false, Some(i));
      r.0.selection == i && TransformLayer.Frame(r.1, TransformLayer.Idle).selected == es.objects[i]
  {
  }
}

/** The shape picker of the controls panel (`ControlsLayer` in
    Engine/src/Core/Layers/Include/BaseLayers.h). */
module ControlsLayer {
  import Wrappers

  /** `ControlsLayer::SceneObject`, in declaration order. */
  datatype Shape = None | Cube | Sphere | Pyramid

  /** The values the static `selected_object` takes: -1 before any pick,
      then the index of a picked name. */
  type Selection = i: int | -1 <= i <= 2

  const Names: seq<string> := ["Cube", "Sphere", "Pyramid"]

  function Ordinal(s: Shape): (n: nat)
    ensures n <= 3
  {
    match s
    case None => 0
    case Cube => 1
    case Sphere => 2
    case Pyramid => 3
  }

  /** `static_cast<SceneObject>(selected_object + 1)`. */
  function ShapeOf(sel: Selection): (s: Shape)
    ensures Ordinal(s) == sel + 1
    ensures s == None <==> sel == -1
  {
    if sel == -1 then None else if sel == 0 then Cube else if sel == 1 then Sphere else Pyramid
  }

  /** The row of the picker a shape comes from. */
  function SelectionOf(s: Shape): (sel: Selection)
    ensures sel + 1 == Ordinal(s)
  {
    Ordinal(s) - 1
  }

  /** The mapping is a bijection between selections and shapes. */
  lemma ShapeSelectionRoundTrip(sel: Selection, s: Shape)
    ensures SelectionOf(ShapeOf(sel)) == sel
    ensures ShapeOf(SelectionOf(s)) == s
  {
  }

  /** The picker's state: the static selection and `m_AddObject`, which
      has no initialiser, so its first value is passed in. */
  datatype Controls = Controls(selection: Selection, addObject: Shape)

  /** One frame of the picker: a clicked row becomes the selection, and
      while the popup is open the chosen shape is stored. */
  function Pick(c: Controls, popupOpen: bool, clicked: Wrappers.Option<nat>): (r: Controls)
    ensures popupOpen && clicked.Some? && clicked.value < |Names| ==>
      r.selection == clicked.value && r.addObject == ShapeOf(clicked.value)
    ensures popupOpen ==> r.addObject == ShapeOf(r.selection)
    ensures !popupOpen ==> r == c
  {
    if !popupOpen then c
    else
      var sel: Selection := if clicked.Some? && clicked.value < |Names| then clicked.value else c.selection;
      Controls(sel, ShapeOf(sel))
  }

  /** Until a row is picked an open popup stores `None`, so the add button
      adds nothing. */
  lemma NothingPickedIsNone(c: Controls)
    requires c.selection == -1
    ensures Pick(c, true, Wrappers.None).addObject == None
  {
  }
}
