/** The editor front end (Engine/src/Core/EditorUI.cpp): push and pop
    wrappers around the layer stack, the layers `Init` creates, and the
    callbacks it registers that carry logic of their own. */
module EditorUI {
  import opened Wrappers
  import opened LayerStack
  import EntityLayer
  import ControlsLayer

  /** `PushLayer`: delegate to the stack, which attaches the layer, then
      attach it again. */
  function PushLayer<L>(s: Stack<L>, l: L): (r: Result<Stack<L>, Fault>)
    ensures r.Err? <==> !s.Valid()
    ensures r.Ok? ==> r.value.layers == s.layers[..s.index] + [l] + s.layers[s.index..]
    ensures r.Ok? ==> r.value.hooks == s.hooks + [Attach(l), Attach(l)]
    ensures r.Ok? && s.index + 1 < U32 ==> r.value.index == s.index + 1
  {
    match LayerStack.PushLayer(s, l)
    case Err(f) => Err(f)
    case Ok(t) => Ok(t.(hooks := t.hooks + [Attach(l)]))
  }

  /** `PushOverlay`: delegate to the stack, which does not attach, then
      attach the overlay. */
  function PushOverlay<L>(s: Stack<L>, l: L): (r: Stack<L>)
    ensures r.layers == s.layers + [l] && r.index == s.index
    ensures r.hooks == s.hooks + [Attach(l)]
  {
    var t := LayerStack.PushOverlay(s, l);
    t.(hooks := t.hooks + [Attach(l)])
  }

  /** How often the log attaches `l`. */
  function Attached<L(==)>(hooks: seq<Hook<L>>, l: L): nat {
    multiset(hooks)[Attach(l)]
  }

  /** Through the wrappers a layer is attached twice and an overlay once. */
  lemma AttachCounts<L>(s: Stack<L>, l: L)
    requires s.Valid()
    ensures PushLayer(s, l).Ok?
    ensures Attached(PushLayer(s, l).value.hooks, l) == Attached(s.hooks, l) + 2
    ensures Attached(PushOverlay(s, l).hooks, l) == Attached(s.hooks, l) + 1
  {
    assert multiset(s.hooks + [Attach(l), Attach(l)]) == multiset(s.hooks) + multiset{Attach(l), Attach(l)};
    assert multiset(s.hooks + [Attach(l)]) == multiset(s.hooks) + multiset{Attach(l)};
  }

  /** `PopLayer` forwards to the stack's pop as written. A layer in the
      layer region loses its first occurrence; a pointer outside it is a
      no-op only when there are no overlays, and otherwise erases the first
      overlay and decrements the index with wrap-around. */
  function PopLayer<L(==)>(s: Stack<L>, l: L): (r: Result<Stack<L>, Fault>)
    ensures r.Err? <==> !s.Valid()
    ensures s.Valid() && l in s.Region() ==>
      && r == Ok(LayerStack.PopLayerFixed(s, l)) && r.value.Valid() && r.value.index == s.index - 1
      && r.value.Region() == RemoveAt(s.Region(), Find(s.Region(), l))
      && r.value.Overlays() == s.Overlays()
      && r.value.hooks == s.hooks + [Detach(l)]
    ensures s.Valid() && l !in s.Region() && s.index == |s.layers| ==> r == Ok(s)
    ensures s.Valid() && l !in s.Region() && s.index < |s.layers| ==>
      r == Ok(Stack(RemoveAt(s.layers, s.index), Dec(s.index), s.hooks + [Detach(l)]))
  {
    LayerStack.PopLayer(s, l)
  }

  /** `PopOverlay` forwards to the stack's pop as written, which searches
      the layer region only: a layer there is erased with the index kept;
      a pointer outside it is a no-op only when there are no overlays, and
      otherwise erases the first overlay. */
  function PopOverlay<L(==)>(s: Stack<L>, l: L): (r: Result<Stack<L>, Fault>)
    ensures r.Err? <==> !s.Valid()
    ensures s.Valid() && l in s.Region() ==>
      r == Ok(Stack(RemoveAt(s.layers, Find(s.Region(), l)), s.index, s.hooks + [Detach(l)]))
    ensures s.Valid() && l !in s.Region() && s.index == |s.layers| ==> r == Ok(s)
    ensures s.Valid() && l !in s.Region() && s.index < |s.layers| ==>
      r == Ok(Stack(RemoveAt(s.layers, s.index), s.index, s.hooks + [Detach(l)]))
  {
    LayerStack.PopOverlay(s, l)
  }

  /** The wrapper over the corrected layer pop, which compares the search
      result with the end of the layer region. */
  function PopLayerFixed<L(==)>(s: Stack<L>, l: L): (r: Result<Stack<L>, Fault>)
    ensures r.Err? <==> !s.Valid()
    ensures s.Valid() && l !in s.Region() ==> r == Ok(s)
    ensures s.Valid() && l in s.Region() ==>
      && r.Ok? && r.value.Valid() && r.value.index == s.index - 1
      && r.value.Region() == RemoveAt(s.Region(), Find(s.Region(), l))
      && r.value.Overlays() == s.Overlays()
      && r.value.hooks == s.hooks + [Detach(l)]
  {
    if s.index > |s.layers| then Err(IndexPastEnd) else Ok(LayerStack.PopLayerFixed(s, l))
  }

  /** The wrapper over the corrected overlay pop, which searches the
      overlay region. */
  function PopOverlayFixed<L(==)>(s: Stack<L>, l: L): (r: Result<Stack<L>, Fault>)
    ensures r.Err? <==> !s.Valid()
    ensures s.Valid() && l !in s.Overlays() ==> r == Ok(s)
    ensures s.Valid() && l in s.Overlays() ==>
      && r.Ok? && r.value.Valid() && r.value.index == s.index && r.value.Region() == s.Region()
      && r.value.Overlays() == RemoveAt(s.Overlays(), Find(s.Overlays(), l))
      && r.value.hooks == s.hooks + [Detach(l)]
  {
    if s.index > |s.layers| then Err(IndexPastEnd) else Ok(LayerStack.PopOverlayFixed(s, l))
  }

  /** Pushing a new layer through the wrappers and popping it again
      restores the stack: the pushed layer is in the layer region, where
      the pop as written does find it. The log keeps the two attaches and
      the detach. */
  lemma PushPopLayer<L>(s: Stack<L>, l: L)
    requires s.Valid() && s.index + 1 < U32 && l !in s.Region()
    ensures PushLayer(s, l).Ok? && PopLayer(PushLayer(s, l).value, l).Ok?
    ensures var r := PopLayer(PushLayer(s, l).value, l).value;
      r.layers == s.layers && r.index == s.index && r.hooks == s.hooks + [Attach(l), Attach(l), Detach(l)]
  {
    PushPopLayerRoundTrip(s, l);
    PushLayerSplit(s, l);
    var t := LayerStack.PushLayer(s, l).value;
    var t' := PushLayer(s, l).value;
    assert t' == t.(hooks := t.hooks + [Attach(l)]);
    assert t'.Region() == t.Region() == s.Region() + [l];
    assert LayerStack.PopLayerFixed(t', l) == LayerStack.PopLayerFixed(t, l).(hooks := t'.hooks + [Detach(l)]);
  }

  /** On a stack without overlays, pushing an overlay that is not a layer
      and popping it again restores the stack: the pop as written erases
      the first element past the layer region, which is the new overlay. */
  lemma PushPopOverlay<L>(s: Stack<L>, l: L)
    requires s.Valid() && s.index == |s.layers| && l !in s.Region()
    ensures PushOverlay(s, l).Valid() && PopOverlay(PushOverlay(s, l), l).Ok?
    ensures var r := PopOverlay(PushOverlay(s, l), l).value;
      r.layers == s.layers && r.index == s.index && r.hooks == s.hooks + [Attach(l), Detach(l)]
  {
    var t := PushOverlay(s, l);
    assert t.layers[..t.index] == s.layers[..s.index];
    assert RemoveAt(t.layers, s.index) == s.layers;
  }

  /** With an overlay already on the stack, the same round trip erases the
      older overlay and keeps the new one. */
  lemma PushPopOverlayDropsOlder<L>(s: Stack<L>, l: L)
    requires s.Valid() && s.index < |s.layers| && l !in s.Region()
    ensures PushOverlay(s, l).Valid() && PopOverlay(PushOverlay(s, l), l).Ok?
    ensures var r := PopOverlay(PushOverlay(s, l), l).value;
      && r.layers == s.layers[..s.index] + s.layers[s.index + 1..] + [l]
      && r.index == s.index && r.hooks == s.hooks + [Attach(l), Detach(l)]
  {
    var t := PushOverlay(s, l);
    assert t.layers[..t.index] == s.layers[..s.index];
    assert RemoveAt(t.layers, s.index) == s.layers[..s.index] + s.layers[s.index + 1..] + [l];
  }

  /** Fixed, the overlay round trip restores any valid stack the overlay
      was not on. */
  lemma PushPopOverlayFixed<L>(s: Stack<L>, l: L)
    requires s.Valid() && l !in s.Overlays()
    ensures PushOverlay(s, l).Valid() && PopOverlayFixed(PushOverlay(s, l), l).Ok?
    ensures var r := PopOverlayFixed(PushOverlay(s, l), l).value;
      r.layers == s.layers && r.index == s.index && r.hooks == s.hooks + [Attach(l), Detach(l)]
  {
    PushPopOverlayRoundTrip(s, l);
    var t := LayerStack.PushOverlay(s, l);
    var t' := PushOverlay(s, l);
    assert t' == t.(hooks := t.hooks + [Attach(l)]);
    assert LayerStack.PopOverlayFixed(t', l) == LayerStack.PopOverlayFixed(t, l).(hooks := t'.hooks + [Detach(l)]);
  }

  /** The layers `Init` creates. Each is a fresh object, so the kind
      identifies it. */
  datatype LayerKind = Menu | Debug | Entity | Transform | Controls

  /** The editor: its layer stack and `m_Layers`, which holds copies. */
  datatype Editor = Editor(stack: Stack<LayerKind>, copies: seq<LayerKind>)

  const InitOrder: seq<LayerKind> := [Menu, Debug, Entity, Transform, Controls]

  /** Push each of `ls` in turn through the layer wrapper. */
  function PushAll<L>(s: Stack<L>, ls: seq<L>): Result<Stack<L>, Fault>
    decreases |ls|
  {
    if |ls| == 0 then Ok(s)
    else match PushLayer(s, ls[0])
      case Err(f) => Err(f)
      case Ok(t) => PushAll(t, ls[1..])
  }

  /** The hook log of pushing `ls` through the wrapper: two attaches each. */
  function AttachedTwice<L>(ls: seq<L>): (hs: seq<Hook<L>>)
    ensures |hs| == 2 * |ls|
    ensures forall j :: 0 <= j < |ls| ==> hs[2 * j] == Attach(ls[j]) && hs[2 * j + 1] == Attach(ls[j])
  {
    if |ls| == 0 then [] else [Attach(ls[0]), Attach(ls[0])] + AttachedTwice(ls[1..])
  }

  /** On a stack without overlays, pushing a list of layers appends it to
      the layer region in order and attaches each layer twice. */
  lemma {:induction false} PushAllOnTop<L>(s: Stack<L>, ls: seq<L>)
    requires s.Valid() && s.index == |s.layers| && |s.layers| + |ls| < U32
    ensures PushAll(s, ls).Ok?
    ensures var r := PushAll(s, ls).value;
      && r.layers == s.layers + ls && r.index == |s.layers| + |ls|
      && r.hooks == s.hooks + AttachedTwice(ls)
    decreases |ls|
  {
    if |ls| == 0 {
      assert s.layers + ls == s.layers;
      assert s.hooks + AttachedTwice(ls) == s.hooks;
    } else {
      var t := PushLayer(s, ls[0]).value;
      assert s.layers[..s.index] + [ls[0]] + s.layers[s.index..] == s.layers + [ls[0]];
      PushAllOnTop(t, ls[1..]);
      assert s.layers + [ls[0]] + ls[1..] == s.layers + ls;
      assert s.hooks + [Attach(ls[0]), Attach(ls[0])] + AttachedTwice(ls[1..]) == s.hooks + AttachedTwice(ls);
    }
  }

  /** `Init`: push the menu, debug, entity, transform and controls layers
      in that order, each through the layer wrapper; a copy of the controls
      layer goes into `m_Layers` before it is pushed. */
  function Init(): (r: Editor)
    ensures r.stack.Valid()
    ensures r.stack.Region() == InitOrder && r.stack.Overlays() == []
    ensures r.stack.hooks == AttachedTwice(InitOrder)
    ensures r.copies == [Controls]
  {
    PushAllOnTop(Empty(), InitOrder);
    Editor(PushAll(Empty(), InitOrder).value, [Controls])
  }

  /** Popping the newest layer of a stack without overlays removes it, as
      long as it occurs only once. */
  lemma PopNewest<L>(s: Stack<L>, l: L)
    requires s.Valid() && s.index == |s.layers| > 0 && s.layers[s.index - 1] == l
    requires l !in s.layers[..s.index - 1]
    ensures PopLayer(s, l).Ok?
    ensures var r := PopLayer(s, l).value;
      r.layers == s.layers[..s.index - 1] && r.index == s.index - 1
  {
    var xs := s.layers[..s.index - 1];
    assert s.Region() == xs + [l];
    FindAfter(xs, l);
    var r := PopLayer(s, l).value;
    assert r.layers == r.Region() + r.Overlays();
  }

  /** Pop each of `ls` in turn through the layer wrapper. */
  function PopAll<L(==)>(s: Stack<L>, ls: seq<L>): Result<Stack<L>, Fault>
    decreases |ls|
  {
    if |ls| == 0 then Ok(s)
    else match PopLayer(s, ls[0])
      case Err(f) => Err(f)
      case Ok(t) => PopAll(t, ls[1..])
  }

  function Reversed<L>(ls: seq<L>): (r: seq<L>)
    ensures |r| == |ls|
    ensures forall j :: 0 <= j < |ls| ==> r[j] == ls[|ls| - 1 - j]
  {
    if |ls| == 0 then [] else [ls[|ls| - 1]] + Reversed(ls[..|ls| - 1])
  }

  predicate Distinct<L(==)>(ls: seq<L>) {
    forall i, j :: 0 <= i < j < |ls| ==> ls[i] != ls[j]
  }

  /** Popping the layers of a stack without overlays newest first, each
      occurring once, empties it. */
  lemma {:induction false} PopAllNewestFirst<L>(s: Stack<L>, ls: seq<L>)
    requires s.Valid() && s.index == |s.layers| && s.layers == ls && Distinct(ls)
    ensures PopAll(s, Reversed(ls)).Ok?
    ensures PopAll(s, Reversed(ls)).value.layers == [] && PopAll(s, Reversed(ls)).value.index == 0
    decreases |ls|
  {
    if |ls| > 0 {
      var n := |ls| - 1;
      var l := ls[n];
      var front := ls[..n];
      assert l !in front by {
        forall j | 0 <= j < n
          ensures front[j] != l
        {
          assert front[j] == ls[j];
        }
      }
      PopNewest(s, l);
      var t := PopLayer(s, l).value;
      assert Distinct(front) by {
        forall i, j | 0 <= i < j < |front|
          ensures front[i] != front[j]
        {
          assert front[i] == ls[i] && front[j] == ls[j];
        }
      }
      PopAllNewestFirst(t, front);
      assert Reversed(ls)[1..] == Reversed(front);
    }
  }

  /** Popping every layer `Init` pushed, newest first, empties the stack. */
  lemma InitThenPopAll()
    ensures PopAll(Init().stack, Reversed(InitOrder)).Ok?
    ensures var r := PopAll(Init().stack, Reversed(InitOrder)).value;
      r.layers == [] && r.index == 0
  {
    var s := Init().stack;
    assert s.layers == s.Region() + s.Overlays();
    PopAllNewestFirst(s, InitOrder);
  }

  /** `RenderingAPI::PolygonDataType`. */
  datatype PolygonMode = PolygonNone | PolygonLine | PolygonFill

  /** The wireframe callback: from line mode back to fill, from any other
      mode to line. The result is the mode sent to `SetPolygonMode` and the
      mode stored in the window. */
  function ToggleWireframe(mode: PolygonMode): (r: (PolygonMode, PolygonMode))
    ensures r.0 == r.1
    ensures r.0 == PolygonFill <==> mode == PolygonLine
    ensures r.0 != PolygonNone
  {
    if mode == PolygonLine then (PolygonFill, PolygonFill) else (PolygonLine, PolygonLine)
  }

  /** Two toggles restore line or fill mode; from the unset mode they end
      in fill. */
  lemma ToggleTwice(mode: PolygonMode)
    ensures mode != PolygonNone ==> ToggleWireframe(ToggleWireframe(mode).0).0 == mode
    ensures mode == PolygonNone ==> ToggleWireframe(ToggleWireframe(mode).0).0 == PolygonFill
  {
  }

  /** The clear-selection callback registered on the entity layer. */
  function ClearSelection(es: EntityLayer.Entities): (r: EntityLayer.Entities)
    ensures r.selection == -1 && r.objects == es.objects
  {
    EntityLayer.ClearEntitySelection(es)
  }

  /** The add-object callback: a picked cube clears the entity selection;
      the other shapes, and no shape, do nothing (adding the cube itself is
      not part of the callback). */
  function AddObjectPressed(es: EntityLayer.Entities, picked: ControlsLayer.Shape): (r: EntityLayer.Entities)
    ensures r.objects == es.objects
    ensures r.selection == if picked == ControlsLayer.Cube then -1 else es.selection
  {
    if picked == ControlsLayer.Cube then ClearSelection(es) else es
  }

  /** Picking the first row of the shape popup and pressing the add button
      clears the selection; an unpicked popup leaves it alone. */
  lemma PickThenAdd(es: EntityLayer.Entities, c: ControlsLayer.Controls)
    ensures AddObjectPressed(es, ControlsLayer.Pick(c, true, Some(0)).addObject).selection == -1
    ensures c.selection == -1 ==>
      AddObjectPressed(es, ControlsLayer.Pick(c, true, None).addObject) == es
  {
  }
}
