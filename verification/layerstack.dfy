/** The editor's layer stack (Engine/src/Core/LayerStack.cpp): one vector of
    layer pointers split by `m_LayerIndex` into layers (before the index) and
    overlays (from the index on). Layers are compared by identity, so the
    element type only needs equality. Every `OnAttach`/`OnDetach` the stack
    calls is appended to a hook log. */
module LayerStack {
  import opened Wrappers

  /** `m_LayerIndex` is an `unsigned`: arithmetic on it wraps modulo 2^32. */
  const U32: nat := 0x1_0000_0000
  type Index = i: nat | i < U32

  datatype Hook<L> = Attach(layer: L) | Detach(layer: L)

  datatype Stack<L> = Stack(layers: seq<L>, index: Index, hooks: seq<Hook<L>>) {
    /** The split point lies inside the vector. */
    ghost predicate Valid() {
      index <= |layers|
    }
    /** The layer region `[begin, begin + index)`. */
    function Region(): seq<L>
      requires Valid()
    {
      layers[..index]
    }
    /** The overlay region `[begin + index, end)`. */
    function Overlays(): seq<L>
      requires Valid()
    {
      layers[index..]
    }
  }

  /** `begin() + m_LayerIndex` points past `end()`: every later iterator
      computation on the stack is undefined behaviour. */
  datatype Fault = IndexPastEnd

  function Empty<L>(): Stack<L> {
    Stack([], 0, [])
  }

  function Inc(i: Index): (r: Index)
    ensures i + 1 < U32 ==> r == i + 1
    ensures i + 1 == U32 ==> r == 0
  {
    (i + 1) % U32
  }

  function Dec(i: Index): (r: Index)
    ensures i > 0 ==> r == i - 1
    ensures i == 0 ==> r == U32 - 1
  {
    if i == 0 then U32 - 1 else i - 1
  }

  /** `std::find` over a whole range: the position of the first match, or
      the length of the range when nothing matches. */
  function Find<L(==)>(xs: seq<L>, x: L): (p: nat)
    ensures p <= |xs|
    ensures p < |xs| ==> xs[p] == x
    ensures forall j :: 0 <= j < p ==> xs[j] != x
    ensures p == |xs| <==> x !in xs
  {
    if |xs| == 0 then 0 else if xs[0] == x then 0 else 1 + Find(xs[1..], x)
  }

  function RemoveAt<L>(xs: seq<L>, p: nat): (r: seq<L>)
    requires p < |xs|
    ensures |r| == |xs| - 1
    ensures forall j :: 0 <= j < p ==> r[j] == xs[j]
    ensures forall j :: p <= j < |r| ==> r[j] == xs[j + 1]
  {
    xs[..p] + xs[p + 1..]
  }

  /** `PushLayer`: insert at `begin + m_LayerIndex`, increment the index,
      call `OnAttach`. */
  function PushLayer<L>(s: Stack<L>, l: L): (r: Result<Stack<L>, Fault>)
    ensures r.Err? <==> !s.Valid()
    ensures r.Ok? ==> r.value.layers == s.layers[..s.index] + [l] + s.layers[s.index..]
    ensures r.Ok? ==> r.value.hooks == s.hooks + [Attach(l)]
    ensures r.Ok? && s.index + 1 < U32 ==> r.value.index == s.index + 1
  {
    if s.index > |s.layers| then Err(IndexPastEnd)
    else Ok(Stack(s.layers[..s.index] + [l] + s.layers[s.index..], Inc(s.index), s.hooks + [Attach(l)]))
  }

  /** `PushOverlay`: `emplace_back`; neither the index nor the hooks change. */
  function PushOverlay<L>(s: Stack<L>, l: L): (r: Stack<L>)
    ensures r.layers == s.layers + [l]
    ensures r.index == s.index && r.hooks == s.hooks
  {
    s.(layers := s.layers + [l])
  }

  /** The position `std::find(begin, begin + m_LayerIndex, l)` returns. */
  function FindInRegion<L(==)>(s: Stack<L>, l: L): (p: nat)
    requires s.Valid()
    ensures p <= s.index
    ensures p < s.index <==> l in s.Region()
    ensures p < s.index ==> s.layers[p] == l
  {
    Find(s.layers[..s.index], l)
  }

  /** `PopLayer` as written: the search stops at `begin + m_LayerIndex` but
      its result is compared with `end()`. */
  function PopLayer<L(==)>(s: Stack<L>, l: L): (r: Result<Stack<L>, Fault>)
    ensures r.Err? <==> !s.Valid()
  {
    if s.index > |s.layers| then Err(IndexPastEnd)
    else
      var p := FindInRegion(s, l);
      if p == |s.layers| then Ok(s)
      else Ok(Stack(RemoveAt(s.layers, p), Dec(s.index), s.hooks + [Detach(l)]))
  }

  /** `PopOverlay` as written: the same bounded search over the layer region,
      the same comparison with `end()`, and no change to the index. */
  function PopOverlay<L(==)>(s: Stack<L>, l: L): (r: Result<Stack<L>, Fault>)
    ensures r.Err? <==> !s.Valid()
  {
    if s.index > |s.layers| then Err(IndexPastEnd)
    else
      var p := FindInRegion(s, l);
      if p == |s.layers| then Ok(s)
      else Ok(Stack(RemoveAt(s.layers, p), s.index, s.hooks + [Detach(l)]))
  }

  /** `PopLayer` with the comparison the search bound calls for
      (`it != begin + m_LayerIndex`). */
  function PopLayerFixed<L(==)>(s: Stack<L>, l: L): (r: Stack<L>)
    requires s.Valid()
    ensures r.Valid()
    ensures l !in s.Region() ==> r == s
    ensures l in s.Region() ==>
      && r.index == s.index - 1
      && r.Region() == RemoveAt(s.Region(), Find(s.Region(), l))
      && r.Overlays() == s.Overlays()
      && r.hooks == s.hooks + [Detach(l)]
  {
    var p := FindInRegion(s, l);
    if p == s.index then s
    else
      var r := Stack(RemoveAt(s.layers, p), s.index - 1, s.hooks + [Detach(l)]);
      assert r.layers[..r.index] == RemoveAt(s.layers[..s.index], p);
      assert r.layers[r.index..] == s.layers[s.index..];
      r
  }

  /** `PopOverlay` searching the overlay region `[begin + m_LayerIndex, end)`
      and comparing with its own end. */
  function PopOverlayFixed<L(==)>(s: Stack<L>, l: L): (r: Stack<L>)
    requires s.Valid()
    ensures r.Valid()
    ensures r.index == s.index
    ensures r.Region() == s.Region()
    ensures l !in s.Overlays() ==> r == s
    ensures l in s.Overlays() ==>
      && r.Overlays() == RemoveAt(s.Overlays(), Find(s.Overlays(), l))
      && r.hooks == s.hooks + [Detach(l)]
  {
    var q := Find(s.layers[s.index..], l);
    if q == |s.layers| - s.index then s
    else
      var r := Stack(RemoveAt(s.layers, s.index + q), s.index, s.hooks + [Detach(l)]);
      assert r.layers[..r.index] == s.layers[..s.index];
      assert r.layers[r.index..] == RemoveAt(s.layers[s.index..], q);
      r
  }

  // ---------------------------------------------------------------------
  // Properties of the operations as written
  // ---------------------------------------------------------------------

  /** Pushing a layer grows the layer region by `l` at its end and leaves
      the overlays where they were, so layers still precede overlays. */
  lemma PushLayerSplit<L>(s: Stack<L>, l: L)
    requires s.Valid() && s.index + 1 < U32
    ensures PushLayer(s, l).Ok?
    ensures var r := PushLayer(s, l).value;
      && r.Valid()
      && r.Region() == s.Region() + [l]
      && r.Overlays() == s.Overlays()
  {
    var r := PushLayer(s, l).value;
    assert r.layers[..r.index] == s.layers[..s.index] + [l];
    assert r.layers[r.index..] == s.layers[s.index..];
  }

  /** Pushing an overlay appends it after every existing element. */
  lemma PushOverlaySplit<L>(s: Stack<L>, l: L)
    requires s.Valid()
    ensures var r := PushOverlay(s, l);
      && r.Valid()
      && r.Region() == s.Region()
      && r.Overlays() == s.Overlays() + [l]
  {
    var r := PushOverlay(s, l);
    assert r.layers[..r.index] == s.layers[..s.index];
    assert r.layers[r.index..] == s.layers[s.index..] + [l];
  }

  /** `PopLayer` of a layer in the layer region removes exactly its first
      occurrence, decrements the index, and calls `OnDetach` on it. */
  lemma PopLayerPresent<L>(s: Stack<L>, l: L)
    requires s.Valid() && l in s.Region()
    ensures PopLayer(s, l) == Ok(PopLayerFixed(s, l))
    ensures var r := PopLayer(s, l).value;
      && r.index == s.index - 1
      && r.layers == RemoveAt(s.layers, Find(s.Region(), l))
      && r.Overlays() == s.Overlays()
  {
  }

  /** `PopLayer` of a pointer missing from the layer region is a no-op only
      when there are no overlays; otherwise it erases the first overlay,
      calls `OnDetach` on the argument and decrements the index. */
  lemma PopLayerAbsent<L>(s: Stack<L>, l: L)
    requires s.Valid() && l !in s.Region()
    ensures s.index == |s.layers| ==> PopLayer(s, l) == Ok(s)
    ensures s.index < |s.layers| ==>
      PopLayer(s, l) == Ok(Stack(RemoveAt(s.layers, s.index), Dec(s.index), s.hooks + [Detach(l)]))
  {
  }

  /** With an empty layer region and at least one overlay, a `PopLayer` of
      anything wraps the unsigned index to 2^32 - 1, past the end. */
  lemma PopLayerUnderflow<L>(s: Stack<L>, l: L)
    requires s.index == 0 && 0 < |s.layers| < U32
    ensures PopLayer(s, l).Ok?
    ensures PopLayer(s, l).value.index == U32 - 1
    ensures !PopLayer(s, l).value.Valid()
  {
  }

  /** Concrete run: one overlay, then a `PopLayer` of an unrelated pointer
      erases the overlay and breaks the split invariant. */
  lemma PopLayerCounterexample()
    ensures var s := PushOverlay(Empty<int>(), 7);
      var r := PopLayer(s, 3);
      && r.Ok? && r.value.layers == [] && r.value.index == U32 - 1
      && r.value.hooks == [Detach(3)]
      && !r.value.Valid()
  {
    var s := PushOverlay(Empty<int>(), 7);
    assert s.layers[..s.index] == [];
  }

  /** `PopOverlay` never matches an overlay: for a pointer outside the layer
      region it erases whatever element sits first in the overlay region. */
  lemma PopOverlayOnlySeesRegion<L>(s: Stack<L>, l: L)
    requires s.Valid() && l !in s.Region()
    ensures s.index == |s.layers| ==> PopOverlay(s, l) == Ok(s)
    ensures s.index < |s.layers| ==>
      PopOverlay(s, l) == Ok(Stack(RemoveAt(s.layers, s.index), s.index, s.hooks + [Detach(l)]))
  {
  }

  /** `PopOverlay` of a layer removes it but keeps the index, so the first
      overlay silently joins the layer region, or, with no overlays, the
      index ends past the end. */
  lemma PopOverlayKeepsIndex<L>(s: Stack<L>, l: L)
    requires s.Valid() && l in s.Region()
    ensures PopOverlay(s, l).Ok?
    ensures PopOverlay(s, l).value.index == s.index
    ensures |PopOverlay(s, l).value.layers| == |s.layers| - 1
    ensures s.index == |s.layers| ==> !PopOverlay(s, l).value.Valid()
  {
  }

  /** Concrete run: two overlays 7 and 8; popping overlay 8 removes 7. */
  lemma PopOverlayCounterexample()
    ensures var s := PushOverlay(PushOverlay(Empty<int>(), 7), 8);
      var r := PopOverlay(s, 8);
      r.Ok? && r.value.layers == [8] && r.value.hooks == [Detach(8)]
  {
    var s := PushOverlay(PushOverlay(Empty<int>(), 7), 8);
    assert s.layers == [7, 8];
    assert s.layers[..s.index] == [];
    assert RemoveAt(s.layers, 0) == [8];
  }

  /** `OnDetach` is called exactly when an element is erased. */
  lemma DetachOnlyOnErase<L>(s: Stack<L>, l: L)
    requires s.Valid()
    ensures var r := PopLayer(s, l).value;
      (r.hooks == s.hooks + [Detach(l)] && |r.layers| == |s.layers| - 1)
      || (r.hooks == s.hooks && r.layers == s.layers)
    ensures var r := PopOverlay(s, l).value;
      (r.hooks == s.hooks + [Detach(l)] && |r.layers| == |s.layers| - 1)
      || (r.hooks == s.hooks && r.layers == s.layers)
  {
  }

  // ---------------------------------------------------------------------
  // Properties of the corrected pops
  // ---------------------------------------------------------------------

  /** Pushing a fresh layer and popping it again restores the layers and
      the index; only the two hook calls remain. */
  lemma PushPopLayerRoundTrip<L>(s: Stack<L>, l: L)
    requires s.Valid() && s.index + 1 < U32 && l !in s.Region()
    ensures PushLayer(s, l).Ok?
    ensures var r := PopLayerFixed(PushLayer(s, l).value, l);
      r.layers == s.layers && r.index == s.index && r.hooks == s.hooks + [Attach(l), Detach(l)]
  {
    PushLayerSplit(s, l);
    var t := PushLayer(s, l).value;
    assert t.Region() == s.Region() + [l];
    FindAfter(s.Region(), l);
    assert Find(t.Region(), l) == s.index;
    var r := PopLayerFixed(t, l);
    assert r.Region() == s.Region();
    assert r.Overlays() == s.Overlays();
    assert r.layers == r.Region() + r.Overlays();
    assert s.layers == s.Region() + s.Overlays();
  }

  /** Pushing a fresh overlay and popping it again restores the stack. */
  lemma PushPopOverlayRoundTrip<L>(s: Stack<L>, l: L)
    requires s.Valid() && l !in s.Overlays()
    ensures var r := PopOverlayFixed(PushOverlay(s, l), l);
      r.layers == s.layers && r.index == s.index && r.hooks == s.hooks + [Detach(l)]
  {
    PushOverlaySplit(s, l);
    var t := PushOverlay(s, l);
    FindAfter(s.Overlays(), l);
    assert Find(t.Overlays(), l) == |s.Overlays()|;
    var r := PopOverlayFixed(t, l);
    assert r.Overlays() == s.Overlays();
    assert r.layers == r.Region() + r.Overlays();
    assert s.layers == s.Region() + s.Overlays();
  }

  lemma FindAfter<L>(xs: seq<L>, l: L)
    requires l !in xs
    ensures Find(xs + [l], l) == |xs|
    ensures RemoveAt(xs + [l], |xs|) == xs
  {
    assert (xs + [l])[|xs|] == l;
  }
}
