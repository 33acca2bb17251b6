/** Event payloads (Engine/src/Core/Events/Include/InputEvents.h,
    WindowEvents.h). Each payload class reports its `std::type_index`
    through `GetEventType`; here that index is an `EventType` value. */
module Events {

  datatype EventType =
    | KeyPressType
    | MouseButtonPressType
    | MouseScrollType
    | MouseMoveType
    | WindowCloseType
    | WindowResizeType
    | WindowMinimizeType
    | WindowFocusType
    | OtherType(name: string)

  datatype Event =
    | KeyPressEvent(key: int, action: int)
    | MouseButtonPressEvent(button: int, action: int)
    | MouseScrollEvent(xOffset: int, yOffset: int)
    | MouseMoveEvent(xPosition: real, yPosition: real)
    | WindowCloseEvent
    | WindowResizeEvent(width: int, height: int)
    | WindowMinimizeEvent(minimized: int)
    | WindowFocusEvent(focused: int)
    | OtherEvent(typeName: string, eventID: string)

  function TypeOf(e: Event): EventType {
    match e
    case KeyPressEvent(_, _) => KeyPressType
    case MouseButtonPressEvent(_, _) => MouseButtonPressType
    case MouseScrollEvent(_, _) => MouseScrollType
    case MouseMoveEvent(_, _) => MouseMoveType
    case WindowCloseEvent => WindowCloseType
    case WindowResizeEvent(_, _) => WindowResizeType
    case WindowMinimizeEvent(_) => WindowMinimizeType
    case WindowFocusEvent(_) => WindowFocusType
    case OtherEvent(n, _) => OtherType(n)
  }
}

/** `EventDispatcher` (Engine/src/Core/Events/Include/EventDispatcher.h): an
    unordered map from event type to the callbacks subscribed to it, in
    subscription order. Callbacks are represented by identifiers of type C;
    `Dispatch` returns the identifiers it invokes, in invocation order. */
module EventDispatcher {
  import opened Wrappers
  import opened Events

  type Subscribers<C> = map<EventType, seq<C>>

  function Callbacks<C>(m: Subscribers<C>, t: EventType): seq<C> {
    if t in m then m[t] else []
  }

  /** `m_Subscribers[eventType].push_back(callback)`: `operator[]` creates
      an empty list for a new type first. */
  function Subscribe<C>(m: Subscribers<C>, t: EventType, c: C): (r: Subscribers<C>)
    ensures r.Keys == m.Keys + {t}
    ensures Callbacks(r, t) == Callbacks(m, t) + [c]
    ensures forall u :: u != t ==> Callbacks(r, u) == Callbacks(m, u)
  {
    m[t := Callbacks(m, t) + [c]]
  }

  /** `m_Subscribers.erase(eventType)`: drops every callback of that type. */
  function Unsubscribe<C>(m: Subscribers<C>, t: EventType): (r: Subscribers<C>)
    ensures r.Keys == m.Keys - {t}
    ensures Callbacks(r, t) == []
    ensures forall u :: u != t ==> Callbacks(r, u) == Callbacks(m, u)
  {
    m - {t}
  }

  /** `Dispatch`: each callback registered for the event's type, once, in
      subscription order; nothing for a type without an entry. Being a pure
      function it cannot change the map, matching the `const` method. */
  function Dispatch<C>(m: Subscribers<C>, e: Event): (invoked: seq<C>)
    ensures TypeOf(e) !in m ==> invoked == []
    ensures TypeOf(e) in m ==> invoked == m[TypeOf(e)]
  {
    Callbacks(m, TypeOf(e))
  }

  /** Dispatching after a subscription reaches the new callback last, and
      after everything that was reached before. */
  lemma DispatchAfterSubscribe<C>(m: Subscribers<C>, t: EventType, c: C, e: Event)
    ensures TypeOf(e) == t ==> Dispatch(Subscribe(m, t, c), e) == Dispatch(m, e) + [c]
    ensures TypeOf(e) != t ==> Dispatch(Subscribe(m, t, c), e) == Dispatch(m, e)
  {
  }

  /** After `Unsubscribe(t)` no event of type t reaches anything, and other
      types are unaffected. */
  lemma DispatchAfterUnsubscribe<C>(m: Subscribers<C>, t: EventType, e: Event)
    ensures TypeOf(e) == t ==> Dispatch(Unsubscribe(m, t), e) == []
    ensures TypeOf(e) != t ==> Dispatch(Unsubscribe(m, t), e) == Dispatch(m, e)
  {
  }

  /** Unsubscribing every type in a list, one after the other. */
  function UnsubscribeAll<C>(m: Subscribers<C>, ts: seq<EventType>): (r: Subscribers<C>)
    ensures forall u :: u in ts ==> Callbacks(r, u) == []
    ensures forall u :: u !in ts ==> Callbacks(r, u) == Callbacks(m, u)
  {
    if |ts| == 0 then m else UnsubscribeAll(Unsubscribe(m, ts[0]), ts[1..])
  }

  /** What a callback does when it handles an event: the events it
      enqueues and the subscriber map it leaves. A callback may subscribe
      or unsubscribe while it runs, as the window's close handler does. */
  type Handler<!C> = (C, Event, Subscribers<C>) -> (seq<Event>, Subscribers<C>)

  /** The callbacks a dispatch reached, what they enqueued, in order, and
      the subscriber map they left. */
  datatype Run<C> = Run(invoked: seq<C>, enqueued: seq<Event>, subs: Subscribers<C>)

  /** A callback erased or changed the very list the dispatch loop was
      walking, leaving the loop's iterators dangling. */
  datatype Fault<C> = IteratorInvalidated(event: Event, callback: C)

  /** `Dispatch` running `entry`, the list found for e's type, from
      position k. As written (`copy` false) the loop walks the list inside
      the map by reference: once a callback erases its type's entry or
      changes that list, the loop goes on with iterators into a destroyed
      or reallocated vector, which is the fault. With `copy` the loop walks
      a copy of the list taken before the first callback. */
  function RunCallbacks<C(==)>(entry: seq<C>, k: nat, e: Event, m: Subscribers<C>, h: Handler<C>, copy: bool)
    : (r: Result<Run<C>, Fault<C>>)
    requires k <= |entry|
    ensures r.Ok? ==> r.value.invoked == entry[k..]
    ensures r.Err? ==> !copy && r.error.event == e && r.error.callback in entry[k..]
    ensures copy ==> r.Ok?
    decreases |entry| - k
  {
    if k == |entry| then Ok(Run([], [], m))
    else
      var (evs, m1) := h(entry[k], e, m);
      if !copy && Callbacks(m1, TypeOf(e)) != entry then Err(IteratorInvalidated(e, entry[k]))
      else match RunCallbacks(entry, k + 1, e, m1, h, copy)
        case Err(f) => Err(f)
        case Ok(rest) =>
          assert entry[k..] == [entry[k]] + entry[k + 1..];
          Ok(Run([entry[k]] + rest.invoked, evs + rest.enqueued, rest.subs))
  }

  /** Walking a copy changes nothing where the loop as written is
      defined: whenever no callback disturbs the list being walked, both
      runs agree. */
  lemma {:induction false} RunCallbacksAgree<C>(entry: seq<C>, k: nat, e: Event, m: Subscribers<C>, h: Handler<C>)
    requires k <= |entry|
    ensures RunCallbacks(entry, k, e, m, h, false).Ok? ==>
      RunCallbacks(entry, k, e, m, h, true) == RunCallbacks(entry, k, e, m, h, false)
    decreases |entry| - k
  {
    if k < |entry| {
      RunCallbacksAgree(entry, k + 1, e, h(entry[k], e, m).1, h);
    }
  }

  /** Callbacks that neither enqueue nor touch the map reach every callback
      of the list once, in order, in both runs. */
  lemma {:induction false} RunCallbacksQuiet<C>(entry: seq<C>, k: nat, e: Event, m: Subscribers<C>, h: Handler<C>, copy: bool)
    requires k <= |entry| && entry == Dispatch(m, e)
    requires forall c :: h(c, e, m) == ([], m)
    ensures RunCallbacks(entry, k, e, m, h, copy) == Ok(Run(entry[k..], [], m))
    decreases |entry| - k
  {
    if k < |entry| {
      assert h(entry[k], e, m) == ([], m);
      assert Callbacks(m, TypeOf(e)) == entry;
      RunCallbacksQuiet(entry, k + 1, e, m, h, copy);
      assert entry[k..] == [entry[k]] + entry[k + 1..];
      var none: seq<Event> := [];
      assert none + none == none;
    }
  }
}

/** `EventQueue` (Engine/src/Core/Events/Include/EventQueue.h): a FIFO of
    events drained by `process`, which pops the front and hands it to the
    dispatcher until the queue is empty. A callback may enqueue further
    events and change the subscriptions while it runs; both go through the
    handler. Because handlers may keep enqueueing forever, the drain takes
    a fuel bound; the source loop has none. */
module EventQueue {
  import opened Wrappers
  import opened Events
  import opened EventDispatcher

  /** `enqueue`: `std::queue::push`, at the back. */
  function Enqueue(q: seq<Event>, e: Event): (r: seq<Event>)
    ensures |r| == |q| + 1 && r[..|q|] == q && r[|q|] == e
  {
    q + [e]
  }

  /** The outcome of a drain: the events dispatched, in order, the
      callbacks invoked, in order, what is left when fuel runs out, and the
      subscriber map at the end. */
  datatype Drain<C> = Drain(dispatched: seq<Event>, invoked: seq<C>, remaining: seq<Event>, subs: Subscribers<C>)

  /** `process`, each event dispatched as written (`copy` false) or over a
      copy of its callback list. */
  function Process<C(==)>(q: seq<Event>, m: Subscribers<C>, h: Handler<C>, fuel: nat, copy: bool)
    : (r: Result<Drain<C>, Fault<C>>)
    ensures |q| == 0 ==> r == Ok(Drain([], [], [], m))
    ensures r.Ok? && r.value.remaining != [] ==> |r.value.dispatched| == fuel
    ensures r.Ok? ==> |r.value.dispatched| <= fuel
    ensures copy ==> r.Ok?
    decreases fuel
  {
    if |q| == 0 then Ok(Drain([], [], [], m))
    else if fuel == 0 then Ok(Drain([], [], q, m))
    else
      var e := q[0];
      match RunCallbacks(Dispatch(m, e), 0, e, m, h, copy)
      case Err(f) => Err(f)
      case Ok(run) =>
        match Process(q[1..] + run.enqueued, run.subs, h, fuel - 1, copy)
        case Err(f) => Err(f)
        case Ok(rest) => Ok(Drain([e] + rest.dispatched, run.invoked + rest.invoked, rest.remaining, rest.subs))
  }

  /** FIFO: with fuel for at least the queued events, those events are the
      first ones dispatched, in queue order, whatever is enqueued behind
      them. */
  lemma {:induction false} ProcessPrefix<C>(q: seq<Event>, extra: seq<Event>, m: Subscribers<C>,
                                           h: Handler<C>, fuel: nat, copy: bool)
    requires fuel >= |q|
    ensures var r := Process(q + extra, m, h, fuel, copy);
      r.Ok? ==> |r.value.dispatched| >= |q| && r.value.dispatched[..|q|] == q
    decreases |q|
  {
    if |q| > 0 {
      var e := q[0];
      var qe := q + extra;
      assert qe[0] == e;
      var run := RunCallbacks(Dispatch(m, e), 0, e, m, h, copy);
      if run.Ok? {
        var added := run.value.enqueued;
        var tail := q[1..] + (extra + added);
        assert tail == qe[1..] + added;
        ProcessStep(qe, m, h, fuel, copy, tail);
        ProcessPrefix(q[1..], extra + added, run.value.subs, h, fuel - 1, copy);
        var r := Process(qe, m, h, fuel, copy);
        if r.Ok? {
          var d := Process(tail, run.value.subs, h, fuel - 1, copy).value.dispatched;
          PrefixStep(q, d);
        }
      } else {
        ProcessFails(qe, m, h, fuel, copy);
      }
    }
  }

  /** One turn of the drain: the front event's callbacks run, and a
      successful drain is that event followed by the drain of the rest of
      the queue with whatever the callbacks enqueued. */
  lemma ProcessStep<C>(q: seq<Event>, m: Subscribers<C>, h: Handler<C>, fuel: nat, copy: bool, tail: seq<Event>)
    requires |q| > 0 && fuel > 0
    requires RunCallbacks(Dispatch(m, q[0]), 0, q[0], m, h, copy).Ok?
    requires tail == q[1..] + RunCallbacks(Dispatch(m, q[0]), 0, q[0], m, h, copy).value.enqueued
    ensures var run := RunCallbacks(Dispatch(m, q[0]), 0, q[0], m, h, copy).value;
      var r := Process(q, m, h, fuel, copy);
      var rest := Process(tail, run.subs, h, fuel - 1, copy);
      && (r.Ok? <==> rest.Ok?)
      && (r.Ok? ==> r.value.dispatched == [q[0]] + rest.value.dispatched)
  {
  }

  /** A fault in the front event's callbacks is a fault of the drain. */
  lemma ProcessFails<C>(q: seq<Event>, m: Subscribers<C>, h: Handler<C>, fuel: nat, copy: bool)
    requires |q| > 0 && fuel > 0
    requires RunCallbacks(Dispatch(m, q[0]), 0, q[0], m, h, copy).Err?
    ensures Process(q, m, h, fuel, copy).Err?
  {
  }

  /** Events a handler enqueues while handling the front event are
      dispatched in the same drain, right after everything already queued. */
  lemma HandlerEventsFollow<C>(q: seq<Event>, m: Subscribers<C>, h: Handler<C>, fuel: nat, copy: bool)
    requires |q| > 0
    requires var run := RunCallbacks(Dispatch(m, q[0]), 0, q[0], m, h, copy);
      run.Ok? && fuel >= |q| + |run.value.enqueued|
    ensures var added := RunCallbacks(Dispatch(m, q[0]), 0, q[0], m, h, copy).value.enqueued;
      var r := Process(q, m, h, fuel, copy);
      r.Ok? ==> |r.value.dispatched| >= |q| + |added| && r.value.dispatched[..|q| + |added|] == q + added
  {
    var run := RunCallbacks(Dispatch(m, q[0]), 0, q[0], m, h, copy).value;
    var added := run.enqueued;
    var tail := q[1..] + added;
    ProcessPrefix(tail, [], run.subs, h, fuel - 1, copy);
    assert tail + [] == tail;
    var rest := Process(tail, run.subs, h, fuel - 1, copy);
    var r := Process(q, m, h, fuel, copy);
    if r.Ok? {
      assert r.value.dispatched == [q[0]] + rest.value.dispatched;
      PrefixCons(q[0], rest.value.dispatched, tail);
      assert q == [q[0]] + q[1..];
      assert [q[0]] + tail == q + added;
    }
  }

  /** A queue is a prefix of its front followed by anything that starts
      with the rest of the queue. */
  lemma PrefixStep<T>(q: seq<T>, d: seq<T>)
    requires |q| > 0 && |d| >= |q| - 1 && d[..|q| - 1] == q[1..]
    ensures |[q[0]] + d| >= |q| && ([q[0]] + d)[..|q|] == q
  {
    assert ([q[0]] + d)[..|q|] == [q[0]] + d[..|q| - 1];
  }

  lemma PrefixCons<T>(x: T, s: seq<T>, t: seq<T>)
    requires |s| >= |t| && s[..|t|] == t
    ensures ([x] + s)[..1 + |t|] == [x] + t
  {
  }

  /** When no handler enqueues anything or touches the subscriptions, a
      drain with enough fuel dispatches exactly the queue, in order,
      reaching each event's callbacks in turn, and leaves the queue empty;
      the loop as written is then safe. */
  lemma {:induction false} ProcessQuiet<C>(q: seq<Event>, m: Subscribers<C>, h: Handler<C>, fuel: nat, copy: bool)
    requires forall c, e :: h(c, e, m) == ([], m)
    requires fuel >= |q|
    ensures Process(q, m, h, fuel, copy) == Ok(Drain(q, DispatchAll(m, q), [], m))
    decreases |q|
  {
    if |q| > 0 {
      var entry := Dispatch(m, q[0]);
      assert forall c :: h(c, q[0], m) == ([], m);
      RunCallbacksQuiet(entry, 0, q[0], m, h, copy);
      assert entry[0..] == entry;
      assert q[1..] + [] == q[1..];
      ProcessQuiet(q[1..], m, h, fuel - 1, copy);
      assert q == [q[0]] + q[1..];
    }
  }

  /** Reference for a quiet drain: each event's callbacks, event after event. */
  function DispatchAll<C>(m: Subscribers<C>, q: seq<Event>): seq<C> {
    if |q| == 0 then [] else Dispatch(m, q[0]) + DispatchAll(m, q[1..])
  }

  /** Draining with copied callback lists agrees with the drain as written
      wherever the latter is defined. */
  lemma {:induction false} ProcessAgree<C>(q: seq<Event>, m: Subscribers<C>, h: Handler<C>, fuel: nat)
    ensures Process(q, m, h, fuel, false).Ok? ==> Process(q, m, h, fuel, true) == Process(q, m, h, fuel, false)
    decreases fuel
  {
    if |q| > 0 && fuel > 0 {
      var e := q[0];
      RunCallbacksAgree(Dispatch(m, e), 0, e, m, h);
      var run := RunCallbacks(Dispatch(m, e), 0, e, m, h, false);
      if run.Ok? {
        ProcessAgree(q[1..] + run.value.enqueued, run.value.subs, h, fuel - 1);
      }
    }
  }

  /** As written, a drain whose front event's first callback erases or
      changes that event's callback list fails there, before any later
      event is dispatched; walking a copy, the same drain completes and
      reaches every callback of the list. */
  lemma EraseDuringDispatch<C>(q: seq<Event>, m: Subscribers<C>, h: Handler<C>, fuel: nat)
    requires |q| > 0 && fuel > 0 && |Dispatch(m, q[0])| > 0
    requires Callbacks(h(Dispatch(m, q[0])[0], q[0], m).1, TypeOf(q[0])) != Dispatch(m, q[0])
    ensures Process(q, m, h, fuel, false) == Err(IteratorInvalidated(q[0], Dispatch(m, q[0])[0]))
    ensures var r := Process(q, m, h, fuel, true);
      && r.Ok? && |r.value.dispatched| > 0 && r.value.dispatched[0] == q[0]
      && |r.value.invoked| >= |Dispatch(m, q[0])|
      && r.value.invoked[..|Dispatch(m, q[0])|] == Dispatch(m, q[0])
  {
    var entry := Dispatch(m, q[0]);
    var run := RunCallbacks(entry, 0, q[0], m, h, true);
    assert entry[0..] == entry;
    assert run.value.invoked == entry;
  }
}

/** `EventManager` and `EventListener` (Engine/src/Core/Events/Include/
    EventManager.h, EventListener.h): a plain list of listener pointers,
    managed with push_back and erase-remove. Listeners are identified by a
    value of type L. */
module EventManager {
  import opened Wrappers
  import opened Events

  /** `AddListener`: `push_back`, duplicates allowed. */
  function AddListener<L>(ls: seq<L>, l: L): (r: seq<L>)
    ensures r == ls + [l]
  {
    ls + [l]
  }

  /** `RemoveListener`: `erase(remove(begin, end, l), end)`. */
  function RemoveListener<L(==)>(ls: seq<L>, l: L): (r: seq<L>)
    ensures l !in r
    ensures forall x :: x in r ==> x in ls
    ensures forall x :: x in ls && x != l ==> multiset(r)[x] == multiset(ls)[x]
    ensures |r| <= |ls|
  {
    if |ls| == 0 then []
    else if ls[0] == l then
      assert ls == [ls[0]] + ls[1..];
      RemoveListener(ls[1..], l)
    else
      assert ls == [ls[0]] + ls[1..];
      [ls[0]] + RemoveListener(ls[1..], l)
  }

  /** `Dispatch`: `onEvent` on every entry, in list order, one call per
      entry (a listener added twice is called twice). */
  function Dispatch<L>(ls: seq<L>): (called: seq<L>)
    ensures |called| == |ls|
    ensures forall i :: 0 <= i < |ls| ==> called[i] == ls[i]
  {
    ls
  }

  /** Erase-remove keeps the survivors in their relative order: it
      distributes over concatenation. */
  lemma {:induction false} RemoveListenerConcat<L>(a: seq<L>, b: seq<L>, l: L)
    ensures RemoveListener(a + b, l) == RemoveListener(a, l) + RemoveListener(b, l)
    decreases |a|
  {
    if |a| > 0 {
      assert (a + b)[0] == a[0];
      assert (a + b)[1..] == a[1..] + b;
      RemoveListenerConcat(a[1..], b, l);
    } else {
      assert a + b == b;
    }
  }

  /** Removing a listener that is not in the list changes nothing. */
  lemma {:induction false} RemoveAbsent<L>(ls: seq<L>, l: L)
    requires l !in ls
    ensures RemoveListener(ls, l) == ls
    decreases |ls|
  {
    if |ls| > 0 {
      RemoveAbsent(ls[1..], l);
      assert ls == [ls[0]] + ls[1..];
    }
  }

  /** Removal cancels every earlier addition of the same listener. */
  lemma RemoveAfterAdd<L>(ls: seq<L>, l: L)
    ensures RemoveListener(AddListener(ls, l), l) == RemoveListener(ls, l)
  {
    RemoveListenerConcat(ls, [l], l);
    assert RemoveListener([l], l) == [];
  }

  /** An `EventListener`: the manager it registered with and the last event
      handed to its `onEvent`. */
  datatype Listener<L> = Listener(id: L, lastEvent: Option<Event>)

  /** The constructor registers the new listener with its manager. */
  function Construct<L>(ls: seq<L>, id: L): (r: (seq<L>, Listener<L>))
    ensures r.0 == ls + [id]
    ensures r.1.id == id && r.1.lastEvent == None
  {
    (AddListener(ls, id), Listener(id, None))
  }

  /** `onEvent` stores the event. */
  function OnEvent<L>(x: Listener<L>, e: Event): (r: Listener<L>)
    ensures r.id == x.id && r.lastEvent == Some(e)
  {
    x.(lastEvent := Some(e))
  }

  /** `DetachEvent`: the manager forgets every occurrence of the listener. */
  function DetachEvent<L(==)>(ls: seq<L>, x: Listener<L>): (r: seq<L>)
    ensures x.id !in r
  {
    RemoveListener(ls, x.id)
  }

  /** After `DetachEvent`, a later dispatch does not reach the listener,
      whatever was added in between as long as it was not this listener,
      and every other listener is reached as often as before. */
  lemma DetachedNotReached<L>(ls: seq<L>, x: Listener<L>, later: seq<L>)
    requires x.id !in later
    ensures x.id !in Dispatch(DetachEvent(ls, x) + later)
    ensures forall y :: y in ls && y != x.id ==>
      multiset(Dispatch(DetachEvent(ls, x)))[y] == multiset(ls)[y]
  {
  }

  /** Construction followed by detachment leaves the manager as if the
      listener had been removed from the original list. */
  lemma ConstructThenDetach<L>(ls: seq<L>, id: L)
    ensures var (ls', x) := Construct(ls, id); DetachEvent(ls', x) == RemoveListener(ls, id)
  {
    RemoveAfterAdd(ls, id);
  }
}
